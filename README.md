# StaySync booking API, modelled in Dafny

StaySync is an Express/MySQL REST API for short-stay rentals in Taiwan. It stores
three tables: Users (property owners), Properties (each owned by a user) and
Bookings (each of one property). Every HTTP request runs three steps:

- A Joi schema validates the body or query (`middleware/validation.js`).
- `parseInt` reads the `:id` path segment.
- The route handler (`routes/users.js`, `routes/properties.js`, `routes/bookings.js`) runs its `SELECT`s, decides, and performs at most one `INSERT`, `UPDATE` or `DELETE`.

This project models those steps. It also proves what the handlers guarantee:

- A new or re-dated booking is refused with 409 when an active booking of the same property clashes with its dates.
- A booking's status only moves along 已預訂 → 已入住 → 已退房, with 已預訂 → 已取消 as the only other step.
- Only a cancelled booking can be deleted.
- A user who owns properties, or a property that any booking references, cannot be deleted.
- A partial update writes exactly the keys the client sent.
- List endpoints return one page of a newest-first result, holding `min(limit, total - offset)` rows, with counts that agree with `Math.ceil`. Properties and bookings are ordered by descending id; users by `created_at DESC`, which the model takes in descending id order (see "## Left out").
- The batch availability check, once its schema is compiled by `Joi.object`, answers one record per requested property or names the missing ids. As written it answers 500 to every request (see "## Findings").

## Layout

| file | module | contents |
|---|---|---|
| wrappers.dfy | `Wrappers` | `Option` |
| records.dfy | `Records` | the rows, the status and channel enumerations with their literals, the error codes, `Result` |
| jsparse.dfy | `JsParse` | `parseInt` as ECMA-262 defines it, and `String(n)` |
| patterns.dfy | `Patterns` | the three regular expressions of `validation.js` and what they accept |
| validation.dfy | `Validation` | every Joi schema of the core, as a function from a body to accepted values or the failing keys |
| paging.dfy | `Paging` | `OFFSET`, `LIMIT` and `Math.ceil(total / limit)` |
| seqs.dfy | `Seqs` | `WHERE` (filter), `ORDER BY … DESC` (reverse) and `ORDER BY … ASC` (sort) on rows |
| bookingrules.dfy | `BookingRules` | the conflict query, the transition table, the stay phase and amounts, and the calendar invariant |
| tables.dfy | `Tables` | a `Snapshot` of the three tables, lookups, and the integrity rules the schema and routes keep |
| reads.dfy | `Reads` | the GET handlers and the batch check, on a snapshot |
| writes.dfy | `Writes` | the POST/PUT/PATCH/DELETE handlers as functions from a snapshot to an answer and a new snapshot |
| store.dfy | `Store` | a `Database` class whose fields are the tables and AUTO_INCREMENT counters, and whose methods run each write handler step by step |
| scenarios.dfy | `Scenarios` | what a client sees over several requests |

Each table is a sequence of rows in ascending id order, which is the order AUTO_INCREMENT gives them. Dates are whole day numbers. `now` (the instant of a request, in milliseconds) and `today` (`CURDATE()`) are parameters.

The date test of the conflict query is `(check_in <= newOut AND check_out > newIn) OR (check_in < newOut AND check_out >= newIn)`. For well-formed stays this is the closed intersection of the two date ranges, not the half-open overlap `[check_in, check_out)`. So, on day numbers, a stay that begins on another's check-out day is refused (`BookingRules.BackToBackConflicts`). The model follows the SQL as written. This holds when the dates Joi parses and the `DATE` columns are read in the same time zone, as they are in a process running in UTC (see "## Left out").

`PUT /bookings/:id` accepts a `status` key (middleware/validation.js:119) and does not consult the transition table. When it sends no date it also skips the conflict query. So a `PUT` can turn a cancelled booking back into 已預訂 over another booking's dates (`Writes.ReopeningIsAccepted`, `Writes.ReopenedBookingCanCollide`). The model keeps this behaviour, and `Writes.PutBookingKeepsCalendar` proves the calendar invariant for every other `PUT`.

## Model

| member | source | states |
|---|---|---|
| Records.ParseStatus | middleware/validation.js:102 | a status text is accepted exactly when it is one of the four literals, and maps to the status that has that literal |
| Records.ParseChannel | middleware/validation.js:83 | a channel text is accepted exactly when it is one of the four channel literals, and maps to the channel that has it |
| Records.StatusRoundTrip | middleware/validation.js:102 | the four status literals are distinct: reading back a status's literal gives that status |
| Records.ChannelRoundTrip | middleware/validation.js:83 | the four channel literals are distinct |
| JsParse.TrimStart | routes/bookings.js:131 | `parseInt` drops exactly the leading ECMAScript white space and line terminators |
| JsParse.DigitRun | routes/bookings.js:131 | the digits `parseInt` reads are the longest prefix of digits of the radix |
| JsParse.ParseInt | routes/bookings.js:131-139 | `parseInt(req.params.id)` is NaN exactly when no digit follows the white space, the sign and an optional `0x`/`0X` prefix |
| JsParse.DecimalString | routes/bookings.js:131 | `String(n)` is a non-empty run of decimal digits without a leading zero |
| JsParse.DecimalValue | routes/bookings.js:131 | reading the decimal numeral of `n` gives `n` |
| JsParse.ParseIntStopsAtNonDigit | routes/users.js:66-74 | `parseInt` of a numeral followed by a non-digit (such as `"12abc"`) is the numeral's value: trailing text is ignored |
| JsParse.ParseIntRoundTrip | routes/users.js:66-74 | `parseInt(String(n)) == n` for every integer, so an id the API returned is read back as that id |
| JsParse.ParseIntSkipsWhitespace | routes/users.js:66 | leading white space never changes what `parseInt` returns |
| Patterns.TaxIdAccepts | middleware/validation.js:7 | `/^\d{8}$/` accepts exactly the strings of eight ASCII digits |
| Patterns.TaiwanIdAccepts | middleware/validation.js:4 | `/^[A-Z][12]\d{8}$/` accepts exactly an upper-case letter, then 1 or 2, then eight digits |
| Patterns.PhoneAccepts | middleware/validation.js:10 | `/^09\d{2}-?\d{3}-?\d{3}$/` accepts exactly "09", two digits, and two groups of three digits, each group with or without a leading '-' |
| Patterns.PhoneLengthAndDigits | middleware/validation.js:10 | an accepted mobile number has 10 to 12 characters, exactly ten of them digits |
| Patterns.MatchLength | middleware/validation.js:10 | a string a pattern accepts is at least as long as the pattern's mandatory terms and at most one character per term |
| Patterns.MatchDigitCount | middleware/validation.js:10 | with digit terms and non-digit optional separators, an accepted string holds one digit per mandatory term |
| Validation.FailedFields | middleware/validation.js:170-183 | with `abortEarly: false`, the error lists every failing key and only those, and is empty exactly when every rule passes |
| Validation.Decide | middleware/validation.js:170-192 | the validated value is accepted exactly when every rule passes; otherwise the failing keys are reported |
| Validation.ValidateUserCreate | middleware/validation.js:14-32 | a new user is accepted exactly when the name has 2–100 characters, the email 1–150, and each optional tax id, phone, bank code and account meets its rule; the values pass through |
| Validation.ValidateUserUpdate | middleware/validation.js:34-41 | the same rules, every key optional |
| Validation.ValidatePropertyCreate | middleware/validation.js:46-67 | a new property is accepted exactly when the owner id is a positive safe integer, each text is in range and the price is an integer from 500 to 50000 |
| Validation.ValidatePropertyUpdate | middleware/validation.js:69-76 | the same rules, every key optional; `owner_id` is stripped |
| Validation.ValidateBookingCreate | middleware/validation.js:81-103 | a new booking is accepted exactly when the property id is positive, check-in is not in the past, check-out is after check-in, the amount is at least 0 and the texts are in range; the channel defaults to 官網直訂, the status to 已預訂, and both flags to true |
| Validation.ChannelOf | middleware/validation.js:106 | an optional channel that passed its rule maps to the channel with that literal |
| Validation.StatusOf | middleware/validation.js:119 | an optional status that passed its rule maps to the status with that literal |
| Validation.ValidateBookingUpdate | middleware/validation.js:105-120 | an update is accepted exactly when each sent key meets its rule and, when both dates are sent, check-out is later; a lone date is not compared; `property_id` is stripped |
| Validation.ValidateStatusUpdate | middleware/validation.js:122-124 | the status body is accepted exactly when `status` is one of the four literals, and yields that status |
| Validation.StatusUpdateAcceptsNames | middleware/validation.js:122-124 | every status's own literal is accepted as that status |
| Validation.ValidatePage | routes/users.js:13-16 | `page` and `limit` are accepted exactly when `page >= 1` and `1 <= limit <= 100`, with defaults 1 and 10 |
| Validation.ValidatePropertySearch | routes/properties.js:13-28 | the property query is accepted exactly when paging, texts and prices meet their rules and check-out follows check-in when both are sent |
| Validation.ValidateBookingSearch | routes/bookings.js:14-30 | the booking query is accepted exactly when paging, status, channel, property id, guest name and date range meet their rules |
| Validation.ValidateDateRange | routes/properties.js:439-446 | the availability query is accepted exactly when `end_date` follows `start_date` or either is missing |
| Validation.ValidateBatch | routes/bookings.js:547-551 | the batch keys, validated as a compiled schema would: 1 to 20 positive ids, check-in not in the past, check-out after check-in |
| Validation.AcceptedUserIdentifiers | middleware/validation.js:24-29 | an accepted tax id is eight digits; an accepted phone has 10 to 12 characters with ten digits, in one of the four shapes |
| Validation.AcceptedPriceInRange | middleware/validation.js:62-75 | create and update keep every accepted price in 500..50000 |
| Validation.AcceptedBookingWellFormed | middleware/validation.js:82-98 | an accepted booking has a positive property id, a non-empty stay starting no earlier than `now`, and an amount of at least 0 |
| Validation.UpdatesIgnoreForeignKeys | middleware/validation.js:69-76 | keys that are not in an update schema (`owner_id`, `property_id`) never change the outcome |
| Validation.LoneDateAccepted | middleware/validation.js:109-114 | an update that sends one date only is accepted whatever the date is |
| Validation.GuestIdNotPatternChecked | middleware/validation.js:87-89 | the identity-number pattern (line 4) is declared but not applied to `guest_id_no`: for any booking, the value "12345678", which the pattern refuses, is accepted exactly when the well-formed "A123456789" is |
| Paging.Offset | routes/users.js:24 | `(page - 1) * limit` is the number of rows on the earlier pages |
| Paging.PageCount | routes/users.js:46 | `Math.ceil(total / limit)` is 0 for no rows, and otherwise the least page count that holds every row |
| Paging.PageRows | routes/users.js:31-37 | `LIMIT … OFFSET …` gives exactly `min(limit, total - offset)` consecutive rows from the offset, and none when the offset is past the end |
| Paging.RowOnItsPage | routes/users.js:24-37 | every row appears on page `k / limit + 1`, at position `k % limit` |
| Paging.PagesAreDisjoint | routes/users.js:24-37 | no row appears on two pages |
| Seqs.Filter | routes/bookings.js:41-72 | a `WHERE` clause returns a row exactly when the table holds it and it satisfies the clause |
| Seqs.FilterKeepsOrder | routes/bookings.js:41-72 | the rows a `WHERE` clause keeps stay in table order, as a subsequence of the table, and each occurs as often as in the table |
| Seqs.Reverse | routes/bookings.js:99 | the rows in the opposite order, the same rows |
| Seqs.ReverseDescending | routes/bookings.js:99 | `ORDER BY id DESC` of rows stored in ascending id order is in descending id order |
| Seqs.FilterAscending | routes/bookings.js:41-72 | a filter of rows with ascending ids keeps the ids ascending |
| Seqs.SortBy | routes/properties.js:490 | `ORDER BY check_in ASC` is a permutation of the rows with nondecreasing check-in |
| BookingRules.Conflicts | routes/bookings.js:217-226 | the conflict query returns exactly the bookings of the property that are 已預訂 or 已入住, are not the excluded id, and whose dates clash with the stay |
| BookingRules.ClashExactly | routes/bookings.js:221-224 | the two date clauses hold exactly for the closed intersection of the two ranges, less the case where the stored stay is the requested one inverted |
| BookingRules.ClashIsClosedIntersection | routes/bookings.js:221-224 | for stays with check-in before check-out, the test is `check_in <= newOut && check_out >= newIn` |
| BookingRules.BackToBackConflicts | routes/bookings.js:221-224 | a stay starting on another's check-out day, or ending on its check-in day, is a conflict |
| BookingRules.HalfOpenOverlapConflicts | routes/bookings.js:221-224 | every half-open overlap is a conflict, and the only non-overlapping conflicts are stays that touch |
| BookingRules.ClashSymmetric | routes/bookings.js:221-224 | which of the two stays is the stored one does not matter |
| BookingRules.WithinClauseRedundant | routes/properties.js:481-487 | for well-formed rows and ranges, the availability query's third clause adds nothing |
| BookingRules.WithinClauseMatchesInvertedRow | routes/properties.js:485 | a row stored with check-out before check-in can match the third clause alone |
| BookingRules.AppendWithoutConflictPreserves | routes/bookings.js:216-253 | inserting a booking the conflict query does not reject keeps every property free of clashing active bookings |
| BookingRules.KeepDatesPreserves | routes/bookings.js:458-461 | rewriting a booking with the same property and dates, and not making it active, keeps the calendar free of collisions |
| BookingRules.ReplaceWithoutConflictPreserves | routes/bookings.js:320-373 | replacing a booking with dates the update's conflict query (itself excluded) does not reject keeps the calendar free of collisions |
| BookingRules.RemovePreserves | routes/bookings.js:526 | removing a booking keeps the calendar free of collisions |
| BookingRules.AllowedTransitions | routes/bookings.js:439-444 | 已退房 and 已取消 are final: they have no transition |
| BookingRules.TransitionTable | routes/bookings.js:439-446 | the allowed changes are exactly 已預訂→已入住, 已預訂→已取消 and 已入住→已退房 |
| BookingRules.TransitionMovesForward | routes/bookings.js:439-446 | every allowed change moves forward along the lifecycle, never to itself, and never makes a booking active again |
| BookingRules.LifecycleRank | routes/bookings.js:439-446 | along any chain of allowed changes, the lifecycle position grows by at least one per step |
| BookingRules.LifecycleIsShort | routes/bookings.js:439-446 | a booking changes status at most twice, and a two-step chain is 已預訂, 已入住, 已退房 |
| BookingRules.PhaseNeverUnknown | routes/bookings.js:153-158 | the `CASE` of `current_status` never reaches 未知, and 住宿中 holds exactly when today is within the stay |
| BookingRules.AmountUsedPositive | routes/bookings.js:239-244 | with a valid price and stay, the stored amount is the client's amount when it is not 0, and otherwise at least one night's price |
| Tables.FindUser | routes/users.js:76-90 | the lookup by `user_id` finds a row with that id, and none exactly when no user has it |
| Tables.FindProperty | routes/properties.js:149-167 | the lookup by `property_id` finds a row with that id, and none exactly when no property has it |
| Tables.FindBooking | routes/bookings.js:307-318 | the lookup by `booking_id` finds a row with that id, and none exactly when no booking has it |
| Tables.FindEmail | routes/users.js:168-174 | the UNIQUE key lookup finds the user holding the email, and none exactly when nobody holds it |
| Tables.CountOwned | routes/users.js:308-319 | `COUNT(*) … WHERE owner_id = ?` is the number of properties whose owner is the user, the count the refusal message reports; it is 0 exactly when the user owns none |
| Tables.CountBookings | routes/properties.js:401-415 | `COUNT(*) … WHERE property_id = ?` is the number of bookings of any status that reference the property, the `booking_count` of the refusal; it is 0 exactly when there are none |
| Tables.Without | routes/users.js:322 | a row `DELETE` keeps every other row, in order |
| Tables.BookingIdsDistinct | routes/bookings.js:307-310 | with ascending ids, no two bookings share an id |
| Tables.InsertUserKeeps | routes/users.js:145-149 | an `INSERT INTO Users` with the next id and an unused email keeps the integrity rules and advances the counter |
| Tables.UpdateUserKeeps | routes/users.js:238-241 | an `UPDATE Users` that keeps the id and gives no other user's email keeps the integrity rules |
| Tables.DeleteUserKeeps | routes/users.js:307-322 | deleting a user who owns no property keeps every property's owner present |
| Tables.InsertPropertyKeeps | routes/properties.js:241-257 | inserting a property with an existing owner and a validated price keeps the integrity rules |
| Tables.UpdatePropertyKeeps | routes/properties.js:339-342 | an `UPDATE Properties` that keeps id and owner and a validated price keeps the integrity rules |
| Tables.DeletePropertyKeeps | routes/properties.js:400-418 | deleting a property no booking references keeps every booking's property present |
| Tables.InsertBookingKeeps | routes/bookings.js:203-253 | inserting a booking of an existing property with an amount of at least 0 keeps the integrity rules |
| Tables.UpdateBookingKeeps | routes/bookings.js:370-373 | an `UPDATE Bookings` that keeps id and property and an amount of at least 0 keeps the integrity rules |
| Tables.DeleteBookingKeeps | routes/bookings.js:526 | deleting a booking keeps the integrity rules |
| Reads.NumberOr | routes/users.js:22-23 | `parseInt(v) \|\| d` is `v` unless `v` is 0, and `d` then |
| Reads.ListPage | routes/users.js:22-47 | a list response holds exactly `min(limit, total - offset)` rows (none past the end), taken consecutively from the offset, and counts all rows in `total` and `pages` |
| Reads.NewestPage | routes/users.js:31-37 | one page of the rows in descending id order: it holds exactly `min(limit, total - offset)` rows, and row `i` of the page is the row `offset + i` places from the end |
| Reads.NewestPageDescending | routes/bookings.js:99-100 | a page of rows stored in ascending id order is in descending id order |
| Reads.ListUsers | routes/users.js:12-48 | `GET /users` answers 400 with the failing keys when paging is invalid, and otherwise a newest-first page of all users, with as many rows as `LIMIT … OFFSET …` returns |
| Reads.GetUser | routes/users.js:64-90 | `GET /users/:id` answers 400 for an id `parseInt` cannot read, 404 when no user has it, and otherwise that user |
| Reads.GetUserProperties | routes/users.js:342-369 | `GET /users/:id/properties` answers 400 for an unreadable id, and otherwise exactly the properties that user owns (none for an unknown user) |
| Reads.UserPropertiesNewestFirst | routes/users.js:362 | the owned properties come highest id first |
| Reads.ListedProperties | routes/properties.js:39-75 | the property `WHERE` keeps exactly the properties with an existing owner that match every given filter and, with both dates, have no clashing active booking |
| Reads.ListProperties | routes/properties.js:12-120 | `GET /properties` answers 400 with the failing keys, or a newest-first page of the matching properties, with as many rows as `LIMIT … OFFSET …` returns |
| Reads.ListedPropertiesNewestFirst | routes/properties.js:100-101 | a page of the property list is in descending id order |
| Reads.ListedIffFree | routes/properties.js:62-74 | with both dates and no other filter, a property is listed exactly when none of its active bookings clashes with the stay |
| Reads.ListedWithoutDates | routes/properties.js:63 | with either date missing, the availability filter is not applied |
| Reads.ZeroMaxPriceIgnored | routes/properties.js:57-60 | `max_price=0` passes the schema and then lists what no `max_price` lists |
| Reads.GetProperty | routes/properties.js:136-167 | `GET /properties/:id` answers 400 for an unreadable id, 404 unless the property and its owner exist, and otherwise both |
| Reads.OccupiedRows | routes/properties.js:474-492 | the availability query keeps exactly the property's active bookings that, with both dates, overlap the range by one of the three clauses |
| Reads.PropertyAvailability | routes/properties.js:438-508 | `GET /properties/:id/availability`: 400 for a bad range or id, 404 for an unknown property, otherwise its occupied bookings sorted by check-in, and available exactly when there are none |
| Reads.OccupiedIsConflicts | routes/properties.js:481-487 | for well-formed rows and range, the availability rows are the rows of the conflict query |
| Reads.ListedBookings | routes/bookings.js:41-72 | the booking `WHERE` keeps exactly the joined bookings matching every given filter |
| Reads.ListBookings | routes/bookings.js:13-113 | `GET /bookings` answers 400 with the failing keys, or a newest-first page of the matching bookings, with as many rows as `LIMIT … OFFSET …` returns |
| Reads.ListedBookingsNewestFirst | routes/bookings.js:99-100 | a page of the booking list is in descending id order |
| Reads.GetBooking | routes/bookings.js:129-177 | `GET /bookings/:id` answers 400 for an unreadable id, 404 unless the booking, its property and owner exist, and otherwise them with the nights and the stay phase |
| Reads.FoundProperties | routes/bookings.js:557-562 | `WHERE property_id IN (…)` keeps exactly the properties whose id is requested |
| Reads.MissingIds | routes/bookings.js:565-566 | the missing list keeps exactly the requested ids no found property has |
| Reads.BatchRecords | routes/bookings.js:579-605 | one record per requested id, in request order, with that property's title and price, the nights, the estimate, the conflict rows, and available exactly when there are none |
| Reads.AvailableCount | routes/bookings.js:613 | `available_count` is the number of records marked available, as `filter(p => p.is_available).length` counts them; it is all records exactly when all are available, and 0 exactly when none is |
| Reads.BatchHandler | routes/bookings.js:552-625 | when the found count differs from the id count the answer is 400 naming the absent ids; otherwise it is the records |
| Reads.BatchHandlerAnswers | routes/bookings.js:564-616 | with unique property ids, the batch succeeds exactly when the requested ids are distinct and each names a property |
| Reads.CheckAvailability | routes/bookings.js:546-616 | the intended batch route: 400 with the failing keys, or the answer of `BatchHandlerAnswers` |
| Reads.MissingIdsAbsent | routes/bookings.js:564-576 | the missing list names exactly the requested ids no property has |
| Reads.RepeatedIdFailsWithEmptyList | routes/bookings.js:564-576 | a repeated id fails the count even when every id exists, and then the missing list is empty |
| Reads.FoundCountIff | routes/bookings.js:564 | the found count equals the id count exactly when the ids are distinct and each names a property |
| Reads.FoundIdsRequested | routes/bookings.js:557-566 | the found ids are requested ids, and all of them exactly when each requested id names a property |
| Reads.RunValidator | middleware/validation.js:165-196 | a compiled schema answers 400 with the failing keys or passes the value on; a plain object makes `schema.validate` throw, which server.js answers with 500 |
| Reads.CheckAvailabilityAsWritten | routes/bookings.js:546-551 | the batch route as written answers every request with 500 |
| Reads.BatchRouteFailsValidRequest | routes/bookings.js:546-551 | a valid request for one free property gets 500 from the route as written and an answer with one available property from the intended route |
| Writes.Supplied | routes/users.js:218-226 | the `SET` list holds the column of each key sent with a value, and only those, and is empty exactly when no key has a value |
| Writes.SuppliedAt | routes/users.js:221-226 | a column that appears once among the keys is in the `SET` list exactly when its key is sent |
| Writes.UserSuppliedAt | routes/users.js:221-226 | a user column is in the `SET` list exactly when the body gives it |
| Writes.MergeUserOnlySupplied | routes/users.js:238-241 | the user `UPDATE` writes exactly the supplied columns, with the body's values, and never the id |
| Writes.PropertySuppliedAt | routes/properties.js:322-327 | a property column is in the `SET` list exactly when the body gives it |
| Writes.MergePropertyOnlySupplied | routes/properties.js:339-342 | the property `UPDATE` writes exactly the supplied columns and never the id or the owner |
| Writes.BookingSuppliedAt | routes/bookings.js:353-358 | a booking column is in the `SET` list exactly when the body gives it |
| Writes.MergeBookingOnlySupplied | routes/bookings.js:370-373 | the booking `UPDATE` writes exactly the supplied columns and never the id or the property |
| Writes.GivenColumnSupplied | routes/bookings.js:353-366 | a body that gives one key always has a column to update |
| Writes.PostUser | routes/users.js:139-174 | `POST /users`: 400 with the failing keys, 409 exactly when the email is taken, otherwise the new user with the next id appended; an error changes nothing |
| Writes.PutUser | routes/users.js:189-266 | `PUT /users/:id`: 400 for the schema or id, 404, 400 with nothing to update, 409 when another user holds the email, otherwise the user merged with the sent keys; success exactly in that last case |
| Writes.DeleteUser | routes/users.js:281-327 | `DELETE /users/:id`: 400, 404, 400 with the count of owned properties, and success exactly when the user exists and owns nothing, which removes that row only |
| Writes.PostProperty | routes/properties.js:234-274 | `POST /properties`: 400 for the schema, 400 exactly when the owner does not exist, otherwise the new property appended |
| Writes.PutProperty | routes/properties.js:290-358 | `PUT /properties/:id`: 400, 404, 400 with nothing to update, and success exactly when the property exists and a key is sent, merged into that row |
| Writes.DeleteProperty | routes/properties.js:374-423 | `DELETE /properties/:id`: 400, 404, 400 with the booking count, and success exactly when no booking of any status references it |
| Writes.PostBooking | routes/bookings.js:192-276 | `POST /bookings`: 400 for the schema or an unknown property, 409 with the conflict rows, and success exactly otherwise, storing a zero amount as price × nights |
| Writes.PutBooking | routes/bookings.js:292-392 | `PUT /bookings/:id`: 400, 404, 409 when a sent date clashes (itself excluded), 400 with nothing to update, and success exactly when a key is sent and no sent date clashes |
| Writes.PatchBookingStatus | routes/bookings.js:408-472 | `PATCH /bookings/:id/status`: 400, 404, 400 with the allowed list for a disallowed change, otherwise the status rewritten and nothing else |
| Writes.DeleteBooking | routes/bookings.js:488-531 | `DELETE /bookings/:id`: 400, 404, 400 with the current status unless it is 已取消, and then that row removed |
| Writes.PostUserKeepsConsistent | routes/users.js:145-149 | `POST /users` keeps the integrity rules and advances the user counter exactly on success |
| Writes.PutUserKeepsConsistent | routes/users.js:238-241 | `PUT /users/:id` keeps the integrity rules |
| Writes.DeleteUserKeepsConsistent | routes/users.js:307-322 | `DELETE /users/:id` keeps the integrity rules: no property loses its owner |
| Writes.PostPropertyKeepsConsistent | routes/properties.js:240-257 | `POST /properties` keeps the integrity rules and advances the property counter exactly on success |
| Writes.PutPropertyKeepsConsistent | routes/properties.js:339-342 | `PUT /properties/:id` keeps the integrity rules |
| Writes.DeletePropertyKeepsConsistent | routes/properties.js:400-418 | `DELETE /properties/:id` keeps the integrity rules: no booking loses its property |
| Writes.PostBookingKeepsConsistent | routes/bookings.js:202-253 | `POST /bookings` keeps the integrity rules and advances the booking counter exactly on success |
| Writes.PutBookingKeepsConsistent | routes/bookings.js:370-373 | `PUT /bookings/:id` keeps the integrity rules |
| Writes.PatchBookingStatusKeepsConsistent | routes/bookings.js:458-461 | `PATCH /bookings/:id/status` keeps the integrity rules |
| Writes.DeleteBookingKeepsConsistent | routes/bookings.js:526 | `DELETE /bookings/:id` keeps the integrity rules |
| Writes.PostBookingKeepsCalendar | routes/bookings.js:216-237 | after `POST /bookings`, still no two active bookings of a property have clashing dates |
| Writes.PatchBookingStatusKeepsCalendar | routes/bookings.js:437-461 | a status change never creates a collision, since no transition makes a booking active |
| Writes.DeleteBookingKeepsCalendar | routes/bookings.js:514-526 | a booking deletion never creates a collision |
| Writes.PutBookingKeepsCalendar | routes/bookings.js:320-373 | every `PUT /bookings/:id` that does not set an active status on an inactive booking without sending a date keeps the calendar free of collisions |
| Writes.PutBookingAccepts | routes/bookings.js:320-373 | when the route's checks pass, `PUT` stores the merged row at the booking's index |
| Writes.ReopeningIsAccepted | routes/bookings.js:320-373 | a `PUT` that sends no date and sets 已預訂 or 已入住 on a cancelled or checked-out booking is carried out without a conflict query |
| Writes.ReopenedBookingCanCollide | routes/bookings.js:320-373 | such a reopened booking whose dates clash with another active booking of its property leaves two colliding active bookings |
| Writes.LoneCheckInAccepted | middleware/validation.js:109-114 | a body with `check_in` alone validates to a patch with that date only |
| Writes.LoneCheckInIsStoredAsSent | routes/bookings.js:320-373 | a lone `check_in` that clashes with nothing is stored against the stored check-out, even on or after it |
| Writes.RepeatedStatusChangeRefused | routes/bookings.js:446-456 | after a successful status change, sending the same status again is refused as an invalid status transition |
| Store.CollectUpdates | routes/bookings.js:350-358 | the `forEach` loop pushes exactly the `SET` list `Supplied` describes |
| Store.CheckNewUser | routes/users.js:139-158 | the steps of `POST /users` up to the `INSERT` give the answer of `PostUser`, and the row to append on success |
| Store.CheckUserUpdate | routes/users.js:189-241 | the steps of `PUT /users/:id` give the answer of `PutUser` and the index of the row to rewrite |
| Store.CheckUserDeletion | routes/users.js:281-322 | the steps of `DELETE /users/:id` give the answer of `DeleteUser` and the index of the row to delete |
| Store.CheckNewProperty | routes/properties.js:234-257 | the steps of `POST /properties` give the answer of `PostProperty` |
| Store.CheckPropertyUpdate | routes/properties.js:290-342 | the steps of `PUT /properties/:id` give the answer of `PutProperty` and the row's index |
| Store.CheckPropertyDeletion | routes/properties.js:374-418 | the steps of `DELETE /properties/:id` give the answer of `DeleteProperty` and the row's index |
| Store.CheckNewBooking | routes/bookings.js:192-253 | the steps of `POST /bookings` give the answer of `PostBooking` |
| Store.CheckBookingUpdate | routes/bookings.js:292-373 | the steps of `PUT /bookings/:id` give the answer of `PutBooking` and the row's index |
| Store.CheckStatusChange | routes/bookings.js:408-461 | the steps of `PATCH /bookings/:id/status` give the answer of `PatchBookingStatus`, the row's index and the row to write |
| Store.CheckBookingDeletion | routes/bookings.js:488-526 | the steps of `DELETE /bookings/:id` give the answer of `DeleteBooking` and the row's index |
| Store.Database.constructor | routes/users.js:151-156 | model scaffolding: an empty database satisfies the integrity rules, with each counter at 1, the first AUTO_INCREMENT value an `INSERT` returns as `insertId` |
| Store.Database.CreateUser | routes/users.js:139-174 | answers as `PostUser` on the tables, keeps the integrity rules, appends the row and advances the user counter exactly on success |
| Store.Database.UpdateUser | routes/users.js:189-266 | answers as `PutUser`, leaves the tables as `PutUser` does, keeps the integrity rules and the counters |
| Store.Database.RemoveUser | routes/users.js:281-327 | answers as `DeleteUser`, keeps the integrity rules and the counters |
| Store.Database.CreateProperty | routes/properties.js:234-274 | answers as `PostProperty`, keeps the integrity rules and advances the property counter exactly on success |
| Store.Database.UpdateProperty | routes/properties.js:290-358 | answers as `PutProperty`, keeps the integrity rules and the counters |
| Store.Database.RemoveProperty | routes/properties.js:374-423 | answers as `DeleteProperty`, keeps the integrity rules and the counters |
| Store.Database.CreateBooking | routes/bookings.js:192-276 | answers as `PostBooking`, keeps the integrity rules and advances the booking counter exactly on success |
| Store.Database.UpdateBooking | routes/bookings.js:292-392 | answers as `PutBooking`, keeps the integrity rules and the counters |
| Store.Database.UpdateBookingStatus | routes/bookings.js:408-472 | answers as `PatchBookingStatus`, keeps the integrity rules and the counters |
| Store.Database.RemoveBooking | routes/bookings.js:488-531 | answers as `DeleteBooking`, keeps the integrity rules and the counters |
| Scenarios.CreatedUserIsFound | routes/users.js:139-164 | `GET /users/:id` with the id `POST /users` returned answers with the created user |
| Scenarios.DeletedUserIsGone | routes/users.js:281-327 | after a successful `DELETE /users/:id`, `GET /users/:id` answers 404 |
| Scenarios.CreatedBookingBlocksItsDates | routes/bookings.js:216-237 | sending the body of a created active booking again is refused with 409, the created booking among the conflicts |
| Scenarios.CreateCancelDelete | test-api.js:188-202 | create with the default status, cancel, delete: each step succeeds and the tables end as they began |
| Scenarios.CancelledAtTheEnd | routes/bookings.js:437-461 | cancelling the last stored, reserved booking rewrites its status only |
| Scenarios.DeletedAtTheEnd | routes/bookings.js:514-526 | deleting the last stored, cancelled booking restores the tables as they were before it was added |

## Left out

- routes/reports.js, config/database.js, debug-test.js and the start-up code of server.js are not part of this model. Of server.js only the error handler is modelled, as the 500 answer of `Reads.RunValidator`.
- Concurrency is not modelled. Each request runs alone on one snapshot, so the race between the conflict `SELECT` and the `INSERT`, and the `Promise.all` of the batch check, are not represented.
- The Joi email grammar is not modelled: `Validation.EmailRule` checks only the 1–150 length.
- MySQL's case-insensitive collation of `email`, `city` and `guest_name` is not modelled. Comparison is exact, and `LIKE '%…%'` is modelled without wildcards in the searched text.
- An AUTO_INCREMENT value consumed by a failed `INSERT` is not modelled: a counter advances only on success.
- `ER_DUP_ENTRY` on any column but `email` is not modelled.
- The statistics, recent and upcoming bookings of `GET /users/:id` and `GET /properties/:id` are left out. So are the aggregate columns of the list queries (`total_bookings`, `total_revenue`, `avg_booking_value`) and their number formatting (properties.js:106-109), which are floating-point.
- `GET /properties/search/cities`, `GET /properties/search/districts` and `GET /bookings/dashboard/summary` are not modelled: they are aggregate reports with no decision in them.
- Joi's conversion of strings to numbers and dates, and moment's date arithmetic, are not modelled. Dates are whole days, `now` is an instant in milliseconds, and `check_in` must be on or after it.
- Reads.ListUsers: `ORDER BY created_at DESC` (routes/users.js:35) orders by a timestamp of one-second resolution, so users created in the same second come back in no defined order. The model takes such ties in descending id order, which is also the order of distinct timestamps because ids and creation times both grow.
- Validation.StringRule: string lengths count Unicode code points (Dafny's `char`). Joi's `.min`, `.max` and `.length` count UTF-16 code units. So a character outside the Basic Multilingual Plane, such as an emoji, counts once here and twice in the program. For example, a `city` of 50 such characters is accepted by `Validation.ValidatePropertySearch` but rejected by Joi.
- BookingRules.BackToBackConflicts: dates are day numbers, which assumes the Node process runs in UTC (or that Joi's dates and the `DATE` columns share one zone). `Joi.date()` reads "2026-05-01" as midnight UTC, and config/database.js sets no `timezone`, so the driver binds that instant in local time. At UTC+8 it binds as 08:00 of the same day, so `check_out > ?` and `check_out >= ?` (routes/bookings.js:221-224) both fail against a `check_out` of that day, and the back-to-back stay is accepted. In the same zone `check_in >= ?` (routes/bookings.js:64-66) drops bookings that check in on `start_date`. West of UTC an `INSERT` stores the day before. None of this is modelled.
- Writes.PostUser, Writes.PostProperty, Writes.PostBooking: a body that omits an optional key with no Joi default is modelled as an `INSERT` of NULL in that column, answered 201. The keys are `company_tax_id`, `phone`, `bank_code` and `bank_account` of a user, `legal_license_no` of a property, and `special_note` of a booking. The handlers bind every destructured key (routes/users.js:145-149, routes/properties.js:254-258, routes/bookings.js:246-252), so such a key is bound as `undefined`. `executeQuery` passes the values to mysql2's `pool.execute` (config/database.js:42). That driver refuses `undefined` bind values, which would make the `catch` block answer 500 with CREATE_USER_FAILED, CREATE_PROPERTY_FAILED or CREATE_BOOKING_FAILED. The driver's rule is not part of this model, so the model keeps the NULL reading.
- Integers above 2^53 are not modelled, and `parseInt` reads digits into an unbounded integer.
- The 500 answers of the handlers' own `catch` blocks for storage failures are not modelled. The batch handler's 500 from reading `property.title` of `undefined` is modelled (`Reads.BatchHandler`). It needs the found count to equal the id count while some requested id has no row, which only duplicate property ids allow. So it is unreachable while property ids are unique (`Reads.BatchHandlerAnswers`).
- Store.Database.CreateBooking, UpdateBooking, UpdateBookingStatus, RemoveBooking: the calendar invariant (no two active bookings of a property clash) is not in these ensures. It is proved on the `Writes` functions these methods equal (`Writes.PostBookingKeepsCalendar` and its three siblings). It holds for `PUT` only when the update does not reopen a booking, as `Writes.ReopenedBookingCanCollide` shows.
- Store.CheckNewUser and the other `Check…` methods run the route's checks on a value snapshot; the `SELECT` round trips themselves are the lookups of `Tables`.

## Findings

| source | as written | input that shows it | evidently intended | confidence | as-written member | corrected member |
|---|---|---|---|---|---|---|
| routes/bookings.js:546-551 | the batch route passes a plain object of three Joi rules to `validateSchema`, which calls `schema.validate` on it; a plain object has no `validate`, so every request throws a TypeError and server.js:122-125 answers 500 | `POST /bookings/check-availability` with `{"property_ids":[1],"check_in":<tomorrow>,"check_out":<the day after>}` for an existing, free property 1 | the three keys wrapped in `Joi.object({...})`, as every other route does, so that valid requests reach the handler | not executed | Reads.CheckAvailabilityAsWritten, Reads.BatchRouteFailsValidRequest | Reads.CheckAvailability |
