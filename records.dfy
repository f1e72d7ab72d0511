/**
 * The rows of the three tables (Users, Properties, Bookings), the two enumerations
 * stored in Bookings, and the error codes the handlers answer with.
 */
module Records {
  import opened Wrappers

  /** A DATE column, as a day number: dates compare and subtract as integers. */
  type Day = int

  /** The `status` enumeration of a booking. */
  datatype Status = Reserved | CheckedIn | CheckedOut | Cancelled

  /** The `source_channel` enumeration of a booking. */
  datatype Channel = Direct | Airbnb | BookingCom | Agoda

  /** The literal stored in the database and sent by clients for each status. */
  function StatusName(s: Status): string {
    match s
    case Reserved => "已預訂"
    case CheckedIn => "已入住"
    case CheckedOut => "已退房"
    case Cancelled => "已取消"
  }

  /** The literal for each booking channel. */
  function ChannelName(c: Channel): string {
    match c
    case Direct => "官網直訂"
    case Airbnb => "Airbnb"
    case BookingCom => "Booking.com"
    case Agoda => "Agoda"
  }

  /** `Joi.string().valid('已預訂', '已入住', '已退房', '已取消')`. */
  function ParseStatus(t: string): (r: Option<Status>)
    ensures r.Some? ==> StatusName(r.value) == t
    ensures r.None? ==> forall s: Status :: StatusName(s) != t
  {
    if t == StatusName(Reserved) then Some(Reserved)
    else if t == StatusName(CheckedIn) then Some(CheckedIn)
    else if t == StatusName(CheckedOut) then Some(CheckedOut)
    else if t == StatusName(Cancelled) then Some(Cancelled)
    else None
  }

  /** `Joi.string().valid('官網直訂', 'Airbnb', 'Booking.com', 'Agoda')`. */
  function ParseChannel(t: string): (r: Option<Channel>)
    ensures r.Some? ==> ChannelName(r.value) == t
    ensures r.None? ==> forall c: Channel :: ChannelName(c) != t
  {
    if t == ChannelName(Direct) then Some(Direct)
    else if t == ChannelName(Airbnb) then Some(Airbnb)
    else if t == ChannelName(BookingCom) then Some(BookingCom)
    else if t == ChannelName(Agoda) then Some(Agoda)
    else None
  }

  /** The four status literals are distinct, so parsing a status's literal gives that status back. */
  lemma StatusRoundTrip(s: Status)
    ensures ParseStatus(StatusName(s)) == Some(s)
  {
    assert StatusName(Reserved)[1] == '預';
    assert StatusName(CheckedIn)[1] == '入';
    assert StatusName(CheckedOut)[1] == '退';
    assert StatusName(Cancelled)[1] == '取';
  }

  /** The four channel literals are distinct. */
  lemma ChannelRoundTrip(c: Channel)
    ensures ParseChannel(ChannelName(c)) == Some(c)
  {
    assert |ChannelName(Direct)| == 4 && |ChannelName(Airbnb)| == 6;
    assert |ChannelName(BookingCom)| == 11 && |ChannelName(Agoda)| == 5;
  }

  datatype User = User(
    userId: int,
    fullName: string,
    email: string,
    companyTaxId: Option<string>,
    phone: Option<string>,
    bankCode: Option<string>,
    bankAccount: Option<string>)

  datatype Property = Property(
    propertyId: int,
    ownerId: int,
    title: string,
    city: string,
    district: string,
    address: string,
    legalLicenseNo: Option<string>,
    basePriceTwd: int)

  datatype Booking = Booking(
    bookingId: int,
    propertyId: int,
    sourceChannel: Channel,
    guestName: string,
    guestIdNo: string,
    checkIn: Day,
    checkOut: Day,
    totalAmount: int,
    isTaxIncluded: bool,
    breakfastIncluded: bool,
    specialNote: Option<string>,
    status: Status)

  /** The `code` (and `details`) of an error response. */
  datatype ApiError =
    | ValidationError(fields: seq<string>)
    | InvalidUserId
    | UserNotFound
    | EmailAlreadyExists
    | UserHasProperties(propertyCount: nat)
    | InvalidPropertyId
    | PropertyNotFound
    | OwnerNotFound
    | PropertyHasBookings(bookingCount: nat)
    | InvalidBookingId
    | BookingNotFound
    | DateConflict(conflicting: seq<Booking>)
    | NoUpdateData
    | InvalidStatusTransition(current: Status, requested: Status, allowed: seq<Status>)
    | CannotDeleteActiveBooking(currentStatus: Status)
    | SomePropertiesNotFound(missing: seq<int>)
    | CheckAvailabilityFailed  // the batch handler's own catch block
    | InternalServerError  // the application-wide error handler's answer to an uncaught exception
  {
    /** The machine-readable `code` string of the response. */
    function Code(): string {
      match this
      case ValidationError(_) => "VALIDATION_ERROR"
      case InvalidUserId => "INVALID_USER_ID"
      case UserNotFound => "USER_NOT_FOUND"
      case EmailAlreadyExists => "EMAIL_ALREADY_EXISTS"
      case UserHasProperties(_) => "USER_HAS_PROPERTIES"
      case InvalidPropertyId => "INVALID_PROPERTY_ID"
      case PropertyNotFound => "PROPERTY_NOT_FOUND"
      case OwnerNotFound => "OWNER_NOT_FOUND"
      case PropertyHasBookings(_) => "PROPERTY_HAS_BOOKINGS"
      case InvalidBookingId => "INVALID_BOOKING_ID"
      case BookingNotFound => "BOOKING_NOT_FOUND"
      case DateConflict(_) => "DATE_CONFLICT"
      case NoUpdateData => "NO_UPDATE_DATA"
      case InvalidStatusTransition(_, _, _) => "INVALID_STATUS_TRANSITION"
      case CannotDeleteActiveBooking(_) => "CANNOT_DELETE_ACTIVE_BOOKING"
      case SomePropertiesNotFound(_) => "SOME_PROPERTIES_NOT_FOUND"
      case CheckAvailabilityFailed => "CHECK_AVAILABILITY_FAILED"
      case InternalServerError => "INTERNAL_SERVER_ERROR"
    }
  }

  /** A handler's answer: the response data, or an HTTP status with an error. */
  datatype Result<+T> = Ok(value: T) | Err(httpStatus: int, error: ApiError)
}
