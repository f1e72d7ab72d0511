/**
 * JavaScript's global `parseInt(string)` with no radix argument, as the handlers
 * apply it to the `:id` path segment (section 19.2.5 of ECMA-262): leading white
 * space is skipped, an optional sign is read, a "0x"/"0X" prefix switches to base 16,
 * and the longest run of digits that follows is the value; no digit at all is NaN,
 * which is `None` here.
 */
module JsParse {
  import opened Wrappers

  /** WhiteSpace and LineTerminator code points of ECMA-262 (sections 12.2 and 12.3). */
  predicate IsJsWhitespace(c: char) {
    c == '\t' || c == '\n' || c == '\U{000B}' || c == '\U{000C}' || c == '\r' || c == ' ' ||
    c == '\U{00A0}' || c == '\U{1680}' || ('\U{2000}' <= c <= '\U{200A}') ||
    c == '\U{2028}' || c == '\U{2029}' || c == '\U{202F}' || c == '\U{205F}' ||
    c == '\U{3000}' || c == '\U{FEFF}'
  }

  predicate IsDecimalDigit(c: char) { '0' <= c <= '9' }

  /** A digit of base 10 or base 16 (either case). */
  predicate IsRadixDigit(c: char, radix: nat) {
    IsDecimalDigit(c) || (radix == 16 && (('a' <= c <= 'f') || ('A' <= c <= 'F')))
  }

  function DigitValue(c: char, radix: nat): (v: nat)
    requires IsRadixDigit(c, radix)
    ensures v < (if radix == 16 then 16 else 10)
  {
    if IsDecimalDigit(c) then c as int - '0' as int
    else if 'a' <= c <= 'f' then c as int - 'a' as int + 10
    else c as int - 'A' as int + 10
  }

  /** `TrimString(s, start)`: the string without its leading white space. */
  function TrimStart(s: string): (r: string)
    ensures |r| <= |s| && r == s[|s| - |r|..]
    ensures r == [] || !IsJsWhitespace(r[0])
    ensures forall i :: 0 <= i < |s| - |r| ==> IsJsWhitespace(s[i])
  {
    if s != [] && IsJsWhitespace(s[0]) then TrimStart(s[1..]) else s
  }

  /** The length of the longest prefix of `s` made of digits of `radix`. */
  function DigitRun(s: string, radix: nat): (n: nat)
    ensures n <= |s|
    ensures forall i :: 0 <= i < n ==> IsRadixDigit(s[i], radix)
    ensures n == |s| || !IsRadixDigit(s[n], radix)
  {
    if s != [] && IsRadixDigit(s[0], radix) then 1 + DigitRun(s[1..], radix) else 0
  }

  /** The mathematical value of a digit string, most significant digit first. */
  function DigitsValue(ds: string, radix: nat): nat
    requires forall i :: 0 <= i < |ds| ==> IsRadixDigit(ds[i], radix)
  {
    if ds == [] then 0
    else DigitsValue(ds[..|ds| - 1], radix) * radix + DigitValue(ds[|ds| - 1], radix)
  }

  /** The value of the first `n` characters of `s`, all of them digits. */
  function PrefixValue(s: string, n: nat, radix: nat): nat
    requires n <= |s| && forall i :: 0 <= i < n ==> IsRadixDigit(s[i], radix)
  {
    var ds := s[..n];
    assert forall i :: 0 <= i < |ds| ==> ds[i] == s[i];
    DigitsValue(ds, radix)
  }

  /** The sign and the rest of the string after an optional '+' or '-'. */
  function SplitSign(s: string): (int, string) {
    if s != [] && (s[0] == '-' || s[0] == '+') then (if s[0] == '-' then -1 else 1, s[1..]) else (1, s)
  }

  predicate HasHexPrefix(s: string) {
    |s| >= 2 && s[0] == '0' && (s[1] == 'x' || s[1] == 'X')
  }

  /**
   * `parseInt(s)`. A negative zero is returned as 0, the value it takes as an SQL
   * parameter; values beyond 2^53 keep their exact value (see README).
   */
  function ParseInt(s: string): (r: Option<int>)
    ensures r.None? <==>
      var body := SplitSign(TrimStart(s)).1;
      DigitRun(if HasHexPrefix(body) then body[2..] else body, if HasHexPrefix(body) then 16 else 10) == 0
  {
    var (sign, body) := SplitSign(TrimStart(s));
    var radix := if HasHexPrefix(body) then 16 else 10;
    var digits := if radix == 16 then body[2..] else body;
    var n := DigitRun(digits, radix);
    if n == 0 then None else Some(sign * PrefixValue(digits, n, radix))
  }

  /** The decimal numeral of `n` with no leading zero, as `String(n)` writes it. */
  function DecimalString(n: nat): (s: string)
    ensures |s| >= 1
    ensures forall i :: 0 <= i < |s| ==> IsDecimalDigit(s[i])
    ensures |s| > 1 ==> s[0] != '0'
  {
    if n < 10 then ['0' + n as char] else DecimalString(n / 10) + ['0' + (n % 10) as char]
  }

  /** `String(n)` for any integer: a minus sign before a negative number's magnitude. */
  function IntString(n: int): string {
    if n < 0 then "-" + DecimalString(-n) else DecimalString(n)
  }

  /** Reading back the decimal numeral gives the number. */
  lemma {:induction false} DecimalValue(n: nat)
    ensures DigitsValue(DecimalString(n), 10) == n
    decreases n
  {
    var s := DecimalString(n);
    if n >= 10 {
      DecimalValue(n / 10);
      assert s[..|s| - 1] == DecimalString(n / 10);
    }
  }

  /** The value of a digit run depends only on the digits in it. */
  lemma DigitRunOfNumeral(ds: string, t: string, radix: nat)
    requires forall i :: 0 <= i < |ds| ==> IsRadixDigit(ds[i], radix)
    requires t == [] || !IsRadixDigit(t[0], radix)
    ensures DigitRun(ds + t, radix) == |ds| && (ds + t)[..|ds|] == ds
  {
  }

  /** `String(n)` followed by `t` starts with '-' or a digit. */
  lemma NumeralHead(n: int, t: string)
    ensures |IntString(n) + t| > 0
    ensures n < 0 ==> (IntString(n) + t)[0] == '-' && (IntString(n) + t)[1..] == DecimalString(-n) + t
    ensures n >= 0 ==> IsDecimalDigit((IntString(n) + t)[0])
  {
    if n < 0 {
      assert (IntString(n) + t)[1..] == DecimalString(-n) + t;
    } else {
      assert (IntString(n) + t)[0] == DecimalString(n)[0];
    }
  }

  /** `String(n)` followed by `t` starts with no white space; its sign is the sign of `n`. */
  lemma NumeralSign(n: int, t: string)
    ensures TrimStart(IntString(n) + t) == IntString(n) + t
    ensures SplitSign(IntString(n) + t) == (if n < 0 then -1 else 1, DecimalString(if n < 0 then -n else n) + t)
  {
    var s := IntString(n) + t;
    NumeralHead(n, t);
    assert !IsJsWhitespace(s[0]);
  }

  /**
   * `parseInt` reads back `String(n)` followed by anything that does not continue
   * the numeral: it stops at the first character that is not a digit ('12abc' is 12),
   * except that "0" followed by 'x' would be read as a hexadecimal prefix.
   */
  lemma ParseIntStopsAtNonDigit(n: int, t: string)
    requires t == [] || (!IsDecimalDigit(t[0]) && (n != 0 || (t[0] != 'x' && t[0] != 'X')))
    ensures ParseInt(IntString(n) + t) == Some(n)
  {
    var m := if n < 0 then -n else n;
    var ds := DecimalString(m);
    var body := ds + t;
    NumeralSign(n, t);
    assert !HasHexPrefix(body) by {
      if |ds| > 1 { assert body[0] == ds[0]; } else if |body| >= 2 { assert body[1] == t[0]; }
    }
    DigitRunOfNumeral(ds, t, 10);
    DecimalValue(m);
  }

  /** `parseInt` reads back every `String(n)`. */
  lemma ParseIntRoundTrip(n: int)
    ensures ParseInt(IntString(n)) == Some(n)
  {
    ParseIntStopsAtNonDigit(n, []);
    assert IntString(n) + [] == IntString(n);
  }

  /** Leading white space never changes the result. */
  lemma ParseIntSkipsWhitespace(w: string, s: string)
    requires forall i :: 0 <= i < |w| ==> IsJsWhitespace(w[i])
    ensures ParseInt(w + s) == ParseInt(s)
  {
    TrimAfterWhitespace(w, s);
  }

  lemma {:induction false} TrimAfterWhitespace(w: string, s: string)
    requires forall i :: 0 <= i < |w| ==> IsJsWhitespace(w[i])
    ensures TrimStart(w + s) == TrimStart(s)
    decreases |w|
  {
    if w != [] {
      assert (w + s)[0] == w[0];
      assert (w + s)[1..] == w[1..] + s;
      TrimAfterWhitespace(w[1..], s);
    } else {
      assert w + s == s;
    }
  }
}
