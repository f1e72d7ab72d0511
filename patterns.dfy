/**
 * The three regular expressions of the request validators. Each is anchored (`^...$`)
 * and is a sequence of single-character terms, each mandatory or optional (`?`),
 * so a pattern is represented as that sequence and matched against the whole string.
 */
module Patterns {

  datatype CharClass =
    | Exactly(c: char)      // a literal character
    | Digit                 // `\d` without the `u` flag: an ASCII digit
    | Upper                 // `[A-Z]`
    | AnyOf(cs: seq<char>)  // a bracket class such as `[12]`

  datatype Term = One(cls: CharClass) | Optional(cls: CharClass)

  type Pattern = seq<Term>

  predicate IsDigit(c: char) { '0' <= c <= '9' }

  predicate InClass(cls: CharClass, c: char) {
    match cls
    case Exactly(d) => c == d
    case Digit => IsDigit(c)
    case Upper => 'A' <= c <= 'Z'
    case AnyOf(cs) => c in cs
  }

  /** `^p$` accepts `s`. An optional term first tries to consume a character, then to skip it. */
  predicate Matches(p: Pattern, s: string)
    decreases |p|
  {
    if p == [] then s == []
    else match p[0]
      case One(cls) => |s| > 0 && InClass(cls, s[0]) && Matches(p[1..], s[1..])
      case Optional(cls) => (|s| > 0 && InClass(cls, s[0]) && Matches(p[1..], s[1..])) || Matches(p[1..], s)
  }

  /** `t{n}`. */
  function Repeat(t: Term, n: nat): (p: Pattern)
    ensures |p| == n && forall i :: 0 <= i < n ==> p[i] == t
  {
    if n == 0 then [] else [t] + Repeat(t, n - 1)
  }

  /** `taiwanIdPattern`, /^[A-Z][12]\d{8}$/ (a national identity number). */
  const TaiwanIdPattern: Pattern := [One(Upper), One(AnyOf("12"))] + Repeat(One(Digit), 8)

  /** `taiwanTaxIdPattern`, /^\d{8}$/ (a company tax id). */
  const TaiwanTaxIdPattern: Pattern := Repeat(One(Digit), 8)

  /** `taiwanPhonePattern`, /^09\d{2}-?\d{3}-?\d{3}$/ (a mobile number). */
  const TaiwanPhonePattern: Pattern :=
    [One(Exactly('0')), One(Exactly('9')), One(Digit), One(Digit), Optional(Exactly('-')),
     One(Digit), One(Digit), One(Digit), Optional(Exactly('-')),
     One(Digit), One(Digit), One(Digit)]

  predicate AllDigits(s: string) { forall i :: 0 <= i < |s| ==> IsDigit(s[i]) }

  predicate DigitsIn(s: string, lo: nat, hi: nat)
    requires lo <= hi <= |s|
  {
    forall i :: lo <= i < hi ==> IsDigit(s[i])
  }

  /** The number of digit characters of `s`. */
  function CountDigits(s: string): nat {
    if s == [] then 0 else (if IsDigit(s[0]) then 1 else 0) + CountDigits(s[1..])
  }

  /** The number of mandatory terms of `p`: the shortest string it accepts. */
  function MandatoryCount(p: Pattern): nat {
    if p == [] then 0 else (if p[0].One? then 1 else 0) + MandatoryCount(p[1..])
  }

  /** A class that accepts digits only. */
  predicate DigitsOnly(cls: CharClass) {
    cls == Digit || (cls.Exactly? && IsDigit(cls.c))
  }

  /** Every mandatory term accepts digits only, every optional term is a literal non-digit separator. */
  predicate DigitsWithSeparators(p: Pattern) {
    forall i :: 0 <= i < |p| ==>
      (p[i].One? && DigitsOnly(p[i].cls)) ||
      (p[i].Optional? && p[i].cls.Exactly? && !IsDigit(p[i].cls.c))
  }

  // ---------------------------------------------------------------------------
  // General facts about the matcher

  /** A run of mandatory terms consumes exactly one character per term. */
  lemma {:induction false} MandatoryPrefix(q: Pattern, rest: Pattern, s: string)
    requires forall i :: 0 <= i < |q| ==> q[i].One?
    ensures Matches(q + rest, s) <==>
      |q| <= |s| && (forall i :: 0 <= i < |q| ==> InClass(q[i].cls, s[i])) && Matches(rest, s[|q|..])
    decreases |q|
  {
    if q == [] {
      assert q + rest == rest;
    } else {
      assert (q + rest)[0] == q[0];
      assert (q + rest)[1..] == q[1..] + rest;
      if |s| > 0 {
        MandatoryPrefix(q[1..], rest, s[1..]);
        if |q| <= |s| { assert s[1..][|q| - 1..] == s[|q|..]; }
        if Matches(q + rest, s) {
          forall i | 0 <= i < |q| ensures InClass(q[i].cls, s[i]) {
            if i > 0 { assert q[1..][i - 1] == q[i] && s[1..][i - 1] == s[i]; }
          }
        }
        if |q| <= |s| && (forall i :: 0 <= i < |q| ==> InClass(q[i].cls, s[i])) && Matches(rest, s[|q|..]) {
          forall i | 0 <= i < |q| - 1 ensures InClass(q[1..][i].cls, s[1..][i]) {
            assert q[1..][i] == q[i + 1] && s[1..][i] == s[i + 1];
          }
        }
      }
    }
  }

  /** An optional term either consumes one character of its class or nothing. */
  lemma OptionalHead(cls: CharClass, rest: Pattern, s: string)
    ensures Matches([Optional(cls)] + rest, s) <==>
      (|s| > 0 && InClass(cls, s[0]) && Matches(rest, s[1..])) || Matches(rest, s)
  {
    assert ([Optional(cls)] + rest)[1..] == rest;
  }

  /** An accepted string is at least as long as the mandatory terms and at most one character per term. */
  lemma {:induction false} MatchLength(p: Pattern, s: string)
    requires Matches(p, s)
    ensures MandatoryCount(p) <= |s| <= |p|
    decreases |p|
  {
    if p != [] {
      if p[0].One? {
        MatchLength(p[1..], s[1..]);
      } else if |s| > 0 && InClass(p[0].cls, s[0]) && Matches(p[1..], s[1..]) {
        MatchLength(p[1..], s[1..]);
      } else {
        MatchLength(p[1..], s);
      }
    }
  }

  /** With digit terms and non-digit separators, an accepted string holds one digit per mandatory term. */
  lemma {:induction false} MatchDigitCount(p: Pattern, s: string)
    requires DigitsWithSeparators(p) && Matches(p, s)
    ensures CountDigits(s) == MandatoryCount(p)
    decreases |p|
  {
    if p != [] {
      assert p[0] == p[..1][0];
      assert DigitsWithSeparators(p[1..]) by {
        forall i | 0 <= i < |p[1..]| ensures
          (p[1..][i].One? && DigitsOnly(p[1..][i].cls)) ||
          (p[1..][i].Optional? && p[1..][i].cls.Exactly? && !IsDigit(p[1..][i].cls.c))
        {
          assert p[1..][i] == p[i + 1];
        }
      }
      if p[0].One? {
        MatchDigitCount(p[1..], s[1..]);
      } else if |s| > 0 && InClass(p[0].cls, s[0]) && Matches(p[1..], s[1..]) {
        MatchDigitCount(p[1..], s[1..]);
      } else {
        MatchDigitCount(p[1..], s);
      }
    }
  }

  // ---------------------------------------------------------------------------
  // The three patterns

  /** `company_tax_id` is accepted exactly when it is eight ASCII digits. */
  lemma TaxIdAccepts(s: string)
    ensures Matches(TaiwanTaxIdPattern, s) <==> |s| == 8 && AllDigits(s)
  {
    var p := TaiwanTaxIdPattern;
    assert p + [] == p;
    MandatoryPrefix(p, [], s);
  }

  /** The national-id pattern: an upper-case letter, then '1' or '2', then eight digits. */
  lemma TaiwanIdAccepts(s: string)
    ensures Matches(TaiwanIdPattern, s) <==>
      |s| == 10 && 'A' <= s[0] <= 'Z' && (s[1] == '1' || s[1] == '2') && AllDigits(s[2..])
  {
    var p := TaiwanIdPattern;
    assert |p| == 10;
    assert p[0] == One(Upper) && p[1] == One(AnyOf("12"));
    assert forall i :: 2 <= i < 10 ==> p[i] == One(Digit);
    assert p + [] == p;
    MandatoryPrefix(p, [], s);
    if |s| == 10 && AllDigits(s[2..]) {
      assert forall i :: 2 <= i < 10 ==> IsDigit(s[i]) by {
        forall i | 2 <= i < 10 ensures IsDigit(s[i]) { assert s[2..][i - 2] == s[i]; }
      }
    }
    if Matches(p, s) {
      forall i | 0 <= i < |s[2..]| ensures IsDigit(s[2..][i]) {
        assert s[2..][i] == s[i + 2];
        assert InClass(p[i + 2].cls, s[i + 2]);
      }
    }
  }

  /** The four shapes of an accepted mobile number: "09" and two digits, then three and three
      digits, with an optional '-' before each group of three. */
  predicate PhoneShape(s: string) {
    |s| >= 4 && s[0] == '0' && s[1] == '9' && IsDigit(s[2]) && IsDigit(s[3]) &&
    (  (|s| == 10 && DigitsIn(s, 4, 10))
    || (|s| == 11 && s[4] == '-' && DigitsIn(s, 5, 11))
    || (|s| == 11 && s[7] == '-' && DigitsIn(s, 4, 7) && DigitsIn(s, 8, 11))
    || (|s| == 12 && s[4] == '-' && s[8] == '-' && DigitsIn(s, 5, 8) && DigitsIn(s, 9, 12)))
  }

  /** The rest of the phone pattern after "09\d{2}": `-?\d{3}-?\d{3}`. */
  function PhoneGroups(): Pattern {
    [Optional(Exactly('-'))] + (Repeat(One(Digit), 3) + ([Optional(Exactly('-'))] + Repeat(One(Digit), 3)))
  }

  /** The strings `PhoneGroups()` accepts. */
  predicate GroupsShape(t: string) {
    (|t| == 6 && DigitsIn(t, 0, 6)) ||
    (|t| == 7 && t[0] == '-' && DigitsIn(t, 1, 7)) ||
    (|t| == 7 && t[3] == '-' && DigitsIn(t, 0, 3) && DigitsIn(t, 4, 7)) ||
    (|t| == 8 && t[0] == '-' && t[4] == '-' && DigitsIn(t, 1, 4) && DigitsIn(t, 5, 8))
  }

  /** Digits of a suffix are digits of the string, shifted. */
  lemma DigitsShift(s: string, k: nat, lo: nat, hi: nat)
    requires lo <= hi && k + hi <= |s|
    ensures DigitsIn(s[k..], lo, hi) <==> DigitsIn(s, lo + k, hi + k)
  {
    assert forall i :: lo <= i < hi ==> s[k..][i] == s[i + k];
    if DigitsIn(s[k..], lo, hi) {
      forall j | lo + k <= j < hi + k ensures IsDigit(s[j]) { assert s[k..][j - k] == s[j]; }
    }
  }

  /** Three mandatory digits ending the string. */
  lemma ThreeDigits(s: string)
    ensures Matches(Repeat(One(Digit), 3), s) <==> |s| == 3 && DigitsIn(s, 0, 3)
  {
    var q := Repeat(One(Digit), 3);
    assert q + [] == q;
    MandatoryPrefix(q, [], s);
  }

  /** `-?\d{3}$` */
  lemma DashThenThree(s: string)
    ensures Matches([Optional(Exactly('-'))] + Repeat(One(Digit), 3), s) <==>
      (|s| == 4 && s[0] == '-' && DigitsIn(s, 1, 4)) || (|s| == 3 && DigitsIn(s, 0, 3))
  {
    OptionalHead(Exactly('-'), Repeat(One(Digit), 3), s);
    ThreeDigits(s);
    if |s| == 4 {
      ThreeDigits(s[1..]);
      DigitsShift(s, 1, 0, 3);
    } else if |s| > 0 {
      ThreeDigits(s[1..]);
    }
  }

  /** `\d{3}-?\d{3}$` */
  lemma SecondAndThirdGroups(s: string)
    ensures Matches(Repeat(One(Digit), 3) + ([Optional(Exactly('-'))] + Repeat(One(Digit), 3)), s) <==>
      (|s| == 6 && DigitsIn(s, 0, 6)) || (|s| == 7 && s[3] == '-' && DigitsIn(s, 0, 3) && DigitsIn(s, 4, 7))
  {
    var tail := [Optional(Exactly('-'))] + Repeat(One(Digit), 3);
    var q := Repeat(One(Digit), 3);
    MandatoryPrefix(q, tail, s);
    if |s| >= 3 {
      var t := s[3..];
      DashThenThree(t);
      if |t| == 4 {
        DigitsShift(s, 3, 1, 4);
      } else if |t| == 3 {
        DigitsShift(s, 3, 0, 3);
      }
      assert (forall i :: 0 <= i < |q| ==> InClass(q[i].cls, s[i])) <==> DigitsIn(s, 0, 3);
    }
  }

  /** `-?\d{3}-?\d{3}$` */
  lemma AfterPrefix(s: string)
    ensures Matches(PhoneGroups(), s) <==> GroupsShape(s)
  {
    var rest := Repeat(One(Digit), 3) + ([Optional(Exactly('-'))] + Repeat(One(Digit), 3));
    OptionalHead(Exactly('-'), rest, s);
    SecondAndThirdGroups(s);
    if |s| > 0 {
      var t := s[1..];
      SecondAndThirdGroups(t);
      if |t| == 6 {
        DigitsShift(s, 1, 0, 6);
      } else if |t| == 7 {
        DigitsShift(s, 1, 0, 3);
        DigitsShift(s, 1, 4, 7);
        assert t[3] == s[4];
      }
    }
  }

  /** The phone pattern is the "09\d{2}" prefix followed by the groups. */
  lemma PhonePatternSplit()
    ensures TaiwanPhonePattern == [One(Exactly('0')), One(Exactly('9')), One(Digit), One(Digit)] + PhoneGroups()
  {
    assert Repeat(One(Digit), 3) == [One(Digit), One(Digit), One(Digit)];
  }

  /** The prefix "09\d{2}" consumes four characters. */
  lemma PhoneHead(s: string)
    ensures Matches([One(Exactly('0')), One(Exactly('9')), One(Digit), One(Digit)] + PhoneGroups(), s) <==>
      |s| >= 4 && s[0] == '0' && s[1] == '9' && IsDigit(s[2]) && IsDigit(s[3]) && Matches(PhoneGroups(), s[4..])
  {
    var head := [One(Exactly('0')), One(Exactly('9')), One(Digit), One(Digit)];
    MandatoryPrefix(head, PhoneGroups(), s);
    assert (|head| <= |s| && forall i :: 0 <= i < |head| ==> InClass(head[i].cls, s[i])) <==>
      (|s| >= 4 && s[0] == '0' && s[1] == '9' && IsDigit(s[2]) && IsDigit(s[3]));
  }

  /** The shape of the groups, read four characters into the whole number. */
  lemma GroupsShift(s: string)
    requires |s| >= 4
    ensures GroupsShape(s[4..]) <==>
      (  (|s| == 10 && DigitsIn(s, 4, 10))
      || (|s| == 11 && s[4] == '-' && DigitsIn(s, 5, 11))
      || (|s| == 11 && s[7] == '-' && DigitsIn(s, 4, 7) && DigitsIn(s, 8, 11))
      || (|s| == 12 && s[4] == '-' && s[8] == '-' && DigitsIn(s, 5, 8) && DigitsIn(s, 9, 12)))
  {
    var t := s[4..];
    if |t| == 6 {
      DigitsShift(s, 4, 0, 6);
    } else if |t| == 7 {
      DigitsShift(s, 4, 1, 7);
      DigitsShift(s, 4, 0, 3);
      DigitsShift(s, 4, 4, 7);
    } else if |t| == 8 {
      DigitsShift(s, 4, 1, 4);
      DigitsShift(s, 4, 5, 8);
    }
  }

  /** A mobile number is accepted exactly in the four shapes. */
  lemma PhoneAccepts(s: string)
    ensures Matches(TaiwanPhonePattern, s) <==> PhoneShape(s)
  {
    PhonePatternSplit();
    PhoneHead(s);
    if |s| >= 4 {
      AfterPrefix(s[4..]);
      GroupsShift(s);
    }
  }

  /** The phone pattern has twelve terms, ten of them mandatory. */
  lemma PhonePatternMandatory()
    ensures |TaiwanPhonePattern| == 12 && MandatoryCount(TaiwanPhonePattern) == 10
  {
  }

  /** Each mandatory term of the phone pattern is a digit and each optional term a '-'. */
  lemma PhonePatternSeparators()
    ensures DigitsWithSeparators(TaiwanPhonePattern)
  {
  }

  /** An accepted mobile number has 10 to 12 characters, exactly 10 of them digits. */
  lemma PhoneLengthAndDigits(s: string)
    requires Matches(TaiwanPhonePattern, s)
    ensures 10 <= |s| <= 12 && CountDigits(s) == 10
  {
    PhonePatternMandatory();
    PhonePatternSeparators();
    MatchLength(TaiwanPhonePattern, s);
    MatchDigitCount(TaiwanPhonePattern, s);
  }
}
