/** `SmsRequest` and its Bean Validation constraints: the phone number must be non-blank and match
    `^\+?[1-9]\d{9,14}$`; the message must be non-blank. A missing JSON field leaves the Java field
    null. */
module Requests {
  import opened JavaStrings

  datatype SmsRequest = SmsRequest(phoneNumber: JString, message: JString)

  // ---------------------------------------------------------------------------------------------
  // @NotBlank: not null, and `trim()` leaves at least one character. Java's `String.trim()` strips
  // every leading and trailing character whose code is at most U+0020.

  predicate IsTrimmed(c: char) {
    c <= ' '
  }

  /** Some character survives trimming. */
  ghost predicate HasVisible(s: string) {
    exists i :: 0 <= i < |s| && !IsTrimmed(s[i])
  }

  /** Drops the leading characters that `trim()` removes. */
  function TrimStart(s: string): (r: string)
    ensures r == [] || !IsTrimmed(r[0])
    ensures |r| <= |s| && r == s[|s| - |r|..]
    ensures forall i :: 0 <= i < |s| - |r| ==> IsTrimmed(s[i])
    decreases |s|
  {
    if |s| > 0 && IsTrimmed(s[0]) then
      var r := TrimStart(s[1..]);
      assert forall i :: 1 <= i < |s| - |r| ==> s[i] == s[1..][i - 1];
      r
    else
      s
  }

  /** Drops the trailing characters that `trim()` removes. */
  function TrimEnd(s: string): (r: string)
    ensures r == [] || !IsTrimmed(r[|r| - 1])
    ensures |r| <= |s| && r == s[..|r|]
    ensures forall i :: |r| <= i < |s| ==> IsTrimmed(s[i])
    decreases |s|
  {
    if |s| > 0 && IsTrimmed(s[|s| - 1]) then
      var r := TrimEnd(s[..|s| - 1]);
      assert forall i :: |r| <= i < |s| - 1 ==> s[i] == s[..|s| - 1][i];
      r
    else
      s
  }

  /** Java's `String.trim()`. */
  function Trim(s: string): string {
    TrimEnd(TrimStart(s))
  }

  /** `@NotBlank` on a String field: null is blank, and so is a string that `trim()` empties. A
      string is non-blank exactly when it holds a character above U+0020; empty and
      whitespace-only strings are blank. */
  predicate NotBlank(s: JString): (b: bool)
    ensures b <==> s.Some? && HasVisible(s.value)
  {
    s.Some? && (TrimLeavesVisible(s.value); |Trim(s.value)| > 0)
  }

  lemma TrimLeavesVisible(s: string)
    ensures |Trim(s)| > 0 <==> HasVisible(s)
  {
    if |Trim(s)| > 0 {
      TrimmedIsVisible(s);
    }
    if HasVisible(s) {
      VisibleSurvivesTrim(s);
    }
  }

  /** The last character `trim()` keeps is itself visible. */
  lemma TrimmedIsVisible(s: string)
    requires |Trim(s)| > 0
    ensures HasVisible(s)
  {
    var t := TrimStart(s);
    var r := TrimEnd(t);
    var k := |s| - |t|;
    assert t[|r| - 1] == r[|r| - 1];
    assert s[k + |r| - 1] == t[|r| - 1];
  }

  /** A visible character lies between the trimmed prefix and the trimmed suffix. */
  lemma VisibleSurvivesTrim(s: string)
    requires HasVisible(s)
    ensures |Trim(s)| > 0
  {
    var t := TrimStart(s);
    var k := |s| - |t|;
    var i :| 0 <= i < |s| && !IsTrimmed(s[i]);
    assert k <= i;
    assert t[i - k] == s[i];
  }

  // ---------------------------------------------------------------------------------------------
  // @Pattern: the regular expression as a sequence of quantified character classes, matched
  // against the whole string (`Matcher.matches()`).

  datatype CharClass = Literal(c: char) | Span(lo: char, hi: char)

  predicate InClass(k: CharClass, c: char) {
    match k
    case Literal(x) => c == x
    case Span(lo, hi) => lo <= c <= hi
  }

  /** `k{min,max}`: between `min` and `max` characters of class `k`. */
  datatype Atom = Atom(k: CharClass, min: nat, max: nat)

  predicate AllIn(k: CharClass, s: string) {
    forall i :: 0 <= i < |s| ==> InClass(k, s[i])
  }

  /** The whole of `s` splits into consecutive pieces, one per atom, each of an allowed length
      and made of its atom's class. */
  predicate FullMatch(pattern: seq<Atom>, s: string)
    decreases |pattern|
  {
    if pattern == [] then s == []
    else exists n :: pattern[0].min <= n <= pattern[0].max && n <= |s|
                     && AllIn(pattern[0].k, s[..n]) && FullMatch(pattern[1..], s[n..])
  }

  /** `^\+?[1-9]\d{9,14}$`; `\d` is the ASCII class [0-9] in Java's default mode. */
  const PhonePattern: seq<Atom> := [
    Atom(Literal('+'), 0, 1),
    Atom(Span('1', '9'), 1, 1),
    Atom(Span('0', '9'), 9, 14)
  ]

  /** `@Pattern` on a String field: a null value is accepted (rejecting null is @NotBlank's job);
      any other value must be a well-formed phone number. */
  predicate PatternHolds(s: JString): (b: bool)
    ensures b <==> s.None? || WellFormedPhone(s.value)
  {
    if s.None? then true else PhonePatternIff(s.value); FullMatch(PhonePattern, s.value)
  }

  // ---------------------------------------------------------------------------------------------
  // The independent statement of the phone-number rule: strip one optional '+'; what is left
  // is 10 to 15 ASCII digits, the first of them not '0'.

  predicate IsDigit(c: char) {
    '0' <= c <= '9'
  }

  predicate AllDigits(s: string) {
    forall i :: 0 <= i < |s| ==> IsDigit(s[i])
  }

  function DigitPart(s: string): string {
    if |s| > 0 && s[0] == '+' then s[1..] else s
  }

  predicate WellFormedPhone(s: string) {
    var d := DigitPart(s);
    10 <= |d| <= 15 && AllDigits(d) && d[0] != '0'
  }

  /** A digit 1-9 followed by 9 to 14 digits matches the last two atoms. */
  lemma TailMatchIntro(d: string)
    requires 10 <= |d| <= 15 && AllDigits(d) && d[0] != '0'
    ensures FullMatch(PhonePattern[1..], d)
  {
    var rest := PhonePattern[2..];
    assert rest[1..] == [];
    assert AllIn(rest[0].k, d[1..][..|d| - 1]);
    assert FullMatch(rest[1..], d[1..][|d| - 1..]);
    assert FullMatch(rest, d[1..]);
    assert AllIn(PhonePattern[1].k, d[..1]);
    assert PhonePattern[1..][1..] == rest;
  }

  /** Whatever matches the last two atoms is a digit 1-9 followed by 9 to 14 digits. */
  lemma TailMatchElim(d: string)
    requires FullMatch(PhonePattern[1..], d)
    ensures 10 <= |d| <= 15 && AllDigits(d) && d[0] != '0'
  {
    var rest := PhonePattern[2..];
    assert PhonePattern[1..][1..] == rest;
    var n :| 1 <= n <= 1 && n <= |d| && AllIn(Span('1', '9'), d[..n]) && FullMatch(rest, d[n..]);
    assert d[..1][0] == d[0];
    var m :| 9 <= m <= 14 && m <= |d[1..]| && AllIn(Span('0', '9'), d[1..][..m])
             && FullMatch(rest[1..], d[1..][m..]);
    assert rest[1..] == [];
    assert |d| == m + 1;
    forall i | 0 <= i < |d|
      ensures IsDigit(d[i])
    {
      if i > 0 {
        assert d[i] == d[1..][..m][i - 1];
      }
    }
  }

  lemma TailMatch(d: string)
    requires 1 <= |d|
    ensures FullMatch(PhonePattern[1..], d) <==> (10 <= |d| <= 15 && AllDigits(d) && d[0] != '0')
  {
    if 10 <= |d| <= 15 && AllDigits(d) && d[0] != '0' {
      TailMatchIntro(d);
    }
    if FullMatch(PhonePattern[1..], d) {
      TailMatchElim(d);
    }
  }

  /** The regular expression accepts exactly the well-formed phone numbers: an optional '+',
      then a digit 1-9, then 9 to 14 more digits (10 to 15 digits in all). */
  lemma PhonePatternIff(s: string)
    ensures FullMatch(PhonePattern, s) <==> WellFormedPhone(s)
  {
    var d := DigitPart(s);
    if WellFormedPhone(s) {
      TailMatch(d);
      var n := if |s| > 0 && s[0] == '+' then 1 else 0;
      assert s[n..] == d;
      assert AllIn(Literal('+'), s[..n]);
      assert FullMatch(PhonePattern, s);
    }
    if FullMatch(PhonePattern, s) {
      var n :| 0 <= n <= 1 && n <= |s| && AllIn(Literal('+'), s[..n]) && FullMatch(PhonePattern[1..], s[n..]);
      assert s[n..] != [];
      if n == 1 {
        assert s[..1][0] == s[0];
        assert d == s[n..];
      } else {
        assert s[n..] == s;
        var k :| 1 <= k <= 1 && k <= |s| && AllIn(Span('1', '9'), s[..k]) && FullMatch(PhonePattern[2..], s[k..]);
        assert s[..1][0] == s[0];
        assert d == s;
      }
      TailMatch(s[n..]);
    }
  }

  // ---------------------------------------------------------------------------------------------
  // The request as a whole.

  const PhoneMandatory := "Phone number is mandatory"
  const PhoneFormat := "Invalid phone number format"
  const MessageMandatory := "Message is mandatory"

  /** The messages reported for the outcomes of the three constraints. */
  function Report(phoneNotBlank: bool, phoneMatches: bool, messageNotBlank: bool): set<string> {
    (if phoneNotBlank then {} else {PhoneMandatory})
    + (if phoneMatches then {} else {PhoneFormat})
    + (if messageNotBlank then {} else {MessageMandatory})
  }

  /** Each failing constraint reports its own message and only failing ones do. */
  lemma ReportIff(phoneNotBlank: bool, phoneMatches: bool, messageNotBlank: bool)
    ensures PhoneMandatory in Report(phoneNotBlank, phoneMatches, messageNotBlank) <==> !phoneNotBlank
    ensures PhoneFormat in Report(phoneNotBlank, phoneMatches, messageNotBlank) <==> !phoneMatches
    ensures MessageMandatory in Report(phoneNotBlank, phoneMatches, messageNotBlank) <==> !messageNotBlank
    ensures Report(phoneNotBlank, phoneMatches, messageNotBlank) == {}
      <==> phoneNotBlank && phoneMatches && messageNotBlank
  {
    assert |PhoneMandatory| != |PhoneFormat| && |PhoneMandatory| != |MessageMandatory|
      && |PhoneFormat| != |MessageMandatory|;
  }

  /** The request passes `@Valid`: every constraint holds. That is the case exactly when its
      phone number is present and well formed and its message is present and holds a visible
      character. */
  predicate IsValid(r: SmsRequest): (v: bool)
    ensures v <==>
      && r.phoneNumber.Some? && WellFormedPhone(r.phoneNumber.value)
      && r.message.Some? && HasVisible(r.message.value)
  {
    if r.phoneNumber.Some? && WellFormedPhone(r.phoneNumber.value) then
      WellFormedIsVisible(r.phoneNumber.value);
      NotBlank(r.phoneNumber) && PatternHolds(r.phoneNumber) && NotBlank(r.message)
    else
      NotBlank(r.phoneNumber) && PatternHolds(r.phoneNumber) && NotBlank(r.message)
  }

  /** A well-formed phone number is never blank: its first digit is visible. */
  lemma WellFormedIsVisible(p: string)
    requires WellFormedPhone(p)
    ensures HasVisible(p)
  {
    var i := if p[0] == '+' then 1 else 0;
    assert !IsTrimmed(p[i]);
  }

  /** The constraint messages the validator reports for `r`: each constraint's message exactly
      when that constraint fails, so nothing is reported exactly when the request is valid. */
  function Violations(r: SmsRequest): (v: set<string>)
    ensures PhoneMandatory in v <==> !NotBlank(r.phoneNumber)
    ensures PhoneFormat in v <==> !PatternHolds(r.phoneNumber)
    ensures MessageMandatory in v <==> !NotBlank(r.message)
    ensures v == {} <==> IsValid(r)
  {
    var phoneNotBlank, phoneMatches := NotBlank(r.phoneNumber), PatternHolds(r.phoneNumber);
    var messageNotBlank := NotBlank(r.message);
    ReportIff(phoneNotBlank, phoneMatches, messageNotBlank);
    Report(phoneNotBlank, phoneMatches, messageNotBlank)
  }

  // ---------------------------------------------------------------------------------------------
  // The request shapes the controller tests send.

  /** "+1234567890" with a non-blank message is accepted. */
  lemma AcceptsPlainInternationalNumber()
    ensures IsValid(SmsRequest(Some("+1234567890"), Some("Hello World")))
  {
    var r := SmsRequest(Some("+1234567890"), Some("Hello World"));
    assert DigitPart("+1234567890") == "1234567890";
    assert !IsTrimmed(r.message.value[0]);
  }

  /** A phone number that is not well formed fails validation whatever the message. */
  lemma RejectsIllFormed(phoneNumber: string, message: JString)
    requires !WellFormedPhone(phoneNumber)
    ensures !IsValid(SmsRequest(Some(phoneNumber), message))
  {
    PhonePatternIff(phoneNumber);
  }

  /** A leading '0' is rejected. */
  lemma RejectsLeadingZero(message: JString)
    ensures !IsValid(SmsRequest(Some("0123456789"), message))
  {
    RejectsIllFormed("0123456789", message);
  }

  /** Too few and too many digits are rejected. */
  lemma RejectsWrongLength(message: JString)
    ensures !IsValid(SmsRequest(Some("+12"), message))
    ensures !IsValid(SmsRequest(Some("+12345678901234567890"), message))
  {
    RejectsIllFormed("+12", message);
    RejectsIllFormed("+12345678901234567890", message);
  }

  /** Letters and separators are rejected. */
  lemma RejectsNonDigits(message: JString)
    ensures !IsValid(SmsRequest(Some("+123abc7890"), message))
    ensures !IsValid(SmsRequest(Some("+123-456-7890"), message))
  {
    assert DigitPart("+123abc7890")[3] == 'a';
    RejectsIllFormed("+123abc7890", message);
    assert DigitPart("+123-456-7890")[3] == '-';
    RejectsIllFormed("+123-456-7890", message);
  }

  /** A missing or empty phone number and a missing or empty message are rejected. */
  lemma RejectsMissingFields(phoneNumber: JString, message: JString)
    ensures !IsValid(SmsRequest(None, message))
    ensures !IsValid(SmsRequest(Some(""), message))
    ensures !IsValid(SmsRequest(phoneNumber, None))
    ensures !IsValid(SmsRequest(phoneNumber, Some("")))
  {
    assert !WellFormedPhone("");
    assert !HasVisible("");
  }
}
