/** The person identifier `SSN` (valueobjects/SSN.java): a record holding the
    cleaned nine-digit value, validated by its compact constructor. */
module Ssns {
  import opened Errors
  import opened Text

  datatype SsnValue = SsnValue(value: string)

  /** Every SSN that exists went through the compact constructor, so its value is well formed. */
  type SSN = s: SsnValue | WellFormed(s.value) witness SsnValue("001010001")

  /** The denylist, in the order of the source. */
  const InvalidSsns: seq<string> := ["111111111", "123456789", "999999999", "000000000", "123123123"]

  function DigitValue(c: char): nat
    requires IsDigit(c)
  {
    c as int - '0' as int
  }

  /** The numbers that the area (3 digits), group (2) and serial (4) segments denote. */
  function ThreeDigitNumber(s: string): nat
    requires |s| == 3 && AllDigits(s)
  {
    100 * DigitValue(s[0]) + 10 * DigitValue(s[1]) + DigitValue(s[2])
  }

  function TwoDigitNumber(s: string): nat
    requires |s| == 2 && AllDigits(s)
  {
    10 * DigitValue(s[0]) + DigitValue(s[1])
  }

  function FourDigitNumber(s: string): nat
    requires |s| == 4 && AllDigits(s)
  {
    1000 * DigitValue(s[0]) + 100 * DigitValue(s[1]) + 10 * DigitValue(s[2]) + DigitValue(s[3])
  }

  /** The reference definition of a valid SSN value, stated on the numbers the
      three segments denote: area 001-899 except 666, group not 00, serial not 0000,
      and not one of the trivial values the area rule does not already exclude. */
  predicate WellFormed(v: string) {
    && |v| == 9 && AllDigits(v)
    && ThreeDigitNumber(v[..3]) != 0 && ThreeDigitNumber(v[..3]) != 666
    && ThreeDigitNumber(v[..3]) < 900
    && TwoDigitNumber(v[3..5]) != 0
    && FourDigitNumber(v[5..]) != 0
    && v != "111111111" && v != "123456789" && v != "123123123"
  }

  predicate IsSeparator(c: char) { IsWhitespace(c) || c == '-' }

  /** `input.replaceAll("[\\s-]", "")`. */
  function CleanInput(s: string): (r: string)
    ensures |r| <= |s|
    ensures forall i :: 0 <= i < |r| ==> !IsSeparator(r[i])
  {
    if s == [] then []
    else (if IsSeparator(s[0]) then [] else [s[0]]) + CleanInput(s[1..])
  }

  lemma {:induction false} CleanInputConcat(a: string, b: string)
    ensures CleanInput(a + b) == CleanInput(a) + CleanInput(b)
  {
    if a == [] {
      assert a + b == b;
    } else {
      assert (a + b)[1..] == a[1..] + b;
      CleanInputConcat(a[1..], b);
    }
  }

  /** A string with no separator is left as it is. */
  lemma {:induction false} CleanInputFixed(s: string)
    requires forall i :: 0 <= i < |s| ==> !IsSeparator(s[i])
    ensures CleanInput(s) == s
  {
    if s != [] {
      CleanInputFixed(s[1..]);
    }
  }

  /** Java's `String.compareTo`: the difference of the first differing characters,
      or of the lengths when one string is a prefix of the other. */
  function CompareTo(a: string, b: string): (r: int)
    ensures r == 0 <==> a == b
  {
    if a == [] || b == [] then |a| - |b|
    else if a[0] != b[0] then a[0] as int - b[0] as int
    else
      assert a == [a[0]] + a[1..] && b == [b[0]] + b[1..];
      CompareTo(a[1..], b[1..])
  }

  /** On a three-digit area the string tests of `validateAreaNumber` are numeric tests:
      `000` is 0, `666` is 666, and `compareTo("900") >= 0` means 900 or more. */
  lemma {:induction false} AreaTests(area: string)
    ensures |area| == 3 && AllDigits(area) ==>
      && (area == "000" <==> ThreeDigitNumber(area) == 0)
      && (area == "666" <==> ThreeDigitNumber(area) == 666)
      && (CompareTo(area, "900") >= 0 <==> ThreeDigitNumber(area) >= 900)
  {
    if |area| == 3 && AllDigits(area) {
      assert area == [area[0], area[1], area[2]];
      var nine, zeros, zero := "900", "00", "0";
      assert nine[0] == '9' && nine[1..] == zeros;
      assert zeros[0] == '0' && zeros[1..] == zero;
      assert zero[0] == '0' && zero[1..] == [];
      var a1 := area[1..];
      var a2 := a1[1..];
      assert a1[0] == area[1] && a2[0] == area[2] && a2[1..] == [];
      assert CompareTo(a2, zero) >= 0;
      assert CompareTo(a1, zeros) >= 0;
    }
  }

  /** `validateAreaNumber`: `000` and `666` are invalid, anything from `900` on is reserved. */
  function ValidateAreaNumber(area: string): (r: Outcome)
    ensures |area| == 3 && AllDigits(area) ==>
      (r.Pass? <==> ThreeDigitNumber(area) != 0 && ThreeDigitNumber(area) != 666
                    && ThreeDigitNumber(area) < 900)
    ensures r.Fail? ==> r.error.IllegalArgument?
  {
    AreaTests(area);
    if area == "000" || area == "666" then
      Fail(IllegalArgument(SsnAreaInvalid))
    else if CompareTo(area, "900") >= 0 then
      Fail(IllegalArgument(SsnAreaReserved))
    else
      Pass
  }

  /** `validateGroupNumber`. */
  function ValidateGroupNumber(group: string): (r: Outcome)
    ensures |group| == 2 && AllDigits(group) ==> (r.Pass? <==> TwoDigitNumber(group) != 0)
    ensures r.Fail? ==> r == Fail(IllegalArgument(SsnGroupZero))
  {
    assert |group| == 2 ==> group == [group[0], group[1]];
    if "00" == group then Fail(IllegalArgument(SsnGroupZero)) else Pass
  }

  /** `validateSerialNumber`. */
  function ValidateSerialNumber(serial: string): (r: Outcome)
    ensures |serial| == 4 && AllDigits(serial) ==> (r.Pass? <==> FourDigitNumber(serial) != 0)
    ensures r.Fail? ==> r == Fail(IllegalArgument(SsnSerialZero))
  {
    assert |serial| == 4 ==> serial == [serial[0], serial[1], serial[2], serial[3]];
    if "0000" == serial then Fail(IllegalArgument(SsnSerialZero)) else Pass
  }

  /** `checkForInvalidSequences`: the scan over the denylist. */
  function CheckForInvalidSequences(ssn: string): (r: Outcome)
    ensures r.Fail? ==> r == Fail(IllegalArgument(SsnDenylisted))
    ensures r.Pass? <==> forall i :: 0 <= i < |InvalidSsns| ==> InvalidSsns[i] != ssn
  {
    if ssn in InvalidSsns then Fail(IllegalArgument(SsnDenylisted)) else Pass
  }

  /** `SSN_PATTERN`, `^\d{9}$`. */
  predicate MatchesSsnPattern(s: string) {
    |s| == 9 && AllDigits(s)
  }

  /** `validate`: the checks in their order; it passes exactly on the well-formed values. */
  function Validate(ssn: string): (r: Outcome)
    ensures r.Pass? <==> WellFormed(ssn)
    ensures r.Fail? ==> r.error.IllegalArgument?
  {
    if |ssn| != 9 then Fail(IllegalArgument(SsnLength))
    else if !MatchesSsnPattern(ssn) then Fail(IllegalArgument(SsnNotDigits))
    else
      var area := ValidateAreaNumber(ssn[..3]);
      if area.Fail? then area
      else
        var group := ValidateGroupNumber(ssn[3..5]);
        if group.Fail? then group
        else
          var serial := ValidateSerialNumber(ssn[5..]);
          if serial.Fail? then serial
          else
            CheckForInvalidSequences(ssn)
  }

  /** The compact constructor (`new SSN(value)`, also `SSN.of`): null is refused with
      NullPointerException, then the value is cleaned, validated and stored cleaned. */
  function Of(input: Option<string>): (r: Result<SSN>)
    ensures input.None? ==> r == Failure(NullPointer)
    ensures input.Some? ==> (r.Success? <==> WellFormed(CleanInput(input.value)))
    ensures r.Success? ==> input.Some? && r.value.value == CleanInput(input.value)
    ensures input.Some? && r.Failure? ==> r.error.IllegalArgument?
  {
    match input
    case None => Failure(NullPointer)
    case Some(s) =>
      var clean := CleanInput(s);
      var v := Validate(clean);
      if v.Fail? then Failure(v.error) else Success(SsnValue(clean))
  }

  /** `formatted()`: `XXX-XX-XXXX`; deleting the two hyphens gives back the value. */
  function Formatted(s: SSN): (r: string)
    ensures |r| == 11 && r[3] == '-' && r[6] == '-'
    ensures r[..3] + r[4..6] + r[7..] == s.value
  {
    var v := s.value;
    var r := v[..3] + "-" + v[3..5] + "-" + v[5..];
    assert r[..3] == v[..3] && r[4..6] == v[3..5] && r[7..] == v[5..];
    assert v[..3] + v[3..5] + v[5..] == v;
    r
  }

  /** `isValid`: catches only IllegalArgumentException, so a null input still throws. */
  function IsValid(input: Option<string>): (r: Result<bool>)
    ensures input.None? ==> r == Failure(NullPointer)
    ensures input.Some? ==> r == Success(WellFormed(CleanInput(input.value)))
  {
    match Of(input)
    case Success(_) => Success(true)
    case Failure(IllegalArgument(_)) => Success(false)
    case Failure(e) => Failure(e)
  }

  /** Cleaning `a-b-c` drops exactly the two hyphens when `a`, `b`, `c` have no separator. */
  lemma CleanHyphenated(a: string, b: string, c: string)
    requires forall i :: 0 <= i < |a| ==> !IsSeparator(a[i])
    requires forall i :: 0 <= i < |b| ==> !IsSeparator(b[i])
    requires forall i :: 0 <= i < |c| ==> !IsSeparator(c[i])
    ensures CleanInput(a + "-" + b + "-" + c) == a + b + c
  {
    var hyphen := "-";
    assert CleanInput(hyphen) == [] by {
      assert hyphen[1..] == [];
    }
    CleanInputFixed(a);
    CleanInputFixed(b);
    CleanInputFixed(c);
    var x1 := a + hyphen;
    CleanInputConcat(a, hyphen);
    assert CleanInput(x1) == a;
    var x2 := x1 + b;
    CleanInputConcat(x1, b);
    assert CleanInput(x2) == a + b;
    var x3 := x2 + hyphen;
    CleanInputConcat(x2, hyphen);
    assert CleanInput(x3) == a + b;
    CleanInputConcat(x3, c);
    assert CleanInput(x3 + c) == a + b + c;
  }

  /** Round trip: constructing from the formatted text gives the same SSN back. */
  lemma OfFormatted(s: SSN)
    ensures Of(Some(Formatted(s))) == Success(s)
  {
    var v := s.value;
    CleanHyphenated(v[..3], v[3..5], v[5..]);
    assert v[..3] + v[3..5] + v[5..] == v;
  }

  /** Parsing is idempotent through formatting: parse(format(parse(x))) == parse(x). */
  lemma ParseFormatParse(x: string)
    requires Of(Some(x)).Success?
    ensures Of(Some(Formatted(Of(Some(x)).value))) == Of(Some(x))
  {
    OfFormatted(Of(Some(x)).value);
  }

  /** `123-45-6789` is on the denylist, so construction from it fails. */
  lemma SequentialExampleRejected(input: string)
    requires input == "123-45-6789"
    ensures Of(Some(input)) == Failure(IllegalArgument(SsnDenylisted))
  {
    var a, b, c := "123", "45", "6789";
    CleanHyphenated(a, b, c);
    assert a + "-" + b + "-" + c == input;
    assert a + b + c == "123456789";
  }

  /** A well-formed example: `078-05-1120` is accepted and stored without hyphens. */
  lemma ValidExampleAccepted(input: string)
    requires input == "078-05-1120"
    ensures Of(Some(input)) == Success(SsnValue("078051120"))
  {
    var a, b, c := "078", "05", "1120";
    CleanHyphenated(a, b, c);
    assert a + "-" + b + "-" + c == input;
    assert a + b + c == "078051120";
  }
}
