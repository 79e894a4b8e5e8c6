/** The organization tax identifier `EIN` (valueobjects/EIN.java): an immutable
    object holding the nine-digit value with its hyphen removed. */
module Eins {
  import opened Errors
  import opened Text

  datatype EinValue = EinValue(value: string)

  /** Every EIN that exists went through the constructor, so its value is well formed. */
  type EIN = e: EinValue | WellFormed(e.value) witness EinValue(SampleValue())

  /** A well-formed value, showing the type is inhabited. */
  function SampleValue(): (v: string)
    ensures WellFormed(v)
  {
    var v := "100000000";
    assert v[1] != v[0];
    v
  }

  /** The denylist, in the order of the source, hyphens included. */
  const InvalidEins: seq<string> := [
    "00-0000000", "07-7777777",
    "11-1111111", "22-2222222",
    "33-3333333", "44-4444444",
    "55-5555555", "66-6666666",
    "77-7777777", "88-8888888",
    "99-9999999"
  ]

  /** All characters of `v` equal its first one. */
  predicate RepeatedDigit(v: string) {
    forall i :: 0 <= i < |v| ==> v[i] == v[0]
  }

  /** The reference definition of a valid EIN value: nine digits, not starting
      with `0`, and not one digit repeated nine times. */
  predicate WellFormed(v: string) {
    |v| == 9 && AllDigits(v) && v[0] != '0' && !RepeatedDigit(v)
  }

  /** `input.replace("-", "")`. */
  function CleanInput(s: string): (r: string)
    ensures |r| <= |s|
    ensures forall i :: 0 <= i < |r| ==> r[i] != '-'
  {
    if s == [] then []
    else (if s[0] == '-' then [] else [s[0]]) + CleanInput(s[1..])
  }

  lemma {:induction false} CleanInputConcat(a: string, b: string)
    ensures CleanInput(a + b) == CleanInput(a) + CleanInput(b)
  {
    if a == [] {
      assert a + b == b;
    } else {
      assert (a + b)[1..] == a[1..] + b;
      CleanInputConcat(a[1..], b);
    }
  }

  /** A string without a hyphen is left as it is. */
  lemma {:induction false} CleanInputFixed(s: string)
    requires forall i :: 0 <= i < |s| ==> s[i] != '-'
    ensures CleanInput(s) == s
  {
    if s != [] {
      CleanInputFixed(s[1..]);
    }
  }

  /** Cleaning `a-b` drops exactly the one hyphen when `a` and `b` have none. */
  lemma CleanHyphenated(a: string, b: string)
    requires forall i :: 0 <= i < |a| ==> a[i] != '-'
    requires forall i :: 0 <= i < |b| ==> b[i] != '-'
    ensures CleanInput(a + "-" + b) == a + b
  {
    var hyphen := "-";
    assert CleanInput(hyphen) == [] by {
      assert hyphen[1..] == [];
    }
    CleanInputFixed(a);
    CleanInputFixed(b);
    CleanInputConcat(a, hyphen);
    assert CleanInput(a + hyphen) == a;
    CleanInputConcat(a + hyphen, b);
  }

  /** `EIN_PATTERN`, `^\d{2}-?\d{7}$`. */
  predicate MatchesEinPattern(s: string) {
    || (|s| == 9 && AllDigits(s))
    || (|s| == 10 && AllDigits(s[..2]) && s[2] == '-' && AllDigits(s[3..]))
  }

  predicate StartsWith(s: string, prefix: string) {
    |prefix| <= |s| && s[..|prefix|] == prefix
  }

  /** `validatePrefix`. Its second test, for `00`, can never fail: the first already rejects it. */
  function ValidatePrefix(prefix: string): (r: Outcome)
    ensures r.Pass? <==> prefix == [] || prefix[0] != '0'
    ensures r.Fail? ==> r == Fail(IllegalArgument(EinPrefixZero))
  {
    if StartsWith(prefix, "0") then Fail(IllegalArgument(EinPrefixZero))
    else if prefix == "00" then Fail(IllegalArgument(EinPrefixDoubleZero))
    else Pass
  }

  /** The shape of a denylist entry: `ab-bbbbbbb`, and the same with its hyphen removed. */
  function Entry(a: char, b: char): string {
    [a, b, '-', b, b, b, b, b, b, b]
  }

  function StrippedEntry(a: char, b: char): string {
    [a, b, b, b, b, b, b, b, b]
  }

  /** The two digits of the `i`-th denylist entry: `00`, `07`, then `11` to `99`. */
  function EntryLead(i: nat): char
    requires i < 11
  {
    if i <= 1 then '0' else ('0' as int + i - 1) as char
  }

  function EntryDigit(i: nat): char
    requires i < 11
  {
    if i == 0 then '0' else if i == 1 then '7' else ('0' as int + i - 1) as char
  }

  lemma EntryShapes()
    ensures |InvalidEins| == 11
    ensures forall i :: 0 <= i < 11 ==> InvalidEins[i] == Entry(EntryLead(i), EntryDigit(i))
  {
    forall i | 0 <= i < 11
      ensures InvalidEins[i] == Entry(EntryLead(i), EntryDigit(i))
    {
      if i == 0 { assert InvalidEins[0] == Entry('0', '0'); }
      else if i == 1 { assert InvalidEins[1] == Entry('0', '7'); }
      else if i == 2 { assert InvalidEins[2] == Entry('1', '1'); }
      else if i == 3 { assert InvalidEins[3] == Entry('2', '2'); }
      else if i == 4 { assert InvalidEins[4] == Entry('3', '3'); }
      else if i == 5 { assert InvalidEins[5] == Entry('4', '4'); }
      else if i == 6 { assert InvalidEins[6] == Entry('5', '5'); }
      else if i == 7 { assert InvalidEins[7] == Entry('6', '6'); }
      else if i == 8 { assert InvalidEins[8] == Entry('7', '7'); }
      else if i == 9 { assert InvalidEins[9] == Entry('8', '8'); }
      else { assert InvalidEins[10] == Entry('9', '9'); }
    }
  }

  /** Removing the hyphen of an entry leaves its nine digits. */
  lemma EntryStripped(a: char, b: char)
    requires a != '-' && b != '-'
    ensures CleanInput(Entry(a, b)) == StrippedEntry(a, b)
  {
    var x := Entry(a, b);
    assert x == [a, b] + "-" + [b, b, b, b, b, b, b];
    CleanHyphenated([a, b], [b, b, b, b, b, b, b]);
  }

  /** Each denylist entry loses its one hyphen and becomes nine digits that start
      with `0` (the first two entries) or are one digit `1` to `9` repeated. */
  lemma DenylistStripped()
    ensures forall i :: 0 <= i < |InvalidEins| ==>
      CleanInput(InvalidEins[i]) == StrippedEntry(EntryLead(i), EntryDigit(i))
  {
    EntryShapes();
    forall i | 0 <= i < |InvalidEins|
      ensures CleanInput(InvalidEins[i]) == StrippedEntry(EntryLead(i), EntryDigit(i))
    {
      EntryStripped(EntryLead(i), EntryDigit(i));
    }
  }

  /** On nine digits not starting with `0`, being denylisted is being one digit repeated. */
  lemma DenylistedIffRepeated(ein: string)
    ensures |ein| == 9 && AllDigits(ein) && ein[0] != '0' ==>
      ((exists i :: 0 <= i < |InvalidEins| && ein == CleanInput(InvalidEins[i]))
       <==> RepeatedDigit(ein))
  {
    DenylistStripped();
    if |ein| == 9 && AllDigits(ein) && ein[0] != '0' && RepeatedDigit(ein) {
      var i := ein[0] as int - '0' as int + 1;
      assert ein == StrippedEntry(EntryLead(i), EntryDigit(i));
    }
  }

  /** `checkForInvalidSequences`: the scan over the denylist, each entry with its hyphen removed. */
  function CheckForInvalidSequences(ein: string): (r: Outcome)
    ensures r.Fail? ==> r == Fail(IllegalArgument(EinDenylisted))
    ensures |ein| == 9 && AllDigits(ein) && ein[0] != '0' ==> (r.Pass? <==> !RepeatedDigit(ein))
  {
    DenylistedIffRepeated(ein);
    if exists i :: 0 <= i < |InvalidEins| && ein == CleanInput(InvalidEins[i]) then
      Fail(IllegalArgument(EinDenylisted))
    else
      Pass
  }

  /** `validate`: the checks in their order; it passes exactly on the well-formed values. */
  function Validate(ein: string): (r: Outcome)
    ensures r.Pass? <==> WellFormed(ein)
    ensures r.Fail? ==> r.error.IllegalArgument?
  {
    if |ein| != 9 then Fail(IllegalArgument(EinLength))
    else if !MatchesEinPattern(ein) then Fail(IllegalArgument(EinFormat))
    else
      var prefix := ValidatePrefix(ein[..2]);
      if prefix.Fail? then prefix
      else CheckForInvalidSequences(ein)
  }

  /** The constructor (`new EIN(value)`, also `EIN.of`): the hyphens are removed
      (a null input throws NullPointerException there), the rest is validated and stored. */
  function Of(input: Option<string>): (r: Result<EIN>)
    ensures input.None? ==> r == Failure(NullPointer)
    ensures input.Some? ==> (r.Success? <==> WellFormed(CleanInput(input.value)))
    ensures r.Success? ==> input.Some? && r.value.value == CleanInput(input.value)
    ensures input.Some? && r.Failure? ==> r.error.IllegalArgument?
  {
    match input
    case None => Failure(NullPointer)
    case Some(s) =>
      var clean := CleanInput(s);
      var v := Validate(clean);
      if v.Fail? then Failure(v.error) else Success(EinValue(clean))
  }

  /** `formatted()`: `XX-XXXXXXX`. */
  function Formatted(e: EIN): (r: string)
    ensures |r| == 10 && r[2] == '-'
    ensures r[..2] + r[3..] == e.value
  {
    var v := e.value;
    var r := v[..2] + "-" + v[2..];
    assert r[..2] == v[..2] && r[3..] == v[2..];
    assert v[..2] + v[2..] == v;
    r
  }

  /** `raw()`: the stored nine digits. */
  function Raw(e: EIN): (r: string)
    ensures |r| == 9 && AllDigits(r)
  {
    e.value
  }

  /** `equals`: two EINs are equal when their cleaned values are, which is when they
      are the same EIN and when they format alike. */
  predicate Equals(a: EIN, b: EIN)
    ensures Equals(a, b) <==> a == b
    ensures Equals(a, b) <==> Formatted(a) == Formatted(b)
  {
    a.value == b.value
  }

  /** Round trip: `new EIN(e.formatted()).raw() == e.raw()`, and the EIN itself comes back. */
  lemma OfFormatted(e: EIN)
    ensures Of(Some(Formatted(e))) == Success(e)
    ensures Raw(Of(Some(Formatted(e))).value) == Raw(e)
  {
    var v := e.value;
    CleanHyphenated(v[..2], v[2..]);
    assert v[..2] + v[2..] == v;
  }

  /** The hyphenated and the plain spelling of a number give equal EINs. */
  lemma SpellingsAreEqual(hyphenated: string, plain: string)
    requires hyphenated == "12-3456789" && plain == "123456789"
    ensures Of(Some(hyphenated)).Success? && Of(Some(plain)).Success?
    ensures Equals(Of(Some(hyphenated)).value, Of(Some(plain)).value)
  {
    CleanHyphenated("12", "3456789");
    assert "12" + "-" + "3456789" == hyphenated;
    assert "12" + "3456789" == plain;
    CleanInputFixed(plain);
    assert plain[1] != plain[0];
  }
}
