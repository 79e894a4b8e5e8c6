/** The customer entity (entities/Customer.java): a fixed id and creation time, and a
    validated name and e-mail address that setters replace, stamping `updatedAt`. */
module Customers {
  import opened Errors
  import opened Text
  import opened Primitives
  import opened Validation

  const MaxNameLength: nat := 100
  const MaxEmailLength: nat := 100

  predicate IsValidName(s: string) { IsRequiredText(s, MaxNameLength) }

  /** The character class `[\w.-]`. */
  predicate IsEmailChar(c: char) { IsWordChar(c) || c == '.' || c == '-' }

  predicate AllEmailChars(s: string) {
    forall i :: 0 <= i < |s| ==> IsEmailChar(s[i])
  }

  predicate AllLetters(s: string) {
    forall i :: 0 <= i < |s| ==> IsLetter(s[i])
  }

  /** `s` reads `local@domain.tld` with the `@` at `at` and the final dot at `dot`:
      `local` and `domain` are non-empty runs of `[\w.-]`, `tld` at least two letters. */
  predicate IsEmailSplit(s: string, at: int, dot: int) {
    && 0 < at && at + 1 < dot && dot + 3 <= |s|
    && s[at] == '@' && s[dot] == '.'
    && AllEmailChars(s[..at]) && AllEmailChars(s[at + 1..dot]) && AllLetters(s[dot + 1..])
  }

  /** `^[\w.-]+@[\w.-]+\.[a-zA-Z]{2,}$`, matched against the whole string: some split works. */
  predicate MatchesEmailPattern(s: string) {
    exists at, dot | 0 <= at < dot < |s| :: IsEmailSplit(s, at, dot)
  }

  predicate IsValidEmail(s: string) {
    !IsBlank(s) && MatchesEmailPattern(s) && |s| <= MaxEmailLength
  }

  /** `validateName`: kept as given when present, not blank and at most 100 characters. */
  function ValidateName(name: Option<string>): (r: Result<string>)
    ensures r.Success? <==> name.Some? && IsValidName(name.value)
    ensures r.Success? ==> r.value == name.value
    ensures r.Failure? ==> r.error.IllegalArgument?
  {
    RequiredText(name, MaxNameLength, NameBlank, NameTooLong)
  }

  /** `validateEmail`: blank, then format, then length; a too long address is reported as
      such only when its format is right. */
  function ValidateEmail(email: Option<string>): (r: Result<string>)
    ensures r.Success? <==> email.Some? && IsValidEmail(email.value)
    ensures r.Success? ==> r.value == email.value
    ensures email.None? ==> r == Failure(IllegalArgument(EmailBlank))
    ensures email.Some? && !IsBlank(email.value) && !MatchesEmailPattern(email.value) ==>
      r == Failure(IllegalArgument(EmailFormat))
    ensures email.Some? && r.Failure? && r.error == IllegalArgument(EmailTooLong) ==>
      MatchesEmailPattern(email.value) && |email.value| > MaxEmailLength
  {
    if email.None? || IsBlank(email.value) then Failure(IllegalArgument(EmailBlank))
    else if !MatchesEmailPattern(email.value) then Failure(IllegalArgument(EmailFormat))
    else if |email.value| > MaxEmailLength then Failure(IllegalArgument(EmailTooLong))
    else Success(email.value)
  }

  /** The checks of the full constructor, in its order. */
  function ConstructionOutcome(id: Option<Uuid>, name: Option<string>, email: Option<string>,
                               createdAt: Option<DateTime>, updatedAt: Option<DateTime>): (o: Outcome)
    ensures o.Pass? <==>
      && id.Some? && createdAt.Some? && updatedAt.Some?
      && ValidateName(name).Success? && ValidateEmail(email).Success?
    ensures id.None? ==> o == Fail(NullPointer)
    ensures id.Some? && ValidateName(name).Failure? ==> o == Fail(ValidateName(name).error)
    ensures o.Fail? ==> !o.error.Arithmetic?
  {
    if id.None? then Fail(NullPointer)
    else if ValidateName(name).Failure? then Fail(ValidateName(name).error)
    else if ValidateEmail(email).Failure? then Fail(ValidateEmail(email).error)
    else if createdAt.None? || updatedAt.None? then Fail(NullPointer)
    else Pass
  }

  class Customer {
    const id: Uuid
    var name: string
    var email: string
    const createdAt: DateTime
    var updatedAt: DateTime

    ghost predicate Valid()
      reads this
    {
      IsValidName(name) && IsValidEmail(email)
    }

    /** Assigns already validated fields. */
    constructor (id: Uuid, name: string, email: string, createdAt: DateTime, updatedAt: DateTime)
      requires IsValidName(name) && IsValidEmail(email)
      ensures Valid()
      ensures this.id == id && this.name == name && this.email == email
      ensures this.createdAt == createdAt && this.updatedAt == updatedAt
    {
      this.id := id;
      this.name := name;
      this.email := email;
      this.createdAt := createdAt;
      this.updatedAt := updatedAt;
    }

    /** The five-argument constructor: a new customer exactly when every check passes,
        holding the arguments unchanged; otherwise the exception of the first failing check. */
    static method New(id: Option<Uuid>, name: Option<string>, email: Option<string>,
                      createdAt: Option<DateTime>, updatedAt: Option<DateTime>)
      returns (r: Result<Customer>)
      ensures var o := ConstructionOutcome(id, name, email, createdAt, updatedAt);
        (r.Success? <==> o.Pass?) && (r.Failure? ==> r.error == o.error)
      ensures r.Success? ==> fresh(r.value) && r.value.Valid()
      ensures r.Success? ==>
        && r.value.id == id.value && r.value.name == name.value && r.value.email == email.value
        && r.value.createdAt == createdAt.value && r.value.updatedAt == updatedAt.value
    {
      var o := ConstructionOutcome(id, name, email, createdAt, updatedAt);
      if o.Fail? {
        return Failure(o.error);
      }
      var c := new Customer(id.value, name.value, email.value, createdAt.value, updatedAt.value);
      return Success(c);
    }

    /** The two-argument constructor: a null name or e-mail is a null pointer before any
        validation; then a fresh id and the current time as creation and update time. */
    static method Create(name: Option<string>, email: Option<string>, freshId: Uuid, now: DateTime)
      returns (r: Result<Customer>)
      ensures name.None? || email.None? ==> r == Failure(NullPointer)
      ensures r.Success? <==> ValidateName(name).Success? && ValidateEmail(email).Success?
      ensures r.Failure? && name.Some? && email.Some? ==> r.error.IllegalArgument?
      ensures r.Success? ==> fresh(r.value) && r.value.Valid()
      ensures r.Success? ==>
        && r.value.id == freshId && r.value.name == name.value && r.value.email == email.value
        && r.value.createdAt == now && r.value.updatedAt == now
    {
      if name.None? || email.None? {
        return Failure(NullPointer);
      }
      r := New(Some(freshId), name, email, Some(now), Some(now));
    }

    /** `updateTimestamp`: only `updatedAt` changes. */
    method UpdateTimestamp(now: DateTime)
      modifies this`updatedAt
      ensures updatedAt == now
    {
      updatedAt := now;
    }

    /** `setName`: on success only `name` and `updatedAt` change; on failure nothing does. */
    method SetName(name: Option<string>, now: DateTime) returns (r: Outcome)
      requires Valid()
      modifies this`name, this`updatedAt
      ensures Valid()
      ensures r.Pass? <==> ValidateName(name).Success?
      ensures r.Pass? ==> this.name == name.value && updatedAt == now
      ensures r.Fail? ==> r.error == ValidateName(name).error && unchanged(this)
    {
      var v := ValidateName(name);
      if v.Failure? {
        return Fail(v.error);
      }
      this.name := v.value;
      updatedAt := now;
      return Pass;
    }

    /** `setEmail`: on success only `email` and `updatedAt` change; on failure nothing does. */
    method SetEmail(email: Option<string>, now: DateTime) returns (r: Outcome)
      requires Valid()
      modifies this`email, this`updatedAt
      ensures Valid()
      ensures r.Pass? <==> ValidateEmail(email).Success?
      ensures r.Pass? ==> this.email == email.value && updatedAt == now
      ensures r.Fail? ==> r.error == ValidateEmail(email).error && unchanged(this)
    {
      var v := ValidateEmail(email);
      if v.Failure? {
        return Fail(v.error);
      }
      this.email := v.value;
      updatedAt := now;
      return Pass;
    }

    /** `equals`: the identity shortcut agrees with comparing ids. */
    function Equals(other: Customer?): (r: bool)
      ensures r <==> other != null && id == other.id
    {
      if this == other then true
      else if other == null then false
      else id == other.id
    }
  }

  lemma EmailCharsHaveNoAt(s: string, lo: nat, hi: nat)
    requires lo <= hi <= |s|
    ensures AllEmailChars(s[lo..hi]) ==> forall i :: lo <= i < hi ==> s[i] != '@'
  {
    if AllEmailChars(s[lo..hi]) {
      forall i | lo <= i < hi
        ensures s[i] != '@'
      {
        assert s[lo..hi][i - lo] == s[i];
      }
    }
  }

  lemma LettersHaveNoAt(s: string, from: nat)
    requires from <= |s|
    ensures AllLetters(s[from..]) ==> forall i :: from <= i < |s| ==> s[i] != '@'
  {
    if AllLetters(s[from..]) {
      forall i | from <= i < |s|
        ensures s[i] != '@'
      {
        assert s[from..][i - from] == s[i];
      }
    }
  }

  /** An accepted address has exactly one `@`: neither `[\w.-]` nor a letter is `@`. */
  lemma AcceptedEmailHasOneAt(email: string)
    requires ValidateEmail(Some(email)).Success?
    ensures exists k :: 0 <= k < |email| && email[k] == '@' &&
                        (forall i :: 0 <= i < |email| && email[i] == '@' ==> i == k)
  {
    var at, dot :| 0 <= at < dot < |email| && IsEmailSplit(email, at, dot);
    EmailCharsHaveNoAt(email, 0, at);
    EmailCharsHaveNoAt(email, at + 1, dot);
    LettersHaveNoAt(email, dot + 1);
    assert email[at] == '@';
  }

  /** An accepted address ends in at least two letters after a dot. */
  lemma AcceptedEmailEndsInLetters(email: string)
    requires ValidateEmail(Some(email)).Success?
    ensures |email| >= 5
    ensures IsLetter(email[|email| - 1]) && IsLetter(email[|email| - 2])
  {
    var at, dot :| 0 <= at < dot < |email| && IsEmailSplit(email, at, dot);
    assert 0 < at && at + 1 < dot && dot + 3 <= |email|;
    var tld := email[dot + 1..];
    assert tld[|tld| - 1] == email[|email| - 1];
    assert tld[|tld| - 2] == email[|email| - 2];
  }

  /** A one-letter top-level domain is refused as a format error. */
  lemma ShortTopLevelDomainRefused(email: string)
    requires email == "a@b.c"
    ensures ValidateEmail(Some(email)) == Failure(IllegalArgument(EmailFormat))
  {
    assert !IsWhitespace(email[0]);
  }

  /** An ordinary address is accepted and stored as given. */
  lemma OrdinaryEmailAccepted(email: string)
    requires email == "john.doe@example.com"
    ensures ValidateEmail(Some(email)) == Success(email)
  {
    assert !IsWhitespace(email[0]);
    assert email[..8] == "john.doe" && email[9..16] == "example" && email[17..] == "com";
    assert IsEmailSplit(email, 8, 16);
  }
}
