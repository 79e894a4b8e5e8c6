/** The patient entity (entities/Patient.java): identity, owning organization, SSN and
    creation time are fixed; name, date of birth, gender, address and contact are
    validated on construction and by each setter, which also stamps `updatedAt`. */
module Patients {
  import opened Errors
  import opened Text
  import opened Primitives
  import opened Validation
  import opened Ssns

  const MaxNameLength: nat := 100
  const MaxAddressLength: nat := 200

  /** `List.of("M", "F", "NB", "OTHER")`. */
  const Genders: seq<string> := ["M", "F", "NB", "OTHER"]

  predicate IsValidName(s: string) { IsRequiredText(s, MaxNameLength) }

  predicate IsValidAddress(s: string) { IsRequiredText(s, MaxAddressLength) }

  /** A gender is accepted in any letter case. */
  predicate IsValidGender(s: string) { !IsBlank(s) && ToUpper(s) in Genders }

  /** The character class `[0-9\s-]`. */
  predicate IsContactChar(c: char) { IsDigit(c) || IsWhitespace(c) || c == '-' }

  /** `[0-9\s-]{10,15}`. */
  predicate IsContactBody(s: string) {
    10 <= |s| <= 15 && forall i :: 0 <= i < |s| ==> IsContactChar(s[i])
  }

  /** `^\+?[0-9\s-]{10,15}$`, matched against the whole string. */
  predicate MatchesContactPattern(s: string) {
    IsContactBody(s) || (s != [] && s[0] == '+' && IsContactBody(s[1..]))
  }

  predicate IsValidContact(s: string) { !IsBlank(s) && MatchesContactPattern(s) }

  /** `validateName`: kept as given when present, not blank and at most 100 characters. */
  function ValidateName(name: Option<string>): (r: Result<string>)
    ensures r.Success? <==> name.Some? && IsValidName(name.value)
    ensures r.Success? ==> r.value == name.value
    ensures r.Failure? ==> r.error.IllegalArgument?
  {
    RequiredText(name, MaxNameLength, NameBlank, NameTooLong)
  }

  /** `validateDateOfBirth`: a missing date is an illegal argument (not a null pointer),
      and so is a date after today. */
  function ValidateDateOfBirth(dateOfBirth: Option<Date>, today: Date): (r: Result<Date>)
    ensures r.Success? <==> dateOfBirth.Some? && dateOfBirth.value <= today
    ensures r.Success? ==> r.value == dateOfBirth.value
    ensures dateOfBirth.None? ==> r == Failure(IllegalArgument(DateOfBirthMissing))
    ensures dateOfBirth.Some? && r.Failure? ==> r == Failure(IllegalArgument(DateOfBirthInFuture))
  {
    if dateOfBirth.None? then Failure(IllegalArgument(DateOfBirthMissing))
    else if dateOfBirth.value > today then Failure(IllegalArgument(DateOfBirthInFuture))
    else Success(dateOfBirth.value)
  }

  /** `validateGender`: the upper-cased form is looked up, the original spelling is kept. */
  function ValidateGender(gender: Option<string>): (r: Result<string>)
    ensures r.Success? <==> gender.Some? && IsValidGender(gender.value)
    ensures r.Success? ==> r.value == gender.value
    ensures r.Failure? ==> r.error.IllegalArgument?
  {
    if gender.None? || IsBlank(gender.value) then Failure(IllegalArgument(GenderBlank))
    else if ToUpper(gender.value) !in Genders then Failure(IllegalArgument(GenderInvalid))
    else Success(gender.value)
  }

  /** `validateAddress`: kept as given when present, not blank and at most 200 characters. */
  function ValidateAddress(address: Option<string>): (r: Result<string>)
    ensures r.Success? <==> address.Some? && IsValidAddress(address.value)
    ensures r.Success? ==> r.value == address.value
    ensures r.Failure? ==> r.error.IllegalArgument?
  {
    RequiredText(address, MaxAddressLength, AddressBlank, AddressTooLong)
  }

  /** `validateContact`: not blank, then the contact pattern; an accepted contact has
      10 to 16 characters. */
  function ValidateContact(contact: Option<string>): (r: Result<string>)
    ensures r.Success? <==> contact.Some? && IsValidContact(contact.value)
    ensures r.Success? ==> r.value == contact.value && 10 <= |r.value| <= 16
    ensures r.Failure? ==> r.error.IllegalArgument?
  {
    if contact.None? || IsBlank(contact.value) then Failure(IllegalArgument(ContactBlank))
    else if !MatchesContactPattern(contact.value) then Failure(IllegalArgument(ContactFormat))
    else Success(contact.value)
  }

  /** The checks of the full constructor, in its order; the first failing one decides
      the exception. */
  function ConstructionOutcome(id: Option<Uuid>, organizationId: Option<Uuid>, name: Option<string>,
                               ssn: Option<SSN>, dateOfBirth: Option<Date>, gender: Option<string>,
                               address: Option<string>, contact: Option<string>,
                               createdAt: Option<DateTime>, updatedAt: Option<DateTime>,
                               today: Date): (o: Outcome)
    ensures o.Pass? <==>
      && id.Some? && organizationId.Some? && ssn.Some? && createdAt.Some? && updatedAt.Some?
      && ValidateName(name).Success? && ValidateDateOfBirth(dateOfBirth, today).Success?
      && ValidateGender(gender).Success? && ValidateAddress(address).Success?
      && ValidateContact(contact).Success?
    ensures id.None? || organizationId.None? ==> o == Fail(NullPointer)
    ensures o.Fail? ==> !o.error.Arithmetic?
  {
    if id.None? || organizationId.None? then Fail(NullPointer)
    else if ValidateName(name).Failure? then Fail(ValidateName(name).error)
    else if ssn.None? then Fail(NullPointer)
    else if ValidateDateOfBirth(dateOfBirth, today).Failure? then
      Fail(ValidateDateOfBirth(dateOfBirth, today).error)
    else if ValidateGender(gender).Failure? then Fail(ValidateGender(gender).error)
    else if ValidateAddress(address).Failure? then Fail(ValidateAddress(address).error)
    else if ValidateContact(contact).Failure? then Fail(ValidateContact(contact).error)
    else if createdAt.None? || updatedAt.None? then Fail(NullPointer)
    else Pass
  }

  class Patient {
    const id: Uuid
    const organizationId: Uuid
    var name: string
    const ssn: SSN
    var dateOfBirth: Date
    var gender: string
    var address: string
    var contact: string
    const createdAt: DateTime
    var updatedAt: DateTime

    /** What the validators guarantee of the stored text fields. The date of birth is
        not part of it: it was not in the future on the day it was checked. */
    ghost predicate Valid()
      reads this
    {
      IsValidName(name) && IsValidGender(gender) && IsValidAddress(address) && IsValidContact(contact)
    }

    /** Assigns already validated fields. */
    constructor (id: Uuid, organizationId: Uuid, name: string, ssn: SSN, dateOfBirth: Date,
                 gender: string, address: string, contact: string,
                 createdAt: DateTime, updatedAt: DateTime)
      requires IsValidName(name) && IsValidGender(gender)
      requires IsValidAddress(address) && IsValidContact(contact)
      ensures Valid()
      ensures this.id == id && this.organizationId == organizationId && this.name == name
      ensures this.ssn == ssn && this.dateOfBirth == dateOfBirth && this.gender == gender
      ensures this.address == address && this.contact == contact
      ensures this.createdAt == createdAt && this.updatedAt == updatedAt
    {
      this.id := id;
      this.organizationId := organizationId;
      this.name := name;
      this.ssn := ssn;
      this.dateOfBirth := dateOfBirth;
      this.gender := gender;
      this.address := address;
      this.contact := contact;
      this.createdAt := createdAt;
      this.updatedAt := updatedAt;
    }

    /** The full constructor: a new patient exactly when every check passes, holding the
        arguments unchanged; otherwise the exception of the first failing check. */
    static method New(id: Option<Uuid>, organizationId: Option<Uuid>, name: Option<string>,
                      ssn: Option<SSN>, dateOfBirth: Option<Date>, gender: Option<string>,
                      address: Option<string>, contact: Option<string>,
                      createdAt: Option<DateTime>, updatedAt: Option<DateTime>, today: Date)
      returns (r: Result<Patient>)
      ensures var o := ConstructionOutcome(id, organizationId, name, ssn, dateOfBirth, gender,
                                           address, contact, createdAt, updatedAt, today);
        (r.Success? <==> o.Pass?) && (r.Failure? ==> r.error == o.error)
      ensures r.Success? ==> fresh(r.value) && r.value.Valid()
      ensures r.Success? ==>
        && r.value.id == id.value && r.value.organizationId == organizationId.value
        && r.value.name == name.value && r.value.ssn == ssn.value
        && r.value.dateOfBirth == dateOfBirth.value && r.value.gender == gender.value
        && r.value.address == address.value && r.value.contact == contact.value
        && r.value.createdAt == createdAt.value && r.value.updatedAt == updatedAt.value
    {
      var o := ConstructionOutcome(id, organizationId, name, ssn, dateOfBirth, gender,
                                   address, contact, createdAt, updatedAt, today);
      if o.Fail? {
        return Failure(o.error);
      }
      var p := new Patient(id.value, organizationId.value, name.value, ssn.value, dateOfBirth.value,
                           gender.value, address.value, contact.value, createdAt.value, updatedAt.value);
      return Success(p);
    }

    /** `Patient.create`: a fresh id, and the current time as both creation and update time. */
    static method Create(organizationId: Option<Uuid>, name: Option<string>, ssn: Option<SSN>,
                         dateOfBirth: Option<Date>, gender: Option<string>, address: Option<string>,
                         contact: Option<string>, freshId: Uuid, now: DateTime, today: Date)
      returns (r: Result<Patient>)
      ensures r.Success? <==>
        ConstructionOutcome(Some(freshId), organizationId, name, ssn, dateOfBirth, gender,
                            address, contact, Some(now), Some(now), today).Pass?
      ensures r.Failure? ==>
        r.error == ConstructionOutcome(Some(freshId), organizationId, name, ssn, dateOfBirth, gender,
                                       address, contact, Some(now), Some(now), today).error
      ensures r.Success? ==> fresh(r.value) && r.value.Valid()
      ensures r.Success? ==>
        && r.value.id == freshId && r.value.organizationId == organizationId.value
        && r.value.name == name.value && r.value.ssn == ssn.value
        && r.value.dateOfBirth == dateOfBirth.value && r.value.gender == gender.value
        && r.value.address == address.value && r.value.contact == contact.value
        && r.value.createdAt == now && r.value.updatedAt == now
    {
      r := New(Some(freshId), organizationId, name, ssn, dateOfBirth, gender, address, contact,
               Some(now), Some(now), today);
    }

    /** `updateTimestamp`: only `updatedAt` changes. */
    method UpdateTimestamp(now: DateTime)
      modifies this`updatedAt
      ensures updatedAt == now
    {
      updatedAt := now;
    }

    /** `setName`: on success only `name` and `updatedAt` change; on failure nothing does. */
    method SetName(name: Option<string>, now: DateTime) returns (r: Outcome)
      requires Valid()
      modifies this`name, this`updatedAt
      ensures Valid()
      ensures r.Pass? <==> ValidateName(name).Success?
      ensures r.Pass? ==> this.name == name.value && updatedAt == now
      ensures r.Fail? ==> r.error == ValidateName(name).error && unchanged(this)
    {
      var v := ValidateName(name);
      if v.Failure? {
        return Fail(v.error);
      }
      this.name := v.value;
      UpdateTimestamp(now);
      return Pass;
    }

    /** `setDateOfBirth`: on success only `dateOfBirth` and `updatedAt` change; on failure
        nothing does. */
    method SetDateOfBirth(dateOfBirth: Option<Date>, today: Date, now: DateTime) returns (r: Outcome)
      requires Valid()
      modifies this`dateOfBirth, this`updatedAt
      ensures Valid()
      ensures r.Pass? <==> ValidateDateOfBirth(dateOfBirth, today).Success?
      ensures r.Pass? ==> this.dateOfBirth == dateOfBirth.value && updatedAt == now
      ensures r.Fail? ==> r.error == ValidateDateOfBirth(dateOfBirth, today).error && unchanged(this)
    {
      var v := ValidateDateOfBirth(dateOfBirth, today);
      if v.Failure? {
        return Fail(v.error);
      }
      this.dateOfBirth := v.value;
      UpdateTimestamp(now);
      return Pass;
    }

    /** `setGender`: on success only `gender` (as spelled by the caller) and `updatedAt`
        change; on failure nothing does. */
    method SetGender(gender: Option<string>, now: DateTime) returns (r: Outcome)
      requires Valid()
      modifies this`gender, this`updatedAt
      ensures Valid()
      ensures r.Pass? <==> ValidateGender(gender).Success?
      ensures r.Pass? ==> this.gender == gender.value && updatedAt == now
      ensures r.Fail? ==> r.error == ValidateGender(gender).error && unchanged(this)
    {
      var v := ValidateGender(gender);
      if v.Failure? {
        return Fail(v.error);
      }
      this.gender := v.value;
      UpdateTimestamp(now);
      return Pass;
    }

    /** `setAddress`: on success only `address` and `updatedAt` change; on failure nothing does. */
    method SetAddress(address: Option<string>, now: DateTime) returns (r: Outcome)
      requires Valid()
      modifies this`address, this`updatedAt
      ensures Valid()
      ensures r.Pass? <==> ValidateAddress(address).Success?
      ensures r.Pass? ==> this.address == address.value && updatedAt == now
      ensures r.Fail? ==> r.error == ValidateAddress(address).error && unchanged(this)
    {
      var v := ValidateAddress(address);
      if v.Failure? {
        return Fail(v.error);
      }
      this.address := v.value;
      UpdateTimestamp(now);
      return Pass;
    }

    /** `setContact`: on success only `contact` and `updatedAt` change; on failure nothing does. */
    method SetContact(contact: Option<string>, now: DateTime) returns (r: Outcome)
      requires Valid()
      modifies this`contact, this`updatedAt
      ensures Valid()
      ensures r.Pass? <==> ValidateContact(contact).Success?
      ensures r.Pass? ==> this.contact == contact.value && updatedAt == now
      ensures r.Fail? ==> r.error == ValidateContact(contact).error && unchanged(this)
    {
      var v := ValidateContact(contact);
      if v.Failure? {
        return Fail(v.error);
      }
      this.contact := v.value;
      UpdateTimestamp(now);
      return Pass;
    }

    /** `equals`: the identity shortcut agrees with comparing id and SSN. */
    function Equals(other: Patient?): (r: bool)
      ensures r <==> other != null && id == other.id && ssn == other.ssn
    {
      if this == other then true
      else if other == null then false
      else id == other.id && ssn == other.ssn
    }
  }

  /** Gender is case-insensitive: a spelling is accepted exactly when its upper-cased
      form is. */
  lemma GenderIsCaseInsensitive(gender: string)
    ensures ValidateGender(Some(gender)).Success? <==> ValidateGender(Some(ToUpper(gender))).Success?
  {
    ToUpperIdempotent(gender);
  }

  /** A lower-case spelling is accepted and stored as spelled. */
  lemma LowerCaseGenderKept(gender: string)
    requires gender == "nb"
    ensures ValidateGender(Some(gender)) == Success("nb")
  {
    assert !IsWhitespace(gender[0]);
    assert ToUpper(gender) == Genders[2];
  }

  /** Anything outside the four values is refused. */
  lemma UnknownGenderRefused(gender: string)
    requires gender == "X"
    ensures ValidateGender(Some(gender)) == Failure(IllegalArgument(GenderInvalid))
  {
    var upper := ToUpper(gender);
    assert !IsWhitespace(gender[0]);
    assert upper == ['X'];
    assert Genders == [['M'], ['F'], ['N', 'B'], ['O', 'T', 'H', 'E', 'R']];
  }

  /** The contact pattern does not ask for a single digit: ten hyphens are a contact. */
  lemma ContactNeedsNoDigit(contact: string)
    requires contact == "----------"
    ensures ValidateContact(Some(contact)) == Success(contact)
    ensures forall i :: 0 <= i < |contact| ==> !IsDigit(contact[i])
  {
    assert !IsWhitespace(contact[0]);
  }

  /** Ten spaces match the pattern but are refused first, as blank. */
  lemma BlankContactRefused(contact: string)
    requires contact == "          "
    ensures MatchesContactPattern(contact)
    ensures ValidateContact(Some(contact)) == Failure(IllegalArgument(ContactBlank))
  {
  }
}
