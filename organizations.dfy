/** The organization entity (entities/Organization.java): a fixed id, EIN and creation
    time, and a validated name and address that setters replace, stamping `updatedAt`. */
module Organizations {
  import opened Errors
  import opened Primitives
  import opened Validation
  import opened Eins

  const MaxNameLength: nat := 100
  const MaxAddressLength: nat := 200

  predicate IsValidName(s: string) { IsRequiredText(s, MaxNameLength) }

  predicate IsValidAddress(s: string) { IsRequiredText(s, MaxAddressLength) }

  /** `validateName`: kept as given when present, not blank and at most 100 characters. */
  function ValidateName(name: Option<string>): (r: Result<string>)
    ensures r.Success? <==> name.Some? && IsValidName(name.value)
    ensures r.Success? ==> r.value == name.value
    ensures r.Failure? ==> r.error.IllegalArgument?
  {
    RequiredText(name, MaxNameLength, NameBlank, NameTooLong)
  }

  /** `validateAddress`: kept as given when present, not blank and at most 200 characters. */
  function ValidateAddress(address: Option<string>): (r: Result<string>)
    ensures r.Success? <==> address.Some? && IsValidAddress(address.value)
    ensures r.Success? ==> r.value == address.value
    ensures r.Failure? ==> r.error.IllegalArgument?
  {
    RequiredText(address, MaxAddressLength, AddressBlank, AddressTooLong)
  }

  /** The checks of the full constructor, in its order. */
  function ConstructionOutcome(id: Option<Uuid>, name: Option<string>, address: Option<string>,
                               ein: Option<EIN>, createdAt: Option<DateTime>,
                               updatedAt: Option<DateTime>): (o: Outcome)
    ensures o.Pass? <==>
      && id.Some? && ein.Some? && createdAt.Some? && updatedAt.Some?
      && ValidateName(name).Success? && ValidateAddress(address).Success?
    ensures id.None? ==> o == Fail(NullPointer)
    ensures id.Some? && ValidateName(name).Success? && ValidateAddress(address).Success? && ein.None? ==>
      o == Fail(NullPointer)
    ensures o.Fail? ==> !o.error.Arithmetic?
  {
    if id.None? then Fail(NullPointer)
    else if ValidateName(name).Failure? then Fail(ValidateName(name).error)
    else if ValidateAddress(address).Failure? then Fail(ValidateAddress(address).error)
    else if ein.None? || createdAt.None? || updatedAt.None? then Fail(NullPointer)
    else Pass
  }

  class Organization {
    const id: Uuid
    var name: string
    var address: string
    const ein: EIN
    const createdAt: DateTime
    var updatedAt: DateTime

    ghost predicate Valid()
      reads this
    {
      IsValidName(name) && IsValidAddress(address)
    }

    /** Assigns already validated fields. */
    constructor (id: Uuid, name: string, address: string, ein: EIN,
                 createdAt: DateTime, updatedAt: DateTime)
      requires IsValidName(name) && IsValidAddress(address)
      ensures Valid()
      ensures this.id == id && this.name == name && this.address == address && this.ein == ein
      ensures this.createdAt == createdAt && this.updatedAt == updatedAt
    {
      this.id := id;
      this.name := name;
      this.address := address;
      this.ein := ein;
      this.createdAt := createdAt;
      this.updatedAt := updatedAt;
    }

    /** The six-argument constructor: a new organization exactly when every check passes,
        holding the arguments unchanged; otherwise the exception of the first failing check. */
    static method New(id: Option<Uuid>, name: Option<string>, address: Option<string>,
                      ein: Option<EIN>, createdAt: Option<DateTime>, updatedAt: Option<DateTime>)
      returns (r: Result<Organization>)
      ensures var o := ConstructionOutcome(id, name, address, ein, createdAt, updatedAt);
        (r.Success? <==> o.Pass?) && (r.Failure? ==> r.error == o.error)
      ensures r.Success? ==> fresh(r.value) && r.value.Valid()
      ensures r.Success? ==>
        && r.value.id == id.value && r.value.name == name.value
        && r.value.address == address.value && r.value.ein == ein.value
        && r.value.createdAt == createdAt.value && r.value.updatedAt == updatedAt.value
    {
      var o := ConstructionOutcome(id, name, address, ein, createdAt, updatedAt);
      if o.Fail? {
        return Failure(o.error);
      }
      var org := new Organization(id.value, name.value, address.value, ein.value,
                                  createdAt.value, updatedAt.value);
      return Success(org);
    }

    /** The three-argument constructor: a null name, address or EIN is a null pointer before
        any validation; then a fresh id and the current time as creation and update time. */
    static method Create(name: Option<string>, address: Option<string>, ein: Option<EIN>,
                         freshId: Uuid, now: DateTime)
      returns (r: Result<Organization>)
      ensures name.None? || address.None? || ein.None? ==> r == Failure(NullPointer)
      ensures r.Success? <==>
        ein.Some? && ValidateName(name).Success? && ValidateAddress(address).Success?
      ensures r.Failure? && name.Some? && address.Some? && ein.Some? ==> r.error.IllegalArgument?
      ensures r.Success? ==> fresh(r.value) && r.value.Valid()
      ensures r.Success? ==>
        && r.value.id == freshId && r.value.name == name.value
        && r.value.address == address.value && r.value.ein == ein.value
        && r.value.createdAt == now && r.value.updatedAt == now
    {
      if name.None? || address.None? || ein.None? {
        return Failure(NullPointer);
      }
      r := New(Some(freshId), name, address, ein, Some(now), Some(now));
    }

    /** `updateTimestamp`: only `updatedAt` changes. */
    method UpdateTimestamp(now: DateTime)
      modifies this`updatedAt
      ensures updatedAt == now
    {
      updatedAt := now;
    }

    /** `setName`: on success only `name` and `updatedAt` change; on failure nothing does. */
    method SetName(name: Option<string>, now: DateTime) returns (r: Outcome)
      requires Valid()
      modifies this`name, this`updatedAt
      ensures Valid()
      ensures r.Pass? <==> ValidateName(name).Success?
      ensures r.Pass? ==> this.name == name.value && updatedAt == now
      ensures r.Fail? ==> r.error == ValidateName(name).error && unchanged(this)
    {
      var v := ValidateName(name);
      if v.Failure? {
        return Fail(v.error);
      }
      this.name := v.value;
      updatedAt := now;
      return Pass;
    }

    /** `setAddress`: on success only `address` and `updatedAt` change; on failure nothing does. */
    method SetAddress(address: Option<string>, now: DateTime) returns (r: Outcome)
      requires Valid()
      modifies this`address, this`updatedAt
      ensures Valid()
      ensures r.Pass? <==> ValidateAddress(address).Success?
      ensures r.Pass? ==> this.address == address.value && updatedAt == now
      ensures r.Fail? ==> r.error == ValidateAddress(address).error && unchanged(this)
    {
      var v := ValidateAddress(address);
      if v.Failure? {
        return Fail(v.error);
      }
      this.address := v.value;
      updatedAt := now;
      return Pass;
    }

    /** `equals`: the identity shortcut agrees with comparing id and EIN. */
    function Equals(other: Organization?): (r: bool)
      ensures r <==> other != null && id == other.id && Eins.Equals(ein, other.ein)
    {
      if this == other then true
      else if other == null then false
      else id == other.id && Eins.Equals(ein, other.ein)
    }
  }
}
