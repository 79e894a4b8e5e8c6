/** The charge entity (entities/Charge.java): an amount held at two decimal places, a
    currency, a payment method and an optional description, all fixed at construction,
    and a status that the two `markAs...` methods overwrite. */
module Charges {
  import opened Errors
  import opened Text
  import opened Primitives
  import opened Validation
  import Customers

  /** `java.math.BigDecimal`: the number `unscaled * 10^-scale`; a scale may be negative. */
  datatype Decimal = Decimal(unscaled: int, scale: int)

  /** `ChargeStatus`, with the three values the charge uses. */
  datatype ChargeStatus = Pending | Succeeded | Failed

  const MaxPaymentMethodLength: nat := 50
  const CurrencyLength: nat := 3

  function Pow10(n: nat): (r: nat)
    ensures r >= 1
  {
    if n == 0 then 1 else 10 * Pow10(n - 1)
  }

  /** Numeric equality, as `compareTo(...) == 0`: both brought to the larger scale. */
  predicate SameValue(a: Decimal, b: Decimal) {
    var m := if a.scale >= b.scale then a.scale else b.scale;
    a.unscaled * Pow10(m - a.scale) == b.unscaled * Pow10(m - b.scale)
  }

  /** `compareTo(BigDecimal.ZERO) > 0`: `10^-scale` is positive, so the sign is that of
      the unscaled value. */
  predicate IsPositive(d: Decimal) { d.unscaled > 0 }

  /** The number is a whole number of hundredths. */
  ghost predicate IsWholeCents(d: Decimal) {
    exists cents :: SameValue(d, Decimal(cents, 2))
  }

  /** A nonzero multiple of a positive `p` is at least `p` away from zero. */
  lemma MultipleAwayFromZero(k: int, p: int)
    requires p >= 1
    ensures k >= 1 ==> k * p >= p
    ensures k <= -1 ==> k * p <= -p
  {
    if k >= 1 {
      assert k * p == p + (k - 1) * p;
      assert (k - 1) * p >= 0;
    } else if k <= -1 {
      assert k * p == -p + (k + 1) * p;
      assert (k + 1) * p <= 0;
    }
  }

  lemma DivisibleByFactor(c: int, p: nat)
    requires p >= 1
    ensures (c * p) % p == 0 && (c * p) / p == c
  {
    var q := (c * p) / p;
    var r := (c * p) % p;
    assert c * p == q * p + r && 0 <= r < p;
    var k := c - q;
    assert k * p == r by { assert k * p == c * p - q * p; }
    MultipleAwayFromZero(k, p);
  }

  /** `setScale(2)` with no rounding mode: the same number at scale 2, or
      ArithmeticException when that would drop a nonzero digit. */
  function SetScale2(d: Decimal): (r: Result<Decimal>)
    ensures r.Success? ==> r.value.scale == 2 && SameValue(r.value, d)
    ensures r.Failure? ==> r.error == Arithmetic
  {
    if d.scale <= 2 then
      Success(Decimal(d.unscaled * Pow10(2 - d.scale), 2))
    else
      var p := Pow10(d.scale - 2);
      if d.unscaled % p == 0 then
        assert d.unscaled == (d.unscaled / p) * p;
        Success(Decimal(d.unscaled / p, 2))
      else
        Failure(Arithmetic)
  }

  /** Rescaling succeeds exactly on the whole numbers of hundredths. */
  lemma SetScaleExactIffWholeCents(d: Decimal)
    ensures SetScale2(d).Success? <==> IsWholeCents(d)
  {
    if SetScale2(d).Success? {
      var r := SetScale2(d).value;
      assert SameValue(d, Decimal(r.unscaled, 2));
    }
    if IsWholeCents(d) && d.scale > 2 {
      var cents :| SameValue(d, Decimal(cents, 2));
      assert d.unscaled == cents * Pow10(d.scale - 2);
      DivisibleByFactor(cents, Pow10(d.scale - 2));
    }
  }

  /** `validateAmount`: a null or non-positive amount is refused, a positive one is
      rescaled to two places, which preserves its value or throws. */
  function ValidateAmount(amount: Option<Decimal>): (r: Result<Decimal>)
    ensures r.Success? <==> amount.Some? && IsPositive(amount.value) && IsWholeCents(amount.value)
    ensures r.Success? ==>
      r.value.scale == 2 && SameValue(r.value, amount.value) && IsPositive(r.value)
    ensures amount.None? || !IsPositive(amount.value) ==> r == Failure(IllegalArgument(AmountNotPositive))
    ensures amount.Some? && IsPositive(amount.value) && r.Failure? ==> r.error == Arithmetic
  {
    if amount.None? || !IsPositive(amount.value) then Failure(IllegalArgument(AmountNotPositive))
    else
      SetScaleExactIffWholeCents(amount.value);
      var scaled := SetScale2(amount.value);
      if scaled.Success? then
        PositiveKeepsSign(amount.value, scaled.value);
        scaled
      else
        scaled
  }

  /** Two decimals of the same value have the same sign. */
  lemma PositiveKeepsSign(a: Decimal, b: Decimal)
    ensures SameValue(a, b) && IsPositive(a) ==> IsPositive(b)
  {
    if SameValue(a, b) && IsPositive(a) {
      var m := if a.scale >= b.scale then a.scale else b.scale;
      var pa := Pow10(m - a.scale);
      var pb := Pow10(m - b.scale);
      assert a.unscaled * pa > 0;
    }
  }

  /** `[A-Z]{3}`, after the explicit length test. */
  predicate IsValidCurrency(s: string) {
    |s| == CurrencyLength && forall i :: 0 <= i < |s| ==> IsUpper(s[i])
  }

  predicate IsValidPaymentMethod(s: string) { IsRequiredText(s, MaxPaymentMethodLength) }

  /** `validateCurrency`: exactly three upper-case letters `A` to `Z`, kept as given. */
  function ValidateCurrency(currency: Option<string>): (r: Result<string>)
    ensures r.Success? <==> currency.Some? && IsValidCurrency(currency.value)
    ensures r.Success? ==> r.value == currency.value
    ensures r.Failure? ==> r.error == IllegalArgument(CurrencyInvalid)
  {
    if currency.None? || !IsValidCurrency(currency.value) then Failure(IllegalArgument(CurrencyInvalid))
    else Success(currency.value)
  }

  /** `validatePaymentMethod`: kept as given when present, not blank and at most 50 characters. */
  function ValidatePaymentMethod(paymentMethod: Option<string>): (r: Result<string>)
    ensures r.Success? <==> paymentMethod.Some? && IsValidPaymentMethod(paymentMethod.value)
    ensures r.Success? ==> r.value == paymentMethod.value
    ensures r.Failure? ==> r.error.IllegalArgument?
  {
    RequiredText(paymentMethod, MaxPaymentMethodLength, PaymentMethodBlank, PaymentMethodTooLong)
  }

  /** The checks of the full constructor, in its order; the description is not checked. */
  function ConstructionOutcome(id: Option<Uuid>, amount: Option<Decimal>, currency: Option<string>,
                               customer: Customers.Customer?, paymentMethod: Option<string>,
                               status: Option<ChargeStatus>, createdAt: Option<DateTime>,
                               updatedAt: Option<DateTime>): (o: Outcome)
    ensures o.Pass? <==>
      && id.Some? && customer != null && status.Some? && createdAt.Some? && updatedAt.Some?
      && ValidateAmount(amount).Success? && ValidateCurrency(currency).Success?
      && ValidatePaymentMethod(paymentMethod).Success?
    ensures id.None? ==> o == Fail(NullPointer)
    ensures id.Some? ==>
      (o == Fail(Arithmetic) <==>
         (amount.Some? && IsPositive(amount.value) && !IsWholeCents(amount.value)))
  {
    if id.None? then Fail(NullPointer)
    else if ValidateAmount(amount).Failure? then Fail(ValidateAmount(amount).error)
    else if ValidateCurrency(currency).Failure? then Fail(ValidateCurrency(currency).error)
    else if customer == null then Fail(NullPointer)
    else if ValidatePaymentMethod(paymentMethod).Failure? then
      Fail(ValidatePaymentMethod(paymentMethod).error)
    else if status.None? || createdAt.None? || updatedAt.None? then Fail(NullPointer)
    else Pass
  }

  class Charge {
    const id: Uuid
    const amount: Decimal
    const currency: string
    const description: Option<string>
    const customer: Customers.Customer
    const paymentMethod: string
    var status: ChargeStatus
    const createdAt: DateTime
    var updatedAt: DateTime

    /** What the validators guarantee; every field it mentions is fixed. */
    ghost predicate Valid() {
      && amount.scale == 2 && IsPositive(amount)
      && IsValidCurrency(currency) && IsValidPaymentMethod(paymentMethod)
    }

    /** Assigns already validated fields. */
    constructor (id: Uuid, amount: Decimal, currency: string, description: Option<string>,
                 customer: Customers.Customer, paymentMethod: string, status: ChargeStatus,
                 createdAt: DateTime, updatedAt: DateTime)
      requires amount.scale == 2 && IsPositive(amount)
      requires IsValidCurrency(currency) && IsValidPaymentMethod(paymentMethod)
      ensures Valid()
      ensures this.id == id && this.amount == amount && this.currency == currency
      ensures this.description == description && this.customer == customer
      ensures this.paymentMethod == paymentMethod && this.status == status
      ensures this.createdAt == createdAt && this.updatedAt == updatedAt
    {
      this.id := id;
      this.amount := amount;
      this.currency := currency;
      this.description := description;
      this.customer := customer;
      this.paymentMethod := paymentMethod;
      this.status := status;
      this.createdAt := createdAt;
      this.updatedAt := updatedAt;
    }

    /** The full constructor: a new charge exactly when every check passes, holding the
        rescaled amount and the other arguments unchanged, whatever the status given;
        otherwise the exception of the first failing check. */
    static method New(id: Option<Uuid>, amount: Option<Decimal>, currency: Option<string>,
                      description: Option<string>, customer: Customers.Customer?,
                      paymentMethod: Option<string>, status: Option<ChargeStatus>,
                      createdAt: Option<DateTime>, updatedAt: Option<DateTime>)
      returns (r: Result<Charge>)
      ensures var o := ConstructionOutcome(id, amount, currency, customer, paymentMethod, status,
                                           createdAt, updatedAt);
        (r.Success? <==> o.Pass?) && (r.Failure? ==> r.error == o.error)
      ensures r.Success? ==> fresh(r.value) && r.value.Valid()
      ensures r.Success? ==>
        && r.value.id == id.value && r.value.amount == ValidateAmount(amount).value
        && SameValue(r.value.amount, amount.value)
        && r.value.currency == currency.value && r.value.description == description
        && r.value.customer == customer && r.value.paymentMethod == paymentMethod.value
        && r.value.status == status.value
        && r.value.createdAt == createdAt.value && r.value.updatedAt == updatedAt.value
    {
      var o := ConstructionOutcome(id, amount, currency, customer, paymentMethod, status,
                                   createdAt, updatedAt);
      if o.Fail? {
        return Failure(o.error);
      }
      var c := new Charge(id.value, ValidateAmount(amount).value, currency.value, description,
                          customer, paymentMethod.value, status.value, createdAt.value,
                          updatedAt.value);
      return Success(c);
    }

    /** `Charge.create`: the `Optional` description is unwrapped first (a null `Optional` is a
        null pointer), then a fresh id, status `Pending` and the current time as creation
        and update time. */
    static method Create(amount: Option<Decimal>, currency: Option<string>,
                         description: Option<Option<string>>, customer: Customers.Customer?,
                         paymentMethod: Option<string>, freshId: Uuid, now: DateTime)
      returns (r: Result<Charge>)
      ensures description.None? ==> r == Failure(NullPointer)
      ensures description.Some? ==>
        (r.Success? <==> ConstructionOutcome(Some(freshId), amount, currency, customer, paymentMethod,
                                             Some(Pending), Some(now), Some(now)).Pass?)
      ensures description.Some? && r.Failure? ==>
        r.error == ConstructionOutcome(Some(freshId), amount, currency, customer, paymentMethod,
                                       Some(Pending), Some(now), Some(now)).error
      ensures r.Success? ==> fresh(r.value) && r.value.Valid()
      ensures r.Success? ==>
        && r.value.id == freshId && r.value.status == Pending
        && r.value.amount == ValidateAmount(amount).value && SameValue(r.value.amount, amount.value)
        && r.value.currency == currency.value && r.value.customer == customer
        && r.value.paymentMethod == paymentMethod.value
        && r.value.description == description.value
        && r.value.createdAt == now && r.value.updatedAt == now
    {
      if description.None? {
        return Failure(NullPointer);
      }
      r := New(Some(freshId), amount, currency, description.value, customer, paymentMethod,
               Some(Pending), Some(now), Some(now));
    }

    /** `markAsSucceeded`: from any status; only `status` and `updatedAt` change. */
    method MarkAsSucceeded(now: DateTime)
      modifies this`status, this`updatedAt
      ensures status == Succeeded && updatedAt == now
    {
      status := Succeeded;
      updatedAt := now;
    }

    /** `markAsFailed`: from any status; only `status` and `updatedAt` change. */
    method MarkAsFailed(now: DateTime)
      modifies this`status, this`updatedAt
      ensures status == Failed && updatedAt == now
    {
      status := Failed;
      updatedAt := now;
    }

    /** `equals`: the identity shortcut agrees with comparing ids. */
    function Equals(other: Charge?): (r: bool)
      ensures r <==> other != null && id == other.id
    {
      if this == other then true
      else if other == null then false
      else id == other.id
    }
  }

  /** Neither terminal status is final: a succeeded charge can still be marked failed,
      and the amount, currency and customer stay as they were. */
  method SucceededThenFailed(c: Charge, t1: DateTime, t2: DateTime)
    modifies c
    ensures c.status == Failed && c.updatedAt == t2
  {
    c.MarkAsSucceeded(t1);
    assert c.status == Succeeded;
    c.MarkAsFailed(t2);
  }

  /** Zero and a negative amount are refused as not positive. */
  lemma NonPositiveAmountsRefused()
    ensures ValidateAmount(Some(Decimal(0, 0))) == Failure(IllegalArgument(AmountNotPositive))
    ensures ValidateAmount(Some(Decimal(-100, 2))) == Failure(IllegalArgument(AmountNotPositive))
  {
  }

  /** `10` is stored as `10.00`, and `1E+1` (scale -1) as well. */
  lemma WholeAmountRescaled()
    ensures ValidateAmount(Some(Decimal(10, 0))) == Success(Decimal(1000, 2))
    ensures ValidateAmount(Some(Decimal(1, -1))) == Success(Decimal(1000, 2))
  {
    assert Pow10(2) == 100 && Pow10(3) == 1000;
    SetScaleExactIffWholeCents(Decimal(10, 0));
    SetScaleExactIffWholeCents(Decimal(1, -1));
  }

  /** `100.005` is not rounded: the rescaling throws. */
  lemma ThirdDecimalPlaceThrows()
    ensures ValidateAmount(Some(Decimal(100005, 3))) == Failure(Arithmetic)
  {
    assert Pow10(1) == 10;
  }
}
