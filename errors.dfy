/** Failure-compatible result types and the single error kind of the domain layer.
    A Java `null` argument is `None`; a thrown exception is a `Failure`/`Fail` value. */
module Errors {

  /** The validation rule whose violation a domain constructor or setter reports. */
  datatype Rule =
    // SSN
    | SsnLength | SsnNotDigits | SsnAreaInvalid | SsnAreaReserved
    | SsnGroupZero | SsnSerialZero | SsnDenylisted
    // EIN
    | EinLength | EinFormat | EinPrefixZero | EinPrefixDoubleZero | EinDenylisted
    // HistoryRecord
    | ActionBlank | ActionTooLong | DetailsTooLong
    // Patient, Customer, Organization
    | NameBlank | NameTooLong | DateOfBirthMissing | DateOfBirthInFuture
    | GenderBlank | GenderInvalid | AddressBlank | AddressTooLong
    | ContactBlank | ContactFormat | EmailBlank | EmailFormat | EmailTooLong
    // Charge
    | AmountNotPositive | CurrencyInvalid | PaymentMethodBlank | PaymentMethodTooLong
    // MedicalRecord
    | DiagnosisBlank | DiagnosisTooLong

  /** NullPointerException, IllegalArgumentException(rule) and ArithmeticException. */
  datatype Error = NullPointer | IllegalArgument(rule: Rule) | Arithmetic

  datatype Option<+T> = None | Some(value: T)

  datatype Result<+T> = Success(value: T) | Failure(error: Error) {
    predicate IsFailure() { Failure? }
    function PropagateFailure<U>(): Result<U>
      requires Failure?
    {
      Failure(error)
    }
    function Extract(): T
      requires Success?
    {
      value
    }
  }

  /** The outcome of a `void` Java method that may throw. */
  datatype Outcome = Pass | Fail(error: Error)

  /** `Objects.requireNonNull(x)`. */
  function NonNull<T>(x: Option<T>): (r: Result<T>)
    ensures r.Success? <==> x.Some?
    ensures r.Success? ==> r.value == x.value
    ensures r.Failure? ==> r.error == NullPointer
  {
    match x
    case None => Failure(NullPointer)
    case Some(v) => Success(v)
  }
}
