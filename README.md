# Medical domain layer — a verified Dafny model

This project models the domain layer of a medical-practice back end written in Java
(`com.medicalapp.api.domain`). It has two parts.

- **Self-validating identifiers.** `SSN` and `EIN` strip separators from their input. They then
  require nine ASCII digits and apply segment, prefix and denylist rules. `formatted()` puts
  the hyphens back.
- **Entities that guard their own invariants.** Every field of `Patient`, `Customer`,
  `Organization`, `Charge` and `MedicalRecord` goes through a validator at construction.
  - Each mutator validates, then assigns, then stamps `updatedAt`. When validation throws,
    nothing changes.
  - `HistoryRecord` is an immutable audit entry. It trims its fields and renders two summaries
    in which `details` is cut to 50 characters.
  - `MedicalRecord` owns an append-only list of history records. It copies the list on the
    way in and again on the way out.

Modelling conventions:

- A Java `null` argument is `None` of `Option<T>`. A nullable object reference is Dafny's
  nullable class type, for example `Customer?`.
- A thrown exception is a `Failure(e)` of `Result<T>`, or a `Fail(e)` of `Outcome` for `void`
  methods. `e` is `NullPointer`, `IllegalArgument(rule)` or `Arithmetic`, and `rule` names the
  check that refused the input.
- `SSN`, `EIN` and `HistoryRecord` are immutable Java values. They become subset types: every
  value that exists is well formed, because the Java type can only be built through its
  validating constructor.
- The entities become classes:
  - Java `final` fields are `const`, the other fields `var`.
  - Each setter names exactly the fields it may change (`modifies this`name, this`updatedAt`).
    It returns an `Outcome`, and on failure ensures `unchanged(this)`.
  - A Java constructor that may throw is a `static method New` returning a `Result`. It
    performs the checks in the source's order, then calls a Dafny constructor that only
    assigns already-validated values.
  - The `create` factories are `static method Create`.
- `LocalDateTime.now()`, `LocalDate.now()` and `UUID.randomUUID()` are inputs: `now`, `today`
  and `freshId`. `UUID` is `bv128`. A `LocalDateTime` or `LocalDate` is an `int` on a
  totally ordered time line, and `isAfter` is `>`.
- `BigDecimal` is `Decimal(unscaled, scale)`. It denotes `unscaled * 10^-scale`; the scale is an
  `int` because Java scales may be negative.
- `ArrayList<HistoryRecord>` is a small class `HistoryList` holding a `seq`. Because it is a
  class, the copies made on construction and on read show up as `fresh` objects.

Charge amounts are normalised with `setScale(2)`, without a rounding mode. That gives the same
number at scale 2, or throws `ArithmeticException` when a nonzero digit would be lost. It never
rounds.

- `Charges.SetScale2` models this call.
- `Charges.ThirdDecimalPlaceThrows` shows `100.005` throwing.
- `Charges.SetScaleExactIffWholeCents` shows which amounts `Charges.ValidateAmount` accepts:
  exactly those that are a whole number of hundredths.

Modules, in dependency order:

| file | module | contents |
|---|---|---|
| `errors.dfy` | `Errors` | rules, errors, `Option`, `Result`, `Outcome`, `NonNull` |
| `text.dfy` | `Text` | character classes, `isBlank`, `trim`, `toUpperCase` |
| `primitives.dfy` | `Primitives` | `Uuid`, `DateTime`, `Date` |
| `validation.dfy` | `Validation` | the required-text check shared by the entities |
| `ssn.dfy` | `Ssns` | `SSN` |
| `ein.dfy` | `Eins` | `EIN` |
| `history.dfy` | `History` | `HistoryRecord` |
| `patients.dfy` | `Patients` | `Patient` |
| `customers.dfy` | `Customers` | `Customer` |
| `organizations.dfy` | `Organizations` | `Organization` |
| `charges.dfy` | `Charges` | `Charge`, `Decimal`, `ChargeStatus` |
| `medical_records.dfy` | `MedicalRecords` | `MedicalRecord`, `HistoryList` |

## Model

| member | source | states |
|---|---|---|
| Errors.NonNull | src/main/java/com/medicalapp/api/domain/entities/HistoryRecord.java:25-26 | `Objects.requireNonNull`: succeeds with the value exactly when it is present, otherwise NullPointerException |
| Text.TrimStart | src/main/java/com/medicalapp/api/domain/entities/HistoryRecord.java:51 | the result is a suffix of the input, the dropped prefix is blank, and the result does not start with whitespace |
| Text.TrimEnd | src/main/java/com/medicalapp/api/domain/entities/HistoryRecord.java:51 | the result is a prefix of the input, the dropped suffix is blank, and the result does not end with whitespace |
| Text.Trim | src/main/java/com/medicalapp/api/domain/entities/HistoryRecord.java:51 | `String.trim`: never longer than the input, and neither end of the result is whitespace |
| Text.TrimIsInnerSlice | src/main/java/com/medicalapp/api/domain/entities/HistoryRecord.java:51 | `trim` keeps the slice of the input between a blank prefix and a blank suffix |
| Text.TrimEmptyIffBlank | src/main/java/com/medicalapp/api/domain/entities/HistoryRecord.java:43-51 | trimming leaves nothing exactly when the string is blank |
| Text.TrimFixedIffTrimmed | src/main/java/com/medicalapp/api/domain/entities/HistoryRecord.java:51 | `trim` leaves a string unchanged exactly when neither end is whitespace |
| Text.TrimIdempotent | src/main/java/com/medicalapp/api/domain/entities/HistoryRecord.java:51 | trimming twice is trimming once |
| Text.TrimKeepsNonBlank | src/main/java/com/medicalapp/api/domain/entities/HistoryRecord.java:43-51 | a non-blank action stays non-blank after trimming |
| Text.ToUpper | src/main/java/com/medicalapp/api/domain/entities/Patient.java:81 | `toUpperCase`: same length, each character upper-cased |
| Text.ToUpperIdempotent | src/main/java/com/medicalapp/api/domain/entities/Patient.java:81 | upper-casing is idempotent and keeps a string blank or non-blank |
| Validation.RequiredText | src/main/java/com/medicalapp/api/domain/entities/Patient.java:57-65 | accepted exactly when present, not blank and within the bound; stored unchanged; a null or blank input and a too-long input report their own rule |
| Ssns.CleanInput | src/main/java/com/medicalapp/api/domain/valueobjects/SSN.java:41-43 | `replaceAll("[\\s-]", "")`: the result is no longer than the input and holds no whitespace or hyphen |
| Ssns.CleanInputConcat | src/main/java/com/medicalapp/api/domain/valueobjects/SSN.java:41-43 | cleaning distributes over concatenation |
| Ssns.CleanInputFixed | src/main/java/com/medicalapp/api/domain/valueobjects/SSN.java:41-43 | a string without separators is left as it is |
| Ssns.CleanHyphenated | src/main/java/com/medicalapp/api/domain/valueobjects/SSN.java:41-43 | cleaning `a-b-c` removes exactly the two hyphens |
| Ssns.CompareTo | src/main/java/com/medicalapp/api/domain/valueobjects/SSN.java:64 | `String.compareTo` is zero exactly on equal strings |
| Ssns.AreaTests | src/main/java/com/medicalapp/api/domain/valueobjects/SSN.java:60-68 | on three digits, `"000"`, `"666"` and `compareTo("900") >= 0` are the numeric tests `= 0`, `= 666` and `>= 900` |
| Ssns.ValidateAreaNumber | src/main/java/com/medicalapp/api/domain/valueobjects/SSN.java:60-69 | a three-digit area passes exactly when its number is 1 to 899 and not 666 |
| Ssns.ValidateGroupNumber | src/main/java/com/medicalapp/api/domain/valueobjects/SSN.java:71-75 | a two-digit group passes exactly when it is not 00 |
| Ssns.ValidateSerialNumber | src/main/java/com/medicalapp/api/domain/valueobjects/SSN.java:77-81 | a four-digit serial passes exactly when it is not 0000 |
| Ssns.CheckForInvalidSequences | src/main/java/com/medicalapp/api/domain/valueobjects/SSN.java:83-89 | passes exactly when the value equals no entry of the five-entry denylist |
| Ssns.Validate | src/main/java/com/medicalapp/api/domain/valueobjects/SSN.java:45-58 | passes exactly on the well-formed values: nine digits, area 1-899 except 666, group not 00, serial not 0000, and not 111111111, 123456789 or 123123123, the only denylist entries the area rule lets through |
| Ssns.Of | src/main/java/com/medicalapp/api/domain/valueobjects/SSN.java:15-24 | null is a NullPointerException; otherwise the SSN exists exactly when the cleaned input is well formed, and it stores the cleaned input |
| Ssns.Formatted | src/main/java/com/medicalapp/api/domain/valueobjects/SSN.java:26-30 | eleven characters with `-` at indices 3 and 6; removing them gives the value |
| Ssns.IsValid | src/main/java/com/medicalapp/api/domain/valueobjects/SSN.java:32-39 | for a present input, true exactly when the cleaned input is well formed; a null input still throws NullPointerException |
| Ssns.OfFormatted | src/main/java/com/medicalapp/api/domain/valueobjects/SSN.java:15-30 | round trip: constructing from `formatted()` gives the same SSN |
| Ssns.ParseFormatParse | src/main/java/com/medicalapp/api/domain/valueobjects/SSN.java:15-30 | parsing, formatting and parsing again gives the first parse |
| Ssns.SequentialExampleRejected | src/main/java/com/medicalapp/api/domain/valueobjects/SSN.java:11-13 | `123-45-6789` is refused by the denylist |
| Ssns.ValidExampleAccepted | src/main/java/com/medicalapp/api/domain/valueobjects/SSN.java:45-58 | `078-05-1120` is accepted and stored as `078051120` |
| Eins.SampleValue | src/main/java/com/medicalapp/api/domain/valueobjects/EIN.java:37-48 | `100000000` is a well-formed EIN value |
| Eins.CleanInput | src/main/java/com/medicalapp/api/domain/valueobjects/EIN.java:68-70 | `replace("-", "")`: the result is no longer than the input and holds no hyphen; whitespace is kept |
| Eins.CleanInputConcat | src/main/java/com/medicalapp/api/domain/valueobjects/EIN.java:68-70 | cleaning distributes over concatenation |
| Eins.CleanInputFixed | src/main/java/com/medicalapp/api/domain/valueobjects/EIN.java:68-70 | a string without hyphens is left as it is |
| Eins.CleanHyphenated | src/main/java/com/medicalapp/api/domain/valueobjects/EIN.java:68-70 | cleaning `a-b` removes exactly the one hyphen |
| Eins.ValidatePrefix | src/main/java/com/medicalapp/api/domain/valueobjects/EIN.java:50-58 | passes exactly when the prefix does not start with `0`; every failure is the first rule, so the `00` test can never fire |
| Eins.EntryShapes | src/main/java/com/medicalapp/api/domain/valueobjects/EIN.java:8-15 | the denylist has eleven entries, each of the form `ab-bbbbbbb` |
| Eins.EntryStripped | src/main/java/com/medicalapp/api/domain/valueobjects/EIN.java:62 | removing the hyphen of `ab-bbbbbbb` gives `abbbbbbbb` |
| Eins.DenylistStripped | src/main/java/com/medicalapp/api/domain/valueobjects/EIN.java:8-15 | with hyphens removed, the denylist is `000000000`, `077777777` and `111111111` to `999999999` |
| Eins.DenylistedIffRepeated | src/main/java/com/medicalapp/api/domain/valueobjects/EIN.java:60-66 | on nine digits not starting with `0`, matching a stripped entry is being one digit repeated nine times |
| Eins.CheckForInvalidSequences | src/main/java/com/medicalapp/api/domain/valueobjects/EIN.java:60-66 | on nine digits not starting with `0`, passes exactly when the value is not one digit repeated |
| Eins.Validate | src/main/java/com/medicalapp/api/domain/valueobjects/EIN.java:37-48 | passes exactly on the well-formed values: nine digits, not starting with `0`, not one digit repeated; the pattern `^\d{2}-?\d{7}$` adds nothing once the length is nine |
| Eins.Of | src/main/java/com/medicalapp/api/domain/valueobjects/EIN.java:19-27 | null is a NullPointerException; otherwise the EIN exists exactly when the input without hyphens is well formed, and it stores that value |
| Eins.Formatted | src/main/java/com/medicalapp/api/domain/valueobjects/EIN.java:29-31 | ten characters with `-` at index 2; removing it gives the value |
| Eins.Raw | src/main/java/com/medicalapp/api/domain/valueobjects/EIN.java:33-35 | the stored value: nine digits |
| Eins.Equals | src/main/java/com/medicalapp/api/domain/valueobjects/EIN.java:72-78 | equal values exactly when the EINs are the same and exactly when they format alike |
| Eins.OfFormatted | src/main/java/com/medicalapp/api/domain/valueobjects/EIN.java:19-35 | round trip: `new EIN(e.formatted())` is `e`, so its `raw()` is `e.raw()` |
| Eins.SpellingsAreEqual | src/main/java/com/medicalapp/api/domain/valueobjects/EIN.java:72-78 | `12-3456789` and `123456789` give equal EINs |
| History.ValidateAction | src/main/java/com/medicalapp/api/domain/entities/HistoryRecord.java:42-52 | accepted exactly when present, not blank and at most 255 characters before trimming; the trimmed action is stored, and it is non-blank and trimmed |
| History.ValidateDetails | src/main/java/com/medicalapp/api/domain/entities/HistoryRecord.java:54-64 | null becomes `""`; refused exactly when longer than 10000 before trimming; otherwise stored trimmed, blank allowed |
| History.New | src/main/java/com/medicalapp/api/domain/entities/HistoryRecord.java:24-30 | a record exactly when id, medical-record id and timestamp are present and both text validators pass, holding the normalised fields; a missing id is reported before anything else |
| History.Create | src/main/java/com/medicalapp/api/domain/entities/HistoryRecord.java:32-40 | the same acceptance with a fresh id and the current time |
| History.TruncatedDetails | src/main/java/com/medicalapp/api/domain/entities/HistoryRecord.java:67-69 | at most 50 characters are kept verbatim; longer details keep their first 50 and gain `...`, so at most 53 characters |
| History.ToAuditString | src/main/java/com/medicalapp/api/domain/entities/HistoryRecord.java:66-72 | `[<timestamp>]` followed by ` <action> - <truncated details>`, with the length this implies |
| History.GetSummary | src/main/java/com/medicalapp/api/domain/entities/HistoryRecord.java:75-80 | `<action>: ` followed by `No details` for empty details, otherwise by the truncated details |
| History.ValidateActionFixed | src/main/java/com/medicalapp/api/domain/entities/HistoryRecord.java:42-52 | an already stored action passes validation unchanged |
| History.ValidateDetailsFixed | src/main/java/com/medicalapp/api/domain/entities/HistoryRecord.java:54-64 | already stored details pass validation unchanged |
| History.NewIsIdempotent | src/main/java/com/medicalapp/api/domain/entities/HistoryRecord.java:24-30 | rebuilding a record from its own fields gives the same record |
| Patients.ValidateName | src/main/java/com/medicalapp/api/domain/entities/Patient.java:57-65 | accepted exactly when present, not blank and at most 100 characters; stored untrimmed |
| Patients.ValidateDateOfBirth | src/main/java/com/medicalapp/api/domain/entities/Patient.java:67-75 | accepted exactly when present and not after today; a missing date is an IllegalArgumentException |
| Patients.ValidateGender | src/main/java/com/medicalapp/api/domain/entities/Patient.java:77-85 | accepted exactly when not blank and its upper-cased form is M, F, NB or OTHER; the caller's spelling is stored |
| Patients.ValidateAddress | src/main/java/com/medicalapp/api/domain/entities/Patient.java:87-95 | accepted exactly when present, not blank and at most 200 characters; stored untrimmed |
| Patients.ValidateContact | src/main/java/com/medicalapp/api/domain/entities/Patient.java:97-105 | accepted exactly when not blank and an optional `+` precedes 10 to 15 digits, whitespace or hyphens; so 10 to 16 characters |
| Patients.ConstructionOutcome | src/main/java/com/medicalapp/api/domain/entities/Patient.java:41-54 | passes exactly when the five ids and timestamps are present and the five validators pass; a missing id or organization id is a NullPointerException |
| Patients.Patient.constructor | src/main/java/com/medicalapp/api/domain/entities/Patient.java:41-54 | stores the validated fields and establishes the invariant |
| Patients.Patient.New | src/main/java/com/medicalapp/api/domain/entities/Patient.java:41-54 | a fresh valid patient holding the arguments exactly when every check passes; otherwise the first failing check's exception |
| Patients.Patient.Create | src/main/java/com/medicalapp/api/domain/entities/Patient.java:23-38 | accepted exactly when the constructor's checks pass on a fresh id and `createdAt = updatedAt = now`; a failure is the exception of the first failing check; the new patient holds the organization id, name, SSN, date of birth, gender, address and contact as given |
| Patients.Patient.UpdateTimestamp | src/main/java/com/medicalapp/api/domain/entities/Patient.java:145-147 | only `updatedAt` changes, to `now` |
| Patients.Patient.SetName | src/main/java/com/medicalapp/api/domain/entities/Patient.java:120-123 | on success only `name` and `updatedAt` change; on failure nothing changes; the invariant is kept |
| Patients.Patient.SetDateOfBirth | src/main/java/com/medicalapp/api/domain/entities/Patient.java:125-128 | on success only `dateOfBirth` and `updatedAt` change; on failure nothing changes |
| Patients.Patient.SetGender | src/main/java/com/medicalapp/api/domain/entities/Patient.java:130-133 | on success only `gender` and `updatedAt` change; on failure nothing changes; the invariant is kept |
| Patients.Patient.SetAddress | src/main/java/com/medicalapp/api/domain/entities/Patient.java:135-138 | on success only `address` and `updatedAt` change; on failure nothing changes; the invariant is kept |
| Patients.Patient.SetContact | src/main/java/com/medicalapp/api/domain/entities/Patient.java:140-143 | on success only `contact` and `updatedAt` change; on failure nothing changes; the invariant is kept |
| Patients.Patient.Equals | src/main/java/com/medicalapp/api/domain/entities/Patient.java:150-156 | true exactly when the other patient is non-null with the same id and SSN; the identity shortcut agrees |
| Patients.GenderIsCaseInsensitive | src/main/java/com/medicalapp/api/domain/entities/Patient.java:77-85 | a spelling is accepted exactly when its upper-cased form is |
| Patients.LowerCaseGenderKept | src/main/java/com/medicalapp/api/domain/entities/Patient.java:81-84 | `nb` is accepted and stored as `nb` |
| Patients.UnknownGenderRefused | src/main/java/com/medicalapp/api/domain/entities/Patient.java:81-82 | `X` is refused as an invalid gender |
| Patients.ContactNeedsNoDigit | src/main/java/com/medicalapp/api/domain/entities/Patient.java:101 | ten hyphens, which contain no digit, are an accepted contact |
| Patients.BlankContactRefused | src/main/java/com/medicalapp/api/domain/entities/Patient.java:98-102 | ten spaces match the pattern but are refused first, as blank |
| Customers.ValidateName | src/main/java/com/medicalapp/api/domain/entities/Customer.java:31-39 | accepted exactly when present, not blank and at most 100 characters |
| Customers.ValidateEmail | src/main/java/com/medicalapp/api/domain/entities/Customer.java:41-52 | accepted exactly when not blank, matching `^[\w.-]+@[\w.-]+\.[a-zA-Z]{2,}$` and at most 100 characters; a bad format is reported before a bad length |
| Customers.ConstructionOutcome | src/main/java/com/medicalapp/api/domain/entities/Customer.java:22-29 | passes exactly when id and timestamps are present and both validators pass; the id is checked first, then the name |
| Customers.Customer.constructor | src/main/java/com/medicalapp/api/domain/entities/Customer.java:22-29 | stores the validated fields and establishes the invariant |
| Customers.Customer.New | src/main/java/com/medicalapp/api/domain/entities/Customer.java:22-29 | a fresh valid customer holding the arguments exactly when every check passes; otherwise the first failing check's exception |
| Customers.Customer.Create | src/main/java/com/medicalapp/api/domain/entities/Customer.java:14-20 | a null name or e-mail is a NullPointerException; otherwise accepted exactly when both validate, with a fresh id and `createdAt = updatedAt = now` |
| Customers.Customer.UpdateTimestamp | src/main/java/com/medicalapp/api/domain/entities/Customer.java:70-72 | only `updatedAt` changes, to `now` |
| Customers.Customer.SetName | src/main/java/com/medicalapp/api/domain/entities/Customer.java:60-63 | on success only `name` and `updatedAt` change; on failure nothing changes; the invariant is kept |
| Customers.Customer.SetEmail | src/main/java/com/medicalapp/api/domain/entities/Customer.java:65-68 | on success only `email` and `updatedAt` change; on failure nothing changes; the invariant is kept |
| Customers.Customer.Equals | src/main/java/com/medicalapp/api/domain/entities/Customer.java:74-80 | true exactly when the other customer is non-null with the same id |
| Customers.EmailCharsHaveNoAt | src/main/java/com/medicalapp/api/domain/entities/Customer.java:45 | a run of `[\w.-]` holds no `@` |
| Customers.LettersHaveNoAt | src/main/java/com/medicalapp/api/domain/entities/Customer.java:45 | a run of letters holds no `@` |
| Customers.AcceptedEmailHasOneAt | src/main/java/com/medicalapp/api/domain/entities/Customer.java:45 | an accepted address contains exactly one `@` |
| Customers.AcceptedEmailEndsInLetters | src/main/java/com/medicalapp/api/domain/entities/Customer.java:45 | an accepted address has at least five characters and ends in two letters |
| Customers.ShortTopLevelDomainRefused | src/main/java/com/medicalapp/api/domain/entities/Customer.java:45-47 | `a@b.c` is refused as a format error |
| Customers.OrdinaryEmailAccepted | src/main/java/com/medicalapp/api/domain/entities/Customer.java:41-52 | `john.doe@example.com` is accepted as given |
| Organizations.ValidateName | src/main/java/com/medicalapp/api/domain/entities/Organization.java:36-44 | accepted exactly when present, not blank and at most 100 characters |
| Organizations.ValidateAddress | src/main/java/com/medicalapp/api/domain/entities/Organization.java:46-54 | accepted exactly when present, not blank and at most 200 characters |
| Organizations.ConstructionOutcome | src/main/java/com/medicalapp/api/domain/entities/Organization.java:26-34 | passes exactly when id, EIN and timestamps are present and both validators pass; a missing EIN after valid text is a NullPointerException |
| Organizations.Organization.constructor | src/main/java/com/medicalapp/api/domain/entities/Organization.java:26-34 | stores the validated fields, the EIN in a `const`, and establishes the invariant |
| Organizations.Organization.New | src/main/java/com/medicalapp/api/domain/entities/Organization.java:26-34 | a fresh valid organization holding the arguments exactly when every check passes; otherwise the first failing check's exception |
| Organizations.Organization.Create | src/main/java/com/medicalapp/api/domain/entities/Organization.java:17-24 | a null name, address or EIN is a NullPointerException; otherwise accepted exactly when both texts validate, with a fresh id and `createdAt = updatedAt = now` |
| Organizations.Organization.UpdateTimestamp | src/main/java/com/medicalapp/api/domain/entities/Organization.java:73-75 | only `updatedAt` changes, to `now` |
| Organizations.Organization.SetName | src/main/java/com/medicalapp/api/domain/entities/Organization.java:63-66 | on success only `name` and `updatedAt` change; on failure nothing changes; the invariant is kept |
| Organizations.Organization.SetAddress | src/main/java/com/medicalapp/api/domain/entities/Organization.java:68-71 | on success only `address` and `updatedAt` change; on failure nothing changes; the invariant is kept |
| Organizations.Organization.Equals | src/main/java/com/medicalapp/api/domain/entities/Organization.java:77-83 | true exactly when the other organization is non-null with the same id and an equal EIN |
| Charges.Pow10 | src/main/java/com/medicalapp/api/domain/entities/Charge.java:58 | powers of ten are positive |
| Charges.MultipleAwayFromZero | src/main/java/com/medicalapp/api/domain/entities/Charge.java:58 | a nonzero multiple of a positive factor is at least that factor away from zero |
| Charges.DivisibleByFactor | src/main/java/com/medicalapp/api/domain/entities/Charge.java:58 | a multiple of `p` divides by `p` exactly |
| Charges.SetScale2 | src/main/java/com/medicalapp/api/domain/entities/Charge.java:58 | `setScale(2)` without rounding: a result at scale 2 with the same value, otherwise ArithmeticException |
| Charges.SetScaleExactIffWholeCents | src/main/java/com/medicalapp/api/domain/entities/Charge.java:58 | rescaling succeeds exactly when the amount is a whole number of hundredths |
| Charges.PositiveKeepsSign | src/main/java/com/medicalapp/api/domain/entities/Charge.java:55-58 | two decimals of equal value are both positive or neither is |
| Charges.ValidateAmount | src/main/java/com/medicalapp/api/domain/entities/Charge.java:54-59 | accepted exactly when present, positive and a whole number of hundredths; stored at scale 2 with the same value; null or non-positive is an IllegalArgumentException, lost digits an ArithmeticException |
| Charges.ValidateCurrency | src/main/java/com/medicalapp/api/domain/entities/Charge.java:61-66 | accepted exactly when three characters, each `A` to `Z` |
| Charges.ValidatePaymentMethod | src/main/java/com/medicalapp/api/domain/entities/Charge.java:68-76 | accepted exactly when present, not blank and at most 50 characters |
| Charges.ConstructionOutcome | src/main/java/com/medicalapp/api/domain/entities/Charge.java:39-52 | passes exactly when id, customer, status and timestamps are present and the three validators pass; after a present id, ArithmeticException exactly for a positive amount with digits beyond the hundredths |
| Charges.Charge.constructor | src/main/java/com/medicalapp/api/domain/entities/Charge.java:39-52 | stores the validated fields and establishes the invariant |
| Charges.Charge.New | src/main/java/com/medicalapp/api/domain/entities/Charge.java:39-52 | a fresh valid charge exactly when every check passes, with the rescaled amount of equal value and any given status; otherwise the first failing check's exception |
| Charges.Charge.Create | src/main/java/com/medicalapp/api/domain/entities/Charge.java:23-37 | a null `Optional` is a NullPointerException; otherwise accepted exactly when the constructor's checks pass with status `Pending`, a fresh id and `createdAt = updatedAt = now`, and a failure is that of the first failing check; the new charge holds the amount rescaled to scale 2 with the same value, and the currency, unwrapped description, customer and payment method as given |
| Charges.Charge.MarkAsSucceeded | src/main/java/com/medicalapp/api/domain/entities/Charge.java:78-81 | from any status, status becomes `Succeeded` and `updatedAt` becomes `now`; nothing else changes |
| Charges.Charge.MarkAsFailed | src/main/java/com/medicalapp/api/domain/entities/Charge.java:83-86 | from any status, status becomes `Failed` and `updatedAt` becomes `now`; nothing else changes |
| Charges.Charge.Equals | src/main/java/com/medicalapp/api/domain/entities/Charge.java:98-104 | true exactly when the other charge is non-null with the same id |
| Charges.SucceededThenFailed | src/main/java/com/medicalapp/api/domain/entities/Charge.java:78-86 | a succeeded charge can still be marked failed |
| Charges.NonPositiveAmountsRefused | src/main/java/com/medicalapp/api/domain/entities/Charge.java:55-57 | `0` and `-1.00` are refused as not positive |
| Charges.WholeAmountRescaled | src/main/java/com/medicalapp/api/domain/entities/Charge.java:58 | `10` and `1E+1` are both stored as `10.00` |
| Charges.ThirdDecimalPlaceThrows | src/main/java/com/medicalapp/api/domain/entities/Charge.java:58 | `100.005` is not rounded: ArithmeticException |
| MedicalRecords.HistoryList.Empty | src/main/java/com/medicalapp/api/domain/entities/MedicalRecord.java:35 | `new ArrayList<>()` is empty |
| MedicalRecords.HistoryList.CopyOf | src/main/java/com/medicalapp/api/domain/entities/MedicalRecord.java:53 | `new ArrayList<>(list)` has the same elements |
| MedicalRecords.HistoryList.Add | src/main/java/com/medicalapp/api/domain/entities/MedicalRecord.java:67 | `add` appends at the end |
| MedicalRecords.ValidateDiagnosis | src/main/java/com/medicalapp/api/domain/entities/MedicalRecord.java:56-64 | accepted exactly when present, not blank and at most 10000 characters |
| MedicalRecords.ConstructionOutcome | src/main/java/com/medicalapp/api/domain/entities/MedicalRecord.java:39-54 | passes exactly when the four ids, both timestamps and the list are present and the diagnosis validates; only the diagnosis raises IllegalArgumentException |
| MedicalRecords.MedicalRecord.constructor | src/main/java/com/medicalapp/api/domain/entities/MedicalRecord.java:39-54 | stores the fields and a fresh copy of the given list |
| MedicalRecords.MedicalRecord.New | src/main/java/com/medicalapp/api/domain/entities/MedicalRecord.java:39-54 | a fresh valid record owning a fresh list with the given history exactly when every check passes; otherwise the first failing check's exception |
| MedicalRecords.MedicalRecord.Create | src/main/java/com/medicalapp/api/domain/entities/MedicalRecord.java:22-37 | accepted exactly when the three ids are present and the diagnosis validates; a missing id is a NullPointerException, otherwise the diagnosis's exception; the new record holds the patient, organization and doctor ids and the diagnosis as given, an empty history, no patient name, treatment or notes, and `createdAt = updatedAt = now` |
| MedicalRecords.MedicalRecord.AddHistoryRecord | src/main/java/com/medicalapp/api/domain/entities/MedicalRecord.java:66-69 | a present record is appended and `updatedAt` stamped; null is a NullPointerException with nothing changed; the old history is always a prefix of the new |
| MedicalRecords.MedicalRecord.UpdateTreatment | src/main/java/com/medicalapp/api/domain/entities/MedicalRecord.java:71-74 | any value, null included; only `treatment` and `updatedAt` change |
| MedicalRecords.MedicalRecord.UpdateNotes | src/main/java/com/medicalapp/api/domain/entities/MedicalRecord.java:76-79 | any value, null included; only `notes` and `updatedAt` change |
| MedicalRecords.MedicalRecord.SetPatientName | src/main/java/com/medicalapp/api/domain/entities/MedicalRecord.java:81-83 | only `patientName` changes; `updatedAt` is not stamped |
| MedicalRecords.MedicalRecord.GetHistoryRecords | src/main/java/com/medicalapp/api/domain/entities/MedicalRecord.java:95 | a fresh list with the same elements as the history |
| MedicalRecords.MedicalRecord.Equals | src/main/java/com/medicalapp/api/domain/entities/MedicalRecord.java:97-103 | true exactly when the other record is non-null with the same id |
| MedicalRecords.AppendTwoInOrder | src/main/java/com/medicalapp/api/domain/entities/MedicalRecord.java:66-69 | two appended records are read back after the old history, in insertion order |
| MedicalRecords.CopyOnReadIsolates | src/main/java/com/medicalapp/api/domain/entities/MedicalRecord.java:95 | adding to the list a read returned leaves the record's history unchanged |
| MedicalRecords.ConstructionCopyIsolates | src/main/java/com/medicalapp/api/domain/entities/MedicalRecord.java:53 | adding to the caller's list after construction leaves the record's history unchanged |

No method writes the `const` fields: the ids, the SSN, the EIN, the charge's amount, currency,
description, customer and payment method, and every `createdAt`. So these never change after
construction. `MedicalRecord.diagnosis` is a `var`, as in the source, but it appears in no
method's `modifies` clause.

## Left out

- Unicode and locale. One whitespace class, the regex `\s` set of space, tab, line feed,
  vertical tab, form feed and carriage return, stands for all of these:
  - `Character.isWhitespace` in `isBlank`;
  - the "code point ≤ U+0020" rule of `trim`;
  - the regex class `\s`.

  The three differ on other characters: `"\u0000"`, for example, is not blank in Java but
  trims to `""`. `toUpperCase` is ASCII-only here, while Java's is locale-sensitive. `\d` and
  `\w` have their default ASCII meaning.
- String length. Java's `length()` and `substring` count UTF-16 code units, while `|s|` counts
  Unicode scalar values. So every length bound counts a character outside the Basic Multilingual
  Plane once, where Java counts it twice:
  - 100 for names and e-mail addresses;
  - 200 for addresses;
  - 50 for payment methods;
  - 255 and 10000 in `HistoryRecord`;
  - 10000 for a diagnosis;
  - 50 in `History.TruncatedDetails`.

  For example, 60 such characters are a 120-unit name in Java, which Java refuses and
  `Patients.ValidateName` accepts. Java's `substring(0, 50)` can also split a surrogate pair,
  which the model cannot express.
- General regular expressions. Each pattern is a hand-written predicate over characters with
  the same whole-string meaning.
- The clock and randomness. `LocalDateTime.now()`, `LocalDate.now()` and `UUID.randomUUID()`
  are parameters. The factories that call `LocalDateTime.now()` twice are modelled as reading
  one instant for both timestamps.
- The date-of-birth invariant. A stored date of birth was not in the future on the day it was
  checked, but later checks run on a different day. So `Patient.Valid()` does not mention it.
- `toString`, `hashCode`, and the textual rendering of `LocalDateTime`. `History.ToAuditString`
  takes the timestamp text as a parameter.
- JPA and Spring annotations. The `patientsservice` controller, service and tests, which only
  delegate to a repository and map HTTP statuses. `Doctor` and `Appointment`, which are
  unchecked JavaBeans with no invariants.
- Concurrent mutation of an entity.
- Reconstructing a `ChargeStatus` from text. Only its three values, as a datatype, are modelled.
- `equals` against an object of another class. Each `Equals` takes an argument of its own
  class, so the `getClass()` test is always true here.
- `Eins.Equals`: takes two `EIN` values, neither of which can be null. So `EIN.equals(null)`,
  which returns false, has no counterpart. The entity `Equals` methods do accept a null
  argument and return false for it.
- `MedicalRecords.MedicalRecord.New`: every element of the list copied in is a
  `HistoryRecord`, so Java's possibility of a `null` element inside the list is not modelled.
- `Charges.Charge.Create`: its `description` parameter is `Option<Option<string>>`. The outer
  `None` stands for a null `Optional`, and `Some(None)` stands for `Optional.empty()`.
