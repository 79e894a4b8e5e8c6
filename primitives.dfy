/** Opaque primitive types of the domain layer. */
module Primitives {
  /** `java.util.UUID`: a 128-bit value, compared only for equality. */
  type Uuid = bv128

  /** `java.time.LocalDateTime`, as an instant on a totally ordered time line. */
  type DateTime = int

  /** `java.time.LocalDate`, as a day number; `isAfter` is `>`. */
  type Date = int
}
