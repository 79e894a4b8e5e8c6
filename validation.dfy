/** The check every entity applies to its required text fields: present, not
    blank, and no longer than a bound; the text is then stored as given. */
module Validation {
  import opened Errors
  import opened Text

  /** Accepted required text: not blank and at most `max` characters. */
  predicate IsRequiredText(s: string, max: nat) {
    !IsBlank(s) && |s| <= max
  }

  /** `if (s == null || s.isBlank()) throw ...; if (s.length() > max) throw ...; return s;` */
  function RequiredText(s: Option<string>, max: nat, blank: Rule, tooLong: Rule): (r: Result<string>)
    ensures r.Success? <==> s.Some? && IsRequiredText(s.value, max)
    ensures r.Success? ==> r.value == s.value
    ensures r.Failure? && (s.None? || IsBlank(s.value)) ==> r.error == IllegalArgument(blank)
    ensures r.Failure? && s.Some? && !IsBlank(s.value) ==> r.error == IllegalArgument(tooLong)
  {
    if s.None? || IsBlank(s.value) then Failure(IllegalArgument(blank))
    else if |s.value| > max then Failure(IllegalArgument(tooLong))
    else Success(s.value)
  }
}
