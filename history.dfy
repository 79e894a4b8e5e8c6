/** The immutable audit entry `HistoryRecord` (entities/HistoryRecord.java): its
    compact constructor trims and bounds `action` and `details`, and two derived
    strings summarise it with `details` cut to 50 characters. */
module History {
  import opened Errors
  import opened Text
  import opened Primitives

  const MaxActionLength: nat := 255
  const MaxDetailsLength: nat := 10000
  const AuditSummaryLength: nat := 50

  datatype Entry = Entry(id: Uuid, medicalRecordId: Uuid, action: string, details: string,
                         timestamp: DateTime)

  /** What the compact constructor guarantees of every record it lets through:
      a trimmed non-empty (so non-blank) action of at most 255 characters and
      trimmed details of at most 10000. */
  predicate WellFormed(e: Entry) {
    && e.action != [] && IsTrimmed(e.action) && |e.action| <= MaxActionLength
    && IsTrimmed(e.details) && |e.details| <= MaxDetailsLength
  }

  type HistoryRecord = e: Entry | WellFormed(e) witness Entry(0, 0, "x", "", 0)

  /** `validateAction`: null, blank, or longer than 255 before trimming is refused;
      otherwise the trimmed action, which is again non-blank. */
  function ValidateAction(action: Option<string>): (r: Result<string>)
    ensures r.Success? <==> action.Some? && !IsBlank(action.value) && |action.value| <= MaxActionLength
    ensures r.Success? ==> r.value == Trim(action.value)
    ensures r.Success? ==> r.value != [] && !IsBlank(r.value) && IsTrimmed(r.value) && |r.value| <= MaxActionLength
    ensures r.Failure? ==> r.error.IllegalArgument?
  {
    if action.None? || IsBlank(action.value) then Failure(IllegalArgument(ActionBlank))
    else if |action.value| > MaxActionLength then Failure(IllegalArgument(ActionTooLong))
    else
      TrimKeepsNonBlank(action.value);
      Success(Trim(action.value))
  }

  /** `validateDetails`: null becomes the empty string, more than 10000 characters
      before trimming is refused, anything else (blank included) is stored trimmed. */
  function ValidateDetails(details: Option<string>): (r: Result<string>)
    ensures r.Success? <==> details.None? || |details.value| <= MaxDetailsLength
    ensures r.Success? ==> r.value == if details.None? then "" else Trim(details.value)
    ensures r.Success? ==> IsTrimmed(r.value) && |r.value| <= MaxDetailsLength
    ensures r.Failure? ==> r.error == IllegalArgument(DetailsTooLong)
  {
    if details.None? then Success("")
    else if |details.value| > MaxDetailsLength then Failure(IllegalArgument(DetailsTooLong))
    else
      Success(Trim(details.value))
  }

  /** The compact constructor, with its checks in order: id, medical record id,
      action, details, timestamp. */
  function New(id: Option<Uuid>, medicalRecordId: Option<Uuid>, action: Option<string>,
               details: Option<string>, timestamp: Option<DateTime>): (r: Result<HistoryRecord>)
    ensures r.Success? <==>
      && id.Some? && medicalRecordId.Some? && timestamp.Some?
      && ValidateAction(action).Success? && ValidateDetails(details).Success?
    ensures r.Success? ==>
      && r.value.id == id.value && r.value.medicalRecordId == medicalRecordId.value
      && r.value.action == ValidateAction(action).value
      && r.value.details == ValidateDetails(details).value
      && r.value.timestamp == timestamp.value
    ensures id.None? || medicalRecordId.None? ==> r == Failure(NullPointer)
  {
    var i :- NonNull(id);
    var m :- NonNull(medicalRecordId);
    var a :- ValidateAction(action);
    var d :- ValidateDetails(details);
    var t :- NonNull(timestamp);
    Success(Entry(i, m, a, d, t))
  }

  /** `HistoryRecord.create`: a fresh id and the current time. */
  function Create(medicalRecordId: Option<Uuid>, action: Option<string>, details: Option<string>,
                  freshId: Uuid, now: DateTime): (r: Result<HistoryRecord>)
    ensures r.Success? <==>
      medicalRecordId.Some? && ValidateAction(action).Success? && ValidateDetails(details).Success?
    ensures r.Success? ==> r.value.id == freshId && r.value.timestamp == now
  {
    New(Some(freshId), medicalRecordId, action, details, Some(now))
  }

  /** The visible part of `details`: itself up to 50 characters, otherwise its
      first 50 characters and `...`. */
  function TruncatedDetails(details: string): (r: string)
    ensures |r| <= AuditSummaryLength + 3
    ensures |details| <= AuditSummaryLength ==> r == details
    ensures |details| > AuditSummaryLength ==>
      |r| == AuditSummaryLength + 3 && r[..AuditSummaryLength] == details[..AuditSummaryLength]
      && r[AuditSummaryLength..] == "..."
  {
    if |details| > AuditSummaryLength then details[..AuditSummaryLength] + "..." else details
  }

  /** `toAuditString`: `[<timestamp>] <action> - <truncated details>`; the
      rendering of the timestamp is taken as given text. */
  function ToAuditString(r: HistoryRecord, timestampText: string): (s: string)
    ensures |s| == |timestampText| + |r.action| + |TruncatedDetails(r.details)| + 6
    ensures s[..|timestampText| + 2] == "[" + timestampText + "]"
    ensures s[|timestampText| + 2..] == " " + r.action + " - " + TruncatedDetails(r.details)
  {
    var head := "[" + timestampText + "]";
    var tail := " " + r.action + " - " + TruncatedDetails(r.details);
    assert head + tail == "[" + timestampText + "] " + r.action + " - " + TruncatedDetails(r.details);
    assert (head + tail)[..|head|] == head && (head + tail)[|head|..] == tail;
    "[" + timestampText + "] " + r.action + " - " + TruncatedDetails(r.details)
  }

  /** `getSummary`: `<action>: ` then `No details` for empty details, otherwise the
      same truncated details as the audit string. */
  function GetSummary(r: HistoryRecord): (s: string)
    ensures |s| > |r.action| + 2
    ensures s[..|r.action| + 2] == r.action + ": "
    ensures r.details == [] ==> s[|r.action| + 2..] == "No details"
    ensures r.details != [] ==> s[|r.action| + 2..] == TruncatedDetails(r.details)
  {
    var tail := if r.details == [] then "No details" else TruncatedDetails(r.details);
    var head := r.action + ": ";
    assert (head + tail)[..|head|] == head && (head + tail)[|head|..] == tail;
    head + tail
  }

  /** An action already in stored form passes validation unchanged. */
  lemma ValidateActionFixed(action: string)
    requires action != [] && IsTrimmed(action) && |action| <= MaxActionLength
    ensures ValidateAction(Some(action)) == Success(action)
  {
    TrimFixedIffTrimmed(action);
    assert !IsWhitespace(action[0]);
  }

  /** Details already in stored form pass validation unchanged. */
  lemma ValidateDetailsFixed(details: string)
    requires IsTrimmed(details) && |details| <= MaxDetailsLength
    ensures ValidateDetails(Some(details)) == Success(details)
  {
    TrimFixedIffTrimmed(details);
  }

  /** Rebuilding a record from its own fields gives the same record: the
      normalisation of the constructor is idempotent. */
  lemma NewIsIdempotent(r: HistoryRecord)
    ensures New(Some(r.id), Some(r.medicalRecordId), Some(r.action), Some(r.details),
                Some(r.timestamp)) == Success(r)
  {
    ValidateActionFixed(r.action);
    ValidateDetailsFixed(r.details);
  }
}
