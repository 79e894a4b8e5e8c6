/** The medical record entity (entities/MedicalRecord.java): fixed identifiers and
    diagnosis, free-form treatment, notes and patient name, and an owned, append-only
    list of history records that is copied on the way in and on the way out. */
module MedicalRecords {
  import opened Errors
  import opened Primitives
  import opened Validation
  import opened History

  const MaxDiagnosisLength: nat := 10000

  /** `java.util.ArrayList<HistoryRecord>` as far as the record uses it. */
  class HistoryList {
    var elements: seq<HistoryRecord>

    /** `new ArrayList<>()`. */
    constructor Empty()
      ensures elements == []
    {
      elements := [];
    }

    /** `new ArrayList<>(other)`: a new list with the same elements. */
    constructor CopyOf(other: HistoryList)
      ensures elements == other.elements
    {
      elements := other.elements;
    }

    /** `add`: appends at the end. */
    method Add(r: HistoryRecord)
      modifies this
      ensures elements == old(elements) + [r]
    {
      elements := elements + [r];
    }
  }

  predicate IsValidDiagnosis(s: string) { IsRequiredText(s, MaxDiagnosisLength) }

  /** `validateDiagnosis`: kept as given when present, not blank and at most 10000 characters. */
  function ValidateDiagnosis(diagnosis: Option<string>): (r: Result<string>)
    ensures r.Success? <==> diagnosis.Some? && IsValidDiagnosis(diagnosis.value)
    ensures r.Success? ==> r.value == diagnosis.value
    ensures r.Failure? ==> r.error.IllegalArgument?
  {
    RequiredText(diagnosis, MaxDiagnosisLength, DiagnosisBlank, DiagnosisTooLong)
  }

  /** The checks of the full constructor, in its order; patient name, treatment and notes
      are not checked. */
  function ConstructionOutcome(id: Option<Uuid>, patientId: Option<Uuid>, organizationId: Option<Uuid>,
                               doctorId: Option<Uuid>, diagnosis: Option<string>,
                               createdAt: Option<DateTime>, updatedAt: Option<DateTime>,
                               historyRecords: HistoryList?): (o: Outcome)
    ensures o.Pass? <==>
      && id.Some? && patientId.Some? && organizationId.Some? && doctorId.Some?
      && createdAt.Some? && updatedAt.Some? && historyRecords != null
      && ValidateDiagnosis(diagnosis).Success?
    ensures o.Fail? && o.error.IllegalArgument? ==> ValidateDiagnosis(diagnosis).Failure?
    ensures ValidateDiagnosis(diagnosis).Success? && o.Fail? ==> o.error == NullPointer
  {
    if id.None? || patientId.None? || organizationId.None? || doctorId.None? then Fail(NullPointer)
    else if ValidateDiagnosis(diagnosis).Failure? then Fail(ValidateDiagnosis(diagnosis).error)
    else if createdAt.None? || updatedAt.None? || historyRecords == null then Fail(NullPointer)
    else Pass
  }

  class MedicalRecord {
    const id: Uuid
    const patientId: Uuid
    const organizationId: Uuid
    var patientName: Option<string>
    const doctorId: Uuid
    var diagnosis: string
    var treatment: Option<string>
    var notes: Option<string>
    const createdAt: DateTime
    var updatedAt: DateTime
    const historyRecords: HistoryList

    ghost predicate Valid()
      reads this
    {
      IsValidDiagnosis(diagnosis)
    }

    /** The history, in insertion order. */
    function History(): seq<HistoryRecord>
      reads this, historyRecords
    {
      historyRecords.elements
    }

    /** Assigns already validated fields and takes a private copy of the given list. */
    constructor (id: Uuid, patientId: Uuid, organizationId: Uuid, patientName: Option<string>,
                 doctorId: Uuid, diagnosis: string, treatment: Option<string>, notes: Option<string>,
                 createdAt: DateTime, updatedAt: DateTime, historyRecords: HistoryList)
      requires IsValidDiagnosis(diagnosis)
      ensures Valid() && fresh(this.historyRecords)
      ensures History() == historyRecords.elements
      ensures this.id == id && this.patientId == patientId && this.organizationId == organizationId
      ensures this.patientName == patientName && this.doctorId == doctorId
      ensures this.diagnosis == diagnosis && this.treatment == treatment && this.notes == notes
      ensures this.createdAt == createdAt && this.updatedAt == updatedAt
    {
      this.id := id;
      this.patientId := patientId;
      this.organizationId := organizationId;
      this.patientName := patientName;
      this.doctorId := doctorId;
      this.diagnosis := diagnosis;
      this.treatment := treatment;
      this.notes := notes;
      this.createdAt := createdAt;
      this.updatedAt := updatedAt;
      this.historyRecords := new HistoryList.CopyOf(historyRecords);
    }

    /** The full constructor: a new record exactly when every check passes, owning a fresh
        copy of the given history; otherwise the exception of the first failing check. */
    static method New(id: Option<Uuid>, patientId: Option<Uuid>, organizationId: Option<Uuid>,
                      patientName: Option<string>, doctorId: Option<Uuid>, diagnosis: Option<string>,
                      treatment: Option<string>, notes: Option<string>, createdAt: Option<DateTime>,
                      updatedAt: Option<DateTime>, historyRecords: HistoryList?)
      returns (r: Result<MedicalRecord>)
      ensures var o := ConstructionOutcome(id, patientId, organizationId, doctorId, diagnosis,
                                           createdAt, updatedAt, historyRecords);
        (r.Success? <==> o.Pass?) && (r.Failure? ==> r.error == o.error)
      ensures r.Success? ==> fresh(r.value) && fresh(r.value.historyRecords) && r.value.Valid()
      ensures r.Success? ==> historyRecords != null && r.value.History() == historyRecords.elements
      ensures r.Success? ==>
        && r.value.id == id.value && r.value.patientId == patientId.value
        && r.value.organizationId == organizationId.value && r.value.patientName == patientName
        && r.value.doctorId == doctorId.value && r.value.diagnosis == diagnosis.value
        && r.value.treatment == treatment && r.value.notes == notes
        && r.value.createdAt == createdAt.value && r.value.updatedAt == updatedAt.value
    {
      var o := ConstructionOutcome(id, patientId, organizationId, doctorId, diagnosis,
                                   createdAt, updatedAt, historyRecords);
      if o.Fail? {
        return Failure(o.error);
      }
      var m := new MedicalRecord(id.value, patientId.value, organizationId.value, patientName,
                                 doctorId.value, diagnosis.value, treatment, notes, createdAt.value,
                                 updatedAt.value, historyRecords);
      return Success(m);
    }

    /** `MedicalRecord.create`: an empty history, no patient name, treatment or notes, a
        fresh id and the current time as creation and update time. */
    static method Create(patientId: Option<Uuid>, organizationId: Option<Uuid>, doctorId: Option<Uuid>,
                         diagnosis: Option<string>, freshId: Uuid, now: DateTime)
      returns (r: Result<MedicalRecord>)
      ensures r.Success? <==>
        patientId.Some? && organizationId.Some? && doctorId.Some? && ValidateDiagnosis(diagnosis).Success?
      ensures r.Failure? && (patientId.None? || organizationId.None? || doctorId.None?) ==>
        r.error == NullPointer
      ensures r.Failure? && patientId.Some? && organizationId.Some? && doctorId.Some? ==>
        r.error == ValidateDiagnosis(diagnosis).error
      ensures r.Success? ==> fresh(r.value) && fresh(r.value.historyRecords) && r.value.Valid()
      ensures r.Success? ==>
        && r.value.History() == [] && r.value.id == freshId
        && r.value.patientId == patientId.value && r.value.organizationId == organizationId.value
        && r.value.doctorId == doctorId.value && r.value.diagnosis == diagnosis.value
        && r.value.patientName.None? && r.value.treatment.None? && r.value.notes.None?
        && r.value.createdAt == now && r.value.updatedAt == now
    {
      var empty := new HistoryList.Empty();
      r := New(Some(freshId), patientId, organizationId, None, doctorId, diagnosis, None, None,
               Some(now), Some(now), empty);
    }

    /** `addHistoryRecord`: a present record is appended and `updatedAt` stamped; a null one
        is a null pointer and nothing changes. */
    method AddHistoryRecord(record: Option<HistoryRecord>, now: DateTime) returns (r: Outcome)
      requires Valid()
      modifies historyRecords, this`updatedAt
      ensures Valid()
      ensures r.Pass? <==> record.Some?
      ensures r.Pass? ==> History() == old(History()) + [record.value] && updatedAt == now
      ensures r.Fail? ==> r.error == NullPointer && unchanged(this, historyRecords)
      ensures old(History()) <= History()
    {
      if record.None? {
        return Fail(NullPointer);
      }
      historyRecords.Add(record.value);
      updatedAt := now;
      return Pass;
    }

    /** `updateTreatment`: any value, null included; only `treatment` and `updatedAt` change. */
    method UpdateTreatment(treatment: Option<string>, now: DateTime)
      requires Valid()
      modifies this`treatment, this`updatedAt
      ensures Valid()
      ensures this.treatment == treatment && updatedAt == now
    {
      this.treatment := treatment;
      updatedAt := now;
    }

    /** `updateNotes`: any value, null included; only `notes` and `updatedAt` change. */
    method UpdateNotes(notes: Option<string>, now: DateTime)
      requires Valid()
      modifies this`notes, this`updatedAt
      ensures Valid()
      ensures this.notes == notes && updatedAt == now
    {
      this.notes := notes;
      updatedAt := now;
    }

    /** `setPatientName`: only `patientName` changes; `updatedAt` is not stamped. */
    method SetPatientName(name: Option<string>)
      requires Valid()
      modifies this`patientName
      ensures Valid()
      ensures patientName == name
    {
      patientName := name;
    }

    /** `getHistoryRecords`: a new list with the same elements. */
    method GetHistoryRecords() returns (copy: HistoryList)
      ensures fresh(copy) && copy.elements == History()
    {
      copy := new HistoryList.CopyOf(historyRecords);
    }

    /** `equals`: the identity shortcut agrees with comparing ids. */
    function Equals(other: MedicalRecord?): (r: bool)
      ensures r <==> other != null && id == other.id
    {
      if this == other then true
      else if other == null then false
      else id == other.id
    }
  }

  /** Two appended records come back in the order they were added, after the old history. */
  method AppendTwoInOrder(m: MedicalRecord, first: HistoryRecord, second: HistoryRecord,
                          t1: DateTime, t2: DateTime)
    returns (copy: HistoryList)
    requires m.Valid()
    modifies m.historyRecords, m`updatedAt
    ensures fresh(copy) && copy.elements == old(m.History()) + [first, second]
    ensures m.updatedAt == t2
  {
    var r1 := m.AddHistoryRecord(Some(first), t1);
    var r2 := m.AddHistoryRecord(Some(second), t2);
    copy := m.GetHistoryRecords();
  }

  /** Changing the list a read returned does not change the record's history. */
  method CopyOnReadIsolates(m: MedicalRecord, extra: HistoryRecord) returns (copy: HistoryList)
    ensures fresh(copy) && copy.elements == m.History() + [extra]
    ensures m.History() == old(m.History())
  {
    copy := m.GetHistoryRecords();
    copy.Add(extra);
  }

  /** Changing the caller's list after construction does not change the record's history. */
  method ConstructionCopyIsolates(list: HistoryList, extra: HistoryRecord, id: Uuid, patientId: Uuid,
                                  organizationId: Uuid, doctorId: Uuid, diagnosis: string,
                                  now: DateTime)
    returns (r: Result<MedicalRecord>)
    modifies list
    ensures list.elements == old(list.elements) + [extra]
    ensures r.Success? <==> IsValidDiagnosis(diagnosis)
    ensures r.Success? ==> r.value.History() == old(list.elements)
  {
    r := MedicalRecord.New(Some(id), Some(patientId), Some(organizationId), None, Some(doctorId),
                           Some(diagnosis), None, None, Some(now), Some(now), list);
    list.Add(extra);
  }
}
