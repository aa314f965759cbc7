/**
 * Blood-pressure records (hooks/health/useBloodPressureRecords.ts): whose
 * records are shown, who may add and delete them (only a role spelled
 * exactly "patient"), what an added record holds, and the loading flag. The
 * `blood_pressure_records` table is a field of the hook's state; measurement
 * times are instants in milliseconds, and the clock, the new row's id and
 * the database's answers are parameters.
 */
module BloodPressure {
  import opened Wrappers
  import opened JsText
  import opened Lists

  const NotPatientAddMessage: string := "Solo los pacientes pueden agregar registros"
  const NotSignedInMessage: string := "Usuario no autenticado"
  const NotPatientDeleteMessage: string := "Solo los pacientes pueden eliminar registros"
  const FetchFailedMessage: string := "Error al obtener los registros"
  const AddFailedMessage: string := "Error al agregar el registro"
  const DeleteFailedMessage: string := "Error al eliminar el registro"

  datatype BpRecord = BpRecord(id: string, patientId: string, systolic: int, diastolic: int,
                               pulse: Option<int>, notes: Option<string>, measuredAt: int)

  /** What the form hands to `addRecord`. */
  datatype Reading = Reading(systolic: int, diastolic: int, pulse: Option<int>, notes: Option<string>,
                             measuredAt: Option<int>)

  /** `isPatient`: the role exactly as stored, with no case folding. */
  predicate IsPatient(role: Option<string>) {
    role == Some("patient")
  }

  /** `patientId || user?.id`: the argument when given and not empty, else the signed-in user. */
  function EffectivePatient(patientIdArg: Option<string>, userId: Option<string>): (p: Option<string>)
    ensures Truthy(patientIdArg) ==> p == patientIdArg
    ensures !Truthy(patientIdArg) ==> p == userId
  {
    if Truthy(patientIdArg) then patientIdArg else userId
  }

  /** The message a failure leaves in `error`: its own, or the operation's default when empty. */
  function ErrorText(message: string, default: string): (t: string)
    ensures t != "" || default == ""
    ensures message != "" ==> t == message
  {
    if message == "" then default else message
  }

  /** The row `addRecord` inserts: always for the signed-in user, measured now
      unless the reading carries its own time. */
  function NewRecord(id: string, userId: string, reading: Reading, now: int): (r: BpRecord)
    ensures r.patientId == userId
    ensures r.systolic == reading.systolic && r.diastolic == reading.diastolic
    ensures r.measuredAt == if reading.measuredAt.Some? then reading.measuredAt.value else now
  {
    BpRecord(id, userId, reading.systolic, reading.diastolic, reading.pulse, reading.notes,
             reading.measuredAt.GetOr(now))
  }

  /** The patient's records, newest measurement first. */
  function NewestFirst(table: seq<BpRecord>, patient: string): (r: seq<BpRecord>)
    ensures forall x :: x in r <==> x in table && x.patientId == patient
    ensures forall i, j :: 0 <= i < j < |r| ==> r[i].measuredAt >= r[j].measuredAt
  {
    var mine := Filter(table, (x: BpRecord) => x.patientId == patient);
    var r := SortBy(mine, (x: BpRecord) => -x.measuredAt);
    assert forall x :: x in r <==> x in multiset(r);
    assert forall x :: x in mine <==> x in multiset(mine);
    r
  }

  class Records {
    var records: seq<BpRecord>
    var loading: bool
    var error: Option<string>
    /** The `blood_pressure_records` table. */
    var table: seq<BpRecord>

    constructor (table: seq<BpRecord>)
      ensures records == [] && loading && error.None? && this.table == table
    {
      records := [];
      loading := true;
      error := None;
      this.table := table;
    }

    /** `fetchRecords`: without a patient nothing happens; otherwise the
        records become the patient's, newest first, or the failure's text is
        kept. Loading ends either way. */
    method Fetch(patient: Option<string>, failure: Option<string>)
      modifies this
      ensures table == old(table)
      ensures !Truthy(patient) ==> records == old(records) && loading == old(loading) && error == old(error)
      ensures Truthy(patient) ==> !loading
      ensures Truthy(patient) && failure.None? ==> records == NewestFirst(table, patient.value) && error.None?
      ensures Truthy(patient) && failure.Some? ==>
        records == old(records) && error == Some(ErrorText(failure.value, FetchFailedMessage))
    {
      if !Truthy(patient) {
        return;
      }
      loading := true;
      error := None;
      if failure.Some? {
        error := Some(ErrorText(failure.value, FetchFailedMessage));
      } else {
        records := NewestFirst(table, patient.value);
      }
      loading := false;
    }

    /**
     * `addRecord`: refused for anyone whose role is not exactly "patient" and
     * without a user. A failed insert sets the error and rethrows; otherwise
     * the new record, for the user, joins the table and the records are
     * refetched for the hook's patient. Loading ends on every path past the
     * checks.
     */
    method AddRecord(role: Option<string>, userId: Option<string>, patient: Option<string>, reading: Reading,
                     now: int, newId: string, insertError: Option<string>, refetchFailure: Option<string>)
      returns (r: Outcome)
      modifies this
      ensures !IsPatient(role) ==> r == Thrown(NotPatientAddMessage)
      ensures IsPatient(role) && userId.None? ==> r == Thrown(NotSignedInMessage)
      ensures !IsPatient(role) || userId.None? ==>
        table == old(table) && records == old(records) && loading == old(loading) && error == old(error)
      ensures IsPatient(role) && userId.Some? ==> !loading
      ensures IsPatient(role) && userId.Some? && insertError.Some? ==>
        && r == Thrown(insertError.value) && table == old(table) && records == old(records)
        && error == Some(ErrorText(insertError.value, AddFailedMessage))
      ensures IsPatient(role) && userId.Some? && insertError.None? ==>
        && r == Done
        && table == old(table) + [NewRecord(newId, userId.value, reading, now)]
        && (!Truthy(patient) ==> records == old(records) && error == old(error))
        && (Truthy(patient) && refetchFailure.None? ==> records == NewestFirst(table, patient.value) && error.None?)
        && (Truthy(patient) && refetchFailure.Some? ==>
              records == old(records) && error == Some(ErrorText(refetchFailure.value, FetchFailedMessage)))
        && (patient == userId && Truthy(patient) && refetchFailure.None? ==>
              NewRecord(newId, userId.value, reading, now) in records)
    {
      if !IsPatient(role) {
        return Thrown(NotPatientAddMessage);
      }
      if userId.None? {
        return Thrown(NotSignedInMessage);
      }
      loading := true;
      if insertError.Some? {
        error := Some(ErrorText(insertError.value, AddFailedMessage));
        r := Thrown(insertError.value);
      } else {
        var added := NewRecord(newId, userId.value, reading, now);
        table := table + [added];
        assert added in table;
        Fetch(patient, refetchFailure);
        r := Done;
      }
      loading := false;
    }

    /** `deleteRecord`: refused for non-patients; a failed delete sets the
        error and rethrows; otherwise exactly the records with the id leave
        the table and the local list, which keeps its order. */
    method DeleteRecord(role: Option<string>, id: string, deleteError: Option<string>) returns (r: Outcome)
      modifies this
      ensures !IsPatient(role) ==>
        && r == Thrown(NotPatientDeleteMessage)
        && table == old(table) && records == old(records) && loading == old(loading) && error == old(error)
      ensures IsPatient(role) ==> !loading
      ensures IsPatient(role) && deleteError.Some? ==>
        && r == Thrown(deleteError.value) && table == old(table) && records == old(records)
        && error == Some(ErrorText(deleteError.value, DeleteFailedMessage))
      ensures IsPatient(role) && deleteError.None? ==>
        && r == Done
        && table == Filter(old(table), (x: BpRecord) => x.id != id)
        && records == Filter(old(records), (x: BpRecord) => x.id != id)
    {
      if !IsPatient(role) {
        return Thrown(NotPatientDeleteMessage);
      }
      loading := true;
      if deleteError.Some? {
        error := Some(ErrorText(deleteError.value, DeleteFailedMessage));
        r := Thrown(deleteError.value);
      } else {
        table := Filter(table, (x: BpRecord) => x.id != id);
        records := Filter(records, (x: BpRecord) => x.id != id);
        r := Done;
      }
      loading := false;
    }
  }

  /** Deleting a record keeps every other record, in order: deleting an id the
      list does not hold changes nothing, and the deleted id is gone. */
  lemma DeleteKeepsOthers(records: seq<BpRecord>, id: string)
    ensures forall x :: x in Filter(records, (x: BpRecord) => x.id != id) <==> x in records && x.id != id
    ensures (forall k :: 0 <= k < |records| ==> records[k].id != id) ==>
      Filter(records, (x: BpRecord) => x.id != id) == records
  {
    if forall k :: 0 <= k < |records| ==> records[k].id != id {
      FilterKeepsAll(records, (x: BpRecord) => x.id != id);
    }
  }

  /** A capitalised role is not a patient's: "Patient" may neither add nor delete. */
  lemma RoleMustMatchExactly()
    ensures !IsPatient(Some("Patient")) && IsPatient(Some("patient"))
  {
    assert "Patient"[0] != "patient"[0];
  }
}
