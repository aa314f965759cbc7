/**
 * The trusted contacts of a patient (hooks/useTrustedContacts.ts): the
 * patient the list belongs to, who may edit it, and the add and delete
 * operations with their checks, in the order the hook makes them. The
 * `trusted_contacts` table is a field of the hook's state, in creation order;
 * the database's answers (failures, the new row's id) are parameters.
 */
module TrustedContacts {
  import opened Wrappers
  import opened JsText
  import opened Lists
  import TargetPatient

  const MaxContacts: nat := 5
  const UniqueViolation: string := "23505"

  const ReadOnlyAddMessage: string := "Los cuidadores no pueden editar contactos."
  const TooManyMessage: string := "Máximo 5 contactos de confianza."
  const NoPatientMessage: string := "ID de paciente no encontrado."
  const InvalidEmailMessage: string := "El email no es válido."
  const DuplicateMessage: string := "Este email ya está en tu lista de contactos."
  const ReadOnlyDeleteMessage: string := "Los cuidadores no pueden eliminar contactos."

  datatype Contact = Contact(id: string, patientId: string, name: string, email: string, phone: Option<string>)

  /** A failed database call: its error code and message. */
  datatype DbError = DbError(code: string, message: string)

  /** `targetPatientId`: a caregiver sees the linked patient's list; a patient
      their own; any other role none. */
  function Target(role: Option<string>, profileId: Option<string>, isLinked: bool,
                  patientId: Option<string>): (t: Option<string>)
    ensures TargetPatient.IsCaregiver(role) ==> t == TargetPatient.LinkedPatient(isLinked, patientId)
    ensures TargetPatient.LowerRole(role) == Some("patient") ==> t == profileId
    ensures TargetPatient.LowerRole(role) != Some("caregiver") && TargetPatient.LowerRole(role) != Some("patient") ==>
      t.None?
  {
    TargetPatient.ForRole(role, isLinked, patientId,
                          if TargetPatient.LowerRole(role) == Some("patient") then profileId else None)
  }

  /** `isReadOnly`: caregivers may only look. */
  predicate IsReadOnly(role: Option<string>) {
    TargetPatient.IsCaregiver(role)
  }

  /** The rows of one patient, in creation order. */
  function OfPatient(table: seq<Contact>, patient: string): (r: seq<Contact>)
    ensures forall c :: c in r <==> c in table && c.patientId == patient
  {
    Filter(table, (c: Contact) => c.patientId == patient)
  }

  /** Which check of `addContact` fails first, if any. */
  function AddCheck(readOnly: bool, count: nat, target: Option<string>, email: string): (r: Option<string>)
    ensures r.None? <==> !readOnly && count < MaxContacts && Truthy(target) && IsValidEmail(email)
    ensures readOnly ==> r == Some(ReadOnlyAddMessage)
    ensures !readOnly && count >= MaxContacts ==> r == Some(TooManyMessage)
    ensures !readOnly && count < MaxContacts && !Truthy(target) ==> r == Some(NoPatientMessage)
    ensures !readOnly && count < MaxContacts && Truthy(target) && !IsValidEmail(email) ==> r == Some(InvalidEmailMessage)
  {
    if readOnly then Some(ReadOnlyAddMessage)
    else if count >= MaxContacts then Some(TooManyMessage)
    else if !Truthy(target) then Some(NoPatientMessage)
    else if !IsValidEmail(email) then Some(InvalidEmailMessage)
    else None
  }

  /** The message a failed insert throws: the duplicate-email text for a unique
      violation, the database's own message otherwise. */
  function InsertFailureMessage(e: DbError): (m: string)
    ensures e.code == UniqueViolation ==> m == DuplicateMessage
    ensures e.code != UniqueViolation ==> m == e.message
  {
    if e.code == UniqueViolation then DuplicateMessage else e.message
  }

  class Contacts {
    var contacts: seq<Contact>
    var loading: bool
    var error: Option<string>
    /** The `trusted_contacts` table. */
    var table: seq<Contact>

    constructor (table: seq<Contact>)
      ensures contacts == [] && loading && error.None? && this.table == table
    {
      contacts := [];
      loading := true;
      error := None;
      this.table := table;
    }

    /** `fetchContacts`: without a target only loading ends; otherwise the list
        becomes the target's rows, or the failure's message is kept. */
    method Fetch(target: Option<string>, failure: Option<string>)
      modifies this
      ensures table == old(table) && !loading
      ensures !Truthy(target) ==> contacts == old(contacts) && error == old(error)
      ensures Truthy(target) && failure.None? ==> contacts == OfPatient(table, target.value) && error.None?
      ensures Truthy(target) && failure.Some? ==> contacts == old(contacts) && error == failure
    {
      if !Truthy(target) {
        loading := false;
        return;
      }
      loading := true;
      error := None;
      if failure.Some? {
        error := failure;
      } else {
        contacts := OfPatient(table, target.value);
      }
      loading := false;
    }

    /**
     * `addContact`. The checks run in the hook's order; a failed insert
     * throws (with the duplicate-email text for a unique violation) and
     * writes nothing. A successful insert adds the row for the target and
     * refetches the list.
     */
    method AddContact(role: Option<string>, target: Option<string>, name: string, email: string,
                      phone: Option<string>, newId: string, insertError: Option<DbError>,
                      refetchFailure: Option<string>) returns (r: Outcome)
      modifies this
      ensures AddCheck(IsReadOnly(role), |old(contacts)|, target, email).Some? ==>
        && r == Thrown(AddCheck(IsReadOnly(role), |old(contacts)|, target, email).value)
        && table == old(table) && contacts == old(contacts) && loading == old(loading) && error == old(error)
      ensures AddCheck(IsReadOnly(role), |old(contacts)|, target, email).None? && insertError.Some? ==>
        && r == Thrown(InsertFailureMessage(insertError.value))
        && table == old(table) && contacts == old(contacts) && loading == old(loading) && error == old(error)
      ensures AddCheck(IsReadOnly(role), |old(contacts)|, target, email).None? && insertError.None? ==>
        && r == Done && !loading
        && table == old(table) + [Contact(newId, target.value, name, email, phone)]
        && (refetchFailure.None? ==>
              && contacts == OfPatient(table, target.value) && error.None?
              && Contact(newId, target.value, name, email, phone) in contacts)
        && (refetchFailure.Some? ==> contacts == old(contacts) && error == refetchFailure)
    {
      var check := AddCheck(IsReadOnly(role), |contacts|, target, email);
      if check.Some? {
        return Thrown(check.value);
      }
      if insertError.Some? {
        return Thrown(InsertFailureMessage(insertError.value));
      }
      table := table + [Contact(newId, target.value, name, email, phone)];
      Fetch(target, refetchFailure);
      r := Done;
    }

    /** `deleteContact`: refused for caregivers; a failed delete throws and
        writes nothing; otherwise every row with the id goes and the list is
        refetched. */
    method DeleteContact(role: Option<string>, target: Option<string>, id: string,
                         deleteError: Option<string>, refetchFailure: Option<string>) returns (r: Outcome)
      modifies this
      ensures IsReadOnly(role) ==> r == Thrown(ReadOnlyDeleteMessage)
      ensures !IsReadOnly(role) && deleteError.Some? ==> r == Thrown(deleteError.value)
      ensures IsReadOnly(role) || deleteError.Some? ==>
        table == old(table) && contacts == old(contacts) && loading == old(loading) && error == old(error)
      ensures !IsReadOnly(role) && deleteError.None? ==>
        && r == Done && !loading
        && table == Filter(old(table), (c: Contact) => c.id != id)
        && (forall c :: c in table ==> c.id != id)
        && (!Truthy(target) ==> contacts == old(contacts) && error == old(error))
        && (Truthy(target) && refetchFailure.None? ==> contacts == OfPatient(table, target.value) && error.None?)
        && (Truthy(target) && refetchFailure.Some? ==> contacts == old(contacts) && error == refetchFailure)
    {
      if IsReadOnly(role) {
        return Thrown(ReadOnlyDeleteMessage);
      }
      if deleteError.Some? {
        return Thrown(deleteError.value);
      }
      table := Filter(table, (c: Contact) => c.id != id);
      Fetch(target, refetchFailure);
      r := Done;
    }
  }
}
