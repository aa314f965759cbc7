/**
 * The emotional-support contacts of a user (hooks/useEmotionalContacts.ts):
 * whose list is shown, the phone pattern `/^\+?[0-9\s-]{6,}$/`, and the add,
 * update and delete operations, which a caregiver's read-only view turns
 * into silent no-ops. The `emotional_contacts` table is a field of the
 * hook's state, in creation order; the database's answers are parameters.
 */
module EmotionalContacts {
  import opened Wrappers
  import opened JsText
  import opened Lists
  import TargetPatient

  const MaxContacts: nat := 10

  const TooManyMessage: string := "Máximo 10 contactos permitidos."
  const InvalidPhoneMessage: string := "El teléfono no es válido. Use solo números, guiones o +."
  const InvalidPhoneUpdateMessage: string := "El teléfono no es válido."

  datatype Contact = Contact(id: string, userId: string, name: string, phone: string, relationship: Option<string>)

  /** The fields an update may carry; an absent one is left as it is. */
  datatype Changes = Changes(name: Option<string>, phone: Option<string>, relationship: Option<string>)

  /** `targetUserId`: a caregiver sees the linked patient's list, anyone else their own. */
  function Target(role: Option<string>, profileId: Option<string>, isLinked: bool,
                  patientId: Option<string>): (t: Option<string>)
    ensures TargetPatient.IsCaregiver(role) ==> t == TargetPatient.LinkedPatient(isLinked, patientId)
    ensures !TargetPatient.IsCaregiver(role) ==> t == profileId
  {
    TargetPatient.ForRole(role, isLinked, patientId, profileId)
  }

  /** `isReadOnly`: a caregiver may only look. */
  predicate IsReadOnly(role: Option<string>) {
    TargetPatient.IsCaregiver(role)
  }

  /** A character of the class `[0-9\s-]`. */
  predicate IsPhoneChar(c: char) {
    IsDigit(c) || IsWhitespace(c) || c == '-'
  }

  predicate AllPhoneChars(s: string) {
    forall i :: 0 <= i < |s| ==> IsPhoneChar(s[i])
  }

  /** The phone without its leading `+`, if it has one. */
  function PhoneBody(p: string): string {
    if |p| > 0 && p[0] == '+' then p[1..] else p
  }

  /** The phone test: an optional leading `+`, then six or more phone characters. */
  predicate IsValidPhone(p: string) {
    |PhoneBody(p)| >= 6 && AllPhoneChars(PhoneBody(p))
  }

  /** The pattern read as a regular expression: `p` splits into an optional `+`
      and a run of at least six phone characters. */
  ghost predicate PhonePatternMatch(p: string, k: nat) {
    k <= 1 && k <= |p| && p[..k] in ["", "+"] && |p[k..]| >= 6 && AllPhoneChars(p[k..])
  }

  /** The test agrees with the regular expression. A `+` is not a phone
      character, so it can only stand first. */
  lemma IsValidPhoneMatchesPattern(p: string)
    ensures IsValidPhone(p) <==> exists k: nat :: PhonePatternMatch(p, k)
    ensures IsValidPhone(p) ==> forall i :: 0 < i < |p| ==> p[i] != '+'
  {
    var k: nat := if |p| > 0 && p[0] == '+' then 1 else 0;
    assert p[..k] == (if k == 1 then "+" else "");
    assert PhoneBody(p) == p[k..];
    if IsValidPhone(p) {
      assert PhonePatternMatch(p, k);
      forall i | 0 < i < |p| ensures p[i] != '+' {
        assert p[i] == p[k..][i - k];
      }
    }
    if exists j: nat :: PhonePatternMatch(p, j) {
      var j: nat :| PhonePatternMatch(p, j);
      if j == 1 {
        assert p[..1] == [p[0]];
      }
      assert j == k;
    }
  }

  /** Which check of `addContact` stops it: a silent return (`Some(None)`),
      a thrown message (`Some(Some(m))`), or none. */
  function AddCheck(readOnly: bool, count: nat, target: Option<string>, phone: string): (r: Option<Option<string>>)
    ensures r.None? <==> !readOnly && count < MaxContacts && Truthy(target) && IsValidPhone(phone)
    ensures readOnly ==> r == Some(None)
    ensures !readOnly && count >= MaxContacts ==> r == Some(Some(TooManyMessage))
    ensures !readOnly && count < MaxContacts && !Truthy(target) ==> r == Some(None)
    ensures !readOnly && count < MaxContacts && Truthy(target) && !IsValidPhone(phone) ==> r == Some(Some(InvalidPhoneMessage))
  {
    if readOnly then Some(None)
    else if count >= MaxContacts then Some(Some(TooManyMessage))
    else if !Truthy(target) then Some(None)
    else if !IsValidPhone(phone) then Some(Some(InvalidPhoneMessage))
    else None
  }

  /** A contact with the supplied fields replaced. */
  function Apply(c: Contact, changes: Changes): (d: Contact)
    ensures d.id == c.id && d.userId == c.userId
    ensures d.name == changes.name.GetOr(c.name) && d.phone == changes.phone.GetOr(c.phone)
    ensures d.relationship == if changes.relationship.Some? then changes.relationship else c.relationship
  {
    Contact(c.id, c.userId, changes.name.GetOr(c.name), changes.phone.GetOr(c.phone),
            if changes.relationship.Some? then changes.relationship else c.relationship)
  }

  /** The table after `update(changes).eq('id', id)`. */
  function Updated(table: seq<Contact>, id: string, changes: Changes): (r: seq<Contact>)
    ensures |r| == |table|
    ensures forall k :: 0 <= k < |table| ==> r[k] == if table[k].id == id then Apply(table[k], changes) else table[k]
  {
    seq(|table|, k requires 0 <= k < |table| => if table[k].id == id then Apply(table[k], changes) else table[k])
  }

  /** The phone is checked only when the update carries a non-empty one: an
      empty phone passes unchecked and is written. */
  predicate UpdateRefused(changes: Changes) {
    Truthy(changes.phone) && !IsValidPhone(changes.phone.value)
  }

  lemma EmptyPhoneUpdateIsWritten(table: seq<Contact>, id: string, k: nat)
    requires k < |table| && table[k].id == id
    ensures !UpdateRefused(Changes(None, Some(""), None))
    ensures Updated(table, id, Changes(None, Some(""), None))[k].phone == ""
  {
  }

  /** The rows of one user, in creation order. */
  function OfUser(table: seq<Contact>, user: string): (r: seq<Contact>)
    ensures forall c :: c in r <==> c in table && c.userId == user
  {
    Filter(table, (c: Contact) => c.userId == user)
  }

  class Contacts {
    var contacts: seq<Contact>
    var loading: bool
    var error: Option<string>
    /** The `emotional_contacts` table. */
    var table: seq<Contact>

    constructor (table: seq<Contact>)
      ensures contacts == [] && loading && error.None? && this.table == table
    {
      contacts := [];
      loading := true;
      error := None;
      this.table := table;
    }

    /** `fetchContacts`: without a target only loading ends; otherwise the list
        becomes the target's rows, or the failure's message is kept. */
    method Fetch(target: Option<string>, failure: Option<string>)
      modifies this
      ensures table == old(table) && !loading
      ensures !Truthy(target) ==> contacts == old(contacts) && error == old(error)
      ensures Truthy(target) && failure.None? ==> contacts == OfUser(table, target.value) && error.None?
      ensures Truthy(target) && failure.Some? ==> contacts == old(contacts) && error == failure
    {
      if !Truthy(target) {
        loading := false;
        return;
      }
      loading := true;
      error := None;
      if failure.Some? {
        error := failure;
      } else {
        contacts := OfUser(table, target.value);
      }
      loading := false;
    }

    /** `addContact`: silent for a read-only view or without a target, refused
        at ten contacts or for a malformed phone; a failed insert throws and
        writes nothing; otherwise the row is added and the list refetched. */
    method AddContact(role: Option<string>, target: Option<string>, name: string, phone: string,
                      relationship: Option<string>, newId: string, insertError: Option<string>,
                      refetchFailure: Option<string>) returns (r: Outcome)
      modifies this
      ensures AddCheck(IsReadOnly(role), |old(contacts)|, target, phone).Some? ==>
        && r == (if AddCheck(IsReadOnly(role), |old(contacts)|, target, phone).value.None? then Done
                 else Thrown(AddCheck(IsReadOnly(role), |old(contacts)|, target, phone).value.value))
        && table == old(table) && contacts == old(contacts) && loading == old(loading) && error == old(error)
      ensures AddCheck(IsReadOnly(role), |old(contacts)|, target, phone).None? && insertError.Some? ==>
        && r == Thrown(insertError.value)
        && table == old(table) && contacts == old(contacts) && loading == old(loading) && error == old(error)
      ensures AddCheck(IsReadOnly(role), |old(contacts)|, target, phone).None? && insertError.None? ==>
        && r == Done && !loading
        && table == old(table) + [Contact(newId, target.value, name, phone, relationship)]
        && (refetchFailure.None? ==> contacts == OfUser(table, target.value) && error.None?)
        && (refetchFailure.Some? ==> contacts == old(contacts) && error == refetchFailure)
    {
      var check := AddCheck(IsReadOnly(role), |contacts|, target, phone);
      if check.Some? {
        return if check.value.None? then Done else Thrown(check.value.value);
      }
      if insertError.Some? {
        return Thrown(insertError.value);
      }
      table := table + [Contact(newId, target.value, name, phone, relationship)];
      Fetch(target, refetchFailure);
      r := Done;
    }

    /** `updateContact`: silent for a read-only view; a supplied malformed
        phone is refused; a failed update throws; otherwise the rows with the
        id take the changes and the list is refetched. */
    method UpdateContact(role: Option<string>, target: Option<string>, id: string, changes: Changes,
                         updateError: Option<string>, refetchFailure: Option<string>) returns (r: Outcome)
      modifies this
      ensures IsReadOnly(role) ==> r == Done
      ensures !IsReadOnly(role) && UpdateRefused(changes) ==> r == Thrown(InvalidPhoneUpdateMessage)
      ensures !IsReadOnly(role) && !UpdateRefused(changes) && updateError.Some? ==> r == Thrown(updateError.value)
      ensures IsReadOnly(role) || UpdateRefused(changes) || updateError.Some? ==>
        table == old(table) && contacts == old(contacts) && loading == old(loading) && error == old(error)
      ensures !IsReadOnly(role) && !UpdateRefused(changes) && updateError.None? ==>
        && r == Done && !loading
        && table == Updated(old(table), id, changes)
        && (!Truthy(target) ==> contacts == old(contacts) && error == old(error))
        && (Truthy(target) && refetchFailure.None? ==> contacts == OfUser(table, target.value) && error.None?)
        && (Truthy(target) && refetchFailure.Some? ==> contacts == old(contacts) && error == refetchFailure)
    {
      if IsReadOnly(role) {
        return Done;
      }
      if UpdateRefused(changes) {
        return Thrown(InvalidPhoneUpdateMessage);
      }
      if updateError.Some? {
        return Thrown(updateError.value);
      }
      table := Updated(table, id, changes);
      Fetch(target, refetchFailure);
      r := Done;
    }

    /** `deleteContact`: silent for a read-only view; a failed delete throws;
        otherwise every row with the id goes and the list is refetched. */
    method DeleteContact(role: Option<string>, target: Option<string>, id: string,
                         deleteError: Option<string>, refetchFailure: Option<string>) returns (r: Outcome)
      modifies this
      ensures IsReadOnly(role) ==> r == Done
      ensures !IsReadOnly(role) && deleteError.Some? ==> r == Thrown(deleteError.value)
      ensures IsReadOnly(role) || deleteError.Some? ==>
        table == old(table) && contacts == old(contacts) && loading == old(loading) && error == old(error)
      ensures !IsReadOnly(role) && deleteError.None? ==>
        && r == Done && !loading
        && table == Filter(old(table), (c: Contact) => c.id != id)
        && (forall c :: c in table ==> c.id != id)
        && (!Truthy(target) ==> contacts == old(contacts) && error == old(error))
        && (Truthy(target) && refetchFailure.None? ==> contacts == OfUser(table, target.value) && error.None?)
        && (Truthy(target) && refetchFailure.Some? ==> contacts == old(contacts) && error == refetchFailure)
    {
      if IsReadOnly(role) {
        return Done;
      }
      if deleteError.Some? {
        return Thrown(deleteError.value);
      }
      table := Filter(table, (c: Contact) => c.id != id);
      Fetch(target, refetchFailure);
      r := Done;
    }
  }
}
