/**
 * Whose data a hook works on. Every data hook lower-cases the profile's role
 * (`profile?.role?.toLowerCase()`, with no trimming) and, for a caregiver,
 * works on the linked patient when the link is confirmed; the hooks differ
 * only in what they use for everyone else.
 */
module TargetPatient {
  import opened Wrappers
  import opened JsText

  /** `profile?.role?.toLowerCase()`. */
  function LowerRole(role: Option<string>): (r: Option<string>)
    ensures r.Some? <==> role.Some?
    ensures r.Some? ==> |r.value| == |role.value|
  {
    if role.None? then None else Some(ToLower(role.value))
  }

  /** `role === "caregiver"` on the lower-cased role. */
  predicate IsCaregiver(role: Option<string>) {
    LowerRole(role) == Some("caregiver")
  }

  /** `isLinked && patientId ? patientId : null`. */
  function LinkedPatient(isLinked: bool, patientId: Option<string>): (t: Option<string>)
    ensures t.Some? <==> isLinked && Truthy(patientId)
    ensures t.Some? ==> t == patientId
  {
    if isLinked && Truthy(patientId) then patientId else None
  }

  /** The caregiver's linked patient, or `otherwise` for any other role. */
  function ForRole(role: Option<string>, isLinked: bool, patientId: Option<string>,
                   otherwise: Option<string>): (t: Option<string>)
    ensures IsCaregiver(role) ==> t == LinkedPatient(isLinked, patientId)
    ensures !IsCaregiver(role) ==> t == otherwise
  {
    if IsCaregiver(role) then LinkedPatient(isLinked, patientId) else otherwise
  }

  /** Letter case does not matter to the role test, surrounding spaces do:
      " caregiver" is not a caregiver here. */
  lemma CaregiverRoleSpelling()
    ensures IsCaregiver(Some("Caregiver")) && IsCaregiver(Some("CAREGIVER"))
    ensures !IsCaregiver(Some(" caregiver")) && !IsCaregiver(Some("cuidador"))
  {
    assert ToLower("Caregiver") == "caregiver";
    assert ToLower("CAREGIVER") == "caregiver";
    assert ToLower(" caregiver")[0] == ' ';
    assert ToLower("cuidador")[0] == 'c';
    assert |ToLower("cuidador")| == 8;
  }
}
