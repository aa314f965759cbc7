/** Normalisation of the free-text role stored in a profile (utils/roleUtils.ts). */
module RoleUtils {
  import opened Wrappers
  import opened JsText

  datatype NormalizedRole = Patient | Caregiver | Unknown

  const PatientAliases: seq<string> := ["patient", "usuario", "paciente"]
  const CaregiverAliases: seq<string> := ["caregiver", "cuidador", "familiar"]

  /** `normalizeRole`: an absent or empty role is unknown; otherwise the
      lower-cased, trimmed text is looked up in the two alias lists. */
  function NormalizeRole(role: Option<string>): (r: NormalizedRole)
    ensures role.None? || role.value == "" ==> r == Unknown
    ensures r != Unknown ==> role.Some? && Trim(ToLower(role.value)) != []
    ensures r == Patient <==> role.Some? && role.value != "" && Trim(ToLower(role.value)) in PatientAliases
    ensures r == Caregiver <==>
      role.Some? && role.value != "" && Trim(ToLower(role.value)) !in PatientAliases &&
      Trim(ToLower(role.value)) in CaregiverAliases
    ensures r == Unknown <==>
      role.None? || role.value == "" ||
      (Trim(ToLower(role.value)) !in PatientAliases && Trim(ToLower(role.value)) !in CaregiverAliases)
  {
    if role.None? || role.value == "" then Unknown
    else
      var t := Trim(ToLower(role.value));
      if t in PatientAliases then Patient
      else if t in CaregiverAliases then Caregiver
      else Unknown
  }

  function IsPatientRole(role: Option<string>): (b: bool)
    ensures b <==> NormalizeRole(role) == Patient
  {
    NormalizeRole(role) == Patient
  }

  /** `isCaregiverRole`; never true together with `isPatientRole`. */
  function IsCaregiverRole(role: Option<string>): (b: bool)
    ensures b <==> NormalizeRole(role) == Caregiver
    ensures b ==> !IsPatientRole(role)
  {
    NormalizeRole(role) == Caregiver
  }

  lemma LowerWhitespace(p: string)
    requires AllWhitespace(p)
    ensures ToLower(p) == p
  {
  }

  lemma ToLowerAppend(a: string, b: string)
    ensures ToLower(a + b) == ToLower(a) + ToLower(b)
  {
  }

  /** Surrounding whitespace and letter case do not change the role: two texts
      with the same lower-cased form, padded with any whitespace, normalise alike. */
  lemma NormalizeIgnoresCaseAndPadding(p: string, s: string, t: string, q: string)
    requires AllWhitespace(p) && AllWhitespace(q)
    requires ToLower(s) == ToLower(t)
    ensures NormalizeRole(Some(p + s + q)) == NormalizeRole(Some(t))
  {
    ToLowerAppend(p, s);
    ToLowerAppend(p + s, q);
    LowerWhitespace(p);
    LowerWhitespace(q);
    assert ToLower(p + s + q) == p + ToLower(t) + q;
    TrimIgnoresPadding(p, ToLower(t), q);
    if t == [] {
      assert Trim(ToLower(t)) == [];
    }
  }

  /** The six aliases, written in any letter case, reach their role. */
  lemma AliasesMapToRoles(s: string)
    requires ToLower(s) in PatientAliases || ToLower(s) in CaregiverAliases
    ensures ToLower(s) in PatientAliases ==> NormalizeRole(Some(s)) == Patient
    ensures ToLower(s) in CaregiverAliases ==> NormalizeRole(Some(s)) == Caregiver
  {
    var l := ToLower(s);
    assert l[0] in "pucf" && l[|l| - 1] in "eotrl";
    TrimKeepsLetters(l);
  }

  lemma TrimKeepsLetters(l: string)
    requires l != [] && l[0] in "pucf" && l[|l| - 1] in "eotrl"
    ensures Trim(l) == l
  {
    assert TrimStart(l) == l;
    assert TrimEnd(l) == l;
  }
}
