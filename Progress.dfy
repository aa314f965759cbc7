/**
 * The progress screen's decisions (components/screens/ProgressScreen.tsx):
 * the game category read from the URL, and which dashboard is shown to whom.
 */
module Progress {
  import opened Wrappers
  import opened JsText
  import RoleUtils

  datatype GameCategory = All | Memory | Attention | Calculation

  /** The URL spelling of each category. */
  function CategoryName(c: GameCategory): string {
    match c
    case All => "all"
    case Memory => "memory"
    case Attention => "attention"
    case Calculation => "calculation"
  }

  /**
   * `initialCategory` from the `category` query parameter: an absent or empty
   * parameter is "all"; otherwise its lower-cased text selects the category
   * of that name, and any other text is "all".
   */
  function InitialCategory(param: Option<string>): (c: GameCategory)
    ensures c != All ==> param.Some? && ToLower(param.value) == CategoryName(c)
    ensures param.Some? && ToLower(param.value) in ["memory", "attention", "calculation"] ==>
      CategoryName(c) == ToLower(param.value)
  {
    var text := if param.None? || param.value == "" then "all" else param.value;
    var lowered := ToLower(text);
    assert param.Some? && param.value != "" ==> lowered == ToLower(param.value);
    if lowered == "memory" then Memory
    else if lowered == "attention" then Attention
    else if lowered == "calculation" then Calculation
    else All
  }

  /** Each category's own name, in any letter case, selects it. */
  lemma CategoryNameRoundTrip(c: GameCategory, s: string)
    requires ToLower(s) == CategoryName(c)
    ensures InitialCategory(Some(s)) == c
  {
    if s == "" {
      assert ToLower(s) == "";
    }
  }

  /** The short spelling "calc" is not recognised and shows every category. */
  lemma ShortCalculationIsAll()
    ensures InitialCategory(Some("calc")) == All
  {
    assert |ToLower("calc")| == 4;
  }

  /** What `renderDashboard` shows. */
  datatype Dashboard =
    | Loading
    | LinkPrompt
    | PatientDashboard(category: GameCategory, patientId: Option<string>)

  /**
   * `renderDashboard`: a spinner while the profile or the link loads; a
   * caregiver without a linked patient (or with an empty patient id, which
   * `!patientId` also rejects) is asked to link one; a linked
   * caregiver sees the patient dashboard of that patient; everyone else sees
   * their own (no patient id given).
   */
  function RenderDashboard(profileLoading: bool, linkLoading: bool, role: Option<string>,
                           isLinked: bool, patientId: Option<string>, category: GameCategory): (d: Dashboard)
    ensures profileLoading || linkLoading <==> d == Loading
    ensures d == LinkPrompt <==>
      !profileLoading && !linkLoading && RoleUtils.IsCaregiverRole(role) && (!isLinked || !Truthy(patientId))
    ensures d.PatientDashboard? ==> d.category == category
    ensures d.PatientDashboard? && d.patientId.Some? <==>
      !profileLoading && !linkLoading && RoleUtils.IsCaregiverRole(role) && isLinked && Truthy(patientId)
    ensures d.PatientDashboard? && d.patientId.Some? ==> d.patientId == patientId && d.patientId.value != ""
  {
    if profileLoading || linkLoading then Loading
    else if RoleUtils.IsCaregiverRole(role) then
      if !isLinked || !Truthy(patientId) then LinkPrompt else PatientDashboard(category, patientId)
    else PatientDashboard(category, None)
  }

  /** A patient, or anyone whose role is not a caregiver's, never sees another person's statistics. */
  lemma NonCaregiverSeesOwnDashboard(role: Option<string>, isLinked: bool, patientId: Option<string>, category: GameCategory)
    requires !RoleUtils.IsCaregiverRole(role)
    ensures RenderDashboard(false, false, role, isLinked, patientId, category) == PatientDashboard(category, None)
  {
  }
}
