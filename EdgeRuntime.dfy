/**
 * What the edge functions share: the rows of the tables they read, the
 * `single()` / `maybeSingle()` query ends, the bearer-token handling and the
 * token-to-user lookup of `auth.getUser`. A table is a sequence of rows; a
 * query result is a value the handler receives, never a live connection.
 */
module EdgeRuntime {
  import opened Wrappers
  import opened JsText

  /** A row of `caregiver_links`. */
  datatype CaregiverLink = CaregiverLink(caregiverId: string, patientId: string)

  /** A row of `profiles`; the nullable columns are options. */
  datatype ProfileRow = ProfileRow(id: string, name: Option<string>, email: Option<string>, role: Option<string>)

  /** A JSON body member as the handlers test it: absent (or `null`), a
      string, or any other JSON value. */
  datatype Field = Absent | Text(text: string) | OtherValue

  /** `!raw || typeof raw !== "string"` is false: a non-empty string. */
  predicate IsNonEmptyText(f: Field) {
    f.Text? && f.text != ""
  }

  /** `.single()` and `.maybeSingle()`: the row when exactly one row matched;
      no row and several rows both leave `data` null. */
  function Single<T>(rows: seq<T>): (r: Option<T>)
    ensures r.Some? <==> |rows| == 1
    ensures r.Some? ==> r.value == rows[0] && r.value in rows
  {
    if |rows| == 1 then Some(rows[0]) else None
  }

  /** `caregiver_links` rows with the given `patient_id`. */
  function LinksOfPatient(links: seq<CaregiverLink>, patientId: string): (r: seq<CaregiverLink>)
    ensures forall l :: l in r <==> l in links && l.patientId == patientId
  {
    if links == [] then []
    else (if links[0].patientId == patientId then [links[0]] else []) + LinksOfPatient(links[1..], patientId)
  }

  /** `caregiver_links` rows with the given `caregiver_id`. */
  function LinksOfCaregiver(links: seq<CaregiverLink>, caregiverId: string): (r: seq<CaregiverLink>)
    ensures forall l :: l in r <==> l in links && l.caregiverId == caregiverId
  {
    if links == [] then []
    else (if links[0].caregiverId == caregiverId then [links[0]] else []) + LinksOfCaregiver(links[1..], caregiverId)
  }

  /** `profiles` rows with the given `id`. */
  function ProfilesWithId(profiles: seq<ProfileRow>, id: string): (r: seq<ProfileRow>)
    ensures forall p :: p in r <==> p in profiles && p.id == id
  {
    if profiles == [] then []
    else (if profiles[0].id == id then [profiles[0]] else []) + ProfilesWithId(profiles[1..], id)
  }

  /** `profiles` rows with `.eq("email", email).eq("role", "caregiver")`. */
  function CaregiverProfilesWithEmail(profiles: seq<ProfileRow>, email: string): (r: seq<ProfileRow>)
    ensures forall p :: p in r <==> p in profiles && p.email == Some(email) && p.role == Some("caregiver")
  {
    if profiles == [] then []
    else
      var p := profiles[0];
      (if p.email == Some(email) && p.role == Some("caregiver") then [p] else [])
        + CaregiverProfilesWithEmail(profiles[1..], email)
  }

  /** `authHeader.replace("Bearer ", "")`: the first `Bearer ` is removed,
      wherever it stands. */
  function StripBearer(header: string): string {
    ReplaceFirst(header, "Bearer ", "")
  }

  /** A header of the form `Bearer <token>` yields the token. */
  lemma StripBearerOfBearer(token: string)
    ensures StripBearer("Bearer " + token) == token
  {
    ReplaceFirstOfPrefix("Bearer ", token);
    assert "" + "Bearer " == "Bearer ";
  }

  /** `auth.getUser(token)`: the id of the user the token was issued to, from
      the sessions the authentication service knows. */
  function GetUser(sessions: map<string, string>, token: string): (r: Option<string>)
    ensures r.Some? <==> token in sessions
    ensures r.Some? ==> r.value == sessions[token]
  {
    if token in sessions then Some(sessions[token]) else None
  }
}
