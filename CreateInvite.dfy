/**
 * The `create-caregiver-invite` edge function: a patient names the e-mail of
 * a registered caregiver; earlier pending invites to that address are
 * withdrawn, a six-digit code is drawn, its hash is stored with a
 * fifteen-minute expiry, and the code is mailed to the caregiver.
 */
module CreateInvite {
  import opened Wrappers
  import opened JsText
  import opened EdgeRuntime

  /** How long a code stays valid: fifteen minutes, in milliseconds. */
  const CodeLifetimeMs: int := 15 * 60 * 1000

  /** A row of `caregiver_invites`; times are milliseconds since the epoch. */
  datatype InviteRow = InviteRow(
    id: nat, patientId: string, caregiverEmail: Option<string>, codeHash: string,
    expiresAt: int, createdAt: int, used: bool)

  datatype Rejection =
    | NoAuthorization          // 401
    | EmptyToken               // 401
    | InvalidJwt               // 401
    | EmailRequired            // 400
    | InvalidEmail             // 400
    | CaregiverNotRegistered   // 404
    | SelfLink                 // 400
    | PatientAlreadyLinked     // 400
    | CaregiverAlreadyLinked   // 400
    | InsertFailed             // 500
    | MailFailed               // 500

  function Status(r: Rejection): int {
    match r
    case NoAuthorization => 401
    case EmptyToken => 401
    case InvalidJwt => 401
    case EmailRequired => 400
    case InvalidEmail => 400
    case CaregiverNotRegistered => 404
    case SelfLink => 400
    case PatientAlreadyLinked => 400
    case CaregiverAlreadyLinked => 400
    case InsertFailed => 500
    case MailFailed => 500
  }

  datatype Reply = Sent | Rejected(why: Rejection)

  /** What the handler does to the world, in order. */
  datatype Effect =
    | WithdrawPending(patientId: string, email: string)
    | InsertInvite(patientId: string, email: string, codeHash: string, expiresAt: int)
    | SendCodeMail(to: string, code: string)

  /** `Math.floor(100000 + r * 900000)` for a draw `r` of `Math.random()`: always six digits. */
  function CodeFromDraw(draw: real): (code: int)
    requires 0.0 <= draw < 1.0
    ensures 100000 <= code <= 999999
  {
    (100000.0 + draw * 900000.0).Floor
  }

  /** The code as mailed: its decimal text has exactly six digits. */
  lemma CodeTextIsSixDigits(draw: real)
    requires 0.0 <= draw < 1.0
    ensures var t := IntToString(CodeFromDraw(draw)); |t| == 6 && AllDigits(t)
  {
    var c := CodeFromDraw(draw);
    assert Pow10(5) == 100000 && Pow10(6) == 1000000;
    NatToStringLength(c, 6);
  }

  /** The caller's token: the header without its first `Bearer `, trimmed. */
  function TokenOf(header: string): string {
    Trim(StripBearer(header))
  }

  /** The address as stored and compared: trimmed and lower-cased. */
  function NormalizeEmail(raw: string): (r: string)
    ensures |r| <= |raw|
    ensures r == [] <==> AllWhitespace(raw)
    ensures r == [] || (!IsWhitespace(r[0]) && !IsWhitespace(r[|r| - 1]))
    ensures forall i :: 0 <= i < |r| ==> !('A' <= r[i] <= 'Z')
  {
    var t := Trim(raw);
    assert forall i :: 0 <= i < |t| ==> !('A' <= LowerChar(t[i]) <= 'Z') by {
      forall i | 0 <= i < |t| ensures !('A' <= LowerChar(t[i]) <= 'Z') {
        LowerCharFacts(t[i]);
      }
    }
    assert t != [] ==> !IsWhitespace(LowerChar(t[0])) && !IsWhitespace(LowerChar(t[|t| - 1])) by {
      if t != [] {
        LowerCharFacts(t[0]);
        LowerCharFacts(t[|t| - 1]);
      }
    }
    ToLower(t)
  }

  /** Lower-casing leaves no capital letter and changes no whitespace. */
  lemma LowerCharFacts(c: char)
    ensures !('A' <= LowerChar(c) <= 'Z')
    ensures IsWhitespace(LowerChar(c)) <==> IsWhitespace(c)
  {
  }

  /** The caller, when the header authenticates one: `!authHeader` is also
      true for an empty header. */
  function Caller(authHeader: Option<string>, sessions: map<string, string>): Option<string> {
    if !Truthy(authHeader) || TokenOf(authHeader.value) == "" then None
    else GetUser(sessions, TokenOf(authHeader.value))
  }

  /** The checks before anything is written: a valid address, a registered
      caregiver who is not the patient, and no existing link on either side. */
  predicate ChecksPass(patient: string, email: string, profiles: seq<ProfileRow>, links: seq<CaregiverLink>) {
    var caregiver := Single(CaregiverProfilesWithEmail(profiles, email));
    && IsValidEmail(email)
    && caregiver.Some? && caregiver.value.id != patient
    && Single(LinksOfPatient(links, patient)).None?
    && Single(LinksOfCaregiver(links, caregiver.value.id)).None?
  }

  /** The link checks that follow the address checks, in the order the
      handler makes them: the first that fails names the rejection. */
  function LinkCheck(patient: string, email: string, profiles: seq<ProfileRow>, links: seq<CaregiverLink>): (r: Option<Rejection>)
    ensures Single(CaregiverProfilesWithEmail(profiles, email)).None? ==> r == Some(CaregiverNotRegistered)
    ensures var c := Single(CaregiverProfilesWithEmail(profiles, email));
      c.Some? && c.value.id == patient ==> r == Some(SelfLink)
    ensures var c := Single(CaregiverProfilesWithEmail(profiles, email));
      c.Some? && c.value.id != patient && Single(LinksOfPatient(links, patient)).Some?
      ==> r == Some(PatientAlreadyLinked)
    ensures var c := Single(CaregiverProfilesWithEmail(profiles, email));
      c.Some? && c.value.id != patient && Single(LinksOfPatient(links, patient)).None?
      && Single(LinksOfCaregiver(links, c.value.id)).Some?
      ==> r == Some(CaregiverAlreadyLinked)
    ensures IsValidEmail(email) ==> (r.None? <==> ChecksPass(patient, email, profiles, links))
  {
    var caregiver := Single(CaregiverProfilesWithEmail(profiles, email));
    if caregiver.None? then Some(CaregiverNotRegistered)
    else if caregiver.value.id == patient then Some(SelfLink)
    else if Single(LinksOfPatient(links, patient)).Some? then Some(PatientAlreadyLinked)
    else if Single(LinksOfCaregiver(links, caregiver.value.id)).Some? then Some(CaregiverAlreadyLinked)
    else None
  }

  /**
   * One request. `caregiverEmail` is the body member (`Absent` when the body
   * cannot be read); `draw` is the `Math.random()` draw; `hash` is SHA-256 in
   * hexadecimal; `insertFailed` / `mailFailed` are the insert's and the mail
   * service's failures; `now` is the request time.
   */
  method Handle(
    authHeader: Option<string>, sessions: map<string, string>, caregiverEmail: Field,
    profiles: seq<ProfileRow>, links: seq<CaregiverLink>,
    draw: real, hash: string -> string, insertFailed: bool, mailFailed: bool, now: int)
    returns (reply: Reply, effects: seq<Effect>)
    requires 0.0 <= draw < 1.0
    // the rejections, in the order the handler tests them; none writes anything
    ensures !Truthy(authHeader) ==> reply == Rejected(NoAuthorization) && effects == []
    ensures Truthy(authHeader) && TokenOf(authHeader.value) == "" ==> reply == Rejected(EmptyToken) && effects == []
    ensures (Truthy(authHeader) && TokenOf(authHeader.value) != ""
             && GetUser(sessions, TokenOf(authHeader.value)).None?) ==> reply == Rejected(InvalidJwt) && effects == []
    ensures Caller(authHeader, sessions).Some? && !IsNonEmptyText(caregiverEmail)
      ==> reply == Rejected(EmailRequired) && effects == []
    ensures (Caller(authHeader, sessions).Some? && IsNonEmptyText(caregiverEmail)
             && !IsValidEmail(NormalizeEmail(caregiverEmail.text))) ==> reply == Rejected(InvalidEmail) && effects == []
    ensures (Caller(authHeader, sessions).Some? && IsNonEmptyText(caregiverEmail)
             && IsValidEmail(NormalizeEmail(caregiverEmail.text))) ==>
      var patient := Caller(authHeader, sessions).value;
      var email := NormalizeEmail(caregiverEmail.text);
      var code := IntToString(CodeFromDraw(draw));
      && (LinkCheck(patient, email, profiles, links).Some? ==>
            reply == Rejected(LinkCheck(patient, email, profiles, links).value) && effects == [])
      // every check passed: the pending invites are withdrawn first, then the
      // new invite is stored, then the code is mailed
      && (LinkCheck(patient, email, profiles, links).None? && insertFailed ==>
            reply == Rejected(InsertFailed) && effects == [WithdrawPending(patient, email)])
      && (LinkCheck(patient, email, profiles, links).None? && !insertFailed ==>
            && reply == (if mailFailed then Rejected(MailFailed) else Sent)
            && effects == [WithdrawPending(patient, email),
                           InsertInvite(patient, email, hash(code), now + CodeLifetimeMs),
                           SendCodeMail(email, code)])
    // nothing is written unless every check up to the duplicate-link tests passed
    ensures effects != [] ==>
      && Caller(authHeader, sessions).Some? && IsNonEmptyText(caregiverEmail)
      && ChecksPass(Caller(authHeader, sessions).value, NormalizeEmail(caregiverEmail.text), profiles, links)
    ensures reply == Sent || reply == Rejected(InsertFailed) || reply == Rejected(MailFailed) <==> effects != []
    ensures reply == Sent ==> !mailFailed && !insertFailed
  {
    effects := [];
    if !Truthy(authHeader) {
      return Rejected(NoAuthorization), [];
    }
    var token := TokenOf(authHeader.value);
    if token == "" {
      return Rejected(EmptyToken), [];
    }
    var user := GetUser(sessions, token);
    if user.None? {
      return Rejected(InvalidJwt), [];
    }
    var patient := user.value;

    if !IsNonEmptyText(caregiverEmail) {
      return Rejected(EmailRequired), [];
    }
    var email := NormalizeEmail(caregiverEmail.text);
    if !IsValidEmail(email) {
      return Rejected(InvalidEmail), [];
    }

    var caregiverProfile := Single(CaregiverProfilesWithEmail(profiles, email));
    if caregiverProfile.None? {
      return Rejected(CaregiverNotRegistered), [];
    }
    if caregiverProfile.value.id == patient {
      return Rejected(SelfLink), [];
    }
    if Single(LinksOfPatient(links, patient)).Some? {
      return Rejected(PatientAlreadyLinked), [];
    }
    if Single(LinksOfCaregiver(links, caregiverProfile.value.id)).Some? {
      return Rejected(CaregiverAlreadyLinked), [];
    }
    assert ChecksPass(patient, email, profiles, links);

    var code := IntToString(CodeFromDraw(draw));
    var codeHash := hash(code);
    var expiresAt := now + CodeLifetimeMs;
    if insertFailed {
      return Rejected(InsertFailed), [WithdrawPending(patient, email)];
    }
    effects := [WithdrawPending(patient, email), InsertInvite(patient, email, codeHash, expiresAt),
                SendCodeMail(email, code)];
    if mailFailed {
      return Rejected(MailFailed), effects;
    }
    reply := Sent;
  }

  /** Marks every unused invite from `patientId` to `email` as used. */
  function Withdraw(invites: seq<InviteRow>, patientId: string, email: string): (r: seq<InviteRow>)
    ensures |r| == |invites|
    ensures forall i :: 0 <= i < |r| ==>
      r[i] == (if invites[i].patientId == patientId && invites[i].caregiverEmail == Some(email)
               then invites[i].(used := true) else invites[i])
  {
    if invites == [] then []
    else
      var x := invites[0];
      [if x.patientId == patientId && x.caregiverEmail == Some(email) then x.(used := true) else x]
        + Withdraw(invites[1..], patientId, email)
  }

  /** The `caregiver_invites` table after the handler's effects; the new row
      gets id `newId` and creation time `now`. */
  function ApplyEffects(invites: seq<InviteRow>, effects: seq<Effect>, newId: nat, now: int): seq<InviteRow>
    decreases |effects|
  {
    if effects == [] then invites
    else
      var next := match effects[0]
        case WithdrawPending(p, e) => Withdraw(invites, p, e)
        case InsertInvite(p, e, h, x) => invites + [InviteRow(newId, p, Some(e), h, x, now, false)]
        case SendCodeMail(_, _) => invites;
      ApplyEffects(next, effects[1..], newId, now)
  }
}
