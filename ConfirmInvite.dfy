/**
 * The `confirm-caregiver-invite` edge function: the patient enters the
 * six-digit code; the newest unused, unexpired invite of theirs with that
 * code's hash names the caregiver, who is linked to the patient, and the
 * invite is marked used.
 */
module ConfirmInvite {
  import opened Wrappers
  import opened JsText
  import opened EdgeRuntime
  import Invites = CreateInvite

  datatype Rejection =
    | NoAuthorization          // 401
    | EmptyToken               // 401
    | InvalidJwt               // 401
    | CodeRequired             // 400
    | NotSixDigits             // 400
    | PatientAlreadyLinked     // 400
    | InvalidOrExpired         // 400
    | CaregiverNotFound        // 404
    | CaregiverAlreadyLinked   // 400
    | LinkInsertFailed         // 500

  function Status(r: Rejection): int {
    match r
    case NoAuthorization => 401
    case EmptyToken => 401
    case InvalidJwt => 401
    case CodeRequired => 400
    case NotSixDigits => 400
    case PatientAlreadyLinked => 400
    case InvalidOrExpired => 400
    case CaregiverNotFound => 404
    case CaregiverAlreadyLinked => 400
    case LinkInsertFailed => 500
  }

  datatype Reply = Linked | Rejected(why: Rejection)

  datatype Effect = InsertLink(link: CaregiverLink) | MarkUsed(inviteId: nat)

  /** `/^\d{6}$/`: exactly six ASCII digits. */
  predicate IsSixDigitCode(code: string) {
    |code| == 6 && AllDigits(code)
  }

  /** Every code the invite function mails passes the format check here. */
  lemma GeneratedCodeIsAccepted(draw: real)
    requires 0.0 <= draw < 1.0
    ensures IsSixDigitCode(Trim(IntToString(Invites.CodeFromDraw(draw))))
  {
    var t := IntToString(Invites.CodeFromDraw(draw));
    Invites.CodeTextIsSixDigits(draw);
    TrimOfUnpadded(t);
  }

  /** The filters of the invite query: the caller's, with this hash, unused and unexpired. */
  predicate Eligible(x: Invites.InviteRow, patientId: string, codeHash: string, now: int) {
    x.patientId == patientId && x.codeHash == codeHash && !x.used && x.expiresAt > now
  }

  /** `order("created_at", desc).limit(1)` over the eligible invites: one with
      the latest creation time, and none exactly when no invite is eligible. */
  function SelectInvite(invites: seq<Invites.InviteRow>, patientId: string, codeHash: string, now: int): (r: Option<Invites.InviteRow>)
    ensures r.None? <==> forall x :: x in invites ==> !Eligible(x, patientId, codeHash, now)
    ensures r.Some? ==> r.value in invites && Eligible(r.value, patientId, codeHash, now)
    ensures r.Some? ==> forall x :: x in invites && Eligible(x, patientId, codeHash, now) ==> x.createdAt <= r.value.createdAt
  {
    if invites == [] then None
    else
      var rest := SelectInvite(invites[1..], patientId, codeHash, now);
      var head := invites[0];
      assert forall x :: x in invites ==> x == head || x in invites[1..];
      if Eligible(head, patientId, codeHash, now) && (rest.None? || rest.value.createdAt <= head.createdAt)
      then Some(head)
      else rest
  }

  /** The caller, when the header authenticates one. */
  function Caller(authHeader: Option<string>, sessions: map<string, string>): Option<string> {
    Invites.Caller(authHeader, sessions)
  }

  /** The caregiver an invite names: the profile with role caregiver and the invite's normalised address. */
  function InvitedCaregiver(profiles: seq<ProfileRow>, invite: Invites.InviteRow): Option<ProfileRow> {
    Single(CaregiverProfilesWithEmail(profiles, Invites.NormalizeEmail(invite.caregiverEmail.GetOr(""))))
  }

  /**
   * One request. `code` is the body member (`Absent` when the body cannot be
   * read); `hash` is SHA-256 in hexadecimal; `linkInsertFailed` is the link
   * insert's failure; `now` is the request time.
   */
  method Handle(
    authHeader: Option<string>, sessions: map<string, string>, code: Field, hash: string -> string,
    links: seq<CaregiverLink>, invites: seq<Invites.InviteRow>, profiles: seq<ProfileRow>,
    linkInsertFailed: bool, now: int)
    returns (reply: Reply, effects: seq<Effect>)
    // the rejections, in the order the handler tests them
    ensures !Truthy(authHeader) ==> reply == Rejected(NoAuthorization)
    ensures Truthy(authHeader) && Invites.TokenOf(authHeader.value) == "" ==> reply == Rejected(EmptyToken)
    ensures (Truthy(authHeader) && Invites.TokenOf(authHeader.value) != ""
             && GetUser(sessions, Invites.TokenOf(authHeader.value)).None?) ==> reply == Rejected(InvalidJwt)
    ensures Caller(authHeader, sessions).Some? && !IsNonEmptyText(code) ==> reply == Rejected(CodeRequired)
    ensures Caller(authHeader, sessions).Some? && IsNonEmptyText(code) && !IsSixDigitCode(Trim(code.text))
      ==> reply == Rejected(NotSixDigits)
    ensures Caller(authHeader, sessions).Some? && IsNonEmptyText(code) && IsSixDigitCode(Trim(code.text)) ==>
      var patient := Caller(authHeader, sessions).value;
      var invite := SelectInvite(invites, patient, hash(Trim(code.text)), now);
      // a patient who already has a caregiver is refused before any invite is looked at
      && (Single(LinksOfPatient(links, patient)).Some? ==> reply == Rejected(PatientAlreadyLinked))
      && (Single(LinksOfPatient(links, patient)).None? ==>
            && (invite.None? ==> reply == Rejected(InvalidOrExpired))
            && (invite.Some? && InvitedCaregiver(profiles, invite.value).None? ==> reply == Rejected(CaregiverNotFound))
            && (invite.Some? && InvitedCaregiver(profiles, invite.value).Some? ==>
                  var caregiver := InvitedCaregiver(profiles, invite.value).value;
                  && (Single(LinksOfCaregiver(links, caregiver.id)).Some? ==> reply == Rejected(CaregiverAlreadyLinked))
                  && (Single(LinksOfCaregiver(links, caregiver.id)).None? ==>
                        reply == (if linkInsertFailed then Rejected(LinkInsertFailed) else Linked))))
    ensures reply != Linked ==> effects == []
    // on success the caregiver the invite names is linked, then the invite is marked used
    ensures reply == Linked ==>
      var patient := Caller(authHeader, sessions).value;
      var invite := SelectInvite(invites, patient, hash(Trim(code.text)), now);
      && IsNonEmptyText(code) && IsSixDigitCode(Trim(code.text))
      && Single(LinksOfPatient(links, patient)).None?
      && invite.Some? && InvitedCaregiver(profiles, invite.value).Some?
      && var caregiver := InvitedCaregiver(profiles, invite.value).value;
      && Single(LinksOfCaregiver(links, caregiver.id)).None?
      && !linkInsertFailed
      && effects == [InsertLink(CaregiverLink(caregiver.id, patient)), MarkUsed(invite.value.id)]
  {
    effects := [];
    if !Truthy(authHeader) {
      return Rejected(NoAuthorization), [];
    }
    var token := Invites.TokenOf(authHeader.value);
    if token == "" {
      return Rejected(EmptyToken), [];
    }
    var user := GetUser(sessions, token);
    if user.None? {
      return Rejected(InvalidJwt), [];
    }
    var patient := user.value;

    if !IsNonEmptyText(code) {
      return Rejected(CodeRequired), [];
    }
    var entered := Trim(code.text);
    if !IsSixDigitCode(entered) {
      return Rejected(NotSixDigits), [];
    }
    var codeHash := hash(entered);

    if Single(LinksOfPatient(links, patient)).Some? {
      return Rejected(PatientAlreadyLinked), [];
    }
    var invite := SelectInvite(invites, patient, codeHash, now);
    if invite.None? {
      return Rejected(InvalidOrExpired), [];
    }
    var caregiverProfile := InvitedCaregiver(profiles, invite.value);
    if caregiverProfile.None? {
      return Rejected(CaregiverNotFound), [];
    }
    if Single(LinksOfCaregiver(links, caregiverProfile.value.id)).Some? {
      return Rejected(CaregiverAlreadyLinked), [];
    }
    if linkInsertFailed {
      return Rejected(LinkInsertFailed), [];
    }
    effects := [InsertLink(CaregiverLink(caregiverProfile.value.id, patient)), MarkUsed(invite.value.id)];
    reply := Linked;
  }

  lemma {:induction false} LinksOfPatientAppend(links: seq<CaregiverLink>, extra: seq<CaregiverLink>, p: string)
    ensures LinksOfPatient(links + extra, p) == LinksOfPatient(links, p) + LinksOfPatient(extra, p)
    decreases |links|
  {
    if links == [] {
      assert links + extra == extra;
    } else {
      assert (links + extra)[1..] == links[1..] + extra;
      LinksOfPatientAppend(links[1..], extra, p);
    }
  }

  /** Once a patient without caregiver is linked, a second confirmation is
      refused: the patient now has exactly one link. */
  lemma SecondConfirmationRefused(links: seq<CaregiverLink>, caregiverId: string, patientId: string)
    requires LinksOfPatient(links, patientId) == []
    ensures Single(LinksOfPatient(links + [CaregiverLink(caregiverId, patientId)], patientId)).Some?
  {
    LinksOfPatientAppend(links, [CaregiverLink(caregiverId, patientId)], patientId);
    assert LinksOfPatient([CaregiverLink(caregiverId, patientId)], patientId) == [CaregiverLink(caregiverId, patientId)];
  }

  lemma {:induction false} WithdrawKeepsOtherAddresses(invites: seq<Invites.InviteRow>, p: string, e: string, x: Invites.InviteRow)
    requires x in invites && (x.patientId != p || x.caregiverEmail != Some(e))
    ensures x in Invites.Withdraw(invites, p, e)
  {
    var r := Invites.Withdraw(invites, p, e);
    var i :| 0 <= i < |invites| && invites[i] == x;
    assert r[i] == x;
  }

  /**
   * The round trip of the two functions: after a successful invitation the
   * mailed code, entered before it expires, selects the new invite, provided
   * every older invite was created before it.
   */
  lemma MailedCodeSelectsNewInvite(
    invites: seq<Invites.InviteRow>, patient: string, email: string, draw: real, hash: string -> string,
    newId: nat, created: int, now: int)
    requires 0.0 <= draw < 1.0
    requires forall x :: x in invites ==> x.createdAt < created
    requires created <= now < created + Invites.CodeLifetimeMs
    ensures var code := IntToString(Invites.CodeFromDraw(draw));
      var effects := [Invites.WithdrawPending(patient, email), Invites.InsertInvite(patient, email, hash(code), created + Invites.CodeLifetimeMs),
                      Invites.SendCodeMail(email, code)];
      var table := Invites.ApplyEffects(invites, effects, newId, created);
      && IsSixDigitCode(Trim(code))
      && SelectInvite(table, patient, hash(Trim(code)), now)
         == Some(Invites.InviteRow(newId, patient, Some(email), hash(code), created + Invites.CodeLifetimeMs, created, false))
  {
    var code := IntToString(Invites.CodeFromDraw(draw));
    GeneratedCodeIsAccepted(draw);
    TrimOfUnpadded(code);
    Invites.CodeTextIsSixDigits(draw);
    var w := Invites.Withdraw(invites, patient, email);
    var newRow := Invites.InviteRow(newId, patient, Some(email), hash(code), created + Invites.CodeLifetimeMs, created, false);
    var effects := [Invites.WithdrawPending(patient, email), Invites.InsertInvite(patient, email, hash(code), created + Invites.CodeLifetimeMs),
                    Invites.SendCodeMail(email, code)];
    var e1 := effects[1..];
    var e2 := e1[1..];
    assert e2 == [Invites.SendCodeMail(email, code)];
    assert Invites.ApplyEffects(w + [newRow], e2[1..], newId, created) == w + [newRow];
    assert Invites.ApplyEffects(w + [newRow], e2, newId, created) == w + [newRow];
    assert Invites.ApplyEffects(w, e1, newId, created) == w + [newRow];
    assert Invites.ApplyEffects(invites, effects, newId, created) == w + [newRow];
    var table := w + [newRow];
    forall x | x in w ensures x.createdAt < created {
      var i :| 0 <= i < |w| && w[i] == x;
    }
    SelectNewest(table, newRow, patient, hash(code), now);
  }

  /** A unique newest eligible row is the one selected. */
  lemma SelectNewest(table: seq<Invites.InviteRow>, newRow: Invites.InviteRow, patient: string, h: string, now: int)
    requires newRow in table && Eligible(newRow, patient, h, now)
    requires forall x :: x in table && x != newRow ==> x.createdAt < newRow.createdAt
    ensures SelectInvite(table, patient, h, now) == Some(newRow)
  {
  }
}
