/**
 * The `send-sos` edge function: the patient's emergency message is mailed to
 * their linked caregiver and to every trusted contact, each address once.
 */
module SendSos {
  import opened Wrappers
  import opened JsText
  import opened EdgeRuntime

  const DefaultPatientName: string := "Un paciente"
  const DefaultMessage: string := "Necesito ayuda urgente"
  /** The subject line starts with the siren emoji. */
  const SubjectPrefix: string := "\U{1F6A8} SOS Emergencia: "

  /** A row of `trusted_contacts`. */
  datatype TrustedContactRow = TrustedContactRow(patientId: string, email: string)

  /** The e-mail handed to the mail service; the HTML layout and the
      formatted local date are not modelled. */
  datatype SosEmail = SosEmail(to: seq<string>, subject: string, patientName: string, message: string, location: Option<string>)

  datatype Reply =
    | Sent(recipients: nat)   // 200
    | Unauthorized            // 401
    | NoRecipients            // 400
    | SendFailed              // 500

  function Status(r: Reply): int {
    match r
    case Sent(_) => 200
    case Unauthorized => 401
    case NoRecipients => 400
    case SendFailed => 500
  }

  /** The addresses of the patient's trusted contacts, in table order. */
  function ContactEmails(contacts: seq<TrustedContactRow>, patientId: string): (r: seq<string>)
    ensures forall e :: e in r <==> exists c :: c in contacts && c.patientId == patientId && c.email == e
  {
    if contacts == [] then []
    else
      var rest := ContactEmails(contacts[1..], patientId);
      assert forall c :: c in contacts ==> c == contacts[0] || c in contacts[1..];
      (if contacts[0].patientId == patientId then [contacts[0].email] else []) + rest
  }

  /** No address occurs twice. */
  predicate NoDuplicates(s: seq<string>) {
    forall i, j :: 0 <= i < j < |s| ==> s[i] != s[j]
  }

  /** `Array.from(new Set(xs))`: each value once, in order of first occurrence. */
  function Dedup(xs: seq<string>): seq<string>
    decreases |xs|
  {
    if xs == [] then []
    else
      var prefix := Dedup(xs[..|xs| - 1]);
      if xs[|xs| - 1] in prefix then prefix else prefix + [xs[|xs| - 1]]
  }

  lemma {:induction false} DedupProperties(xs: seq<string>)
    ensures NoDuplicates(Dedup(xs))
    ensures forall e :: e in Dedup(xs) <==> e in xs
    ensures |Dedup(xs)| <= |xs|
    decreases |xs|
  {
    if xs != [] {
      var init := xs[..|xs| - 1];
      DedupProperties(init);
      assert xs == init + [xs[|xs| - 1]];
    }
  }

  /** The first occurrence decides the position: the earliest value keeps the first place. */
  lemma {:induction false} DedupKeepsFirst(xs: seq<string>)
    requires xs != []
    ensures Dedup(xs)[0] == xs[0]
    decreases |xs|
  {
    DedupProperties(xs);
    if |xs| > 1 {
      var init := xs[..|xs| - 1];
      DedupKeepsFirst(init);
      DedupProperties(init);
      assert init[0] == xs[0];
    }
  }

  /** The caregiver's address when it is non-empty, then the contacts' addresses. */
  function Candidates(caregiverEmail: Option<string>, contactEmails: seq<string>): seq<string> {
    (if Truthy(caregiverEmail) then [caregiverEmail.value] else []) + contactEmails
  }

  /**
   * The recipient list: the caregiver's address when it is non-empty, then
   * the contacts' addresses, gathered into a set that keeps insertion order.
   */
  method CollectRecipients(caregiverEmail: Option<string>, contactEmails: seq<string>) returns (recipients: seq<string>)
    ensures recipients == Dedup(Candidates(caregiverEmail, contactEmails))
  {
    var all := Candidates(caregiverEmail, contactEmails);
    var seen: set<string> := {};
    recipients := [];
    var k := 0;
    while k < |all|
      invariant 0 <= k <= |all|
      invariant recipients == Dedup(all[..k])
      invariant seen == set e | e in recipients
    {
      assert all[..k + 1][..k] == all[..k];
      if all[k] !in seen {
        recipients := recipients + [all[k]];
        seen := seen + {all[k]};
      }
      k := k + 1;
    }
    assert all[..|all|] == all;
  }

  /** The recipients of a request: every address is the caregiver's or a
      trusted contact's, each appears once, and none of them is left out. */
  lemma RecipientsAreExactlyTheContacts(caregiverEmail: Option<string>, contactEmails: seq<string>, e: string)
    ensures var r := Dedup(Candidates(caregiverEmail, contactEmails));
      && NoDuplicates(r)
      && (e in r <==> (Truthy(caregiverEmail) && e == caregiverEmail.value) || e in contactEmails)
  {
    DedupProperties(Candidates(caregiverEmail, contactEmails));
  }

  /**
   * One request. `bodyLocation` / `bodyMessage` are the body members (both
   * absent when the body cannot be read); `sendFailed` is the mail service's
   * failure. The caregiver's address comes from the caregiver's profile.
   */
  method Handle(
    authHeader: Option<string>, sessions: map<string, string>,
    bodyLocation: Option<string>, bodyMessage: Option<string>,
    profiles: seq<ProfileRow>, links: seq<CaregiverLink>, contacts: seq<TrustedContactRow>,
    sendFailed: bool)
    returns (reply: Reply, email: Option<SosEmail>)
    ensures (authHeader.None? || Trim(StripBearer(authHeader.value)) == "") ==> reply == Unauthorized && email.None?
    ensures (authHeader.Some? && Trim(StripBearer(authHeader.value)) != ""
             && GetUser(sessions, Trim(StripBearer(authHeader.value))).None?) ==> reply == Unauthorized && email.None?
    // an authenticated request mails exactly the collected recipients, or is
    // refused when there are none
    ensures (authHeader.Some? && GetUser(sessions, Trim(StripBearer(authHeader.value))).Some?
             && Trim(StripBearer(authHeader.value)) != "") ==>
      var patient := GetUser(sessions, Trim(StripBearer(authHeader.value))).value;
      var recipients := Dedup(Candidates(CaregiverAddress(profiles, links, patient), ContactEmails(contacts, patient)));
      && (recipients == [] ==> reply == NoRecipients && email.None?)
      && (recipients != [] ==>
            && email.Some? && email.value.to == recipients
            && reply == (if sendFailed then SendFailed else Sent(|recipients|)))
    // the caregiver, when they have an address, is the first recipient
    ensures email.Some? && Truthy(CaregiverAddress(profiles, links, GetUser(sessions, Trim(StripBearer(authHeader.value))).value))
      ==> email.value.to[0] == CaregiverAddress(profiles, links, GetUser(sessions, Trim(StripBearer(authHeader.value))).value).value
    ensures reply == NoRecipients ==> email.None?
    // the request is refused only when the patient has nobody to warn
    ensures reply == NoRecipients ==>
      var patient := GetUser(sessions, Trim(StripBearer(authHeader.value))).value;
      !Truthy(CaregiverAddress(profiles, links, patient)) && ContactEmails(contacts, patient) == []
    ensures reply.Sent? || reply == SendFailed <==> email.Some?
    ensures email.Some? ==>
      var patient := GetUser(sessions, Trim(StripBearer(authHeader.value))).value;
      var m := email.value;
      && authHeader.Some?
      && m.to != [] && NoDuplicates(m.to)
      // every trusted contact of the patient receives the message
      && (forall c :: c in contacts && c.patientId == patient ==> c.email in m.to)
      && (forall e :: e in m.to ==> e in ContactEmails(contacts, patient) || CaregiverAddress(profiles, links, patient) == Some(e))
      && m.patientName == PatientName(profiles, patient)
      && m.subject == SubjectPrefix + m.patientName
      && m.message == (if Truthy(bodyMessage) then bodyMessage.value else DefaultMessage)
      && m.location == (if Truthy(bodyLocation) then bodyLocation else None)
    ensures reply.Sent? ==> !sendFailed && reply.recipients == |email.value.to|
  {
    email := None;
    if authHeader.None? {
      return Unauthorized, None;
    }
    var token := Trim(StripBearer(authHeader.value));
    if token == "" {
      return Unauthorized, None;
    }
    var user := GetUser(sessions, token);
    if user.None? {
      return Unauthorized, None;
    }
    var patientId := user.value;

    var patientName := PatientName(profiles, patientId);
    var caregiverEmail := CaregiverAddress(profiles, links, patientId);
    var contactEmails := ContactEmails(contacts, patientId);
    var recipients := CollectRecipients(caregiverEmail, contactEmails);
    RecipientsProperties(caregiverEmail, contactEmails, contacts, patientId);
    if |recipients| == 0 {
      NobodyToWarn(caregiverEmail, contactEmails);
      return NoRecipients, None;
    }

    if Truthy(caregiverEmail) {
      DedupKeepsFirst(Candidates(caregiverEmail, contactEmails));
    }
    var message := if Truthy(bodyMessage) then bodyMessage.value else DefaultMessage;
    var location := if Truthy(bodyLocation) then bodyLocation else None;
    email := Some(SosEmail(recipients, SubjectPrefix + patientName, patientName, message, location));
    if sendFailed {
      return SendFailed, email;
    }
    reply := Sent(|recipients|);
  }

  /** An empty recipient list means no caregiver address and no contacts. */
  lemma NobodyToWarn(caregiverEmail: Option<string>, contactEmails: seq<string>)
    requires Dedup(Candidates(caregiverEmail, contactEmails)) == []
    ensures !Truthy(caregiverEmail) && contactEmails == []
  {
    var all := Candidates(caregiverEmail, contactEmails);
    DedupProperties(all);
  }

  lemma RecipientsProperties(caregiverEmail: Option<string>, contactEmails: seq<string>,
                             contacts: seq<TrustedContactRow>, patientId: string)
    requires contactEmails == ContactEmails(contacts, patientId)
    ensures var r := Dedup(Candidates(caregiverEmail, contactEmails));
      && NoDuplicates(r)
      && (forall c :: c in contacts && c.patientId == patientId ==> c.email in r)
      && (forall e :: e in r ==> e in contactEmails || caregiverEmail == Some(e))
  {
    var all := Candidates(caregiverEmail, contactEmails);
    DedupProperties(all);
    forall c | c in contacts && c.patientId == patientId ensures c.email in Dedup(all) {
      assert c.email in contactEmails;
      assert c.email in all;
    }
  }

  /** `patientProfile?.name || "Un paciente"`. */
  function PatientName(profiles: seq<ProfileRow>, patientId: string): (r: string)
    ensures r != ""
  {
    var p := Single(ProfilesWithId(profiles, patientId));
    if p.Some? && Truthy(p.value.name) then p.value.name.value else DefaultPatientName
  }

  /** The linked caregiver's address, through the link and the caregiver's profile. */
  function CaregiverAddress(profiles: seq<ProfileRow>, links: seq<CaregiverLink>, patientId: string): Option<string> {
    var link := Single(LinksOfPatient(links, patientId));
    if link.Some? && link.value.caregiverId != "" then
      var p := Single(ProfilesWithId(profiles, link.value.caregiverId));
      if p.Some? then p.value.email else None
    else None
  }
}
