/**
 * The `geofence-alert` edge function: the device reports an ENTER/EXIT
 * event; the event is stored for the caller's caregiver when the caller is a
 * linked patient, or, when the caller is a caregiver naming one of their own
 * linked patients, for that patient.
 */
module GeofenceAlert {
  import opened Wrappers
  import opened EdgeRuntime
  import opened JsText

  /** The request body members the handler reads. */
  datatype AlertBody = AlertBody(eventType: Option<string>, lat: Option<real>, lng: Option<real>, patientId: Option<string>)

  /** A row inserted into `geofence_events`. */
  datatype GeofenceEventRow = GeofenceEventRow(
    patientId: string, caregiverId: string, eventType: string,
    lat: Option<real>, lng: Option<real>, triggeredAt: int)

  datatype Reply =
    | Logged                 // 200
    | MissingAuthorization   // 401
    | Unauthorized           // 401
    | MissingEventType       // 400
    | NoCaregiver            // 404
    | Failed                 // 400, the catch block: unreadable body or failed insert

  function Status(r: Reply): int {
    match r
    case Logged => 200
    case MissingAuthorization => 401
    case Unauthorized => 401
    case MissingEventType => 400
    case NoCaregiver => 404
    case Failed => 400
  }

  /** The link the caller has as a patient (`maybeSingle` on `patient_id`). */
  function LinkAsPatient(links: seq<CaregiverLink>, user: string): Option<CaregiverLink> {
    Single(LinksOfPatient(links, user))
  }

  /** The link between the caller as caregiver and the patient the body names. */
  function LinkAsCaregiver(links: seq<CaregiverLink>, user: string, patientId: string): (r: Option<CaregiverLink>)
    ensures r.Some? ==> r.value in links && r.value.caregiverId == user && r.value.patientId == patientId
  {
    var rows := LinksOfCaregiver(LinksOfPatient(links, patientId), user);
    Single(rows)
  }

  /**
   * The patient the event is stored for and the caregiver to notify: a
   * linked patient reports for themselves, to their own caregiver; otherwise
   * a caller who is the caregiver of the patient the body names reports for
   * that patient; otherwise no caregiver is found.
   */
  function Resolve(links: seq<CaregiverLink>, user: string, requested: Option<string>): (r: (string, Option<string>))
    ensures LinkAsPatient(links, user).Some? ==> r == (user, Some(LinkAsPatient(links, user).value.caregiverId))
    ensures LinkAsPatient(links, user).None? && Truthy(requested) && LinkAsCaregiver(links, user, requested.value).Some?
      ==> r == (requested.value, Some(user))
    ensures LinkAsPatient(links, user).None? && !(Truthy(requested) && LinkAsCaregiver(links, user, requested.value).Some?)
      ==> r == (user, None)
  {
    var linkAsPatient := LinkAsPatient(links, user);
    if linkAsPatient.Some? then (user, Some(linkAsPatient.value.caregiverId))
    else if Truthy(requested) && LinkAsCaregiver(links, user, requested.value).Some? then (requested.value, Some(user))
    else (user, None)
  }

  /**
   * One request. `body` is `None` when `req.json()` fails; `insertFailed`
   * says the insert returned an error; `now` is the request time. The
   * caller is the user the `Authorization` header authenticates.
   */
  method Handle(
    authHeader: Option<string>, sessions: map<string, string>, body: Option<AlertBody>,
    links: seq<CaregiverLink>, insertFailed: bool, now: int)
    returns (reply: Reply, inserted: Option<GeofenceEventRow>)
    // the rejections, in the order the handler tests them
    ensures !Truthy(authHeader) ==> reply == MissingAuthorization
    ensures Truthy(authHeader) && GetUser(sessions, StripBearer(authHeader.value)).None? ==> reply == Unauthorized
    ensures Truthy(authHeader) && GetUser(sessions, StripBearer(authHeader.value)).Some? ==>
      var user := GetUser(sessions, StripBearer(authHeader.value)).value;
      && (body.None? ==> reply == Failed)
      && (body.Some? && !Truthy(body.value.eventType) ==> reply == MissingEventType)
      && (body.Some? && Truthy(body.value.eventType) ==>
            var (patient, caregiver) := Resolve(links, user, body.value.patientId);
            && (!Truthy(caregiver) ==> reply == NoCaregiver)
            && (Truthy(caregiver) && insertFailed ==> reply == Failed)
            // every check passed: the event is stored as sent, stamped with the request time
            && (Truthy(caregiver) && !insertFailed ==>
                  reply == Logged
                  && inserted == Some(GeofenceEventRow(patient, caregiver.value, body.value.eventType.value,
                                                       body.value.lat, body.value.lng, now))))
    ensures inserted.Some? <==> reply == Logged
    ensures reply == Logged ==>
      var user := GetUser(sessions, StripBearer(authHeader.value)).value;
      var row := inserted.value;
      && body.Some? && Truthy(body.value.eventType) && !insertFailed
      && row.caregiverId != ""
      // a linked patient reports for themselves, to their own caregiver
      && (LinkAsPatient(links, user).Some? ==>
            row.patientId == user && row.caregiverId == LinkAsPatient(links, user).value.caregiverId)
      // otherwise the caller is the caregiver of the patient the body names
      && (LinkAsPatient(links, user).None? ==>
            && Truthy(body.value.patientId)
            && LinkAsCaregiver(links, user, body.value.patientId.value).Some?
            && row.patientId == body.value.patientId.value && row.caregiverId == user)
  {
    inserted := None;
    if !Truthy(authHeader) {
      return MissingAuthorization, None;
    }
    var user := GetUser(sessions, StripBearer(authHeader.value));
    if user.None? {
      return Unauthorized, None;
    }
    if body.None? {
      return Failed, None;
    }
    var b := body.value;
    if !Truthy(b.eventType) {
      return MissingEventType, None;
    }

    var finalPatientId := user.value;
    var finalCaregiverId: Option<string> := None;
    var linkAsPatient := LinkAsPatient(links, user.value);
    if linkAsPatient.Some? {
      finalCaregiverId := Some(linkAsPatient.value.caregiverId);
    } else {
      if Truthy(b.patientId) {
        var linkAsCaregiver := LinkAsCaregiver(links, user.value, b.patientId.value);
        if linkAsCaregiver.Some? {
          finalPatientId := b.patientId.value;
          finalCaregiverId := user;
        }
      }
    }

    if !Truthy(finalCaregiverId) {
      return NoCaregiver, None;
    }
    if insertFailed {
      return Failed, None;
    }
    inserted := Some(GeofenceEventRow(finalPatientId, finalCaregiverId.value, b.eventType.value, b.lat, b.lng, now));
    reply := Logged;
  }
}
