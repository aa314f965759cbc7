/**
 * The `check-geofence-and-notify` edge function: for the calling patient it
 * compares the distance between the stored location and the safe-zone centre
 * with the zone radius, records an ENTER/EXIT alert when the inside/outside
 * state changed, e-mails the caregiver on an EXIT at most once every ten
 * minutes, and stores the new state.
 */
module CheckGeofence {
  import opened Wrappers
  import opened EdgeRuntime
  import opened JsText

  /** The e-mail cool-down: ten minutes, in milliseconds. */
  const CooldownMs: int := 10 * 60 * 1000

  /** A row of `safe_zones`. */
  datatype SafeZoneRow = SafeZoneRow(patientId: string, caregiverId: string, centerLat: real, centerLng: real, radiusM: real)

  /** A row of `patient_locations`; times are milliseconds since the epoch. */
  datatype LocationRow = LocationRow(
    userId: string, lat: real, lng: real,
    isInsideSafeZone: Option<bool>, lastAlertSentAt: Option<int>)

  /** What the handler does to the world, in order. */
  datatype Effect =
    | InsertZoneAlert(patientId: string, caregiverId: string, eventType: string, lat: real, lng: real)
    | SendAlertEmail(caregiverId: string, eventType: string, lat: real, lng: real)
      /** `update(updates)`: `lastAlertSentAt` is `None` when `updates` has no such key. */
    | UpdateLocation(userId: string, isInside: bool, lastGeofenceEventAt: int, lastAlertSentAt: Option<int>)

  datatype Reply =
    | Checked(isInside: bool, distanceM: real, stateChanged: bool, emailSent: bool)  // 200
    | NoSafeZone                                                                      // 200
    | Unauthorized                                                                    // 401
    | Failed(message: string)                                                         // 400, the catch block

  function Status(r: Reply): int {
    match r
    case Checked(_, _, _, _) => 200
    case NoSafeZone => 200
    case Unauthorized => 401
    case Failed(_) => 400
  }

  function ZonesOf(zones: seq<SafeZoneRow>, patientId: string): (r: seq<SafeZoneRow>)
    ensures forall z :: z in r <==> z in zones && z.patientId == patientId
  {
    if zones == [] then []
    else (if zones[0].patientId == patientId then [zones[0]] else []) + ZonesOf(zones[1..], patientId)
  }

  function LocationsOf(locations: seq<LocationRow>, userId: string): (r: seq<LocationRow>)
    ensures forall l :: l in r <==> l in locations && l.userId == userId
  {
    if locations == [] then []
    else (if locations[0].userId == userId then [locations[0]] else []) + LocationsOf(locations[1..], userId)
  }

  /** The cool-down test: no e-mail was ever sent, or the last one is at least ten minutes old. */
  predicate CooledDown(lastSent: Option<int>, now: int) {
    lastSent.None? || now - lastSent.value >= CooldownMs
  }

  /** The minutes test of the source, `(now - lastSent) / 1000 / 60 >= 10`, is
      the same as the milliseconds test used here. */
  lemma CooldownInMinutes(lastSent: int, now: int)
    ensures ((now - lastSent) as real / 1000.0 / 60.0 >= 10.0) <==> now - lastSent >= CooldownMs
  {
  }

  /**
   * One request. `configured` says both service settings are present;
   * `zoneQueryFailed` is a `safe_zones` error other than "no single row";
   * `distanceM` is the haversine distance between the patient's stored
   * location and the zone centre; `mailThrew` says the mail service call
   * throws (it is only made for an EXIT after the cool-down); `now` is the
   * request time.
   */
  method Handle(
    configured: bool, authHeader: Option<string>, sessions: map<string, string>,
    zones: seq<SafeZoneRow>, zoneQueryFailed: bool, locations: seq<LocationRow>,
    distanceM: real, mailThrew: bool, now: int)
    returns (reply: Reply, effects: seq<Effect>)
    // the early exits, in the order the handler tests them; none writes anything
    ensures !configured || !Truthy(authHeader) ==> reply.Failed? && effects == []
    ensures configured && Truthy(authHeader) ==>
      var user := GetUser(sessions, StripBearer(authHeader.value));
      && (user.None? ==> reply == Unauthorized && effects == [])
      && (user.Some? && zoneQueryFailed ==> reply.Failed? && effects == [])
      && ((user.Some? && !zoneQueryFailed && Single(ZonesOf(zones, user.value)).None?)
            ==> reply == NoSafeZone && effects == [])
      && ((user.Some? && !zoneQueryFailed && Single(ZonesOf(zones, user.value)).Some?
           && Single(LocationsOf(locations, user.value)).None?) ==> reply.Failed? && effects == [])
    // an authorised patient with a zone and a location is always checked,
    // unless the alert e-mail throws
    ensures configured && Truthy(authHeader) ==>
      var user := GetUser(sessions, StripBearer(authHeader.value));
      user.Some? && !zoneQueryFailed && Single(ZonesOf(zones, user.value)).Some?
      && Single(LocationsOf(locations, user.value)).Some? ==>
        var zone := Single(ZonesOf(zones, user.value)).value;
        var loc := Single(LocationsOf(locations, user.value)).value;
        var isInside := distanceM <= zone.radiusM;
        var changed := loc.isInsideSafeZone != Some(isInside);
        var mailing := changed && !isInside && CooledDown(loc.lastAlertSentAt, now);
        && (!(mailing && mailThrew) ==> reply == Checked(isInside, distanceM, changed, mailing))
        // the alert row is already stored when the e-mail throws; the location is not updated
        && (mailing && mailThrew ==>
              reply.Failed? && effects == [InsertZoneAlert(user.value, zone.caregiverId, "EXIT", loc.lat, loc.lng)])
    ensures !reply.Checked? && effects != [] ==> reply.Failed? && mailThrew && |effects| == 1 && effects[0].InsertZoneAlert?
    ensures reply.NoSafeZone? ==> !zoneQueryFailed
    ensures reply.Checked? ==>
      var patient := GetUser(sessions, StripBearer(authHeader.value)).value;
      var zone := Single(ZonesOf(zones, patient));
      var loc := Single(LocationsOf(locations, patient));
      && configured && !zoneQueryFailed && zone.Some? && loc.Some?
      && (reply.isInside <==> distanceM <= zone.value.radiusM)
      && reply.distanceM == distanceM
      // the state changed exactly when the stored state differs (an unknown state always differs)
      && (reply.stateChanged <==> loc.value.isInsideSafeZone != Some(reply.isInside))
      // an e-mail goes out only on a change to outside, after the cool-down
      && (reply.emailSent <==> reply.stateChanged && !reply.isInside && CooledDown(loc.value.lastAlertSentAt, now))
      && (!reply.stateChanged ==> effects == [])
      && (reply.stateChanged ==>
            && |effects| == (if reply.emailSent then 3 else 2)
            && effects[0] == InsertZoneAlert(patient, zone.value.caregiverId,
                 if reply.isInside then "ENTER" else "EXIT", loc.value.lat, loc.value.lng)
            && effects[|effects| - 1] == UpdateLocation(patient, reply.isInside, now,
                 if reply.emailSent then Some(now) else None)
            && (reply.emailSent ==> effects[1] == SendAlertEmail(zone.value.caregiverId, "EXIT", loc.value.lat, loc.value.lng)))
  {
    effects := [];
    if !configured {
      return Failed("Missing Supabase configuration"), [];
    }
    if !Truthy(authHeader) {
      return Failed("Missing Authorization header"), [];
    }
    var token := StripBearer(authHeader.value);
    var user := GetUser(sessions, token);
    if user.None? {
      return Unauthorized, [];
    }
    var patientId := user.value;

    if zoneQueryFailed {
      return Failed("safe_zones query failed"), [];
    }
    var safeZone := Single(ZonesOf(zones, patientId));
    if safeZone.None? {
      return NoSafeZone, [];
    }
    var location := Single(LocationsOf(locations, patientId));
    if location.None? {
      return Failed("patient_locations query failed"), [];
    }

    var isInside := distanceM <= safeZone.value.radiusM;
    var previousState := location.value.isInsideSafeZone;
    var shouldUpdate := previousState != Some(isInside);
    var sentEmail := false;
    var lastAlertUpdate: Option<int> := None;

    if shouldUpdate {
      var eventType := if isInside then "ENTER" else "EXIT";
      effects := effects + [InsertZoneAlert(patientId, safeZone.value.caregiverId, eventType,
                                            location.value.lat, location.value.lng)];
      if !isInside {
        if CooledDown(location.value.lastAlertSentAt, now) {
          if mailThrew {
            return Failed("mail service call failed"), effects;
          }
          effects := effects + [SendAlertEmail(safeZone.value.caregiverId, eventType,
                                               location.value.lat, location.value.lng)];
          lastAlertUpdate := Some(now);
          sentEmail := true;
        }
      }
    }
    if shouldUpdate {
      effects := effects + [UpdateLocation(patientId, isInside, now, lastAlertUpdate)];
    }
    reply := Checked(isInside, distanceM, shouldUpdate, sentEmail);
  }
}
