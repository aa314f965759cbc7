/**
 * The broadcast receiver woken by the geofence (android/.../GeofenceBroadcastReceiver.java).
 * On an exit transition it reads the configuration the plugin saved and, when a
 * token is stored, hands one POST to the alert function to a background thread,
 * which only logs the outcome.
 */
module GeofenceReceiver {
  import opened Wrappers
  import opened AndroidPlatform
  import opened JsText

  const Tag: string := "GeofenceReceiver"
  const DefaultSupabaseUrl: string := "YOUR_SUPABASE_URL"
  const AlertPath: string := "/functions/v1/geofence-alert"
  const JsonContentType: string := "application/json; charset=utf-8"

  datatype Location = Location(latitude: real, longitude: real)

  /** What `GeofencingEvent.fromIntent` exposes to the receiver. */
  datatype GeofencingEvent = GeofencingEvent(
    hasError: bool,
    errorCode: int,
    transition: int,
    triggeringLocation: Location)

  /** `supabaseUrl + "/functions/v1/geofence-alert"`, with the placeholder when no URL is stored. */
  function AlertUrl(entries: map<string, PrefValue>): (url: string)
    ensures GetString(entries, "supabaseUrl").None? ==> url == DefaultSupabaseUrl + AlertPath
    ensures GetString(entries, "supabaseUrl").Some? ==> url == GetString(entries, "supabaseUrl").value + AlertPath
  {
    GetString(entries, "supabaseUrl").GetOr(DefaultSupabaseUrl) + AlertPath
  }

  /** The JSON object `sendAlert` fills. `put` with a `null` value removes the key,
      so without a stored patient id the object has no `patient_id` at all. */
  function AlertBody(patientId: Option<string>, lat: real, lng: real): (body: seq<(string, JsonValue)>)
    ensures |body| == if patientId.Some? then 4 else 3
    ensures patientId.Some? ==> body[0] == ("patient_id", JStr(patientId.value))
    ensures body[|body| - 3..] == [("event_type", JStr("EXIT")), ("lat", JNum(lat)), ("lng", JNum(lng))]
  {
    (if patientId.Some? then [("patient_id", JStr(patientId.value))] else [])
      + [("event_type", JStr("EXIT")), ("lat", JNum(lat)), ("lng", JNum(lng))]
  }

  /** The request `sendAlert` builds. */
  function AlertRequest(url: string, token: string, patientId: Option<string>, lat: real, lng: real): (r: HttpRequest)
    ensures r.verb == "POST" && r.url == url
    ensures r.headers == [("Authorization", "Bearer " + token)]
    ensures r.contentType == JsonContentType
    ensures r.body == AlertBody(patientId, lat, lng)
  {
    HttpRequest("POST", url, [("Authorization", "Bearer " + token)], JsonContentType, AlertBody(patientId, lat, lng))
  }

  /** The request one broadcast leads to, if any. */
  function DispatchFor(entries: map<string, PrefValue>, e: GeofencingEvent): (r: Option<HttpRequest>)
    ensures r.Some? <==> !e.hasError && e.transition == GEOFENCE_TRANSITION_EXIT && GetString(entries, "token").Some?
    ensures r.Some? ==> r.value == AlertRequest(AlertUrl(entries), GetString(entries, "token").value,
      GetString(entries, "patientId"), e.triggeringLocation.latitude, e.triggeringLocation.longitude)
  {
    if e.hasError || e.transition != GEOFENCE_TRANSITION_EXIT then None
    else
      match GetString(entries, "token")
      case None => None
      case Some(token) =>
        Some(AlertRequest(AlertUrl(entries), token, GetString(entries, "patientId"),
          e.triggeringLocation.latitude, e.triggeringLocation.longitude))
  }

  /** Entry and dwell transitions, like errors, never lead to a request. */
  lemma OnlyExitDispatches(entries: map<string, PrefValue>, e: GeofencingEvent)
    requires e.transition == GEOFENCE_TRANSITION_ENTER || e.transition == GEOFENCE_TRANSITION_DWELL || e.hasError
    ensures DispatchFor(entries, e) == None
  {
  }

  /** The receiver never reads the stored coordinates: whatever the plugin saved
      under "lat" and "lng", the request is the same and carries the event's location. */
  lemma StoredCoordinatesIgnored(entries: map<string, PrefValue>, lat: PrefValue, lng: PrefValue, e: GeofencingEvent)
    ensures DispatchFor(entries["lat" := lat]["lng" := lng], e) == DispatchFor(entries, e)
  {
    var m := entries["lat" := lat]["lng" := lng];
    assert GetString(m, "token") == GetString(entries, "token");
    assert GetString(m, "patientId") == GetString(entries, "patientId");
    assert GetString(m, "supabaseUrl") == GetString(entries, "supabaseUrl");
  }

  /** The patient id is not checked: with a token but no patient id a request
      still goes out, its body holding only event type and coordinates. */
  lemma PatientIdNotRequired(entries: map<string, PrefValue>, e: GeofencingEvent)
    requires !e.hasError && e.transition == GEOFENCE_TRANSITION_EXIT
    requires GetString(entries, "token").Some? && GetString(entries, "patientId").None?
    ensures DispatchFor(entries, e).Some?
    ensures forall f :: f in DispatchFor(entries, e).value.body ==> f.0 != "patient_id"
  {
    var body := AlertBody(None, e.triggeringLocation.latitude, e.triggeringLocation.longitude);
    assert DispatchFor(entries, e).value.body == body;
    assert body == body[|body| - 3..];
  }

  class Receiver {
    const log: Logcat
    const network: Network

    constructor (log: Logcat, network: Network)
      ensures this.log == log && this.network == network
    {
      this.log := log;
      this.network := network;
    }

    /** `onReceive`, with the preferences of the "GeofenceConfig" file. */
    method OnReceive(e: GeofencingEvent, prefs: SharedPreferences)
      modifies log, network
      ensures e.hasError ==> network.outbox == old(network.outbox)
      ensures network.outbox == old(network.outbox) +
        (match DispatchFor(prefs.entries, e) case Some(r) => [r] case None => [])
      ensures |log.lines| >= |old(log.lines)|
    {
      if e.hasError {
        log.lines := log.lines + [LogLine(Error, Tag, "Geofence error: " + IntToString(e.errorCode))];
        return;
      }
      if e.transition == GEOFENCE_TRANSITION_EXIT {
        log.lines := log.lines + [LogLine(Info, Tag, "Geofence EXIT detected")];
        var token := GetString(prefs.entries, "token");
        var patientId := GetString(prefs.entries, "patientId");
        var supabaseUrl := GetString(prefs.entries, "supabaseUrl").GetOr(DefaultSupabaseUrl);
        var functionUrl := supabaseUrl + AlertPath;
        if token.Some? {
          SendAlert(functionUrl, token.value, patientId, e.triggeringLocation.latitude, e.triggeringLocation.longitude);
        }
      }
    }

    /** `sendAlert`: builds the request and starts the thread that executes it once. */
    method SendAlert(url: string, token: string, patientId: Option<string>, lat: real, lng: real)
      modifies network
      ensures network.outbox == old(network.outbox) + [AlertRequest(url, token, patientId, lat, lng)]
    {
      network.outbox := network.outbox + [AlertRequest(url, token, patientId, lat, lng)];
    }

    /** The background thread once `execute()` returns: the result is only logged.
        The frame leaves the network alone, so there is no retry, and nothing reaches the caller. */
    method CompleteSend(result: HttpResult)
      modifies log
      ensures log.lines == old(log.lines) + [OutcomeLine(result)]
    {
      log.lines := log.lines + [OutcomeLine(result)];
    }
  }

  /** The line logged for the outcome of the single attempt. */
  function OutcomeLine(result: HttpResult): (l: LogLine)
    ensures l.level == Error <==> !(result.Response? && IsSuccessful(result.code))
  {
    match result
    case Response(code) =>
      if IsSuccessful(code) then LogLine(Info, Tag, "Alert Sent Successfully")
      else LogLine(Error, Tag, "Alert Failed: " + IntToString(code))
    case IoFailure(_) => LogLine(Error, Tag, "Network Error")
  }
}
