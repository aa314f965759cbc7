/**
 * The parts of the Android platform the geofencing plugin and its receiver
 * touch: the private `SharedPreferences` file, the Play-services geofencing
 * client, pending intents, and the HTTP requests handed to OkHttp. Each is
 * reduced to the state the two classes read or change.
 */
module AndroidPlatform {
  import opened Wrappers

  /** A stored preference: a string, or a `float` narrowed from the `double` `of`. */
  datatype PrefValue = Str(s: string) | FloatOf(of: real)

  /** One `SharedPreferences` file. */
  class SharedPreferences {
    var entries: map<string, PrefValue>

    constructor (initial: map<string, PrefValue>)
      ensures entries == initial
    {
      entries := initial;
    }
  }

  /** `getString(key, null)`: the stored string, `None` when absent. */
  function GetString(entries: map<string, PrefValue>, key: string): (r: Option<string>)
    ensures r.Some? <==> key in entries && entries[key].Str?
    ensures r.Some? ==> entries[key] == Str(r.value)
  {
    if key in entries && entries[key].Str? then Some(entries[key].s) else None
  }

  // Constants of com.google.android.gms.location.Geofence and GeofencingRequest.
  const GEOFENCE_TRANSITION_ENTER: int := 1
  const GEOFENCE_TRANSITION_EXIT: int := 2
  const GEOFENCE_TRANSITION_DWELL: int := 4
  const NEVER_EXPIRE: int := -1
  const INITIAL_TRIGGER_ENTER: int := 1
  const INITIAL_TRIGGER_EXIT: int := 2
  const INITIAL_TRIGGER_DWELL: int := 4

  // Flags of android.app.PendingIntent.
  const FLAG_MUTABLE: bv32 := 0x0200_0000
  const FLAG_UPDATE_CURRENT: bv32 := 0x0800_0000

  /** A circular region to watch. */
  datatype Geofence = Geofence(
    requestId: string,
    lat: real,
    lng: real,
    radius: int,
    expirationDuration: int,
    transitionTypes: int)

  datatype GeofencingRequest = GeofencingRequest(initialTrigger: int, geofences: seq<Geofence>)

  /** A broadcast pending intent, identified as Android identifies it: by the
      component it targets and its request code (the flags do not take part). */
  datatype PendingIntent = PendingIntent(receiver: string, requestCode: int, flags: bv32)

  predicate SameIntent(a: PendingIntent, b: PendingIntent) {
    a.receiver == b.receiver && a.requestCode == b.requestCode
  }

  /** A registered geofence together with the intent that reports it. */
  datatype Registration = Registration(fence: Geofence, initialTrigger: int, intent: PendingIntent)

  /** `addGeofences(request, intent)` when it succeeds: every geofence of the
      request is registered under its request id, replacing an older one. */
  function Register(regs: map<string, Registration>, request: GeofencingRequest, intent: PendingIntent): (r: map<string, Registration>)
    ensures forall g :: g in request.geofences ==> g.requestId in r
    ensures forall id :: id in regs ==> id in r
    decreases |request.geofences|
  {
    if request.geofences == [] then regs
    else
      var g := request.geofences[|request.geofences| - 1];
      var rest := GeofencingRequest(request.initialTrigger, request.geofences[..|request.geofences| - 1]);
      Register(regs, rest, intent)[g.requestId := Registration(g, request.initialTrigger, intent)]
  }

  /** `removeGeofences(intent)` when it succeeds: every geofence reported through that intent goes. */
  function Unregister(regs: map<string, Registration>, intent: PendingIntent): (r: map<string, Registration>)
    ensures forall id :: id in r <==> id in regs && !SameIntent(regs[id].intent, intent)
    ensures forall id :: id in r ==> r[id] == regs[id]
  {
    map id | id in regs && !SameIntent(regs[id].intent, intent) :: regs[id]
  }

  /** The Play-services geofencing client: the geofences it currently watches. */
  class GeofencingClient {
    var registrations: map<string, Registration>

    constructor ()
      ensures registrations == map[]
    {
      registrations := map[];
    }

    /** `addGeofences`; `failure` is the exception its failure listener receives, if any. */
    method AddGeofences(request: GeofencingRequest, intent: PendingIntent, failure: Option<string>)
      modifies this
      ensures registrations == if failure.None? then Register(old(registrations), request, intent) else old(registrations)
    {
      if failure.None? {
        registrations := Register(registrations, request, intent);
      }
    }

    /** `removeGeofences`; `failure` is the exception its failure listener receives, if any. */
    method RemoveGeofences(intent: PendingIntent, failure: Option<string>)
      modifies this
      ensures registrations == if failure.None? then Unregister(old(registrations), intent) else old(registrations)
    {
      if failure.None? {
        registrations := Unregister(registrations, intent);
      }
    }
  }

  /** A JSON value as `org.json` writes it. */
  datatype JsonValue = JStr(s: string) | JNum(n: real)

  /** An outgoing HTTP request; `body` is the fields of a JSON object in insertion order. */
  datatype HttpRequest = HttpRequest(
    verb: string,
    url: string,
    headers: seq<(string, string)>,
    contentType: string,
    body: seq<(string, JsonValue)>)

  /** What one `execute()` call came back with. */
  datatype HttpResult = Response(code: int) | IoFailure(message: string)

  /** OkHttp's `isSuccessful`: a 2xx status. */
  predicate IsSuccessful(code: int) {
    200 <= code < 300
  }

  /** A line written to logcat. */
  datatype LogLevel = Debug | Info | Error
  datatype LogLine = LogLine(level: LogLevel, tag: string, message: string)

  class Logcat {
    var lines: seq<LogLine>

    constructor ()
      ensures lines == []
    {
      lines := [];
    }
  }

  /** Requests handed to the network, in order. */
  class Network {
    var outbox: seq<HttpRequest>

    constructor ()
      ensures outbox == []
    {
      outbox := [];
    }
  }

  /** Removing what was added through the same intent leaves no geofence that
      was part of the request. */
  lemma UnregisterUndoesRegister(regs: map<string, Registration>, request: GeofencingRequest, a: PendingIntent, b: PendingIntent, g: Geofence)
    requires SameIntent(a, b) && g in request.geofences
    ensures g.requestId !in Unregister(Register(regs, request, a), b)
  {
    RegisteredUnderIntent(regs, request, a, g);
  }

  lemma {:induction false} RegisteredUnderIntent(regs: map<string, Registration>, request: GeofencingRequest, intent: PendingIntent, g: Geofence)
    requires g in request.geofences
    ensures Register(regs, request, intent)[g.requestId].intent == intent
    decreases |request.geofences|
  {
    var n := |request.geofences|;
    var last := request.geofences[n - 1];
    var rest := GeofencingRequest(request.initialTrigger, request.geofences[..n - 1]);
    if g.requestId != last.requestId {
      assert request.geofences == rest.geofences + [last];
      assert g in rest.geofences;
      RegisteredUnderIntent(regs, rest, intent, g);
    }
  }
}
