/**
 * The Capacitor plugin that arms the native safe-zone geofence
 * (android/.../GeofencePlugin.java). `start` checks its six arguments, saves
 * the configuration the receiver reads later, checks the location
 * permission and registers one exit-only region; `stop` removes it.
 */
module GeofencePlugin {
  import opened Wrappers
  import opened AndroidPlatform

  const ConfigFile: string := "GeofenceConfig"
  const SafeZoneId: string := "SAFE_ZONE"
  const ReceiverClass: string := "com.marcos.RSTMindHealth.GeofenceBroadcastReceiver"

  /** The arguments of a `start` call; `None` is a missing argument. */
  datatype StartArgs = StartArgs(
    lat: Option<real>,
    lng: Option<real>,
    radius: Option<int>,
    patientId: Option<string>,
    token: Option<string>,
    supabaseUrl: Option<string>)

  /** How a plugin call ended: `call.resolve()` or `call.reject(message, cause)`. */
  datatype CallOutcome = Resolved | Rejected(message: string, cause: Option<string>)

  predicate HasAllArgs(a: StartArgs) {
    a.lat.Some? && a.lng.Some? && a.radius.Some? && a.patientId.Some? && a.token.Some? && a.supabaseUrl.Some?
  }

  /** `getGeofencePendingIntent`: request code 0, aimed at the receiver, mutable and updating. */
  function GeofenceIntent(): (pi: PendingIntent)
    ensures pi.requestCode == 0 && pi.receiver == ReceiverClass
    ensures pi.flags & FLAG_MUTABLE != 0 && pi.flags & FLAG_UPDATE_CURRENT != 0
  {
    PendingIntent(ReceiverClass, 0, FLAG_UPDATE_CURRENT | FLAG_MUTABLE)
  }

  /** The single region `start` asks for. */
  function SafeZoneRequest(lat: real, lng: real, radius: int): (r: GeofencingRequest)
    ensures |r.geofences| == 1 && r.initialTrigger == INITIAL_TRIGGER_EXIT
    ensures var g := r.geofences[0];
      && g.requestId == SafeZoneId && g.lat == lat && g.lng == lng && g.radius == radius
      && g.expirationDuration == NEVER_EXPIRE && g.transitionTypes == GEOFENCE_TRANSITION_EXIT
  {
    GeofencingRequest(INITIAL_TRIGGER_EXIT, [Geofence(SafeZoneId, lat, lng, radius, NEVER_EXPIRE, GEOFENCE_TRANSITION_EXIT)])
  }

  /** The editor writes of `start`: three strings and the two coordinates as floats;
      every other entry is kept. */
  function SavedConfig(entries: map<string, PrefValue>, a: StartArgs): (r: map<string, PrefValue>)
    requires HasAllArgs(a)
    ensures GetString(r, "patientId") == a.patientId
    ensures GetString(r, "token") == a.token
    ensures GetString(r, "supabaseUrl") == a.supabaseUrl
    ensures "lat" in r && "lng" in r
    ensures r["lat"] == FloatOf(a.lat.value) && r["lng"] == FloatOf(a.lng.value)
    ensures forall k :: k in entries ==> k in r
    ensures forall k :: k in r && k !in {"patientId", "token", "supabaseUrl", "lat", "lng"} ==> k in entries && r[k] == entries[k]
  {
    entries["patientId" := Str(a.patientId.value)]
           ["token" := Str(a.token.value)]
           ["supabaseUrl" := Str(a.supabaseUrl.value)]
           ["lat" := FloatOf(a.lat.value)]
           ["lng" := FloatOf(a.lng.value)]
  }

  /** A successful `start` followed by a successful `stop` leaves no safe zone registered. */
  lemma StopRemovesWhatStartAdded(regs: map<string, Registration>, lat: real, lng: real, radius: int)
    ensures SafeZoneId in Register(regs, SafeZoneRequest(lat, lng, radius), GeofenceIntent())
    ensures SafeZoneId !in Unregister(Register(regs, SafeZoneRequest(lat, lng, radius), GeofenceIntent()), GeofenceIntent())
  {
    var req := SafeZoneRequest(lat, lng, radius);
    assert req.geofences[0] in req.geofences;
    UnregisterUndoesRegister(regs, req, GeofenceIntent(), GeofenceIntent(), req.geofences[0]);
  }

  class Plugin {
    /** `getContext().getSharedPreferences("GeofenceConfig", MODE_PRIVATE)`. */
    const prefs: SharedPreferences
    /** The client obtained in `load`. */
    const geofencingClient: GeofencingClient

    /** `load`: the plugin keeps the geofencing client of its context. */
    constructor (prefs: SharedPreferences, client: GeofencingClient)
      ensures this.prefs == prefs && this.geofencingClient == client
    {
      this.prefs := prefs;
      this.geofencingClient := client;
    }

    /** `start`. `permissionGranted` is the result of the permission check and
        `addFailure` the exception the failure listener of `addGeofences` gets, if any. */
    method Start(a: StartArgs, permissionGranted: bool, addFailure: Option<string>) returns (outcome: CallOutcome)
      modifies prefs, geofencingClient
      ensures !HasAllArgs(a) ==>
        && outcome == Rejected("Missing required parameters", None)
        && prefs.entries == old(prefs.entries)
        && geofencingClient.registrations == old(geofencingClient.registrations)
      ensures HasAllArgs(a) ==> prefs.entries == SavedConfig(old(prefs.entries), a)
      ensures HasAllArgs(a) && !permissionGranted ==>
        && outcome == Rejected("Location permission not granted", None)
        && geofencingClient.registrations == old(geofencingClient.registrations)
      ensures HasAllArgs(a) && permissionGranted ==>
        && outcome == (if addFailure.None? then Resolved else Rejected("Failed to add geofence", addFailure))
        && geofencingClient.registrations ==
             if addFailure.None?
             then Register(old(geofencingClient.registrations), SafeZoneRequest(a.lat.value, a.lng.value, a.radius.value), GeofenceIntent())
             else old(geofencingClient.registrations)
    {
      if !HasAllArgs(a) {
        return Rejected("Missing required parameters", None);
      }
      prefs.entries := SavedConfig(prefs.entries, a);
      if !permissionGranted {
        return Rejected("Location permission not granted", None);
      }
      var request := SafeZoneRequest(a.lat.value, a.lng.value, a.radius.value);
      geofencingClient.AddGeofences(request, GeofenceIntent(), addFailure);
      if addFailure.None? {
        outcome := Resolved;
      } else {
        outcome := Rejected("Failed to add geofence", addFailure);
      }
    }

    /** `stop`: removes what was registered through the plugin's pending intent. */
    method Stop(removeFailure: Option<string>) returns (outcome: CallOutcome)
      modifies geofencingClient
      ensures outcome == if removeFailure.None? then Resolved else Rejected("Failed to remove geofence", removeFailure)
      ensures geofencingClient.registrations ==
        if removeFailure.None? then Unregister(old(geofencingClient.registrations), GeofenceIntent())
        else old(geofencingClient.registrations)
      ensures removeFailure.None? ==>
        (SafeZoneId !in geofencingClient.registrations ||
         !SameIntent(geofencingClient.registrations[SafeZoneId].intent, GeofenceIntent()))
    {
      geofencingClient.RemoveGeofences(GeofenceIntent(), removeFailure);
      if removeFailure.None? {
        outcome := Resolved;
      } else {
        outcome := Rejected("Failed to remove geofence", removeFailure);
      }
    }
  }
}
