/**
 * The caregiver's safe-zone editor
 * (components/screens/FamilyFeatures/SafeZoneScreen.tsx): picking the centre
 * on the map, switching the zone on and off, the radius slider, the centre
 * the map shows, and saving the zone as an upsert keyed by patient.
 */
module SafeZone {
  import opened Wrappers
  import opened JsText

  const DefaultLat: real := -34.6037
  const DefaultLng: real := -58.3816
  const DefaultRadius: int := 200
  const MinRadius: int := 50
  const MaxRadius: int := 1000
  const RadiusStep: int := 50

  const NotAuthenticatedMessage: string := "No estás autenticado."
  const SaveFailedMessage: string := "Error al guardar la zona segura."
  const SavedMessage: string := "Zona segura guardada correctamente \U{2705}"

  /** A `safe_zones` row as the screen holds it; `id` and `caregiver_id` are
      present once it came from the table. */
  datatype Zone = Zone(id: Option<string>, patientId: string, caregiverId: Option<string>,
                       centerLat: real, centerLng: real, radiusMeters: int, active: bool)

  /** The row sent to the upsert, keyed on `patient_id`. */
  datatype Payload = Payload(patientId: string, caregiverId: string,
                             centerLat: real, centerLng: real, radiusMeters: int, active: bool)

  /**
   * `handlePickCenter` for the linked patient: an existing zone only moves its
   * centre; with no zone, a new active zone of radius 200 is created at the
   * picked point for that patient.
   */
  function PickCenter(prev: Option<Zone>, patientId: string, lat: real, lng: real): (z: Zone)
    ensures z.centerLat == lat && z.centerLng == lng
    ensures prev.Some? ==> z == prev.value.(centerLat := lat, centerLng := lng)
    ensures prev.None? ==> z == Zone(None, patientId, None, lat, lng, DefaultRadius, true)
  {
    match prev
    case Some(p) => p.(centerLat := lat, centerLng := lng)
    case None => Zone(None, patientId, None, lat, lng, DefaultRadius, true)
  }

  /** `currentCenter`: the zone's centre, or Buenos Aires when there is none. */
  function CurrentCenter(zone: Option<Zone>): (c: (real, real))
    ensures zone.None? ==> c == (DefaultLat, DefaultLng)
    ensures zone.Some? ==> c == (zone.value.centerLat, zone.value.centerLng)
  {
    match zone
    case Some(z) => (z.centerLat, z.centerLng)
    case None => (DefaultLat, DefaultLng)
  }

  /** The map shows the point just picked, whether or not a zone existed. */
  lemma CenterFollowsPick(prev: Option<Zone>, patientId: string, lat: real, lng: real)
    ensures CurrentCenter(Some(PickCenter(prev, patientId, lat, lng))) == (lat, lng)
  {
  }

  /** `toggleActive`: only `active` flips; with no zone nothing happens. */
  function ToggleActive(zone: Option<Zone>): (r: Option<Zone>)
    ensures zone.None? ==> r.None?
    ensures zone.Some? ==> r == Some(zone.value.(active := !zone.value.active))
  {
    match zone
    case Some(z) => Some(z.(active := !z.active))
    case None => None
  }

  /** Toggling twice restores the zone. */
  lemma ToggleActiveTwice(zone: Option<Zone>)
    ensures ToggleActive(ToggleActive(zone)) == zone
  {
  }

  /** A value the range input can report: 50 to 1000 in steps of 50. */
  predicate IsSliderValue(r: int) {
    MinRadius <= r <= MaxRadius && (r - MinRadius) % RadiusStep == 0
  }

  /** The slider's value at notch `k`, counted from its left end. */
  function SliderRadius(k: nat): (r: int)
    requires k <= (MaxRadius - MinRadius) / RadiusStep
    ensures IsSliderValue(r)
  {
    MinRadius + k * RadiusStep
  }

  /** Every slider value is one of the twenty notches. */
  lemma SliderValuesAreNotches(r: int)
    requires IsSliderValue(r)
    ensures (r - MinRadius) / RadiusStep <= 19 && SliderRadius((r - MinRadius) / RadiusStep) == r
  {
  }

  /** The slider's `onChange`: the zone takes the new radius and keeps everything else. */
  function SetRadius(z: Zone, r: int): (result: Zone)
    requires IsSliderValue(r)
    ensures result.radiusMeters == r && IsSliderValue(result.radiusMeters)
    ensures result.(radiusMeters := z.radiusMeters) == z
  {
    z.(radiusMeters := r)
  }

  /** The upsert payload: the screen's zone, for the linked patient, owned by the signed-in caregiver. */
  function PayloadOf(patientId: string, userId: string, z: Zone): (p: Payload)
    ensures p.patientId == patientId && p.caregiverId == userId
    ensures p.centerLat == z.centerLat && p.centerLng == z.centerLng
    ensures p.radiusMeters == z.radiusMeters && p.active == z.active
  {
    Payload(patientId, userId, z.centerLat, z.centerLng, z.radiusMeters, z.active)
  }

  /** The screen's zone, the saving flag, and what saving sent and showed. */
  class Editor {
    var patientId: Option<string>
    var zone: Option<Zone>
    var saving: bool
    var upserts: seq<Payload>
    var alerts: seq<string>

    constructor (patientId: Option<string>, fetched: Option<Zone>)
      ensures this.patientId == patientId && zone == fetched
      ensures !saving && upserts == [] && alerts == []
    {
      this.patientId := patientId;
      zone := fetched;
      saving := false;
      upserts := [];
      alerts := [];
    }

    /** A click on the map, which is shown only when a patient is linked
        (`!patientId` shows the no-patient view instead). */
    method Pick(lat: real, lng: real)
      requires Truthy(patientId)
      modifies this
      ensures patientId == old(patientId) && saving == old(saving)
      ensures zone == Some(PickCenter(old(zone), old(patientId).value, lat, lng))
      ensures CurrentCenter(zone) == (lat, lng)
      ensures upserts == old(upserts) && alerts == old(alerts)
    {
      zone := Some(PickCenter(zone, patientId.value, lat, lng));
      CenterFollowsPick(old(zone), patientId.value, lat, lng);
    }

    /** The activate / deactivate button. */
    method Toggle()
      modifies this
      ensures zone == ToggleActive(old(zone))
      ensures patientId == old(patientId) && saving == old(saving)
      ensures upserts == old(upserts) && alerts == old(alerts)
    {
      zone := ToggleActive(zone);
    }

    /** The radius slider. */
    method Slide(k: nat)
      requires zone.Some? && k <= (MaxRadius - MinRadius) / RadiusStep
      modifies this
      ensures zone == Some(SetRadius(old(zone).value, SliderRadius(k)))
      ensures patientId == old(patientId) && saving == old(saving)
      ensures upserts == old(upserts) && alerts == old(alerts)
    {
      zone := Some(SetRadius(zone.value, SliderRadius(k)));
    }

    /** The start of `handleSave`: without a patient (`!patientId`, so an
        empty id too) or a zone nothing happens; otherwise `saving` is set and
        the save goes on in `CompleteSave`. */
    method BeginSave() returns (started: bool)
      modifies this
      ensures started <==> Truthy(old(patientId)) && old(zone).Some?
      ensures saving == (started || old(saving))
      ensures patientId == old(patientId) && zone == old(zone)
      ensures upserts == old(upserts) && alerts == old(alerts)
    {
      if !Truthy(patientId) || zone.None? {
        return false;
      }
      saving := true;
      return true;
    }

    /**
     * The rest of `handleSave`, given who is signed in and whether the upsert
     * failed: no user shows the authentication alert and sends nothing;
     * otherwise exactly one payload is upserted and its outcome shown. On
     * every path `saving` ends false.
     */
    method CompleteSave(user: Option<string>, upsertFailed: bool)
      requires Truthy(patientId) && zone.Some?
      modifies this
      ensures !saving
      ensures user.None? ==> upserts == old(upserts) && alerts == old(alerts) + [NotAuthenticatedMessage]
      ensures user.Some? ==>
        && upserts == old(upserts) + [PayloadOf(old(patientId).value, user.value, old(zone).value)]
        && alerts == old(alerts) + [if upsertFailed then SaveFailedMessage else SavedMessage]
      ensures patientId == old(patientId) && zone == old(zone)
    {
      if user.None? {
        alerts := alerts + [NotAuthenticatedMessage];
      } else {
        upserts := upserts + [PayloadOf(patientId.value, user.value, zone.value)];
        alerts := alerts + [if upsertFailed then SaveFailedMessage else SavedMessage];
      }
      saving := false;
    }
  }
}
