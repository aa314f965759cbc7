/**
 * The story albums of a patient (hooks/useStoryAlbums.ts): whose albums are
 * shown, who may edit them, and album creation with its limit of twenty and
 * deletion. The `story_albums` table is a field of the hook's state, in
 * creation order; the list shows it newest first.
 */
module StoryAlbums {
  import opened Wrappers
  import opened JsText
  import opened Lists
  import TargetPatient

  const MaxAlbums: nat := 20
  const TooManyMessage: string := "Máximo 20 álbumes permitidos."

  datatype Album = Album(id: string, patientId: string, createdBy: Option<string>, title: string,
                         description: Option<string>)

  /** `targetUserId`: a caregiver edits the linked patient's albums, anyone else their own. */
  function Target(role: Option<string>, profileId: Option<string>, isLinked: bool,
                  patientId: Option<string>): (t: Option<string>)
    ensures TargetPatient.IsCaregiver(role) ==> t == TargetPatient.LinkedPatient(isLinked, patientId)
    ensures !TargetPatient.IsCaregiver(role) ==> t == profileId
  {
    TargetPatient.ForRole(role, isLinked, patientId, profileId)
  }

  /** `canEdit`: whoever has a patient to work on, patient or linked caregiver alike. */
  function CanEdit(target: Option<string>): (b: bool)
    ensures b <==> target.Some? && target.value != ""
  {
    Truthy(target)
  }

  /** A linked caregiver can edit the patient's albums; an unlinked one cannot. */
  lemma CaregiverEditsOnlyWhenLinked(role: Option<string>, profileId: Option<string>, isLinked: bool,
                                     patientId: Option<string>)
    requires TargetPatient.IsCaregiver(role)
    ensures CanEdit(Target(role, profileId, isLinked, patientId)) <==> isLinked && Truthy(patientId)
  {
  }

  /** The albums of one patient, newest first: the patient's rows of the
      table, which is in creation order, read from the last to the first. */
  function NewestFirst(table: seq<Album>, patient: string): (r: seq<Album>)
    ensures |r| <= |table|
    ensures forall a :: a in r <==> a in table && a.patientId == patient
    ensures |r| == |Filter(table, OfPatient(patient))|
    ensures forall k :: 0 <= k < |r| ==>
      r[k] == Filter(table, OfPatient(patient))[|r| - 1 - k]
  {
    var mine := Filter(table, OfPatient(patient));
    var r := Reverse(mine);
    assert forall a :: a in r <==> a in mine by {
      forall a | a in mine ensures a in r {
        var k :| 0 <= k < |mine| && mine[k] == a;
        assert r[|mine| - 1 - k] == a;
      }
    }
    r
  }

  /** Of two albums of the patient, the one created later is listed first. */
  lemma LaterAlbumComesFirst(table: seq<Album>, patient: string, p: nat, q: nat)
    requires p < q < |table| && table[p].patientId == patient && table[q].patientId == patient
    ensures exists i, j :: (0 <= i < j < |NewestFirst(table, patient)|
      && NewestFirst(table, patient)[i] == table[q] && NewestFirst(table, patient)[j] == table[p])
  {
    var mine := Filter(table, OfPatient(patient));
    FilterKeepsOrder(table, OfPatient(patient), p, q);
    var i, j :| 0 <= i < j < |mine| && mine[i] == table[p] && mine[j] == table[q];
    ReverseSwapsPair(mine, NewestFirst(table, patient), i, j);
  }

  /** The test the fetch's `eq('patient_id', patient)` applies to a row. */
  function OfPatient(patient: string): Album -> bool {
    (a: Album) => a.patientId == patient
  }

  class Albums {
    var albums: seq<Album>
    var loading: bool
    var error: Option<string>
    /** The `story_albums` table. */
    var table: seq<Album>

    constructor (table: seq<Album>)
      ensures albums == [] && loading && error.None? && this.table == table
    {
      albums := [];
      loading := true;
      error := None;
      this.table := table;
    }

    /** `fetchAlbums`: without a target only loading ends; otherwise the list
        becomes the target's albums newest first, or the failure is kept. */
    method Fetch(target: Option<string>, failure: Option<string>)
      modifies this
      ensures table == old(table) && !loading
      ensures !Truthy(target) ==> albums == old(albums) && error == old(error)
      ensures Truthy(target) && failure.None? ==> albums == NewestFirst(table, target.value) && error.None?
      ensures Truthy(target) && failure.Some? ==> albums == old(albums) && error == failure
    {
      if !Truthy(target) {
        loading := false;
        return;
      }
      loading := true;
      error := None;
      if failure.Some? {
        error := failure;
      } else {
        albums := NewestFirst(table, target.value);
      }
      loading := false;
    }

    /** `createAlbum`: silent without a target, refused at twenty albums; a
        failed insert throws; otherwise the album is added for the target,
        created by the signed-in profile, and the list is refetched with the
        new album first. */
    method CreateAlbum(target: Option<string>, profileId: Option<string>, title: string,
                       description: Option<string>, newId: string, insertError: Option<string>,
                       refetchFailure: Option<string>) returns (r: Outcome)
      modifies this
      ensures !Truthy(target) ==> r == Done
      ensures Truthy(target) && |old(albums)| >= MaxAlbums ==> r == Thrown(TooManyMessage)
      ensures Truthy(target) && |old(albums)| < MaxAlbums && insertError.Some? ==> r == Thrown(insertError.value)
      ensures !Truthy(target) || |old(albums)| >= MaxAlbums || insertError.Some? ==>
        table == old(table) && albums == old(albums) && loading == old(loading) && error == old(error)
      ensures Truthy(target) && |old(albums)| < MaxAlbums && insertError.None? ==>
        && r == Done && !loading
        && table == old(table) + [Album(newId, target.value, profileId, title, description)]
        && (refetchFailure.None? ==>
              && albums == NewestFirst(table, target.value) && error.None?
              && albums[0] == Album(newId, target.value, profileId, title, description))
        && (refetchFailure.Some? ==> albums == old(albums) && error == refetchFailure)
    {
      if !Truthy(target) {
        return Done;
      }
      if |albums| >= MaxAlbums {
        return Thrown(TooManyMessage);
      }
      if insertError.Some? {
        return Thrown(insertError.value);
      }
      var album := Album(newId, target.value, profileId, title, description);
      FilterAppend(table, [album], (a: Album) => a.patientId == target.value);
      table := table + [album];
      Fetch(target, refetchFailure);
      r := Done;
    }

    /** `deleteAlbum`: a failed delete throws; otherwise every album with the
        id goes and the list is refetched. */
    method DeleteAlbum(target: Option<string>, id: string, deleteError: Option<string>,
                       refetchFailure: Option<string>) returns (r: Outcome)
      modifies this
      ensures deleteError.Some? ==>
        && r == Thrown(deleteError.value)
        && table == old(table) && albums == old(albums) && loading == old(loading) && error == old(error)
      ensures deleteError.None? ==>
        && r == Done && !loading
        && table == Filter(old(table), (a: Album) => a.id != id)
        && (!Truthy(target) ==> albums == old(albums) && error == old(error))
        && (Truthy(target) && refetchFailure.None? ==>
              && albums == NewestFirst(table, target.value) && error.None?
              && forall a :: a in albums ==> a.id != id)
        && (Truthy(target) && refetchFailure.Some? ==> albums == old(albums) && error == refetchFailure)
    {
      if deleteError.Some? {
        return Thrown(deleteError.value);
      }
      table := Filter(table, (a: Album) => a.id != id);
      Fetch(target, refetchFailure);
      r := Done;
    }
  }
}
