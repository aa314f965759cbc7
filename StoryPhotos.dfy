/**
 * The photos of a story album (hooks/useStoryPhotos.ts): the upload checks in
 * the hook's order, the storage path of an upload, the `uploading` flag, the
 * two-step delete (storage, then database), and the signed URL attached to
 * each fetched photo. The `story_photos` table and the storage bucket are
 * fields of the hook's state; the services' answers, the random UUID and
 * the URL signer are parameters.
 */
module StoryPhotos {
  import opened Wrappers
  import opened JsText
  import opened Lists
  import TargetPatient

  const MaxFileSize: nat := 5 * 1024 * 1024
  const MaxPhotos: nat := 50
  const AllowedTypes: seq<string> := ["image/jpeg", "image/png", "image/webp"]
  const DefaultExtension: string := "jpg"

  const NoAlbumMessage: string := "Álbum no identificado."
  const TooManyMessage: string := "Máximo 50 fotos por álbum."
  const TooLargeMessage: string := "La imagen no debe superar los 5MB."
  const WrongTypeMessage: string := "Solo jpg, png o webp."
  const UploadFailedMessage: string := "Error al subir foto."
  const DeleteFailedPrefix: string := "Error al eliminar foto: "

  datatype Photo = Photo(id: string, albumId: string, patientId: string, createdBy: Option<string>,
                         imagePath: string, caption: Option<string>, signedUrl: Option<string>)

  /** The picked file: its name, size in bytes and MIME type. */
  datatype File = File(name: string, size: nat, mimeType: string)

  /** `targetUserId`: a caregiver works on the linked patient's photos, anyone else their own. */
  function Target(role: Option<string>, profileId: Option<string>, isLinked: bool,
                  patientId: Option<string>): (t: Option<string>)
    ensures TargetPatient.IsCaregiver(role) ==> t == TargetPatient.LinkedPatient(isLinked, patientId)
    ensures !TargetPatient.IsCaregiver(role) ==> t == profileId
  {
    TargetPatient.ForRole(role, isLinked, patientId, profileId)
  }

  /** Which check of `uploadPhoto` fails first, if any. */
  function UploadCheck(albumId: Option<string>, target: Option<string>, count: nat, file: File): (r: Option<string>)
    ensures r.None? <==>
      Truthy(albumId) && Truthy(target) && count < MaxPhotos && file.size <= MaxFileSize && file.mimeType in AllowedTypes
    ensures !Truthy(albumId) || !Truthy(target) ==> r == Some(NoAlbumMessage)
    ensures Truthy(albumId) && Truthy(target) && count >= MaxPhotos ==> r == Some(TooManyMessage)
    ensures Truthy(albumId) && Truthy(target) && count < MaxPhotos && file.size > MaxFileSize ==> r == Some(TooLargeMessage)
    ensures Truthy(albumId) && Truthy(target) && count < MaxPhotos && file.size <= MaxFileSize && file.mimeType !in AllowedTypes ==>
      r == Some(WrongTypeMessage)
  {
    if !Truthy(albumId) || !Truthy(target) then Some(NoAlbumMessage)
    else if count >= MaxPhotos then Some(TooManyMessage)
    else if file.size > MaxFileSize then Some(TooLargeMessage)
    else if file.mimeType !in AllowedTypes then Some(WrongTypeMessage)
    else None
  }

  /** `file.name.split('.').pop()?.toLowerCase() || 'jpg'`: the text after the
      last dot, lower-cased; the whole name when it has no dot; "jpg" only
      when that text is empty. */
  function Extension(fileName: string): (e: string)
    ensures e != "" && '.' !in e
    ensures '.' !in fileName && fileName != "" ==> e == ToLower(fileName)
    ensures fileName == "" || fileName[|fileName| - 1] == '.' ==> e == DefaultExtension
  {
    var last := ToLower(AfterLast(fileName, '.'));
    assert forall i :: 0 <= i < |last| ==> last[i] == LowerChar(AfterLast(fileName, '.')[i]);
    AfterLastWithoutSeparator(fileName);
    if last == "" then DefaultExtension else last
  }

  lemma {:induction false} AfterLastWithoutSeparator(s: string)
    ensures '.' !in s ==> AfterLast(s, '.') == s
  {
    if s != [] && '.' !in s {
      assert '.' !in s[..|s| - 1];
      AfterLastWithoutSeparator(s[..|s| - 1]);
    }
  }

  /** The storage path `{target}/{album}/{uuid}.{ext}`. */
  function StoragePath(target: string, albumId: string, uuid: string, fileName: string): (p: string)
    ensures p == target + "/" + albumId + "/" + uuid + "." + Extension(fileName)
  {
    target + "/" + albumId + "/" + uuid + "." + Extension(fileName)
  }

  /** The extension of `base.ext` is `ext` lower-cased, whatever the base holds. */
  lemma ExtensionOfDottedName(base: string, ext: string)
    requires ext != "" && '.' !in ext
    ensures Extension(base + "." + ext) == ToLower(ext)
  {
    AfterLastOfSuffix(base + ".", ext);
  }

  lemma {:induction false} AfterLastOfSuffix(s: string, ext: string)
    requires s != [] && s[|s| - 1] == '.' && '.' !in ext
    ensures AfterLast(s + ext, '.') == ext
  {
    if ext == [] {
      assert s + ext == s;
    } else {
      var init := ext[..|ext| - 1];
      assert '.' !in init;
      AfterLastOfSuffix(s, init);
      assert (s + ext)[..|s + ext| - 1] == s + init;
      assert init + [ext[|ext| - 1]] == ext;
    }
  }

  /** The photos of an album, newest first, each with the signed URL the
      signer gives its path, or none where signing failed. */
  function WithSignedUrls(table: seq<Photo>, albumId: string, sign: string -> Option<string>): (r: seq<Photo>)
    ensures |r| <= |table|
    ensures forall k :: 0 <= k < |r| ==> r[k].albumId == albumId && r[k].signedUrl == sign(r[k].imagePath)
    ensures forall p :: p in table && p.albumId == albumId ==> Signed(p, sign) in r
    ensures |r| == |InAlbum(table, albumId)|
    ensures forall k :: 0 <= k < |r| ==> r[k] == Signed(InAlbum(table, albumId)[|r| - 1 - k], sign)
  {
    var mine := InAlbum(table, albumId);
    var r := SignAll(Reverse(mine), sign);
    SignedInReverse(mine, sign, r);
    SignedRowsOfAlbum(table, albumId, sign, mine, r);
    r
  }

  /** Every photo listed is a row of the album's table with the signed URL of its own path. */
  lemma ListedPhotosAreSignedRows(table: seq<Photo>, albumId: string, sign: string -> Option<string>)
    ensures forall k :: 0 <= k < |WithSignedUrls(table, albumId, sign)| ==>
      SignedRowOf(table, albumId, sign, WithSignedUrls(table, albumId, sign)[k])
  {
    var mine := InAlbum(table, albumId);
    SignedRowsOfAlbum(table, albumId, sign, mine, WithSignedUrls(table, albumId, sign));
  }

  lemma SignedInReverse(rows: seq<Photo>, sign: string -> Option<string>, r: seq<Photo>)
    requires r == SignAll(Reverse(rows), sign)
    ensures |r| == |rows|
    ensures forall k :: 0 <= k < |r| ==> r[k] == Signed(rows[|r| - 1 - k], sign)
  {
  }

  lemma SignedRowsOfAlbum(table: seq<Photo>, albumId: string, sign: string -> Option<string>,
                          mine: seq<Photo>, r: seq<Photo>)
    requires forall p :: p in mine <==> p in table && p.albumId == albumId
    requires |r| == |mine| && forall k :: 0 <= k < |r| ==> r[k] == Signed(mine[|r| - 1 - k], sign)
    ensures forall k :: 0 <= k < |r| ==> r[k].albumId == albumId && r[k].signedUrl == sign(r[k].imagePath)
    ensures forall p :: p in table && p.albumId == albumId ==> Signed(p, sign) in r
    ensures forall k :: 0 <= k < |r| ==> SignedRowOf(table, albumId, sign, r[k])
  {
    forall k | 0 <= k < |r|
      ensures r[k].albumId == albumId && r[k].signedUrl == sign(r[k].imagePath)
      ensures SignedRowOf(table, albumId, sign, r[k])
    {
      var p := mine[|r| - 1 - k];
      assert p in mine;
      assert p in table && p.albumId == albumId && r[k] == Signed(p, sign);
    }
    forall p | p in table && p.albumId == albumId ensures Signed(p, sign) in r {
      var k :| 0 <= k < |mine| && mine[k] == p;
      assert r[|mine| - 1 - k] == Signed(p, sign);
    }
  }

  /** The album's rows in table order, which is creation order. */
  function InAlbum(table: seq<Photo>, albumId: string): (r: seq<Photo>)
    ensures forall p :: p in r <==> p in table && p.albumId == albumId
    ensures |r| <= |table|
  {
    Filter(table, OfAlbum(albumId))
  }

  /** The test the fetch's `eq('album_id', albumId)` applies to a row. */
  function OfAlbum(albumId: string): Photo -> bool {
    (p: Photo) => p.albumId == albumId
  }

  /** `x` is a row of the album with the signed URL of its own path. */
  predicate SignedRowOf(table: seq<Photo>, albumId: string, sign: string -> Option<string>, x: Photo) {
    exists p :: p in table && p.albumId == albumId && x == Signed(p, sign)
  }

  /** A photo with the signed URL of its own path. */
  function Signed(p: Photo, sign: string -> Option<string>): Photo {
    p.(signedUrl := sign(p.imagePath))
  }

  /** The `map` over the fetched rows: each with its own signed URL, in order. */
  function SignAll(rows: seq<Photo>, sign: string -> Option<string>): (r: seq<Photo>)
    ensures |r| == |rows| && forall k :: 0 <= k < |r| ==> r[k] == Signed(rows[k], sign)
  {
    seq(|rows|, k requires 0 <= k < |rows| => Signed(rows[k], sign))
  }

  /** Of two photos of the album, the one created later is listed first. */
  lemma LaterPhotoComesFirst(table: seq<Photo>, albumId: string, sign: string -> Option<string>, p: nat, q: nat)
    requires p < q < |table| && table[p].albumId == albumId && table[q].albumId == albumId
    ensures exists i, j :: (0 <= i < j < |WithSignedUrls(table, albumId, sign)|
      && WithSignedUrls(table, albumId, sign)[i] == Signed(table[q], sign)
      && WithSignedUrls(table, albumId, sign)[j] == Signed(table[p], sign))
  {
    var mine := InAlbum(table, albumId);
    InAlbumKeepsOrder(table, albumId, p, q);
    var i, j :| 0 <= i < j < |mine| && mine[i] == table[p] && mine[j] == table[q];
    SignedInReverseOrder(mine, sign, WithSignedUrls(table, albumId, sign), i, j);
  }

  lemma SignedInReverseOrder(rows: seq<Photo>, sign: string -> Option<string>, r: seq<Photo>, i: nat, j: nat)
    requires |r| == |rows| && forall k :: 0 <= k < |r| ==> r[k] == Signed(rows[|r| - 1 - k], sign)
    requires i < j < |rows|
    ensures exists i', j' :: 0 <= i' < j' < |r| && r[i'] == Signed(rows[j], sign) && r[j'] == Signed(rows[i], sign)
  {
    assert r[|r| - 1 - j] == Signed(rows[j], sign);
    assert r[|r| - 1 - i] == Signed(rows[i], sign);
  }

  lemma InAlbumKeepsOrder(table: seq<Photo>, albumId: string, p: nat, q: nat)
    requires p < q < |table| && table[p].albumId == albumId && table[q].albumId == albumId
    ensures exists i, j :: (0 <= i < j < |InAlbum(table, albumId)|
      && InAlbum(table, albumId)[i] == table[p] && InAlbum(table, albumId)[j] == table[q])
  {
    var mine := Filter(table, OfAlbum(albumId));
    FilterKeepsOrder(table, OfAlbum(albumId), p, q);
    var i, j :| 0 <= i < j < |mine| && mine[i] == table[p] && mine[j] == table[q];
    assert InAlbum(table, albumId) == mine;
  }

  class Photos {
    var photos: seq<Photo>
    var loading: bool
    var uploading: bool
    var error: Option<string>
    /** The `story_photos` table. */
    var table: seq<Photo>
    /** The paths held by the storage bucket. */
    var storage: set<string>

    constructor (table: seq<Photo>, storage: set<string>)
      ensures photos == [] && loading && !uploading && error.None?
      ensures this.table == table && this.storage == storage
    {
      photos := [];
      loading := true;
      uploading := false;
      error := None;
      this.table := table;
      this.storage := storage;
    }

    /** `fetchPhotos`: without an album or a target only loading ends;
        otherwise the album's photos, newest first, with their signed URLs,
        or the failure is kept. */
    method Fetch(albumId: Option<string>, target: Option<string>, sign: string -> Option<string>,
                 failure: Option<string>)
      modifies this
      ensures table == old(table) && storage == old(storage) && uploading == old(uploading) && !loading
      ensures !Truthy(albumId) || !Truthy(target) ==> photos == old(photos) && error == old(error)
      ensures Truthy(albumId) && Truthy(target) && failure.None? ==>
        photos == WithSignedUrls(table, albumId.value, sign) && error.None?
      ensures Truthy(albumId) && Truthy(target) && failure.Some? ==> photos == old(photos) && error == failure
    {
      if !Truthy(albumId) || !Truthy(target) {
        loading := false;
        return;
      }
      loading := true;
      error := None;
      if failure.Some? {
        error := failure;
      } else {
        photos := WithSignedUrls(table, albumId.value, sign);
      }
      loading := false;
    }

    /**
     * `uploadPhoto`. The checks throw before anything starts. Then the file
     * goes to storage at its path, then the row goes to the table, then the
     * list is refetched; a failure at either write throws its message (or
     * the generic one) and stops there, so a failed row insert leaves the
     * stored file behind. `uploading` is false again on every exit.
     */
    method UploadPhoto(albumId: Option<string>, target: Option<string>, profileId: Option<string>,
                       file: File, caption: Option<string>, uuid: string, newId: string,
                       uploadError: Option<string>, insertError: Option<string>,
                       sign: string -> Option<string>, refetchFailure: Option<string>) returns (r: Outcome)
      modifies this
      ensures UploadCheck(albumId, target, |old(photos)|, file).Some? ==>
        r == Thrown(UploadCheck(albumId, target, |old(photos)|, file).value)
        && table == old(table) && storage == old(storage) && photos == old(photos) && uploading == old(uploading)
        && loading == old(loading) && error == old(error)
      ensures UploadCheck(albumId, target, |old(photos)|, file).None? ==>
        var path := StoragePath(target.value, albumId.value, uuid, file.name);
        && !uploading
        && (uploadError.Some? ==>
              r == Thrown(if uploadError.value == "" then UploadFailedMessage else uploadError.value)
              && table == old(table) && storage == old(storage))
        && (uploadError.None? ==> storage == old(storage) + {path})
        && (uploadError.None? && insertError.Some? ==>
              r == Thrown(if insertError.value == "" then UploadFailedMessage else insertError.value)
              && table == old(table))
        && (uploadError.Some? || insertError.Some? ==>
              photos == old(photos) && loading == old(loading) && error == old(error))
        && (uploadError.None? && insertError.None? ==>
              && r == Done && !loading
              && table == old(table) + [Photo(newId, albumId.value, target.value, profileId, path, caption, None)]
              && (refetchFailure.None? ==>
                    && photos == WithSignedUrls(table, albumId.value, sign) && error.None?
                    && Photo(newId, albumId.value, target.value, profileId, path, caption, sign(path)) in photos)
              && (refetchFailure.Some? ==> photos == old(photos) && error == refetchFailure))
    {
      var check := UploadCheck(albumId, target, |photos|, file);
      if check.Some? {
        return Thrown(check.value);
      }
      uploading := true;
      var path := StoragePath(target.value, albumId.value, uuid, file.name);
      if uploadError.Some? {
        r := Thrown(if uploadError.value == "" then UploadFailedMessage else uploadError.value);
      } else {
        storage := storage + {path};
        if insertError.Some? {
          r := Thrown(if insertError.value == "" then UploadFailedMessage else insertError.value);
        } else {
          var photo := Photo(newId, albumId.value, target.value, profileId, path, caption, None);
          table := table + [photo];
          assert photo in table;
          Fetch(albumId, target, sign, refetchFailure);
          r := Done;
        }
      }
      uploading := false;
    }

    /** `deletePhoto`: the file leaves storage first; if that fails nothing
        else happens. Then every row with the id leaves the table and the list
        is refetched. Any failure is thrown with the delete prefix. */
    method DeletePhoto(albumId: Option<string>, target: Option<string>, id: string, imagePath: string,
                       storageError: Option<string>, deleteError: Option<string>,
                       sign: string -> Option<string>, refetchFailure: Option<string>) returns (r: Outcome)
      modifies this
      ensures uploading == old(uploading)
      ensures storageError.Some? ==>
        r == Thrown(DeleteFailedPrefix + storageError.value) && storage == old(storage) && table == old(table)
      ensures storageError.None? ==> storage == old(storage) - {imagePath}
      ensures storageError.None? && deleteError.Some? ==>
        r == Thrown(DeleteFailedPrefix + deleteError.value) && table == old(table)
      ensures storageError.Some? || deleteError.Some? ==>
        photos == old(photos) && loading == old(loading) && error == old(error)
      ensures storageError.None? && deleteError.None? ==>
        && r == Done && !loading
        && table == Filter(old(table), (p: Photo) => p.id != id)
        && (!Truthy(albumId) || !Truthy(target) ==> photos == old(photos) && error == old(error))
        && (Truthy(albumId) && Truthy(target) && refetchFailure.None? ==>
              photos == WithSignedUrls(table, albumId.value, sign) && error.None?)
        && (Truthy(albumId) && Truthy(target) && refetchFailure.Some? ==>
              photos == old(photos) && error == refetchFailure)
    {
      if storageError.Some? {
        return Thrown(DeleteFailedPrefix + storageError.value);
      }
      storage := storage - {imagePath};
      if deleteError.Some? {
        return Thrown(DeleteFailedPrefix + deleteError.value);
      }
      table := Filter(table, (p: Photo) => p.id != id);
      Fetch(albumId, target, sign, refetchFailure);
      r := Done;
    }
  }
}
