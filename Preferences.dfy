/**
 * Font-size and volume preferences (contexts/PreferencesContext.tsx): each
 * value is read once from local storage, clamped by its setter, and written
 * back to storage whenever it changes.
 */
module Preferences {
  import opened Wrappers
  import opened JsText

  const FontSizeKey: string := "appFontSize"
  const VolumeKey: string := "appVolume"
  const DefaultFontSize: int := 16
  const DefaultVolume: int := 50
  const MinFontSize: int := 12
  const MaxFontSize: int := 24
  const MinVolume: int := 0
  const MaxVolume: int := 100

  /** A preference value: an integer, or `None` for the `NaN` that
      `parseInt` yields on stored text with no digits. */
  type Number = Option<int>

  /** `Math.max(lo, Math.min(hi, x))`. */
  function Clamp(x: int, lo: int, hi: int): (r: int)
    requires lo <= hi
    ensures lo <= r <= hi
    ensures lo <= x <= hi ==> r == x
    ensures x < lo ==> r == lo
    ensures x > hi ==> r == hi
  {
    if x < lo then lo else if x > hi then hi else x
  }

  /** Clamping twice is clamping once. */
  lemma ClampIdempotent(x: int, lo: int, hi: int)
    requires lo <= hi
    ensures Clamp(Clamp(x, lo, hi), lo, hi) == Clamp(x, lo, hi)
  {
  }

  /** `value.toString()` as written to storage. */
  function NumberText(v: Number): string {
    match v
    case Some(n) => IntToString(n)
    case None => "NaN"
  }

  /** The initial state value: `parseInt(saved, 10)` when an item is stored
      and non-empty, the default otherwise. */
  function Load(storage: map<string, string>, key: string, default: int): (v: Number)
    ensures key !in storage || storage[key] == "" ==> v == Some(default)
  {
    if key in storage && storage[key] != "" then ParseInt10(storage[key]) else Some(default)
  }

  /** What the storage effect writes is what the next load reads back, `NaN` included. */
  lemma LoadAfterStore(storage: map<string, string>, key: string, v: Number, default: int)
    ensures Load(storage[key := NumberText(v)], key, default) == v
  {
    match v
    case Some(n) =>
      ParseIntOfIntToString(n, false);
    case None =>
      var t := "NaN";
      assert TrimStart(t) == t;
      assert DigitPrefixLength(t, 10) == 0;
  }

  class PreferencesState {
    var fontSize: Number
    var volume: Number
    /** The `localStorage` items. */
    var storage: map<string, string>

    /** Both values stored by the effects. */
    ghost predicate Valid()
      reads this
    {
      && FontSizeKey in storage && storage[FontSizeKey] == NumberText(fontSize)
      && VolumeKey in storage && storage[VolumeKey] == NumberText(volume)
    }

    /** Mounting the provider: load both values, then the two effects store them. */
    constructor (saved: map<string, string>)
      ensures fontSize == Load(saved, FontSizeKey, DefaultFontSize)
      ensures volume == Load(saved, VolumeKey, DefaultVolume)
      ensures storage == saved[FontSizeKey := NumberText(fontSize)][VolumeKey := NumberText(volume)]
      ensures Valid()
    {
      fontSize := Load(saved, FontSizeKey, DefaultFontSize);
      volume := Load(saved, VolumeKey, DefaultVolume);
      storage := saved[FontSizeKey := NumberText(Load(saved, FontSizeKey, DefaultFontSize))]
                      [VolumeKey := NumberText(Load(saved, VolumeKey, DefaultVolume))];
    }

    /** `setFontSize` followed by its storage effect. `Math.min` and
        `Math.max` pass `NaN` through, so a `NaN` argument is kept as it is. */
    method SetFontSize(size: Number)
      modifies this
      requires Valid()
      ensures size.None? ==> fontSize.None?
      ensures size.Some? ==> fontSize == Some(Clamp(size.value, MinFontSize, MaxFontSize))
      ensures volume == old(volume)
      ensures storage == old(storage)[FontSizeKey := NumberText(fontSize)]
      ensures Valid()
      ensures Load(storage, FontSizeKey, DefaultFontSize) == fontSize
    {
      fontSize := if size.None? then None else Some(Clamp(size.value, MinFontSize, MaxFontSize));
      storage := storage[FontSizeKey := NumberText(fontSize)];
      LoadAfterStore(old(storage), FontSizeKey, fontSize, DefaultFontSize);
    }

    /** `setVolume` followed by its storage effect; a `NaN` argument is kept. */
    method SetVolume(vol: Number)
      modifies this
      requires Valid()
      ensures vol.None? ==> volume.None?
      ensures vol.Some? ==> volume == Some(Clamp(vol.value, MinVolume, MaxVolume))
      ensures fontSize == old(fontSize)
      ensures storage == old(storage)[VolumeKey := NumberText(volume)]
      ensures Valid()
      ensures Load(storage, VolumeKey, DefaultVolume) == volume
    {
      volume := if vol.None? then None else Some(Clamp(vol.value, MinVolume, MaxVolume));
      storage := storage[VolumeKey := NumberText(volume)];
      LoadAfterStore(old(storage), VolumeKey, volume, DefaultVolume);
    }
  }
}
