/**
 * Music recommendations by decade (hooks/useMusicRecommendations.ts): the
 * birth year whose youth decades are shown, the two decades, the Argentine
 * list built from a fixed table with generated ids, and the filter that
 * keeps only songs with a playable link.
 */
module Music {
  import opened Wrappers
  import opened JsText
  import opened Lists
  import RoleUtils

  const DefaultBirthYear: int := 1950

  /** A song as the fixed table holds it. */
  datatype Song = Song(decade: int, title: string, artist: string,
                       spotifyUrl: Option<string>, youtubeUrl: Option<string>)

  /** A song as the screen receives it, with its id. */
  datatype Recommendation = Recommendation(id: string, decade: int, title: string, artist: string,
                                           spotifyUrl: Option<string>, youtubeUrl: Option<string>)

  datatype Region = International | Argentina

  /** The answer of one query: its error message, or its data. */
  datatype Query<T> = QueryFailed(message: string) | Answered(value: T)

  const Songs1960: seq<Song> := [
    Song(1960, "La felicidad", "Palito Ortega",
         None, Some("https://www.youtube.com/watch?v=Z9As8OJ165w&list=RDZ9As8OJ165w&start_radio=1")),
    Song(1960, "Rosa Rosa", "Sandro",
         None, Some("https://www.youtube.com/watch?v=NeGN_cs9yfE&list=RDNeGN_cs9yfE&start_radio=1")),
    Song(1960, "Fuiste mía un verano", "Leonardo Favio",
         None, Some("https://www.youtube.com/watch?v=Ohuux_Rc2XU&list=RDOhuux_Rc2XU&start_radio=1"))]
  const Songs1970: seq<Song> := [
    Song(1970, "Rasguña las piedras", "Sui Generis",
         None, Some("https://www.youtube.com/watch?v=DrKRNJGAyHw&list=RDDrKRNJGAyHw&start_radio=1")),
    Song(1970, "Seminare", "Serú Girán",
         None, Some("https://www.youtube.com/watch?v=xVdtGR_zgdA&list=RDxVdtGR_zgdA&start_radio=1"))]
  const Songs1980: seq<Song> := [
    Song(1980, "De música ligera", "Soda Stereo",
         None, Some("https://www.youtube.com/watch?v=T_FkEw27XJ0&list=RDT_FkEw27XJ0&start_radio=1")),
    Song(1980, "Wadu Wadu", "Virus",
         None, Some("https://www.youtube.com/watch?v=iBCD4tsbHeE&list=RDiBCD4tsbHeE&start_radio=1"))]
  const Songs1990: seq<Song> := [
    Song(1990, "Matador", "Los Fabulosos Cadillacs",
         None, Some("https://www.youtube.com/watch?v=pjPA7CXutDw&list=RDpjPA7CXutDw&start_radio=1")),
    Song(1990, "Flaca", "Andrés Calamaro",
         None, Some("https://www.youtube.com/watch?v=UCF9oHXhDMU&list=RDUCF9oHXhDMU&start_radio=1"))]

  /** The Argentine songs by decade (utils/argentineMusicData.ts). */
  const ArgentineMusic: map<int, seq<Song>> :=
    map[1960 := Songs1960, 1970 := Songs1970, 1980 := Songs1980, 1990 := Songs1990]

  /** `if (!birthYear) birthYear = 1950`: no year, and the falsy year 0, fall back to 1950. */
  function EffectiveBirthYear(year: Option<int>): (y: int)
    ensures y != 0
    ensures year.Some? && year.value != 0 ==> y == year.value
    ensures year.None? ==> y == DefaultBirthYear
  {
    if year.None? || year.value == 0 then DefaultBirthYear else year.value
  }

  /** `Math.floor((birthYear + 10) / 10) * 10`: the decade that starts after the
      birth year, i.e. the one holding the tenth birthday or the one after. */
  function StartDecade(birthYear: int): (d: int)
    ensures d % 10 == 0
    ensures d - 10 <= birthYear < d
  {
    ((birthYear + 10) / 10) * 10
  }

  /** The two decades shown: the start decade and the next. */
  function Decades(birthYear: int): (ds: seq<int>)
    ensures |ds| == 2 && ds[1] == ds[0] + 10 && ds[0] == StartDecade(birthYear)
  {
    [StartDecade(birthYear), StartDecade(birthYear) + 10]
  }

  /** The worked examples: born 1950 gives the 1960s and 1970s, born 1948 the 1950s and 1960s. */
  lemma DecadeExamples()
    ensures Decades(1950) == [1960, 1970]
    ensures Decades(1948) == [1950, 1960]
  {
  }

  /**
   * The year whose decades are shown, or the failed query that stops the
   * fetch: a caregiver uses the linked patient's birth year (none when not
   * linked, so the default), anyone else their own.
   */
  function BirthYearOf(role: Option<string>, ownBirthYear: Option<int>,
                       link: Query<bool>, patientBirthYear: Query<Option<int>>): (q: Query<Option<int>>)
    ensures !RoleUtils.IsCaregiverRole(role) ==> q == Answered(ownBirthYear)
    ensures RoleUtils.IsCaregiverRole(role) && link == Answered(false) ==> q == Answered(None)
    ensures q.QueryFailed? ==> RoleUtils.IsCaregiverRole(role) && (link.QueryFailed? || patientBirthYear.QueryFailed?)
  {
    if !RoleUtils.IsCaregiverRole(role) then Answered(ownBirthYear)
    else match link
      case QueryFailed(m) => QueryFailed(m)
      case Answered(linked) => if linked then patientBirthYear else Answered(None)
  }

  /** An unlinked caregiver is shown the decades of 1950. */
  lemma UnlinkedCaregiverGetsDefault(role: Option<string>, own: Option<int>, patient: Query<Option<int>>)
    requires RoleUtils.IsCaregiverRole(role)
    ensures BirthYearOf(role, own, Answered(false), patient) == Answered(None)
    ensures Decades(EffectiveBirthYear(None)) == [1960, 1970]
  {
  }

  /** A Spotify or a YouTube link with something besides whitespace. */
  predicate Playable(spotifyUrl: Option<string>, youtubeUrl: Option<string>) {
    || (spotifyUrl.Some? && Trim(spotifyUrl.value) != "")
    || (youtubeUrl.Some? && Trim(youtubeUrl.value) != "")
  }

  /** The filter both regions apply. */
  predicate HasLink(r: Recommendation) {
    Playable(r.spotifyUrl, r.youtubeUrl)
  }

  /** The songs of one decade with their ids `arg-{decade}-{index}`. */
  function Tagged(decade: int, songs: seq<Song>): (r: seq<Recommendation>)
    ensures |r| == |songs|
    ensures forall k :: 0 <= k < |songs| ==>
      r[k] == Recommendation("arg-" + IntToString(decade) + "-" + NatToString(k),
                             songs[k].decade, songs[k].title, songs[k].artist,
                             songs[k].spotifyUrl, songs[k].youtubeUrl)
  {
    seq(|songs|, k requires 0 <= k < |songs| =>
      Recommendation("arg-" + IntToString(decade) + "-" + NatToString(k),
                     songs[k].decade, songs[k].title, songs[k].artist,
                     songs[k].spotifyUrl, songs[k].youtubeUrl))
  }

  /** The songs of a decade in the table, or none when the table lacks it. */
  function SongsOf(table: map<int, seq<Song>>, decade: int): seq<Song> {
    if decade in table then table[decade] else []
  }

  /** The Argentine list: each decade's tagged songs, decade after decade, in table order. */
  function ArgentineList(table: map<int, seq<Song>>, decades: seq<int>): (r: seq<Recommendation>)
    ensures decades == [] ==> r == []
  {
    if decades == [] then []
    else ArgentineList(table, decades[..|decades| - 1]) + Tagged(decades[|decades| - 1], SongsOf(table, decades[|decades| - 1]))
  }

  /** For the two decades shown: the first decade's songs, then the second's; a
      decade the table lacks contributes nothing. */
  lemma ArgentineListOfTwo(table: map<int, seq<Song>>, a: int, b: int)
    ensures ArgentineList(table, [a, b]) == Tagged(a, SongsOf(table, a)) + Tagged(b, SongsOf(table, b))
    ensures b !in table ==> ArgentineList(table, [a, b]) == Tagged(a, SongsOf(table, a))
  {
    assert [a, b][..1] == [a];
    assert [a][..0] == [];
  }

  /** The `forEach` that pushes each decade's tagged songs. */
  method BuildArgentineList(table: map<int, seq<Song>>, decades: seq<int>) returns (songs: seq<Recommendation>)
    ensures songs == ArgentineList(table, decades)
  {
    songs := [];
    for i := 0 to |decades|
      invariant songs == ArgentineList(table, decades[..i])
    {
      assert decades[..i + 1][..i] == decades[..i];
      songs := songs + Tagged(decades[i], SongsOf(table, decades[i]));
    }
    assert decades[..|decades|] == decades;
  }

  /** The hook's state. */
  class Recommendations {
    var recommendations: seq<Recommendation>
    var loading: bool
    var error: Option<string>

    constructor ()
      ensures recommendations == [] && loading && error.None?
    {
      recommendations := [];
      loading := true;
      error := None;
    }

    /**
     * The fetch effect. Without a user and profile nothing happens. A failed
     * query sets the error and ends loading, keeping the list. Otherwise the
     * list becomes the linked songs of the two decades: from the fixed table
     * for Argentina, from the fetched rows for the international region.
     */
    method Fetch(signedIn: bool, region: Region, role: Option<string>, ownBirthYear: Option<int>,
                 link: Query<bool>, patientBirthYear: Query<Option<int>>,
                 rows: Query<seq<Recommendation>>)
      modifies this
      ensures !signedIn ==> recommendations == old(recommendations) && loading == old(loading) && error == old(error)
      ensures signedIn ==> !loading
      ensures signedIn && BirthYearOf(role, ownBirthYear, link, patientBirthYear).QueryFailed? ==>
        && error == Some(BirthYearOf(role, ownBirthYear, link, patientBirthYear).message)
        && recommendations == old(recommendations)
      ensures signedIn && BirthYearOf(role, ownBirthYear, link, patientBirthYear).Answered? ==>
        var decades := Decades(EffectiveBirthYear(BirthYearOf(role, ownBirthYear, link, patientBirthYear).value));
        && (region == Argentina ==>
              recommendations == Filter(ArgentineList(ArgentineMusic, decades), HasLink) && error == old(error))
        && (region == International && rows.QueryFailed? ==>
              error == Some(rows.message) && recommendations == old(recommendations))
        && (region == International && rows.Answered? ==>
              recommendations == Filter(rows.value, HasLink) && error == old(error))
    {
      if !signedIn {
        return;
      }
      loading := true;
      var year := BirthYearOf(role, ownBirthYear, link, patientBirthYear);
      if year.QueryFailed? {
        error := Some(year.message);
        loading := false;
        return;
      }
      var decades := Decades(EffectiveBirthYear(year.value));
      if region == Argentina {
        var songs := BuildArgentineList(ArgentineMusic, decades);
        recommendations := Filter(songs, HasLink);
        loading := false;
      } else {
        match rows
        case QueryFailed(m) =>
          error := Some(m);
          loading := false;
        case Answered(data) =>
          recommendations := Filter(data, HasLink);
          loading := false;
      }
    }
  }
}
