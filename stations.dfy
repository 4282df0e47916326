/**
 * The station catalog (stations.go): a fixed, ordered list of internet radio stations,
 * an exact-match genre filter that keeps catalog order, and the set of distinct genres.
 */
module Stations {

  /** One catalog entry: its display name, stream URL, genre and one-line description. */
  datatype RadioStation = RadioStation(name: string, url: string, genre: string, description: string)

  /** The catalog entries, one constant per station. */
  const GrooveSalad: RadioStation := RadioStation("Groove Salad", "https://ice1.somafm.com/groovesalad-128-mp3", "Downtempo", "Chilled ambient/downtempo beats and grooves")
  const DroneZone: RadioStation := RadioStation("Drone Zone", "https://ice1.somafm.com/dronezone-128-mp3", "Ambient", "Deep ambient soundscapes for meditation")
  const Lush: RadioStation := RadioStation("Lush", "https://ice1.somafm.com/lush-128-mp3", "Dream Pop", "Sensuous vocals with electronic influence")
  const SpaceStation: RadioStation := RadioStation("Space Station", "https://ice1.somafm.com/spacestation-128-mp3", "Space Ambient", "Spaced-out ambient electronica")
  const Fluid: RadioStation := RadioStation("Fluid", "https://ice1.somafm.com/fluid-128-mp3", "Future Soul", "Instrumental hiphop and liquid trap")
  const BeatBlender: RadioStation := RadioStation("Beat Blender", "https://ice1.somafm.com/beatblender-128-mp3", "Deep House", "Late night deep-house and downtempo chill")
  const Vaporwaves: RadioStation := RadioStation("Vaporwaves", "https://ice1.somafm.com/vaporwaves-128-mp3", "Vaporwave", "Aesthetic vaporwave and future funk")
  const Underground80s: RadioStation := RadioStation("Underground 80s", "https://ice1.somafm.com/u80s-128-mp3", "Synthpop", "Early 80s UK synthpop and new wave")
  const DEFCONRadio: RadioStation := RadioStation("DEF CON Radio", "https://ice1.somafm.com/defcon-128-mp3", "Hacker", "Music for hacking - DEF CON vibes")
  const SecretAgent: RadioStation := RadioStation("Secret Agent", "https://ice1.somafm.com/secretagent-128-mp3", "Spy Jazz", "The soundtrack for your stylish life")
  const PlazaRadio: RadioStation := RadioStation("Plaza Radio", "https://radio.plaza.one/ogg", "Vaporwave", "24/7 vaporwave, synthwave, and aesthetic")
  const BassdriveDNB: RadioStation := RadioStation("Bassdrive DNB", "http://bassdrive.com/bassdrive3.m3u", "Drum & Bass", "World's largest drum & bass station")
  const ChillHopRadio: RadioStation := RadioStation("ChillHop Radio", "http://stream.laut.fm/chillhop", "Lofi Hip Hop", "24/7 chillhop and lofi hip hop beats")
  const DeepSpaceOne: RadioStation := RadioStation("Deep Space One", "https://ice1.somafm.com/deepspaceone-128-mp3", "Space Music", "Deep ambient electronic space music")
  const BootLiquor: RadioStation := RadioStation("Boot Liquor", "https://ice1.somafm.com/bootliquor-128-mp3", "Americana", "Roots music for cowpokes and indie rockers")
  const CliqhopIDM: RadioStation := RadioStation("Cliqhop IDM", "https://ice1.somafm.com/cliqhop-128-mp3", "IDM", "Blips, beeps and clicks of intelligent dance")
  const TheTrip: RadioStation := RadioStation("The Trip", "https://ice1.somafm.com/thetrip-128-mp3", "Psychedelic", "Progressive rock and trippy experimental music")
  const SevenInchSoul: RadioStation := RadioStation("Seven Inch Soul", "https://ice1.somafm.com/7soul-128-mp3", "Soul/R&B", "Vintage soul tracks from original 45 RPM vinyl")
  const MetalDetector: RadioStation := RadioStation("Metal Detector", "https://ice1.somafm.com/metal-128-mp3", "Metal", "From black to doom, thrash to post-metal")
  const FolkForward: RadioStation := RadioStation("Folk Forward", "https://ice1.somafm.com/folkfwd-128-mp3", "Folk", "Indie folk, alt-folk and folk classics")

  /** The catalog, in the order the application lists it. */
  function GetStations(): (stations: seq<RadioStation>)
  {
    [ GrooveSalad, DroneZone, Lush, SpaceStation,
      Fluid, BeatBlender, Vaporwaves, Underground80s,
      DEFCONRadio, SecretAgent, PlazaRadio, BassdriveDNB,
      ChillHopRadio, DeepSpaceOne, BootLiquor, CliqhopIDM,
      TheTrip, SevenInchSoul, MetalDetector, FolkForward
    ]
  }

  /**
   * No two catalog records are equal (their names already differ), so a record's value
   * identifies its position; the application compares station pointers, and this is why
   * comparing values instead picks out the same station.
   */
  lemma CatalogRecordsDistinct()
    ensures forall i, j :: 0 <= i < j < |GetStations()| ==> GetStations()[i].name != GetStations()[j].name
    ensures forall i, j :: 0 <= i < |GetStations()| && 0 <= j < |GetStations()| && GetStations()[i] == GetStations()[j] ==> i == j
  {
  }

  /** The stations of `stations` whose genre is exactly `genre`, in their original order. */
  function FilterByGenre(stations: seq<RadioStation>, genre: string): seq<RadioStation>
  {
    if |stations| == 0 then []
    else (if stations[0].genre == genre then [stations[0]] else []) + FilterByGenre(stations[1..], genre)
  }

  /** The filter is stable: filtering a concatenation filters each part and keeps them in order. */
  lemma {:induction false} FilterAppend(a: seq<RadioStation>, b: seq<RadioStation>, genre: string)
    ensures FilterByGenre(a + b, genre) == FilterByGenre(a, genre) + FilterByGenre(b, genre)
  {
    if |a| == 0 {
      assert a + b == b;
    } else {
      var head := if a[0].genre == genre then [a[0]] else [];
      assert (a + b)[0] == a[0];
      assert (a + b)[1..] == a[1..] + b;
      FilterAppend(a[1..], b, genre);
      calc {
        FilterByGenre(a + b, genre);
        head + FilterByGenre(a[1..] + b, genre);
        head + (FilterByGenre(a[1..], genre) + FilterByGenre(b, genre));
        (head + FilterByGenre(a[1..], genre)) + FilterByGenre(b, genre);
      }
    }
  }

  /** A station is in the filtered list exactly when it is in the input and has the genre. */
  lemma {:induction false} FilterMembership(stations: seq<RadioStation>, genre: string, x: RadioStation)
    ensures x in FilterByGenre(stations, genre) <==> x in stations && x.genre == genre
  {
    if |stations| > 0 {
      FilterMembership(stations[1..], genre, x);
      assert stations == [stations[0]] + stations[1..];
    }
  }

  /** The filter is empty exactly when no station has the genre; it never fails. */
  lemma FilterEmpty(stations: seq<RadioStation>, genre: string)
    ensures FilterByGenre(stations, genre) == [] <==> forall x :: x in stations ==> x.genre != genre
  {
    var r := FilterByGenre(stations, genre);
    if r != [] {
      FilterMembership(stations, genre, r[0]);
    } else {
      forall x | x in stations ensures x.genre != genre {
        FilterMembership(stations, genre, x);
      }
    }
  }

  /** stations.go's GetStationsByGenre: walks the catalog and appends each station of the genre. */
  method GetStationsByGenre(genre: string) returns (filtered: seq<RadioStation>)
    ensures filtered == FilterByGenre(GetStations(), genre)
    ensures forall x :: x in filtered <==> x in GetStations() && x.genre == genre
  {
    var stations := GetStations();
    filtered := [];
    for i := 0 to |stations|
      invariant filtered == FilterByGenre(stations[..i], genre)
    {
      FilterAppend(stations[..i], [stations[i]], genre);
      assert stations[..i + 1] == stations[..i] + [stations[i]];
      if stations[i].genre == genre {
        filtered := filtered + [stations[i]];
      }
    }
    assert stations[..|stations|] == stations;
    forall x ensures x in filtered <==> x in stations && x.genre == genre {
      FilterMembership(stations, genre, x);
    }
  }

  /** The genres that occur in `stations`. */
  function GenresOf(stations: seq<RadioStation>): set<string>
  {
    set x | x in stations :: x.genre
  }

  lemma GenresOfAppend(a: seq<RadioStation>, x: RadioStation)
    ensures GenresOf(a + [x]) == GenresOf(a) + {x.genre}
  {
    assert forall y :: y in a + [x] <==> y in a || y == x;
  }

  /** Lists, without repetition and in no particular order, the genres of `stations`. */
  method CollectGenres(stations: seq<RadioStation>) returns (genres: seq<string>)
    ensures forall g :: g in genres <==> g in GenresOf(stations)
    ensures forall i, j :: 0 <= i < j < |genres| ==> genres[i] != genres[j]
  {
    var genreMap: map<string, bool> := map[];
    for i := 0 to |stations|
      invariant genreMap.Keys == GenresOf(stations[..i])
    {
      assert stations[..i + 1] == stations[..i] + [stations[i]];
      GenresOfAppend(stations[..i], stations[i]);
      genreMap := genreMap[stations[i].genre := true];
    }
    assert stations[..|stations|] == stations;
    genres := [];
    var rest := genreMap.Keys;
    while rest != {}
      invariant rest <= genreMap.Keys
      invariant forall g :: g in genres <==> g in genreMap.Keys && g !in rest
      invariant forall i, j :: 0 <= i < j < |genres| ==> genres[i] != genres[j]
      decreases |rest|
    {
      var g :| g in rest;
      genres := genres + [g];
      rest := rest - {g};
    }
  }

  /**
   * stations.go's GetGenres: records every catalog genre as a key of a map, then lists
   * the map's keys. Go's map iteration order is unspecified, and so is the order here:
   * each key is picked arbitrarily among those not yet listed.
   */
  method GetGenres() returns (genres: seq<string>)
    ensures forall g :: g in genres <==> g in GenresOf(GetStations())
    ensures forall i, j :: 0 <= i < j < |genres| ==> genres[i] != genres[j]
  {
    genres := CollectGenres(GetStations());
  }

  /** When only position `k` has the genre, the filter is that one station. */
  lemma FilterOnlyAt(stations: seq<RadioStation>, genre: string, k: nat)
    requires k < |stations| && stations[k].genre == genre
    requires forall i :: 0 <= i < |stations| && i != k ==> stations[i].genre != genre
    ensures FilterByGenre(stations, genre) == [stations[k]]
  {
    var before, after := stations[..k], stations[k + 1..];
    assert stations == before + [stations[k]] + after;
    FilterAppend(before + [stations[k]], after, genre);
    FilterAppend(before, [stations[k]], genre);
    FilterEmpty(before, genre);
    FilterEmpty(after, genre);
  }

  /** When exactly positions `k1 < k2` have the genre, the filter is those two stations, in that order. */
  lemma FilterOnlyAtTwo(stations: seq<RadioStation>, genre: string, k1: nat, k2: nat)
    requires k1 < k2 < |stations| && stations[k1].genre == genre && stations[k2].genre == genre
    requires forall i :: 0 <= i < |stations| && i != k1 && i != k2 ==> stations[i].genre != genre
    ensures FilterByGenre(stations, genre) == [stations[k1], stations[k2]]
  {
    var before, after := stations[..k2], stations[k2 + 1..];
    assert stations == before + [stations[k2]] + after;
    FilterAppend(before + [stations[k2]], after, genre);
    FilterAppend(before, [stations[k2]], genre);
    FilterOnlyAt(before, genre, k1);
    FilterEmpty(after, genre);
  }

  /** The match is exact: "Ambient" selects Drone Zone and not Space Station, whose genre is "Space Ambient". */
  lemma AmbientIsExactMatch()
    ensures FilterByGenre(GetStations(), "Ambient") == [DroneZone]
    ensures SpaceStation !in FilterByGenre(GetStations(), "Ambient")
  {
    var s := GetStations();
    assert forall i :: 0 <= i < |s| && i != 1 ==> s[i].genre != "Ambient";
    FilterOnlyAt(s, "Ambient", 1);
  }

  /** "Vaporwave" selects Vaporwaves and then Plaza Radio, in catalog order. */
  lemma VaporwaveInCatalogOrder()
    ensures FilterByGenre(GetStations(), "Vaporwave") == [Vaporwaves, PlazaRadio]
  {
    var s := GetStations();
    assert forall i :: 0 <= i < |s| && i != 6 && i != 10 ==> s[i].genre != "Vaporwave";
    FilterOnlyAtTwo(s, "Vaporwave", 6, 10);
  }

  /** "Lofi Hip Hop" selects ChillHop Radio alone. */
  lemma LofiHipHopIsChillHop()
    ensures FilterByGenre(GetStations(), "Lofi Hip Hop") == [ChillHopRadio]
  {
    var s := GetStations();
    assert forall i :: 0 <= i < |s| && i != 12 ==> s[i].genre != "Lofi Hip Hop";
    FilterOnlyAt(s, "Lofi Hip Hop", 12);
  }

  /** A genre that no station has, such as "Jazz", selects nothing rather than failing. */
  lemma MissingGenreIsEmpty()
    ensures FilterByGenre(GetStations(), "Jazz") == []
  {
    var s := GetStations();
    assert forall i :: 0 <= i < |s| ==> s[i].genre != "Jazz";
    FilterEmpty(s, "Jazz");
  }
}
