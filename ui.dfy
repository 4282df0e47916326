/**
 * The rendering helpers of ui.go: the logo choice and its name, the lines of the
 * station list, of the "now playing" box and of the station details, and the
 * frames of the two animations. Styling belongs to the lipgloss library and is not
 * modelled: every helper takes `render`, which stands for `Style.Render` and about
 * which nothing is assumed.
 */
module Ui {
  import opened Wrappers
  import opened Text
  import opened Stations

  /** ui.go's LogoType: any int, of which three are named. */
  newtype LogoType = int {
    /** The logo's display name; every value other than Pepe and None shows as the original logo. */
    function String(): (name: string)
      ensures name == "Pepe" <==> this == LogoPepe
      ensures name == "None" <==> this == LogoNone
      ensures name == "GoRadio Hub" <==> this != LogoPepe && this != LogoNone
    {
      if this == LogoOriginal then "GoRadio Hub"
      else if this == LogoPepe then "Pepe"
      else if this == LogoNone then "None"
      else "GoRadio Hub"
    }
  }

  const LogoOriginal: LogoType := 0
  const LogoPepe: LogoType := 1
  const LogoNone: LogoType := 2

  const GoRadioLogo: string := "\n  ╔══════════════════════════════════════════════════╗\n  ║           G O R A D I O   H U B                  ║\n  ║         ~ Terminal Music Player v1.0 ~           ║\n  ╚══════════════════════════════════════════════════╝\n"

  const PepeLogo: string := "\n      ╔═══════════════════════════════════╗\n      ║          ,-._____.-.              ║\n      ║         /  o     o  \\             ║\n      ║        |       >      |           ║\n      ║        |   \\_______/   |           ║\n      ║         \\             /           ║\n      ║          '-.______.-'             ║\n      ║                                   ║\n      ║   \U{1F438} F E E L S  G O O D  M A N   ║\n      ║        ~ Bringing Da Vibes ~      ║\n      ╚═══════════════════════════════════╝\n"

  /** The lipgloss styles the helpers use; what they look like is not modelled. */
  datatype Style =
    | LogoStyle | PepeStyle | TitleStyle | SelectedItemStyle | NormalItemStyle
    | NowPlayingStyle | StationInfoStyle | StatusStyle | MutedStyle

  const NoStationSelected := "No station selected"
  const SelectStationHint := "Select a station to see details"
  const NowPlayingPrefix := "♫ Now Playing: "

  /** The art of the chosen logo in its style; nothing for LogoNone. */
  function RenderLogo(logo: LogoType, render: (Style, string) -> string): string
  {
    if logo == LogoOriginal then render(LogoStyle, GoRadioLogo)
    else if logo == LogoPepe then render(PepeStyle, PepeLogo)
    else if logo == LogoNone then ""
    else render(LogoStyle, GoRadioLogo)
  }

  /** The logo drawn always agrees with the name shown for it; "None" draws nothing. */
  lemma LogoMatchesName(logo: LogoType, render: (Style, string) -> string)
    ensures logo.String() == "None" ==> RenderLogo(logo, render) == ""
    ensures logo.String() == "Pepe" ==> RenderLogo(logo, render) == render(PepeStyle, PepeLogo)
    ensures logo.String() == "GoRadio Hub" ==> RenderLogo(logo, render) == render(LogoStyle, GoRadioLogo)
  {
  }

  // ---------------------------------------------------------------------------
  // The station list
  // ---------------------------------------------------------------------------

  /** The text of list entry `index`: two spaces, the 1-based number, the name and the genre in parentheses. */
  function StationLine(station: RadioStation, index: nat): string
  {
    "  " + NatToString(index + 1) + ". " + station.name + " (" + station.genre + ")"
  }

  /** The number a list entry shows reads back as its 1-based position. */
  lemma StationLineNumber(station: RadioStation, index: nat)
    ensures exists digits :: StationLine(station, index) == "  " + digits + ". " + station.name + " (" + station.genre + ")"
              && (forall k :: 0 <= k < |digits| ==> IsDigit(digits[k]))
              && DecimalValue(digits) == index + 1
  {
    DecimalRoundTrip(index + 1);
    var digits := NatToString(index + 1);
    assert StationLine(station, index) == "  " + digits + ". " + station.name + " (" + station.genre + ")";
  }

  /** Only the selected entry is highlighted. */
  function ItemStyle(index: int, selected: int): Style
  {
    if index == selected then SelectedItemStyle else NormalItemStyle
  }

  /** One past the last index shown: the window's end, cut off at the end of the list. */
  function ListEnd(count: nat, startIdx: int, visibleCount: int): (end: int)
    ensures end <= count && end <= startIdx + visibleCount
    ensures end == count || end == startIdx + visibleCount
  {
    if startIdx + visibleCount > count then count else startIdx + visibleCount
  }

  /** The styled entries for the indices from `start` up to (not including) `end`, in order. */
  function ListLines(stations: seq<RadioStation>, selected: int, start: int, end: int,
                     render: (Style, string) -> string): (lines: seq<string>)
    requires end <= start || (0 <= start && end <= |stations|)
    ensures |lines| == if start < end then end - start else 0
    decreases end - start
  {
    if end <= start then []
    else ListLines(stations, selected, start, end - 1, render)
         + [render(ItemStyle(end - 1, selected), StationLine(stations[end - 1], end - 1))]
  }

  /** Entry `k` of the list is index `start + k`, numbered and styled for that index. */
  lemma {:induction false} ListLinesAt(stations: seq<RadioStation>, selected: int, start: int, end: int,
                                       render: (Style, string) -> string, k: nat)
    requires end <= start || (0 <= start && end <= |stations|)
    requires k < |ListLines(stations, selected, start, end, render)|
    ensures 0 <= start + k < |stations|
    ensures ListLines(stations, selected, start, end, render)[k]
            == render(ItemStyle(start + k, selected), StationLine(stations[start + k], start + k))
    decreases end - start
  {
    if k < end - 1 - start {
      ListLinesAt(stations, selected, start, end - 1, render, k);
    }
  }

  /**
   * The list rendered for the window that starts at `startIdx` and holds `visibleCount`
   * entries: one styled entry per index shown, joined by newlines. A negative start
   * with a non-empty window would index before the list, so callers do not pass one.
   */
  method RenderStationList(stations: seq<RadioStation>, selected: int, startIdx: int, visibleCount: int,
                           render: (Style, string) -> string) returns (r: string)
    requires 0 <= startIdx || visibleCount <= 0
    ensures r == Join(ListLines(stations, selected, startIdx, ListEnd(|stations|, startIdx, visibleCount), render), "\n")
  {
    var endIdx := startIdx + visibleCount;
    if endIdx > |stations| {
      endIdx := |stations|;
    }
    var items: seq<string> := [];
    var i := startIdx;
    while i < endIdx
      invariant startIdx <= i <= endIdx || i == startIdx
      invariant items == ListLines(stations, selected, startIdx, i, render)
      decreases endIdx - i
    {
      var line := "  " + NatToString(i + 1) + ". " + stations[i].name;
      line := line + " (" + stations[i].genre + ")";
      assert line == StationLine(stations[i], i);
      if i == selected {
        line := render(SelectedItemStyle, line);
      } else {
        line := render(NormalItemStyle, line);
      }
      items := items + [line];
      i := i + 1;
    }
    r := Join(items, "\n");
  }

  /**
   * When the selection lies inside the window, the list shows it highlighted at its
   * offset in the window, and every other entry shown in the normal style.
   */
  lemma SelectedEntryHighlighted(stations: seq<RadioStation>, selected: int, startIdx: int, visibleCount: int,
                                 render: (Style, string) -> string)
    requires 0 <= startIdx <= selected < |stations| && selected < startIdx + visibleCount
    ensures var lines := ListLines(stations, selected, startIdx, ListEnd(|stations|, startIdx, visibleCount), render);
            && selected - startIdx < |lines|
            && lines[selected - startIdx] == render(SelectedItemStyle, StationLine(stations[selected], selected))
            && forall k :: 0 <= k < |lines| && k != selected - startIdx ==>
                 lines[k] == render(NormalItemStyle, StationLine(stations[startIdx + k], startIdx + k))
  {
    var end := ListEnd(|stations|, startIdx, visibleCount);
    var lines := ListLines(stations, selected, startIdx, end, render);
    ListLinesAt(stations, selected, startIdx, end, render, selected - startIdx);
    forall k | 0 <= k < |lines| && k != selected - startIdx
      ensures lines[k] == render(NormalItemStyle, StationLine(stations[startIdx + k], startIdx + k))
    {
      ListLinesAt(stations, selected, startIdx, end, render, k);
    }
  }

  /** A window that reaches past the end of the list shows the entries up to the end and no more. */
  lemma ListShowsMinOfWindowAndRest(stations: seq<RadioStation>, selected: int, startIdx: int, visibleCount: int,
                                    render: (Style, string) -> string)
    requires 0 <= startIdx <= |stations| && 0 <= visibleCount
    ensures |ListLines(stations, selected, startIdx, ListEnd(|stations|, startIdx, visibleCount), render)|
            == if visibleCount < |stations| - startIdx then visibleCount else |stations| - startIdx
  {
  }

  // ---------------------------------------------------------------------------
  // The "now playing" box and the station details
  // ---------------------------------------------------------------------------

  /** The lines of the "now playing" box: name, genre and status, then a blank line and the song when there is one. */
  function NowPlayingContent(station: RadioStation, song: string, status: string, render: (Style, string) -> string): seq<string>
  {
    [render(StationInfoStyle, "♪ " + station.name), "Genre: " + station.genre, "Status: " + status]
      + (if song != "" then ["", NowPlayingPrefix + song] else [])
  }

  /** The song line is there exactly when there is a song, and it is the last line. */
  lemma SongLineIffSong(station: RadioStation, song: string, status: string, render: (Style, string) -> string)
    ensures var content := NowPlayingContent(station, song, status, render);
            && (|content| == 5 <==> song != "")
            && (|content| == 3 <==> song == "")
            && content[1] == "Genre: " + station.genre && content[2] == "Status: " + status
            && (song != "" ==> content[4] == NowPlayingPrefix + song)
  {
  }

  /** The "now playing" box for the current station, or a note that there is none. */
  method RenderNowPlaying(station: Option<RadioStation>, song: string, status: string,
                          render: (Style, string) -> string) returns (r: string)
    ensures station.None? ==> r == render(StatusStyle, NoStationSelected)
    ensures station.Some? ==> r == render(NowPlayingStyle, Join(NowPlayingContent(station.value, song, status, render), "\n"))
  {
    if station.None? {
      return render(StatusStyle, NoStationSelected);
    }
    var s := station.value;
    var content := [render(StationInfoStyle, "♪ " + s.name), "Genre: " + s.genre, "Status: " + status];
    if song != "" {
      content := content + [""];
      content := content + [NowPlayingPrefix + song];
    }
    assert content == NowPlayingContent(s, song, status, render);
    r := render(NowPlayingStyle, Join(content, "\n"));
  }

  /** The seven lines of the details of a station. */
  function StationInfoLines(station: RadioStation, render: (Style, string) -> string): seq<string>
  {
    [render(TitleStyle, station.name), "Genre: " + station.genre, "", "Description:", station.description, "",
     "Stream URL: " + station.url]
  }

  /** The details of a station, or a hint when none is given. */
  function RenderStationInfo(station: Option<RadioStation>, render: (Style, string) -> string): string
  {
    match station
    case None => render(MutedStyle, SelectStationHint)
    case Some(s) => Join(StationInfoLines(s, render), "\n")
  }

  /**
   * Read back line by line, the details are the lines of the styled name followed by
   * genre, a blank line, "Description:", the description, a blank line and the URL,
   * whatever the style does to the name.
   */
  lemma StationInfoReadsBack(station: RadioStation, render: (Style, string) -> string)
    requires '\n' !in station.genre && '\n' !in station.description && '\n' !in station.url
    ensures Split(RenderStationInfo(Some(station), render), '\n')
            == Split(render(TitleStyle, station.name), '\n')
               + ["Genre: " + station.genre, "", "Description:", station.description, "", "Stream URL: " + station.url]
  {
    var lines := StationInfoLines(station, render);
    var rest := lines[1..];
    assert lines == [lines[0]] + rest;
    assert Join(lines, "\n") == lines[0] + "\n" + Join(rest, "\n");
    assert '\n' !in "Genre: " && '\n' !in "Stream URL: " && '\n' !in "Description:";
    NotInConcat('\n', "Genre: ", station.genre);
    NotInConcat('\n', "Stream URL: ", station.url);
    SplitJoin(rest, '\n');
    SplitConcat(lines[0], '\n', Join(rest, "\n"));
  }

  // ---------------------------------------------------------------------------
  // Animation frames
  // ---------------------------------------------------------------------------

  const MusicNotes: seq<string> := ["♪", "♫", "♬", "♭", "♮", "♯"]

  const Waves: seq<string> := [
    "▁▂▃▄▅▆▇█",
    "▂▃▄▅▆▇█▁",
    "▃▄▅▆▇█▁▂",
    "▄▅▆▇█▁▂▃",
    "▅▆▇█▁▂▃▄",
    "▆▇█▁▂▃▄▅",
    "▇█▁▂▃▄▅▆",
    "█▁▂▃▄▅▆▇"
  ]

  /** The note for animation step `index`; a negative index would be out of range. */
  function GetMusicNote(index: int): string
    requires index >= 0
  {
    MusicNotes[index % |MusicNotes|]
  }

  /** The wave frame for animation step `step`; a negative step would be out of range. */
  function WaveAnimation(step: int): string
    requires step >= 0
  {
    Waves[step % |Waves|]
  }

  /** The notes repeat every six steps. */
  lemma MusicNoteIsPeriodic(n: nat)
    ensures GetMusicNote(n + |MusicNotes|) == GetMusicNote(n) && GetMusicNote(n) in MusicNotes
  {
  }

  /** The frame moved one position to the left, the first bar wrapping round to the end. */
  function RotateLeft(frame: string): string
    requires |frame| > 0
  {
    frame[1..] + [frame[0]]
  }

  /** Each frame of the wave is the previous one rotated, the first following the last. */
  lemma WaveFollowsByRotation(k: nat)
    requires k < |Waves|
    ensures Waves[(k + 1) % |Waves|] == RotateLeft(Waves[k])
  {
    if k == 0 {
      assert Waves[1] == RotateLeft(Waves[0]);
    } else if k == 1 {
      assert Waves[2] == RotateLeft(Waves[1]);
    } else if k == 2 {
      assert Waves[3] == RotateLeft(Waves[2]);
    } else if k == 3 {
      assert Waves[4] == RotateLeft(Waves[3]);
    } else if k == 4 {
      assert Waves[5] == RotateLeft(Waves[4]);
    } else if k == 5 {
      assert Waves[6] == RotateLeft(Waves[5]);
    } else if k == 6 {
      assert Waves[7] == RotateLeft(Waves[6]);
    } else {
      assert Waves[0] == RotateLeft(Waves[7]);
    }
  }

  /** From one step to the next the wave moves one bar to the left, and it repeats every eight steps. */
  lemma WaveAdvancesByRotation(n: nat)
    ensures WaveAnimation(n + 1) == RotateLeft(WaveAnimation(n))
    ensures WaveAnimation(n + |Waves|) == WaveAnimation(n)
  {
    var k := n % |Waves|;
    assert (n + 1) % |Waves| == (k + 1) % |Waves|;
    assert (n + |Waves|) % |Waves| == k;
    WaveFollowsByRotation(k);
  }
}
