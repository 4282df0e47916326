/**
 * The playback controller (player.go). A `Player` holds a state, the current station,
 * the handle of the mpv process it started, the last error message and a simulated
 * song title. `Play`, `Stop` and `Toggle` move it between states.
 *
 * The work that player.go does on other goroutines arrives here as explicit events:
 * the outcome of starting mpv (`OnStartOutcome`), the exit of the mpv process
 * (`OnProcessExit`) and one round of the title simulation (`OnMetadataTick`). The HTTP
 * fetch of a playlist is an input (`FetchResult`). Like player.go, nothing tags an
 * event with the session it belongs to, so a late event applies to whatever session
 * is current.
 *
 * Each method's new state is given by a function on `Session` values; the properties
 * of the controller are lemmas about those functions.
 */
module Playback {
  import opened Wrappers
  import opened Text
  import opened Stations

  /** player.go's PlayerState. */
  datatype PlayerState = Stopped | Playing | Loading | Error {
    /** The label shown in the status line. */
    function String(): string {
      match this
      case Stopped => "Stopped"
      case Playing => "Playing"
      case Loading => "Loading..."
      case Error => "Error"
    }
  }

  /** The four states have four different labels. */
  lemma StateLabelsDistinct(a: PlayerState, b: PlayerState)
    ensures a.String() == b.String() <==> a == b
    ensures a.String() != ""
  {
  }

  /** The mpv process started for a stream; only its identity matters here. */
  datatype ProcessHandle = ProcessHandle(pid: nat)

  /** What fetching a playlist URL produced: the body as text, or the error of the GET or of reading the body. */
  datatype FetchResult = Fetched(body: string) | FetchFailed(reason: string)

  /** What starting the mpv process produced. */
  datatype StartOutcome = Started(handle: ProcessHandle) | StartFailed(reason: string)

  const PlaylistSuffix := ".pls"
  const StreamEntryKey := "File1="
  const NoStreamUrlError := "no stream URL found in PLS file"
  const PlsErrorPrefix := "Failed to parse PLS: "
  const MpvHint := " (make sure mpv is installed)"
  const NoSongPlaceholder := "Loading track info..."

  /** The titles the metadata simulation rotates through. */
  const SampleTitles: seq<string> := [
    "Ambient Journey - Unknown Artist",
    "Chillwave Sunset - Synthmaster",
    "Lofi Dreams - Beat Producer",
    "Deep Space Meditation - Cosmic Sounds",
    "Retro Vibes - Synthwave Artist",
    "Study Session - Lofi Hip Hop",
    "Midnight Drive - Retrowave",
    "Ocean Waves - Ambient Collective",
    "City Lights - Electronic Dream",
    "Peaceful Mind - Meditation Music"
  ]

  /** The command line mpv is started with: audio only, no terminal, quiet, then the stream URL as given. */
  function MpvCommand(url: string): (argv: seq<string>)
    ensures |argv| == 5 && argv[0] == "mpv" && argv[|argv| - 1] == url
  {
    ["mpv", "--no-video", "--no-terminal", "--really-quiet", url]
  }

  /** The error text when mpv cannot be started. */
  function StartErrorMessage(reason: string): (message: string)
    ensures HasPrefix(message, "failed to start mpv: ") && HasSuffix(message, MpvHint)
    ensures |message| == |"failed to start mpv: "| + |reason| + |MpvHint|
    ensures message[|"failed to start mpv: "|..|message| - |MpvHint|] == reason
  {
    "failed to start mpv: " + reason + MpvHint
  }

  // ---------------------------------------------------------------------------
  // Resolving a playlist (parsePLS)
  // ---------------------------------------------------------------------------

  /** A line whose trimmed text starts with `File1=`. */
  predicate IsStreamEntry(line: string) {
    HasPrefix(TrimSpace(line), StreamEntryKey)
  }

  /** The URL a `File1=` line carries: its trimmed text after the key. */
  function EntryValue(line: string): string
    requires IsStreamEntry(line)
  {
    TrimSpace(line)[|StreamEntryKey|..]
  }

  /** The value of the first `File1=` line, if there is one. */
  function FirstStreamEntry(lines: seq<string>): Option<string>
  {
    if |lines| == 0 then None
    else if IsStreamEntry(lines[0]) then Some(EntryValue(lines[0]))
    else FirstStreamEntry(lines[1..])
  }

  /** The scan finds nothing exactly when no line is a `File1=` entry. */
  lemma {:induction false} FirstStreamEntryNone(lines: seq<string>)
    ensures FirstStreamEntry(lines) == None <==> forall i :: 0 <= i < |lines| ==> !IsStreamEntry(lines[i])
  {
    if |lines| > 0 {
      FirstStreamEntryNone(lines[1..]);
      assert forall i :: 1 <= i < |lines| ==> lines[i] == lines[1..][i - 1];
    }
  }

  /** First match wins: the scan returns the value of the earliest `File1=` line and ignores later ones. */
  lemma {:induction false} FirstStreamEntryAt(lines: seq<string>, i: nat)
    requires i < |lines| && IsStreamEntry(lines[i])
    requires forall j :: 0 <= j < i ==> !IsStreamEntry(lines[j])
    ensures FirstStreamEntry(lines) == Some(EntryValue(lines[i]))
  {
    if i > 0 {
      assert lines[1..][i - 1] == lines[i];
      FirstStreamEntryAt(lines[1..], i - 1);
    }
  }

  /** What parsePLS returns: the fetch error, or the first `File1=` value of the body's lines, or the "not found" error. */
  function PlsResult(fetched: FetchResult): Result<string, string>
  {
    match fetched
    case FetchFailed(reason) => Err(reason)
    case Fetched(body) =>
      match FirstStreamEntry(Split(body, '\n'))
      case Some(url) => Ok(url)
      case None => Err(NoStreamUrlError)
  }

  /** player.go's parsePLS after the fetch: splits the body into lines and returns at the first `File1=` line. */
  method ParsePls(fetched: FetchResult) returns (r: Result<string, string>)
    ensures r == PlsResult(fetched)
  {
    match fetched {
      case FetchFailed(reason) =>
        return Err(reason);
      case Fetched(body) =>
        var lines := Split(body, '\n');
        for i := 0 to |lines|
          invariant FirstStreamEntry(lines[i..]) == FirstStreamEntry(lines)
        {
          var line := TrimSpace(lines[i]);
          if HasPrefix(line, StreamEntryKey) {
            return Ok(line[|StreamEntryKey|..]);
          }
          assert lines[i..][1..] == lines[i + 1..];
        }
        return Err(NoStreamUrlError);
    }
  }

  /** The stream mpv is given: the station URL itself, or for a `.pls` URL the playlist's first entry. */
  function ResolveStreamUrl(url: string, fetched: FetchResult): Result<string, string>
  {
    if HasSuffix(url, PlaylistSuffix) then PlsResult(fetched) else Ok(url)
  }

  /** The stream URL of Play: the station URL itself, or for a `.pls` URL what parsePLS returns. */
  method ResolveStream(url: string, fetched: FetchResult) returns (r: Result<string, string>)
    ensures r == ResolveStreamUrl(url, fetched)
  {
    if HasSuffix(url, PlaylistSuffix) {
      r := ParsePls(fetched);
    } else {
      r := Ok(url);
    }
  }

  /** A URL that is not a playlist is passed on unchanged, whatever a fetch would have returned: it is never fetched. */
  lemma DirectUrlIsNotFetched(url: string, f1: FetchResult, f2: FetchResult)
    requires !HasSuffix(url, PlaylistSuffix)
    ensures ResolveStreamUrl(url, f1) == ResolveStreamUrl(url, f2) == Ok(url)
  {
  }

  /** `File1=<url>` is an entry carrying `url`, when `url` does not end in a space. */
  lemma EntryLineValue(line: string, url: string)
    requires line == StreamEntryKey + url
    requires |url| > 0 && !IsSpace(url[|url| - 1])
    ensures IsStreamEntry(line) && EntryValue(line) == url
  {
    assert line[0] == 'F' && line[|line| - 1] == url[|url| - 1];
    TrimSpaceOfUnpadded(line);
    assert line[..|StreamEntryKey|] == StreamEntryKey;
  }

  /**
   * In a playlist body, the stream is the URL of the earliest `File1=` line, at whatever
   * line it stands and whatever lines follow it.
   */
  lemma PlaylistEntryAt(lines: seq<string>, i: nat, url: string)
    requires forall k :: 0 <= k < |lines| ==> '\n' !in lines[k]
    requires i < |lines| && lines[i] == StreamEntryKey + url
    requires forall j :: 0 <= j < i ==> !IsStreamEntry(lines[j])
    requires |url| > 0 && !IsSpace(url[|url| - 1])
    ensures PlsResult(Fetched(Join(lines, "\n"))) == Ok(url)
  {
    SplitJoin(lines, '\n');
    EntryLineValue(lines[i], url);
    FirstStreamEntryAt(lines, i);
  }

  /** The usual two-entry playlist, `File1=<u>` then `File2=<v>`, plays `u`. */
  lemma TwoEntryPlaylistPlaysFirst(u: string, v: string)
    requires '\n' !in u && '\n' !in v
    requires |u| > 0 && !IsSpace(u[|u| - 1])
    ensures PlsResult(Fetched(StreamEntryKey + u + "\n" + "File2=" + v)) == Ok(u)
  {
    var lines := [StreamEntryKey + u, "File2=" + v];
    NotInConcat('\n', StreamEntryKey, u);
    NotInConcat('\n', "File2=", v);
    assert lines[1..] == ["File2=" + v];
    assert Join(lines, "\n") == StreamEntryKey + u + "\n" + "File2=" + v;
    PlaylistEntryAt(lines, 0, u);
  }

  /** A body without a `File1=` line fails with the fixed message. */
  lemma PlaylistWithoutEntryFails(body: string)
    requires forall i :: 0 <= i < |Split(body, '\n')| ==> !IsStreamEntry(Split(body, '\n')[i])
    ensures PlsResult(Fetched(body)) == Err(NoStreamUrlError)
  {
    FirstStreamEntryNone(Split(body, '\n'));
  }

  // ---------------------------------------------------------------------------
  // The session and its transitions
  // ---------------------------------------------------------------------------

  /** The fields of a Player, as one value. */
  datatype Session = Session(
    state: PlayerState,
    currentStation: Option<RadioStation>,
    cmd: Option<ProcessHandle>,
    errorMessage: string,
    currentTitle: string)

  const InitialSession := Session(Stopped, None, None, "", "")

  /**
   * What every reachable session satisfies: while loading there is a station and nothing
   * else (no process, no error, no title); an error always has a message; a playing
   * session always has a process.
   */
  predicate Consistent(s: Session) {
    && (s.state == Loading ==> s.currentStation.Some? && s.cmd.None? && s.errorMessage == "" && s.currentTitle == "")
    && (s.state == Error ==> s.errorMessage != "")
    && (s.state == Playing ==> s.cmd.Some?)
  }

  /** Stop: whatever the state, the process is dropped, the station and title are cleared and the state is Stopped; the error message stays. */
  function StopSession(s: Session): (r: Session)
    ensures r.state == Stopped && r.currentStation.None? && r.cmd.None? && r.currentTitle == ""
    ensures r.errorMessage == s.errorMessage
    ensures Consistent(r)
  {
    s.(state := Stopped, currentStation := None, cmd := None, currentTitle := "")
  }

  /**
   * Play: the previous session is stopped, the station becomes current and the state
   * Loading with the error cleared; if the stream could not be resolved the state is
   * Error with the resolution error as message and the station kept.
   */
  function PlaySession(s: Session, station: RadioStation, resolved: Result<string, string>): (r: Session)
    ensures Consistent(r)
  {
    var loading := StopSession(s).(state := Loading, currentStation := Some(station), errorMessage := "");
    match resolved
    case Ok(_) => loading
    case Err(reason) => loading.(state := Error, errorMessage := PlsErrorPrefix + reason)
  }

  /** The outcome of starting mpv: on success the process is recorded and the state is Playing; on failure the state is Error. Neither checks the current state. */
  function StartSession(s: Session, outcome: StartOutcome): (r: Session)
    ensures Consistent(s) ==> Consistent(r)
  {
    match outcome
    case Started(handle) => s.(cmd := Some(handle), state := Playing)
    case StartFailed(reason) => s.(state := Error, errorMessage := StartErrorMessage(reason))
  }

  /** mpv exited: a Playing session becomes Stopped, keeping its station and process handle; any other session is left alone. */
  function ExitSession(s: Session): (r: Session)
    ensures Consistent(s) ==> Consistent(r)
  {
    if s.state == Playing then s.(state := Stopped) else s
  }

  /** One round of the title simulation: while Playing with a station, the title becomes the sample for the current three-minute slot. */
  function TickSession(s: Session, now: nat): (r: Session)
    ensures Consistent(s) ==> Consistent(r)
  {
    if s.state == Playing && s.currentStation.Some? then s.(currentTitle := SampleTitles[(now / 180) % |SampleTitles|]) else s
  }

  /**
   * A round of the title simulation changes nothing but the title, changes anything only
   * while Playing with a station, and then sets one of the sample titles.
   */
  lemma TickOnlySetsTitleWhilePlaying(s: Session, now: nat)
    ensures TickSession(s, now).(currentTitle := s.currentTitle) == s
    ensures TickSession(s, now) != s ==> s.state == Playing && s.currentStation.Some?
    ensures s.state == Playing && s.currentStation.Some? ==> TickSession(s, now).currentTitle in SampleTitles
  {
  }

  /** The song line: the title, or a placeholder while there is none. */
  function CurrentSong(title: string): (song: string)
    ensures song != ""
    ensures title != "" ==> song == title
    ensures title == "" ==> song == NoSongPlaceholder
  {
    if title == "" then NoSongPlaceholder else title
  }

  /** Stop is idempotent and never touches the error message. */
  lemma StopIsIdempotent(s: Session)
    ensures StopSession(StopSession(s)) == StopSession(s)
    ensures StopSession(s).errorMessage == s.errorMessage
  {
  }

  /** Stop changes nothing exactly when the session is already stopped and cleared. */
  lemma StopIsNoOpIff(s: Session)
    ensures StopSession(s) == s <==> s.state == Stopped && s.currentStation.None? && s.cmd.None? && s.currentTitle == ""
  {
  }

  /** Playing a direct stream URL: Loading, with the station current and the error cleared. */
  lemma PlayDirectStream(s: Session, station: RadioStation, fetched: FetchResult)
    requires !HasSuffix(station.url, PlaylistSuffix)
    ensures ResolveStreamUrl(station.url, fetched) == Ok(station.url)
    ensures var r := PlaySession(s, station, ResolveStreamUrl(station.url, fetched));
            r.state == Loading && r.currentStation == Some(station) && r.errorMessage == "" && r.cmd.None?
  {
  }

  /** Playing a playlist that cannot be resolved: Error, with the reason behind a fixed prefix and the station kept. */
  lemma PlayUnresolvedPlaylist(s: Session, station: RadioStation, fetched: FetchResult)
    requires HasSuffix(station.url, PlaylistSuffix) && PlsResult(fetched).Err?
    ensures var r := PlaySession(s, station, ResolveStreamUrl(station.url, fetched));
            r.state == Error && r.currentStation == Some(station)
            && r.errorMessage == PlsErrorPrefix + PlsResult(fetched).error
  {
  }

  /** After a play, a successful start makes the session Playing with that station and process. */
  lemma PlayThenStarted(s: Session, station: RadioStation, url: string, handle: ProcessHandle)
    ensures var r := StartSession(PlaySession(s, station, Ok(url)), Started(handle));
            r.state == Playing && r.currentStation == Some(station) && r.cmd == Some(handle) && r.errorMessage == ""
  {
  }

  /** After a play, a failed start is an Error whose message names the missing mpv, with the station kept. */
  lemma PlayThenStartFailed(s: Session, station: RadioStation, url: string, reason: string)
    ensures var r := StartSession(PlaySession(s, station, Ok(url)), StartFailed(reason));
            r.state == Error && r.currentStation == Some(station) && HasSuffix(r.errorMessage, MpvHint)
  {
  }

  /** The exit of mpv stops only a Playing session and leaves any other untouched; the station stays current. */
  lemma ExitStopsOnlyPlaying(s: Session)
    ensures ExitSession(s).state == Stopped <==> s.state == Playing || s.state == Stopped
    ensures ExitSession(s).currentStation == s.currentStation
    ensures s.state != Playing ==> ExitSession(s) == s
  {
  }

  /**
   * Nothing ties a start outcome to the session it belongs to: a start that completes
   * after a stop makes the stopped player Playing again, with no station.
   */
  lemma LateStartRevivesStoppedPlayer(s: Session, handle: ProcessHandle)
    ensures var r := StartSession(StopSession(s), Started(handle));
            r.state == Playing && r.currentStation == None
  {
  }

  // ---------------------------------------------------------------------------
  // The controller object
  // ---------------------------------------------------------------------------

  /** player.go's Player. The metadata extractor's title is kept as a field of its own. */
  class Player {
    var state: PlayerState
    var currentStation: Option<RadioStation>
    var cmd: Option<ProcessHandle>
    var errorMessage: string
    var currentTitle: string

    /** The fields as one value. */
    function View(): Session
      reads this
    {
      Session(state, currentStation, cmd, errorMessage, currentTitle)
    }

    /** NewPlayer: Stopped, with no station, process, error or title. */
    constructor ()
      ensures View() == InitialSession && Consistent(View())
      ensures GetCurrentSong() == NoSongPlaceholder
    {
      state := Stopped;
      currentStation := None;
      cmd := None;
      errorMessage := "";
      currentTitle := "";
    }

    function GetState(): PlayerState
      reads this
    {
      state
    }

    function GetCurrentStation(): Option<RadioStation>
      reads this
    {
      currentStation
    }

    function GetErrorMessage(): string
      reads this
    {
      errorMessage
    }

    /** The title of the current song, or a placeholder when none has been produced. */
    function GetCurrentSong(): (song: string)
      reads this
      ensures song != ""
      ensures currentTitle == "" ==> song == NoSongPlaceholder
      ensures currentTitle != "" ==> song == currentTitle
    {
      CurrentSong(currentTitle)
    }

    /** Kills the mpv process if there is one (returned as `killed`) and resets the session. */
    method Stop() returns (killed: Option<ProcessHandle>)
      modifies this
      ensures View() == StopSession(old(View()))
      ensures killed == old(cmd)
    {
      killed := cmd;
      if cmd.Some? {
        cmd := None;
      }
      state := Stopped;
      currentStation := None;
      currentTitle := "";
    }

    /**
     * Stops the current session, makes `station` current and resolves its stream URL
     * (fetching the playlist when the URL ends in ".pls"). On success mpv is launched
     * in the background with the resolved URL (`launch`) and no error is returned; on
     * failure the error is returned and nothing is launched.
     */
    method Play(station: RadioStation, fetched: FetchResult)
      returns (err: Option<string>, launch: Option<seq<string>>, killed: Option<ProcessHandle>)
      modifies this
      ensures View() == PlaySession(old(View()), station, ResolveStreamUrl(station.url, fetched))
      ensures killed == old(cmd)
      ensures match ResolveStreamUrl(station.url, fetched)
              case Ok(url) => err == None && launch == Some(MpvCommand(url))
              case Err(reason) => err == Some(reason) && launch == None
    {
      killed := Stop();
      state := Loading;
      currentStation := Some(station);
      errorMessage := "";
      var resolved := ResolveStream(station.url, fetched);
      match resolved {
        case Err(reason) =>
          state := Error;
          errorMessage := PlsErrorPrefix + reason;
          err, launch := Some(reason), None;
        case Ok(streamUrl) =>
          err, launch := None, Some(MpvCommand(streamUrl));
      }
    }

    /** Stops a Playing session; otherwise replays the current station if there is one; otherwise does nothing. */
    method Toggle(fetched: FetchResult) returns (launch: Option<seq<string>>, killed: Option<ProcessHandle>)
      modifies this
      ensures old(state) == Playing ==>
                View() == StopSession(old(View())) && launch == None && killed == old(cmd)
      ensures old(state) != Playing && old(currentStation).Some? ==>
                var station := old(currentStation).value;
                View() == PlaySession(old(View()), station, ResolveStreamUrl(station.url, fetched))
                && killed == old(cmd)
                && launch == (if ResolveStreamUrl(station.url, fetched).Ok?
                              then Some(MpvCommand(ResolveStreamUrl(station.url, fetched).value)) else None)
      ensures old(state) != Playing && old(currentStation).None? ==>
                View() == old(View()) && launch == None && killed == None
    {
      launch, killed := None, None;
      if state == Playing {
        killed := Stop();
      } else if currentStation.Some? {
        var ignored;
        ignored, launch, killed := Play(currentStation.value, fetched);
      }
    }

    /** The background start of mpv completed with `outcome`. */
    method OnStartOutcome(outcome: StartOutcome)
      modifies this
      ensures View() == StartSession(old(View()), outcome)
    {
      match outcome {
        case Started(handle) =>
          cmd := Some(handle);
          state := Playing;
        case StartFailed(reason) =>
          state := Error;
          errorMessage := StartErrorMessage(reason);
      }
    }

    /** The mpv process exited. */
    method OnProcessExit()
      modifies this
      ensures View() == ExitSession(old(View()))
    {
      if state == Playing {
        state := Stopped;
      }
    }

    /** One round of the title simulation, at Unix time `now` in seconds. */
    method OnMetadataTick(now: nat)
      modifies this
      ensures View() == TickSession(old(View()), now)
    {
      if state == Playing && currentStation.Some? {
        currentTitle := SampleTitles[(now / 180) % |SampleTitles|];
      }
    }
  }
}
