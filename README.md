# GoRadio Hub, modelled in Dafny

GoRadio Hub is a terminal internet-radio player. It lists a fixed catalog of twenty
stations. The user moves a cursor through the list and presses Enter to play or stop a
station. Playback is delegated to an external `mpv` process. Stations whose URL ends in
`.pls` are playlist pointer files: the player fetches one and plays the URL on its first
`File1=` line. A simulated song title, chosen by the three-minute slot of the clock, can be
shown for the playing station; the simulation is started while the player is still loading,
so it may stop at once and leave the placeholder "Loading track info..." in place.

The project models four parts of the program:

- `stations.dfy` (module `Stations`): the catalog, filtering by genre and the set of genres.
- `player.dfy` (module `Playback`): the playback controller.
  - `Player` is a class with the Go struct's fields. `Play`, `Stop` and `Toggle` update those fields in place.
  - Each method's new state is a function of the old state on `Session` values. The controller's properties are lemmas about those functions.
  - Work that the Go code does on goroutines arrives as explicit events: the outcome of starting mpv, the exit of mpv, and one round of the title simulation.
- `app.dfy` (module `App`): the terminal application's model and its `Update`.
  - Keys move the cursor and scroll the window; Enter plays or stops; `l` cycles the logo; `?` toggles help; a resize changes the window height; quit stops the player.
- `ui.dfy` (module `Ui`): the text of the station list, the "now playing" box, the station details, the logos and the animations.
  - Terminal styling is a parameter `render: (Style, string) -> string`, so every property holds whatever the styling does.

`text.dfy` (module `Text`) holds the Go library string functions the core uses: `strings.TrimSpace`, `Split`, `Join`, `HasPrefix`, `HasSuffix` and `%d`. `wrappers.dfy` holds `Option` and `Result`.

Two behaviours of the code are worth knowing:

- `Stop` clears the state, the station, the process and the title, but keeps the error message (player.go:181-192).
- The mpv exit watcher and the start goroutine do not check that their session is still current (player.go:83-89, 113-119). A late event therefore applies to whatever session is current. `LateStartRevivesStoppedPlayer` states one consequence.

## Model

| member | source | states |
|---|---|---|
| Playback.StateLabelsDistinct | player.go:23-36 | the four state labels are non-empty and pairwise different |
| Playback.Player.constructor | player.go:54-59 | a new player is Stopped, with no station, no process, no error and no title; its song line is the placeholder |
| Playback.MpvCommand | player.go:100 | mpv is run with three option arguments, and the stream URL is the last argument |
| Playback.StartErrorMessage | player.go:104-107 | a failed start reports "failed to start mpv: ", then exactly the start error, then the hint to install mpv |
| Playback.FirstStreamEntryNone | player.go:140-147 | the scan finds nothing exactly when no line is a `File1=` entry after trimming |
| Playback.FirstStreamEntryAt | player.go:140-145 | the scan returns the value of the first `File1=` line |
| Playback.ParsePls | player.go:125-148 | the loop over the playlist's lines returns the URL of the first `File1=` line, the "no stream URL" error, or the fetch error |
| Playback.DirectUrlIsNotFetched | player.go:71-80 | a URL without the `.pls` suffix is played as is, whatever a fetch would return |
| Playback.EntryLineValue | player.go:141-143 | a `File1=` line yields the URL written after the key |
| Playback.PlaylistEntryAt | player.go:137-145 | a playlist body resolves to the URL of its earliest `File1=` line, wherever that line stands and whatever follows it |
| Playback.TwoEntryPlaylistPlaysFirst | player.go:137-145 | the usual body `File1=<u>` then `File2=<v>` resolves to `u` |
| Playback.PlaylistWithoutEntryFails | player.go:147 | a body with no `File1=` line fails with the fixed error |
| Playback.StopSession | player.go:181-192 | whatever the prior state, stop leaves the player Stopped with no station, no process and no title, keeps the error message, and is consistent |
| Playback.PlaySession | player.go:62-80 | playing always gives a consistent state, whether or not the stream resolves |
| Playback.StartSession | player.go:83-110 | the outcome of starting mpv keeps a consistent session consistent |
| Playback.ExitSession | player.go:113-119 | the exit of mpv keeps a consistent session consistent |
| Playback.TickSession | player.go:168-177 | a round of the title simulation keeps a consistent session consistent |
| Playback.TickOnlySetsTitleWhilePlaying | player.go:168-174 | a round of the title simulation changes only the title, only while Playing with a station, and then to one of the sample titles |
| Playback.CurrentSong | player.go:214-219 | the song line is never empty: it is the title, or the placeholder while there is none |
| Playback.StopIsIdempotent | player.go:181-192 | stopping twice is the same as stopping once, and stop keeps the error message |
| Playback.StopIsNoOpIff | player.go:181-192 | stop changes nothing exactly when the player is already Stopped with no station, process or title |
| Playback.PlayDirectStream | player.go:62-95 | playing a direct stream gives Loading with that station, the error cleared and no process yet |
| Playback.PlayUnresolvedPlaylist | player.go:72-78 | a playlist that cannot be resolved gives Error, with the station kept and the reason behind "Failed to parse PLS: " |
| Playback.PlayThenStarted | player.go:83-110 | a play followed by a successful start is Playing, with that station and process and no error |
| Playback.PlayThenStartFailed | player.go:83-107 | a play followed by a failed start is Error, with the station kept and the mpv hint in the message |
| Playback.ExitStopsOnlyPlaying | player.go:113-119 | the exit of mpv moves Playing to Stopped, leaves every other session exactly as it was, and keeps the station |
| Playback.LateStartRevivesStoppedPlayer | player.go:83-110 | a start that completes after a stop makes the player Playing with no station |
| Playback.Player.GetCurrentSong | player.go:214-219 | the song line is never empty: the placeholder while there is no title, otherwise the title |
| Playback.Player.Stop | player.go:181-192 | the new state is the stopped session, and the process killed is the one the player held |
| Playback.Player.Play | player.go:62-95 | the new state is the played session; the old process is killed; mpv is launched on the resolved URL exactly when resolution succeeds; otherwise the resolution error is returned |
| Playback.Player.Toggle | player.go:195-201 | Playing stops; otherwise a current station is played again; otherwise nothing changes |
| Playback.Player.OnStartOutcome | player.go:83-110 | the new state records the start outcome |
| Playback.Player.OnProcessExit | player.go:113-119 | the new state is the session after mpv exits |
| Playback.Player.OnMetadataTick | player.go:168-177 | the new state is the session after one round of the title simulation: only the title changes, only while Playing with a station, to a sample title |
| Stations.CatalogRecordsDistinct | stations.go:14-140 | no two catalog entries share a name, so equal records sit at the same index |
| Stations.FilterAppend | stations.go:143-151 | filtering a concatenation filters each part, in order |
| Stations.FilterMembership | stations.go:143-151 | a station is in the filtered list exactly when it is in the list and has the genre |
| Stations.FilterEmpty | stations.go:143-151 | the filtered list is empty exactly when no station has the genre |
| Stations.GetStationsByGenre | stations.go:143-151 | the loop keeps the catalog's stations of the exact genre, in catalog order |
| Stations.GenresOfAppend | stations.go:154-165 | one more station adds its genre to the genre set |
| Stations.CollectGenres | stations.go:154-165 | the loop returns every genre of the list exactly once |
| Stations.GetGenres | stations.go:154-165 | every genre of the catalog appears exactly once |
| Stations.FilterOnlyAt | stations.go:143-151 | a genre held by one position filters to that station alone |
| Stations.FilterOnlyAtTwo | stations.go:143-151 | a genre held by two positions filters to those two stations, in order |
| Stations.AmbientIsExactMatch | stations.go:24-38 | "Ambient" selects Drone Zone only; Space Station's "Space Ambient" does not match |
| Stations.VaporwaveInCatalogOrder | stations.go:54-84 | "Vaporwave" selects Vaporwaves and then Plaza Radio |
| Stations.LofiHipHopIsChillHop | test_stations.go:37-38 | "Lofi Hip Hop" selects ChillHop Radio only |
| Stations.MissingGenreIsEmpty | stations.go:143-151 | a genre no station has gives the empty list |
| Ui.LogoType.String | ui.go:19-30 | "Pepe" and "None" name exactly those logos; every other value, out-of-range ones included, is "GoRadio Hub" |
| Ui.LogoMatchesName | ui.go:151-162 | the logo drawn is the one the logo's name announces, and "None" draws nothing |
| Ui.StationLineNumber | ui.go:197-203 | an entry shows two spaces, digits that read back as its 1-based position, the name and the genre in parentheses |
| Ui.ListEnd | ui.go:190-193 | the window ends at the end of the list or after `visibleCount` rows, and goes past neither |
| Ui.ListLines | ui.go:195-211 | the list has one line per index from the start of the window to its end |
| Ui.ListLinesAt | ui.go:195-211 | line `k` is entry `start + k` in the selected or the normal style |
| Ui.RenderStationList | ui.go:186-214 | the loop joins, one per line, the styled entries of the visible window |
| Ui.SelectedEntryHighlighted | ui.go:205-209 | the selected entry is the only one drawn in the selected style |
| Ui.ListShowsMinOfWindowAndRest | ui.go:190-193 | the list shows the smaller of the window height and the number of remaining stations |
| Ui.SongLineIffSong | ui.go:222-231 | the box has the song line, as its fifth line, exactly when there is a song |
| Ui.RenderNowPlaying | ui.go:217-234 | with no station the box says so; otherwise it joins the station's lines |
| Ui.StationInfoReadsBack | ui.go:237-253 | split at newlines, the details give back the styled name, then the genre, the description and the URL, with labels and blank lines between them |
| Ui.MusicNoteIsPeriodic | ui.go:283-288 | notes repeat with period six, and each is one of the six symbols |
| Ui.WaveFollowsByRotation | ui.go:292-301 | each wave frame is the previous one rotated left by one bar |
| Ui.WaveAdvancesByRotation | ui.go:291-304 | the next animation step rotates the wave left by one bar, and eight steps come back to the same frame |
| App.Max | main.go:210-215 | the result is one of the two arguments and at least both |
| App.Min | main.go:218-223 | the result is one of the two arguments and at most both |
| App.VisibleCountFor | main.go:94-96 | the window height is the terminal height less ten, kept between 5 and 20 |
| App.TruncRem | main.go:83 | Go's remainder is smaller than the divisor and has the sign of the dividend |
| App.TruncRemIsRemainder | main.go:83 | Go's remainder differs from the dividend by a multiple of the divisor |
| App.LogoCycle | main.go:81-83 | `l` cycles Original, Pepe, None and back, and stays within the three logos |
| App.NavigationMovesByOne | main.go:54-68 | up and down move the cursor by one row and stop at the first and last station |
| App.ScrollIsMinimal | main.go:54-68 | the window moves only when needed, just far enough to keep the cursor at its top or bottom row |
| App.DownRevealsSelection | main.go:62-68 | after down, the cursor is inside the window |
| App.UpdateKeepsBounds | main.go:45-104 | every update keeps the cursor and window inside the list and the height in [5, 20]; every update except a resize keeps the cursor visible |
| App.ResizeMayHideSelection | main.go:94-96 | shrinking the terminal can leave the cursor below the window |
| App.HelpToggleIsInvolution | main.go:85-86 | `?` changes only the help flag, and pressing it twice changes nothing |
| App.EnterStopsOnlyThePlayingRow | main.go:70-79 | while a catalog station plays, Enter stops it on that station's row and plays the cursor's station on any other row |
| App.QuitStopsPlayer | main.go:49-52 | quitting stops the player, releases its process and returns the quit command |
| App.UpdateKeepsPlayerConsistent | main.go:45-104 | no update breaks the player's consistency |
| App.CursorRowIsHighlighted | main.go:132 | in a valid model, the rendered list shows the cursor's station highlighted |
| App.NewModel | main.go:181-194 | the start model is the full catalog, with the first station selected in a 15-row window and a new stopped player; it is valid, with the cursor visible |
| App.UpdateKey | main.go:47-87 | a key gives the model, command, player state, launch and kill that the update functions prescribe |
| App.Update | main.go:45-104 | every message gives the model, command, player state, launch and kill that the update functions prescribe |
| Text.TrimSpaceIsSlice | player.go:141 | trimming keeps a slice of the line and drops only white space around it |
| Text.JoinSplit | player.go:137-138 | joining the split lines with the newline gives back the body |
| Text.SplitJoin | player.go:137-138 | splitting a join of newline-free lines gives back the lines |
| Text.SplitConcat | ui.go:252 | splitting at one separator splits the two sides independently |
| Text.DecimalRoundTrip | ui.go:200 | the digits `%d` prints read back as the number |

## Left out

- Concurrency: the goroutines of `Play`, `startMPV` and `simulateMetadata` become separate event methods. The model does not capture interleavings inside a method, or data races on the player's fields.
- Whether the title loop is running at all depends on scheduling: it is started while the state is still Loading. `OnMetadataTick` is one round of the loop, applied when the caller delivers it.
- HTTP: the playlist fetch is an input `FetchResult`, given as the body text or a failure reason. Byte-to-string decoding is not modelled.
- Processes: `exec.Command`, `Start`, `Wait` and `Process.Kill` become a `ProcessHandle` token. Methods return the argument list they would launch and the handle they would kill.
- Time: the clock is a parameter `now` (in seconds) of `OnMetadataTick`. The 30-second sleep, `time.Now` and the `lastUpdate` fields are not modelled.
- Playback.Player.OnMetadataTick: `now` is a `nat`, so a negative Unix time is not modelled.
- The `metadataExtractor` pointer is flattened into a `currentTitle` field of the player.
- `PlayerState.String`'s "Unknown" branch is not modelled: a datatype has no out-of-range values.
- Station identity: main.go compares station pointers; the model compares station values. `CatalogRecordsDistinct` shows that the two agree on the catalog.
- Styling: lipgloss styles, colours, borders and layout are an opaque `render` parameter. `CreateLayout` and the style definitions are not part of this model.
- Small renderers are not modelled: `RenderLogoSelector`, `RenderTitle`, `RenderSubtitle`, `RenderHelp` and `RenderStatus` are one-line style applications.
- `Model.View`, `Init`, `tick`, `main` and the `init` hook of main.go are not modelled. They draw the screen or start the event loop.
- `PrintStations` and the test programs print to the console and are not modelled. The test programs' genre queries appear as lemmas.
- Text: strings are sequences of code points. Byte-level UTF-8 is not modelled.
- App.Update: Go's `int` is 64 bits, and the model's integers are unbounded. The animation counter's overflow after 2^63 ticks is not modelled.
- Playback.Player.Toggle and App.Update discard the error that `Play` returns, as the source does. Only `Play` states it.
- `GetState`, `GetCurrentStation` and `GetErrorMessage` read one field each and carry no contract of their own. The constructor and the method contracts state those fields through `View()`.
