/**
 * The terminal application of main.go: the model that the event loop passes from one
 * update to the next, and `Update`, which reacts to a key, a tick, a resize or a quit.
 * The model is a value (each update returns a new one); the player it points to is
 * shared and changed in place.
 *
 * A key is identified by the name the terminal library gives it ("up", "k", "enter",
 * " ", "ctrl+c", ...). The body a playlist fetch would return is an input to `Update`,
 * as it is to `Player.Play`.
 */
module App {
  import opened Wrappers
  import opened Stations
  import opened Playback
  import opened Ui

  /** The messages the event loop delivers. */
  datatype Msg =
    | KeyMsg(key: string)
    | TickMsg
    | WindowSizeMsg(width: int, height: int)
    | QuitMsg
    | OtherMsg

  /** What an update asks the event loop to do next: nothing, quit, or schedule the next tick. */
  datatype Cmd = NoCmd | QuitCmd | TickCmd

  /** main.go's Model, without the time of the last tick. */
  datatype Model = Model(
    stations: seq<RadioStation>,
    selected: int,
    startIdx: int,
    visibleCount: int,
    player: Player,
    showHelp: bool,
    animationStep: int,
    quitting: bool,
    currentLogo: LogoType)

  function Max(a: int, b: int): (m: int)
    ensures m >= a && m >= b && (m == a || m == b)
  {
    if a > b then a else b
  }

  function Min(a: int, b: int): (m: int)
    ensures m <= a && m <= b && (m == a || m == b)
  {
    if a < b then a else b
  }

  /** The number of list rows for a terminal `height` lines high: ten lines less, kept between 5 and 20. */
  function VisibleCountFor(height: int): (n: int)
    ensures 5 <= n <= 20
    ensures 15 <= height <= 30 ==> n == height - 10
    ensures height < 15 ==> n == 5
    ensures height > 30 ==> n == 20
  {
    Max(5, Min(20, height - 10))
  }

  /** Go's `%` on int: the remainder has the sign of the dividend. */
  function TruncRem(a: int, b: int): (r: int)
    requires b > 0
    ensures -b < r < b && (a >= 0 ==> r >= 0) && (a <= 0 ==> r <= 0)
  {
    if a >= 0 then a % b else -((-a) % b)
  }

  /** Go's remainder is a remainder: `a` is a multiple of `b` plus it. */
  lemma TruncRemIsRemainder(a: int, b: int)
    requires b > 0
    ensures exists q :: a == q * b + TruncRem(a, b)
  {
    if a >= 0 {
      assert a == (a / b) * b + TruncRem(a, b);
    } else {
      var n := -a;
      assert n == (n / b) * b + n % b;
      assert a == (-(n / b)) * b + TruncRem(a, b);
    }
  }

  /** The logo after the "l" key: the next of the three, wrapping round. */
  function NextLogo(logo: LogoType): LogoType
  {
    TruncRem(logo as int + 1, 3) as LogoType
  }

  /** Original, Pepe and None follow one another and three presses come back to the start. */
  lemma LogoCycle(logo: LogoType)
    requires LogoOriginal <= logo <= LogoNone
    ensures LogoOriginal <= NextLogo(logo) <= LogoNone
    ensures NextLogo(NextLogo(NextLogo(logo))) == logo
    ensures NextLogo(LogoOriginal) == LogoPepe && NextLogo(LogoPepe) == LogoNone && NextLogo(LogoNone) == LogoOriginal
    ensures LogoOriginal.String() == "GoRadio Hub" && NextLogo(LogoOriginal).String() == "Pepe"
            && NextLogo(LogoPepe).String() == "None"
  {
  }

  /** The "up" key: the cursor moves up one row if it can, and the window follows it if it left the top. */
  function KeyUp(m: Model): Model
  {
    if m.selected > 0 then
      var sel := m.selected - 1;
      if sel < m.startIdx then m.(selected := sel, startIdx := sel) else m.(selected := sel)
    else m
  }

  /** The "down" key: the cursor moves down one row if it can, and the window follows it if it left the bottom. */
  function KeyDown(m: Model): Model
  {
    if m.selected < |m.stations| - 1 then
      var sel := m.selected + 1;
      if sel >= m.startIdx + m.visibleCount then m.(selected := sel, startIdx := sel - m.visibleCount + 1)
      else m.(selected := sel)
    else m
  }

  predicate IsQuitKey(key: string) { key == "ctrl+c" || key == "q" }
  predicate IsUpKey(key: string) { key == "up" || key == "k" }
  predicate IsDownKey(key: string) { key == "down" || key == "j" }
  predicate IsEnterKey(key: string) { key == "enter" || key == " " }

  /** The model after a message. Enter leaves the model itself alone: it acts on the player. */
  function UpdateModel(m: Model, msg: Msg): Model
  {
    match msg
    case KeyMsg(key) =>
      if IsQuitKey(key) then m.(quitting := true)
      else if IsUpKey(key) then KeyUp(m)
      else if IsDownKey(key) then KeyDown(m)
      else if key == "l" then m.(currentLogo := NextLogo(m.currentLogo))
      else if key == "?" then m.(showHelp := !m.showHelp)
      else m
    case TickMsg => m.(animationStep := m.animationStep + 1)
    case WindowSizeMsg(_, height) => m.(visibleCount := VisibleCountFor(height))
    case QuitMsg => m
    case OtherMsg => m
  }

  /** The command an update returns. */
  function UpdateCmd(msg: Msg): Cmd
  {
    match msg
    case KeyMsg(key) => if IsQuitKey(key) then QuitCmd else NoCmd
    case TickMsg => TickCmd
    case QuitMsg => QuitCmd
    case _ => NoCmd
  }

  /** Enter stops the player when it is playing the selected station. */
  predicate EnterStops(m: Model, before: Session)
    requires 0 <= m.selected < |m.stations|
  {
    before.currentStation == Some(m.stations[m.selected]) && before.state == Playing
  }

  /**
   * The player's session after a message: the quit key and the quit message stop it;
   * Enter stops it if it is playing the selected station and otherwise plays that station.
   */
  function PlayerAfter(m: Model, msg: Msg, before: Session, fetched: FetchResult): Session
    requires msg.KeyMsg? && IsEnterKey(msg.key) ==> 0 <= m.selected < |m.stations|
  {
    match msg
    case KeyMsg(key) =>
      if IsQuitKey(key) then StopSession(before)
      else if IsEnterKey(key) then
        var station := m.stations[m.selected];
        if EnterStops(m, before) then StopSession(before)
        else PlaySession(before, station, ResolveStreamUrl(station.url, fetched))
      else before
    case QuitMsg => StopSession(before)
    case _ => before
  }

  /** The mpv command line an update launches: only Enter on a station that resolves. */
  function LaunchAfter(m: Model, msg: Msg, before: Session, fetched: FetchResult): Option<seq<string>>
    requires msg.KeyMsg? && IsEnterKey(msg.key) ==> 0 <= m.selected < |m.stations|
  {
    if msg.KeyMsg? && !IsQuitKey(msg.key) && IsEnterKey(msg.key) && !EnterStops(m, before) then
      match ResolveStreamUrl(m.stations[m.selected].url, fetched)
      case Ok(url) => Some(MpvCommand(url))
      case Err(_) => None
    else None
  }

  /** Whether an update stops or replaces the player's session, and so kills its process. */
  predicate ResetsPlayer(msg: Msg) {
    msg.QuitMsg? || (msg.KeyMsg? && (IsQuitKey(msg.key) || IsEnterKey(msg.key)))
  }

  /** NewModel: the full catalog, the first station selected at the top of a 15-row window, help hidden, the original logo, a new stopped player. */
  method NewModel() returns (m: Model)
    ensures fresh(m.player) && m.player.View() == InitialSession
    ensures m == Model(GetStations(), 0, 0, 15, m.player, false, 0, false, LogoOriginal)
    ensures Bounded(m) && SelectionVisible(m)
  {
    var player := new Player();
    m := Model(GetStations(), 0, 0, 15, player, false, 0, false, LogoOriginal);
  }

  /** The key cases of Update. */
  method UpdateKey(m: Model, key: string, fetched: FetchResult)
    returns (r: Model, cmd: Cmd, launch: Option<seq<string>>, killed: Option<ProcessHandle>)
    requires IsEnterKey(key) ==> 0 <= m.selected < |m.stations|
    modifies m.player
    ensures r == UpdateModel(m, KeyMsg(key)) && cmd == UpdateCmd(KeyMsg(key))
    ensures m.player.View() == PlayerAfter(m, KeyMsg(key), old(m.player.View()), fetched)
    ensures launch == LaunchAfter(m, KeyMsg(key), old(m.player.View()), fetched)
    ensures killed == if ResetsPlayer(KeyMsg(key)) then old(m.player.cmd) else None
  {
    r, cmd, launch, killed := m, NoCmd, None, None;
    if key == "ctrl+c" || key == "q" {
      r := r.(quitting := true);
      killed := r.player.Stop();
      cmd := QuitCmd;
    } else if key == "up" || key == "k" {
      if r.selected > 0 {
        r := r.(selected := r.selected - 1);
        if r.selected < r.startIdx {
          r := r.(startIdx := r.selected);
        }
      }
    } else if key == "down" || key == "j" {
      if r.selected < |r.stations| - 1 {
        r := r.(selected := r.selected + 1);
        if r.selected >= r.startIdx + r.visibleCount {
          r := r.(startIdx := r.selected - r.visibleCount + 1);
        }
      }
    } else if key == "enter" || key == " " {
      var station := r.stations[r.selected];
      if r.player.GetCurrentStation() == Some(station) && r.player.GetState() == Playing {
        killed := r.player.Stop();
      } else {
        var ignored;
        ignored, launch, killed := r.player.Play(station, fetched);
      }
    } else if key == "l" {
      r := r.(currentLogo := NextLogo(r.currentLogo));
    } else if key == "?" {
      r := r.(showHelp := !r.showHelp);
    }
  }

  /**
   * main.go's Update. It returns the next model and command, the mpv command line it
   * starts in the background (if any), and the process it kills (if any).
   */
  method Update(m: Model, msg: Msg, fetched: FetchResult)
    returns (r: Model, cmd: Cmd, launch: Option<seq<string>>, killed: Option<ProcessHandle>)
    requires msg.KeyMsg? && IsEnterKey(msg.key) ==> 0 <= m.selected < |m.stations|
    modifies m.player
    ensures r == UpdateModel(m, msg) && cmd == UpdateCmd(msg)
    ensures m.player.View() == PlayerAfter(m, msg, old(m.player.View()), fetched)
    ensures launch == LaunchAfter(m, msg, old(m.player.View()), fetched)
    ensures killed == if ResetsPlayer(msg) then old(m.player.cmd) else None
  {
    r, cmd, launch, killed := m, NoCmd, None, None;
    match msg {
      case KeyMsg(key) =>
        r, cmd, launch, killed := UpdateKey(m, key, fetched);
      case TickMsg =>
        r := r.(animationStep := r.animationStep + 1);
        cmd := TickCmd;
      case WindowSizeMsg(_, height) =>
        r := r.(visibleCount := Max(5, Min(20, height - 10)));
      case QuitMsg =>
        killed := r.player.Stop();
        cmd := QuitCmd;
      case OtherMsg =>
    }
  }

  // ---------------------------------------------------------------------------
  // Invariants of the list window
  // ---------------------------------------------------------------------------

  /** The cursor is on a station, the window starts at or above it, and the window has 5 to 20 rows. */
  predicate Bounded(m: Model) {
    0 <= m.startIdx <= m.selected < |m.stations| && 5 <= m.visibleCount <= 20
  }

  /** The cursor's row is inside the window. */
  predicate SelectionVisible(m: Model) {
    m.selected < m.startIdx + m.visibleCount
  }

  /** Up and down move the cursor by one row within the list, or leave it at the end it has reached. */
  lemma {:induction false} NavigationMovesByOne(m: Model)
    requires Bounded(m)
    ensures KeyUp(m).selected == Max(0, m.selected - 1)
    ensures KeyDown(m).selected == Min(|m.stations| - 1, m.selected + 1)
    ensures KeyUp(m).stations == KeyDown(m).stations == m.stations
    ensures KeyUp(m).visibleCount == KeyDown(m).visibleCount == m.visibleCount
  {
  }

  /** The window scrolls only as far as needed: after a scroll the cursor is on its first (up) or last (down) row. */
  lemma ScrollIsMinimal(m: Model)
    requires Bounded(m) && SelectionVisible(m)
    ensures KeyUp(m).startIdx != m.startIdx ==> KeyUp(m).startIdx == KeyUp(m).selected
    ensures KeyDown(m).startIdx != m.startIdx ==> KeyDown(m).selected == KeyDown(m).startIdx + m.visibleCount - 1
  {
  }

  /** Moving down always brings the cursor into view, even after a resize hid it. */
  lemma DownRevealsSelection(m: Model)
    requires Bounded(m) && m.selected < |m.stations| - 1
    ensures SelectionVisible(KeyDown(m))
  {
  }

  /** Every update keeps the cursor on a station inside a window of 5 to 20 rows; all but a resize keep it in view. */
  lemma UpdateKeepsBounds(m: Model, msg: Msg)
    requires Bounded(m)
    ensures Bounded(UpdateModel(m, msg))
    ensures SelectionVisible(m) && !msg.WindowSizeMsg? ==> SelectionVisible(UpdateModel(m, msg))
  {
  }

  /** A resize can leave the cursor below the window: a 10-line terminal shrinks the window to 5 rows. */
  lemma ResizeMayHideSelection(player: Player)
    ensures var m := Model(GetStations(), 14, 0, 15, player, false, 0, false, LogoOriginal);
            && Bounded(m) && SelectionVisible(m)
            && !SelectionVisible(UpdateModel(m, WindowSizeMsg(80, 10)))
  {
  }

  /** "?" twice gives back the same model, and one press changes nothing but the help flag. */
  lemma HelpToggleIsInvolution(m: Model)
    ensures UpdateModel(UpdateModel(m, KeyMsg("?")), KeyMsg("?")) == m
    ensures UpdateModel(m, KeyMsg("?")) == m.(showHelp := !m.showHelp)
  {
  }

  /**
   * On the catalog, Enter while a station plays stops it exactly when the cursor is on
   * that station's row; on any other row it plays the station under the cursor. Since
   * no two catalog records are equal, comparing station values picks out the same row
   * as comparing the application's station pointers would.
   */
  lemma EnterStopsOnlyThePlayingRow(m: Model, before: Session, fetched: FetchResult, playing: nat)
    requires m.stations == GetStations() && Bounded(m)
    requires playing < |GetStations()| && before.currentStation == Some(GetStations()[playing])
    requires before.state == Playing
    ensures var station := m.stations[m.selected];
            PlayerAfter(m, KeyMsg("enter"), before, fetched)
            == if playing == m.selected then StopSession(before)
               else PlaySession(before, station, ResolveStreamUrl(station.url, fetched))
  {
    CatalogRecordsDistinct();
  }

  /** Whatever the player was doing, quitting leaves it stopped. */
  lemma QuitStopsPlayer(m: Model, msg: Msg, before: Session, fetched: FetchResult)
    requires msg == QuitMsg || msg == KeyMsg("q") || msg == KeyMsg("ctrl+c")
    ensures PlayerAfter(m, msg, before, fetched).state == Stopped
    ensures PlayerAfter(m, msg, before, fetched).cmd.None?
    ensures UpdateCmd(msg) == QuitCmd
  {
  }

  /** Updates keep the player's session consistent. */
  lemma UpdateKeepsPlayerConsistent(m: Model, msg: Msg, before: Session, fetched: FetchResult)
    requires msg.KeyMsg? && IsEnterKey(msg.key) ==> 0 <= m.selected < |m.stations|
    requires Consistent(before)
    ensures Consistent(PlayerAfter(m, msg, before, fetched))
  {
  }

  /** In a bounded model whose cursor is in view, the rendered list shows the cursor's station highlighted. */
  lemma CursorRowIsHighlighted(m: Model, render: (Style, string) -> string)
    requires Bounded(m) && SelectionVisible(m)
    ensures var lines := ListLines(m.stations, m.selected, m.startIdx, ListEnd(|m.stations|, m.startIdx, m.visibleCount), render);
            && m.selected - m.startIdx < |lines|
            && lines[m.selected - m.startIdx] == render(SelectedItemStyle, StationLine(m.stations[m.selected], m.selected))
  {
    SelectedEntryHighlighted(m.stations, m.selected, m.startIdx, m.visibleCount, render);
  }
}
