/**
 * The application: lifecycle and tab navigation, key dispatch, and the run loop
 * that processes one wake-up (a render tick or a terminal event) per iteration
 * until the state is `Exit`.
 */
module Application {
  import opened Numeric
  import opened Wrappers
  import opened TabHome
  import opened TabSettings
  import opened TabStats
  import opened TabTimer

  datatype AppState = Startup | Running | Shutdown | Exit

  /** The tabs, in the order the header shows them; `Home` is the default. */
  datatype CurrentTab = Home | Timer | Stats | Settings {

    /** The discriminant, `self as usize`. */
    function Index(): (r: Usize)
      ensures r <= 3
    {
      match this
      case Home => 0
      case Timer => 1
      case Stats => 2
      case Settings => 3
    }

    /** The tab whose discriminant is `n`, if there is one (`CurrentTab::from_repr`). */
    static function FromRepr(n: Usize): (r: Option<CurrentTab>)
      ensures r.Some? <==> n <= 3
    {
      if n == 0 then Some(Home)
      else if n == 1 then Some(Timer)
      else if n == 2 then Some(Stats)
      else if n == 3 then Some(Settings)
      else None
    }

    /** The tab to the left, staying on the first tab. */
    function Prev(): (r: CurrentTab)
      ensures this == Home ==> r == Home
      ensures this != Home ==> r.Index() == Index() - 1
    {
      FromRepr(SaturatingSub(Index(), 1)).UnwrapOr(this)
    }

    /** The tab to the right, staying on the last tab. */
    function Next(): (r: CurrentTab)
      ensures this == Settings ==> r == Settings
      ensures this != Settings ==> r.Index() == Index() + 1
    {
      FromRepr(SaturatingAdd(Index(), 1)).UnwrapOr(this)
    }
  }

  /** The discriminants number the tabs 0 to 3 in declaration order, one to one. */
  lemma TabIndexFollowsDeclarationOrder(t: CurrentTab, n: Usize)
    ensures Home.Index() == 0 && Timer.Index() == 1 && Stats.Index() == 2 && Settings.Index() == 3
    ensures CurrentTab.FromRepr(t.Index()) == Some(t)
    ensures n <= 3 ==> CurrentTab.FromRepr(n).value.Index() == n
  {
  }

  /** `Prev` undoes `Next` except on the last tab, and `Next` undoes `Prev` except on the first. */
  lemma TabPrevNextInverse(t: CurrentTab)
    ensures t != Settings ==> t.Next().Prev() == t
    ensures t != Home ==> t.Prev().Next() == t
  {
  }

  // ---------------------------------------------------------------------------
  // Terminal events

  datatype KeyEventKind = Press | Repeat | Release

  /** The key codes the app tells apart; `OtherCode` is every other key. */
  datatype KeyCode = Char(c: char) | Left | Right | Up | Down | OtherCode

  /** A terminal event: a key event, or anything else (mouse, resize, focus, paste). */
  datatype Event = Key(kind: KeyEventKind, code: KeyCode) | Other

  /**
   * What one iteration of the run loop wakes up for: a render tick, whose
   * `terminal.draw` succeeds or fails, or a terminal event.
   */
  datatype Wakeup = RenderTick(drawOk: bool) | Input(event: Event)

  /** The arms of the key-code `match` of `handle_event`. */
  datatype Action = QuitApp | TabForward | TabBack | RowNext | RowPrev | JumpTo(tab: CurrentTab) | StartTimer | NoAction

  /** The key codes that have a binding. */
  const BOUND_CODES: set<KeyCode> :=
    {Char('q'), Char('l'), Right, Char('h'), Left, Char('j'), Up, Char('k'), Down,
     Char('m'), Char('t'), Char('a'), Char('e'), Char('s')}

  /** The key bindings: which arm each pressed key code selects. */
  function KeyAction(code: KeyCode): (r: Action)
    ensures r == NoAction <==> code !in BOUND_CODES
  {
    match code
    case Char(c) =>
      if c == 'q' then QuitApp
      else if c == 'l' then TabForward
      else if c == 'h' then TabBack
      else if c == 'j' then RowNext
      else if c == 'k' then RowPrev
      else if c == 'm' then JumpTo(Home)
      else if c == 't' then JumpTo(Timer)
      else if c == 'a' then JumpTo(Stats)
      else if c == 'e' then JumpTo(Settings)
      else if c == 's' then StartTimer
      else NoAction
    case Right => TabForward
    case Left => TabBack
    case Up => RowNext
    case Down => RowPrev
    case OtherCode => NoAction
  }

  /** Each binding, in both directions: an arm is taken for exactly these codes. */
  lemma KeyBindings(code: KeyCode)
    ensures KeyAction(code) == QuitApp <==> code == Char('q')
    ensures KeyAction(code) == TabForward <==> code == Char('l') || code == Right
    ensures KeyAction(code) == TabBack <==> code == Char('h') || code == Left
    ensures KeyAction(code) == RowNext <==> code == Char('j') || code == Up
    ensures KeyAction(code) == RowPrev <==> code == Char('k') || code == Down
    ensures KeyAction(code) == JumpTo(Home) <==> code == Char('m')
    ensures KeyAction(code) == JumpTo(Timer) <==> code == Char('t')
    ensures KeyAction(code) == JumpTo(Stats) <==> code == Char('a')
    ensures KeyAction(code) == JumpTo(Settings) <==> code == Char('e')
    ensures KeyAction(code) == StartTimer <==> code == Char('s')
  {
  }

  // ---------------------------------------------------------------------------
  // The abstract state of an `App` and the specification of its transitions

  /** Every field of `App` the core reads or writes, as one value. */
  datatype AppView = AppView(
    state: AppState,
    tab: CurrentTab,
    homeRow: Usize,
    selected: Button,
    history: seq<Task>,
    settingsRow: Usize,
    statsRow: Usize,
    timerRunning: bool,
    timerProgress: U16,
    startRequests: nat)

  /**
   * The effect of one arm of the key-code `match`. Only the quit arm touches the
   * state; no arm touches the home row, the history, the stats cursor or the
   * timer tab's gauge fields.
   */
  function Perform(v: AppView, a: Action): (r: AppView)
    ensures r.state == (if a == QuitApp then Exit else v.state)
    ensures r.homeRow == v.homeRow && r.history == v.history && r.statsRow == v.statsRow
    ensures r.timerRunning == v.timerRunning && r.timerProgress == v.timerProgress
    ensures r.startRequests == (if a == StartTimer then v.startRequests + 1 else v.startRequests)
    ensures a == TabForward ==> r.tab == v.tab.Next()
    ensures a == TabBack ==> r.tab == v.tab.Prev()
    ensures !a.JumpTo? && a != StartTimer && a != TabForward && a != TabBack ==> r.tab == v.tab
  {
    match a
    case QuitApp => v.(state := Exit)
    case TabForward => v.(tab := v.tab.Next())
    case TabBack => v.(tab := v.tab.Prev())
    case RowNext =>
      if v.tab == Home then v.(selected := v.selected.Next())
      else if v.tab == Settings then v.(settingsRow := SaturatingAdd(v.settingsRow, 1))
      else v
    case RowPrev =>
      if v.tab == Home then v.(selected := v.selected.Prev())
      else if v.tab == Settings then v.(settingsRow := SaturatingSub(v.settingsRow, 1))
      else v
    case JumpTo(t) => v.(tab := t)
    case StartTimer => v.(tab := Timer, startRequests := v.startRequests + 1)
    case NoAction => v
  }

  /** `handle_event`: only key presses do anything, and the only state ever entered is `Exit`. */
  function Step(v: AppView, e: Event): (r: AppView)
    ensures !(e.Key? && e.kind == Press) ==> r == v
    ensures r.state == v.state || r.state == Exit
    ensures v.state == Exit ==> r.state == Exit
    ensures r.homeRow == v.homeRow && r.history == v.history && r.statsRow == v.statsRow
  {
    match e
    case Other => v
    case Key(kind, code) => if kind == Press then Perform(v, KeyAction(code)) else v
  }

  /**
   * The effect of one wake-up on the app: drawing only reads the app, so a render
   * tick changes nothing whether or not its draw succeeds; an event goes to
   * `handle_event`. Whether a failed draw ends the loop is decided by `RunFrom`.
   */
  function Wake(v: AppView, w: Wakeup): (r: AppView)
    ensures w.RenderTick? ==> r == v
    ensures r.state == v.state || r.state == Exit
  {
    match w
    case RenderTick(_) => v
    case Input(e) => Step(v, e)
  }

  /** No event leaves `Exit`, and the only state an event ever enters is `Exit`. */
  lemma StepState(v: AppView, e: Event)
    ensures Step(v, e).state == v.state || Step(v, e).state == Exit
    ensures v.state == Exit ==> Step(v, e).state == Exit
  {
  }

  /** How `run` returns: `Ok` once the loop condition fails, or the error of a failed draw. */
  datatype RunOutcome = Finished | DrawFailed

  /** The final state, how many wake-ups were taken, and how the loop returned. */
  datatype RunResult = RunResult(view: AppView, taken: nat, outcome: RunOutcome)

  /**
   * The run loop over a finite run of wake-ups. It stops when the state is
   * `Exit`, when a draw fails (`terminal.draw(...)?` returns the error), or when
   * the wake-ups run out.
   */
  function RunFrom(v: AppView, ws: seq<Wakeup>): (r: RunResult)
    decreases |ws|
    ensures r.taken <= |ws|
    ensures v.state == Exit ==> r == RunResult(v, 0, Finished)
    ensures r.outcome == Finished && r.taken < |ws| ==> r.view.state == Exit
    ensures r.outcome == DrawFailed ==> 0 < r.taken && ws[r.taken - 1] == RenderTick(false) && r.view.state != Exit
    ensures r.view.state == v.state || r.view.state == Exit
    ensures (forall k :: 0 <= k < |ws| ==> ws[k] != RenderTick(false)) ==> r.outcome == Finished
  {
    if v.state == Exit || |ws| == 0 then RunResult(v, 0, Finished)
    else if ws[0] == RenderTick(false) then RunResult(v, 1, DrawFailed)
    else
      var rest := RunFrom(Wake(v, ws[0]), ws[1..]);
      assert forall k :: 0 <= k < |ws| - 1 ==> ws[1..][k] == ws[k + 1];
      rest.(taken := rest.taken + 1)
  }

  /**
   * A press of `q` at position `k`, with no failed draw before it, ends the loop
   * normally in `Exit`, at that press at the latest.
   */
  lemma {:induction false} QuitEndsRun(v: AppView, ws: seq<Wakeup>, k: nat)
    requires k < |ws| && ws[k] == Input(Key(Press, Char('q')))
    requires forall j :: 0 <= j < k ==> ws[j] != RenderTick(false)
    ensures RunFrom(v, ws).view.state == Exit
    ensures RunFrom(v, ws).taken <= k + 1
    ensures RunFrom(v, ws).outcome == Finished
    decreases k
  {
    if v.state != Exit {
      if k == 0 {
        assert Wake(v, ws[0]).state == Exit;
      } else {
        assert ws[0] != RenderTick(false);
        QuitEndsRun(Wake(v, ws[0]), ws[1..], k - 1);
      }
    }
  }

  /** A failed draw ends the loop with its error before any later wake-up is taken. */
  lemma {:induction false} DrawErrorEndsRun(v: AppView, ws: seq<Wakeup>, k: nat)
    requires k < |ws| && ws[k] == RenderTick(false)
    ensures RunFrom(v, ws).taken <= k + 1
    ensures RunFrom(v, ws).view.state != Exit ==> RunFrom(v, ws).outcome == DrawFailed
    decreases k
  {
    if v.state != Exit && k != 0 && ws[0] != RenderTick(false) {
      DrawErrorEndsRun(Wake(v, ws[0]), ws[1..], k - 1);
    }
  }

  /** `n` presses of the same character key. */
  function Presses(c: char, n: nat): seq<Wakeup>
  {
    seq(n, _ => Input(Key(Press, Char(c))))
  }

  /** Enough presses of `h` reach the first tab and stay there; no index goes below 0. */
  lemma {:induction false} BackPressesReachHome(v: AppView, n: nat)
    requires v.state != Exit && v.tab.Index() <= n
    ensures RunFrom(v, Presses('h', n)) == RunResult(v.(tab := Home), n, Finished)
    decreases n
  {
    if n == 0 {
      assert v.tab == Home;
    } else {
      var ws := Presses('h', n);
      var w := Wake(v, ws[0]);
      assert w == v.(tab := v.tab.Prev());
      assert ws[1..] == Presses('h', n - 1);
      BackPressesReachHome(w, n - 1);
    }
  }

  /** Enough presses of `l` reach the last tab and stay there; no index goes above 3. */
  lemma {:induction false} ForwardPressesReachSettings(v: AppView, n: nat)
    requires v.state != Exit && 3 - v.tab.Index() <= n
    ensures RunFrom(v, Presses('l', n)) == RunResult(v.(tab := Settings), n, Finished)
    decreases n
  {
    if n == 0 {
      assert v.tab == Settings;
    } else {
      var ws := Presses('l', n);
      var w := Wake(v, ws[0]);
      assert w == v.(tab := v.tab.Next());
      assert ws[1..] == Presses('l', n - 1);
      ForwardPressesReachSettings(w, n - 1);
    }
  }

  /** `l`/Right and `h`/Left move one tab forward or back and change nothing else. */
  lemma TabKeys(v: AppView)
    ensures Step(v, Key(Press, Char('l'))) == Step(v, Key(Press, Right)) == v.(tab := v.tab.Next())
    ensures Step(v, Key(Press, Char('h'))) == Step(v, Key(Press, Left)) == v.(tab := v.tab.Prev())
  {
  }

  /** A press of one of the four tab-switching keys. */
  predicate IsTabPress(w: Wakeup)
  {
    w == Input(Key(Press, Char('l'))) || w == Input(Key(Press, Right))
    || w == Input(Key(Press, Char('h'))) || w == Input(Key(Press, Left))
  }

  /**
   * Any sequence of `h`, `l` and arrow presses is taken in full, ends the loop
   * normally and changes nothing but the tab.
   */
  lemma {:induction false} TabKeysOnlyMoveTab(v: AppView, ws: seq<Wakeup>)
    requires v.state != Exit
    requires forall k :: 0 <= k < |ws| ==> IsTabPress(ws[k])
    ensures RunFrom(v, ws) == RunResult(v.(tab := RunFrom(v, ws).view.tab), |ws|, Finished)
    decreases |ws|
  {
    if |ws| != 0 {
      TabKeys(v);
      assert forall k :: 0 <= k < |ws| - 1 ==> ws[1..][k] == ws[k + 1];
      TabKeysOnlyMoveTab(Wake(v, ws[0]), ws[1..]);
    }
  }

  /** Events that are not key presses, and render ticks, change nothing. */
  lemma IgnoredWakeups(v: AppView, kind: KeyEventKind, code: KeyCode)
    ensures Wake(v, RenderTick(true)) == v
    ensures Step(v, Other) == v
    ensures kind != Press ==> Step(v, Key(kind, code)) == v
  {
  }

  /** `q` sets `Exit` from any tab and changes nothing else. */
  lemma QuitKey(v: AppView)
    ensures Step(v, Key(Press, Char('q'))) == v.(state := Exit)
  {
  }

  /** `m`, `t`, `a`, `e` select their tab whatever tab was active, and change nothing else. */
  lemma JumpKeys(v: AppView)
    ensures Step(v, Key(Press, Char('m'))) == v.(tab := Home)
    ensures Step(v, Key(Press, Char('t'))) == v.(tab := Timer)
    ensures Step(v, Key(Press, Char('a'))) == v.(tab := Stats)
    ensures Step(v, Key(Press, Char('e'))) == v.(tab := Settings)
  {
  }

  /** `s` always ends on the timer tab and asks the timer tab to start once. */
  lemma StartKey(v: AppView)
    ensures Step(v, Key(Press, Char('s'))) == v.(tab := Timer, startRequests := v.startRequests + 1)
  {
  }

  /** `j`/Up and `k`/Down move the cursor of the active tab only, and only on Home and Settings. */
  lemma RowKeys(v: AppView, code: KeyCode)
    requires code == Char('j') || code == Up || code == Char('k') || code == Down
    ensures var down := code == Char('j') || code == Up;
      var w := Step(v, Key(Press, code));
      && (v.tab == Home ==> w == v.(selected := if down then v.selected.Next() else v.selected.Prev()))
      && (v.tab == Settings ==>
            w == v.(settingsRow := if down then SaturatingAdd(v.settingsRow, 1) else SaturatingSub(v.settingsRow, 1)))
      && (v.tab == Stats || v.tab == Timer ==> w == v)
  {
  }

  /** Keys outside the bindings change nothing. */
  lemma UnmappedKeys(v: AppView, code: KeyCode)
    requires KeyAction(code) == NoAction
    ensures Step(v, Key(Press, code)) == v
  {
  }

  // ---------------------------------------------------------------------------
  // The application object

  /** The state of a freshly built `App`. */
  const INITIAL_VIEW: AppView := AppView(Startup, Home, 0, StartStop, [], 0, 0, false, 0, 0)

  class App {
    var state: AppState
    var currentTab: CurrentTab
    const homeTab: HomeTab
    const settingsTab: SettingsTab
    const timerTab: TimerTab
    const statsTab: StatsTab

    ghost function View(): AppView
      reads this, homeTab, settingsTab, timerTab, statsTab
    {
      AppView(state, currentTab,
              homeTab.rowIndex, homeTab.currentlySelectedListItem, homeTab.history,
              settingsTab.rowIndex, statsTab.rowIndex,
              timerTab.isRunning, timerTab.progress, timerTab.startRequests)
    }

    /** `App::new`, which `App::default` also is. */
    constructor New()
      ensures state == Startup && currentTab == Home
      ensures View() == INITIAL_VIEW
      ensures fresh(homeTab) && fresh(settingsTab) && fresh(timerTab) && fresh(statsTab)
    {
      state := Startup;
      currentTab := Home;
      homeTab := new HomeTab.Default();
      settingsTab := new SettingsTab.Default();
      timerTab := new TimerTab.Default();
      statsTab := new StatsTab.Default();
    }

    /** The loop condition. */
    function IsRunning(): (r: bool)
      reads this
      ensures r <==> state != Exit
    {
      state != Exit
    }

    method NextTab()
      modifies this
      ensures View() == old(View()).(tab := old(currentTab).Next())
    {
      currentTab := currentTab.Next();
    }

    method PrevTab()
      modifies this
      ensures View() == old(View()).(tab := old(currentTab).Prev())
    {
      currentTab := currentTab.Prev();
    }

    method Tab(newTab: CurrentTab)
      modifies this
      ensures View() == old(View()).(tab := newTab)
    {
      currentTab := newTab;
    }

    /** The cursor-down request, sent to the active tab. */
    method Next()
      modifies homeTab, settingsTab
      ensures View() == Perform(old(View()), RowNext)
    {
      match currentTab
      case Home => homeTab.NextRow();
      case Settings => settingsTab.NextRow();
      case Stats =>
      case Timer =>
    }

    /** The cursor-up request, sent to the active tab. */
    method Prev()
      modifies homeTab, settingsTab
      ensures View() == Perform(old(View()), RowPrev)
    {
      match currentTab
      case Home => homeTab.PrevRow();
      case Settings => settingsTab.PrevRow();
      case Stats =>
      case Timer =>
    }

    method Quit()
      modifies this
      ensures View() == old(View()).(state := Exit)
    {
      state := Exit;
    }

    method HandleEvent(event: Event)
      modifies this, homeTab, settingsTab, timerTab
      ensures View() == Step(old(View()), event)
    {
      if !event.Key? {
        return;
      }
      if event.kind != Press {
        return;
      }
      match KeyAction(event.code)
      case QuitApp => state := Exit;
      case TabForward => NextTab();
      case TabBack => PrevTab();
      case RowNext => Next();
      case RowPrev => Prev();
      case JumpTo(t) => Tab(t);
      case StartTimer =>
        if currentTab != Timer {
          Tab(Timer);
        }
        timerTab.Run();
      case NoAction =>
    }

    /**
     * `App::run`: while the state is not `Exit`, take the next wake-up; a render
     * tick draws the current state and returns the error if drawing fails, an
     * event goes to `HandleEvent`. Returns how many wake-ups were taken and how
     * the loop returned.
     */
    method Run(wakeups: seq<Wakeup>) returns (taken: nat, outcome: RunOutcome)
      modifies this, homeTab, settingsTab, timerTab
      ensures RunResult(View(), taken, outcome) == RunFrom(old(View()), wakeups)
      ensures taken < |wakeups| && outcome == Finished ==> !IsRunning()
    {
      taken := 0;
      outcome := Finished;
      while IsRunning() && taken < |wakeups|
        invariant taken <= |wakeups|
        invariant outcome == Finished
        invariant RunFrom(old(View()), wakeups)
                  == RunFrom(View(), wakeups[taken..]).(taken := taken + RunFrom(View(), wakeups[taken..]).taken)
        decreases |wakeups| - taken
      {
        ghost var before := View();
        match wakeups[taken] {
          case RenderTick(drawOk) =>
            if !drawOk {
              taken := taken + 1;
              outcome := DrawFailed;
              return;
            }
          case Input(e) => HandleEvent(e);
        }
        assert View() == Wake(before, wakeups[taken]);
        assert wakeups[taken..][1..] == wakeups[taken + 1..];
        taken := taken + 1;
      }
    }
  }

  /**
   * What the entry point does with a fresh app: `App::default().run(...)`, here
   * on a scripted input of `l`, a tick, `q` and a tick. The loop ends normally
   * in `Exit` on the timer tab after three wake-ups.
   */
  method ScriptedSession() returns (state: AppState, tab: CurrentTab, taken: nat, outcome: RunOutcome)
    ensures state == Exit && tab == Timer && taken == 3 && outcome == Finished
  {
    var app := new App.New();
    var ws := [Input(Key(Press, Char('l'))), RenderTick(true), Input(Key(Press, Char('q'))), RenderTick(true)];
    var v0 := INITIAL_VIEW;
    var v1 := v0.(tab := Timer);
    assert Wake(v0, ws[0]) == v1;
    assert Wake(v1, ws[1]) == v1;
    assert Wake(v1, ws[2]) == v1.(state := Exit);
    taken, outcome := app.Run(ws);
    state, tab := app.state, app.currentTab;
  }
}
