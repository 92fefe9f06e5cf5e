# Pomo core in Dafny

A model of the stateful core of Pomo, a Pomodoro timer for the terminal. The
model covers:

- the application's lifecycle state (`AppState`) and its tab navigation (`CurrentTab`);
- the key dispatch of `App::handle_event`;
- the run loop, seen as the processing of a finite sequence of wake-ups, each of
  which is a render tick (whose draw may fail) or a terminal event;
- the saturating row cursors of the home, settings and stats tabs;
- the countdown `Timer` and the progress values its `start` loop sends.

Layout, one module per source file:

| file | module | source |
|---|---|---|
| numeric.dfy | `Numeric`, `Wrappers` | `u16`, 64-bit `usize`, `saturating_add`/`saturating_sub`, `Option::unwrap_or` |
| home.dfy | `TabHome` | src/tabs/home.rs |
| settings.dfy | `TabSettings` | src/tabs/settings.rs |
| stats.dfy | `TabStats` | src/tabs/stats.rs |
| timer_tab.dfy | `TabTimer` | the `TimerTab` struct of src/tabs/timer.rs |
| timer_backend.dfy | `TimerBackend` | src/timer_backend.rs |
| app.dfy | `Application` | src/app.rs |

Pure enum logic is written as datatypes and functions: `CurrentTab` and
`Button`, their discriminants, `from_repr`, and the saturating `prev`/`next`.
Structs whose methods update fields in place are classes: `App`, `HomeTab`,
`SettingsTab`, `StatsTab`, `TimerTab` and `Timer`. `App` holds its four tabs as
references that never change. Its ghost function `View()` collects every field
the core touches into one `AppView` value.

Two functions specify `App`'s behaviour:

- `Step` specifies `handle_event`;
- `RunFrom` specifies the run loop.

`App.HandleEvent` and `App.Run` are proved equal to them. The listed properties
are then proved as lemmas about `Step` and `RunFrom`.

Things the code does that are easy to miss:

- **A call to a method that does not exist.** The `s` arm calls
  `self.timer_tab.run()`, but `TimerTab` has no `run` method. The model treats
  that call as a start request: `TabTimer.TimerTab.Run` counts it in
  `startRequests` and changes nothing else. Since this call cannot compile, pressing
  `s` never creates a `Timer` or a channel in this model.
- **Behaviour one might expect but the code lacks.** The code has no
  single-active-timer rule. It stores no progress value received from a channel.
  Nothing in it enters `Shutdown`.
- **Every progress value is 0.** The value sent at loop iteration `i` is
  `(i / secs) * 100` in `u16` arithmetic. The loop only runs while `i < secs`, so
  the quotient is always 0. The model keeps this arithmetic exactly:
  `TimerBackend.Progress` proves each value is 0. The gauge therefore never
  advances, and no final value of 100 is sent.
- **Pausing shrinks the total.** When `is_paused` is set, the first iteration
  runs `secs -= progress` and leaves the loop. This underflows when
  `progress > secs`. The model follows Rust's checked arithmetic here: the
  subtraction panics, and `Start` returns `SubtractOverflow` with `secs`
  unchanged.
- **Cursors ignore the list length.** The settings and stats row cursors
  saturate only at the bounds of `usize`, not at the number of rendered items.
  `TabSettings.CursorPassesRenderedItems` shows the settings cursor passing the
  two rendered entries.
- **The arrows run opposite to their meaning.** Up is bound to `next()`, which
  moves the highlight down, and Down to `prev()` (src/app.rs:107-108). `j` and
  `k` follow vi. The model keeps this binding.
- **The stats cursor is never reached.** The Stats arms of `next` and `prev` do
  nothing (src/app.rs:140, 149), so `StatsTab::prev_row` and `next_row` are
  never called. `Application.Step` proves the stats row never changes.
- **A failed draw ends the loop.** A render tick runs `terminal.draw(...)?`,
  so a drawing error makes `run` return that error while the state is not
  `Exit`. A wake-up is a render tick whose draw succeeds or fails, or an event.

## Model

| member | source | states |
|---|---|---|
| `Application.CurrentTab.Index` | src/app.rs:32-43 | a tab's discriminant (`self as usize`) is at most 3 |
| `Application.CurrentTab.FromRepr` | src/app.rs:32-43 | `from_repr(n)` finds a tab exactly when `n <= 3` |
| `Application.TabIndexFollowsDeclarationOrder` | src/app.rs:32-43 | Home, Timer, Stats, Settings are numbered 0 to 3; `from_repr` and the discriminant are inverse on 0..3 |
| `Application.CurrentTab.Prev` | src/app.rs:203-207 | `prev` of Home is Home; on any other tab the index drops by exactly 1 |
| `Application.CurrentTab.Next` | src/app.rs:208-212 | `next` of Settings is Settings; on any other tab the index rises by exactly 1 |
| `Application.TabPrevNextInverse` | src/app.rs:202-213 | `prev(next(t)) == t` unless `t` is Settings; `next(prev(t)) == t` unless `t` is Home |
| `Application.KeyBindings` | src/app.rs:102-120 | each match arm is taken for exactly its codes, in both directions: `q`; `l`/Right; `h`/Left; `j`/Up; `k`/Down; `m`, `t`, `a`, `e`; `s` |
| `Application.KeyAction` | src/app.rs:102-120 | the arm of the key-code match each code selects; a code selects no arm exactly when it is none of the fourteen bound codes |
| `Application.Perform` | src/app.rs:103-119 | the arm effects, as `next`/`prev` dispatch them (lines 136-152): only `q` changes the state, to `Exit`; only `s` adds a start request; no arm changes the home row, the history, the stats row or the gauge fields; the tab-forward arm moves the tab to `next`, the tab-back arm to `prev`; row moves, quit and no-op keep the tab |
| `Application.Step` | src/app.rs:96-122 | `handle_event`: a non-key or non-press event changes nothing; the state is kept or becomes `Exit`, and stays `Exit`; the home row, history and stats row never change |
| `Application.Wake` | src/app.rs:77-80 | the effect of one iteration of the `select!` on the app: a render tick changes nothing, whether its draw succeeds or not; the state is kept or becomes `Exit` |
| `Application.StepState` | src/app.rs:96-122 | an event either keeps the state or sets `Exit`; from `Exit` it stays `Exit` |
| `Application.IgnoredWakeups` | src/app.rs:96-100 | non-key events, key events that are not presses, and render ticks leave the whole app unchanged |
| `Application.QuitKey` | src/app.rs:103 | `q` sets `Exit` from any tab and changes no other field |
| `Application.JumpKeys` | src/app.rs:109-112 | `m`/`t`/`a`/`e` select Home/Timer/Stats/Settings whatever the tab was, changing nothing else |
| `Application.StartKey` | src/app.rs:113-118 | after `s` the tab is Timer whatever it was, one start request is added, nothing else changes |
| `Application.RowKeys` | src/app.rs:107-108 | `j`/Up move the cursor down and `k`/Down move it up: only the home selection on Home, only the settings row on Settings, nothing on Stats or Timer |
| `Application.UnmappedKeys` | src/app.rs:120 | a pressed key without a binding changes nothing |
| `Application.TabKeys` | src/app.rs:105-106 | `l` and Right move to the `next` tab, `h` and Left to the `prev` tab, from any tab, changing nothing else |
| `Application.TabKeysOnlyMoveTab` | src/app.rs:76-81 | any sequence of `h`, `l`, Left and Right presses from a running app is taken in full, ends the loop normally, and changes only the tab |
| `Application.RunFrom` | src/app.rs:76-81 | the loop takes at most all wake-ups and none once the state is `Exit`. A normal early stop leaves the state `Exit`. A draw error is the last wake-up taken, and the state is then not `Exit`. Without failing draws the loop ends normally. The final state is the initial one or `Exit` |
| `Application.QuitEndsRun` | src/app.rs:76-81 | a `q` press at position `k` with no failed draw before it ends the loop normally in `Exit` after at most `k + 1` wake-ups |
| `Application.DrawErrorEndsRun` | src/app.rs:78 | a failed draw at position `k` ends the loop after at most `k + 1` wake-ups; unless the app had already exited, `run` returns the draw error |
| `Application.BackPressesReachHome` | src/app.rs:105-106 | at least `index` presses of `h` end the loop normally on Home, with every press taken and every other field kept (10 presses from the default tab leave Home) |
| `Application.ForwardPressesReachSettings` | src/app.rs:105-106 | at least `3 - index` presses of `l` end the loop normally on Settings, with every press taken and every other field kept |
| `Application.App.constructor` | src/app.rs:59-69 | `App::new` starts in `Startup` on Home, every tab at its default and freshly allocated, so the app owns them |
| `Application.App.IsRunning` | src/app.rs:85-87 | the loop condition holds exactly when the state is not `Exit` |
| `Application.App.NextTab` | src/app.rs:124-126 | the tab moves to `next`; every other field is kept |
| `Application.App.PrevTab` | src/app.rs:128-130 | the tab moves to `prev`; every other field is kept |
| `Application.App.Tab` | src/app.rs:132-134 | the tab becomes the given one; every other field is kept |
| `Application.App.Next` | src/app.rs:136-143 | the cursor-down request reaches the home tab on Home, the settings tab on Settings, nobody on Stats or Timer |
| `Application.App.Prev` | src/app.rs:145-152 | the cursor-up request, dispatched the same way |
| `Application.App.Quit` | src/app.rs:158-160 | the state becomes `Exit`; every other field is kept |
| `Application.App.HandleEvent` | src/app.rs:96-122 | the new state of the app is `Step` of the old state and the event |
| `Application.App.Run` | src/app.rs:71-83 | the final state, the number of wake-ups taken, and whether a draw error was returned are `RunFrom` of the initial state; a normal early stop happens only when not running |
| `Application.ScriptedSession` | src/main.rs:29 | a fresh app run on `l`, tick, `q`, tick ends normally in `Exit` on the Timer tab after three wake-ups |
| `TabHome.Button.CurrentIndex` | src/tabs/home.rs:37-39 | `current_index` is at most 2 |
| `TabHome.Button.FromRepr` | src/tabs/home.rs:13-22 | `from_repr(n)` finds a button exactly when `n <= 2` |
| `TabHome.IndexFollowsDeclarationOrder` | src/tabs/home.rs:13-22 | StartStop, Dummy, Dummy2 are numbered 0, 1, 2; `from_repr` and the discriminant are inverse on 0..2 |
| `TabHome.Button.Prev` | src/tabs/home.rs:25-29 | `prev` of StartStop is StartStop; otherwise the index drops by exactly 1 |
| `TabHome.Button.Next` | src/tabs/home.rs:31-35 | `next` of Dummy2 is Dummy2; otherwise the index rises by exactly 1 |
| `TabHome.PrevNextInverse` | src/tabs/home.rs:25-35 | `prev(next(b)) == b` unless `b` is Dummy2; `next(prev(b)) == b` unless `b` is StartStop |
| `TabHome.HomeTab.Default` | src/tabs/home.rs:42-47 | the derived default: row 0, StartStop selected, empty history |
| `TabHome.HomeTab.New` | src/tabs/home.rs:50-55 | stores the given history, with row 0 and StartStop selected |
| `TabHome.HomeTab.PrevRow` | src/tabs/home.rs:57-59 | the selection moves to `prev`; `row_index` and `history` are kept |
| `TabHome.HomeTab.NextRow` | src/tabs/home.rs:61-63 | the selection moves to `next`; `row_index` and `history` are kept |
| `TabSettings.SettingsTab.Default` | src/tabs/settings.rs:7-10 | the derived default has `row_index == 0` |
| `TabSettings.SettingsTab.PrevRow` | src/tabs/settings.rs:13-15 | at 0 the row stays 0; otherwise it drops by exactly 1 |
| `TabSettings.SettingsTab.NextRow` | src/tabs/settings.rs:17-19 | the row rises by exactly 1, stopping at the `usize` maximum |
| `TabSettings.CursorPassesRenderedItems` | src/tabs/settings.rs:17-19 | two `next_row` calls from the default reach row 2, past the two rendered items |
| `TabStats.StatsTab.Default` | src/tabs/stats.rs:7-10 | the derived default has `row_index == 0` |
| `TabStats.StatsTab.PrevRow` | src/tabs/stats.rs:13-15 | at 0 the row stays 0; otherwise it drops by exactly 1 |
| `TabStats.StatsTab.NextRow` | src/tabs/stats.rs:17-19 | the row rises by exactly 1, stopping at the `usize` maximum |
| `Numeric.SaturatingSub` | src/tabs/stats.rs:14 | `saturating_sub` never exceeds its first operand, and is the exact difference or 0 on underflow |
| `Numeric.SaturatingAdd` | src/tabs/stats.rs:18 | `saturating_add` is at least its first operand, and is the exact sum or the maximum on overflow |
| `Numeric.IncrementThenDecrement` | src/tabs/settings.rs:13-19 | `prev_row` after `next_row` restores the row whenever it was below the maximum (the same holds for the stats cursor) |
| `Numeric.DecrementThenIncrement` | src/tabs/stats.rs:13-19 | `next_row` after `prev_row` restores the row whenever it was above 0 |
| `TabTimer.TimerTab.Default` | src/tabs/timer.rs:8-12 | the derived default: not running, progress 0, no start requested |
| `TabTimer.TimerTab.Run` | src/app.rs:118 | the call to the missing `run` records one start request and changes no other field |
| `TimerBackend.Timer.Default` | src/timer_backend.rs:37-47 | `secs == 1500`, `progress == 0`, not paused, `ended_at` is None, `started_at` is the clock reading |
| `TimerBackend.Timer.SetTimerEnd` | src/timer_backend.rs:60-62 | `secs` becomes the argument; no other field changes |
| `TimerBackend.MaxU16` | src/timer_backend.rs:56-58 | `max_u16` is the largest `u16`, and it exceeds the fixed one-second period, so the assertion of line 74 always holds |
| `TimerBackend.Progress` | src/timer_backend.rs:75 | the value sent at iteration `i < secs`, `(i / secs) * 100`, is computed in `u16` without overflow and equals 0 (so it is at most 100) |
| `TimerBackend.SendsUpTo` | src/timer_backend.rs:66-76 | the first `n` iterations send exactly `n` values, in iteration order, all 0 |
| `TimerBackend.StartSends` | src/timer_backend.rs:64-77 | an unpaused `start` sends exactly `secs` values, one per iteration; a paused one sends none; none exceeds 100 |
| `TimerBackend.Timer.Start` | src/timer_backend.rs:64-77 | the channel receives exactly `StartSends`. Paused with `secs > 0`, `secs` becomes `secs - progress`; that is a panic exactly when `progress > secs`, with `secs` kept. With `secs == 0` nothing changes. `progress`, `is_paused`, `started_at`, `ended_at` never change. The period assertion of line 74 is proved |
| `TimerBackend.UnboundedSender.Send` | src/timer_backend.rs:75 | a send appends the value to the channel's contents |

## Left out

- Rendering: every `Widget` impl, `render_header`, `render_middle`,
  `render_home_list`, `render_historical_data`, `draw` and the gauge of the timer
  tab are drawing calls with no state of their own. Of a draw, the model keeps
  only whether it succeeds; a failure is an input, not derived from the terminal.
- Asynchrony: `tokio::select!`, `EventStream`, the render interval, and the
  `tokio::spawn` of `Timer::run` are left out. `Timer::run` only moves a copy of
  the timer into a spawned task that calls `start`. The run loop is modelled as a
  sequence of wake-ups. Its model stops when that sequence runs out, where the
  program would wait for more input. Stream items that are errors never reach
  `handle_event`, so they are not modelled.
- Channel semantics: a send is an append to `UnboundedSender.sent`. The
  `unwrap` on a send to a dropped receiver is not modelled; the receiver is
  assumed alive.
- Time: `Instant` values are opaque naturals. `Timer::default` takes the clock
  reading as a parameter. `interval.tick()` is one loop step. The frame rate and
  `Duration::from_secs_f32` are floats and are left out.
- Task: the program imports `crate::Task` (src/tabs/home.rs:11) but defines it in
  no file. The `Task` in home.dfy has title, description and hours fields; these
  are placeholders that nothing in the core reads.
- Key events: the modifiers and the state fields of a key event are left out,
  because the dispatch never reads them. Key codes other than characters and the
  four arrows are one `OtherCode`.
- `App::default`: it is `App::new`.
- `App::get`: it is an identity on a reference and only exists for lifetimes.
- The `history` map of `App`: it is never read or written.
- The program entry point, terminal setup and teardown (src/main.rs), and the
  shutdown overlay (src/shutdown.rs): this is all terminal I/O, and no key enters
  `Shutdown`.
- `TimerBackend.Timer.Start`: models the underflow of `secs -= progress` as
  Rust's checked-arithmetic panic, not as the wrap-around of a release build.
