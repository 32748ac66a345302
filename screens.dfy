/** The screen flow of `main`: the main menu, the play screen (one
    `init_game` round per pass) and the result screen, each a `while` loop
    inside `while (running)`, with the scores reset between the menu loop and
    the play loop and the selection reset between the play loop and the
    result loop. Drawing is left out; whether a frame's drawing succeeded is
    an input. */
module Screens {
  import opened CInt
  import opened Config
  import opened Input
  import opened Rules

  /** `MAIN_MENU_SCREEN`, `GAME_PLAY_SCREEN`, `GAME_RESULT_SCREEN`. */
  datatype Screen = MainMenu | GamePlay | GameResult

  /** The local variables of `main` that the loops update. */
  datatype Flow = Flow(
    running: bool,
    screen: Screen,
    selected: int,
    first: int,
    second: int,
    singlePlayer: bool)

  /** `main` starts on the menu with the second option ("MULTI PLAYER")
      selected. The scores and `single_player` start uninitialised in C and
      are always assigned before they are read; here they start as 0, 0 and
      false. */
  const Start := Flow(true, MainMenu, 1, 0, 0, false)

  /** What one pass of the running screen's loop takes from outside: on the
      menu and result screens the drained event queue and whether every
      option was drawn, on the play screen what `init_game` returned. */
  datatype Turn = Turn(events: seq<Event>, rendered: bool, round: RoundResult)

  /** The selection after `selected_option % n` and the repair of a
      negative remainder to the last option. */
  function Wrap(selected: int, n: int): (r: int)
    requires n > 0
    ensures 0 <= r < n
    ensures 0 <= selected < n ==> r == selected
    ensures selected == -1 ==> r == n - 1
    ensures selected == n ==> r == 0
  {
    var m := Rem(selected, n);
    if m < 0 then n - 1 else m
  }

  // ---------------------------------------------------------------------
  // Main menu

  /** One event on the main menu: close quits; arrows move the selection,
      which is then wrapped into 0..2; confirming option 0 or 1 starts a
      single- or two-player match, confirming option 2 quits. */
  function MenuEvent(f: Flow, ev: Event): (g: Flow)
    ensures ev.Quit? ==> g == f.(running := false)
    ensures !ev.Quit? && !ev.KeyPressed? ==> g == f
    ensures ev.KeyPressed? ==> 0 <= g.selected <= 2
    ensures g.first == f.first && g.second == f.second
    ensures g.running ==> f.running
    ensures g.screen == f.screen || g.screen == GamePlay
    ensures g.screen == GamePlay && f.screen != GamePlay ==>
              ev.KeyPressed? && IsConfirm(ev.key) && (f.selected == 0 || f.selected == 1)
    ensures ev.KeyPressed? && IsConfirm(ev.key) && f.selected == 0 ==>
              g.screen == GamePlay && g.singlePlayer && g.running == f.running
    ensures ev.KeyPressed? && IsConfirm(ev.key) && f.selected == 1 ==>
              g.screen == GamePlay && !g.singlePlayer && g.running == f.running
    ensures ev.KeyPressed? && IsConfirm(ev.key) && f.selected == 2 ==>
              !g.running && g.screen == f.screen
    ensures g.running == (f.running && !ev.Quit? && !(ev.KeyPressed? && IsConfirm(ev.key) && f.selected == 2))
    ensures g.singlePlayer != f.singlePlayer ==> ev.KeyPressed? && IsConfirm(ev.key)
    ensures ev.KeyPressed? && IsConfirm(ev.key) && 0 <= f.selected <= 2 ==>
              g == (if f.selected == 2 then f.(running := false)
                    else f.(screen := GamePlay, singlePlayer := f.selected == 0))
    ensures ev.KeyPressed? && ev.key != KeyUp && ev.key != KeyDown && !IsConfirm(ev.key) && 0 <= f.selected <= 2 ==>
              g == f
  {
    match ev
    case Quit => f.(running := false)
    case KeyPressed(k) =>
      var f1 :=
        if k == KeyUp then f.(selected := f.selected - 1)
        else if k == KeyDown then f.(selected := f.selected + 1)
        else if IsConfirm(k) then
          if f.selected == 0 then f.(singlePlayer := true, screen := GamePlay)
          else if f.selected == 1 then f.(singlePlayer := false, screen := GamePlay)
          else if f.selected == 2 then f.(running := false)
          else f
        else f;
      f1.(selected := Wrap(f1.selected, 3))
    case _ => f
  }

  /** Up from the first option lands on the last, down from the last on the
      first, and otherwise the arrows move by one; nothing else changes. */
  lemma MenuArrows(f: Flow)
    requires 0 <= f.selected <= 2
    ensures MenuEvent(f, KeyPressed(KeyUp)) == f.(selected := if f.selected == 0 then 2 else f.selected - 1)
    ensures MenuEvent(f, KeyPressed(KeyDown)) == f.(selected := if f.selected == 2 then 0 else f.selected + 1)
  {
  }

  /** The menu's handling of one drained event queue. */
  function MenuEvents(f: Flow, evs: seq<Event>): (g: Flow)
    ensures g.first == f.first && g.second == f.second
    ensures 0 <= f.selected <= 2 ==> 0 <= g.selected <= 2
    ensures g.running ==> f.running
    ensures g.screen == f.screen || g.screen == GamePlay
    decreases |evs|
  {
    if |evs| == 0 then f else MenuEvents(MenuEvent(f, evs[0]), evs[1..])
  }

  /** One pass of the menu loop: drawing comes first (a failure stops the
      program, yet the queue is still drained), then the events. */
  function MenuFrame(f: Flow, t: Turn): (g: Flow)
    ensures g.running ==> f.running && t.rendered
    ensures g.first == f.first && g.second == f.second
    ensures g.screen == f.screen || g.screen == GamePlay
    ensures 0 <= f.selected <= 2 ==> 0 <= g.selected <= 2
  {
    MenuEvents(if t.rendered then f else f.(running := false), t.events)
  }

  // ---------------------------------------------------------------------
  // Result screen

  /** One event on the result screen: close quits; arrows move the
      selection, wrapped into 0..1; Escape goes to the menu; confirming
      option 0 plays again, option 1 goes to the menu. */
  function ResultEvent(f: Flow, ev: Event): (g: Flow)
    ensures ev.Quit? ==> g == f.(running := false)
    ensures !ev.Quit? && !ev.KeyPressed? ==> g == f
    ensures ev.KeyPressed? ==> 0 <= g.selected <= 1
    ensures g.first == f.first && g.second == f.second && g.singlePlayer == f.singlePlayer
    ensures g.running == (f.running && !ev.Quit?)
    ensures g.screen == f.screen || g.screen == MainMenu || g.screen == GamePlay
    ensures ev == KeyPressed(KeyEscape) ==> g.screen == MainMenu
    ensures ev.KeyPressed? && IsConfirm(ev.key) && f.selected == 0 ==> g.screen == GamePlay
    ensures ev.KeyPressed? && IsConfirm(ev.key) && f.selected == 1 ==> g.screen == MainMenu
    ensures g.screen != f.screen ==> ev == KeyPressed(KeyEscape) || (ev.KeyPressed? && IsConfirm(ev.key))
    ensures ev == KeyPressed(KeyEscape) && 0 <= f.selected <= 1 ==> g == f.(screen := MainMenu)
    ensures ev.KeyPressed? && IsConfirm(ev.key) && 0 <= f.selected <= 1 ==>
              g == f.(screen := if f.selected == 0 then GamePlay else MainMenu)
    ensures ev.KeyPressed? && ev.key != KeyUp && ev.key != KeyDown && ev.key != KeyEscape
              && !IsConfirm(ev.key) && 0 <= f.selected <= 1
            ==> g == f
  {
    match ev
    case Quit => f.(running := false)
    case KeyPressed(k) =>
      var f1 :=
        if k == KeyUp then f.(selected := f.selected - 1)
        else if k == KeyDown then f.(selected := f.selected + 1)
        else if k == KeyEscape then f.(screen := MainMenu)
        else if IsConfirm(k) then
          if f.selected == 0 then f.(screen := GamePlay)
          else if f.selected == 1 then f.(screen := MainMenu)
          else f
        else f;
      f1.(selected := Wrap(f1.selected, 2))
    case _ => f
  }

  /** On the result screen both arrows toggle between the two options. */
  lemma ResultArrows(f: Flow)
    requires 0 <= f.selected <= 1
    ensures ResultEvent(f, KeyPressed(KeyUp)) == f.(selected := 1 - f.selected)
    ensures ResultEvent(f, KeyPressed(KeyDown)) == f.(selected := 1 - f.selected)
  {
  }

  /** The result screen's handling of one drained event queue. */
  function ResultEvents(f: Flow, evs: seq<Event>): (g: Flow)
    ensures g.first == f.first && g.second == f.second && g.singlePlayer == f.singlePlayer
    ensures 0 <= f.selected <= 1 ==> 0 <= g.selected <= 1
    ensures g.running ==> f.running
    ensures g.screen == f.screen || g.screen == MainMenu || g.screen == GamePlay
    decreases |evs|
  {
    if |evs| == 0 then f else ResultEvents(ResultEvent(f, evs[0]), evs[1..])
  }

  /** One pass of the result loop: the events first, then drawing. */
  function ResultFrame(f: Flow, t: Turn): (g: Flow)
    ensures g.running ==> f.running && t.rendered
    ensures g.first == f.first && g.second == f.second && g.singlePlayer == f.singlePlayer
    ensures g.screen == f.screen || g.screen == MainMenu || g.screen == GamePlay
    ensures 0 <= f.selected <= 1 ==> 0 <= g.selected <= 1
  {
    var g := ResultEvents(f, t.events);
    if t.rendered then g else g.(running := false)
  }

  /** The text at the top of the result screen: the first player is named
      only with strictly more points, so a tie names the second player. */
  function WinnerMessage(first: int, second: int): (s: string)
    ensures s == "FIRST PLAYER WINS" <==> first > second
    ensures s == "FIRST PLAYER WINS" || s == "SECOND PLAYER WINS"
  {
    if first > second then "FIRST PLAYER WINS" else "SECOND PLAYER WINS"
  }

  // ---------------------------------------------------------------------
  // Play screen

  /** One pass of the play loop, after `init_game` returned `r`: exit stops
      the program, Escape goes to the menu, a round win adds a point, and
      the result screen follows once either score reaches `maxPoints`. */
  function PlayStep(f: Flow, r: RoundResult, maxPoints: int): (g: Flow)
    ensures g.first == f.first + (if r == FirstPlayerWins then 1 else 0)
    ensures g.second == f.second + (if r == SecondPlayerWins then 1 else 0)
    ensures g.selected == f.selected && g.singlePlayer == f.singlePlayer
    ensures g.running == (f.running && r != ExitGame)
    ensures g.first >= maxPoints || g.second >= maxPoints ==> g.screen == GameResult
    ensures !(g.first >= maxPoints || g.second >= maxPoints) ==>
              g.screen == (if r == ReturnToMenu then MainMenu else f.screen)
  {
    var f1 := match r
      case ExitGame => f.(running := false)
      case ReturnToMenu => f.(screen := MainMenu)
      case FirstPlayerWins => f.(first := f.first + 1)
      case SecondPlayerWins => f.(second := f.second + 1);
    if f1.first >= maxPoints || f1.second >= maxPoints then f1.(screen := GameResult) else f1
  }

  // ---------------------------------------------------------------------
  // Control between the loops. Each function runs `main` from one program
  // point to the head of the next screen loop whose condition holds, or to
  // the end of `while (running)`.

  /** From the head of `while (running)`. */
  function FromOuter(g: Flow): (r: Flow)
    ensures r.running == g.running && r.screen == g.screen && r.singlePlayer == g.singlePlayer
    ensures !g.running || g.screen == MainMenu ==> r == g
    ensures g.running && g.screen != MainMenu ==> r.first == 0 && r.second == 0
    ensures g.running && g.screen == GamePlay ==> r.selected == g.selected
    ensures g.running && g.screen == GameResult ==> r.selected == 0
  {
    if !g.running || g.screen == MainMenu then g
    else if g.screen == GamePlay then g.(first := 0, second := 0)
    else g.(first := 0, second := 0, selected := 0)
  }

  /** From the head of the result loop. */
  function FromResultLoop(g: Flow): (r: Flow)
    ensures r.running == g.running && r.screen == g.screen && r.singlePlayer == g.singlePlayer
    ensures g.running && g.screen != GamePlay ==> r == g
    ensures g.running && g.screen == GamePlay ==> r == g.(first := 0, second := 0)
  {
    if g.running && g.screen == GameResult then g else FromOuter(g)
  }

  /** From the head of the play loop; leaving it resets the selection. */
  function FromPlayLoop(g: Flow): (r: Flow)
    ensures r.running == g.running && r.screen == g.screen && r.singlePlayer == g.singlePlayer
    ensures g.running && g.screen == GamePlay ==> r == g
    ensures g.running && g.screen != GamePlay ==> r == g.(selected := 0)
  {
    if g.running && g.screen == GamePlay then g else FromResultLoop(g.(selected := 0))
  }

  /** From the head of the menu loop; leaving it resets both scores. */
  function FromMenuLoop(g: Flow): (r: Flow)
    ensures r.running == g.running && r.screen == g.screen && r.singlePlayer == g.singlePlayer
    ensures g.running && g.screen == MainMenu ==> r == g
    ensures g.running && g.screen == GamePlay ==> r == g.(first := 0, second := 0)
    ensures g.running && g.screen == GameResult ==> r == g.(first := 0, second := 0, selected := 0)
  {
    if g.running && g.screen == MainMenu then g else FromPlayLoop(g.(first := 0, second := 0))
  }

  /** One pass of whichever screen loop is running, then on to the next loop
      head. A stopped program stays stopped. */
  function Step(cfg: GameConfig, f: Flow, t: Turn): (g: Flow)
    ensures !f.running ==> g == f
    ensures g.running ==> f.running
    ensures g.singlePlayer != f.singlePlayer ==> f.screen == MainMenu
    ensures f.running && f.screen == MainMenu && g.running ==>
              g.screen == MainMenu || (g.screen == GamePlay && g.first == 0 && g.second == 0)
    ensures f.running && f.screen == GamePlay && g.running && g.screen == GameResult ==> g.selected == 0
    ensures f.running && f.screen == GameResult && g.running && g.screen == GamePlay ==>
              g.first == 0 && g.second == 0
  {
    if !f.running then f
    else match f.screen
      case MainMenu => FromMenuLoop(MenuFrame(f, t))
      case GamePlay => FromPlayLoop(PlayStep(f, t.round, cfg.maxPoints))
      case GameResult => FromResultLoop(ResultFrame(f, t))
  }

  /** `main` run on a finite sequence of turns. */
  function Session(cfg: GameConfig, f: Flow, turns: seq<Turn>): (g: Flow)
    ensures g.running ==> f.running
    decreases |turns|
  {
    if |turns| == 0 then f else Session(cfg, Step(cfg, f, turns[0]), turns[1..])
  }

  // ---------------------------------------------------------------------
  // Properties of the flow

  /** What holds at every screen-loop head while the program runs: the
      selection is one of the shown options, a match in progress has not been
      decided, and the result screen shows a decided match. */
  predicate FlowInv(f: Flow, cfg: GameConfig) {
    f.running ==>
      && (f.screen == MainMenu ==> 0 <= f.selected <= 2)
      && (f.screen == GamePlay ==> 0 <= f.first < cfg.maxPoints && 0 <= f.second < cfg.maxPoints)
      && (f.screen == GameResult ==>
            && 0 <= f.selected <= 1
            && 0 <= f.first && 0 <= f.second
            && (f.first >= cfg.maxPoints || f.second >= cfg.maxPoints))
  }

  lemma StepKeepsInv(cfg: GameConfig, f: Flow, t: Turn)
    requires Valid(cfg) && FlowInv(f, cfg)
    ensures FlowInv(Step(cfg, f, t), cfg)
  {
    if f.running {
      match f.screen
      case MainMenu =>
        var g := MenuFrame(f, t);
        assert 0 <= g.selected <= 2;
      case GamePlay =>
      case GameResult =>
        var g := ResultFrame(f, t);
        assert 0 <= g.selected <= 1;
    }
  }

  /** The invariant holds after any sequence of turns. */
  lemma {:induction false} SessionKeepsInv(cfg: GameConfig, f: Flow, turns: seq<Turn>)
    requires Valid(cfg) && FlowInv(f, cfg)
    ensures FlowInv(Session(cfg, f, turns), cfg)
    decreases |turns|
  {
    if |turns| > 0 {
      StepKeepsInv(cfg, f, turns[0]);
      SessionKeepsInv(cfg, Step(cfg, f, turns[0]), turns[1..]);
    }
  }

  /** So at every point the program reaches, the selection is in range. */
  lemma ReachableInv(cfg: GameConfig, turns: seq<Turn>)
    requires Valid(cfg)
    ensures FlowInv(Session(cfg, Start, turns), cfg)
  {
    SessionKeepsInv(cfg, Start, turns);
  }

  /** Once stopped, the program stays stopped whatever follows. */
  lemma {:induction false} StoppedStays(cfg: GameConfig, f: Flow, turns: seq<Turn>)
    requires !f.running
    ensures Session(cfg, f, turns) == f
    decreases |turns|
  {
    if |turns| > 0 {
      StoppedStays(cfg, f, turns[1..]);
    }
  }

  /** "Play again" on the result screen starts a new match from 0 : 0. */
  lemma PlayAgainResets(cfg: GameConfig, f: Flow)
    requires f.running && f.screen == GameResult && f.selected == 0
    ensures Step(cfg, f, Turn([KeyPressed(KeyReturn)], true, ExitGame))
            == f.(screen := GamePlay, first := 0, second := 0)
  {
    var ev := KeyPressed(KeyReturn);
    assert [ev][1..] == [];
    assert ResultEvents(f, [ev]) == ResultEvent(f, ev) == f.(screen := GamePlay);
  }

  /** Single player chosen from the menu, the ball lost on the left, one
      point to play for: the result screen names the second player. */
  lemma SinglePlayerLoss()
    ensures var f := Session(Default, Start,
                             [Turn([KeyPressed(KeyUp), KeyPressed(KeyReturn)], true, ExitGame),
                              Turn([], true, SecondPlayerWins)]);
            f == Flow(true, GameResult, 0, 0, 1, true)
            && WinnerMessage(f.first, f.second) == "SECOND PLAYER WINS"
  {
    var menu := [KeyPressed(KeyUp), KeyPressed(KeyReturn)];
    var t0 := Turn(menu, true, ExitGame);
    var t1 := Turn([], true, SecondPlayerWins);
    var picked := Start.(selected := 0, singlePlayer := true, screen := GamePlay);
    assert MenuEvent(Start, menu[0]) == Start.(selected := 0);
    assert MenuEvent(Start.(selected := 0), menu[1]) == picked;
    assert menu[1..][0] == menu[1] && menu[1..][1..] == [];
    assert MenuEvents(picked, []) == picked;
    assert MenuEvents(Start.(selected := 0), menu[1..]) == picked;
    assert MenuEvents(Start, menu) == picked;
    var playing := Step(Default, Start, t0);
    assert playing == picked;
    var done := Step(Default, playing, t1);
    assert done == Flow(true, GameResult, 0, 0, 1, true);
    assert [t1][1..] == [];
    assert Session(Default, playing, [t1]) == Session(Default, done, []) == done;
    assert [t0, t1][1..] == [t1];
    assert Session(Default, Start, [t0, t1]) == Session(Default, playing, [t1]);
  }

  // ---------------------------------------------------------------------
  // The loops of `main`

  /** The menu's handling of one polled event (the body of its
      `while (SDL_PollEvent(...))`). */
  method MenuKey(f: Flow, ev: Event) returns (g: Flow)
    ensures g == MenuEvent(f, ev)
  {
    g := f;
    if ev.Quit? {
      g := g.(running := false);
    } else if ev.KeyPressed? {
      var k := ev.key;
      if k == KeyUp {
        g := g.(selected := g.selected - 1);
      } else if k == KeyDown {
        g := g.(selected := g.selected + 1);
      } else if IsConfirm(k) {
        if g.selected == 0 {
          g := g.(singlePlayer := true, screen := GamePlay);
        } else if g.selected == 1 {
          g := g.(singlePlayer := false, screen := GamePlay);
        } else if g.selected == 2 {
          g := g.(running := false);
        }
      }
      var s := Rem(g.selected, 3);
      if s < 0 {
        s := 2;
      }
      g := g.(selected := s);
    }
  }

  /** The menu's `while (SDL_PollEvent(...))` loop. */
  method PollMenu(f: Flow, events: seq<Event>) returns (g: Flow)
    ensures g == MenuEvents(f, events)
  {
    g := f;
    var j := 0;
    while j < |events|
      invariant 0 <= j <= |events|
      invariant MenuEvents(g, events[j..]) == MenuEvents(f, events)
    {
      g := MenuKey(g, events[j]);
      assert events[j..][1..] == events[j + 1..];
      j := j + 1;
    }
  }

  /** The result screen's handling of one polled event. */
  method ResultKey(f: Flow, ev: Event) returns (g: Flow)
    ensures g == ResultEvent(f, ev)
  {
    g := f;
    if ev.Quit? {
      g := g.(running := false);
    } else if ev.KeyPressed? {
      var k := ev.key;
      if k == KeyUp {
        g := g.(selected := g.selected - 1);
      } else if k == KeyDown {
        g := g.(selected := g.selected + 1);
      } else if k == KeyEscape {
        g := g.(screen := MainMenu);
      } else if IsConfirm(k) {
        if g.selected == 0 {
          g := g.(screen := GamePlay);
        } else if g.selected == 1 {
          g := g.(screen := MainMenu);
        }
      }
      var s := Rem(g.selected, 2);
      if s < 0 {
        s := 1;
      }
      g := g.(selected := s);
    }
  }

  /** The result screen's `while (SDL_PollEvent(...))` loop. */
  method PollResult(f: Flow, events: seq<Event>) returns (g: Flow)
    ensures g == ResultEvents(f, events)
  {
    g := f;
    var j := 0;
    while j < |events|
      invariant 0 <= j <= |events|
      invariant ResultEvents(g, events[j..]) == ResultEvents(f, events)
    {
      g := ResultKey(g, events[j]);
      assert events[j..][1..] == events[j + 1..];
      j := j + 1;
    }
  }

  /** The menu loop `while (running && current_screen == MAIN_MENU_SCREEN)`,
      reading turns from index `i0` on; the program continues from where it
      stops as it would have from where it began. */
  method MenuLoop(cfg: GameConfig, st0: Flow, turns: seq<Turn>, i0: nat) returns (st: Flow, i: nat)
    requires i0 <= |turns|
    ensures i0 <= i <= |turns|
    ensures !(st.running && st.screen == MainMenu && i < |turns|)
    ensures i == i0 ==> st == st0
    ensures Session(cfg, FromMenuLoop(st), turns[i..]) == Session(cfg, FromMenuLoop(st0), turns[i0..])
  {
    st, i := st0, i0;
    while st.running && st.screen == MainMenu && i < |turns|
      invariant i0 <= i <= |turns|
      invariant i == i0 ==> st == st0
      invariant Session(cfg, FromMenuLoop(st), turns[i..]) == Session(cfg, FromMenuLoop(st0), turns[i0..])
    {
      var t := turns[i];
      if !t.rendered {
        st := st.(running := false);
      }
      st := PollMenu(st, t.events);
      assert turns[i..][1..] == turns[i + 1..];
      i := i + 1;
    }
  }

  /** The body of the play loop after `init_game` returned `r`: the
      `switch` on the result and the test for the end of the match. */
  method Tally(f: Flow, r: RoundResult, maxPoints: int) returns (g: Flow)
    ensures g == PlayStep(f, r, maxPoints)
  {
    g := f;
    match r {
      case ExitGame =>
        g := g.(running := false);
      case ReturnToMenu =>
        g := g.(screen := MainMenu);
      case FirstPlayerWins =>
        g := g.(first := g.first + 1);
      case SecondPlayerWins =>
        g := g.(second := g.second + 1);
    }
    if g.first >= maxPoints || g.second >= maxPoints {
      g := g.(screen := GameResult);
    }
  }

  /** The play loop `while (running && current_screen == GAME_PLAY_SCREEN)`:
      one `init_game` round per pass and the tally of its result. */
  method PlayLoop(cfg: GameConfig, st0: Flow, turns: seq<Turn>, i0: nat) returns (st: Flow, i: nat)
    requires i0 <= |turns|
    ensures i0 <= i <= |turns|
    ensures !(st.running && st.screen == GamePlay && i < |turns|)
    ensures i == i0 ==> st == st0
    ensures Session(cfg, FromPlayLoop(st), turns[i..]) == Session(cfg, FromPlayLoop(st0), turns[i0..])
  {
    st, i := st0, i0;
    while st.running && st.screen == GamePlay && i < |turns|
      invariant i0 <= i <= |turns|
      invariant i == i0 ==> st == st0
      invariant Session(cfg, FromPlayLoop(st), turns[i..]) == Session(cfg, FromPlayLoop(st0), turns[i0..])
    {
      st := Tally(st, turns[i].round, cfg.maxPoints);
      assert turns[i..][1..] == turns[i + 1..];
      i := i + 1;
    }
  }

  /** The result loop `while (running && current_screen == GAME_RESULT_SCREEN)`. */
  method ResultLoop(cfg: GameConfig, st0: Flow, turns: seq<Turn>, i0: nat) returns (st: Flow, i: nat)
    requires i0 <= |turns|
    ensures i0 <= i <= |turns|
    ensures !(st.running && st.screen == GameResult && i < |turns|)
    ensures Session(cfg, FromResultLoop(st), turns[i..]) == Session(cfg, FromResultLoop(st0), turns[i0..])
  {
    st, i := st0, i0;
    while st.running && st.screen == GameResult && i < |turns|
      invariant i0 <= i <= |turns|
      invariant Session(cfg, FromResultLoop(st), turns[i..]) == Session(cfg, FromResultLoop(st0), turns[i0..])
    {
      var t := turns[i];
      st := PollResult(st, t.events);
      if !t.rendered {
        st := st.(running := false);
      }
      assert turns[i..][1..] == turns[i + 1..];
      i := i + 1;
    }
  }

  /** `main`'s `while (running)` around its three screen loops, run until
      the program stops or the turns run out; it ends where `Session` does. */
  method Run(cfg: GameConfig, turns: seq<Turn>) returns (final: Flow)
    ensures final == Session(cfg, Start, turns)
  {
    ghost var goal := Session(cfg, Start, turns);
    var st := Start;
    var i: nat := 0;
    while st.running
      invariant i <= |turns|
      invariant st.running ==> st.screen != GameResult
      invariant Session(cfg, FromOuter(st), turns[i..]) == goal
      decreases |turns| - i
    {
      ghost var i0, st0 := i, st;
      assert FromMenuLoop(st) == FromOuter(st);
      st, i := MenuLoop(cfg, st, turns, i);
      if st.running && st.screen == MainMenu {
        break;
      }
      assert i == i0 ==> st.screen == GamePlay;

      st := st.(first := 0, second := 0);
      st, i := PlayLoop(cfg, st, turns, i);
      if st.running && st.screen == GamePlay {
        break;
      }
      assert i0 < i;

      st := st.(selected := 0);
      st, i := ResultLoop(cfg, st, turns, i);
      if st.running && st.screen == GameResult {
        break;
      }
    }
    if !st.running {
      StoppedStays(cfg, st, turns[i..]);
    }
    final := st;
  }
}
