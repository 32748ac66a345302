/** One round, as `init_game` plays it: spawn a ball and two paddles, then
    loop over frames until the window closes, Escape is pressed or the ball
    leaves the screen. The wall clock is left out: whether a frame runs a
    simulation tick is an input of the frame. */
module Round {
  import opened CInt
  import opened Config
  import opened Input
  import opened Rules
  import opened Objects

  /** The three local structs of `init_game`. */
  datatype World = World(ball: BallState, first: PlayerState, second: PlayerState)

  /** What one pass of the frame loop reads from outside: the queued events
      and whether enough time has gone by for a simulation tick. */
  datatype Frame = Frame(events: seq<Event>, tick: bool)

  /** The round either goes on in a new world or has ended with a result. */
  datatype Progress = Ended(result: RoundResult) | Going(world: World)

  /** The state `init_game` starts from; the second paddle is played by the
      computer in single-player mode. */
  function StartWorld(cfg: GameConfig, singlePlayer: bool, d: Draws): (w: World)
    requires cfg.maxVelocity >= 2
    ensures w.ball == InitBall(cfg, d)
    ensures w.first == InitPlayer(cfg, FirstPlayerIndex, true)
    ensures w.second == InitPlayer(cfg, SecondPlayerIndex, !singlePlayer)
    ensures w.first.index == FirstPlayerIndex && w.first.human
    ensures w.second.index == SecondPlayerIndex && w.second.human == !singlePlayer
    ensures w.first.velocity == 0 && w.second.velocity == 0
    ensures !w.first.keyUpPressed && !w.first.keyDownPressed
    ensures !w.second.keyUpPressed && !w.second.keyDownPressed
  {
    World(InitBall(cfg, d),
          InitPlayer(cfg, FirstPlayerIndex, true),
          InitPlayer(cfg, SecondPlayerIndex, !singlePlayer))
  }

  /** The event ends the round at once (window closed, or Escape pressed). */
  predicate Interrupts(ev: Event) {
    ev.Quit? || ev == KeyPressed(KeyEscape)
  }

  /** The index of the first event that ends the round, or `|evs|` if none
      does. */
  function FirstInterrupt(evs: seq<Event>): (k: nat)
    ensures k <= |evs|
    ensures k < |evs| ==> Interrupts(evs[k])
    ensures forall j :: 0 <= j < k ==> !Interrupts(evs[j])
    decreases |evs|
  {
    if |evs| == 0 then 0
    else if Interrupts(evs[0]) then 0
    else
      var k := FirstInterrupt(evs[1..]);
      assert forall j :: 1 <= j < |evs| ==> evs[j] == evs[1..][j - 1];
      k + 1
  }

  /** A paddle's held-key flags after it has seen every event of `evs`. */
  function KeysAfter(p: PlayerState, evs: seq<Event>): (q: PlayerState)
    ensures OnlyKeysDiffer(p, q)
    decreases |evs|
  {
    if |evs| == 0 then p else KeysAfter(HandleKeyPress(p, evs[0]), evs[1..])
  }

  /** One queued event: Quit exits the game, Escape pressed returns to the
      menu, anything else goes to the first player's keys and, when the
      second player is human, to theirs. */
  function PollEvent(w: World, ev: Event): (r: Progress)
    ensures Interrupts(ev) <==> r.Ended?
    ensures r == Ended(ExitGame) <==> ev.Quit?
    ensures r == Ended(ReturnToMenu) <==> ev == KeyPressed(KeyEscape)
    ensures r.Going? ==> r.world.ball == w.ball
                         && r.world.first == HandleKeyPress(w.first, ev)
                         && r.world.second == (if w.second.human then HandleKeyPress(w.second, ev) else w.second)
  {
    if ev.Quit? then Ended(ExitGame)
    else if ev == KeyPressed(KeyEscape) then Ended(ReturnToMenu)
    else Going(World(w.ball,
                     HandleKeyPress(w.first, ev),
                     if w.second.human then HandleKeyPress(w.second, ev) else w.second))
  }

  /** Draining the event queue: the first interrupting event decides the
      result; if there is none, every event has reached the first paddle's
      keys, and the second's when it is human, and nothing else changed. */
  function PollEvents(w: World, evs: seq<Event>): (r: Progress)
    ensures r.Ended? <==> exists i :: 0 <= i < |evs| && Interrupts(evs[i])
    ensures r.Ended? <==> FirstInterrupt(evs) < |evs|
    ensures r.Ended? ==> (r.result == ExitGame <==> evs[FirstInterrupt(evs)].Quit?)
    ensures r.Ended? ==> r.result == ExitGame || r.result == ReturnToMenu
    ensures r.Going? ==> r.world.ball == w.ball
                         && r.world.first == KeysAfter(w.first, evs)
                         && r.world.second == (if w.second.human then KeysAfter(w.second, evs) else w.second)
    decreases |evs|
  {
    if |evs| == 0 then Going(w)
    else match PollEvent(w, evs[0])
         case Ended(res) => Ended(res)
         case Going(w1) =>
           var r := PollEvents(w1, evs[1..]);
           assert forall i :: 1 <= i < |evs| ==> evs[i] == evs[1..][i - 1];
           r
  }

  /** One simulation tick: both paddles accelerate (the second by the
      computer rule in single-player mode), both move, then the ball moves
      against the moved paddles. */
  function Tick(w: World, cfg: GameConfig): (r: World)
    ensures r.first.human == w.first.human && r.second.human == w.second.human
    ensures r.first.paddle.x == w.first.paddle.x && r.second.paddle.x == w.second.paddle.x
    ensures r.first.keyUpPressed == w.first.keyUpPressed && r.first.keyDownPressed == w.first.keyDownPressed
    ensures r.second.keyUpPressed == w.second.keyUpPressed && r.second.keyDownPressed == w.second.keyDownPressed
    ensures r.first == MovePlayer(HumanAcceleration(w.first, cfg), cfg)
    ensures w.second.human ==> r.second == MovePlayer(HumanAcceleration(w.second, cfg), cfg)
    ensures !w.second.human ==> r.second == MovePlayer(ComputerAcceleration(w.second, w.ball, cfg), cfg)
    ensures r.ball == MoveBall(w.ball, r.first, r.second, cfg)
    ensures r.ball.rect == w.ball.rect.(x := w.ball.rect.x + w.ball.velocityX, y := w.ball.rect.y + w.ball.velocityY)
  {
    var first := MovePlayer(HumanAcceleration(w.first, cfg), cfg);
    var second := MovePlayer(
      if w.second.human then HumanAcceleration(w.second, cfg)
      else ComputerAcceleration(w.second, w.ball, cfg), cfg);
    World(MoveBall(w.ball, first, second, cfg), first, second)
  }

  /** One pass of the frame loop: events, the tick if one is due, then the
      round-end test, which runs on every frame. */
  function FrameStep(w: World, f: Frame, cfg: GameConfig): (r: Progress)
    ensures PollEvents(w, f.events).Ended? ==> r == PollEvents(w, f.events)
    ensures r.Ended? && PollEvents(w, f.events).Going? ==>
              r.result == FirstPlayerWins || r.result == SecondPlayerWins
    ensures r.Going? ==> Scored(r.world.ball, cfg) == None
    ensures r.Going? && !f.tick ==> r.world == PollEvents(w, f.events).world
    ensures r.Going? && f.tick ==> r.world == Tick(PollEvents(w, f.events).world, cfg)
    ensures PollEvents(w, f.events).Going? && r.Ended? ==>
              var w1 := PollEvents(w, f.events).world;
              Some(r.result) == Scored(if f.tick then Tick(w1, cfg).ball else w1.ball, cfg)
  {
    match PollEvents(w, f.events)
    case Ended(res) => Ended(res)
    case Going(w1) =>
      var w2 := if f.tick then Tick(w1, cfg) else w1;
      match Scored(w2.ball, cfg)
      case Some(res) => Ended(res)
      case None => Going(w2)
  }

  /** The result of playing `frames` from `w`, or None if the round is
      still going when they run out. */
  function RoundFrom(w: World, frames: seq<Frame>, cfg: GameConfig): (r: Option<RoundResult>)
    ensures r == Some(ExitGame) ==> QuitIn(frames)
    ensures r == Some(ReturnToMenu) ==> EscapeIn(frames)
    decreases |frames|
  {
    if |frames| == 0 then None
    else match FrameStep(w, frames[0], cfg)
         case Ended(res) =>
           var evs := frames[0].events;
           var k := FirstInterrupt(evs);
           assert res == ExitGame || res == ReturnToMenu ==> k < |evs| && Interrupts(evs[k]);
           assert res == ExitGame ==> evs[k].Quit?;
           assert res == ReturnToMenu ==> evs[k] == KeyPressed(KeyEscape);
           Some(res)
         case Going(w1) =>
           var r := RoundFrom(w1, frames[1..], cfg);
           assert forall i :: 1 <= i < |frames| ==> frames[i] == frames[1..][i - 1];
           r
  }

  /** Some frame's queue holds a Quit event. */
  predicate QuitIn(frames: seq<Frame>) {
    exists i, j :: 0 <= i < |frames| && 0 <= j < |frames[i].events| && frames[i].events[j].Quit?
  }

  /** Some frame's queue holds an Escape press. */
  predicate EscapeIn(frames: seq<Frame>) {
    exists i, j :: 0 <= i < |frames| && 0 <= j < |frames[i].events| && frames[i].events[j] == KeyPressed(KeyEscape)
  }

  /** What holds of the round's state between frames: both paddles on the
      screen within the speed cap, at their sizes, the ball at its size and
      with both speeds in the spawn range. */
  predicate WorldInv(w: World, cfg: GameConfig) {
    && PaddleInv(w.first, cfg) && PaddleInv(w.second, cfg)
    && w.first.paddle.h == cfg.paddleHeight && w.second.paddle.h == cfg.paddleHeight
    && w.ball.rect.w == cfg.ballDiameter && w.ball.rect.h == cfg.ballDiameter
    && cfg.maxVelocity / 2 + 1 <= Abs(w.ball.velocityX) <= cfg.maxVelocity
    && cfg.maxVelocity / 2 + 1 <= Abs(w.ball.velocityY) <= cfg.maxVelocity
  }

  lemma StartWorldInv(cfg: GameConfig, singlePlayer: bool, d: Draws)
    requires Valid(cfg)
    ensures WorldInv(StartWorld(cfg, singlePlayer, d), cfg)
  {
  }

  /** Every frame that does not end the round keeps the invariant. */
  lemma FrameKeepsInv(w: World, f: Frame, cfg: GameConfig)
    requires Valid(cfg) && WorldInv(w, cfg)
    ensures FrameStep(w, f, cfg).Going? ==> WorldInv(FrameStep(w, f, cfg).world, cfg)
  {
    var p := PollEvents(w, f.events);
    if p.Going? {
      var w1 := p.world;
      assert WorldInv(w1, cfg);
      if f.tick {
        TickKeepsPaddleInv(w1.first, w1.ball, cfg);
        TickKeepsPaddleInv(w1.second, w1.ball, cfg);
      }
    }
  }

  /** Hence the invariant holds at every frame of a round. */
  lemma {:induction false} RoundKeepsInv(w: World, frames: seq<Frame>, cfg: GameConfig, k: nat)
    requires Valid(cfg) && WorldInv(w, cfg) && k <= |frames|
    ensures WorldAfter(w, frames[..k], cfg).Going? ==> WorldInv(WorldAfter(w, frames[..k], cfg).world, cfg)
    decreases k
  {
    if k > 0 {
      RoundKeepsInv(w, frames, cfg, k - 1);
      assert frames[..k][..k - 1] == frames[..k - 1];
      var prev := WorldAfter(w, frames[..k - 1], cfg);
      if prev.Going? {
        FrameKeepsInv(prev.world, frames[k - 1], cfg);
      }
    }
  }

  /** The state after playing a sequence of frames, stopping at the end of
      the round (frames are consumed from the front, as `RoundFrom` does). */
  function WorldAfter(w: World, frames: seq<Frame>, cfg: GameConfig): Progress
    decreases |frames|
  {
    if |frames| == 0 then Going(w)
    else match WorldAfter(w, frames[..|frames| - 1], cfg)
         case Ended(res) => Ended(res)
         case Going(w1) => FrameStep(w1, frames[|frames| - 1], cfg)
  }

  /** Playing a prefix and then the rest is playing the whole: the frame
      reached after `k` frames is where `RoundFrom` continues, and a round
      that ended within them ended with the same result. */
  lemma {:induction false} RoundFromSplit(w: World, frames: seq<Frame>, cfg: GameConfig, k: nat)
    requires k <= |frames|
    ensures WorldAfter(w, frames[..k], cfg).Ended? ==>
              RoundFrom(w, frames, cfg) == Some(WorldAfter(w, frames[..k], cfg).result)
    ensures WorldAfter(w, frames[..k], cfg).Going? ==>
              RoundFrom(w, frames, cfg) == RoundFrom(WorldAfter(w, frames[..k], cfg).world, frames[k..], cfg)
    decreases k
  {
    if k > 0 {
      RoundFromSplit(w, frames, cfg, k - 1);
      assert frames[..k][..k - 1] == frames[..k - 1];
      var prev := WorldAfter(w, frames[..k - 1], cfg);
      if prev.Going? {
        assert frames[k - 1..][1..] == frames[k..];
      }
    }
  }

  /** The state of the round's three objects, read as a value. */
  function WorldOf(ball: Ball, first: Player, second: Player): World
    reads ball, first, second
  {
    World(ball.State(), first.State(), second.State())
  }

  /** The event loop of one frame of `init_game`: returns the round's result
      if an event ends it, and otherwise updates the held-key flags. */
  method PollRoundEvents(ball: Ball, first: Player, second: Player, events: seq<Event>)
    returns (stop: Option<RoundResult>)
    requires first != second
    modifies first, second
    ensures var p := PollEvents(old(WorldOf(ball, first, second)), events);
            && (p.Ended? ==> stop == Some(p.result))
            && (p.Going? ==> stop == None && WorldOf(ball, first, second) == p.world)
  {
    ghost var w0 := WorldOf(ball, first, second);
    var j := 0;
    while j < |events|
      invariant 0 <= j <= |events|
      invariant PollEvents(WorldOf(ball, first, second), events[j..]) == PollEvents(w0, events)
    {
      var ev := events[j];
      if ev.Quit? {
        return Some(ExitGame);
      } else if ev.KeyPressed? && ev.key == KeyEscape {
        return Some(ReturnToMenu);
      }
      first.HandleKey(ev);
      if second.human {
        second.HandleKey(ev);
      }
      assert events[j..][1..] == events[j + 1..];
      j := j + 1;
    }
    return None;
  }

  /** One pass of `init_game`'s `while (true)`: events, the tick if one is
      due, and the round-end test. */
  method PlayFrame(cfg: GameConfig, ball: Ball, first: Player, second: Player, f: Frame)
    returns (outcome: Option<RoundResult>)
    requires first != second
    modifies ball, first, second
    ensures var p := FrameStep(old(WorldOf(ball, first, second)), f, cfg);
            && (p.Ended? ==> outcome == Some(p.result))
            && (p.Going? ==> outcome == None && WorldOf(ball, first, second) == p.world)
  {
    outcome := PollRoundEvents(ball, first, second, f.events);
    if outcome.Some? {
      return;
    }
    if f.tick {
      first.AccelerateHuman(cfg);
      if second.human {
        second.AccelerateHuman(cfg);
      } else {
        second.AccelerateComputer(ball, cfg);
      }
      first.Move(cfg);
      second.Move(cfg);
      ball.Move(first, second, cfg);
    }
    outcome := Scored(ball.State(), cfg);
  }

  /** `init_game` on a finite stretch of input: `Some(result)` if the round
      ended within `frames`, None if it is still going; the result is the
      one `RoundFrom` gives. */
  method PlayRound(cfg: GameConfig, singlePlayer: bool, d: Draws, frames: seq<Frame>)
    returns (result: Option<RoundResult>)
    requires cfg.maxVelocity >= 2
    ensures result == RoundFrom(StartWorld(cfg, singlePlayer, d), frames, cfg)
  {
    var ball := new Ball(cfg, d);
    var first := new Player(cfg, FirstPlayerIndex, true);
    var second := new Player(cfg, SecondPlayerIndex, !singlePlayer);
    ghost var goal := RoundFrom(StartWorld(cfg, singlePlayer, d), frames, cfg);
    var i := 0;
    while i < |frames|
      invariant 0 <= i <= |frames|
      invariant first != second
      invariant RoundFrom(WorldOf(ball, first, second), frames[i..], cfg) == goal
    {
      result := PlayFrame(cfg, ball, first, second, frames[i]);
      if result.Some? {
        return;
      }
      assert frames[i..][1..] == frames[i + 1..];
      i := i + 1;
    }
    return None;
  }
}
