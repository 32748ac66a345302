# Pong: a verified model of the game logic

This project models the game logic of a small SDL Pong game (`main.c`). It covers:

- the paddle kinematics: integrate the position, clamp to the screen and stop;
- the two acceleration rules: keyboard-driven for a human, reactive for the computer;
- held-key tracking;
- the ball step: move, paddle contact, wall reflection;
- the construction of paddles and balls;
- the round loop of `init_game` and its round-end test;
- the screen flow of `main`: main menu, play, result.

The model is written as Dafny modules:

- `CInt` (cint.dfy): C's truncating `/` and `%`, and `abs`.
- `Config` (config.dfy): `struct GameConfig`, the literal defaults set by `main`, and the assumptions the code makes about them (`Valid`).
- `Input` (input.dfy): SDL2 key codes and the events the game reacts to.
- `Rules` (rules.dfy): the structs as values (`PlayerState`, `BallState`, `Rect`). Each C helper is a function here, and each function's contract says what the helper guarantees. This is the specification.
- `Objects` (objects.dfy): classes `Player` and `Ball`. They hold the structs' fields and update them in place, as the C helpers do through pointers. Each method is proved to leave `State()` equal to the matching `Rules` function of the old state.
- `Round` (round.dfy): `init_game`. `FrameStep` and `RoundFrom` specify it on values. The methods `PollRoundEvents`, `PlayFrame` and `PlayRound` run it on the objects. `FrameKeepsInv` and `RoundKeepsInv` prove that the paddles stay on screen within the speed cap, and that the ball keeps its spawn-range speeds.
- `Screens` (screens.dfy): `main`'s loops.
  - `Step` and `Session` specify the flow on a `Flow` value. A `Flow` holds `running`, the screen, `selected_option`, both scores and `single_player`.
  - `MenuLoop`, `PlayLoop`, `ResultLoop` and `Run` are the imperative loops, proved equal to `Session`.
  - `FlowInv` is proved for every reachable state. It says the selection is within the options shown, a match in progress is undecided, and the result screen shows a decided match.

Inputs from the environment are parameters:

- `rand()` is a `Draws` value.
- Whether a frame runs a simulation tick is a `bool`.
- The events a screen loop or a round frame reads from SDL's queue in one pass are a sequence of `Event`.
- Whether a menu or result frame drew all its text is a `bool`.
- What `init_game` returned is a `RoundResult`, read by the play loop.

Facts about `main.c` that the model reproduces:

- The winner text names the first player only with a strictly higher score (`main.c:275`), so a tie names the second player.
- The paddle contact test uses the ball's left edge against the paddle's horizontal extent, and the ball's full vertical span against the paddle's (`main.c:411-414`).
- The menu starts with option 1 ("MULTI PLAYER") selected (`main.c:147`).
- In the frame timer, `1.0 / fps` is a floating-point division (`main.c:451`). The timer itself is not modelled; see below.

Behaviour of the code that the model keeps:

- Within one drained event queue, the screen's key handler keeps running after an event has switched the screen or stopped the program. For example, Enter followed by Down in one batch on the menu moves the selection after choosing the mode. `MenuEvents` and `ResultEvents` reproduce this.
- The scores are reset each time control passes from the menu loop to the play loop. This includes "PLAY AGAIN", which enters the play loop through the outer loop (`main.c:206-207`).
- `selected_option` is reset to 0 each time control leaves the play loop (`main.c:230`).

## Model

| member | source | states |
|---|---|---|
| `CInt.Div` | main.c:326 | C division rounds toward zero: the magnitude is `|a| / b` and the sign is that of `a` |
| `CInt.Rem` | main.c:198 | C remainder: `a == Div(a,b)*b + r`, lying in `[0,b)` for `a >= 0` and in `(-b,0]` for `a < 0` |
| `CInt.Abs` | main.c:416 | `abs` is non-negative and is `a` or `-a` |
| `Config.Default` | main.c:105-123 | the configuration `main` fills in: 20 x 80 paddles 10 pixels from the side edges, speed cap 10, a 20-pixel ball, one point to win, and a 960 x 720 window at 60 frames per second |
| `Config.DefaultValid` | main.c:105-123 | the literal configuration meets every assumption the game logic relies on |
| `Rules.InitPlayer` | main.c:323-347 | a new paddle is at rest with no key held, lies on screen and is vertically centred; the first paddle is `x_offset` from the left edge and bound to W/S; the second is `x_offset` from the right edge and bound to the arrow keys |
| `Rules.SpawnSpeed` | main.c:356-357 | a spawn speed has magnitude in `[m/2+1, 2*(m/2)]`, so within `max_velocity`, and is positive exactly when the sign draw is odd |
| `Rules.InitBall` | main.c:349-360 | a new ball is a `ball_diameter` square centred on screen; both speed components lie in `[max_velocity/2+1, max_velocity]` with signs set by the draws |
| `Rules.SpawnCovers` | main.c:356-357 | every speed pair in the spawn range, with all four sign combinations, is produced by some outcome of `rand()` |
| `Rules.HandleKeyPress` | main.c:362-380 | only the two held-key flags change; key-down on a bound key sets that key's flag and key-up clears it; an unbound key or another event changes nothing |
| `Rules.PressThenRelease` | main.c:362-380 | flags follow the last event of a key: press then release equals release alone |
| `Rules.HumanAcceleration` | main.c:382-394 | only the velocity changes, by at most one; it decreases exactly when up is held below the cap; it increases exactly when up is not held, down is, and the cap allows |
| `Rules.ComputerAcceleration` | main.c:396-404 | only the velocity changes, by at most one; it decreases exactly when the ball is wholly above the paddle and the cap allows; otherwise it increases exactly when the ball is wholly below and the cap allows |
| `Rules.AccelerationBounded` | main.c:382-404 | both rules change velocity by at most 1 and keep a velocity within `[-max_velocity, max_velocity]` inside it |
| `Rules.BothKeysActAsUp` | main.c:384-393 | holding up and down together acts as holding up alone |
| `Rules.ComputerIdleOnOverlap` | main.c:398-403 | the computer paddle is unchanged while the ball's vertical span overlaps its own |
| `Rules.HoldUp` | main.c:384-388 | `n` applications of the human acceleration rule with up held, as long as the cap allows, lower the velocity by exactly `n` (the clamp in `move_player` is not part of it) |
| `Rules.MovePlayer` | main.c:310-321 | only y and velocity change; the paddle ends on screen whatever its prior y and velocity; strictly inside, it moves freely at unchanged speed; at or past the bottom edge it is put on that edge, else at or past the top edge on that edge, and it stops |
| `Rules.TickKeepsPaddleInv` | main.c:475-484 | accelerating by either rule and then moving keeps the paddle on screen and within the speed cap |
| `Rules.MoveBall` | main.c:406-429 | the ball moves by its old velocity; `|velocity_x|` and `|velocity_y|` are preserved; contact with paddle 1 makes `velocity_x` positive, otherwise contact with paddle 2 makes it negative, otherwise it is unchanged; `velocity_y` flips exactly when the projected next edge reaches the top or bottom |
| `Rules.CornerContact` | main.c:411-417 | a ball stepped onto paddle 1's top-left corner leaves moving right, whatever its prior direction |
| `Rules.Scored` | main.c:489-494 | the round goes to the first player exactly when the ball's right edge reaches the right side, to the second exactly when it does not but the left edge reaches 0, and goes on otherwise |
| `Objects.Player.constructor` | main.c:323-347 | the new object's fields are the paddle `init_player` builds |
| `Objects.Player.Move` | main.c:310-321 | the in-place update leaves the fields equal to `MovePlayer` of the old fields |
| `Objects.Player.HandleKey` | main.c:362-380 | the in-place update equals `HandleKeyPress` of the old fields |
| `Objects.Player.AccelerateHuman` | main.c:382-394 | the in-place update equals `HumanAcceleration` of the old fields |
| `Objects.Player.AccelerateComputer` | main.c:396-404 | the in-place update equals `ComputerAcceleration` of the old fields and the ball |
| `Objects.Ball.constructor` | main.c:349-360 | the new object's fields are the ball `init_ball` builds from the draws |
| `Objects.Ball.Move` | main.c:406-429 | the in-place update equals `MoveBall` of the old ball and the two paddles; the paddles are not modified |
| `Round.PollEvent` | main.c:459-470 | Quit ends the round with "exit game" exactly, and an Escape press with "return to menu" exactly; any other event leaves the ball untouched and goes to the first paddle's key handler, and to the second's only when that paddle is human |
| `Round.FirstInterrupt` | main.c:459-464 | the index of the first Quit or Escape press in a queue, with no such event before it, or the queue's length when there is none |
| `Round.KeysAfter` | main.c:466-469 | feeding a queue's events to a paddle's key handler changes only its held-key flags |
| `Round.PollEvents` | main.c:459-470 | a drained queue ends the round exactly when it holds a Quit or Escape press; the first such event decides the result, "exit game" exactly when it is Quit and otherwise "return to menu"; if none ends it, the ball is unchanged, the first paddle has seen every event, and the second has seen every event when it is human and is unchanged otherwise |
| `Round.StartWorld` | main.c:442-444 | a round starts from the ball `init_ball` builds and the two paddles `init_player` builds (so their position, size and key bindings), resting with no key held; paddle 1 is human, and paddle 2 is human exactly in two-player mode |
| `Round.StartWorldInv` | main.c:442-444 | the spawned round satisfies the round invariant |
| `Round.Tick` | main.c:475-486 | each human paddle accelerates by the human rule and then moves, and the computer paddle by the computer rule; a tick changes no key flag, no human flag and no paddle's x; the computer paddle reacts to the ball where it was before the tick; the ball moves by its old velocity and is tested against the paddles after they have moved |
| `Round.FrameStep` | main.c:453-494 | a frame's events are handled before anything moves, and an interrupting event wins over scoring; otherwise the frame can end only with a point to player 1 or 2; the scoring test runs on every frame, so a round that goes on has its ball strictly inside the screen; a frame without a tick changes only key flags, and a frame with one runs exactly one tick; a scoring end gives the point that `Scored` awards to the ball after the tick |
| `Round.RoundFrom` | main.c:453-503 | the round ends with "exit game" only if some frame's queue held a Quit, and with "return to menu" only if some frame's queue held an Escape press |
| `Round.FrameKeepsInv` | main.c:453-494 | a frame that does not end the round keeps both paddles on screen within the cap and the ball's speeds in the spawn range |
| `Round.RoundKeepsInv` | main.c:453-503 | the invariant holds at every frame the round reaches |
| `Round.RoundFromSplit` | main.c:453-503 | the round's outcome after a prefix of frames continues from the state the prefix reaches, or is the result the prefix already produced |
| `Round.PollRoundEvents` | main.c:459-470 | the imperative event loop returns the same result as `PollEvents`; if it does not end the round, the objects hold `PollEvents`'s state |
| `Round.PlayFrame` | main.c:454-494 | one loop pass on the objects ends the round as `FrameStep` does, or leaves `FrameStep`'s state |
| `Round.PlayRound` | main.c:438-504 | `init_game` on a finite stretch of frames returns exactly what the value-level `RoundFrom` gives |
| `Screens.Start` | main.c:144-153 | `main` starts running, on the menu, with option 1 selected |
| `Screens.Wrap` | main.c:198-201 | the wrapped selection is within `[0,n)`; values already in range stay; `-1` becomes the last option and `n` becomes 0 |
| `Screens.MenuEvent` | main.c:170-202 | Quit stops the program; after any key-down the selection is in `[0,2]`; other events, and a key-down other than the arrows and confirm, change nothing; scores never change; the program stops exactly on Quit or on confirm at option 2; the only screen change is to play, which needs confirm on option 0 (single player) or 1 (two players); the mode changes only on confirm; confirm on option 0 or 1 enters play in that mode and changes nothing else |
| `Screens.MenuArrows` | main.c:174-201 | on the menu, up from 0 wraps to 2, down from 2 wraps to 0, and otherwise the arrows move by one, changing nothing else |
| `Screens.MenuFrame` | main.c:156-203 | a menu pass whose drawing failed stops the program; it keeps the scores and a valid selection, and moves only to play |
| `Screens.MenuEvents` | main.c:169-203 | draining a queue on the menu keeps scores, keeps a valid selection valid, never restarts a stopped program, and can only switch to play |
| `Screens.ResultEvent` | main.c:237-267 | on the result screen: the program stops exactly on Quit; after any key-down the selection is in `[0,1]`; scores and mode never change; the screen changes only on Escape or confirm; Escape goes to the menu and confirm on 0 goes to play and on 1 goes to the menu, all three keeping the selection; any other key-down changes nothing |
| `Screens.ResultArrows` | main.c:241-266 | on the result screen either arrow toggles between the two options |
| `Screens.ResultFrame` | main.c:232-289 | a result pass whose drawing failed stops the program; it keeps scores and mode and a valid selection, and moves only to the menu or to play |
| `Screens.ResultEvents` | main.c:236-271 | draining a queue on the result screen keeps scores and mode, keeps the selection in `[0,1]`, and can only switch to the menu or to play |
| `Screens.WinnerMessage` | main.c:273-280 | the text is "FIRST PLAYER WINS" exactly when the first score is strictly higher, and "SECOND PLAYER WINS" otherwise, ties included |
| `Screens.PlayStep` | main.c:210-227 | a round win adds one point to that player; exit stops the program; once either score reaches `max_points` the result screen follows; otherwise Escape leads to the menu and any other result stays on play |
| `Screens.FromOuter` | main.c:155-232 | from the head of `while (running)`: a stopped program or the menu is left as it is; entering play or the result screen resets both scores; entering the result screen also resets the selection |
| `Screens.FromMenuLoop` | main.c:204-209 | leaving the menu loop for play resets both scores and keeps the selection |
| `Screens.FromPlayLoop` | main.c:228-232 | leaving the play loop resets the selection to 0, so the menu reopens at option 0 and the result screen opens at "PLAY AGAIN" |
| `Screens.FromResultLoop` | main.c:155-207 | leaving the result loop for play goes around `while (running)` and resets both scores; leaving it for the menu keeps everything |
| `Screens.Step` | main.c:155-290 | a stopped program stays put and a running one never restarts; the mode changes only on the menu; going from the menu to play starts at 0 : 0; reaching the result screen from play selects option 0; going from the result screen to play starts at 0 : 0 |
| `Screens.Session` | main.c:155-290 | over any sequence of passes, the program is running at the end only if it was running at the start |
| `Screens.StepKeepsInv` | main.c:155-290 | one pass of any screen loop keeps the flow invariant |
| `Screens.SessionKeepsInv` | main.c:155-290 | the flow invariant holds after any sequence of passes |
| `Screens.ReachableInv` | main.c:144-290 | every state `main` reaches satisfies the flow invariant |
| `Screens.StoppedStays` | main.c:155 | once `running` is false nothing changes any more |
| `Screens.PlayAgainResets` | main.c:206-256 | confirming "PLAY AGAIN" enters play with the scores reset to 0 : 0 |
| `Screens.SinglePlayerLoss` | main.c:144-280 | choosing single player, then losing the ball on the left with one point to play for, ends on the result screen at 0 : 1 with "SECOND PLAYER WINS" |
| `Screens.MenuKey` | main.c:170-202 | the imperative handling of one menu event equals `MenuEvent` |
| `Screens.PollMenu` | main.c:169-203 | the menu's event loop equals `MenuEvents` |
| `Screens.ResultKey` | main.c:237-267 | the imperative handling of one result-screen event equals `ResultEvent` |
| `Screens.PollResult` | main.c:236-271 | the result screen's event loop equals `ResultEvents` |
| `Screens.Tally` | main.c:210-227 | the imperative tally of a round result equals `PlayStep` |
| `Screens.MenuLoop` | main.c:156-204 | the menu loop consumes passes until the menu is left or the input runs out; the flow continues from its end as it would have from its start |
| `Screens.PlayLoop` | main.c:209-228 | the same for the play loop |
| `Screens.ResultLoop` | main.c:232-289 | the same for the result loop |
| `Screens.Run` | main.c:144-290 | `main`'s nested loops end in exactly the state `Session` specifies |

## Left out

- Events left in SDL's queue after an interrupt. `init_game` stops reading its queue at the first Quit or Escape press (`main.c:459-464`). In C, the events queued after it stay in SDL's queue and are read by the next screen loop's first `SDL_PollEvent` (`main.c:169`). `Round.PollEvents` and `Round.PollRoundEvents` discard them. In the model, the next `Turn` may carry them instead; no contract ties the two together.
- SDL and SDL_ttf calls, because they are foreign library calls. This covers initialisation and its failure exits (`main.c:125-140`), every drawing call, and `show_menu_option` (`main.c:506-552`). A menu or result frame's drawing success is the input `rendered`. The model cannot tell which of the short-circuited `show_menu_option` calls failed; any failure stops the program, so this is not observable.
- Resource teardown (`main.c:292-305`), because it is library-handle and memory plumbing with no game logic.
- The fixed-timestep accumulator over `SDL_GetTicks` (`main.c:447-457`, `472-473`), because it is floating-point wall-clock arithmetic. Whether a frame runs a tick is an input of `Round.Frame`.
- `srand(time(NULL))` and `rand()`, because they are randomness. They are replaced by `Draws`, four non-negative values. The C code does not fix which of the two `rand()` calls in one expression runs first, so the speed draw and the sign draw are separate parameters.
- 32-bit `int` overflow and `abs(INT_MIN)`, because the model uses unbounded integers. Positions and speeds stay tiny under the configuration, so no wrap-around is reachable in practice.
- The colour fields and the font path of `GameConfig`. They are carried in `Config.GameConfig`, but only drawing reads them.
- Endless waiting, because every model must be finite. The C program loops until quit. `Screens.Run` and `Round.PlayRound` stop when their finite input runs out and return the state reached; `PlayRound` then returns `None`.
- `Screens.Run`: its play loop takes each round's result as an input rather than calling `Round.PlayRound`. This keeps the screen flow independent of the round's frame inputs. The two parts meet in `RoundResult`.
- `Rules.InitPlayer` requires index 1 or 2, because for any other index C leaves `paddle.x` and the key bindings uninitialised. The source only ever passes 1 and 2.
- The C locals `first_player_scores`, `second_player_scores` and `single_player` start uninitialised. The model starts them at 0, 0 and false. They are always assigned before they are read, so the choice is not observable.
- SDL key auto-repeat is not a separate event type, because a repeated key-down arrives as another `KeyPressed` and the code treats it the same way.
