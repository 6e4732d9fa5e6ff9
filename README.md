# Reinforcement-learning environments and games, modelled in Dafny

This project models the core of a small Python collection of game environments and a Q-learning agent:

- **Cart-pole environment.** A cart pushed left or right under a pole. `CartpoleEnv.reset` and `CartpoleEnv.step` take one explicit Euler step, cap the episode at 500 steps and fail the episode when the cart or the pole leaves its band.
- **Q-learning agent.** Observations are discretized into buckets. The agent keeps a Q-table shaped `buckets + (actions,)`, chooses actions epsilon-greedily, applies the temporal-difference update in place, and watches a trained table play greedily. This covers the base model class `Mdl` and its cart-pole subclass, plus the two example scripts that train and watch the same agent.
- **Endless runner.** A player jumps and ducks under scrolling obstacles. The model covers the body of the stand-alone game loop and the gymnasium environment `EndlessRunnerEnv` built on the same rules.
- **Capture the flag.** Two players move around an 800 x 600 field, capture the opponent's flag and tag each other.
- **Football.** Two players and a ball on a pitch: movement clamped into the pitch, bounces, goals that restart from kick-off, and the clamp that keeps the ball on the pitch.

The pygame `Rect` operations the games use are defined explicitly in `Rects`:
- `colliderect`: strict overlap of half-open rectangles.
- `contains`, `clamp_ip`, `move_ip`, and the centre setter.

Every imperative piece of the source is a class whose methods update their fields in place. Each such method is proved against a pure function of the old state: `Frame`/`Advance`, `Step`, `Score`, `Tag`, `Unclip`, `TdUpdate`, and so on. The properties are proved about those functions.

Modules and files:
- `rects.dfy` (`Rects`).
- `discretizer.dfy` (`Discretizer`).
- `qlearning.dfy` (`QLearning`, with class `QTable`).
- `cartpole.dfy` (`Cartpole`, with class `CartpoleEnv`).
- `trainer.dfy` (`Trainer`, with the training and watching loops and class `Mdl`).
- `runner.dfy` (`Runner`, the pure per-frame rules).
- `runner_game.dfy` (`RunnerGame.Game`, the game loop).
- `runner_env.dfy` (`RunnerEnv.EndlessRunnerEnv`).
- `capture_flag.dfy` (`CaptureTheFlag`).
- `football.dfy` (`Football`, with classes `Player`, `Ball` and `Game`).

Modelling choices:
- **Numbers.** All quantities are exact reals or unbounded integers, not IEEE floats. Python's `round` is defined exactly: nearest integer, ties to even.
- **Trigonometry.** `math.sin` and `math.cos` are two arbitrary functions into [-1, 1], given to the environment.
- **Epsilon schedule.** The exponential in `exp(-decay * episode)` is a function passed in by the caller.
- **Randomness.**
  - Uniform draws and `random.choice` between actions are nondeterministic choices within their stated ranges.
  - The obstacle's spawn-height coin toss, the keyboard and the quit event are inputs of the methods that use them.

## Model

| member | source | states |
|---|---|---|
| Rects.Translate | game/football.py:140 | `move_ip` keeps the size and moves the rectangle by exactly (dx, dy) |
| Rects.TranslateInverse | game/football.py:140 | moving back by the opposite offsets restores the rectangle, and two moves make one move by the summed offsets |
| Rects.WithCenter | game/football.py:186 | assigning `center` keeps the size and puts the centre on the given point |
| Rects.ClampAxis | game/football.py:141 | one axis of `clamp_ip`: a segment that fits ends inside the container; one already inside is unchanged; one that sticks out ends flush with the edge it crossed |
| Rects.ClampIp | game/football.py:141 | `clamp_ip` keeps the size; a rectangle that fits ends inside the container; one strictly smaller and already inside is unchanged |
| Rects.CollideRectSymmetric | game/captureTheFlag.py:79-84 | `a.colliderect(b)` holds exactly when `b.colliderect(a)` does |
| Rects.ClampedRectTouchesEdge | game/football.py:293-294 | a rectangle that fits but was not inside the container is, once clamped, flush against at least one container edge |
| Discretizer.RoundHalfEven | baseMdl/mdl.py:39 | Python's `round`: within 0.5 of its argument, ties going to the even integer |
| Discretizer.BucketIndex | baseMdl/mdl.py:36-40 | one component: in [0, buckets-1] whenever buckets >= 1; equal to the rounded scaled ratio when that is in range; 0 below the range, buckets-1 above it |
| Discretizer.Discretize | baseMdl/mdl.py:35-41 | exactly one index per observation component, each the clamped bucket index of that component and within its bucket count |
| Discretizer.SingleBucketIsZero | baseMdl/mdl.py:39-40 | a dimension with one bucket always maps to index 0 |
| Discretizer.LowerBoundMapsToFirstBucket | examples/cartpole_import_export_models.py:19-26 | with a non-positive lower bound, the lower bound lands in bucket 0 |
| Discretizer.UpperBoundMapsToLastBucket | examples/cartpole_import_export_models.py:19-26 | with a non-positive lower bound, the upper bound lands in the last bucket |
| Discretizer.PositiveLowerBoundMisplaced | examples/cartpole_tests.py:19-26 | the formula adds `abs(lower)`: with bounds [1, 3] and 3 buckets the lower bound lands in the last bucket |
| Discretizer.RoundMonotone | baseMdl/mdl.py:39 | `round` preserves order |
| Discretizer.RawIndexMonotone | baseMdl/mdl.py:36-39 | with more than one bucket and upper > lower, a larger observation never gets a smaller unclamped index |
| Discretizer.BucketIndexMonotone | examples/cartpole_tests.py:19-26 | with upper > lower, the discretized index is monotone in the observation |
| QLearning.Flat | examples/cartpole_import_export_models.py:44 | the row-major position of a discretized state lies below the number of states |
| QLearning.FlatInjective | examples/cartpole_import_export_models.py:44 | distinct states have distinct positions |
| QLearning.Cell | examples/cartpole_import_export_models.py:81-85 | the cell `q_table[s][a]` lies inside the flattened table |
| QLearning.CellInjective | examples/cartpole_import_export_models.py:81-85 | distinct (state, action) pairs are distinct cells, so an update touches one cell only |
| QLearning.Max | examples/cartpole_import_export_models.py:83 | `np.max` of a row is an entry of the row and no entry exceeds it |
| QLearning.TdUpdate | examples/cartpole_import_export_models.py:81-85 | with alpha in [0, 1] the new value lies between the old value and the target `reward + gamma * max`; with gamma 0 it is the alpha-weighted average of old value and reward; alpha 0 changes nothing |
| QLearning.QTable.Zeros | examples/cartpole_import_export_models.py:44 | `np.zeros(buckets + (actions,))`: the right size, every cell 0 |
| QLearning.RowOf | examples/cartpole_import_export_models.py:71 | the row of a state in a flattened table has one entry per action, entry b being the cell of (state, b) |
| QLearning.QTable.Row | examples/cartpole_import_export_models.py:71 | `q_table[s]` has one entry per action, entry b being `q_table[s][b]` |
| QLearning.QTable.GreedyAction | examples/cartpole_import_export_models.py:71 | `np.argmax`: an action of maximal value, strictly above every earlier action (first index on ties), valued `max(row)`; that is, the argmax of the row |
| QLearning.QTable.Update | cartPole/cartpole_with_baseMdl.py:256-260 | the chosen cell becomes `TdUpdate` of its old value with the old maximum of the next state's row; every other cell is unchanged |
| Cartpole.Force | cartPole/cartpole.py:103 | force +10 exactly for action 1, -10 for any other action |
| Cartpole.PoleInertia | cartPole/cartpole.py:111-113 | the denominator of the angular acceleration is positive for every cosine, so the division is defined |
| Cartpole.MirrorAccelerations | cartPole/cartpole.py:108-114 | negating angular velocity, force and sine negates both accelerations |
| Cartpole.MirrorSymmetry | cartPole/cartpole.py:103-119 | a mirrored state pushed the other way steps to the mirror of the original step |
| Cartpole.PushRightFromRest | cartPole/cartpole.py:103-119 | from rest, upright, pushing right accelerates the cart right and the pole angle's velocity negative; position and angle do not move in the first step |
| Cartpole.CartpoleEnv.constructor | cartPole/cartpole.py:38-55 | the constructor ends with a reset: running, counters zero, state in [-0.05, 0.05]^4 |
| Cartpole.CartpoleEnv.Reset | cartPole/cartpole.py:58-82 | running raised, reward and episode length zero, each state component in [-0.05, 0.05], the new state returned |
| Cartpole.CartpoleEnv.Step | cartPole/cartpole.py:85-141 | the state advances by the Euler step with the pre-step velocities; done exactly when the cap of 500 was reached or the cart leaves [-4.8, 4.8] or the pole [-0.42, 0.42]; reward 1 and the length up by one otherwise; the length never exceeds 500 |
| Cartpole.CartpoleEnv.Render | baseEnv/env.py:40-52 | the event handling of `render` (the cart-pole's drawing ends by calling the base one): a pending quit event or Escape key lowers `running`, otherwise `running` is unchanged |
| Trainer.StateOf | examples/cartpole_import_export_models.py:77 | the discretized observation is a valid table index, component by component the clamped bucket index |
| Trainer.Epsilon | examples/cartpole_import_export_models.py:65 | the exploration rate lies between min and max epsilon for an exponential factor in [0, 1], and is max epsilon in episode 0 |
| Trainer.ChooseAction | examples/cartpole_import_export_models.py:68-73 | an action of the action space; a draw above epsilon takes the first maximal action of the row |
| Trainer.RunEpisode | examples/cartpole_import_export_models.py:67-92 | starting from the discretization of the reset state and keeping the current discretized state equal to that of the environment's state, the step loop ends with the environment stopped; total reward equals the final episode length, at most 500, after one more step than that |
| Trainer.Train | examples/cartpole_tests.py:42-90 | a fresh table of shape `buckets + (2,)`, all zeros when no episode runs, then exactly `episodes` episodes, each with total reward in [0, 500], the environment stopped after the last |
| Trainer.PassStep | cartPole/cartpole_with_baseMdl.py:281-297 | one more pass, earning 1 unless its step is `done`, keeps the pass count against quit requests and total reward |
| Trainer.ExtendTrajectory | cartPole/cartpole_with_baseMdl.py:281-294 | a pass taking the argmax action from the last state of a greedy trajectory, followed by the physics step, extends the trajectory |
| Trainer.TrajectoryStep | cartPole/cartpole_with_baseMdl.py:281-294 | in a greedy trajectory every action j is the argmax of the table row of state j's discretization, and state j + 1 is the physics step of state j under that action |
| Trainer.Watch | cartPole/cartpole_with_baseMdl.py:273-299 | from a reset state in [-0.05, 0.05]^4, the passes form a greedy trajectory under the unchanged table: each action is the argmax of the row of the discretized state it was taken in, each state the physics step of the one before, the last the environment's final state; the environment ends stopped; no quit request was pending before the last pass, and either the last step was `done` (one pass more than the total) or a quit request was pending at the last pass (passes equal the total); the total is the episode length, in [0, 500] |
| Trainer.WatchPasses | cartPole/cartpole_with_baseMdl.py:281-297 | the `while self.env.running` loop from a just-reset environment: the same greedy trajectory, stop and pass-count guarantees as `Watch`, starting from the environment's state at entry |
| Trainer.WatchPass | cartPole/cartpole_with_baseMdl.py:282-297 | one pass: render (a quit request lowers `running`), argmax action, step, discretize; the trajectory grows by that action and the new state; reward 1 and length up by one unless `done`, `done` exactly at the cap or out of band; `running` stays raised exactly when it was, no quit was pending and the step was not `done` |
| Trainer.Mdl.constructor | baseMdl/mdl.py:14-31 | a new model has name and environment set, no table and every setting unset |
| Trainer.Mdl.Cartpole | cartPole/cartpole_with_baseMdl.py:192-219 | the cart-pole model has the cart-pole bounds, buckets (1, 1, 6, 5), 501 episodes, alpha 0.1, gamma 0.9, epsilon range [0.1, 1.0], decay 0.01, and no table |
| Trainer.Mdl.TrainFromScratch | cartPole/cartpole_with_baseMdl.py:221-271 | the model keeps a fresh trained table shaped by its buckets and the two actions |
| Trainer.Mdl.WatchTrainedModel | cartPole/cartpole_with_baseMdl.py:273-299 | `Watch` with the model's table and settings: a greedy trajectory from a reset state under the unchanged table, ended by `done` or a quit request, total in [0, 500] |
| Runner.SpawnHeight | game/endless_runner.py:157-162 | the obstacle respawns at one of the two spawn heights, the high one exactly when the toss says so |
| Runner.Move | game/endless_runner.py:72-91 | after the jump, duck, gravity and floor clamp: height 50 or 30 by the duck key, never below the floor, moved by its velocity unless clamped, velocity gravity-increased, the jump velocity (only from the floor) or 0 |
| Runner.Advance | game/endless_runner.py:71-162 | one frame keeps the invariant (height 50 or 30, score half the frame count, obstacle at a spawn height within [50, 800]); frame counter +1, score +1 on even frames; a passed obstacle counts a dodge and respawns at x 800, otherwise it moves 7.5 left |
| Runner.RunKeepsInvariant | game/endless_runner.py:65-162 | from the start, every run of frames keeps the invariant, with frame count the number of frames and score half of it |
| Runner.StandingPlayerStays | game/endless_runner.py:72-104 | a player at rest on the floor with no key held stays where it is |
| Runner.JumpOnlyFromFloor | game/endless_runner.py:72-75 | the jump key does nothing to a player off the floor |
| Runner.JumpLeavesFloor | game/endless_runner.py:72-83 | a standing player jumping from the floor leaves it with velocity 1.5 - 20 |
| Runner.CollisionExcludesDodge | game/endless_runner.py:94-152 | a frame that collides cannot also count a dodge |
| RunnerGame.Game.constructor | game/endless_runner.py:22-47 | the start: player on the floor at rest, obstacle on the floor at the right edge, counters zero, running |
| RunnerGame.Game.MovePlayer | game/endless_runner.py:72-83 | the jump, the height and the velocity move, in place |
| RunnerGame.Game.ClampPlayer | game/endless_runner.py:89-91 | a player below the floor is put on it at rest |
| RunnerGame.Game.CheckCollision | game/endless_runner.py:94-100 | the game stops exactly when the rectangles overlap (or it had stopped) |
| RunnerGame.Game.SettlePlayer | game/endless_runner.py:103-104 | the late gravity nudge for a player above the floor |
| RunnerGame.Game.CountFrame | game/endless_runner.py:107-111 | frame counter +1, score +1 when the new count is even |
| RunnerGame.Game.RespawnObstacle | game/endless_runner.py:152-162 | a passed obstacle counts a dodge and respawns at the right edge at the tossed height; otherwise nothing changes |
| RunnerGame.Game.Frame | game/endless_runner.py:66-162 | one loop pass updates the variables as `Advance` does and keeps the invariant; running afterwards exactly when it was, no quit came and no collision happened |
| RunnerGame.UninterruptedStep | game/endless_runner.py:62-65 | one more frame is free of quit events and collisions exactly when the frames before were and this one meets neither |
| RunnerGame.Game.Play | game/endless_runner.py:62-65 | the loop runs one frame per input while running; the state reached is the run of the frames played; the game is still running exactly when it was at the start and no frame played met a quit event or a collision, every frame before the last met neither, and it stops before the inputs run out only when the game stopped |
| RunnerEnv.DeclaredObstacleYBoxEmpty | GameEnvs/envs/endless_runner.py:94-101 | the declared `obstacle_y` range has its low bound above its high bound, so it contains no value |
| RunnerEnv.SpawnHeightsInObstacleYBox | GameEnvs/envs/endless_runner.py:94-101 | both spawn heights lie in the ordered range and outside the declared one |
| RunnerEnv.StepOutcomeAsWritten | GameEnvs/envs/endless_runner.py:193-241 | as written, a step returns only when it collided, and then terminated |
| RunnerEnv.DodgeStepFails | GameEnvs/envs/endless_runner.py:203-241 | a step without a collision, dodging or not, has no termination value to return |
| RunnerEnv.StepOutcome | GameEnvs/envs/endless_runner.py:193-241 | terminated exactly on collision; reward 1 exactly on a dodge, -1 on a collision, 0 otherwise; agrees with the code where the code returns |
| RunnerEnv.ResetPlayerAsWritten | GameEnvs/envs/endless_runner.py:142-145 | as written, reset gives base height and rest, on the floor only when the player was standing |
| RunnerEnv.ResetWhileDuckingSinksIntoFloor | GameEnvs/envs/endless_runner.py:142-145 | a player reset while ducking starts 20 pixels into the floor |
| RunnerEnv.ResetPlayer | GameEnvs/envs/endless_runner.py:142-145 | reset puts the player on the floor at rest at base height, as written when it was standing |
| RunnerEnv.EndlessRunnerEnv.constructor | GameEnvs/envs/endless_runner.py:12-67 | the start position with the obstacle at the tossed spawn height; the invariant holds |
| RunnerEnv.EndlessRunnerEnv.GetObs | GameEnvs/envs/endless_runner.py:128-133 | the observation carries the player's y and the obstacle's x and y; in a valid state the obstacle coordinates lie in their observation ranges |
| RunnerEnv.EndlessRunnerEnv.GetInfo | GameEnvs/envs/endless_runner.py:135-136 | in a valid state the score reported is half the frames played; the dodges are reported |
| RunnerEnv.EndlessRunnerEnv.Reset | GameEnvs/envs/endless_runner.py:138-165 | back to the start with the tossed spawn height, the invariant restored, observation and info of the new state |
| RunnerEnv.EndlessRunnerEnv.Step | GameEnvs/envs/endless_runner.py:167-241 | the action's keys drive one frame as `Advance`; reward and termination are `StepOutcome` of the frame's collision and dodge; never truncated |
| CaptureTheFlag.Initial | game/captureTheFlag.py:28-35 | the start positions satisfy the invariant |
| CaptureTheFlag.MovePlayer | game/captureTheFlag.py:46-53 | a player inside the field stays inside; each coordinate moves at most 5, only along an axis whose keys are held, and by exactly the guarded step for one key |
| CaptureTheFlag.MoveSquare | game/captureTheFlag.py:46-53 | the four key checks applied in turn give `MovePlayer` |
| CaptureTheFlag.MoveBoth | game/captureTheFlag.py:46-62 | both moves keep the invariant and the scores |
| CaptureTheFlag.Step | game/captureTheFlag.py:45-84 | a frame keeps both players inside the field; each score rises by at most one |
| CaptureTheFlag.ScoreKeepsInv | game/captureTheFlag.py:65-76 | captures keep the invariant and raise each score by at most one |
| CaptureTheFlag.TagKeepsInv | game/captureTheFlag.py:79-84 | tags keep the invariant and the scores |
| CaptureTheFlag.HomesAwayFromFlags | game/captureTheFlag.py:28-31 | neither start position touches the opponent's flag |
| CaptureTheFlag.AtMostOneCapture | game/captureTheFlag.py:65-76 | at most one capture per frame; player 1 scores exactly when on flag 2, player 2 exactly when on flag 1 and player 1 did not capture first; any capture sends both players to their starts; no capture changes nothing |
| CaptureTheFlag.TagSendsAtMostOneHome | game/captureTheFlag.py:79-84 | tags never send both players home; a tagged player goes to its start and the other stays; player 1 on the right half overlapping player 2 is sent home, and player 2 on the left half overlapping player 1 is sent home unless player 1 was tagged first |
| CaptureTheFlag.Game.constructor | game/captureTheFlag.py:28-35 | the start of the game, valid |
| CaptureTheFlag.Game.MovePlayers | game/captureTheFlag.py:46-62 | both squares updated in place by their keys, as `MovePlayer` |
| CaptureTheFlag.Game.CaptureFlag2 | game/captureTheFlag.py:65-70 | player 1 on flag 2: a point and both players home |
| CaptureTheFlag.Game.CaptureFlag1 | game/captureTheFlag.py:71-76 | player 2 on flag 1: a point and both players home |
| CaptureTheFlag.Game.TagFirst | game/captureTheFlag.py:79-81 | player 1 tagged in the right half goes home |
| CaptureTheFlag.Game.TagSecond | game/captureTheFlag.py:82-84 | player 2 tagged in the left half goes home |
| CaptureTheFlag.Game.Frame | game/captureTheFlag.py:38-84 | one loop pass updates the game as `Step` and keeps it valid |
| Football.PlayerStart | game/football.py:104-117 | each kick-off square lies inside a pitch at least 38 x 25 |
| Football.KeyVelocity | game/football.py:130-138 | each velocity component is -5, 0 or 5; opposite keys cancel; negative exactly when only left (up) is held |
| Football.MovePlayer | game/football.py:128-141 | velocity from the keys, score and size kept; a square that fits ends inside the pitch; a move that stays strictly inside is taken in full |
| Football.ResetPlayer | game/football.py:123-126 | back to the kick-off corner at rest, size and score kept |
| Football.ResetBall | game/football.py:184-187 | centred on the kick-off point at rest, size kept |
| Football.BounceTwice | game/football.py:189-194 | bouncing twice on the same axes restores the velocity; bouncing on none changes nothing |
| Football.WallBounce | game/football.py:250-257 | a ball past the left or right edge reverses its x velocity, past the top or bottom its y velocity, each otherwise unchanged; the ball is not moved back |
| Football.HitBy | game/football.py:260-273 | an overlapped player at rest reverses both velocity components and leaves the ball beside it, no longer overlapping; a moving player adds its velocity; no overlap changes nothing |
| Football.BallStep | game/football.py:243-273 | the ball's part of a frame leaves the players as they are and keeps the sizes |
| Football.GoalCheck | game/football.py:283-289 | a ball touching the goal resets ball and both players and gives the attacker one point; otherwise nothing changes |
| Football.KickOffClearOfGoals | game/football.py:184-187 | a ball put back at kick-off is inside the pitch and touches neither goal |
| Football.ScoringOneGoal | game/football.py:281-289 | at most one goal a frame: the left goal scores for player 1 (index `not 0`), the right goal, when the left one was not touched, for player 0; no goal changes nothing |
| Football.PushAway | game/football.py:296-306 | a pushed player keeps its size; a player not overlapping the ball is not moved; an overlapping one is put to the right of a ball on the left edge, to the left of a ball on the right edge, and otherwise keeps its x; likewise below a ball on the top edge, above one on the bottom edge, else keeps its y |
| Football.Unclip | game/football.py:291-306 | the ball ends inside the pitch; a ball already inside changes nothing; velocities and scores kept |
| Football.UnclipAgainstScreenMovesNoPlayer | game/football.py:296-306 | comparing with the screen's edges, as written, never moves a player |
| Football.UnclipSeparates | game/football.py:291-306 | comparing with the pitch's edges, a ball that had left the pitch ends clear of every player |
| Football.Advance | game/football.py:330-334 | a frame keeps the sizes and the ball on the pitch; each score rises by at most one and at most one of them rises |
| Football.KickOffBallAsWrittenOffCentre | game/football.py:179-180 | as written, the first kick-off ball sits 5 pixels right of and below where every later kick-off puts it |
| Football.KickOffBall | game/football.py:184-187 | the kick-off ball is centred on the pitch centre |
| Football.KickOff | game/football.py:214-220 | the start of a game keeps the sizes, its ball is the reset ball, and players and ball are inside the pitch |
| Football.Player.constructor | game/football.py:103-121 | the player at its kick-off position, at rest, with no score |
| Football.Player.Reset | game/football.py:123-126 | `reset` in place, as `ResetPlayer` |
| Football.Player.Move | game/football.py:128-141 | `move` in place, as `MovePlayer` |
| Football.Player.Scored | game/football.py:143-145 | the score rises by one |
| Football.Ball.constructor | game/football.py:178-182 | the ball at the kick-off square `reset` restores, at rest |
| Football.Ball.Reset | game/football.py:184-187 | `reset` in place, as `ResetBall` |
| Football.Ball.Bounce | game/football.py:189-194 | the selected velocity components negated |
| Football.Game.constructor | game/football.py:214-220 | fresh players and ball at kick-off; the game is valid |
| Football.Game.MovePlayers | game/football.py:222-241 | both players moved in place by their keys |
| Football.Game.HitPlayer | game/football.py:260-273 | the ball meeting one player, in place, as `HitBy` |
| Football.Game.MoveBall | game/football.py:243-273 | the ball moved, bounced off the walls and off both players in place, as `BallStep` |
| Football.Game.CheckGoal | game/football.py:283-289 | one goal's check in place, as `GoalCheck` |
| Football.Game.CheckForScoring | game/football.py:281-289 | both goals in order, as `Scoring` |
| Football.Game.PushPlayer | game/football.py:296-306 | one player pushed off the clamped ball in place, as `PushAway` against the pitch |
| Football.Game.EnsureNoClipping | game/football.py:291-306 | the clamp and pushes in place, as `Unclip` against the pitch |
| Football.Game.Step | game/football.py:330-334 | one frame in place, as `Advance`, keeping the game valid |

## Left out

- Rendering, fonts, sounds, the clock, window set-up, `close`, and the rotation example: none of them change the modelled state. Of the cart-pole's `render`, only the base environment's event handling is modelled (`CartpoleEnv.Render`): the event queue is reduced to one flag, whether a quit event or Escape key is pending, and the watching loop takes these flags as a sequence, one per pass.
- Model import and save: `import_model`, `ask_to_save_model`, the `input()` menus and `np.load`/`np.save`. These are interactive I/O.
- The exact pole dynamics: `math.sin` and `math.cos` are abstract functions into [-1, 1], and the arithmetic is exact, not IEEE.
- `Trainer.Epsilon`: the exponential is an argument, so the contract is stated for any factor in [0, 1], not for `exp(-decay * episode)` itself.
- `Trainer.RunEpisode`: says nothing about which cells the episode's updates wrote. Each single write is specified by `QTable.Update`.
- `Trainer.Watch`: models the model class's loop, which renders each pass and runs while `env.running`. The `while True ... break` copies in the example scripts ignore the flag, so a quit request there has no effect; they behave as `Watch` with no quit request pending.
- Glue that would crash, modelled as evidently intended:
  - `discretize` in the base model lacks `self`.
  - The cart-pole model sets `pisodes` but reads `episodes`, and reads `self.environment` for `self.env`.
  - The cart-pole model's `epsilon` field is never read, so it is not a field of `Mdl`.
- `RunnerEnv.EndlessRunnerEnv.Step`: acts on `action` through the action-to-key map. The source reads the keyboard and ignores `action`. It requires an action in `Discrete(3)`.
- The gym environment's metadata key mismatch and its missing `_render`/`window_size` belong to rendering.
- The games' endless `while True` loops: capture the flag and football are modelled one pass at a time (`Frame`, `Step`). The endless runner's loop, which ends, is `Play`.
- Football:
  - Ball friction (`*= 0.95`) is left out.
  - Float velocities truncated into integer rectangles are not modelled: velocities are integer vectors, which they stay without friction.
  - The right player's start `right - 37.5` is truncated toward zero.
- Football pitch and goals: not built by `scale_by`. They are given as a `Layout`, and the constructor requires what that construction guarantees: the goals flush against the pitch's sides, and a pitch large enough for the players.
- The loops over the two players and the two goals are unrolled into two calls each.
- `Football.Advance`: states only the scoring bounds and that the ball stays on the pitch. The rest of the frame is specified by its phases.
- Capture the flag: a capture or tag sets a player's square to its start square. The source sets only `x` and `y`, which is the same because the size never changes (the invariant).

## Findings

| source | as written | input that shows it | evidently intended | confidence | as-written member | corrected member |
|---|---|---|---|---|---|---|
| GameEnvs/envs/endless_runner.py:193-241 | `reward` and `terminated` are assigned only on collision (and `reward` on a dodge); the return reads both | any step without a collision, e.g. the first step after `reset` | defaults reward 0, not terminated | high (not executed) | RunnerEnv.DodgeStepFails | RunnerEnv.StepOutcome |
| GameEnvs/envs/endless_runner.py:142-145 | `player_y` is computed from the current height before the height is reset | reset while the duck key held the height at 30 | the player on the floor at base height | medium (not executed) | RunnerEnv.ResetWhileDuckingSinksIntoFloor | RunnerEnv.ResetPlayer |
| GameEnvs/envs/endless_runner.py:94-101 | the `obstacle_y` box has low 300 and high 266.67 | every spawn height, e.g. 300 | low and high swapped, [266.67, 300] | high (not executed) | RunnerEnv.DeclaredObstacleYBoxEmpty | RunnerEnv.SpawnHeightsInObstacleYBox |
| game/football.py:179-180 | the constructor puts the ball's top-left corner on the pitch centre, `reset` its centre | the first kick-off versus any later one | the ball centred on the pitch at every kick-off | medium (not executed) | Football.KickOffBallAsWrittenOffCentre | Football.Ball.constructor |
| game/football.py:298-306 | the clamped ball is compared with the screen's edges, which lie outside the pitch it was clamped into | any ball clamped against a pitch edge while overlapping a player | compare with the pitch's edges | medium (not executed) | Football.UnclipAgainstScreenMovesNoPlayer | Football.UnclipSeparates |
