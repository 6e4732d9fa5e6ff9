/**
 * The per-frame rules of the endless runner, shared by the stand-alone game loop and the
 * gymnasium environment: the jump that only starts from the floor, ducking, velocity
 * and gravity, the floor clamp, the obstacle scrolling left, the collision test, the
 * late gravity nudge, the frame and score counters, and the obstacle respawn once it
 * has passed the player.
 *
 * Every quantity is an exact real; all of them are multiples of 0.5 except the high
 * spawn height, `300 - 50 / 1.5`.
 */
module Runner {

  const WindowWidth: real := 800.0
  const FloorY: real := 350.0
  const PlayerX: real := 100.0
  const PlayerWidth: real := 50.0
  const BasePlayerHeight: real := 50.0
  const StandingHeight: real := 50.0
  const DuckingHeight: real := 30.0
  const JumpForce: real := 20.0
  const ObstacleWidth: real := 50.0
  const ObstacleHeight: real := 50.0
  const ObstacleSpeed: real := 7.5
  const Gravity: real := 1.5

  /** The two heights an obstacle spawns at: on the floor, or raised by two thirds of a player. */
  const LowSpawnY: real := FloorY - ObstacleHeight
  const HighSpawnY: real := FloorY - ObstacleHeight - BasePlayerHeight / 1.5

  datatype Player = Player(y: real, velocity: real, height: real)

  /** The whole per-frame state of a run. */
  datatype World = World(player: Player, obstacleX: real, obstacleY: real,
                         score: nat, frameCounter: nat, dodges: nat)

  /** The keys held during one frame, and the outcome of the respawn coin toss. */
  datatype Input = Input(jump: bool, duck: bool, spawnHigh: bool)

  predicate OnFloor(p: Player)
  {
    p.y == FloorY - p.height
  }

  predicate IsSpawnHeight(y: real)
  {
    y == LowSpawnY || y == HighSpawnY
  }

  /** `random.choice` between the two spawn heights, the choice given as `high`. */
  function SpawnHeight(high: bool): (y: real)
    ensures IsSpawnHeight(y)
    ensures high <==> y == HighSpawnY
  {
    if high then HighSpawnY else LowSpawnY
  }

  /**
   * The player's part of a frame before the floor clamp: the jump (judged by the
   * height of the previous frame), the new height, gravity and the move.
   */
  function Launch(p: Player, jump: bool, duck: bool): Player
  {
    var v := (if jump && p.y == FloorY - p.height then -JumpForce else p.velocity) + Gravity;
    Player(p.y + v, v, if duck then DuckingHeight else StandingHeight)
  }

  /** The floor clamp: a player below the floor is put on it, at rest. */
  function ClampToFloor(p: Player): Player
  {
    if p.y > FloorY - p.height then Player(FloorY - p.height, 0.0, p.height) else p
  }

  /** The player's part of a frame up to and including the floor clamp. */
  function Move(p: Player, jump: bool, duck: bool): (q: Player)
    ensures q.height == (if duck then DuckingHeight else StandingHeight)
    ensures q.y <= FloorY - q.height
    ensures q.velocity == 0.0 || q.y - p.y == q.velocity
    ensures q.velocity == 0.0 || q.velocity == p.velocity + Gravity ||
            (jump && OnFloor(p) && q.velocity == Gravity - JumpForce)
  {
    ClampToFloor(Launch(p, jump, duck))
  }

  /** The late gravity nudge: a player above the floor drops by one more `gravity`. */
  function Settle(p: Player): Player
  {
    if p.y < FloorY - p.height then p.(y := p.y + Gravity) else p
  }

  /** The player and obstacle rectangles overlap (strict inequalities on both axes). */
  predicate Overlaps(p: Player, obstacleX: real, obstacleY: real)
  {
    PlayerX + PlayerWidth > obstacleX && PlayerX < obstacleX + ObstacleWidth &&
    p.y + p.height > obstacleY && p.y < obstacleY + ObstacleHeight
  }

  /** The obstacle's right edge is left of the player's left edge. */
  predicate Passed(obstacleX: real)
  {
    obstacleX + ObstacleWidth < PlayerX
  }

  /** The frame's collision test, on the moved player and the moved obstacle. */
  predicate Collides(w: World, jump: bool, duck: bool)
  {
    Overlaps(Move(w.player, jump, duck), w.obstacleX - ObstacleSpeed, w.obstacleY)
  }

  /** The obstacle, once moved, has passed the player this frame. */
  predicate Dodges(w: World)
  {
    Passed(w.obstacleX - ObstacleSpeed)
  }

  /** A fresh run: player standing on the floor at rest, obstacle at the right edge, counters zero. */
  function Initial(obstacleY: real): World
  {
    World(Player(FloorY - BasePlayerHeight, 0.0, BasePlayerHeight), WindowWidth, obstacleY, 0, 0, 0)
  }

  /**
   * What every frame keeps: the player is standing or ducking, the score is half the frame
   * count, the obstacle is at a spawn height and between the left edge of its range
   * (`player_x - obstacle_width`) and the right edge of the window.
   */
  predicate Inv(w: World)
  {
    (w.player.height == StandingHeight || w.player.height == DuckingHeight) &&
    w.score == w.frameCounter / 2 &&
    IsSpawnHeight(w.obstacleY) &&
    PlayerX - ObstacleWidth <= w.obstacleX <= WindowWidth
  }

  /**
   * One frame.  The obstacle moves `obstacle_speed` to the left unless that takes it past
   * the player, in which case the dodge counter rises and the obstacle respawns at the
   * right edge; the frame counter rises by one and the score on every second frame.
   */
  function Advance(w: World, jump: bool, duck: bool, spawnHigh: bool): (v: World)
    ensures Inv(w) ==> Inv(v)
    ensures v.player == Settle(Move(w.player, jump, duck))
    ensures v.frameCounter == w.frameCounter + 1
    ensures v.score == w.score + (if v.frameCounter % 2 == 0 then 1 else 0)
    ensures Dodges(w) ==> v.dodges == w.dodges + 1 && v.obstacleX == WindowWidth &&
                          v.obstacleY == SpawnHeight(spawnHigh)
    ensures !Dodges(w) ==> v.dodges == w.dodges && v.obstacleX == w.obstacleX - ObstacleSpeed &&
                           v.obstacleY == w.obstacleY
  {
    var player := Settle(Move(w.player, jump, duck));
    var frameCounter := w.frameCounter + 1;
    var score := if frameCounter % 2 == 0 then w.score + 1 else w.score;
    var x := w.obstacleX - ObstacleSpeed;
    if x + ObstacleWidth < PlayerX then
      World(player, WindowWidth, SpawnHeight(spawnHigh), score, frameCounter, w.dodges + 1)
    else
      World(player, x, w.obstacleY, score, frameCounter, w.dodges)
  }

  /** A run of frames. */
  function Run(w: World, inputs: seq<Input>): World
    decreases |inputs|
  {
    if |inputs| == 0 then w
    else
      var last := inputs[|inputs| - 1];
      Advance(Run(w, inputs[..|inputs| - 1]), last.jump, last.duck, last.spawnHigh)
  }

  /** From a fresh run, every frame keeps the invariant, and the score is half the frames played. */
  lemma {:induction false} RunKeepsInvariant(obstacleY: real, inputs: seq<Input>)
    requires IsSpawnHeight(obstacleY)
    ensures Inv(Run(Initial(obstacleY), inputs))
    ensures Run(Initial(obstacleY), inputs).frameCounter == |inputs|
    ensures Run(Initial(obstacleY), inputs).score == |inputs| / 2
    decreases |inputs|
  {
    if |inputs| > 0 {
      RunKeepsInvariant(obstacleY, inputs[..|inputs| - 1]);
    }
  }

  /** A player standing on the floor at rest, with no key held, stays exactly where it is. */
  lemma StandingPlayerStays()
    ensures Settle(Move(Player(FloorY - StandingHeight, 0.0, StandingHeight), false, false)) ==
            Player(FloorY - StandingHeight, 0.0, StandingHeight)
  {
  }

  /** The jump key does nothing to a player who is not on the floor. */
  lemma JumpOnlyFromFloor(p: Player, duck: bool)
    requires !OnFloor(p)
    ensures Move(p, true, duck) == Move(p, false, duck)
  {
  }

  /** A standing player on the floor who jumps leaves the floor with the jump velocity plus gravity. */
  lemma JumpLeavesFloor(p: Player, duck: bool)
    requires OnFloor(p) && p.height == StandingHeight
    ensures Move(p, true, duck).velocity == Gravity - JumpForce
    ensures Move(p, true, duck).y == p.y + Gravity - JumpForce
    ensures !OnFloor(Move(p, true, duck))
  {
  }

  /** A frame cannot both end in a collision and count a dodge. */
  lemma CollisionExcludesDodge(w: World, jump: bool, duck: bool)
    ensures Collides(w, jump, duck) ==> !Dodges(w)
  {
  }
}
