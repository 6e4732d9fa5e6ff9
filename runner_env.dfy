/**
 * The endless runner as a gymnasium environment: the same per-frame rules driven by an
 * action (0 nothing, 1 jump, 2 duck) instead of the keyboard, an observation of the
 * player's height and the obstacle's position, an info record of score and dodges, and
 * a reward of -1 for a collision (which terminates the episode) and 1 for a dodge.
 * The respawn coin toss arrives as an input.
 */
module RunnerEnv {
  import opened Runner

  datatype Option<T> = None | Some(value: T)

  datatype Observation = Observation(playerY: real, obstacleX: real, obstacleY: real)
  datatype Info = Info(score: nat, dodges: nat)

  /** A one-dimensional `spaces.Box`. */
  datatype Box = Box(low: real, high: real)

  predicate InBox(v: real, b: Box)
  {
    b.low <= v <= b.high
  }

  /** `spaces.Discrete(3)`. */
  predicate IsAction(action: int)
  {
    0 <= action < 3
  }

  /** The declared range of the obstacle's left edge. */
  const ObstacleXBox: Box := Box(PlayerX - ObstacleWidth, WindowWidth)

  /** The declared range of the obstacle's height, with the two spawn heights as written. */
  const DeclaredObstacleYBox: Box := Box(LowSpawnY, HighSpawnY)

  /** The range of the obstacle's height with its bounds in order. */
  const ObstacleYBox: Box := Box(HighSpawnY, LowSpawnY)

  /** The declared obstacle-height range has its low bound above its high bound: no value lies in it. */
  lemma DeclaredObstacleYBoxEmpty()
    ensures HighSpawnY < LowSpawnY
    ensures forall v :: !InBox(v, DeclaredObstacleYBox)
  {
  }

  /** Both spawn heights lie in the ordered range. */
  lemma SpawnHeightsInObstacleYBox(y: real)
    requires IsSpawnHeight(y)
    ensures InBox(y, ObstacleYBox)
    ensures !InBox(y, DeclaredObstacleYBox)
  {
  }

  /** The reward of a step and whether it ends the episode. */
  datatype Outcome = Outcome(reward: int, terminated: bool)

  /**
   * The reward and termination as the step assigns them: only a collision assigns
   * `terminated`, so a step without one reaches its return with that variable unbound
   * and fails (`None`).
   */
  function StepOutcomeAsWritten(collided: bool, dodged: bool): (r: Option<Outcome>)
    ensures r.Some? <==> collided
    ensures r.Some? ==> r.value.terminated
  {
    if collided then Some(Outcome(if dodged then 1 else -1, true)) else None
  }

  /** A step that dodges the obstacle, or that neither dodges nor collides, fails as written. */
  lemma DodgeStepFails()
    ensures StepOutcomeAsWritten(false, true) == None
    ensures StepOutcomeAsWritten(false, false) == None
  {
  }

  /**
   * The reward and termination with the missing defaults (reward 0, not terminated):
   * -1 and terminated for a collision, 1 for a dodge, 0 otherwise.  Where the step as
   * written returns, both agree.
   */
  function StepOutcome(collided: bool, dodged: bool): (r: Outcome)
    ensures r.terminated <==> collided
    ensures !(collided && dodged) ==> (r.reward == -1 <==> collided)
    ensures r.reward == 1 <==> dodged
    ensures r.reward == 0 <==> !collided && !dodged
    ensures collided ==> StepOutcomeAsWritten(collided, dodged) == Some(r)
  {
    Outcome(if dodged then 1 else if collided then -1 else 0, collided)
  }

  /**
   * The player after a reset as written: its height goes back to the base height, but its
   * position is computed from the height it had before, so a player reset while ducking
   * starts 20 pixels into the floor.
   */
  function ResetPlayerAsWritten(p: Player): (q: Player)
    ensures q.velocity == 0.0 && q.height == BasePlayerHeight
    ensures p.height == BasePlayerHeight ==> OnFloor(q)
  {
    Player(FloorY - p.height, 0.0, BasePlayerHeight)
  }

  lemma ResetWhileDuckingSinksIntoFloor(p: Player)
    requires p.height == DuckingHeight
    ensures ResetPlayerAsWritten(p).y + ResetPlayerAsWritten(p).height == FloorY + 20.0
    ensures !OnFloor(ResetPlayerAsWritten(p))
  {
  }

  /** The player after a reset: standing on the floor at rest, whatever it was doing before. */
  function ResetPlayer(p: Player): (q: Player)
    ensures OnFloor(q) && q.velocity == 0.0 && q.height == BasePlayerHeight
    ensures p.height == BasePlayerHeight ==> q == ResetPlayerAsWritten(p)
  {
    Player(FloorY - BasePlayerHeight, 0.0, BasePlayerHeight)
  }

  class EndlessRunnerEnv {
    var playerY: real
    var playerVelocity: real
    var playerHeight: real
    var obstacleX: real
    var obstacleY: real
    var score: nat
    var frameCounter: nat
    var dodges: nat

    function State(): World
      reads this
    {
      World(Player(playerY, playerVelocity, playerHeight), obstacleX, obstacleY,
            score, frameCounter, dodges)
    }

    ghost predicate Valid()
      reads this
    {
      Inv(State())
    }

    /** A new environment: the start position, with the obstacle at a tossed spawn height. */
    constructor (spawnHigh: bool)
      ensures State() == Initial(SpawnHeight(spawnHigh))
      ensures Valid()
    {
      playerY := FloorY - BasePlayerHeight;
      playerVelocity := 0.0;
      playerHeight := BasePlayerHeight;
      obstacleX := WindowWidth;
      obstacleY := SpawnHeight(spawnHigh);
      score := 0;
      frameCounter := 0;
      dodges := 0;
    }

    /** `_get_obs`: the player's y and the obstacle's x and y; in a valid state the obstacle's lie in their ranges. */
    function GetObs(): (o: Observation)
      reads this
      ensures Valid() ==> InBox(o.obstacleX, ObstacleXBox) && InBox(o.obstacleY, ObstacleYBox)
      ensures o.playerY == State().player.y
      ensures o.obstacleX == State().obstacleX && o.obstacleY == State().obstacleY
    {
      Observation(playerY, obstacleX, obstacleY)
    }

    /** `_get_info`: in a valid state the score reported is half the frames played. */
    function GetInfo(): (i: Info)
      reads this
      ensures Valid() ==> i.score == State().frameCounter / 2
      ensures i.dodges == State().dodges
    {
      Info(score, dodges)
    }

    /** Back to the start position and zero counters, the obstacle at a tossed spawn height. */
    method Reset(spawnHigh: bool) returns (obs: Observation, info: Info)
      modifies this
      ensures State() == Initial(SpawnHeight(spawnHigh))
      ensures Valid()
      ensures obs == GetObs() && info == GetInfo()
    {
      var p := ResetPlayer(Player(playerY, playerVelocity, playerHeight));
      playerY := p.y;
      playerVelocity := p.velocity;
      playerHeight := p.height;
      obstacleX := WindowWidth;
      obstacleY := SpawnHeight(spawnHigh);
      score := 0;
      frameCounter := 0;
      dodges := 0;
      obs := GetObs();
      info := GetInfo();
    }

    /**
     * One step: the frame rules with the action's keys, then the reward and termination
     * of the frame's collision and dodge.  Never truncated.
     */
    method Step(action: int, spawnHigh: bool)
      returns (obs: Observation, reward: int, terminated: bool, truncated: bool, info: Info)
      requires Valid() && IsAction(action)
      modifies this
      ensures Valid()
      ensures State() == Advance(old(State()), action == 1, action == 2, spawnHigh)
      ensures Outcome(reward, terminated) ==
              StepOutcome(Collides(old(State()), action == 1, action == 2), Dodges(old(State())))
      ensures !truncated
      ensures obs == GetObs() && info == GetInfo()
    {
      reward := 0;
      terminated := false;
      var moved := Move(Player(playerY, playerVelocity, playerHeight), action == 1, action == 2);
      obstacleX := obstacleX - ObstacleSpeed;
      if Overlaps(moved, obstacleX, obstacleY) {
        reward := -1;
        terminated := true;
      }
      var settled := Settle(moved);
      playerY := settled.y;
      playerVelocity := settled.velocity;
      playerHeight := settled.height;
      frameCounter := frameCounter + 1;
      if frameCounter % 2 == 0 {
        score := score + 1;
      }
      if obstacleX + ObstacleWidth < PlayerX {
        dodges := dodges + 1;
        reward := 1;
        obstacleX := WindowWidth;
        obstacleY := SpawnHeight(spawnHigh);
      }
      obs := GetObs();
      info := GetInfo();
      truncated := false;
    }
  }
}
