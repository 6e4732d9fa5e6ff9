/**
 * The stand-alone endless-runner game: the script's global variables as the fields of
 * one object, the body of its main loop as `Frame`, and the loop itself as `Play`.
 * The keyboard, the quit event and the respawn coin toss arrive as inputs.
 */
module RunnerGame {
  import opened Runner

  /** None of the first `n` frames of a run from `w` met a quit event or a collision. */
  ghost predicate Uninterrupted(w: World, inputs: seq<Input>, quits: seq<bool>, n: nat)
    requires n <= |inputs| && n <= |quits|
  {
    forall j :: 0 <= j < n ==>
      !quits[j] && !Collides(Run(w, inputs[..j]), inputs[j].jump, inputs[j].duck)
  }

  /** One more frame is uninterrupted exactly when it meets neither a quit event nor a collision. */
  lemma UninterruptedStep(w: World, inputs: seq<Input>, quits: seq<bool>, n: nat)
    requires n < |inputs| && n < |quits|
    ensures Uninterrupted(w, inputs, quits, n + 1) <==>
              Uninterrupted(w, inputs, quits, n) && !quits[n] &&
              !Collides(Run(w, inputs[..n]), inputs[n].jump, inputs[n].duck)
  {
  }

  class Game {
    var playerY: real
    var playerVelocity: real
    var playerHeight: real
    var obstacleX: real
    var obstacleY: real
    var score: nat
    var frameCounter: nat
    var dodges: nat
    var running: bool

    /** The game's variables as one value. */
    function State(): World
      reads this
    {
      World(Player(playerY, playerVelocity, playerHeight), obstacleX, obstacleY,
            score, frameCounter, dodges)
    }

    ghost predicate Valid()
      reads this
    {
      Inv(State())
    }

    /** The start of the script: player on the floor, obstacle on the floor at the right edge. */
    constructor ()
      ensures State() == Initial(LowSpawnY) && running
      ensures Valid()
    {
      playerY := FloorY - BasePlayerHeight;
      playerVelocity := 0.0;
      playerHeight := BasePlayerHeight;
      obstacleX := WindowWidth;
      obstacleY := FloorY - ObstacleHeight;
      score := 0;
      frameCounter := 0;
      dodges := 0;
      running := true;
    }

    /** The player's part of the frame before the floor clamp. */
    method MovePlayer(jump: bool, duck: bool)
      modifies this`playerY, this`playerVelocity, this`playerHeight
      ensures Player(playerY, playerVelocity, playerHeight) ==
              Launch(old(Player(playerY, playerVelocity, playerHeight)), jump, duck)
    {
      if jump && playerY == FloorY - playerHeight {
        playerVelocity := -JumpForce;
      }
      if duck {
        playerHeight := DuckingHeight;
      } else {
        playerHeight := StandingHeight;
      }
      playerVelocity := playerVelocity + Gravity;
      playerY := playerY + playerVelocity;
    }

    /** The floor clamp. */
    method ClampPlayer()
      modifies this`playerY, this`playerVelocity
      ensures Player(playerY, playerVelocity, playerHeight) ==
              ClampToFloor(old(Player(playerY, playerVelocity, playerHeight)))
    {
      if playerY > FloorY - playerHeight {
        playerY := FloorY - playerHeight;
        playerVelocity := 0.0;
      }
    }

    /** The collision test: overlapping rectangles end the game. */
    method CheckCollision()
      modifies this`running
      ensures running <==> old(running) && !Overlaps(Player(playerY, playerVelocity, playerHeight), obstacleX, obstacleY)
    {
      if PlayerX + PlayerWidth > obstacleX && PlayerX < obstacleX + ObstacleWidth {
        if playerY + playerHeight > obstacleY && playerY < obstacleY + ObstacleHeight {
          running := false;
        }
      }
    }

    /** The late gravity nudge. */
    method SettlePlayer()
      modifies this`playerY
      ensures Player(playerY, playerVelocity, playerHeight) ==
              Settle(old(Player(playerY, playerVelocity, playerHeight)))
    {
      if playerY < FloorY - playerHeight {
        playerY := playerY + Gravity;
      }
    }

    /** The frame counter, and the score on every second frame. */
    method CountFrame()
      modifies this`frameCounter, this`score
      ensures frameCounter == old(frameCounter) + 1
      ensures score == old(score) + (if frameCounter % 2 == 0 then 1 else 0)
    {
      frameCounter := frameCounter + 1;
      if frameCounter % 2 == 0 {
        score := score + 1;
      }
    }

    /** An obstacle that has passed the player counts a dodge and respawns at the right edge. */
    method RespawnObstacle(spawnHigh: bool)
      modifies this`dodges, this`obstacleX, this`obstacleY
      ensures Passed(old(obstacleX)) ==> dodges == old(dodges) + 1 && obstacleX == WindowWidth &&
                                         obstacleY == SpawnHeight(spawnHigh)
      ensures !Passed(old(obstacleX)) ==> dodges == old(dodges) && obstacleX == old(obstacleX) &&
                                          obstacleY == old(obstacleY)
    {
      if obstacleX + ObstacleWidth < PlayerX {
        dodges := dodges + 1;
        obstacleX := WindowWidth;
        obstacleY := SpawnHeight(spawnHigh);
      }
    }

    /**
     * One pass of the main loop.  The quit event and a collision stop the game, but the
     * frame is finished either way.
     */
    method Frame(quit: bool, jump: bool, duck: bool, spawnHigh: bool)
      requires Valid()
      modifies this
      ensures Valid()
      ensures State() == Advance(old(State()), jump, duck, spawnHigh)
      ensures running <==> old(running) && !quit && !Collides(old(State()), jump, duck)
    {
      if quit {
        running := false;
      }
      MovePlayer(jump, duck);
      obstacleX := obstacleX - ObstacleSpeed;
      ClampPlayer();
      CheckCollision();
      SettlePlayer();
      CountFrame();
      RespawnObstacle(spawnHigh);
    }

    /**
     * The main loop: frames run while the game is running, one input per frame.  It
     * stops early exactly when the game stops, and the state reached is the run of the
     * frames played.
     */
    method Play(inputs: seq<Input>, quits: seq<bool>) returns (played: nat)
      requires Valid() && |quits| == |inputs|
      modifies this
      ensures Valid()
      ensures played <= |inputs|
      ensures State() == Run(old(State()), inputs[..played])
      ensures played < |inputs| ==> !running
      ensures !old(running) ==> played == 0
      ensures running <==> old(running) && Uninterrupted(old(State()), inputs, quits, played)
      ensures played == 0 || Uninterrupted(old(State()), inputs, quits, played - 1)
    {
      played := 0;
      while running && played < |inputs|
        invariant Valid() && played <= |inputs|
        invariant State() == Run(old(State()), inputs[..played])
        invariant !old(running) ==> played == 0
        invariant running <==> old(running) && Uninterrupted(old(State()), inputs, quits, played)
        invariant played == 0 || Uninterrupted(old(State()), inputs, quits, played - 1)
      {
        var input := inputs[played];
        Frame(quits[played], input.jump, input.duck, input.spawnHigh);
        UninterruptedStep(old(State()), inputs, quits, played);
        assert inputs[..played + 1][..played] == inputs[..played];
        played := played + 1;
      }
    }
  }
}
