/**
 * The two-player football game: players moved by their keys and kept inside the pitch,
 * a ball that bounces off the pitch walls and off the players, goals that score for the
 * attacking player and restart from kick-off, and the clamp that keeps the ball on the
 * pitch.  The pitch and the two goals are given (their construction by scaling the
 * screen is not modelled); velocities are integer vectors and the ball has no friction.
 */
module Football {
  import opened Rects

  const PlayerSize: nat := 25
  const PlayerSpeed: int := 5
  const BallSize: nat := 10

  /** A velocity, or a position used as one. */
  datatype Vec = Vec(x: int, y: int)

  const Zero: Vec := Vec(0, 0)

  /** The four direction keys of one player. */
  datatype Keys = Keys(left: bool, right: bool, up: bool, down: bool)

  /** The screen, the pitch on it, and the goals left and right of the pitch. */
  datatype Layout = Layout(screen: Rect, pitch: Rect, goal0: Rect, goal1: Rect)

  /**
   * What the game's construction guarantees: a pitch wide and tall enough for a player at
   * either start position, the left goal flush against the pitch's left edge and the right
   * goal against its right edge.
   */
  predicate ValidLayout(l: Layout)
  {
    l.pitch.w >= PlayerSize + PlayerSize / 2 + 1 && l.pitch.h >= PlayerSize &&
    Right(l.goal0) == l.pitch.x && l.goal1.x == Right(l.pitch)
  }

  datatype PlayerState = PlayerState(rect: Rect, velocity: Vec, score: nat)
  datatype BallState = BallState(rect: Rect, velocity: Vec)

  /** Everything that moves: player 0 (left, red), player 1 (right, blue) and the ball. */
  datatype Match = Match(p0: PlayerState, p1: PlayerState, ball: BallState)

  /** The players keep their 25-pixel squares and the ball its 10-pixel square. */
  predicate Inv(m: Match)
  {
    m.p0.rect.w == PlayerSize && m.p0.rect.h == PlayerSize &&
    m.p1.rect.w == PlayerSize && m.p1.rect.h == PlayerSize &&
    m.ball.rect.w == BallSize && m.ball.rect.h == BallSize
  }

  /** Python's `int()` of `n / 2`: the half of an integer, truncated toward zero. */
  function TruncHalf(n: int): (h: int)
    ensures n >= 0 ==> 2 * h <= n < 2 * h + 2
    ensures n < 0 ==> 2 * h - 2 < n <= 2 * h
  {
    if n >= 0 then n / 2 else -((-n) / 2)
  }

  /**
   * A player's kick-off position (top-left corner): half a player in from the left edge
   * for the left player, one and a half players in from the right edge (truncated to a
   * pixel) for the right player, and vertically centred.  Either way the square lies
   * inside a pitch large enough.
   */
  function PlayerStart(pitch: Rect, left: bool): (s: Vec)
    ensures pitch.w >= PlayerSize + PlayerSize / 2 + 1 && pitch.h >= PlayerSize ==>
              Contains(pitch, Rect(s.x, s.y, PlayerSize, PlayerSize))
  {
    var y := CenterY(pitch) - PlayerSize / 2;
    if left then Vec(pitch.x + PlayerSize / 2, y)
    else Vec(TruncHalf(2 * Right(pitch) - 3 * PlayerSize), y)
  }

  /** The ball's kick-off point: the pitch's centre. */
  function PitchCenter(pitch: Rect): Vec
  {
    Vec(CenterX(pitch), CenterY(pitch))
  }

  /**
   * The velocity `move` builds from the keys: zeroed, then 5 pixels per held key.  Each
   * component is -5, 0 or 5, opposite keys cancel, and a component is negative exactly
   * when only the left (up) key is held.
   */
  function KeyVelocity(k: Keys): (v: Vec)
    ensures v.x == -PlayerSpeed || v.x == 0 || v.x == PlayerSpeed
    ensures v.y == -PlayerSpeed || v.y == 0 || v.y == PlayerSpeed
    ensures v.x == 0 <==> k.left == k.right
    ensures v.y == 0 <==> k.up == k.down
    ensures v.x < 0 <==> k.left && !k.right
    ensures v.y < 0 <==> k.up && !k.down
  {
    Vec((if k.left then -PlayerSpeed else 0) + (if k.right then PlayerSpeed else 0),
        (if k.up then -PlayerSpeed else 0) + (if k.down then PlayerSpeed else 0))
  }

  /**
   * `Player.move`: the key velocity, a move by it, then the clamp into the pitch.  A player
   * square that fits in the pitch ends inside it, and a move that stays strictly inside
   * the pitch is taken in full.
   */
  function MovePlayer(p: PlayerState, pitch: Rect, k: Keys): (q: PlayerState)
    ensures q.velocity == KeyVelocity(k) && q.score == p.score
    ensures q.rect.w == p.rect.w && q.rect.h == p.rect.h
    ensures 0 < p.rect.w <= pitch.w && 0 < p.rect.h <= pitch.h ==> Contains(pitch, q.rect)
    ensures p.rect.w < pitch.w && p.rect.h < pitch.h &&
            Contains(pitch, Translate(p.rect, q.velocity.x, q.velocity.y)) ==>
              q.rect == Translate(p.rect, q.velocity.x, q.velocity.y)
  {
    var v := KeyVelocity(k);
    PlayerState(ClampIp(Translate(p.rect, v.x, v.y), pitch), v, p.score)
  }

  /** `Player.reset`: back to the kick-off position, at rest; the score is kept. */
  function ResetPlayer(p: PlayerState, start: Vec): (q: PlayerState)
    ensures q.rect.x == start.x && q.rect.y == start.y && q.velocity == Zero
    ensures q.rect.w == p.rect.w && q.rect.h == p.rect.h && q.score == p.score
  {
    p.(rect := p.rect.(x := start.x, y := start.y), velocity := Zero)
  }

  /** `Ball.reset`: centred on the kick-off point, at rest. */
  function ResetBall(b: BallState, center: Vec): (c: BallState)
    ensures CenterX(c.rect) == center.x && CenterY(c.rect) == center.y && c.velocity == Zero
    ensures c.rect.w == b.rect.w && c.rect.h == b.rect.h
  {
    BallState(WithCenter(b.rect, center.x, center.y), Zero)
  }

  /** `Ball.bounce`: the velocity with the selected components negated. */
  function Bounced(v: Vec, x: bool, y: bool): Vec
  {
    Vec(if x then -v.x else v.x, if y then -v.y else v.y)
  }

  /** Bouncing twice on the same axes restores the velocity; no bounce changes nothing. */
  lemma BounceTwice(v: Vec, x: bool, y: bool)
    ensures Bounced(Bounced(v, x, y), x, y) == v
    ensures Bounced(v, false, false) == v
  {
  }

  /**
   * The wall part of `move_ball`: a ball past the left or right edge of the pitch reverses
   * its horizontal velocity, one past the top or bottom edge its vertical velocity; the
   * ball does not move back.
   */
  function WallBounce(b: BallState, pitch: Rect): (c: BallState)
    ensures c.rect == b.rect
    ensures !(b.rect.x < pitch.x || Right(b.rect) > Right(pitch)) ==> c.velocity.x == b.velocity.x
    ensures (b.rect.x < pitch.x || Right(b.rect) > Right(pitch)) ==> c.velocity.x == -b.velocity.x
    ensures !(b.rect.y < pitch.y || Bottom(b.rect) > Bottom(pitch)) ==> c.velocity.y == b.velocity.y
    ensures (b.rect.y < pitch.y || Bottom(b.rect) > Bottom(pitch)) ==> c.velocity.y == -b.velocity.y
  {
    b.(velocity := Bounced(b.velocity, b.rect.x < pitch.x || Right(b.rect) > Right(pitch),
                           b.rect.y < pitch.y || Bottom(b.rect) > Bottom(pitch)))
  }

  /**
   * The ball meeting one player in `move_ball`.  A player at rest sends the ball back the
   * way it came (both components reversed) and puts it against the side of the player it
   * came from, so they no longer overlap; a moving player adds its velocity to the ball's.
   */
  function HitBy(b: BallState, p: PlayerState): (c: BallState)
    ensures !CollideRect(b.rect, p.rect) ==> c == b
    ensures CollideRect(b.rect, p.rect) && p.velocity == Zero ==>
              c.velocity == Vec(-b.velocity.x, -b.velocity.y) && !CollideRect(c.rect, p.rect) &&
              c.rect.y == b.rect.y && c.rect.w == b.rect.w && c.rect.h == b.rect.h
    ensures CollideRect(b.rect, p.rect) && p.velocity != Zero ==>
              c.rect == b.rect && c.velocity == Vec(b.velocity.x + p.velocity.x, b.velocity.y + p.velocity.y)
  {
    if !CollideRect(b.rect, p.rect) then b
    else if p.velocity == Zero then
      var rect := if CenterX(b.rect) < CenterX(p.rect) then b.rect.(x := p.rect.x - b.rect.w)
                  else b.rect.(x := Right(p.rect));
      BallState(rect, Bounced(Bounced(b.velocity, true, false), false, true))
    else
      b.(velocity := Vec(b.velocity.x + p.velocity.x, b.velocity.y + p.velocity.y))
  }

  /**
   * The ball's part of a frame: it moves by its velocity, bounces off the walls it has
   * crossed, then meets player 0 and player 1 in turn.
   */
  function BallStep(m: Match, pitch: Rect): (r: Match)
    ensures r.p0 == m.p0 && r.p1 == m.p1
    ensures Inv(m) ==> Inv(r)
  {
    var moved := m.ball.(rect := Translate(m.ball.rect, m.ball.velocity.x, m.ball.velocity.y));
    m.(ball := HitBy(HitBy(WallBounce(moved, pitch), m.p0), m.p1))
  }

  /**
   * One goal's check in `check_for_scoring`: a ball touching the goal sends the ball and
   * both players back to kick-off and gives the point to the attacking player (player 0
   * when `scorer0`, else player 1).
   */
  function GoalCheck(m: Match, pitch: Rect, goal: Rect, scorer0: bool): (r: Match)
    ensures !CollideRect(m.ball.rect, goal) ==> r == m
    ensures CollideRect(m.ball.rect, goal) ==>
              r.ball == ResetBall(m.ball, PitchCenter(pitch)) &&
              r.p0.rect == ResetPlayer(m.p0, PlayerStart(pitch, true)).rect && r.p0.velocity == Zero &&
              r.p1.rect == ResetPlayer(m.p1, PlayerStart(pitch, false)).rect && r.p1.velocity == Zero &&
              r.p0.score == m.p0.score + (if scorer0 then 1 else 0) &&
              r.p1.score == m.p1.score + (if scorer0 then 0 else 1)
    ensures Inv(m) ==> Inv(r)
  {
    if CollideRect(m.ball.rect, goal) then
      var p0 := ResetPlayer(m.p0, PlayerStart(pitch, true));
      var p1 := ResetPlayer(m.p1, PlayerStart(pitch, false));
      Match(if scorer0 then p0.(score := p0.score + 1) else p0,
            if scorer0 then p1 else p1.(score := p1.score + 1),
            ResetBall(m.ball, PitchCenter(pitch)))
    else m
  }

  /**
   * `check_for_scoring`: the left goal (index 0) scores for player 1, then the right goal
   * (index 1) for player 0.
   */
  function Scoring(m: Match, l: Layout): Match
  {
    GoalCheck(GoalCheck(m, l.pitch, l.goal0, false), l.pitch, l.goal1, true)
  }

  /** A ball put back at kick-off lies inside the pitch, clear of both goals. */
  lemma KickOffClearOfGoals(b: BallState, l: Layout)
    requires ValidLayout(l) && b.rect.w == BallSize && b.rect.h == BallSize
    ensures Contains(l.pitch, ResetBall(b, PitchCenter(l.pitch)).rect)
    ensures !CollideRect(ResetBall(b, PitchCenter(l.pitch)).rect, l.goal0)
    ensures !CollideRect(ResetBall(b, PitchCenter(l.pitch)).rect, l.goal1)
  {
  }

  /**
   * At most one goal a frame: a ball in the left goal gives player 1 the point, a ball in
   * the right goal (and not the left) gives player 0 the point, and in either case the
   * ball and both players restart from kick-off; otherwise nothing changes.
   */
  lemma {:induction false} ScoringOneGoal(m: Match, l: Layout)
    requires ValidLayout(l) && Inv(m)
    ensures CollideRect(m.ball.rect, l.goal0) ==>
              Scoring(m, l) == GoalCheck(m, l.pitch, l.goal0, false) &&
              Scoring(m, l).p1.score == m.p1.score + 1 && Scoring(m, l).p0.score == m.p0.score
    ensures !CollideRect(m.ball.rect, l.goal0) && CollideRect(m.ball.rect, l.goal1) ==>
              Scoring(m, l) == GoalCheck(m, l.pitch, l.goal1, true) &&
              Scoring(m, l).p0.score == m.p0.score + 1 && Scoring(m, l).p1.score == m.p1.score
    ensures !CollideRect(m.ball.rect, l.goal0) && !CollideRect(m.ball.rect, l.goal1) ==>
              Scoring(m, l) == m
    ensures Inv(Scoring(m, l))
  {
    if CollideRect(m.ball.rect, l.goal0) {
      var r := GoalCheck(m, l.pitch, l.goal0, false);
      KickOffClearOfGoals(m.ball, l);
      assert !CollideRect(r.ball.rect, l.goal1);
    }
  }

  /**
   * The player part of `ensure_no_clipping`, comparing the ball with the edges of `edges`:
   * a player overlapping the ball is put beside it, on the far side from the edge the ball
   * touches, horizontally and then vertically.
   */
  function PushAway(ball: Rect, player: Rect, edges: Rect): (q: Rect)
    ensures q.w == player.w && q.h == player.h
    ensures !CollideRect(ball, player) ==> q == player
    ensures CollideRect(ball, player) && ball.x == edges.x ==> q.x == Right(ball)
    ensures CollideRect(ball, player) && ball.x != edges.x && Right(ball) == Right(edges) ==>
              Right(q) == ball.x
    ensures CollideRect(ball, player) && ball.x != edges.x && Right(ball) != Right(edges) ==>
              q.x == player.x
    ensures CollideRect(ball, player) && ball.y == edges.y ==> q.y == Bottom(ball)
    ensures CollideRect(ball, player) && ball.y != edges.y && Bottom(ball) == Bottom(edges) ==>
              Bottom(q) == ball.y
    ensures CollideRect(ball, player) && ball.y != edges.y && Bottom(ball) != Bottom(edges) ==>
              q.y == player.y
  {
    if !CollideRect(ball, player) then player
    else
      var px := if ball.x == edges.x then player.(x := Right(ball))
                else if Right(ball) == Right(edges) then player.(x := ball.x - player.w)
                else player;
      if ball.y == edges.y then px.(y := Bottom(ball))
      else if Bottom(ball) == Bottom(edges) then px.(y := ball.y - px.h)
      else px
  }

  /**
   * `ensure_no_clipping`: a ball not inside the pitch is clamped into it, and each player
   * overlapping the clamped ball is pushed away from it, comparing the ball with the edges
   * of `edges`.  The ball ends inside the pitch.
   */
  function Unclip(m: Match, pitch: Rect, edges: Rect): (r: Match)
    ensures Contains(pitch, m.ball.rect) ==> r == m
    ensures 0 < m.ball.rect.w <= pitch.w && 0 < m.ball.rect.h <= pitch.h ==> Contains(pitch, r.ball.rect)
    ensures r.ball.velocity == m.ball.velocity && r.p0.score == m.p0.score && r.p1.score == m.p1.score
    ensures r.p0.velocity == m.p0.velocity && r.p1.velocity == m.p1.velocity
    ensures Inv(m) ==> Inv(r)
  {
    if Contains(pitch, m.ball.rect) then m
    else
      var ball := ClampIp(m.ball.rect, pitch);
      Match(m.p0.(rect := PushAway(ball, m.p0.rect, edges)),
            m.p1.(rect := PushAway(ball, m.p1.rect, edges)),
            m.ball.(rect := ball))
  }

  /**
   * As written, the players are pushed by comparing the clamped ball with the SCREEN's
   * edges.  The clamped ball lies inside the pitch, which lies strictly inside the screen,
   * so it never touches a screen edge and no player is ever moved.
   */
  lemma UnclipAgainstScreenMovesNoPlayer(m: Match, l: Layout)
    requires Inv(m) && BallSize <= l.pitch.w && BallSize <= l.pitch.h
    requires l.screen.x < l.pitch.x && Right(l.pitch) < Right(l.screen)
    requires l.screen.y < l.pitch.y && Bottom(l.pitch) < Bottom(l.screen)
    ensures Unclip(m, l.pitch, l.screen).p0 == m.p0 && Unclip(m, l.pitch, l.screen).p1 == m.p1
  {
  }

  /**
   * Pushing against the pitch's edges: a ball that had left the pitch is clamped against
   * one of its edges, and every player that overlapped it is moved clear of it.
   */
  lemma {:induction false} UnclipSeparates(m: Match, pitch: Rect)
    requires Inv(m) && BallSize <= pitch.w && BallSize <= pitch.h
    requires !Contains(pitch, m.ball.rect)
    ensures !CollideRect(Unclip(m, pitch, pitch).ball.rect, Unclip(m, pitch, pitch).p0.rect)
    ensures !CollideRect(Unclip(m, pitch, pitch).ball.rect, Unclip(m, pitch, pitch).p1.rect)
  {
    ClampedRectTouchesEdge(m.ball.rect, pitch);
  }

  /** Both players' moves. */
  function BothMoved(m: Match, pitch: Rect, k0: Keys, k1: Keys): Match
  {
    m.(p0 := MovePlayer(m.p0, pitch, k0), p1 := MovePlayer(m.p1, pitch, k1))
  }

  /**
   * `Game.step` without the drawing: the players move, then the ball, then the goals are
   * checked, then the ball is kept on the pitch (players pushed against the pitch's edges).
   * The sizes are kept, the ball ends inside the pitch, and at most one player scores,
   * by one point.
   */
  function Advance(m: Match, l: Layout, k0: Keys, k1: Keys): (r: Match)
    requires ValidLayout(l) && Inv(m)
    ensures Inv(r) && Contains(l.pitch, r.ball.rect)
    ensures m.p0.score <= r.p0.score <= m.p0.score + 1 && m.p1.score <= r.p1.score <= m.p1.score + 1
    ensures r.p0.score + r.p1.score <= m.p0.score + m.p1.score + 1
  {
    var moved := BallStep(BothMoved(m, l.pitch, k0, k1), l.pitch);
    ScoringOneGoal(moved, l);
    Unclip(Scoring(moved, l), l.pitch, l.pitch)
  }

  /**
   * The ball's square at kick-off as the constructor builds it: its TOP-LEFT corner on the
   * pitch's centre.  `Ball.reset` puts its centre there instead.
   */
  function KickOffBallAsWritten(pitch: Rect): Rect
  {
    Rect(PitchCenter(pitch).x, PitchCenter(pitch).y, BallSize, BallSize)
  }

  /**
   * The first kick-off and every later one differ: the ball starts half a ball right of and
   * below the spot every goal brings it back to.
   */
  lemma KickOffBallAsWrittenOffCentre(pitch: Rect, b: BallState)
    requires b.rect.w == BallSize && b.rect.h == BallSize
    ensures KickOffBallAsWritten(pitch).x == ResetBall(b, PitchCenter(pitch)).rect.x + BallSize / 2
    ensures KickOffBallAsWritten(pitch).y == ResetBall(b, PitchCenter(pitch)).rect.y + BallSize / 2
    ensures KickOffBallAsWritten(pitch) != ResetBall(b, PitchCenter(pitch)).rect
  {
  }

  /** The ball's square at kick-off: centred on the pitch's centre, as `Ball.reset` places it. */
  function KickOffBall(pitch: Rect): (r: Rect)
    ensures r.w == BallSize && r.h == BallSize
    ensures CenterX(r) == PitchCenter(pitch).x && CenterY(r) == PitchCenter(pitch).y
  {
    WithCenter(Rect(0, 0, BallSize, BallSize), PitchCenter(pitch).x, PitchCenter(pitch).y)
  }

  /** The start of a game: players and ball at kick-off, at rest, no score. */
  function KickOff(l: Layout): (m: Match)
    ensures Inv(m)
    ensures forall b: BallState :: b.rect.w == BallSize && b.rect.h == BallSize ==>
              m.ball == ResetBall(b, PitchCenter(l.pitch))
    ensures ValidLayout(l) ==> Contains(l.pitch, m.p0.rect) && Contains(l.pitch, m.p1.rect) &&
                               Contains(l.pitch, m.ball.rect)
  {
    var s0 := PlayerStart(l.pitch, true);
    var s1 := PlayerStart(l.pitch, false);
    Match(PlayerState(Rect(s0.x, s0.y, PlayerSize, PlayerSize), Zero, 0),
          PlayerState(Rect(s1.x, s1.y, PlayerSize, PlayerSize), Zero, 0),
          BallState(KickOffBall(l.pitch), Zero))
  }

  /** A player: its square, its velocity, its score and its kick-off position. */
  class Player {
    var rect: Rect
    var velocity: Vec
    var score: nat
    const start: Vec

    function State(): PlayerState
      reads this
    {
      PlayerState(rect, velocity, score)
    }

    /** A player at its kick-off position on the left or the right of the pitch, at rest, no score. */
    constructor (pitch: Rect, left: bool)
      ensures start == PlayerStart(pitch, left)
      ensures rect == Rect(start.x, start.y, PlayerSize, PlayerSize)
      ensures velocity == Zero && score == 0
    {
      start := PlayerStart(pitch, left);
      rect := Rect(PlayerStart(pitch, left).x, PlayerStart(pitch, left).y, PlayerSize, PlayerSize);
      velocity := Zero;
      score := 0;
    }

    /** `reset`: back to the kick-off position, at rest. */
    method Reset()
      modifies this`rect, this`velocity
      ensures State() == ResetPlayer(old(State()), start)
    {
      rect := rect.(x := start.x, y := start.y);
      velocity := Zero;
    }

    /** `move`: velocity from the keys, a move by it, then the clamp into the pitch. */
    method Move(pitch: Rect, k: Keys)
      modifies this`rect, this`velocity
      ensures State() == MovePlayer(old(State()), pitch, k)
    {
      velocity := Zero;
      if k.left {
        velocity := velocity.(x := velocity.x - PlayerSpeed);
      }
      if k.right {
        velocity := velocity.(x := velocity.x + PlayerSpeed);
      }
      if k.up {
        velocity := velocity.(y := velocity.y - PlayerSpeed);
      }
      if k.down {
        velocity := velocity.(y := velocity.y + PlayerSpeed);
      }
      rect := Translate(rect, velocity.x, velocity.y);
      rect := ClampIp(rect, pitch);
    }

    /** `scored`: one more point. */
    method Scored()
      modifies this`score
      ensures score == old(score) + 1
    {
      score := score + 1;
    }
  }

  /** The ball: its square, its velocity and its kick-off point. */
  class Ball {
    var rect: Rect
    var velocity: Vec
    const center: Vec

    function State(): BallState
      reads this
    {
      BallState(rect, velocity)
    }

    /** A ball centred on the pitch's centre, at rest: the same position `Reset` restores. */
    constructor (pitch: Rect)
      ensures center == PitchCenter(pitch)
      ensures rect == KickOffBall(pitch) && velocity == Zero
    {
      center := PitchCenter(pitch);
      rect := KickOffBall(pitch);
      velocity := Zero;
    }

    /** `reset`: centred on the kick-off point, at rest. */
    method Reset()
      modifies this`rect, this`velocity
      ensures State() == ResetBall(old(State()), center)
    {
      rect := WithCenter(rect, center.x, center.y);
      velocity := Zero;
    }

    /** `bounce`: reverse the velocity along the selected axes. */
    method Bounce(x: bool, y: bool)
      modifies this`velocity
      ensures velocity == Bounced(old(velocity), x, y)
    {
      if x {
        velocity := velocity.(x := -velocity.x);
      }
      if y {
        velocity := velocity.(y := -velocity.y);
      }
    }
  }

  /** The game: the layout, the two players and the ball. */
  class Game {
    const layout: Layout
    const player0: Player
    const player1: Player
    const ball: Ball

    /** The moving parts as one value. */
    function Current(): Match
      reads player0, player1, ball
    {
      Match(player0.State(), player1.State(), ball.State())
    }

    ghost predicate Valid()
      reads player0, player1, ball
    {
      player0 != player1 && ValidLayout(layout) && Inv(Current()) &&
      player0.start == PlayerStart(layout.pitch, true) &&
      player1.start == PlayerStart(layout.pitch, false) &&
      ball.center == PitchCenter(layout.pitch)
    }

    /** The left player, the right player and the ball, all at kick-off. */
    constructor (layout: Layout)
      requires ValidLayout(layout)
      ensures fresh(player0) && fresh(player1) && fresh(ball)
      ensures Valid() && this.layout == layout
      ensures Current() == KickOff(layout)
    {
      this.layout := layout;
      player0 := new Player(layout.pitch, true);
      player1 := new Player(layout.pitch, false);
      ball := new Ball(layout.pitch);
    }

    /** `move_players`: each player moves by its own keys, inside the pitch. */
    method MovePlayers(k0: Keys, k1: Keys)
      requires Valid()
      modifies player0, player1
      ensures Valid()
      ensures Current() == BothMoved(old(Current()), layout.pitch, k0, k1)
    {
      player0.Move(layout.pitch, k0);
      player1.Move(layout.pitch, k1);
    }

    /** The ball meeting player `p` in `move_ball`. */
    method HitPlayer(p: Player)
      modifies ball
      ensures ball.State() == HitBy(old(ball.State()), p.State())
    {
      if CollideRect(ball.rect, p.rect) {
        if p.velocity == Zero {
          if CenterX(ball.rect) < CenterX(p.rect) {
            ball.Bounce(true, false);
            ball.rect := ball.rect.(x := p.rect.x - ball.rect.w);
          } else {
            ball.Bounce(true, false);
            ball.rect := ball.rect.(x := Right(p.rect));
          }
          ball.Bounce(false, true);
        } else {
          ball.velocity := Vec(ball.velocity.x + p.velocity.x, ball.velocity.y + p.velocity.y);
        }
      }
    }

    /** `move_ball` without friction: move, bounce off the walls crossed, meet each player. */
    method MoveBall()
      requires Valid()
      modifies ball
      ensures Valid()
      ensures Current() == BallStep(old(Current()), layout.pitch)
    {
      ball.rect := Translate(ball.rect, ball.velocity.x, ball.velocity.y);
      var xCollision := ball.rect.x < layout.pitch.x || Right(ball.rect) > Right(layout.pitch);
      var yCollision := ball.rect.y < layout.pitch.y || Bottom(ball.rect) > Bottom(layout.pitch);
      ball.Bounce(xCollision, yCollision);
      HitPlayer(player0);
      HitPlayer(player1);
    }

    /**
     * One pass of `check_for_scoring`: goal `i` touched by the ball sends the ball and both
     * players to kick-off and gives the point to player `not i`.
     */
    method CheckGoal(i: nat)
      requires Valid() && i < 2
      modifies ball, player0, player1
      ensures Valid()
      ensures Current() == GoalCheck(old(Current()), layout.pitch,
                                     if i == 0 then layout.goal0 else layout.goal1, i == 1)
    {
      var goal := if i == 0 then layout.goal0 else layout.goal1;
      if CollideRect(ball.rect, goal) {
        ball.Reset();
        player0.Reset();
        player1.Reset();
        if i == 0 {
          player1.Scored();
        } else {
          player0.Scored();
        }
      }
    }

    /** `check_for_scoring`: the two goals in order. */
    method CheckForScoring()
      requires Valid()
      modifies ball, player0, player1
      ensures Valid()
      ensures Current() == Scoring(old(Current()), layout)
    {
      CheckGoal(0);
      CheckGoal(1);
    }

    /** The push of player `p` away from the clamped ball, against the pitch's edges. */
    method PushPlayer(p: Player)
      modifies p
      ensures p.rect == PushAway(ball.rect, old(p.rect), layout.pitch)
      ensures p.velocity == old(p.velocity) && p.score == old(p.score)
    {
      if CollideRect(ball.rect, p.rect) {
        if ball.rect.x == layout.pitch.x {
          p.rect := p.rect.(x := Right(ball.rect));
        } else if Right(ball.rect) == Right(layout.pitch) {
          p.rect := p.rect.(x := ball.rect.x - p.rect.w);
        }
        if ball.rect.y == layout.pitch.y {
          p.rect := p.rect.(y := Bottom(ball.rect));
        } else if Bottom(ball.rect) == Bottom(layout.pitch) {
          p.rect := p.rect.(y := ball.rect.y - p.rect.h);
        }
      }
    }

    /** `ensure_no_clipping`: clamp a ball that left the pitch, then push the players off it. */
    method EnsureNoClipping()
      requires Valid()
      modifies ball, player0, player1
      ensures Valid()
      ensures Current() == Unclip(old(Current()), layout.pitch, layout.pitch)
    {
      if !Contains(layout.pitch, ball.rect) {
        ball.rect := ClampIp(ball.rect, layout.pitch);
        PushPlayer(player0);
        PushPlayer(player1);
      }
    }

    /** `step` without the drawing. */
    method Step(k0: Keys, k1: Keys)
      requires Valid()
      modifies ball, player0, player1
      ensures Valid()
      ensures Current() == Advance(old(Current()), layout, k0, k1)
    {
      MovePlayers(k0, k1);
      MoveBall();
      CheckForScoring();
      EnsureNoClipping();
    }
  }
}
