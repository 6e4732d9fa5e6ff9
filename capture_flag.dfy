/**
 * Capture the flag for two players on an 800 x 600 field split at its middle.  Each
 * frame moves both players by the held keys (5 pixels a key, only when the result stays
 * strictly inside the field), scores a capture when a player touches the opponent's flag
 * (and sends both players back to their start), and sends home a player tagged while
 * its centre is in the opponent's half.
 */
module CaptureTheFlag {
  import opened Rects

  const Width: int := 800
  const Height: int := 600
  const PlayerSize: nat := 50
  const FlagSize: nat := 20
  const PlayerSpeed: int := 5
  const HalfWidth: int := 400

  /** Half a player's side, the offset of its centre from its left edge. */
  const HalfPlayer: int := 25

  /** The start positions (at half the height, and at the left and right edges), which are also where captures and tags send the players. */
  const Home1: Rect := Rect(0, 300, PlayerSize, PlayerSize)
  const Home2: Rect := Rect(750, 300, PlayerSize, PlayerSize)

  /** Player 1 defends the flag in the top-left corner, player 2 the one in the bottom-right corner. */
  const Flag1: Rect := Rect(0, 0, FlagSize, FlagSize)
  const Flag2: Rect := Rect(780, 580, FlagSize, FlagSize)

  /** The four direction keys of one player. */
  datatype Keys = Keys(up: bool, down: bool, left: bool, right: bool)

  datatype State = State(player1: Rect, player2: Rect, score1: nat, score2: nat)

  /** A player's square, with its left edge in [0, 750] and its top edge strictly inside (0, 550). */
  predicate InBounds(r: Rect)
  {
    r.w == PlayerSize && r.h == PlayerSize &&
    0 <= r.x <= Width - PlayerSize && 0 < r.y < Height - PlayerSize
  }

  predicate Inv(s: State)
  {
    InBounds(s.player1) && InBounds(s.player2)
  }

  /** The start of the game. */
  function Initial(): (s: State)
    ensures Inv(s)
  {
    State(Home1, Home2, 0, 0)
  }

  /**
   * One player's movement: up, down, left, right in that order, each a 5-pixel step taken
   * only when the moved edge stays strictly inside the field.  A coordinate moves by at
   * most one step in each direction, and only along the axes whose keys are held.
   */
  function MovePlayer(r: Rect, k: Keys): (t: Rect)
    ensures InBounds(r) ==> InBounds(t)
    ensures t.w == r.w && t.h == r.h
    ensures -PlayerSpeed <= t.y - r.y <= PlayerSpeed && -PlayerSpeed <= t.x - r.x <= PlayerSpeed
    ensures !k.up && !k.down ==> t.y == r.y
    ensures !k.left && !k.right ==> t.x == r.x
    ensures k.up && !k.down ==> t.y == (if r.y - PlayerSpeed > 0 then r.y - PlayerSpeed else r.y)
    ensures k.down && !k.up ==>
              t.y == (if r.y + PlayerSpeed < Height - PlayerSize then r.y + PlayerSpeed else r.y)
    ensures k.left && !k.right ==> t.x == (if r.x - PlayerSpeed > 0 then r.x - PlayerSpeed else r.x)
    ensures k.right && !k.left ==>
              t.x == (if r.x + PlayerSpeed < Width - PlayerSize then r.x + PlayerSpeed else r.x)
  {
    StepRight(StepLeft(StepDown(StepUp(r, k.up), k.down), k.left), k.right)
  }

  function StepUp(r: Rect, pressed: bool): Rect
  {
    if pressed && r.y - PlayerSpeed > 0 then r.(y := r.y - PlayerSpeed) else r
  }

  function StepDown(r: Rect, pressed: bool): Rect
  {
    if pressed && r.y + PlayerSpeed < Height - PlayerSize then r.(y := r.y + PlayerSpeed) else r
  }

  function StepLeft(r: Rect, pressed: bool): Rect
  {
    if pressed && r.x - PlayerSpeed > 0 then r.(x := r.x - PlayerSpeed) else r
  }

  function StepRight(r: Rect, pressed: bool): Rect
  {
    if pressed && r.x + PlayerSpeed < Width - PlayerSize then r.(x := r.x + PlayerSpeed) else r
  }

  /** Captures: player 1 on flag 2 scores for player 1, then player 2 on flag 1 for player 2. */
  function Score(s: State): State
  {
    CaptureBy2(CaptureBy1(s))
  }

  /** Player 1 on flag 2: a point for player 1, both players back to their start. */
  function CaptureBy1(s: State): State
  {
    if CollideRect(s.player1, Flag2) then State(Home1, Home2, s.score1 + 1, s.score2) else s
  }

  /** Player 2 on flag 1: a point for player 2, both players back to their start. */
  function CaptureBy2(s: State): State
  {
    if CollideRect(s.player2, Flag1) then State(Home1, Home2, s.score1, s.score2 + 1) else s
  }

  /**
   * Tags: player 1 goes home when the players overlap and its centre is right of the
   * middle; then, against player 1's new position, player 2 goes home when they overlap
   * and its centre is left of the middle.
   */
  function Tag(s: State): State
  {
    TagPlayer2(TagPlayer1(s))
  }

  /** Player 1, overlapping player 2 with its centre right of the middle, goes home. */
  function TagPlayer1(s: State): State
  {
    if CollideRect(s.player1, s.player2) && s.player1.x + HalfPlayer > HalfWidth
    then s.(player1 := Home1) else s
  }

  /** Player 2, overlapping player 1 with its centre left of the middle, goes home. */
  function TagPlayer2(s: State): State
  {
    if CollideRect(s.player2, s.player1) && s.player2.x + HalfPlayer < HalfWidth
    then s.(player2 := Home2) else s
  }

  /** Both players' moves. */
  function MoveBoth(s: State, k1: Keys, k2: Keys): (t: State)
    ensures Inv(s) ==> Inv(t)
    ensures t.score1 == s.score1 && t.score2 == s.score2
  {
    s.(player1 := MovePlayer(s.player1, k1), player2 := MovePlayer(s.player2, k2))
  }

  /** One frame: both moves, then captures, then tags. */
  function Step(s: State, k1: Keys, k2: Keys): (t: State)
    ensures Inv(s) ==> Inv(t)
    ensures s.score1 <= t.score1 <= s.score1 + 1 && s.score2 <= t.score2 <= s.score2 + 1
  {
    ScoreKeepsInv(MoveBoth(s, k1, k2));
    TagKeepsInv(Score(MoveBoth(s, k1, k2)));
    Tag(Score(MoveBoth(s, k1, k2)))
  }

  /** A frame taken one phase at a time, each phase one block of the loop body. */
  lemma StepInPhases(s: State, k1: Keys, k2: Keys, moved: State, captured1: State,
                     captured2: State, tagged1: State, t: State)
    requires moved.player1 == MovePlayer(s.player1, k1) && moved.player2 == MovePlayer(s.player2, k2)
    requires moved.score1 == s.score1 && moved.score2 == s.score2
    requires captured1 == CaptureBy1(moved) && captured2 == CaptureBy2(captured1)
    requires tagged1 == TagPlayer1(captured2) && t == TagPlayer2(tagged1)
    ensures t == Step(s, k1, k2)
  {
    assert moved == MoveBoth(s, k1, k2);
  }

  lemma ScoreKeepsInv(s: State)
    ensures Inv(s) ==> Inv(Score(s))
    ensures s.score1 <= Score(s).score1 <= s.score1 + 1 && s.score2 <= Score(s).score2 <= s.score2 + 1
  {
  }

  lemma TagKeepsInv(s: State)
    ensures Inv(s) ==> Inv(Tag(s))
    ensures Tag(s).score1 == s.score1 && Tag(s).score2 == s.score2
  {
  }

  /** A player still at its start cannot be touching the opponent's flag. */
  lemma HomesAwayFromFlags()
    ensures !CollideRect(Home2, Flag1) && !CollideRect(Home1, Flag2)
  {
  }

  /**
   * At most one capture happens in a frame, and a capture sends both players home.
   * Player 1's capture is checked first: player 2 scores only when player 1 did not.
   */
  lemma {:induction false} AtMostOneCapture(s: State)
    ensures Score(s).score1 + Score(s).score2 <= s.score1 + s.score2 + 1
    ensures Score(s).score1 == s.score1 + 1 <==> CollideRect(s.player1, Flag2)
    ensures Score(s).score2 == s.score2 + 1 <==> !CollideRect(s.player1, Flag2) && CollideRect(s.player2, Flag1)
    ensures CollideRect(s.player1, Flag2) || CollideRect(s.player2, Flag1) ==>
              Score(s).player1 == Home1 && Score(s).player2 == Home2
    ensures !CollideRect(s.player1, Flag2) && !CollideRect(s.player2, Flag1) ==> Score(s) == s
  {
    if CollideRect(s.player1, Flag2) {
      var t := CaptureBy1(s);
      assert t == State(Home1, Home2, s.score1 + 1, s.score2);
      HomesAwayFromFlags();
      assert !CollideRect(t.player2, Flag1);
      assert CaptureBy2(t) == t;
    }
  }

  /**
   * A tag never sends both players home: a player 1 tagged on the right half was
   * overlapping a player 2 too far right to reach player 1's start.  When both centres
   * are in the opponent's half, only player 1 is sent home; player 2 tagged in the left
   * half goes home unless player 1 was tagged first.
   */
  lemma {:induction false} TagSendsAtMostOneHome(s: State)
    requires Inv(s)
    ensures !(Tag(s).player1 != s.player1 && Tag(s).player2 != s.player2)
    ensures Tag(s).player1 != s.player1 ==>
              Tag(s).player1 == Home1 && Tag(s).player2 == s.player2
    ensures Tag(s).player2 != s.player2 ==>
              Tag(s).player2 == Home2 && Tag(s).player1 == s.player1
    ensures CollideRect(s.player1, s.player2) && s.player1.x + HalfPlayer > HalfWidth ==>
              Tag(s).player1 == Home1
    ensures CollideRect(s.player2, s.player1) && s.player2.x + HalfPlayer < HalfWidth &&
            !(CollideRect(s.player1, s.player2) && s.player1.x + HalfPlayer > HalfWidth) ==>
              Tag(s).player2 == Home2
    ensures Tag(s).score1 == s.score1 && Tag(s).score2 == s.score2
  {
    if CollideRect(s.player1, s.player2) && s.player1.x + HalfPlayer > HalfWidth {
      assert !CollideRect(s.player2, Home1);
    }
  }


  /** One player's four key checks, applied in place to its square. */
  method MoveSquare(r: Rect, k: Keys) returns (t: Rect)
    ensures t == MovePlayer(r, k)
  {
    t := r;
    if k.up && t.y - PlayerSpeed > 0 {
      t := t.(y := t.y - PlayerSpeed);
    }
    if k.down && t.y + PlayerSpeed < Height - PlayerSize {
      t := t.(y := t.y + PlayerSpeed);
    }
    if k.left && t.x - PlayerSpeed > 0 {
      t := t.(x := t.x - PlayerSpeed);
    }
    if k.right && t.x + PlayerSpeed < Width - PlayerSize {
      t := t.(x := t.x + PlayerSpeed);
    }
  }

  /** The game: the two players' squares and the two scores, updated in place each frame. */
  class Game {
    var player1: Rect
    var player2: Rect
    var score1: nat
    var score2: nat

    function Current(): State
      reads this
    {
      State(player1, player2, score1, score2)
    }

    ghost predicate Valid()
      reads this
    {
      Inv(Current())
    }

    constructor ()
      ensures Current() == Initial() && Valid()
    {
      player1 := Home1;
      player2 := Home2;
      score1 := 0;
      score2 := 0;
    }

    /** The two players' movement, player 1 by its keys, then player 2 by its keys. */
    method MovePlayers(k1: Keys, k2: Keys)
      modifies this`player1, this`player2
      ensures player1 == MovePlayer(old(player1), k1) && player2 == MovePlayer(old(player2), k2)
    {
      player1 := MoveSquare(player1, k1);
      player2 := MoveSquare(player2, k2);
    }

    /** Player 1 touching flag 2 scores and sends both players home. */
    method CaptureFlag2()
      modifies this
      ensures Current() == CaptureBy1(old(Current()))
    {
      if CollideRect(player1, Flag2) {
        score1 := score1 + 1;
        player1 := Home1;
        player2 := Home2;
      }
    }

    /** Player 2 touching flag 1 scores and sends both players home. */
    method CaptureFlag1()
      modifies this
      ensures Current() == CaptureBy2(old(Current()))
    {
      if CollideRect(player2, Flag1) {
        score2 := score2 + 1;
        player1 := Home1;
        player2 := Home2;
      }
    }

    /** Player 1 tagged in the right half goes home. */
    method TagFirst()
      modifies this`player1
      ensures Current() == TagPlayer1(old(Current()))
    {
      if CollideRect(player1, player2) && player1.x + HalfPlayer > HalfWidth {
        player1 := Home1;
      }
    }

    /** Player 2 tagged in the left half goes home. */
    method TagSecond()
      modifies this`player2
      ensures Current() == TagPlayer2(old(Current()))
    {
      if CollideRect(player2, player1) && player2.x + HalfPlayer < HalfWidth {
        player2 := Home2;
      }
    }

    /** One pass of the game loop; the flags never move. */
    method Frame(k1: Keys, k2: Keys)
      requires Valid()
      modifies this
      ensures Valid()
      ensures Current() == Step(old(Current()), k1, k2)
    {
      ghost var s0 := Current();
      MovePlayers(k1, k2);
      ghost var s1 := Current();
      CaptureFlag2();
      ghost var s2 := Current();
      CaptureFlag1();
      ghost var s3 := Current();
      TagFirst();
      ghost var s4 := Current();
      TagSecond();
      StepInPhases(s0, k1, k2, s1, s2, s3, s4, Current());
    }
  }
}
