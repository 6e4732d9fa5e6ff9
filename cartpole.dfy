/**
 * The cart-pole environment: a pole on an un-actuated joint above a cart on a
 * frictionless track.  Each step pushes the cart left or right with a fixed force,
 * advances the physics by one explicit Euler step, and judges the new state: the
 * episode ends when the step cap is reached or the cart or the pole leaves its band.
 *
 * `math.sin` and `math.cos` are not modelled: the environment is given two arbitrary
 * functions with values in [-1, 1] and uses them wherever the source calls the library.
 */
module Cartpole {

  const ForceMag: real := 10.0
  const Gravity: real := 9.8
  const MassCart: real := 1.0
  const MassPole: real := 0.1
  const TotalMass: real := MassPole + MassCart
  const Length: real := 0.5
  const PoleMassLength: real := MassPole * Length
  const Tau: real := 0.02

  /** The step cap, and the bands the cart position and the pole angle must stay in. */
  const MaxEpisodeLength: nat := 500
  const XLimit: real := 4.8
  const ThetaLimit: real := 0.42

  /** The half-width of the interval every component of a reset state is drawn from. */
  const ResetSpread: real := 0.05

  /** The two actions: 0 pushes left, 1 pushes right. */
  const ActionSpace: seq<nat> := [0, 1]

  type Unit = r: real | -1.0 <= r <= 1.0

  datatype CartState = CartState(x: real, xDot: real, theta: real, thetaDot: real)

  /** The accelerations of the cart and of the pole angle. */
  datatype Accel = Accel(xAcc: real, thetaAcc: real)

  /** The force of one step: the full force to the right exactly for action 1, else to the left. */
  function Force(action: int): (f: real)
    ensures f == ForceMag <==> action == 1
    ensures f == -ForceMag <==> action != 1
  {
    if action == 1 then ForceMag else -ForceMag
  }

  /** The denominator of the angular acceleration; positive whatever the cosine. */
  function PoleInertia(cosT: Unit): (d: real)
    ensures d > 0.0
  {
    assert cosT * cosT <= 1.0 by {
      if cosT >= 0.0 {
        assert cosT * cosT <= cosT * 1.0;
      } else {
        assert cosT * cosT <= (-cosT) * 1.0;
      }
    }
    Length * (4.0 / 3.0 - MassPole * (cosT * cosT) / TotalMass)
  }

  /** The accelerations under a force, given the sine and cosine of the pole angle. */
  function Accelerations(thetaDot: real, force: real, sinT: real, cosT: Unit): Accel
  {
    var temp := (force + PoleMassLength * (thetaDot * thetaDot) * sinT) / TotalMass;
    var thetaAcc := (Gravity * sinT - cosT * temp) / PoleInertia(cosT);
    Accel(temp - PoleMassLength * thetaAcc * cosT / TotalMass, thetaAcc)
  }

  /**
   * One explicit Euler step: position and angle advance with the velocities from before
   * the step, velocities with the accelerations.
   */
  function Physics(s: CartState, action: int, sinT: real, cosT: Unit): CartState
  {
    var acc := Accelerations(s.thetaDot, Force(action), sinT, cosT);
    CartState(s.x + Tau * s.xDot, s.xDot + Tau * acc.xAcc,
              s.theta + Tau * s.thetaDot, s.thetaDot + Tau * acc.thetaAcc)
  }

  /** The cart is off the track or the pole has fallen. */
  predicate OutOfBand(s: CartState)
  {
    s.x < -XLimit || s.x > XLimit || s.theta < -ThetaLimit || s.theta > ThetaLimit
  }

  predicate InResetRange(s: CartState)
  {
    -ResetSpread <= s.x <= ResetSpread && -ResetSpread <= s.xDot <= ResetSpread &&
    -ResetSpread <= s.theta <= ResetSpread && -ResetSpread <= s.thetaDot <= ResetSpread
  }

  /** The cart-pole reflected through the centre of the track. */
  function Mirror(s: CartState): CartState
  {
    CartState(-s.x, -s.xDot, -s.theta, -s.thetaDot)
  }

  lemma MirrorAccelerations(thetaDot: real, force: real, sinT: real, cosT: Unit)
    ensures Accelerations(-thetaDot, -force, -sinT, cosT).xAcc == -Accelerations(thetaDot, force, sinT, cosT).xAcc
    ensures Accelerations(-thetaDot, -force, -sinT, cosT).thetaAcc == -Accelerations(thetaDot, force, sinT, cosT).thetaAcc
  {
    var temp := (force + PoleMassLength * (thetaDot * thetaDot) * sinT) / TotalMass;
    var temp' := (-force + PoleMassLength * ((-thetaDot) * (-thetaDot)) * (-sinT)) / TotalMass;
    assert temp' == -temp;
    var d := PoleInertia(cosT);
    var thetaAcc := (Gravity * sinT - cosT * temp) / d;
    var thetaAcc' := (Gravity * (-sinT) - cosT * temp') / d;
    assert thetaAcc' == -thetaAcc;
  }

  /**
   * The dynamics are symmetric: the mirror image of a state, pushed the other way with
   * the sine negated (as the sine of the negated angle is), steps to the mirror image
   * of the original step.
   */
  lemma MirrorSymmetry(s: CartState, action: int, sinT: real, cosT: Unit)
    requires action == 0 || action == 1
    ensures Physics(Mirror(s), 1 - action, -sinT, cosT) == Mirror(Physics(s, action, sinT, cosT))
  {
    assert Force(1 - action) == -Force(action);
    MirrorAccelerations(s.thetaDot, Force(action), sinT, cosT);
  }

  /**
   * From rest with the pole upright (sine 0, cosine 1), pushing right speeds the cart up
   * to the right and starts the pole's angle decreasing; position and angle do not move
   * in the first step.
   */
  lemma PushRightFromRest()
    ensures Physics(CartState(0.0, 0.0, 0.0, 0.0), 1, 0.0, 1.0).x == 0.0
    ensures Physics(CartState(0.0, 0.0, 0.0, 0.0), 1, 0.0, 1.0).theta == 0.0
    ensures Physics(CartState(0.0, 0.0, 0.0, 0.0), 1, 0.0, 1.0).xDot > 0.0
    ensures Physics(CartState(0.0, 0.0, 0.0, 0.0), 1, 0.0, 1.0).thetaDot < 0.0
  {
    var d := PoleInertia(1.0);
    var temp := ForceMag / TotalMass;
    assert Accelerations(0.0, ForceMag, 0.0, 1.0).thetaAcc == -temp / d;
    assert -temp / d < 0.0;
    assert Accelerations(0.0, ForceMag, 0.0, 1.0).xAcc == temp + PoleMassLength * (temp / d) / TotalMass;
    assert PoleMassLength * (temp / d) / TotalMass > 0.0;
  }

  /**
   * The cart-pole environment.  `sin` and `cos` stand for the library functions;
   * `reward` is the field reset sets (the step returns its reward rather than storing
   * it); `running` is the base environment's flag, raised by every reset and lowered by
   * the agents when a step reports the end of the episode.
   */
  class CartpoleEnv {
    const sin: real -> Unit
    const cos: real -> Unit
    var state: CartState
    var episodeLength: nat
    var reward: int
    var running: bool

    ghost predicate Valid()
      reads this
    {
      episodeLength <= MaxEpisodeLength
    }

    /** The constructor ends by resetting the environment. */
    constructor (sin: real -> Unit, cos: real -> Unit)
      ensures Valid() && running
      ensures this.sin == sin && this.cos == cos
      ensures InResetRange(state) && episodeLength == 0 && reward == 0
    {
      this.sin := sin;
      this.cos := cos;
      reward := 0;
      episodeLength := 0;
      running := true;
      assert InResetRange(CartState(0.0, 0.0, 0.0, 0.0));
      var drawn :| InResetRange(drawn);
      state := drawn;
    }

    /**
     * Start a new episode: counters to zero and each state component drawn from
     * [-0.05, 0.05]; the new state is returned.
     */
    method Reset() returns (obs: CartState)
      modifies this`state, this`episodeLength, this`reward, this`running
      ensures Valid() && running
      ensures InResetRange(state) && episodeLength == 0 && reward == 0
      ensures obs == state
    {
      running := true;
      reward := 0;
      episodeLength := 0;
      assert InResetRange(CartState(0.0, 0.0, 0.0, 0.0));
      var drawn :| InResetRange(drawn);
      state := drawn;
      obs := state;
    }

    /**
     * The base environment's event handling during rendering: a pending quit request or
     * Escape key, given as `quit`, lowers `running`.  Drawing changes no modelled state.
     */
    method Render(quit: bool)
      modifies this`running
      ensures running <==> old(running) && !quit
    {
      if quit {
        running := false;
      }
    }

    /**
     * Advance one step.  The state always advances.  The step is terminal, with reward 0
     * and the counter untouched, exactly when the cap was already reached or the new
     * state is out of band; otherwise it earns reward 1 and the counter rises by one.
     */
    method Step(action: int) returns (obs: CartState, r: int, done: bool)
      requires Valid()
      modifies this`state, this`episodeLength
      ensures Valid()
      ensures state == Physics(old(state), action, sin(old(state).theta), cos(old(state).theta))
      ensures state.x == old(state).x + Tau * old(state).xDot
      ensures state.theta == old(state).theta + Tau * old(state).thetaDot
      ensures obs == state
      ensures done <==> old(episodeLength) >= MaxEpisodeLength || OutOfBand(state)
      ensures r == (if done then 0 else 1)
      ensures episodeLength == old(episodeLength) + r
    {
      var s := state;
      var force := Force(action);
      var acc := Accelerations(s.thetaDot, force, sin(s.theta), cos(s.theta));
      state := CartState(s.x + Tau * s.xDot, s.xDot + Tau * acc.xAcc,
                         s.theta + Tau * s.thetaDot, s.thetaDot + Tau * acc.thetaAcc);
      obs := state;
      if episodeLength >= MaxEpisodeLength {
        return state, 0, true;
      }
      if state.x < -XLimit || state.x > XLimit {
        return state, 0, true;
      }
      if state.theta < -ThetaLimit || state.theta > ThetaLimit {
        return state, 0, true;
      }
      r := 1;
      episodeLength := episodeLength + 1;
      done := false;
    }
  }
}
