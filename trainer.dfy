/**
 * The Q-learning agent for the cart-pole: epsilon-greedy training episodes that update
 * the table after every step, the greedy evaluation run that only reads the table, and
 * the model object that holds the table and its hyperparameters.
 *
 * The exploration draw and the random action are nondeterministic choices within their
 * ranges; the exponential of the epsilon schedule is a function passed in by the caller.
 */
module Trainer {
  import opened Discretizer
  import opened QLearning
  import opened Cartpole

  datatype Option<T> = None | Some(value: T)

  /** Discretization bounds, bucket counts and training hyperparameters. */
  datatype Config = Config(lower: seq<real>, upper: seq<real>, buckets: seq<nat>,
                           episodes: nat, alpha: real, gamma: real,
                           minEpsilon: real, maxEpsilon: real, decay: real)

  /** The values every cart-pole agent of the repository uses. */
  const CartpoleConfig: Config :=
    Config([-4.8, -3.4, -0.42, -3.4], [4.8, 3.4, 0.42, 3.4], [1, 1, 6, 5],
           501, 0.1, 0.9, 0.1, 1.0, 0.01)

  /** One bound pair and one positive bucket count per observation component, bounds distinct. */
  predicate ValidConfig(c: Config)
  {
    |c.lower| == 4 && |c.upper| == 4 && |c.buckets| == 4 &&
    forall i :: 0 <= i < 4 ==> c.lower[i] != c.upper[i] && c.buckets[i] >= 1
  }

  /** The observation tuple `(x, x_dot, theta, theta_dot)`. */
  function Observe(s: CartState): seq<real>
  {
    [s.x, s.xDot, s.theta, s.thetaDot]
  }

  /** The discretized observation: always a valid index into the table. */
  function StateOf(s: CartState, c: Config): (d: seq<int>)
    requires ValidConfig(c)
    ensures IsState(d, c.buckets)
    ensures forall i :: 0 <= i < 4 ==> d[i] == BucketIndex(Observe(s)[i], c.lower[i], c.upper[i], c.buckets[i])
  {
    Discretize(Observe(s), c.lower, c.upper, c.buckets)
  }

  /**
   * The exploration rate of an episode,
   * `min_epsilon + (max_epsilon - min_epsilon) * exp(-decay * episode)`, with the
   * exponential's value given as `factor`.  For a factor in [0, 1] the rate lies between
   * the two bounds; the first episode (factor 1) explores at the maximum rate.
   */
  function Epsilon(c: Config, factor: real): (e: real)
    ensures 0.0 <= factor <= 1.0 && c.minEpsilon <= c.maxEpsilon ==> c.minEpsilon <= e <= c.maxEpsilon
    ensures factor == 1.0 ==> e == c.maxEpsilon
  {
    ScaleBetween(factor, c.maxEpsilon - c.minEpsilon);
    c.minEpsilon + factor * (c.maxEpsilon - c.minEpsilon)
  }

  /**
   * Epsilon-greedy selection: a draw above epsilon takes the greedy action (first maximal
   * entry of the row); otherwise a random member of the action space.
   */
  method ChooseAction(q: QTable, s: seq<int>, draw: real, epsilon: real) returns (a: nat)
    requires q.Valid() && IsState(s, q.dims) && q.actions == |ActionSpace|
    ensures a < q.actions
    ensures draw > epsilon ==> forall b :: 0 <= b < q.actions ==> q.Get(s, b) <= q.Get(s, a)
    ensures draw > epsilon ==> forall b :: 0 <= b < a ==> q.Get(s, b) < q.Get(s, a)
  {
    if draw > epsilon {
      a := q.GreedyAction(s);
    } else {
      var i :| 0 <= i < |ActionSpace|;
      a := ActionSpace[i];
    }
  }

  /**
   * One training episode, from a freshly reset environment whose discretized state is
   * `start`.  Each step chooses an action, steps the environment, updates the table cell
   * of the state and action just left, and moves on to the new discretized state; the
   * loop ends exactly when a step reports `done`.  The total reward equals the final
   * episode length, and every step but the last earned 1.
   */
  method RunEpisode(q: QTable, env: CartpoleEnv, c: Config, epsilon: real, start: seq<int>)
    returns (total: int, steps: nat)
    requires ValidConfig(c) && q.Valid() && q.dims == c.buckets && q.actions == |ActionSpace|
    requires env.Valid() && env.running && env.episodeLength == 0 && start == StateOf(env.state, c)
    modifies env`state, env`episodeLength, env`running, q.cells
    ensures env.Valid() && !env.running
    ensures total == env.episodeLength && total <= MaxEpisodeLength
    ensures steps == total + 1
  {
    var current := start;
    total := 0;
    steps := 0;
    while env.running
      invariant env.Valid() && current == StateOf(env.state, c)
      invariant total == env.episodeLength
      invariant steps == (if env.running then total else total + 1)
      decreases env.running, MaxEpisodeLength - env.episodeLength
    {
      var draw: real :| 0.0 <= draw <= 1.0;
      var action := ChooseAction(q, current, draw, epsilon);
      var observation, reward, done := env.Step(action);
      var next := StateOf(observation, c);
      total := total + reward;
      q.Update(current, action, reward as real, next, c.alpha, c.gamma);
      current := next;
      steps := steps + 1;
      if done {
        env.running := false;
      }
    }
  }

  /**
   * `train_from_scratch`: a zero table of shape `buckets + (2,)`, then exactly
   * `episodes` episodes, each from a reset environment with that episode's exploration
   * rate.  Returns the table and each episode's total reward.
   */
  method Train(env: CartpoleEnv, c: Config, exp: real -> real) returns (q: QTable, totals: seq<int>)
    requires ValidConfig(c) && env.Valid()
    modifies env`state, env`episodeLength, env`reward, env`running
    ensures fresh(q) && fresh(q.cells) && q.Valid()
    ensures q.dims == c.buckets && q.actions == |ActionSpace|
    ensures |totals| == c.episodes
    ensures forall i :: 0 <= i < |totals| ==> 0 <= totals[i] <= MaxEpisodeLength
    ensures c.episodes == 0 ==> forall k :: 0 <= k < q.cells.Length ==> q.cells[k] == 0.0
    ensures env.Valid() && (c.episodes > 0 ==> !env.running)
  {
    q := new QTable.Zeros(c.buckets, |ActionSpace|);
    totals := [];
    var episode := 0;
    while episode < c.episodes
      invariant 0 <= episode <= c.episodes && |totals| == episode
      invariant forall i :: 0 <= i < |totals| ==> 0 <= totals[i] <= MaxEpisodeLength
      invariant fresh(q) && fresh(q.cells) && q.Valid()
      invariant q.dims == c.buckets && q.actions == |ActionSpace|
      invariant episode == 0 ==> forall k :: 0 <= k < q.cells.Length ==> q.cells[k] == 0.0
      invariant env.Valid() && (episode > 0 ==> !env.running)
    {
      var observation := env.Reset();
      var current := StateOf(observation, c);
      var epsilon := Epsilon(c, exp(-c.decay * episode as real));
      var total, _ := RunEpisode(q, env, c, epsilon, current);
      totals := totals + [total];
      episode := episode + 1;
    }
  }

  /** A quit request is pending when pass `i` renders. */
  predicate QuitAt(quits: seq<bool>, i: nat)
  {
    i < |quits| && quits[i]
  }

  /**
   * The pass count of the watching loop against the quit requests and the total reward.
   * No request was pending before the last pass.  While the loop runs, every pass earned
   * 1 and none met a request; once it stopped, either the last step reported `done` (one
   * pass more than the reward) or a request was pending at the last pass.
   */
  predicate PassesSoFar(quits: seq<bool>, running: bool, steps: nat, total: int)
  {
    (forall i :: 0 <= i < steps - 1 ==> !QuitAt(quits, i)) &&
    (running ==> steps == total && (steps == 0 || !QuitAt(quits, steps - 1))) &&
    (!running ==> steps >= 1 && (steps == total + 1 || (steps == total && QuitAt(quits, steps - 1))))
  }

  /** One more pass, which earns 1 unless its step reports `done`, keeps the count. */
  lemma PassStep(quits: seq<bool>, steps: nat, total: int, done: bool)
    requires PassesSoFar(quits, true, steps, total)
    ensures PassesSoFar(quits, !QuitAt(quits, steps) && !done, steps + 1, total + (if done then 0 else 1))
  {
  }

  /**
   * A greedy trajectory under a fixed table: `trace` holds the state before each pass and
   * the final state, `acts` the action of each pass.  Every action is the argmax of the
   * table's row for the discretized state it was chosen in, and every state is the physics
   * step of the one before it under that action.
   */
  ghost predicate GreedyTrajectory(table: seq<real>, c: Config, sin: real -> Unit, cos: real -> Unit,
                                   trace: seq<CartState>, acts: seq<nat>)
    requires ValidConfig(c) && |table| == Size(c.buckets) * |ActionSpace|
    decreases |acts|
  {
    |trace| == |acts| + 1 &&
    (|acts| > 0 ==>
      var n := |acts| - 1;
      GreedyTrajectory(table, c, sin, cos, trace[..n + 1], acts[..n]) &&
      IsArgmax(RowOf(table, StateOf(trace[n], c), c.buckets, |ActionSpace|), acts[n]) &&
      trace[n + 1] == Physics(trace[n], acts[n], sin(trace[n].theta), cos(trace[n].theta)))
  }

  /** A greedy step from the last state of a greedy trajectory extends it. */
  lemma {:induction false} ExtendTrajectory(table: seq<real>, c: Config, sin: real -> Unit, cos: real -> Unit,
                                            trace: seq<CartState>, acts: seq<nat>, a: nat, next: CartState)
    requires ValidConfig(c) && |table| == Size(c.buckets) * |ActionSpace|
    requires GreedyTrajectory(table, c, sin, cos, trace, acts)
    requires IsArgmax(RowOf(table, StateOf(trace[|acts|], c), c.buckets, |ActionSpace|), a)
    requires next == Physics(trace[|acts|], a, sin(trace[|acts|].theta), cos(trace[|acts|].theta))
    ensures GreedyTrajectory(table, c, sin, cos, trace + [next], acts + [a])
  {
    assert (trace + [next])[..|acts| + 1] == trace;
    assert (acts + [a])[..|acts|] == acts;
  }

  /** Every action of a greedy trajectory is the argmax of its state's row, and every state its predecessor's physics step. */
  lemma {:induction false} TrajectoryStep(table: seq<real>, c: Config, sin: real -> Unit, cos: real -> Unit,
                                          trace: seq<CartState>, acts: seq<nat>, j: nat)
    requires ValidConfig(c) && |table| == Size(c.buckets) * |ActionSpace|
    requires GreedyTrajectory(table, c, sin, cos, trace, acts) && j < |acts|
    ensures IsArgmax(RowOf(table, StateOf(trace[j], c), c.buckets, |ActionSpace|), acts[j])
    ensures trace[j + 1] == Physics(trace[j], acts[j], sin(trace[j].theta), cos(trace[j].theta))
    decreases |acts|
  {
    var n := |acts| - 1;
    if j < n {
      TrajectoryStep(table, c, sin, cos, trace[..n + 1], acts[..n], j);
    }
  }

  /**
   * `watch_trained_model`: one episode from a reset environment, always taking the greedy
   * action.  Each pass first renders, and a quit request pending at pass `i` lowers
   * `running`, so that pass is the last; otherwise the episode stops on `done`.  It
   * returns the total reward and the number of passes, and never writes the table.
   */
  method Watch(q: QTable, env: CartpoleEnv, c: Config, quits: seq<bool>)
    returns (total: int, steps: nat, ghost trace: seq<CartState>, ghost acts: seq<nat>)
    requires ValidConfig(c) && q.Valid() && q.dims == c.buckets && q.actions == |ActionSpace|
    requires env.Valid()
    modifies env`state, env`episodeLength, env`reward, env`running
    ensures env.Valid() && !env.running
    ensures q.cells[..] == old(q.cells[..])
    ensures total == env.episodeLength && 0 <= total <= MaxEpisodeLength
    ensures GreedyTrajectory(q.cells[..], c, env.sin, env.cos, trace, acts) && |acts| == steps
    ensures InResetRange(trace[0]) && trace[steps] == env.state
    ensures PassesSoFar(quits, false, steps, total)
  {
    var observation := env.Reset();
    total, steps, trace, acts := WatchPasses(q, env, c, quits, StateOf(observation, c), q.cells[..]);
  }

  /**
   * The watching loop itself, from an environment just reset to the state `trace[0]`
   * whose discretized state is `start`: passes until `running` is lowered.
   */
  method WatchPasses(q: QTable, env: CartpoleEnv, c: Config, quits: seq<bool>, start: seq<int>, ghost table: seq<real>)
    returns (total: int, steps: nat, ghost trace: seq<CartState>, ghost acts: seq<nat>)
    requires ValidConfig(c) && q.Valid() && q.dims == c.buckets && q.actions == |ActionSpace|
    requires env.Valid() && env.running && env.episodeLength == 0 && start == StateOf(env.state, c)
    requires table == q.cells[..]
    modifies env`state, env`episodeLength, env`running
    ensures env.Valid() && !env.running
    ensures total == env.episodeLength && 0 <= total <= MaxEpisodeLength
    ensures GreedyTrajectory(table, c, env.sin, env.cos, trace, acts) && |acts| == steps
    ensures trace[0] == old(env.state) && trace[steps] == env.state
    ensures PassesSoFar(quits, false, steps, total)
  {
    var current := start;
    total := 0;
    steps := 0;
    trace := [env.state];
    acts := [];
    while env.running
      invariant env.Valid() && current == StateOf(env.state, c)
      invariant total == env.episodeLength
      invariant GreedyTrajectory(table, c, env.sin, env.cos, trace, acts) && |acts| == steps
      invariant trace[0] == old(env.state) && trace[steps] == env.state
      invariant PassesSoFar(quits, env.running, steps, total)
      decreases env.running, MaxEpisodeLength - env.episodeLength
    {
      var reward, done;
      current, reward, done, trace, acts := WatchPass(q, env, c, current, QuitAt(quits, steps), table, trace, acts);
      PassStep(quits, steps, total, done);
      total := total + reward;
      steps := steps + 1;
    }
  }

  /**
   * One pass of the watching loop: render (a pending quit request lowers `running`), take
   * the argmax action of the current discretized state, step, discretize the new
   * observation, and lower `running` when the step reports `done`.  The trajectory so far
   * is extended by the greedy action and the new state.
   */
  method WatchPass(q: QTable, env: CartpoleEnv, c: Config, current: seq<int>, quit: bool,
                   ghost table: seq<real>, ghost trace: seq<CartState>, ghost acts: seq<nat>)
    returns (next: seq<int>, reward: int, done: bool, ghost trace': seq<CartState>, ghost acts': seq<nat>)
    requires ValidConfig(c) && q.Valid() && q.dims == c.buckets && q.actions == |ActionSpace|
    requires env.Valid() && current == StateOf(env.state, c) && table == q.cells[..]
    requires GreedyTrajectory(table, c, env.sin, env.cos, trace, acts) && trace[|acts|] == env.state
    modifies env`state, env`episodeLength, env`running
    ensures env.Valid() && next == StateOf(env.state, c)
    ensures GreedyTrajectory(table, c, env.sin, env.cos, trace', acts')
    ensures |acts'| == |acts| + 1 && trace' == trace + [env.state]
    ensures reward == (if done then 0 else 1) && env.episodeLength == old(env.episodeLength) + reward
    ensures done <==> old(env.episodeLength) >= MaxEpisodeLength || OutOfBand(env.state)
    ensures env.running <==> old(env.running) && !quit && !done
  {
    env.Render(quit);
    var a := q.GreedyAction(current);
    var observation;
    observation, reward, done := env.Step(a);
    next := StateOf(observation, c);
    ExtendTrajectory(table, c, env.sin, env.cos, trace, acts, a, observation);
    trace' := trace + [observation];
    acts' := acts + [a];
    if done {
      env.running := false;
    }
  }

  /**
   * A model: a name, its environment, the table (absent until trained) and the
   * discretization and training settings (each absent until set).
   */
  class Mdl {
    const name: string
    const env: CartpoleEnv
    var qTable: QTable?
    var upperBounds: Option<seq<real>>
    var lowerBounds: Option<seq<real>>
    var buckets: Option<seq<nat>>
    var episodes: Option<nat>
    var alpha: Option<real>
    var gamma: Option<real>
    var minEpsilon: Option<real>
    var maxEpsilon: Option<real>
    var decay: Option<real>

    /** The settings gathered into one value, once every one of them is set. */
    function Settings(): (r: Option<Config>)
      reads this
      ensures r.Some? <==> upperBounds.Some? && lowerBounds.Some? && buckets.Some? &&
                           episodes.Some? && alpha.Some? && gamma.Some? &&
                           minEpsilon.Some? && maxEpsilon.Some? && decay.Some?
    {
      if upperBounds.Some? && lowerBounds.Some? && buckets.Some? && episodes.Some? &&
         alpha.Some? && gamma.Some? && minEpsilon.Some? && maxEpsilon.Some? && decay.Some?
      then Some(Config(lowerBounds.value, upperBounds.value, buckets.value, episodes.value,
                       alpha.value, gamma.value, minEpsilon.value, maxEpsilon.value, decay.value))
      else None
    }

    /** A new model has no table and no settings. */
    constructor (name: string, env: CartpoleEnv)
      ensures this.name == name && this.env == env
      ensures qTable == null && Settings() == None
      ensures upperBounds == None && lowerBounds == None && buckets == None
      ensures episodes == None && alpha == None && gamma == None
      ensures minEpsilon == None && maxEpsilon == None && decay == None
    {
      this.name := name;
      this.env := env;
      qTable := null;
      upperBounds := None;
      lowerBounds := None;
      buckets := None;
      episodes := None;
      alpha := None;
      gamma := None;
      minEpsilon := None;
      maxEpsilon := None;
      decay := None;
    }

    /** The cart-pole model: the base model with the cart-pole settings filled in. */
    constructor Cartpole(name: string, env: CartpoleEnv)
      ensures this.name == name && this.env == env
      ensures qTable == null && Settings() == Some(CartpoleConfig)
    {
      this.name := name;
      this.env := env;
      qTable := null;
      upperBounds := Some([4.8, 3.4, 0.42, 3.4]);
      lowerBounds := Some([-4.8, -3.4, -0.42, -3.4]);
      buckets := Some([1, 1, 6, 5]);
      episodes := Some(501);
      alpha := Some(0.1);
      gamma := Some(0.9);
      minEpsilon := Some(0.1);
      maxEpsilon := Some(1.0);
      decay := Some(0.01);
    }

    /** Train a new table from zeros with the model's settings and keep it. */
    method TrainFromScratch(exp: real -> real)
      requires Settings().Some? && ValidConfig(Settings().value) && env.Valid()
      modifies this`qTable, env`state, env`episodeLength, env`reward, env`running
      ensures qTable != null && fresh(qTable) && qTable.Valid()
      ensures qTable.dims == old(Settings()).value.buckets && qTable.actions == |ActionSpace|
      ensures env.Valid()
    {
      var c := Settings().value;
      var q, _ := Train(env, c, exp);
      qTable := q;
    }

    /**
     * Watch the trained table play one greedy episode, ended by `done` or by a quit
     * request while rendering; the table is left as it was.
     */
    method WatchTrainedModel(quits: seq<bool>)
      returns (total: int, steps: nat, ghost trace: seq<CartState>, ghost acts: seq<nat>)
      requires Settings().Some? && ValidConfig(Settings().value) && env.Valid()
      requires qTable != null && qTable.Valid()
      requires qTable.dims == Settings().value.buckets && qTable.actions == |ActionSpace|
      modifies env`state, env`episodeLength, env`reward, env`running
      ensures 0 <= total <= MaxEpisodeLength && !env.running
      ensures qTable.cells[..] == old(qTable.cells[..])
      ensures GreedyTrajectory(qTable.cells[..], Settings().value, env.sin, env.cos, trace, acts) && |acts| == steps
      ensures InResetRange(trace[0]) && trace[steps] == env.state
      ensures PassesSoFar(quits, false, steps, total)
    {
      total, steps, trace, acts := Watch(qTable, env, Settings().value, quits);
    }
  }
}
