/**
 * The tabular Q-learning table: a dense array shaped `buckets + (actions,)`, stored in
 * row-major (C) order like the numpy array it models, with greedy action selection
 * (`np.argmax` of a row, first index winning ties) and the temporal-difference update
 * that rewrites exactly one cell in place.
 */
module QLearning {

  /** Number of discretized states of a table with the given bucket counts. */
  function Size(dims: seq<nat>): nat
  {
    if |dims| == 0 then 1 else Size(dims[..|dims| - 1]) * dims[|dims| - 1]
  }

  /** A discretized state: one in-range bucket index per dimension. */
  predicate IsState(s: seq<int>, dims: seq<nat>)
  {
    |s| == |dims| && forall i :: 0 <= i < |s| ==> 0 <= s[i] < dims[i]
  }

  lemma MixedRadixBound(f: nat, size: nat, d: nat, x: int)
    requires f < size && 0 <= x < d
    ensures f * d + x < size * d
  {
    assert (size - f - 1) * d >= 0;
    assert size * d - f * d - d == (size - f - 1) * d;
  }

  lemma RowFits(f: nat, size: nat, d: nat)
    requires f < size
    ensures f * d + d <= size * d
  {
    assert (size - f - 1) * d >= 0;
    assert size * d - f * d - d == (size - f - 1) * d;
  }

  lemma MixedRadixUnique(f1: nat, x1: int, f2: nat, x2: int, d: nat)
    requires 0 <= x1 < d && 0 <= x2 < d
    requires f1 * d + x1 == f2 * d + x2
    ensures f1 == f2 && x1 == x2
  {
    if f1 < f2 {
      MixedRadixBound(f1, f2, d, x1);
      assert false;
    } else if f2 < f1 {
      MixedRadixBound(f2, f1, d, x2);
      assert false;
    }
  }

  /** Row-major position of a state among all states of the table. */
  function Flat(s: seq<int>, dims: seq<nat>): (k: nat)
    requires IsState(s, dims)
    ensures k < Size(dims)
    decreases |s|
  {
    if |s| == 0 then 0
    else
      var n := |s| - 1;
      assert IsState(s[..n], dims[..n]);
      var f := Flat(s[..n], dims[..n]);
      MixedRadixBound(f, Size(dims[..n]), dims[n], s[n]);
      f * dims[n] + s[n]
  }

  /** Distinct states occupy distinct positions. */
  lemma {:induction false} FlatInjective(s: seq<int>, t: seq<int>, dims: seq<nat>)
    requires IsState(s, dims) && IsState(t, dims)
    requires Flat(s, dims) == Flat(t, dims)
    ensures s == t
    decreases |s|
  {
    if |s| > 0 {
      var n := |s| - 1;
      assert IsState(s[..n], dims[..n]) && IsState(t[..n], dims[..n]);
      MixedRadixUnique(Flat(s[..n], dims[..n]), s[n], Flat(t[..n], dims[..n]), t[n], dims[n]);
      FlatInjective(s[..n], t[..n], dims[..n]);
      assert s == s[..n] + [s[n]];
      assert t == t[..n] + [t[n]];
    }
  }

  /** Position of the cell `q_table[s][a]` in the flattened table. */
  function Cell(s: seq<int>, dims: seq<nat>, actions: nat, a: int): (k: nat)
    requires IsState(s, dims) && 0 <= a < actions
    ensures k < Size(dims) * actions
  {
    MixedRadixBound(Flat(s, dims), Size(dims), actions, a);
    Flat(s, dims) * actions + a
  }

  /** Distinct (state, action) pairs occupy distinct cells. */
  lemma CellInjective(s: seq<int>, a: int, t: seq<int>, b: int, dims: seq<nat>, actions: nat)
    requires IsState(s, dims) && IsState(t, dims) && 0 <= a < actions && 0 <= b < actions
    requires Cell(s, dims, actions, a) == Cell(t, dims, actions, b)
    ensures s == t && a == b
  {
    MixedRadixUnique(Flat(s, dims), a, Flat(t, dims), b, actions);
    FlatInjective(s, t, dims);
  }

  /** The row of state `s` in a flattened table: the values of its actions in order. */
  function RowOf(table: seq<real>, s: seq<int>, dims: seq<nat>, actions: nat): (r: seq<real>)
    requires IsState(s, dims) && |table| == Size(dims) * actions
    ensures |r| == actions
    ensures forall b :: 0 <= b < actions ==> r[b] == table[Cell(s, dims, actions, b)]
  {
    var start := Flat(s, dims) * actions;
    RowFits(Flat(s, dims), Size(dims), actions);
    table[start..start + actions]
  }

  /** `np.argmax(row)`: `a` holds a maximal entry and every earlier entry is strictly smaller. */
  predicate IsArgmax(row: seq<real>, a: nat)
  {
    a < |row| &&
    (forall b :: 0 <= b < |row| ==> row[b] <= row[a]) &&
    (forall b :: 0 <= b < a ==> row[b] < row[a])
  }

  /** `np.max(row)`: the largest entry of a non-empty row. */
  function Max(row: seq<real>): (m: real)
    requires |row| > 0
    ensures exists i :: 0 <= i < |row| && row[i] == m
    ensures forall i :: 0 <= i < |row| ==> row[i] <= m
  {
    if |row| == 1 then row[0]
    else
      var n := |row| - 1;
      var m := Max(row[..n]);
      assert forall i :: 0 <= i < n ==> row[..n][i] == row[i];
      if row[n] > m then row[n] else m
  }

  /**
   * The temporal-difference update of one value:
   * `q + alpha * (reward + gamma * maxNext - q)`.  With a learning rate in [0, 1] the
   * new value lies between the old value and the target `reward + gamma * maxNext`;
   * with no discount it is the alpha-weighted average of the old value and the reward.
   */
  function TdUpdate(q: real, alpha: real, reward: real, gamma: real, maxNext: real): (r: real)
    ensures 0.0 <= alpha <= 1.0 && q <= Target(reward, gamma, maxNext) ==> q <= r <= Target(reward, gamma, maxNext)
    ensures 0.0 <= alpha <= 1.0 && Target(reward, gamma, maxNext) <= q ==> Target(reward, gamma, maxNext) <= r <= q
    ensures gamma == 0.0 ==> r == (1.0 - alpha) * q + alpha * reward
    ensures alpha == 0.0 ==> r == q
  {
    var d := Target(reward, gamma, maxNext) - q;
    ScaleBetween(alpha, d);
    assert gamma == 0.0 ==> q + alpha * d == (1.0 - alpha) * q + alpha * reward by {
      if gamma == 0.0 {
        assert d == reward - q;
        assert alpha * d == alpha * reward - alpha * q;
      }
    }
    q + alpha * d
  }

  /** The value the update moves towards: `reward + gamma * maxNext`. */
  function Target(reward: real, gamma: real, maxNext: real): real
  {
    reward + gamma * maxNext
  }

  /** A fraction in [0, 1] of a difference lies between zero and that difference. */
  lemma ScaleBetween(alpha: real, d: real)
    ensures 0.0 <= alpha <= 1.0 && d >= 0.0 ==> 0.0 <= alpha * d <= d
    ensures 0.0 <= alpha <= 1.0 && d <= 0.0 ==> d <= alpha * d <= 0.0
  {
    assert d - alpha * d == (1.0 - alpha) * d;
  }

  /** The Q-table: `dims` are the bucket counts, `actions` the size of the action space. */
  class QTable {
    const dims: seq<nat>
    const actions: nat
    const cells: array<real>

    ghost predicate Valid()
      reads this
    {
      cells.Length == Size(dims) * actions
    }

    /** `np.zeros(buckets + (actions,))`. */
    constructor Zeros(dims: seq<nat>, actions: nat)
      ensures Valid() && fresh(cells)
      ensures this.dims == dims && this.actions == actions
      ensures forall k :: 0 <= k < cells.Length ==> cells[k] == 0.0
      ensures forall s, a :: IsState(s, dims) && 0 <= a < actions ==> Get(s, a) == 0.0
    {
      this.dims := dims;
      this.actions := actions;
      cells := new real[Size(dims) * actions](_ => 0.0);
    }

    /** `q_table[s][a]`. */
    function Get(s: seq<int>, a: int): real
      reads this, cells
      requires Valid() && IsState(s, dims) && 0 <= a < actions
    {
      cells[Cell(s, dims, actions, a)]
    }

    /** The row `q_table[s]`: one value per action. */
    function Row(s: seq<int>): (r: seq<real>)
      reads this, cells
      requires Valid() && IsState(s, dims)
      ensures |r| == actions
      ensures forall b :: 0 <= b < actions ==> r[b] == Get(s, b)
    {
      RowOf(cells[..], s, dims, actions)
    }

    /**
     * `np.argmax(q_table[s])`: an action of maximal value, the first one when several
     * share the maximum.
     */
    method GreedyAction(s: seq<int>) returns (a: nat)
      requires Valid() && IsState(s, dims) && actions > 0
      ensures a < actions
      ensures forall b :: 0 <= b < actions ==> Get(s, b) <= Get(s, a)
      ensures forall b :: 0 <= b < a ==> Get(s, b) < Get(s, a)
      ensures Get(s, a) == Max(Row(s))
      ensures IsArgmax(Row(s), a)
    {
      a := 0;
      var i := 1;
      while i < actions
        invariant 1 <= i <= actions && a < i
        invariant forall b :: 0 <= b < i ==> Get(s, b) <= Get(s, a)
        invariant forall b :: 0 <= b < a ==> Get(s, b) < Get(s, a)
      {
        if Get(s, i) > Get(s, a) {
          a := i;
        }
        i := i + 1;
      }
      var row := Row(s);
      var j :| 0 <= j < |row| && row[j] == Max(row);
      assert row[j] <= row[a] && row[a] <= Max(row);
    }

    /**
     * One learning step:
     * `q_table[s][a] += alpha * (reward + gamma * np.max(q_table[next]) - q_table[s][a])`.
     * Every other cell keeps its value.
     */
    method Update(s: seq<int>, a: int, reward: real, next: seq<int>, alpha: real, gamma: real)
      requires Valid() && IsState(s, dims) && IsState(next, dims) && 0 <= a < actions
      modifies cells
      ensures Get(s, a) == TdUpdate(old(Get(s, a)), alpha, reward, gamma, Max(old(Row(next))))
      ensures forall t, b :: IsState(t, dims) && 0 <= b < actions && (t != s || b != a) ==>
                Get(t, b) == old(Get(t, b))
    {
      var best := GreedyAction(next);
      var maxNext := Get(next, best);
      var k := Cell(s, dims, actions, a);
      cells[k] := TdUpdate(cells[k], alpha, reward, gamma, maxNext);
      forall t, b | IsState(t, dims) && 0 <= b < actions && (t != s || b != a)
        ensures Get(t, b) == old(Get(t, b))
      {
        if Cell(t, dims, actions, b) == k {
          CellInjective(t, b, s, a, dims, actions);
        }
      }
    }
  }
}
