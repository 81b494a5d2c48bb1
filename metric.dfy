/** The tracking-error recorder of utils/metric.py: at every step it stores
    the element-wise absolute formation error `|x_i − f_i − x_0|` of all
    followers, stacked into one `4N` vector, together with its mean and its
    maximum. */
module Metric {
  import opened Wrappers
  import opened LinAlg
  import opened Agents

  /** `|x_i − f_i − x_0|` for every follower, stacked agent by agent into `4N` entries. */
  function AbsErrors(agents: seq<AgentView>, x0: Vector): (e: Vector)
    requires AllWellShaped(agents) && |x0| == 4
    ensures |e| == 4 * |agents|
  {
    var ws := seq(|agents|, j requires 0 <= j < |agents| => Abs(Sub(Deviation(agents[j]), x0)));
    FlattenLength(ws, 4);
    Flatten(ws)
  }

  /** numpy's `np.mean`: the entries sum to `|v|` times the mean. */
  function Mean(v: Vector): (m: real)
    requires |v| > 0
    ensures (|v| as real) * m == Sum(v)
  {
    Sum(v) / (|v| as real)
  }

  /** numpy's `np.max`: it bounds every entry and is one of them. */
  function Max(v: Vector): (m: real)
    requires |v| > 0
    ensures forall k :: 0 <= k < |v| ==> v[k] <= m
    ensures exists k :: 0 <= k < |v| && v[k] == m
    decreases |v|
  {
    if |v| == 1 then v[0]
    else
      var n := |v| - 1;
      var p := Max(v[..n]);
      assert forall k :: 0 <= k < n ==> v[..n][k] == v[k];
      if v[n] > p then v[n] else p
  }

  class ErrorTracker {
    var eAbsHist: seq<Vector>
    var eAbsMean: seq<real>
    var eAbsMax: seq<real>

    /** The three histories have one entry per step, and entry `k` of the
        mean and max histories summarises entry `k` of the error history. */
    predicate Valid()
      reads this
    {
      |eAbsMean| == |eAbsHist| && |eAbsMax| == |eAbsHist| &&
      forall k :: 0 <= k < |eAbsHist| ==>
        |eAbsHist[k]| > 0 && eAbsMean[k] == Mean(eAbsHist[k]) && eAbsMax[k] == Max(eAbsHist[k])
    }

    /** `ErrorTracker()`: all three histories start empty. */
    constructor ()
      ensures Valid()
      ensures eAbsHist == [] && eAbsMean == [] && eAbsMax == []
    {
      eAbsHist := [];
      eAbsMean := [];
      eAbsMax := [];
    }

    /** `step(agents, leader_state)`: `reshape(4, 1)` of a leader state without
        four entries and `vstack` of no followers raise `ValueError` before
        anything is recorded; otherwise one entry is appended to each history. */
    method Step(agents: seq<AgentView>, leaderState: Vector) returns (r: Result<()>)
      requires Valid() && AllWellShaped(agents)
      modifies this
      ensures Valid()
      ensures r.Err? <==> |leaderState| != 4 || |agents| == 0
      ensures r.Err? ==>
        && r.error == ShapeMismatch
        && eAbsHist == old(eAbsHist) && eAbsMean == old(eAbsMean) && eAbsMax == old(eAbsMax)
      ensures r.Ok? ==>
        && |AbsErrors(agents, leaderState)| == 4 * |agents|
        && eAbsHist == old(eAbsHist) + [AbsErrors(agents, leaderState)]
        && eAbsMean == old(eAbsMean) + [Mean(AbsErrors(agents, leaderState))]
        && eAbsMax == old(eAbsMax) + [Max(AbsErrors(agents, leaderState))]
    {
      if |leaderState| != 4 {
        return Err(ShapeMismatch);
      }
      if |agents| == 0 {
        return Err(ShapeMismatch);
      }
      var x0 := leaderState;
      var eFlat := AbsErrors(agents, x0);
      eAbsHist := eAbsHist + [eFlat];
      eAbsMean := eAbsMean + [Mean(eFlat)];
      eAbsMax := eAbsMax + [Max(eFlat)];
      return Ok(());
    }

    /** `get_history()`: one recorded error vector per step. */
    function GetHistory(): (h: seq<Vector>)
      reads this
      requires Valid()
      ensures |h| == |eAbsMean| == |eAbsMax|
      ensures forall k :: 0 <= k < |h| ==> h[k] == eAbsHist[k] && |h[k]| > 0
    {
      eAbsHist
    }

    /** `get_mean_history()`: the mean of each recorded error vector. */
    function GetMeanHistory(): (m: seq<real>)
      reads this
      requires Valid()
      ensures |m| == |eAbsHist|
      ensures forall k :: 0 <= k < |m| ==> m[k] == Mean(eAbsHist[k])
    {
      eAbsMean
    }

    /** `get_max_history()`: the maximum of each recorded error vector. */
    function GetMaxHistory(): (m: seq<real>)
      reads this
      requires Valid()
      ensures |m| == |eAbsHist|
      ensures forall k :: 0 <= k < |m| ==> m[k] == Max(eAbsHist[k])
    {
      eAbsMax
    }
  }

  // ------------------------------------------------------------------ lemmas

  /** Entry `4j + c` of the recorded vector is `|x_j[c] − f_j[c] − x_0[c]|`. */
  lemma {:induction false} AbsErrorsEntry(agents: seq<AgentView>, x0: Vector, j: nat, c: nat)
    requires AllWellShaped(agents) && |x0| == 4 && j < |agents| && c < 4
    ensures |AbsErrors(agents, x0)| == 4 * |agents| && 4 * j + c < 4 * |agents|
    ensures var d := agents[j].state[c] - agents[j].f[c] - x0[c];
      AbsErrors(agents, x0)[4 * j + c] == if d < 0.0 then -d else d
  {
    var ws := seq(|agents|, j requires 0 <= j < |agents| => Abs(Sub(Deviation(agents[j]), x0)));
    FlattenIndex(ws, 4, j, c);
  }

  predicate AllZero(v: Vector) {
    forall k :: 0 <= k < |v| ==> v[k] == 0.0
  }

  lemma {:induction false} AllZeroConcat(u: Vector, v: Vector)
    ensures AllZero(u + v) <==> AllZero(u) && AllZero(v)
  {
    if AllZero(u + v) {
      assert forall k :: 0 <= k < |u| ==> u[k] == (u + v)[k];
      assert forall k :: 0 <= k < |v| ==> v[k] == (u + v)[|u| + k];
    }
  }

  /** A stack of blocks is all zero exactly when every block is. */
  lemma {:induction false} FlattenAllZero(ws: seq<Vector>)
    ensures AllZero(Flatten(ws)) <==> forall j :: 0 <= j < |ws| ==> AllZero(ws[j])
    decreases |ws|
  {
    if |ws| > 0 {
      var n := |ws| - 1;
      FlattenAllZero(ws[..n]);
      assert Flatten(ws) == Flatten(ws[..n]) + ws[n];
      AllZeroConcat(Flatten(ws[..n]), ws[n]);
      assert forall j :: 0 <= j < n ==> ws[..n][j] == ws[j];
    }
  }

  /** Every recorded entry is non-negative. */
  lemma {:induction false} AbsErrorsNonNegative(agents: seq<AgentView>, x0: Vector)
    requires AllWellShaped(agents) && |x0| == 4
    ensures forall k :: 0 <= k < |AbsErrors(agents, x0)| ==> AbsErrors(agents, x0)[k] >= 0.0
  {
    var ws := seq(|agents|, j requires 0 <= j < |agents| => Abs(Sub(Deviation(agents[j]), x0)));
    FlattenNonNegative(ws);
  }

  lemma {:induction false} FlattenNonNegative(ws: seq<Vector>)
    requires forall j, c :: 0 <= j < |ws| && 0 <= c < |ws[j]| ==> ws[j][c] >= 0.0
    ensures forall k :: 0 <= k < |Flatten(ws)| ==> Flatten(ws)[k] >= 0.0
    decreases |ws|
  {
    if |ws| > 0 {
      var n := |ws| - 1;
      FlattenNonNegative(ws[..n]);
      assert Flatten(ws) == Flatten(ws[..n]) + ws[n];
    }
  }

  /** All recorded entries are zero exactly when every follower is at its
      formation slot, `x_i = f_i + x_0`. */
  lemma {:induction false} ZeroErrorIffInFormation(agents: seq<AgentView>, x0: Vector)
    requires AllWellShaped(agents) && |x0| == 4
    ensures AllZero(AbsErrors(agents, x0)) <==> forall j :: 0 <= j < |agents| ==> agents[j].state == Add(agents[j].f, x0)
  {
    var ws := seq(|agents|, j requires 0 <= j < |agents| => Abs(Sub(Deviation(agents[j]), x0)));
    FlattenAllZero(ws);
    forall j | 0 <= j < |agents|
      ensures AllZero(ws[j]) <==> agents[j].state == Add(agents[j].f, x0)
    {
      BlockZeroIffAtSlot(agents[j], x0);
    }
  }

  /** One follower's block of the error vector is zero exactly when `x = f + x_0`. */
  lemma {:induction false} BlockZeroIffAtSlot(a: AgentView, x0: Vector)
    requires WellShaped(a) && |x0| == 4
    ensures AllZero(Abs(Sub(Deviation(a), x0))) <==> a.state == Add(a.f, x0)
  {
    var b := Abs(Sub(Deviation(a), x0));
    if AllZero(b) {
      assert forall c :: 0 <= c < 4 ==> a.state[c] == Add(a.f, x0)[c];
    }
  }

  /** A sum of `|v|` entries in `[0, m]` lies in `[0, |v|·m]`. */
  lemma {:induction false} SumWithin(v: Vector, m: real)
    requires forall k :: 0 <= k < |v| ==> 0.0 <= v[k] <= m
    ensures 0.0 <= Sum(v) <= (|v| as real) * m
    decreases |v|
  {
    if |v| > 0 {
      var n := |v| - 1;
      assert forall k :: 0 <= k < n ==> v[..n][k] == v[k];
      SumWithin(v[..n], m);
    }
  }

  /** For non-negative entries, `0 ≤ mean ≤ max`. */
  lemma {:induction false} MeanWithinMax(v: Vector)
    requires |v| > 0 && forall k :: 0 <= k < |v| ==> v[k] >= 0.0
    ensures 0.0 <= Mean(v) <= Max(v)
  {
    SumWithin(v, Max(v));
    AverageWithin(|v| as real, Sum(v), Mean(v), Max(v));
  }

  /** A total `s` in `[0, n·m]` of `n > 0` entries has its average in `[0, m]`. */
  lemma {:induction false} AverageWithin(n: real, s: real, mean: real, m: real)
    requires n > 0.0 && 0.0 <= s <= n * m && n * mean == s
    ensures 0.0 <= mean <= m
  {
  }

  /** What one step records: the mean and max of the error vector satisfy
      `0 ≤ mean ≤ max`, the max is attained, and it is zero exactly in formation. */
  lemma {:induction false} RecordedSummaries(agents: seq<AgentView>, x0: Vector)
    requires AllWellShaped(agents) && |x0| == 4 && |agents| > 0
    ensures |AbsErrors(agents, x0)| == 4 * |agents|
    ensures 0.0 <= Mean(AbsErrors(agents, x0)) <= Max(AbsErrors(agents, x0))
    ensures Max(AbsErrors(agents, x0)) == 0.0
        <==> (forall j :: 0 <= j < |agents| ==> agents[j].state == Add(agents[j].f, x0))
  {
    var e := AbsErrors(agents, x0);
    AbsErrorsNonNegative(agents, x0);
    MeanWithinMax(e);
    ZeroErrorIffInFormation(agents, x0);
  }

  /** Stepping with a valid leader state and a follower list leaves the three
      histories one longer and of equal length. */
  method TrackSteps(tracker: ErrorTracker, agents: seq<AgentView>, leaderState: Vector, steps: nat)
    requires tracker.Valid() && AllWellShaped(agents) && |leaderState| == 4 && |agents| > 0
    modifies tracker
    ensures tracker.Valid()
    ensures |tracker.eAbsHist| == |old(tracker.eAbsHist)| + steps
    ensures |tracker.eAbsMean| == |tracker.eAbsHist| && |tracker.eAbsMax| == |tracker.eAbsHist|
  {
    var k := 0;
    while k < steps
      invariant 0 <= k <= steps
      invariant tracker.Valid()
      invariant |tracker.eAbsHist| == |old(tracker.eAbsHist)| + k
    {
      var r := tracker.Step(agents, leaderState);
      k := k + 1;
    }
  }
}
