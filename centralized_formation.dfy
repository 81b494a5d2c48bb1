/** The centralized formation law
    `U = −(H ⊗ K)(X − F − X_L) + (I ⊗ K′) F`, returned as one row `[ax, ay]`
    per follower (safety_formation/control_law/nominal/centralized_formation.py). */
module Centralized {
  import opened Wrappers
  import opened LinAlg
  import opened Topology
  import opened Agents

  /** A gain argument as `np.array(gain, dtype=float)` sees it: a bare number
      (a 0-dimensional array) or a matrix. */
  datatype Gain = Scalar(c: real) | Array(m: Matrix)

  predicate Is2x4(g: Gain) {
    g.Array? && IsMatrix(g.m, 2, 4)
  }

  /** The feedback gain `K` and the formation compensation gain `K′`. */
  datatype Controller = Controller(K: Matrix, kPrime: Matrix)

  predicate ValidController(c: Controller) {
    IsMatrix(c.K, 2, 4) && IsMatrix(c.kPrime, 2, 4)
  }

  /** `CentralizedFormationControl(K_matrix, K_prime_matrix=0)` as written:
      both gains must be 2×4, so the default `0` is always rejected. */
  function NewController(K: Gain, kPrime: Gain := Scalar(0.0)): (r: Result<Controller>)
    ensures r.Ok? <==> Is2x4(K) && Is2x4(kPrime)
    ensures r.Err? ==> r.error == ShapeMismatch
    ensures r.Ok? ==> ValidController(r.value) && r.value.K == K.m && r.value.kPrime == kPrime.m
  {
    if !Is2x4(K) then Err(ShapeMismatch)
    else if !Is2x4(kPrime) then Err(ShapeMismatch)
    else Ok(Controller(K.m, kPrime.m))
  }

  /** The constructor with the default the shape check admits: `K′` defaults to the zero 2×4 matrix. */
  function NewControllerZeroDefault(K: Gain, kPrime: Gain := Array(ZeroMatrix(2, 4))): (r: Result<Controller>)
    ensures r.Ok? <==> Is2x4(K) && Is2x4(kPrime)
    ensures r.Err? ==> r.error == ShapeMismatch
    ensures r.Ok? ==> ValidController(r.value) && r.value.K == K.m && r.value.kPrime == kPrime.m
  {
    NewController(K, kPrime)
  }

  function States(agents: seq<AgentView>): (xs: seq<Vector>)
    ensures |xs| == |agents| && forall j :: 0 <= j < |agents| ==> xs[j] == agents[j].state
  {
    seq(|agents|, j requires 0 <= j < |agents| => agents[j].state)
  }

  function Offsets(agents: seq<AgentView>): (fs: seq<Vector>)
    ensures |fs| == |agents| && forall j :: 0 <= j < |agents| ==> fs[j] == agents[j].f
  {
    seq(|agents|, j requires 0 <= j < |agents| => agents[j].f)
  }

  /** The leader state, or the zero 4-vector when none is passed. */
  function LeaderOrZero(leader: Option<Vector>): (xL: Vector)
    ensures leader.None? ==> xL == Zero(4)
    ensures leader.Some? ==> xL == leader.value
  {
    if leader.None? then Zero(4) else leader.value
  }

  /** `compute_nominal(all_agents, topology, leader_state)`. In order, it raises
      when `H` is not `n×n`, when there is no agent to stack, when the stacked
      states or offsets are not of length `4n`, and when the leader state has
      not four entries; otherwise it returns `n` rows of two entries. */
  function ComputeNominal(c: Controller, agents: seq<AgentView>, t: Topology, leader: Option<Vector>): (r: Result<Matrix>)
    requires ValidController(c) && t.Valid()
    ensures r.Ok? <==> && t.n == |agents| && |agents| > 0
                       && |Flatten(States(agents))| == 4 * |agents|
                       && |Flatten(Offsets(agents))| == 4 * |agents|
                       && (leader.None? || |leader.value| == 4)
    ensures r.Err? ==> r.error == ShapeMismatch
    ensures r.Ok? ==> IsMatrix(r.value, |agents|, 2)
  {
    var n := |agents|;
    var H := GetAugmentedLaplacian(t);
    if t.n != n then Err(ShapeMismatch)
    else if n == 0 then Err(ShapeMismatch)
    else
      var X := Flatten(States(agents));
      var F := Flatten(Offsets(agents));
      if |X| != 4 * n || |F| != 4 * n then Err(ShapeMismatch)
      else if leader.Some? && |leader.value| != 4 then Err(ShapeMismatch)
      else
        var xL := LeaderOrZero(leader);
        Ok(Reshape2(StackedLaw(c, H, X, F, Tile(xL, n), n), n))
  }

  /** `U_all = −(H ⊗ K)(X − F − X_L) + (I ⊗ K′) F` on the stacked `4n` vectors. */
  function StackedLaw(c: Controller, H: Matrix, X: Vector, F: Vector, XL: Vector, n: nat): (U: Vector)
    requires ValidController(c) && IsMatrix(H, n, n)
    requires |X| == |F| == |XL| == 4 * n
    ensures |U| == 2 * n
  {
    var E := Sub(Sub(X, F), XL);
    Add(Neg(MatVec(Kron(H, c.K, n, 4), E)), MatVec(Kron(Identity(n), c.kPrime, n, 4), F))
  }

  /** Entries `2i` and `2i + 1` of the stacked law, when `X − F − X_L` stacks the
      per-agent errors `es` and `F` stacks the offsets `fs`. */
  lemma {:induction false} StackedLawEntries(c: Controller, H: Matrix, X: Vector, F: Vector, XL: Vector,
                                             es: seq<Vector>, fs: seq<Vector>, n: nat, i: nat, k: nat)
    requires ValidController(c) && IsMatrix(H, n, n)
    requires |X| == |F| == |XL| == 4 * n
    requires |es| == |fs| == n && forall j :: 0 <= j < n ==> |es[j]| == 4 && |fs[j]| == 4
    requires Sub(Sub(X, F), XL) == Flatten(es) && F == Flatten(fs)
    requires i < n && k < 2
    ensures StackedLaw(c, H, X, F, XL, n)[2 * i + k] == -Dot(c.K[k], WeightedSum(H[i], es, 4)) + Dot(c.kPrime[k], fs[i])
  {
    var E := Sub(Sub(X, F), XL);
    var KH := Kron(H, c.K, n, 4);
    var KI := Kron(Identity(n), c.kPrime, n, 4);
    var U := StackedLaw(c, H, X, F, XL, n);
    assert U == Add(Neg(MatVec(KH, E)), MatVec(KI, F));
    FeedbackEntry(c, H, es, n, i, k);
    FeedForwardEntry(c, fs, n, i, k);
    assert U[2 * i + k] == -Dot(KH[2 * i + k], E) + Dot(KI[2 * i + k], F);
  }

  /** Row `2i + k` of `kron(H, K)` applied to the stacked errors is row `k` of
      `K` applied to `Σ_j H[i][j] e_j`. */
  lemma {:induction false} FeedbackEntry(c: Controller, H: Matrix, es: seq<Vector>, n: nat, i: nat, k: nat)
    requires ValidController(c) && IsMatrix(H, n, n)
    requires |es| == n && forall j :: 0 <= j < n ==> |es[j]| == 4
    requires i < n && k < 2
    ensures 2 * i + k < |Kron(H, c.K, n, 4)| && |Flatten(es)| == 4 * n
    ensures Dot(Kron(H, c.K, n, 4)[2 * i + k], Flatten(es)) == Dot(c.K[k], WeightedSum(H[i], es, 4))
  {
    KronIndex(H, c.K, n, 4, i, k);
    assert i * |c.K| + k == 2 * i + k;
    KronRowDot(H[i], c.K[k], es);
  }

  /** Row `2i + k` of `kron(I, K′)` applied to the stacked offsets is row `k`
      of `K′` applied to `f_i`. */
  lemma {:induction false} FeedForwardEntry(c: Controller, fs: seq<Vector>, n: nat, i: nat, k: nat)
    requires ValidController(c)
    requires |fs| == n && forall j :: 0 <= j < n ==> |fs[j]| == 4
    requires i < n && k < 2
    ensures 2 * i + k < |Kron(Identity(n), c.kPrime, n, 4)| && |Flatten(fs)| == 4 * n
    ensures Dot(Kron(Identity(n), c.kPrime, n, 4)[2 * i + k], Flatten(fs)) == Dot(c.kPrime[k], fs[i])
  {
    KronIndex(Identity(n), c.kPrime, n, 4, i, k);
    assert i * |c.kPrime| + k == 2 * i + k;
    KronRowDot(Identity(n)[i], c.kPrime[k], fs);
    WeightedSumSingle(Identity(n)[i], fs, 4, i);
    assert Scale(1.0, fs[i]) == fs[i];
  }

  /** `e_j = x_j − f_j − x_L` for every agent. */
  function FormationErrors(agents: seq<AgentView>, xL: Vector): (es: seq<Vector>)
    requires AllWellShaped(agents) && |xL| == 4
    ensures |es| == |agents| && forall j :: 0 <= j < |es| ==> |es[j]| == 4
  {
    seq(|agents|, j requires 0 <= j < |agents| => Sub(Deviation(agents[j]), xL))
  }

  // ------------------------------------------------------------------ lemmas

  /** The default `K_prime_matrix=0` makes every construction fail. */
  lemma {:induction false} DefaultFeedForwardRejected(K: Gain)
    ensures NewController(K) == Err(ShapeMismatch)
  {
  }

  /** With the zero default, a 2×4 `K` is accepted and `K′ = 0`. */
  lemma {:induction false} ZeroDefaultAccepted(K: Matrix)
    requires IsMatrix(K, 2, 4)
    ensures NewControllerZeroDefault(Array(K)) == Ok(Controller(K, ZeroMatrix(2, 4)))
  {
  }

  /** The stacked error vector `X − F − X_L` is the stack of the per-agent errors. */
  lemma {:induction false} StackedErrors(agents: seq<AgentView>, xL: Vector)
    requires AllWellShaped(agents) && |xL| == 4
    ensures |Flatten(States(agents))| == |Flatten(Offsets(agents))| == 4 * |agents|
    ensures Sub(Sub(Flatten(States(agents)), Flatten(Offsets(agents))), Tile(xL, |agents|))
         == Flatten(FormationErrors(agents, xL))
  {
    var n := |agents|;
    var xs, fs := States(agents), Offsets(agents);
    FlattenSub(xs, fs, 4);
    var ds := seq(n, j requires 0 <= j < n => Sub(xs[j], fs[j]));
    TileIsFlatten(xL, n);
    FlattenSub(ds, seq(n, j => xL), 4);
    assert seq(n, j requires 0 <= j < n => Sub(ds[j], seq(n, j => xL)[j])) == FormationErrors(agents, xL);
  }

  /** On well-shaped agents matching the topology, `compute_nominal` passes every
      check and returns the reshaped stacked law. */
  lemma {:induction false} NominalIsStackedLaw(c: Controller, agents: seq<AgentView>, t: Topology, leader: Option<Vector>)
    requires ValidController(c) && t.Valid() && AllWellShaped(agents)
    requires t.n == |agents| > 0
    requires leader.None? || |leader.value| == 4
    ensures |Flatten(States(agents))| == 4 * |agents| && |Flatten(Offsets(agents))| == 4 * |agents|
    ensures ComputeNominal(c, agents, t, leader)
         == Ok(Reshape2(StackedLaw(c, t.augmented, Flatten(States(agents)), Flatten(Offsets(agents)),
                                   Tile(LeaderOrZero(leader), |agents|), |agents|), |agents|))
  {
    FlattenLength(States(agents), 4);
    FlattenLength(Offsets(agents), 4);
    assert GetAugmentedLaplacian(t) == t.augmented;
  }

  /** Row `i` of the reshaped stacked law in block form. */
  lemma {:induction false} StackedRowBlockForm(c: Controller, agents: seq<AgentView>, H: Matrix, xL: Vector, i: nat)
    requires ValidController(c) && AllWellShaped(agents) && |xL| == 4
    requires IsMatrix(H, |agents|, |agents|) && i < |agents|
    ensures |Flatten(States(agents))| == 4 * |agents| && |Flatten(Offsets(agents))| == 4 * |agents|
    ensures var n := |agents|;
      Reshape2(StackedLaw(c, H, Flatten(States(agents)), Flatten(Offsets(agents)), Tile(xL, n), n), n)[i]
      == Add(Neg(MatVec(c.K, WeightedSum(H[i], FormationErrors(agents, xL), 4))), MatVec(c.kPrime, agents[i].f))
  {
    var n := |agents|;
    var es := FormationErrors(agents, xL);
    var fs := Offsets(agents);
    StackedErrors(agents, xL);
    var U := StackedLaw(c, H, Flatten(States(agents)), Flatten(fs), Tile(xL, n), n);
    StackedLawBlock(c, H, Flatten(States(agents)), Flatten(fs), Tile(xL, n), es, fs, n, i);
    assert fs[i] == agents[i].f;
    var R := Reshape2(U, n);
    assert R[i] == [U[2 * i], U[2 * i + 1]];
  }

  /** Entries `2i` and `2i + 1` of the stacked law form agent `i`'s block `−K (Σ_j H[i][j] e_j) + K′ f_i`. */
  lemma {:induction false} StackedLawBlock(c: Controller, H: Matrix, X: Vector, F: Vector, XL: Vector,
                                           es: seq<Vector>, fs: seq<Vector>, n: nat, i: nat)
    requires ValidController(c) && IsMatrix(H, n, n)
    requires |X| == |F| == |XL| == 4 * n
    requires |es| == |fs| == n && forall j :: 0 <= j < n ==> |es[j]| == 4 && |fs[j]| == 4
    requires Sub(Sub(X, F), XL) == Flatten(es) && F == Flatten(fs)
    requires i < n
    ensures [StackedLaw(c, H, X, F, XL, n)[2 * i], StackedLaw(c, H, X, F, XL, n)[2 * i + 1]]
         == Add(Neg(MatVec(c.K, WeightedSum(H[i], es, 4))), MatVec(c.kPrime, fs[i]))
  {
    var U := StackedLaw(c, H, X, F, XL, n);
    StackedLawEntries(c, H, X, F, XL, es, fs, n, i, 0);
    StackedLawEntries(c, H, X, F, XL, es, fs, n, i, 1);
    BlockPair(c, WeightedSum(H[i], es, 4), fs[i], U[2 * i], U[2 * i + 1]);
  }

  /** The two entries of one agent's command, `−K w + K′ f`, as a pair. */
  lemma {:induction false} BlockPair(c: Controller, w: Vector, f: Vector, u0: real, u1: real)
    requires ValidController(c) && |w| == 4 && |f| == 4
    requires u0 == -Dot(c.K[0], w) + Dot(c.kPrime[0], f)
    requires u1 == -Dot(c.K[1], w) + Dot(c.kPrime[1], f)
    ensures Add(Neg(MatVec(c.K, w)), MatVec(c.kPrime, f)) == [u0, u1]
  {
  }

  /** Block form of row `i`: `−K (Σ_j H[i][j] e_j) + K′ f_i`. */
  lemma {:induction false} RowBlockForm(c: Controller, agents: seq<AgentView>, t: Topology, leader: Option<Vector>, i: nat)
    requires ValidController(c) && t.Valid() && AllWellShaped(agents)
    requires t.n == |agents| && i < |agents|
    requires leader.None? || |leader.value| == 4
    ensures ComputeNominal(c, agents, t, leader).Ok?
    ensures ComputeNominal(c, agents, t, leader).value[i]
         == Add(Neg(MatVec(c.K, WeightedSum(t.augmented[i], FormationErrors(agents, LeaderOrZero(leader)), 4))),
                MatVec(c.kPrime, agents[i].f))
  {
    NominalIsStackedLaw(c, agents, t, leader);
    StackedRowBlockForm(c, agents, t.augmented, LeaderOrZero(leader), i);
  }

  /** Row `i` is `−Σ_j H[i][j] · K (x_j − f_j − x_L) + K′ f_i`. */
  lemma {:induction false} RowClosedForm(c: Controller, agents: seq<AgentView>, t: Topology, leader: Option<Vector>, i: nat)
    requires ValidController(c) && t.Valid() && AllWellShaped(agents)
    requires t.n == |agents| && i < |agents|
    requires leader.None? || |leader.value| == 4
    ensures ComputeNominal(c, agents, t, leader).Ok?
    ensures var es := FormationErrors(agents, LeaderOrZero(leader));
      ComputeNominal(c, agents, t, leader).value[i]
      == Sub(MatVec(c.kPrime, agents[i].f),
             WeightedSum(t.augmented[i], seq(|es|, j requires 0 <= j < |es| => MatVec(c.K, es[j])), 2))
  {
    RowBlockForm(c, agents, t, leader, i);
    var es := FormationErrors(agents, LeaderOrZero(leader));
    MatVecWeightedSum(c.K, t.augmented[i], es, 4);
    var ws := WeightedSum(t.augmented[i], es, 4);
    var ff := MatVec(c.kPrime, agents[i].f);
    AddNegIsSub(MatVec(c.K, ws), ff);
  }

  /** In formation (`x_j = f_j + x_L` for every `j`), row `i` is the feed-forward `K′ f_i` alone. */
  lemma {:induction false} InFormationFeedForwardOnly(c: Controller, agents: seq<AgentView>, t: Topology, leader: Option<Vector>, i: nat)
    requires ValidController(c) && t.Valid() && AllWellShaped(agents)
    requires t.n == |agents| && i < |agents|
    requires leader.None? || |leader.value| == 4
    requires forall j :: 0 <= j < |agents| ==> Deviation(agents[j]) == LeaderOrZero(leader)
    ensures ComputeNominal(c, agents, t, leader).Ok?
    ensures ComputeNominal(c, agents, t, leader).value[i] == MatVec(c.kPrime, agents[i].f)
  {
    RowBlockForm(c, agents, t, leader, i);
    InFormationRowVanishes(c, t.augmented[i], agents, LeaderOrZero(leader), MatVec(c.kPrime, agents[i].f));
  }

  /** In formation every block error is zero, so any row of weights aggregates
      them to zero and leaves only the feed-forward term `ff`. */
  lemma {:induction false} InFormationRowVanishes(c: Controller, row: Vector, agents: seq<AgentView>, xL: Vector, ff: Vector)
    requires ValidController(c) && AllWellShaped(agents) && |xL| == 4 && |ff| == 2
    requires |row| == |agents|
    requires forall j :: 0 <= j < |agents| ==> Deviation(agents[j]) == xL
    ensures Add(Neg(MatVec(c.K, WeightedSum(row, FormationErrors(agents, xL), 4))), ff) == ff
  {
    var es := FormationErrors(agents, xL);
    forall j | 0 <= j < |es| ensures es[j] == Zero(4) {
      assert Deviation(agents[j]) == xL;
    }
    WeightedSumZeroVectors(row, es, 4);
    NoErrorNoFeedback(c, WeightedSum(row, es, 4), ff);
  }

  /** With zero aggregated error the feedback term vanishes. */
  lemma {:induction false} NoErrorNoFeedback(c: Controller, ws: Vector, ff: Vector)
    requires ValidController(c) && ws == Zero(4) && |ff| == 2
    ensures Add(Neg(MatVec(c.K, ws)), ff) == ff
  {
    MatVecZero(c.K, 4);
    AddNegIsSub(Zero(2), ff);
    SubZero(ff);
  }

  /** Omitting the leader state is passing the zero 4-vector. */
  lemma {:induction false} OmittedLeaderIsZero(c: Controller, agents: seq<AgentView>, t: Topology)
    requires ValidController(c) && t.Valid()
    ensures ComputeNominal(c, agents, t, None) == ComputeNominal(c, agents, t, Some(Zero(4)))
  {
  }
}
