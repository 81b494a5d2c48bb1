/** The distributed consensus law for follower `i`,
    `u_i = −K (Σ_{j ∈ N_i} a_ij ((x_i − f_i) − (x_j − f_j)) + b_i (x_i − f_i − x_L))`
    (safety_formation/control_law/nominal/distributed_formation.py).

    `ComputeNominal` is the law with the indexing made consistent: agent ids and
    the neighbour ids of `get_neighbors` are 1-based, so both are shifted by one
    before indexing, and `b_i` is read from the diagonal of `D_lead`.
    `ComputeNominalAsWritten` follows the code as it stands, which indexes with
    the 1-based ids directly and reads a `b_diag` field that `Topology` lacks. */
module Distributed {
  import opened Wrappers
  import opened LinAlg
  import opened Topology
  import opened Agents
  import opened BaseController
  import opened Centralized

  /** `(x_i − f_i) − (x_j − f_j)` for every agent `j`, relative to agent `i`. */
  function ConsensusDifferences(agents: seq<AgentView>, i: nat): (ds: seq<Vector>)
    requires AllWellShaped(agents) && i < |agents|
    ensures |ds| == |agents| && forall j :: 0 <= j < |ds| ==> |ds[j]| == 4
  {
    seq(|agents|, j requires 0 <= j < |agents| => Sub(Deviation(agents[i]), Deviation(agents[j])))
  }

  /** The 0-based slots of 1-based ids. */
  function IdSlots(ids: seq<int>): (s: seq<nat>)
    requires forall p :: 0 <= p < |ids| ==> ids[p] >= 1
    ensures |s| == |ids| && forall p :: 0 <= p < |ids| ==> s[p] == ids[p] - 1
  {
    seq(|ids|, p requires 0 <= p < |ids| => ids[p] - 1)
  }

  lemma {:induction false} IdSlotsOfNeighborIds(row: Vector)
    ensures forall p :: 0 <= p < |NeighborIds(row)| ==> NeighborIds(row)[p] >= 1
    ensures IdSlots(NeighborIds(row)) == PositiveSlots(row)
  {
  }

  /** `Σ_{j ∈ N_i} a_ij ((x_i − f_i) − (x_j − f_j))` over the neighbours of slot `i`,
      in the order `get_neighbors` lists them. */
  function NeighborSum(agents: seq<AgentView>, row: Vector, i: nat): (s: Vector)
    requires AllWellShaped(agents) && |row| == |agents| && i < |agents|
    ensures |s| == 4
  {
    IdSlotsOfNeighborIds(row);
    PositiveSlotsWithin(row);
    SlotSum(row, ConsensusDifferences(agents, i), IdSlots(NeighborIds(row)), 4)
  }

  /** The neighbour ids of an adjacency row are 1-based positions in it. */
  lemma {:induction false} NeighborIdsInRange(row: Vector)
    ensures forall p :: 0 <= p < |NeighborIds(row)| ==> 1 <= NeighborIds(row)[p] <= |row|
  {
    var ids := NeighborIds(row);
    NeighborIdsSpec(row);
    forall p | 0 <= p < |ids| ensures 1 <= ids[p] <= |row| {
      assert ids[p] in ids;
    }
  }

  /** One more neighbour adds its weighted consensus difference to the partial sum. */
  lemma {:induction false} NeighborSumStep(agents: seq<AgentView>, row: Vector, i: nat, ids: seq<int>, k: nat)
    requires AllWellShaped(agents) && |row| == |agents| && i < |agents|
    requires forall p :: 0 <= p < |ids| ==> 1 <= ids[p] <= |row|
    requires k < |ids|
    ensures SlotSum(row, ConsensusDifferences(agents, i), IdSlots(ids[..k + 1]), 4)
         == Add(SlotSum(row, ConsensusDifferences(agents, i), IdSlots(ids[..k]), 4),
                Scale(row[ids[k] - 1], Sub(Deviation(agents[i]), Deviation(agents[ids[k] - 1]))))
  {
    assert IdSlots(ids[..k + 1]) == IdSlots(ids[..k]) + [ids[k] - 1];
    SlotSumAppend(row, ConsensusDifferences(agents, i), IdSlots(ids[..k]), ids[k] - 1, 4);
  }

  /** The loop over all the neighbour ids of the row computes `NeighborSum`. */
  lemma {:induction false} NeighborSumComplete(agents: seq<AgentView>, row: Vector, i: nat, ids: seq<int>)
    requires AllWellShaped(agents) && |row| == |agents| && i < |agents|
    requires ids == NeighborIds(row)
    requires forall p :: 0 <= p < |ids| ==> 1 <= ids[p] <= |row|
    ensures SlotSum(row, ConsensusDifferences(agents, i), IdSlots(ids[..|ids|]), 4) == NeighborSum(agents, row, i)
  {
    assert ids[..|ids|] == ids;
  }

  /** `b_i (x_i − f_i − x_L)`, with `b_i` read from the diagonal of `D_lead`. */
  function LeaderTerm(agents: seq<AgentView>, t: Topology, i: nat, xL: Vector): (l: Vector)
    requires t.Valid() && AllWellShaped(agents) && |agents| == t.n && i < t.n && |xL| == 4
    ensures |l| == 4
  {
    Scale(t.dLead[i][i], Sub(Deviation(agents[i]), xL))
  }

  /** The corrected law. It raises when the leader state has not four entries,
      when the id is not one of `1..n`, and when `K` is not 2×4; otherwise it
      returns `−K (neighbour sum + b_i (x_i − f_i − x_L))`. */
  function DistributedLaw(K: Matrix, agentId: int, agents: seq<AgentView>, t: Topology, leader: Option<Vector>): (r: Result<Vector>)
    requires t.Valid() && AllWellShaped(agents) && |agents| == t.n
    ensures r.Ok? <==> (leader.None? || |leader.value| == 4) && 1 <= agentId <= t.n && IsMatrix(K, 2, 4)
    ensures leader.Some? && |leader.value| != 4 ==> r == Err(ShapeMismatch)
    ensures (leader.None? || |leader.value| == 4) && !(1 <= agentId <= t.n) ==> r == Err(IndexOutOfRange)
    ensures r.Ok? ==> |r.value| == 2
  {
    if leader.Some? && |leader.value| != 4 then Err(ShapeMismatch)
    else if !(1 <= agentId <= t.n) then Err(IndexOutOfRange)
    else if !IsMatrix(K, 2, 4) then Err(ShapeMismatch)
    else
      var i := agentId - 1;
      Ok(Neg(MatVec(K, Add(NeighborSum(agents, t.adj[i], i), LeaderTerm(agents, t, i, LeaderOrZero(leader))))))
  }

  /** The loop of `compute_nominal` over the neighbour ids: it accumulates
      `a_ij ((x_i − f_i) − (x_j − f_j))`, looking each neighbour up by `j − 1`. */
  method SumNeighborDifferences(agents: seq<AgentView>, row: Vector, i: nat, neighbors: seq<int>)
    returns (neighborSum: Vector)
    requires AllWellShaped(agents) && |row| == |agents| && i < |agents|
    requires neighbors == NeighborIds(row)
    ensures neighborSum == NeighborSum(agents, row, i)
  {
    var current := agents[i];
    neighborSum := Zero(4);
    NeighborIdsInRange(row);
    for k := 0 to |neighbors|
      invariant forall p :: 0 <= p < |neighbors| ==> 1 <= neighbors[p] <= |row|
      invariant neighborSum == SlotSum(row, ConsensusDifferences(agents, i), IdSlots(neighbors[..k]), 4)
    {
      var j := neighbors[k];
      var neighbor := agents[j - 1];
      var diffI := Sub(current.state, current.f);
      var diffJ := Sub(neighbor.state, neighbor.f);
      var aij := row[j - 1];
      NeighborSumStep(agents, row, i, neighbors, k);
      neighborSum := Add(neighborSum, Scale(aij, Sub(diffI, diffJ)));
    }
    NeighborSumComplete(agents, row, i, neighbors);
  }

  /** `compute_nominal(agent_id, all_agents, topology, leader_state)` with
      consistent indexing: the neighbour sum is built by the loop over
      `get_neighbors(agent_id)`. */
  method ComputeNominal(K: Matrix, agentId: int, agents: seq<AgentView>, t: Topology, leader: Option<Vector>)
    returns (r: Result<Vector>)
    requires t.Valid() && AllWellShaped(agents) && |agents| == t.n
    ensures r == DistributedLaw(K, agentId, agents, t, leader)
  {
    var xL: Vector;
    if leader.None? {
      xL := Zero(4);
    } else {
      if |leader.value| != 4 {
        return Err(ShapeMismatch);
      }
      xL := leader.value;
    }
    if !(1 <= agentId <= t.n) {
      return Err(IndexOutOfRange);
    }
    var i := agentId - 1;
    var current := agents[i];
    var errorI := Sub(Sub(current.state, current.f), xL);
    var found := GetNeighbors(t, agentId);
    assert found == Ok(NeighborIds(t.adj[i]));
    var neighborSum := SumNeighborDifferences(agents, t.adj[i], i, found.value);
    var leaderTerm := Scale(t.dLead[i][i], errorI);
    if !IsMatrix(K, 2, 4) {
      return Err(ShapeMismatch);
    }
    LawValue(K, i, agents, t, leader);
    assert leaderTerm == LeaderTerm(agents, t, i, xL);
    return Ok(Neg(MatVec(K, Add(neighborSum, leaderTerm))));
  }

  // ---------------------------------------------------------- as written

  /** The loop as written fails on some neighbour id `j`: `all_agents[j]` or
      `adj_matrix[agent_id, j]` is out of range. */
  predicate AsWrittenLoopFails(agentId: int, agents: seq<AgentView>, t: Topology, ids: seq<int>) {
    |ids| > 0 && (PyIndex(agentId, t.n).None? || exists p :: 0 <= p < |ids| && (ids[p] >= |agents| || ids[p] >= t.n))
  }

  /** The exception the code as written raises: none of its paths returns a command. */
  function AsWrittenError(agentId: int, agents: seq<AgentView>, t: Topology, leader: Option<Vector>): Error
    requires t.Valid()
  {
    if leader.Some? && |leader.value| != 4 then ShapeMismatch
    else if PyIndex(agentId, |agents|).None? then IndexOutOfRange
    else if PyIndex(agentId - 1, t.n).None? then IndexOutOfRange
    else if AsWrittenLoopFails(agentId, agents, t, NeighborIds(t.adj[PyIndex(agentId - 1, t.n).value])) then IndexOutOfRange
    else MissingAttribute("b_diag")
  }

  /** The loop of `compute_nominal` as written: neighbour `j` is looked up as
      `all_agents[j]` and weighted by `adj_matrix[agent_id, j]`. */
  method AccumulateAsWritten(agentId: int, agents: seq<AgentView>, t: Topology, neighbors: seq<int>, diffI: Vector)
    returns (r: Result<Vector>)
    requires IsMatrix(t.adj, t.n, t.n) && AllWellShaped(agents) && |diffI| == 4
    requires forall p :: 0 <= p < |neighbors| ==> neighbors[p] >= 0
    ensures r.Err? <==> AsWrittenLoopFails(agentId, agents, t, neighbors)
    ensures r.Err? ==> r.error == IndexOutOfRange
    ensures r.Ok? ==> |r.value| == 4
  {
    var neighborSum := Zero(4);
    var k := 0;
    while k < |neighbors|
      invariant 0 <= k <= |neighbors|
      invariant forall p :: 0 <= p < k ==> neighbors[p] < |agents| && neighbors[p] < t.n
      invariant k > 0 ==> PyIndex(agentId, t.n).Some?
      invariant |neighborSum| == 4
    {
      var j := neighbors[k];
      if j >= |agents| {
        return Err(IndexOutOfRange);
      }
      var neighbor := agents[j];
      var diffJ := Sub(neighbor.state, neighbor.f);
      var rowIndex := PyIndex(agentId, t.n);
      if rowIndex.None? || j >= t.n {
        return Err(IndexOutOfRange);
      }
      var aij := t.adj[rowIndex.value][j];
      neighborSum := Add(neighborSum, Scale(aij, Sub(diffI, diffJ)));
      k := k + 1;
    }
    return Ok(neighborSum);
  }

  /** `compute_nominal` as written: `all_agents[agent_id]`, `all_agents[j]` and
      `adj_matrix[agent_id, j]` index with 1-based ids, and after the loop the
      missing `topology.b_diag` is read. */
  method ComputeNominalAsWritten(K: Matrix, agentId: int, agents: seq<AgentView>, t: Topology, leader: Option<Vector>)
    returns (r: Result<Vector>)
    requires t.Valid() && AllWellShaped(agents)
    ensures r == Err(AsWrittenError(agentId, agents, t, leader))
  {
    var xL: Vector;
    if leader.None? {
      xL := Zero(4);
    } else {
      if |leader.value| != 4 {
        return Err(ShapeMismatch);
      }
      xL := leader.value;
    }
    var ci := PyIndex(agentId, |agents|);
    if ci.None? {
      return Err(IndexOutOfRange);
    }
    var current := agents[ci.value];
    var errorI := Sub(Sub(current.state, current.f), xL);
    var found := GetNeighbors(t, agentId);
    if found.Err? {
      return Err(IndexOutOfRange);
    }
    ghost var row := t.adj[PyIndex(agentId - 1, t.n).value];
    assert found == Ok(NeighborIds(row));
    NeighborIdsInRange(row);
    var summed := AccumulateAsWritten(agentId, agents, t, found.value, Sub(current.state, current.f));
    if summed.Err? {
      return Err(summed.error);
    }
    return Err(MissingAttribute("b_diag"));
  }

  // ------------------------------------------------------------------ lemmas

  /** Omitting the leader state is passing the zero 4-vector. */
  lemma {:induction false} OmittedLeaderIsZero(K: Matrix, agentId: int, agents: seq<AgentView>, t: Topology)
    requires t.Valid() && AllWellShaped(agents) && |agents| == t.n
    ensures DistributedLaw(K, agentId, agents, t, None) == DistributedLaw(K, agentId, agents, t, Some(Zero(4)))
  {
  }

  /** The command of a follower that passes every check, by slot. */
  lemma {:induction false} LawValue(K: Matrix, i: nat, agents: seq<AgentView>, t: Topology, leader: Option<Vector>)
    requires t.Valid() && AllWellShaped(agents) && |agents| == t.n
    requires (leader.None? || |leader.value| == 4) && i < t.n && IsMatrix(K, 2, 4)
    ensures DistributedLaw(K, i + 1, agents, t, leader)
         == Ok(Neg(MatVec(K, Add(NeighborSum(agents, t.adj[i], i), LeaderTerm(agents, t, i, LeaderOrZero(leader))))))
  {
  }

  /** No aggregated error, no command. */
  lemma {:induction false} ZeroErrorZeroCommand(K: Matrix, s: Vector, l: Vector)
    requires IsMatrix(K, 2, 4) && s == Zero(4) && l == Zero(4)
    ensures Neg(MatVec(K, Add(s, l))) == Zero(2)
  {
    assert Add(s, l) == Zero(4);
    MatVecZero(K, 4);
    assert Neg(Zero(2)) == Zero(2);
  }

  /** When every follower has the same deviation, the neighbour sum vanishes. */
  lemma {:induction false} AgreementNoNeighborSum(agents: seq<AgentView>, row: Vector, i: nat, xL: Vector)
    requires AllWellShaped(agents) && |row| == |agents| && i < |agents|
    requires forall j :: 0 <= j < |agents| ==> Deviation(agents[j]) == xL
    ensures NeighborSum(agents, row, i) == Zero(4)
  {
    var ds := ConsensusDifferences(agents, i);
    forall j | 0 <= j < |ds| ensures ds[j] == Zero(4) {
      assert Deviation(agents[i]) == xL && Deviation(agents[j]) == xL;
    }
    IdSlotsOfNeighborIds(row);
    PositiveSlotsWithin(row);
    SlotSumZeroVectors(row, ds, IdSlots(NeighborIds(row)), 4);
  }

  /** A follower at its slot relative to the leader has no leader term. */
  lemma {:induction false} LeaderTermAtSlot(agents: seq<AgentView>, t: Topology, i: nat, xL: Vector)
    requires t.Valid() && AllWellShaped(agents) && |agents| == t.n && i < t.n && |xL| == 4
    requires Deviation(agents[i]) == xL
    ensures LeaderTerm(agents, t, i, xL) == Zero(4)
  {
    var e := Sub(Deviation(agents[i]), xL);
    assert e == Zero(4);
  }

  /** A follower with no positive adjacency entry has no neighbour sum. */
  lemma {:induction false} NoNeighborsNoNeighborSum(agents: seq<AgentView>, row: Vector, i: nat)
    requires AllWellShaped(agents) && |row| == |agents| && i < |agents|
    requires forall j :: 0 <= j < |row| ==> row[j] <= 0.0
    ensures NeighborSum(agents, row, i) == Zero(4)
  {
    PositiveSlotsNone(row);
    IdSlotsOfNeighborIds(row);
  }

  /** In formation (`x_j = f_j + x_L` for every `j`) every follower gets the zero command. */
  lemma {:induction false} InFormationZeroCommand(K: Matrix, agentId: int, agents: seq<AgentView>, t: Topology, leader: Option<Vector>)
    requires t.Valid() && AllWellShaped(agents) && |agents| == t.n
    requires (leader.None? || |leader.value| == 4) && 1 <= agentId <= t.n && IsMatrix(K, 2, 4)
    requires forall j :: 0 <= j < |agents| ==> Deviation(agents[j]) == LeaderOrZero(leader)
    ensures DistributedLaw(K, agentId, agents, t, leader) == Ok(Zero(2))
  {
    var i := agentId - 1;
    var xL := LeaderOrZero(leader);
    LawValue(K, i, agents, t, leader);
    AgreementNoNeighborSum(agents, t.adj[i], i, xL);
    LeaderTermAtSlot(agents, t, i, xL);
    ZeroErrorZeroCommand(K, NeighborSum(agents, t.adj[i], i), LeaderTerm(agents, t, i, xL));
  }

  /** The follower in slot `i` (id `i + 1`), with no positive adjacency entry
      and no link to the leader, gets the zero command. */
  lemma {:induction false} IsolatedZeroCommand(K: Matrix, i: nat, agents: seq<AgentView>, t: Topology, leader: Option<Vector>)
    requires t.Valid() && AllWellShaped(agents) && |agents| == t.n
    requires (leader.None? || |leader.value| == 4) && i < t.n && IsMatrix(K, 2, 4)
    requires forall j :: 0 <= j < t.n ==> t.adj[i][j] <= 0.0
    requires t.dLead[i][i] == 0.0
    ensures DistributedLaw(K, i + 1, agents, t, leader) == Ok(Zero(2))
  {
    var xL := LeaderOrZero(leader);
    LawValue(K, i, agents, t, leader);
    NoNeighborsNoNeighborSum(agents, t.adj[i], i);
    assert LeaderTerm(agents, t, i, xL) == Zero(4);
    ZeroErrorZeroCommand(K, NeighborSum(agents, t.adj[i], i), LeaderTerm(agents, t, i, xL));
  }

  /** The base helper, indexed with the slot `i`, returns the negated neighbour
      sum: it accumulates `(x_j − f_j) − (x_i − f_i)` where the law uses `(x_i − f_i) − (x_j − f_j)`. */
  lemma {:induction false} HelperIsNegatedNeighborSum(agents: seq<AgentView>, t: Topology, i: nat)
    requires t.Valid() && AllWellShaped(agents) && |agents| == t.n && i < t.n
    ensures NeighborErrors(i, agents, t) == Ok(Neg(NeighborSum(agents, t.adj[i], i)))
  {
    var row := t.adj[i];
    var ds := ConsensusDifferences(agents, i);
    var rs := RelativeDeviations(agents, i);
    forall j | 0 <= j < |rs| ensures rs[j] == Neg(ds[j]) {
      var a, b := Deviation(agents[j]), Deviation(agents[i]);
      assert forall c :: 0 <= c < 4 ==> Sub(a, b)[c] == Neg(Sub(b, a))[c];
    }
    IdSlotsOfNeighborIds(row);
    PositiveSlotsWithin(row);
    SlotSumNeg(row, ds, rs, PositiveSlots(row), 4);
    assert PyIndex(i, |agents|) == Some(i) && PyIndex(i, t.n) == Some(i);
  }

  /** With non-negative weights the neighbour sum plus the leader term is row
      `i` of `H = L + D_lead` acting on the formation errors `x_j − f_j − x_L`. */
  lemma {:induction false} NeighborSumIsAugmentedRow(agents: seq<AgentView>, t: Topology, i: nat, xL: Vector)
    requires t.Valid() && AllWellShaped(agents) && |agents| == t.n && i < t.n && |xL| == 4
    requires forall p, q :: 0 <= p < t.n && 0 <= q < t.n ==> t.adj[p][q] >= 0.0
    ensures Add(NeighborSum(agents, t.adj[i], i), LeaderTerm(agents, t, i, xL))
         == WeightedSum(t.augmented[i], FormationErrors(agents, xL), 4)
  {
    var es := FormationErrors(agents, xL);
    var row := t.adj[i];
    var ds := ConsensusDifferences(agents, i);
    var diffs := seq(|es|, j requires 0 <= j < |es| => Sub(es[i], es[j]));
    forall j | 0 <= j < |ds| ensures ds[j] == diffs[j] {
      var a, b := Deviation(agents[i]), Deviation(agents[j]);
      assert forall k :: 0 <= k < 4 ==> Sub(a, b)[k] == Sub(Sub(a, xL), Sub(b, xL))[k];
    }
    assert ds == diffs;
    IdSlotsOfNeighborIds(row);
    PositiveSlotSum(row, ds, 4);
    AugmentedRowAction(t, es, 4, i);
  }

  /** With consistent indexing, `b_i` read from `D_lead` and non-negative
      adjacency weights, the distributed command of follower `agentId` is row
      `agentId − 1` of the centralized output without its feed-forward `K′ f_i`. */
  lemma {:induction false} AgreesWithCentralized(c: Controller, agentId: int, agents: seq<AgentView>, t: Topology, leader: Option<Vector>)
    requires ValidController(c) && t.Valid() && AllWellShaped(agents) && |agents| == t.n
    requires (leader.None? || |leader.value| == 4) && 1 <= agentId <= t.n
    requires forall p, q :: 0 <= p < t.n && 0 <= q < t.n ==> t.adj[p][q] >= 0.0
    ensures Centralized.ComputeNominal(c, agents, t, leader).Ok?
    ensures DistributedLaw(c.K, agentId, agents, t, leader)
         == Ok(Sub(Centralized.ComputeNominal(c, agents, t, leader).value[agentId - 1], MatVec(c.kPrime, agents[agentId - 1].f)))
  {
    var i := agentId - 1;
    var xL := LeaderOrZero(leader);
    LawValue(c.K, i, agents, t, leader);
    NeighborSumIsAugmentedRow(agents, t, i, xL);
    RowBlockForm(c, agents, t, leader, i);
    var blk := Neg(MatVec(c.K, WeightedSum(t.augmented[i], FormationErrors(agents, xL), 4)));
    AddSubCancel(blk, MatVec(c.kPrime, agents[i].f));
  }

  /** As written, the last follower (`agent_id = n` with `n` agents) always
      raises: `all_agents[n]` is one past the end. */
  lemma {:induction false} AsWrittenLastAgentFails(agents: seq<AgentView>, t: Topology, leader: Option<Vector>)
    requires t.Valid() && |agents| == t.n
    requires leader.None? || |leader.value| == 4
    ensures AsWrittenError(t.n, agents, t, leader) == IndexOutOfRange
  {
  }

  /** On the six-agent cycle follower 1 raises `IndexError`: its neighbour id 6
      indexes past the end of the six agents. */
  lemma {:induction false} AsWrittenCycleFirst(agents: seq<AgentView>)
    requires |agents| == 6
    ensures CycleTopology().Valid()
    ensures AsWrittenError(1, agents, CycleTopology(), None) == IndexOutOfRange
  {
    var t := CycleTopology();
    assert t.adj == CycleAdjacency();
    CycleNeighborRows();
    assert PyIndex(0, 6) == Some(0) && PyIndex(1, 6) == Some(1);
    var ids := NeighborIds(t.adj[0]);
    assert ids[1] == 6;
  }

  /** On the six-agent cycle follower 2 gets through the loop (neighbour ids 1
      and 3 happen to be in range) and then reaches the missing `b_diag`. */
  lemma {:induction false} AsWrittenCycleSecond(agents: seq<AgentView>)
    requires |agents| == 6
    ensures CycleTopology().Valid()
    ensures AsWrittenError(2, agents, CycleTopology(), None) == MissingAttribute("b_diag")
  {
    var t := CycleTopology();
    assert t.adj == CycleAdjacency();
    CycleNeighborRows();
    assert PyIndex(1, 6) == Some(1) && PyIndex(2, 6) == Some(2);
    var ids := NeighborIds(t.adj[1]);
    assert ids == [1, 3];
    assert !AsWrittenLoopFails(2, agents, t, ids);
  }

  /** The corrected law returns a command for every follower of the cycle. */
  lemma {:induction false} CorrectedCycleAnswers(K: Matrix, agents: seq<AgentView>, agentId: int)
    requires AllWellShaped(agents) && |agents| == 6 && IsMatrix(K, 2, 4) && 1 <= agentId <= 6
    ensures CycleTopology().Valid()
    ensures DistributedLaw(K, agentId, agents, CycleTopology(), None).Ok?
  {
  }
}
