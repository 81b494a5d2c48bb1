/** The common base of the nominal controllers
    (safety_formation/control_law/base_controller.py): an abstract
    `compute_nominal` and the consensus-error helper `get_neighbor_errors`,
    which indexes agents and adjacency rows 0-based. */
module BaseController {
  import opened Wrappers
  import opened LinAlg
  import opened Topology
  import opened Agents

  /** `BaseController.compute_nominal`: subclasses must override it; the base raises. */
  function BaseComputeNominal(agentId: int, agents: seq<AgentView>, t: Topology): (r: Result<Vector>)
    ensures r.Err? && r.error.NotImplemented?
  {
    Err(NotImplemented("compute_nominal"))
  }

  /** `(x_j − f_j) − (x_i − f_i)` for every agent `j`, relative to agent `i`. */
  function RelativeDeviations(agents: seq<AgentView>, i: nat): (ds: seq<Vector>)
    requires AllWellShaped(agents) && i < |agents|
    ensures |ds| == |agents| && forall j :: 0 <= j < |ds| ==> |ds[j]| == 4
  {
    seq(|agents|, j requires 0 <= j < |agents| => Sub(Deviation(agents[j]), Deviation(agents[i])))
  }

  /** What `get_neighbor_errors(agent_id, all_agents, topology)` returns:
      `Σ_{j : A[id][j] > 0} A[id][j] · ((x_j − f_j) − (x_i − f_i))`, where
      `id` picks both the agent and the adjacency row with Python's indexing,
      and every neighbour slot `j` must also index `all_agents`. */
  function NeighborErrors(agentId: int, agents: seq<AgentView>, t: Topology): (r: Result<Vector>)
    requires t.Valid() && AllWellShaped(agents)
    ensures r.Err? ==> r.error == IndexOutOfRange
    ensures r.Ok? ==> |r.value| == 4
    ensures r.Ok? ==> PyIndex(agentId, |agents|).Some? && PyIndex(agentId, t.n).Some?
  {
    match PyIndex(agentId, |agents|)
    case None => Err(IndexOutOfRange)
    case Some(i) =>
      match PyIndex(agentId, t.n)
      case None => Err(IndexOutOfRange)
      case Some(k) =>
        var row := t.adj[k];
        var slots := PositiveSlots(row);
        PositiveSlotsWithin(row);
        if SlotsWithin(slots, |agents|) then Ok(SlotSum(row, RelativeDeviations(agents, i), slots, 4))
        else Err(IndexOutOfRange)
  }

  /** `get_neighbor_errors`: accumulates the weighted consensus errors over the
      positive entries of row `agent_id`, raising on the first neighbour that
      is not an index of `all_agents`. */
  method GetNeighborErrors(agentId: int, agents: seq<AgentView>, t: Topology) returns (r: Result<Vector>)
    requires t.Valid() && AllWellShaped(agents)
    ensures r == NeighborErrors(agentId, agents, t)
  {
    var ci := PyIndex(agentId, |agents|);
    if ci.None? {
      return Err(IndexOutOfRange);
    }
    var current := agents[ci.value];
    var errorSum := Zero(4);
    var ri := PyIndex(agentId, t.n);
    if ri.None? {
      return Err(IndexOutOfRange);
    }
    var row := t.adj[ri.value];
    var neighbors := PositiveSlots(row);
    PositiveSlotsWithin(row);
    ghost var ds := RelativeDeviations(agents, ci.value);
    var k := 0;
    while k < |neighbors|
      invariant 0 <= k <= |neighbors|
      invariant SlotsWithin(neighbors[..k], |agents|)
      invariant errorSum == SlotSum(row, ds, neighbors[..k], 4)
    {
      var j := neighbors[k];
      if j >= |agents| {
        return Err(IndexOutOfRange);
      }
      var errorJ := Sub(agents[j].state, agents[j].f);
      var errorI := Sub(current.state, current.f);
      SlotSumAppend(row, ds, neighbors[..k], j, 4);
      assert neighbors[..k + 1] == neighbors[..k] + [j];
      errorSum := Add(errorSum, Scale(row[j], Sub(errorJ, errorI)));
      k := k + 1;
    }
    assert neighbors[..k] == neighbors;
    return Ok(errorSum);
  }

  // ------------------------------------------------------------------ lemmas

  /** An agent whose adjacency row has no positive entry gets the zero 4-vector. */
  lemma {:induction false} NoNeighborsNoError(agentId: int, agents: seq<AgentView>, t: Topology)
    requires t.Valid() && AllWellShaped(agents)
    requires PyIndex(agentId, |agents|).Some? && PyIndex(agentId, t.n).Some?
    requires forall j :: 0 <= j < t.n ==> t.adj[PyIndex(agentId, t.n).value][j] <= 0.0
    ensures NeighborErrors(agentId, agents, t) == Ok(Zero(4))
  {
    var row := t.adj[PyIndex(agentId, t.n).value];
    PositiveSlotsNone(row);
  }

  /** When every agent has the same `x − f`, the consensus errors vanish. */
  lemma {:induction false} ConsensusNoError(agentId: int, agents: seq<AgentView>, t: Topology)
    requires t.Valid() && AllWellShaped(agents)
    requires forall j :: 0 <= j < |agents| ==> Deviation(agents[j]) == Deviation(agents[0])
    ensures NeighborErrors(agentId, agents, t).Ok? ==> NeighborErrors(agentId, agents, t).value == Zero(4)
  {
    if NeighborErrors(agentId, agents, t).Ok? {
      var i := PyIndex(agentId, |agents|).value;
      var row := t.adj[PyIndex(agentId, t.n).value];
      var ds := RelativeDeviations(agents, i);
      forall j | 0 <= j < |ds| ensures ds[j] == Zero(4) {
        assert Deviation(agents[j]) == Deviation(agents[i]);
      }
      PositiveSlotsWithin(row);
      SlotSumZeroVectors(row, ds, PositiveSlots(row), 4);
    }
  }
}
