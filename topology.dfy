/** The communication graph among the followers and their links to the
    leader (safety_formation/formation/topology.py): adjacency `A`, leader
    pinning `D_lead = diag(leader_access)`, Laplacian `L = diag(rowsum A) − A`
    and augmented Laplacian `H = L + D_lead`, all fixed at construction. */
module Topology {
  import opened Wrappers
  import opened LinAlg

  datatype Topology = Topology(n: nat, adj: Matrix, dLead: Matrix, laplacian: Matrix, augmented: Matrix)
  {
    /** What construction establishes and nothing afterwards changes. */
    predicate Valid() {
      && IsMatrix(adj, n, n)
      && IsDiagonal(dLead, n)
      && laplacian == Laplacian(adj)
      && augmented == AugmentedLaplacian(laplacian, dLead)
    }
  }

  predicate IsDiagonal(d: Matrix, n: nat) {
    IsMatrix(d, n, n) && forall i, j :: 0 <= i < n && 0 <= j < n && i != j ==> d[i][j] == 0.0
  }

  /** `L = diag(Σ_k A[i][k]) − A`. */
  function Laplacian(adj: Matrix): (L: Matrix)
    requires IsMatrix(adj, |adj|, |adj|)
    ensures IsMatrix(L, |adj|, |adj|)
    ensures forall i, j :: 0 <= i < |adj| && 0 <= j < |adj| && i != j ==> L[i][j] == -adj[i][j]
    ensures forall i :: 0 <= i < |adj| ==> L[i][i] == Sum(adj[i]) - adj[i][i]
  {
    MatSub(Diag(RowSums(adj)), adj)
  }

  /** `H = L + D_lead` for a diagonal `D_lead`: `H` agrees with `L` off the
      diagonal and adds the leader weight on it. */
  function AugmentedLaplacian(L: Matrix, dLead: Matrix): (H: Matrix)
    requires IsMatrix(L, |L|, |L|) && IsDiagonal(dLead, |L|)
    ensures IsMatrix(H, |L|, |L|)
    ensures forall i, j :: 0 <= i < |L| && 0 <= j < |L| && i != j ==> H[i][j] == L[i][j]
    ensures forall i :: 0 <= i < |L| ==> H[i][i] == L[i][i] + dLead[i][i]
  {
    MatAdd(L, dLead)
  }

  /** `Topology(num_agents, adjacency_matrix, leader_access)`; an omitted
      argument stands for the zero matrix. */
  function New(n: nat, adjacency: Option<Matrix>, leaderAccess: Option<Vector>): (t: Topology)
    requires adjacency.Some? ==> IsMatrix(adjacency.value, n, n)
    requires leaderAccess.Some? ==> |leaderAccess.value| == n
    ensures t.Valid() && t.n == n
    ensures IsMatrix(t.laplacian, n, n) && IsMatrix(t.augmented, n, n)
    ensures t.adj == if adjacency.Some? then adjacency.value else ZeroMatrix(n, n)
    ensures t.dLead == if leaderAccess.Some? then Diag(leaderAccess.value) else ZeroMatrix(n, n)
  {
    var adj := if adjacency.Some? then adjacency.value else ZeroMatrix(n, n);
    var dLead := if leaderAccess.Some? then Diag(leaderAccess.value) else ZeroMatrix(n, n);
    var L := Laplacian(adj);
    Topology(n, adj, dLead, L, AugmentedLaplacian(L, dLead))
  }

  /** The leader weight `b_i` of slot `i`: `leader_access[i]`, or 0 when omitted. */
  function LeaderWeight(leaderAccess: Option<Vector>, i: nat): real
    requires leaderAccess.Some? ==> i < |leaderAccess.value|
  {
    if leaderAccess.Some? then leaderAccess.value[i] else 0.0
  }

  /** `get_augmented_laplacian()`: the stored `H`, which is `L + D_lead`. */
  function GetAugmentedLaplacian(t: Topology): (H: Matrix)
    requires t.Valid()
    ensures IsMatrix(H, t.n, t.n)
    ensures forall i, j :: 0 <= i < t.n && 0 <= j < t.n ==> H[i][j] == t.laplacian[i][j] + t.dLead[i][j]
  {
    t.augmented
  }

  /** numpy's `np.where(row > 0)[0]`: the 0-based slots holding a positive
      weight, scanned left to right (see `PositiveSlotsSpec`). */
  function PositiveSlots(row: Vector): seq<nat>
    decreases |row|
  {
    if |row| == 0 then []
    else PositiveSlots(row[..|row| - 1]) + (if row[|row| - 1] > 0.0 then [|row| - 1] else [])
  }

  /** The 1-based ids of the positive slots of `row`. */
  function NeighborIds(row: Vector): seq<int> {
    var s := PositiveSlots(row);
    seq(|s|, t requires 0 <= t < |s| => s[t] + 1)
  }

  /** `PositiveSlots(row)` lists exactly the positive slots, in strictly increasing order. */
  lemma {:induction false} PositiveSlotsSpec(row: Vector)
    ensures forall t :: 0 <= t < |PositiveSlots(row)| ==> PositiveSlots(row)[t] < |row| && row[PositiveSlots(row)[t]] > 0.0
    ensures forall x :: 0 <= x < |row| && row[x] > 0.0 ==> x in PositiveSlots(row)
    ensures forall t, u :: 0 <= t < u < |PositiveSlots(row)| ==> PositiveSlots(row)[t] < PositiveSlots(row)[u]
    decreases |row|
  {
    if |row| > 0 {
      var m := |row| - 1;
      var p := row[..m];
      PositiveSlotsSpec(p);
      var s := PositiveSlots(row);
      var sp := PositiveSlots(p);
      assert s == sp + (if row[m] > 0.0 then [m] else []);
      forall t | 0 <= t < |sp| ensures sp[t] < m && row[sp[t]] > 0.0 {
        assert row[sp[t]] == p[sp[t]];
      }
      forall x | 0 <= x < |row| && row[x] > 0.0 ensures x in s {
        if x < m {
          assert p[x] == row[x];
          assert x in sp;
        } else {
          assert s[|s| - 1] == x;
        }
      }
    }
  }

  /** The ids in `NeighborIds(row)` are exactly the `j` with `row[j − 1] > 0`, in strictly increasing order. */
  lemma {:induction false} NeighborIdsSpec(row: Vector)
    ensures forall x :: x in NeighborIds(row) <==> 1 <= x <= |row| && row[x - 1] > 0.0
    ensures forall p, q :: 0 <= p < q < |NeighborIds(row)| ==> NeighborIds(row)[p] < NeighborIds(row)[q]
  {
    PositiveSlotsSpec(row);
    var s := PositiveSlots(row);
    var ids := NeighborIds(row);
    forall x | 1 <= x <= |row| && row[x - 1] > 0.0 ensures x in ids {
      assert x - 1 in s;
      var p :| 0 <= p < |s| && s[p] == x - 1;
      assert ids[p] == x;
    }
  }

  /** A row without a positive entry has no positive slot. */
  lemma {:induction false} PositiveSlotsNone(row: Vector)
    requires forall j :: 0 <= j < |row| ==> row[j] <= 0.0
    ensures PositiveSlots(row) == []
    decreases |row|
  {
    if |row| > 0 {
      PositiveSlotsNone(row[..|row| - 1]);
    }
  }

  predicate SlotsWithin(s: seq<nat>, n: nat) {
    forall t :: 0 <= t < |s| ==> s[t] < n
  }

  lemma {:induction false} PositiveSlotsWithin(row: Vector)
    ensures SlotsWithin(PositiveSlots(row), |row|)
    decreases |row|
  {
    if |row| > 0 {
      PositiveSlotsWithin(row[..|row| - 1]);
    }
  }

  /** With non-negative weights, summing over the positive slots is summing over
      all slots: a zero-weight entry contributes nothing. */
  lemma {:induction false} PositiveSlotSum(a: Vector, ws: seq<Vector>, dim: nat)
    requires |a| == |ws| && forall j :: 0 <= j < |ws| ==> |ws[j]| == dim
    requires forall j :: 0 <= j < |a| ==> a[j] >= 0.0
    ensures SlotsWithin(PositiveSlots(a), |a|)
    ensures SlotSum(a, ws, PositiveSlots(a), dim) == WeightedSum(a, ws, dim)
    decreases |a|
  {
    PositiveSlotsWithin(a);
    if |a| > 0 {
      var m := |a| - 1;
      var s := PositiveSlots(a[..m]);
      PositiveSlotSum(a[..m], ws[..m], dim);
      SlotSumRestrict(a, ws, a[..m], ws[..m], s, m, dim);
      var x := WeightedSum(a[..m], ws[..m], dim);
      assert WeightedSum(a, ws, dim) == Add(x, Scale(a[m], ws[m]));
      if a[m] > 0.0 {
        assert PositiveSlots(a) == s + [m];
        SlotSumAppend(a, ws, s, m, dim);
      } else {
        assert PositiveSlots(a) == s;
        assert a[m] == 0.0;
        forall c | 0 <= c < dim ensures Add(x, Scale(a[m], ws[m]))[c] == x[c] { }
      }
    }
  }

  /** Row `i` of the augmented Laplacian acting on stacked blocks `ws`:
      `Σ_j H[i][j] w_j = Σ_j A[i][j] (w_i − w_j) + b_i w_i`. */
  lemma {:induction false} AugmentedRowAction(t: Topology, ws: seq<Vector>, dim: nat, i: nat)
    requires t.Valid() && i < t.n
    requires |ws| == t.n && forall j :: 0 <= j < |ws| ==> |ws[j]| == dim
    ensures WeightedSum(t.augmented[i], ws, dim)
         == Add(WeightedSum(t.adj[i], seq(|ws|, j requires 0 <= j < |ws| => Sub(ws[i], ws[j])), dim),
                Scale(t.dLead[i][i], ws[i]))
  {
    var D := Diag(RowSums(t.adj));
    var row := t.adj[i];
    assert |ws[i]| == dim;
    assert t.laplacian[i] == Sub(D[i], row);
    assert t.augmented[i] == Add(Sub(D[i], row), t.dLead[i]);
    WeightedSumAddWeights(Sub(D[i], row), t.dLead[i], ws, dim);
    WeightedSumSubWeights(D[i], row, ws, dim);
    WeightedSumSingle(D[i], ws, dim, i);
    WeightedSumSingle(t.dLead[i], ws, dim, i);
    WeightedSumDifferences(row, ws[i], ws);
  }

  /** `get_neighbors(agent_id)`: the 1-based ids `j` with `A[agent_id − 1][j − 1] > 0`,
      in increasing order. The row is selected with Python's indexing, so ids
      `1 − n .. 0` wrap around to the last rows and other ids raise. */
  function GetNeighbors(t: Topology, agentId: int): (r: Result<seq<int>>)
    requires t.Valid()
    ensures r.Ok? <==> PyIndex(agentId - 1, t.n).Some?
    ensures r.Err? ==> r.error == IndexOutOfRange
    ensures r.Ok? ==> var k := PyIndex(agentId - 1, t.n).value;
      && (forall x :: x in r.value <==> 1 <= x <= t.n && t.adj[k][x - 1] > 0.0)
      && (forall p, q :: 0 <= p < q < |r.value| ==> r.value[p] < r.value[q])
  {
    match PyIndex(agentId - 1, t.n)
    case None => Err(IndexOutOfRange)
    case Some(k) => NeighborIdsSpec(t.adj[k]); Ok(NeighborIds(t.adj[k]))
  }

  /** `sees_leader(agent_id)`: `D_lead[agent_id − 1][agent_id − 1] > 0`, with Python's indexing. */
  function SeesLeader(t: Topology, agentId: int): (r: Result<bool>)
    requires t.Valid()
    ensures r.Ok? <==> PyIndex(agentId - 1, t.n).Some?
    ensures r.Err? ==> r.error == IndexOutOfRange
    ensures r.Ok? ==> var k := PyIndex(agentId - 1, t.n).value; (r.value <==> t.dLead[k][k] > 0.0)
  {
    match PyIndex(agentId - 1, t.n)
    case None => Err(IndexOutOfRange)
    case Some(k) => Ok(t.dLead[k][k] > 0.0)
  }

  // ------------------------------------------------------------------ lemmas

  /** Every row of the Laplacian sums to zero. */
  lemma {:induction false} LaplacianRowSumsZero(adj: Matrix, i: nat)
    requires IsMatrix(adj, |adj|, |adj|) && i < |adj|
    ensures Sum(Laplacian(adj)[i]) == 0.0
  {
    var D := Diag(RowSums(adj));
    assert Laplacian(adj)[i] == Sub(D[i], adj[i]);
    SumSub(D[i], adj[i]);
    SumSingle(D[i], i);
  }

  /** The diagonal of `D_lead` is `leader_access`, or zero when omitted. */
  lemma {:induction false} NewLeaderDiagonal(n: nat, adjacency: Option<Matrix>, leaderAccess: Option<Vector>, i: nat)
    requires adjacency.Some? ==> IsMatrix(adjacency.value, n, n)
    requires leaderAccess.Some? ==> |leaderAccess.value| == n
    requires i < n
    ensures New(n, adjacency, leaderAccess).dLead[i][i] == LeaderWeight(leaderAccess, i)
  {
    var t := New(n, adjacency, leaderAccess);
    if leaderAccess.Some? {
      assert t.dLead == Diag(leaderAccess.value);
    } else {
      assert t.dLead == ZeroMatrix(n, n);
    }
  }

  /** `H` differs from `L` only on the diagonal, where it adds the leader
      weight `D_lead[i][i]` (which `NewLeaderDiagonal` identifies with `leader_access[i]`). */
  lemma {:induction false} AugmentedDiffersOnlyOnDiagonal(t: Topology, i: nat, j: nat)
    requires t.Valid() && i < t.n && j < t.n
    ensures IsMatrix(t.laplacian, t.n, t.n) && IsMatrix(t.augmented, t.n, t.n)
    ensures t.augmented[i][j] == t.laplacian[i][j] + (if i == j then t.dLead[i][i] else 0.0)
  {
  }

  /** A symmetric adjacency yields a symmetric Laplacian and augmented Laplacian. */
  lemma {:induction false} SymmetricAdjacency(t: Topology)
    requires t.Valid() && IsSymmetric(t.adj)
    ensures IsSymmetric(t.laplacian) && IsSymmetric(t.augmented)
  {
    forall i, j | 0 <= i < t.n && 0 <= j < t.n
      ensures t.laplacian[i][j] == t.laplacian[j][i] && t.augmented[i][j] == t.augmented[j][i]
    {
      if i != j {
        assert t.adj[i][j] == t.adj[j][i];
      }
    }
  }

  /** With neither adjacency nor leader access given, all four matrices are zero. */
  lemma {:induction false} DefaultTopologyIsZero(n: nat)
    ensures var t := New(n, None, None);
      t.adj == ZeroMatrix(n, n) && t.dLead == ZeroMatrix(n, n)
      && t.laplacian == ZeroMatrix(n, n) && t.augmented == ZeroMatrix(n, n)
  {
    var t := New(n, None, None);
    var Z := ZeroMatrix(n, n);
    forall i | 0 <= i < n ensures Sum(Z[i]) == 0.0 {
      SumZero(Z[i]);
    }
    forall i | 0 <= i < n ensures t.laplacian[i] == Z[i] {
      assert forall j :: 0 <= j < n ==> t.laplacian[i][j] == 0.0;
    }
    forall i | 0 <= i < n ensures t.augmented[i] == Z[i] {
      assert forall j :: 0 <= j < n ==> t.augmented[i][j] == 0.0;
    }
  }

  /** `sees_leader(i + 1)` holds iff `leader_access[i] > 0`, for the agent of every slot `i`. */
  lemma {:induction false} SeesLeaderIffLeaderAccess(n: nat, adjacency: Option<Matrix>, leaderAccess: Option<Vector>, i: nat)
    requires adjacency.Some? ==> IsMatrix(adjacency.value, n, n)
    requires leaderAccess.Some? ==> |leaderAccess.value| == n
    requires i < n
    ensures SeesLeader(New(n, adjacency, leaderAccess), i + 1) == Ok(LeaderWeight(leaderAccess, i) > 0.0)
  {
    SeesLeaderInRange(New(n, adjacency, leaderAccess), i);
    NewLeaderDiagonal(n, adjacency, leaderAccess, i);
  }

  /** For the agent of slot `i`, `sees_leader` reads its own diagonal entry. */
  lemma {:induction false} SeesLeaderInRange(t: Topology, i: nat)
    requires t.Valid() && i < t.n
    ensures SeesLeader(t, i + 1) == Ok(t.dLead[i][i] > 0.0)
  {
  }

  // ---------------------------------------------------- the six-cycle fixture

  /** The ring `1 − 2 − 3 − 4 − 5 − 6 − 1`. */
  function CycleAdjacency(): Matrix {
    [[0.0, 1.0, 0.0, 0.0, 0.0, 1.0],
     [1.0, 0.0, 1.0, 0.0, 0.0, 0.0],
     [0.0, 1.0, 0.0, 1.0, 0.0, 0.0],
     [0.0, 0.0, 1.0, 0.0, 1.0, 0.0],
     [0.0, 0.0, 0.0, 1.0, 0.0, 1.0],
     [1.0, 0.0, 0.0, 0.0, 1.0, 0.0]]
  }

  function CycleLeaderAccess(): Vector {
    [1.0, 0.0, 1.0, 0.0, 0.0, 0.0]
  }

  function CycleLaplacian(): Matrix {
    [[ 2.0, -1.0,  0.0,  0.0,  0.0, -1.0],
     [-1.0,  2.0, -1.0,  0.0,  0.0,  0.0],
     [ 0.0, -1.0,  2.0, -1.0,  0.0,  0.0],
     [ 0.0,  0.0, -1.0,  2.0, -1.0,  0.0],
     [ 0.0,  0.0,  0.0, -1.0,  2.0, -1.0],
     [-1.0,  0.0,  0.0,  0.0, -1.0,  2.0]]
  }

  function CycleTopology(): (t: Topology)
    ensures t.Valid() && t.n == 6
  {
    New(6, Some(CycleAdjacency()), Some(CycleLeaderAccess()))
  }

  lemma {:induction false} PositiveSlotsStep(row: Vector, m: nat)
    requires m < |row|
    ensures PositiveSlots(row[..m + 1]) == PositiveSlots(row[..m]) + (if row[m] > 0.0 then [m] else [])
  {
    assert row[..m + 1][..m] == row[..m];
  }

  /** Entries that are not positive add no slot. */
  lemma {:induction false} PositiveSlotsSkip(row: Vector, lo: nat, hi: nat)
    requires lo <= hi <= |row|
    requires forall j :: lo <= j < hi ==> row[j] <= 0.0
    ensures PositiveSlots(row[..hi]) == PositiveSlots(row[..lo])
    decreases hi
  {
    if lo < hi {
      PositiveSlotsSkip(row, lo, hi - 1);
      PositiveSlotsStep(row, hi - 1);
    }
  }

  /** Row `i` of the Laplacian of a 6-agent adjacency whose row `i` sums to 2. */
  lemma {:induction false} DegreeTwoLaplacianRow(A: Matrix, i: nat, want: Vector)
    requires IsMatrix(A, 6, 6) && i < 6 && |want| == 6
    requires Sum(A[i]) == 2.0
    requires forall j :: 0 <= j < 6 ==> want[j] == if j == i then 2.0 - A[i][i] else -A[i][j]
    ensures Laplacian(A)[i] == want
  {
  }

  /** The ring's Laplacian has 2 on the diagonal and −1 for each of the two ring neighbours. */
  lemma {:induction false} CycleFixtureLaplacian()
    ensures CycleTopology().laplacian == CycleLaplacian()
  {
    var t := CycleTopology();
    assert t == New(6, Some(CycleAdjacency()), Some(CycleLeaderAccess()));
    assert t.laplacian == Laplacian(CycleAdjacency());
    CycleLaplacianRows();
  }

  lemma {:induction false} CycleLaplacianRows()
    ensures Laplacian(CycleAdjacency()) == CycleLaplacian()
  {
    var L := Laplacian(CycleAdjacency());
    CycleLaplacianPair(0);
    CycleLaplacianPair(2);
    CycleLaplacianPair(4);
    assert L == [L[0], L[1], L[2], L[3], L[4], L[5]];
  }

  /** Rows `i` and `i + 1` of the ring's Laplacian. */
  lemma {:induction false} CycleLaplacianPair(i: nat)
    requires i == 0 || i == 2 || i == 4
    ensures Laplacian(CycleAdjacency())[i] == CycleLaplacian()[i]
    ensures Laplacian(CycleAdjacency())[i + 1] == CycleLaplacian()[i + 1]
  {
    var A := CycleAdjacency();
    var C := CycleLaplacian();
    SumOfSix(A[i]);
    SumOfSix(A[i + 1]);
    DegreeTwoLaplacianRow(A, i, C[i]);
    DegreeTwoLaplacianRow(A, i + 1, C[i + 1]);
  }

  /** The augmented Laplacian adds 1 on the diagonal of the two pinned agents 1 and 3. */
  lemma {:induction false} CycleFixtureAugmented()
    ensures var H := CycleTopology().augmented;
      H[0][0] == 3.0 && H[1][1] == 2.0 && H[2][2] == 3.0
      && H[3][3] == 2.0 && H[4][4] == 2.0 && H[5][5] == 2.0
  {
    CycleFixtureLaplacian();
    var t := CycleTopology();
    assert t.dLead == Diag(CycleLeaderAccess());
  }

  /** The neighbour ids of the ring rows used by the fixtures. */
  lemma {:induction false} CycleNeighborRows()
    ensures NeighborIds(CycleAdjacency()[0]) == [2, 6]
    ensures NeighborIds(CycleAdjacency()[1]) == [1, 3]
    ensures NeighborIds(CycleAdjacency()[2]) == [2, 4]
    ensures NeighborIds(CycleAdjacency()[5]) == [1, 5]
  {
    var A := CycleAdjacency();
    RingRowSlots(A[0], 1, 5);
    RingRowSlots(A[1], 0, 2);
    RingRowSlots(A[2], 1, 3);
    RingRowSlots(A[5], 0, 4);
  }

  /** A 6-entry row with ones at `p < q` and zeros elsewhere has positive slots `[p, q]`. */
  lemma {:induction false} RingRowSlots(row: Vector, p: nat, q: nat)
    requires |row| == 6 && p < q < 6
    requires forall j :: 0 <= j < 6 ==> row[j] == if j == p || j == q then 1.0 else 0.0
    ensures PositiveSlots(row) == [p, q]
  {
    assert PositiveSlots(row[..0]) == [];
    PositiveSlotsSkip(row, 0, p);
    PositiveSlotsStep(row, p);
    PositiveSlotsSkip(row, p + 1, q);
    PositiveSlotsStep(row, q);
    PositiveSlotsSkip(row, q + 1, 6);
    assert row[..6] == row;
  }

  lemma {:induction false} CycleFixtureQueries()
    ensures GetNeighbors(CycleTopology(), 1) == Ok([2, 6])
    ensures GetNeighbors(CycleTopology(), 3) == Ok([2, 4])
    ensures GetNeighbors(CycleTopology(), 6) == Ok([1, 5])
    ensures GetNeighbors(CycleTopology(), 7).Err?
    ensures SeesLeader(CycleTopology(), 1) == Ok(true)
    ensures SeesLeader(CycleTopology(), 2) == Ok(false)
    ensures SeesLeader(CycleTopology(), 3) == Ok(true)
  {
    var t := CycleTopology();
    assert t.adj == CycleAdjacency();
    assert t.dLead == Diag(CycleLeaderAccess());
    CycleNeighborRows();
    assert PyIndex(0, 6) == Some(0);
    assert PyIndex(2, 6) == Some(2);
    assert PyIndex(5, 6) == Some(5);
  }

  // ------------------------------------ leader access passed as a 1×N array

  /** `np.diag(m)` of a two-dimensional `r×c` array: it does not build a
      matrix but extracts the main diagonal, of length `min(r, c)`. */
  function MainDiagonal(m: Matrix, r: nat, c: nat): (d: Vector)
    requires IsMatrix(m, r, c)
    ensures |d| == (if r <= c then r else c)
    ensures forall k :: 0 <= k < |d| ==> d[k] == m[k][k]
  {
    var len := if r <= c then r else c;
    seq(len, k requires 0 <= k < len => m[k][k])
  }

  /** `M + d` for a one-entry array `d`: numpy broadcasts `d[0]` onto every entry of `M`. */
  function AddBroadcast(M: Matrix, d: Vector): (r: Matrix)
    requires |d| == 1
    ensures |r| == |M| && forall i :: 0 <= i < |M| ==> |r[i]| == |M[i]|
  {
    seq(|M|, i requires 0 <= i < |M| => seq(|M[i]|, j requires 0 <= j < |M[i]| => M[i][j] + d[0]))
  }

  /** The augmented Laplacian as the code computes it when `leader_access` is
      the `1×N` array `[access]` its docstring describes: `D_lead` becomes the
      one-entry diagonal `[access[0]]`, which `L + D_lead` adds to every entry. */
  function AugmentedWithAccessArray(adj: Matrix, access: Vector): (H: Matrix)
    requires IsMatrix(adj, |adj|, |adj|) && |access| == |adj| > 0
    ensures IsMatrix(H, |adj|, |adj|)
  {
    AddBroadcast(Laplacian(adj), MainDiagonal([access], 1, |access|))
  }

  /** As written, a `1×N` leader access shifts every entry of `H` by
      `access[0]`, off the diagonal too, and no other leader weight enters. */
  lemma {:induction false} AccessArrayShiftsEveryEntry(adj: Matrix, access: Vector, i: nat, j: nat)
    requires IsMatrix(adj, |adj|, |adj|) && |access| == |adj| > 0
    requires i < |adj| && j < |adj|
    ensures AugmentedWithAccessArray(adj, access)[i][j] == Laplacian(adj)[i][j] + access[0]
  {
    var d := MainDiagonal([access], 1, |access|);
    assert d == [access[0]];
  }

  /** On the six-cycle with `leader_access = [[1, 0, 1, 0, 0, 0]]` the code's `H`
      links agents 1 and 2 with weight 0 instead of −1, and pins agent 3 not at all. */
  lemma {:induction false} AccessArrayCycleCounterexample()
    ensures AugmentedWithAccessArray(CycleAdjacency(), CycleLeaderAccess())[0][1] == 0.0
    ensures AugmentedWithAccessArray(CycleAdjacency(), CycleLeaderAccess())[2][2]
         == Laplacian(CycleAdjacency())[2][2] + 1.0
    ensures AugmentedWithAccessArray(CycleAdjacency(), CycleLeaderAccess())[1][1]
         == Laplacian(CycleAdjacency())[1][1] + 1.0
    ensures CycleTopology().augmented[0][1] == -1.0 && CycleTopology().augmented[1][1] == CycleTopology().laplacian[1][1]
  {
    AccessArrayShiftsEveryEntry(CycleAdjacency(), CycleLeaderAccess(), 0, 1);
    AccessArrayShiftsEveryEntry(CycleAdjacency(), CycleLeaderAccess(), 1, 1);
    AccessArrayShiftsEveryEntry(CycleAdjacency(), CycleLeaderAccess(), 2, 2);
    var t := CycleTopology();
    assert t.adj == CycleAdjacency() && t.dLead == Diag(CycleLeaderAccess());
  }

  /** The constructor with a `1×N` leader access flattened first
      (`np.diag(np.ravel(leader_access))`), as the docstring intends. */
  function NewWithAccessArray(n: nat, adjacency: Option<Matrix>, access: Matrix): (t: Topology)
    requires adjacency.Some? ==> IsMatrix(adjacency.value, n, n)
    requires IsMatrix(access, 1, n)
    ensures t.Valid() && t.n == n && t.dLead == Diag(access[0])
  {
    New(n, adjacency, Some(access[0]))
  }

  /** With the access array flattened, `H` differs from `L` only on the
      diagonal, where agent `i + 1` gets its own weight `access[0][i]`;
      every result of `NewWithAccessArray` meets the requirement on `t`. */
  lemma {:induction false} AccessArrayDiagonal(t: Topology, access: Matrix, i: nat, j: nat)
    requires t.Valid() && IsMatrix(access, 1, t.n) && t.dLead == Diag(access[0])
    requires i < t.n && j < t.n
    ensures IsMatrix(t.laplacian, t.n, t.n) && IsMatrix(t.augmented, t.n, t.n)
    ensures t.augmented[i][j] == t.laplacian[i][j] + (if i == j then access[0][i] else 0.0)
  {
    AugmentedDiffersOnlyOnDiagonal(t, i, j);
  }
}
