# Safety formation control: the control-law core in Dafny

This project models the control-law stack of a leader–follower formation
library. It uses exact linear algebra over `real`: vectors are `seq<real>`
and matrices are `seq<seq<real>>`. It covers:

- **Topology** (`topology.dfy`). The follower graph: adjacency `A`, leader-pinning diagonal `D_lead`, Laplacian `L = diag(rowsum A) − A` and augmented Laplacian `H = L + D_lead`. It also answers the 1-based neighbour and "sees the leader" queries.
- **Agent** (`agent.dfy`). A double integrator `ẋ = A x + B u` advanced by explicit Euler steps. Each new state is appended to the agent's history. This is a class with `state` and `history` fields.
- **Base controller** (`base_controller.dfy`). The abstract `compute_nominal` and the shared consensus-error helper, an accumulating loop.
- **Centralized law** (`centralized_formation.dfy`). `U = −(H ⊗ K)(X − F − X_L) + (I ⊗ K′)F`, reshaped to one row `[ax, ay]` per follower. A Kronecker-product definition is proved to give the block form of row `i`.
- **Distributed law** (`distributed_formation.dfy`). For follower `i`, `u_i = −K(Σ_j a_ij((x_i − f_i) − (x_j − f_j)) + b_i(x_i − f_i − x_L))`, accumulated by a loop over the neighbours. The file holds two versions:
  - the code as written, which never returns a command;
  - a corrected version. For non-negative adjacency weights it is proved equal to the centralized law's row minus that row's feed-forward term `K′ f_i`. The distributed law has no feed-forward term.
- **CBF safety filter** (`base_cbf.dfy`). The QP `min ½uᵀPu + qᵀu s.t. Gu ≤ h` with `P = I₂` and `q = −u_nom`. There is a pass-through when there are no constraints and a fallback to `u_nom` when the solver finds no feasible point. The solver, the constraint generator and the wrapped nominal controller are function-valued parameters. The filter's guarantees are proved under stated contracts on them (`SoundSolver`, `OptimalSolver`, `CompleteSolver`).
- **Error tracker** (`metric.dfy`). Records per-step absolute tracking errors `|x_i − f_i − x_0|`, with their mean and max. This is a class with three list fields.

Supporting modules:

- `Wrappers` holds `Option` and `Result`, plus an `Error` type naming the Python exceptions the core raises (`ValueError`, `IndexError`, `AttributeError`, `NotImplementedError`).
- `LinAlg` holds vectors, matrices, `Flatten` (numpy `vstack`/`flatten`), `Tile`, `Reshape2`, `Kron` and weighted sums.

Python's indexing rule is modelled by `LinAlg.PyIndex` wherever the source indexes with a caller-supplied id: a negative index counts from the end, and anything else out of range raises.

Controllers receive the agents as a sequence of `AgentView` values (id, state, offset). Because of that, "agent states are only read" holds by construction.

## Model

| member | source | states |
|---|---|---|
| LinAlg.PyIndex | safety_formation/formation/topology.py:67 | Python indexing: defined iff `−len ≤ k < len`; in range it is `k` itself, and a negative `k` counts from the end |
| LinAlg.Reshape2 | safety_formation/control_law/nominal/centralized_formation.py:88 | `reshape(n, 2)` of a `2n` vector gives `n` rows, and row `i` is entries `2i`, `2i+1` |
| LinAlg.Kron | safety_formation/control_law/nominal/centralized_formation.py:82-83 | `kron(A, B)` of a `p×q` and an `m×s` matrix is `pm×qs` (its rows are given by `KronIndex`) |
| LinAlg.KronIndex | safety_formation/control_law/nominal/centralized_formation.py:82-83 | row `i·m + k` of `kron(A, B)`, for `B` with `m` rows, is row `i` of `A` with each entry scaling row `k` of `B` |
| LinAlg.KronRowDot | safety_formation/control_law/nominal/centralized_formation.py:82-85 | a Kronecker row applied to a stack of blocks is the right factor applied to the weighted sum of the blocks |
| LinAlg.MatVecWeightedSum | safety_formation/control_law/nominal/centralized_formation.py:85 | applying `K` commutes with summing weighted blocks |
| Topology.Laplacian | safety_formation/formation/topology.py:38-45 | `L` is n×n, `L[i][j] = −A[i][j]` off the diagonal and `L[i][i] = Σ_k A[i][k] − A[i][i]` |
| Topology.AugmentedLaplacian | safety_formation/formation/topology.py:47-53 | `H = L + D_lead` agrees with `L` off the diagonal and adds `D_lead[i][i]` on it |
| Topology.New | safety_formation/formation/topology.py:9-36 | an omitted adjacency or leader access becomes the zero n×n matrix; `D_lead = diag(leader_access)`; the stored `L` and `H` are n×n |
| Topology.NewLeaderDiagonal | safety_formation/formation/topology.py:29-32 | `D_lead[i][i]` is `leader_access[i]`, or 0 when leader access is omitted |
| Topology.AugmentedDiffersOnlyOnDiagonal | safety_formation/formation/topology.py:47-53 | `H[i][j] = L[i][j]` for `i ≠ j` and `H[i][i] = L[i][i] + D_lead[i][i]` |
| Topology.LaplacianRowSumsZero | safety_formation/formation/topology.py:44-45 | every row of `L` sums to zero |
| Topology.SymmetricAdjacency | safety_formation/formation/topology.py:44-53 | a symmetric `A` gives symmetric `L` and `H` |
| Topology.DefaultTopologyIsZero | safety_formation/formation/topology.py:23-36 | with neither adjacency nor leader access, `A`, `D_lead`, `L` and `H` are all the zero n×n matrix |
| Topology.GetAugmentedLaplacian | safety_formation/formation/topology.py:55-61 | returns an n×n matrix whose entries are `L[i][j] + D_lead[i][j]`, the `H` stored at construction |
| Topology.PositiveSlotsSpec | safety_formation/formation/topology.py:67 | `np.where(row > 0)`: a slot is listed iff its entry is positive, and the slots are strictly increasing |
| Topology.NeighborIdsSpec | safety_formation/formation/topology.py:67 | the 1-based ids listed are exactly the `j` with `row[j − 1] > 0`, in increasing order |
| Topology.GetNeighbors | safety_formation/formation/topology.py:63-67 | succeeds iff `agent_id − 1` is a valid Python index and otherwise raises `IndexError`; on success `x` is listed iff `1 ≤ x ≤ n` and `A[k][x − 1] > 0`, strictly increasing |
| Topology.SeesLeader | safety_formation/formation/topology.py:69-73 | succeeds iff `agent_id − 1` is a valid Python index; on success it is true iff `D_lead[k][k] > 0` |
| Topology.SeesLeaderIffLeaderAccess | safety_formation/formation/topology.py:69-73 | `sees_leader(i + 1)` is true iff `leader_access[i] > 0` (false when leader access is omitted) |
| Topology.AugmentedRowAction | safety_formation/formation/topology.py:44-53 | `Σ_j H[i][j] w_j = Σ_j A[i][j](w_i − w_j) + D_lead[i][i] w_i` for any blocks `w` |
| Topology.MainDiagonal | safety_formation/formation/topology.py:30 | `np.diag` of an `r×c` matrix is its `min(r, c)` main-diagonal entries |
| Topology.AddBroadcast | safety_formation/formation/topology.py:53 | adding a one-entry array to a matrix keeps the matrix's shape |
| Topology.AugmentedWithAccessArray | safety_formation/formation/topology.py:30-53 | `H` as computed when leader access is a `1×N` array: an n×n matrix |
| Topology.AccessArrayShiftsEveryEntry | safety_formation/formation/topology.py:30-53 | with a `1×N` leader access every entry of `H` is `L[i][j] + leader_access[0][0]` |
| Topology.AccessArrayCycleCounterexample | safety_formation/formation/topology.py:30-53 | on the six-cycle with access `[[1, 0, 1, 0, 0, 0]]`, `H[0][1] = 0` and `H[1][1] = L[1][1] + 1` (and `H[2][2] = L[2][2] + 1`), where the flat vector gives `H[0][1] = −1` and `H[1][1] = L[1][1]` |
| Topology.NewWithAccessArray | safety_formation/formation/topology.py:18-36 | flattening the `1×N` access first gives a valid topology with `D_lead = diag(leader_access[0])` |
| Topology.AccessArrayDiagonal | safety_formation/formation/topology.py:47-53 | with the flattened access, `H` differs from `L` only on the diagonal, by `leader_access[0][i]` |
| Topology.CycleFixtureLaplacian | tests/test_topology.py:5-35 | the six-cycle fixture's `L` is 2 on the diagonal and −1 on the ring neighbours |
| Topology.CycleFixtureAugmented | tests/test_topology.py:19-37 | with leader access `[1, 0, 1, 0, 0, 0]`, the fixture's `H` has diagonal 3, 2, 3, 2, 2, 2 |
| Topology.CycleFixtureQueries | tests/test_topology.py:40-47 | neighbours of 1, 3 and 6 are `[2, 6]`, `[2, 4]` and `[1, 5]`; agent 7 raises; agents 1, 2 and 3 see the leader true, false and true |
| Agents.Derivative | safety_formation/formation/agent.py:59 | `ẋ = A x + B u` is a 4-vector (its entries are given by `EulerStepIsDynamics`) |
| Agents.EulerStep | safety_formation/formation/agent.py:59-62 | one Euler step of a 4-state is a 4-state, equal to `x + ẋ·dt` by `EulerStepIsDynamics` |
| Agents.EulerStepIsDynamics | safety_formation/formation/agent.py:56-62 | `x + (A x + B u)·dt` moves each position by the old velocity·dt and each velocity by the input·dt |
| Agents.Agent.constructor | safety_formation/formation/agent.py:26-46 | id, state and offset are as given and the history starts empty |
| Agents.Agent.UpdatePhysics | safety_formation/formation/agent.py:48-65 | raises `ValueError` and changes nothing iff the input does not have two entries; otherwise the new state is one Euler step of the old and exactly that state is appended to the history; `id` and `f` are unchanged |
| Agents.Agent.SaveHistory | safety_formation/formation/agent.py:67-69 | appends exactly the current state to the history and changes nothing else |
| Agents.Agent.Pos | safety_formation/formation/agent.py:71-74 | state components 0 and 1 |
| Agents.Agent.Vel | safety_formation/formation/agent.py:76-79 | state components 2 and 3 |
| Agents.Agent.FullHistory | safety_formation/formation/agent.py:81-83 | one row of four entries per recorded step, in recording order |
| Agents.RunConstantInput | tests/test_agent.py:19-30 | `k` calls add exactly `k` history rows after the old ones; the state is `k` Euler steps of the old; the last row is the state |
| Agents.RestIsEquilibrium | safety_formation/formation/agent.py:59-62 | zero velocity and zero input leave the state unchanged |
| Agents.ConstantInputClosedForm | safety_formation/formation/agent.py:59-62 | after `k` steps under a constant `u`, `v = v0 + k·dt·u` and `p = p0 + k·dt·v0 + (k(k−1)/2)·dt²·u` on each axis |
| BaseController.BaseComputeNominal | safety_formation/control_law/base_controller.py:7-17 | always raises `NotImplementedError` |
| BaseController.NeighborErrors | safety_formation/control_law/base_controller.py:19-35 | the only exception is `IndexError`; a result is a 4-vector, and there is one only when the id is a valid Python index both of the agent list and of the adjacency rows |
| BaseController.GetNeighborErrors | safety_formation/control_law/base_controller.py:19-35 | the loop returns `Σ_{j : A[id][j] > 0} A[id][j]((x_j − f_j) − (x_i − f_i))`, or the `IndexError` |
| BaseController.NoNeighborsNoError | safety_formation/control_law/base_controller.py:25-28 | an agent with no positive adjacency entry gets the zero 4-vector |
| BaseController.ConsensusNoError | safety_formation/control_law/base_controller.py:31-33 | when all agents share the same `x − f`, a successful result is the zero 4-vector |
| Centralized.NewController | safety_formation/control_law/nominal/centralized_formation.py:22-31 | construction succeeds iff both gains are 2×4 arrays and otherwise raises `ValueError`; the gains are stored as given |
| Centralized.DefaultFeedForwardRejected | safety_formation/control_law/nominal/centralized_formation.py:22-31 | with the default `K_prime_matrix=0`, construction always raises |
| Centralized.NewControllerZeroDefault | safety_formation/control_law/nominal/centralized_formation.py:22-31 | the corrected constructor: the same checks and result, with `K′` defaulting to the zero 2×4 matrix |
| Centralized.ZeroDefaultAccepted | safety_formation/control_law/nominal/centralized_formation.py:22-31 | with the corrected default every 2×4 `K` is accepted and `K′ = 0` |
| Centralized.LeaderOrZero | safety_formation/control_law/nominal/centralized_formation.py:71-74 | an omitted leader state is the zero 4-vector; a given one is used as is |
| Centralized.ComputeNominal | safety_formation/control_law/nominal/centralized_formation.py:33-88 | succeeds iff `H` is n×n for the `n > 0` agents, the stacked states and offsets have length `4n` and the leader state has four entries; otherwise raises `ValueError`; success gives `n` rows of 2 |
| Centralized.StackedErrors | safety_formation/control_law/nominal/centralized_formation.py:62-79 | `X − F − tile(x_L, n)` is the stack of the per-agent errors `x_j − f_j − x_L` |
| Centralized.NominalIsStackedLaw | safety_formation/control_law/nominal/centralized_formation.py:51-88 | on well-shaped agents matching the topology the result is the reshaped `−(H ⊗ K)(X − F − X_L) + (I ⊗ K′)F` |
| Centralized.StackedLaw | safety_formation/control_law/nominal/centralized_formation.py:79-85 | `U_all = −(H ⊗ K)(X − F − X_L) + (I ⊗ K′)F` has `2n` entries (their values are given by `StackedLawEntries`) |
| Centralized.StackedLawEntries | safety_formation/control_law/nominal/centralized_formation.py:79-85 | entry `2i + k` of `U_all` is `−K[k]·Σ_j H[i][j] e_j + K′[k]·f_i` |
| Centralized.FeedbackEntry | safety_formation/control_law/nominal/centralized_formation.py:82-85 | row `2i + k` of `kron(H, K)` applied to the stacked errors is `K[k]·Σ_j H[i][j] e_j` |
| Centralized.FeedForwardEntry | safety_formation/control_law/nominal/centralized_formation.py:83-85 | row `2i + k` of `kron(I, K′)` applied to `F` is `K′[k]·f_i` |
| Centralized.StackedRowBlockForm | safety_formation/control_law/nominal/centralized_formation.py:85-88 | row `i` of the reshaped law is `−K Σ_j H[i][j] e_j + K′ f_i` |
| Centralized.RowBlockForm | safety_formation/control_law/nominal/centralized_formation.py:76-88 | row `i` of `compute_nominal` is `−K(Σ_j H[i][j](x_j − f_j − x_L)) + K′ f_i` |
| Centralized.RowClosedForm | safety_formation/control_law/nominal/centralized_formation.py:79-88 | row `i` is `K′ f_i − Σ_j H[i][j]·K(x_j − f_j − x_L)` |
| Centralized.InFormationFeedForwardOnly | safety_formation/control_law/nominal/centralized_formation.py:79-85 | if every agent has `x_j = f_j + x_L`, row `i` is exactly `K′ f_i` |
| Centralized.OmittedLeaderIsZero | safety_formation/control_law/nominal/centralized_formation.py:71-76 | omitting the leader state is the same as passing the zero 4-vector |
| Distributed.IdSlotsOfNeighborIds | safety_formation/control_law/nominal/distributed_formation.py:36 | shifting the 1-based neighbour ids down by one gives exactly the positive slots of the row |
| Distributed.DistributedLaw | safety_formation/control_law/nominal/distributed_formation.py:14-55 | corrected law: succeeds iff the leader state has four entries, `1 ≤ agent_id ≤ n` and `K` is 2×4; the error cases are `ValueError` and `IndexError`; success gives a 2-vector |
| Distributed.NeighborSum | safety_formation/control_law/nominal/distributed_formation.py:35-45 | the neighbour sum `Σ_{j ∈ N_i} a_ij((x_i − f_i) − (x_j − f_j))` is a 4-vector (its value is related to `H` by `NeighborSumIsAugmentedRow`) |
| Distributed.LeaderTerm | safety_formation/control_law/nominal/distributed_formation.py:49-50 | the leader term `b_i(x_i − f_i − x_L)` is a 4-vector (it vanishes at the slot by `LeaderTermAtSlot`) |
| Distributed.SumNeighborDifferences | safety_formation/control_law/nominal/distributed_formation.py:35-45 | the loop over the neighbour ids returns `Σ_{j ∈ N_i} a_ij((x_i − f_i) − (x_j − f_j))` |
| Distributed.ComputeNominal | safety_formation/control_law/nominal/distributed_formation.py:14-55 | the corrected method returns exactly `DistributedLaw`: `−K(neighbour sum + b_i(x_i − f_i − x_L))` or its error |
| Distributed.LawValue | safety_formation/control_law/nominal/distributed_formation.py:49-55 | for a follower that passes every check, the command is `−K(neighbour sum + D_lead[i][i](x_i − f_i − x_L))` |
| Distributed.OmittedLeaderIsZero | safety_formation/control_law/nominal/distributed_formation.py:22-25 | omitting the leader state is the same as passing the zero 4-vector |
| Distributed.AgreementNoNeighborSum | safety_formation/control_law/nominal/distributed_formation.py:38-45 | when every follower has the same `x − f`, the neighbour sum is zero |
| Distributed.LeaderTermAtSlot | safety_formation/control_law/nominal/distributed_formation.py:49-50 | a follower at its slot relative to the leader has no leader term |
| Distributed.NoNeighborsNoNeighborSum | safety_formation/control_law/nominal/distributed_formation.py:35-45 | with no positive adjacency entry the neighbour sum is zero |
| Distributed.InFormationZeroCommand | safety_formation/control_law/nominal/distributed_formation.py:31-53 | if every follower has `x_j = f_j + x_L`, the command is the zero 2-vector |
| Distributed.IsolatedZeroCommand | safety_formation/control_law/nominal/distributed_formation.py:35-53 | a follower with no neighbours and `b_i = 0` gets the zero command |
| Distributed.HelperIsNegatedNeighborSum | safety_formation/control_law/base_controller.py:33 | indexed with the same slot, the base helper returns the negation of the distributed neighbour sum |
| Distributed.NeighborSumIsAugmentedRow | safety_formation/control_law/nominal/distributed_formation.py:35-50 | with non-negative weights, neighbour sum plus leader term is `Σ_j H[i][j](x_j − f_j − x_L)` |
| Distributed.AgreesWithCentralized | safety_formation/control_law/nominal/distributed_formation.py:35-53 | the corrected command of follower `id` is row `id − 1` of the centralized output minus `K′ f_i` |
| Distributed.AccumulateAsWritten | safety_formation/control_law/nominal/distributed_formation.py:38-45 | the loop as written raises `IndexError` exactly when some neighbour id overruns `all_agents` or the adjacency row, or the row index is invalid |
| Distributed.ComputeNominalAsWritten | safety_formation/control_law/nominal/distributed_formation.py:14-55 | the code as written never returns a command; it raises the exception named by `AsWrittenError` |
| Distributed.AsWrittenLastAgentFails | safety_formation/control_law/nominal/distributed_formation.py:27 | as written, follower `n` of `n` always raises `IndexError` |
| Distributed.AsWrittenCycleFirst | safety_formation/control_law/nominal/distributed_formation.py:36-39 | on the six-cycle, follower 1 raises `IndexError` because its neighbour id 6 overruns the list |
| Distributed.AsWrittenCycleSecond | safety_formation/control_law/nominal/distributed_formation.py:49 | on the six-cycle, follower 2 gets through the loop and then raises `AttributeError` for `b_diag` |
| Distributed.CorrectedCycleAnswers | safety_formation/control_law/nominal/distributed_formation.py:14-55 | the corrected law returns a command for every follower of the six-cycle |
| SafetyFilter.NewCbf | safety_formation/control_law/cbf/base_cbf.py:5-11 | the filter stores the given safety distance |
| SafetyFilter.DefaultSafetyDistance | safety_formation/control_law/cbf/base_cbf.py:5-11 | the default safety distance is 0.5 |
| SafetyFilter.BaseGenerateConstraints | safety_formation/control_law/cbf/base_cbf.py:49-51 | always raises `NotImplementedError` |
| SafetyFilter.SolveCbfQp | safety_formation/control_law/cbf/base_cbf.py:23-47 | a generator error propagates; no constraints pass `u_nom` through; the infeasible flag is raised iff the solver returns nothing, and then the result is `u_nom`; otherwise the result is the solver's answer |
| SafetyFilter.ComputeSafeControl | safety_formation/control_law/cbf/base_cbf.py:13-21 | the nominal controller's error propagates; otherwise the result is `solve_cbf_qp` of its command for the same agent |
| SafetyFilter.ObjectiveIsDistance | safety_formation/control_law/cbf/base_cbf.py:28-31 | with `P = I₂`, `q = −u_nom` the objective is `½‖u − u_nom‖² − ½‖u_nom‖²` |
| SafetyFilter.FilterIsSafe | safety_formation/control_law/cbf/base_cbf.py:41-47 | under a sound solver an unflagged output satisfies `G u ≤ h` |
| SafetyFilter.FilterIsClosest | safety_formation/control_law/cbf/base_cbf.py:28-41 | under an optimal solver an unflagged output is a feasible point nearest `u_nom` |
| SafetyFilter.FallbackOnlyWhenInfeasible | safety_formation/control_law/cbf/base_cbf.py:41-45 | under a complete solver the fallback happens only when no command is feasible |
| SafetyFilter.BaseFilterRaises | safety_formation/control_law/cbf/base_cbf.py:49-51 | a filter built on the base generator raises `NotImplementedError` whenever the nominal law answers |
| Metric.AbsErrors | utils/metric.py:29-31 | the recorded vector has `4N` entries, four per follower (entries as in `AbsErrorsEntry`) |
| Metric.AbsErrorsEntry | utils/metric.py:26-31 | entry `4j + c` is `abs(x_j[c] − f_j[c] − x_0[c])` |
| Metric.AbsErrorsNonNegative | utils/metric.py:29 | every recorded entry is non-negative |
| Metric.ZeroErrorIffInFormation | utils/metric.py:29 | all entries are zero iff every follower has `x_j = f_j + x_0` |
| Metric.Mean | utils/metric.py:33 | `N·mean` is the sum of the entries |
| Metric.Max | utils/metric.py:34 | the max bounds every entry and equals one of them |
| Metric.MeanWithinMax | utils/metric.py:33-34 | for non-negative entries `0 ≤ mean ≤ max` |
| Metric.RecordedSummaries | utils/metric.py:29-34 | for `N ≥ 1` the recorded `0 ≤ mean ≤ max`, and `max = 0` iff the followers are in formation |
| Metric.ErrorTracker.constructor | utils/metric.py:10-13 | the three histories start empty |
| Metric.ErrorTracker.Step | utils/metric.py:15-34 | raises `ValueError` with nothing recorded iff the leader state does not have four entries or there are no followers; otherwise appends exactly the error vector, its mean and its max |
| Metric.ErrorTracker.GetHistory | utils/metric.py:36-38 | the recorded error vectors, unchanged |
| Metric.ErrorTracker.GetMeanHistory | utils/metric.py:40-42 | one mean per recorded step, the mean of that step's error vector |
| Metric.ErrorTracker.GetMaxHistory | utils/metric.py:44-46 | one max per recorded step, the max of that step's error vector |
| Metric.TrackSteps | utils/metric.py:32-34 | `k` valid steps make the three histories `k` longer, and their lengths stay equal |

## Left out

- utils/visualizer.py is not part of this model: it only plots.
- The QP solver (qpsolvers with cvxopt) is a parameter, not modelled. Its behaviour is constrained only by the predicates `SoundSolver`, `OptimalSolver` and `CompleteSolver`. An exception raised inside the solver is not modelled.
- The warning `print` in `solve_cbf_qp` is console output. It becomes the `infeasible` flag of `FilterOutput`.
- No concrete constraint generator or barrier function is modelled, since the base class only declares `generate_constraints`.
- `BaseCBF.compute_safe_control` calls `compute_nominal(agent_id, all_agents, topology)`. That signature does not match the centralized controller's `compute_nominal(all_agents, topology, leader_state)`. The filter is modelled against an abstract nominal law, so the mismatch is not represented.
- `safety_dist` is stored (`dMin`), but no shown code reads it.
- Floating-point rounding and `np.allclose` tolerances are not modelled: arithmetic is exact over `real`.
- numpy coercion (`np.array`, `dtype=float`, column versus flat vectors) is not modelled. States, offsets and leader states are flat vectors. Where the source reshapes a caller's input and the reshape cannot succeed, the model returns `ShapeMismatch`: the control input of `Agents.Agent.UpdatePhysics`, the leader state of the error tracker and of both formation laws.
- Topology.New: requires an n×n adjacency and a leader-access vector of length n. The code has no shape check of its own, and several wrong shapes raise nothing: numpy broadcasts them silently. A length-1 leader access, a `1×N` leader access (see Findings) or a 1×1 adjacency adds one number to every entry of `H`. The model gives meaning only to n-shaped inputs, plus the `1×N` access through `AugmentedWithAccessArray`.
- Agents.Agent.constructor: requires four-entry state and offset vectors. The source relies on numpy shapes here and has no explicit check.
- Distributed.DistributedLaw: the corrected law requires `|all_agents| == n`. This is the consistent-indexing premise; a list of another length is not given a meaning.
- Distributed.DistributedLaw checks the shape of `K` where the product `K @ (...)` is taken. The as-written code reaches that product on no path.
- Distributed.ComputeNominalAsWritten: the as-written method computes the loop's sum only to find whether it raises. Since the code never returns a command, the sum itself is not returned.
- BaseController.NeighborErrors uses `agent_id` as a 0-based index, as the code does. The sign convention is the mirror of the distributed law's; `Distributed.HelperIsNegatedNeighborSum` relates the two.
- Metric.ErrorTracker.Step: with no followers, `np.vstack([])` raises before anything is appended. This is modelled as an error, so `N ≥ 1` is not a precondition.
- Spectral and stability properties (positive definiteness of `H`, eigenvalues, convergence over time) are not modelled; no shown code computes them.
- The `main()` harnesses of the test files are not modelled. The topology fixture and the agent loop appear as lemmas and as `Agents.RunConstantInput`.
- `__repr__` and other printing helpers are left out.

## Findings

| source | as written | input that shows it | evidently intended | confidence | as-written member | corrected member |
|---|---|---|---|---|---|---|
| safety_formation/control_law/nominal/distributed_formation.py:49 | reads `topology.b_diag`, which `Topology` never defines | follower 2 of the six-cycle fixture passes the loop and then raises `AttributeError` | `b_i` is the diagonal entry `D_lead[i][i]` | not executed | Distributed.AsWrittenCycleSecond | Distributed.AgreesWithCentralized |
| safety_formation/control_law/nominal/distributed_formation.py:27-44 | `all_agents[agent_id]`, `all_agents[j]` and `adj_matrix[agent_id, j]` index with 1-based ids | follower 1 of the six-cycle: neighbour id 6 overruns the six-agent list (`IndexError`); follower `n` always overruns at `all_agents[n]` | shift agent and neighbour ids down by one before indexing | not executed | Distributed.AsWrittenCycleFirst | Distributed.CorrectedCycleAnswers |
| safety_formation/control_law/nominal/distributed_formation.py:14-55 | no path returns a command | every follower, every topology (`AsWrittenError` names the exception) | return `−K(neighbour sum + b_i e_i)` | not executed | Distributed.ComputeNominalAsWritten | Distributed.ComputeNominal |
| safety_formation/control_law/nominal/centralized_formation.py:22-31 | the default `K_prime_matrix=0` is a 0-dimensional array, which fails the 2×4 check | `CentralizedFormationControl(K)` with any 2×4 `K` raises `ValueError` | default to the zero 2×4 matrix | not executed | Centralized.DefaultFeedForwardRejected | Centralized.ZeroDefaultAccepted |
| safety_formation/formation/topology.py:30 | `np.diag(leader_access)` on the `1×N` array the docstring describes extracts its one-entry diagonal, and `L + D_lead` broadcasts that entry onto every entry of `H` | the six-cycle with `[[1, 0, 1, 0, 0, 0]]`: `H[0][1]` becomes 0 instead of −1, and agent 2, which has no leader access, gets leader weight 1 | build `D_lead` from the flattened access | not executed | Topology.AccessArrayCycleCounterexample | Topology.AccessArrayDiagonal |
