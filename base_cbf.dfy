/** The control-barrier-function safety filter
    (safety_formation/control_law/cbf/base_cbf.py): the nominal command is
    replaced by the solution of the quadratic programme
    `min ½ uᵀ P u + qᵀ u  subject to  G u ≤ h` with `P = I₂`, `q = −u_nom`,
    that is, by the point of `{u | G u ≤ h}` closest to `u_nom`.

    The QP solver (qpsolvers with cvxopt), the nominal controller and the
    constraint generator that subclasses supply are calls into code outside
    the model; they are parameters here, and the filter's guarantees are
    proved under stated contracts on them. */
module SafetyFilter {
  import opened Wrappers
  import opened LinAlg
  import opened Topology
  import opened Agents

  /** What `generate_constraints` returns: `(None, None)` when nothing is near,
      otherwise the half-spaces `G u ≤ h`. */
  datatype ConstraintSet = Unconstrained | Halfspaces(G: Matrix, h: Vector)

  /** `solve_qp(P, q, G, h)`: a minimiser of `½ uᵀ P u + qᵀ u` over `G u ≤ h`, or `None`. */
  type QpSolver = (Matrix, Vector, Matrix, Vector) -> Option<Vector>

  /** `generate_constraints(agent_id, all_agents)`. */
  type ConstraintGenerator = (int, seq<AgentView>) -> Result<ConstraintSet>

  /** `compute_nominal(agent_id, all_agents, topology)` of the wrapped controller. */
  type NominalLaw = (int, seq<AgentView>, Topology) -> Result<Vector>

  /** A `BaseCBF` instance: the wrapped nominal controller, the constraint
      generator of the concrete subclass, and the minimum safety distance. */
  datatype Cbf = Cbf(nominal: NominalLaw, generate: ConstraintGenerator, dMin: real)

  /** The filter's answer. `infeasible` records the warning printed when the
      solver finds no feasible point and the nominal command is kept. */
  datatype FilterOutput = FilterOutput(u: Vector, infeasible: bool)

  /** `BaseCBF(nominal_controller, safety_dist=0.5)`. */
  function NewCbf(nominal: NominalLaw, generate: ConstraintGenerator, safetyDist: real := 0.5): (c: Cbf)
    ensures c.dMin == safetyDist
  {
    Cbf(nominal, generate, safetyDist)
  }

  /** The base `generate_constraints`: subclasses must override it. */
  function BaseGenerateConstraints(agentId: int, agents: seq<AgentView>): (r: Result<ConstraintSet>)
    ensures r.Err? && r.error.NotImplemented?
  {
    Err(NotImplemented("generate_constraints"))
  }

  /** `u` lies in every half-space of `G u ≤ h`. */
  predicate Satisfies(G: Matrix, h: Vector, u: Vector) {
    |G| == |h| && forall k :: 0 <= k < |G| ==> |G[k]| == |u| && Dot(G[k], u) <= h[k]
  }

  /** `½ uᵀ P u + qᵀ u`. */
  function QpObjective(P: Matrix, q: Vector, u: Vector): real
    requires |q| == |u| && IsMatrix(P, |u|, |u|)
  {
    0.5 * Dot(u, MatVec(P, u)) + Dot(q, u)
  }

  /** `‖u − v‖²`. */
  function SquaredDistance(u: Vector, v: Vector): real
    requires |u| == |v|
  {
    Dot(Sub(u, v), Sub(u, v))
  }

  /** The solver contract: an answer has the dimension of `q` and is feasible. */
  ghost predicate SoundSolver(solve: QpSolver) {
    forall P, q, G, h :: solve(P, q, G, h).Some? ==>
      |solve(P, q, G, h).value| == |q| && Satisfies(G, h, solve(P, q, G, h).value)
  }

  /** The stronger contract: an answer minimises the objective over the feasible set. */
  ghost predicate OptimalSolver(solve: QpSolver) {
    SoundSolver(solve) &&
    forall P, q, G, h, v :: solve(P, q, G, h).Some? && |v| == |q| && IsMatrix(P, |q|, |q|) && Satisfies(G, h, v) ==>
      QpObjective(P, q, solve(P, q, G, h).value) <= QpObjective(P, q, v)
  }

  /** The solver answers whenever the feasible set is not empty. */
  ghost predicate CompleteSolver(solve: QpSolver) {
    forall P, q, G, h, v :: |v| == |q| && Satisfies(G, h, v) ==> solve(P, q, G, h).Some?
  }

  /** `solve_cbf_qp(u_nom, agent_id, all_agents)`: with no constraints the
      nominal command passes through; when the solver reports infeasibility the
      nominal command is kept and the warning flag is set; otherwise the
      solver's answer is returned. An exception of the generator propagates. */
  function SolveCbfQp(uNom: Vector, agentId: int, agents: seq<AgentView>, generate: ConstraintGenerator, solve: QpSolver): (r: Result<FilterOutput>)
    ensures r.Err? <==> generate(agentId, agents).Err?
    ensures r.Err? ==> r.error == generate(agentId, agents).error
    ensures generate(agentId, agents) == Ok(Unconstrained) ==> r == Ok(FilterOutput(uNom, false))
    ensures r.Ok? && r.value.infeasible ==> r.value.u == uNom && generate(agentId, agents).value.Halfspaces?
    ensures r.Ok? && generate(agentId, agents).value.Halfspaces? ==>
      var cs := generate(agentId, agents).value;
      (r.value.infeasible <==> solve(Identity(2), Neg(uNom), cs.G, cs.h).None?)
    ensures r.Ok? && generate(agentId, agents).value.Halfspaces? && !r.value.infeasible ==>
      var cs := generate(agentId, agents).value;
      r.value.u == solve(Identity(2), Neg(uNom), cs.G, cs.h).value
  {
    var P := Identity(2);
    var q := Neg(uNom);
    match generate(agentId, agents)
    case Err(e) => Err(e)
    case Ok(Unconstrained) => Ok(FilterOutput(uNom, false))
    case Ok(Halfspaces(G, h)) =>
      match solve(P, q, G, h)
      case None => Ok(FilterOutput(uNom, true))
      case Some(u) => Ok(FilterOutput(u, false))
  }

  /** `compute_safe_control(agent_id, all_agents, topology)`: the filter applied
      to the wrapped controller's command for the same agent. */
  function ComputeSafeControl(c: Cbf, agentId: int, agents: seq<AgentView>, t: Topology, solve: QpSolver): (r: Result<FilterOutput>)
    ensures c.nominal(agentId, agents, t).Err? ==> r == Err(c.nominal(agentId, agents, t).error)
    ensures c.nominal(agentId, agents, t).Ok? ==>
      r == SolveCbfQp(c.nominal(agentId, agents, t).value, agentId, agents, c.generate, solve)
  {
    match c.nominal(agentId, agents, t)
    case Err(e) => Err(e)
    case Ok(uNom) => SolveCbfQp(uNom, agentId, agents, c.generate, solve)
  }

  // ------------------------------------------------------------------ lemmas

  /** With `P = I₂` and `q = −u_nom` the objective is `½‖u − u_nom‖² − ½‖u_nom‖²`,
      so minimising it is finding the feasible point closest to `u_nom`. */
  lemma {:induction false} ObjectiveIsDistance(u: Vector, uNom: Vector)
    requires |u| == 2 && |uNom| == 2
    ensures QpObjective(Identity(2), Neg(uNom), u) == 0.5 * SquaredDistance(u, uNom) - 0.5 * Dot(uNom, uNom)
  {
    var Iu := MatVec(Identity(2), u);
    DotOfTwo(Identity(2)[0], u);
    DotOfTwo(Identity(2)[1], u);
    assert Iu == u;
    DotOfTwo(u, u);
    DotOfTwo(Neg(uNom), u);
    DotOfTwo(Sub(u, uNom), Sub(u, uNom));
    DotOfTwo(uNom, uNom);
  }

  /** Under a sound solver the filter's output is feasible unless the warning flag is set. */
  lemma {:induction false} FilterIsSafe(uNom: Vector, agentId: int, agents: seq<AgentView>, generate: ConstraintGenerator, solve: QpSolver)
    requires SoundSolver(solve)
    requires generate(agentId, agents).Ok? && generate(agentId, agents).value.Halfspaces?
    ensures SolveCbfQp(uNom, agentId, agents, generate, solve).Ok?
    ensures var out := SolveCbfQp(uNom, agentId, agents, generate, solve).value;
      var cs := generate(agentId, agents).value;
      !out.infeasible ==> |out.u| == |uNom| && Satisfies(cs.G, cs.h, out.u)
  {
    var cs := generate(agentId, agents).value;
    var a := solve(Identity(2), Neg(uNom), cs.G, cs.h);
    if a.Some? {
      assert |a.value| == |Neg(uNom)| && Satisfies(cs.G, cs.h, a.value);
    }
  }

  /** Under an optimal solver, and a 2-vector nominal command, the output is a
      feasible point of least distance to `u_nom`. */
  lemma {:induction false} FilterIsClosest(uNom: Vector, agentId: int, agents: seq<AgentView>, generate: ConstraintGenerator, solve: QpSolver, v: Vector)
    requires OptimalSolver(solve) && |uNom| == 2
    requires generate(agentId, agents).Ok? && generate(agentId, agents).value.Halfspaces?
    requires |v| == 2 && Satisfies(generate(agentId, agents).value.G, generate(agentId, agents).value.h, v)
    ensures SolveCbfQp(uNom, agentId, agents, generate, solve).Ok?
    ensures var out := SolveCbfQp(uNom, agentId, agents, generate, solve).value;
      !out.infeasible ==> |out.u| == 2 && SquaredDistance(out.u, uNom) <= SquaredDistance(v, uNom)
  {
    var cs := generate(agentId, agents).value;
    var P, q := Identity(2), Neg(uNom);
    var a := solve(P, q, cs.G, cs.h);
    if a.Some? {
      assert |a.value| == 2;
      assert QpObjective(P, q, a.value) <= QpObjective(P, q, v);
      ObjectiveIsDistance(a.value, uNom);
      ObjectiveIsDistance(v, uNom);
    }
  }

  /** Under a complete solver the warning is raised only when no command satisfies the constraints. */
  lemma {:induction false} FallbackOnlyWhenInfeasible(uNom: Vector, agentId: int, agents: seq<AgentView>, generate: ConstraintGenerator, solve: QpSolver, v: Vector)
    requires CompleteSolver(solve)
    requires generate(agentId, agents).Ok? && generate(agentId, agents).value.Halfspaces?
    requires |v| == |uNom| && Satisfies(generate(agentId, agents).value.G, generate(agentId, agents).value.h, v)
    ensures SolveCbfQp(uNom, agentId, agents, generate, solve) .Ok?
    ensures !SolveCbfQp(uNom, agentId, agents, generate, solve).value.infeasible
  {
    var cs := generate(agentId, agents).value;
    assert |v| == |Neg(uNom)|;
    assert solve(Identity(2), Neg(uNom), cs.G, cs.h).Some?;
  }

  /** A filter built on the base class raises `NotImplementedError` whenever the
      nominal controller returns a command. */
  lemma {:induction false} BaseFilterRaises(nominal: NominalLaw, agentId: int, agents: seq<AgentView>, t: Topology, solve: QpSolver)
    requires nominal(agentId, agents, t).Ok?
    ensures var r := ComputeSafeControl(NewCbf(nominal, BaseGenerateConstraints), agentId, agents, t, solve);
      r.Err? && r.error.NotImplemented?
  {
    var c := NewCbf(nominal, BaseGenerateConstraints);
    assert c.generate(agentId, agents).Err?;
  }

  /** The default minimum safety distance is 0.5. */
  lemma {:induction false} DefaultSafetyDistance(nominal: NominalLaw, generate: ConstraintGenerator)
    ensures NewCbf(nominal, generate).dMin == 0.5
  {
  }
}
