/** A follower with double-integrator dynamics `ẋ = A x + B u`, state
    `x = [px, py, vx, vy]`, input `u = [ax, ay]`, advanced by explicit Euler
    steps that are recorded in a history (safety_formation/formation/agent.py). */
module Agents {
  import opened Wrappers
  import opened LinAlg

  /** The shared system matrix `A`: position integrates velocity. */
  const SystemA: Matrix := [[0.0, 0.0, 1.0, 0.0],
                            [0.0, 0.0, 0.0, 1.0],
                            [0.0, 0.0, 0.0, 0.0],
                            [0.0, 0.0, 0.0, 0.0]]

  /** The shared input matrix `B`: the input is an acceleration. */
  const InputB: Matrix := [[0.0, 0.0],
                           [0.0, 0.0],
                           [1.0, 0.0],
                           [0.0, 1.0]]

  /** `ẋ = A x + B u`. */
  function Derivative(x: Vector, u: Vector): (xDot: Vector)
    requires |x| == 4 && |u| == 2
    ensures |xDot| == 4
  {
    Add(MatVec(SystemA, x), MatVec(InputB, u))
  }

  /** One explicit Euler step of the double integrator, axis by axis: the
      position advances by the old velocity, the velocity by the input. */
  function EulerStep(x: Vector, u: Vector, dt: real): (r: Vector)
    requires |x| == 4 && |u| == 2
    ensures |r| == 4
  {
    [x[0] + x[2] * dt, x[1] + x[3] * dt, x[2] + u[0] * dt, x[3] + u[1] * dt]
  }

  /** The matrix form `x + (A x + B u)·dt` is the axis-by-axis step. */
  lemma {:induction false} EulerStepIsDynamics(x: Vector, u: Vector, dt: real)
    requires |x| == 4 && |u| == 2
    ensures Add(x, Scale(dt, Derivative(x, u))) == EulerStep(x, u, dt)
  {
    DotOfFour(SystemA[0], x);
    DotOfFour(SystemA[1], x);
    DotOfFour(SystemA[2], x);
    DotOfFour(SystemA[3], x);
    DotOfTwo(InputB[0], u);
    DotOfTwo(InputB[1], u);
    DotOfTwo(InputB[2], u);
    DotOfTwo(InputB[3], u);
    var r := Add(x, Scale(dt, Derivative(x, u)));
    assert forall c :: 0 <= c < 4 ==> r[c] == EulerStep(x, u, dt)[c];
  }

  /** `k` Euler steps under the same input. */
  function EulerSteps(x: Vector, u: Vector, dt: real, k: nat): (r: Vector)
    requires |x| == 4 && |u| == 2
    ensures |r| == 4
  {
    if k == 0 then x else EulerStep(EulerSteps(x, u, dt, k - 1), u, dt)
  }

  /** What a controller reads of an agent: its id, state and formation offset. */
  datatype AgentView = AgentView(id: int, state: Vector, f: Vector)

  predicate WellShaped(a: AgentView) {
    |a.state| == 4 && |a.f| == 4
  }

  predicate AllWellShaped(agents: seq<AgentView>) {
    forall j :: 0 <= j < |agents| ==> WellShaped(agents[j])
  }

  /** `x − f`: how far the agent is from its slot in the formation. */
  function Deviation(a: AgentView): (d: Vector)
    requires WellShaped(a)
    ensures |d| == 4
  {
    Sub(a.state, a.f)
  }

  class Agent {
    var id: int
    var state: Vector
    var f: Vector
    var history: seq<Vector>

    predicate Valid()
      reads this
    {
      |state| == 4 && |f| == 4 && forall k :: 0 <= k < |history| ==> |history[k]| == 4
    }

    /** `Agent(agent_id, x0, f_target)`: the history starts empty, so the initial state is not recorded. */
    constructor (agentId: int, x0: Vector, fTarget: Vector)
      requires |x0| == 4 && |fTarget| == 4
      ensures Valid()
      ensures id == agentId && state == x0 && f == fTarget && history == []
    {
      id := agentId;
      state := x0;
      f := fTarget;
      history := [];
    }

    /** `update_physics(u, dt)`: `reshape(2, 1)` of an input without two
        entries raises before anything changes; otherwise one Euler step, then
        the new state is recorded. */
    method UpdatePhysics(u: Vector, dt: real) returns (r: Result<()>)
      requires Valid()
      modifies this
      ensures Valid()
      ensures r.Err? <==> |u| != 2
      ensures r.Err? ==> r.error == ShapeMismatch && state == old(state) && history == old(history)
      ensures r.Ok? ==> state == EulerStep(old(state), u, dt) && history == old(history) + [state]
      ensures id == old(id) && f == old(f)
    {
      if |u| != 2 {
        return Err(ShapeMismatch);
      }
      var xDot := Derivative(state, u);
      EulerStepIsDynamics(state, u, dt);
      state := Add(state, Scale(dt, xDot));
      SaveHistory();
      return Ok(());
    }

    /** `save_history()`: appends a copy of the current state. */
    method SaveHistory()
      requires Valid()
      modifies this`history
      ensures Valid()
      ensures history == old(history) + [state]
    {
      history := history + [state];
    }

    /** `pos`: state components 0 and 1. */
    function Pos(): (p: Vector)
      reads this
      requires Valid()
      ensures |p| == 2 && p[0] == state[0] && p[1] == state[1]
    {
      state[0..2]
    }

    /** `vel`: state components 2 and 3. */
    function Vel(): (v: Vector)
      reads this
      requires Valid()
      ensures |v| == 2 && v[0] == state[2] && v[1] == state[3]
    {
      state[2..4]
    }

    /** `get_full_history()`: one row of four entries per recorded step, oldest first. */
    function FullHistory(): (h: Matrix)
      reads this
      requires Valid()
      ensures IsMatrix(h, |history|, 4)
      ensures forall k :: 0 <= k < |history| ==> h[k] == history[k]
    {
      history
    }
  }

  /** The client loop of tests/test_agent.py: `steps` calls of `update_physics`
      under one input leave `steps` new history rows, the last one the state. */
  method RunConstantInput(agent: Agent, u: Vector, dt: real, steps: nat)
    requires agent.Valid() && |u| == 2
    modifies agent
    ensures agent.Valid()
    ensures |agent.history| == |old(agent.history)| + steps
    ensures agent.history[..|old(agent.history)|] == old(agent.history)
    ensures agent.state == EulerSteps(old(agent.state), u, dt, steps)
    ensures steps > 0 ==> agent.history[|agent.history| - 1] == agent.state
    ensures agent.id == old(agent.id) && agent.f == old(agent.f)
  {
    ghost var x0, h0 := agent.state, agent.history;
    var k := 0;
    while k < steps
      invariant 0 <= k <= steps
      invariant agent.Valid()
      invariant |agent.history| == |h0| + k && agent.history[..|h0|] == h0
      invariant agent.state == EulerSteps(x0, u, dt, k)
      invariant k > 0 ==> agent.history[|agent.history| - 1] == agent.state
      invariant agent.id == old(agent.id) && agent.f == old(agent.f)
    {
      ghost var before := agent.history;
      var _ := agent.UpdatePhysics(u, dt);
      assert agent.history[..|h0|] == before[..|h0|];
      k := k + 1;
    }
  }

  // ------------------------------------------------------------------ lemmas

  /** An agent at rest with no input stays where it is. */
  lemma {:induction false} RestIsEquilibrium(x: Vector, dt: real)
    requires |x| == 4 && x[2] == 0.0 && x[3] == 0.0
    ensures EulerStep(x, [0.0, 0.0], dt) == x
  {
    var r := EulerStep(x, [0.0, 0.0], dt);
    assert forall c :: 0 <= c < 4 ==> r[c] == x[c];
  }

  /** One axis after `K` steps under constant acceleration `a` from `(p0, v0)`:
      velocity `v0 + K·dt·a`, position `p0 + K·dt·v0 + (K(K − 1)/2)·dt²·a`. */
  predicate ConstantAccelerationAt(p0: real, v0: real, a: real, K: real, dt: real, p: real, v: real) {
    v == v0 + K * dt * a && p == p0 + K * dt * v0 + (K * (K - 1.0) / 2.0) * dt * dt * a
  }

  /** Under a constant input, `k` Euler steps follow the closed form on both axes. */
  lemma {:induction false} ConstantInputClosedForm(x: Vector, u: Vector, dt: real, k: nat)
    requires |x| == 4 && |u| == 2
    ensures ConstantAccelerationAt(x[0], x[2], u[0], k as real, dt, EulerSteps(x, u, dt, k)[0], EulerSteps(x, u, dt, k)[2])
    ensures ConstantAccelerationAt(x[1], x[3], u[1], k as real, dt, EulerSteps(x, u, dt, k)[1], EulerSteps(x, u, dt, k)[3])
  {
    if k == 0 {
      assert EulerSteps(x, u, dt, k) == x;
      ClosedFormStart(x[0], x[2], u[0], k as real, dt);
      ClosedFormStart(x[1], x[3], u[1], k as real, dt);
    } else {
      ConstantInputClosedForm(x, u, dt, k - 1);
      ClosedFormNextStep(x, u, dt, k);
    }
  }

  /** Step `k` of the induction in `ConstantInputClosedForm`, on both axes. */
  lemma {:induction false} ClosedFormNextStep(x: Vector, u: Vector, dt: real, k: nat)
    requires |x| == 4 && |u| == 2 && k > 0
    requires ConstantAccelerationAt(x[0], x[2], u[0], (k - 1) as real, dt, EulerSteps(x, u, dt, k - 1)[0], EulerSteps(x, u, dt, k - 1)[2])
    requires ConstantAccelerationAt(x[1], x[3], u[1], (k - 1) as real, dt, EulerSteps(x, u, dt, k - 1)[1], EulerSteps(x, u, dt, k - 1)[3])
    ensures ConstantAccelerationAt(x[0], x[2], u[0], k as real, dt, EulerSteps(x, u, dt, k)[0], EulerSteps(x, u, dt, k)[2])
    ensures ConstantAccelerationAt(x[1], x[3], u[1], k as real, dt, EulerSteps(x, u, dt, k)[1], EulerSteps(x, u, dt, k)[3])
  {
    var p := EulerSteps(x, u, dt, k - 1);
    var r := EulerSteps(x, u, dt, k);
    assert r == EulerStep(p, u, dt);
    ClosedFormStep(x[0], x[2], u[0], (k - 1) as real, k as real, dt, p[0], p[2], r[0], r[2]);
    ClosedFormStep(x[1], x[3], u[1], (k - 1) as real, k as real, dt, p[1], p[3], r[1], r[3]);
  }

  /** The closed form at zero steps. */
  lemma {:induction false} ClosedFormStart(p0: real, v0: real, a: real, K: real, dt: real)
    requires K == 0.0
    ensures ConstantAccelerationAt(p0, v0, a, K, dt, p0, v0)
  {
  }

  /** One more Euler step `(p, v) ↦ (p + v·dt, v + a·dt)` keeps the closed form, with one more step counted. */
  lemma {:induction false} ClosedFormStep(p0: real, v0: real, a: real, K: real, K': real, dt: real, p: real, v: real, p': real, v': real)
    requires K' == K + 1.0
    requires ConstantAccelerationAt(p0, v0, a, K, dt, p, v)
    requires p' == p + v * dt && v' == v + a * dt
    ensures ConstantAccelerationAt(p0, v0, a, K', dt, p', v')
  {
    assert K' * (K' - 1.0) / 2.0 == K * (K - 1.0) / 2.0 + K;
    assert v * dt == v0 * dt + K * dt * dt * a;
  }
}
