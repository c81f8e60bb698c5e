/** The two-stage successive-convexification loop shared by
    `SimulerTrajectoire.optimiser_trajectoire` (simultion_final.py) and
    `simuler_trajectoire` (trajectoire_colis/simulation_trajectoire_parachute.py).

    The convex solve itself (cvxpy with ECOS) is an oracle `solve`: given
    the problem (which stage) and the linearisation reference `u_bar`, it
    returns a solution or nothing. The constraints the programs hand to the
    solver are the predicate `Feasible` that every returned solution
    satisfies (`SolverSound`). The normalisation of the previous control
    into the next reference uses square roots and is the parameter
    `normalize`. */
module Convexification {
  import opened Wrappers
  import opened Vectors
  import Vent

  /** MAX_ITER: the loop makes at most this many solver calls. */
  const MaxIter: nat := 50
  /** eps_convergence: two consecutive costs closer than this are "converged". */
  const EpsConvergence: real := 0.01
  /** The value `eps_h` is pinned to during stage 1. */
  const EpsHPinned: real := 0.1
  /** phid_max: the largest turn rate. */
  const PhidMax: real := 0.14
  const Alpha1: real := 100.0
  const Alpha2: real := 10.0
  const Alpha3: real := 1.0

  /** The data every solve shares: release point x_0, initial control u_0,
      target, wind columns W[:, k], horizontal speed profile v and time step. */
  datatype Request = Request(x0: Vec, u0: Vec, target: Vec, w: seq<Vec>, v: seq<real>, dt: real)

  /** N = |v| time steps, at least two, a wind column for every step but the
      last, a positive step and a positive speed everywhere. */
  predicate WellFormed(d: Request)
  {
    |d.v| >= 2 && |d.w| >= |d.v| - 1 && d.dt > 0.0
    && forall k :: 0 <= k < |d.v| ==> d.v[k] > 0.0
  }

  /** Which problem is solved: stage 1 pins `eps_h == 0.1`; stage 2 drops the
      pin and adds `alpha_3 * eps_h` to the cost. */
  datatype Problem = Problem(pinned: bool, augmented: bool)

  const Stage1Problem: Problem := Problem(true, false)
  const Stage2Problem: Problem := Problem(false, true)

  /** The values of the variables x, u and eps_h after a solve, and the value
      of the expression `final_position` (the distance to the target). */
  datatype Solution = Solution(x: seq<Vec>, u: seq<Vec>, epsH: real, finalPosition: real)

  /** `u.value is None` is NoSolution. */
  datatype Outcome = NoSolution | Solved(sol: Solution)

  function Dot(a: Vec, b: Vec): real { a.x * b.x + a.y * b.y }

  /** Trapezoidal dynamics x[k+1] = x[k] + (dt/2) u[k] + (dt/2) u[k+1] + W[:, k];
      the wind column is added as it is, not multiplied by dt. */
  predicate Dynamics(d: Request, s: Solution)
    requires |d.w| >= |d.v| - 1 && |s.x| == |d.v| && |s.u| == |d.v|
  {
    forall k :: 0 <= k < |d.v| - 1 ==>
      s.x[k + 1] == Add(Add(s.x[k], Add(Scale(d.dt * 0.5, s.u[k]), Scale(d.dt * 0.5, s.u[k + 1]))), d.w[k])
  }

  /** |u[k+1] - u[k]| / dt / v[k] <= phid_max, squared (dt and v[k] are positive). */
  predicate TurnRate(d: Request, s: Solution)
    requires |s.u| == |d.v|
  {
    forall k :: 0 <= k < |d.v| - 1 ==>
      NormSq(Sub(s.u[k + 1], s.u[k])) <= Sq(PhidMax * d.dt * d.v[k])
  }

  /** The linearised speed constraint u_bar[:, k] . u[:, k] - v[k] >= -eps_h. */
  predicate Heading(d: Request, ubar: seq<Vec>, s: Solution)
    requires |ubar| == |d.v| && |s.u| == |d.v|
  {
    forall k :: 0 <= k < |d.v| ==> Dot(ubar[k], s.u[k]) - d.v[k] >= -s.epsH
  }

  /** |u[:, k]| - v[k] <= eps_h, squared. */
  predicate SpeedCone(d: Request, s: Solution)
    requires |s.u| == |d.v|
  {
    forall k :: 0 <= k < |d.v| ==> d.v[k] + s.epsH >= 0.0 && NormSq(s.u[k]) <= Sq(d.v[k] + s.epsH)
  }

  /** Everything a solution returned for problem p and reference ubar satisfies. */
  predicate Feasible(d: Request, p: Problem, ubar: seq<Vec>, s: Solution)
    requires WellFormed(d)
  {
    |s.x| == |d.v| && |s.u| == |d.v| && |ubar| == |d.v|
    && s.x[0] == d.x0 && s.u[0] == d.u0
    && Dynamics(d, s) && TurnRate(d, s) && Heading(d, ubar, s) && SpeedCone(d, s)
    && s.epsH >= 0.0 && (p.pinned ==> s.epsH == EpsHPinned)
    && s.finalPosition >= 0.0 && Sq(s.finalPosition) == SquaredDistance(s.x[|d.v| - 1], d.target)
  }

  /** What a solve for p and ubar may answer: nothing, or a feasible solution. */
  predicate Admissible(d: Request, p: Problem, ubar: seq<Vec>, o: Outcome)
    requires WellFormed(d)
  {
    o.Solved? ==> Feasible(d, p, ubar, o.sol)
  }

  /** The oracle only ever returns feasible solutions (which in particular
      have one column per step). */
  ghost predicate SolverSound(d: Request, solve: (Problem, seq<Vec>) -> Outcome)
    requires WellFormed(d)
  {
    SolverShapes(d, solve)
    && forall p: Problem, ubar: seq<Vec> {:trigger Admissible(d, p, ubar, solve(p, ubar))} ::
         |ubar| == |d.v| ==> Admissible(d, p, ubar, solve(p, ubar))
  }

  /** The part of `SolverSound` the loop itself needs: every solution has
      one column per step. */
  ghost predicate SolverShapes(d: Request, solve: (Problem, seq<Vec>) -> Outcome)
  {
    forall p: Problem, ubar: seq<Vec> {:trigger solve(p, ubar)} ::
      |ubar| == |d.v| && solve(p, ubar).Solved? ==> |solve(p, ubar).sol.x| == |d.v| && |solve(p, ubar).sol.u| == |d.v|
  }

  /** The normalisation keeps one column per step. */
  ghost predicate KeepsLength(normalize: seq<Vec> -> seq<Vec>)
  {
    forall u: seq<Vec> {:trigger normalize(u)} :: |normalize(u)| == |u|
  }

  function Abs(r: real): real { if r < 0.0 then -r else r }

  /** sum over k < m of (|u[k+1] - u[k]| / v[k])^2. */
  function SumTurn(d: Request, s: Solution, m: nat): real
    requires WellFormed(d) && |s.u| == |d.v| && m <= |d.v| - 1
  {
    if m == 0 then 0.0
    else SumTurn(d, s, m - 1) + NormSq(Sub(s.u[m], s.u[m - 1])) / d.v[m - 1] / d.v[m - 1]
  }

  /** `cost.value`: alpha_1 * final_position + alpha_2 * final_angle +
      control_cost, plus alpha_3 * eps_h once stage 2 has augmented it. */
  function Cost(d: Request, p: Problem, s: Solution): real
    requires WellFormed(d) && |s.u| == |d.v|
  {
    var n := |d.v|;
    var finalAngle := 2.0 - s.u[n - 1].y / Abs(d.v[n - 1]);
    var controlCost := SumTurn(d, s, n - 1) / d.dt;
    Alpha1 * s.finalPosition + Alpha2 * finalAngle + controlCost
      + (if p.augmented then Alpha3 * s.epsH else 0.0)
  }

  /** `abs(a - b) < eps_convergence`. */
  predicate Close(a: real, b: real)
  {
    -EpsConvergence < a - b < EpsConvergence
  }

  /** The test of iteration i, read on the whole cost array, is CloseAt on
      the history written so far. */
  lemma CloseOnHistory(history: seq<real>, i: nat)
    requires 0 < i < |history|
    ensures (Abs(history[i] - history[i - 1]) < EpsConvergence) == CloseAt(history[..i + 1], i)
  {}


  /** Iteration j > 0 passes the convergence test against iteration j - 1. */
  predicate CloseAt(costs: seq<real>, j: int)
  {
    0 < j < |costs| && Close(costs[j], costs[j - 1])
  }

  /** The loop variables between two iterations: the problem, the parameter
      u_bar, the histories it_cost and X up to the current iteration, and the
      stage-1 index once `first_stage_converged` holds. */
  datatype LoopState = LoopState(problem: Problem, ubar: seq<Vec>, costs: seq<real>,
                                 xs: seq<seq<Vec>>, stage1: Option<nat>)

  /** The committed result: both convergence indices, the histories, the
      committed trajectory X[:, :, n_iter] and the solution and reference of
      that last solve. */
  datatype Committed = Committed(nIterFirst: nat, nIter: nat, costs: seq<real>, xs: seq<seq<Vec>>,
                                 xStar: seq<Vec>, sol: Solution, ubar: seq<Vec>)

  /** The solver found nothing at an iteration (before its history slot is
      written), or the 50 iterations ran out and `n_iter` was never bound. */
  datatype OptError = SolverFailed(iteration: nat, costs: seq<real>) | NotConverged(costs: seq<real>)

  /** Why a guidance run ends without a result: the wind import raised; the
      (2, N) parameter u_bar was given a value with another number of
      columns (ValueError); a wind column W[:, k] past the last one was read
      (IndexError); or the loop itself failed. */
  datatype GuidanceError =
    | WindImport(windError: Vent.WindError)
    | ShapeMismatch
    | WindIndex
    | Loop(loopError: OptError)

  /** What a guidance run returns: x_star, the landing error (here squared),
      the landing point (x_star[0, -1], x_star[1, -1]), z_t and time. */
  datatype Output = Output(xStar: seq<Vec>, errorSq: real, landing: Vec, zt: seq<real>, time: seq<real>)

  function Initial(ubar0: seq<Vec>): LoopState
  {
    LoopState(Stage1Problem, ubar0, [], [], None)
  }

  /** The loop from iteration i on. `minStage1` is the first iteration at
      which stage 1 may end: 1 for `i > 0`, 2 for `i > 1`. */
  function Iterate(d: Request, solve: (Problem, seq<Vec>) -> Outcome, normalize: seq<Vec> -> seq<Vec>,
                   minStage1: nat, i: nat, s: LoopState): Result<Committed, OptError>
    requires WellFormed(d) && SolverShapes(d, solve) && KeepsLength(normalize)
    requires i <= MaxIter && |s.costs| == i && |s.xs| == i && |s.ubar| == |d.v|
    decreases MaxIter - i
  {
    if i == MaxIter then Failure(NotConverged(s.costs))
    else
      match solve(s.problem, s.ubar)
      case NoSolution => Failure(SolverFailed(i, s.costs))
      case Solved(sol) =>
        var costs := s.costs + [Cost(d, s.problem, sol)];
        var xs := s.xs + [sol.x];
        var next := normalize(sol.u);
        if CloseAt(costs, i) && s.stage1.Some? then
          Success(Committed(s.stage1.value, i, costs, xs, sol.x, sol, s.ubar))
        else if CloseAt(costs, i) && i >= minStage1 && s.stage1.None? then
          Iterate(d, solve, normalize, minStage1, i + 1, LoopState(Stage2Problem, next, costs, xs, Some(i)))
        else
          Iterate(d, solve, normalize, minStage1, i + 1, LoopState(s.problem, next, costs, xs, s.stage1))
  }

  /** `X[:, :, i] = x` and `it_cost[i] = c`: slot i of each history is
      written and nothing else changes. */
  method Record(xHistory: array<seq<Vec>>, itCost: array<real>, i: nat, x: seq<Vec>, c: real)
    requires i < xHistory.Length && i < itCost.Length
    modifies xHistory, itCost
    ensures xHistory[..] == old(xHistory[..])[i := x] && itCost[..] == old(itCost[..])[i := c]
    ensures xHistory[..i + 1] == old(xHistory[..i]) + [x] && itCost[..i + 1] == old(itCost[..i]) + [c]
  {
    xHistory[i] := x;
    itCost[i] := c;
    assert itCost[..i + 1] == old(itCost[..i]) + [c];
  }

  /** One iteration of `Iterate` when the solver answers: the next state,
      the commit, or the switch to stage 2. */
  lemma IterateSolved(d: Request, solve: (Problem, seq<Vec>) -> Outcome, normalize: seq<Vec> -> seq<Vec>,
                      minStage1: nat, i: nat, s: LoopState)
    requires WellFormed(d) && SolverShapes(d, solve) && KeepsLength(normalize)
    requires i < MaxIter && |s.costs| == i && |s.xs| == i && |s.ubar| == |d.v|
    requires solve(s.problem, s.ubar).Solved?
    ensures var sol := solve(s.problem, s.ubar).sol;
            var costs := s.costs + [Cost(d, s.problem, sol)];
            var xs := s.xs + [sol.x];
            Iterate(d, solve, normalize, minStage1, i, s)
            == if CloseAt(costs, i) && s.stage1.Some? then
                 Success(Committed(s.stage1.value, i, costs, xs, sol.x, sol, s.ubar))
               else if CloseAt(costs, i) && i >= minStage1 && s.stage1.None? then
                 Iterate(d, solve, normalize, minStage1, i + 1, LoopState(Stage2Problem, normalize(sol.u), costs, xs, Some(i)))
               else
                 Iterate(d, solve, normalize, minStage1, i + 1, LoopState(s.problem, normalize(sol.u), costs, xs, s.stage1))
  {}

  /** What holds of the loop variables after i iterations without a commit. */
  predicate Consistent(d: Request, minStage1: nat, i: nat, s: LoopState)
  {
    |s.costs| == i && |s.xs| == i && |s.ubar| == |d.v|
    && (s.stage1.None? ==>
          s.problem == Stage1Problem
          && forall j :: minStage1 <= j < i ==> !CloseAt(s.costs, j))
    && (s.stage1.Some? ==>
          s.problem == Stage2Problem
          && minStage1 <= s.stage1.value < i && CloseAt(s.costs, s.stage1.value)
          && (forall j :: minStage1 <= j < s.stage1.value ==> !CloseAt(s.costs, j))
          && (forall j :: s.stage1.value < j < i ==> !CloseAt(s.costs, j)))
  }

  /** Appending a cost does not change the tests of the earlier iterations. */
  lemma CloseAtExtend(costs: seq<real>, c: real, j: int)
    requires j < |costs|
    ensures CloseAt(costs + [c], j) == CloseAt(costs, j)
  {
    if 0 < j {
      assert (costs + [c])[j] == costs[j] && (costs + [c])[j - 1] == costs[j - 1];
    }
  }

  /** The meaning of a committed result: stage 1 ended at the first
      iteration from minStage1 on that passed the test, stage 2 at the next
      one (strictly later), the committed trajectory is that iteration's
      history slot, and it solves the stage-2 problem. */
  predicate CommitMeaning(d: Request, minStage1: nat, c: Committed)
    requires WellFormed(d)
  {
    minStage1 <= c.nIterFirst < c.nIter < MaxIter
    && |c.costs| == c.nIter + 1 && |c.xs| == c.nIter + 1
    && CloseAt(c.costs, c.nIterFirst) && CloseAt(c.costs, c.nIter)
    && (forall j :: minStage1 <= j < c.nIterFirst ==> !CloseAt(c.costs, j))
    && (forall j :: c.nIterFirst < j < c.nIter ==> !CloseAt(c.costs, j))
    && c.xStar == c.xs[c.nIter] == c.sol.x
    && Feasible(d, Stage2Problem, c.ubar, c.sol)
    && c.costs[c.nIter] == Cost(d, Stage2Problem, c.sol)
  }

  /** The meaning of a failure: a solver failure at iteration i leaves
      exactly i history slots; running out of iterations means 50 costs
      among which no test from minStage1 on is followed by a later one. */
  predicate FailureMeaning(minStage1: nat, e: OptError)
  {
    match e
    case SolverFailed(i, costs) => i < MaxIter && |costs| == i
    case NotConverged(costs) =>
      |costs| == MaxIter
      && forall t1, t2 :: minStage1 <= t1 < t2 < |costs| && CloseAt(costs, t1) ==> !CloseAt(costs, t2)
  }

  /** From a consistent state, a commit meets CommitMeaning: the solver
      being sound, the committed solution is feasible for stage 2. */
  lemma {:induction false} IterateCommits(d: Request, solve: (Problem, seq<Vec>) -> Outcome,
                                          normalize: seq<Vec> -> seq<Vec>, minStage1: nat, i: nat, s: LoopState)
    requires WellFormed(d) && SolverSound(d, solve) && KeepsLength(normalize)
    requires i <= MaxIter && Consistent(d, minStage1, i, s)
    ensures Iterate(d, solve, normalize, minStage1, i, s).Success? ==>
      CommitMeaning(d, minStage1, Iterate(d, solve, normalize, minStage1, i, s).value)
    decreases MaxIter - i
  {
    if i < MaxIter && solve(s.problem, s.ubar).Solved? {
      var sol := solve(s.problem, s.ubar).sol;
      var costs := s.costs + [Cost(d, s.problem, sol)];
      var xs := s.xs + [sol.x];
      var next := normalize(sol.u);
      forall j | j < i ensures CloseAt(costs, j) == CloseAt(s.costs, j) {
        CloseAtExtend(s.costs, Cost(d, s.problem, sol), j);
      }
      if CloseAt(costs, i) && s.stage1.Some? {
        assert Admissible(d, s.problem, s.ubar, solve(s.problem, s.ubar));
        assert xs[i] == sol.x;
      } else if CloseAt(costs, i) && i >= minStage1 && s.stage1.None? {
        IterateCommits(d, solve, normalize, minStage1, i + 1, LoopState(Stage2Problem, next, costs, xs, Some(i)));
      } else {
        var s' := LoopState(s.problem, next, costs, xs, s.stage1);
        assert Consistent(d, minStage1, i + 1, s');
        IterateCommits(d, solve, normalize, minStage1, i + 1, s');
      }
    }
  }

  /** From a consistent state, a failure meets FailureMeaning; this needs
      only the shapes of the solver's answers. */
  lemma {:induction false} IterateFails(d: Request, solve: (Problem, seq<Vec>) -> Outcome,
                                        normalize: seq<Vec> -> seq<Vec>, minStage1: nat, i: nat, s: LoopState)
    requires WellFormed(d) && SolverShapes(d, solve) && KeepsLength(normalize)
    requires i <= MaxIter && Consistent(d, minStage1, i, s)
    ensures Iterate(d, solve, normalize, minStage1, i, s).Failure? ==>
      FailureMeaning(minStage1, Iterate(d, solve, normalize, minStage1, i, s).error)
    decreases MaxIter - i
  {
    if i < MaxIter && solve(s.problem, s.ubar).Solved? {
      var sol := solve(s.problem, s.ubar).sol;
      var costs := s.costs + [Cost(d, s.problem, sol)];
      var xs := s.xs + [sol.x];
      var next := normalize(sol.u);
      forall j | j < i ensures CloseAt(costs, j) == CloseAt(s.costs, j) {
        CloseAtExtend(s.costs, Cost(d, s.problem, sol), j);
      }
      if CloseAt(costs, i) && i >= minStage1 && s.stage1.None? {
        IterateFails(d, solve, normalize, minStage1, i + 1, LoopState(Stage2Problem, next, costs, xs, Some(i)));
      } else if !CloseAt(costs, i) || s.stage1.None? {
        var s' := LoopState(s.problem, next, costs, xs, s.stage1);
        assert Consistent(d, minStage1, i + 1, s');
        IterateFails(d, solve, normalize, minStage1, i + 1, s');
      }
    }
  }

  /** Every result of the loop, started from a consistent state, means what
      CommitMeaning or FailureMeaning says. */
  lemma IterateMeaning(d: Request, solve: (Problem, seq<Vec>) -> Outcome,
                       normalize: seq<Vec> -> seq<Vec>, minStage1: nat, i: nat, s: LoopState)
    requires WellFormed(d) && SolverSound(d, solve) && KeepsLength(normalize)
    requires i <= MaxIter && Consistent(d, minStage1, i, s)
    ensures Iterate(d, solve, normalize, minStage1, i, s).Success? ==>
      CommitMeaning(d, minStage1, Iterate(d, solve, normalize, minStage1, i, s).value)
    ensures Iterate(d, solve, normalize, minStage1, i, s).Failure? ==>
      FailureMeaning(minStage1, Iterate(d, solve, normalize, minStage1, i, s).error)
  {
    IterateCommits(d, solve, normalize, minStage1, i, s);
    IterateFails(d, solve, normalize, minStage1, i, s);
  }

  /** The reference u_bar the loop starts from: u_init / norms with
      u_init[:, k] = (v[k] cos psi_0, v[k] sin psi_0) = (v[k], 0) for
      psi_0 = 0, and norms the column norms after the zero clamp. */
  function InitialReference(v: seq<real>, norms: seq<real>): (ubar: seq<Vec>)
    requires |norms| == |v| && forall k :: 0 <= k < |norms| ==> norms[k] != 0.0
    ensures |ubar| == |v|
  {
    seq(|v|, k requires 0 <= k < |v| => Vec(v[k] / norms[k], 0.0 / norms[k]))
  }

  /** With a positive speed everywhere and norms = |v|, every initial
      reference is the unit heading psi_0 = 0 (the norms |v[k]| are v[k]). */
  lemma InitialReferenceIsHeading(v: seq<real>, norms: seq<real>)
    requires |norms| == |v| && forall k :: 0 <= k < |v| ==> v[k] > 0.0 && norms[k] == v[k]
    ensures forall k :: 0 <= k < |v| ==> InitialReference(v, norms)[k] == Vec(1.0, 0.0)
  {
    forall k | 0 <= k < |v| ensures InitialReference(v, norms)[k] == Vec(1.0, 0.0) {
      assert v[k] / v[k] == 1.0;
    }
  }

  /** `norms[norms == 0] = 1e-6` on a value: zero entries become 1e-6. */
  function Clamped(n: real): (r: real)
    ensures r != 0.0
    ensures n != 0.0 ==> r == n
  {
    if n == 0.0 then 0.000001 else n
  }

  /** The same clamp, in place, as numpy does it on the array `norms`. */
  method ClampZeroNorms(norms: array<real>)
    modifies norms
    ensures forall k :: 0 <= k < norms.Length ==> norms[k] == Clamped(old(norms[k]))
    ensures forall k :: 0 <= k < norms.Length ==> norms[k] != 0.0
  {
    var k := 0;
    while k < norms.Length
      invariant 0 <= k <= norms.Length
      invariant forall j :: 0 <= j < k ==> norms[j] == Clamped(old(norms[j]))
      invariant forall j :: k <= j < norms.Length ==> norms[j] == old(norms[j])
    {
      if norms[k] == 0.0 {
        norms[k] := 0.000001;
      }
      k := k + 1;
    }
  }
}
