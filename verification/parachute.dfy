/** `simuler_trajectoire` of trajectoire_colis/simulation_trajectoire_parachute.py:
    the earlier, function-shaped version of the guided descent. The release
    point is the target (lat, lon) itself, the time grid is
    `np.linspace(0, tf, N)`, the reference starts from u_init / |u_init|
    without a zero clamp, and stage 1 may only end from iteration 2 on
    (`i > 1`). */
module SimulationParachute {
  import opened Wrappers
  import opened Vectors
  import opened Convexification
  import PyList
  import Vent

  /** `np.linspace(start, stop, num)`: num evenly spaced values from start
      to stop, both included. */
  function Linspace(start: real, stop: real, num: nat): (t: seq<real>)
    ensures |t| == num
    ensures num >= 1 ==> t[0] == start
    ensures num >= 2 ==> t[num - 1] == stop
    ensures num >= 2 ==> forall k :: 0 <= k < num - 1 ==> t[k + 1] - t[k] == (stop - start) / (num - 1) as real
  {
    if num <= 1 then seq(num, k => start)
    else
      var step := (stop - start) / (num - 1) as real;
      var t := seq(num, k requires 0 <= k < num => start + k as real * step);
      assert t[num - 1] == start + (num - 1) as real * step;
      assert (num - 1) as real * step == stop - start;
      t
  }

  /** `np.linalg.norm(u_init, axis=0)` for u_init = (v, 0): the column norms |v[k]|. */
  function ColumnNorms(v: seq<real>): (norms: seq<real>)
    ensures |norms| == |v|
    ensures forall k :: 0 <= k < |v| ==> norms[k] == Abs(v[k])
  {
    seq(|v|, k requires 0 <= k < |v| => Abs(v[k]))
  }

  /** The data of every solve: x_0 = target = (lat, lon), u_0 = (v[0], 0),
      the wind columns, v and dt = tf / (N - 1). */
  function ParachuteRequest(lat: real, lon: real, n: int, vent: Vent.VentOutput, v: seq<real>, tf: real): Request
    requires |vent.w.vx| == |vent.w.vy| && |v| >= 1 && n != 1
  {
    Request(Vec(lat, lon), Vec(v[0], 0.0), Vec(lat, lon), Vent.Columns(vent.w), v, tf / (n - 1) as real)
  }

  /** With a positive speed everywhere the starting reference is the unit
      heading psi_0 = 0 in every column. */
  lemma InitialIsHeading(v: seq<real>)
    requires forall k :: 0 <= k < |v| ==> v[k] > 0.0
    ensures forall k :: 0 <= k < |v| ==> ColumnNorms(v)[k] != 0.0
    ensures forall k :: 0 <= k < |v| ==> InitialReference(v, ColumnNorms(v))[k] == Vec(1.0, 0.0)
  {
    InitialReferenceIsHeading(v, ColumnNorms(v));
  }

  /** The `for i in range(MAX_ITER)` loop: solve, fail when u has no value
      (`np.linalg.norm(u.value, axis=0)` raises on None), set x_star and store X[:, :, i] and
      it_cost[i]; then first the stage-2 test
      `abs(it_cost[i] - it_cost[i - 1]) < 0.01 and first_stage_converged`,
      which breaks, then the stage-1 test `i > 1 and ... and not
      first_stage_converged`. At i = 0 `it_cost[i - 1]` is `it_cost[-1]`,
      the slot `np.empty` left as `uninitialised`; the result does not depend
      on it, since `first_stage_converged` is still false and `i > 1` fails. */
  method StageLoop(d: Request, solve: (Problem, seq<Vec>) -> Outcome, normalize: seq<Vec> -> seq<Vec>,
                   ubar0: seq<Vec>, uninitialised: real)
    returns (r: Result<Committed, OptError>)
    requires WellFormed(d) && SolverShapes(d, solve) && KeepsLength(normalize) && |ubar0| == |d.v|
    ensures r == Iterate(d, solve, normalize, 2, 0, Initial(ubar0))
  {
    var xHistory := new seq<Vec>[MaxIter](_ => []);
    var itCost := new real[MaxIter](_ => uninitialised);
    var problem := Stage1Problem;
    var ubar := ubar0;
    var firstStageConverged := false;
    var nIterFirst: nat := 0;
    var xStar: seq<Vec> := [];
    var i: nat := 0;
    ghost var goal := Iterate(d, solve, normalize, 2, 0, Initial(ubar0));
    assert itCost[..0] == [] && xHistory[..0] == [];
    while i < MaxIter
      invariant i <= MaxIter && |ubar| == |d.v|
      invariant firstStageConverged ==> nIterFirst < i
      invariant goal == Iterate(d, solve, normalize, 2, i, LoopState(problem, ubar, itCost[..i], xHistory[..i],
                                                                    if firstStageConverged then Some(nIterFirst) else None))
    {
      ghost var st := LoopState(problem, ubar, itCost[..i], xHistory[..i],
                                if firstStageConverged then Some(nIterFirst) else None);
      var out := solve(problem, ubar);
      if out.NoSolution? {
        assert goal == Failure(SolverFailed(i, itCost[..i]));
        return Failure(SolverFailed(i, itCost[..i]));
      }
      var sol := out.sol;
      var usedRef := ubar;
      ubar := normalize(sol.u);
      xStar := sol.x;
      Record(xHistory, itCost, i, xStar, Cost(d, problem, sol));
      var previous := PyList.Index(itCost[..], i as int - 1);
      var close := Abs(itCost[i] - previous.value) < EpsConvergence;
      if i > 0 {
        CloseOnHistory(itCost[..], i);
      }
      assert i > 0 ==> close == CloseAt(itCost[..i + 1], i);
      if close && firstStageConverged {
        assert goal == Success(Committed(nIterFirst, i, itCost[..i + 1], xHistory[..i + 1], xStar, sol, usedRef)) by {
          IterateSolved(d, solve, normalize, 2, i, st);
        }
        return Success(Committed(nIterFirst, i, itCost[..i + 1], xHistory[..i + 1], xStar, sol, usedRef));
      }
      if i > 1 && close && !firstStageConverged {
        problem := Stage2Problem;
        firstStageConverged := true;
        nIterFirst := i;
      }
      assert goal == Iterate(d, solve, normalize, 2, i + 1, LoopState(problem, ubar, itCost[..i + 1], xHistory[..i + 1],
                                                                      if firstStageConverged then Some(nIterFirst) else None)) by {
        IterateSolved(d, solve, normalize, 2, i, st);
      }
      i := i + 1;
    }
    assert itCost[..] == itCost[..i];
    r := Failure(NotConverged(itCost[..]));
  }

  /** `simuler_trajectoire` once the wind is imported and every column
      W[:, k] it reads exists: the reference u_bar, the loop, and the tuple
      `(x_star, erreur, (xf, yf), z_t, time)`, with z_t the import's own
      profile and time `np.linspace(0, tf, N)`. When the loop ends without
      the stage-2 break `n_iter` is unbound and Python stops with a
      `NameError` (NotConverged here). */
  method Guide(lat: real, lon: real, n: int, vent: Vent.VentOutput, v: seq<real>, tf: real,
               solve: (Problem, seq<Vec>) -> Outcome,
               normalize: seq<Vec> -> seq<Vec>, uninitialised: real)
    returns (r: Result<Output, OptError>)
    requires |v| == n && n >= 2 && |vent.w.vx| == |vent.w.vy| >= n - 1
    requires WellFormed(ParachuteRequest(lat, lon, n, vent, v, tf))
    requires SolverSound(ParachuteRequest(lat, lon, n, vent, v, tf), solve) && KeepsLength(normalize)
    ensures forall k :: 0 <= k < |v| ==> ColumnNorms(v)[k] != 0.0
    ensures var d := ParachuteRequest(lat, lon, n, vent, v, tf);
            var res := Iterate(d, solve, normalize, 2, 0, Initial(InitialReference(v, ColumnNorms(v))));
            (r.Success? <==> res.Success?)
            && (r.Failure? ==> r.error == res.error && FailureMeaning(2, r.error))
            && (r.Success? ==>
                  CommitMeaning(d, 2, res.value)
                  && r.value.xStar == res.value.xStar
                  && r.value.landing == Last(res.value.xStar)
                  && r.value.errorSq == SquaredDistance(r.value.landing, Vec(lat, lon))
                  && r.value.zt == vent.zt && r.value.time == Linspace(0.0, tf, n))
  {
    var d := ParachuteRequest(lat, lon, n, vent, v, tf);
    var time := Linspace(0.0, tf, n);
    InitialIsHeading(v);
    var ubar := InitialReference(v, ColumnNorms(v));
    IterateMeaning(d, solve, normalize, 2, 0, Initial(ubar));
    var res := StageLoop(d, solve, normalize, ubar, uninitialised);
    if res.Failure? {
      return Failure(res.error);
    }
    var landing := Last(res.value.xs[res.value.nIter]);
    r := Success(Output(res.value.xStar, SquaredDistance(landing, Vec(lat, lon)), landing, vent.zt, time));
  }

  /** `simuler_trajectoire(lat, lon, N)`. `import_vent(lat, lon, N)` binds N
      to the hour index and keeps the default number of steps
      (`Vent.PositionalStepCountIsHourIndex`), so W has one column per entry
      of the import's profile z_t, and the constraints read W[:, k] for
      k < N - 1. The forecast, the import's profiles (closed forms with
      `Vent.DefaultSteps` entries), tf and the speed profile v (a closed form
      of the density model on `np.linspace(0, tf, N)`) are inputs; the
      convex solve and the normalisation are oracles, and `uninitialised` is
      what `np.empty` left in it_cost. */
  method SimulerTrajectoireParachute(lat: real, lon: real, n: int, data: Vent.Forecast,
                                     ztProfile: seq<real>, timeProfile: seq<real>, sinCos: real -> (real, real),
                                     v: seq<real>, tf: real,
                                     solve: (Problem, seq<Vec>) -> Outcome,
                                     normalize: seq<Vec> -> seq<Vec>, uninitialised: real)
    returns (r: Result<Output, GuidanceError>)
    requires |timeProfile| == Vent.DefaultSteps && |ztProfile| == |timeProfile|
    requires |v| == n && n >= 2 && tf > 0.0 && forall k :: 0 <= k < |v| ==> v[k] > 0.0
    requires KeepsLength(normalize)
    requires var imp := Vent.ImportVentResult(Vent.Config(lat, lon, n, Vent.DefaultSteps, Vent.DefaultZ0),
                                              data, ztProfile, timeProfile, sinCos);
             imp.Success? && n - 1 <= |ztProfile| ==> SolverSound(ParachuteRequest(lat, lon, n, imp.value, v, tf), solve)
    ensures var imp := Vent.ImportVentResult(Vent.Config(lat, lon, n, Vent.DefaultSteps, Vent.DefaultZ0),
                                             data, ztProfile, timeProfile, sinCos);
            (imp.Failure? ==> r == Failure(WindImport(imp.error)))
            && (imp.Success? && n - 1 > |ztProfile| ==> r == Failure(WindIndex))
    ensures var imp := Vent.ImportVentResult(Vent.Config(lat, lon, n, Vent.DefaultSteps, Vent.DefaultZ0),
                                             data, ztProfile, timeProfile, sinCos);
            imp.Success? && n - 1 <= |ztProfile| ==>
            var d := ParachuteRequest(lat, lon, n, imp.value, v, tf);
            var res := Iterate(d, solve, normalize, 2, 0, Initial(InitialReference(v, ColumnNorms(v))));
            (r.Success? <==> res.Success?)
            && (r.Failure? ==> r.error == Loop(res.error) && FailureMeaning(2, res.error))
            && (r.Success? ==>
                  CommitMeaning(d, 2, res.value)
                  && r.value.xStar == res.value.xStar
                  && r.value.landing == Last(res.value.xStar)
                  && r.value.errorSq == SquaredDistance(r.value.landing, Vec(lat, lon))
                  && r.value.zt == ztProfile && r.value.time == Linspace(0.0, tf, n))
  {
    Vent.PositionalStepCountIsHourIndex(lat, lon, n);
    var imported := Vent.ImportVentFunction(lat, lon, [n], data, ztProfile, timeProfile, sinCos);
    var vent := imported.value;
    if vent.Failure? {
      return Failure(WindImport(vent.error));
    }
    if n - 1 > |vent.value.w.vx| {
      return Failure(WindIndex);
    }
    var res := Guide(lat, lon, n, vent.value, v, tf, solve, normalize, uninitialised);
    if res.Failure? {
      return Failure(Loop(res.error));
    }
    r := Success(res.value);
  }
}
