/** `SimulerTrajectoire` of simultion_final.py: the guided descent from a
    randomly offset release point to the target (lat, lon). */
module SimulationFinale {
  import opened Wrappers
  import opened Vectors
  import opened Convexification
  import Vent

  /** The column norms of u_init = (v, 0) after `norms[norms == 0] = 1e-6`. */
  function InitialNorms(v: seq<real>): (norms: seq<real>)
    ensures |norms| == |v|
    ensures forall k :: 0 <= k < |v| ==> norms[k] == Clamped(Abs(v[k])) && norms[k] != 0.0
  {
    seq(|v|, k requires 0 <= k < |v| => Clamped(Abs(v[k])))
  }

  /** The `for i in range(MAX_ITER)` loop of `optimiser_trajectoire`: solve,
      raise (here fail) when u has no value, store X[:, :, i] and it_cost[i],
      then the test `i > 0 and abs(it_cost[i] - it_cost[i - 1]) < 0.01`: the
      first time it switches to the stage-2 problem, the second time it
      breaks with n_iter = i. `uninitialised` is what `np.empty` left in the
      slots of it_cost. */
  method SolveLoop(d: Request, solve: (Problem, seq<Vec>) -> Outcome, normalize: seq<Vec> -> seq<Vec>,
                   ubar0: seq<Vec>, uninitialised: real)
    returns (r: Result<Committed, OptError>)
    requires WellFormed(d) && SolverShapes(d, solve) && KeepsLength(normalize) && |ubar0| == |d.v|
    ensures r == Iterate(d, solve, normalize, 1, 0, Initial(ubar0))
  {
    var xHistory := new seq<Vec>[MaxIter](_ => []);
    var itCost := new real[MaxIter](_ => uninitialised);
    var problem := Stage1Problem;
    var ubar := ubar0;
    var firstStageConverged := false;
    var nIterFirst: nat := 0;
    var i: nat := 0;
    ghost var goal := Iterate(d, solve, normalize, 1, 0, Initial(ubar0));
    assert itCost[..0] == [] && xHistory[..0] == [];
    while i < MaxIter
      invariant i <= MaxIter && |ubar| == |d.v|
      invariant firstStageConverged ==> nIterFirst < i
      invariant goal == Iterate(d, solve, normalize, 1, i, LoopState(problem, ubar, itCost[..i], xHistory[..i],
                                                                    if firstStageConverged then Some(nIterFirst) else None))
    {
      ghost var st := LoopState(problem, ubar, itCost[..i], xHistory[..i],
                                if firstStageConverged then Some(nIterFirst) else None);
      var out := solve(problem, ubar);
      if out.NoSolution? {
        assert goal == Failure(SolverFailed(i, itCost[..i]));
        return Failure(SolverFailed(i, itCost[..i]));
      }
      var sol := out.sol;
      var usedRef := ubar;
      ubar := normalize(sol.u);
      Record(xHistory, itCost, i, sol.x, Cost(d, problem, sol));
      var close := i > 0 && Abs(itCost[i] - itCost[i - 1]) < EpsConvergence;
      if i > 0 {
        CloseOnHistory(itCost[..], i);
      }
      assert close == CloseAt(itCost[..i + 1], i);
      if close {
        if firstStageConverged {
          assert goal == Success(Committed(nIterFirst, i, itCost[..i + 1], xHistory[..i + 1], xHistory[i], sol, usedRef)) by {
            IterateSolved(d, solve, normalize, 1, i, st);
          }
          return Success(Committed(nIterFirst, i, itCost[..i + 1], xHistory[..i + 1], xHistory[i], sol, usedRef));
        }
        problem := Stage2Problem;
        firstStageConverged := true;
        nIterFirst := i;
      }
      assert goal == Iterate(d, solve, normalize, 1, i + 1, LoopState(problem, ubar, itCost[..i + 1], xHistory[..i + 1],
                                                                      if firstStageConverged then Some(nIterFirst) else None)) by {
        IterateSolved(d, solve, normalize, 1, i, st);
      }
      i := i + 1;
    }
    assert itCost[..] == itCost[..i];
    r := Failure(NotConverged(itCost[..]));
  }

  class SimulerTrajectoire {
    var lat: real
    var lon: real
    var n: int
    var z0: real
    var psi0: real
    /** The release point x_0. */
    var x0: Vec
    /** Attributes that only exist once `optimiser_trajectoire` has set them. */
    var time: Option<seq<real>>
    var zt: Option<seq<real>>
    var xStar: Option<seq<Vec>>
    var target: Option<Vec>
    var nIter: Option<nat>

    /** `__init__`: the release point is the target moved by the two draws of
        `np.random.uniform(-random_range, random_range)`, which are inputs. */
    constructor (lat: real, lon: real, n: int, randomLat: real, randomLon: real)
      ensures this.lat == lat && this.lon == lon && this.n == n
      ensures z0 == 1200.0 && psi0 == 0.0
      ensures x0 == Vec(lat + randomLat, lon + randomLon)
      ensures time.None? && zt.None? && xStar.None? && target.None? && nIter.None?
    {
      this.lat := lat;
      this.lon := lon;
      this.n := n;
      z0 := 1200.0;
      x0 := Vec(lat + randomLat, lon + randomLon);
      psi0 := 0.0;
      time := None;
      zt := None;
      xStar := None;
      target := None;
      nIter := None;
    }

    /** The data of every solve: x_0, u_0 = (v[0] cos psi_0, v[0] sin psi_0)
        = (v[0], 0), the target (lat, lon), the wind columns, v and
        dt = time[-1] / (N - 1). */
    function ProblemData(vent: Vent.VentOutput, v: seq<real>): Request
      reads this`x0, this`lat, this`lon, this`n
      requires |vent.w.vx| == |vent.w.vy| && |v| >= 1 && |vent.time| >= 1 && n != 1
    {
      Request(x0, Vec(v[0], 0.0), Vec(lat, lon), Vent.Columns(vent.w), v, vent.time[|vent.time| - 1] / (n - 1) as real)
    }

    /** `calcul_erreur`: the distance from the last column of x_star to the
        target, squared; None where Python finds no `x_star` yet. */
    function CalculErreur(): (e: Option<real>)
      reads this`xStar, this`target
      ensures e.Some? <==> xStar.Some? && |xStar.value| > 0 && target.Some?
      ensures e.Some? ==> e.value >= 0.0
      ensures e.Some? && Last(xStar.value) == target.value ==> e.value == 0.0
    {
      if xStar.Some? && |xStar.value| > 0 && target.Some? then
        Some(SquaredDistance(Last(xStar.value), target.value))
      else None
    }

    /** The part of `optimiser_trajectoire` after the wind import and the
        shape check: the reference u_bar from the clamped norms of u_init,
        the loop, then x_star, the target and n_iter. */
    method Optimise(vent: Vent.VentOutput, v: seq<real>,
                    solve: (Problem, seq<Vec>) -> Outcome,
                    normalize: seq<Vec> -> seq<Vec>, uninitialised: real)
      returns (r: Result<Output, OptError>)
      requires |v| == n && |vent.time| == n && |vent.w.vx| == |vent.w.vy| >= n - 1
      requires n >= 2 && WellFormed(ProblemData(vent, v))
      requires SolverSound(ProblemData(vent, v), solve) && KeepsLength(normalize)
      modifies this`xStar, this`target, this`nIter
      ensures var d := ProblemData(vent, v);
              var res := Iterate(d, solve, normalize, 1, 0, Initial(InitialReference(v, InitialNorms(v))));
              (r.Success? <==> res.Success?)
              && (r.Failure? ==> r.error == res.error && FailureMeaning(1, r.error)
                                 && xStar == old(xStar) && target == old(target) && nIter == old(nIter))
              && (r.Success? ==>
                    CommitMeaning(d, 1, res.value)
                    && xStar == Some(res.value.xStar) && nIter == Some(res.value.nIter)
                    && target == Some(Vec(lat, lon))
                    && r.value.xStar == res.value.xStar
                    && r.value.landing == Last(res.value.xStar)
                    && CalculErreur() == Some(r.value.errorSq)
                    && r.value.zt == vent.zt && r.value.time == vent.time)
    {
      var norms := new real[|v|](k requires 0 <= k < |v| => Abs(v[k]));
      ClampZeroNorms(norms);
      assert norms[..] == InitialNorms(v);
      var d := ProblemData(vent, v);
      var ubar := InitialReference(v, norms[..]);
      IterateMeaning(d, solve, normalize, 1, 0, Initial(ubar));
      var res := SolveLoop(d, solve, normalize, ubar, uninitialised);
      assert d == ProblemData(vent, v);
      if res.Failure? {
        return Failure(res.error);
      }
      var nIterValue := res.value.nIter;
      xStar := Some(res.value.xStar);
      target := Some(Vec(lat, lon));
      nIter := Some(nIterValue);
      var landing := Last(res.value.xStar);
      r := Success(Output(res.value.xStar, SquaredDistance(landing, Vec(lat, lon)), landing, vent.zt, vent.time));
      assert d == ProblemData(vent, v);
    }

    /** The part of `optimiser_trajectoire` after a successful import: store
        time and z_t, refuse a u_bar whose N columns cannot take the 31 of
        u_init, then optimise. */
    method Continue(vent: Vent.VentOutput, v: seq<real>,
                    solve: (Problem, seq<Vec>) -> Outcome,
                    normalize: seq<Vec> -> seq<Vec>, uninitialised: real)
      returns (r: Result<Output, GuidanceError>)
      requires |vent.time| == Vent.DefaultSteps && |vent.w.vx| == |vent.time| && |vent.w.vy| == |vent.time|
      requires |v| == |vent.time| && vent.time[|vent.time| - 1] > 0.0 && forall k :: 0 <= k < |v| ==> v[k] > 0.0
      requires KeepsLength(normalize)
      requires n == |v| ==> SolverSound(ProblemData(vent, v), solve)
      modifies this`time, this`zt, this`xStar, this`target, this`nIter
      ensures time == Some(vent.time) && zt == Some(vent.zt)
      ensures r.Failure? ==> xStar == old(xStar) && target == old(target) && nIter == old(nIter)
      ensures n != |v| ==> r == Failure(ShapeMismatch)
      ensures n == |v| ==>
              var d := old(ProblemData(vent, v));
              var res := Iterate(d, solve, normalize, 1, 0, Initial(InitialReference(v, InitialNorms(v))));
              (r.Success? <==> res.Success?)
              && (r.Failure? ==> r.error == Loop(res.error) && FailureMeaning(1, res.error))
              && (r.Success? ==>
                    CommitMeaning(d, 1, res.value)
                    && xStar == Some(res.value.xStar) && nIter == Some(res.value.nIter)
                    && target == Some(Vec(lat, lon))
                    && r.value.xStar == res.value.xStar
                    && r.value.landing == Last(res.value.xStar)
                    && CalculErreur() == Some(r.value.errorSq)
                    && r.value.zt == vent.zt && r.value.time == vent.time)
    {
      time := Some(vent.time);
      zt := Some(vent.zt);
      if n != |v| {
        return Failure(ShapeMismatch);
      }
      var res := Optimise(vent, v, solve, normalize, uninitialised);
      if res.Failure? {
        return Failure(Loop(res.error));
      }
      r := Success(res.value);
    }

    /** `optimiser_trajectoire`. `import_vent(self.lat, self.lon, self.N)`
        binds N to the hour index and keeps the default number of steps
        (`Vent.PositionalStepCountIsHourIndex`). The forecast, the import's
        profiles time and z_t (closed forms with `Vent.DefaultSteps` entries)
        and the speed profile v = vt(z(time)) are inputs, the solver and the
        normalisation are oracles, and `uninitialised` is what `np.empty`
        left in it_cost. A failed import changes no attribute; otherwise time
        and z_t are stored first. The (2, N) parameter u_bar then refuses
        the |v| columns of u_init unless N == |v|. The loop is proved equal
        to `Iterate` with stage 1 allowed from iteration 1 on (`i > 0`),
        which gives the meaning of the result. */
    method OptimiserTrajectoire(data: Vent.Forecast, ztProfile: seq<real>, timeProfile: seq<real>,
                                sinCos: real -> (real, real), v: seq<real>,
                                solve: (Problem, seq<Vec>) -> Outcome,
                                normalize: seq<Vec> -> seq<Vec>, uninitialised: real)
      returns (r: Result<Output, GuidanceError>)
      requires |timeProfile| == Vent.DefaultSteps && |ztProfile| == |timeProfile| && |v| == |timeProfile|
      requires timeProfile[|timeProfile| - 1] > 0.0 && forall k :: 0 <= k < |v| ==> v[k] > 0.0
      requires KeepsLength(normalize)
      requires var imp := Vent.ImportVentResult(Vent.Config(lat, lon, n, Vent.DefaultSteps, Vent.DefaultZ0),
                                                data, ztProfile, timeProfile, sinCos);
               imp.Success? && n == |v| ==> SolverSound(ProblemData(imp.value, v), solve)
      modifies this`time, this`zt, this`xStar, this`target, this`nIter
      ensures lat == old(lat) && lon == old(lon) && n == old(n) && x0 == old(x0)
      ensures z0 == old(z0) && psi0 == old(psi0)
      ensures r.Failure? ==> xStar == old(xStar) && target == old(target) && nIter == old(nIter)
      ensures var imp := Vent.ImportVentResult(Vent.Config(lat, lon, n, Vent.DefaultSteps, Vent.DefaultZ0),
                                               data, ztProfile, timeProfile, sinCos);
              (imp.Failure? ==> r == Failure(WindImport(imp.error)) && time == old(time) && zt == old(zt))
              && (imp.Success? ==> time == Some(timeProfile) && zt == Some(ztProfile))
              && (imp.Success? && n != |v| ==> r == Failure(ShapeMismatch))
      ensures var imp := Vent.ImportVentResult(Vent.Config(lat, lon, n, Vent.DefaultSteps, Vent.DefaultZ0),
                                               data, ztProfile, timeProfile, sinCos);
              imp.Success? && n == |v| ==>
              var d := old(ProblemData(imp.value, v));
              var res := Iterate(d, solve, normalize, 1, 0, Initial(InitialReference(v, InitialNorms(v))));
              (r.Success? <==> res.Success?)
              && (r.Failure? ==> r.error == Loop(res.error) && FailureMeaning(1, res.error))
              && (r.Success? ==>
                    CommitMeaning(d, 1, res.value)
                    && xStar == Some(res.value.xStar) && nIter == Some(res.value.nIter)
                    && target == Some(Vec(lat, lon))
                    && r.value.xStar == res.value.xStar
                    && r.value.landing == Last(res.value.xStar)
                    && CalculErreur() == Some(r.value.errorSq)
                    && r.value.zt == ztProfile && r.value.time == timeProfile)
    {
      Vent.PositionalStepCountIsHourIndex(lat, lon, n);
      var imported := Vent.ImportVentFunction(lat, lon, [n], data, ztProfile, timeProfile, sinCos);
      var vent := imported.value;
      if vent.Failure? {
        return Failure(WindImport(vent.error));
      }
      r := Continue(vent.value, v, solve, normalize, uninitialised);
    }
  }
}
