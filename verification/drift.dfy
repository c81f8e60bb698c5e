/** `ChuteParachuteSimple` of trajectoire_pas_optimise.py: the unguided
    descent, pushed by the wind alone plus a turbulence draw per step. */
module Derive {
  import opened Wrappers
  import opened Vectors
  import Vent

  /** What Python raises on the way. */
  datatype Raised = IndexError | ValueError

  /** dt = time[1] - time[0]. */
  function StepOf(time: seq<real>): real
    requires |time| >= 2
  {
    time[1] - time[0]
  }

  /** Column k of the trajectory: column 0 is x_0, and column k is column
      k - 1 moved by W[:, k - 1] * dt, then by the k-th turbulence draw
      noise[k - 1]. */
  function Column(x0: Vec, w: seq<Vec>, dt: real, noise: seq<Vec>, k: nat): Vec
    requires k <= |w| && k <= |noise|
  {
    if k == 0 then x0
    else Add(Add(Column(x0, w, dt, noise, k - 1), Scale(dt, w[k - 1])), noise[k - 1])
  }

  lemma ScaleAdd(c: real, a: Vec, b: Vec)
    ensures Scale(c, Add(a, b)) == Add(Scale(c, a), Scale(c, b))
  {}

  /** Without turbulence, column k is x_0 + dt * (W[:, 0] + ... + W[:, k - 1]). */
  lemma {:induction false} ZeroNoiseClosedForm(x0: Vec, w: seq<Vec>, dt: real, noise: seq<Vec>, k: nat)
    requires k <= |w| && k <= |noise|
    requires forall j :: 0 <= j < k ==> noise[j] == Zero
    ensures Column(x0, w, dt, noise, k) == Add(x0, Scale(dt, SumPrefix(w, k)))
  {
    if k > 0 {
      ZeroNoiseClosedForm(x0, w, dt, noise, k - 1);
      ScaleAdd(dt, SumPrefix(w, k - 1), w[k - 1]);
    }
  }

  /** Column k reads only W[:, 0 .. k - 1] and the first k draws: with N
      columns the last wind column W[:, N - 1] is never used. */
  lemma {:induction false} ColumnReadsPrefix(x0: Vec, w: seq<Vec>, w': seq<Vec>, dt: real,
                                             noise: seq<Vec>, noise': seq<Vec>, k: nat)
    requires k <= |w| && k <= |w'| && k <= |noise| && k <= |noise'|
    requires w[..k] == w'[..k] && noise[..k] == noise'[..k]
    ensures Column(x0, w, dt, noise, k) == Column(x0, w', dt, noise', k)
  {
    if k > 0 {
      assert w[k - 1] == w[..k][k - 1] == w'[k - 1];
      assert noise[k - 1] == noise[..k][k - 1] == noise'[k - 1];
      assert w[..k - 1] == w[..k][..k - 1];
      assert w'[..k - 1] == w'[..k][..k - 1];
      assert noise[..k - 1] == noise[..k][..k - 1];
      assert noise'[..k - 1] == noise'[..k][..k - 1];
      ColumnReadsPrefix(x0, w, w', dt, noise, noise', k - 1);
    }
  }

  /** The body of the rollout on the fresh array t of N >= 1 zero columns:
      column 0 := x_0, then columns 1 .. N - 1 in order, each written once;
      W[:, k - 1] past the last wind column raises IndexError. */
  method FillColumns(t: array<Vec>, x0: Vec, w: seq<Vec>, dt: real, noise: seq<Vec>) returns (err: Option<Raised>)
    requires t.Length >= 1 && |noise| >= t.Length - 1
    requires forall j :: 0 <= j < t.Length ==> t[j] == Zero
    modifies t
    ensures var written := if t.Length <= |w| + 1 then t.Length else |w| + 1;
            (err.None? <==> t.Length <= |w| + 1)
            && (err.Some? ==> err.value == IndexError)
            && (forall k {:trigger t[k]} :: 0 <= k < written ==> t[k] == Column(x0, w, dt, noise, k))
            && (forall k {:trigger t[k]} :: written <= k < t.Length ==> t[k] == Zero)
  {
    t[0] := x0;
    var k := 1;
    while k < t.Length
      invariant 1 <= k <= t.Length && k <= |w| + 1
      invariant forall j {:trigger t[j]} :: 0 <= j < k ==> t[j] == Column(x0, w, dt, noise, j)
      invariant forall j :: k <= j < t.Length ==> t[j] == Zero
    {
      if k - 1 >= |w| {
        return Some(IndexError);
      }
      // the wind step, then `+=` the turbulence draw
      t[k] := Add(Add(t[k - 1], Scale(dt, w[k - 1])), noise[k - 1]);
      k := k + 1;
    }
    err := None;
  }

  class ChuteParachuteSimple {
    var lat: real
    var lon: real
    var n: int
    var z0: real
    /** The release point x_0. */
    var x0: Vec
    /** The wind columns W[:, k], z_t and time as `import_vent` returned them. */
    var w: seq<Vec>
    var zt: seq<real>
    var time: seq<real>
    /** The 2 x N array `trajectoire`, one column per entry. */
    var trajectoire: array<Vec>

    /** The field settings of `__init__`: the release point is offset by
        1000 from (lat, lon) in both coordinates. */
    constructor (lat: real, lon: real, n: int, vent: Vent.VentOutput)
      requires |vent.w.vx| == |vent.w.vy|
      ensures this.lat == lat && this.lon == lon && this.n == n && z0 == 1200.0
      ensures x0 == Vec(lat + 1000.0, lon + 1000.0)
      ensures w == Vent.Columns(vent.w) && zt == vent.zt && time == vent.time
      ensures fresh(trajectoire) && trajectoire.Length == 0
    {
      this.lat := lat;
      this.lon := lon;
      this.n := n;
      z0 := 1200.0;
      x0 := Vec(lat + 1000.0, lon + 1000.0);
      w := Vent.Columns(vent.w);
      zt := vent.zt;
      time := vent.time;
      trajectoire := new Vec[0];
    }

    /** `simuler_trajectoire`: dt from the first two times (IndexError when
        there are fewer), a fresh N-column array of zeros (ValueError for a
        negative N), column 0 := x_0 (IndexError for N = 0), then columns
        1 .. N - 1 in order; reading a wind column past the last raises
        IndexError and leaves the columns written so far. */
    method SimulerTrajectoire(noise: seq<Vec>) returns (err: Option<Raised>)
      requires |noise| >= n - 1
      modifies this`trajectoire
      ensures |time| < 2 ==> err == Some(IndexError) && trajectoire == old(trajectoire)
      ensures |time| >= 2 && n < 0 ==> err == Some(ValueError) && trajectoire == old(trajectoire)
      ensures |time| >= 2 && n >= 0 ==> fresh(trajectoire) && trajectoire.Length == n
      ensures |time| >= 2 && n == 0 ==> err == Some(IndexError)
      ensures |time| >= 2 && n >= 1 ==>
                var written := if n <= |w| + 1 then n else |w| + 1;
                (err.None? <==> n <= |w| + 1)
                && (err.Some? ==> err.value == IndexError)
                && (forall k {:trigger trajectoire[k]} :: 0 <= k < written ==> trajectoire[k] == Column(x0, w, StepOf(time), noise, k))
                && (forall k {:trigger trajectoire[k]} :: written <= k < n ==> trajectoire[k] == Zero)
    {
      if |time| < 2 {
        return Some(IndexError);
      }
      var dt := time[1] - time[0];
      if n < 0 {
        return Some(ValueError);
      }
      var t := new Vec[n](_ => Zero);
      trajectoire := t;
      if n == 0 {
        return Some(IndexError);
      }
      var start := x0;
      var wind := w;
      assert dt == StepOf(time);
      err := FillColumns(t, start, wind, dt, noise);
    }
  }

  /** `ChuteParachuteSimple(lat, lon, N)`: the field settings, then the
      rollout `__init__` ends with; an exception of the rollout is the
      exception of the construction. */
  method NewChuteParachuteSimple(lat: real, lon: real, n: int, vent: Vent.VentOutput, noise: seq<Vec>)
    returns (c: ChuteParachuteSimple, err: Option<Raised>)
    requires |vent.w.vx| == |vent.w.vy| && |noise| >= n - 1
    ensures fresh(c) && c.x0 == Vec(lat + 1000.0, lon + 1000.0) && c.n == n
    ensures |vent.time| >= 2 && 1 <= n <= |vent.w.vx| + 1 ==>
              err.None? && fresh(c.trajectoire) && c.trajectoire.Length == n
              && c.trajectoire[0] == Vec(lat + 1000.0, lon + 1000.0)
              && forall k :: 0 <= k < n ==>
                   c.trajectoire[k] == Column(c.x0, Vent.Columns(vent.w), StepOf(vent.time), noise, k)
  {
    c := new ChuteParachuteSimple(lat, lon, n, vent);
    err := c.SimulerTrajectoire(noise);
  }
}
