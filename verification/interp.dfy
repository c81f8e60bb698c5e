/** One-dimensional piecewise-linear interpolation with the semantics of
    numpy's `interp`: exact at the sample points, clamped to the end samples
    outside the sampled range, a linear blend between two samples. */
module Interp {
  import Vectors

  /** The sample abscissae must increase strictly (numpy asks for increasing). */
  predicate StrictlyIncreasing(xp: seq<real>)
  {
    forall i, j :: 0 <= i < j < |xp| ==> xp[i] < xp[j]
  }

  predicate Samples(xp: seq<real>, fp: seq<real>)
  {
    |xp| == |fp| >= 1 && StrictlyIncreasing(xp)
  }

  function Min(a: real, b: real): real { if a <= b then a else b }

  function Max(a: real, b: real): real { if a <= b then b else a }

  /** The straight line through (x0, f0) and (x1, f1), evaluated at z. */
  function Blend(z: real, x0: real, x1: real, f0: real, f1: real): real
    requires x0 < x1
  {
    f0 + (z - x0) / (x1 - x0) * (f1 - f0)
  }

  /** `np.interp(z, xp, fp)` for one abscissa z. */
  function Interp(z: real, xp: seq<real>, fp: seq<real>): real
    requires Samples(xp, fp)
    decreases |xp|
  {
    if |xp| == 1 || z <= xp[0] then fp[0]
    else if z <= xp[1] then Blend(z, xp[0], xp[1], fp[0], fp[1])
    else Interp(z, xp[1..], fp[1..])
  }

  /** `np.interp(zs, xp, fp)` applied to a whole array of abscissae. */
  function InterpEach(zs: seq<real>, xp: seq<real>, fp: seq<real>): (r: seq<real>)
    requires Samples(xp, fp)
    ensures |r| == |zs|
    ensures forall k :: 0 <= k < |zs| ==> r[k] == Interp(zs[k], xp, fp)
  {
    seq(|zs|, k requires 0 <= k < |zs| => Interp(zs[k], xp, fp))
  }

  /** A ratio of a part to its non-empty whole lies in [0, 1]. */
  lemma DivUnit(a: real, d: real)
    requires 0.0 <= a <= d && d > 0.0
    ensures 0.0 <= a / d <= 1.0
  {
    var q := a / d;
    assert q * d == a;
  }

  /** The blend of two samples meets each sample at its own abscissa. */
  lemma BlendEnds(x0: real, x1: real, f0: real, f1: real)
    requires x0 < x1
    ensures Blend(x0, x0, x1, f0, f1) == f0
    ensures Blend(x1, x0, x1, f0, f1) == f1
  {
    var d := x1 - x0;
    assert d / d == 1.0;
  }

  /** Between its two abscissae the blend stays between the two samples. */
  lemma BlendBetween(z: real, x0: real, x1: real, f0: real, f1: real)
    requires x0 < x1 && x0 <= z <= x1
    ensures Min(f0, f1) <= Blend(z, x0, x1, f0, f1) <= Max(f0, f1)
  {
    var t := (z - x0) / (x1 - x0);
    DivUnit(z - x0, x1 - x0);
    if f0 <= f1 {
      Vectors.MulNonNeg(t, f1 - f0);
      Vectors.MulNonNeg(1.0 - t, f1 - f0);
    } else {
      Vectors.MulNonNeg(t, f0 - f1);
      Vectors.MulNonNeg(1.0 - t, f0 - f1);
    }
  }

  lemma TailSamples(xp: seq<real>, fp: seq<real>)
    requires Samples(xp, fp) && |xp| >= 2
    ensures Samples(xp[1..], fp[1..])
  {}

  /** At or below the first sample abscissa the first sample is returned. */
  lemma {:induction false} InterpBelow(z: real, xp: seq<real>, fp: seq<real>)
    requires Samples(xp, fp) && z <= xp[0]
    ensures Interp(z, xp, fp) == fp[0]
  {}

  /** At or above the last sample abscissa the last sample is returned:
      there is no extrapolation. */
  lemma {:induction false} InterpAbove(z: real, xp: seq<real>, fp: seq<real>)
    requires Samples(xp, fp) && z >= xp[|xp| - 1]
    ensures Interp(z, xp, fp) == fp[|fp| - 1]
    decreases |xp|
  {
    if |xp| > 1 {
      TailSamples(xp, fp);
      assert xp[0] < xp[1] <= xp[|xp| - 1];
      if z <= xp[1] {
        assert |xp| == 2;
        BlendEnds(xp[0], xp[1], fp[0], fp[1]);
      } else {
        InterpAbove(z, xp[1..], fp[1..]);
      }
    }
  }

  /** Between samples i and i + 1 the value is their linear blend, and it
      lies between the two samples. */
  lemma {:induction false} InterpBetween(z: real, xp: seq<real>, fp: seq<real>, i: nat)
    requires Samples(xp, fp) && i + 1 < |xp| && xp[i] <= z <= xp[i + 1]
    ensures Interp(z, xp, fp) == Blend(z, xp[i], xp[i + 1], fp[i], fp[i + 1])
    ensures Min(fp[i], fp[i + 1]) <= Interp(z, xp, fp) <= Max(fp[i], fp[i + 1])
    decreases i
  {
    BlendBetween(z, xp[i], xp[i + 1], fp[i], fp[i + 1]);
    if i == 0 {
      if z <= xp[0] {
        assert z == xp[0];
        BlendEnds(xp[0], xp[1], fp[0], fp[1]);
      }
    } else {
      assert xp[0] < xp[i] <= z;
      assert xp[1] <= xp[i];
      if z <= xp[1] {
        assert i == 1 && z == xp[1];
        BlendEnds(xp[0], xp[1], fp[0], fp[1]);
        BlendEnds(xp[1], xp[2], fp[1], fp[2]);
      } else {
        TailSamples(xp, fp);
        InterpBetween(z, xp[1..], fp[1..], i - 1);
      }
    }
  }

  /** At a sample abscissa the sample itself is returned. */
  lemma {:induction false} InterpAtNode(xp: seq<real>, fp: seq<real>, i: nat)
    requires Samples(xp, fp) && i < |xp|
    ensures Interp(xp[i], xp, fp) == fp[i]
  {
    if i == 0 {
      InterpBelow(xp[0], xp, fp);
    } else {
      InterpBetween(xp[i], xp, fp, i - 1);
      BlendEnds(xp[i - 1], xp[i], fp[i - 1], fp[i]);
    }
  }
}
