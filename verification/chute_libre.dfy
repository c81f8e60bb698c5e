/** `Chute_livre` of chute_livre.py: the explicit-Euler free fall of the
    parcel just after release, one step per animation frame, stopped at the
    first frame on or below the ground. */
module ChuteLibre {
  import Vectors

  /** The state (x, z, vz) the class keeps in its fields. */
  datatype FallState = FallState(x: real, z: real, vz: real)

  const G: real := 9.81
  const Dt: real := 0.05
  const AltitudeInitiale: real := 100.0
  const V0x: real := 5.0
  const V0z: real := 5.0
  /** `frames=200`: the animation plays at most this many frames. */
  const MaxFrames: nat := 200

  /** x = 0, z = altitude_initiale, vz = v0z. */
  const Start: FallState := FallState(0.0, AltitudeInitiale, V0z)

  /** `update_system` on a value: x moves by v0x dt, z by the OLD vz times
      dt, and only then vz loses g dt. */
  function Step(s: FallState): FallState
  {
    FallState(s.x + V0x * Dt, s.z + s.vz * Dt, s.vz - G * Dt)
  }

  /** The state after n steps from the start. */
  function After(n: nat): FallState
  {
    if n == 0 then Start else Step(After(n - 1))
  }

  /** After n steps x = n v0x dt, vz = v0z - n g dt and
      z = 100 + n v0z dt - g dt^2 n (n - 1) / 2, with v0x dt = v0z dt = 0.25
      and g dt = 0.4905. */
  lemma {:induction false} AfterClosedForm(n: nat)
    ensures After(n).x == n as real * 0.25
    ensures After(n).vz == 5.0 - n as real * 0.4905
    ensures After(n).z == 100.0 + n as real * 0.25 - 0.024525 * (n as real * (n as real - 1.0)) / 2.0
  {
    if n > 0 {
      AfterClosedForm(n - 1);
      var m := (n - 1) as real;
      assert (m + 1.0) * m == m * (m - 1.0) + 2.0 * m;
    }
  }

  /** x grows by 0.25 at every step: strictly increasing. */
  lemma XIncreasing(i: nat, j: nat)
    requires i < j
    ensures After(i).x < After(j).x
  {
    AfterClosedForm(i);
    AfterClosedForm(j);
  }

  /** The fall reaches the ground at step 102 and not before: z stays
      positive for the first 101 steps. */
  lemma GroundAtStep102(n: nat)
    ensures n <= 101 ==> After(n).z > 0.0
    ensures n >= 102 ==> After(n).z <= 0.0
  {
    if n <= 101 {
      AboveGround(n);
    } else {
      OnGround(n);
    }
  }

  lemma AboveGround(n: nat)
    requires n <= 101
    ensures After(n).z > 0.0
  {
    AfterClosedForm(n);
    HeightPositive(n as real);
  }

  lemma OnGround(n: nat)
    requires n >= 102
    ensures After(n).z <= 0.0
  {
    AfterClosedForm(n);
    HeightNonPositive(n as real);
  }

  /** The closed-form height is at or below the ground from 102 on. */
  lemma HeightNonPositive(r: real)
    requires r >= 102.0
    ensures 100.0 + r * 0.25 - 0.024525 * (r * (r - 1.0)) / 2.0 <= 0.0
  {
    Vectors.MulNonNeg(r, r - 102.0);
    assert r * (r - 1.0) >= 101.0 * r;
  }

  /** The closed-form height is positive on [0, 101]. */
  lemma HeightPositive(r: real)
    requires 0.0 <= r <= 101.0
    ensures 100.0 + r * 0.25 - 0.024525 * (r * (r - 1.0)) / 2.0 > 0.0
  {
    if r >= 1.0 {
      Vectors.MulNonNeg(101.0 - r, r - 1.0);
      assert r * (r - 1.0) <= 101.0 * (r - 1.0);
    } else {
      Vectors.MulNonNeg(r, 1.0 - r);
      assert r * (r - 1.0) <= 0.0;
    }
  }

  class Chute {
    var g: real
    var dt: real
    var altitudeInitiale: real
    var angle: real
    var v0x: real
    var v0z: real
    var x: real
    var z: real
    var vz: real
    var xList: seq<real>
    var zList: seq<real>
    /** How many steps have been taken. */
    ghost var steps: nat

    /** The fields after `steps` steps: the constants of `__init__`, the
        state After(steps), and the two histories holding one entry per
        state so far. */
    ghost predicate Valid()
      reads this
    {
      g == G && dt == Dt && altitudeInitiale == AltitudeInitiale && v0x == V0x && v0z == V0z
      && FallState(x, z, vz) == After(steps)
      && |xList| == steps + 1 && |zList| == steps + 1
      && (forall i :: 0 <= i < |xList| ==> xList[i] == After(i).x)
      && (forall i :: 0 <= i < |zList| ==> zList[i] == After(i).z)
    }

    /** `__init__` without the figure: x = 0, z = 100, vz = 5, and the
        histories [0] and [100]. */
    constructor ()
      ensures Valid() && steps == 0
      ensures x == 0.0 && z == 100.0 && vz == 5.0 && xList == [0.0] && zList == [100.0]
      ensures angle == 10.0
    {
      g := 9.81;
      dt := 0.05;
      altitudeInitiale := 100.0;
      angle := 10.0;
      v0x := 5.0;
      v0z := 5.0;
      x := 0.0;
      z := 100.0;
      vz := 5.0;
      xList := [0.0];
      zList := [100.0];
      steps := 0;
    }

    /** `update_system`: one Euler step, and one new entry in each history. */
    method UpdateSystem()
      requires Valid()
      modifies this`x, this`z, this`vz, this`xList, this`zList, this`steps
      ensures Valid() && steps == old(steps) + 1
      ensures x == old(x) + V0x * Dt && z == old(z) + old(vz) * Dt && vz == old(vz) - G * Dt
      ensures xList == old(xList) + [x] && zList == old(zList) + [z]
    {
      x := x + v0x * dt;
      z := z + vz * dt;
      vz := vz - g * dt;
      xList := xList + [x];
      zList := zList + [z];
      steps := steps + 1;
    }

    /** `run_simulation` with `update_animation` as its frame callback: at
        most 200 frames, each one step, and the first frame that ends with
        z <= 0 stops the animation. From the start this is frame 102. */
    method RunSimulation() returns (frames: nat)
      requires Valid() && steps == 0
      modifies this`x, this`z, this`vz, this`xList, this`zList, this`steps
      ensures Valid() && steps == frames
      ensures frames == 102 && z <= 0.0
      ensures forall i :: 0 <= i < |zList| - 1 ==> zList[i] > 0.0
    {
      frames := 0;
      // z starts at 100, so testing z > 0 before a frame is testing it
      // after the previous one
      while frames < MaxFrames && z > 0.0
        invariant Valid() && steps == frames <= 102
        invariant forall i :: 0 <= i < |zList| - 1 ==> zList[i] > 0.0
        invariant z > 0.0 ==> frames < 102
      {
        UpdateSystem();
        frames := frames + 1;
        GroundAtStep102(frames);
      }
      GroundAtStep102(frames);
    }
  }
}
