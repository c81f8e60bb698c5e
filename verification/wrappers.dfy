/** Failure-carrying results shared by every module of the model. */
module Wrappers {

  datatype Option<+T> = None | Some(value: T)

  datatype Result<+R, +E> = Success(value: R) | Failure(error: E)
}

/** The pieces of Python list semantics the modelled code relies on. */
module PyList {
  import opened Wrappers

  /** `s[i]` on a Python list: negative indices count from the end,
      anything outside `-len(s) .. len(s) - 1` raises `IndexError` (None here). */
  function Index<T>(s: seq<T>, i: int): (r: Option<T>)
    ensures r.Some? <==> -|s| <= i < |s|
    ensures 0 <= i < |s| ==> r == Some(s[i])
    ensures -|s| <= i < 0 ==> r == Some(s[|s| + i])
  {
    if 0 <= i < |s| then Some(s[i])
    else if -|s| <= i < 0 then Some(s[|s| + i])
    else None
  }

  /** `s.index(x)`: the position of the first occurrence of x, or None
      where Python raises `ValueError`. */
  function IndexOf<T(==)>(s: seq<T>, x: T): (r: Option<nat>)
    ensures r.Some? <==> x in s
    ensures r.Some? ==> r.value < |s| && s[r.value] == x
    ensures r.Some? ==> forall j :: 0 <= j < r.value ==> s[j] != x
  {
    if |s| == 0 then None
    else if s[0] == x then Some(0)
    else match IndexOf(s[1..], x)
      case None => None
      case Some(k) => Some(k + 1)
  }
}

/** Two-component real vectors: one column of a 2 x N numpy array. */
module Vectors {

  datatype Vec = Vec(x: real, y: real)

  const Zero: Vec := Vec(0.0, 0.0)

  function Add(a: Vec, b: Vec): Vec { Vec(a.x + b.x, a.y + b.y) }

  function Sub(a: Vec, b: Vec): Vec { Vec(a.x - b.x, a.y - b.y) }

  function Scale(c: real, a: Vec): Vec { Vec(c * a.x, c * a.y) }

  function Sq(r: real): real { r * r }

  /** The squared Euclidean norm (numpy's `norm` without the square root). */
  function NormSq(a: Vec): real { a.x * a.x + a.y * a.y }

  /** The last column, `a[:, -1]`. */
  function Last(s: seq<Vec>): Vec
    requires |s| > 0
  {
    s[|s| - 1]
  }

  /** Sum of the first k vectors of s. */
  function SumPrefix(s: seq<Vec>, k: nat): Vec
    requires k <= |s|
  {
    if k == 0 then Zero else Add(SumPrefix(s, k - 1), s[k - 1])
  }

  lemma MulNonNeg(a: real, b: real)
    requires a >= 0.0 && b >= 0.0
    ensures a * b >= 0.0
  {}

  lemma SqNonNeg(r: real)
    ensures r * r >= 0.0
  {
    if r >= 0.0 { MulNonNeg(r, r); } else { MulNonNeg(-r, -r); }
  }

  /** The squared distance between two points; the square root is not
      modelled. */
  function SquaredDistance(a: Vec, b: Vec): (d: real)
    ensures d >= 0.0
    ensures a == b ==> d == 0.0
  {
    var e := Sub(a, b);
    SqNonNeg(e.x);
    SqNonNeg(e.y);
    NormSq(e)
  }
}
