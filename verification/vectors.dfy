/**
 * Rows of the vertex and UV arrays, the 3x3 matrices they are multiplied by,
 * and the running sums used to place glyphs along the baseline.
 */
module Vectors {

  /** One row of a homogeneous 2-D vertex array: (x, y, w). */
  datatype Vec3 = Vec3(x: real, y: real, w: real)

  /** One row of a texture-coordinate array. */
  datatype Vec2 = Vec2(u: real, v: real)

  /** The four corner rows of one glyph quad, in the order the atlas stores them. */
  datatype Corners<T> = Corners(c0: T, c1: T, c2: T, c3: T)
  {
    function At(j: nat): T
      requires j < 4
    {
      if j == 0 then c0 else if j == 1 then c1 else if j == 2 then c2 else c3
    }
  }

  /** Adds the row (dx, dy, 0): the homogeneous component is never moved. */
  function Shift(p: Vec3, dx: real, dy: real): Vec3
  {
    Vec3(p.x + dx, p.y + dy, p.w)
  }

  /** A 3x3 matrix, entry m<row><column>. */
  datatype Mat3 = Mat3(m00: real, m01: real, m02: real,
                       m10: real, m11: real, m12: real,
                       m20: real, m21: real, m22: real)

  /** The row vector `p` times the matrix `m`, as numpy's `row @ m`. */
  function MulRow(p: Vec3, m: Mat3): Vec3
  {
    Vec3(p.x * m.m00 + p.y * m.m10 + p.w * m.m20,
         p.x * m.m01 + p.y * m.m11 + p.w * m.m21,
         p.x * m.m02 + p.y * m.m12 + p.w * m.m22)
  }

  function Identity(): Mat3
  {
    Mat3(1.0, 0.0, 0.0,
         0.0, 1.0, 0.0,
         0.0, 0.0, 1.0)
  }

  /**
   * The identity with its first two diagonal entries replaced by `s`.
   * Multiplying a row by it scales x and y uniformly and passes the
   * homogeneous component through.
   */
  function Resize(s: real): (m: Mat3)
    ensures forall p {:trigger MulRow(p, m)} :: MulRow(p, m) == Vec3(s * p.x, s * p.y, p.w)
  {
    Identity().(m00 := s, m11 := s)
  }

  /** The sum of a sequence, folded from the front. */
  function Sum(xs: seq<real>): real
  {
    if |xs| == 0 then 0.0 else xs[0] + Sum(xs[1..])
  }

  lemma {:induction false} SumSnoc(xs: seq<real>, x: real)
    ensures Sum(xs + [x]) == Sum(xs) + x
  {
    if |xs| == 0 {
      assert xs + [x] == [x];
      assert [x][1..] == [];
    } else {
      assert (xs + [x])[1..] == xs[1..] + [x];
      SumSnoc(xs[1..], x);
    }
  }

  /** Extending a prefix by one element adds that element to its sum. */
  lemma SumPrefixStep(xs: seq<real>, i: nat)
    requires i < |xs|
    ensures Sum(xs[..i + 1]) == Sum(xs[..i]) + xs[i]
  {
    assert xs[..i + 1] == xs[..i] + [xs[i]];
    SumSnoc(xs[..i], xs[i]);
  }

  /**
   * A running sum that walks its input once, carrying the total so far:
   * element i of the result is the carried start plus every input up to
   * and including position i.
   */
  function Scan(acc: real, xs: seq<real>): (r: seq<real>)
    ensures |r| == |xs|
    ensures forall i :: 0 <= i < |xs| ==> r[i] == acc + Sum(xs[..i + 1])
    decreases |xs|
  {
    if |xs| == 0 then []
    else
      var rest := Scan(acc + xs[0], xs[1..]);
      assert forall i :: 0 < i < |xs| ==> xs[..i + 1][1..] == xs[1..][..i];
      [acc + xs[0]] + rest
  }

  /** numpy's `cumsum`: an inclusive prefix sum, element i counts position i itself. */
  function CumSum(xs: seq<real>): (r: seq<real>)
    ensures |r| == |xs|
    ensures forall i :: 0 <= i < |xs| ==> r[i] == Sum(xs[..i + 1])
  {
    Scan(0.0, xs)
  }

  /** Over non-negative inputs the inclusive prefix sum never decreases. */
  lemma {:induction false} CumSumMonotone(xs: seq<real>, i: nat, j: nat)
    requires forall k :: 0 <= k < |xs| ==> 0.0 <= xs[k]
    requires i <= j < |xs|
    ensures CumSum(xs)[i] <= CumSum(xs)[j]
    decreases j - i
  {
    if i < j {
      CumSumMonotone(xs, i, j - 1);
      SumPrefixStep(xs, j);
    }
  }
}
