/**
 * Integer vectors and square matrices with the reduction modulo 2 that the
 * shift-register engine applies to every product. Entries are exact integers;
 * the reduction happens only where the engine applies `% 2`.
 */
module Gf2Matrix {

  type Vector = seq<int>
  type Matrix = seq<seq<int>>

  /** An L x L matrix. */
  ghost predicate IsSquare(m: Matrix, n: nat)
  {
    |m| == n && forall i :: 0 <= i < n ==> |m[i]| == n
  }

  /** Every entry is 0 or 1. */
  ghost predicate IsBits(v: Vector)
  {
    forall i :: 0 <= i < |v| ==> v[i] == 0 || v[i] == 1
  }

  /** Inner product, `np.dot` on two vectors of equal length. */
  function Dot(a: Vector, b: Vector): int
    requires |a| == |b|
  {
    if |a| == 0 then 0 else a[0] * b[0] + Dot(a[1..], b[1..])
  }

  /** Reduction of every entry modulo 2 (the `% 2` applied to a numpy vector). */
  function Mod2(v: Vector): (r: Vector)
    ensures |r| == |v| && IsBits(r)
    ensures forall i :: 0 <= i < |v| ==> r[i] % 2 == v[i] % 2
  {
    seq(|v|, i requires 0 <= i < |v| => v[i] % 2)
  }

  /** A bit vector is its own reduction. */
  lemma Mod2OfBits(v: Vector)
    requires IsBits(v)
    ensures Mod2(v) == v
  {
  }

  /** The unit row vector of length n with its single 1 at column j. */
  function Unit(n: nat, j: nat): (r: Vector)
    ensures |r| == n
  {
    seq(n, c => if c == j then 1 else 0)
  }

  /** Matrix times column vector. */
  function MatVec(m: Matrix, x: Vector): (r: Vector)
    requires forall i :: 0 <= i < |m| ==> |m[i]| == |x|
    ensures |r| == |m|
  {
    seq(|m|, i requires 0 <= i < |m| => Dot(m[i], x))
  }

  /** Column j of a matrix whose rows all have more than j entries. */
  function Col(m: Matrix, j: nat): (r: Vector)
    requires forall i :: 0 <= i < |m| ==> j < |m[i]|
    ensures |r| == |m|
  {
    seq(|m|, i requires 0 <= i < |m| => m[i][j])
  }

  /** Product of two L x L matrices. */
  function MatMul(a: Matrix, b: Matrix): (r: Matrix)
    requires IsSquare(a, |a|) && IsSquare(b, |a|)
    ensures IsSquare(r, |a|)
  {
    seq(|a|, i requires 0 <= i < |a| => seq(|a|, j requires 0 <= j < |a| => Dot(a[i], Col(b, j))))
  }

  /** The L x L identity matrix. */
  function Identity(n: nat): (r: Matrix)
    ensures IsSquare(r, n)
  {
    seq(n, i requires 0 <= i < n => Unit(n, i))
  }

  /** The matrix power m^k, the exact value `srm**k` stands for (m^0 is the identity). */
  function MatPow(m: Matrix, k: nat): (r: Matrix)
    requires IsSquare(m, |m|)
    ensures IsSquare(r, |m|)
  {
    if k == 0 then Identity(|m|) else MatMul(m, MatPow(m, k - 1))
  }

  // ---------------------------------------------------------------- Dot algebra

  lemma {:induction false} DotComm(a: Vector, b: Vector)
    requires |a| == |b|
    ensures Dot(a, b) == Dot(b, a)
  {
    if |a| > 0 {
      DotComm(a[1..], b[1..]);
    }
  }

  /** A unit vector picks out one entry. */
  lemma {:induction false} DotUnit(n: nat, j: nat, x: Vector)
    requires j < n == |x|
    ensures Dot(Unit(n, j), x) == x[j]
  {
    if j == 0 {
      DotZeroTail(Unit(n, 0), x);
    } else {
      assert Unit(n, j)[1..] == Unit(n - 1, j - 1);
      DotUnit(n - 1, j - 1, x[1..]);
    }
  }

  /** A vector whose only possibly non-zero entry is the first one. */
  lemma {:induction false} DotZeroTail(u: Vector, x: Vector)
    requires |u| == |x| >= 1
    requires forall c :: 1 <= c < |u| ==> u[c] == 0
    ensures Dot(u, x) == u[0] * x[0]
  {
    DotZeros(u[1..], x[1..]);
  }

  lemma {:induction false} DotZeros(u: Vector, x: Vector)
    requires |u| == |x|
    requires forall c :: 0 <= c < |u| ==> u[c] == 0
    ensures Dot(u, x) == 0
  {
    if |u| > 0 {
      DotZeros(u[1..], x[1..]);
    }
  }

  /** The vector c u + v. */
  function Combine(c: int, u: Vector, v: Vector): (w: Vector)
    requires |u| == |v|
    ensures |w| == |u| && forall j :: 0 <= j < |u| ==> w[j] == c * u[j] + v[j]
  {
    seq(|u|, j requires 0 <= j < |u| => c * u[j] + v[j])
  }

  /** Dot is linear in its first argument. */
  lemma {:induction false} DotLinear(c: int, u: Vector, v: Vector, x: Vector)
    requires |u| == |v| == |x|
    ensures Dot(Combine(c, u, v), x) == c * Dot(u, x) + Dot(v, x)
  {
    if |u| > 0 {
      var w := Combine(c, u, v);
      assert w[1..] == Combine(c, u[1..], v[1..]);
      DotLinear(c, u[1..], v[1..], x[1..]);
      assert (c * u[0] + v[0]) * x[0] == c * (u[0] * x[0]) + v[0] * x[0];
    }
  }

  /** Exchange of the two summations in a row-times-matrix-times-vector product. */
  lemma {:induction false} DotExchange(a: Vector, b: Matrix, x: Vector)
    requires |a| == |b|
    requires forall k :: 0 <= k < |b| ==> |b[k]| == |x|
    ensures Dot(seq(|x|, j requires 0 <= j < |x| => Dot(a, Col(b, j))), x) == Dot(a, MatVec(b, x))
  {
    var lhs := seq(|x|, j requires 0 <= j < |x| => Dot(a, Col(b, j)));
    if |a| == 0 {
      DotZeros(lhs, x);
    } else {
      var a', b' := a[1..], b[1..];
      var rest := seq(|x|, j requires 0 <= j < |x| => Dot(a', Col(b', j)));
      forall j | 0 <= j < |x| ensures lhs[j] == a[0] * b[0][j] + rest[j] {
        assert Col(b, j)[1..] == Col(b', j);
      }
      assert lhs == Combine(a[0], b[0], rest);
      DotLinear(a[0], b[0], rest, x);
      DotExchange(a', b', x);
      assert MatVec(b, x)[1..] == MatVec(b', x);
    }
  }

  /** Applying a product is applying its factors in turn. */
  lemma MatVecMul(a: Matrix, b: Matrix, x: Vector)
    requires IsSquare(a, |a|) && IsSquare(b, |a|) && |x| == |a|
    ensures MatVec(MatMul(a, b), x) == MatVec(a, MatVec(b, x))
  {
    forall i | 0 <= i < |a| ensures MatVec(MatMul(a, b), x)[i] == MatVec(a, MatVec(b, x))[i] {
      DotExchange(a[i], b, x);
    }
  }

  /** The identity leaves a vector unchanged. */
  lemma MatVecIdentity(x: Vector)
    ensures MatVec(Identity(|x|), x) == x
  {
    forall i | 0 <= i < |x| ensures MatVec(Identity(|x|), x)[i] == x[i] {
      DotUnit(|x|, i, x);
    }
  }

  // ---------------------------------------------------------------- reduction modulo 2

  lemma ModSum(a: int, b: int, c: int, d: int)
    requires a % 2 == c % 2 && b % 2 == d % 2
    ensures (a + b) % 2 == (c + d) % 2
  {
    var qa, qb, qc, qd := a / 2, b / 2, c / 2, d / 2;
    assert a + b == 2 * (qa + qb) + (a % 2 + b % 2);
    assert c + d == 2 * (qc + qd) + (c % 2 + d % 2);
  }

  lemma MulMod(a: int, x: int)
    ensures (a * x) % 2 == (a * (x % 2)) % 2
  {
    var q := x / 2;
    assert x == 2 * q + x % 2;
    assert a * x == 2 * (a * q) + a * (x % 2);
  }

  /** Reducing the vector first does not change an inner product modulo 2. */
  lemma {:induction false} DotMod2(a: Vector, x: Vector)
    requires |a| == |x|
    ensures Dot(a, Mod2(x)) % 2 == Dot(a, x) % 2
  {
    if |a| > 0 {
      assert Mod2(x)[1..] == Mod2(x[1..]);
      DotMod2(a[1..], x[1..]);
      MulMod(a[0], x[0]);
      ModSum(a[0] * (x[0] % 2), Dot(a[1..], Mod2(x[1..])), a[0] * x[0], Dot(a[1..], x[1..]));
    }
  }

  /** (m * (x mod 2)) mod 2 == (m * x) mod 2: reduction commutes with a linear map. */
  lemma MatVecMod2(m: Matrix, x: Vector)
    requires forall i :: 0 <= i < |m| ==> |m[i]| == |x|
    ensures Mod2(MatVec(m, Mod2(x))) == Mod2(MatVec(m, x))
  {
    forall i | 0 <= i < |m| ensures Mod2(MatVec(m, Mod2(x)))[i] == Mod2(MatVec(m, x))[i] {
      DotMod2(m[i], x);
    }
  }
}
