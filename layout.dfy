/**
 * Row-major (C-contiguous) layout of a dense tensor: a shape is a sequence of
 * axis lengths, a multi-index picks one position per axis, and the flat offset
 * lets the last axis vary fastest. This is the layout that `reshape` keeps.
 */
module Layout {

  /** Number of elements of a tensor with shape `s` (the product of its axes). */
  function Size(s: seq<nat>): nat
  {
    if |s| == 0 then 1 else Size(s[..|s| - 1]) * s[|s| - 1]
  }

  /** `i` is a valid multi-index into shape `s`. */
  predicate InBounds(s: seq<nat>, i: seq<nat>)
  {
    |i| == |s| && forall k :: 0 <= k < |s| ==> i[k] < s[k]
  }

  lemma MulAddBound(a: nat, sz: nat, n: nat, x: nat)
    requires a < sz && x < n
    ensures a * n + x < sz * n
  {
    assert (a + 1) * n == a * n + n;
    assert (a + 1) * n <= sz * n;
  }

  /** Row-major flat offset of multi-index `i`; it always lies inside the tensor. */
  function Flatten(s: seq<nat>, i: seq<nat>): (f: nat)
    requires InBounds(s, i)
    ensures f < Size(s)
  {
    if |s| == 0 then 0
    else
      var n := |s| - 1;
      var f0 := Flatten(s[..n], i[..n]);
      MulAddBound(f0, Size(s[..n]), s[n], i[n]);
      f0 * s[n] + i[n]
  }

  lemma MulMono(a: int, b: int, n: nat)
    ensures a <= b ==> a * n <= b * n
  {
  }

  lemma DivModOf(q: nat, n: nat, x: nat)
    requires x < n
    ensures (q * n + x) / n == q && (q * n + x) % n == x
  {
    var v := q * n + x;
    var d, r := v / n, v % n;
    assert v == d * n + r;
    MulMono(q + 1, d, n);
    MulMono(d + 1, q, n);
    assert (q + 1) * n == q * n + n;
    assert (d + 1) * n == d * n + n;
  }

  lemma DivBound(f: nat, sz: nat, n: nat)
    requires f < sz * n
    ensures n > 0 && f / n < sz
  {
    assert n != 0;
    var q := f / n;
    assert f == q * n + f % n;
    MulMono(sz, q, n);
  }

  lemma Regroup(f1: int, z: int, f2: int, n: int, x: int)
    ensures (f1 * z + f2) * n + x == f1 * (z * n) + (f2 * n + x)
  {
  }

  lemma Regroup2(f: int, m: int, n: int, x: int, y: int)
    ensures f * (m * n) + (x * n + y) == (f * m + x) * n + y
  {
  }

  /** The multi-index whose row-major offset is `f`. */
  function Unflatten(s: seq<nat>, f: nat): (i: seq<nat>)
    requires f < Size(s)
    ensures InBounds(s, i) && Flatten(s, i) == f
  {
    if |s| == 0 then []
    else
      var n := |s| - 1;
      DivBound(f, Size(s[..n]), s[n]);
      var i0 := Unflatten(s[..n], f / s[n]);
      var i := i0 + [f % s[n]];
      assert i[..n] == i0;
      i
  }

  /** Distinct in-bounds multi-indices have distinct offsets. */
  lemma {:induction false} FlattenInjective(s: seq<nat>, i: seq<nat>, j: seq<nat>)
    requires InBounds(s, i) && InBounds(s, j)
    requires Flatten(s, i) == Flatten(s, j)
    ensures i == j
  {
    if |s| > 0 {
      var n := |s| - 1;
      var fi, fj := Flatten(s[..n], i[..n]), Flatten(s[..n], j[..n]);
      DivModOf(fi, s[n], i[n]);
      DivModOf(fj, s[n], j[n]);
      FlattenInjective(s[..n], i[..n], j[..n]);
      assert i == i[..n] + [i[n]];
      assert j == j[..n] + [j[n]];
    }
  }

  /** Offsets and multi-indices are in one-to-one correspondence. */
  lemma UnflattenFlatten(s: seq<nat>, i: seq<nat>)
    requires InBounds(s, i)
    ensures Unflatten(s, Flatten(s, i)) == i
  {
    FlattenInjective(s, i, Unflatten(s, Flatten(s, i)));
  }

  lemma {:induction false} SizeAppend(s1: seq<nat>, s2: seq<nat>)
    ensures Size(s1 + s2) == Size(s1) * Size(s2)
  {
    if |s2| > 0 {
      var n := |s2| - 1;
      assert (s1 + s2)[..|s1| + n] == s1 + s2[..n];
      SizeAppend(s1, s2[..n]);
      Regroup(Size(s1), Size(s2[..n]), 0, s2[n], 0);
    } else {
      assert s1 + s2 == s1;
    }
  }

  /**
   * The offset in a concatenated shape: the prefix index counts whole blocks of
   * the suffix's size.
   */
  lemma {:induction false} FlattenAppend(s1: seq<nat>, i1: seq<nat>, s2: seq<nat>, i2: seq<nat>)
    requires InBounds(s1, i1) && InBounds(s2, i2)
    ensures InBounds(s1 + s2, i1 + i2)
    ensures Flatten(s1 + s2, i1 + i2) == Flatten(s1, i1) * Size(s2) + Flatten(s2, i2)
  {
    if |s2| == 0 {
      assert s1 + s2 == s1 && i1 + i2 == i1;
    } else {
      var n := |s2| - 1;
      var s, i := s1 + s2, i1 + i2;
      assert s[..|s1| + n] == s1 + s2[..n];
      assert i[..|i1| + n] == i1 + i2[..n];
      FlattenAppend(s1, i1, s2[..n], i2[..n]);
      var f1: int, f2: int, z: int := Flatten(s1, i1), Flatten(s2[..n], i2[..n]), Size(s2[..n]);
      assert s[|s| - 1] == s2[n] && i[|i| - 1] == i2[n];
      assert Flatten(s, i) == (f1 * z + f2) * s2[n] + i2[n];
      assert Flatten(s2, i2) == f2 * s2[n] + i2[n];
      assert Size(s2) == z * s2[n];
      Regroup(f1, z, f2, s2[n], i2[n]);
    }
  }

  /**
   * Reshaping one axis of length `m * n` into two axes `(m, n)` maps index
   * `x * n + y` to `(x, y)`: both address the same flat offset.
   */
  lemma SplitAxis(s1: seq<nat>, i1: seq<nat>, m: nat, n: nat, x: nat, y: nat, s2: seq<nat>, i2: seq<nat>)
    requires InBounds(s1, i1) && InBounds(s2, i2) && x < m && y < n
    ensures x * n + y < m * n
    ensures InBounds(s1 + [m * n] + s2, i1 + [x * n + y] + i2)
    ensures InBounds(s1 + [m, n] + s2, i1 + [x, y] + i2)
    ensures Flatten(s1 + [m * n] + s2, i1 + [x * n + y] + i2) == Flatten(s1 + [m, n] + s2, i1 + [x, y] + i2)
  {
    MulAddBound(x, m, n, y);
    var a, ai := s1 + [m * n], i1 + [x * n + y];
    var b, bi := s1 + [m, n], i1 + [x, y];
    FlattenAppend(a, ai, s2, i2);
    FlattenAppend(b, bi, s2, i2);
    assert a[..|s1|] == s1 && ai[..|s1|] == i1;
    assert b[..|s1| + 1] == s1 + [m] && bi[..|s1| + 1] == i1 + [x];
    assert (s1 + [m])[..|s1|] == s1 && (i1 + [x])[..|s1|] == i1;
    var f := Flatten(s1, i1);
    assert Flatten(a, ai) == f * (m * n) + (x * n + y);
    assert Flatten(b, bi) == (f * m + x) * n + y;
    Regroup2(f, m, n, x, y);
  }

  /** Splitting one axis of length `m * n` into `(m, n)` keeps the element count. */
  lemma SplitAxisSize(s1: seq<nat>, m: nat, n: nat, s2: seq<nat>)
    ensures Size(s1 + [m * n] + s2) == Size(s1 + [m, n] + s2)
  {
    SizeAppend(s1 + [m * n], s2);
    SizeAppend(s1 + [m, n], s2);
    assert (s1 + [m * n])[..|s1|] == s1;
    assert (s1 + [m, n])[..|s1| + 1] == s1 + [m];
    assert (s1 + [m])[..|s1|] == s1;
    Regroup2(Size(s1), m, n, 0, 0);
  }

  /** Element count of a shape with one distinguished axis of length `v`. */
  lemma SizeAround(s1: seq<nat>, v: nat, s2: seq<nat>)
    ensures Size(s1 + [v] + s2) == Size(s1) * Size(s2) * v
  {
    SizeAppend(s1 + [v], s2);
    assert (s1 + [v])[..|s1|] == s1;
    Regroup(Size(s1), v, 0, Size(s2), 0);
  }

  /** Mixed-radix digits are unique: `x * n + y` with `y < n` determines `x` and `y`. */
  lemma DigitsUnique(x: nat, y: nat, x': nat, y': nat, n: nat)
    requires y < n && y' < n
    ensures x * n + y == x' * n + y' <==> x == x' && y == y'
  {
    DivModOf(x, n, y);
    DivModOf(x', n, y');
  }

  /** Element count of a rank-4 shape such as [B, C, H, W]. */
  lemma Size4(a: nat, b: nat, c: nat, d: nat)
    ensures Size([a, b, c, d]) == a * b * c * d
  {
    assert [a, b, c, d][..3] == [a, b, c];
    assert [a, b, c][..2] == [a, b];
    assert [a, b][..1] == [a];
    assert [a][..0] == [];
    assert Size([a]) == a;
    assert Size([a, b]) == a * b;
    assert Size([a, b, c]) == a * b * c;
  }

  /** Shrinking either factor of a positive product (scaled by P > 0) shrinks it strictly. */
  lemma StrictProduct(P: nat, a: nat, b: nat, c: nat, e: nat)
    requires P > 0 && a <= c && b <= e && c > 0 && e > 0
    ensures (a < c || b < e) ==> P * a * b < P * c * e
  {
    if a < c || b < e {
      StrictPair(a, b, c, e);
      StrictScale(P, a * b, c * e);
      Assoc(P, a, b);
      Assoc(P, c, e);
    }
  }

  lemma Assoc(x: int, y: int, z: int)
    ensures x * y * z == x * (y * z)
  {
  }

  lemma StrictPair(a: nat, b: nat, c: nat, e: nat)
    requires a <= c && b <= e && c > 0 && e > 0 && (a < c || b < e)
    ensures a * b < c * e
  {
    if a < c {
      MulMono(b, e, a);
      MulMono(a + 1, c, e);
      assert (a + 1) * e == a * e + e;
    } else {
      MulMono(a, c, b);
      MulMono(b + 1, e, c);
      assert (b + 1) * c == b * c + c;
    }
  }

  lemma StrictScale(P: nat, x: nat, y: nat)
    requires P > 0
    ensures x < y ==> P * x < P * y
  {
    MulMono(x + 1, y, P);
    assert (x + 1) * P == x * P + P;
  }

  /** Bounds on a rank-4 multi-index, one axis at a time. */
  lemma InBounds4(s0: nat, s1: nat, s2: nat, s3: nat, i0: nat, i1: nat, i2: nat, i3: nat)
    requires i0 < s0 && i1 < s1 && i2 < s2 && i3 < s3
    ensures InBounds([s0, s1, s2, s3], [i0, i1, i2, i3])
  {
  }
}
