/**
 * Dense tensors as a shape plus a flat row-major buffer, and the PyTorch view
 * operations the attention code uses: `reshape` (with one inferred `-1`
 * axis), `permute`, `transpose` and integer indexing of the leading axis.
 * None stands for the RuntimeError/IndexError PyTorch raises.
 */
module Tensors {
  import opened Wrappers
  import opened Layout

  datatype RawTensor<T> = Tensor(shape: seq<nat>, data: seq<T>)

  /** A tensor holds exactly one element per multi-index of its shape. */
  type Tensor<T> = t: RawTensor<T> | |t.data| == Size(t.shape) witness Tensor([0], [])

  /** The element at multi-index `i`. */
  function At<T>(t: Tensor<T>, i: seq<nat>): T
    requires InBounds(t.shape, i)
  {
    t.data[Flatten(t.shape, i)]
  }

  /** Two tensors with the same shape and the same element at every index are equal. */
  lemma Extensionality<T>(a: Tensor<T>, b: Tensor<T>)
    requires a.shape == b.shape
    requires forall i :: InBounds(a.shape, i) ==> At(a, i) == At(b, i)
    ensures a == b
  {
    forall f | 0 <= f < |a.data|
      ensures a.data[f] == b.data[f]
    {
      var i := Unflatten(a.shape, f);
      assert At(a, i) == At(b, i);
    }
  }

  // ---------------------------------------------------------------------------
  // reshape: a shape request with at most one inferred (-1) axis

  /** Every entry of a shape request is a length or the inferred marker -1. */
  predicate WellFormedSpec(spec: seq<int>)
  {
    forall k :: 0 <= k < |spec| ==> spec[k] >= -1
  }

  /** Number of inferred (-1) axes of a shape request. */
  function Holes(spec: seq<int>): nat
  {
    if |spec| == 0 then 0
    else Holes(spec[..|spec| - 1]) + (if spec[|spec| - 1] == -1 then 1 else 0)
  }

  /** Product of the explicitly requested lengths. */
  function KnownProduct(spec: seq<int>): nat
    requires WellFormedSpec(spec)
  {
    if |spec| == 0 then 1
    else
      var last := spec[|spec| - 1];
      KnownProduct(spec[..|spec| - 1]) * (if last == -1 then 1 else last as nat)
  }

  /** The shape obtained by giving every inferred axis the length `v`. */
  function Fill(spec: seq<int>, v: nat): (s: seq<nat>)
    requires WellFormedSpec(spec)
    ensures |s| == |spec|
    ensures forall k :: 0 <= k < |spec| ==> s[k] == if spec[k] == -1 then v else spec[k] as nat
  {
    seq(|spec|, k requires 0 <= k < |spec| => if spec[k] == -1 then v else spec[k] as nat)
  }

  lemma {:induction false} SizeFill(spec: seq<int>, v: nat)
    requires WellFormedSpec(spec) && Holes(spec) <= 1
    ensures Size(Fill(spec, v)) == KnownProduct(spec) * (if Holes(spec) == 1 then v else 1)
  {
    if |spec| > 0 {
      var n := |spec| - 1;
      assert Fill(spec, v)[..n] == Fill(spec[..n], v);
      SizeFill(spec[..n], v);
    }
  }

  /**
   * PyTorch's size inference for `reshape`: at most one axis may be -1; without
   * one the requested lengths must multiply to the element count, with one the
   * known lengths must have a non-zero product that divides it.
   */
  function ResolveShape(spec: seq<int>, numel: nat): (r: Option<seq<nat>>)
    ensures r.Some? ==> WellFormedSpec(spec) && Holes(spec) <= 1
    ensures r.Some? ==> |r.value| == |spec| && Size(r.value) == numel
    ensures r.Some? ==> forall k :: 0 <= k < |spec| && spec[k] != -1 ==> r.value[k] == spec[k]
  {
    if !WellFormedSpec(spec) || Holes(spec) > 1 then None
    else
      var known := KnownProduct(spec);
      SizeFill(spec, if Holes(spec) == 1 && known > 0 then numel / known else 0);
      if Holes(spec) == 0 then
        if known == numel then Some(Fill(spec, 0)) else None
      else if known > 0 && numel % known == 0 then Some(Fill(spec, numel / known))
      else None
  }

  lemma {:induction false} FixedSpec(s: seq<nat>)
    ensures WellFormedSpec(s) && Holes(s) == 0 && KnownProduct(s) == Size(s)
  {
    if |s| > 0 {
      FixedSpec(s[..|s| - 1]);
    }
  }

  /** The request `(*s1, -1, *s2)`. */
  function Inferred(s1: seq<nat>, s2: seq<nat>): seq<int>
  {
    var a: seq<int> := s1;
    a + [-1] + s2
  }

  lemma InferredSpec(s1: seq<nat>, s2: seq<nat>)
    ensures WellFormedSpec(Inferred(s1, s2)) && Holes(Inferred(s1, s2)) == 1
    ensures KnownProduct(Inferred(s1, s2)) == Size(s1) * Size(s2)
  {
    var a: seq<int> := s1;
    var h := a + [-1];
    assert h[..|s1|] == s1;
    FixedSpec(s1);
    assert Holes(h) == 1 && KnownProduct(h) == Size(s1);
    HolesAppendFixed(h, s2);
  }

  lemma {:induction false} HolesAppendFixed(a: seq<int>, s2: seq<nat>)
    requires WellFormedSpec(a)
    ensures WellFormedSpec(a + s2) && Holes(a + s2) == Holes(a)
    ensures KnownProduct(a + s2) == KnownProduct(a) * Size(s2)
  {
    if |s2| == 0 {
      assert a + s2 == a;
    } else {
      var n := |s2| - 1;
      assert (a + s2)[..|a| + n] == a + s2[..n];
      HolesAppendFixed(a, s2[..n]);
      Regroup(KnownProduct(a), Size(s2[..n]), 0, s2[n], 0);
    }
  }

  /** `reshape` keeps the flat buffer and changes only the shape. */
  function Reshape<T>(t: Tensor<T>, spec: seq<int>): (r: Option<Tensor<T>>)
    ensures r.Some? ==> r.value.data == t.data && |r.value.shape| == |spec|
    ensures r.Some? ==> forall k :: 0 <= k < |spec| && spec[k] != -1 ==> r.value.shape[k] == spec[k]
  {
    var s :- ResolveShape(spec, |t.data|);
    Some(Tensor(s, t.data))
  }

  /** A request without -1 succeeds exactly when the element counts agree. */
  lemma ReshapeFixed<T>(t: Tensor<T>, s: seq<nat>)
    ensures Reshape(t, s) == if Size(s) == Size(t.shape) then Some(Tensor(s, t.data)) else None
  {
    FixedSpec(s);
    assert Fill(s, 0) == s;
  }

  /**
   * A request with one -1 between fixed lengths succeeds exactly when the fixed
   * lengths have a non-zero product dividing the element count; the -1 axis
   * then receives the quotient.
   */
  lemma ReshapeInferred<T>(t: Tensor<T>, s1: seq<nat>, s2: seq<nat>)
    ensures var known := Size(s1) * Size(s2);
      Reshape(t, Inferred(s1, s2)) ==
        if known > 0 && Size(t.shape) % known == 0
        then Some(Tensor(s1 + [Size(t.shape) / known] + s2, t.data))
        else None
  {
    ResolveInferred(s1, s2, Size(t.shape));
  }

  lemma ResolveInferred(s1: seq<nat>, s2: seq<nat>, numel: nat)
    ensures var known := Size(s1) * Size(s2);
      ResolveShape(Inferred(s1, s2), numel) ==
        if known > 0 && numel % known == 0 then Some(s1 + [numel / known] + s2) else None
  {
    var spec := Inferred(s1, s2);
    InferredSpec(s1, s2);
    var known := Size(s1) * Size(s2);
    assert KnownProduct(spec) == known;
    if known > 0 && numel % known == 0 {
      var v := numel / known;
      FillInferred(s1, s2, v);
      assert ResolveShape(spec, numel) == Some(Fill(spec, v));
    } else {
      assert ResolveShape(spec, numel) == None;
    }
  }

  lemma FillInferred(s1: seq<nat>, s2: seq<nat>, v: nat)
    ensures WellFormedSpec(Inferred(s1, s2))
    ensures Fill(Inferred(s1, s2), v) == s1 + [v] + s2
  {
    var spec, f := Inferred(s1, s2), s1 + [v] + s2;
    assert WellFormedSpec(spec);
    assert |Fill(spec, v)| == |f|;
    forall k | 0 <= k < |f|
      ensures Fill(spec, v)[k] == f[k]
    {
      if k < |s1| {
        assert spec[k] == s1[k] && f[k] == s1[k];
      } else if k > |s1| {
        assert spec[k] == s2[k - |s1| - 1] && f[k] == s2[k - |s1| - 1];
      }
    }
  }

  // ---------------------------------------------------------------------------
  // permute and transpose

  /** `p` lists every axis of a rank-`n` tensor exactly once. */
  predicate IsPermutation(p: seq<nat>, n: nat)
  {
    && |p| == n
    && (forall k :: 0 <= k < n ==> p[k] < n)
    && (forall a, b :: 0 <= a < b < n ==> p[a] != p[b])
  }

  function Range(n: nat): (r: set<nat>)
    ensures |r| == n
    ensures forall m: nat :: m in r <==> m < n
  {
    if n == 0 then
      var r: set<nat> := {};
      assert forall m :: m !in r;
      r
    else
      var r := Range(n - 1) + {n - 1};
      assert n - 1 !in Range(n - 1);
      r
  }

  function Elements(p: seq<nat>): (r: set<nat>)
    ensures forall m :: m in r <==> m in p
  {
    set m | m in p
  }

  lemma {:induction false} DistinctElements(p: seq<nat>)
    requires forall a, b :: 0 <= a < b < |p| ==> p[a] != p[b]
    ensures |Elements(p)| == |p|
  {
    if |p| > 0 {
      var n := |p| - 1;
      DistinctElements(p[..n]);
      assert Elements(p) == Elements(p[..n]) + {p[n]};
      assert p[n] !in Elements(p[..n]);
    }
  }

  /** Pigeonhole: distinct axes below `n`, `n` of them, name every axis. */
  lemma PermutationCovers(p: seq<nat>, n: nat)
    requires IsPermutation(p, n)
    ensures forall m :: 0 <= m < n ==> m in p
  {
    DistinctElements(p);
    var e, r := Elements(p), Range(n);
    assert e <= r;
    assert |r - e| == |r| - |r * e|;
    assert r * e == e;
    assert r - e == {};
    forall m | 0 <= m < n
      ensures m in p
    {
      assert m in r;
    }
  }

  /** Position of value `m` in `p`. */
  function IndexOf(p: seq<nat>, m: nat): (k: nat)
    requires m in p
    ensures k < |p| && p[k] == m
  {
    if p[0] == m then 0 else 1 + IndexOf(p[1..], m)
  }

  /** `xs` reordered by `p`: entry `k` of the result is entry `p[k]` of `xs`. */
  function Gather(xs: seq<nat>, p: seq<nat>): (r: seq<nat>)
    requires forall k :: 0 <= k < |p| ==> p[k] < |xs|
    ensures |r| == |p| && forall k :: 0 <= k < |p| ==> r[k] == xs[p[k]]
  {
    seq(|p|, k requires 0 <= k < |p| => xs[p[k]])
  }

  /** The inverse of Gather: the source multi-index of permuted multi-index `j`. */
  function Scatter(shape: seq<nat>, p: seq<nat>, j: seq<nat>): (i: seq<nat>)
    requires IsPermutation(p, |shape|) && InBounds(Gather(shape, p), j)
    ensures InBounds(shape, i) && Gather(i, p) == j
  {
    PermutationCovers(p, |shape|);
    var i := seq(|shape|, m requires 0 <= m < |shape| => j[IndexOf(p, m)]);
    assert forall k :: 0 <= k < |p| ==> IndexOf(p, p[k]) == k;
    i
  }

  lemma ScatterGather(shape: seq<nat>, p: seq<nat>, i: seq<nat>)
    requires IsPermutation(p, |shape|) && InBounds(shape, i)
    ensures InBounds(Gather(shape, p), Gather(i, p))
    ensures Scatter(shape, p, Gather(i, p)) == i
  {
    PermutationCovers(p, |shape|);
  }

  /** `t.permute(p)`: axis `k` of the result is axis `p[k]` of `t`. */
  function PermuteBy<T>(t: Tensor<T>, p: seq<nat>): (r: Tensor<T>)
    requires IsPermutation(p, |t.shape|)
    ensures r.shape == Gather(t.shape, p)
  {
    var s := Gather(t.shape, p);
    Tensor(s, seq(Size(s), f requires 0 <= f < Size(s) => At(t, Scatter(t.shape, p, Unflatten(s, f)))))
  }

  lemma PermuteAt<T>(t: Tensor<T>, p: seq<nat>, j: seq<nat>)
    requires IsPermutation(p, |t.shape|) && InBounds(Gather(t.shape, p), j)
    ensures At(PermuteBy(t, p), j) == At(t, Scatter(t.shape, p, j))
  {
    UnflattenFlatten(Gather(t.shape, p), j);
  }

  /** PyTorch's dimension wrapping: -rank..-1 count from the end. */
  function WrapDim(d: int, rank: nat): (r: Option<nat>)
    ensures r.Some? <==> -(rank as int) <= d < rank
    ensures r.Some? ==> r.value < rank && (r.value == d || r.value == d + rank)
  {
    if 0 <= d < rank then Some(d) else if -(rank as int) <= d < 0 then Some(d + rank) else None
  }

  function WrapDims(dims: seq<int>, rank: nat): (r: Option<seq<nat>>)
    ensures r.Some? <==> forall k :: 0 <= k < |dims| ==> -(rank as int) <= dims[k] < rank
    ensures r.Some? ==> |r.value| == |dims|
    ensures r.Some? ==> forall k :: 0 <= k < |dims| ==> Some(r.value[k]) == WrapDim(dims[k], rank)
  {
    if forall k :: 0 <= k < |dims| ==> WrapDim(dims[k], rank).Some? then
      Some(seq(|dims|, k requires 0 <= k < |dims| => WrapDim(dims[k], rank).value))
    else None
  }

  /** `t.permute(*dims)`: fails unless the wrapped dims name every axis once. */
  function Permute<T>(t: Tensor<T>, dims: seq<int>): (r: Option<Tensor<T>>)
    ensures r.Some? <==> WrapDims(dims, |t.shape|).Some? && IsPermutation(WrapDims(dims, |t.shape|).value, |t.shape|)
    ensures r.Some? ==> r.value == PermuteBy(t, WrapDims(dims, |t.shape|).value)
    ensures r.Some? ==> |dims| == |t.shape| && forall k :: 0 <= k < |dims| ==> r.value.shape[k] == t.shape[WrapDim(dims[k], |t.shape|).value]
  {
    var p :- WrapDims(dims, |t.shape|);
    if IsPermutation(p, |t.shape|) then Some(PermuteBy(t, p)) else None
  }

  lemma WrapDimsNat(p: seq<nat>, rank: nat)
    requires forall k :: 0 <= k < |p| ==> p[k] < rank
    ensures WrapDims(p, rank) == Some(p)
  {
    assert forall k :: 0 <= k < |p| ==> WrapDim(p[k], rank) == Some(p[k]);
    var r := WrapDims(p, rank);
    assert r.Some?;
    assert r.value == p;
  }

  /** Non-negative dims that form a permutation are taken as they are. */
  lemma PermuteNat<T>(t: Tensor<T>, p: seq<nat>)
    requires IsPermutation(p, |t.shape|)
    ensures Permute(t, p) == Some(PermuteBy(t, p))
  {
    WrapDimsNat(p, |t.shape|);
  }

  /** The permutation that exchanges axes `a` and `b`. */
  function Swap(n: nat, a: nat, b: nat): (p: seq<nat>)
    requires a < n && b < n
    ensures IsPermutation(p, n)
  {
    seq(n, k requires 0 <= k < n => if k == a then b else if k == b then a else k)
  }

  /** `t.transpose(d0, d1)`. */
  function Transpose<T>(t: Tensor<T>, d0: int, d1: int): (r: Option<Tensor<T>>)
    ensures r.Some? <==> WrapDim(d0, |t.shape|).Some? && WrapDim(d1, |t.shape|).Some?
  {
    var a :- WrapDim(d0, |t.shape|);
    var b :- WrapDim(d1, |t.shape|);
    Some(PermuteBy(t, Swap(|t.shape|, a, b)))
  }

  // ---------------------------------------------------------------------------
  // t[k]: indexing the leading axis

  lemma SizeCons(s: seq<nat>)
    requires |s| > 0
    ensures Size(s) == s[0] * Size(s[1..])
  {
    SizeAppend([s[0]], s[1..]);
    assert [s[0]] + s[1..] == s;
    assert [s[0]][..0] == [];
    assert Size([s[0]]) == s[0];
  }

  /** `t[k]` for an integer `k`: the sub-tensor at position `k` of the leading axis. */
  function Select<T>(t: Tensor<T>, k: int): (r: Option<Tensor<T>>)
    ensures r.Some? <==> |t.shape| > 0 && -(t.shape[0] as int) <= k < t.shape[0]
    ensures r.Some? ==> r.value.shape == t.shape[1..]
  {
    if |t.shape| == 0 then None
    else
      var i :- WrapDim(k, t.shape[0]);
      var rest := t.shape[1..];
      SizeCons(t.shape);
      MulMono(i + 1, t.shape[0], Size(rest));
      assert (i + 1) * Size(rest) == i * Size(rest) + Size(rest);
      Some(Tensor(rest, t.data[i * Size(rest)..(i + 1) * Size(rest)]))
  }

  /** `t[k]` for an in-range k: the k-th block of Size(shape[1..]) elements. */
  lemma SelectValue<T>(t: Tensor<T>, k: nat)
    requires |t.shape| > 0 && k < t.shape[0]
    ensures (k + 1) * Size(t.shape[1..]) == k * Size(t.shape[1..]) + Size(t.shape[1..])
    ensures (k + 1) * Size(t.shape[1..]) <= |t.data|
    ensures Select(t, k) == Some(Tensor(t.shape[1..], t.data[k * Size(t.shape[1..])..(k + 1) * Size(t.shape[1..])]))
  {
    SizeCons(t.shape);
    MulMono(k + 1, t.shape[0], Size(t.shape[1..]));
  }

  lemma SelectAt<T>(t: Tensor<T>, k: nat, j: seq<nat>)
    requires |t.shape| > 0 && k < t.shape[0] && InBounds(t.shape[1..], j)
    ensures Select(t, k).Some? && InBounds(t.shape, [k] + j)
    ensures At(Select(t, k).value, j) == At(t, [k] + j)
  {
    var rest := t.shape[1..];
    assert [t.shape[0]] + rest == t.shape;
    FlattenAppend([t.shape[0]], [k], rest, j);
    assert [t.shape[0]][..0] == [] && [k][..0] == [];
    assert Flatten([t.shape[0]], [k]) == k;
    SelectValue(t, k);
  }

  // ---------------------------------------------------------------------------
  // Reference view used to state round trips

  /** Channels `lo .. lo + c - 1` of an (N, C, H, W) tensor, as an (N, c, H, W) tensor. */
  function ChannelSlice<T>(t: Tensor<T>, lo: nat, c: nat): (r: Tensor<T>)
    requires |t.shape| == 4 && lo + c <= t.shape[1]
    ensures r.shape == [t.shape[0], c, t.shape[2], t.shape[3]]
  {
    var s := [t.shape[0], c, t.shape[2], t.shape[3]];
    Tensor(s, seq(Size(s), f requires 0 <= f < Size(s) =>
      var i := Unflatten(s, f);
      At(t, [i[0], lo + i[1], i[2], i[3]])))
  }

  lemma ChannelSliceAt<T>(t: Tensor<T>, lo: nat, c: nat, i: seq<nat>)
    requires |t.shape| == 4 && lo + c <= t.shape[1]
    requires InBounds([t.shape[0], c, t.shape[2], t.shape[3]], i)
    ensures InBounds(t.shape, [i[0], lo + i[1], i[2], i[3]])
    ensures At(ChannelSlice(t, lo, c), i) == At(t, [i[0], lo + i[1], i[2], i[3]])
  {
    UnflattenFlatten([t.shape[0], c, t.shape[2], t.shape[3]], i);
  }
}
