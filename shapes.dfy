/**
 * Shape arithmetic of the convolutional parts of the network: the output-size
 * rule PyTorch documents for Conv2d, MaxPool2d and AvgPool2d, broadcasting of
 * `+`, and the layers built from them (InvertedResidual, Downsample and the
 * stem). Shapes are NCHW; a layer that PyTorch would reject gives None.
 */
module Shapes {
  import opened Wrappers

  /** Floor division pinned down by its bounds. */
  lemma FloorBounds(m: nat, s: nat)
    requires s > 0
    ensures (m / s) * s <= m < (m / s) * s + s
  {
    assert m == (m / s) * s + m % s;
  }

  /**
   * Output length of a sliding window of size `k`, stride `s` and zero padding
   * `p` over `n` positions (dilation 1, floor mode): floor((n + 2p - k)/s) + 1.
   * It is the number of window starts 0, s, 2s, ... whose window fits inside
   * the padded input: the last one fits and the next one does not.
   */
  function OutLen(n: nat, k: nat, s: nat, p: nat): (r: Option<nat>)
    ensures r.Some? <==> k > 0 && s > 0 && k <= n + 2 * p
    ensures r.Some? ==> r.value > 0 && (r.value - 1) * s + k <= n + 2 * p < r.value * s + k
  {
    if k == 0 || s == 0 || n + 2 * p < k then None
    else
      FloorBounds(n + 2 * p - k, s);
      Some((n + 2 * p - k) / s + 1)
  }

  /** The window count is the only positive length with that property. */
  lemma OutLenUnique(n: nat, k: nat, s: nat, p: nat, r: nat)
    requires k > 0 && s > 0
    requires r > 0 && (r - 1) * s + k <= n + 2 * p < r * s + k
    ensures OutLen(n, k, s, p) == Some(r)
  {
    var q := OutLen(n, k, s, p).value;
    if q < r {
      MulLe(q, r - 1, s);
      assert false;
    } else if q > r {
      MulLe(r, q - 1, s);
      assert false;
    }
  }

  lemma MulLe(a: nat, b: nat, s: nat)
    requires a <= b
    ensures a * s <= b * s
  {
  }

  /** An NCHW activation shape. */
  datatype Shape4 = Shape4(b: nat, c: nat, h: nat, w: nat)

  /** `nn.Conv2d(cin, cout, k, stride=s, padding=p)` applied to `x`. */
  function Conv(x: Shape4, cin: nat, cout: nat, k: nat, s: nat, p: nat): (r: Option<Shape4>)
    ensures r.Some? ==> x.c == cin && r.value.b == x.b && r.value.c == cout
    ensures r.Some? <==> x.c == cin && OutLen(x.h, k, s, p).Some? && OutLen(x.w, k, s, p).Some?
  {
    if x.c != cin then None
    else
      var h :- OutLen(x.h, k, s, p);
      var w :- OutLen(x.w, k, s, p);
      Some(Shape4(x.b, cout, h, w))
  }

  /**
   * `nn.MaxPool2d(k, s, p)` or `nn.AvgPool2d(k, s, p)` applied to `x`; PyTorch
   * also refuses a padding above half the kernel.
   */
  function Pool(x: Shape4, k: nat, s: nat, p: nat): (r: Option<Shape4>)
    ensures r.Some? ==> r.value.b == x.b && r.value.c == x.c
    ensures r.Some? <==> 2 * p <= k && OutLen(x.h, k, s, p).Some? && OutLen(x.w, k, s, p).Some?
  {
    if 2 * p > k then None
    else
      var h :- OutLen(x.h, k, s, p);
      var w :- OutLen(x.w, k, s, p);
      Some(Shape4(x.b, x.c, h, w))
  }

  /** Broadcasting of one axis: equal lengths, or a length 1 stretched to the other. */
  function BroadcastLen(a: nat, b: nat): (r: Option<nat>)
    ensures r.Some? <==> a == b || a == 1 || b == 1
    ensures r.Some? ==> (a == r.value || a == 1) && (b == r.value || b == 1)
    ensures r.Some? && a != 1 ==> r.value == a
    ensures r.Some? && b != 1 ==> r.value == b
  {
    if a == b then Some(a) else if a == 1 then Some(b) else if b == 1 then Some(a) else None
  }

  /** `x + y` on two NCHW tensors, with broadcasting. */
  function Add(x: Shape4, y: Shape4): (r: Option<Shape4>)
    ensures r.Some? <==> (BroadcastLen(x.b, y.b).Some? && BroadcastLen(x.c, y.c).Some?
                          && BroadcastLen(x.h, y.h).Some? && BroadcastLen(x.w, y.w).Some?)
    ensures x == y ==> r == Some(x)
  {
    var b :- BroadcastLen(x.b, y.b);
    var c :- BroadcastLen(x.c, y.c);
    var h :- BroadcastLen(x.h, y.h);
    var w :- BroadcastLen(x.w, y.w);
    Some(Shape4(b, c, h, w))
  }

  // ---------------------------------------------------------------------------
  // InvertedResidual (TransCNN.py:13-43)

  /** Python's `v or d` on an optional channel count; None and 0 are both falsy and are both written 0 here. */
  function Or(v: nat, d: nat): (r: nat)
    ensures v != 0 ==> r == v
    ensures v == 0 ==> r == d
  {
    if v == 0 then d else v
  }

  /**
   * 1x1 expansion, depthwise k x k convolution with padding (k-1)//2 and 1x1
   * projection (the batch norms, SiLU and dropout between them keep the shape,
   * and each batch norm sees the channel count its convolution produced).
   * A kernel of size 0 would need padding -1, and a depthwise convolution
   * needs at least one group; PyTorch rejects both.
   */
  function InvertedResidual(x: Shape4, inDim: nat, hidden: nat, outDim: nat, k: nat): (r: Option<Shape4>)
    ensures r.Some? ==> x.c == inDim && x.h > 0 && x.w > 0 && k > 0 && Or(hidden, inDim) > 0
  {
    var hid := Or(hidden, inDim);
    var out := Or(outDim, inDim);
    if k == 0 || hid == 0 then None
    else
      var a :- Conv(x, inDim, hid, 1, 1, 0);
      var b :- Conv(a, hid, hid, k, 1, (k - 1) / 2);
      Conv(b, hid, out, 1, 1, 0)
  }

  /** A 1x1 convolution with stride 1 keeps every non-empty spatial length. */
  lemma PointwiseLen(n: nat)
    ensures OutLen(n, 1, 1, 0) == if n > 0 then Some(n) else None
  {
    if n > 0 { OutLenUnique(n, 1, 1, 0, n); }
  }

  /** Stride 1 with padding (k-1)//2 keeps a length exactly for odd k; an even k loses one position. */
  lemma SamePaddingLen(n: nat, k: nat)
    requires n > 0 && k > 0
    ensures k % 2 == 1 ==> OutLen(n, k, 1, (k - 1) / 2) == Some(n)
    ensures k % 2 == 0 ==> OutLen(n, k, 1, (k - 1) / 2) == if n > 1 then Some(n - 1) else None
  {
    if k % 2 == 1 {
      OutLenUnique(n, k, 1, (k - 1) / 2, n);
    } else if n > 1 {
      OutLenUnique(n, k, 1, (k - 1) / 2, n - 1);
    }
  }

  lemma InvertedResidualOdd(x: Shape4, inDim: nat, hidden: nat, outDim: nat, k: nat)
    requires x.c == inDim && x.h > 0 && x.w > 0 && k % 2 == 1 && Or(hidden, inDim) > 0
    ensures InvertedResidual(x, inDim, hidden, outDim, k) == Some(Shape4(x.b, Or(outDim, inDim), x.h, x.w))
  {
    PointwiseLen(x.h);
    PointwiseLen(x.w);
    SamePaddingLen(x.h, k);
    SamePaddingLen(x.w, k);
  }

  lemma {:induction false} InvertedResidualEven(x: Shape4, inDim: nat, hidden: nat, outDim: nat, k: nat)
    requires x.c == inDim && x.h > 0 && x.w > 0 && k > 0 && k % 2 == 0 && Or(hidden, inDim) > 0
    ensures InvertedResidual(x, inDim, hidden, outDim, k)
         == if x.h > 1 && x.w > 1 then Some(Shape4(x.b, Or(outDim, inDim), x.h - 1, x.w - 1)) else None
  {
    if x.h > 1 && x.w > 1 {
      EvenKernelShrinks(x, inDim, hidden, outDim, k);
    } else {
      EvenKernelTooSmall(x, inDim, hidden, outDim, k);
    }
  }

  lemma {:induction false} EvenKernelShrinks(x: Shape4, inDim: nat, hidden: nat, outDim: nat, k: nat)
    requires x.c == inDim && x.h > 1 && x.w > 1 && k > 0 && k % 2 == 0 && Or(hidden, inDim) > 0
    ensures InvertedResidual(x, inDim, hidden, outDim, k) == Some(Shape4(x.b, Or(outDim, inDim), x.h - 1, x.w - 1))
  {
    var hid, out := Or(hidden, inDim), Or(outDim, inDim);
    PointwiseLen(x.h);
    PointwiseLen(x.w);
    SamePaddingLen(x.h, k);
    SamePaddingLen(x.w, k);
    var a := Shape4(x.b, hid, x.h, x.w);
    assert Conv(x, inDim, hid, 1, 1, 0) == Some(a);
    var d := Shape4(x.b, hid, x.h - 1, x.w - 1);
    assert Conv(a, hid, hid, k, 1, (k - 1) / 2) == Some(d);
    PointwiseLen(x.h - 1);
    PointwiseLen(x.w - 1);
    assert Conv(d, hid, out, 1, 1, 0) == Some(Shape4(x.b, out, x.h - 1, x.w - 1));
  }

  lemma {:induction false} EvenKernelTooSmall(x: Shape4, inDim: nat, hidden: nat, outDim: nat, k: nat)
    requires x.c == inDim && x.h > 0 && x.w > 0 && (x.h == 1 || x.w == 1) && k > 0 && k % 2 == 0 && Or(hidden, inDim) > 0
    ensures InvertedResidual(x, inDim, hidden, outDim, k) == None
  {
    var hid, pad := Or(hidden, inDim), (k - 1) / 2;
    PointwiseLen(x.h);
    PointwiseLen(x.w);
    assert OutLen(x.h, 1, 1, 0) == Some(x.h) && OutLen(x.w, 1, 1, 0) == Some(x.w);
    var a := Shape4(x.b, hid, x.h, x.w);
    assert Conv(x, inDim, hid, 1, 1, 0) == Some(a);
    SamePaddingLen(1, k);
    if x.h == 1 {
      assert OutLen(a.h, k, 1, pad) == None;
    } else {
      assert OutLen(a.w, k, 1, pad) == None;
    }
    assert Conv(a, hid, hid, k, 1, pad) == None;
  }

  /**
   * With a matching input channel count and a non-empty map, InvertedResidual
   * returns a map of the same height and width (and `out_dim or in_dim`
   * channels) exactly when the kernel size is odd.
   */
  lemma InvertedResidualKeepsSize(x: Shape4, inDim: nat, hidden: nat, outDim: nat, k: nat)
    requires x.c == inDim && x.h > 0 && x.w > 0 && k > 0 && Or(hidden, inDim) > 0
    ensures InvertedResidual(x, inDim, hidden, outDim, k) == Some(Shape4(x.b, Or(outDim, inDim), x.h, x.w))
        <==> k % 2 == 1
  {
    if k % 2 == 1 {
      InvertedResidualOdd(x, inDim, hidden, outDim, k);
    } else {
      InvertedResidualEven(x, inDim, hidden, outDim, k);
    }
  }

  /** The depthwise kernel sizes of the four stages (TransCNN.py:156). */
  const KernelSizes: seq<nat> := [5, 3, 5, 3]

  /** Every configured kernel size is odd, so every InvertedResidual of the network keeps its input size. */
  lemma KernelSizesOdd()
    ensures forall s :: 0 <= s < |KernelSizes| ==> KernelSizes[s] % 2 == 1 && KernelSizes[s] > 0
  {
  }

  // ---------------------------------------------------------------------------
  // Downsample (TransCNN.py:124-138)

  /** Downsample: a 3x3 stride-2 convolution added to a 2x2 max-pool followed by a 1x1 convolution. */
  function Downsample(x: Shape4, inDim: nat, outDim: nat): Option<Shape4>
  {
    var x1 :- Conv(x, inDim, outDim, 3, 2, 1);
    var p :- Pool(x, 2, 2, 0);
    var x2 :- Conv(p, inDim, outDim, 1, 1, 0);
    Add(x1, x2)
  }

  /** The 3x3 stride-2 padding-1 convolution gives ceil(n/2) positions. */
  lemma StridedConvLen(n: nat)
    ensures OutLen(n, 3, 2, 1) == if n > 0 then Some((n + 1) / 2) else None
  {
    if n > 0 { OutLenUnique(n, 3, 2, 1, (n + 1) / 2); }
  }

  /** The 2x2 stride-2 pool gives floor(n/2) positions, and needs two. */
  lemma HalvingPoolLen(n: nat)
    ensures OutLen(n, 2, 2, 0) == if n > 1 then Some(n / 2) else None
  {
    if n > 1 { OutLenUnique(n, 2, 2, 0, n / 2); }
  }

  /** A spatial length Downsample accepts: even, or 3 (where ceil 2 broadcasts against floor 1). */
  predicate Halvable(n: nat)
  {
    n > 1 && (n % 2 == 0 || n == 3)
  }

  lemma DownsampleLen(n: nat)
    requires n > 1
    ensures BroadcastLen((n + 1) / 2, n / 2).Some? <==> Halvable(n)
    ensures Halvable(n) ==> BroadcastLen((n + 1) / 2, n / 2) == Some((n + 1) / 2)
  {
  }

  /**
   * Downsample succeeds exactly when the channel count matches and both
   * spatial lengths are Halvable; the result has `out_dim` channels and
   * ceil(H/2) x ceil(W/2) positions (H/2 x W/2 for even lengths).
   */
  lemma DownsampleShape(x: Shape4, inDim: nat, outDim: nat)
    requires x.c == inDim
    ensures Downsample(x, inDim, outDim).Some? <==> Halvable(x.h) && Halvable(x.w)
    ensures Downsample(x, inDim, outDim).Some?
        ==> Downsample(x, inDim, outDim) == Some(Shape4(x.b, outDim, (x.h + 1) / 2, (x.w + 1) / 2))
  {
    StridedConvLen(x.h);
    StridedConvLen(x.w);
    HalvingPoolLen(x.h);
    HalvingPoolLen(x.w);
    if x.h > 1 && x.w > 1 {
      PointwiseLen(x.h / 2);
      PointwiseLen(x.w / 2);
      DownsampleLen(x.h);
      DownsampleLen(x.w);
    }
  }

  /** On even lengths Downsample halves the map exactly. */
  lemma DownsampleEven(x: Shape4, inDim: nat, outDim: nat)
    requires x.c == inDim && x.h > 0 && x.w > 0 && x.h % 2 == 0 && x.w % 2 == 0
    ensures Downsample(x, inDim, outDim) == Some(Shape4(x.b, outDim, x.h / 2, x.w / 2))
  {
    DownsampleShape(x, inDim, outDim);
  }

  /** An odd length of 5 or more cannot be halved: ceil and floor differ and neither is 1. */
  lemma DownsampleOddFails(x: Shape4, inDim: nat, outDim: nat)
    requires x.c == inDim && x.h % 2 == 1 && x.h >= 5
    ensures Downsample(x, inDim, outDim) == None
  {
    DownsampleShape(x, inDim, outDim);
  }

  // ---------------------------------------------------------------------------
  // The stem (TransCNN.py:148-153)

  /** Two 3x3 stride-2 convolutions, 3 -> 16 -> dims[0] channels. */
  function Stem(x: Shape4, dim0: nat): Option<Shape4>
  {
    var a :- Conv(x, 3, 16, 3, 2, 1);
    Conv(a, 16, dim0, 3, 2, 1)
  }

  /** The stem maps an RGB image of H x W to dims[0] channels of ceil(H/4) x ceil(W/4); H/4 x W/4 when 4 divides both. */
  lemma StemShape(x: Shape4, dim0: nat)
    ensures Stem(x, dim0).Some? <==> x.c == 3 && x.h > 0 && x.w > 0
    ensures Stem(x, dim0).Some? ==> Stem(x, dim0) == Some(Shape4(x.b, dim0, (x.h + 3) / 4, (x.w + 3) / 4))
    ensures Stem(x, dim0).Some? && x.h % 4 == 0 && x.w % 4 == 0
        ==> Stem(x, dim0) == Some(Shape4(x.b, dim0, x.h / 4, x.w / 4))
  {
    StridedConvLen(x.h);
    StridedConvLen(x.w);
    StridedConvLen((x.h + 1) / 2);
    StridedConvLen((x.w + 1) / 2);
  }
}
