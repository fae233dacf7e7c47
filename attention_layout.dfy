/**
 * Index bookkeeping of `Attention.forward` (TransCNN.py): the reshape/permute
 * chains that cut the qkv map into grid windows and glue the windowed result
 * back, and the chains that flatten H*W into a token axis for global
 * attention. Values are left abstract (`T`); only where each element goes
 * is modelled.
 */
module AttentionLayout {
  import opened Wrappers
  import opened Layout
  import opened Tensors

  // ---------------------------------------------------------------------------
  // Offsets: the splits and merges the reshapes perform

  /**
   * (..., heads*hd, gh*gs, gw*gs) and (..., heads, hd, gh, gs, gw, gs) address
   * the same offset at channel n*hd+d, row i*gs+y, column j*gs+x.
   */
  lemma HeadWindowOffset(pre: seq<nat>, ipre: seq<nat>, heads: nat, hd: nat, gh: nat, gs: nat, gw: nat,
                         n: nat, d: nat, i: nat, y: nat, j: nat, x: nat)
    requires InBounds(pre, ipre) && n < heads && d < hd && i < gh && y < gs && j < gw && x < gs
    ensures InBounds(pre + [heads * hd, gh * gs, gw * gs], ipre + [n * hd + d, i * gs + y, j * gs + x])
    ensures InBounds(pre + [heads, hd, gh, gs, gw, gs], ipre + [n, d, i, y, j, x])
    ensures Flatten(pre + [heads * hd, gh * gs, gw * gs], ipre + [n * hd + d, i * gs + y, j * gs + x])
         == Flatten(pre + [heads, hd, gh, gs, gw, gs], ipre + [n, d, i, y, j, x])
  {
    MulAddBound(i, gh, gs, y);
    MulAddBound(j, gw, gs, x);
    SplitAxis(pre, ipre, heads, hd, n, d, [gh * gs, gw * gs], [i * gs + y, j * gs + x]);
    assert pre + [heads * hd] + [gh * gs, gw * gs] == pre + [heads * hd, gh * gs, gw * gs];
    assert ipre + [n * hd + d] + [i * gs + y, j * gs + x] == ipre + [n * hd + d, i * gs + y, j * gs + x];
    SplitAxis(pre + [heads, hd], ipre + [n, d], gh, gs, i, y, [gw * gs], [j * gs + x]);
    assert pre + [heads, hd] + [gh * gs, gw * gs] == pre + [heads, hd] + [gh * gs] + [gw * gs];
    assert ipre + [n, d] + [i * gs + y, j * gs + x] == ipre + [n, d] + [i * gs + y] + [j * gs + x];
    SplitAxis(pre + [heads, hd, gh, gs], ipre + [n, d, i, y], gw, gs, j, x, [], []);
    assert pre + [heads, hd] + [gh, gs] + [gw * gs] == pre + [heads, hd, gh, gs] + [gw * gs] + [];
    assert ipre + [n, d] + [i, y] + [j * gs + x] == ipre + [n, d, i, y] + [j * gs + x] + [];
    assert pre + [heads, hd, gh, gs] + [gw, gs] + [] == pre + [heads, hd, gh, gs, gw, gs];
    assert ipre + [n, d, i, y] + [j, x] + [] == ipre + [n, d, i, y, j, x];
  }

  lemma HeadWindowSize(pre: seq<nat>, heads: nat, hd: nat, gh: nat, gs: nat, gw: nat)
    ensures Size(pre + [heads * hd, gh * gs, gw * gs]) == Size(pre + [heads, hd, gh, gs, gw, gs])
  {
    SplitAxisSize(pre, heads, hd, [gh * gs, gw * gs]);
    assert pre + [heads * hd] + [gh * gs, gw * gs] == pre + [heads * hd, gh * gs, gw * gs];
    SplitAxisSize(pre + [heads, hd], gh, gs, [gw * gs]);
    assert pre + [heads, hd] + [gh * gs, gw * gs] == pre + [heads, hd] + [gh * gs] + [gw * gs];
    SplitAxisSize(pre + [heads, hd, gh, gs], gw, gs, []);
    assert pre + [heads, hd] + [gh, gs] + [gw * gs] == pre + [heads, hd, gh, gs] + [gw * gs] + [];
    assert pre + [heads, hd, gh, gs] + [gw, gs] + [] == pre + [heads, hd, gh, gs, gw, gs];
  }

  /** Row-major index of window (b, head n, window row wi, window column wj) among the attention groups. */
  function GroupIndex(heads: nat, gh: nat, gw: nat, b: nat, n: nat, wi: nat, wj: nat): nat
  {
    ((b * heads + n) * gh + wi) * gw + wj
  }

  /** Row-major position of row y, column x inside a gs-by-gs window. */
  function TokenIndex(gs: nat, y: nat, x: nat): nat
  {
    y * gs + x
  }

  /** Group and token indices stay inside the (B*heads*gh*gw, gs*gs, hd) layout. */
  lemma GroupTokenBound(B: nat, heads: nat, gh: nat, gw: nat, gs: nat, hd: nat,
                        b: nat, n: nat, i: nat, j: nat, y: nat, x: nat, d: nat)
    requires b < B && n < heads && i < gh && j < gw && y < gs && x < gs && d < hd
    ensures InBounds([B * heads * gh * gw, gs * gs, hd], [GroupIndex(heads, gh, gw, b, n, i, j), TokenIndex(gs, y, x), d])
  {
    MulAddBound(b, B, heads, n);
    MulAddBound(b * heads + n, B * heads, gh, i);
    MulAddBound((b * heads + n) * gh + i, B * heads * gh, gw, j);
    MulAddBound(y, gs, gs, x);
  }

  /**
   * (..., B*heads*gh*gw, gs*gs, hd) and (..., B, heads, gh, gw, gs, gs, hd)
   * address the same offset: group and token indices are row-major digits.
   */
  lemma GroupTokenOffset(pre: seq<nat>, ipre: seq<nat>, B: nat, heads: nat, gh: nat, gw: nat, gs: nat, hd: nat,
                         b: nat, n: nat, i: nat, j: nat, y: nat, x: nat, d: nat)
    requires InBounds(pre, ipre) && b < B && n < heads && i < gh && j < gw && y < gs && x < gs && d < hd
    ensures GroupIndex(heads, gh, gw, b, n, i, j) < B * heads * gh * gw && TokenIndex(gs, y, x) < gs * gs
    ensures InBounds(pre + [B * heads * gh * gw, gs * gs, hd], ipre + [GroupIndex(heads, gh, gw, b, n, i, j), TokenIndex(gs, y, x), d])
    ensures InBounds(pre + [B, heads, gh, gw, gs, gs, hd], ipre + [b, n, i, j, y, x, d])
    ensures Flatten(pre + [B * heads * gh * gw, gs * gs, hd], ipre + [GroupIndex(heads, gh, gw, b, n, i, j), TokenIndex(gs, y, x), d])
         == Flatten(pre + [B, heads, gh, gw, gs, gs, hd], ipre + [b, n, i, j, y, x, d])
  {
    var g2, g3 := b * heads + n, (b * heads + n) * gh + i;
    var g := GroupIndex(heads, gh, gw, b, n, i, j);
    SplitAxis(pre, ipre, B, heads, b, n, [gh, gw, gs, gs, hd], [i, j, y, x, d]);
    SplitAxis(pre, ipre, B * heads, gh, g2, i, [gw, gs, gs, hd], [j, y, x, d]);
    SplitAxis(pre, ipre, B * heads * gh, gw, g3, j, [gs, gs, hd], [y, x, d]);
    SplitAxis(pre + [B * heads * gh * gw], ipre + [g], gs, gs, y, x, [hd], [d]);
    assert pre + [B * heads * gh * gw] + [gs * gs] + [hd] == pre + [B * heads * gh * gw, gs * gs, hd];
    assert ipre + [g] + [TokenIndex(gs, y, x)] + [d] == ipre + [g, TokenIndex(gs, y, x), d];
    assert pre + [B * heads * gh * gw] + [gs, gs] + [hd] == pre + [B * heads * gh * gw] + [gs, gs, hd];
    assert ipre + [g] + [y, x] + [d] == ipre + [g] + [y, x, d];
    assert pre + [B * heads * gh, gw] + [gs, gs, hd] == pre + [B * heads * gh] + [gw, gs, gs, hd];
    assert ipre + [g3, j] + [y, x, d] == ipre + [g3] + [j, y, x, d];
    assert pre + [B * heads, gh] + [gw, gs, gs, hd] == pre + [B * heads] + [gh, gw, gs, gs, hd];
    assert ipre + [g2, i] + [j, y, x, d] == ipre + [g2] + [i, j, y, x, d];
    assert pre + [B, heads] + [gh, gw, gs, gs, hd] == pre + [B, heads, gh, gw, gs, gs, hd];
    assert ipre + [b, n] + [i, j, y, x, d] == ipre + [b, n, i, j, y, x, d];
  }

  lemma GroupTokenSize(pre: seq<nat>, B: nat, heads: nat, gh: nat, gw: nat, gs: nat, hd: nat)
    ensures Size(pre + [B * heads * gh * gw, gs * gs, hd]) == Size(pre + [B, heads, gh, gw, gs, gs, hd])
  {
    SplitAxisSize(pre, B, heads, [gh, gw, gs, gs, hd]);
    SplitAxisSize(pre, B * heads, gh, [gw, gs, gs, hd]);
    SplitAxisSize(pre, B * heads * gh, gw, [gs, gs, hd]);
    SplitAxisSize(pre + [B * heads * gh * gw], gs, gs, [hd]);
    assert pre + [B * heads * gh * gw] + [gs * gs] + [hd] == pre + [B * heads * gh * gw, gs * gs, hd];
    assert pre + [B * heads * gh * gw] + [gs, gs] + [hd] == pre + [B * heads * gh * gw] + [gs, gs, hd];
    assert pre + [B * heads * gh, gw] + [gs, gs, hd] == pre + [B * heads * gh] + [gw, gs, gs, hd];
    assert pre + [B * heads, gh] + [gw, gs, gs, hd] == pre + [B * heads] + [gh, gw, gs, gs, hd];
    assert pre + [B, heads] + [gh, gw, gs, gs, hd] == pre + [B, heads, gh, gw, gs, gs, hd];
  }

  /**
   * (..., heads*hd, H, W) and (..., heads, hd, H*W) address the same offset at
   * channel n*hd+d, row h, column w: the token index is h*W+w.
   */
  lemma HeadTokenOffset(pre: seq<nat>, ipre: seq<nat>, heads: nat, hd: nat, H: nat, W: nat,
                        n: nat, d: nat, h: nat, w: nat)
    requires InBounds(pre, ipre) && n < heads && d < hd && h < H && w < W
    ensures InBounds(pre + [heads * hd, H, W], ipre + [n * hd + d, h, w])
    ensures InBounds(pre + [heads, hd, H * W], ipre + [n, d, h * W + w])
    ensures Flatten(pre + [heads * hd, H, W], ipre + [n * hd + d, h, w])
         == Flatten(pre + [heads, hd, H * W], ipre + [n, d, h * W + w])
  {
    SplitAxis(pre, ipre, heads, hd, n, d, [H, W], [h, w]);
    SplitAxis(pre + [heads, hd], ipre + [n, d], H, W, h, w, [], []);
    assert pre + [heads * hd] + [H, W] == pre + [heads * hd, H, W];
    assert ipre + [n * hd + d] + [h, w] == ipre + [n * hd + d, h, w];
    assert pre + [heads, hd] + [H, W] == pre + [heads, hd] + [H, W] + [];
    assert ipre + [n, d] + [h, w] == ipre + [n, d] + [h, w] + [];
    assert pre + [heads, hd] + [H * W] + [] == pre + [heads, hd, H * W];
    assert ipre + [n, d] + [h * W + w] + [] == ipre + [n, d, h * W + w];
  }

  lemma HeadTokenSize(pre: seq<nat>, heads: nat, hd: nat, H: nat, W: nat)
    ensures Size(pre + [heads * hd, H, W]) == Size(pre + [heads, hd, H * W])
  {
    SplitAxisSize(pre, heads, hd, [H, W]);
    SplitAxisSize(pre + [heads, hd], H, W, []);
    assert pre + [heads * hd] + [H, W] == pre + [heads * hd, H, W];
    assert pre + [heads, hd] + [H, W] == pre + [heads, hd] + [H, W] + [];
    assert pre + [heads, hd] + [H * W] + [] == pre + [heads, hd, H * W];
  }

  lemma PartOffsetSize(B: nat, parts: nat, C: nat, rest: seq<nat>)
    ensures Size([B, parts * C] + rest) == Size([B, parts, C] + rest)
  {
    SplitAxisSize([B], parts, C, rest);
    assert [B] + [parts * C] + rest == [B, parts * C] + rest;
    assert [B] + [parts, C] + rest == [B, parts, C] + rest;
  }

  lemma MulPositive(a: nat, b: nat)
    requires a > 0 && b > 0
    ensures a * b > 0 && 3 * (a * b) > 0 && 2 * (a * b) > 0
  {
    MulMono(1, a, b);
  }

  /** Channel p*C+c of (B, parts*C, ...) is channel c of part p of (B, parts, C, ...). */
  lemma PartOffset(B: nat, parts: nat, C: nat, rest: seq<nat>, b: nat, p: nat, c: nat, irest: seq<nat>)
    requires b < B && p < parts && c < C && InBounds(rest, irest)
    ensures InBounds([B, parts * C] + rest, [b, p * C + c] + irest)
    ensures InBounds([B, parts, C] + rest, [b, p, c] + irest)
    ensures Flatten([B, parts * C] + rest, [b, p * C + c] + irest) == Flatten([B, parts, C] + rest, [b, p, c] + irest)
    ensures Size([B, parts * C] + rest) == Size([B, parts, C] + rest)
  {
    SplitAxis([B], [b], parts, C, p, c, rest, irest);
    SplitAxisSize([B], parts, C, rest);
    assert [B] + [parts * C] + rest == [B, parts * C] + rest;
    assert [b] + [p * C + c] + irest == [b, p * C + c] + irest;
    assert [B] + [parts, C] + rest == [B, parts, C] + rest;
    assert [b] + [p, c] + irest == [b, p, c] + irest;
  }

  // ---------------------------------------------------------------------------
  // Grid branch (TransCNN.py:72-83)

  /** The axis order of line 75: (B, 3, heads, hd, gh, gs, gw, gs) becomes (3, B, heads, gh, gw, gs, gs, hd). */
  const SplitOrder: seq<nat> := [1, 0, 2, 4, 6, 5, 7, 3]

  /** The axis order of line 83: (B, heads, gh, gw, gs, gs, hd) becomes (B, heads, hd, gh, gs, gw, gs). */
  const MergeOrder: seq<nat> := [0, 1, 6, 2, 4, 3, 5]

  /**
   * Lines 72-76: the (B, 3C, H, W) qkv map cut into gs-by-gs windows, giving a
   * (3, B*heads*gh*gw, gs*gs, hd) tensor: one row group per (batch, head,
   * window), gs*gs tokens per group.
   */
  function WindowSplit<T>(qkv: Tensor<T>, heads: nat, hd: nat, gs: nat): Option<Tensor<T>>
    requires |qkv.shape| == 4 && gs > 1
  {
    var B, H, W := qkv.shape[0], qkv.shape[2], qkv.shape[3];
    var gh, gw := H / gs, W / gs;
    var t :- Reshape(qkv, [B, 3, heads, hd, gh, gs, gw, gs]);
    var t :- Permute(t, SplitOrder);
    Reshape(t, Inferred([3], [gs * gs, hd]))
  }

  /**
   * Lines 81-83: the windowed attention output (B*heads*gh*gw, gs*gs, hd)
   * glued back into a (B, C, H, W) map.
   */
  function WindowMerge<T>(o: Tensor<T>, B: nat, C: nat, H: nat, W: nat, heads: nat, hd: nat, gs: nat): Option<Tensor<T>>
    requires gs > 1
  {
    var gh, gw := H / gs, W / gs;
    var t :- Reshape(o, [B, heads, gh, gw, gs, gs, hd]);
    var t :- Permute(t, MergeOrder);
    Reshape(t, [B, C, H, W])
  }

  lemma SplitOrderIsPermutation()
    ensures IsPermutation(SplitOrder, 8) && IsPermutation(MergeOrder, 7)
  {
  }

  lemma WindowSplitSizes(B: nat, heads: nat, hd: nat, gh: nat, gs: nat, gw: nat)
    requires gs > 0 && hd > 0
    ensures Size([B, 3, heads, hd, gh, gs, gw, gs]) == Size([B, 3 * (heads * hd), gh * gs, gw * gs])
    ensures Size([3, B, heads, gh, gw, gs, gs, hd]) == Size([3, B * heads * gh * gw, gs * gs, hd])
    ensures var known := 3 * ((gs * gs) * hd);
      known > 0 && Size([3, B, heads, gh, gw, gs, gs, hd]) % known == 0
      && Size([3, B, heads, gh, gw, gs, gs, hd]) / known == B * heads * gh * gw
  {
    QkvWindowSize(B, heads, hd, gh, gs, gw);
    GroupTokenSize([3], B, heads, gh, gw, gs, hd);
    assert [3] + [B, heads, gh, gw, gs, gs, hd] == [3, B, heads, gh, gw, gs, gs, hd];
    assert [3] + [B * heads * gh * gw, gs * gs, hd] == [3, B * heads * gh * gw, gs * gs, hd];
    MulPositive(gs * gs, hd);
    LeadingInferred(3, B * heads * gh * gw, gs * gs, hd);
  }

  lemma QkvWindowSize(B: nat, heads: nat, hd: nat, gh: nat, gs: nat, gw: nat)
    ensures Size([B, 3, heads, hd, gh, gs, gw, gs]) == Size([B, 3 * (heads * hd), gh * gs, gw * gs])
  {
    PartOffsetSize(B, 3, heads * hd, [gh * gs, gw * gs]);
    HeadWindowSize([B, 3], heads, hd, gh, gs, gw);
    assert [B, 3] + [heads * hd, gh * gs, gw * gs] == [B, 3, heads * hd] + [gh * gs, gw * gs];
    assert [B, 3] + [heads, hd, gh, gs, gw, gs] == [B, 3, heads, hd, gh, gs, gw, gs];
    assert [B, 3 * (heads * hd)] + [gh * gs, gw * gs] == [B, 3 * (heads * hd), gh * gs, gw * gs];
  }

  /** The -1 of (p, -1, T, hd) on a (p, G, T, hd)-sized buffer is G. */
  lemma LeadingInferred(p: nat, G: nat, T: nat, hd: nat)
    requires p * (T * hd) > 0
    ensures Size([p, G, T, hd]) % (p * (T * hd)) == 0 && Size([p, G, T, hd]) / (p * (T * hd)) == G
  {
    assert [p, G, T, hd] == [p] + [G] + [T, hd];
    SizeAround([p], G, [T, hd]);
    assert Size([p]) == p;
    assert [T, hd][..1] == [T];
    assert Size([T, hd]) == T * hd;
    var known := p * (T * hd);
    assert Size([p, G, T, hd]) == known * G;
    DivModOf(G, known, 0);
  }

  lemma SplitOrderShape(B: nat, heads: nat, hd: nat, gh: nat, gs: nat, gw: nat)
    ensures Gather([B, 3, heads, hd, gh, gs, gw, gs], SplitOrder) == [3, B, heads, gh, gw, gs, gs, hd]
  {
  }

  /** The tensor the split chain of lines 73-76 produces: the qkv buffer, permuted, viewed as groups. */
  function SplitGroups<T>(qkv: Tensor<T>, heads: nat, hd: nat, gs: nat, B: nat, gh: nat, gw: nat): (S: Tensor<T>)
    requires qkv.shape == [B, 3 * (heads * hd), gh * gs, gw * gs]
    ensures S.shape == [3, B * heads * gh * gw, gs * gs, hd]
  {
    QkvWindowSize(B, heads, hd, gh, gs, gw);
    SplitOrderIsPermutation();
    SplitOrderShape(B, heads, hd, gh, gs, gw);
    GroupTokenSize([3], B, heads, gh, gw, gs, hd);
    assert [3] + [B, heads, gh, gw, gs, gs, hd] == [3, B, heads, gh, gw, gs, gs, hd];
    assert [3] + [B * heads * gh * gw, gs * gs, hd] == [3, B * heads * gh * gw, gs * gs, hd];
    Tensor([3, B * heads * gh * gw, gs * gs, hd],
           PermuteBy(Tensor([B, 3, heads, hd, gh, gs, gw, gs], qkv.data), SplitOrder).data)
  }

  /** The reshape at line 76 on the permuted (3, B, heads, gh, gw, gs, gs, hd) tensor. */
  lemma GroupReshape<T>(t2: Tensor<T>, B: nat, heads: nat, hd: nat, gh: nat, gs: nat, gw: nat)
    requires hd > 0 && gs > 0 && t2.shape == [3, B, heads, gh, gw, gs, gs, hd]
    ensures Size([3, B * heads * gh * gw, gs * gs, hd]) == |t2.data|
    ensures Reshape(t2, Inferred([3], [gs * gs, hd])) == Some(Tensor([3, B * heads * gh * gw, gs * gs, hd], t2.data))
  {
    WindowSplitSizes(B, heads, hd, gh, gs, gw);
    ReshapeInferred(t2, [3], [gs * gs, hd]);
    assert Size([3]) == 3;
    assert [gs * gs, hd][..1] == [gs * gs];
    assert Size([gs * gs, hd]) == (gs * gs) * hd;
    assert [3] + [B * heads * gh * gw] + [gs * gs, hd] == [3, B * heads * gh * gw, gs * gs, hd];
  }

  /** On a (B, 3*heads*hd, gh*gs, gw*gs) input the split chain succeeds, with value SplitGroups. */
  lemma WindowSplitValue<T>(qkv: Tensor<T>, heads: nat, hd: nat, gs: nat, B: nat, gh: nat, gw: nat)
    requires gs > 1 && hd > 0 && qkv.shape == [B, 3 * (heads * hd), gh * gs, gw * gs]
    ensures WindowSplit(qkv, heads, hd, gs) == Some(SplitGroups(qkv, heads, hd, gs, B, gh, gw))
  {
    var s8 := [B, 3, heads, hd, gh, gs, gw, gs];
    ExactDiv(gh, gs);
    ExactDiv(gw, gs);
    QkvWindowSize(B, heads, hd, gh, gs, gw);
    ReshapeFixed(qkv, s8);
    var t1: Tensor<T> := Tensor(s8, qkv.data);
    SplitOrderIsPermutation();
    PermuteNat(t1, SplitOrder);
    SplitOrderShape(B, heads, hd, gh, gs, gw);
    GroupReshape(PermuteBy(t1, SplitOrder), B, heads, hd, gh, gs, gw);
  }

  /** Flat offsets on both sides of the reshape at line 73. */
  lemma QkvWindowOffset(B: nat, heads: nat, hd: nat, gh: nat, gs: nat, gw: nat,
                        part: nat, b: nat, n: nat, d: nat, i: nat, y: nat, j: nat, x: nat)
    requires part < 3 && b < B && n < heads && d < hd && i < gh && y < gs && j < gw && x < gs
    ensures InBounds([B, 3 * (heads * hd), gh * gs, gw * gs], [b, part * (heads * hd) + (n * hd + d), i * gs + y, j * gs + x])
    ensures InBounds([B, 3, heads, hd, gh, gs, gw, gs], [b, part, n, d, i, y, j, x])
    ensures Flatten([B, 3 * (heads * hd), gh * gs, gw * gs], [b, part * (heads * hd) + (n * hd + d), i * gs + y, j * gs + x])
         == Flatten([B, 3, heads, hd, gh, gs, gw, gs], [b, part, n, d, i, y, j, x])
  {
    var C := heads * hd;
    MulAddBound(n, heads, hd, d);
    MulAddBound(i, gh, gs, y);
    MulAddBound(j, gw, gs, x);
    PartOffset(B, 3, C, [gh * gs, gw * gs], b, part, n * hd + d, [i * gs + y, j * gs + x]);
    HeadWindowOffset([B, 3], [b, part], heads, hd, gh, gs, gw, n, d, i, y, j, x);
    assert [B, 3] + [heads * hd, gh * gs, gw * gs] == [B, 3, C] + [gh * gs, gw * gs];
    assert [b, part] + [n * hd + d, i * gs + y, j * gs + x] == [b, part, n * hd + d] + [i * gs + y, j * gs + x];
    assert [B, 3] + [heads, hd, gh, gs, gw, gs] == [B, 3, heads, hd, gh, gs, gw, gs];
    assert [b, part] + [n, d, i, y, j, x] == [b, part, n, d, i, y, j, x];
    assert [B, 3 * C] + [gh * gs, gw * gs] == [B, 3 * C, gh * gs, gw * gs];
    assert [b, part * C + (n * hd + d)] + [i * gs + y, j * gs + x] == [b, part * C + (n * hd + d), i * gs + y, j * gs + x];
  }

  /** The permutation at line 75 moves element [b, part, n, d, i, y, j, x] to [part, b, n, i, j, y, x, d]. */
  lemma SplitPermuteAt<T>(t1: Tensor<T>, B: nat, heads: nat, hd: nat, gh: nat, gs: nat, gw: nat,
                          part: nat, b: nat, n: nat, d: nat, i: nat, y: nat, j: nat, x: nat)
    requires t1.shape == [B, 3, heads, hd, gh, gs, gw, gs]
    requires part < 3 && b < B && n < heads && d < hd && i < gh && y < gs && j < gw && x < gs
    ensures IsPermutation(SplitOrder, |t1.shape|)
    ensures InBounds(PermuteBy(t1, SplitOrder).shape, [part, b, n, i, j, y, x, d])
    ensures At(PermuteBy(t1, SplitOrder), [part, b, n, i, j, y, x, d]) == At(t1, [b, part, n, d, i, y, j, x])
  {
    SplitOrderShape(B, heads, hd, gh, gs, gw);
    var idx := [b, part, n, d, i, y, j, x];
    assert Gather(idx, SplitOrder) == [part, b, n, i, j, y, x, d];
    ScatterGather(t1.shape, SplitOrder, idx);
    PermuteAt(t1, SplitOrder, [part, b, n, i, j, y, x, d]);
  }

  /** Merging the leading batch, head and window axes and the two in-window axes (line 76), element by element. */
  lemma GroupReshapeAt<T>(t2: Tensor<T>, B: nat, heads: nat, gh: nat, gw: nat, gs: nat, hd: nat,
                          part: nat, b: nat, n: nat, i: nat, j: nat, y: nat, x: nat, d: nat)
    requires t2.shape == [3, B, heads, gh, gw, gs, gs, hd]
    requires part < 3 && b < B && n < heads && d < hd && i < gh && y < gs && j < gw && x < gs
    ensures Size([3, B * heads * gh * gw, gs * gs, hd]) == |t2.data|
    ensures InBounds([3, B * heads * gh * gw, gs * gs, hd], [part, GroupIndex(heads, gh, gw, b, n, i, j), TokenIndex(gs, y, x), d])
    ensures InBounds(t2.shape, [part, b, n, i, j, y, x, d])
    ensures At(Tensor([3, B * heads * gh * gw, gs * gs, hd], t2.data), [part, GroupIndex(heads, gh, gw, b, n, i, j), TokenIndex(gs, y, x), d])
         == At(t2, [part, b, n, i, j, y, x, d])
  {
    var g, t := GroupIndex(heads, gh, gw, b, n, i, j), TokenIndex(gs, y, x);
    GroupTokenOffset([3], [part], B, heads, gh, gw, gs, hd, b, n, i, j, y, x, d);
    GroupTokenSize([3], B, heads, gh, gw, gs, hd);
    assert [3] + [B * heads * gh * gw, gs * gs, hd] == [3, B * heads * gh * gw, gs * gs, hd];
    assert [part] + [g, t, d] == [part, g, t, d];
    assert [3] + [B, heads, gh, gw, gs, gs, hd] == t2.shape;
    assert [part] + [b, n, i, j, y, x, d] == [part, b, n, i, j, y, x, d];
  }

  /** Viewing the qkv buffer under the split layout of line 73, element by element. */
  lemma QkvViewAt<T>(qkv: Tensor<T>, heads: nat, hd: nat, gs: nat, B: nat, gh: nat, gw: nat,
                     part: nat, b: nat, n: nat, d: nat, i: nat, y: nat, j: nat, x: nat)
    requires qkv.shape == [B, 3 * (heads * hd), gh * gs, gw * gs]
    requires part < 3 && b < B && n < heads && d < hd && i < gh && y < gs && j < gw && x < gs
    ensures Size([B, 3, heads, hd, gh, gs, gw, gs]) == |qkv.data|
    ensures InBounds([B, 3, heads, hd, gh, gs, gw, gs], [b, part, n, d, i, y, j, x])
    ensures InBounds(qkv.shape, [b, part * (heads * hd) + (n * hd + d), i * gs + y, j * gs + x])
    ensures At(Tensor([B, 3, heads, hd, gh, gs, gw, gs], qkv.data), [b, part, n, d, i, y, j, x])
         == At(qkv, [b, part * (heads * hd) + (n * hd + d), i * gs + y, j * gs + x])
  {
    QkvWindowSize(B, heads, hd, gh, gs, gw);
    QkvWindowOffset(B, heads, hd, gh, gs, gw, part, b, n, d, i, y, j, x);
  }

  /** SplitGroups, element by element. */
  lemma GroupedAt<T>(qkv: Tensor<T>, heads: nat, hd: nat, gs: nat, B: nat, gh: nat, gw: nat,
                     part: nat, b: nat, n: nat, d: nat, i: nat, y: nat, j: nat, x: nat, c: nat, row: nat, col: nat)
    requires qkv.shape == [B, 3 * (heads * hd), gh * gs, gw * gs]
    requires part < 3 && b < B && n < heads && d < hd && i < gh && y < gs && j < gw && x < gs
    requires c == part * (heads * hd) + (n * hd + d) && row == i * gs + y && col == j * gs + x
    ensures InBounds([3, B * heads * gh * gw, gs * gs, hd], [part, GroupIndex(heads, gh, gw, b, n, i, j), TokenIndex(gs, y, x), d])
    ensures InBounds(qkv.shape, [b, c, row, col])
    ensures At(SplitGroups(qkv, heads, hd, gs, B, gh, gw), [part, GroupIndex(heads, gh, gw, b, n, i, j), TokenIndex(gs, y, x), d])
         == At(qkv, [b, c, row, col])
  {
    QkvViewAt(qkv, heads, hd, gs, B, gh, gw, part, b, n, d, i, y, j, x);
    SplitOrderIsPermutation();
    var t1: Tensor<T> := Tensor([B, 3, heads, hd, gh, gs, gw, gs], qkv.data);
    SplitPermuteAt(t1, B, heads, hd, gh, gs, gw, part, b, n, d, i, y, j, x);
    SplitOrderShape(B, heads, hd, gh, gs, gw);
    GroupReshapeAt(PermuteBy(t1, SplitOrder), B, heads, gh, gw, gs, hd, part, b, n, i, j, y, x, d);
  }

  /**
   * Where the window split of lines 72-76 puts each element: channel
   * part*C + n*hd + d at row i*gs+y, column j*gs+x of batch b lands in group
   * GroupIndex(b, n, i, j) (one group per batch, head and window) at token
   * TokenIndex(y, x) (row-major inside the window), feature d.
   */
  lemma WindowSplitAt<T>(qkv: Tensor<T>, heads: nat, hd: nat, gs: nat, B: nat, gh: nat, gw: nat,
                         part: nat, b: nat, n: nat, d: nat, i: nat, y: nat, j: nat, x: nat, c: nat, row: nat, col: nat)
    requires gs > 1 && qkv.shape == [B, 3 * (heads * hd), gh * gs, gw * gs]
    requires part < 3 && b < B && n < heads && d < hd && i < gh && y < gs && j < gw && x < gs
    requires c == part * (heads * hd) + (n * hd + d) && row == i * gs + y && col == j * gs + x
    ensures WindowSplit(qkv, heads, hd, gs).Some?
    ensures WindowSplit(qkv, heads, hd, gs).value.shape == [3, B * heads * gh * gw, gs * gs, hd]
    ensures InBounds([3, B * heads * gh * gw, gs * gs, hd], [part, GroupIndex(heads, gh, gw, b, n, i, j), TokenIndex(gs, y, x), d])
    ensures InBounds(qkv.shape, [b, c, row, col])
    ensures At(WindowSplit(qkv, heads, hd, gs).value, [part, GroupIndex(heads, gh, gw, b, n, i, j), TokenIndex(gs, y, x), d])
         == At(qkv, [b, c, row, col])
  {
    WindowSplitValue(qkv, heads, hd, gs, B, gh, gw);
    GroupedAt(qkv, heads, hd, gs, B, gh, gw, part, b, n, d, i, y, j, x, c, row, col);
  }

  lemma FloorMultiple(H: nat, gs: nat)
    requires gs > 0
    ensures (H / gs) * gs <= H
    ensures (H / gs) * gs == H <==> H % gs == 0
  {
    assert H == (H / gs) * gs + H % gs;
  }

  /** When gs does not divide both sides, the reshape at line 73 finds too few positions. */
  lemma WindowSplitRagged<T>(qkv: Tensor<T>, heads: nat, hd: nat, gs: nat)
    requires gs > 1 && |qkv.shape| == 4 && qkv.shape[1] == 3 * (heads * hd)
    requires qkv.shape[0] > 0 && heads > 0 && hd > 0 && qkv.shape[2] > 0 && qkv.shape[3] > 0
    requires qkv.shape[2] % gs != 0 || qkv.shape[3] % gs != 0
    ensures WindowSplit(qkv, heads, hd, gs) == None
  {
    var B, H, W := qkv.shape[0], qkv.shape[2], qkv.shape[3];
    var gh, gw := H / gs, W / gs;
    var s8 := [B, 3, heads, hd, gh, gs, gw, gs];
    var P := B * (3 * (heads * hd));
    FloorMultiple(H, gs);
    FloorMultiple(W, gs);
    MulPositive(heads, hd);
    MulPositive(B, 3 * (heads * hd));
    StrictProduct(P, gh * gs, gw * gs, H, W);
    QkvWindowSize(B, heads, hd, gh, gs, gw);
    Size4(B, 3 * (heads * hd), gh * gs, gw * gs);
    Size4(B, 3 * (heads * hd), H, W);
    assert qkv.shape == [B, 3 * (heads * hd), H, W];
    assert Size(s8) < Size(qkv.shape);
    ReshapeFixed(qkv, s8);
  }

  /**
   * The grid split succeeds exactly when the window size divides both spatial
   * sides (for a non-empty input): otherwise the reshape at line 73 cannot
   * hold all H*W positions.
   */
  lemma WindowSplitSucceeds<T>(qkv: Tensor<T>, heads: nat, hd: nat, gs: nat)
    requires gs > 1 && |qkv.shape| == 4 && qkv.shape[1] == 3 * (heads * hd)
    requires qkv.shape[0] > 0 && heads > 0 && hd > 0 && qkv.shape[2] > 0 && qkv.shape[3] > 0
    ensures WindowSplit(qkv, heads, hd, gs).Some? <==> qkv.shape[2] % gs == 0 && qkv.shape[3] % gs == 0
  {
    var B, H, W := qkv.shape[0], qkv.shape[2], qkv.shape[3];
    if H % gs == 0 && W % gs == 0 {
      FloorMultiple(H, gs);
      FloorMultiple(W, gs);
      assert qkv.shape == [B, 3 * (heads * hd), (H / gs) * gs, (W / gs) * gs];
      WindowSplitValue(qkv, heads, hd, gs, B, H / gs, W / gs);
    } else {
      WindowSplitRagged(qkv, heads, hd, gs);
    }
  }

  // ---------------------------------------------------------------------------
  // Which tokens share an attention group (TransCNN.py:75-80)

  /** Distinct (batch, head, window) triples get distinct groups. */
  lemma GroupIndexUnique(heads: nat, gh: nat, gw: nat, b: nat, n: nat, i: nat, j: nat,
                         b': nat, n': nat, i': nat, j': nat)
    requires n < heads && i < gh && j < gw && n' < heads && i' < gh && j' < gw
    ensures GroupIndex(heads, gh, gw, b, n, i, j) == GroupIndex(heads, gh, gw, b', n', i', j')
        <==> b == b' && n == n' && i == i' && j == j'
  {
    DigitsUnique(b, n, b', n', heads);
    DigitsUnique(b * heads + n, i, b' * heads + n', i', gh);
    DigitsUnique((b * heads + n) * gh + i, j, (b' * heads + n') * gh + i', j', gw);
  }

  /** Inside a window, the gs*gs tokens are numbered row-major without collisions. */
  lemma TokenIndexUnique(gs: nat, y: nat, x: nat, y': nat, x': nat)
    requires y < gs && x < gs && y' < gs && x' < gs
    ensures TokenIndex(gs, y, x) < gs * gs
    ensures TokenIndex(gs, y, x) == TokenIndex(gs, y', x') <==> y == y' && x == x'
  {
    MulAddBound(y, gs, gs, x);
    DigitsUnique(y, x, y', x', gs);
  }

  /**
   * Two positions (b, head n, h, w) and (b', head n', h', w') are put in the
   * same attention group exactly when they share batch, head and gs-by-gs
   * window; attention inside a group therefore never crosses windows.
   */
  lemma {:induction false} SameGroupIffSameWindow(heads: nat, gh: nat, gw: nat, gs: nat,
                               b: nat, n: nat, h: nat, w: nat, b': nat, n': nat, h': nat, w': nat)
    requires gs > 0 && n < heads && n' < heads && h < gh * gs && h' < gh * gs && w < gw * gs && w' < gw * gs
    ensures GroupIndex(heads, gh, gw, b, n, h / gs, w / gs) == GroupIndex(heads, gh, gw, b', n', h' / gs, w' / gs)
        <==> b == b' && n == n' && h / gs == h' / gs && w / gs == w' / gs
  {
    var i, y := Digits(h, gs, gh);
    var j, x := Digits(w, gs, gw);
    var i', y' := Digits(h', gs, gh);
    var j', x' := Digits(w', gs, gw);
    DivModOf(i, gs, y);
    DivModOf(j, gs, x);
    DivModOf(i', gs, y');
    DivModOf(j', gs, x');
    GroupIndexUnique(heads, gh, gw, b, n, i, j, b', n', i', j');
  }

  // ---------------------------------------------------------------------------
  // Undoing the grid split (TransCNN.py:81-83)

  lemma MergeOrderShape(B: nat, heads: nat, hd: nat, gh: nat, gs: nat, gw: nat)
    ensures Gather([B, heads, gh, gw, gs, gs, hd], MergeOrder) == [B, heads, hd, gh, gs, gw, gs]
  {
  }

  lemma ExactDiv(q: nat, n: nat)
    requires n > 0
    ensures (q * n) / n == q
  {
    DivModOf(q, n, 0);
  }

  lemma WindowMergeSizes(B: nat, heads: nat, hd: nat, gs: nat, gh: nat, gw: nat)
    ensures Size([B * heads * gh * gw, gs * gs, hd]) == Size([B, heads, gh, gw, gs, gs, hd])
    ensures Size([B, heads, hd, gh, gs, gw, gs]) == Size([B, heads * hd, gh * gs, gw * gs])
  {
    GroupTokenSize([], B, heads, gh, gw, gs, hd);
    assert [] + [B * heads * gh * gw, gs * gs, hd] == [B * heads * gh * gw, gs * gs, hd];
    assert [] + [B, heads, gh, gw, gs, gs, hd] == [B, heads, gh, gw, gs, gs, hd];
    HeadWindowSize([B], heads, hd, gh, gs, gw);
    assert [B] + [heads * hd, gh * gs, gw * gs] == [B, heads * hd, gh * gs, gw * gs];
    assert [B] + [heads, hd, gh, gs, gw, gs] == [B, heads, hd, gh, gs, gw, gs];
  }

  /** The tensor the merge chain of lines 81-83 produces: the groups, permuted back, viewed as (B, C, H, W). */
  function MergeGroups<T>(o: Tensor<T>, B: nat, heads: nat, hd: nat, gs: nat, gh: nat, gw: nat): (M: Tensor<T>)
    requires o.shape == [B * heads * gh * gw, gs * gs, hd]
    ensures M.shape == [B, heads * hd, gh * gs, gw * gs]
  {
    WindowMergeSizes(B, heads, hd, gs, gh, gw);
    SplitOrderIsPermutation();
    MergeOrderShape(B, heads, hd, gh, gs, gw);
    Tensor([B, heads * hd, gh * gs, gw * gs],
           PermuteBy(Tensor([B, heads, gh, gw, gs, gs, hd], o.data), MergeOrder).data)
  }

  /** On a (B*heads*gh*gw, gs*gs, hd) input the merge chain succeeds, with value MergeGroups. */
  lemma WindowMergeValue<T>(o: Tensor<T>, B: nat, heads: nat, hd: nat, gs: nat, gh: nat, gw: nat)
    requires gs > 1 && o.shape == [B * heads * gh * gw, gs * gs, hd]
    ensures WindowMerge(o, B, heads * hd, gh * gs, gw * gs, heads, hd, gs) == Some(MergeGroups(o, B, heads, hd, gs, gh, gw))
  {
    var s7 := [B, heads, gh, gw, gs, gs, hd];
    ExactDiv(gh, gs);
    ExactDiv(gw, gs);
    WindowMergeSizes(B, heads, hd, gs, gh, gw);
    ReshapeFixed(o, s7);
    var t1: Tensor<T> := Tensor(s7, o.data);
    SplitOrderIsPermutation();
    PermuteNat(t1, MergeOrder);
    var t2 := PermuteBy(t1, MergeOrder);
    MergeOrderShape(B, heads, hd, gh, gs, gw);
    ReshapeFixed(t2, [B, heads * hd, gh * gs, gw * gs]);
    assert Reshape(o, s7) == Some(t1);
    assert Permute(t1, MergeOrder) == Some(t2);
  }

  /** The permutation at line 83 moves element [b, n, i, j, y, x, d] to [b, n, d, i, y, j, x]. */
  lemma MergePermuteAt<T>(t1: Tensor<T>, B: nat, heads: nat, hd: nat, gh: nat, gs: nat, gw: nat,
                          b: nat, n: nat, d: nat, i: nat, y: nat, j: nat, x: nat)
    requires t1.shape == [B, heads, gh, gw, gs, gs, hd]
    requires b < B && n < heads && d < hd && i < gh && y < gs && j < gw && x < gs
    ensures IsPermutation(MergeOrder, |t1.shape|)
    ensures InBounds(PermuteBy(t1, MergeOrder).shape, [b, n, d, i, y, j, x])
    ensures At(PermuteBy(t1, MergeOrder), [b, n, d, i, y, j, x]) == At(t1, [b, n, i, j, y, x, d])
  {
    SplitOrderIsPermutation();
    MergeOrderShape(B, heads, hd, gh, gs, gw);
    var idx := [b, n, i, j, y, x, d];
    assert Gather(idx, MergeOrder) == [b, n, d, i, y, j, x];
    ScatterGather(t1.shape, MergeOrder, idx);
    PermuteAt(t1, MergeOrder, [b, n, d, i, y, j, x]);
  }

  /** Viewing the attention output under the layout of line 81, element by element. */
  lemma GroupViewAt<T>(o: Tensor<T>, B: nat, heads: nat, hd: nat, gs: nat, gh: nat, gw: nat,
                       b: nat, n: nat, d: nat, i: nat, y: nat, j: nat, x: nat)
    requires o.shape == [B * heads * gh * gw, gs * gs, hd]
    requires b < B && n < heads && d < hd && i < gh && y < gs && j < gw && x < gs
    ensures Size([B, heads, gh, gw, gs, gs, hd]) == |o.data|
    ensures InBounds([B, heads, gh, gw, gs, gs, hd], [b, n, i, j, y, x, d])
    ensures InBounds(o.shape, [GroupIndex(heads, gh, gw, b, n, i, j), TokenIndex(gs, y, x), d])
    ensures At(Tensor([B, heads, gh, gw, gs, gs, hd], o.data), [b, n, i, j, y, x, d])
         == At(o, [GroupIndex(heads, gh, gw, b, n, i, j), TokenIndex(gs, y, x), d])
  {
    GroupTokenSize([], B, heads, gh, gw, gs, hd);
    GroupTokenOffset([], [], B, heads, gh, gw, gs, hd, b, n, i, j, y, x, d);
    var g, t := GroupIndex(heads, gh, gw, b, n, i, j), TokenIndex(gs, y, x);
    assert [] + [B * heads * gh * gw, gs * gs, hd] == o.shape;
    assert [] + [g, t, d] == [g, t, d];
    assert [] + [B, heads, gh, gw, gs, gs, hd] == [B, heads, gh, gw, gs, gs, hd];
    assert [] + [b, n, i, j, y, x, d] == [b, n, i, j, y, x, d];
  }

  /** Viewing the permuted buffer as (B, C, H, W) (line 83), element by element. */
  lemma MergeViewAt<T>(t2: Tensor<T>, B: nat, heads: nat, hd: nat, gs: nat, gh: nat, gw: nat,
                       b: nat, n: nat, d: nat, i: nat, y: nat, j: nat, x: nat)
    requires t2.shape == [B, heads, hd, gh, gs, gw, gs]
    requires b < B && n < heads && d < hd && i < gh && y < gs && j < gw && x < gs
    ensures Size([B, heads * hd, gh * gs, gw * gs]) == |t2.data|
    ensures InBounds([B, heads * hd, gh * gs, gw * gs], [b, n * hd + d, i * gs + y, j * gs + x])
    ensures InBounds(t2.shape, [b, n, d, i, y, j, x])
    ensures At(Tensor([B, heads * hd, gh * gs, gw * gs], t2.data), [b, n * hd + d, i * gs + y, j * gs + x])
         == At(t2, [b, n, d, i, y, j, x])
  {
    HeadWindowSize([B], heads, hd, gh, gs, gw);
    HeadWindowOffset([B], [b], heads, hd, gh, gs, gw, n, d, i, y, j, x);
    assert [B] + [heads * hd, gh * gs, gw * gs] == [B, heads * hd, gh * gs, gw * gs];
    assert [b] + [n * hd + d, i * gs + y, j * gs + x] == [b, n * hd + d, i * gs + y, j * gs + x];
    assert [B] + [heads, hd, gh, gs, gw, gs] == t2.shape;
    assert [b] + [n, d, i, y, j, x] == [b, n, d, i, y, j, x];
  }

  /** MergeGroups, element by element. */
  lemma MergedAt<T>(o: Tensor<T>, B: nat, heads: nat, hd: nat, gs: nat, gh: nat, gw: nat,
                    b: nat, n: nat, d: nat, i: nat, y: nat, j: nat, x: nat)
    requires o.shape == [B * heads * gh * gw, gs * gs, hd]
    requires b < B && n < heads && d < hd && i < gh && y < gs && j < gw && x < gs
    ensures InBounds([B, heads * hd, gh * gs, gw * gs], [b, n * hd + d, i * gs + y, j * gs + x])
    ensures InBounds(o.shape, [GroupIndex(heads, gh, gw, b, n, i, j), TokenIndex(gs, y, x), d])
    ensures At(MergeGroups(o, B, heads, hd, gs, gh, gw), [b, n * hd + d, i * gs + y, j * gs + x])
         == At(o, [GroupIndex(heads, gh, gw, b, n, i, j), TokenIndex(gs, y, x), d])
  {
    GroupViewAt(o, B, heads, hd, gs, gh, gw, b, n, d, i, y, j, x);
    var t1: Tensor<T> := Tensor([B, heads, gh, gw, gs, gs, hd], o.data);
    GroupViewAt(o, B, heads, hd, gs, gh, gw, b, n, d, i, y, j, x);
    MergePermuteAt(t1, B, heads, hd, gh, gs, gw, b, n, d, i, y, j, x);
    MergeOrderShape(B, heads, hd, gh, gs, gw);
    MergeViewAt(PermuteBy(t1, MergeOrder), B, heads, hd, gs, gh, gw, b, n, d, i, y, j, x);
  }

  /**
   * Where the merge of lines 81-83 takes each output element from: channel
   * n*hd+d at row i*gs+y, column j*gs+x of batch b is feature d of token
   * TokenIndex(y, x) of group GroupIndex(b, n, i, j).
   */
  lemma WindowMergeAt<T>(o: Tensor<T>, B: nat, heads: nat, hd: nat, gs: nat, gh: nat, gw: nat,
                         b: nat, n: nat, d: nat, i: nat, y: nat, j: nat, x: nat)
    requires gs > 1 && o.shape == [B * heads * gh * gw, gs * gs, hd]
    requires b < B && n < heads && d < hd && i < gh && y < gs && j < gw && x < gs
    ensures WindowMerge(o, B, heads * hd, gh * gs, gw * gs, heads, hd, gs).Some?
    ensures WindowMerge(o, B, heads * hd, gh * gs, gw * gs, heads, hd, gs).value.shape == [B, heads * hd, gh * gs, gw * gs]
    ensures InBounds([B, heads * hd, gh * gs, gw * gs], [b, n * hd + d, i * gs + y, j * gs + x])
    ensures InBounds(o.shape, [GroupIndex(heads, gh, gw, b, n, i, j), TokenIndex(gs, y, x), d])
    ensures At(WindowMerge(o, B, heads * hd, gh * gs, gw * gs, heads, hd, gs).value, [b, n * hd + d, i * gs + y, j * gs + x])
         == At(o, [GroupIndex(heads, gh, gw, b, n, i, j), TokenIndex(gs, y, x), d])
  {
    WindowMergeValue(o, B, heads, hd, gs, gh, gw);
    MergedAt(o, B, heads, hd, gs, gh, gw, b, n, d, i, y, j, x);
  }

  // ---------------------------------------------------------------------------
  // Round trip of the grid branch

  /** A coordinate below gh*gs is digit i < gh of the window and digit y < gs inside it. */
  lemma Digits(h: nat, gs: nat, gh: nat) returns (i: nat, y: nat)
    requires h < gh * gs
    ensures i < gh && y < gs && h == i * gs + y
  {
    DivBound(h, gh, gs);
    i, y := h / gs, h % gs;
  }

  /** The q, k or v part of the closed-form split is a (B*heads*gh*gw, gs*gs, hd) tensor. */
  lemma GroupsPart<T>(qkv: Tensor<T>, heads: nat, hd: nat, gs: nat, B: nat, gh: nat, gw: nat, part: nat)
    requires qkv.shape == [B, 3 * (heads * hd), gh * gs, gw * gs] && part < 3
    ensures Select(SplitGroups(qkv, heads, hd, gs, B, gh, gw), part).Some?
    ensures Select(SplitGroups(qkv, heads, hd, gs, B, gh, gw), part).value.shape == [B * heads * gh * gw, gs * gs, hd]
    ensures part * (heads * hd) + heads * hd <= 3 * (heads * hd)
  {
    MulMono(part + 1, 3, heads * hd);
    assert (part + 1) * (heads * hd) == part * (heads * hd) + heads * hd;
  }

  /** Part `part` of SplitGroups, element by element. */
  lemma {:induction false} SplitPartAt<T>(qkv: Tensor<T>, heads: nat, hd: nat, gs: nat, B: nat, gh: nat, gw: nat, part: nat,
                       b: nat, n: nat, d: nat, i: nat, y: nat, j: nat, x: nat, c: nat, row: nat, col: nat)
    requires qkv.shape == [B, 3 * (heads * hd), gh * gs, gw * gs] && part < 3
    requires b < B && n < heads && d < hd && i < gh && y < gs && j < gw && x < gs
    requires c == part * (heads * hd) + (n * hd + d) && row == i * gs + y && col == j * gs + x
    ensures Select(SplitGroups(qkv, heads, hd, gs, B, gh, gw), part).Some?
    ensures Select(SplitGroups(qkv, heads, hd, gs, B, gh, gw), part).value.shape == [B * heads * gh * gw, gs * gs, hd]
    ensures InBounds([B * heads * gh * gw, gs * gs, hd], [GroupIndex(heads, gh, gw, b, n, i, j), TokenIndex(gs, y, x), d])
    ensures InBounds(qkv.shape, [b, c, row, col])
    ensures At(Select(SplitGroups(qkv, heads, hd, gs, B, gh, gw), part).value,
               [GroupIndex(heads, gh, gw, b, n, i, j), TokenIndex(gs, y, x), d])
         == At(qkv, [b, c, row, col])
  {
    GroupsPart(qkv, heads, hd, gs, B, gh, gw, part);
    var S := SplitGroups(qkv, heads, hd, gs, B, gh, gw);
    var g, t := GroupIndex(heads, gh, gw, b, n, i, j), TokenIndex(gs, y, x);
    GroupedAt(qkv, heads, hd, gs, B, gh, gw, part, b, n, d, i, y, j, x, c, row, col);
    GroupTokenBound(B, heads, gh, gw, gs, hd, b, n, i, j, y, x, d);
    assert S.shape[1..] == [B * heads * gh * gw, gs * gs, hd];
    SelectPartAt(S, qkv, part, g, t, d, [b, c, row, col]);
  }

  /** Selecting part `part` of a 4-axis tensor keeps each of its elements where the rest of the index says. */
  lemma SelectPartAt<T>(S: Tensor<T>, src: Tensor<T>, part: nat, g: nat, t: nat, d: nat, idx: seq<nat>)
    requires |S.shape| == 4 && part < S.shape[0] && InBounds(S.shape[1..], [g, t, d])
    requires InBounds(S.shape, [part, g, t, d]) && InBounds(src.shape, idx)
    requires At(S, [part, g, t, d]) == At(src, idx)
    ensures Select(S, part).Some? && Select(S, part).value.shape == S.shape[1..]
    ensures At(Select(S, part).value, [g, t, d]) == At(src, idx)
  {
    assert [part] + [g, t, d] == [part, g, t, d];
    SelectAt(S, part, [g, t, d]);
  }

  /** One element of the closed-form round trip. */
  lemma GroupsRoundTripAt<T>(qkv: Tensor<T>, heads: nat, hd: nat, gs: nat, B: nat, gh: nat, gw: nat, part: nat,
                             idx: seq<nat>)
    requires qkv.shape == [B, 3 * (heads * hd), gh * gs, gw * gs] && part < 3
    requires InBounds([B, heads * hd, gh * gs, gw * gs], idx)
    ensures Select(SplitGroups(qkv, heads, hd, gs, B, gh, gw), part).Some?
    ensures Select(SplitGroups(qkv, heads, hd, gs, B, gh, gw), part).value.shape == [B * heads * gh * gw, gs * gs, hd]
    ensures part * (heads * hd) + heads * hd <= 3 * (heads * hd)
    ensures At(MergeGroups(Select(SplitGroups(qkv, heads, hd, gs, B, gh, gw), part).value, B, heads, hd, gs, gh, gw), idx)
         == At(ChannelSlice(qkv, part * (heads * hd), heads * hd), idx)
  {
    GroupsPart(qkv, heads, hd, gs, B, gh, gw, part);
    var q := Select(SplitGroups(qkv, heads, hd, gs, B, gh, gw), part).value;
    var n, d := Digits(idx[1], hd, heads);
    var i, y := Digits(idx[2], gs, gh);
    var j, x := Digits(idx[3], gs, gw);
    assert idx == [idx[0], n * hd + d, i * gs + y, j * gs + x];
    SplitPartAt(qkv, heads, hd, gs, B, gh, gw, part, idx[0], n, d, i, y, j, x,
                part * (heads * hd) + (n * hd + d), i * gs + y, j * gs + x);
    MergedAt(q, B, heads, hd, gs, gh, gw, idx[0], n, d, i, y, j, x);
    ChannelSliceAt(qkv, part * (heads * hd), heads * hd, idx);
  }

  /** The closed-form round trip, on whole tensors. */
  lemma GroupsRoundTrip<T>(qkv: Tensor<T>, heads: nat, hd: nat, gs: nat, B: nat, gh: nat, gw: nat, part: nat)
    requires qkv.shape == [B, 3 * (heads * hd), gh * gs, gw * gs] && part < 3
    ensures Select(SplitGroups(qkv, heads, hd, gs, B, gh, gw), part).Some?
    ensures Select(SplitGroups(qkv, heads, hd, gs, B, gh, gw), part).value.shape == [B * heads * gh * gw, gs * gs, hd]
    ensures part * (heads * hd) + heads * hd <= 3 * (heads * hd)
    ensures MergeGroups(Select(SplitGroups(qkv, heads, hd, gs, B, gh, gw), part).value, B, heads, hd, gs, gh, gw)
         == ChannelSlice(qkv, part * (heads * hd), heads * hd)
  {
    GroupsPart(qkv, heads, hd, gs, B, gh, gw, part);
    var q := Select(SplitGroups(qkv, heads, hd, gs, B, gh, gw), part).value;
    var M := MergeGroups(q, B, heads, hd, gs, gh, gw);
    var R := ChannelSlice(qkv, part * (heads * hd), heads * hd);
    forall idx | InBounds(M.shape, idx)
      ensures At(M, idx) == At(R, idx)
    {
      GroupsRoundTripAt(qkv, heads, hd, gs, B, gh, gw, part, idx);
    }
    Extensionality(M, R);
  }

  /**
   * The grid split of lines 72-76 followed by the merge of lines 81-83 is the
   * identity on positions: feeding part `part` (q, k or v) straight through
   * gives back channels part*C .. part*C+C-1 of the qkv map, unchanged.
   */
  lemma WindowRoundTrip<T>(qkv: Tensor<T>, heads: nat, hd: nat, gs: nat, B: nat, gh: nat, gw: nat, part: nat)
    requires gs > 1 && hd > 0 && qkv.shape == [B, 3 * (heads * hd), gh * gs, gw * gs] && part < 3
    ensures WindowSplit(qkv, heads, hd, gs).Some?
    ensures Select(WindowSplit(qkv, heads, hd, gs).value, part).Some?
    ensures part * (heads * hd) + heads * hd <= 3 * (heads * hd)
    ensures WindowMerge(Select(WindowSplit(qkv, heads, hd, gs).value, part).value,
                        B, heads * hd, gh * gs, gw * gs, heads, hd, gs)
         == Some(ChannelSlice(qkv, part * (heads * hd), heads * hd))
  {
    WindowSplitValue(qkv, heads, hd, gs, B, gh, gw);
    GroupsRoundTrip(qkv, heads, hd, gs, B, gh, gw, part);
    WindowMergeValue(Select(SplitGroups(qkv, heads, hd, gs, B, gh, gw), part).value, B, heads, hd, gs, gh, gw);
  }

  // ---------------------------------------------------------------------------
  // Global attention (TransCNN.py:86-99): H*W flattened into a token axis

  /** `transpose(-2, -1)` of a rank-4 tensor swaps its last two axes. */
  const TokenSwap: seq<nat> := [0, 1, 3, 2]

  /** The axis order of lines 90 and 94: (B, parts, heads, hd, N) becomes (parts, B, heads, N, hd). */
  const HeadTokenOrder: seq<nat> := [1, 0, 2, 4, 3]

  /** Line 86-87: the (B, C, H, W) query map as (B, heads, H*W, hd) tokens. */
  function GlobalQuery<T>(x: Tensor<T>, heads: nat, hd: nat): Option<Tensor<T>>
    requires |x.shape| == 4
  {
    var t :- Reshape(x, Inferred([x.shape[0], heads, hd], []));
    Transpose(t, -2, -1)
  }

  /**
   * Lines 89-90 (parts = 2, the pooled key/value map) and 93-94 (parts = 3,
   * the qkv map of plain global mode): a (B, parts*C, H, W) map as
   * (parts, B, heads, H*W, hd) tokens.
   */
  function HeadTokens<T>(x: Tensor<T>, parts: nat, heads: nat, hd: nat): Option<Tensor<T>>
    requires |x.shape| == 4
  {
    var t :- Reshape(x, Inferred([x.shape[0], parts, heads, hd], []));
    Permute(t, HeadTokenOrder)
  }

  /** Line 99: the (B, heads, H*W, hd) attention output back to (B, C, H, W). */
  function GlobalMerge<T>(o: Tensor<T>, B: nat, C: nat, H: nat, W: nat): Option<Tensor<T>>
  {
    var t :- Transpose(o, -2, -1);
    Reshape(t, [B, C, H, W])
  }

  lemma TokenSwapIsSwap()
    ensures Swap(4, 2, 3) == TokenSwap
    ensures IsPermutation(TokenSwap, 4) && IsPermutation(HeadTokenOrder, 5)
  {
  }

  /** The -1 placed last after a positive prefix is the remaining element count. */
  lemma TrailingInferred(pre: seq<nat>, v: nat)
    requires Size(pre) > 0
    ensures Size(pre + [v]) % Size(pre) == 0 && Size(pre + [v]) / Size(pre) == v
  {
    var n := Size(pre);
    assert [v][..0] == [];
    assert Size([v]) == v;
    SizeAppend(pre, [v]);
    assert Size(pre + [v]) == v * n + 0;
    DivModOf(v, n, 0);
  }

  /** Element count of (pre, heads*hd, H, W) read as (pre, heads, hd) blocks of H*W. */
  lemma HeadTokenSplit(pre: seq<nat>, heads: nat, hd: nat, H: nat, W: nat)
    ensures Size(pre + [heads * hd, H, W]) == Size(pre + [heads, hd]) * (H * W)
    ensures Size(pre + [heads * hd, H, W]) == Size(pre + [heads, hd, H * W])
  {
    HeadTokenSize(pre, heads, hd, H, W);
    SizeAppend(pre + [heads, hd], [H * W]);
    assert pre + [heads, hd] + [H * W] == pre + [heads, hd, H * W];
    assert [H * W][..0] == [];
    assert Size([H * W]) == H * W;
  }

  /** The tokens the query chain of lines 86-87 produces. */
  function QueryTokens<T>(x: Tensor<T>, B: nat, heads: nat, hd: nat, H: nat, W: nat): (q: Tensor<T>)
    requires x.shape == [B, heads * hd, H, W]
    ensures q.shape == [B, heads, H * W, hd]
  {
    HeadTokenSplit([B], heads, hd, H, W);
    assert [B] + [heads * hd, H, W] == x.shape;
    assert [B] + [heads, hd, H * W] == [B, heads, hd, H * W];
    TokenSwapIsSwap();
    PermuteBy(Tensor([B, heads, hd, H * W], x.data), TokenSwap)
  }

  /** The query chain succeeds exactly when batch, heads and head width are positive; its value is QueryTokens. */
  lemma GlobalQueryValue<T>(x: Tensor<T>, B: nat, heads: nat, hd: nat, H: nat, W: nat)
    requires x.shape == [B, heads * hd, H, W]
    ensures GlobalQuery(x, heads, hd).Some? <==> B > 0 && heads > 0 && hd > 0
    ensures B > 0 && heads > 0 && hd > 0 ==> GlobalQuery(x, heads, hd) == Some(QueryTokens(x, B, heads, hd, H, W))
  {
    assert [B, heads, hd] + [] == [B, heads, hd];
    assert [B, heads, hd] + [H * W] + [] == [B, heads, hd, H * W];
    Size4(B, heads, hd, 1);
    assert [B, heads, hd, 1][..3] == [B, heads, hd];
    assert Size([B, heads, hd]) == B * heads * hd;
    assert Size([]) == 1;
    HeadTokenSplit([B], heads, hd, H, W);
    assert [B] + [heads * hd, H, W] == x.shape;
    assert [B] + [heads, hd] == [B, heads, hd];
    ReshapeInferred(x, [B, heads, hd], []);
    if B > 0 && heads > 0 && hd > 0 {
      MulPositive(B, heads);
      MulPositive(B * heads, hd);
      TrailingInferred([B, heads, hd], H * W);
      var t1: Tensor<T> := Tensor([B, heads, hd, H * W], x.data);
      assert Reshape(x, Inferred([B, heads, hd], [])) == Some(t1);
      TokenSwapIsSwap();
    } else {
      assert B * heads * hd == 0;
    }
  }

  /** Viewing a (B, heads*hd, H, W) map as (B, heads, hd, H*W), element by element (line 86). */
  lemma QueryViewAt<T>(x: Tensor<T>, B: nat, heads: nat, hd: nat, H: nat, W: nat,
                       b: nat, n: nat, d: nat, h: nat, w: nat)
    requires x.shape == [B, heads * hd, H, W]
    requires b < B && n < heads && d < hd && h < H && w < W
    ensures Size([B, heads, hd, H * W]) == |x.data|
    ensures InBounds([B, heads, hd, H * W], [b, n, d, h * W + w])
    ensures InBounds(x.shape, [b, n * hd + d, h, w])
    ensures At(Tensor([B, heads, hd, H * W], x.data), [b, n, d, h * W + w]) == At(x, [b, n * hd + d, h, w])
  {
    assert [B] + [heads * hd, H, W] == x.shape;
    assert [b] + [n * hd + d, h, w] == [b, n * hd + d, h, w];
    assert [B] + [heads, hd, H * W] == [B, heads, hd, H * W];
    assert [b] + [n, d, h * W + w] == [b, n, d, h * W + w];
    HeadTokenSplit([B], heads, hd, H, W);
    HeadTokenOffset([B], [b], heads, hd, H, W, n, d, h, w);
  }

  /** Query token h*W+w of head n, feature d, is channel n*hd+d of the map at (h, w). */
  lemma QueryTokensAt<T>(x: Tensor<T>, B: nat, heads: nat, hd: nat, H: nat, W: nat,
                         b: nat, n: nat, d: nat, h: nat, w: nat)
    requires x.shape == [B, heads * hd, H, W]
    requires b < B && n < heads && d < hd && h < H && w < W
    ensures InBounds([B, heads, H * W, hd], [b, n, h * W + w, d])
    ensures InBounds(x.shape, [b, n * hd + d, h, w])
    ensures At(QueryTokens(x, B, heads, hd, H, W), [b, n, h * W + w, d]) == At(x, [b, n * hd + d, h, w])
  {
    var idx := [b, n, d, h * W + w];
    assert Gather(idx, [0, 1, 3, 2]) == [b, n, h * W + w, d];
    QueryViewAt(x, B, heads, hd, H, W, b, n, d, h, w);
    TokenSwapIsSwap();
    var t1: Tensor<T> := Tensor([B, heads, hd, H * W], x.data);
    ScatterGather(t1.shape, TokenSwap, idx);
    PermuteAt(t1, TokenSwap, [b, n, h * W + w, d]);
  }

  /** The tokens the chains of lines 89-90 and 93-94 produce. */
  function KeyTokens<T>(x: Tensor<T>, B: nat, parts: nat, heads: nat, hd: nat, H: nat, W: nat): (k: Tensor<T>)
    requires x.shape == [B, parts * (heads * hd), H, W]
    ensures k.shape == [parts, B, heads, H * W, hd]
  {
    PartTokenSizes(B, parts, heads, hd, H, W);
    TokenSwapIsSwap();
    PermuteBy(Tensor([B, parts, heads, hd, H * W], x.data), HeadTokenOrder)
  }

  lemma PartTokenSizes(B: nat, parts: nat, heads: nat, hd: nat, H: nat, W: nat)
    ensures Size([B, parts * (heads * hd), H, W]) == Size([B, parts, heads, hd, H * W])
    ensures Size([B, parts * (heads * hd), H, W]) == Size([B, parts, heads, hd]) * (H * W)
  {
    assert [B, parts] + [heads * hd, H, W] == [B, parts, heads * hd] + [H, W];
    assert [B, parts] + [heads, hd, H * W] == [B, parts, heads, hd, H * W];
    assert [B, parts] + [heads, hd] == [B, parts, heads, hd];
    PartOffsetSize(B, parts, heads * hd, [H, W]);
    assert [B, parts * (heads * hd)] + [H, W] == [B, parts * (heads * hd), H, W];
    HeadTokenSplit([B, parts], heads, hd, H, W);
  }

  /** The key/value chain succeeds exactly when batch, parts, heads and head width are positive; its value is KeyTokens. */
  lemma HeadTokensValue<T>(x: Tensor<T>, B: nat, parts: nat, heads: nat, hd: nat, H: nat, W: nat)
    requires x.shape == [B, parts * (heads * hd), H, W]
    ensures HeadTokens(x, parts, heads, hd).Some? <==> B > 0 && parts > 0 && heads > 0 && hd > 0
    ensures B > 0 && parts > 0 && heads > 0 && hd > 0
        ==> HeadTokens(x, parts, heads, hd) == Some(KeyTokens(x, B, parts, heads, hd, H, W))
  {
    assert [B, parts, heads, hd] + [] == [B, parts, heads, hd];
    assert [B, parts, heads, hd] + [H * W] + [] == [B, parts, heads, hd, H * W];
    Size4(B, parts, heads, hd);
    assert Size([]) == 1;
    PartTokenSizes(B, parts, heads, hd, H, W);
    ReshapeInferred(x, [B, parts, heads, hd], []);
    if B > 0 && parts > 0 && heads > 0 && hd > 0 {
      MulPositive(B, parts);
      MulPositive(B * parts, heads);
      MulPositive(B * parts * heads, hd);
      TrailingInferred([B, parts, heads, hd], H * W);
      var t1: Tensor<T> := Tensor([B, parts, heads, hd, H * W], x.data);
      assert Reshape(x, Inferred([B, parts, heads, hd], [])) == Some(t1);
      TokenSwapIsSwap();
      PermuteNat(t1, HeadTokenOrder);
    } else {
      assert B * parts * heads * hd == 0;
    }
  }

  /** Flat offsets on both sides of the reshape at lines 89 and 93. */
  lemma PartTokenOffset(B: nat, parts: nat, heads: nat, hd: nat, H: nat, W: nat,
                        p: nat, b: nat, n: nat, d: nat, h: nat, w: nat)
    requires p < parts && b < B && n < heads && d < hd && h < H && w < W
    ensures InBounds([B, parts * (heads * hd), H, W], [b, p * (heads * hd) + (n * hd + d), h, w])
    ensures InBounds([B, parts, heads, hd, H * W], [b, p, n, d, h * W + w])
    ensures Flatten([B, parts * (heads * hd), H, W], [b, p * (heads * hd) + (n * hd + d), h, w])
         == Flatten([B, parts, heads, hd, H * W], [b, p, n, d, h * W + w])
  {
    var C := heads * hd;
    assert [B, parts] + [heads * hd, H, W] == [B, parts, C] + [H, W];
    assert [b, p] + [n * hd + d, h, w] == [b, p, n * hd + d] + [h, w];
    assert [B, parts] + [heads, hd, H * W] == [B, parts, heads, hd, H * W];
    assert [b, p] + [n, d, h * W + w] == [b, p, n, d, h * W + w];
    assert [B, parts * C] + [H, W] == [B, parts * C, H, W];
    assert [b, p * C + (n * hd + d)] + [h, w] == [b, p * C + (n * hd + d), h, w];
    MulAddBound(n, heads, hd, d);
    PartOffset(B, parts, C, [H, W], b, p, n * hd + d, [h, w]);
    HeadTokenOffset([B, parts], [b, p], heads, hd, H, W, n, d, h, w);
  }

  /** The permutation at lines 90 and 94 moves element [b, p, n, d, k] to [p, b, n, k, d]. */
  lemma KeyPermuteAt<T>(x: Tensor<T>, B: nat, parts: nat, heads: nat, hd: nat, H: nat, W: nat,
                        p: nat, b: nat, n: nat, d: nat, k: nat)
    requires x.shape == [B, parts * (heads * hd), H, W]
    requires p < parts && b < B && n < heads && d < hd && k < H * W
    ensures Size([B, parts, heads, hd, H * W]) == |x.data|
    ensures InBounds([parts, B, heads, H * W, hd], [p, b, n, k, d])
    ensures InBounds([B, parts, heads, hd, H * W], [b, p, n, d, k])
    ensures At(KeyTokens(x, B, parts, heads, hd, H, W), [p, b, n, k, d])
         == At(Tensor([B, parts, heads, hd, H * W], x.data), [b, p, n, d, k])
  {
    var idx := [b, p, n, d, k];
    assert Gather(idx, [1, 0, 2, 4, 3]) == [p, b, n, k, d];
    PartTokenSizes(B, parts, heads, hd, H, W);
    TokenSwapIsSwap();
    var t1: Tensor<T> := Tensor([B, parts, heads, hd, H * W], x.data);
    ScatterGather(t1.shape, HeadTokenOrder, idx);
    PermuteAt(t1, HeadTokenOrder, [p, b, n, k, d]);
  }

  /** Viewing a (B, parts*heads*hd, H, W) map as (B, parts, heads, hd, H*W), element by element (lines 89 and 93). */
  lemma KeyViewAt<T>(x: Tensor<T>, B: nat, parts: nat, heads: nat, hd: nat, H: nat, W: nat,
                     p: nat, b: nat, n: nat, d: nat, h: nat, w: nat)
    requires x.shape == [B, parts * (heads * hd), H, W]
    requires p < parts && b < B && n < heads && d < hd && h < H && w < W
    ensures Size([B, parts, heads, hd, H * W]) == |x.data|
    ensures InBounds([B, parts, heads, hd, H * W], [b, p, n, d, h * W + w])
    ensures InBounds(x.shape, [b, p * (heads * hd) + (n * hd + d), h, w])
    ensures At(Tensor([B, parts, heads, hd, H * W], x.data), [b, p, n, d, h * W + w])
         == At(x, [b, p * (heads * hd) + (n * hd + d), h, w])
  {
    PartTokenSizes(B, parts, heads, hd, H, W);
    PartTokenOffset(B, parts, heads, hd, H, W, p, b, n, d, h, w);
  }

  /** Token h*W+w of part p, head n, feature d, is channel p*C + n*hd + d of the map at (h, w). */
  lemma KeyTokensAt<T>(x: Tensor<T>, B: nat, parts: nat, heads: nat, hd: nat, H: nat, W: nat,
                       p: nat, b: nat, n: nat, d: nat, h: nat, w: nat)
    requires x.shape == [B, parts * (heads * hd), H, W]
    requires p < parts && b < B && n < heads && d < hd && h < H && w < W
    ensures InBounds([parts, B, heads, H * W, hd], [p, b, n, h * W + w, d])
    ensures InBounds(x.shape, [b, p * (heads * hd) + (n * hd + d), h, w])
    ensures At(KeyTokens(x, B, parts, heads, hd, H, W), [p, b, n, h * W + w, d])
         == At(x, [b, p * (heads * hd) + (n * hd + d), h, w])
  {
    MulAddBound(h, H, W, w);
    KeyPermuteAt(x, B, parts, heads, hd, H, W, p, b, n, d, h * W + w);
    KeyViewAt(x, B, parts, heads, hd, H, W, p, b, n, d, h, w);
  }

  /** The layout line 99 restores: tokens of each head are spread back over (H, W), feature d into channel n*hd+d. */
  function MergeTokens<T>(o: Tensor<T>, B: nat, heads: nat, hd: nat, H: nat, W: nat): (m: Tensor<T>)
    requires o.shape == [B, heads, H * W, hd]
    ensures m.shape == [B, heads * hd, H, W]
  {
    TokenSwapIsSwap();
    assert Gather(o.shape, TokenSwap) == [B, heads, hd, H * W];
    assert [B] + [heads * hd, H, W] == [B, heads * hd, H, W];
    assert [B] + [heads, hd, H * W] == [B, heads, hd, H * W];
    HeadTokenSplit([B], heads, hd, H, W);
    Tensor([B, heads * hd, H, W], PermuteBy(o, TokenSwap).data)
  }

  /** The chain of line 99 always succeeds on (B, heads, H*W, hd) tokens, with value MergeTokens. */
  lemma GlobalMergeValue<T>(o: Tensor<T>, B: nat, heads: nat, hd: nat, H: nat, W: nat)
    requires o.shape == [B, heads, H * W, hd]
    ensures GlobalMerge(o, B, heads * hd, H, W) == Some(MergeTokens(o, B, heads, hd, H, W))
  {
    TokenSwapIsSwap();
    assert Gather(o.shape, TokenSwap) == [B, heads, hd, H * W];
    assert Transpose(o, -2, -1) == Some(PermuteBy(o, TokenSwap));
    var m := MergeTokens(o, B, heads, hd, H, W);
    ReshapeFixed(PermuteBy(o, TokenSwap), [B, heads * hd, H, W]);
  }

  /** The transpose at line 99 moves token element [b, n, k, d] to [b, n, d, k]. */
  lemma MergeSwapAt<T>(o: Tensor<T>, B: nat, heads: nat, hd: nat, K: nat, b: nat, n: nat, d: nat, k: nat)
    requires o.shape == [B, heads, K, hd]
    requires b < B && n < heads && d < hd && k < K
    ensures PermuteBy(o, [0, 1, 3, 2]).shape == [B, heads, hd, K]
    ensures InBounds([B, heads, K, hd], [b, n, k, d])
    ensures At(PermuteBy(o, [0, 1, 3, 2]), [b, n, d, k]) == At(o, [b, n, k, d])
  {
    var idx := [b, n, k, d];
    assert Gather(idx, [0, 1, 3, 2]) == [b, n, d, k];
    TokenSwapIsSwap();
    ScatterGather(o.shape, TokenSwap, idx);
    PermuteAt(o, TokenSwap, [b, n, d, k]);
  }

  /** Channel n*hd+d of the restored map at (h, w) is feature d of token h*W+w of head n. */
  lemma MergeTokensAt<T>(o: Tensor<T>, B: nat, heads: nat, hd: nat, H: nat, W: nat,
                         b: nat, n: nat, d: nat, h: nat, w: nat)
    requires o.shape == [B, heads, H * W, hd]
    requires b < B && n < heads && d < hd && h < H && w < W
    ensures InBounds([B, heads * hd, H, W], [b, n * hd + d, h, w])
    ensures InBounds(o.shape, [b, n, h * W + w, d])
    ensures At(MergeTokens(o, B, heads, hd, H, W), [b, n * hd + d, h, w]) == At(o, [b, n, h * W + w, d])
  {
    MulAddBound(h, H, W, w);
    MergeSwapAt(o, B, heads, hd, H * W, b, n, d, h * W + w);
    var m := MergeTokens(o, B, heads, hd, H, W);
    QueryViewAt(m, B, heads, hd, H, W, b, n, d, h, w);
  }

  /** One element of the global round trip. */
  lemma GlobalRoundTripAt<T>(x: Tensor<T>, B: nat, heads: nat, hd: nat, H: nat, W: nat, idx: seq<nat>)
    requires x.shape == [B, heads * hd, H, W] && InBounds(x.shape, idx)
    ensures At(MergeTokens(QueryTokens(x, B, heads, hd, H, W), B, heads, hd, H, W), idx) == At(x, idx)
  {
    var n, d := Digits(idx[1], hd, heads);
    assert idx == [idx[0], n * hd + d, idx[2], idx[3]];
    var q := QueryTokens(x, B, heads, hd, H, W);
    MergeTokensAt(q, B, heads, hd, H, W, idx[0], n, d, idx[2], idx[3]);
    QueryTokensAt(x, B, heads, hd, H, W, idx[0], n, d, idx[2], idx[3]);
  }

  /**
   * The token layout of lines 86-87 and the restoring chain of line 99 are inverse:
   * a (B, C, H, W) map sent through both comes back unchanged.
   */
  lemma GlobalRoundTrip<T>(x: Tensor<T>, B: nat, heads: nat, hd: nat, H: nat, W: nat)
    requires x.shape == [B, heads * hd, H, W] && B > 0 && heads > 0 && hd > 0
    ensures GlobalQuery(x, heads, hd).Some?
    ensures GlobalQuery(x, heads, hd).value.shape == [B, heads, H * W, hd]
    ensures GlobalMerge(GlobalQuery(x, heads, hd).value, B, heads * hd, H, W) == Some(x)
  {
    GlobalQueryValue(x, B, heads, hd, H, W);
    var q := QueryTokens(x, B, heads, hd, H, W);
    GlobalMergeValue(q, B, heads, hd, H, W);
    var m := MergeTokens(q, B, heads, hd, H, W);
    forall idx | InBounds(m.shape, idx)
      ensures At(m, idx) == At(x, idx)
    {
      GlobalRoundTripAt(x, B, heads, hd, H, W, idx);
    }
    Extensionality(m, x);
  }

  /** Part `p` of the key/value tokens is a (B, heads, H*W, hd) tensor. */
  lemma KeyPart<T>(x: Tensor<T>, B: nat, parts: nat, heads: nat, hd: nat, H: nat, W: nat, p: nat)
    requires x.shape == [B, parts * (heads * hd), H, W] && p < parts
    ensures Select(KeyTokens(x, B, parts, heads, hd, H, W), p).Some?
    ensures Select(KeyTokens(x, B, parts, heads, hd, H, W), p).value.shape == [B, heads, H * W, hd]
    ensures p * (heads * hd) + heads * hd <= parts * (heads * hd)
  {
    MulMono(p + 1, parts, heads * hd);
    assert (p + 1) * (heads * hd) == p * (heads * hd) + heads * hd;
  }

  /** Part `p` of the key/value tokens, element by element. */
  lemma KeyPartAt<T>(x: Tensor<T>, B: nat, parts: nat, heads: nat, hd: nat, H: nat, W: nat,
                     p: nat, b: nat, n: nat, k: nat, d: nat)
    requires x.shape == [B, parts * (heads * hd), H, W] && p < parts
    requires b < B && n < heads && k < H * W && d < hd
    ensures Select(KeyTokens(x, B, parts, heads, hd, H, W), p).Some?
    ensures At(Select(KeyTokens(x, B, parts, heads, hd, H, W), p).value, [b, n, k, d])
         == At(KeyTokens(x, B, parts, heads, hd, H, W), [p, b, n, k, d])
  {
    assert [p] + [b, n, k, d] == [p, b, n, k, d];
    var K := KeyTokens(x, B, parts, heads, hd, H, W);
    assert K.shape[1..] == [B, heads, H * W, hd];
    InBounds4(B, heads, H * W, hd, b, n, k, d);
    SelectAt(K, p, [b, n, k, d]);
  }

  /** Token h*W+w of head n, feature d, in part p, is channel p*C + n*hd + d of the map at (h, w). */
  lemma KeyPartTokenAt<T>(x: Tensor<T>, B: nat, parts: nat, heads: nat, hd: nat, H: nat, W: nat,
                          p: nat, b: nat, n: nat, d: nat, h: nat, w: nat)
    requires x.shape == [B, parts * (heads * hd), H, W] && p < parts
    requires b < B && n < heads && d < hd && h < H && w < W
    ensures Select(KeyTokens(x, B, parts, heads, hd, H, W), p).Some?
    ensures InBounds(Select(KeyTokens(x, B, parts, heads, hd, H, W), p).value.shape, [b, n, h * W + w, d])
    ensures InBounds(x.shape, [b, p * (heads * hd) + (n * hd + d), h, w])
    ensures At(Select(KeyTokens(x, B, parts, heads, hd, H, W), p).value, [b, n, h * W + w, d])
         == At(x, [b, p * (heads * hd) + (n * hd + d), h, w])
  {
    MulAddBound(h, H, W, w);
    KeyPartAt(x, B, parts, heads, hd, H, W, p, b, n, h * W + w, d);
    KeyTokensAt(x, B, parts, heads, hd, H, W, p, b, n, d, h, w);
    KeyPart(x, B, parts, heads, hd, H, W, p);
    InBounds4(B, heads, H * W, hd, b, n, h * W + w, d);
  }

  /** One element of the plain-mode round trip. */
  lemma PartRoundTripAt<T>(x: Tensor<T>, B: nat, parts: nat, heads: nat, hd: nat, H: nat, W: nat, p: nat,
                           idx: seq<nat>)
    requires x.shape == [B, parts * (heads * hd), H, W] && p < parts
    requires InBounds([B, heads * hd, H, W], idx)
    ensures Select(KeyTokens(x, B, parts, heads, hd, H, W), p).Some?
    ensures Select(KeyTokens(x, B, parts, heads, hd, H, W), p).value.shape == [B, heads, H * W, hd]
    ensures p * (heads * hd) + heads * hd <= parts * (heads * hd)
    ensures At(MergeTokens(Select(KeyTokens(x, B, parts, heads, hd, H, W), p).value, B, heads, hd, H, W), idx)
         == At(ChannelSlice(x, p * (heads * hd), heads * hd), idx)
  {
    KeyPart(x, B, parts, heads, hd, H, W, p);
    var o := Select(KeyTokens(x, B, parts, heads, hd, H, W), p).value;
    var n, d := Digits(idx[1], hd, heads);
    var b, h, w := idx[0], idx[2], idx[3];
    assert idx == [b, n * hd + d, h, w];
    MergeTokensAt(o, B, heads, hd, H, W, b, n, d, h, w);
    KeyPartTokenAt(x, B, parts, heads, hd, H, W, p, b, n, d, h, w);
    ChannelSliceAt(x, p * (heads * hd), heads * hd, idx);
  }

  /** The closed-form plain-mode round trip, on whole tensors. */
  lemma PartTokensRoundTrip<T>(x: Tensor<T>, B: nat, parts: nat, heads: nat, hd: nat, H: nat, W: nat, p: nat)
    requires x.shape == [B, parts * (heads * hd), H, W] && p < parts
    ensures Select(KeyTokens(x, B, parts, heads, hd, H, W), p).Some?
    ensures Select(KeyTokens(x, B, parts, heads, hd, H, W), p).value.shape == [B, heads, H * W, hd]
    ensures p * (heads * hd) + heads * hd <= parts * (heads * hd)
    ensures MergeTokens(Select(KeyTokens(x, B, parts, heads, hd, H, W), p).value, B, heads, hd, H, W)
         == ChannelSlice(x, p * (heads * hd), heads * hd)
  {
    KeyPart(x, B, parts, heads, hd, H, W, p);
    var o := Select(KeyTokens(x, B, parts, heads, hd, H, W), p).value;
    var m := MergeTokens(o, B, heads, hd, H, W);
    var R := ChannelSlice(x, p * (heads * hd), heads * hd);
    forall idx | InBounds(m.shape, idx)
      ensures At(m, idx) == At(R, idx)
    {
      PartRoundTripAt(x, B, parts, heads, hd, H, W, p, idx);
    }
    Extensionality(m, R);
  }

  /**
   * The token layout of lines 89-90 and 93-94 and the restoring chain of line 99
   * are inverse: part `p` of the tokens (q, k or v; k or v for the pooled map)
   * sent back through line 99 gives channels p*C .. p*C+C-1 of the map, unchanged.
   */
  lemma PartRoundTrip<T>(x: Tensor<T>, B: nat, parts: nat, heads: nat, hd: nat, H: nat, W: nat, p: nat)
    requires x.shape == [B, parts * (heads * hd), H, W] && p < parts
    requires B > 0 && heads > 0 && hd > 0
    ensures HeadTokens(x, parts, heads, hd).Some?
    ensures Select(HeadTokens(x, parts, heads, hd).value, p).Some?
    ensures p * (heads * hd) + heads * hd <= parts * (heads * hd)
    ensures GlobalMerge(Select(HeadTokens(x, parts, heads, hd).value, p).value, B, heads * hd, H, W)
         == Some(ChannelSlice(x, p * (heads * hd), heads * hd))
  {
    HeadTokensValue(x, B, parts, heads, hd, H, W);
    PartTokensRoundTrip(x, B, parts, heads, hd, H, W, p);
    GlobalMergeValue(Select(KeyTokens(x, B, parts, heads, hd, H, W), p).value, B, heads, hd, H, W);
  }
}
