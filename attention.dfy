/**
 * The Attention module of TransCNN.py:46-104 at the level of shapes: its
 * configuration (the head count), and the shape bookkeeping of its forward
 * pass. The reshape/permute chains are the ones of AttentionLayout, applied to
 * placeholder tensors; the floating-point steps (convolution weights, batch
 * norm, softmax, the scale factor, dropout) only contribute their output
 * shapes.
 */
module Attention {
  import opened Wrappers
  import opened Layout
  import opened Tensors
  import opened AttentionLayout
  import opened Shapes

  // ---------------------------------------------------------------------------
  // Configuration (TransCNN.py:47-65)

  /** The integer settings an Attention module is built with. */
  datatype AttentionConfig = AttentionConfig(dim: nat, headDim: nat, heads: nat, gridSize: nat, dsRatio: nat)

  predicate ValidAttention(cfg: AttentionConfig)
  {
    cfg.headDim > 0 && cfg.heads * cfg.headDim == cfg.dim
  }

  /**
   * `Attention(dim, head_dim, grid_size, ds_ratio)`: the constructor asserts
   * that head_dim divides dim (head_dim 0 raises ZeroDivisionError) and sets
   * num_heads = dim // head_dim, so the heads tile the channels exactly.
   */
  function MakeAttention(dim: nat, headDim: nat, gridSize: nat, dsRatio: nat): (r: Option<AttentionConfig>)
    ensures r.Some? <==> headDim > 0 && dim % headDim == 0
    ensures r.Some? ==> ValidAttention(r.value) && r.value.dim == dim && r.value.headDim == headDim
    ensures r.Some? ==> r.value.gridSize == gridSize && r.value.dsRatio == dsRatio
  {
    if headDim == 0 || dim % headDim != 0 then None
    else
      assert dim == (dim / headDim) * headDim + dim % headDim;
      Some(AttentionConfig(dim, headDim, dim / headDim, gridSize, dsRatio))
  }

  /** Every channel c < dim is head c / hd, feature c % hd: c == head * hd + feature with feature < hd. */
  lemma ChannelOf(cfg: AttentionConfig, c: nat) returns (head: nat, feature: nat)
    requires ValidAttention(cfg) && c < cfg.dim
    ensures head < cfg.heads && feature < cfg.headDim && c == head * cfg.headDim + feature
  {
    DivBound(c, cfg.heads, cfg.headDim);
    head, feature := c / cfg.headDim, c % cfg.headDim;
  }

  /** ... and that decomposition is unique. */
  lemma ChannelUnique(cfg: AttentionConfig, n: nat, d: nat, n': nat, d': nat)
    requires ValidAttention(cfg) && d < cfg.headDim && d' < cfg.headDim
    ensures n * cfg.headDim + d == n' * cfg.headDim + d' <==> n == n' && d == d'
  {
    DigitsUnique(n, d, n', d', cfg.headDim);
  }

  /** A head index and a feature index below their bounds address a channel below dim. */
  lemma ChannelInRange(cfg: AttentionConfig, n: nat, d: nat)
    requires ValidAttention(cfg) && n < cfg.heads && d < cfg.headDim
    ensures n * cfg.headDim + d < cfg.dim
  {
    MulAddBound(n, cfg.heads, cfg.headDim, d);
  }

  // ---------------------------------------------------------------------------
  // Shapes of the forward pass (TransCNN.py:67-104)

  /** A tensor of shape `s` standing for a floating-point result: only its shape is used. */
  function Blank(s: seq<nat>): (t: Tensor<int>)
    ensures t.shape == s
  {
    Tensor(s, seq(Size(s), _ => 0))
  }

  function Dims(x: Shape4): seq<nat>
  {
    [x.b, x.c, x.h, x.w]
  }

  function AsShape4(s: seq<nat>): (r: Option<Shape4>)
    ensures r.Some? <==> |s| == 4
    ensures r.Some? ==> Dims(r.value) == s
  {
    if |s| == 4 then Some(Shape4(s[0], s[1], s[2], s[3])) else None
  }

  /** `a @ b` for operands of equal rank (at least 2) whose leading axes agree. */
  function MatMul(a: seq<nat>, b: seq<nat>): (r: Option<seq<nat>>)
    ensures r.Some? <==> |a| >= 2 && |a| == |b| && a[..|a| - 2] == b[..|b| - 2] && a[|a| - 1] == b[|b| - 2]
  {
    if |a| >= 2 && |a| == |b| && a[..|a| - 2] == b[..|b| - 2] && a[|a| - 1] == b[|b| - 2]
    then Some(a[..|a| - 2] + [a[|a| - 2], b[|b| - 1]])
    else None
  }

  /** Query, key and value token shapes. */
  datatype Tokens = Tokens(q: seq<nat>, k: seq<nat>, v: seq<nat>)

  /** The shape of `softmax(q @ k.transpose(-2, -1) * scale) @ v` (lines 78-80 and 97-99). */
  function AttendShape(t: Tokens): Option<seq<nat>>
  {
    var kt :- Transpose(Blank(t.k), -2, -1);
    var a :- MatMul(t.q, kt.shape);
    MatMul(a, t.v)
  }

  /** `q, k, v = t[0], t[1], t[2]` (lines 77 and 95). */
  function Parts3(t: Tensor<int>): Option<Tokens>
  {
    var q :- Select(t, 0);
    var k :- Select(t, 1);
    var v :- Select(t, 2);
    Some(Tokens(q.shape, k.shape, v.shape))
  }

  /** Lines 71-84: window attention over the qkv map, then `x + grid_x` (kept by grid_norm). */
  function GridAttention(cfg: AttentionConfig, x: Shape4, qkv: Tensor<int>): Option<Shape4>
    requires |qkv.shape| == 4 && cfg.gridSize > 1
  {
    var g :- WindowSplit(qkv, cfg.heads, cfg.headDim, cfg.gridSize);
    var t :- Parts3(g);
    var o :- AttendShape(t);
    var m :- WindowMerge(Blank(o), x.b, x.c, x.h, x.w, cfg.heads, cfg.headDim, cfg.gridSize);
    var gx :- AsShape4(m.shape);
    Add(x, gx)
  }

  /** Lines 86-91: queries from grid_x at full resolution, keys and values from its ds_ratio-pooled copy. */
  function PooledTokens(cfg: AttentionConfig, gx: Shape4): Option<Tokens>
  {
    var qs :- Conv(gx, cfg.dim, cfg.dim, 1, 1, 0);
    var q :- GlobalQuery(Blank(Dims(qs)), cfg.heads, cfg.headDim);
    var ps :- Pool(gx, cfg.dsRatio, cfg.dsRatio, 0);
    var kvs :- Conv(ps, cfg.dim, 2 * cfg.dim, 1, 1, 0);
    var kv :- HeadTokens(Blank(Dims(kvs)), 2, cfg.heads, cfg.headDim);
    var k :- Select(kv, 0);
    var v :- Select(kv, 1);
    Some(Tokens(q.shape, k.shape, v.shape))
  }

  /** Lines 93-95: queries, keys and values all from the qkv map. */
  function PlainTokens(cfg: AttentionConfig, qkv: Tensor<int>): Option<Tokens>
    requires |qkv.shape| == 4
  {
    var t :- HeadTokens(qkv, 3, cfg.heads, cfg.headDim);
    Parts3(t)
  }

  /** Lines 97-99: attention over the tokens, then the (B, heads, N, hd) result back to (B, C, H, W). */
  function GlobalStep(t: Tokens, x: Shape4): Option<Shape4>
  {
    var o :- AttendShape(t);
    var m :- GlobalMerge(Blank(o), x.b, x.c, x.h, x.w);
    AsShape4(m.shape)
  }

  /** Lines 71-91 and 97-101 (grid_size > 1): window attention, then global attention to the pooled map, summed. */
  function GridForward(cfg: AttentionConfig, x: Shape4, qkv: Tensor<int>): Option<Shape4>
    requires |qkv.shape| == 4 && cfg.gridSize > 1
  {
    var gx :- GridAttention(cfg, x, qkv);
    var t :- PooledTokens(cfg, gx);
    var g :- GlobalStep(t, x);
    Add(g, gx)
  }

  /** Lines 93-99 (grid_size <= 1): global attention of the map to itself. */
  function PlainForward(cfg: AttentionConfig, x: Shape4, qkv: Tensor<int>): Option<Shape4>
    requires |qkv.shape| == 4
  {
    var t :- PlainTokens(cfg, qkv);
    GlobalStep(t, x)
  }

  /** `Attention.forward` on an input of shape `x`: qkv projection, one of the two branches, output projection. */
  function AttentionShape(cfg: AttentionConfig, x: Shape4): Option<Shape4>
  {
    var qkvs :- Conv(x, cfg.dim, 3 * cfg.dim, 1, 1, 0);
    var qkv := Blank(Dims(qkvs));
    var y :- if cfg.gridSize > 1 then GridForward(cfg, x, qkv) else PlainForward(cfg, x, qkv);
    Conv(y, cfg.dim, cfg.dim, 1, 1, 0)
  }

  /**
   * The inputs on which the forward pass goes through: the channel count is
   * dim, the batch and the map are non-empty, there is at least one head, and
   * in grid mode the windows tile the map and the pooling window fits in it.
   */
  predicate Admissible(cfg: AttentionConfig, x: Shape4)
  {
    && x.c == cfg.dim && x.b > 0 && cfg.heads > 0 && x.h > 0 && x.w > 0
    && (cfg.gridSize > 1 ==>
          x.h % cfg.gridSize == 0 && x.w % cfg.gridSize == 0
          && cfg.dsRatio > 0 && cfg.dsRatio <= x.h && cfg.dsRatio <= x.w)
  }

  // ---------------------------------------------------------------------------
  // Step lemmas

  /** A 1x1 convolution keeps the batch and the map and sets the channel count. */
  lemma PointwiseConv(x: Shape4, cin: nat, cout: nat)
    ensures Conv(x, cin, cout, 1, 1, 0).Some? <==> x.c == cin && x.h > 0 && x.w > 0
    ensures Conv(x, cin, cout, 1, 1, 0).Some? ==> Conv(x, cin, cout, 1, 1, 0) == Some(Shape4(x.b, cout, x.h, x.w))
  {
    PointwiseLen(x.h);
    PointwiseLen(x.w);
  }

  /** A reshape that succeeds has exactly the requested shape. */
  lemma ReshapeShape<T>(t: Tensor<T>, s: seq<nat>)
    ensures Reshape(t, s).Some? ==> Reshape(t, s).value.shape == s
  {
    ReshapeFixed(t, s);
  }

  /** Line 99 ends in reshape(B, C, H, W). */
  lemma GlobalMergeShape<T>(o: Tensor<T>, B: nat, C: nat, H: nat, W: nat)
    ensures GlobalMerge(o, B, C, H, W).Some? ==> GlobalMerge(o, B, C, H, W).value.shape == [B, C, H, W]
  {
    var t := Transpose(o, -2, -1);
    if t.Some? {
      ReshapeShape(t.value, [B, C, H, W]);
    }
  }

  /** Line 83 ends in reshape(B, C, H, W). */
  lemma WindowMergeShape<T>(o: Tensor<T>, B: nat, C: nat, H: nat, W: nat, heads: nat, hd: nat, gs: nat)
    requires gs > 1
    ensures WindowMerge(o, B, C, H, W, heads, hd, gs).Some?
        ==> WindowMerge(o, B, C, H, W, heads, hd, gs).value.shape == [B, C, H, W]
  {
    var t1 := Reshape(o, [B, heads, H / gs, W / gs, gs, gs, hd]);
    if t1.Some? {
      var t2 := Permute(t1.value, MergeOrder);
      if t2.Some? {
        ReshapeShape(t2.value, [B, C, H, W]);
      }
    }
  }

  /** The grid branch hands back a map of the input's shape whenever it succeeds. */
  lemma GridAttentionKeepsShape(cfg: AttentionConfig, x: Shape4, qkv: Tensor<int>)
    requires |qkv.shape| == 4 && cfg.gridSize > 1
    ensures GridAttention(cfg, x, qkv).Some? ==> GridAttention(cfg, x, qkv) == Some(x)
  {
    var g := WindowSplit(qkv, cfg.heads, cfg.headDim, cfg.gridSize);
    if g.Some? {
      var t := Parts3(g.value);
      if t.Some? {
        var o := AttendShape(t.value);
        if o.Some? {
          WindowMergeShape(Blank(o.value), x.b, x.c, x.h, x.w, cfg.heads, cfg.headDim, cfg.gridSize);
        }
      }
    }
  }

  /** Transposing the last two axes of a shape P + [m, d]. */
  lemma TransposedShape(P: seq<nat>, m: nat, d: nat)
    ensures Transpose(Blank(P + [m, d]), -2, -1).Some?
    ensures Transpose(Blank(P + [m, d]), -2, -1).value.shape == P + [d, m]
  {
    var s := P + [m, d];
    var n := |s|;
    var p := Swap(n, n - 2, n - 1);
    assert WrapDim(-2, n) == Some(n - 2);
    assert WrapDim(-1, n) == Some(n - 1);
    assert Gather(s, p) == P + [d, m];
  }

  /** Attention over P + [n, d] queries and P + [m, d] keys with P + [m, e] values gives P + [n, e]. */
  lemma AttendShapeValue(P: seq<nat>, n: nat, m: nat, d: nat, e: nat)
    ensures AttendShape(Tokens(P + [n, d], P + [m, d], P + [m, e])) == Some(P + [n, e])
  {
    TransposedShape(P, m, d);
    var q := P + [n, d];
    assert q[..|q| - 2] == P;
    var kt := P + [d, m];
    assert kt[..|kt| - 2] == P;
    var a := P + [n, m];
    assert MatMul(q, kt) == Some(a);
    var v := P + [m, e];
    assert a[..|a| - 2] == P && v[..|v| - 2] == P;
    assert MatMul(a, v) == Some(P + [n, e]);
  }

  /** The leading axis of a tensor of shape [3] + s splits into three parts of shape s. */
  lemma Parts3Value(t: Tensor<int>, s: seq<nat>)
    requires t.shape == [3] + s
    ensures Parts3(t) == Some(Tokens(s, s, s))
  {
    assert t.shape[1..] == s;
  }

  // ---------------------------------------------------------------------------
  // The grid branch on admissible inputs

  /** The split of lines 72-77 on an admissible map: gs*gs tokens in each of B*heads*(H/gs)*(W/gs) groups. */
  lemma GridSplitValue(cfg: AttentionConfig, x: Shape4)
    requires ValidAttention(cfg) && Admissible(cfg, x) && cfg.gridSize > 1
    ensures WindowSplit(Blank([x.b, 3 * cfg.dim, x.h, x.w]), cfg.heads, cfg.headDim, cfg.gridSize).Some?
    ensures Parts3(WindowSplit(Blank([x.b, 3 * cfg.dim, x.h, x.w]), cfg.heads, cfg.headDim, cfg.gridSize).value)
         == Some(Tokens(GroupShape(cfg, x), GroupShape(cfg, x), GroupShape(cfg, x)))
  {
    var gs, heads, hd := cfg.gridSize, cfg.heads, cfg.headDim;
    var gh, gw := x.h / gs, x.w / gs;
    FloorMultiple(x.h, gs);
    FloorMultiple(x.w, gs);
    var qkv := Blank([x.b, 3 * cfg.dim, x.h, x.w]);
    assert qkv.shape == [x.b, 3 * (heads * hd), gh * gs, gw * gs];
    WindowSplitValue(qkv, heads, hd, gs, x.b, gh, gw);
    var S := SplitGroups(qkv, heads, hd, gs, x.b, gh, gw);
    assert S.shape == [3] + GroupShape(cfg, x);
    Parts3Value(S, GroupShape(cfg, x));
  }

  /** The merge of lines 81-83 on the windowed attention output gives back a (B, C, H, W) map. */
  lemma GridMergeValue(cfg: AttentionConfig, x: Shape4)
    requires ValidAttention(cfg) && Admissible(cfg, x) && cfg.gridSize > 1
    ensures WindowMerge(Blank(GroupShape(cfg, x)), x.b, x.c, x.h, x.w, cfg.heads, cfg.headDim, cfg.gridSize).Some?
    ensures WindowMerge(Blank(GroupShape(cfg, x)), x.b, x.c, x.h, x.w, cfg.heads, cfg.headDim, cfg.gridSize).value.shape
         == Dims(x)
  {
    var gs, heads, hd := cfg.gridSize, cfg.heads, cfg.headDim;
    var gh, gw := x.h / gs, x.w / gs;
    FloorMultiple(x.h, gs);
    FloorMultiple(x.w, gs);
    var o := Blank(GroupShape(cfg, x));
    assert o.shape == [x.b * heads * gh * gw, gs * gs, hd];
    WindowMergeValue(o, x.b, heads, hd, gs, gh, gw);
    assert x.c == heads * hd && x.h == gh * gs && x.w == gw * gs;
  }

  /** On an admissible map the grid branch returns a map of the input's shape. */
  lemma GridAttentionValue(cfg: AttentionConfig, x: Shape4)
    requires ValidAttention(cfg) && Admissible(cfg, x) && cfg.gridSize > 1
    ensures GridAttention(cfg, x, Blank([x.b, 3 * cfg.dim, x.h, x.w])) == Some(x)
  {
    GridSplitValue(cfg, x);
    var GS := GroupShape(cfg, x);
    assert [GS[0]] + [GS[1], GS[2]] == GS;
    AttendShapeValue([GS[0]], GS[1], GS[1], GS[2], GS[2]);
    assert AttendShape(Tokens(GS, GS, GS)) == Some(GS);
    GridMergeValue(cfg, x);
  }

  /** The (groups, tokens per group, head width) shape of each of q, k, v in the grid branch. */
  function GroupShape(cfg: AttentionConfig, x: Shape4): seq<nat>
    requires cfg.gridSize > 1
  {
    [x.b * cfg.heads * (x.h / cfg.gridSize) * (x.w / cfg.gridSize), cfg.gridSize * cfg.gridSize, cfg.headDim]
  }

  // ---------------------------------------------------------------------------
  // Token counts of the global step

  /** A pooling window of size and stride ds over n >= ds positions gives floor(n/ds). */
  lemma PoolLen(n: nat, ds: nat)
    requires 0 < ds <= n
    ensures OutLen(n, ds, ds, 0) == Some(n / ds)
  {
    FloorBounds(n, ds);
    OutLenUnique(n, ds, ds, 0, n / ds);
  }

  /**
   * In grid mode the global step attends H*W queries to floor(H/ds)*floor(W/ds)
   * keys and values, each split across the heads with head width hd.
   */
  lemma PooledTokensValue(cfg: AttentionConfig, x: Shape4)
    requires ValidAttention(cfg) && Admissible(cfg, x) && cfg.gridSize > 1
    ensures PooledTokens(cfg, x) == Some(Tokens(
              [x.b, cfg.heads, x.h * x.w, cfg.headDim],
              [x.b, cfg.heads, (x.h / cfg.dsRatio) * (x.w / cfg.dsRatio), cfg.headDim],
              [x.b, cfg.heads, (x.h / cfg.dsRatio) * (x.w / cfg.dsRatio), cfg.headDim]))
  {
    var heads, hd, ds := cfg.heads, cfg.headDim, cfg.dsRatio;
    PointwiseConv(x, cfg.dim, cfg.dim);
    var qs := Shape4(x.b, cfg.dim, x.h, x.w);
    var qb := Blank(Dims(qs));
    assert qb.shape == [x.b, heads * hd, x.h, x.w];
    GlobalQueryValue(qb, x.b, heads, hd, x.h, x.w);
    PoolLen(x.h, ds);
    PoolLen(x.w, ds);
    var hp, wp := x.h / ds, x.w / ds;
    assert Pool(x, ds, ds, 0) == Some(Shape4(x.b, x.c, hp, wp));
    PointwiseConv(Shape4(x.b, x.c, hp, wp), cfg.dim, 2 * cfg.dim);
    var kb := Blank([x.b, 2 * cfg.dim, hp, wp]);
    assert kb.shape == [x.b, 2 * (heads * hd), hp, wp];
    HeadTokensValue(kb, x.b, 2, heads, hd, hp, wp);
    KeyPart(kb, x.b, 2, heads, hd, hp, wp, 0);
    KeyPart(kb, x.b, 2, heads, hd, hp, wp, 1);
  }

  /** In plain mode queries, keys and values all have H*W tokens per head. */
  lemma PlainTokensValue(cfg: AttentionConfig, x: Shape4)
    requires ValidAttention(cfg) && Admissible(cfg, x)
    ensures PlainTokens(cfg, Blank([x.b, 3 * cfg.dim, x.h, x.w])) == Some(Tokens(
              [x.b, cfg.heads, x.h * x.w, cfg.headDim],
              [x.b, cfg.heads, x.h * x.w, cfg.headDim],
              [x.b, cfg.heads, x.h * x.w, cfg.headDim]))
  {
    var heads, hd := cfg.heads, cfg.headDim;
    var qkv := Blank([x.b, 3 * cfg.dim, x.h, x.w]);
    assert qkv.shape == [x.b, 3 * (heads * hd), x.h, x.w];
    HeadTokensValue(qkv, x.b, 3, heads, hd, x.h, x.w);
    var K := KeyTokens(qkv, x.b, 3, heads, hd, x.h, x.w);
    assert K.shape == [3] + [x.b, heads, x.h * x.w, hd];
    Parts3Value(K, [x.b, heads, x.h * x.w, hd]);
  }

  // ---------------------------------------------------------------------------
  // The whole forward pass

  /** The global step (lines 97-99) on the token shapes of either branch returns (B, C, H, W). */
  lemma GlobalStepValue(cfg: AttentionConfig, x: Shape4, L: nat)
    requires ValidAttention(cfg) && x.c == cfg.dim
    ensures GlobalStep(Tokens([x.b, cfg.heads, x.h * x.w, cfg.headDim],
                              [x.b, cfg.heads, L, cfg.headDim],
                              [x.b, cfg.heads, L, cfg.headDim]), x) == Some(x)
  {
    var P := [x.b, cfg.heads];
    var q := [x.b, cfg.heads, x.h * x.w, cfg.headDim];
    assert P + [x.h * x.w, cfg.headDim] == q;
    assert P + [L, cfg.headDim] == [x.b, cfg.heads, L, cfg.headDim];
    AttendShapeValue(P, x.h * x.w, L, cfg.headDim, cfg.headDim);
    GlobalMergeValue(Blank(q), x.b, cfg.heads, cfg.headDim, x.h, x.w);
    assert MergeTokens(Blank(q), x.b, cfg.heads, cfg.headDim, x.h, x.w).shape == Dims(x);
  }

  /** The global step hands back the input's shape whenever it succeeds. */
  lemma GlobalStepKeepsShape(t: Tokens, x: Shape4)
    ensures GlobalStep(t, x).Some? ==> GlobalStep(t, x) == Some(x)
  {
    var o := AttendShape(t);
    if o.Some? {
      GlobalMergeShape(Blank(o.value), x.b, x.c, x.h, x.w);
    }
  }

  lemma GridForwardKeepsShape(cfg: AttentionConfig, x: Shape4, qkv: Tensor<int>)
    requires |qkv.shape| == 4 && cfg.gridSize > 1
    ensures GridForward(cfg, x, qkv).Some? ==> GridForward(cfg, x, qkv) == Some(x)
  {
    GridAttentionKeepsShape(cfg, x, qkv);
    var t := PooledTokens(cfg, x);
    if t.Some? {
      GlobalStepKeepsShape(t.value, x);
    }
  }

  lemma PlainForwardKeepsShape(cfg: AttentionConfig, x: Shape4, qkv: Tensor<int>)
    requires |qkv.shape| == 4
    ensures PlainForward(cfg, x, qkv).Some? ==> PlainForward(cfg, x, qkv) == Some(x)
  {
    var t := PlainTokens(cfg, qkv);
    if t.Some? {
      GlobalStepKeepsShape(t.value, x);
    }
  }

  /** Attention keeps the shape of its input whenever it succeeds, so the residual sums at lines 84 and 101 are well-shaped. */
  lemma AttentionKeepsShape(cfg: AttentionConfig, x: Shape4)
    ensures AttentionShape(cfg, x).Some? ==> AttentionShape(cfg, x) == Some(x)
  {
    PointwiseConv(x, cfg.dim, 3 * cfg.dim);
    var qkv := Blank([x.b, 3 * cfg.dim, x.h, x.w]);
    assert Dims(Shape4(x.b, 3 * cfg.dim, x.h, x.w)) == qkv.shape;
    if cfg.gridSize > 1 {
      GridForwardKeepsShape(cfg, x, qkv);
    } else {
      PlainForwardKeepsShape(cfg, x, qkv);
    }
    PointwiseConv(x, cfg.dim, cfg.dim);
  }

  lemma GridForwardValue(cfg: AttentionConfig, x: Shape4)
    requires ValidAttention(cfg) && Admissible(cfg, x) && cfg.gridSize > 1
    ensures GridForward(cfg, x, Blank([x.b, 3 * cfg.dim, x.h, x.w])) == Some(x)
  {
    var L := (x.h / cfg.dsRatio) * (x.w / cfg.dsRatio);
    var kv := [x.b, cfg.heads, L, cfg.headDim];
    var t := Tokens([x.b, cfg.heads, x.h * x.w, cfg.headDim], kv, kv);
    GridAttentionValue(cfg, x);
    PooledTokensValue(cfg, x);
    assert PooledTokens(cfg, x) == Some(t);
    GlobalStepValue(cfg, x, L);
    assert GlobalStep(t, x) == Some(x);
    assert Add(x, x) == Some(x);
  }

  lemma PlainForwardValue(cfg: AttentionConfig, x: Shape4)
    requires ValidAttention(cfg) && Admissible(cfg, x)
    ensures PlainForward(cfg, x, Blank([x.b, 3 * cfg.dim, x.h, x.w])) == Some(x)
  {
    var q := [x.b, cfg.heads, x.h * x.w, cfg.headDim];
    PlainTokensValue(cfg, x);
    assert PlainTokens(cfg, Blank([x.b, 3 * cfg.dim, x.h, x.w])) == Some(Tokens(q, q, q));
    GlobalStepValue(cfg, x, x.h * x.w);
  }

  /** On an admissible input the forward pass succeeds and returns a map of the input's shape. */
  lemma AttentionAdmissible(cfg: AttentionConfig, x: Shape4)
    requires ValidAttention(cfg) && Admissible(cfg, x)
    ensures AttentionShape(cfg, x) == Some(x)
  {
    PointwiseConv(x, cfg.dim, 3 * cfg.dim);
    var qkv := Blank([x.b, 3 * cfg.dim, x.h, x.w]);
    assert Dims(Shape4(x.b, 3 * cfg.dim, x.h, x.w)) == qkv.shape;
    if cfg.gridSize > 1 {
      GridForwardValue(cfg, x);
    } else {
      PlainForwardValue(cfg, x);
    }
    PointwiseConv(x, cfg.dim, cfg.dim);
  }

  /** The grid branch needs windows that tile the map (for a non-empty batch, head count and map). */
  lemma GridAttentionNeedsTiling(cfg: AttentionConfig, x: Shape4)
    requires ValidAttention(cfg) && cfg.gridSize > 1 && x.c == cfg.dim
    requires x.b > 0 && cfg.heads > 0 && x.h > 0 && x.w > 0
    requires GridAttention(cfg, x, Blank([x.b, 3 * cfg.dim, x.h, x.w])).Some?
    ensures x.h % cfg.gridSize == 0 && x.w % cfg.gridSize == 0
  {
    WindowSplitSucceeds(Blank([x.b, 3 * cfg.dim, x.h, x.w]), cfg.heads, cfg.headDim, cfg.gridSize);
  }

  /** The pooled branch needs a non-empty batch, at least one head and a pooling window that fits. */
  lemma PooledTokensNeeds(cfg: AttentionConfig, x: Shape4)
    requires ValidAttention(cfg) && x.c == cfg.dim && PooledTokens(cfg, x).Some?
    ensures x.b > 0 && cfg.heads > 0 && cfg.dsRatio > 0 && cfg.dsRatio <= x.h && cfg.dsRatio <= x.w
  {
    PointwiseConv(x, cfg.dim, cfg.dim);
    var qb := Blank([x.b, cfg.dim, x.h, x.w]);
    assert qb.shape == [x.b, cfg.heads * cfg.headDim, x.h, x.w];
    GlobalQueryValue(qb, x.b, cfg.heads, cfg.headDim, x.h, x.w);
  }

  /** The plain branch needs a non-empty batch and at least one head. */
  lemma PlainTokensNeeds(cfg: AttentionConfig, x: Shape4)
    requires ValidAttention(cfg) && PlainTokens(cfg, Blank([x.b, 3 * cfg.dim, x.h, x.w])).Some?
    ensures x.b > 0 && cfg.heads > 0
  {
    var qkv := Blank([x.b, 3 * cfg.dim, x.h, x.w]);
    assert qkv.shape == [x.b, 3 * (cfg.heads * cfg.headDim), x.h, x.w];
    HeadTokensValue(qkv, x.b, 3, cfg.heads, cfg.headDim, x.h, x.w);
  }

  lemma GridForwardNeeds(cfg: AttentionConfig, x: Shape4)
    requires ValidAttention(cfg) && cfg.gridSize > 1 && x.c == cfg.dim && x.h > 0 && x.w > 0
    requires GridForward(cfg, x, Blank([x.b, 3 * cfg.dim, x.h, x.w])).Some?
    ensures Admissible(cfg, x)
  {
    GridAttentionKeepsShape(cfg, x, Blank([x.b, 3 * cfg.dim, x.h, x.w]));
    PooledTokensNeeds(cfg, x);
    GridAttentionNeedsTiling(cfg, x);
  }

  /** Conversely, the forward pass fails on every input that is not admissible. */
  lemma AttentionNeedsAdmissible(cfg: AttentionConfig, x: Shape4)
    requires ValidAttention(cfg) && AttentionShape(cfg, x).Some?
    ensures Admissible(cfg, x)
  {
    PointwiseConv(x, cfg.dim, 3 * cfg.dim);
    var qkv := Blank([x.b, 3 * cfg.dim, x.h, x.w]);
    assert Dims(Shape4(x.b, 3 * cfg.dim, x.h, x.w)) == qkv.shape;
    if cfg.gridSize > 1 {
      GridForwardNeeds(cfg, x);
    } else {
      PlainTokensNeeds(cfg, x);
    }
  }

  /** Attention's shape contract in one statement. */
  lemma AttentionShapeExact(cfg: AttentionConfig, x: Shape4)
    requires ValidAttention(cfg)
    ensures AttentionShape(cfg, x) == if Admissible(cfg, x) then Some(x) else None
  {
    if Admissible(cfg, x) {
      AttentionAdmissible(cfg, x);
    } else if AttentionShape(cfg, x).Some? {
      AttentionNeedsAdmissible(cfg, x);
    }
  }
}
