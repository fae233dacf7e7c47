/**
 * Shape bookkeeping of the whole classifier: a Block (attention, then an
 * InvertedResidual, each added back to its input), the stages of blocks, the
 * stem and Downsample layers between them, and `TransCNN.forward` from an
 * image batch to one row of class scores per image.
 */
module Network {
  import opened Wrappers
  import opened Shapes
  import opened Attention

  // ---------------------------------------------------------------------------
  // Block (TransCNN.py:107-121)

  /**
   * `Block.forward`: x + drop_path(attn(x)), then x + drop_path(conv(x)), where
   * conv is InvertedResidual(dim, dim * expansion, dim, kernel). Drop path (an
   * identity, or a per-sample mask) keeps the shape of what it is given.
   */
  function BlockShape(cfg: AttentionConfig, expansion: nat, kernel: nat, x: Shape4): Option<Shape4>
  {
    var x1 :- AttentionResidual(cfg, x);
    ConvResidual(cfg.dim, expansion, kernel, x1)
  }

  /** Line 119: x + drop_path(attn(x)). */
  function AttentionResidual(cfg: AttentionConfig, x: Shape4): Option<Shape4>
  {
    var a :- AttentionShape(cfg, x);
    Add(x, a)
  }

  /** Line 120: x + drop_path(conv(x)). */
  function ConvResidual(dim: nat, expansion: nat, kernel: nat, x: Shape4): Option<Shape4>
  {
    var c :- InvertedResidual(x, dim, dim * expansion, dim, kernel);
    Add(x, c)
  }

  lemma HeadsPositive(cfg: AttentionConfig)
    requires ValidAttention(cfg) && cfg.heads > 0
    ensures cfg.dim > 0
  {
    assert cfg.heads * cfg.headDim >= 1 * cfg.headDim;
  }

  /** The attention residual succeeds exactly on admissible inputs, and keeps their shape. */
  lemma AttentionResidualExact(cfg: AttentionConfig, x: Shape4)
    requires ValidAttention(cfg)
    ensures AttentionResidual(cfg, x) == if Admissible(cfg, x) then Some(x) else None
  {
    AttentionShapeExact(cfg, x);
    assert Add(x, x) == Some(x);
  }

  /** With an odd kernel the InvertedResidual residual keeps every non-empty map of `dim` channels. */
  lemma ConvResidualOdd(dim: nat, expansion: nat, kernel: nat, x: Shape4)
    requires dim > 0 && kernel % 2 == 1 && x.c == dim && x.h > 0 && x.w > 0
    ensures ConvResidual(dim, expansion, kernel, x) == Some(x)
  {
    InvertedResidualOdd(x, dim, dim * expansion, dim, kernel);
    assert InvertedResidual(x, dim, dim * expansion, dim, kernel) == Some(x);
    assert Add(x, x) == Some(x);
  }

  /**
   * With an even kernel the InvertedResidual loses one row and one column, so
   * the residual sum at line 120 only broadcasts on a 2 x 2 map.
   */
  lemma ConvResidualEven(dim: nat, expansion: nat, kernel: nat, x: Shape4)
    requires dim > 0 && kernel > 0 && kernel % 2 == 0 && x.c == dim && x.h > 0 && x.w > 0
    ensures ConvResidual(dim, expansion, kernel, x) == if x.h == 2 && x.w == 2 then Some(x) else None
  {
    InvertedResidualEven(x, dim, dim * expansion, dim, kernel);
    if x.h > 1 && x.w > 1 {
      var c := Shape4(x.b, dim, x.h - 1, x.w - 1);
      assert InvertedResidual(x, dim, dim * expansion, dim, kernel) == Some(c);
      assert ConvResidual(dim, expansion, kernel, x) == Add(x, c);
    }
  }

  /** With an odd kernel a block succeeds exactly on the inputs its attention admits, and keeps their shape. */
  lemma BlockOdd(cfg: AttentionConfig, expansion: nat, kernel: nat, x: Shape4)
    requires ValidAttention(cfg) && kernel % 2 == 1
    ensures BlockShape(cfg, expansion, kernel, x) == if Admissible(cfg, x) then Some(x) else None
  {
    AttentionResidualExact(cfg, x);
    if Admissible(cfg, x) {
      HeadsPositive(cfg);
      ConvResidualOdd(cfg.dim, expansion, kernel, x);
    }
  }

  /** With an even kernel a block succeeds only on admissible 2 x 2 maps. */
  lemma BlockEven(cfg: AttentionConfig, expansion: nat, kernel: nat, x: Shape4)
    requires ValidAttention(cfg) && kernel > 0 && kernel % 2 == 0
    ensures BlockShape(cfg, expansion, kernel, x)
         == if Admissible(cfg, x) && x.h == 2 && x.w == 2 then Some(x) else None
  {
    AttentionResidualExact(cfg, x);
    if Admissible(cfg, x) {
      HeadsPositive(cfg);
      ConvResidualEven(cfg.dim, expansion, kernel, x);
    }
  }

  /** A block that succeeds returns a map of its input's shape, so the next block's residual sums are well-shaped too. */
  lemma BlockKeepsShape(cfg: AttentionConfig, expansion: nat, kernel: nat, x: Shape4)
    requires ValidAttention(cfg)
    ensures BlockShape(cfg, expansion, kernel, x).Some? ==> BlockShape(cfg, expansion, kernel, x) == Some(x)
  {
    if kernel % 2 == 1 {
      BlockOdd(cfg, expansion, kernel, x);
    } else if kernel > 0 {
      BlockEven(cfg, expansion, kernel, x);
    } else {
      AttentionResidualExact(cfg, x);
    }
  }

  // ---------------------------------------------------------------------------
  // Stages (TransCNN.py:155-164, 197-209)

  /** `n` blocks applied in sequence, as in each `for block in self.blocks[s]` loop. */
  function Repeat(block: Shape4 -> Option<Shape4>, n: nat, x: Shape4): Option<Shape4>
    decreases n
  {
    if n == 0 then Some(x)
    else
      var y :- block(x);
      Repeat(block, n - 1, y)
  }

  /** A map that one block passes through unchanged passes through any number of them. */
  lemma {:induction false} RepeatFixed(block: Shape4 -> Option<Shape4>, n: nat, x: Shape4)
    requires block(x) == Some(x)
    ensures Repeat(block, n, x) == Some(x)
  {
    if n > 0 {
      RepeatFixed(block, n - 1, x);
    }
  }

  /** When every block keeps the shape of what it accepts, so does a run of them. */
  lemma {:induction false} RepeatKeepsShape(block: Shape4 -> Option<Shape4>, n: nat, x: Shape4)
    requires forall y :: block(y).Some? ==> block(y) == Some(y)
    ensures Repeat(block, n, x).Some? ==> Repeat(block, n, x) == Some(x)
  {
    if n > 0 && block(x).Some? {
      RepeatKeepsShape(block, n - 1, x);
    }
  }

  /** The blocks of one stage: all built with the same settings. */
  function Blocks(cfg: AttentionConfig, expansion: nat, kernel: nat, n: nat, x: Shape4): Option<Shape4>
  {
    Repeat(y => BlockShape(cfg, expansion, kernel, y), n, x)
  }

  /** A stage of odd-kernel blocks passes an admissible map through unchanged in shape, and fails on any other. */
  lemma BlocksOdd(cfg: AttentionConfig, expansion: nat, kernel: nat, n: nat, x: Shape4)
    requires ValidAttention(cfg) && kernel % 2 == 1
    ensures Blocks(cfg, expansion, kernel, n, x) == if n == 0 || Admissible(cfg, x) then Some(x) else None
  {
    var block := y => BlockShape(cfg, expansion, kernel, y);
    BlockOdd(cfg, expansion, kernel, x);
    if Admissible(cfg, x) {
      RepeatFixed(block, n, x);
    }
  }

  /** Whatever the kernel, a stage that succeeds keeps the shape of its input. */
  lemma BlocksKeepShape(cfg: AttentionConfig, expansion: nat, kernel: nat, n: nat, x: Shape4)
    requires ValidAttention(cfg)
    ensures Blocks(cfg, expansion, kernel, n, x).Some? ==> Blocks(cfg, expansion, kernel, n, x) == Some(x)
  {
    var block := y => BlockShape(cfg, expansion, kernel, y);
    forall y | block(y).Some?
      ensures block(y) == Some(y)
    {
      BlockKeepsShape(cfg, expansion, kernel, y);
    }
    RepeatKeepsShape(block, n, x);
  }

  /**
   * The integer arguments of `TransCNN(...)`. `img_size` and `in_chans` are
   * accepted and never used (the stem always expects 3 channels).
   */
  datatype NetConfig = NetConfig(numClasses: nat, dims: seq<nat>, headDim: nat, expansions: seq<nat>,
                                 gridSizes: seq<nat>, dsRatios: seq<nat>, depths: seq<nat>)

  /**
   * What building stage `s` needs: its depth is looked up for every stage, and
   * the per-stage settings, the kernel size list (four entries), the
   * `Attention` assertion and the depthwise convolution of each block's
   * `InvertedResidual` are only reached when the stage has a block. That
   * convolution has `dims[s] * expansion or dims[s]` groups, which PyTorch
   * rejects when it is 0, that is when `dims[s] == 0`.
   */
  predicate StageBuildable(cfg: NetConfig, s: nat)
    requires s < |cfg.dims| <= |cfg.depths|
  {
    cfg.depths[s] > 0 ==>
      && s < |KernelSizes| && s < |cfg.gridSizes| && s < |cfg.dsRatios| && s < |cfg.expansions|
      && cfg.dims[s] > 0
      && MakeAttention(cfg.dims[s], cfg.headDim, cfg.gridSizes[s], cfg.dsRatios[s]).Some?
  }

  /** A stage with a block and no channels cannot be built (TransCNN.py:17, 26). */
  lemma ZeroWidthStageUnbuildable(cfg: NetConfig, s: nat)
    requires s < |cfg.dims| <= |cfg.depths| && cfg.depths[s] > 0 && cfg.dims[s] == 0
    ensures !StageBuildable(cfg, s) && !Constructible(cfg)
  {
  }

  /**
   * `TransCNN.__init__` runs to the end: the three Downsample layers read
   * dims[0..3] and every stage can be built.
   */
  predicate Constructible(cfg: NetConfig)
  {
    && 4 <= |cfg.dims| <= |cfg.depths|
    && forall s: nat :: s < |cfg.dims| ==> StageBuildable(cfg, s)
  }

  /** The Attention settings shared by every block of stage `s`. */
  function StageAttention(cfg: NetConfig, s: nat): (a: AttentionConfig)
    requires Constructible(cfg) && s < |cfg.dims| && cfg.depths[s] > 0
    ensures ValidAttention(a) && a.dim == cfg.dims[s] && a.headDim == cfg.headDim
    ensures s < |cfg.gridSizes| && a.gridSize == cfg.gridSizes[s]
    ensures s < |cfg.dsRatios| && a.dsRatio == cfg.dsRatios[s]
  {
    assert StageBuildable(cfg, s);
    MakeAttention(cfg.dims[s], cfg.headDim, cfg.gridSizes[s], cfg.dsRatios[s]).value
  }

  /** The blocks of stage `s`, each with kernel_sizes[s] and expansions[s]. */
  function StageShape(cfg: NetConfig, s: nat, x: Shape4): Option<Shape4>
    requires Constructible(cfg) && s < 4
  {
    if cfg.depths[s] == 0 then Some(x)
    else
      assert StageBuildable(cfg, s);
      Blocks(StageAttention(cfg, s), cfg.expansions[s], KernelSizes[s], cfg.depths[s], x)
  }

  /** A stage keeps the shape of its input whenever it succeeds. */
  lemma StageKeepsShape(cfg: NetConfig, s: nat, x: Shape4)
    requires Constructible(cfg) && s < 4
    ensures StageShape(cfg, s, x).Some? ==> StageShape(cfg, s, x) == Some(x)
  {
    if cfg.depths[s] > 0 {
      assert StageBuildable(cfg, s);
      BlocksKeepShape(StageAttention(cfg, s), cfg.expansions[s], KernelSizes[s], cfg.depths[s], x);
    }
  }

  /** Stage `s` succeeds on exactly the maps its attention admits (every map when it has no block). */
  predicate StageAdmits(cfg: NetConfig, s: nat, x: Shape4)
    requires Constructible(cfg) && s < 4
  {
    cfg.depths[s] > 0 ==> Admissible(StageAttention(cfg, s), x)
  }

  lemma StageExact(cfg: NetConfig, s: nat, x: Shape4)
    requires Constructible(cfg) && s < 4
    ensures StageShape(cfg, s, x) == if StageAdmits(cfg, s, x) then Some(x) else None
  {
    if cfg.depths[s] > 0 {
      assert StageBuildable(cfg, s);
      BlocksOdd(StageAttention(cfg, s), cfg.expansions[s], KernelSizes[s], cfg.depths[s], x);
    }
  }

  // ---------------------------------------------------------------------------
  // TransCNN.forward (TransCNN.py:197-213)

  /** Stage `s` with the layer in front of it: the stem for stage 0, Downsample dims[s-1] -> dims[s] after. */
  function Level(cfg: NetConfig, s: nat, x: Shape4): Option<Shape4>
    requires Constructible(cfg) && s < 4
  {
    var e :- if s == 0 then Stem(x, cfg.dims[0]) else Downsample(x, cfg.dims[s - 1], cfg.dims[s]);
    StageShape(cfg, s, e)
  }

  /** One row of `classes` scores for each of `batch` images. */
  datatype Logits = Logits(batch: nat, classes: nat)

  /** Lines 197-209: the stem, the four stages and the three Downsample layers between them. */
  function Features(cfg: NetConfig, x: Shape4): Option<Shape4>
    requires Constructible(cfg)
  {
    var y0 :- Level(cfg, 0, x);
    var y1 :- Level(cfg, 1, y0);
    var y2 :- Level(cfg, 2, y1);
    Level(cfg, 3, y2)
  }

  /**
   * Lines 210-211: adaptive average pooling to 1 x 1 and flatten give (B, C);
   * the classifier's dropout keeps it, and `nn.Linear(dims[-1], num_classes)`
   * needs C == dims[-1].
   */
  function Classify(cfg: NetConfig, y: Shape4): Option<Logits>
    requires Constructible(cfg)
  {
    if y.c != cfg.dims[|cfg.dims| - 1] then None else Some(Logits(y.b, cfg.numClasses))
  }

  /** `TransCNN.forward`. */
  function ForwardShape(cfg: NetConfig, x: Shape4): Option<Logits>
    requires Constructible(cfg)
  {
    var y :- Features(cfg, x);
    Classify(cfg, y)
  }

  /** A level keeps the batch and produces dims[s] channels. */
  lemma LevelChannels(cfg: NetConfig, s: nat, x: Shape4)
    requires Constructible(cfg) && s < 4
    ensures Level(cfg, s, x).Some? ==> Level(cfg, s, x).value.b == x.b && Level(cfg, s, x).value.c == cfg.dims[s]
  {
    var e := if s == 0 then Stem(x, cfg.dims[0]) else Downsample(x, cfg.dims[s - 1], cfg.dims[s]);
    if e.Some? {
      if s == 0 {
        StemShape(x, cfg.dims[0]);
      } else {
        assert Conv(x, cfg.dims[s - 1], cfg.dims[s], 3, 2, 1).Some?;
        DownsampleShape(x, cfg.dims[s - 1], cfg.dims[s]);
      }
      StageKeepsShape(cfg, s, e.value);
    }
  }

  /** The features keep the batch and end with dims[3] channels. */
  lemma FeaturesChannels(cfg: NetConfig, x: Shape4)
    requires Constructible(cfg)
    ensures Features(cfg, x).Some? ==> Features(cfg, x).value.b == x.b && Features(cfg, x).value.c == cfg.dims[3]
  {
    LevelChannels(cfg, 0, x);
    var y0 := Level(cfg, 0, x);
    if y0.Some? {
      LevelChannels(cfg, 1, y0.value);
      var y1 := Level(cfg, 1, y0.value);
      if y1.Some? {
        LevelChannels(cfg, 2, y1.value);
        var y2 := Level(cfg, 2, y1.value);
        if y2.Some? {
          LevelChannels(cfg, 3, y2.value);
        }
      }
    }
  }

  /** Whenever the forward pass succeeds it returns (B, num_classes). */
  lemma ForwardShapeResult(cfg: NetConfig, x: Shape4)
    requires Constructible(cfg)
    ensures ForwardShape(cfg, x).Some? ==> ForwardShape(cfg, x) == Some(Logits(x.b, cfg.numClasses))
  {
    FeaturesChannels(cfg, x);
  }

  /** The map side length that stage `s` sees for an input side of 32 * m. */
  function StageLen(m: nat, s: nat): nat
    requires s < 4
  {
    [8, 4, 2, 1][s] * m
  }

  /** The shape of the map that stage `s` sees for a (B, 3, 32m, 32n) input. */
  function StageMap(cfg: NetConfig, b: nat, m: nat, n: nat, s: nat): Shape4
    requires Constructible(cfg) && s < 4
  {
    Shape4(b, cfg.dims[s], StageLen(m, s), StageLen(n, s))
  }

  /** The stem turns a (B, 3, 32m, 32n) batch into stage 0's (B, dims[0], 8m, 8n) map. */
  lemma FirstLevel(cfg: NetConfig, b: nat, m: nat, n: nat)
    requires Constructible(cfg) && m > 0 && n > 0
    ensures Level(cfg, 0, Shape4(b, 3, 32 * m, 32 * n))
         == if StageAdmits(cfg, 0, StageMap(cfg, b, m, n, 0)) then Some(StageMap(cfg, b, m, n, 0)) else None
  {
    var x, e := Shape4(b, 3, 32 * m, 32 * n), StageMap(cfg, b, m, n, 0);
    assert e == Shape4(b, cfg.dims[0], 8 * m, 8 * n);
    assert x.h % 4 == 0 && x.h / 4 == 8 * m;
    assert x.w % 4 == 0 && x.w / 4 == 8 * n;
    StemShape(x, cfg.dims[0]);
    assert Stem(x, cfg.dims[0]) == Some(e);
    StageExact(cfg, 0, e);
    assert Level(cfg, 0, x) == StageShape(cfg, 0, e);
  }

  /** Downsample halves stage s-1's map exactly into stage s's. */
  lemma NextLevel(cfg: NetConfig, b: nat, m: nat, n: nat, s: nat)
    requires Constructible(cfg) && m > 0 && n > 0 && 0 < s < 4
    ensures Level(cfg, s, StageMap(cfg, b, m, n, s - 1))
         == if StageAdmits(cfg, s, StageMap(cfg, b, m, n, s)) then Some(StageMap(cfg, b, m, n, s)) else None
  {
    var x, e := StageMap(cfg, b, m, n, s - 1), StageMap(cfg, b, m, n, s);
    assert x.h == 2 * e.h && x.w == 2 * e.w && e.h > 0 && e.w > 0;
    DownsampleEven(x, cfg.dims[s - 1], cfg.dims[s]);
    assert Downsample(x, cfg.dims[s - 1], cfg.dims[s]) == Some(e);
    StageExact(cfg, s, e);
    assert Level(cfg, s, x) == StageShape(cfg, s, e);
  }

  lemma FeaturesChain(cfg: NetConfig, x: Shape4, y0: Shape4, y1: Shape4, y2: Shape4, y3: Shape4)
    requires Constructible(cfg)
    requires Level(cfg, 0, x) == Some(y0) && Level(cfg, 1, y0) == Some(y1)
    requires Level(cfg, 2, y1) == Some(y2) && Level(cfg, 3, y2) == Some(y3)
    ensures Features(cfg, x) == Some(y3)
  {
  }

  /** Every stage accepts the map it is handed. */
  predicate AllStagesAdmit(cfg: NetConfig, b: nat, m: nat, n: nat)
    requires Constructible(cfg)
  {
    forall s: nat :: s < 4 ==> StageAdmits(cfg, s, StageMap(cfg, b, m, n, s))
  }

  /** The features of a (B, 3, 32m, 32n) batch are stage 3's map exactly when every stage admits its map. */
  lemma FeaturesExact(cfg: NetConfig, b: nat, m: nat, n: nat)
    requires Constructible(cfg) && m > 0 && n > 0
    ensures Features(cfg, Shape4(b, 3, 32 * m, 32 * n))
         == if AllStagesAdmit(cfg, b, m, n) then Some(StageMap(cfg, b, m, n, 3)) else None
  {
    var x := Shape4(b, 3, 32 * m, 32 * n);
    var y0, y1 := StageMap(cfg, b, m, n, 0), StageMap(cfg, b, m, n, 1);
    var y2, y3 := StageMap(cfg, b, m, n, 2), StageMap(cfg, b, m, n, 3);
    FirstLevel(cfg, b, m, n);
    NextLevel(cfg, b, m, n, 1);
    NextLevel(cfg, b, m, n, 2);
    NextLevel(cfg, b, m, n, 3);
    if !StageAdmits(cfg, 0, y0) {
      assert Level(cfg, 0, x) == None;
    } else if !StageAdmits(cfg, 1, y1) {
      assert Level(cfg, 1, y0) == None;
    } else if !StageAdmits(cfg, 2, y2) {
      assert Level(cfg, 2, y1) == None;
    } else if !StageAdmits(cfg, 3, y3) {
      assert Level(cfg, 3, y2) == None;
    } else {
      FeaturesChain(cfg, x, y0, y1, y2, y3);
      assert AllStagesAdmit(cfg, b, m, n) by {
        forall s: nat | s < 4
          ensures StageAdmits(cfg, s, StageMap(cfg, b, m, n, s))
        {
          assert s == 0 || s == 1 || s == 2 || s == 3;
        }
      }
    }
  }

  /**
   * `forward` on a (B, 3, 32m, 32n) batch: the stem and each Downsample halve
   * the map exactly, so stage s sees 2^(3-s) * m rows; the result is
   * (B, num_classes) exactly when every stage admits its map.
   */
  lemma ForwardExact(cfg: NetConfig, b: nat, m: nat, n: nat)
    requires Constructible(cfg) && |cfg.dims| == 4 && m > 0 && n > 0
    ensures ForwardShape(cfg, Shape4(b, 3, 32 * m, 32 * n))
         == if AllStagesAdmit(cfg, b, m, n) then Some(Logits(b, cfg.numClasses)) else None
  {
    var x := Shape4(b, 3, 32 * m, 32 * n);
    FeaturesExact(cfg, b, m, n);
    ForwardOf(cfg, x);
    ClassifyLast(cfg, StageMap(cfg, b, m, n, 3));
  }

  /** With four stages the classifier accepts stage 3's channels. */
  lemma ClassifyLast(cfg: NetConfig, y: Shape4)
    requires Constructible(cfg) && |cfg.dims| == 4 && y.c == cfg.dims[3]
    ensures Classify(cfg, y) == Some(Logits(y.b, cfg.numClasses))
  {
  }

  lemma ForwardOf(cfg: NetConfig, x: Shape4)
    requires Constructible(cfg)
    ensures ForwardShape(cfg, x) == if Features(cfg, x).Some? then Classify(cfg, Features(cfg, x).value) else None
  {
  }
}
