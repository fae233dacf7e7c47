/**
 * The four registered configurations (TransCNN.py:216-249) as instances of
 * the forward-pass shape theorem: on a (B, 3, 32m, 32n) batch each of them
 * returns (B, 1000) exactly when B > 0 and 128 divides both sides of the image.
 */
module Presets {
  import opened Wrappers
  import opened Layout
  import opened Shapes
  import opened Attention
  import opened Network

  const Tiny: NetConfig := NetConfig(1000, [64, 128, 256, 512], 64, [4, 4, 4, 4], [8, 8, 8, 1], [8, 4, 2, 1], [2, 2, 4, 2])
  const Small: NetConfig := NetConfig(1000, [64, 128, 256, 512], 64, [4, 4, 6, 6], [8, 8, 8, 1], [8, 4, 2, 1], [3, 4, 8, 3])
  const Medium: NetConfig := NetConfig(1000, [64, 128, 320, 640], 64, [4, 4, 6, 6], [8, 8, 8, 1], [8, 4, 2, 1], [3, 4, 12, 3])
  const Large: NetConfig := NetConfig(1000, [64, 128, 384, 768], 64, [4, 4, 6, 6], [8, 8, 8, 1], [8, 4, 2, 1], [3, 4, 16, 3])

  predicate IsPreset(cfg: NetConfig)
  {
    cfg == Tiny || cfg == Small || cfg == Medium || cfg == Large
  }

  /** What the four presets share: four stages of 64-wide heads, grid sizes 8, 8, 8, 1 and pooling ratios 8, 4, 2, 1. */
  predicate PresetLike(cfg: NetConfig)
  {
    && cfg.numClasses == 1000 && |cfg.dims| == 4 && |cfg.depths| == 4 && cfg.headDim == 64
    && cfg.gridSizes == [8, 8, 8, 1] && cfg.dsRatios == [8, 4, 2, 1] && |cfg.expansions| == 4
    && (forall s :: 0 <= s < 4 ==> cfg.depths[s] > 0 && cfg.dims[s] > 0 && cfg.dims[s] % 64 == 0)
  }

  lemma PresetsAreLike(cfg: NetConfig)
    requires IsPreset(cfg)
    ensures PresetLike(cfg)
  {
  }

  /** Every preset can be built: each stage width is a multiple of head_dim 64. */
  lemma PresetConstructible(cfg: NetConfig)
    requires PresetLike(cfg)
    ensures Constructible(cfg)
  {
    forall s: nat | s < |cfg.dims|
      ensures StageBuildable(cfg, s)
    {
      assert cfg.dims[s] % cfg.headDim == 0;
    }
  }

  /** Stage s's attention in a preset: dims[s] / 64 heads, at least one. */
  lemma PresetAttention(cfg: NetConfig, s: nat)
    requires PresetLike(cfg) && s < 4
    ensures Constructible(cfg) && cfg.depths[s] > 0
    ensures StageAttention(cfg, s).heads > 0
    ensures StageAttention(cfg, s).gridSize == [8, 8, 8, 1][s] && StageAttention(cfg, s).dsRatio == [8, 4, 2, 1][s]
  {
    PresetConstructible(cfg);
    var a := StageAttention(cfg, s);
    assert a.heads * 64 == cfg.dims[s] > 0;
  }

  /**
   * Which stages admit their maps: stage 0 always (8m rows in 8 x 8 windows),
   * stage 1 when m is even (4m rows), stage 2 when 4 divides m (2m rows), and
   * stage 3 (plain global attention) always, each given a non-empty batch.
   */
  lemma {:induction false} PresetStage(cfg: NetConfig, b: nat, m: nat, n: nat, s: nat)
    requires PresetLike(cfg) && m > 0 && n > 0 && s < 4
    ensures Constructible(cfg)
    ensures StageAdmits(cfg, s, StageMap(cfg, b, m, n, s))
        <==> b > 0 && (s == 1 ==> m % 2 == 0 && n % 2 == 0) && (s == 2 ==> m % 4 == 0 && n % 4 == 0)
  {
    PresetAttention(cfg, s);
    var y := StageMap(cfg, b, m, n, s);
    assert y.h == [8, 4, 2, 1][s] * m && y.w == [8, 4, 2, 1][s] * n;
    if s < 3 {
      GridTiles(m, s);
      GridTiles(n, s);
    }
  }

  lemma FourTiles(m: nat)
    ensures (4 * m) % 8 == 0 <==> m % 2 == 0
  {
    var a: int, r: int := m / 2, m % 2;
    assert 4 * m == a * 8 + 4 * r;
    DivModOf(a, 8, 4 * r);
  }

  lemma TwoTiles(m: nat)
    ensures (2 * m) % 8 == 0 <==> m % 4 == 0
  {
    var a: int, r: int := m / 4, m % 4;
    assert 2 * m == a * 8 + 2 * r;
    DivModOf(a, 8, 2 * r);
  }

  /** Stage s < 3 sees [8, 4, 2][s] * m rows; 8 x 8 windows tile them exactly when m is a multiple of [1, 2, 4][s]. */
  lemma GridTiles(m: nat, s: nat)
    requires s < 3
    ensures StageLen(m, s) % 8 == 0 <==> (s == 1 ==> m % 2 == 0) && (s == 2 ==> m % 4 == 0)
  {
    if s == 0 {
      DivModOf(m, 8, 0);
    } else if s == 1 {
      assert StageLen(m, s) == 4 * m;
      FourTiles(m);
    } else {
      assert StageLen(m, s) == 2 * m;
      TwoTiles(m);
    }
  }

  /** In a preset every stage admits its map exactly when B > 0 and 4 divides m and n. */
  lemma PresetStages(cfg: NetConfig, b: nat, m: nat, n: nat)
    requires PresetLike(cfg) && m > 0 && n > 0
    ensures Constructible(cfg)
    ensures AllStagesAdmit(cfg, b, m, n) <==> b > 0 && m % 4 == 0 && n % 4 == 0
  {
    PresetConstructible(cfg);
    if b > 0 && m % 4 == 0 && n % 4 == 0 {
      forall s: nat | s < 4
        ensures StageAdmits(cfg, s, StageMap(cfg, b, m, n, s))
      {
        PresetStage(cfg, b, m, n, s);
      }
    } else if b == 0 {
      PresetStage(cfg, b, m, n, 0);
    } else {
      PresetStage(cfg, b, m, n, 1);
      PresetStage(cfg, b, m, n, 2);
    }
  }

  /** On a (B, 3, 32m, 32n) batch a preset classifies exactly when B > 0 and 4 divides m and n. */
  lemma PresetForward(cfg: NetConfig, b: nat, m: nat, n: nat)
    requires IsPreset(cfg) && m > 0 && n > 0
    ensures Constructible(cfg)
    ensures ForwardShape(cfg, Shape4(b, 3, 32 * m, 32 * n))
         == if b > 0 && m % 4 == 0 && n % 4 == 0 then Some(Logits(b, 1000)) else None
  {
    PresetsAreLike(cfg);
    PresetStages(cfg, b, m, n);
    ForwardExact(cfg, b, m, n);
  }

  /** TransCNN_Tiny maps a (2, 3, 256, 256) batch to (2, 1000). */
  lemma TinyAt256()
    ensures Constructible(Tiny)
    ensures ForwardShape(Tiny, Shape4(2, 3, 256, 256)) == Some(Logits(2, 1000))
  {
    PresetForward(Tiny, 2, 8, 8);
  }

  /**
   * At 224 x 224 stage 1 sees a 28 x 28 map, which 8 x 8 windows do not tile,
   * so the reshape at line 73 fails.
   */
  lemma TinyAt224()
    ensures Constructible(Tiny)
    ensures ForwardShape(Tiny, Shape4(2, 3, 224, 224)) == None
  {
    PresetForward(Tiny, 2, 7, 7);
  }

  // ---------------------------------------------------------------------------
  // Eval-mode BatchNorm

  /**
   * The values a BatchNorm2d normalises per channel of a map. In training mode
   * BatchNorm2d raises unless there is more than one; the shape model above
   * follows eval mode and does not check it.
   */
  function ValuesPerChannel(x: Shape4): (r: nat)
    ensures r > 1 <==> x.b > 0 && x.h > 0 && x.w > 0 && !(x.b == 1 && x.h == 1 && x.w == 1)
  {
    if x.b == 0 || x.h == 0 || x.w == 0 then 0
    else
      assert x.b * x.h >= x.b && x.b * x.h * x.w >= x.b * x.h;
      assert x.b * x.h == 1 ==> x.b == 1 && x.h == 1;
      x.b * x.h * x.w
  }

  /** The constructor defaults (TransCNN.py:140-143): head width 32 and plain global attention in every stage. */
  const Defaults: NetConfig := NetConfig(1000, [64, 128, 256, 512], 32, [4, 4, 6, 6], [1, 1, 1, 1], [8, 4, 2, 1], [3, 4, 8, 3])

  /**
   * With the defaults a single 32 x 32 image classifies in eval mode, although
   * stage 3 (and ds4's BatchNorms) see a 1 x 1 map of one image: one value per
   * channel, which a training-mode BatchNorm2d rejects.
   */
  lemma DefaultsAt32()
    ensures Constructible(Defaults)
    ensures ForwardShape(Defaults, Shape4(1, 3, 32, 32)) == Some(Logits(1, 1000))
    ensures ValuesPerChannel(StageMap(Defaults, 1, 1, 1, 3)) == 1
  {
    var cfg := Defaults;
    forall s: nat | s < |cfg.dims|
      ensures StageBuildable(cfg, s)
    {
      assert cfg.dims[s] % 32 == 0;
    }
    forall s: nat | s < 4
      ensures StageAdmits(cfg, s, StageMap(cfg, 1, 1, 1, s))
    {
      var a := StageAttention(cfg, s);
      assert a.heads * 32 == cfg.dims[s];
    }
    ForwardExact(cfg, 1, 1, 1);
  }

  /**
   * A preset never meets that restriction: on every input it classifies, each
   * stage map (the input and output of every Block's BatchNorms, and of each
   * Downsample's) is at least 4 x 4, the pooled key/value map of each grid
   * stage is m x n, and the stem's inner map is 16m x 16n.
   */
  lemma PresetNormMaps(cfg: NetConfig, b: nat, m: nat, n: nat)
    requires PresetLike(cfg) && m > 0 && n > 0 && b > 0 && m % 4 == 0 && n % 4 == 0
    ensures Constructible(cfg)
    ensures forall s :: 0 <= s < 4 ==> StageMap(cfg, b, m, n, s).h >= 4 && StageMap(cfg, b, m, n, s).w >= 4
    ensures forall s :: 0 <= s < 4 ==> ValuesPerChannel(StageMap(cfg, b, m, n, s)) >= 16
    ensures forall s :: 0 <= s < 3 ==> StageLen(m, s) / cfg.dsRatios[s] == m && StageLen(n, s) / cfg.dsRatios[s] == n
    ensures Conv(Shape4(b, 3, 32 * m, 32 * n), 3, 16, 3, 2, 1) == Some(Shape4(b, 16, 16 * m, 16 * n))
  {
    PresetConstructible(cfg);
    forall s | 0 <= s < 4
      ensures ValuesPerChannel(StageMap(cfg, b, m, n, s)) >= 16
    {
      var y := StageMap(cfg, b, m, n, s);
      assert y.h >= 4 && y.w >= 4;
      assert y.b * y.h >= 4;
      assert y.b * y.h * y.w >= 4 * y.w >= 16;
    }
    forall s | 0 <= s < 3
      ensures StageLen(m, s) / cfg.dsRatios[s] == m && StageLen(n, s) / cfg.dsRatios[s] == n
    {
      var k := [8, 4, 2][s];
      assert cfg.dsRatios[s] == k && StageLen(m, s) == k * m && StageLen(n, s) == k * n;
      DivModOf(m, k, 0);
      DivModOf(n, k, 0);
    }
    StridedConvLen(32 * m);
    StridedConvLen(32 * n);
  }
}
