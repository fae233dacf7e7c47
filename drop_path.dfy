/**
 * The stochastic-depth schedule of TransCNN: `__init__` gives block i of stage
 * s the drop-path rate dpr[sum(depths[:s]) + i] of a linear schedule, and
 * `reset_drop_path` rewrites every block's `drop_prob` from a new schedule,
 * walking the stages with a running counter `cur`. Rates are modelled as
 * exact reals.
 */
module DropPathSchedule {
  import opened Wrappers

  // ---------------------------------------------------------------------------
  // Slots: the flat position of block i of stage s in the schedule

  /** Sum of all entries. */
  function Sum(d: seq<nat>): nat
  {
    if |d| == 0 then 0 else Sum(d[..|d| - 1]) + d[|d| - 1]
  }

  /** `sum(depths[:s])`: the number of blocks in the stages before `s`. */
  function SumPrefix(d: seq<nat>, s: nat): nat
    requires s <= |d|
  {
    Sum(d[..s])
  }

  lemma SumPrefixStep(d: seq<nat>, s: nat)
    requires s < |d|
    ensures SumPrefix(d, s + 1) == SumPrefix(d, s) + d[s]
  {
    assert d[..s + 1][..s] == d[..s];
  }

  /** Prefix sums grow with the prefix. */
  lemma {:induction false} SumPrefixMono(d: seq<nat>, s: nat, t: nat)
    requires s <= t <= |d|
    ensures SumPrefix(d, s) <= SumPrefix(d, t)
  {
    if s < t {
      SumPrefixStep(d, t - 1);
      SumPrefixMono(d, s, t - 1);
    }
  }

  lemma SumPrefixAll(d: seq<nat>)
    ensures SumPrefix(d, |d|) == Sum(d)
  {
    assert d[..|d|] == d;
  }

  /** The first slot of stage `s`: its blocks all fit in a schedule of Sum(d) rates. */
  function Base(d: seq<nat>, s: nat): (k: nat)
    requires s < |d|
    ensures k + d[s] == SumPrefix(d, s + 1) <= Sum(d)
  {
    SumPrefixStep(d, s);
    SumPrefixMono(d, s + 1, |d|);
    SumPrefixAll(d);
    SumPrefix(d, s)
  }

  /** The schedule slot of block `i` of stage `s`; it lies before the next stage's first slot. */
  function Slot(d: seq<nat>, s: nat, i: nat): (k: nat)
    requires s < |d| && i < d[s]
    ensures SumPrefix(d, s) <= k < SumPrefix(d, s + 1) && k < Sum(d)
  {
    Base(d, s) + i
  }

  /** Slots follow the blocks in stage-major order: an earlier block always has a smaller slot. */
  lemma SlotOrder(d: seq<nat>, s: nat, i: nat, s': nat, i': nat)
    requires s < |d| && i < d[s] && s' < |d| && i' < d[s']
    ensures Slot(d, s, i) < Slot(d, s', i') <==> s < s' || (s == s' && i < i')
  {
    if s < s' {
      SumPrefixMono(d, s + 1, s');
    } else if s' < s {
      SumPrefixMono(d, s' + 1, s);
    }
  }

  /** No two blocks share a slot. */
  lemma SlotInjective(d: seq<nat>, s: nat, i: nat, s': nat, i': nat)
    requires s < |d| && i < d[s] && s' < |d| && i' < d[s']
    ensures Slot(d, s, i) == Slot(d, s', i') <==> s == s' && i == i'
  {
    SlotOrder(d, s, i, s', i');
    SlotOrder(d, s', i', s, i);
  }

  /** Every slot before the end of stage n-1 belongs to a block of one of the first n stages. */
  lemma {:induction false} SlotCover(d: seq<nat>, n: nat, k: nat) returns (s: nat, i: nat)
    requires n <= |d| && k < SumPrefix(d, n)
    ensures s < n && i < d[s] && Slot(d, s, i) == k
  {
    SumPrefixStep(d, n - 1);
    if k >= SumPrefix(d, n - 1) {
      s, i := n - 1, k - SumPrefix(d, n - 1);
    } else {
      s, i := SlotCover(d, n - 1, k);
    }
  }

  // ---------------------------------------------------------------------------
  // The schedule

  /** `k` steps of size `step` from 0. */
  function Ramp(step: real, k: nat): real
  {
    if k == 0 then 0.0 else Ramp(step, k - 1) + step
  }

  /** The spacing of `torch.linspace(0, rate, n)`: rate / (n - 1), and 0 for fewer than two points. */
  function Step(rate: real, n: nat): real
  {
    if n <= 1 then 0.0 else rate / ((n - 1) as real)
  }

  /**
   * `torch.linspace(0, rate, n)` over exact reals: n evenly spaced values,
   * value k being k * rate / (n - 1).
   */
  function Linspace(rate: real, n: nat): (r: seq<real>)
    ensures |r| == n
  {
    seq(n, k requires 0 <= k < n => Ramp(Step(rate, n), k))
  }

  lemma {:induction false} RampIsProduct(step: real, k: nat)
    ensures Ramp(step, k) == (k as real) * step
  {
    if k > 0 {
      RampIsProduct(step, k - 1);
    }
  }

  /** With a non-negative step the ramp never decreases. */
  lemma {:induction false} RampMono(step: real, j: nat, k: nat)
    requires step >= 0.0 && j <= k
    ensures Ramp(step, j) <= Ramp(step, k)
  {
    if j < k {
      RampMono(step, j, k - 1);
    }
  }

  /** The schedule starts at 0 and, with two or more points, ends at the rate. */
  lemma LinspaceEnds(rate: real, n: nat)
    requires n > 0
    ensures Linspace(rate, n)[0] == 0.0
    ensures n > 1 ==> Linspace(rate, n)[n - 1] == rate
  {
    if n > 1 {
      var m := (n - 1) as real;
      RampIsProduct(Step(rate, n), n - 1);
      assert Linspace(rate, n)[n - 1] == m * (rate / m);
      DivideCancel(rate, m);
    }
  }

  lemma DivideCancel(r: real, m: real)
    requires m > 0.0
    ensures m * (r / m) == r
  {
  }

  /** For a non-negative rate every value lies in [0, rate] and the schedule never decreases. */
  lemma LinspaceMonotone(rate: real, n: nat, j: nat, k: nat)
    requires rate >= 0.0 && j <= k < n
    ensures 0.0 <= Linspace(rate, n)[j] <= Linspace(rate, n)[k] <= rate
  {
    var step := Step(rate, n);
    assert step >= 0.0 by {
      if n > 1 {
        StepNonNegative(rate, (n - 1) as real);
      }
    }
    RampMono(step, 0, j);
    RampMono(step, j, k);
    RampMono(step, k, n - 1);
    LinspaceEnds(rate, n);
  }

  lemma StepNonNegative(rate: real, m: real)
    requires rate >= 0.0 && m > 0.0
    ensures rate / m >= 0.0
  {
  }

  // ---------------------------------------------------------------------------
  // Drop-path modules

  /**
   * A block's `drop_path` module: `nn.Identity()`, which may carry a stray
   * `drop_prob` attribute once `reset_drop_path` has written one, or timm's
   * `DropPath(drop_prob)`.
   */
  datatype DropPathModule = Identity(attr: Option<real>) | DropPath(dropProb: real)

  /** Line 112: `DropPath(drop_path) if drop_path > 0. else nn.Identity()`. */
  function MakeDropPath(p: real): (m: DropPathModule)
    ensures m.DropPath? <==> p > 0.0
    ensures m.DropPath? ==> m.dropProb == p
  {
    if p > 0.0 then DropPath(p) else Identity(None)
  }

  /** The probability with which the module drops a sample's residual branch in training. */
  function Effective(m: DropPathModule): real
  {
    match m
    case Identity(_) => 0.0
    case DropPath(p) => p
  }

  /** `module.drop_prob = p`: an attribute write, whatever the module is. */
  function SetDropProb(m: DropPathModule, p: real): (m': DropPathModule)
    ensures m'.Identity? == m.Identity?
    ensures m'.Identity? ==> m'.attr == Some(p)
    ensures m'.DropPath? ==> m'.dropProb == p
  {
    match m
    case Identity(_) => Identity(Some(p))
    case DropPath(_) => DropPath(p)
  }

  /** `n` fresh modules for the rates dpr[base], ..., dpr[base + n - 1]. */
  function Row(dpr: seq<real>, base: nat, n: nat): (r: seq<DropPathModule>)
    requires base + n <= |dpr|
    ensures |r| == n
  {
    seq(n, i requires 0 <= i < n => MakeDropPath(dpr[base + i]))
  }

  /** `drop_prob` of each module of `row` written from dpr[base], dpr[base + 1], .... */
  function ResetRow(row: seq<DropPathModule>, dpr: seq<real>, base: nat): (r: seq<DropPathModule>)
    requires base + |row| <= |dpr|
    ensures |r| == |row|
  {
    seq(|row|, i requires 0 <= i < |row| => SetDropProb(row[i], dpr[base + i]))
  }

  /** The blocks list has one row per built stage, and row s has depths[s] blocks. */
  predicate Shaped(blocks: seq<seq<DropPathModule>>, d: seq<nat>)
  {
    |blocks| <= |d| && forall s :: 0 <= s < |blocks| ==> |blocks[s]| == d[s]
  }

  /** The drop-path modules `__init__` builds for `stages` stages from the schedule `dpr` of Sum(d) rates. */
  function Built(d: seq<nat>, stages: nat, dpr: seq<real>): (b: seq<seq<DropPathModule>>)
    requires stages <= |d| && |dpr| == Sum(d)
    ensures |b| == stages && Shaped(b, d)
  {
    seq(stages, s requires 0 <= s < stages => Row(dpr, Base(d, s), d[s]))
  }

  /** What `reset_drop_path` makes of `blocks` with the schedule `dpr`: each stage's row rewritten from its first slot on. */
  function Reset(blocks: seq<seq<DropPathModule>>, d: seq<nat>, dpr: seq<real>): (b: seq<seq<DropPathModule>>)
    requires Shaped(blocks, d) && |dpr| == Sum(d)
    ensures |b| == |blocks| && Shaped(b, d)
  {
    seq(|blocks|, s requires 0 <= s < |blocks| => ResetRow(blocks[s], dpr, Base(d, s)))
  }

  /** Block i of stage s is built with the rate of its slot. */
  lemma {:induction false} BuiltAt(d: seq<nat>, stages: nat, dpr: seq<real>, s: nat, i: nat)
    requires stages <= |d| && |dpr| == Sum(d) && s < stages && i < d[s]
    ensures Built(d, stages, dpr)[s][i] == MakeDropPath(dpr[Slot(d, s, i)])
  {
    BuiltRow(d, stages, dpr, s);
    RowAt(dpr, Base(d, s), d[s], i);
  }

  lemma BuiltRow(d: seq<nat>, stages: nat, dpr: seq<real>, s: nat)
    requires stages <= |d| && |dpr| == Sum(d) && s < stages
    ensures Built(d, stages, dpr)[s] == Row(dpr, Base(d, s), d[s])
  {
  }

  lemma RowAt(dpr: seq<real>, base: nat, n: nat, i: nat)
    requires base + n <= |dpr| && i < n
    ensures Row(dpr, base, n)[i] == MakeDropPath(dpr[base + i])
  {
  }

  /** Reset writes block i of stage s's `drop_prob` with the new rate of the same slot, and keeps its kind. */
  lemma {:induction false} ResetAt(blocks: seq<seq<DropPathModule>>, d: seq<nat>, dpr: seq<real>, s: nat, i: nat)
    requires Shaped(blocks, d) && |dpr| == Sum(d) && s < |blocks| && i < |blocks[s]|
    ensures Reset(blocks, d, dpr)[s][i] == SetDropProb(blocks[s][i], dpr[Slot(d, s, i)])
  {
    assert Reset(blocks, d, dpr)[s] == ResetRow(blocks[s], dpr, Base(d, s));
  }

  // ---------------------------------------------------------------------------
  // What a reset does to a freshly built network

  /** Block (0, 0) sits at slot 0, where the linear schedule is 0, so it is built as an `nn.Identity` whatever the rate. */
  lemma FirstBlockIdentity(d: seq<nat>, stages: nat, rate: real)
    requires 0 < stages <= |d| && d[0] > 0
    ensures Built(d, stages, Linspace(rate, Sum(d)))[0][0] == Identity(None)
  {
    assert Slot(d, 0, 0) == 0 by { assert d[..0] == []; }
    LinspaceEnds(rate, Sum(d));
    BuiltAt(d, stages, Linspace(rate, Sum(d)), 0, 0);
  }

  /** Resetting with the schedule the network was built with keeps every block's effective rate. */
  lemma ResetSameRate(d: seq<nat>, stages: nat, dpr: seq<real>, s: nat, i: nat)
    requires stages <= |d| && |dpr| == Sum(d) && s < stages && i < d[s]
    ensures Shaped(Built(d, stages, dpr), d)
    ensures Effective(Reset(Built(d, stages, dpr), d, dpr)[s][i]) == Effective(Built(d, stages, dpr)[s][i])
  {
    BuiltAt(d, stages, dpr, s, i);
    ResetAt(Built(d, stages, dpr), d, dpr, s, i);
  }

  /**
   * A reset takes effect only on blocks that were built as `DropPath`: on an
   * `nn.Identity` block it sets an attribute the module never reads.
   */
  lemma ResetEffective(blocks: seq<seq<DropPathModule>>, d: seq<nat>, dpr: seq<real>, s: nat, i: nat)
    requires Shaped(blocks, d) && |dpr| == Sum(d) && s < |blocks| && i < |blocks[s]|
    ensures Effective(Reset(blocks, d, dpr)[s][i]) == if blocks[s][i].DropPath? then dpr[Slot(d, s, i)] else 0.0
  {
    ResetAt(blocks, d, dpr, s, i);
  }

  /** A module built for a non-negative rate drops with exactly that rate. */
  lemma MakeDropPathEffective(p: real)
    requires p >= 0.0
    ensures Effective(MakeDropPath(p)) == p
  {
  }

  /** For a non-negative rate a freshly built block drops with exactly the rate of its slot. */
  lemma BuiltEffective(d: seq<nat>, stages: nat, rate: real, s: nat, i: nat)
    requires stages <= |d| && s < stages && i < d[s] && rate >= 0.0
    ensures Effective(Built(d, stages, Linspace(rate, Sum(d)))[s][i]) == Linspace(rate, Sum(d))[Slot(d, s, i)]
  {
    var dpr := Linspace(rate, Sum(d));
    var k := Slot(d, s, i);
    LinspaceMonotone(rate, Sum(d), k, k);
    BuiltAt(d, stages, dpr, s, i);
    MakeDropPathEffective(dpr[k]);
  }

  /**
   * As written, `reset_drop_path` cannot raise a rate that `__init__` built as
   * zero: a network of one stage of two blocks built with rate 0 and reset to
   * 0.5 still never drops its second block, where one built with 0.5 does.
   */
  lemma ResetFromZeroHasNoEffect()
    ensures Shaped(Built([2], 1, Linspace(0.0, 2)), [2])
    ensures Effective(Reset(Built([2], 1, Linspace(0.0, 2)), [2], Linspace(0.5, 2))[0][1]) == 0.0
    ensures Effective(Built([2], 1, Linspace(0.5, 2))[0][1]) == 0.5
  {
    assert Sum([2]) == 2;
    assert Slot([2], 0, 1) == 1 by { assert [2][..0] == []; }
    LinspaceEnds(0.0, 2);
    LinspaceEnds(0.5, 2);
    var built := Built([2], 1, Linspace(0.0, 2));
    BuiltAt([2], 1, Linspace(0.0, 2), 0, 1);
    assert built[0][1] == Identity(None);
    ResetEffective(built, [2], Linspace(0.5, 2), 0, 1);
    BuiltAt([2], 1, Linspace(0.5, 2), 0, 1);
  }

  // ---------------------------------------------------------------------------
  // The model object

  class TransCNN {
    /** `self.depths`. */
    var depths: seq<nat>
    /** The `drop_path` module of `self.blocks[stage][idx]`. */
    var blocks: seq<seq<DropPathModule>>

    predicate Valid()
      reads this
    {
      Shaped(blocks, depths)
    }

    /** The stochastic-depth part of `__init__` (lines 155-164) for `stages` = len(dims) stages. */
    constructor (depths: seq<nat>, stages: nat, dropPathRate: real)
      requires stages <= |depths|
      ensures Valid() && this.depths == depths
      ensures blocks == Built(depths, stages, Linspace(dropPathRate, Sum(depths)))
    {
      var dpr := Linspace(dropPathRate, Sum(depths));
      var built: seq<seq<DropPathModule>> := [];
      var stage := 0;
      while stage < stages
        invariant stage <= stages && |built| == stage
        invariant forall s :: 0 <= s < stage ==> built[s] == Row(dpr, Base(depths, s), depths[s])
      {
        var base := Base(depths, stage);
        var row: seq<DropPathModule> := [];
        var i := 0;
        while i < depths[stage]
          invariant i <= depths[stage] && |row| == i
          invariant forall j :: 0 <= j < i ==> row[j] == MakeDropPath(dpr[base + j])
        {
          row := row + [MakeDropPath(dpr[base + i])];
          i := i + 1;
        }
        assert row == Row(dpr, base, depths[stage]);
        built := built + [row];
        stage := stage + 1;
      }
      this.depths := depths;
      blocks := built;
    }

    /** The inner loop of `reset_drop_path`: `drop_prob` of stage `stage`'s blocks from dpr[cur] on. */
    method ResetStage(stage: nat, dpr: seq<real>, cur: nat)
      requires Valid() && stage < |blocks| && cur + depths[stage] <= |dpr|
      modifies this
      ensures Valid() && depths == old(depths)
      ensures blocks == old(blocks)[stage := ResetRow(old(blocks)[stage], dpr, cur)]
    {
      var idx := 0;
      while idx < depths[stage]
        invariant depths == old(depths) && idx <= depths[stage]
        invariant |blocks| == |old(blocks)|
        invariant forall s :: 0 <= s < |blocks| && s != stage ==> blocks[s] == old(blocks)[s]
        invariant |blocks[stage]| == depths[stage]
        invariant forall j :: 0 <= j < idx ==> blocks[stage][j] == SetDropProb(old(blocks)[stage][j], dpr[cur + j])
        invariant forall j :: idx <= j < depths[stage] ==> blocks[stage][j] == old(blocks)[stage][j]
      {
        blocks := blocks[stage := blocks[stage][idx := SetDropProb(blocks[stage][idx], dpr[cur + idx])]];
        idx := idx + 1;
      }
      assert blocks[stage] == ResetRow(old(blocks)[stage], dpr, cur);
    }

    /**
     * `reset_drop_path` (lines 177-183): the loop keeps `cur` equal to
     * sum(depths[:stage]), so `dpr[cur + idx]` is block (stage, idx)'s slot;
     * only `drop_prob` is written, and an `nn.Identity` stays one.
     */
    method ResetDropPath(rate: real)
      requires Valid()
      modifies this
      ensures Valid() && depths == old(depths)
      ensures blocks == Reset(old(blocks), depths, Linspace(rate, Sum(depths)))
    {
      var dpr := Linspace(rate, Sum(depths));
      var cur := 0;
      var stage := 0;
      while stage < |blocks|
        invariant stage <= |blocks| == |old(blocks)| && depths == old(depths) && Valid()
        invariant cur == SumPrefix(depths, stage)
        invariant forall s :: 0 <= s < |blocks| ==>
          blocks[s] == if s < stage then Reset(old(blocks), depths, dpr)[s] else old(blocks)[s]
      {
        assert Base(depths, stage) == cur;
        ResetStage(stage, dpr, cur);
        cur := cur + depths[stage];
        stage := stage + 1;
      }
    }

    /** The corrected inner loop: stage `stage`'s blocks rebuilt for dpr[cur] on. */
    method RebuildStage(stage: nat, dpr: seq<real>, cur: nat)
      requires Valid() && stage < |blocks| && cur + depths[stage] <= |dpr|
      modifies this
      ensures Valid() && depths == old(depths)
      ensures blocks == old(blocks)[stage := Row(dpr, cur, depths[stage])]
    {
      var idx := 0;
      while idx < depths[stage]
        invariant depths == old(depths) && idx <= depths[stage]
        invariant |blocks| == |old(blocks)|
        invariant forall s :: 0 <= s < |blocks| && s != stage ==> blocks[s] == old(blocks)[s]
        invariant |blocks[stage]| == depths[stage]
        invariant forall j :: 0 <= j < idx ==> blocks[stage][j] == MakeDropPath(dpr[cur + j])
      {
        blocks := blocks[stage := blocks[stage][idx := MakeDropPath(dpr[cur + idx])]];
        idx := idx + 1;
      }
      assert blocks[stage] == Row(dpr, cur, depths[stage]);
    }

    /** The corrected reset: every block rebuilt for its new rate, so the network equals a fresh build. */
    method ResetDropPathRebuilt(rate: real)
      requires Valid()
      modifies this
      ensures Valid() && depths == old(depths)
      ensures blocks == Built(depths, |old(blocks)|, Linspace(rate, Sum(depths)))
    {
      var dpr := Linspace(rate, Sum(depths));
      var cur := 0;
      var stage := 0;
      while stage < |blocks|
        invariant stage <= |blocks| == |old(blocks)| && depths == old(depths) && Valid()
        invariant cur == SumPrefix(depths, stage)
        invariant forall s :: 0 <= s < |blocks| ==>
          blocks[s] == if s < stage then Built(depths, |blocks|, dpr)[s] else old(blocks)[s]
      {
        assert Base(depths, stage) == cur;
        RebuildStage(stage, dpr, cur);
        cur := cur + depths[stage];
        stage := stage + 1;
      }
    }
  }
}
