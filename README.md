# TransCNN: index layout, shape arithmetic and drop-path schedule

TransCNN (HAT-Net) is a PyTorch image classifier. It has a convolutional stem, four stages
of `Block`s (an `Attention` module, then an `InvertedResidual` convolution, each added back to
its input) with a `Downsample` layer between consecutive stages, and a pooled linear
classifier. This project models the integer bookkeeping that decides whether the network is
wired correctly, and proves properties of that model:

- **Attention index layout** (`attention_layout.dfy`, on top of `layout.dfy` and `tensors.dfy`).
  - A tensor is a flat row-major sequence with a shape.
  - `reshape` keeps the data and changes only the shape. It follows PyTorch's rules: at most one
    `-1`, whose length is the element count divided by the known product, which must be non-zero.
  - `permute` and `transpose` reorder the axes of the multi-index, and `t[k]` selects along the
    first axis.
  - The grid split (lines 72-76) and the grid merge (lines 81-83) are written with exactly these
    operations. So are the token layouts of lines 86-95 and the restoring chain of line 99.
  - They are proved to be inverse, element by element and on whole tensors.
  - Tokens are proved to share an attention group exactly when they share batch, head and
    window.
- **Shape arithmetic** (`shapes.dfy`, `attention.dfy`, `network.dfy`, `presets.dfy`).
  - The output-length rule `floor((n + 2p - k) / s) + 1` of `Conv2d`, `MaxPool2d` and
    `AvgPool2d`, and broadcasting for `+`.
  - `InvertedResidual`, `Downsample`, the stem, `Attention` (both modes, as shapes only), `Block`,
    the stages and `TransCNN.forward`. Each is a function returning `None` where PyTorch would
    raise in eval mode (see "## Left out" for training-mode BatchNorm).
  - For a `(B, 3, 32m, 32n)` batch the whole forward pass is characterised exactly.
  - The four registered presets are instances of that characterisation.
- **Stochastic-depth schedule** (`drop_path.dfy`).
  - A class `TransCNN` leaves every layer out except the `drop_path` module of each block.
  - Its constructor builds the per-stage rows with loops, as `__init__` does.
  - The imperative `ResetDropPath` walks the stages with the running counter `cur`, as
    `reset_drop_path` does.
  - Block `i` of stage `s` is proved to use schedule slot `sum(depths[:s]) + i` in both paths.
  - The slots are proved to be distinct, ordered stage-major and covering `0 .. sum(depths) - 1`.

Elements of tensors are of an arbitrary type `T`, so every layout theorem holds whatever the
values are. The shape-level model of `Attention` runs the same layout chains on a placeholder
tensor, so each chain has a single definition.

All source references below are to `TransCNN.py`.

Where a simpler description of the network and the code differ, the model follows the code:

- `Downsample` adds a stride-2 convolution (`ceil(H/2)` rows) to a 2x2 max-pool (`floor(H/2)`
  rows). Broadcasting makes that sum well-shaped for every even `H > 1` and also for `H = 3`
  (lengths 2 and 1).
- A batch of size 0 fails inside `Attention`. The `-1` of the reshapes at lines 86, 89 and 93
  cannot be inferred when the known lengths multiply to 0.
- The pooled key/value branch needs `ds_ratio <= H` and `ds_ratio <= W`. The average pool at
  line 88 needs a window that fits.
- An even `kernel_size` would shrink the map by one in `InvertedResidual`. A `Block` with one
  then only works on a 2x2 map (broadcasting a 1x1 result back). The configured sizes
  5, 3, 5, 3 are all odd.
- Each preset classifies a `(B, 3, 32m, 32n)` batch exactly when `B > 0` and 4 divides `m` and
  `n`: height and width must be multiples of 128. At 224x224, stage 1 sees a 28x28 map, which
  8x8 windows do not tile.

## Model

| member | source | states |
|---|---|---|
| Tensors.ResolveShape | TransCNN.py:76 | a resolved shape has the requested rank and element count, keeps every fixed length, and exists only for a spec with at most one -1 |
| Tensors.Reshape | TransCNN.py:73-76 | a successful reshape keeps the data and the rank requested, and gives every non-(-1) axis its requested length |
| Tensors.ReshapeFixed | TransCNN.py:73-74 | a reshape without -1 succeeds exactly when the element counts agree, and then only relabels the data |
| Tensors.ReshapeInferred | TransCNN.py:76 | a reshape with one -1 succeeds exactly when the known lengths have a non-zero product dividing the element count; the -1 axis gets the quotient |
| Tensors.WrapDim | TransCNN.py:87 | a dimension index is valid exactly in -rank .. rank-1, and negative ones count from the end |
| Tensors.Permute | TransCNN.py:75 | permute succeeds exactly when every dim wraps into range and the wrapped dims name each axis once; the result is the tensor permuted by the wrapped dims, and its axis k has the length of input axis dims[k] |
| Tensors.PermuteNat | TransCNN.py:75 | non-negative dims forming a permutation are used as given, so permute(1, 0, 2, 4, 6, 5, 7, 3) succeeds with exactly that order |
| Tensors.PermuteAt | TransCNN.py:75 | element j of a permuted tensor is the source element at the index scattered back through the permutation |
| Tensors.Transpose | TransCNN.py:87 | transpose succeeds exactly when both dimension indices wrap into range |
| Tensors.SelectAt | TransCNN.py:77 | element j of t[k] is element [k] + j of t |
| Layout.UnflattenFlatten | TransCNN.py:73-76 | row-major flattening of an in-bounds multi-index is undone by unflattening, so reshape never moves an element |
| AttentionLayout.WindowSplitSucceeds | TransCNN.py:72-76 | for a non-empty qkv map the grid split succeeds exactly when grid_size divides both H and W |
| AttentionLayout.WindowSplitRagged | TransCNN.py:72-73 | when grid_size does not divide H or W, the reshape at line 73 fails |
| AttentionLayout.WindowSplitValue | TransCNN.py:72-76 | on a (B, 3C, gh*gs, gw*gs) map the grid split succeeds, with a (3, B*heads*gh*gw, gs*gs, hd) result |
| AttentionLayout.WindowSplitAt | TransCNN.py:72-76 | channel part*C + n*hd + d at row i*gs+y, column j*gs+x of batch b lands in group GroupIndex(b, n, i, j), token y*gs+x, feature d |
| AttentionLayout.GroupIndexUnique | TransCNN.py:75-76 | distinct (batch, head, window row, window column) get distinct groups |
| AttentionLayout.TokenIndexUnique | TransCNN.py:75-76 | the gs*gs tokens of a window are numbered row-major, in range and without collisions |
| AttentionLayout.SameGroupIffSameWindow | TransCNN.py:75-80 | two positions fall in the same attention group iff they share batch, head, h/gs and w/gs |
| AttentionLayout.WindowMergeValue | TransCNN.py:81-83 | on a (B*heads*gh*gw, gs*gs, hd) input the merge chain succeeds |
| AttentionLayout.WindowMergeAt | TransCNN.py:81-83 | output channel n*hd+d at row i*gs+y, column j*gs+x of batch b is feature d of token y*gs+x of group GroupIndex(b, n, i, j) |
| AttentionLayout.GroupsRoundTrip | TransCNN.py:72-83 | merging part q, k or v of the split gives back channels part*C .. part*C+C-1 of the qkv map unchanged |
| AttentionLayout.WindowRoundTrip | TransCNN.py:72-83 | the split of lines 72-76 followed by the merge of lines 81-83 is the identity on positions, for each of q, k and v |
| AttentionLayout.GlobalQueryValue | TransCNN.py:86-87 | the query layout succeeds exactly when B, heads and head_dim are positive, and yields (B, heads, H*W, hd) tokens |
| AttentionLayout.QueryTokensAt | TransCNN.py:86-87 | query token h*W+w of head n, feature d, is channel n*hd+d of the map at (h, w) |
| AttentionLayout.HeadTokensValue | TransCNN.py:89-94 | the key/value and plain qkv layouts succeed exactly when B, parts, heads and head_dim are positive |
| AttentionLayout.KeyTokensAt | TransCNN.py:89-94 | token h*W+w of part p, head n, feature d, is channel p*C + n*hd + d of the map at (h, w) |
| AttentionLayout.KeyPartTokenAt | TransCNN.py:89-95 | the same, after k, v = kv[0], kv[1] or q, k, v = qkv[0..2] |
| AttentionLayout.GlobalMergeValue | TransCNN.py:99 | the restoring transpose and reshape always succeed on (B, heads, H*W, hd) tokens |
| AttentionLayout.MergeTokensAt | TransCNN.py:99 | restored channel n*hd+d at (h, w) is feature d of token h*W+w of head n |
| AttentionLayout.GlobalRoundTrip | TransCNN.py:86-99 | the query layout of lines 86-87 followed by line 99 returns the (B, C, H, W) map unchanged |
| AttentionLayout.PartTokensRoundTrip | TransCNN.py:89-99 | part p of the token layout, restored, is channels p*C .. p*C+C-1 of the map |
| AttentionLayout.PartRoundTrip | TransCNN.py:89-99 | the layouts of lines 89-90 and 93-94 followed by line 99 give back each part's channels unchanged |
| Shapes.OutLen | TransCNN.py:26 | the output length exists iff kernel and stride are positive and the kernel fits the padded input, and is then an r > 0 with (r-1)*s + k <= n + 2p < r*s + k |
| Shapes.OutLenUnique | TransCNN.py:26 | any r meeting that inequality is the output length |
| Shapes.Conv | TransCNN.py:21-31 | a convolution succeeds iff the input channels match and both sides have an output length; it keeps the batch and gives cout channels |
| Shapes.Pool | TransCNN.py:128 | a pool succeeds iff padding is at most half the kernel and both sides have an output length; it keeps batch and channels |
| Shapes.BroadcastLen | TransCNN.py:137 | two lengths broadcast iff they are equal or one is 1, to the one that is not 1 |
| Shapes.Add | TransCNN.py:137 | x + y is well-shaped iff every axis broadcasts, and adding equal shapes keeps the shape |
| Shapes.Or | TransCNN.py:17-18 | `v or d`: v when non-zero, else d |
| Shapes.InvertedResidual | TransCNN.py:13-43 | succeeds only for in_dim channels, non-empty sides, a positive kernel and a non-zero hidden width |
| Shapes.SamePaddingLen | TransCNN.py:19-26 | padding (k-1)//2 at stride 1 keeps an odd kernel's length and shortens an even kernel's by one |
| Shapes.InvertedResidualOdd | TransCNN.py:19-43 | with an odd kernel the output is (B, out_dim or in_dim, H, W) |
| Shapes.InvertedResidualEven | TransCNN.py:19-43 | with an even kernel the output is one shorter on each side, and fails on a side of 1 |
| Shapes.InvertedResidualKeepsSize | TransCNN.py:19-43 | the spatial size is preserved iff the kernel is odd |
| Shapes.KernelSizesOdd | TransCNN.py:156 | the configured kernel sizes 5, 3, 5, 3 are positive and odd |
| Shapes.StridedConvLen | TransCNN.py:127 | the 3x3 stride-2 padding-1 convolution gives ceil(n/2) for n > 0 |
| Shapes.HalvingPoolLen | TransCNN.py:128 | the 2x2 stride-2 max-pool gives floor(n/2) for n > 1 |
| Shapes.DownsampleLen | TransCNN.py:135-137 | ceil(n/2) and floor(n/2) broadcast iff n is even or 3, to ceil(n/2) |
| Shapes.DownsampleShape | TransCNN.py:124-138 | Downsample succeeds iff both sides are even or 3, giving (B, out_dim, ceil(H/2), ceil(W/2)) |
| Shapes.DownsampleEven | TransCNN.py:124-138 | on even sides Downsample gives (B, out_dim, H/2, W/2) |
| Shapes.DownsampleOddFails | TransCNN.py:134-137 | an odd height of 5 or more makes x1 + x2 ill-shaped |
| Shapes.StemShape | TransCNN.py:148-153 | the stem succeeds iff the input has 3 channels and non-empty sides, giving ceil(ceil(H/2)/2), which is H/4 when 4 divides H |
| Attention.MakeAttention | TransCNN.py:49-50 | construction succeeds iff head_dim > 0 divides dim, and then num_heads * head_dim == dim |
| Attention.ChannelOf | TransCNN.py:86 | every channel c < dim is head*head_dim + d with head < num_heads and d < head_dim |
| Attention.ChannelUnique | TransCNN.py:86 | that decomposition is unique |
| Attention.ChannelInRange | TransCNN.py:49-50 | every (head, d) pair names a channel below dim |
| Attention.MatMul | TransCNN.py:79 | a batched product is well-shaped iff ranks agree, batch axes agree and the inner lengths match |
| Attention.AttendShapeValue | TransCNN.py:97-99 | (q @ k^T) @ v on (.., n, d), (.., m, d), (.., m, e) tokens gives (.., n, e) |
| Attention.GridAttentionValue | TransCNN.py:72-84 | on an admissible map the grid branch, residual and norm give back (B, C, H, W) |
| Attention.GridAttentionKeepsShape | TransCNN.py:72-84 | whenever the grid branch succeeds it keeps the input's shape |
| Attention.GridAttentionNeedsTiling | TransCNN.py:72-76 | a non-empty map gets through the grid branch only if grid_size divides H and W |
| Attention.PoolLen | TransCNN.py:62 | the ds-by-ds average pool gives floor(n/ds) when 0 < ds <= n |
| Attention.PooledTokensValue | TransCNN.py:86-91 | queries number H*W and keys and values floor(H/ds)*floor(W/ds), each of head_dim features per head |
| Attention.PooledTokensNeeds | TransCNN.py:88-89 | the pooled key/value branch needs B > 0, heads > 0 and 0 < ds_ratio <= H, W |
| Attention.PlainTokensValue | TransCNN.py:93-95 | in plain mode queries, keys and values all number H*W tokens |
| Attention.PlainTokensNeeds | TransCNN.py:93 | plain mode needs B > 0 and heads > 0 |
| Attention.GlobalStepValue | TransCNN.py:97-99 | global attention over H*W queries and any number of keys restores (B, C, H, W) |
| Attention.AttentionShapeExact | TransCNN.py:67-104 | Attention succeeds exactly on admissible inputs, and then keeps their shape |
| Attention.AttentionKeepsShape | TransCNN.py:67-104 | whenever Attention succeeds its output shape is its input shape, so line 101 is well-shaped |
| Attention.AttentionNeedsAdmissible | TransCNN.py:67-104 | Attention succeeds only on admissible inputs |
| Network.AttentionResidualExact | TransCNN.py:119 | x + drop_path(attn(x)) succeeds exactly on admissible inputs, keeping the shape |
| Network.ConvResidualOdd | TransCNN.py:120 | with an odd kernel x + drop_path(conv(x)) keeps every non-empty map of dim channels |
| Network.ConvResidualEven | TransCNN.py:120 | with an even kernel it succeeds only on a 2x2 map |
| Network.BlockOdd | TransCNN.py:118-121 | with an odd kernel a Block succeeds exactly on admissible maps, keeping their shape |
| Network.BlockEven | TransCNN.py:118-121 | with an even kernel a Block succeeds exactly on admissible 2x2 maps |
| Network.BlockKeepsShape | TransCNN.py:118-121 | whenever a Block succeeds it keeps the shape |
| Network.BlocksOdd | TransCNN.py:199-200 | a run of n odd-kernel blocks succeeds iff n == 0 or the map is admissible |
| Network.BlocksKeepShape | TransCNN.py:199-209 | a run of blocks keeps the shape whenever it succeeds |
| Network.ZeroWidthStageUnbuildable | TransCNN.py:17-26 | a stage with a block and dims[s] == 0 makes the network unbuildable: its depthwise convolution would have 0 groups |
| Network.StageAttention | TransCNN.py:159-163 | stage s's attention has dims[s] channels, head_dim, grid_sizes[s] and ds_ratios[s], and a valid head count |
| Network.StageExact | TransCNN.py:199-209 | a stage succeeds exactly when it has no block or its attention admits the map |
| Network.LevelChannels | TransCNN.py:198-209 | the stem or Downsample plus a stage keeps the batch and produces dims[s] channels |
| Network.FirstLevel | TransCNN.py:198-200 | the stem turns (B, 3, 32m, 32n) into stage 0's (B, dims[0], 8m, 8n) map, and stage 0 succeeds iff it admits it |
| Network.NextLevel | TransCNN.py:201-209 | each Downsample halves the previous stage's map, and stage s succeeds iff it admits the result |
| Network.FeaturesExact | TransCNN.py:197-209 | the feature extractor succeeds on (B, 3, 32m, 32n) iff every stage admits its map |
| Network.ClassifyLast | TransCNN.py:210-211 | pooling and the classifier map a dims[3]-channel map to (B, num_classes) |
| Network.ForwardShapeResult | TransCNN.py:197-213 | whenever forward succeeds it returns (B, num_classes) |
| Network.ForwardExact | TransCNN.py:197-213 | forward on (B, 3, 32m, 32n) returns (B, num_classes) iff every stage admits its map, and fails otherwise |
| Presets.PresetsAreLike | TransCNN.py:216-249 | the four presets have four stages of 64-wide heads, grids 8, 8, 8, 1 and pooling ratios 8, 4, 2, 1 |
| Presets.PresetConstructible | TransCNN.py:216-249 | every preset passes the head-count assertion in every stage |
| Presets.PresetAttention | TransCNN.py:219-220 | each preset stage has at least one head and the configured grid size and pooling ratio |
| Presets.PresetStage | TransCNN.py:216-249 | stage 0 and 3 always admit their map, stage 1 iff m and n are even, stage 2 iff 4 divides m and n, given B > 0 |
| Presets.PresetStages | TransCNN.py:216-249 | all stages of a preset admit their maps iff B > 0 and 4 divides m and n |
| Presets.PresetForward | TransCNN.py:216-249 | a preset classifies (B, 3, 32m, 32n) into (B, 1000) iff B > 0 and 4 divides m and n |
| Presets.TinyAt256 | TransCNN.py:216-222 | TransCNN_Tiny maps (2, 3, 256, 256) to (2, 1000) |
| Presets.TinyAt224 | TransCNN.py:216-222 | TransCNN_Tiny fails on (2, 3, 224, 224) |
| Presets.ValuesPerChannel | TransCNN.py:135-136 | a map has more than one value per channel exactly when it is non-empty and not a single 1 x 1 image, the condition a training-mode BatchNorm2d demands |
| Presets.DefaultsAt32 | TransCNN.py:140-143 | with the constructor defaults a (1, 3, 32, 32) batch classifies in the eval-mode model, while stage 3 sees a map with one value per channel |
| Presets.PresetNormMaps | TransCNN.py:216-249 | on every input a preset classifies, each stage map is at least 4 x 4 with at least 16 values per channel, each pooled key/value map is m x n and the stem's inner map is 16m x 16n |
| DropPathSchedule.Base | TransCNN.py:161 | stage s's first slot sum(depths[:s]) plus its depth is the next stage's first slot, within sum(depths) |
| DropPathSchedule.Slot | TransCNN.py:161 | slot sum(depths[:s]) + i lies in stage s's range and below sum(depths) |
| DropPathSchedule.SlotOrder | TransCNN.py:161 | slots are ordered stage-major: one block's slot is smaller iff it comes earlier |
| DropPathSchedule.SlotInjective | TransCNN.py:161 | no two blocks share a slot |
| DropPathSchedule.SlotCover | TransCNN.py:157-163 | every slot below sum(depths) belongs to some block |
| DropPathSchedule.Linspace | TransCNN.py:157 | the schedule has sum(depths) values |
| DropPathSchedule.LinspaceEnds | TransCNN.py:157 | the schedule starts at 0 and, with two or more points, ends at drop_path_rate |
| DropPathSchedule.LinspaceMonotone | TransCNN.py:157 | for a non-negative rate the schedule never decreases and stays within [0, rate] |
| DropPathSchedule.MakeDropPath | TransCNN.py:112 | a block's module is DropPath(p) iff p > 0, else nn.Identity |
| DropPathSchedule.SetDropProb | TransCNN.py:182 | writing drop_prob keeps the module's kind and records the new value |
| DropPathSchedule.Built | TransCNN.py:155-164 | building `stages` stages gives that many rows, row s of depths[s] modules |
| DropPathSchedule.Reset | TransCNN.py:177-183 | a reset keeps the number and lengths of the rows |
| DropPathSchedule.BuiltAt | TransCNN.py:159-163 | block i of stage s is built from the rate of slot sum(depths[:s]) + i |
| DropPathSchedule.ResetAt | TransCNN.py:177-183 | the reset writes block i of stage s's drop_prob from the same slot, and keeps its kind |
| DropPathSchedule.FirstBlockIdentity | TransCNN.py:112 | block 0 of stage 0 sits at slot 0, with rate 0, so it is always an nn.Identity |
| DropPathSchedule.ResetSameRate | TransCNN.py:177-183 | resetting with the build schedule keeps every block's effective rate |
| DropPathSchedule.ResetEffective | TransCNN.py:177-183 | after a reset a block drops with its new slot rate if it was built as DropPath, and never otherwise |
| DropPathSchedule.MakeDropPathEffective | TransCNN.py:112 | a module built for rate p >= 0 drops with rate p |
| DropPathSchedule.BuiltEffective | TransCNN.py:157-163 | a freshly built block drops with exactly the schedule value of its slot |
| DropPathSchedule.ResetFromZeroHasNoEffect | TransCNN.py:177-183 | built at rate 0 and reset to 0.5, the second block of a two-block stage still never drops, where one built at 0.5 does |
| DropPathSchedule.TransCNN.constructor | TransCNN.py:155-164 | the loops build exactly Built(depths, len(dims), linspace(0, rate, sum(depths))) |
| DropPathSchedule.TransCNN.ResetStage | TransCNN.py:181-182 | the inner loop rewrites stage s's drop_prob values from dpr[cur] on and changes no other stage |
| DropPathSchedule.TransCNN.ResetDropPath | TransCNN.py:177-183 | with cur == sum(depths[:stage]) kept by the loop, the blocks become Reset(old blocks, depths, linspace(0, rate, sum(depths))) |
| DropPathSchedule.TransCNN.RebuildStage | TransCNN.py:181-182 | corrected inner loop: stage s's modules are rebuilt for dpr[cur] on, no other stage changes |
| DropPathSchedule.TransCNN.ResetDropPathRebuilt | TransCNN.py:177-183 | corrected reset: the blocks become exactly a fresh build for the new rate |

## Left out

- Floating point. Drop-path rates are exact reals and `torch.linspace` is the exact value
  k * rate / (n - 1), so rounding in a `float32` schedule is not modelled.
- Every tensor value computed by `torch`: convolution and linear weights, BatchNorm, SiLU, the
  `scale` multiply, softmax, average and max pooling values, and `adaptive_avg_pool2d`.
  `Attention` and the layers around it are modelled by their shapes, and the layout chains by
  where each element goes.
- The matrix products at lines 79 and 97-99 are shapes only. `Attention.MatMul` requires equal
  batch axes rather than modelling `torch.matmul`'s broadcasting, which the network never needs.
- Randomness: the Bernoulli draws of `Dropout2d`, `Dropout` and `DropPath` (lines 34, 58, 112,
  170). A drop-path module is its kind and its rate.
- Weight initialisation `_init_weights` (lines 185-195). It calls random initialisers and has no
  discrete behaviour.
- The `timm` registry, `_cfg` and `pretrained` (lines 216-249). The four presets are modelled as
  configurations.
- `img_size` and `in_chans` (line 142). They are never read, and the stem always expects 3
  channels.
- Network.Constructible: construction failures are a predicate over the configuration, not an
  error result. It covers `Attention`'s assertion, the `IndexError` of lists that are too short,
  and the `ValueError` of a depthwise convolution with 0 groups (a stage with a block and
  `dims[s] == 0`, lines 17 and 26).
- Training-mode BatchNorm. The shape functions model the network in eval mode. A module in
  training mode, as a freshly built one is, makes every `BatchNorm2d` (lines 22, 27, 32, 69, 84,
  88, 135-136, 150) raise on a map with a single value per channel (B * H * W == 1). The shape
  model does not return `None` there. `Presets.DefaultsAt32` exhibits such an input that the
  model accepts, and `Presets.PresetNormMaps` shows the presets never reach one.
- Shapes.StemShape, Shapes.DownsampleShape, Shapes.InvertedResidualOdd, Attention.AttentionShapeExact,
  Network.BlockOdd, Network.StageExact, Network.FeaturesExact and Network.ForwardExact: their
  successes are eval-mode successes. In training mode a success on a map with B * H * W == 1 at
  a BatchNorm site would be an error.
- DropPathSchedule.TransCNN.constructor: requires `stages <= |depths|`. With fewer depths than
  stages the source raises `IndexError`, and the model does not build that error value.
- The class `DropPathSchedule.TransCNN` models only `self.depths` and each block's `drop_path` module.
  The other layers are covered by the shape model in the other modules.
- DropPathSchedule.TransCNN.constructor: `self.depths = depths` (line 147) keeps a reference to the
  caller's list, so a later change to that list would change the reset. The model stores a copy,
  a `seq` value, and does not capture that aliasing.

## Findings

| source | as written | input that shows it | evidently intended | confidence | as-written member | corrected member |
|---|---|---|---|---|---|---|
| TransCNN.py:177-183 | `reset_drop_path` only assigns `drop_prob`. A block built with rate 0 is an `nn.Identity` (line 112), which ignores that attribute. | `depths = [2]`, built with `drop_path_rate = 0`, then `reset_drop_path(0.5)`: block 1 still never drops, although a fresh build at 0.5 gives it rate 0.5 | A reset makes every block drop with its new slot rate, as a fresh build would | medium; not executed | DropPathSchedule.TransCNN.ResetDropPath | DropPathSchedule.TransCNN.ResetDropPathRebuilt |

`DropPathSchedule.ResetFromZeroHasNoEffect` exhibits the input above. `DropPathSchedule.ResetEffective`
states the as-written behaviour for every block.
