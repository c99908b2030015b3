# An inference engine's arithmetic, tokenizer and file format, proved

The repository is an LLM inference engine: it reads GGUF files, tokenizes text, and runs transformer, short-convolution
and Gated DeltaNet layers on the CPU or on a GPU. Most of what is hard in it is that the same mathematics is written
several times over. A weight row is dotted by a decoder plus a loop, by fused CPU loops, by an int8 kernel, by a
byte-wise kernel, and by 64 GPU lanes over words. A prompt is run token by token, layer by layer, or on the GPU with
every residual add fused with the norm after it. This project models those programs and proves where they agree, for
every input, and exactly where they do not.

All arithmetic on activations is exact (`real`); quantised integers, bit fields, byte layouts and file bytes are
integers with their widths written out. `exp`, `ln`, `sqrt`, `sin`, `cos` and `pow` are arbitrary functions, given as a
`Math` value; a lemma that needs a law of one of them (positivity and `exp(a + b) = exp(a) exp(b)`, or the angle
difference formulas) asks for it.

The modules, bottom up:

- `Sums`, `Striding`, `Blocks`, `Elementary`, `Errors`: finite sums, the strided split of an index range among lanes,
  vectors made of equal blocks, norms and activations, results.
- `Workgroup`, `TreeReduction`, `WorkgroupKernels`, `StridedGather`, `ColumnKernels`, `CooperativeMatmul`, `HeadKernels`,
  `KvWriteKernel`: a workgroup as lanes that take one memory access at a time in any order between barriers, and the GPU
  kernels as lane programs in it. The main theorem is schedule independence; each kernel is then shown to be race free
  and to compute, under every schedule, the function the CPU computes.
- `Bytes`, `QuantValues`, `QuantBlocks`, `QuantCpu`, `QuantDots`, `QuantInt8`, `QuantU8`, `QuantGpu`, `QuantLanes`,
  `Matmul`: half-precision numbers, what each block format stores at each index and reads back from blocks written field
  by field, and every decoder, fused dot and kernel against that one reference.
- `Conv`, `Gdn`, `Attention`, `Rope`, `KvCache` (module `KvCaching`): the mixers' state machines and the cache, with
  the in-place routines proved against them.
- `Llama`, `ForwardPass`, `MixerRoutines`, `ElementRoutines`, `LlamaModel`: the layer stack as a function, the orders of
  running it and why they agree, and the engine's classes whose methods run in those orders on buffers, histories and
  caches.
- `GdnLayout`, `LayerLayout`: what the layers compute by positions of their raw projections, whoever runs them.
- `DeviceLaunches`, `DeviceMixers`, `DeviceLayers`, `GpuPass`, `OneHeadLayers`, `RopeWitness`, `CacheWitness`: a
  device that runs each workgroup of each launch in an order of its own choosing, the resident pass's layers launch by
  launch on it, when that pass computes what the CPU's does, and models on which it does not.
- `ByteLevel`, `Bpe`, `Pretokenizer`, `Tokenizer` (module `Tokenizing`): byte-level BPE and its round trip.
- `Gguf`, `GgufParser`: the file format as functions over a byte position, its serialiser, and the cursor that parses.
- `PageRelease`, `Sampler` (module `Sampling`): giving pages back while uploading, and drawing the next token.

Where the code does not do what its documentation or its other half promises, that is stated and proved too:

- `run` sends Q5_K weights through an int8 kernel that requantises the activations; `run_batch` and the device do not.
  `Matmul.WhenPathsAgree` gives the exact condition for a product (not Q5_K, or all zeros), `ForwardPass.BatchIsTokenMajor`
  holds without such a weight in the places where the passes differ, and `ForwardPass.Q5KParts` gives, for any other Q5_K
  weight, a complete model on which the passes part. Cutting a prompt into batches needs no such condition
  (`ForwardPass.SplitAnywhere`).
- The resident pass rotates by unscaled RoPE angles. `Rope.Rotation.ScaleMatters` says exactly when that changes nothing at
  a position, and wherever it changes a sine or a cosine `RopeWitness.RopeParts` gives a complete model on which the
  resident pass and `run` part.
- The device's Q8_0 cache keeps its scales exactly while the CPU's rounds them to half precision.
  `KvCaching.BlockRowsAgree` says exactly which rows read back alike, and `KvCaching.ThirdsDiffer` gives a row that does not,
  whatever the encoder and the rounding. `CacheWitness.CacheDecides` gives for every row a complete model whose resident
  pass and `run` agree exactly when the row reads back alike, so `CacheWitness.BlockCacheParts` has one on which they part
  at the first token. The half-precision caches always read back alike.
- Decoding gives back every text exactly when each special token is its own byte-level image
  (`Tokenizing.Tokenizer.RoundTrip`).
- `Tokenizing.Tokenizer.ProgressIff` says exactly when encoding moves forward at every cut of every text; with an empty
  special token `Tokenizing.Tokenizer.StuckAt` gives a text of one character on which the loop stays where it is.
- The ranks that byte-pair merging applies never go down, on any list, exactly when nothing in the table undercuts
  (`Bpe.NeverDropIff`). A run whose ranks do not go down equals merging all occurrences of one rank after the other
  (`Bpe.RunIsByRank`), and so does every run on a table whose entries never overlap (`Bpe.DisjointIsByRank`). Neither
  condition is necessary for the two to agree on every list (`Bpe.DropsButAgrees` is a table on which ranks drop and they
  do); on the table of `Bpe.OrderMatters`, which meets neither, they differ; and `Bpe.ContextMatters` is a table with the
  same overlap on which they agree on the list that parts them there and differ on a longer one.
- Changing the length or the type of the KV cache drops the device's keys and values but keeps its convolution histories
  and recurrent matrices; the contracts of `LlamaModel.Engine.Forward` and `ForwardBatch` say what a pass then starts from.
- `PageRelease.LaterTensorsIntact` says exactly when no byte of a tensor still to come has been given back. Tensors that
  share no byte with earlier ones always meet the condition; a tied tensor, listed twice, need not
  (`PageRelease.TiedIsReleased`).
- The Q4_K and Q5_K fused dots slice the activations by groups. `QuantDots.SlicesStayInside` says exactly on which lengths
  some slice starts past their end; the decoders, the Q6_K and Q8_0 dots and the GPU kernels take any length.

## Model

| member | source | states |
|---|---|---|
| Workgroup.ScheduleIndependence | src/ops/kernels_wgpu.rs:79-111 | Between barriers the lanes' loads and stores may interleave in any order: every complete run of a race-free kernel ends with the registers and memory of running each lane alone, phase by phase |
| Workgroup.EveryRunEnds | src/ops/kernels_wgpu.rs:79-111 | No schedule runs for ever and none gets stuck: a run that has not passed every barrier can always go on, and has a bounded number of steps left |
| TreeReduction.TreeReduces | src/ops/kernels_wgpu.rs:98-106 | Halving strides over shared memory leaves the fold of all cells by any associative and commutative operator, and touches no cell past them |
| WorkgroupKernels.NormJob.EverySchedule | src/ops/kernels_wgpu.rs:124-168 | Fused residual add and norm: under every schedule, for every power-of-two lane count and length, new_x is x + delta and normed is its RMS norm |
| HeadKernels.RmsNormEverySchedule | src/ops/kernels_wgpu.rs:79-111 | `rms_norm` leaves the RMS norm of x under every schedule |
| WorkgroupKernels.SoftmaxJob.EverySchedule | src/ops/kernels_wgpu.rs:795-864 | The softmax kernel, reusing one shared array for the maximum and then the sum, leaves exp(score - top) and their sum for a top that is the floor or a score and bounds them all |
| WorkgroupKernels.RowJob.EverySchedule | src/ops/kernels_wgpu.rs:1097-1125 | Each token's output is the sum of its 64 lane partials, under every schedule |
| CooperativeMatmul.CoopJob.EverySchedule | src/ops/kernels_wgpu.rs:1272-1354 | Decoding the row once into shared memory, by 64 lanes, then dotting it with every token: under every schedule each output is the row's dot with that token, for Q8_0 and Q4_K at any length |
| CooperativeMatmul.CooperativeRow | src/ops/kernels_wgpu.rs:1356-1452 | The same from packed weights: the outputs are the dots with the file's row |
| CooperativeMatmul.CoopJob.DecodeMeaning | src/ops/kernels_wgpu.rs:1297-1315 | No two lanes decode the same element and together they decode the whole row |
| HeadKernels.NormEverySchedule | src/ops/kernels_wgpu.rs:332-374 | An in-place norm over one head rescales every element by the head's own sum of squares, whoever runs when |
| HeadKernels.QkNormRopeEverySchedule | src/ops/kernels_wgpu.rs:257-320 | Norm, barrier, rotation: the head ends as the rotation of its norm although each rotated pair was normalised by two different lanes |
| HeadKernels.QkHead | src/model/llama/cpu_path.rs:78-133 | That is the CPU's per-head norm followed by its rotation |
| HeadKernels.L2Head | src/model/llama/cpu_path.rs:618-629 | The L2 kernel does to a query or key segment what the CPU loop does |
| HeadKernels.GatedHead | src/model/llama/cpu_path.rs:671-687 | The gated norm kernel does to a head what the CPU loop does |
| KvWriteKernel.WriteEverySchedule | src/ops/kernels_wgpu.rs:612-698 | The KV write kernel leaves the key's block and the value's block, scale and packed words, under every schedule although both halves share one scratch array |
| Bytes.UnpackPack | src/quant/q4_k.rs:26-35 | Every eight pairs of 6-bit scales and minimums are read back from the 12 bytes they pack into |
| Bytes.PackUnpack | src/quant/q5_k.rs:30-39 | Every 12 bytes are the packing of the pairs they hold: the layout is a bijection |
| Bytes.ScaleMinCopiesAgree | src/ops/kernels_u8.rs:76-120 | The byte-by-byte copy of the table lookup is the same function |
| Bytes.HalfIncreases | src/quant/q4_k.rs:53-54 | Half-precision numbers, read low byte first, are in the order of their bits |
| Bytes.HalfStep | src/quant/q4_k.rs:53-54 | Neighbours at exponent e are 2^(max(e, 1) - 25) apart |
| Bytes.HalfSigns | src/quant/q4_k.rs:53-54 | The top bit of the second byte negates |
| Bytes.HalfOne | src/quant/q8_0.rs:31 | The bytes 00 3C are 1 (and `HalfZero`: 00 00 are 0), which with the steps fixes every finite number |
| QuantBlocks.Q4BlockBack | src/quant/q4_k.rs:37-92 | A block written out field by field, wherever it stands, decodes to d * scale * quant - dmin * minimum, sub-block by sub-block |
| QuantBlocks.Q5BlockBack | src/quant/q5_k.rs:41-123 | The same for Q5_K, fifth bits in a byte per position |
| QuantBlocks.Q6BlockBack | src/quant/q6_k.rs:34-79 | The same for Q6_K: 6-bit quants from two rows, less 32, sixteen to a signed scale |
| QuantBlocks.Q8BlockBack | src/quant/q8_0.rs:14-55 | The same for Q8_0 |
| QuantCpu.DequantQ4K | src/quant/q4_k.rs:37-92 | Decodes exactly the values the format defines, or fails exactly when the data is short |
| QuantCpu.DequantQ5K | src/quant/q5_k.rs:41-123 | The same for Q5_K, whose fifth bits are picked by two moving masks |
| QuantCpu.DequantQ6K | src/quant/q6_k.rs:34-79 | The same for Q6_K |
| QuantCpu.DequantQ8_0 | src/quant/q8_0.rs:14-55 | The same for Q8_0, with a partial last block |
| QuantDots.DotQ4K | src/quant/q4_k.rs:95-205 | The eight-lane fused dot equals decode-then-dot |
| QuantDots.DotQ5K | src/quant/q5_k.rs:189-323 | The same for Q5_K, with shifted bits instead of masks |
| QuantDots.SlicesStayInside | src/quant/q4_k.rs:119-138 | Some slice of the activations starts past their end if and only if the length is neither whole blocks nor at most eight short of them |
| QuantDots.DotQ6K | src/quant/q6_k.rs:82-131 | The same for Q6_K, at every length |
| QuantDots.DotQ8_0 | src/quant/q8_0.rs:58-90 | The same for Q8_0, at every length, with the scale factored out of each block |
| QuantValues.DotRowIsDotOfDecoded | src/quant/mod.rs:30-95 | The reference dot is the dot with the decoded vector |
| QuantU8.MatmulRowQ8_0 | src/ops/kernels_u8.rs:159-191 | The byte kernel equals decode-then-dot at every length |
| QuantU8.MatmulRowQ4K | src/ops/kernels_u8.rs:193-261 | The same for Q4_K, through the byte-by-byte table lookup |
| QuantU8.MatmulRowQ6K | src/ops/kernels_u8.rs:265-326 | The same for Q6_K |
| QuantInt8.QuantizeRow | src/quant/q8_k.rs:49-91 | Every block is scaled by its extreme element, rounded, and summed in groups of 16; short rows are padded with zeros |
| QuantInt8.RoundDecides | src/quant/q8_k.rs:49-91 | Rounding goes to the nearest integer, at a tie to the one further from zero |
| QuantInt8.QuantizedRowBounds | src/quant/q8_k.rs:49-91 | All quants lie in [-127, 127] and decode to within half a scale of x |
| QuantInt8.GroupSumBounds | src/quant/q8_k.rs:82-87 | A group sum fits in 16 bits |
| QuantInt8.DotQ5KQ8K | src/quant/q5_k.rs:126-184 | The int8 kernel, with its group-sum shortcut for the minimum term, equals the exact sum of decoded weight times decoded activation |
| QuantInt8.NoOverflow | src/quant/q5_k.rs:126-184 | Its 32-bit accumulators never overflow, at any point of the loops |
| QuantInt8.Int8Accuracy | src/quant/q5_k.rs:126-184 | It differs from the exact dot by at most the sum of half a scale times each weight's magnitude |
| QuantGpu.PackBytesToU32 | src/ops/wgpu_backend/mod.rs:859-895 | Every row is packed into its own padded words, byte by byte |
| QuantGpu.PackedReads | src/ops/kernels_wgpu.rs:985-990 | Reading a byte through the words gives the file's byte, for every row and offset |
| QuantGpu.WordwiseRead | src/ops/kernels_wgpu.rs:1530-1570 | Cutting bytes out of whole words is reading them one by one |
| QuantGpu.PackedDot | src/ops/wgpu_backend/mod.rs:61-95 | A dot through the packed row is the dot with the file's row, for all four formats |
| QuantLanes.PartialQ8_0 | src/ops/kernels_wgpu.rs:1459-1493 | A lane's strided loop sums exactly its own blocks |
| QuantLanes.PartialQ4K | src/ops/kernels_wgpu.rs:1500-1571 | A lane's strided loop sums exactly its own sub-blocks |
| QuantLanes.PartialQ5K | src/ops/kernels_wgpu.rs:1578-1639 | The same for Q5_K |
| QuantLanes.PartialQ6K | src/ops/kernels_wgpu.rs:1645-1706 | A lane sums its four elements of every block |
| QuantLanes.LanesCoverRow | src/ops/kernels_wgpu.rs:1459-1706 | The 64 lanes' partials add up to the row's dot: they partition the row, for every format and length |
| QuantLanes.GridCoversRows | src/ops/wgpu_backend/mod.rs:661-662 | The 2-D grid visits every row and none twice |
| QuantLanes.MatmulRow | src/ops/kernels_wgpu.rs:1198-1260 | A workgroup of the matmul, scheduled anyhow, outputs the dot of the file's row with every token |
| Matmul.Int8IsRequantized | src/model/mod.rs:385-394 | The int8 product is the exact product with a requantised activation |
| Matmul.WhenPathsAgree | src/model/mod.rs:361-454 | The single-token and the batched product agree on every activation if and only if the weight is not Q5_K or is all zeros |
| Matmul.MatmulBatchInto | src/model/mod.rs:414-470 | Rows outside, tokens inside, then a transposition: token t's output block is the weight times x[t] |
| Conv.Taps.HistorySlot | src/model/llama/cpu_path.rs:417-456 | After any number of tokens slot k holds the input of time t - (kernel - 1) + k, and zero before the start |
| Conv.Taps.StreamingIsDirect | src/model/llama/cpu_path.rs:1003-1032 | Each streamed output is the full tap sum over the input stream |
| Conv.CausalDepthwiseConv | src/model/llama/cpu_path.rs:1003-1032 | The in-place loops give every channel its activated tap sum and advance the history by one slot, at every width of at least one |
| Conv.ShortConvGateAndConv | src/model/llama/cpu_path.rs:417-456 | The same with the input gated by B and the output by C |
| ColumnKernels.EveryThreadOrder | src/ops/kernels_wgpu.rs:175-214 | One thread per column: in whatever order threads run, each column ends as its own thread alone would leave it |
| ColumnKernels.ConvLaunch | src/ops/kernels_wgpu.rs:459-493 | The per-channel GPU convolution leaves the CPU's outputs and the CPU's history |
| ColumnKernels.GdnLaunch | src/ops/kernels_wgpu.rs:505-559 | The column-per-thread recurrence leaves the CPU's matrix and outputs |
| Gdn.Head.StateIsClosed | src/model/llama/cpu_path.rs:631-669 | After any tokens from a zero matrix each cell is the sum over tokens of the product of later decays, times key, times delta |
| Gdn.Head.OutputIsLinearAttention | src/model/llama/cpu_path.rs:655-667 | Each output is the scaled sum over tokens of decays times (query . key) times delta |
| Gdn.Head.DeltaIsLinear | src/model/llama/cpu_path.rs:641-652 | Each delta is the gated value less what the earlier tokens attend to, with no reference to the matrix |
| Gdn.Head.Retrieval | src/model/llama/cpu_path.rs:631-669 | With decay and beta 1 and a key of length 1, reading back the key gives the value |
| Gdn.Heads.Recur | src/model/llama/cpu_path.rs:631-669 | In place over all heads: each head's block steps from its own block and token alone, whatever the scratch held |
| GdnLayout.RecurCell | src/model/llama/cpu_path.rs:631-654 | By positions of the convolution's output (queries, keys, values, key heads repeated cyclically): every cell of every head's matrix decays and gains its key times beta times the value less what the matrix predicts for the key |
| GdnLayout.RecurOutput | src/model/llama/cpu_path.rs:655-667 | Every output is the scaled sum of its column of the new matrix times the query |
| GdnLayout.QueriesDoNotWrite | src/model/llama/cpu_path.rs:636-654 | Convolution outputs that agree from the keys on leave the same matrices |
| GdnLayout.FirstToken | src/model/llama/cpu_path.rs:636-654 | From zeros, cell (a, b) of a head is beta * key[a] * value[b] |
| Attention.Shape.GroupReadsItsHead | src/model/llama/cpu_path.rs:161-190 | Query head j * g + i, with g = heads / kv heads, reads its own block of the query and key/value head j, whatever stands elsewhere |
| Attention.Shape.OnePosition | src/model/llama/cpu_path.rs:161-190 | With one position in the cache it outputs the value of key/value head j |
| Attention.AttentionInto | src/model/llama/cpu_path.rs:141-194 | Every head's block of the output is the attention of that head, whatever the buffers held before |
| Attention.Shape.ThreeKernels | src/ops/kernels_wgpu.rs:749-898 | What the output threads return, from the unnormalised softmax of what the score threads return, is what the CPU gives with normalised weights, for every grouping, position, floor and schedule |
| Attention.WeightsAreADistribution | src/model/llama/cpu_path.rs:171-179 | The weights are positive and sum to 1 |
| Attention.AnyShift | src/ops/kernels_wgpu.rs:795-864 | Subtracting any number before exponentiating gives the same weights |
| Attention.Shape.ReadsOnlyThePast | src/model/llama/cpu_path.rs:141-194 | The output depends on keys and values of positions up to this one only |
| Attention.Shape.OutputIsAMixture | src/model/llama/cpu_path.rs:181-188 | Each output lies between any bounds on the values it mixes |
| Rope.Rotation.ScoreIsRelative | src/model/llama/cpu_path.rs:99-133 | The score of a query at m and a key at n depends on m - n alone |
| Rope.Rotation.ScoreIsShiftInvariant | src/model/llama/cpu_path.rs:99-133 | Moving both by the same number of positions changes nothing |
| Rope.Rotation.NormPreserved | src/model/llama/cpu_path.rs:461-496 | Rotation keeps each head's norm |
| Rope.Rotation.FrequenciesFall | src/model/llama/cpu_path.rs:461-474 | Angles fall geometrically over the pairs, from the scaled position at pair 0 towards that over theta at pair n_rot / 2 |
| Rope.Rotation.ScaleMatters | src/model/llama/gpu_resident.rs:473-483 | Scaled and unscaled rotation agree on every head at a position if and only if every pair's angle has the same sine and cosine |
| Rope.Rope | src/model/llama/cpu_path.rs:99-133 | The in-place pair loops rotate every query and key head |
| Rope.RopePartial | src/model/llama/cpu_path.rs:461-496 | The same for the first n_rot dimensions, the rest untouched; with n_rot = head_dim it is the same rotation |
| KvCaching.Pack | src/model/mod.rs:566-584 | What is packed unpacks to the format's round trip of it |
| KvCaching.Q8Error | src/model/mod.rs:566-606 | A Q8_0 element reads back within amax times (1/254 + eps) when the stored scale is within a relative eps |
| KvCaching.KvCache.Write | src/model/mod.rs:657-668 | As a table: one position of one layer becomes the round trip of the key and value, nothing else changes |
| KvCaching.KvCache.WriteRange | src/model/mod.rs:671-683 | Is `write` once per position |
| KvCaching.KvCache.ReadUpTo | src/model/mod.rs:686-702 | The keys and values of every position up to this one, in order |
| KvCaching.LastWriteWins | src/model/mod.rs:657-702 | After any sequence of writes a position holds the round trip of the last vectors written there |
| KvCaching.GpuDecodes | src/ops/kernels_wgpu.rs:706-718 | The device's 36-byte offset-binary blocks decode to the integers the CPU quantises to, on every element that is not an exact tie |
| KvCaching.BlockRowsAgree | src/ops/kernels_wgpu.rs:612-718 | A row reads back from the device's blocks as from the CPU's if and only if every scale is a half-precision number and every element rounds alike |
| KvCaching.ThirdsDiffer | src/ops/kernels_wgpu.rs:612-718 | A row, its scale a third, that the two Q8_0 caches keep differently whatever encodes the scale and however the device rounds |
| ForwardPass.BatchIsTokenMajor | src/model/llama/cpu_path.rs:834-991 | Layers outside, tokens inside gives the same streams and the same states as tokens outside, layers inside: every layer list, all four mixers, every batch, start position and starting state |
| ForwardPass.PhasesAreSteps | src/model/llama/cpu_path.rs:834-991 | One layer's phases over a batch are its steps token by token |
| ForwardPass.AttendThenProject | src/model/llama/cpu_path.rs:834-991 | Attending over the batch and projecting afterwards is mixing token by token |
| ForwardPass.SplitAnywhere | src/model/llama/cpu_path.rs:834-991 | The batched pass may be cut anywhere: on every layer list, with any weights, running the first part as one batch and the rest as another gives the streams and states of the whole |
| LlamaModel.Engine.CutAnywhere | src/model/llama/mod.rs:365-409 | So may `forward_batch`, on either path: two calls give the streams, logits and states of one |
| LlamaModel.Engine.ForwardTwice | src/model/llama/mod.rs:365-409 | Two calls in place, one after the other, leave what one call on both batches together would |
| ForwardPass.Q5KParts | src/model/mod.rs:385-394 | For every non-zero Q5_K weight there is a complete model, with it as down projection, on which the batched and the token-by-token pass differ |
| DeviceLaunches.UploadWeight | src/ops/wgpu_backend/mod.rs:61-95 | A handle whose packed rows decode to the tensor's rows |
| DeviceLaunches.Device.LaunchMatmul | src/ops/wgpu_backend/mod.rs:642-695 | The 2-D grid of row workgroups, each run in an order of the device's own, gives decode-then-dot of every row |
| DeviceMixers.HeadAttention | src/ops/wgpu_backend/resident.rs:513-590 | Score threads, the softmax workgroup and output threads, one after the other, give the head's attention |
| DeviceMixers.LaunchQkNormRope | src/ops/wgpu_backend/resident.rs:414-445 | One workgroup a head gives the layer's per-head norm and rotation |
| DeviceMixers.LaunchKvWrite | src/ops/wgpu_backend/resident.rs:448-510 | Every block's workgroup run to its end, the row reads back as the device's codec says |
| DeviceMixers.LaunchConv | src/ops/wgpu_backend/resident.rs:273-301 | One thread a channel: the outputs, and the history one token on |
| DeviceMixers.LaunchRecur | src/ops/wgpu_backend/resident.rs:847-884 | One workgroup a value head: the outputs and the new matrices of the layer |
| DeviceLayers.DeviceAttention | src/model/llama/gpu_resident.rs:454-512 | The launches of an attention layer compute the model's mixer with exact products, unscaled angles and the device's cache |
| DeviceLayers.DeviceShortConv | src/model/llama/gpu_resident.rs:513-528 | The same for a short convolution |
| DeviceLayers.DeviceGatedAttention | src/model/llama/gpu_resident.rs:529-580 | The same for gated attention |
| DeviceLayers.DeviceGatedDeltaNet | src/model/llama/gpu_resident.rs:581-665 | The same for Gated DeltaNet |
| DeviceLayers.DeviceFfn | src/ops/wgpu_backend/resident.rs:706-721 | The chained launches compute the feed-forward block |
| GpuPass.GpuPassAgrees | src/model/llama/gpu_resident.rs:427-697 | With no weight that parts the products, angles whose sine and cosine the scale does not change at this position (asked of attention layers alone), and cache rows kept alike, a pass in the device's environment gives exactly `run`'s stream and states |
| GpuPass.GpuRunAgrees | src/model/llama/gpu_resident.rs:427-697 | So over every token sequence: streams, states and logits |
| GpuPass.HalfRunAgrees | src/ops/kernels_wgpu.rs:566-582 | A half-precision cache keeps every row of every run alike |
| GpuPass.BlockCodecAgrees | src/ops/kernels_wgpu.rs:612-698 | A Q8_0 cache keeps what a layer writes alike exactly when the scales are half-precision numbers and the elements round alike |
| RopeWitness.RopeParts | src/model/llama/gpu_resident.rs:473-483 | At every position where the RoPE scale changes a sine or a cosine there is a complete model, with nothing else to tell the passes apart, on which the resident pass and `run` part |
| CacheWitness.CacheDecides | src/model/llama/gpu_resident.rs:454-512 | For every row, at every position and whatever the cache holds before it, there is a complete model, with nothing else to tell the passes apart, that writes this row as its value, and whose resident pass and `run` give the same stream if and only if the device keeps the row as the CPU does |
| CacheWitness.BlockCacheParts | src/ops/kernels_wgpu.rs:612-718 | With a Q8_0 cache, any half-precision encoder and any rounding, there is a complete model on whose first token the resident pass and `run` part |
| ForwardPass.StaleCellsDoNotMatter | src/model/llama/gpu_resident.rs:268-277 | Every KV cell is written before it is read: whatever the cache held from a run's first position on, the run gives the same streams, histories and matrices and the same cells up to its end |
| LlamaModel.Engine.EnsureGpuKvCache | src/model/llama/gpu_resident.rs:240-295 | Nothing changes on a repeat call; with another length or type the cells are new and arbitrary, while histories and matrices stay |
| LlamaModel.Engine.Run | src/model/llama/cpu_path.rs:695-832 | One token in place: the logits and the new cache, histories and matrices are the pass's, whatever the scratch buffers held; it fails exactly when a tensor is missing or the token unknown |
| LlamaModel.Engine.RunBatch | src/model/llama/cpu_path.rs:834-991 | The batched pass in place: logits of the last token, and every layer's state |
| LlamaModel.Engine.RunGpuResident | src/model/llama/gpu_resident.rs:427-697 | Launch by launch, in whatever order the device lets its lanes go, with every residual add fused with the next norm and for one layer or more: the pass in the device's environment; the loop keeps xn the norm of x under the upcoming layer's weight |
| LlamaModel.Engine.Forward | src/model/llama/mod.rs:336-363 | Takes the state out, runs one pass on the path in use from what was kept (all of it, or all but the device's newly allocated cells), and puts it back, on success and on failure |
| LlamaModel.Engine.ForwardBatch | src/model/llama/mod.rs:365-409 | The batch run of the path in use, with any weights; that is the token-by-token result on the device always and on the CPU where no weight parts the products; nothing for no tokens |
| LlamaModel.Engine.ForwardEach | src/model/mod.rs:491-502 | The default prefill: one forward pass after the other, keeping the last logits |
| LlamaModel.Engine.AttentionMixer | src/model/llama/cpu_path.rs:718-763 | The mixer's output in proj, its layer's state advanced, nothing else that persists touched |
| LlamaModel.Engine.ShortConvMixer | src/model/llama/cpu_path.rs:397-408 | The same |
| LlamaModel.Engine.GatedAttentionMixer | src/model/llama/cpu_path.rs:503-562 | The same |
| LlamaModel.Engine.GatedDeltaNetMixer | src/model/llama/cpu_path.rs:576-690 | The same |
| LayerLayout.GateActsLast | src/model/llama/cpu_path.rs:503-562 | What goes into wo at head h, dimension d is the attention there times the sigmoid of entry (2h + 1) * head_dim + d of the fused projection |
| LayerLayout.GatesDoNotAttend | src/model/llama/cpu_path.rs:529-556 | Fused projections that differ in their gates alone give the same attention and the same cache |
| LayerLayout.HiddenIsGated | src/model/llama/cpu_path.rs:200-233 | Each hidden activation h of gate g and up u satisfies h * (exp(g) + 1) = g * exp(g) * u |
| LayerLayout.BetaIsSigmoid | src/model/llama/cpu_path.rs:600-606 | The write gate is exp(x) / (exp(x) + 1), strictly between 0 and 1 |
| LayerLayout.DecayIsPower | src/model/llama/cpu_path.rs:600-606 | Up to the threshold the decay is (1 + exp(alpha + bias)) to the power of a |
| LayerLayout.UnitDecay | src/model/llama/cpu_path.rs:600-606 | At a = -1 decay and sigmoid(alpha + bias) add up to 1 |
| ElementRoutines.RmsNormInto | src/model/llama/cpu_path.rs:66-75 | The loop computes the norm that layers are defined by |
| ElementRoutines.QkNorm | src/model/llama/cpu_path.rs:78-93 | The same head by head |
| ElementRoutines.PartQg | src/model/llama/cpu_path.rs:532-539 | The copies leave every head's query and every head's gate in buffers of their own |
| ElementRoutines.GateInto | src/model/llama/cpu_path.rs:556-559 | The loop gates the attention's output |
| ElementRoutines.GateAndDecay | src/model/llama/cpu_path.rs:598-606 | The loop gives every head's write gate and decay |
| ElementRoutines.L2NormHeads | src/model/llama/cpu_path.rs:618-629 | The loop divides every query and key head by its length and leaves the values alone |
| ElementRoutines.GatedNormHeads | src/model/llama/cpu_path.rs:671-687 | The loop computes the gated norm of every head |
| ElementRoutines.SiluMul | src/model/llama/cpu_path.rs:200-233 | The loop computes silu(gate) times up |
| MixerRoutines.RotateBuffers | src/model/llama/cpu_path.rs:99-133 | The in-place rotations compute what a layer means by rotating its query and key heads |
| MixerRoutines.AttendBuffers | src/model/llama/cpu_path.rs:141-194 | The in-place attention computes what a layer means by attending |
| MixerRoutines.ShortConvBuffers | src/model/llama/cpu_path.rs:417-456 | The in-place gated convolution computes the layer's output and next history |
| MixerRoutines.RecurBuffers | src/model/llama/cpu_path.rs:631-669 | The in-place recurrence computes the layer's outputs and next matrices |
| ByteLevel.BuildByteMaps | src/tokenizer.rs:288-319 | The loop fills the byte-to-character table and its inverse |
| ByteLevel.ByteTable | src/tokenizer.rs:288-319 | The table is a bijection between bytes and 256 characters |
| ByteLevel.DecodeUtf8 | src/tokenizer.rs:269-277 | The UTF-8 bytes of a text (section 3 of RFC 3629) decode to that text |
| ByteLevel.DecodedIsUtf8 | src/tokenizer.rs:269-277 | Bytes that decode at all are the UTF-8 of what they decode to |
| ByteLevel.PieceToBytes | src/tokenizer.rs:280-284 | Characters of the table become their bytes, others are dropped |
| Bpe.MergeSymbols | src/tokenizer.rs:248-266 | The loop ends and applies, at each step, the leftmost merge of lowest rank |
| Bpe.MergingEnds | src/tokenizer.rs:248-266 | It ends with no adjacent pair in the table, and the symbols still spell the same text |
| Bpe.BuildRanks | src/tokenizer.rs:79-85 | Each merge at its index, a later duplicate winning; no two pairs share a rank |
| Bpe.MergeHasRank | src/tokenizer.rs:79-85 | A merge "left right", cut at its first blank, ranks its pair at its index unless it is listed again later |
| Bpe.KeyInjective | src/tokenizer.rs:79-85 | Keys of different pairs differ, as long as no symbol contains the separator |
| Bpe.NeverDropIff | src/tokenizer.rs:248-266 | The ranks applied never go down, on any list of symbols, if and only if nothing undercuts: no entry (ab, d) or (c, ab) ranks below (a, b) unless the pair that would have to wait for it is merged first |
| Bpe.RunIsByRank | src/tokenizer.rs:248-266 | A run whose ranks never go down equals merging all occurrences of one rank after the other, on any table |
| Bpe.StepwiseIsByRank | src/tokenizer.rs:248-266 | So on a table where nothing undercuts, such as one where every merge that makes a component of an entry ranks below the entry, the two are the same on every list |
| Bpe.DisjointIsByRank | src/tokenizer.rs:248-266 | They are the same on every list of a table whose entries never overlap, whatever the ranks |
| Bpe.DropsButAgrees | src/tokenizer.rs:248-266 | A table on which ranks drop and every list comes out the same |
| Bpe.ContextMatters | src/tokenizer.rs:248-266 | A table whose overlapping entries are rejoined by later merges on one list and not on a longer one: what one overlap does alone does not decide |
| Bpe.OrderMatters | src/tokenizer.rs:248-266 | A table, with the list of symbols on which the two differ and the ranks applied drop |
| Pretokenizer.ContractionListed | src/tokenizer.rs:404-413 | A contraction that is cut off is one of the seven listed, and none of them is missed |
| Pretokenizer.Pretokenize | src/tokenizer.rs:329-400 | Ends on every text; the words spell the text and each is of one of the pattern's kinds |
| Tokenizing.Tokenizer.FindNextSpecial | src/tokenizer.rs:198-213 | The loop's choice of special token |
| Tokenizing.Tokenizer.NextIsFirst | src/tokenizer.rs:198-213 | That choice is the earliest occurrence, and the longest of those |
| Tokenizing.Tokenizer.GapsArePlain | src/tokenizer.rs:176-195 | No gap between cuts contains a special token |
| Tokenizing.Tokenizer.EncodeInto | src/tokenizer.rs:176-195 | Ends on every text and appends its ids to what was there |
| Tokenizing.Tokenizer.ProgressIff | src/tokenizer.rs:176-195 | Encoding moves forward at every cut of every text if and only if no special token is empty (or every single character is one) |
| Tokenizing.Tokenizer.StuckAt | src/tokenizer.rs:176-195 | The text on which an empty special token leaves the loop where it is |
| Tokenizing.Tokenizer.EncodingInjective | src/tokenizer.rs:170-195 | Texts with the same ids are the same text |
| Tokenizing.Tokenizer.WordTokens | src/tokenizer.rs:216-245 | A word's ids are the tokens of its merged symbols, one each in order; a symbol that is not in the vocabulary becomes its characters that are |
| Tokenizing.Tokenizer.WordIsMerged | src/tokenizer.rs:216-266 | So where every merged symbol is a token, no two neighbours among a word's tokens could be merged further |
| Tokenizing.Tokenizer.Decode | src/tokenizer.rs:269-277 | The bytes of every known id, in order |
| Tokenizing.Tokenizer.TextDecodes | src/tokenizer.rs:176-284 | Every text's ids decode to its UTF-8 bytes |
| Tokenizing.Tokenizer.RoundTrip | src/tokenizer.rs:176-284 | They do for every text if and only if each special token is its own byte-level image, given a token for every byte |
| Tokenizing.Tokenizer.WordByRank | src/tokenizer.rs:216-245 | A word's ids are those of merging rank by rank: where nothing undercuts, where entries never overlap, and wherever the ranks applied to the word do not drop |
| Tokenizing.Load | src/tokenizer.rs:49-118 | A loaded tokenizer's vocabulary inverts its token list and its special tokens carry their own ids |
| Gguf.HeaderBack | src/parser.rs:9-66 | Parsing a serialised header (GGUF specification, section "File Structure"), whatever follows it, gives its metadata and tensors back and the data offset, aligned to 32 |
| Gguf.HeaderPrefix | src/parser.rs:86-93 | Every strict prefix of a header ends in an unexpected end of file |
| Gguf.TensorTypesListed | src/types.rs:49-84 | The tensor types accepted are the 32 listed |
| Gguf.ArrayHoldsScalars | src/types.rs:251-266 | Arrays may hold values of every type but arrays |
| Gguf.MagicSpells | src/parser.rs:9-20 | The magic number is the UTF-8 of "GGUF" |
| Gguf.FileLocal | src/parser.rs:9-66 | Bytes after the header never change a successful result |
| Gguf.AlignToIsLeast | src/parser.rs:68-70 | Masking off the low bits gives the least multiple of the power of two at or past the offset |
| Gguf.MapOfDistinct | src/parser.rs:29-37 | With distinct keys the metadata map holds exactly the listed pairs |
| GgufParser.Parse | src/parser.rs:9-66 | The cursor-driven parser gives, on every byte string, the file or the error that the format's reading function gives |
| GgufParser.Cursor.ReadMetadataValue | src/parser.rs:157-184 | One value, and where the cursor ends up |
| PageRelease.ReleasedExactly | src/model/llama/gpu_resident.rs:29-49 | After any tensors in file order an address has been given back if and only if its whole page lies inside the consumed prefix |
| PageRelease.RangesTile | src/model/llama/gpu_resident.rs:120-152 | The ranges given back lie end to end, none twice, each whole pages |
| PageRelease.LaterTensorsIntact | src/model/llama/gpu_resident.rs:120-152 | For tensors in file order, one may be tied: no byte of a tensor still to come has been given back if and only if the released prefix stops before it, or it ends before the first whole page, or nothing has been released |
| PageRelease.DistinctTensorsIntact | src/model/llama/gpu_resident.rs:120-152 | Tensors that share no byte with earlier ones are always intact |
| PageRelease.TiedIsReleased | src/model/llama/gpu_resident.rs:100-152 | With pages of 4096 bytes and a data section that starts inside one, a tied tensor of 8192 bytes loses bytes to its first upload |
| PageRelease.Mapping.UploadAll | src/model/llama/gpu_resident.rs:120-152 | The upload loop gives back exactly those ranges |
| Sampling.SortCandidates | src/sampler.rs:67-73 | A permutation of the vocabulary, descending by logit |
| Sampling.Nucleus | src/sampler.rs:90-102 | The shortest prefix whose mass reaches top_p, or all |
| Sampling.NucleusOnce | src/sampler.rs:90-102 | There is only one such prefix |
| Sampling.Draw | src/sampler.rs:104-116 | Candidate i is drawn if and only if u falls in its own slice of the mass, over the nucleus's; the fallback after the loop is never taken |
| Sampling.Probabilities | src/sampler.rs:80-88 | The softmax of the scaled logits, the maximum being the first |
| Sampling.Sample | src/sampler.rs:60-117 | Greedy: the first greatest logit. Otherwise: top-k, nucleus and the unique inverse-CDF choice, always a token of the vocabulary |
| Sampling.Argmax | src/sampler.rs:120-130 | The first index of the greatest element |

## Left out

- Floating-point rounding, NaN and infinities, narrowing of activations to half precision on the device, and SIMD order of
  addition: activations are exact reals. Division by zero gives zero where floats give infinity or NaN.
- Half-precision exponent 31 has no exact value; the encoder that stores KV scales is a parameter with an error bound.
- GPU devices, queues, shader compilation and buffer handles, the probe benchmarks and the resident pass's batched
  dispatch. Kernels with one independent thread per element and no memory in common (`silu_mul`, `sigmoid_mul`,
  `split_qg`, `gdn_gate_decay`, `kv_cache_write`) are their formulas.
- The factor on Gated DeltaNet's outputs is a field of the head, which the code sets to one over the root of the key's length.
- The 4096-element shared-memory budget of the cooperative matmul: `CooperativeMatmul.CoopJob` is proved for rows of any
  length.
- Q2_K, Q5_0, F16, BF16 and F32 rows, model configuration, type tables, error messages, command-line programs, the chat
  template, and features that have documentation but no code.
- Threads of the CPU's parallel loops: rows are computed one after the other, each independent of the others.
- Capacity limits and machine-word overflow of sizes and offsets (`usize` additions in the parser, the cache and the
  loader), and memory mapping itself: the ranges advised away are a log.
- Random number generation: the draw in [0, 1) is a parameter. Sorting is modelled as insertion.
- The Unicode classes of letters, numbers and white space are parameters; a blank is white space. Text positions are
  counted in characters, and `from_utf8_lossy` is left out: decoding ends at the bytes.
- The sort of the special-token list at loading: the choice is settled by position and length, and the sort is stable, so
  it changes nothing even between equal strings.
- Panics: a length on which a routine slices out of bounds is outside its precondition.
- QuantDots.DotQ4K: asks for a length of whole groups (`WholeGroups`), as the code slices the activations by groups.
- QuantDots.DotQ5K: the same.
- KvCaching.GpuDecodes: an element exactly half-way between two integers may be rounded either way by the device.
- GpuPass.GpuPassAgrees: one direction; the weights, angles and rows that it asks to agree are each given their exact
  condition (`Matmul.WhenPathsAgree`, `Rope.Rotation.ScaleMatters`, `KvCaching.BlockRowsAgree`), and angles and rows a model
  in which they alone part the passes (`RopeWitness.RopeParts`, `CacheWitness.CacheDecides`).
- Bpe.StepwiseIsByRank: sufficient conditions on the table. Whether the two formulations agree on every list of a table
  depends on how later merges rejoin what earlier ones split, in contexts of any length.
- LlamaModel.Engine.Run: buffers are sequences that routines copy into arrays and back, so aliasing between buffers is not
  modelled. Backends that dispatch single products to the GPU are left out.
- LlamaModel.Engine.RunBatch: the batch's activations are a sequence of rows; the flat layout is modelled in
  `Matmul.MatmulBatchInto` alone.
- LlamaModel.Engine.ForwardBatch: when a pass fails, what it left in the cache and histories is not stated.
- LlamaModel.Engine.RunGpuResident: an activation read past the end of its buffer counts as zero; a model whose sizes fit
  has none.
