# NeMo multimodal and PEFT helpers, modelled in Dafny

This project models seven pieces of NeMo:

- **Llama 3.2 vision model** (`vision.py`, `base.py`):
  - building the cross-attention masks from the image-token positions;
  - padding those masks into one dense grid;
  - the full-row masked-out mask;
  - stacking image chunks;
  - the vision transformer block's capture of intermediate layers;
  - the encoder's patch geometry;
  - the fusion schedule for cross-attention layers;
  - the virtual-pipeline check;
  - `llama_data_step`;
  - parsing `return_intermediate`;
  - the input side of `compute_vision_tokens_masks`.
- **LoRA** (`lora.py`):
  - choosing which modules get an adapter (the wildcard match on fully qualified names);
  - recognising expert linears;
  - sizing parallel adapters;
  - the two plain-`nn.Linear` adapters, their construction and forward passes;
  - `AdapterParallelAdd`;
  - merging a trained adapter back into the base weight.
- **FLOPs measurement callback** (`flops_callback.py`):
  - resolving the model name to a family;
  - the closed-form FLOPs of each family;
  - TFLOPs per second per GPU.
- **LLaVA-NeXT task encoder** (`llava_next_energon.py`): encoding one sample and collating a batch.
- **Zero-shot intent dataset** (`dialogue_nearest_neighbour_dataset.py`): example construction and indexing.
- **InternViT importer** (`intern_vit.py`): `convert_state`'s choice of key mapping.

Each core file is one module:

| module | file |
|---|---|
| `LlamaVision` | `vision.dfy` |
| `LlamaBase` | `base.dfy` |
| `Lora` | `lora.dfy` |
| `Flops` | `flops.dfy` |
| `LlavaNext` | `llava_next.dfy` |
| `DialogueNearestNeighbour` | `dialogue_nn.dfy` |
| `InternVit` | `intern_vit.dfy` |

Three support modules are shared:

- `Wrappers`: `Option` and `Result`, which stand in for raised exceptions.
- `PyOps`: Python semantics made explicit: floor division and modulo, `math.ceil` of a quotient, slice bounds with negative indices, substring `in`, ASCII `lower()`.
- `Matrices`: real vectors and matrices, with the linear-algebra lemmas the LoRA proofs use.

Code that mutates objects is modelled as classes and methods with `modifies` clauses. This covers:

- the masks updated in place by `_pad_masks`;
- the layer flags set by `LoRA.transform`;
- `LoRAMerge` overwriting a weight;
- the callback resolving `self.model`;
- the sample filled by `encode`;
- the dataset object.

Pure computations are functions. Tensors are nested sequences, or Dafny arrays where the source fills a preallocated tensor index by index. Tokenizers, image processors, random draws, the layer function of a transformer block and other code outside the core enter as function-valued parameters.

## Model

| member | source | states |
|---|---|---|
| LlamaVision.OccurrencesFrom | nemo/collections/vlm/llama/model/vision.py:171 | every listed position holds the image token, positions strictly increase, and every image-token position is listed |
| LlamaVision.VisionTokenLocations | nemo/collections/vlm/llama/model/vision.py:171 | the loop collects exactly the image-token positions in order |
| LlamaVision.RawSpans | nemo/collections/vlm/llama/model/vision.py:180-187 | span k starts at image token k and ends at the next image token, the last one at the sequence length |
| LlamaVision.MergeAdjacent | nemo/collections/vlm/llama/model/vision.py:190-194 | the reversed pass carries the end of a run back over consecutive image tokens |
| LlamaVision.CreateVisionMask | nemo/collections/vlm/llama/model/vision.py:159-196 | one span per image token; no spans exactly when there is no image token; span i starts at token i and ends where its run of adjacent tokens ends |
| LlamaVision.MergedEndBounds | nemo/collections/vlm/llama/model/vision.py:180-194 | every span ends after its start and no later than the sequence length |
| LlamaVision.NoImageTokenBetween | nemo/collections/vlm/llama/model/vision.py:171 | no image token lies strictly between two consecutive listed positions |
| LlamaVision.MergedEndIsNextRunStart | nemo/collections/vlm/llama/model/vision.py:180-194 | a span ends at the next image token that starts a new run, or at the end of the sequence, with no run start in between |
| LlamaVision.MaxLen | nemo/collections/vlm/llama/model/vision.py:138 | the result bounds every row length and is attained by some row |
| LlamaVision.ClampEndIdempotent | nemo/collections/vlm/llama/model/vision.py:148-151 | clamping an end twice is clamping it once |
| LlamaVision.ClampElementEnd | nemo/collections/vlm/llama/model/vision.py:148-151 | an end of -1 becomes the total length, other ends become min(end, total length), the start is kept |
| LlamaVision.OpenSpan | nemo/collections/vlm/llama/model/vision.py:152-154 | the slice [start:end, :n] of one image's grid becomes 0 under Python slice rules, all else unchanged |
| LlamaVision.PadElement | nemo/collections/vlm/llama/model/vision.py:146-154 | one visited element is clamped and its cells opened, which keeps the grid and element invariants |
| LlamaVision.PadSample | nemo/collections/vlm/llama/model/vision.py:146-154 | the inner loop over one sample's images, skipping elements that are not pairs, keeps both invariants |
| LlamaVision.PadAll | nemo/collections/vlm/llama/model/vision.py:146-154 | the double loop establishes the grid and element invariants for the whole batch |
| LlamaVision.PadGrid | nemo/collections/vlm/llama/model/vision.py:138-156 | the fresh grid holds 0 exactly in the cells some visited span opens and -inf elsewhere; every visited element's end is written back clamped |
| LlamaVision.PadMasks | nemo/collections/vlm/llama/model/vision.py:128-156 | an empty batch fails, a negative size fails, nothing is modified on failure, and otherwise the result is the PadGrid result |
| LlamaVision.GridSkip | nemo/collections/vlm/llama/model/vision.py:147 | an element that is not a pair leaves the grid as it was |
| LlamaVision.GridNextSample | nemo/collections/vlm/llama/model/vision.py:146-147 | the zip over masks and chunk counts ends at the shorter of the two |
| LlamaVision.GridDone | nemo/collections/vlm/llama/model/vision.py:146 | samples past the shorter of the two outer lists stay fully masked |
| LlamaVision.InitialGridState | nemo/collections/vlm/llama/model/vision.py:140-144 | the all -inf grid is the starting invariant |
| LlamaVision.InitialElementState | nemo/collections/vlm/llama/model/vision.py:146-151 | before the loops every element equals its snapshot |
| LlamaVision.GridComplete | nemo/collections/vlm/llama/model/vision.py:152-156 | after all samples, a cell is 0 iff some visited span covers it |
| LlamaVision.ElementsComplete | nemo/collections/vlm/llama/model/vision.py:148-151 | after all samples, every visited element holds its clamped end |
| LlamaVision.RowAttends | nemo/collections/vlm/llama/model/vision.py:86 | 1 iff some entry of the row differs from the sentinel, else 0 |
| LlamaVision.FullRowMaskedOutMask | nemo/collections/vlm/llama/model/vision.py:74-86 | shape kept with a trailing 1; the entry is 1 iff some bias entry differs from the minimum and 0 iff all equal it |
| LlamaVision.StackImages | nemo/collections/vlm/llama/model/vision.py:99-125 | an empty batch fails; a sample with more images than slots fails, and so does an image with more chunks than slots unless it has exactly one chunk (which broadcasts); otherwise chunk k of image j of sample i lands at [i, j, k] for every slot k that exists, with zeros elsewhere, and the chunk counts are the per-image counts |
| LlamaVision.CapturedLayers | nemo/collections/vlm/llama/model/vision.py:312-315 | the captured layer numbers are below the layer count, requested, increasing, and include every requested layer in range |
| LlamaVision.ForwardWithReturnIntermediate | nemo/collections/vlm/llama/model/vision.py:249-366 | full recompute with intermediates fails; otherwise the output is the layer loop plus the optional final norm; with intermediates, nothing captured fails the stack, else the captured inputs are returned |
| LlamaVision.CapturedAreLayerInputs | nemo/collections/vlm/llama/model/vision.py:312-315 | each captured state is the input of its layer, i.e. the first l layers applied to the block input |
| LlamaVision.TakeBelowStep | nemo/collections/vlm/llama/model/vision.py:312-315 | for an increasing request list, one more layer appends that layer exactly when requested |
| LlamaVision.CapturedLayersOfSorted | nemo/collections/vlm/llama/model/vision.py:312-315 | for an increasing non-negative request list, the captured layers are the requested ones below the count, in request order |
| LlamaVision.CapturedExactlyRequested | nemo/collections/vlm/llama/model/vision.py:312-315 | an increasing request list within range is captured exactly |
| LlamaVision.To2Tuple | nemo/collections/vlm/llama/model/vision.py:93-96 | a scalar becomes a pair, an iterable is kept |
| LlamaVision.VisionGeometry | nemo/collections/vlm/llama/model/vision.py:587-612 | defined iff both sizes have two entries, no patch side is 0 and the row count is not negative; the grid is image // patch per axis (floor division) and there are grid0*grid1+1 positional rows; each failure names its cause, in Python's evaluation order (first axis indexed and divided before the second axis is indexed) |
| LlamaVision.ZeroFirstPatchSideComesFirst | nemo/collections/vlm/llama/model/vision.py:590-593 | a zero first patch side fails with ZeroPatch even when a size lacks its second entry; a missing second entry with a non-zero first side fails with TooFewDims |
| LlamaVision.GridCountsWholePatches | nemo/collections/vlm/llama/model/vision.py:590-593 | for a square image the grid counts the whole patches that fit along each side |
| LlamaVision.DefaultGeometry | nemo/collections/vlm/llama/model/vision.py:579-580 | the 560-pixel image with 14-pixel patches gives a 40 x 40 grid and 1601 positions |
| LlamaBase.Range | nemo/collections/vlm/llama/model/base.py:129 | `list(range(n))`: n elements, element i is i |
| LlamaBase.Reverse | nemo/collections/vlm/llama/model/base.py:132 | `[::-1]`: same length, element i is element n-1-i |
| LlamaBase.EveryKth | nemo/collections/vlm/llama/model/base.py:132 | `[::k]` keeps the first element and never lengthens |
| LlamaBase.FusionSchedule | nemo/collections/vlm/llama/model/base.py:128-132 | zero cross-attention layers divide by zero; a non-positive layer count makes a zero slice step |
| LlamaBase.Countdown | nemo/collections/vlm/llama/model/base.py:132 | starting at a, stepping down by k, staying in [0, a], strictly decreasing |
| LlamaBase.EveryKthOfDescending | nemo/collections/vlm/llama/model/base.py:132 | every k-th layer of the reversed layer list is the countdown from the top layer by k |
| LlamaBase.ScheduleIsCountdown | nemo/collections/vlm/llama/model/base.py:128-132 | the schedule is the reversed first m entries of that countdown, with step ceil(n/m) |
| LlamaBase.ReversedCountdownPrefix | nemo/collections/vlm/llama/model/base.py:132 | the reversed prefix is increasing, evenly spaced by k, and ends at the top layer |
| LlamaBase.FusionScheduleSpread | nemo/collections/vlm/llama/model/base.py:128-132 | with positive arguments the schedule has at most m layers, evenly spaced by ceil(n/m), and ends at the last layer |
| LlamaBase.DefaultFusionSchedule | nemo/collections/vlm/llama/model/base.py:126-132 | 32 layers with 8 cross-attention layers fuse at 3, 7, …, 31 |
| LlamaBase.VirtualPipelineCheck | nemo/collections/vlm/llama/model/base.py:136-141 | no check when the virtual size is unset or 0; a pipeline size of 0 divides by zero |
| LlamaBase.VirtualPipelineCheckIff | nemo/collections/vlm/llama/model/base.py:139-141 | with positive sizes the check passes iff layers // pipeline size is a multiple of the virtual size |
| LlamaBase.RequiredKeySet | nemo/collections/vlm/llama/model/base.py:68-73 | tokens and attention mask always; image keys iff first stage; labels and loss mask iff last stage; size 2 + 4 + 2 accordingly |
| LlamaBase.RequiredKeys | nemo/collections/vlm/llama/model/base.py:68-73 | the successive `update`s build that set |
| LlamaBase.Unwrap | nemo/collections/vlm/llama/model/base.py:63-66 | a 3-tuple yields its first element, anything else is kept |
| LlamaBase.MoveRequired | nemo/collections/vlm/llama/model/base.py:75-79 | same keys; a required tensor is moved to the device, everything else is kept |
| LlamaBase.MoveRequiredPlacesRequired | nemo/collections/vlm/llama/model/base.py:75-79 | after the move every required tensor is on the device and no value's data or kind changed |
| LlamaBase.DataStep | nemo/collections/vlm/llama/model/base.py:54-83 | a batch that is not a mapping fails; otherwise the output is the context-parallel slice of the moved batch |
| LlamaBase.Split | nemo/collections/vlm/llama/model/base.py:251 | `str.split(",")`: at least one piece, no piece contains the separator |
| LlamaBase.JoinSplit | nemo/collections/vlm/llama/model/base.py:251 | joining the pieces restores the string |
| LlamaBase.SplitJoin | nemo/collections/vlm/llama/model/base.py:251 | splitting a join of separator-free pieces gives the pieces back |
| LlamaBase.ParseInt | nemo/collections/vlm/llama/model/base.py:251 | `int()` accepts only a non-blank literal |
| LlamaBase.FormatIntParses | nemo/collections/vlm/llama/model/base.py:251 | `int(str(x)) == x` and the literal holds no comma |
| LlamaBase.ParseAll | nemo/collections/vlm/llama/model/base.py:251 | succeeds iff every piece parses, elementwise; otherwise reports a piece that does not |
| LlamaBase.ParseIndexListOfFormatted | nemo/collections/vlm/llama/model/base.py:251 | a comma-joined list of integers parses back to the list |
| LlamaBase.VisionInputDim | nemo/collections/vlm/llama/model/base.py:246-254 | 1280 without intermediates; (count + 1) * 1280 with them; a bad literal fails |
| LlamaBase.DefaultIntermediatesParse | nemo/collections/vlm/llama/model/base.py:246-251 | "3,7,15,23,30" parses to [3, 7, 15, 23, 30] |
| LlamaBase.DefaultIntermediateLayers | nemo/collections/vlm/llama/model/base.py:246-254 | the default makes the input dimension 7680, and an encoder of at least 31 layers captures exactly those five layers |
| LlamaBase.AspectRatios | nemo/collections/vlm/llama/model/base.py:347-352 | a fresh ones tensor with each sample's ratios written into its first rows |
| LlamaBase.TransformAll | nemo/collections/vlm/llama/model/base.py:340-342 | element [i][j] is the transform of image j of sample i |
| LlamaBase.ChunksOf | nemo/collections/vlm/llama/model/base.py:343-345 | element [i][j] is the chunk part of that transform |
| LlamaBase.RatiosOf | nemo/collections/vlm/llama/model/base.py:340-352 | element [i][j] is the aspect-ratio part of that transform |
| LlamaBase.EncoderInputs | nemo/collections/vlm/llama/model/base.py:339-359 | fails iff some image's chunks do not fit the slots; the chunk counts are the transformed images' chunk counts, the ratio tensor holds each image's ratio padded with ones, and the fresh stacked tensor holds each transformed chunk at [i, j, k] with zeros elsewhere |
| LlamaBase.FitsIffChunksFit | nemo/collections/vlm/llama/model/base.py:343-359 | stacking the transformed images with max_num_images slots succeeds exactly when every image's chunks fit, since every image index is below the largest image count |
| LlamaBase.StackedPlacement | nemo/collections/vlm/llama/model/base.py:343-359 | the stacked tensor's slot [i, j, k] is chunk k of the transform of image j of sample i, zero elsewhere |
| LlamaBase.ComputeVisionInputs | nemo/collections/vlm/llama/model/base.py:321-395 | succeeds iff the lengths agree, the batch is not empty, the text length is not negative and (when there are images) every image's chunks fit, each failure naming its cause and leaving the masks as they were; with no images the encoder is skipped and each sample counts max_num_chunks; otherwise the chunk counts, ratios and stacked chunks are those of the encoder inputs; the fresh padded grid is 0 exactly on the cells the clamped spans and chunk counts open; visited masks get their end clamped and no other mask changes |
| Lora.GlobMatchSound | nemo/collections/llm/peft/lora.py:228-233 | a pattern match means the name splits into pieces, with stars matching any newline-free text and dots any non-newline character |
| Lora.GlobMatchComplete | nemo/collections/llm/peft/lora.py:228-233 | every such split is found by the matcher |
| Lora.GlobMatchIff | nemo/collections/llm/peft/lora.py:228-233 | the matcher decides exactly that meaning |
| Lora.WildcardMatch | nemo/collections/llm/peft/lora.py:228-233 | no key gives None; otherwise the regex `^pattern$` matches, with `$` also matching before one trailing newline |
| Lora.FullName | nemo/collections/llm/peft/lora.py:235 | None iff there is no name and no non-empty prefix; with a non-empty prefix the full name is the prefix, a dot and the name as an f-string shows it, so its length is their sum; without one it is the name itself |
| Lora.AnyMatches | nemo/collections/llm/peft/lora.py:236 | true iff some pattern matches the full name |
| Lora.Targeted | nemo/collections/llm/peft/lora.py:236 | true iff the name is a target or some target matches the full name; a targeted module has a full name |
| Lora.DefaultTargetsByName | nemo/collections/llm/peft/lora.py:203-212 | every default target module name is adapted under any prefix |
| Lora.UnnamedNeverTargeted | nemo/collections/llm/peft/lora.py:235-236 | a module with neither name nor prefix is never adapted |
| Lora.DigitRunFromIff | nemo/collections/llm/peft/lora.py:156-157 | the backtracking scan finds a split into `.experts.`, a character and a digit run iff one exists |
| Lora.ExpertTail | nemo/collections/llm/peft/lora.py:156-157 | true iff the name has the expert-linear shape |
| Lora.IsExpertLinear | nemo/collections/llm/peft/lora.py:156-157 | true iff the name, or the name less one trailing newline, has the expert shape: no newline, then the stem, one character, a digit run and `.linear_fc1` or `.linear_fc2` at the end |
| Lora.ExpertNameIsExpertLinear | nemo/collections/llm/peft/lora.py:156-157 | a newline-free name of the form `…mlp.experts.local_experts` + one character + digits + `.linear_fc1` or `.linear_fc2` is an expert linear |
| Lora.Layer.constructor | nemo/collections/llm/peft/lora.py:237-261 | a layer with its kind, sizes and sequence-parallel flags, layer-norm outputs off |
| Lora.ParallelSizing | nemo/collections/llm/peft/lora.py:237-261 | which kinds are sized; input parallel iff a row kind; Transformer Engine shards are scaled by the tensor-parallel size, Megatron layers kept |
| Lora.SizingWithoutTensorParallelism | nemo/collections/llm/peft/lora.py:237-261 | with tensor-parallel size 1 the adapter sizes are the layer sizes |
| Lora.LayerNormColumnIgnoresHaveTE | nemo/collections/llm/peft/lora.py:237 | the precedence of `and` over `or` lets a layer-norm column layer through without Transformer Engine, and not a plain Transformer Engine column layer |
| Lora.UsesQkvAdapter | nemo/collections/llm/peft/lora.py:263 | true iff "qkv" occurs in the lower-cased full name |
| Lora.Transform | nemo/collections/llm/peft/lora.py:214-292 | untargeted modules are returned unchanged; parallel kinds get parallel-adapter arguments; plain linears get the QKV or plain adapter; other kinds raise; only the column branch sets the layer-norm flags |
| Lora.ParallelAddForward | nemo/collections/llm/peft/lora.py:50-53 | the output minus the linear output is the adapter's output on the layer-norm output; the bias passes through |
| Lora.ParallelAddOfZeroAdapter | nemo/collections/llm/peft/lora.py:50-53 | a zero adapter leaves the wrapped layer's output unchanged |
| Lora.Linear.constructor | nemo/collections/llm/peft/lora.py:73-75 | an `nn.Linear` with its weight and bias, both trainable |
| Lora.Linear.Forward | nemo/collections/llm/peft/lora.py:88 | `W x`, plus the bias when there is one |
| Lora.ConstructionError | nemo/collections/llm/peft/lora.py:65-84 | none iff dim > 0, dropout in [0, 1] and position pre or post; dim 0 gives the division error first |
| Lora.InitialA | nemo/collections/llm/peft/lora.py:76-81 | `lora_a` has shape in x dim, drawn by the chosen initialiser |
| Lora.Freeze | nemo/collections/llm/peft/lora.py:69-71 | the weight, and the bias when present, stop requiring gradients; values unchanged |
| Lora.NewLinearAdapter | nemo/collections/llm/peft/lora.py:56-85 | fails iff the construction error says so, with that error; dim 0 leaves the layer untouched, otherwise it is frozen; success gives scale alpha/dim, the drawn A and a zero B |
| Lora.LinearAdapterForward | nemo/collections/llm/peft/lora.py:87-96 | the output has the base output's width |
| Lora.FreshLinearAdapterKeepsOutput | nemo/collections/llm/peft/lora.py:77-96 | with the zero B a fresh adapter reproduces the original layer's output |
| Lora.InitialQkvA | nemo/collections/llm/peft/lora.py:119-132 | three `lora_a` weights of shape dim x in, drawn by the chosen initialiser |
| Lora.NewQkvAdapter | nemo/collections/llm/peft/lora.py:99-135 | as written, B keeps `nn.Linear`'s default draws; same failure cases as the plain adapter, and on a non-zero rank the weight, and the bias when there is one, are frozen and unchanged |
| Lora.NewQkvAdapterZeroB | nemo/collections/llm/peft/lora.py:99-135 | the same constructor with the three B weights started at zero; same failure cases and the same freezing of weight and bias |
| Lora.QkvForward | nemo/collections/llm/peft/lora.py:138-152 | without post-dropout, block k of the output is the base output plus branch k (on the input after any pre-dropout); with post-dropout, the output is the base output plus the dropout of the three branches concatenated |
| Lora.BranchesSideBySide | nemo/collections/llm/peft/lora.py:143-148 | entry j of block k of the concatenation is entry j of branch k |
| Lora.ZeroBQkvAdapterKeepsOutput | nemo/collections/llm/peft/lora.py:138-152 | with every B zero the QKV adapter reproduces the original output |
| Lora.FreshQkvAdapterCanChangeOutput | nemo/collections/llm/peft/lora.py:123-126 | the adapter that NewQkvAdapter promises (A from InitialQkvA, B from the default Build) changes the output when B is not zeroed: rank 1, alpha 1 and every draw 0.5 turn [0,0,0] into [0.25,0.25,0.25] |
| Lora.MergedWeight | nemo/collections/llm/peft/lora.py:324-331 | the merged weight has the base weight's shape |
| Lora.MergedWeightComputesAdaptedOutput | nemo/collections/llm/peft/lora.py:324-332 | the merged layer computes W x + (alpha/dim) B (A x), i.e. the layer and its low-rank path together |
| Lora.Merge | nemo/collections/llm/peft/lora.py:321-333 | non-adapter modules are returned untouched; an adapter of rank 0 fails with a division by zero and nothing is written; otherwise the wrapped weight is overwritten with the merged weight and nothing else changes |
| Flops.FamilyOf | nemo/lightning/pytorch/callbacks/flops_callback.py:167-181 | a family iff the name is one of the six keys, and then the key of that family |
| Flops.FirstMatch | nemo/lightning/pytorch/callbacks/flops_callback.py:177 | none iff no key from i on occurs; otherwise the first key that occurs in the name |
| Flops.FirstMatchAt | nemo/lightning/pytorch/callbacks/flops_callback.py:177-178 | the search stops at the first key that occurs |
| Flops.ResolveModelName | nemo/lightning/pytorch/callbacks/flops_callback.py:176-178 | no name stays none; a name containing a key becomes the first key, in the map's order, that it contains; otherwise it is kept |
| Flops.KeysResolveToThemselves | nemo/lightning/pytorch/callbacks/flops_callback.py:167-178 | each key resolves to itself: no earlier key is a substring of a later one |
| Flops.ResolveModelNameIdempotent | nemo/lightning/pytorch/callbacks/flops_callback.py:176-178 | resolving twice is resolving once, so repeated calls pick the same family |
| Flops.Gpt3Count | nemo/lightning/pytorch/callbacks/flops_callback.py:189-197 | the gpt3 count is non-negative on non-negative sizes and zero for an empty batch or sequence |
| Flops.DecoderFlops | nemo/lightning/pytorch/callbacks/flops_callback.py:199-273 | the decoder formulas are non-negative on non-negative sizes and zero for an empty batch or sequence |
| Flops.ModelFlopsOfNonNegative | nemo/lightning/pytorch/callbacks/flops_callback.py:189-287 | ModelFlopsOf holds the six family formulas and is dispatched on the family; this lemma is its contract: every family's FLOPs are non-negative on non-negative sizes and zero for an empty batch or sequence |
| Flops.Llama2MatchesLlama3 | nemo/lightning/pytorch/callbacks/flops_callback.py:199-235 | the llama2 and llama3 formulas agree when their vocabularies do |
| Flops.MixtralTopOneIsLlama | nemo/lightning/pytorch/callbacks/flops_callback.py:256-273 | with top-1 routing the mixtral formula is the llama formula |
| Flops.NemotronIsLlamaWithSmallerFfn | nemo/lightning/pytorch/callbacks/flops_callback.py:237-254 | llama minus nemotron is 6 g s L h ffn |
| Flops.Gpt3InDecoderShape | nemo/lightning/pytorch/callbacks/flops_callback.py:189-197 | gpt3 is g s L h² (72 + 12 s/h + 6 V/(L h)) |
| Flops.LinearInBatchSize | nemo/lightning/pytorch/callbacks/flops_callback.py:189-287 | every family's FLOPs are the batch size times the per-sample FLOPs |
| Flops.ModelFlops | nemo/lightning/pytorch/callbacks/flops_callback.py:179-187 | unknown iff the name is not a key; a known family succeeds iff its formula divides by no zero size, and fails with a division by zero otherwise; on success the total is the family formula and the per-GPU value times the device count is the total |
| Flops.Devices | nemo/lightning/pytorch/callbacks/flops_callback.py:184 | the world size when distributed, else 1; always positive |
| Flops.OverDevices | nemo/lightning/pytorch/callbacks/flops_callback.py:185-187 | the total and its even share per device |
| Flops.StepTimes | nemo/lightning/pytorch/callbacks/flops_callback.py:154-155 | a scalar becomes a one-element list, a list is kept |
| Flops.SecondHalfMean | nemo/lightning/pytorch/callbacks/flops_callback.py:157-158 | undefined iff there are no step times |
| Flops.TflopsPerSecPerGpu | nemo/lightning/pytorch/callbacks/flops_callback.py:154-160 | no step times fail; with step times it succeeds iff the second-half mean is not zero; on success the result times 1e12 times the mean is the per-GPU FLOPs |
| Flops.SteadyStepTime | nemo/lightning/pytorch/callbacks/flops_callback.py:156-160 | a steady second half at t gives FLOPs per GPU / (1e12 t), whatever the warm-up took |
| Flops.ScalarStepTime | nemo/lightning/pytorch/callbacks/flops_callback.py:154-160 | a scalar step time t gives FLOPs per GPU / (1e12 t) |
| Flops.FlopsMeasurementCallback.constructor | nemo/lightning/pytorch/callbacks/flops_callback.py:85-111 | copies the sizes, defaults query groups to the head count, lower-cases the name |
| Flops.FlopsMeasurementCallback.EvalModelFlops | nemo/lightning/pytorch/callbacks/flops_callback.py:162-187 | `self.model` becomes its resolved name and the result is the FLOPs of that name |
| Flops.FlopsMeasurementCallback.EvalTflopsPerSecPerGpu | nemo/lightning/pytorch/callbacks/flops_callback.py:142-160 | model errors come first; otherwise TFLOPs per second per GPU of the per-GPU FLOPs |
| LlavaNext.LlavaNextTextSample.constructor | nemo/collections/vlm/neva/data/llava_next_energon.py:28-29 | an empty sample with zero media tiles |
| LlavaNext.NextTokenShift | nemo/collections/vlm/neva/data/llava_next_energon.py:89-90 | shifted tokens and labels have equal length, one less than the input, and align position i with label i+1 |
| LlavaNext.Encode | nemo/collections/vlm/neva/data/llava_next_energon.py:67-101 | the output sample holds the key, the processed image, the shifted tokens and labels, their loss mask, and the tile count |
| LlavaNext.PadSequence | nemo/collections/vlm/neva/data/llava_next_energon.py:149-150 | every row padded on the right with 0 to the longest row's length, its prefix kept |
| LlavaNext.PadSequenceIdempotent | nemo/collections/vlm/neva/data/llava_next_energon.py:149-150 | padding twice is padding once |
| LlavaNext.PadSequenceOfEqualLengths | nemo/collections/vlm/neva/data/llava_next_energon.py:149-150 | rows of equal length are kept |
| LlavaNext.TileCountsAddUp | nemo/collections/vlm/neva/data/llava_next_energon.py:100-153 | the batch's image rows number the sum of the tile counts |
| LlavaNext.ConcatTilesPlacesSamples | nemo/collections/vlm/neva/data/llava_next_energon.py:147 | tile j of sample i sits after the tiles of the samples before it |
| LlavaNext.ImageLists | nemo/collections/vlm/neva/data/llava_next_energon.py:139 | element i is sample i's images |
| LlavaNext.TokenRows | nemo/collections/vlm/neva/data/llava_next_energon.py:140 | element i is sample i's tokens |
| LlavaNext.LabelRows | nemo/collections/vlm/neva/data/llava_next_energon.py:141 | element i is sample i's labels |
| LlavaNext.LossMaskRows | nemo/collections/vlm/neva/data/llava_next_energon.py:142 | element i is sample i's loss mask |
| LlavaNext.Batch | nemo/collections/vlm/neva/data/llava_next_energon.py:122-161 | no samples fail; keys and tile counts in sample order; the images concatenated, tokens and labels padded, loss masks stacked |
| DialogueNearestNeighbour.PromptSentence | nemo/collections/nlp/data/dialogue/dataset/dialogue_nearest_neighbour_dataset.py:51 | the template, one space, then the candidate |
| DialogueNearestNeighbour.SentencesLayout | nemo/collections/nlp/data/dialogue/dataset/dialogue_nearest_neighbour_dataset.py:46-54 | the utterance first, then one prompt sentence per candidate, one label per sentence |
| DialogueNearestNeighbour.LabelsMarkGoldIntent | nemo/collections/nlp/data/dialogue/dataset/dialogue_nearest_neighbour_dataset.py:49-53 | -1 for the utterance; 1 iff the candidate is the gold intent and 0 iff not |
| DialogueNearestNeighbour.PositiveLabelsCountGold | nemo/collections/nlp/data/dialogue/dataset/dialogue_nearest_neighbour_dataset.py:50-53 | the number of 1 labels is the number of times the gold intent is a candidate |
| DialogueNearestNeighbour.DialogueNearestNeighbourDataset.constructor | nemo/collections/nlp/data/dialogue/dataset/dialogue_nearest_neighbour_dataset.py:29-39 | the dataset holds one example per raw feature |
| DialogueNearestNeighbour.DialogueNearestNeighbourDataset.EncodeFeature | nemo/collections/nlp/data/dialogue/dataset/dialogue_nearest_neighbour_dataset.py:45-62 | the candidate loop builds that feature's sentences and labels and tokenizes them |
| DialogueNearestNeighbour.DialogueNearestNeighbourDataset.CreateExamples | nemo/collections/nlp/data/dialogue/dataset/dialogue_nearest_neighbour_dataset.py:41-63 | fails iff the argument is longer than the stored features; otherwise example i is built from stored feature i |
| DialogueNearestNeighbour.DialogueNearestNeighbourDataset.Length | nemo/collections/nlp/data/dialogue/dataset/dialogue_nearest_neighbour_dataset.py:65-66 | the number of raw features |
| DialogueNearestNeighbour.DialogueNearestNeighbourDataset.GetItem | nemo/collections/nlp/data/dialogue/dataset/dialogue_nearest_neighbour_dataset.py:68-72 | defined iff -len <= idx < len; gives the ids, mask and labels of the feature at idx, counting from the end when negative |
| InternVit.GroupsAreDisjoint | nemo/collections/vlm/vision/intern_vit.py:331-390 | no source key is shared between the language-model, projector, image-newline and encoder groups |
| InternVit.Projector | nemo/collections/vlm/vision/intern_vit.py:340-359 | none iff neither projector key is present; the encoder-style entries win when both are |
| InternVit.Encoder | nemo/collections/vlm/vision/intern_vit.py:364-390 | none iff neither encoder key is present; the class-embedding key selects the wildcard entry first |
| InternVit.MappingFor | nemo/collections/vlm/vision/intern_vit.py:330-396 | an unmapped projector is reported first, then an unmapped encoder; on success no transforms are passed |
| InternVit.LanguageModelEntriesKept | nemo/collections/vlm/vision/intern_vit.py:331-339 | the seven language-model entries always survive unchanged |
| InternVit.ProjectorEntries | nemo/collections/vlm/vision/intern_vit.py:340-357 | the projector targets follow the recognised key |
| InternVit.ImageNewlineEntry | nemo/collections/vlm/vision/intern_vit.py:361-362 | `image_newline` is mapped iff requested, to itself |
| InternVit.EncoderEntries | nemo/collections/vlm/vision/intern_vit.py:364-390 | an InternViT encoder gets the one wildcard entry and no explicit one; a CLIP-style encoder gets all explicit entries and no wildcard |
| InternVit.ConvertState | nemo/collections/vlm/vision/intern_vit.py:330-396 | the successive `update`s produce that mapping or that error |

## Left out

- Tensors, devices and dtypes: tensors are nested sequences of integers or reals. `.cuda()` is a flag on a tensor value. Float rounding, `bfloat16` and `int32`/`int64` widths are not modelled; the mask sentinel `torch.finfo(dtype).min` is a separate cell value.
- Lora.WildcardMatch: only `*` and `.` are treated as regex operators. Every other regex metacharacter in a target pattern is matched literally.
- Lora.QkvForward: requires the layer's output width to be a multiple of three. For widths 2, 4, 5, 7, … the source's `res + lora_res` raises on the shape mismatch. For width 1 the branches are 0 wide and `res` broadcasts against them, so the source returns an empty output without raising. The model represents neither case.
- Lora.LinearAdapterForward: states only the output width in its own contract. Its behaviour is given by Lora.FreshLinearAdapterKeepsOutput.
- Lora.Merge: requires the adapter's shapes to agree with the base weight, and a rank that is not negative. A shape mismatch raises in torch, which the model does not represent; a negative rank cannot be the width of a weight.
- Lora.Transform: the plain-`nn.Linear` branch records which adapter is built and with which arguments. It does not build the adapter; Lora.NewLinearAdapter and Lora.NewQkvAdapter do.
- `ParallelLinearAdapter` and its Megatron internals are not part of this model. Their constructor arguments are what Lora.Transform states.
- Dropout, `nn.Linear`'s default initialisation, `xavier` and `kaiming` draws are function-valued parameters.
- The tokenizer, prompt template, label and loss-mask computation and image processor of the LLaVA-NeXT encoder are parameters. So is energon's `batch_pad_stack`. `batch_list` is treated as the identity.
- LlavaNext.Batch: `torch.cat` requires the tiles' trailing dimensions to agree. The model does not check that, because tiles are flattened.
- `pad_sequence` of an empty list is not modelled, because `torch.cat` of the empty image list raises first.
- The dialogue processor's `get_dialog_examples` and the tokenizer are parameters. A missing `utterance`, `labels` or `possible_labels` field, which raises `KeyError` in the source, is not modelled: the raw feature is a record with those fields.
- Flops: `on_train_start`, `on_train_end` and `read_tb_log` read loggers and TensorBoard files (I/O) and are not modelled. The vocabulary-size map is a parameter.
- Flops.TflopsPerSecPerGpu: an empty or zero mean, which gives NaN or infinity in numpy, is an error in the model.
- LlamaBase.ParseInt: strips ASCII whitespace only and reads ASCII digits only. Python's `int()` also strips Unicode whitespace and accepts other Unicode decimal digits.
- PyOps.Lower: `str.lower()` is modelled for ASCII letters only.
- In `compute_vision_tokens_masks`, three steps are not modelled: the vision encoder call, the cross-attention key/value caches and `_get_xattn_mask`. The model stops at the encoder inputs and the padded masks.
- `forward_with_return_intermediate`: the checkpointed path and CUDA graphs are modelled as the plain layer loop. The context that each layer returns and hands to the next layer is part of the opaque state H that the layer function maps. Rotary embeddings and packed-sequence arguments are passed through unread. `torch.stack` of the captured states is represented by the list of captured states.
- The remaining classes of `vision.py` and `base.py` are configuration and module wiring: rotary scaling, the transformer layers and the model classes. They are not part of this model.
- ForwardWithReturnIntermediate: batched leading dimensions are left out. The hidden state is one opaque value H.
- InternVit.ConvertState: the tensor transfer that `io.apply_transforms` performs is not modelled. Only the mapping and transforms handed to it are.

## Findings

| source | as written | input that shows it | evidently intended | confidence | as-written member | corrected member |
|---|---|---|---|---|---|---|
| nemo/collections/llm/peft/lora.py:123-126 | `LinearAdapterForQKV` builds each `lora_b[k]` as an `nn.Linear`, whose default initialisation is random, and never zeroes it | one input, three outputs, rank 1, every weight drawn as 0.5, original output [0, 0, 0], input [1]: the fresh adapter outputs [0.25, 0.25, 0.25] | `lora_b` starts at zero, as in `LinearAdapter` (lora.py:77), so that a fresh adapter leaves the layer's output unchanged | medium, not executed | Lora.NewQkvAdapter, Lora.FreshQkvAdapterCanChangeOutput | Lora.NewQkvAdapterZeroB, Lora.ZeroBQkvAdapterKeepsOutput |
