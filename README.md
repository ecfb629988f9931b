# Flash Shell tensor-parallel sharding, in Dafny

This project models the integer and configuration logic of the CodeShell decoder in
text-generation-inference (`flash_shell_modeling.py`). It covers the following pieces:

- **Configuration.** `ShellConfig`: when `num_key_value_heads` is not given it falls
  back to `num_attention_heads`.
- **Fused attention loader.** `_load_attention` / `load_attention`:
  - on shard `rank` out of `world_size`, the Q, K and V ranges inside the fused
    `[Q | K | V]` attention weight;
  - row slicing, or column slicing when `config.transpose` is set;
  - the `torch.cat(dim=0)` that follows in both layouts;
  - the bias, sliced by the same ranges;
  - the divisibility assertions;
  - the GPTQ branch, which builds a `NotImplementedError` but never raises it, so it
    returns no layer.
- **Row loader.** `load_row`: the weight's source follows the layout, and only rank 0
  carries the bias.
- **Attention construction.** `FlashShellAttention.__init__`:
  - head size;
  - the divisibility check that raises `ValueError`;
  - the sharded head counts, `q_size` and `kv_size`;
  - `num_groups`;
  - the grouped-query head map `arange(nkv).repeat_interleave(groups)`;
  - every Python exception on the way, in the order Python raises them.
- **Attention forward.** `FlashShellAttention.forward`:
  - splitting the fused projection's output;
  - the rotary embedding, passed in as a kernel function;
  - the key/value cache write at `slots`, made after the split and the rotary
    embedding and before either attention kernel (a class, `Attention.PagedKvCache`);
  - the TypeError a layer built under GPTQ raises, since it has no fused projection;
  - exactly one attention kernel: flash attention during prefill, or paged attention
    over the updated cache during decode;
  - the output projection.
- **Feed-forward block.** `ShellMLP`: choosing the activation and the per-shard
  intermediate size.
- **Decoder stack.** `FlashShellLayer` / `FlashShellModel`:
  - construction order, and the head counts read off `layers[0]`;
  - the loop that passes hidden states and the residual from layer to layer (a method
    with a loop invariant);
  - the `lm_head_indices` row selection in `FlashShellForCausalLM.forward`.

Each shard's sharding decisions are a pure function of `(rank, world_size, config)`.
The lemmas prove the following about them:

- the shards' ranges lie inside their segments and come in Q, K, V order;
- each index belongs to exactly one rank;
- concatenating all shards' pieces in rank order gives back the checkpoint tensor. For
  the loaded weights this is proved in the row layout only; the bias is covered in both
  layouts, since it is sliced the same way in each;
- exactly one rank adds the row bias to the all-reduce;
- query head `h` reads KV head `h / groups`.

The model also shows a gap in the constructor: it never checks `num_key_value_heads %
world_size`. Suppose the head arithmetic succeeds: `num_attention_heads` is non-zero and
divisible by `world_size`, and `hidden_size >= num_attention_heads`, so the head size is
non-zero. Take the row layout, no GPTQ, and a shard that still gets at least one KV head
(`num_key_value_heads >= world_size`). If `kv_size` divides by the number of shards but the
KV heads do not, construction succeeds. The fused projection's width then differs from the
split in `forward`, so `forward` fails with a shape error. With fewer KV heads than shards,
construction instead raises ZeroDivisionError on `num_heads // num_key_value_heads`.
`Attention.SplitWidthsMatchLoader` proves the width condition in both directions, and
`Attention.SplitWidthMismatchExample` gives a concrete configuration. The model reproduces
this behaviour as written.

The transposed layout needs the same head arithmetic to succeed, plus no GPTQ, a `kv_size`
that divides by the number of shards (so the assertions pass), and a checkpoint whose
width is `q_size + 2 * kv_size`. Construction then fails with torch's shape error exactly
when the KV head count differs from the query head count
(`Attention.TransposedGroupedQueryFails`). A `kv_size` that does not divide raises the
AssertionError first.

Modules: `Wrappers` (Option, Result, the Python exceptions), `Tensors` (Python slicing,
`torch.cat`), `NatArith` (division facts), `ShellConfigs`, `Loader`, `Attention`,
`ModelStack`.

## Model

| member | source | states |
|---|---|---|
| Tensors.Slice | server/text_generation_server/models/custom_modeling/flash_shell_modeling.py:129-131 | Python's clamped `s[lo:hi]`: its length, its elements are `s[lo+i]`, and it equals `s[lo..hi]` when in bounds |
| Tensors.SliceRows | server/text_generation_server/models/custom_modeling/flash_shell_modeling.py:129-131 | first-axis slice keeps the width and holds rows `lo+i` |
| Tensors.SliceCols | server/text_generation_server/models/custom_modeling/flash_shell_modeling.py:125-127 | second-axis slice keeps every row, each cut to `[lo, hi)` with a clamped width |
| Tensors.Cat0 | server/text_generation_server/models/custom_modeling/flash_shell_modeling.py:133 | `torch.cat(dim=0)` succeeds iff the three widths agree (shape error otherwise) and stacks a's, b's, then c's rows |
| ShellConfigs.NewShellConfig | server/text_generation_server/models/custom_modeling/flash_shell_modeling.py:72-75 | an omitted `num_key_value_heads` becomes `num_attention_heads`; a given one and every other field are kept |
| ShellConfigs.DefaultConfigShape | server/text_generation_server/models/custom_modeling/flash_shell_modeling.py:45-50 | the default configuration has 32 KV heads, 128-wide heads and the tanh-approximated GeLU |
| ShellConfigs.ContainsSubstring | server/text_generation_server/models/custom_modeling/flash_shell_modeling.py:275 | the empty string is contained in every string; specified by ContainsSubstringIff |
| ShellConfigs.ContainsSubstringIff | server/text_generation_server/models/custom_modeling/flash_shell_modeling.py:275 | the recursive `t in s` holds iff `t` occurs in `s` at some index |
| ShellConfigs.SelectActivation | server/text_generation_server/models/custom_modeling/flash_shell_modeling.py:272-282 | GeLU iff the name contains "gelu"; tanh approximation iff the name is `gelu_fast` or `gelu_pytorch_tanh`; otherwise the activation-table entry, KeyError iff absent |
| ShellConfigs.NewShellMlp | server/text_generation_server/models/custom_modeling/flash_shell_modeling.py:272-298 | fails exactly when the activation lookup fails; per-shard intermediate size is the floor of `intermediate_size / world_size` |
| Loader.SliceQkv | server/text_generation_server/models/custom_modeling/flash_shell_modeling.py:124-131 | when transposed, row `i` of each slice is row `i` of the weight cut to the Q, K or V column range; otherwise the slices are the Q, K and V row ranges at the full width |
| Loader.ShardRanges | server/text_generation_server/models/custom_modeling/flash_shell_modeling.py:109-122 | AssertionError iff `q_size` or `kv_size` does not divide by `world_size`; otherwise rank's `rank`-th block of each of Q, K (offset `q_size`) and V (offset `q_size+kv_size`), with Q before K before V |
| Loader.ShardRangesInSegments | server/text_generation_server/models/custom_modeling/flash_shell_modeling.py:109-122 | each block starts `rank` block widths into its segment, is one block wide and ends inside the segment |
| Loader.RankOwnsIndex | server/text_generation_server/models/custom_modeling/flash_shell_modeling.py:110-122 | every index of a segment lies in exactly one rank's block, that of rank (offset / block width) |
| Loader.FusedSliceParts | server/text_generation_server/models/custom_modeling/flash_shell_modeling.py:129-133 | a shard's row-sliced fused tensor is `qb + 2*kvb` long and holds its Q, K, V blocks of the checkpoint back to back |
| Loader.ShardSlicesAt | server/text_generation_server/models/custom_modeling/flash_shell_modeling.py:110-133 | entry `rank` of the list of all shards' fused slices is that rank's fused slice |
| Loader.GatherSegment | server/text_generation_server/models/custom_modeling/flash_shell_modeling.py:110-122 | all ranks' pieces of one segment, in rank order, are exactly that segment |
| Loader.UnshardBlocks | server/text_generation_server/models/custom_modeling/flash_shell_modeling.py:110-133 | all shards' Q pieces, then K pieces, then V pieces, in rank order, rebuild the full fused tensor |
| Loader.UnshardRestores | server/text_generation_server/models/custom_modeling/flash_shell_modeling.py:109-133 | with divisible sizes, un-sharding the shards' fused slices gives back the checkpoint tensor |
| Loader.LoadFusedAttention | server/text_generation_server/models/custom_modeling/flash_shell_modeling.py:102-147 | fails only with AssertionError or ShapeError; specified by LoadFusedAttentionErrors, LoadRowLayout and LoadColumnLayout |
| Loader.LoadFusedAttentionErrors | server/text_generation_server/models/custom_modeling/flash_shell_modeling.py:109-133 | AssertionError iff a size does not divide; any other failure is the transposed layout's shape error; the row layout with divisible sizes always loads |
| Loader.LoadRowLayout | server/text_generation_server/models/custom_modeling/flash_shell_modeling.py:128-142 | row layout: weight is the Q, K, V row slices concatenated at the checkpoint's width; the bias is sliced by the same ranges; quantize passed on |
| Loader.LoadColumnLayout | server/text_generation_server/models/custom_modeling/flash_shell_modeling.py:124-142 | transposed layout: loads iff the three column slices are equally wide, then stacks every row's Q slices, K slices, V slices along axis 0; bias sliced along its only axis by the same ranges |
| Loader.LoadAttention | server/text_generation_server/models/custom_modeling/flash_shell_modeling.py:92-100 | GPTQ gives no layer and no error; otherwise exactly the result or error of `_load_attention` |
| Loader.RowLayoutShardsRestore | server/text_generation_server/models/custom_modeling/flash_shell_modeling.py:102-147 | in the row layout every rank loads a `q/ws + 2*kv/ws`-row weight that is its fused slice, and the shards' weights and biases un-shard to the checkpoint's |
| Loader.TransposedLayoutShape | server/text_generation_server/models/custom_modeling/flash_shell_modeling.py:124-133 | transposed full-width checkpoint: loads iff `q_size == kv_size`, then with 3x the rows and a Q block of columns; otherwise a shape error |
| Loader.LoadRow | server/text_generation_server/models/custom_modeling/flash_shell_modeling.py:149-162 | bias present iff requested and rank 0, and then the full bias; weight source is the transposed first-axis shard iff `transpose`; quantize passed on |
| Loader.ExactlyRankZeroHoldsBias | server/text_generation_server/models/custom_modeling/flash_shell_modeling.py:155-159 | among ranks 0..ws-1 the bias holders are exactly {0} when a bias is requested, none otherwise |
| Loader.BiasAddedOnce | server/text_generation_server/models/custom_modeling/flash_shell_modeling.py:155-157 | summing the shards' bias contributions over ranks 0..n-1 yields the full bias once, for any n >= 1 |
| Attention.Arange | server/text_generation_server/models/custom_modeling/flash_shell_modeling.py:204-205 | `arange(0, n)` has n entries, entry i being i |
| Attention.RepeatInterleave | server/text_generation_server/models/custom_modeling/flash_shell_modeling.py:206 | `repeat_interleave(k)` has `len * k` entries |
| Attention.RepeatInterleaveBlock | server/text_generation_server/models/custom_modeling/flash_shell_modeling.py:206 | the k entries of block j are all `xs[j]` |
| Attention.RepeatInterleaveAt | server/text_generation_server/models/custom_modeling/flash_shell_modeling.py:206 | entry i is `xs[i / k]` |
| Attention.KvHeadMapping | server/text_generation_server/models/custom_modeling/flash_shell_modeling.py:204-206 | one entry per KV head per group; contents given by KvHeadMappingSpec and KvHeadGroup |
| Attention.KvHeadMappingSpec | server/text_generation_server/models/custom_modeling/flash_shell_modeling.py:203-206 | the head map has `nkv * groups` entries, entry h is `h / groups` and below `nkv`, and the map is non-decreasing |
| Attention.KvHeadGroup | server/text_generation_server/models/custom_modeling/flash_shell_modeling.py:203-206 | query head h reads KV head j iff `j*groups <= h < (j+1)*groups` |
| Attention.EightHeadsTwoKvHeads | server/text_generation_server/models/custom_modeling/flash_shell_modeling.py:204-206 | 2 KV heads with 4 groups give `[0,0,0,0,1,1,1,1]` |
| Attention.ShardHeads | server/text_generation_server/models/custom_modeling/flash_shell_modeling.py:172-196 | ZeroDivisionError with no heads or a zero head size, then ValueError iff heads do not divide by the shards; otherwise head size, sharded counts, `q_size` and `kv_size`, with `q_size` divisible by the shards |
| Attention.NewAttention | server/text_generation_server/models/custom_modeling/flash_shell_modeling.py:172-206 | never raises ValueError without a head-count mismatch; specified by NewAttentionSpec |
| Attention.TransposedGroupedQueryFails | server/text_generation_server/models/custom_modeling/flash_shell_modeling.py:124-133 | transposed full-width checkpoint past the assertions: construction gives a shape error iff KV heads differ from query heads |
| Attention.NewAttentionSpec | server/text_generation_server/models/custom_modeling/flash_shell_modeling.py:172-206 | the head arithmetic's error, ValueError iff heads do not divide by the shards, then the loader's error, then ZeroDivisionError iff the shard has no KV head; succeeds iff none fails, with head size, sharded counts, groups, head map, the loader's projection (none iff GPTQ) and the rank's row projection |
| Attention.OnlyKvAssertionFires | server/text_generation_server/models/custom_modeling/flash_shell_modeling.py:185-198 | construction fails an assertion iff it gets past the ValueError, is not GPTQ, and `kv_size` does not divide (the `q_size` assertion cannot fire) |
| Attention.SplitWidthsMatchLoader | server/text_generation_server/models/custom_modeling/flash_shell_modeling.py:221-227 | in the row layout the loaded fused weight is as wide as the forward split iff the KV heads divide by the shards |
| Attention.ShardWidthsAgree | server/text_generation_server/models/custom_modeling/flash_shell_modeling.py:190-196 | `q/ws + 2*(kv/ws)` equals `hs*(nh/ws) + 2*hs*(nkv/ws)` iff `nkv % ws == 0` |
| Attention.SplitWidthMismatchExample | server/text_generation_server/models/custom_modeling/flash_shell_modeling.py:190-227 | hidden 8, 4 heads, 3 KV heads, 2 shards: construction succeeds with a 10-row fused weight while forward splits 8 columns |
| Attention.PagedKvCache.ReshapeAndCache | server/text_generation_server/models/custom_modeling/flash_shell_modeling.py:233-235 | the new key and value caches are the old ones with each token's row written at its slot |
| Attention.WriteSlots | server/text_generation_server/models/custom_modeling/flash_shell_modeling.py:233-235 | the last token's row is at its slot (last write wins); the rest is given by WriteSlotsSpec |
| Attention.WriteSlotsSpec | server/text_generation_server/models/custom_modeling/flash_shell_modeling.py:233-235 | after the write the cache's slots are the old plus the written ones, each token's row is at its slot when slots are distinct, and other slots are unchanged |
| Attention.SplitQkv | server/text_generation_server/models/custom_modeling/flash_shell_modeling.py:221-231 | per token: query is the first `hs*nh` entries, key the next `hs*nkv` (both through the rotary kernel), value the remaining `hs*nkv` |
| Attention.Forward | server/text_generation_server/models/custom_modeling/flash_shell_modeling.py:220-266 | a layer without a fused projection (GPTQ) raises TypeError with the cache untouched; mismatched split widths give a shape error with the cache untouched; otherwise the cache is written first, exactly one kernel runs (flash iff prefill, else paged over the updated cache with the head map) and its output goes through the output projection |
| Attention.DecodeSeesCurrentTokens | server/text_generation_server/models/custom_modeling/flash_shell_modeling.py:233-264 | with distinct slots the cache paged attention reads holds every current token's key and value at its slot and every other slot as before |
| ModelStack.NewLayer | server/text_generation_server/models/custom_modeling/flash_shell_modeling.py:308-314 | attention errors come first, then the feed-forward block's KeyError for an unknown activation; the layer builds iff attention and feed-forward block both build, holding them |
| ModelStack.NewLayers | server/text_generation_server/models/custom_modeling/flash_shell_modeling.py:371-380 | builds iff every layer builds, one per checkpoint layer in order; otherwise the error of the first failing layer |
| ModelStack.NewModel | server/text_generation_server/models/custom_modeling/flash_shell_modeling.py:371-389 | the layer loop's error is the model's; IndexError when there are no layers; builds iff the loop builds with at least one layer; a built model has `num_hidden_layers > 0` layers, those built by the layer loop |
| ModelStack.LayersShareHeadCounts | server/text_generation_server/models/custom_modeling/flash_shell_modeling.py:387-389 | every layer's head size and sharded head counts equal those read off `layers[0]` |
| ModelStack.Thread | server/text_generation_server/models/custom_modeling/flash_shell_modeling.py:410-423 | once any layer runs, a residual is carried; specified by ThreadAppend and ThreadResidual |
| ModelStack.ThreadAppend | server/text_generation_server/models/custom_modeling/flash_shell_modeling.py:410-423 | running two stacks of layers in sequence is running their concatenation |
| ModelStack.ThreadResidual | server/text_generation_server/models/custom_modeling/flash_shell_modeling.py:410-423 | the residual is still none at the end iff there are no layers and none was given |
| ModelStack.ModelForward | server/text_generation_server/models/custom_modeling/flash_shell_modeling.py:410-425 | the loop's result is the final norm applied to the layers threaded from a `None` residual |
| ModelStack.SelectRows | server/text_generation_server/models/custom_modeling/flash_shell_modeling.py:463-464 | no indices keep every row; otherwise succeeds iff all indices are in range (IndexError otherwise) and yields the listed rows in order |
| ModelStack.SelectAllRows | server/text_generation_server/models/custom_modeling/flash_shell_modeling.py:463-464 | selecting rows `0..n-1` returns all rows unchanged |

## Left out

- Floating-point numerics are not modelled: the matrix products of the sharded linears,
  layer norms, GeLU, rotary cos/sin and `softmax_scale = head_size ** -0.5`. Only the
  ZeroDivisionError of `0 ** -0.5` is kept.
- The flash-attention, paged-attention, rotary and output-projection kernels are foreign
  code. They are function parameters (`Attention.Kernels`). `block_tables`,
  `input_lengths` and `max_s` are kernel arguments and are not modelled.
- The library layers (`TensorParallelColumnLinear`, `TensorParallelRowLinear`,
  `TensorParallelEmbedding`, `TensorParallelHead`, `FastLayerNorm`,
  `PositionRotaryEmbedding`, `get_linear`) are recorded only by the arguments they are
  built from.
- The checkpoint accessors (`_get_slice`, `get_sharded`, `get_multi_weights_row`,
  `get_tensor`) are replaced by the checkpoint tensors, passed as values. Prefix-based key
  lookup is not modelled.
- Loader.LoadRow: records where the row projection's weight comes from, not its sharded
  contents, because that slicing happens inside library loaders whose code is not part of
  this model.
- `ShellMLP`'s `gate_up_proj` / `down_proj` loads are library `load` calls and are not
  modelled.
- Collective communication and the process group are out of scope. `rank` and
  `world_size` are inputs with `rank < world_size`. The row-parallel all-reduce appears
  only as the bias sum in `Loader.BiasAddedOnce`.
- dtype and device conversions are not modelled (lines 144-146).
- The rotary embedding's static construction and `get_cos_sin` are not modelled.
- The embedding, the final norm's numerics and `lm_head` are not modelled.
- The layer-norm epsilon that `FlashShellLayer` reads is not modelled.
- ModelStack.ModelForward: each layer's own `kv_cache[i]` is folded into the layer
  functions, so the loop models only how the hidden states and residual pass from layer
  to layer.
- Attention.PagedKvCache.ReshapeAndCache: the cache is a map from slot to row, not the fixed-size block tensors;
  slot bounds are not checked.
- Tensors.Slice: the slices at lines 125-131 and 136-138 are taken through the checkpoint
  accessor `_get_slice`, whose code is not part of this model; the model assumes it clamps
  out-of-range bounds as Python sequence slicing does.
- ModelStack.SelectRows: indices are natural numbers, so torch's negative indices
  (counting from the end) are not modelled.
- Attention.DecodeSeesCurrentTokens: proved only for distinct slots. With repeated
  slots the model writes in token order, so the last token wins, and the kernel's
  behaviour there is not visible.
- Attention.Forward: starts from the attention projection's output `qkv`; the matrix
  product itself is not modelled. The `view` reshapes are kept as flat per-token rows.
- The process and I/O plumbing that builds the configuration is not modelled (distributed
  setup, downloads, weight-file discovery). `config.transpose` and `num_key_value_heads`
  are taken as given fields of `ShellConfigs.ShellConfig`.
- Configuration fields the core never reads are not modelled: vocabulary size and token
  ids. The rope theta (line 179) and the layer-norm epsilon (lines 317-320) are read only
  to be passed to library constructors, which are not part of this model.
