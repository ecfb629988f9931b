/**
 * `FlashShellAttention`: the head arithmetic of its constructor, the
 * grouped-query head map `kv_head_mapping`, and the bookkeeping of its
 * forward pass (split of the fused projection, cache write, choice of
 * attention kernel), with the kernels themselves left as parameters.
 */
module Attention {
  import opened Wrappers
  import opened Tensors
  import opened NatArith
  import opened ShellConfigs
  import opened Loader

  /** `torch.arange(0, n)`. */
  function Arange(n: nat): (r: seq<nat>)
    ensures |r| == n
    ensures forall i :: 0 <= i < n ==> r[i] == i
  {
    seq(n, i requires 0 <= i => i)
  }

  /** `k` copies of `x`. */
  function Repeat(x: nat, k: nat): (r: seq<nat>)
    ensures |r| == k
    ensures forall i :: 0 <= i < k ==> r[i] == x
  {
    seq(k, _ => x)
  }

  /** `xs.repeat_interleave(k)`: every element repeated `k` times in place. */
  function RepeatInterleave(xs: seq<nat>, k: nat): (r: seq<nat>)
    ensures |r| == |xs| * k
  {
    if |xs| == 0 then [] else Repeat(xs[0], k) + RepeatInterleave(xs[1..], k)
  }

  /** The `k` entries of block `j` of `xs.repeat_interleave(k)` are all `xs[j]`. */
  lemma {:induction false} RepeatInterleaveBlock(xs: seq<nat>, k: nat, j: nat, t: nat)
    requires j < |xs| && t < k
    ensures j * k + t < |xs| * k
    ensures RepeatInterleave(xs, k)[j * k + t] == xs[j]
    decreases j
  {
    MulMono(j + 1, |xs|, k);
    MulSucc(j, k);
    if j > 0 {
      MulSucc(j - 1, k);
      RepeatInterleaveBlock(xs[1..], k, j - 1, t);
      assert RepeatInterleave(xs, k) == Repeat(xs[0], k) + RepeatInterleave(xs[1..], k);
    }
  }

  /** Entry `i` of `xs.repeat_interleave(k)` is `xs[i // k]`. */
  lemma RepeatInterleaveAt(xs: seq<nat>, k: nat, i: nat)
    requires i < |xs| * k
    ensures 0 < k && i / k < |xs| && RepeatInterleave(xs, k)[i] == xs[i / k]
  {
    assert 0 < k;
    var j := i / k;
    assert j * k <= i < j * k + k by {
      DivOwner(i, k, j);
      MulSucc(j, k);
    }
    if j >= |xs| {
      MulMono(|xs|, j, k);
    }
    RepeatInterleaveBlock(xs, k, j, i - j * k);
  }

  /** `torch.arange(0, nkv).repeat_interleave(groups)`: query head `h` reads KV head `h // groups`. */
  function KvHeadMapping(numKeyValueHeads: nat, numGroups: nat): (r: seq<nat>)
    ensures |r| == numKeyValueHeads * numGroups
  {
    RepeatInterleave(Arange(numKeyValueHeads), numGroups)
  }

  /**
   * The head map has one entry per KV head per group; entry `h` is
   * `h // groups`, every entry names an existing KV head, and the map is
   * non-decreasing.
   */
  lemma KvHeadMappingSpec(numKeyValueHeads: nat, numGroups: nat)
    ensures var m := KvHeadMapping(numKeyValueHeads, numGroups);
      && |m| == numKeyValueHeads * numGroups
      && (forall h :: 0 <= h < |m| ==> m[h] == h / numGroups && m[h] < numKeyValueHeads)
      && (forall h, h' :: 0 <= h <= h' < |m| ==> m[h] <= m[h'])
  {
    var m := KvHeadMapping(numKeyValueHeads, numGroups);
    forall h | 0 <= h < |m|
      ensures m[h] == h / numGroups && m[h] < numKeyValueHeads
    {
      RepeatInterleaveAt(Arange(numKeyValueHeads), numGroups, h);
    }
    forall h, h' | 0 <= h <= h' < |m|
      ensures m[h] <= m[h']
    {
      RepeatInterleaveAt(Arange(numKeyValueHeads), numGroups, h);
      RepeatInterleaveAt(Arange(numKeyValueHeads), numGroups, h');
      DivMono(h, h', numGroups);
    }
  }

  /** Floor division by a positive number is monotone. */
  lemma DivMono(a: nat, b: nat, d: nat)
    requires a <= b && 0 < d
    ensures a / d <= b / d
  {
    DivOwner(a, d, a / d);
    DivOwner(b, d, b / d);
    if a / d > b / d {
      MulMono(b / d + 1, a / d, d);
    }
  }

  /** Query head `h` reads KV head `j` exactly when `h` is in `j`'s group `[j*groups, (j+1)*groups)`. */
  lemma KvHeadGroup(numKeyValueHeads: nat, numGroups: nat, h: nat, j: nat)
    requires h < numKeyValueHeads * numGroups
    ensures KvHeadMapping(numKeyValueHeads, numGroups)[h] == j <==> j * numGroups <= h < (j + 1) * numGroups
  {
    RepeatInterleaveAt(Arange(numKeyValueHeads), numGroups, h);
    DivOwner(h, numGroups, j);
  }

  /** Eight query heads over two KV heads: the first four read KV head 0, the last four KV head 1. */
  lemma EightHeadsTwoKvHeads()
    ensures KvHeadMapping(2, 4) == [0, 0, 0, 0, 1, 1, 1, 1]
  {
    var m := KvHeadMapping(2, 4);
    KvHeadMappingSpec(2, 4);
    assert |m| == 8;
    assert m[0] == 0 / 4 && m[3] == 3 / 4 && m[4] == 4 / 4 && m[7] == 7 / 4;
    assert m[1] == 1 / 4 && m[2] == 2 / 4 && m[5] == 5 / 4 && m[6] == 6 / 4;
  }

  /** The construction-time state of `FlashShellAttention` (sharded head counts and its two projections). */
  datatype FlashShellAttention<T> = FlashShellAttention(
    headSize: nat,
    numHeads: nat,
    numKeyValueHeads: nat,
    numGroups: nat,
    kvHeadMapping: seq<nat>,
    queryKeyValue: Option<ColumnLinear<T>>,
    oProj: RowLinear<T>)

  /** The head counts and projection sizes `__init__` computes before loading any weight. */
  datatype HeadCounts = HeadCounts(headSize: nat, numHeads: nat, numKeyValueHeads: nat, qSize: nat, kvSize: nat)

  /**
   * The head arithmetic of `FlashShellAttention.__init__`, in Python's order:
   * `hidden // heads` fails with no heads, `head_size ** -0.5` with a zero
   * head size, then heads not divisible by the number of shards raise
   * ValueError; otherwise the head size, the sharded head counts and the
   * unsharded `q_size` and `kv_size`, of which `q_size` divides by the shards.
   */
  function ShardHeads(config: ShellConfig, worldSize: nat): (r: Result<HeadCounts>)
    requires 0 < worldSize
    ensures config.numAttentionHeads == 0 ==> r == Err(ZeroDivisionError)
    ensures 0 < config.numAttentionHeads && config.hiddenSize / config.numAttentionHeads == 0 ==> r == Err(ZeroDivisionError)
    ensures r == Err(ValueError) <==>
      0 < config.numAttentionHeads && 0 < config.hiddenSize / config.numAttentionHeads
      && config.numAttentionHeads % worldSize != 0
    ensures r.Ok? <==>
      0 < config.numAttentionHeads && 0 < config.hiddenSize / config.numAttentionHeads
      && config.numAttentionHeads % worldSize == 0
    ensures r.Ok? ==>
      var h := r.value;
      && h.headSize == config.hiddenSize / config.numAttentionHeads
      && 0 < h.headSize
      && h.numHeads == config.numAttentionHeads / worldSize
      && h.numHeads * worldSize == config.numAttentionHeads
      && h.numKeyValueHeads == config.numKeyValueHeads / worldSize
      && h.qSize == config.numAttentionHeads * h.headSize
      && h.kvSize == config.numKeyValueHeads * h.headSize
      && h.qSize % worldSize == 0
  {
    if config.numAttentionHeads == 0 then Err(ZeroDivisionError)
    else
      var headSize := config.hiddenSize / config.numAttentionHeads;
      if headSize == 0 then Err(ZeroDivisionError)
      else if config.numAttentionHeads % worldSize != 0 then Err(ValueError)
      else
        DivExact(config.numAttentionHeads, worldSize);
        MulKeepsMultiple(config.numAttentionHeads, headSize, worldSize);
        Ok(HeadCounts(headSize, config.numAttentionHeads / worldSize, config.numKeyValueHeads / worldSize,
                      config.numAttentionHeads * headSize, config.numKeyValueHeads * headSize))
  }

  /**
   * `FlashShellAttention.__init__` on shard `rank` of `worldSize`, failing
   * where Python raises and in the same order: the head arithmetic; the
   * loader's assertions; and `num_heads // num_key_value_heads` when this
   * shard has no KV head.
   */
  function NewAttention<T>(config: ShellConfig, ckpt: AttentionCheckpoint<T>, rank: nat, worldSize: nat): (r: Result<FlashShellAttention<T>>)
    requires rank < worldSize && ckpt.cAttnWeight.WellFormed()
    ensures r == Err(ValueError) ==> config.numAttentionHeads % worldSize != 0
  {
    var h :- ShardHeads(config, worldSize);
    var queryKeyValue :- LoadAttention(config, ckpt, true, h.qSize, h.kvSize, rank, worldSize);
    var oProj := LoadRow(config, true, rank, ckpt.cProjBias);
    if h.numKeyValueHeads == 0 then Err(ZeroDivisionError)
    else
      var numGroups := h.numHeads / h.numKeyValueHeads;
      Ok(FlashShellAttention(h.headSize, h.numHeads, h.numKeyValueHeads, numGroups,
                             KvHeadMapping(h.numKeyValueHeads, numGroups), queryKeyValue, oProj))
  }

  /**
   * Construction fails where the head arithmetic fails, with the same error;
   * ValueError comes only from heads that do not divide by the number of
   * shards; after the head arithmetic the loader's error, if any, is the
   * construction's, and then a shard without a KV head fails on
   * `num_heads // num_key_value_heads`. Construction succeeds exactly when
   * none of these fails, and the layer then has the sharded head counts,
   * `num_heads // num_key_value_heads` query heads per KV head, the matching
   * head map, the loader's projection (none exactly under GPTQ) and the
   * output projection `load_row` gives this rank.
   */
  lemma NewAttentionSpec<T>(config: ShellConfig, ckpt: AttentionCheckpoint<T>, rank: nat, worldSize: nat)
    requires rank < worldSize && ckpt.cAttnWeight.WellFormed()
    ensures var r, heads := NewAttention(config, ckpt, rank, worldSize), ShardHeads(config, worldSize);
      && (heads.Err? ==> r == Err(heads.error))
      && (r == Err(ValueError) <==>
            0 < config.numAttentionHeads && 0 < config.hiddenSize / config.numAttentionHeads
            && config.numAttentionHeads % worldSize != 0)
      && (heads.Ok? ==>
            var h := heads.value;
            var loaded := LoadAttention(config, ckpt, true, h.qSize, h.kvSize, rank, worldSize);
            && (loaded.Err? ==> r == Err(loaded.error))
            && (loaded.Ok? && h.numKeyValueHeads == 0 ==> r == Err(ZeroDivisionError))
            && (r.Ok? <==> loaded.Ok? && 0 < h.numKeyValueHeads)
            && (r.Ok? ==>
                  var a := r.value;
                  && a.headSize == h.headSize
                  && a.numHeads == h.numHeads
                  && a.numKeyValueHeads == h.numKeyValueHeads
                  && a.numGroups == a.numHeads / a.numKeyValueHeads
                  && a.kvHeadMapping == KvHeadMapping(a.numKeyValueHeads, a.numGroups)
                  && a.queryKeyValue == loaded.value
                  && (a.queryKeyValue.None? <==> config.quantize == Some("gptq"))
                  && a.oProj == LoadRow(config, true, rank, ckpt.cProjBias)))
  {
    var heads := ShardHeads(config, worldSize);
    if heads.Ok? {
      var h := heads.value;
      LoadFusedAttentionErrors(config, ckpt, true, h.qSize, h.kvSize, rank, worldSize);
    }
  }

  /**
   * In the transposed layout with a full-width checkpoint, a configuration
   * that gets past the head arithmetic and the loader's assertions fails
   * with torch's shape error exactly when it has fewer or more KV heads than
   * query heads: grouped-query attention cannot be loaded in that layout.
   */
  lemma TransposedGroupedQueryFails<T>(config: ShellConfig, ckpt: AttentionCheckpoint<T>, rank: nat, worldSize: nat)
    requires rank < worldSize && ckpt.cAttnWeight.WellFormed()
    requires config.transpose && config.quantize != Some("gptq")
    requires ShardHeads(config, worldSize).Ok?
    requires var h := ShardHeads(config, worldSize).value;
      h.kvSize % worldSize == 0 && ckpt.cAttnWeight.cols == h.qSize + 2 * h.kvSize
    ensures NewAttention(config, ckpt, rank, worldSize) == Err(ShapeError)
            <==> config.numKeyValueHeads != config.numAttentionHeads
  {
    var h := ShardHeads(config, worldSize).value;
    NewAttentionSpec(config, ckpt, rank, worldSize);
    TransposedLayoutShape(config, ckpt, true, h.qSize, h.kvSize, rank, worldSize);
    assert h.qSize == h.kvSize <==> config.numKeyValueHeads == config.numAttentionHeads by {
      if config.numKeyValueHeads < config.numAttentionHeads {
        MulStrict(config.numKeyValueHeads, config.numAttentionHeads, h.headSize);
      } else if config.numKeyValueHeads > config.numAttentionHeads {
        MulStrict(config.numAttentionHeads, config.numKeyValueHeads, h.headSize);
      }
    }
  }

  /**
   * Of the loader's two assertions only the key/value one can fail during
   * construction: once the heads divide by the number of shards, so does
   * `q_size`. An AssertionError means `kv_size` does not divide.
   */
  lemma OnlyKvAssertionFires<T>(config: ShellConfig, ckpt: AttentionCheckpoint<T>, rank: nat, worldSize: nat)
    requires rank < worldSize && ckpt.cAttnWeight.WellFormed()
    ensures NewAttention(config, ckpt, rank, worldSize) == Err(AssertionError) <==>
      && 0 < config.numAttentionHeads
      && var headSize := config.hiddenSize / config.numAttentionHeads;
      && 0 < headSize
      && config.numAttentionHeads % worldSize == 0
      && config.quantize != Some("gptq")
      && (config.numKeyValueHeads * headSize) % worldSize != 0
  {
    var heads := ShardHeads(config, worldSize);
    if heads.Ok? {
      LoadFusedAttentionErrors(config, ckpt, true, heads.value.qSize, heads.value.kvSize, rank, worldSize);
    }
  }

  /** The widths `forward` splits the fused projection's output into: the query part, then keys and values. */
  function QueryWidth<T>(a: FlashShellAttention<T>): nat { a.headSize * a.numHeads }
  function KeyValueWidth<T>(a: FlashShellAttention<T>): nat { 2 * HeadWidth(a) }

  /** The width of one token's keys (and of its values): `num_key_value_heads * head_size`. */
  function HeadWidth<T>(a: FlashShellAttention<T>): nat { a.headSize * a.numKeyValueHeads }

  /**
   * In the row layout with a checkpoint of the configured size, the fused
   * projection a shard loads is exactly as wide as `forward` splits it if and
   * only if the KV heads divide by the number of shards, a condition the
   * constructor itself never checks.
   */
  lemma SplitWidthsMatchLoader<T>(config: ShellConfig, ckpt: AttentionCheckpoint<T>, rank: nat, worldSize: nat)
    requires rank < worldSize && ckpt.cAttnWeight.WellFormed()
    requires !config.transpose && config.quantize != Some("gptq")
    requires 0 < config.numAttentionHeads
    requires var headSize := config.hiddenSize / config.numAttentionHeads;
      |ckpt.cAttnWeight.rows| == config.numAttentionHeads * headSize + 2 * (config.numKeyValueHeads * headSize)
    requires NewAttention(config, ckpt, rank, worldSize).Ok?
    ensures var a := NewAttention(config, ckpt, rank, worldSize).value;
      && a.queryKeyValue.Some?
      && (|a.queryKeyValue.value.weight.rows| == QueryWidth(a) + KeyValueWidth(a)
          <==> config.numKeyValueHeads % worldSize == 0)
  {
    var a := NewAttention(config, ckpt, rank, worldSize).value;
    var headSize := config.hiddenSize / config.numAttentionHeads;
    var qSize, kvSize := config.numAttentionHeads * headSize, config.numKeyValueHeads * headSize;
    var qb, kvb := FloorDiv(qSize, worldSize), FloorDiv(kvSize, worldSize);
    OnlyKvAssertionFires(config, ckpt, rank, worldSize);
    assert qSize % worldSize == 0 && kvSize % worldSize == 0 by {
      MulKeepsMultiple(config.numAttentionHeads, headSize, worldSize);
    }
    assert |a.queryKeyValue.value.weight.rows| == qb + 2 * kvb by {
      LoadRowLayout(config, ckpt, true, qSize, kvSize, rank, worldSize);
      DivExact(qSize, worldSize);
      DivExact(kvSize, worldSize);
      FusedSliceParts(ckpt.cAttnWeight.rows, qSize, kvSize, qb, kvb, worldSize, rank, Query);
    }
    ShardWidthsAgree(config.numAttentionHeads, config.numKeyValueHeads, headSize, worldSize);
  }

  /**
   * The loader's per-shard width `q_size // ws + 2 * (kv_size // ws)` equals
   * the split width `head_size * (heads // ws) + 2 * head_size * (kv_heads // ws)`
   * exactly when the KV heads divide by the number of shards.
   */
  lemma ShardWidthsAgree(numHeads: nat, numKeyValueHeads: nat, headSize: nat, worldSize: nat)
    requires 0 < worldSize && 0 < headSize && numHeads % worldSize == 0
    requires (numKeyValueHeads * headSize) % worldSize == 0
    ensures (numHeads * headSize) / worldSize + 2 * ((numKeyValueHeads * headSize) / worldSize)
            == headSize * (numHeads / worldSize) + 2 * (headSize * (numKeyValueHeads / worldSize))
            <==> numKeyValueHeads % worldSize == 0
  {
    MulKeepsMultiple(numHeads, headSize, worldSize);
    if numKeyValueHeads % worldSize == 0 {
      MulKeepsMultiple(numKeyValueHeads, headSize, worldSize);
    } else {
      DivOfProductLosesRemainder(numKeyValueHeads, headSize, worldSize);
    }
  }

  /**
   * Four query heads, three KV heads, hidden size 8 and two shards: every
   * size divides, so construction succeeds, yet the loaded projection is 10
   * rows wide while `forward` splits off 4 + 4 columns.
   */
  lemma SplitWidthMismatchExample<T>(ckpt: AttentionCheckpoint<T>, rank: nat)
    requires rank < 2 && ckpt.cAttnWeight.WellFormed() && |ckpt.cAttnWeight.rows| == 20
    ensures var config := ShellConfig(8, 32, 1, 4, 3, "gelu", None, false);
      && NewAttention(config, ckpt, rank, 2).Ok?
      && var a := NewAttention(config, ckpt, rank, 2).value;
      && QueryWidth(a) + KeyValueWidth(a) == 8
      && a.queryKeyValue.Some?
      && |a.queryKeyValue.value.weight.rows| == 10
  {
    var config := ShellConfig(8, 32, 1, 4, 3, "gelu", None, false);
    LoadRowLayout(config, ckpt, true, 8, 6, rank, 2);
    FusedSliceParts(ckpt.cAttnWeight.rows, 8, 6, 4, 3, 2, rank, Query);
  }

  /** The key/value cache `reshape_and_cache` writes and paged attention reads, keyed by slot. */
  class PagedKvCache<E> {
    var keys: map<nat, seq<E>>
    var values: map<nat, seq<E>>

    constructor ()
      ensures keys == map[] && values == map[]
    {
      keys := map[];
      values := map[];
    }

    /** `paged_attention.reshape_and_cache`: token `i`'s key and value go to slot `slots[i]`. */
    method ReshapeAndCache(key: seq<seq<E>>, value: seq<seq<E>>, slots: seq<nat>)
      requires |key| == |slots| && |value| == |slots|
      modifies this
      ensures keys == WriteSlots(old(keys), slots, key)
      ensures values == WriteSlots(old(values), slots, value)
    {
      keys := WriteSlots(keys, slots, key);
      values := WriteSlots(values, slots, value);
    }
  }

  /** Row `i` of `rows` stored at slot `slots[i]`, in token order, over the cache `m`. */
  function WriteSlots<E>(m: map<nat, seq<E>>, slots: seq<nat>, rows: seq<seq<E>>): (r: map<nat, seq<E>>)
    requires |slots| == |rows|
    ensures 0 < |slots| ==> slots[|slots| - 1] in r && r[slots[|slots| - 1]] == rows[|rows| - 1]
  {
    if |slots| == 0 then m
    else WriteSlots(m, slots[..|slots| - 1], rows[..|rows| - 1])[slots[|slots| - 1] := rows[|rows| - 1]]
  }

  /** No two tokens share a slot. */
  predicate DistinctSlots(slots: seq<nat>) {
    forall i, j :: 0 <= i < j < |slots| ==> slots[i] != slots[j]
  }

  /** The slots written, as a set. */
  function Written(slots: seq<nat>): set<nat> {
    set i | 0 <= i < |slots| :: slots[i]
  }

  /** After the write the cache holds exactly the old slots and the written ones. */
  lemma {:induction false} WriteSlotsKeys<E>(m: map<nat, seq<E>>, slots: seq<nat>, rows: seq<seq<E>>)
    requires |slots| == |rows|
    ensures WriteSlots(m, slots, rows).Keys == m.Keys + Written(slots)
  {
    if |slots| > 0 {
      var n := |slots| - 1;
      var front := slots[..n];
      WriteSlotsKeys(m, front, rows[..n]);
      assert Written(slots) == Written(front) + {slots[n]} by {
        forall x | x in Written(slots)
          ensures x in Written(front) + {slots[n]}
        {
          var i :| 0 <= i < |slots| && slots[i] == x;
          if i < n {
            assert front[i] == x;
          }
        }
        forall x | x in Written(front) + {slots[n]}
          ensures x in Written(slots)
        {
          if x != slots[n] {
            var i :| 0 <= i < n && front[i] == x;
            assert slots[i] == x;
          }
        }
      }
    }
  }

  /** With distinct slots, each token's row is at its own slot after the write. */
  lemma {:induction false} WriteSlotsDistinct<E>(m: map<nat, seq<E>>, slots: seq<nat>, rows: seq<seq<E>>)
    requires |slots| == |rows| && DistinctSlots(slots)
    ensures forall i :: 0 <= i < |slots| ==>
      slots[i] in WriteSlots(m, slots, rows) && WriteSlots(m, slots, rows)[slots[i]] == rows[i]
  {
    if |slots| > 0 {
      var n := |slots| - 1;
      var front, frontRows := slots[..n], rows[..n];
      assert DistinctSlots(front) by {
        forall i, j | 0 <= i < j < |front| ensures front[i] != front[j] {
          assert front[i] == slots[i] && front[j] == slots[j];
        }
      }
      WriteSlotsDistinct(m, front, frontRows);
      var w := WriteSlots(m, slots, rows);
      forall i | 0 <= i < |slots| ensures slots[i] in w && w[slots[i]] == rows[i] {
        if i < n {
          assert slots[i] != slots[n];
          assert front[i] == slots[i] && frontRows[i] == rows[i];
        }
      }
    }
  }

  /** A slot no token writes keeps its old contents. */
  lemma {:induction false} WriteSlotsUntouched<E>(m: map<nat, seq<E>>, slots: seq<nat>, rows: seq<seq<E>>, s: nat)
    requires |slots| == |rows| && s in m && s !in Written(slots)
    ensures s in WriteSlots(m, slots, rows) && WriteSlots(m, slots, rows)[s] == m[s]
  {
    if |slots| > 0 {
      var n := |slots| - 1;
      var front := slots[..n];
      assert slots[n] != s by {
        assert slots[n] in Written(slots);
      }
      assert s !in Written(front) by {
        forall i | 0 <= i < n ensures front[i] != s {
          assert front[i] == slots[i] && slots[i] in Written(slots);
        }
      }
      WriteSlotsUntouched(m, front, rows[..n], s);
    }
  }

  /**
   * After the write the cache holds exactly the old slots and the written
   * ones; each token's row is at its own slot when the slots are distinct,
   * and every other slot keeps its old contents.
   */
  lemma WriteSlotsSpec<E>(m: map<nat, seq<E>>, slots: seq<nat>, rows: seq<seq<E>>)
    requires |slots| == |rows|
    ensures var w := WriteSlots(m, slots, rows);
      && w.Keys == m.Keys + (set i | 0 <= i < |slots| :: slots[i])
      && (DistinctSlots(slots) ==> forall i :: 0 <= i < |slots| ==> w[slots[i]] == rows[i])
      && (forall s :: s in m && (forall i :: 0 <= i < |slots| ==> slots[i] != s) ==> w[s] == m[s])
  {
    WriteSlotsKeys(m, slots, rows);
    if DistinctSlots(slots) {
      WriteSlotsDistinct(m, slots, rows);
    }
    forall s | s in m && (forall i :: 0 <= i < |slots| ==> slots[i] != s)
      ensures WriteSlots(m, slots, rows)[s] == m[s]
    {
      WriteSlotsUntouched(m, slots, rows, s);
    }
  }

  /**
   * The kernels `forward` delegates to, as functions: the rotary embedding of
   * one token's query and key (its cos/sin rows folded in), prefill flash
   * attention over the batch's sequences, decode paged attention over the
   * cache, and the row-parallel output projection.
   */
  datatype Kernels<!E> = Kernels(
    rotary: (nat, seq<E>, seq<E>) -> (seq<E>, seq<E>),
    flash: (seq<seq<E>>, seq<seq<E>>, seq<seq<E>>, seq<nat>) -> seq<seq<E>>,
    paged: (seq<seq<E>>, map<nat, seq<E>>, map<nat, seq<E>>, seq<nat>) -> seq<seq<E>>,
    oProj: seq<seq<E>> -> seq<seq<E>>)

  /** Per-token query, rotated key and value, cut out of the fused projection's output. */
  datatype QkvSplit<E> = QkvSplit(query: seq<seq<E>>, key: seq<seq<E>>, value: seq<seq<E>>)

  /**
   * `qkv.split(...)`, the two views and the in-place rotary embedding: for
   * token `i`, the first `QueryWidth` entries are its query, the next half
   * of the key/value part its key and the rest its value; query and key then
   * go through the rotary embedding together.
   */
  function SplitQkv<T, E>(a: FlashShellAttention<T>, qkv: Matrix<E>, rotary: (nat, seq<E>, seq<E>) -> (seq<E>, seq<E>)): (r: QkvSplit<E>)
    requires qkv.WellFormed() && qkv.cols == QueryWidth(a) + KeyValueWidth(a)
    ensures |r.query| == |qkv.rows| && |r.key| == |qkv.rows| && |r.value| == |qkv.rows|
    ensures forall i :: 0 <= i < |qkv.rows| ==>
      var qw, hw := QueryWidth(a), HeadWidth(a);
      && (r.query[i], r.key[i]) == rotary(i, qkv.rows[i][..qw], qkv.rows[i][qw..qw + hw])
      && |r.value[i]| == hw
      && r.value[i] == qkv.rows[i][qw + hw..]
  {
    var qw, hw, n := QueryWidth(a), HeadWidth(a), |qkv.rows|;
    var rotated := seq(n, i requires 0 <= i < n => rotary(i, qkv.rows[i][..qw], qkv.rows[i][qw..qw + hw]));
    QkvSplit(seq(n, i requires 0 <= i < n => rotated[i].0),
             seq(n, i requires 0 <= i < n => rotated[i].1),
             seq(n, i requires 0 <= i < n => qkv.rows[i][qw + hw..]))
  }

  /**
   * `FlashShellAttention.forward` from the fused projection's output `qkv`:
   * a layer built without a fused projection (under GPTQ) raises TypeError
   * on calling it, and a split whose widths do not add up to `qkv`'s is
   * refused, both before anything is written; otherwise the rotated keys
   * and the values are written to the cache at `slots`, then exactly one
   * attention kernel runs (flash attention when `cuSeqlenPrefill` is given,
   * paged attention over the updated cache otherwise) and its output goes
   * through the output projection.
   */
  method Forward<T, E>(a: FlashShellAttention<T>, qkv: Matrix<E>, cuSeqlenPrefill: Option<seq<nat>>,
                       cache: PagedKvCache<E>, slots: seq<nat>, kernels: Kernels<E>) returns (r: Result<seq<seq<E>>>)
    requires qkv.WellFormed() && |slots| == |qkv.rows|
    modifies cache
    ensures a.queryKeyValue.None? ==>
      r == Err(TypeError) && cache.keys == old(cache.keys) && cache.values == old(cache.values)
    ensures a.queryKeyValue.Some? && qkv.cols != QueryWidth(a) + KeyValueWidth(a) ==>
      r == Err(ShapeError) && cache.keys == old(cache.keys) && cache.values == old(cache.values)
    ensures a.queryKeyValue.Some? && qkv.cols == QueryWidth(a) + KeyValueWidth(a) ==>
      var split := SplitQkv(a, qkv, kernels.rotary);
      && cache.keys == WriteSlots(old(cache.keys), slots, split.key)
      && cache.values == WriteSlots(old(cache.values), slots, split.value)
      && r == Ok(kernels.oProj(
           if cuSeqlenPrefill.Some? then kernels.flash(split.query, split.key, split.value, cuSeqlenPrefill.value)
           else kernels.paged(split.query, cache.keys, cache.values, a.kvHeadMapping)))
  {
    if a.queryKeyValue.None? {
      return Err(TypeError);
    }
    if qkv.cols != QueryWidth(a) + KeyValueWidth(a) {
      return Err(ShapeError);
    }
    var split := SplitQkv(a, qkv, kernels.rotary);
    cache.ReshapeAndCache(split.key, split.value, slots);
    var attnOutput;
    if cuSeqlenPrefill.Some? {
      attnOutput := kernels.flash(split.query, split.key, split.value, cuSeqlenPrefill.value);
    } else {
      attnOutput := kernels.paged(split.query, cache.keys, cache.values, a.kvHeadMapping);
    }
    r := Ok(kernels.oProj(attnOutput));
  }

  /**
   * A decode step reads what it has just written: with distinct slots, the
   * cache handed to paged attention holds every token's rotated key and its
   * value at that token's slot, and every other slot as it was.
   */
  lemma DecodeSeesCurrentTokens<T, E>(a: FlashShellAttention<T>, qkv: Matrix<E>, oldKeys: map<nat, seq<E>>,
                                      oldValues: map<nat, seq<E>>, slots: seq<nat>, rotary: (nat, seq<E>, seq<E>) -> (seq<E>, seq<E>))
    requires qkv.WellFormed() && qkv.cols == QueryWidth(a) + KeyValueWidth(a) && |slots| == |qkv.rows|
    requires DistinctSlots(slots)
    ensures var split := SplitQkv(a, qkv, rotary);
      var keys, values := WriteSlots(oldKeys, slots, split.key), WriteSlots(oldValues, slots, split.value);
      && keys.Keys == oldKeys.Keys + (set i | 0 <= i < |slots| :: slots[i])
      && values.Keys == oldValues.Keys + (set i | 0 <= i < |slots| :: slots[i])
      && (forall i :: 0 <= i < |slots| ==>
            && slots[i] in keys && keys[slots[i]] == split.key[i]
            && slots[i] in values && values[slots[i]] == split.value[i])
      && (forall s :: s in oldKeys && (forall i :: 0 <= i < |slots| ==> slots[i] != s) ==> keys[s] == oldKeys[s])
      && (forall s :: s in oldValues && (forall i :: 0 <= i < |slots| ==> slots[i] != s) ==> values[s] == oldValues[s])
  {
    var split := SplitQkv(a, qkv, rotary);
    WriteSlotsSpec(oldKeys, slots, split.key);
    WriteSlotsSpec(oldValues, slots, split.value);
  }
}
