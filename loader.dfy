/**
 * The weight-sharding loader: `load_attention` / `_load_attention`, which
 * cut one shard's query, key and value slices out of the fused `c_attn`
 * tensor, and `load_row`, which decides which shard carries the output
 * projection's bias.
 */
module Loader {
  import opened Wrappers
  import opened Tensors
  import opened NatArith
  import opened ShellConfigs

  /** The half-open range [start, stop) of one axis. */
  datatype Range = Range(start: nat, stop: nat) {
    predicate Contains(i: nat) { start <= i < stop }
  }

  /** The three ranges one shard takes from the fused [Q | K | V] axis. */
  datatype QkvRanges = QkvRanges(q: Range, k: Range, v: Range)

  datatype Segment = Query | Key | Value

  function Part(rs: QkvRanges, seg: Segment): Range {
    match seg
    case Query => rs.q
    case Key => rs.k
    case Value => rs.v
  }

  /** Where segment `seg` lies along the unsharded fused axis. */
  function SegmentRange(qSize: nat, kvSize: nat, seg: Segment): Range {
    match seg
    case Query => Range(0, qSize)
    case Key => Range(qSize, qSize + kvSize)
    case Value => Range(qSize + kvSize, qSize + 2 * kvSize)
  }

  /** The width of segment `seg`'s piece in one shard, given the Q and K/V block widths. */
  function Width(qBlock: nat, kvBlock: nat, seg: Segment): nat {
    if seg == Query then qBlock else kvBlock
  }

  /** How much of segment `seg` each shard takes. */
  function BlockSize(qSize: nat, kvSize: nat, worldSize: nat, seg: Segment): nat
    requires 0 < worldSize
  {
    Width(FloorDiv(qSize, worldSize), FloorDiv(kvSize, worldSize), seg)
  }

  /** Shard `rank`'s three ranges once the block widths are known. */
  function BlockRanges(qSize: nat, kvSize: nat, qBlock: nat, kvBlock: nat, rank: nat): QkvRanges {
    QkvRanges(
      Range(rank * qBlock, (rank + 1) * qBlock),
      Range(qSize + rank * kvBlock, qSize + (rank + 1) * kvBlock),
      Range(qSize + kvSize + rank * kvBlock, qSize + kvSize + (rank + 1) * kvBlock))
  }

  /** The segment sizes split into `worldSize` blocks of widths `qBlock` and `kvBlock`. */
  predicate Splits(qSize: nat, kvSize: nat, qBlock: nat, kvBlock: nat, worldSize: nat) {
    qSize == worldSize * qBlock && kvSize == worldSize * kvBlock
  }

  /**
   * The range arithmetic of `_load_attention`: both sizes must divide by the
   * number of shards (an AssertionError otherwise); then shard `rank` takes
   * the `rank`-th block of each segment, in Q, K, V order.
   */
  function ShardRanges(qSize: nat, kvSize: nat, rank: nat, worldSize: nat): (r: Result<QkvRanges>)
    requires rank < worldSize
    ensures r.Ok? <==> qSize % worldSize == 0 && kvSize % worldSize == 0
    ensures r.Err? ==> r.error == AssertionError
    ensures r.Ok? ==> r.value == BlockRanges(qSize, kvSize, FloorDiv(qSize, worldSize), FloorDiv(kvSize, worldSize), rank)
    ensures r.Ok? ==> r.value.q.stop <= r.value.k.start && r.value.k.stop <= r.value.v.start
  {
    if qSize % worldSize != 0 then Err(AssertionError)
    else
      var qBlock := FloorDiv(qSize, worldSize);
      if kvSize % worldSize != 0 then Err(AssertionError)
      else
        var kvBlock := FloorDiv(kvSize, worldSize);
        DivExact(qSize, worldSize);
        DivExact(kvSize, worldSize);
        BlockRangesOrdered(qSize, kvSize, qBlock, kvBlock, worldSize, rank);
        Ok(BlockRanges(qSize, kvSize, qBlock, kvBlock, rank))
  }

  /** Within a shard the Q block ends before the K block starts, and the K block before the V block. */
  lemma BlockRangesOrdered(qSize: nat, kvSize: nat, qBlock: nat, kvBlock: nat, worldSize: nat, rank: nat)
    requires rank < worldSize && Splits(qSize, kvSize, qBlock, kvBlock, worldSize)
    ensures var rs := BlockRanges(qSize, kvSize, qBlock, kvBlock, rank);
      rs.q.stop <= rs.k.start && rs.k.stop <= rs.v.start
  {
    MulMono(rank + 1, worldSize, qBlock);
    MulMono(1, worldSize, kvBlock);
    MulSucc(rank, kvBlock);
  }

  /**
   * Every block `ShardRanges` hands out lies inside its segment, starts
   * `rank` block widths into it and is one block wide.
   */
  lemma ShardRangesInSegments(qSize: nat, kvSize: nat, rank: nat, worldSize: nat, seg: Segment)
    requires rank < worldSize && qSize % worldSize == 0 && kvSize % worldSize == 0
    ensures var rg, whole, b := Part(ShardRanges(qSize, kvSize, rank, worldSize).value, seg),
                               SegmentRange(qSize, kvSize, seg), BlockSize(qSize, kvSize, worldSize, seg);
      && rg.start == whole.start + rank * b
      && rg.stop == rg.start + b
      && rg.stop <= whole.stop
  {
    DivExact(qSize, worldSize);
    DivExact(kvSize, worldSize);
    BlockInSegment(qSize, kvSize, FloorDiv(qSize, worldSize), FloorDiv(kvSize, worldSize), worldSize, rank, seg);
  }

  /** `ShardRangesInSegments` for given block widths. */
  lemma BlockInSegment(qSize: nat, kvSize: nat, qBlock: nat, kvBlock: nat, worldSize: nat, rank: nat, seg: Segment)
    requires rank < worldSize && Splits(qSize, kvSize, qBlock, kvBlock, worldSize)
    ensures var rg, whole, b := Part(BlockRanges(qSize, kvSize, qBlock, kvBlock, rank), seg),
                               SegmentRange(qSize, kvSize, seg), Width(qBlock, kvBlock, seg);
      && rg.start == whole.start + rank * b
      && rg.stop == rg.start + b
      && rg.stop <= whole.stop
  {
    var b := Width(qBlock, kvBlock, seg);
    MulMono(rank + 1, worldSize, b);
    MulSucc(rank, b);
    assert SegmentRange(qSize, kvSize, seg).stop == SegmentRange(qSize, kvSize, seg).start + worldSize * b by {
      match seg
      case Query =>
      case Key =>
      case Value =>
    }
  }

  /**
   * Every index of a segment belongs to exactly one shard's block of it: the
   * one whose rank is the index's offset in the segment divided by the block width.
   */
  lemma RankOwnsIndex(qSize: nat, kvSize: nat, worldSize: nat, seg: Segment, rank: nat, j: nat)
    requires rank < worldSize && qSize % worldSize == 0 && kvSize % worldSize == 0
    requires SegmentRange(qSize, kvSize, seg).Contains(j)
    ensures BlockSize(qSize, kvSize, worldSize, seg) > 0
    ensures var owner := (j - SegmentRange(qSize, kvSize, seg).start) / BlockSize(qSize, kvSize, worldSize, seg);
      && owner < worldSize
      && (Part(ShardRanges(qSize, kvSize, rank, worldSize).value, seg).Contains(j) <==> rank == owner)
  {
    var b := BlockSize(qSize, kvSize, worldSize, seg);
    var base := SegmentRange(qSize, kvSize, seg).start;
    var size := if seg == Query then qSize else kvSize;
    DivExact(size, worldSize);
    assert SegmentRange(qSize, kvSize, seg).stop == base + size;
    assert size == worldSize * b;
    assert 0 < b;
    var x := j - base;
    var owner := x / b;
    DivOwner(x, b, rank);
    DivOwner(x, b, owner);
    if owner >= worldSize {
      MulMono(worldSize, owner, b);
    }
  }

  /** `s[start:stop]` for a range. */
  function Piece<T>(s: seq<T>, rg: Range): seq<T> {
    Slice(s, rg.start, rg.stop)
  }

  /** One shard's slices of a fused tensor along its first axis, in Q, K, V order (`torch.cat(..., dim=0)`). */
  function FusedSlice<T>(s: seq<T>, rs: QkvRanges): seq<T> {
    Piece(s, rs.q) + Piece(s, rs.k) + Piece(s, rs.v)
  }

  /** Where segment `seg` lies inside one shard's fused slice. */
  function InShard(qBlock: nat, kvBlock: nat, seg: Segment): Range {
    match seg
    case Query => Range(0, qBlock)
    case Key => Range(qBlock, qBlock + kvBlock)
    case Value => Range(qBlock + kvBlock, qBlock + 2 * kvBlock)
  }

  /** A shard's fused slice taken from a full-size tensor holds its three blocks back to back. */
  lemma FusedSliceParts<T>(s: seq<T>, qSize: nat, kvSize: nat, qBlock: nat, kvBlock: nat, worldSize: nat, rank: nat, seg: Segment)
    requires rank < worldSize && Splits(qSize, kvSize, qBlock, kvBlock, worldSize)
    requires qSize + 2 * kvSize <= |s|
    ensures var rs := BlockRanges(qSize, kvSize, qBlock, kvBlock, rank);
      && |FusedSlice(s, rs)| == qBlock + 2 * kvBlock
      && Part(rs, seg).start == SegmentRange(qSize, kvSize, seg).start + rank * Width(qBlock, kvBlock, seg)
      && Part(rs, seg).stop == Part(rs, seg).start + Width(qBlock, kvBlock, seg)
      && Part(rs, seg).stop <= |s|
      && Piece(FusedSlice(s, rs), InShard(qBlock, kvBlock, seg)) == s[Part(rs, seg).start..Part(rs, seg).stop]
  {
    var rs := BlockRanges(qSize, kvSize, qBlock, kvBlock, rank);
    MulMono(rank + 1, worldSize, qBlock);
    MulMono(rank + 1, worldSize, kvBlock);
    MulSucc(rank, qBlock);
    MulSucc(rank, kvBlock);
    var a, b, c := Piece(s, rs.q), Piece(s, rs.k), Piece(s, rs.v);
    assert |a| == qBlock && |b| == kvBlock && |c| == kvBlock;
    var f := a + b + c;
    match seg
    case Query =>
      assert f[0..qBlock] == a;
    case Key =>
      assert f[qBlock..qBlock + kvBlock] == b;
    case Value =>
      assert f[qBlock + kvBlock..qBlock + 2 * kvBlock] == c;
  }

  /** The fused slices of ranks 0 .. n-1, in rank order. */
  function ShardSlices<T>(s: seq<T>, qSize: nat, kvSize: nat, qBlock: nat, kvBlock: nat, n: nat): (r: seq<seq<T>>)
    ensures |r| == n
  {
    if n == 0 then []
    else ShardSlices(s, qSize, kvSize, qBlock, kvBlock, n - 1) + [FusedSlice(s, BlockRanges(qSize, kvSize, qBlock, kvBlock, n - 1))]
  }

  lemma {:induction false} ShardSlicesAt<T>(s: seq<T>, qSize: nat, kvSize: nat, qBlock: nat, kvBlock: nat, n: nat, rank: nat)
    requires rank < n
    ensures ShardSlices(s, qSize, kvSize, qBlock, kvBlock, n)[rank] == FusedSlice(s, BlockRanges(qSize, kvSize, qBlock, kvBlock, rank))
  {
    if rank < n - 1 {
      ShardSlicesAt(s, qSize, kvSize, qBlock, kvBlock, n - 1, rank);
    }
  }

  /** The concatenation, in rank order, of `[lo, hi)` of every shard's fused tensor. */
  function Gather<T>(shards: seq<seq<T>>, lo: nat, hi: nat): seq<T> {
    if |shards| == 0 then [] else Gather(shards[..|shards| - 1], lo, hi) + Slice(shards[|shards| - 1], lo, hi)
  }

  /**
   * Undoes the sharding: all shards' Q parts in rank order, then all K
   * parts, then all V parts.
   */
  function Unshard<T>(shards: seq<seq<T>>, qBlock: nat, kvBlock: nat): seq<T> {
    Gather(shards, 0, qBlock) + Gather(shards, qBlock, qBlock + kvBlock) + Gather(shards, qBlock + kvBlock, qBlock + 2 * kvBlock)
  }

  /** Piece [lo, hi) of shard `r` is the `r`-th block of width `b` of `s` after `base`. */
  ghost predicate BlockAt<T>(shards: seq<seq<T>>, lo: nat, hi: nat, s: seq<T>, base: nat, b: nat, r: nat) {
    r < |shards| && base + r * b + b <= |s| && Slice(shards[r], lo, hi) == s[base + r * b..base + r * b + b]
  }

  /** Every shard's piece [lo, hi) is its block of width `b` after `base`. */
  ghost predicate AllBlocksAt<T>(shards: seq<seq<T>>, lo: nat, hi: nat, s: seq<T>, base: nat, b: nat) {
    forall r :: 0 <= r < |shards| ==> BlockAt(shards, lo, hi, s, base, b, r)
  }

  /** Gathering a list of shards whose `r`-th piece is the `r`-th block of width `b` yields those blocks joined. */
  lemma {:induction false} GatherBlocks<T>(shards: seq<seq<T>>, lo: nat, hi: nat, s: seq<T>, base: nat, b: nat)
    requires base + |shards| * b <= |s|
    requires AllBlocksAt(shards, lo, hi, s, base, b)
    ensures Gather(shards, lo, hi) == s[base..base + |shards| * b]
  {
    if |shards| > 0 {
      var m := |shards| - 1;
      var front := shards[..m];
      var mid := base + m * b;
      assert mid + b == base + |shards| * b by {
        MulSucc(m, b);
      }
      assert BlockAt(shards, lo, hi, s, base, b, m);
      assert Slice(shards[m], lo, hi) == s[mid..mid + b];
      assert Gather(front, lo, hi) == s[base..mid] by {
        forall r | 0 <= r < |front| ensures BlockAt(front, lo, hi, s, base, b, r) {
          assert BlockAt(shards, lo, hi, s, base, b, r);
          assert front[r] == shards[r];
        }
        GatherBlocks(front, lo, hi, s, base, b);
      }
      assert Gather(shards, lo, hi) == Gather(front, lo, hi) + Slice(shards[m], lo, hi);
      SliceJoin(s, base, mid, mid + b);
    }
  }

  /** Every rank's piece of segment `seg` is that rank's block of the segment. */
  lemma SegmentBlocks<T>(s: seq<T>, qSize: nat, kvSize: nat, qBlock: nat, kvBlock: nat, worldSize: nat, seg: Segment)
    requires Splits(qSize, kvSize, qBlock, kvBlock, worldSize)
    requires qSize + 2 * kvSize <= |s|
    ensures var shards, inShard := ShardSlices(s, qSize, kvSize, qBlock, kvBlock, worldSize), InShard(qBlock, kvBlock, seg);
      AllBlocksAt(shards, inShard.start, inShard.stop, s, SegmentRange(qSize, kvSize, seg).start, Width(qBlock, kvBlock, seg))
  {
    var shards := ShardSlices(s, qSize, kvSize, qBlock, kvBlock, worldSize);
    var base, b := SegmentRange(qSize, kvSize, seg).start, Width(qBlock, kvBlock, seg);
    var inShard := InShard(qBlock, kvBlock, seg);
    forall r | 0 <= r < |shards|
      ensures BlockAt(shards, inShard.start, inShard.stop, s, base, b, r)
    {
      ShardSlicesAt(s, qSize, kvSize, qBlock, kvBlock, worldSize, r);
      RankBlock(shards, s, qSize, kvSize, qBlock, kvBlock, worldSize, seg, r);
    }
  }

  /** A list holding rank `r`'s fused slice at `r` has, as its piece of segment `seg`, block `r` of that segment. */
  lemma RankBlock<T>(shards: seq<seq<T>>, s: seq<T>, qSize: nat, kvSize: nat, qBlock: nat, kvBlock: nat, worldSize: nat, seg: Segment, r: nat)
    requires Splits(qSize, kvSize, qBlock, kvBlock, worldSize)
    requires qSize + 2 * kvSize <= |s| && r < worldSize
    requires r < |shards| && shards[r] == FusedSlice(s, BlockRanges(qSize, kvSize, qBlock, kvBlock, r))
    ensures BlockAt(shards, InShard(qBlock, kvBlock, seg).start, InShard(qBlock, kvBlock, seg).stop,
                    s, SegmentRange(qSize, kvSize, seg).start, Width(qBlock, kvBlock, seg), r)
  {
    var inShard := InShard(qBlock, kvBlock, seg);
    var base, b := SegmentRange(qSize, kvSize, seg).start, Width(qBlock, kvBlock, seg);
    var rs := BlockRanges(qSize, kvSize, qBlock, kvBlock, r);
    var lo, hi := Part(rs, seg).start, Part(rs, seg).stop;
    assert lo == base + r * b && hi == lo + b && hi <= |s| && Piece(shards[r], inShard) == s[lo..hi] by {
      FusedSliceParts(s, qSize, kvSize, qBlock, kvBlock, worldSize, r, seg);
    }
  }

  /** Segment `seg` ends `worldSize` blocks after it starts. */
  lemma SegmentEnd(qSize: nat, kvSize: nat, qBlock: nat, kvBlock: nat, worldSize: nat, seg: Segment)
    requires Splits(qSize, kvSize, qBlock, kvBlock, worldSize)
    ensures SegmentRange(qSize, kvSize, seg).start + worldSize * Width(qBlock, kvBlock, seg) == SegmentRange(qSize, kvSize, seg).stop
  {
  }

  /** Gathering every rank's piece of a segment, in rank order, gives the whole segment. */
  lemma GatherSegment<T>(s: seq<T>, qSize: nat, kvSize: nat, qBlock: nat, kvBlock: nat, worldSize: nat, seg: Segment)
    requires Splits(qSize, kvSize, qBlock, kvBlock, worldSize)
    requires qSize + 2 * kvSize <= |s|
    ensures var whole, inShard := SegmentRange(qSize, kvSize, seg), InShard(qBlock, kvBlock, seg);
      GathersTo(ShardSlices(s, qSize, kvSize, qBlock, kvBlock, worldSize), inShard.start, inShard.stop, s, whole.start, whole.stop)
  {
    var shards := ShardSlices(s, qSize, kvSize, qBlock, kvBlock, worldSize);
    SegmentBlocks(s, qSize, kvSize, qBlock, kvBlock, worldSize, seg);
    GatherAllBlocks(shards, s, qSize, kvSize, qBlock, kvBlock, worldSize, seg);
  }

  /** Any `worldSize` shards whose pieces of `seg` are its blocks gather to the whole segment. */
  lemma GatherAllBlocks<T>(shards: seq<seq<T>>, s: seq<T>, qSize: nat, kvSize: nat, qBlock: nat, kvBlock: nat, worldSize: nat, seg: Segment)
    requires Splits(qSize, kvSize, qBlock, kvBlock, worldSize)
    requires qSize + 2 * kvSize <= |s| && |shards| == worldSize
    requires AllBlocksAt(shards, InShard(qBlock, kvBlock, seg).start, InShard(qBlock, kvBlock, seg).stop,
                         s, SegmentRange(qSize, kvSize, seg).start, Width(qBlock, kvBlock, seg))
    ensures GathersTo(shards, InShard(qBlock, kvBlock, seg).start, InShard(qBlock, kvBlock, seg).stop,
                      s, SegmentRange(qSize, kvSize, seg).start, SegmentRange(qSize, kvSize, seg).stop)
  {
    var base, b := SegmentRange(qSize, kvSize, seg).start, Width(qBlock, kvBlock, seg);
    var inShard := InShard(qBlock, kvBlock, seg);
    SegmentEnd(qSize, kvSize, qBlock, kvBlock, worldSize, seg);
    GatherBlocks(shards, inShard.start, inShard.stop, s, base, b);
  }

  /** Gathering piece [lo, hi) of every shard gives `s[a..b]`. */
  ghost predicate GathersTo<T>(shards: seq<seq<T>>, lo: nat, hi: nat, s: seq<T>, a: nat, b: nat) {
    a <= b <= |s| && Gather(shards, lo, hi) == s[a..b]
  }

  /** Three gathers that each give back their segment join into the whole tensor. */
  lemma UnshardJoin<T>(shards: seq<seq<T>>, s: seq<T>, qSize: nat, kvSize: nat, qBlock: nat, kvBlock: nat)
    requires |s| == qSize + 2 * kvSize
    requires forall seg :: GathersTo(shards, InShard(qBlock, kvBlock, seg).start, InShard(qBlock, kvBlock, seg).stop,
                                     s, SegmentRange(qSize, kvSize, seg).start, SegmentRange(qSize, kvSize, seg).stop)
    ensures Unshard(shards, qBlock, kvBlock) == s
  {
    assert GathersTo(shards, 0, qBlock, s, 0, qSize) by {
      assert InShard(qBlock, kvBlock, Query) == Range(0, qBlock);
      assert SegmentRange(qSize, kvSize, Query) == Range(0, qSize);
    }
    assert GathersTo(shards, qBlock, qBlock + kvBlock, s, qSize, qSize + kvSize) by {
      assert InShard(qBlock, kvBlock, Key) == Range(qBlock, qBlock + kvBlock);
      assert SegmentRange(qSize, kvSize, Key) == Range(qSize, qSize + kvSize);
    }
    assert GathersTo(shards, qBlock + kvBlock, qBlock + 2 * kvBlock, s, qSize + kvSize, qSize + 2 * kvSize) by {
      assert InShard(qBlock, kvBlock, Value) == Range(qBlock + kvBlock, qBlock + 2 * kvBlock);
      assert SegmentRange(qSize, kvSize, Value) == Range(qSize + kvSize, qSize + 2 * kvSize);
    }
    SliceJoin(s, 0, qSize, qSize + kvSize);
    SliceJoin(s, 0, qSize + kvSize, qSize + 2 * kvSize);
    assert s[0..|s|] == s;
  }

  /** Concatenating every shard's Q, K and V pieces in rank order reproduces the unsharded fused tensor. */
  lemma UnshardBlocks<T>(s: seq<T>, qSize: nat, kvSize: nat, qBlock: nat, kvBlock: nat, worldSize: nat)
    requires Splits(qSize, kvSize, qBlock, kvBlock, worldSize)
    requires |s| == qSize + 2 * kvSize
    ensures Unshard(ShardSlices(s, qSize, kvSize, qBlock, kvBlock, worldSize), qBlock, kvBlock) == s
  {
    var shards := ShardSlices(s, qSize, kvSize, qBlock, kvBlock, worldSize);
    forall seg
      ensures GathersTo(shards, InShard(qBlock, kvBlock, seg).start, InShard(qBlock, kvBlock, seg).stop,
                        s, SegmentRange(qSize, kvSize, seg).start, SegmentRange(qSize, kvSize, seg).stop)
    {
      GatherSegment(s, qSize, kvSize, qBlock, kvBlock, worldSize, seg);
    }
    UnshardJoin(shards, s, qSize, kvSize, qBlock, kvBlock);
  }

  /**
   * Concatenating every shard's Q, K and V slices (ranks 0 .. world_size-1)
   * reproduces the unsharded fused tensor exactly.
   */
  lemma UnshardRestores<T>(s: seq<T>, qSize: nat, kvSize: nat, worldSize: nat)
    requires 0 < worldSize && qSize % worldSize == 0 && kvSize % worldSize == 0
    requires |s| == qSize + 2 * kvSize
    ensures var qb, kvb := FloorDiv(qSize, worldSize), FloorDiv(kvSize, worldSize);
      Unshard(ShardSlices(s, qSize, kvSize, qb, kvb, worldSize), qb, kvb) == s
  {
    DivExact(qSize, worldSize);
    DivExact(kvSize, worldSize);
    UnshardBlocks(s, qSize, kvSize, FloorDiv(qSize, worldSize), FloorDiv(kvSize, worldSize), worldSize);
  }

  /** What `TensorParallelColumnLinear(get_linear(weight, bias, quantize))` is built from. */
  datatype ColumnLinear<T> = ColumnLinear(weight: Matrix<T>, bias: Option<seq<T>>, quantize: Option<string>)

  /** The checkpoint tensors one attention layer reads: `c_attn.weight`, `c_attn.bias` and `c_proj.bias`. */
  datatype AttentionCheckpoint<T> = AttentionCheckpoint(cAttnWeight: Matrix<T>, cAttnBias: seq<T>, cProjBias: seq<T>)

  /**
   * The transposed layout's result: the Q, K and V column slices of every row
   * stacked along the first axis, Q rows first, then K rows, then V rows.
   */
  ghost predicate StackedColumnSlices<T>(w: Matrix<T>, rs: QkvRanges, m: Matrix<T>) {
    var n := |w.rows|;
    && |m.rows| == 3 * n
    && m.cols == SliceLength(w.cols, rs.q.start, rs.q.stop)
    && forall i :: 0 <= i < n ==>
         && m.rows[i] == Piece(w.rows[i], rs.q)
         && m.rows[n + i] == Piece(w.rows[i], rs.k)
         && m.rows[2 * n + i] == Piece(w.rows[i], rs.v)
  }

  /** The three slices `_load_attention` takes from the weight: columns when transposed, rows otherwise. */
  function SliceQkv<T>(w: Matrix<T>, rs: QkvRanges, transpose: bool): (r: (Matrix<T>, Matrix<T>, Matrix<T>))
    requires w.WellFormed()
    ensures r.0.WellFormed() && r.1.WellFormed() && r.2.WellFormed()
    ensures transpose ==> |r.0.rows| == |r.1.rows| == |r.2.rows| == |w.rows|
    ensures !transpose ==> r.0.cols == r.1.cols == r.2.cols == w.cols
    ensures !transpose ==> r.0.rows == Piece(w.rows, rs.q) && r.1.rows == Piece(w.rows, rs.k) && r.2.rows == Piece(w.rows, rs.v)
    ensures transpose ==> forall i :: 0 <= i < |w.rows| ==>
      r.0.rows[i] == Piece(w.rows[i], rs.q) && r.1.rows[i] == Piece(w.rows[i], rs.k) && r.2.rows[i] == Piece(w.rows[i], rs.v)
  {
    if transpose then
      (SliceCols(w, rs.q.start, rs.q.stop), SliceCols(w, rs.k.start, rs.k.stop), SliceCols(w, rs.v.start, rs.v.stop))
    else
      (SliceRows(w, rs.q.start, rs.q.stop), SliceRows(w, rs.k.start, rs.k.stop), SliceRows(w, rs.v.start, rs.v.stop))
  }

  /**
   * `_load_attention`: the divisibility assertions, then the weight's Q, K, V
   * slices (columns when `transpose` is set, rows otherwise) concatenated
   * along the first axis in both layouts, and the bias sliced by the same
   * ranges along its only axis whatever the layout.
   */
  function LoadFusedAttention<T>(config: ShellConfig, ckpt: AttentionCheckpoint<T>, bias: bool,
                                 qSize: nat, kvSize: nat, rank: nat, worldSize: nat): (r: Result<ColumnLinear<T>>)
    requires rank < worldSize && ckpt.cAttnWeight.WellFormed()
    ensures r.Err? ==> r.error == AssertionError || r.error == ShapeError
  {
    var rs :- ShardRanges(qSize, kvSize, rank, worldSize);
    var (qT, kT, vT) := SliceQkv(ckpt.cAttnWeight, rs, config.transpose);
    var weight :- Cat0(qT, kT, vT);
    var b := if bias then Some(FusedSlice(ckpt.cAttnBias, rs)) else None;
    Ok(ColumnLinear(weight, b, config.quantize))
  }

  /**
   * `_load_attention` fails with an AssertionError exactly when a size does
   * not divide by the number of shards, and otherwise only in the transposed
   * layout, with torch's shape error.
   */
  lemma LoadFusedAttentionErrors<T>(config: ShellConfig, ckpt: AttentionCheckpoint<T>, bias: bool,
                                    qSize: nat, kvSize: nat, rank: nat, worldSize: nat)
    requires rank < worldSize && ckpt.cAttnWeight.WellFormed()
    ensures var r := LoadFusedAttention(config, ckpt, bias, qSize, kvSize, rank, worldSize);
      && (r == Err(AssertionError) <==> qSize % worldSize != 0 || kvSize % worldSize != 0)
      && (r.Err? ==> r.error == AssertionError || (config.transpose && r.error == ShapeError))
      && (qSize % worldSize == 0 && kvSize % worldSize == 0 && !config.transpose ==> r.Ok?)
  {
  }

  /**
   * The row layout: shard `rank` gets its Q, K and V rows of the weight, one
   * after the other, at the checkpoint's width, and the same ranges of the bias.
   */
  lemma LoadRowLayout<T>(config: ShellConfig, ckpt: AttentionCheckpoint<T>, bias: bool,
                         qSize: nat, kvSize: nat, rank: nat, worldSize: nat)
    requires rank < worldSize && ckpt.cAttnWeight.WellFormed() && !config.transpose
    requires qSize % worldSize == 0 && kvSize % worldSize == 0
    ensures var r, rs, w := LoadFusedAttention(config, ckpt, bias, qSize, kvSize, rank, worldSize),
                           ShardRanges(qSize, kvSize, rank, worldSize).value, ckpt.cAttnWeight;
      && r.Ok?
      && r.value.weight.WellFormed()
      && r.value.weight.cols == w.cols
      && r.value.weight.rows == FusedSlice(w.rows, rs)
      && r.value.bias == (if bias then Some(FusedSlice(ckpt.cAttnBias, rs)) else None)
      && r.value.quantize == config.quantize
  {
  }

  /** Three lists of per-row pieces, one after the other, put row `i`'s pieces at `i`, `n + i` and `2n + i`. */
  lemma StackThree<T>(rows: seq<seq<T>>, a: seq<seq<T>>, b: seq<seq<T>>, c: seq<seq<T>>, rs: QkvRanges)
    requires |a| == |rows| && |b| == |rows| && |c| == |rows|
    requires forall i :: 0 <= i < |rows| ==> a[i] == Piece(rows[i], rs.q) && b[i] == Piece(rows[i], rs.k) && c[i] == Piece(rows[i], rs.v)
    ensures |a + b + c| == 3 * |rows|
    ensures forall i :: 0 <= i < |rows| ==>
      && (a + b + c)[i] == Piece(rows[i], rs.q)
      && (a + b + c)[|rows| + i] == Piece(rows[i], rs.k)
      && (a + b + c)[2 * |rows| + i] == Piece(rows[i], rs.v)
  {
  }

  /** The rows of the three column slices, one after the other, stack every row's Q, K and V slices. */
  lemma StackColumns<T>(w: Matrix<T>, rs: QkvRanges)
    requires w.WellFormed()
    ensures var qT, kT, vT := SliceCols(w, rs.q.start, rs.q.stop), SliceCols(w, rs.k.start, rs.k.stop), SliceCols(w, rs.v.start, rs.v.stop);
      StackedColumnSlices(w, rs, Matrix(qT.cols, qT.rows + kT.rows + vT.rows))
  {
    var qT, kT, vT := SliceCols(w, rs.q.start, rs.q.stop), SliceCols(w, rs.k.start, rs.k.stop), SliceCols(w, rs.v.start, rs.v.stop);
    StackThree(w.rows, qT.rows, kT.rows, vT.rows, rs);
  }

  /**
   * The transposed layout: the concatenation succeeds exactly when the three
   * column slices are equally wide, and then stacks, for every checkpoint row,
   * its Q, K and V column slices; the bias is sliced as in the row layout.
   */
  lemma LoadColumnLayout<T>(config: ShellConfig, ckpt: AttentionCheckpoint<T>, bias: bool,
                            qSize: nat, kvSize: nat, rank: nat, worldSize: nat)
    requires rank < worldSize && ckpt.cAttnWeight.WellFormed() && config.transpose
    requires qSize % worldSize == 0 && kvSize % worldSize == 0
    ensures var r, rs, w := LoadFusedAttention(config, ckpt, bias, qSize, kvSize, rank, worldSize),
                           ShardRanges(qSize, kvSize, rank, worldSize).value, ckpt.cAttnWeight;
      && (r.Ok? <==> SliceLength(w.cols, rs.q.start, rs.q.stop) == SliceLength(w.cols, rs.k.start, rs.k.stop)
                                                             == SliceLength(w.cols, rs.v.start, rs.v.stop))
      && (r.Ok? ==>
            && r.value.weight.WellFormed()
            && StackedColumnSlices(w, rs, r.value.weight)
            && r.value.bias == (if bias then Some(FusedSlice(ckpt.cAttnBias, rs)) else None)
            && r.value.quantize == config.quantize)
  {
    var rs, w := ShardRanges(qSize, kvSize, rank, worldSize).value, ckpt.cAttnWeight;
    var qT, kT, vT := SliceCols(w, rs.q.start, rs.q.stop), SliceCols(w, rs.k.start, rs.k.stop), SliceCols(w, rs.v.start, rs.v.stop);
    assert SliceQkv(w, rs, true) == (qT, kT, vT);
    StackColumns(w, rs);
    if qT.cols == kT.cols == vT.cols {
      assert Cat0(qT, kT, vT) == Ok(Matrix(qT.cols, qT.rows + kT.rows + vT.rows));
    }
  }

  /**
   * `load_attention`: with GPTQ quantization the error object is built but
   * never raised, so no layer is returned and nothing fails; otherwise the
   * result of `_load_attention`.
   */
  function LoadAttention<T>(config: ShellConfig, ckpt: AttentionCheckpoint<T>, bias: bool,
                            qSize: nat, kvSize: nat, rank: nat, worldSize: nat): (r: Result<Option<ColumnLinear<T>>>)
    requires rank < worldSize && ckpt.cAttnWeight.WellFormed()
    ensures config.quantize == Some("gptq") ==> r == Ok(None)
    ensures config.quantize != Some("gptq") ==>
      var inner := LoadFusedAttention(config, ckpt, bias, qSize, kvSize, rank, worldSize);
      && (r.Ok? <==> inner.Ok?)
      && (r.Ok? ==> r.value == Some(inner.value))
      && (r.Err? ==> r.error == inner.error)
  {
    if config.quantize == Some("gptq") then
      Ok(None)
    else
      var layer :- LoadFusedAttention(config, ckpt, bias, qSize, kvSize, rank, worldSize);
      Ok(Some(layer))
  }

  /**
   * In the row layout every shard loads, its weight is `qSize/ws + 2*kvSize/ws`
   * rows of the checkpoint, and reassembling the shards' weights and biases in
   * rank order restores the checkpoint tensors.
   */
  lemma RowLayoutShardsRestore<T>(config: ShellConfig, ckpt: AttentionCheckpoint<T>, qSize: nat, kvSize: nat, worldSize: nat)
    requires !config.transpose && ckpt.cAttnWeight.WellFormed()
    requires 0 < worldSize && qSize % worldSize == 0 && kvSize % worldSize == 0
    requires |ckpt.cAttnWeight.rows| == qSize + 2 * kvSize && |ckpt.cAttnBias| == qSize + 2 * kvSize
    ensures var qb, kvb := FloorDiv(qSize, worldSize), FloorDiv(kvSize, worldSize);
      forall rank :: 0 <= rank < worldSize ==>
        var r := LoadFusedAttention(config, ckpt, true, qSize, kvSize, rank, worldSize);
        && r.Ok?
        && |r.value.weight.rows| == qb + 2 * kvb
        && r.value.weight.rows == ShardSlices(ckpt.cAttnWeight.rows, qSize, kvSize, qb, kvb, worldSize)[rank]
        && r.value.bias == Some(ShardSlices(ckpt.cAttnBias, qSize, kvSize, qb, kvb, worldSize)[rank])
    ensures var qb, kvb := FloorDiv(qSize, worldSize), FloorDiv(kvSize, worldSize);
      && Unshard(ShardSlices(ckpt.cAttnWeight.rows, qSize, kvSize, qb, kvb, worldSize), qb, kvb) == ckpt.cAttnWeight.rows
      && Unshard(ShardSlices(ckpt.cAttnBias, qSize, kvSize, qb, kvb, worldSize), qb, kvb) == ckpt.cAttnBias
  {
    var qb, kvb := FloorDiv(qSize, worldSize), FloorDiv(kvSize, worldSize);
    var w, c := ckpt.cAttnWeight.rows, ckpt.cAttnBias;
    DivExact(qSize, worldSize);
    DivExact(kvSize, worldSize);
    forall rank | 0 <= rank < worldSize
      ensures var r := LoadFusedAttention(config, ckpt, true, qSize, kvSize, rank, worldSize);
        && r.Ok?
        && |r.value.weight.rows| == qb + 2 * kvb
        && r.value.weight.rows == ShardSlices(w, qSize, kvSize, qb, kvb, worldSize)[rank]
        && r.value.bias == Some(ShardSlices(c, qSize, kvSize, qb, kvb, worldSize)[rank])
    {
      assert ShardRanges(qSize, kvSize, rank, worldSize).Ok?;
      ShardSlicesAt(w, qSize, kvSize, qb, kvb, worldSize, rank);
      ShardSlicesAt(c, qSize, kvSize, qb, kvb, worldSize, rank);
      FusedSliceParts(w, qSize, kvSize, qb, kvb, worldSize, rank, Query);
    }
    UnshardRestores(w, qSize, kvSize, worldSize);
    UnshardRestores(c, qSize, kvSize, worldSize);
  }

  /**
   * In the transposed layout with a full-width checkpoint, loading succeeds
   * exactly when the query and key/value sizes are equal; the result then
   * has three times the checkpoint's rows and one Q block of columns;
   * otherwise it fails with torch's shape error.
   */
  lemma TransposedLayoutShape<T>(config: ShellConfig, ckpt: AttentionCheckpoint<T>, bias: bool,
                                 qSize: nat, kvSize: nat, rank: nat, worldSize: nat)
    requires config.transpose && ckpt.cAttnWeight.WellFormed()
    requires rank < worldSize && qSize % worldSize == 0 && kvSize % worldSize == 0
    requires ckpt.cAttnWeight.cols == qSize + 2 * kvSize
    ensures var r := LoadFusedAttention(config, ckpt, bias, qSize, kvSize, rank, worldSize);
      && (r.Ok? <==> qSize == kvSize)
      && (r.Ok? ==> |r.value.weight.rows| == 3 * |ckpt.cAttnWeight.rows| && r.value.weight.cols == FloorDiv(qSize, worldSize))
      && (r.Err? ==> r.error == ShapeError)
  {
    LoadFusedAttentionErrors(config, ckpt, bias, qSize, kvSize, rank, worldSize);
    LoadColumnLayout(config, ckpt, bias, qSize, kvSize, rank, worldSize);
    var rs := ShardRanges(qSize, kvSize, rank, worldSize).value;
    var qb, kvb := FloorDiv(qSize, worldSize), FloorDiv(kvSize, worldSize);
    ShardRangesInSegments(qSize, kvSize, rank, worldSize, Query);
    ShardRangesInSegments(qSize, kvSize, rank, worldSize, Key);
    ShardRangesInSegments(qSize, kvSize, rank, worldSize, Value);
    assert SliceLength(ckpt.cAttnWeight.cols, rs.q.start, rs.q.stop) == qb;
    assert SliceLength(ckpt.cAttnWeight.cols, rs.k.start, rs.k.stop) == kvb;
    assert SliceLength(ckpt.cAttnWeight.cols, rs.v.start, rs.v.stop) == kvb;
    DivExact(qSize, worldSize);
    DivExact(kvSize, worldSize);
  }

  /** Where `load_row` reads its weight: a first-axis shard, transposed, or the row-parallel loader. */
  datatype RowWeightSource = ShardedDim0Transposed | MultiWeightsRow

  /** What `TensorParallelRowLinear(get_linear(weight, bias, quantize))` is built from. */
  datatype RowLinear<T> = RowLinear(weightSource: RowWeightSource, bias: Option<seq<T>>, quantize: Option<string>)

  /**
   * `load_row` on shard `rank`: the weight's source follows the layout,
   * and the bias `fullBias` (read whole, not sharded) is attached only when
   * one is requested and the shard is rank 0.
   */
  function LoadRow<T>(config: ShellConfig, bias: bool, rank: nat, fullBias: seq<T>): (r: RowLinear<T>)
    ensures r.bias.Some? <==> bias && rank == 0
    ensures r.bias.Some? ==> r.bias.value == fullBias
    ensures r.weightSource.ShardedDim0Transposed? <==> config.transpose
    ensures r.quantize == config.quantize
  {
    var weightSource := if config.transpose then ShardedDim0Transposed else MultiWeightsRow;
    var b := if bias && rank == 0 then Some(fullBias) else None;
    RowLinear(weightSource, b, config.quantize)
  }

  /** Of the shards 0 .. world_size-1, exactly rank 0 carries the row projection's bias, and only if one is requested. */
  lemma ExactlyRankZeroHoldsBias<T>(config: ShellConfig, bias: bool, worldSize: nat, fullBias: seq<T>)
    requires 0 < worldSize
    ensures (set r | 0 <= r < worldSize && LoadRow(config, bias, r, fullBias).bias.Some?) == (if bias then {0} else {})
  {
    var holders := set r | 0 <= r < worldSize && LoadRow(config, bias, r, fullBias).bias.Some?;
    if bias {
      assert 0 in holders;
      forall r | r in holders ensures r == 0 {
      }
    } else {
      forall r | r in holders ensures false {
      }
    }
  }

  /** What one shard adds at position `i` when the shards' outputs are summed: its bias entry, or nothing. */
  function BiasEntry(layer: RowLinear<int>, i: nat): int {
    if layer.bias.Some? && i < |layer.bias.value| then layer.bias.value[i] else 0
  }

  /** Position `i` of the sum, over the given shards, of the biases they add. */
  function ReducedBiasAt(layers: seq<RowLinear<int>>, i: nat): int {
    if |layers| == 0 then 0 else ReducedBiasAt(layers[..|layers| - 1], i) + BiasEntry(layers[|layers| - 1], i)
  }

  /** Helper for `BiasAddedOnce`: the row projections of ranks 0 .. n-1. */
  function RowShards(config: ShellConfig, bias: bool, fullBias: seq<int>, n: nat): seq<RowLinear<int>> {
    seq(n, rank requires 0 <= rank => LoadRow(config, bias, rank, fullBias))
  }

  /**
   * Summing the shards' outputs (the row-parallel all-reduce) adds the bias
   * exactly once: position `i` of the sum over ranks 0 .. n-1 is `fullBias[i]`
   * for every n >= 1.
   */
  lemma {:induction false} BiasAddedOnce(config: ShellConfig, fullBias: seq<int>, n: nat, i: nat)
    requires 1 <= n && i < |fullBias|
    ensures ReducedBiasAt(RowShards(config, true, fullBias, n), i) == fullBias[i]
  {
    var layers := RowShards(config, true, fullBias, n);
    if n == 1 {
      assert layers[..0] == [];
    } else {
      BiasAddedOnce(config, fullBias, n - 1, i);
      assert layers[..n - 1] == RowShards(config, true, fullBias, n - 1);
      assert BiasEntry(layers[n - 1], i) == 0;
    }
  }
}
