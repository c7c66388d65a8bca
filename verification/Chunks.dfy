/** How a table is cut into chunks: pq/snapshot/coordinator.go, with the int64
    arithmetic the code does. */
module Chunks {
  import opened Basics
  import opened Bytes

  const MAX_INT64: int := 0x7fff_ffff_ffff_ffff
  const TWO_64: int := 0x1_0000_0000_0000_0000

  predicate IsInt64(x: int) { -MAX_INT64 - 1 <= x <= MAX_INT64 }

  datatype Strategy = Auto | IntegerRange | CtidBlock | Offset

  datatype Chunk = Chunk(
    index: int, start: int, size: int, strategy: Strategy,
    range: Option<(int, int)>, blockStart: Option<int>, blockEnd: Option<int>, last: bool)

  /** What a catalog query says; it may also fail. */
  datatype Bounds = BoundsFailed | NoRows | Bounds(min: int, max: int)

  /** The answers of the catalog queries. None: the query failed. Rows are counted twice,
      for the sparse check and for offset chunks; a query that fails in between aborts
      the transaction they run in, so the second may fail after the first succeeded. */
  datatype Catalog = Catalog(
    singleIntegerPk: Option<bool>, bounds: Bounds, sparseCount: Option<int>,
    blocks: Option<int>, rowsPerBlock: Option<int>, count: Option<int>)

  // ---- counting ----

  /** Go divides towards zero. */
  function TruncDiv(a: int, b: int): int
    requires b > 0
  {
    if a >= 0 then a / b else -(-a / b)
  }

  /** (total + size - 1) / size in int64. */
  function CeilCount(total: int, size: int): int
    requires size > 0
  {
    TruncDiv(Wrap64(Wrap64(total + size) - 1), size)
  }

  function IntegerRangeChunkCount(min: int, max: int, size: int): int
    requires size > 0
  {
    CeilCount(Wrap64(Wrap64(max - min) + 1), size)
  }

  lemma WrapTwice(x: int, y: int)
    ensures Wrap64(Wrap64(x) + y) == Wrap64(x + y)
  {
  }

  lemma WrapCases(v: int)
    requires 0 <= v < TWO_64 + MAX_INT64
    ensures Wrap64(v) == if v <= MAX_INT64 then v else v - TWO_64
  {
  }

  lemma Ceiling(v: int, size: int)
    requires size > 0 && v >= size - 1
    ensures (v / size) * size <= v < (v / size) * size + size
  {
  }

  lemma QuotientSign(a: int, b: int)
    requires a >= 0 && b > 0
    ensures a / b >= 0 && (a / b > 0 <==> a >= b)
  {
    var q, r := a / b, a % b;
    assert a == b * q + r && 0 <= r < b;
    if q < 0 {
      MulLe(q, -1, b);
      assert false;
    }
    if q > 0 { MulLe(1, q, b); }
  }

  lemma MulLe(a: int, b: int, c: int)
    requires a <= b && c >= 0
    ensures a * c <= b * c
  {
  }

  lemma Plus(a: int, c: int)
    ensures (a + 1) * c == a * c + c
  {
  }

  lemma TruncSign(v: int, size: int)
    requires size > 0 && v < size
    ensures TruncDiv(v, size) <= 0 && (TruncDiv(v, size) < 0 <==> v <= -size)
  {
    QuotientSign(if v >= 0 then v else -v, size);
  }

  /** The span counts what it should as long as total + size - 1 fits; beyond that
      it is never positive, so a wrong number of chunks is never made. */
  lemma CeilCountIs(total: int, size: int)
    requires IsInt64(size) && size > 0 && 0 <= total <= TWO_64
    ensures var n := CeilCount(total, size);
            && (0 < total && total + size - 1 <= MAX_INT64 ==> n > 0 && (n - 1) * size < total <= n * size)
            && (total + size - 1 > MAX_INT64 ==>
                  n <= 0 && (n < 0 <==> total + size - 1 <= TWO_64 - size))
  {
    hide Wrap64;
    var v := total + size - 1;
    WrapTwice(total + size, -1);
    WrapCases(v);
    if v <= MAX_INT64 {
      if total > 0 {
        Ceiling(v, size);
        assert (v / size - 1) * size == (v / size) * size - size;
      }
    } else {
      TruncSign(v - TWO_64, size);
    }
  }

  /** An integer range gets ceil((max - min + 1) / size) chunks exactly when
      max - min + size fits in an int64; otherwise it gets none, and a negative count,
      on which make() panics, when the span is at most 2^64 - size wide. */
  lemma RangeCountIs(min: int, max: int, size: int)
    requires IsInt64(min) && IsInt64(max) && min <= max && IsInt64(size) && size > 0
    ensures var n := IntegerRangeChunkCount(min, max, size);
            && (n > 0 <==> max - min + size <= MAX_INT64)
            && (n > 0 ==> (n - 1) * size <= max - min < n * size)
            && (n < 0 <==> MAX_INT64 < max - min + size <= TWO_64 - size)
  {
    hide Wrap64, TruncDiv;
    var total := max - min + 1;
    WrapTwice(max - min, 1);
    WrapTwice(total, size);
    CeilCountIs(total, size);
    assert CeilCount(Wrap64(total), size) == CeilCount(total, size);
  }

  // ---- making the list ----

  /** make([]*Chunk, 0, n) panics on a negative capacity, and on a 64-bit platform on one
      of more than 2^48 bytes: 2^45 pointers. */
  const MAX_CHUNKS: int := 0x2000_0000_0000

  predicate Makeable(n: int) { 0 <= n <= MAX_CHUNKS }

  lemma PointersFit(n: int)
    ensures Makeable(n) <==> 0 <= n && 8 * n <= 0x1_0000_0000_0000
  {
  }

  /** The count is right and the list can be made. */
  predicate Counted(total: int, size: int) { total + size - 1 <= MAX_INT64 && total <= MAX_CHUNKS * size }

  /** The sum wraps so far that the count is zero: no chunks and no panic. */
  predicate Uncounted(total: int, size: int) { total + size - 1 > TWO_64 - size }

  /** Which of the three happens to a positive total. */
  lemma MakeIs(total: int, size: int)
    requires IsInt64(size) && size > 0 && 0 < total <= TWO_64
    ensures var n := CeilCount(total, size);
            && (Counted(total, size) <==> 0 < n <= MAX_CHUNKS)
            && (Counted(total, size) ==> (n - 1) * size < total <= n * size)
            && (Uncounted(total, size) <==> n == 0)
            && (!Counted(total, size) && !Uncounted(total, size) <==> !Makeable(n))
  {
    hide CeilCount;
    CeilCountIs(total, size);
    var n := CeilCount(total, size);
    if total + size - 1 <= MAX_INT64 {
      if n <= MAX_CHUNKS { MulLe(n, MAX_CHUNKS, size); } else { MulLe(MAX_CHUNKS, n - 1, size); }
    }
  }

  /** The same for the span of an integer range. */
  lemma RangeMakeIs(min: int, max: int, size: int)
    requires IsInt64(min) && IsInt64(max) && min <= max && IsInt64(size) && size > 0
    ensures var n, span := IntegerRangeChunkCount(min, max, size), max - min + 1;
            && (Counted(span, size) <==> 0 < n <= MAX_CHUNKS)
            && (Counted(span, size) ==> (n - 1) * size < span <= n * size)
            && (Uncounted(span, size) <==> n == 0)
            && (!Counted(span, size) && !Uncounted(span, size) <==> !Makeable(n))
  {
    hide Wrap64, TruncDiv;
    var span := max - min + 1;
    WrapTwice(max - min, 1);
    WrapTwice(span, size);
    assert CeilCount(Wrap64(span), size) == CeilCount(span, size);
    hide CeilCount;
    MakeIs(span, size);
  }

  // ---- integer ranges ----

  function EmptyChunk(size: int, strategy: Strategy): Chunk {
    Chunk(0, 0, size, strategy, None, None, None, false)
  }

  /** Chunk i covers `size` keys, the last one ending at max; its end wraps when
      the full width would pass the largest int64. */
  function RangeChunk(min: int, max: int, size: int, i: int): Chunk {
    var first := min + i * size;
    var end := first + size - 1;
    Chunk(i, i * size, size, IntegerRange,
          Some((first, if end > MAX_INT64 then end - TWO_64 else if end < max then end else max)), None, None, false)
  }

  function RangePlan(b: Bounds, size: int): Result<seq<Chunk>>
    requires size > 0
  {
    match b
    case BoundsFailed => Ok([])
    case NoRows => Ok([EmptyChunk(size, IntegerRange)])
    case Bounds(min, max) =>
      var n := IntegerRangeChunkCount(min, max, size);
      if !Makeable(n) then Panic else Ok(seq(n, i requires 0 <= i < n => RangeChunk(min, max, size, i)))
  }

  ghost predicate BoundsOk(b: Bounds) { b.Bounds? ==> IsInt64(b.min) && IsInt64(b.max) && b.min <= b.max }

  lemma InRange(min: int, max: int, size: int, i: int)
    requires IsInt64(min) && IsInt64(max) && min <= max && IsInt64(size) && size > 0
    requires 0 <= i < IntegerRangeChunkCount(min, max, size)
    ensures 0 <= i * size <= max - min <= MAX_INT64 && IsInt64(min + i * size)
  {
    hide IntegerRangeChunkCount, CeilCount;
    RangeCountIs(min, max, size);
    var n := IntegerRangeChunkCount(min, max, size);
    MulLe(i, n - 1, size);
    MulLe(0, i, size);
  }

  method CreateRangeChunks(b: Bounds, size: int) returns (r: Result<seq<Chunk>>)
    requires IsInt64(size) && size > 0 && BoundsOk(b)
    ensures r == RangePlan(b, size)
  {
    hide IntegerRangeChunkCount, Wrap64;
    match b
    case BoundsFailed => r := Ok([]);
    case NoRows => r := Ok([EmptyChunk(size, IntegerRange)]);
    case Bounds(min, max) =>
      var numChunks := IntegerRangeChunkCount(min, max, size);
      if !Makeable(numChunks) {
        return Panic;
      }
      var chunks := [];
      for i := 0 to numChunks
        invariant chunks == seq(i, k requires 0 <= k < i => RangeChunk(min, max, size, k))
      {
        var start := Wrap64(i * size);
        var rangeStart := Wrap64(min + start);
        var rangeEnd := Wrap64(Wrap64(rangeStart + size) - 1);
        rangeEnd := if rangeEnd < max then rangeEnd else max;
        InRange(min, max, size, i);
        Unwrapped(i * size);
        Unwrapped(min + i * size);
        WrapTwice(rangeStart + size, -1);
        EndWraps(rangeStart + size - 1);
        var c := Chunk(i, start, size, IntegerRange, Some((rangeStart, rangeEnd)), None, None, false);
        assert c == RangeChunk(min, max, size, i);
        chunks := chunks + [c];
      }
      r := Ok(chunks);
  }

  lemma Unwrapped(x: int)
    requires IsInt64(x)
    ensures Wrap64(x) == x
  {
  }

  lemma EndWraps(x: int)
    requires -MAX_INT64 - 1 <= x <= 2 * MAX_INT64
    ensures Wrap64(x) == if x > MAX_INT64 then x - TWO_64 else x
  {
  }

  // ---- blocks ----

  function EstimatedRowsPerBlock(e: Option<int>): (n: int)
    ensures n >= 1
  {
    if e.None? || e.value < 1 then 100 else e.value
  }

  function BlocksPerChunk(e: Option<int>, size: int): (n: int)
    requires size > 0
    ensures 1 <= n <= size
  {
    var n := size / EstimatedRowsPerBlock(e);
    if n < 1 then 1 else n
  }

  /** At the estimated rows per block, 100 when there is no estimate, a chunk's blocks hold
      at most `size` rows and one block more would exceed it; a chunk has at least one. */
  lemma BlocksFillAChunk(e: Option<int>, size: int)
    requires size > 0
    ensures var rows, n := if e.Some? && e.value >= 1 then e.value else 100, BlocksPerChunk(e, size);
            && (rows <= size ==> n * rows <= size < (n + 1) * rows)
            && (rows > size ==> n == 1)
  {
    var rows := EstimatedRowsPerBlock(e);
    QuotientSign(size, rows);
    assert size == size / rows * rows + size % rows;
    Plus(size / rows, rows);
  }

  /** Chunk i of n reads per blocks from i * per on; the last has no upper bound. */
  function BlockChunk(per: int, size: int, n: int, i: int): Chunk {
    Chunk(i, i * per, size, CtidBlock, None, Some(i * per),
          if i == n - 1 then None else Some((i + 1) * per), i == n - 1)
  }

  function CtidPlan(blocks: Option<int>, rowsPerBlock: Option<int>, size: int): Result<seq<Chunk>>
    requires size > 0
  {
    if blocks.None? then Ok([])
    else if blocks.value == 0 then Ok([EmptyChunk(size, CtidBlock)])
    else
      var per := BlocksPerChunk(rowsPerBlock, size);
      var n := CeilCount(blocks.value, per);
      if !Makeable(n) then Panic else Ok(seq(n, i requires 0 <= i < n => BlockChunk(per, size, n, i)))
  }

  lemma InBlocks(total: int, per: int, n: int, i: int)
    requires 0 < total <= MAX_INT64 && IsInt64(per) && per > 0 && n == CeilCount(total, per) && 0 <= i < n
    ensures 0 <= i * per < total && (i < n - 1 ==> (i + 1) * per < total) && n * per < total + per
  {
    hide CeilCount;
    CeilCountIs(total, per);
    MulLe(i, n - 1, per);
    MulLe(0, i, per);
    if i < n - 1 { MulLe(i + 1, n - 1, per); }
    Plus(n - 1, per);
  }

  /** The clamp to totalBlocks never fires: a chunk that is not the last ends
      before the end of the table. */
  method CreateCtidChunks(blocks: Option<int>, rowsPerBlock: Option<int>, size: int) returns (r: Result<seq<Chunk>>)
    requires IsInt64(size) && size > 0 && (blocks.Some? ==> 0 <= blocks.value <= MAX_INT64)
    ensures r == CtidPlan(blocks, rowsPerBlock, size)
  {
    hide CeilCount, Wrap64, BlocksPerChunk;
    if blocks.None? {
      return Ok([]);
    }
    var totalBlocks := blocks.value;
    if totalBlocks == 0 {
      return Ok([EmptyChunk(size, CtidBlock)]);
    }
    var per := BlocksPerChunk(rowsPerBlock, size);
    var numChunks := CeilCount(totalBlocks, per);
    if !Makeable(numChunks) {
      return Panic;
    }
    var chunks := [];
    for i := 0 to numChunks
      invariant chunks == seq(i, k requires 0 <= k < i => BlockChunk(per, size, numChunks, k))
    {
      InBlocks(totalBlocks, per, numChunks, i);
      Unwrapped(i * per);
      var blockStart := Wrap64(i * per);
      var blockEnd := Wrap64(blockStart + per);
      var last := i == numChunks - 1;
      var blockEndPtr := None;
      if !last {
        assert (i + 1) * per == i * per + per;
        Unwrapped(i * per + per);
        if blockEnd > totalBlocks {
          blockEnd := totalBlocks;
        }
        blockEndPtr := Some(blockEnd);
      }
      var c := Chunk(i, blockStart, size, CtidBlock, None, Some(blockStart), blockEndPtr, last);
      assert c == BlockChunk(per, size, numChunks, i);
      chunks := chunks + [c];
    }
    r := Ok(chunks);
  }

  // ---- offsets ----

  function OffsetChunk(size: int, i: int): Chunk {
    Chunk(i, i * size, size, Offset, None, None, None, false)
  }

  function OffsetPlan(count: Option<int>, size: int): Result<seq<Chunk>>
    requires size > 0
  {
    var rowCount := if count.None? then 0 else count.value;
    if rowCount == 0 then Ok([OffsetChunk(size, 0)])
    else
      var n := CeilCount(rowCount, size);
      if !Makeable(n) then Panic else Ok(seq(n, i requires 0 <= i < n => OffsetChunk(size, i)))
  }

  method CreateOffsetChunks(count: Option<int>, size: int) returns (r: Result<seq<Chunk>>)
    requires IsInt64(size) && size > 0 && (count.Some? ==> 0 <= count.value <= MAX_INT64)
    ensures r == OffsetPlan(count, size)
  {
    hide CeilCount, Wrap64;
    var rowCount := if count.Some? then count.value else 0;
    if rowCount == 0 {
      assert 0 * size == 0;
      return Ok([Chunk(0, 0, size, Offset, None, None, None, false)]);
    }
    var numChunks := CeilCount(rowCount, size);
    if !Makeable(numChunks) {
      return Panic;
    }
    var chunks := [];
    for i := 0 to numChunks
      invariant chunks == seq(i, k requires 0 <= k < i => OffsetChunk(size, k))
    {
      InBlocks(rowCount, size, numChunks, i);
      Unwrapped(i * size);
      chunks := chunks + [Chunk(i, Wrap64(i * size), size, Offset, None, None, None, false)];
    }
    r := Ok(chunks);
  }

  // ---- choosing a strategy ----

  function IntegerRangeIsSparse(numChunks: int, rowCount: int, size: int): bool {
    if numChunks <= 0 || rowCount <= 0 || size <= 0 then false
    else
      var twice := Wrap64(CeilCount(rowCount, size) * 2);
      numChunks > if twice > 1 then twice else 1
  }

  /** Sparse means more than twice the chunks the rows themselves need. */
  lemma SparseMeans(numChunks: int, rowCount: int, size: int, ideal: int)
    requires numChunks > 0 && rowCount > 0 && size > 0 && IsInt64(size) && rowCount + size - 1 <= MAX_INT64
    requires (ideal - 1) * size < rowCount <= ideal * size && 2 * ideal <= MAX_INT64
    ensures IntegerRangeIsSparse(numChunks, rowCount, size) <==> numChunks > 2 * ideal
  {
    hide CeilCount, Wrap64;
    CeilCountIs(rowCount, size);
    var n := CeilCount(rowCount, size);
    if n < ideal { MulLe(n, ideal - 1, size); }
    if ideal < n { MulLe(ideal, n - 1, size); }
    if ideal <= 0 { MulLe(ideal, 0, size); }
    Unwrapped(ideal * 2);
  }

  /** No rows: never sparse. A row count that wraps: sparse from two chunks on. */
  lemma SparseAtTheEdges(numChunks: int, rowCount: int, size: int)
    requires IsInt64(size) && size > 0 && 0 <= rowCount <= MAX_INT64
    ensures rowCount == 0 || numChunks <= 0 ==> !IntegerRangeIsSparse(numChunks, rowCount, size)
    ensures rowCount > 0 && numChunks > 0 && rowCount + size - 1 > MAX_INT64 ==>
              (IntegerRangeIsSparse(numChunks, rowCount, size) <==> numChunks > 1)
  {
    hide CeilCount, Wrap64;
    if rowCount + size - 1 > MAX_INT64 {
      CeilCountIs(rowCount, size);
      CountNotBelow(rowCount, size);
      Unwrapped(CeilCount(rowCount, size) * 2);
    }
  }

  /** A wrapped count is at least -2^62, so that twice it fits. */
  lemma CountNotBelow(rowCount: int, size: int)
    requires IsInt64(size) && size > 0 && 0 < rowCount <= MAX_INT64 && rowCount + size - 1 > MAX_INT64
    ensures -0x4000_0000_0000_0000 <= CeilCount(rowCount, size)
  {
    hide Wrap64;
    var v := rowCount + size - 1;
    WrapTwice(rowCount + size, -1);
    WrapCases(v);
    var w := TWO_64 - v;
    assert size >= 2;
    QuotientSign(w, size);
    assert w == w / size * size + w % size;
    MulLe(2, size, w / size);
  }

  function ShouldFallBackSparse(chunks: seq<Chunk>, count: Option<int>, size: int): bool {
    |chunks| > 0 && chunks[0].range.Some? && count.Some? && IntegerRangeIsSparse(|chunks|, count.value, size)
  }

  function OrElse(first: Result<seq<Chunk>>, second: Result<seq<Chunk>>): Result<seq<Chunk>> {
    if first.Ok? && first.value == [] then second else first
  }

  function AutoPlan(cat: Catalog, size: int): Result<seq<Chunk>>
    requires size > 0
  {
    var byBlock := OrElse(CtidPlan(cat.blocks, cat.rowsPerBlock, size), OffsetPlan(cat.count, size));
    if cat.singleIntegerPk != Some(true) then byBlock
    else
      var ranges := RangePlan(cat.bounds, size);
      if ranges.Ok? && (ranges.value == [] || ShouldFallBackSparse(ranges.value, cat.sparseCount, size)) then byBlock
      else ranges
  }

  /** The chunks of one table. An explicit integer_range falls back to blocks, and
      from there to nothing. */
  function TablePlan(strategy: Strategy, cat: Catalog, size: int): Result<seq<Chunk>>
    requires size > 0
  {
    match strategy
    case Auto => AutoPlan(cat, size)
    case IntegerRange =>
      if cat.singleIntegerPk.None? then OffsetPlan(cat.count, size)
      else
        var byBlock := CtidPlan(cat.blocks, cat.rowsPerBlock, size);
        if cat.singleIntegerPk.value then OrElse(RangePlan(cat.bounds, size), byBlock) else byBlock
    case CtidBlock => OrElse(CtidPlan(cat.blocks, cat.rowsPerBlock, size), OffsetPlan(cat.count, size))
    case Offset => OffsetPlan(cat.count, size)
  }

  /** Chunk i of a plan is numbered i, holds `size` rows at most, starts at row i * size
      unless it is a block chunk, and only the last block chunk is marked as last and has
      no upper bound. */
  ghost predicate Numbered(cs: seq<Chunk>, size: int) {
    forall i | 0 <= i < |cs| ::
      && cs[i].index == i && cs[i].size == size
      && (cs[i].strategy.CtidBlock? || cs[i].start == i * size)
      && (cs[i].strategy.CtidBlock? && cs[i].blockStart.Some? ==> cs[i].start == cs[i].blockStart.value)
      && (cs[i].last <==> cs[i].strategy.CtidBlock? && cs[i].blockStart.Some? && i == |cs| - 1)
      && (cs[i].blockEnd.None? <==> cs[i].blockStart.None? || i == |cs| - 1)
  }

  /** Whatever is planned, the chunks of a table carry distinct indexes, 0 and up, which the
      table's UNIQUE constraint asks for. */
  lemma PlansAreNumbered(strategy: Strategy, cat: Catalog, size: int)
    requires size > 0
    ensures var p := TablePlan(strategy, cat, size); p.Ok? ==> Numbered(p.value, size)
  {
    hide CeilCount, IntegerRangeChunkCount, BlocksPerChunk, ShouldFallBackSparse;
    assert 0 * size == 0;
  }

  ghost predicate CatalogOk(cat: Catalog) {
    && BoundsOk(cat.bounds)
    && (cat.blocks.Some? ==> 0 <= cat.blocks.value <= MAX_INT64)
    && (cat.sparseCount.Some? ==> 0 <= cat.sparseCount.value <= MAX_INT64)
    && (cat.count.Some? ==> 0 <= cat.count.value <= MAX_INT64)
  }

  method CreateCtidOrOffsetChunks(cat: Catalog, size: int) returns (r: Result<seq<Chunk>>)
    requires IsInt64(size) && size > 0 && CatalogOk(cat)
    ensures r == OrElse(CtidPlan(cat.blocks, cat.rowsPerBlock, size), OffsetPlan(cat.count, size))
  {
    r := CreateCtidChunks(cat.blocks, cat.rowsPerBlock, size);
    if r.Ok? && r.value == [] {
      r := CreateOffsetChunks(cat.count, size);
    }
  }

  method CreateTableChunks(strategy: Strategy, cat: Catalog, size: int) returns (r: Result<seq<Chunk>>)
    requires IsInt64(size) && size > 0 && CatalogOk(cat)
    ensures r == TablePlan(strategy, cat, size)
  {
    hide RangePlan, CtidPlan, OffsetPlan;
    match strategy
    case Auto =>
      if cat.singleIntegerPk == Some(true) {
        r := CreateRangeChunks(cat.bounds, size);
        if !(r.Ok? && (r.value == [] || ShouldFallBackSparse(r.value, cat.sparseCount, size))) {
          return;
        }
      }
      r := CreateCtidOrOffsetChunks(cat, size);
    case IntegerRange =>
      if cat.singleIntegerPk.None? {
        r := CreateOffsetChunks(cat.count, size);
        return;
      }
      if cat.singleIntegerPk.value {
        r := CreateRangeChunks(cat.bounds, size);
        if !(r.Ok? && r.value == []) {
          return;
        }
      }
      r := CreateCtidChunks(cat.blocks, cat.rowsPerBlock, size);
    case CtidBlock => r := CreateCtidOrOffsetChunks(cat, size);
    case Offset => r := CreateOffsetChunks(cat.count, size);
  }

  // ---- storing them ----

  const CHUNK_BATCH_SIZE := 1000

  /** The chunk table, and the number of batch inserts it will still accept. */
  class ChunkTable {
    var rows: seq<Chunk>
    var willing: nat

    constructor (willing: nat)
      ensures rows == [] && this.willing == willing
    {
      rows, this.willing := [], willing;
    }

    method InsertChunkBatch(batch: seq<Chunk>) returns (ok: bool)
      modifies this
      ensures ok == (old(willing) > 0)
      ensures rows == if ok then old(rows) + batch else old(rows)
      ensures willing == if ok then old(willing) - 1 else 0
    {
      ok := willing > 0;
      if ok {
        rows, willing := rows + batch, willing - 1;
      }
    }

    /** Every chunk is stored once and in order; after a failure, a prefix is. */
    method SaveChunksBatch(chunks: seq<Chunk>) returns (ok: bool)
      modifies this
      ensures old(rows) <= rows <= old(rows) + chunks
      ensures ok <==> rows == old(rows) + chunks
      ensures ok <==> (|chunks| + 999) / 1000 <= old(willing)
      ensures ok ==> willing == old(willing) - (|chunks| + 999) / 1000
      ensures !ok ==> |rows| == |old(rows)| + 1000 * old(willing)
    {
      var i := 0;
      assert chunks[..0] == [];
      while i < |chunks|
        invariant rows == old(rows) + chunks[..if i < |chunks| then i else |chunks|]
        invariant i == 1000 * (old(willing) - willing) && willing <= old(willing) && i < |chunks| + 1000
      {
        var end := if i + CHUNK_BATCH_SIZE < |chunks| then i + CHUNK_BATCH_SIZE else |chunks|;
        ok := InsertChunkBatch(chunks[i..end]);
        if !ok {
          return;
        }
        assert chunks[..end] == chunks[..i] + chunks[i..end];
        i := i + CHUNK_BATCH_SIZE;
      }
      assert chunks[..|chunks|] == chunks;
      ok := true;
    }
  }
}
