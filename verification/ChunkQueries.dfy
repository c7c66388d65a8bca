/** What running every chunk query of a table reads, against what the table holds
    under the snapshot. */
module ChunkQueries {
  import opened Basics
  import opened Bytes
  import opened Chunks

  /** wanted: the row meets the query condition. key is the integer primary key, if
      the table has one; block is the page the row lives in. */
  datatype TableRow = TableRow(id: nat, key: int, block: nat, wanted: bool)

  /** The rows the snapshot sees, in ORDER BY order. */
  type Table = seq<TableRow>

  datatype Axis = Key | Block

  function At(axis: Axis, r: TableRow): int { if axis.Key? then r.key else r.block }

  predicate Hit(axis: Axis, lo: int, hi: Option<int>, r: TableRow) {
    r.wanted && lo <= At(axis, r) && (hi.Some? ==> At(axis, r) < hi.value)
  }

  /** WHERE condition AND lo <= axis [AND axis < hi]. */
  function Within(t: Table, axis: Axis, lo: int, hi: Option<int>): seq<TableRow> {
    if t == [] then []
    else
      var r := t[|t| - 1];
      Within(t[..|t| - 1], axis, lo, hi) + if Hit(axis, lo, hi, r) then [r] else []
  }

  /** WHERE condition. */
  function Wanted(t: Table): seq<TableRow> {
    if t == [] then []
    else
      var r := t[|t| - 1];
      Wanted(t[..|t| - 1]) + if r.wanted then [r] else []
  }

  function Limit(s: seq<TableRow>, n: int): seq<TableRow> { if n < 0 then [] else if n < |s| then s[..n] else s }

  /** LIMIT size OFFSET start. */
  function Slice(s: seq<TableRow>, start: int, size: int): seq<TableRow> {
    if 0 <= start <= |s| then Limit(s[start..], size) else []
  }

  /** buildChunkQuery, run on the table. */
  function ReadChunk(c: Chunk, t: Table, pkColumns: nat): seq<TableRow> {
    match c.strategy
    case IntegerRange =>
      if c.range.Some? && pkColumns == 1 then
        Limit(Within(t, Key, c.range.value.0, Some(c.range.value.1 + 1)), c.size)
      else Slice(Wanted(t), c.start, c.size)
    case CtidBlock =>
      if c.blockStart.None? then Wanted(t)
      else if c.blockEnd.None? || c.last then Within(t, Block, c.blockStart.value, None)
      else Within(t, Block, c.blockStart.value, c.blockEnd)
    case _ => Slice(Wanted(t), c.start, c.size)
  }

  function ReadAll(cs: seq<Chunk>, t: Table, pkColumns: nat): seq<TableRow> {
    if cs == [] then [] else ReadAll(cs[..|cs| - 1], t, pkColumns) + ReadChunk(cs[|cs| - 1], t, pkColumns)
  }

  /** Every wanted row, each as often as the table holds it, and nothing else. */
  ghost predicate ReadsOnce(cs: seq<Chunk>, t: Table, pkColumns: nat) {
    multiset(ReadAll(cs, t, pkColumns)) == multiset(Wanted(t))
  }

  /** Only wanted rows are read, none more often than the table holds it, and some wanted
      row less often. */
  ghost predicate MissesRows(cs: seq<Chunk>, t: Table, pkColumns: nat) {
    multiset(ReadAll(cs, t, pkColumns)) < multiset(Wanted(t))
  }

  /** ORDER BY the integer primary key: keys are unique. */
  ghost predicate Sorted(t: Table) { forall i, j | 0 <= i < j < |t| :: t[i].key < t[j].key }

  // ---- intervals of an axis ----

  lemma {:induction false} Split(t: Table, axis: Axis, lo: int, mid: int, hi: Option<int>)
    requires lo <= mid && (hi.Some? ==> mid <= hi.value)
    ensures multiset(Within(t, axis, lo, Some(mid))) + multiset(Within(t, axis, mid, hi))
        == multiset(Within(t, axis, lo, hi))
  {
    hide At;
    if t != [] { Split(t[..|t| - 1], axis, lo, mid, hi); }
  }

  lemma {:induction false} NothingWithin(t: Table, axis: Axis, lo: int, hi: int)
    requires hi <= lo
    ensures Within(t, axis, lo, Some(hi)) == []
  {
    if t != [] { NothingWithin(t[..|t| - 1], axis, lo, hi); }
  }

  lemma {:induction false} AllWithin(t: Table, axis: Axis, lo: int, hi: Option<int>)
    requires forall r | r in t :: lo <= At(axis, r) && (hi.Some? ==> At(axis, r) < hi.value)
    ensures Within(t, axis, lo, hi) == Wanted(t)
  {
    hide At;
    if t != [] {
      assert forall r | r in t[..|t| - 1] :: r in t;
      assert t[|t| - 1] in t;
      AllWithin(t[..|t| - 1], axis, lo, hi);
    }
  }

  lemma {:induction false} SameWithin(t: Table, lo: int, hi: int, hi': int)
    requires hi' <= hi && forall r | r in t :: r.key < hi'
    ensures Within(t, Key, lo, Some(hi)) == Within(t, Key, lo, Some(hi'))
  {
    if t != [] {
      assert t[|t| - 1] in t;
      SameWithin(t[..|t| - 1], lo, hi, hi');
    }
  }

  /** A range of a unique key holds no more rows than it is wide. */
  lemma {:induction false} NoMoreThanWide(t: Table, lo: int, hi: int)
    requires Sorted(t)
    ensures |Within(t, Key, lo, Some(hi))| <= Max0(hi - lo)
  {
    if t != [] {
      var init, r := t[..|t| - 1], t[|t| - 1];
      if Hit(Key, lo, Some(hi), r) {
        forall x | x in init ensures x.key < r.key { }
        SameWithin(init, lo, hi, r.key);
        NoMoreThanWide(init, lo, r.key);
      } else {
        NoMoreThanWide(init, lo, hi);
      }
    }
  }

  function Max0(n: int): nat { if n < 0 then 0 else n }

  // ---- integer ranges ----

  function RangeChunks(min: int, max: int, size: int, k: nat): seq<Chunk> {
    seq(k, i requires 0 <= i < k => RangeChunk(min, max, size, i))
  }

  /** Chunk i in order reads the keys from min + i * size up to the next chunk, or
      up to max; when its end wraps it reads nothing. The LIMIT never cuts. */
  lemma RangeChunkReads(t: Table, min: int, max: int, size: int, i: nat)
    requires Sorted(t) && size > 0 && IsInt64(max) && IsInt64(size) && IsInt64(min + i * size) && min + i * size <= max
    ensures ReadChunk(RangeChunk(min, max, size, i), t, 1)
         == (var end := min + i * size + size - 1;
             if end > MAX_INT64 then []
             else Within(t, Key, min + i * size, Some((if end < max then end else max) + 1)))
  {
    var c := RangeChunk(min, max, size, i);
    NoMoreThanWide(t, c.range.value.0, c.range.value.1 + 1);
    if min + i * size + size - 1 > MAX_INT64 {
      NothingWithin(t, Key, c.range.value.0, c.range.value.1 + 1);
    }
  }

  /** Chunk i, which starts at mid and does not wrap, reads the keys of its full width. */
  lemma FullChunkReads(t: Table, min: int, max: int, size: int, i: nat, mid: int)
    requires Sorted(t) && size > 0 && IsInt64(max) && IsInt64(size) && (forall r | r in t :: r.key <= max)
    requires mid == min + i * size && IsInt64(mid) && mid <= max && mid + size - 1 <= MAX_INT64
    ensures ReadChunk(RangeChunk(min, max, size, i), t, 1) == Within(t, Key, mid, Some(mid + size))
  {
    hide RangeChunk, ReadChunk, Within, Sorted;
    RangeChunkReads(t, min, max, size, i);
    if mid + size - 1 >= max { SameWithin(t, mid, mid + size, max + 1); }
  }

  lemma RangesSnoc(min: int, max: int, size: int, k: nat, t: Table)
    requires k > 0
    ensures ReadAll(RangeChunks(min, max, size, k), t, 1)
         == ReadAll(RangeChunks(min, max, size, k - 1), t, 1) + ReadChunk(RangeChunk(min, max, size, k - 1), t, 1)
  {
    hide RangeChunk, ReadChunk;
    assert RangeChunks(min, max, size, k)[..k - 1] == RangeChunks(min, max, size, k - 1);
  }

  /** The bounds of chunk k - 1, with the products out of the way. */
  lemma ChunkBounds(min: int, size: int, k: nat)
    requires size > 0 && k > 0
    ensures min <= min + (k - 1) * size && min + k * size == min + (k - 1) * size + size
    ensures k > 1 ==> min + (k - 2) * size <= min + (k - 1) * size
  {
    Plus(k - 1, size);
    MulLe(0, k - 1, size);
    if k > 1 { MulLe(k - 2, k - 1, size); }
  }

  /** The first k chunks read exactly the keys below min + k * size. */
  lemma {:induction false} RangesRead(t: Table, min: int, max: int, size: int, k: nat)
    requires Sorted(t) && size > 0 && IsInt64(min) && IsInt64(max) && IsInt64(size)
    requires forall r | r in t :: r.key <= max
    requires k > 0 ==> min + (k - 1) * size <= max && min + k * size - 1 <= MAX_INT64
    ensures multiset(ReadAll(RangeChunks(min, max, size, k), t, 1))
        == multiset(Within(t, Key, min, Some(min + k * size)))
  {
    hide RangeChunk, RangeChunks, ReadChunk, ReadAll, Within, Sorted;
    if k == 0 {
      NoRangeRead(min, max, size, t);
    } else {
      ChunkBounds(min, size, k);
      RangesRead(t, min, max, size, k - 1);
      var mid := min + (k - 1) * size;
      RangesSnoc(min, max, size, k, t);
      FullChunkReads(t, min, max, size, k - 1, mid);
      Split(t, Key, min, mid, Some(mid + size));
    }
  }

  lemma NoRangeRead(min: int, max: int, size: int, t: Table)
    ensures ReadAll(RangeChunks(min, max, size, 0), t, 1) == [] && Within(t, Key, min, Some(min + 0 * size)) == []
  {
    NothingWithin(t, Key, min, min);
  }

  /** With a wrapped end the last chunk reads nothing: what is read are the keys below it. */
  lemma WrappedReads(t: Table, min: int, max: int, size: int, n: int)
    requires Sorted(t) && IsInt64(min) && IsInt64(max) && IsInt64(size) && size > 0 && n > 0
    requires forall r | r in t :: r.key <= max
    requires 0 <= (n - 1) * size <= max - min && min + n * size - 1 > MAX_INT64
    ensures multiset(ReadAll(RangeChunks(min, max, size, n), t, 1))
         == multiset(Within(t, Key, min, Some(min + (n - 1) * size)))
  {
    hide RangeChunk, ReadChunk, Within, Sorted;
    Plus(n - 1, size);
    if n > 1 { Plus(n - 2, size); }
    RangesRead(t, min, max, size, n - 1);
    RangeChunkReads(t, min, max, size, n - 1);
    LastReads(RangeChunks(min, max, size, n), RangeChunks(min, max, size, n - 1), t);
  }

  lemma LastReads(cs: seq<Chunk>, init: seq<Chunk>, t: Table)
    requires cs != [] && init == cs[..|cs| - 1] && ReadChunk(cs[|cs| - 1], t, 1) == []
    ensures ReadAll(cs, t, 1) == ReadAll(init, t, 1)
  {
  }

  lemma PartOf(a: seq<TableRow>, b: seq<TableRow>, whole: seq<TableRow>)
    requires multiset(a) + multiset(b) == multiset(whole)
    ensures multiset(a) == multiset(whole) <==> b == []
    ensures multiset(a) < multiset(whole) <==> b != []
  {
    assert |multiset(b)| == |b|;
    if b != [] { assert b[0] in multiset(b); }
  }

  /** The last of n chunks ends beyond the largest int64, and a wanted row lies in it. */
  predicate WrapLosesRows(t: Table, min: int, size: int, n: int) {
    min + n * size - 1 > MAX_INT64 && Within(t, Key, min + (n - 1) * size, None) != []
  }

  /** Running the chunks of an integer range reads every wanted row exactly once if
      and only if the last chunk's end, start + size - 1, is an int64 or no wanted
      row lies in that chunk: a wrapped end makes it read nothing. */
  lemma RangeReadsOnceIff(t: Table, min: int, max: int, size: int)
    requires Sorted(t) && IsInt64(min) && IsInt64(max) && IsInt64(size) && size > 0 && min <= max
    requires forall r | r in t :: min <= r.key <= max
    requires Counted(max - min + 1, size)
    ensures var p := RangePlan(Bounds(min, max), size);
            && p.Ok? && |p.value| == IntegerRangeChunkCount(min, max, size) > 0
            && (ReadsOnce(p.value, t, 1) <==> !WrapLosesRows(t, min, size, |p.value|))
            && (MissesRows(p.value, t, 1) <==> WrapLosesRows(t, min, size, |p.value|))
  {
    hide RangeChunk, ReadAll, Within, Wanted, Sorted, IntegerRangeChunkCount;
    RangeCountIs(min, max, size);
    RangeMakeIs(min, max, size);
    var n := IntegerRangeChunkCount(min, max, size);
    assert RangePlan(Bounds(min, max), size).value == RangeChunks(min, max, size, n);
    MulLe(0, n - 1, size);
    AllWithin(t, Key, min, None);
    if min + n * size - 1 <= MAX_INT64 {
      RangesRead(t, min, max, size, n);
      AllWithin(t, Key, min, Some(min + n * size));
    } else {
      var mid := min + (n - 1) * size;
      WrappedReads(t, min, max, size, n);
      Split(t, Key, min, mid, None);
      PartOf(Within(t, Key, min, Some(mid)), Within(t, Key, mid, None), Wanted(t));
    }
  }

  /** Every key of [min, max] lies in exactly one chunk. */
  lemma RangesTile(min: int, max: int, size: int, key: int)
    requires IsInt64(min) && IsInt64(max) && IsInt64(size) && size > 0 && min <= key <= max
    requires Counted(max - min + 1, size) && max + size - 1 <= MAX_INT64
    ensures var p := RangePlan(Bounds(min, max), size);
            && p.Ok?
            && exists i :: 0 <= i < |p.value| && InChunk(p.value[i], key)
                           && forall j | 0 <= j < |p.value| :: InChunk(p.value[j], key) ==> j == i
  {
    hide IntegerRangeChunkCount;
    RangeCountIs(min, max, size);
    RangeMakeIs(min, max, size);
    var n := IntegerRangeChunkCount(min, max, size);
    var cs := RangePlan(Bounds(min, max), size).value;
    var i := (key - min) / size;
    QuotientSign(key - min, size);
    Euclid(key - min, size);
    if i >= n { MulLe(n, i, size); }
    forall j | 0 <= j < n ensures j < i ==> min + j * size + size <= key
                          ensures j > i ==> min + j * size > key
                          ensures min + j * size <= max {
      MulLe(j, n - 1, size);
      if j < i { MulLe(j + 1, i, size); Plus(j, size); }
      if j > i { MulLe(i + 1, j, size); Plus(i, size); }
    }
    assert InChunk(cs[i], key);
    forall j | 0 <= j < n && InChunk(cs[j], key) ensures j == i { }
  }

  lemma Euclid(a: int, b: int)
    requires a >= 0 && b > 0
    ensures (a / b) * b <= a < (a / b) * b + b
  {
  }

  predicate InChunk(c: Chunk, key: int) { c.range.Some? && c.range.value.0 <= key <= c.range.value.1 }

  /** A key near the largest int64 is skipped. */
  lemma WrappedEndLosesARow()
    ensures var t := [TableRow(0, MAX_INT64, 0, true)];
            var p := RangePlan(Bounds(MAX_INT64, MAX_INT64), 100);
            p.Ok? && ReadAll(p.value, t, 1) == [] && Wanted(t) == t
  {
    hide Wrap64, IntegerRangeChunkCount;
    var min := MAX_INT64;
    var t := [TableRow(0, min, 0, true)];
    RangeCountIs(min, min, 100);
    RangeMakeIs(min, min, 100);
    var n := IntegerRangeChunkCount(min, min, 100);
    assert n == 1;
    var cs := RangePlan(Bounds(min, min), 100).value;
    RangeChunkReads(t, min, min, 100, 0);
    assert cs[..0] == [];
    assert t[..0] == [] && Wanted(t) == [] + [t[0]];
  }

  // ---- blocks ----

  function BlockChunks(per: int, size: int, n: int, k: nat): seq<Chunk> {
    seq(k, i requires 0 <= i < k => BlockChunk(per, size, n, i))
  }

  lemma BlockChunkReads(t: Table, per: int, size: int, n: int, i: int, pkColumns: nat)
    ensures ReadChunk(BlockChunk(per, size, n, i), t, pkColumns)
         == Within(t, Block, i * per, if i == n - 1 then None else Some((i + 1) * per))
  {
    hide Within;
  }

  lemma {:induction false} BlocksRead(t: Table, per: int, size: int, n: nat, k: nat, pkColumns: nat)
    requires per > 0 && k <= n
    ensures multiset(ReadAll(BlockChunks(per, size, n, k), t, pkColumns))
         == multiset(Within(t, Block, 0, if k == n && n > 0 then None else Some(k * per)))
  {
    hide Within, ReadChunk, BlockChunk;
    if k == 0 {
      NothingWithin(t, Block, 0, 0);
    } else {
      Plus(k - 1, per);
      MulLe(0, k - 1, per);
      BlocksRead(t, per, size, n, k - 1, pkColumns);
      BlockChunkReads(t, per, size, n, k - 1, pkColumns);
      var cs, lo := BlockChunks(per, size, n, k), (k - 1) * per;
      assert cs[..k - 1] == BlockChunks(per, size, n, k - 1);
      Split(t, Block, 0, lo, if k == n then None else Some(lo + per));
    }
  }

  /** Block chunks read every wanted row exactly once whatever the table, the block
      count the coordinator saw and the row estimate, as long as the list can be made. */
  lemma CtidReadsOnce(t: Table, blocks: int, rowsPerBlock: Option<int>, size: int, pkColumns: nat)
    requires IsInt64(size) && size > 0 && 0 <= blocks
    requires blocks == 0 || Counted(blocks, BlocksPerChunk(rowsPerBlock, size))
    ensures var p := CtidPlan(Some(blocks), rowsPerBlock, size);
            p.Ok? && |p.value| > 0 && ReadsOnce(p.value, t, pkColumns)
  {
    hide CeilCount, BlocksPerChunk, Within, Wanted, BlockChunk;
    var per := BlocksPerChunk(rowsPerBlock, size);
    if blocks == 0 {
      var cs := CtidPlan(Some(blocks), rowsPerBlock, size).value;
      assert cs[..0] == [];
      assert ReadAll(cs, t, pkColumns) == [] + Wanted(t);
    } else {
      MakeIs(blocks, per);
      var n := CeilCount(blocks, per);
      var cs := CtidPlan(Some(blocks), rowsPerBlock, size).value;
      assert cs == BlockChunks(per, size, n, n);
      BlocksRead(t, per, size, n, n, pkColumns);
      AllWithin(t, Block, 0, None);
    }
  }

  // ---- offsets ----

  function OffsetChunks(size: int, k: nat): seq<Chunk> { seq(k, i requires 0 <= i < k => OffsetChunk(size, i)) }

  lemma LimitSplit(w: seq<TableRow>, from: int, size: int)
    requires 0 <= from && 0 < size
    ensures Limit(w, from) + Slice(w, from, size) == Limit(w, from + size)
  {
  }

  /** The slices in chunk order are the ordered wanted rows. */
  lemma {:induction false} OffsetsConcatenate(t: Table, size: int, k: nat, pkColumns: nat)
    requires size > 0
    ensures ReadAll(OffsetChunks(size, k), t, pkColumns) == Limit(Wanted(t), k * size)
  {
    hide Wanted, Limit, Slice;
    if k == 0 {
      LimitNone(Wanted(t));
    } else {
      Plus(k - 1, size);
      MulLe(0, k - 1, size);
      OffsetsConcatenate(t, size, k - 1, pkColumns);
      var cs := OffsetChunks(size, k);
      assert cs[..k - 1] == OffsetChunks(size, k - 1);
      LimitSplit(Wanted(t), (k - 1) * size, size);
    }
  }

  lemma LimitNone(w: seq<TableRow>)
    ensures Limit(w, 0) == []
  {
  }

  /** With an exact count the offset chunks read the ordered wanted rows, in order
      and once; when the count query failed they read the first `size` of them. */
  lemma OffsetReads(t: Table, count: Option<int>, size: int, pkColumns: nat)
    requires IsInt64(size) && size > 0
    requires count.Some? ==> count.value == |Wanted(t)| && (count.value == 0 || Counted(count.value, size))
    ensures var p := OffsetPlan(count, size);
            && p.Ok? && |p.value| > 0
            && ReadAll(p.value, t, pkColumns) == if count.Some? then Wanted(t) else Limit(Wanted(t), size)
  {
    hide CeilCount, Wanted, OffsetChunk;
    if count.None? || count.value == 0 {
      assert OffsetPlan(count, size).value == OffsetChunks(size, 1);
      OffsetsConcatenate(t, size, 1, pkColumns);
    } else {
      MakeIs(count.value, size);
      var n := CeilCount(count.value, size);
      assert OffsetPlan(count, size).value == OffsetChunks(size, n);
      OffsetsConcatenate(t, size, n, pkColumns);
    }
  }

  /** A range chunk without bounds, or of a table without a single integer key, is read as
      the slice of the same start and size. */
  lemma RangeWithoutKey(c: Chunk, t: Table, pkColumns: nat)
    requires c.strategy.IntegerRange? && (c.range.None? || pkColumns != 1)
    ensures ReadChunk(c, t, pkColumns) == ReadChunk(OffsetChunk(c.size, 0).(start := c.start), t, pkColumns)
  {
  }

  // ---- a whole table ----

  /** Every catalog query that succeeded described the table. */
  ghost predicate Describes(cat: Catalog, t: Table, pkColumns: nat) {
    && (cat.singleIntegerPk == Some(true) ==> pkColumns == 1 && Sorted(t))
    && (cat.bounds.NoRows? ==> t == [])
    && (cat.bounds.Bounds? ==> cat.bounds.min <= cat.bounds.max && IsInt64(cat.bounds.min) && IsInt64(cat.bounds.max)
                               && forall r | r in t :: cat.bounds.min <= r.key <= cat.bounds.max)
    && (cat.blocks.Some? ==> cat.blocks.value >= 0)
    && (cat.sparseCount.Some? ==> cat.sparseCount.value == |Wanted(t)|)
    && (cat.count.Some? ==> cat.count.value == |Wanted(t)|)
  }

  ghost predicate InInt64(cat: Catalog, size: int) {
    && 0 < size && IsInt64(size)
    && (cat.blocks.Some? ==> cat.blocks.value <= MAX_INT64)
    && (cat.count.Some? ==> cat.count.value <= MAX_INT64)
  }

  /** What becomes of a table's snapshot: the coordinator panics, some wanted row is
      missed, or every wanted row is read exactly once. */
  datatype Fate = Panics | Misses | ReadsAll

  /** Offset chunks: a failed count makes one slice; a count whose sum wraps to zero
      makes none. */
  function OffsetFate(cat: Catalog, t: Table, size: int): Fate {
    if cat.count.None? then if |Wanted(t)| > size then Misses else ReadsAll
    else if cat.count.value == 0 || Counted(cat.count.value, size) then ReadsAll
    else if Uncounted(cat.count.value, size) then Misses
    else Panics
  }

  /** Block chunks, or `otherwise` when there are none. */
  function BlockFate(cat: Catalog, size: int, otherwise: Fate): Fate
    requires size > 0
  {
    if cat.blocks.None? then otherwise
    else
      var per := BlocksPerChunk(cat.rowsPerBlock, size);
      if cat.blocks.value == 0 || Counted(cat.blocks.value, per) then ReadsAll
      else if Uncounted(cat.blocks.value, per) then otherwise
      else Panics
  }

  /** Range chunks, or `otherwise` when there are none or they are given up as sparse. */
  function RangeFate(cat: Catalog, t: Table, size: int, sparse: bool, otherwise: Fate): Fate
    requires size > 0
  {
    match cat.bounds
    case BoundsFailed => otherwise
    case NoRows => ReadsAll
    case Bounds(min, max) =>
      if Uncounted(max - min + 1, size) then otherwise
      else if !Counted(max - min + 1, size) then Panics
      else if sparse then otherwise
      else if WrapLosesRows(t, min, size, IntegerRangeChunkCount(min, max, size)) then Misses
      else ReadsAll
  }

  /** The range of auto-detection has more than twice the chunks its rows need. */
  predicate Sparse(cat: Catalog, size: int)
    requires size > 0
  {
    && cat.bounds.Bounds? && cat.sparseCount.Some?
    && IntegerRangeIsSparse(IntegerRangeChunkCount(cat.bounds.min, cat.bounds.max, size), cat.sparseCount.value, size)
  }

  function TableFate(strategy: Strategy, cat: Catalog, t: Table, size: int): Fate
    requires size > 0
  {
    var byOffset := OffsetFate(cat, t, size);
    match strategy
    case Offset => byOffset
    case CtidBlock => BlockFate(cat, size, byOffset)
    case IntegerRange =>
      if cat.singleIntegerPk.None? then byOffset
      else
        var byBlock := BlockFate(cat, size, if Wanted(t) == [] then ReadsAll else Misses);
        if cat.singleIntegerPk.value then RangeFate(cat, t, size, false, byBlock) else byBlock
    case Auto =>
      var byBlock := BlockFate(cat, size, byOffset);
      if cat.singleIntegerPk == Some(true) then RangeFate(cat, t, size, Sparse(cat, size), byBlock) else byBlock
  }

  /** Plan p has this fate. */
  ghost predicate Meets(p: Result<seq<Chunk>>, t: Table, pkColumns: nat, fate: Fate) {
    match p
    case Ok(cs) =>
      && !fate.Panics?
      && (fate.ReadsAll? <==> ReadsOnce(cs, t, pkColumns))
      && (fate.Misses? <==> MissesRows(cs, t, pkColumns))
    case Panic => fate.Panics?
    case Error => false
  }

  lemma ReadsLimited(t: Table, size: int)
    requires size > 0
    ensures multiset(Limit(Wanted(t), size)) == multiset(Wanted(t)) <==> |Wanted(t)| <= size
    ensures multiset(Limit(Wanted(t), size)) < multiset(Wanted(t)) <==> |Wanted(t)| > size
  {
    hide Wanted;
    var w := Wanted(t);
    if |w| <= size {
      assert Limit(w, size) == w;
    } else {
      assert Limit(w, size) == w[..size];
      assert w == w[..size] + w[size..];
      PartOf(w[..size], w[size..], w);
    }
  }

  /** Without chunks nothing is read. */
  lemma NoChunks(t: Table, pkColumns: nat)
    ensures Meets(Ok([]), t, pkColumns, if Wanted(t) == [] then ReadsAll else Misses)
  {
    assert |multiset(Wanted(t))| == |Wanted(t)|;
    if Wanted(t) != [] { assert Wanted(t)[0] in multiset(Wanted(t)); }
  }

  lemma OffsetPlanMeets(cat: Catalog, t: Table, size: int, pkColumns: nat)
    requires Describes(cat, t, pkColumns) && InInt64(cat, size)
    ensures Meets(OffsetPlan(cat.count, size), t, pkColumns, OffsetFate(cat, t, size))
  {
    hide Wanted, ReadAll, Limit, Sorted, CeilCount, Counted, Uncounted;
    if cat.count.None? || cat.count.value == 0 || Counted(cat.count.value, size) {
      OffsetReads(t, cat.count, size, pkColumns);
      ReadsLimited(t, size);
    } else {
      MakeIs(cat.count.value, size);
      if Uncounted(cat.count.value, size) {
        assert OffsetPlan(cat.count, size).value == [];
        NoChunks(t, pkColumns);
      }
    }
  }

  /** Blocks that make chunks decide; blocks that make none leave it to the next plan. */
  lemma BlockPlanMeets(cat: Catalog, t: Table, size: int, pkColumns: nat, next: Result<seq<Chunk>>, otherwise: Fate)
    requires Describes(cat, t, pkColumns) && InInt64(cat, size) && Meets(next, t, pkColumns, otherwise)
    ensures Meets(OrElse(CtidPlan(cat.blocks, cat.rowsPerBlock, size), next), t, pkColumns,
        BlockFate(cat, size, otherwise))
  {
    hide Wanted, ReadAll, Sorted, CeilCount, BlocksPerChunk, Counted, Uncounted;
    if cat.blocks.Some? {
      var per := BlocksPerChunk(cat.rowsPerBlock, size);
      if cat.blocks.value == 0 || Counted(cat.blocks.value, per) {
        CtidReadsOnce(t, cat.blocks.value, cat.rowsPerBlock, size, pkColumns);
      } else {
        MakeIs(cat.blocks.value, per);
        if Uncounted(cat.blocks.value, per) { assert CtidPlan(cat.blocks, cat.rowsPerBlock, size).value == []; }
      }
    }
  }

  /** The range plan, kept unless it makes no chunks or is sparse. */
  function RangeOr(ranges: Result<seq<Chunk>>, sparse: bool, next: Result<seq<Chunk>>): Result<seq<Chunk>> {
    if ranges.Ok? && (ranges.value == [] || sparse) then next else ranges
  }

  lemma RangePlanMeets(cat: Catalog, t: Table, size: int, pkColumns: nat, sparse: bool, next: Result<seq<Chunk>>,
          otherwise: Fate)
    requires Describes(cat, t, pkColumns) && InInt64(cat, size) && Meets(next, t, pkColumns, otherwise)
    requires cat.singleIntegerPk == Some(true) && (sparse ==> cat.bounds.Bounds?)
    ensures Meets(RangeOr(RangePlan(cat.bounds, size), sparse, next), t, pkColumns,
        RangeFate(cat, t, size, sparse, otherwise))
  {
    hide Wanted, IntegerRangeChunkCount, Sorted, Within, ReadAll, Counted, Uncounted, WrapLosesRows;
    match cat.bounds {
      case BoundsFailed =>
      case NoRows =>
        EmptyTable(t, size, pkColumns);
      case Bounds(min, max) =>
        RangeMakeIs(min, max, size);
        if Counted(max - min + 1, size) { RangeReadsOnceIff(t, min, max, size); }
    }
  }

  lemma EmptyTable(t: Table, size: int, pkColumns: nat)
    requires t == [] && size > 0
    ensures ReadsOnce([EmptyChunk(size, IntegerRange)], t, pkColumns)
  {
    var cs := [EmptyChunk(size, IntegerRange)];
    assert cs[..0] == [] && ReadChunk(cs[0], t, pkColumns) == [];
    assert ReadAll(cs, t, pkColumns) == [] + [];
  }

  lemma SparseIs(cat: Catalog, size: int)
    requires size > 0 && BoundsOk(cat.bounds) && IsInt64(size)
    ensures var p := RangePlan(cat.bounds, size);
            p.Ok? && p.value != [] ==> ShouldFallBackSparse(p.value, cat.sparseCount, size) == Sparse(cat, size)
  {
    hide IntegerRangeChunkCount, IntegerRangeIsSparse;
  }

  /** Whatever strategy is configured, whatever the catalog queries answer or fail to
      answer, and whatever fallback is taken: the coordinator panics, misses a wanted
      row or reads each wanted row exactly once precisely as TableFate says from the
      answers. */
  lemma TableReadOnceIff(strategy: Strategy, cat: Catalog, t: Table, size: int, pkColumns: nat)
    requires Describes(cat, t, pkColumns) && InInt64(cat, size)
    ensures Meets(TablePlan(strategy, cat, size), t, pkColumns, TableFate(strategy, cat, t, size))
  {
    hide OffsetPlan, CtidPlan, RangePlan, Meets, Describes, OffsetFate, BlockFate, RangeFate, ShouldFallBackSparse,
         Sparse, Wanted;
    var offset, block := OffsetPlan(cat.count, size), CtidPlan(cat.blocks, cat.rowsPerBlock, size);
    var byOffset := OffsetFate(cat, t, size);
    OffsetPlanMeets(cat, t, size, pkColumns);
    NoChunks(t, pkColumns);
    BlockPlanMeets(cat, t, size, pkColumns, offset, byOffset);
    var byBlock := BlockFate(cat, size, byOffset);
    var last := if Wanted(t) == [] then ReadsAll else Misses;
    BlockPlanMeets(cat, t, size, pkColumns, Ok([]), last);
    OrElseNothing(block);
    if cat.singleIntegerPk == Some(true) {
      DescribesBounds(cat, t, pkColumns);
      SparseIs(cat, size);
      SparseBounds(cat, size);
      RangePlanMeets(cat, t, size, pkColumns, Sparse(cat, size), OrElse(block, offset), byBlock);
      RangePlanMeets(cat, t, size, pkColumns, false, block, BlockFate(cat, size, last));
    }
  }

  lemma OrElseNothing(p: Result<seq<Chunk>>)
    ensures OrElse(p, Ok([])) == p
  {
  }

  lemma DescribesBounds(cat: Catalog, t: Table, pkColumns: nat)
    requires Describes(cat, t, pkColumns)
    ensures BoundsOk(cat.bounds)
  {
  }

  lemma SparseBounds(cat: Catalog, size: int)
    requires size > 0
    ensures Sparse(cat, size) ==> cat.bounds.Bounds?
  {
  }

  /** The range plan is the one used. */
  predicate RangeUsed(strategy: Strategy, cat: Catalog, size: int)
    requires size > 0
  {
    && (strategy.Auto? || strategy.IntegerRange?) && cat.singleIntegerPk == Some(true) && cat.bounds.Bounds?
    && !Uncounted(cat.bounds.max - cat.bounds.min + 1, size)
  }

  /** When every catalog query succeeds, and the block and row counts are ones a list can
      be made for, each wanted row is read exactly once unless a range is used whose
      count make() refuses, or whose last chunk wraps over a wanted row. */
  lemma TableReadOnce(strategy: Strategy, cat: Catalog, t: Table, size: int, pkColumns: nat)
    requires Describes(cat, t, pkColumns) && InInt64(cat, size)
    requires cat.singleIntegerPk.Some? && !cat.bounds.BoundsFailed?
    requires cat.sparseCount.Some? && cat.blocks.Some? && cat.count.Some?
    requires cat.blocks.value == 0 || Counted(cat.blocks.value, BlocksPerChunk(cat.rowsPerBlock, size))
    requires cat.count.value == 0 || Counted(cat.count.value, size)
    ensures var p, used := TablePlan(strategy, cat, size), RangeUsed(strategy, cat, size);
            && (p.Panic? <==> used && !Counted(cat.bounds.max - cat.bounds.min + 1, size))
            && (p.Ok? && ReadsOnce(p.value, t, pkColumns) <==>
                  used ==> && Counted(cat.bounds.max - cat.bounds.min + 1, size)
                           && ((strategy.Auto? && Sparse(cat, size))
                               || !WrapLosesRows(t, cat.bounds.min, size,
                                   IntegerRangeChunkCount(cat.bounds.min, cat.bounds.max, size))))
  {
    hide Describes, TablePlan, ReadsOnce, Wanted, Counted, Uncounted, WrapLosesRows, Sparse, IntegerRangeChunkCount,
         BlocksPerChunk;
    TableReadOnceIff(strategy, cat, t, size, pkColumns);
    if cat.bounds.Bounds? { NotBoth(cat.bounds.max - cat.bounds.min + 1, size); }
  }

  lemma NotBoth(total: int, size: int)
    requires IsInt64(size)
    ensures !(Counted(total, size) && Uncounted(total, size))
  {
  }
}
