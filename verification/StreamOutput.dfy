/** What the channel carries, for every well-formed message stream: whole
    BEGIN/COMMIT blocks, and streamed chunks of any number of transactions
    interleaved between them. */
module StreamOutput {
  import opened Basics
  import opened StreamEngine

  /** A row message as the server sends it. wireXid is the XID prefix of a
      streamed message, the row's own (sub)transaction; it is 0 outside chunks. */
  datatype WireRow<B> = WireRow(dml: bool, body: B, walStart: Lsn, wireXid: Xid)

  datatype Header = Header(xid: Xid, commitLsn: Lsn, endLsn: Lsn, time: int)
  {
    function Context(): CommitContext { CommitContext(time, commitLsn, xid) }
  }

  /** One self-contained stretch of a well-formed stream. */
  datatype Item<B> =
    | Block(h: Header, rows: seq<WireRow<B>>)
    | Chunk(xid: Xid, chunk: seq<WireRow<B>>)
    | StreamedCommit(header: Header)
    | Abort(xid: Xid, subXid: Xid)

  function Decoded<B>(r: WireRow<B>): Change<B> {
    if r.dml then Dml(r.body, 0, CommitContext(0, 0, r.wireXid), false) else NonDml(r.body, r.wireXid)
  }

  function RowEvents<B>(rows: seq<WireRow<B>>): (es: seq<Event<B>>)
    ensures |es| == |rows| && forall k | 0 <= k < |rows| :: es[k] == Row(rows[k].walStart, Decoded(rows[k]))
  {
    seq(|rows|, k requires 0 <= k < |rows| => Row(rows[k].walStart, Decoded(rows[k])))
  }

  function ItemEvents<B>(i: Item<B>): (es: seq<Event<B>>)
    ensures |es| == if i.Block? then |i.rows| + 2 else if i.Chunk? then |i.chunk| + 2 else 1
  {
    match i
    case Block(h, rows) =>
      [Begin(h.commitLsn, h.time, h.xid)] + RowEvents(rows) + [Commit(h.commitLsn, h.endLsn, h.time)]
    case Chunk(xid, rows) => [StreamStart(xid)] + RowEvents(rows) + [StreamStop]
    case StreamedCommit(h) => [StreamCommit(h.xid, h.commitLsn, h.endLsn, h.time)]
    case Abort(xid, subXid) => [StreamAbort(xid, subXid)]
  }

  function Events<B>(items: seq<Item<B>>): seq<Event<B>> {
    if items == [] then [] else Events(items[..|items| - 1]) + ItemEvents(items[|items| - 1])
  }

  /** What the listener must see of row k of a committed transaction. */
  function DeliveredRow<B>(h: Header, rows: seq<WireRow<B>>, k: nat): Message<B>
    requires k < |rows|
  {
    var r := rows[k];
    var last := k == |rows| - 1;
    Message(if r.dml then Dml(r.body, r.walStart, h.Context(), last) else NonDml(r.body, r.wireXid),
            if last then h.endLsn else r.walStart)
  }

  function Delivered<B>(h: Header, rows: seq<WireRow<B>>): (out: seq<Message<B>>)
    ensures |out| == |rows| && forall k | 0 <= k < |rows| :: out[k] == DeliveredRow(h, rows, k)
  {
    seq(|rows|, k requires 0 <= k < |rows| => DeliveredRow(h, rows, k))
  }

  /** Rows of an unfinished streamed transaction that PostgreSQL still considers
      part of it, split at the last STREAM ABORT naming the transaction: `survived`
      were sent before it and survive it, `recent` were sent since. */
  datatype Outstanding<B> = Outstanding(survived: seq<WireRow<B>>, recent: seq<WireRow<B>>)

  function WithoutSub<B>(rows: seq<WireRow<B>>, sub: Xid): seq<WireRow<B>> {
    if rows == [] then []
    else (if rows[0].wireXid == sub then [] else [rows[0]]) + WithoutSub(rows[1..], sub)
  }

  function OutstandingOf<B>(items: seq<Item<B>>, x: Xid): Outstanding<B> {
    if items == [] then Outstanding([], [])
    else
      var before := OutstandingOf(items[..|items| - 1], x);
      match items[|items| - 1]
      case Block(_, _) => before
      case Chunk(xid, rows) => if xid == x then before.(recent := before.recent + rows) else before
      case StreamedCommit(h) => if h.xid == x then Outstanding([], []) else before
      case Abort(xid, sub) =>
        if xid != x then before
        else if sub == xid then Outstanding([], [])
        else Outstanding(WithoutSub(before.survived + before.recent, sub), [])
  }

  /** The changes PostgreSQL committed, in commit order. */
  function Committed<B>(items: seq<Item<B>>): seq<Message<B>> {
    if items == [] then []
    else
      var init := items[..|items| - 1];
      match items[|items| - 1]
      case Block(h, rows) => Committed(init) + Delivered(h, rows)
      case StreamedCommit(h) =>
        var o := OutstandingOf(init, h.xid);
        Committed(init) + Delivered(h, o.survived + o.recent)
      case _ => Committed(init)
  }

  /** The same, counting only streamed rows sent after the last abort. */
  function Kept<B>(items: seq<Item<B>>): seq<Message<B>> {
    if items == [] then []
    else
      var init := items[..|items| - 1];
      match items[|items| - 1]
      case Block(h, rows) => Kept(init) + Delivered(h, rows)
      case StreamedCommit(h) => Kept(init) + Delivered(h, OutstandingOf(init, h.xid).recent)
      case _ => Kept(init)
  }

  /** No committed streamed transaction has a row that survived one of its own
      STREAM ABORTs. Top-level aborts, and aborts of subtransactions that own
      every row sent so far, satisfy it. */
  ghost predicate NoSurvivorBeforeAbort<B>(items: seq<Item<B>>) {
    forall i | 0 <= i < |items| && items[i].StreamedCommit? ::
      OutstandingOf(items[..i], items[i].header.xid).survived == []
  }

  // ---- the sink after whole items ----

  function RawRow<B>(r: WireRow<B>): Message<B> { Message(StampLsn(Decoded(r), r.walStart), r.walStart) }

  function Raw<B>(rows: seq<WireRow<B>>): (out: seq<Message<B>>)
    ensures |out| == |rows| && forall k | 0 <= k < |rows| :: out[k] == RawRow(rows[k])
  {
    seq(|rows|, k requires 0 <= k < |rows| => RawRow(rows[k]))
  }

  function Plain<B>(h: Header, r: WireRow<B>): Message<B> {
    Message(StampCommit(StampLsn(Decoded(r), r.walStart), h.Context()), r.walStart)
  }

  function Plains<B>(h: Header, rows: seq<WireRow<B>>): (out: seq<Message<B>>)
    ensures |out| == |rows| && forall k | 0 <= k < |rows| :: out[k] == Plain(h, rows[k])
  {
    seq(|rows|, k requires 0 <= k < |rows| => Plain(h, rows[k]))
  }

  /** What the sink remembers between items. */
  ghost predicate Between<B>(s: Sink<B>, items: seq<Item<B>>) {
    && s.pending == None
    && !s.streaming
    && forall x: Xid :: s.Buffered(x) == Raw(OutstandingOf(items, x).recent)
  }

  lemma StepRow<B>(s: Sink<B>, h: Header, r: WireRow<B>)
    ensures var o := Step(s, Row(r.walStart, Decoded(r)));
            && (s.streaming ==>
              o == Outcome(s.(txns := s.txns[s.activeXid := s.Buffered(s.activeXid) + [RawRow(r)]]), []))
            && (!s.streaming && s.tx == h.Context()
              ==> o == Outcome(s.(pending := Some(Plain(h, r))), PendingOut(s.pending)))
  {
  }

  lemma {:induction false} BlockRows<B>(s: Sink<B>, h: Header, rows: seq<WireRow<B>>, k: nat)
    requires s.tx == h.Context() && s.pending == None && !s.streaming
    requires k <= |rows|
    ensures Run(s, RowEvents(rows)[..k]).sink == s.(pending := if k == 0 then None else Some(Plain(h, rows[k - 1])))
    ensures Run(s, RowEvents(rows)[..k]).out == if k == 0 then [] else Plains(h, rows)[..k - 1]
  {
    hide Step, Plain, Decoded;
    var es := RowEvents(rows);
    if k > 0 {
      assert es[..k] == es[..k - 1] + [es[k - 1]];
      BlockRows(s, h, rows, k - 1);
      RunSnoc(s, es[..k - 1], es[k - 1]);
      StepRow(Run(s, es[..k - 1]).sink, h, rows[k - 1]);
      if k > 1 { assert Plains(h, rows)[..k - 1] == Plains(h, rows)[..k - 2] + [Plain(h, rows[k - 2])]; }
    } else {
      assert es[..0] == [];
    }
  }

  lemma {:induction false} ChunkRows<B>(s: Sink<B>, h: Header, rows: seq<WireRow<B>>, k: nat)
    requires s.streaming && 0 < k <= |rows|
    ensures Run(s, RowEvents(rows)[..k]).sink
        == s.(txns := s.txns[s.activeXid := s.Buffered(s.activeXid) + Raw(rows[..k])])
    ensures Run(s, RowEvents(rows)[..k]).out == []
  {
    hide Step, RawRow, Decoded;
    var es := RowEvents(rows);
    var m := RawRow(rows[k - 1]);
    assert es[..k] == es[..k - 1] + [es[k - 1]];
    assert Raw(rows[..k]) == Raw(rows[..k - 1]) + [m];
    RunSnoc(s, es[..k - 1], es[k - 1]);
    StepRow(Run(s, es[..k - 1]).sink, h, rows[k - 1]);
    var buf := s.Buffered(s.activeXid);
    if k > 1 {
      ChunkRows(s, h, rows, k - 1);
      assert buf + Raw(rows[..k]) == (buf + Raw(rows[..k - 1])) + [m];
    } else {
      assert es[..0] == [] && Raw(rows[..1]) == [m];
    }
  }

  /** Output of the first k events of one item. */
  function PartialOut<B>(items: seq<Item<B>>, i: Item<B>, k: nat): seq<Message<B>>
    requires k <= |ItemEvents(i)|
  {
    match i
    case Block(h, rows) =>
      if k <= 2 && k < |rows| + 2 then []
      else if k < |rows| + 2 then Delivered(h, rows)[..k - 2]
      else Delivered(h, rows)
    case StreamedCommit(h) => if k == 0 then [] else Delivered(h, OutstandingOf(items, h.xid).recent)
    case _ => []
  }

  /** A block cut after its BEGIN and m rows. */
  lemma OpenBlock<B>(s: Sink<B>, i: Item<B>, m: nat)
    requires s.pending == None && !s.streaming && i.Block? && m <= |i.rows|
    ensures m + 1 <= |ItemEvents(i)|
    ensures Run(s, ItemEvents(i)[..m + 1]).sink ==
            s.(tx := i.h.Context(), pending := if m == 0 then None else Some(Plain(i.h, i.rows[m - 1])))
    ensures Run(s, ItemEvents(i)[..m + 1]).out == if m == 0 then [] else Plains(i.h, i.rows)[..m - 1]
  {
    var b: Event<B> := Begin(i.h.commitLsn, i.h.time, i.h.xid);
    assert ItemEvents(i)[..m + 1] == [b] + RowEvents(i.rows)[..m];
    RunSnoc(s, [], b);
    assert [b] == [] + [b];
    RunConcat(s, [b], RowEvents(i.rows)[..m]);
    BlockRows(Step(s, b).sink, i.h, i.rows, m);
  }

  lemma BlockAdds<B>(s: Sink<B>, items: seq<Item<B>>, i: Item<B>, t: Sink<B>)
    requires Between(s, items) && i.Block?
    requires t.pending == None && !t.streaming && t.txns == s.txns
    ensures Between(t, items + [i])
  {
    assert (items + [i])[..|items|] == items;
  }

  lemma DeliveredAsHeldBack<B>(h: Header, rows: seq<WireRow<B>>)
    ensures var n := |rows|;
            Delivered(h, rows) ==
            (if n == 0 then [] else Plains(h, rows)[..n - 1])
            + LastOut(if n == 0 then None else Some(Plain(h, rows[n - 1])), h.endLsn)
  {
    hide Delivered, Plains;
  }

  lemma ClosedBlock<B>(s: Sink<B>, items: seq<Item<B>>, i: Item<B>)
    requires Between(s, items) && i.Block?
    ensures Run(s, ItemEvents(i)).out == Delivered(i.h, i.rows)
    ensures Between(Run(s, ItemEvents(i)).sink, items + [i])
  {
    hide Delivered, Plains, Plain;
    var n := |i.rows|;
    var es := ItemEvents(i);
    var c: Event<B> := Commit(i.h.commitLsn, i.h.endLsn, i.h.time);
    assert es == es[..n + 1] + [c];
    OpenBlock(s, i, n);
    RunSnoc(s, es[..n + 1], c);
    BlockAdds(s, items, i, Run(s, es).sink);
    DeliveredAsHeldBack(i.h, i.rows);
  }

  lemma RunNothing<B>(s: Sink<B>)
    ensures Run(s, []) == Outcome(s, [])
  {
  }

  lemma BetweenNothing<B>(s: Sink<B>, items: seq<Item<B>>)
    requires Between(s, items)
    ensures s.pending == None && !s.streaming
  {
  }

  /** All rows but the last are delivered as they came. */
  lemma PlainIsDelivered<B>(h: Header, rows: seq<WireRow<B>>, k: nat)
    requires k < |rows|
    ensures Plains(h, rows)[..k] == Delivered(h, rows)[..k]
  {
  }

  lemma BlockOut<B>(s: Sink<B>, items: seq<Item<B>>, i: Item<B>, k: nat)
    requires Between(s, items) && i.Block? && k <= |ItemEvents(i)|
    ensures Run(s, ItemEvents(i)[..k]).out == PartialOut(items, i, k)
  {
    hide Step, Run, Between, OutstandingOf, ItemEvents, Plains, Delivered;
    var es := ItemEvents(i);
    BetweenNothing(s, items);
    if k == 0 {
      RunNothing(s);
      assert es[..0] == [];
    } else if k < |es| {
      OpenBlock(s, i, k - 1);
      if k > 2 { PlainIsDelivered(i.h, i.rows, k - 2); }
    } else {
      assert es[..k] == es;
      ClosedBlock(s, items, i);
    }
  }

  lemma StartStep<B>(s: Sink<B>, x: Xid)
    ensures Step(s, StreamStart(x)) == Outcome(s.(activeXid := x, streaming := true), [])
    ensures Step(s, StreamStop) == Outcome(s.(streaming := false), [])
  {
  }

  /** A chunk cut after its STREAM START and m rows. */
  lemma OpenChunk<B>(s: Sink<B>, i: Item<B>, m: nat)
    requires !s.streaming && i.Chunk? && m <= |i.chunk|
    ensures m + 1 <= |ItemEvents(i)|
    ensures Run(s, ItemEvents(i)[..m + 1]).out == []
    ensures var t := Run(s, ItemEvents(i)[..m + 1]).sink;
            && t.pending == s.pending && t.streaming
            && (forall x: Xid ::
              t.Buffered(x) == if x == i.xid && m > 0 then s.Buffered(x) + Raw(i.chunk[..m]) else s.Buffered(x))
  {
    hide Step;
    var b: Event<B> := StreamStart(i.xid);
    var s1 := Step(s, b).sink;
    assert ItemEvents(i)[..m + 1] == [b] + RowEvents(i.chunk)[..m];
    assert [b] == [] + [b];
    RunSnoc(s, [], b);
    StartStep(s, i.xid);
    RunConcat(s, [b], RowEvents(i.chunk)[..m]);
    if m > 0 { ChunkRows(s1, Header(0, 0, 0, 0), i.chunk, m); } else { assert RowEvents(i.chunk)[..0] == []; }
  }

  lemma ChunkOut<B>(s: Sink<B>, items: seq<Item<B>>, i: Item<B>, k: nat)
    requires Between(s, items) && i.Chunk? && k <= |ItemEvents(i)|
    ensures Run(s, ItemEvents(i)[..k]).out == []
    ensures k == |ItemEvents(i)| ==> Between(Run(s, ItemEvents(i)[..k]).sink, items + [i])
  {
    hide Step, Run, Raw, OutstandingOf;
    var n := |i.chunk|;
    var es := ItemEvents(i);
    if k == 0 {
      RunNothing(s);
      assert es[..0] == [];
    } else if k < n + 2 {
      OpenChunk(s, i, k - 1);
    } else {
      assert es[..k] == es[..n + 1] + [StreamStop];
      OpenChunk(s, i, n);
      RunSnoc(s, es[..n + 1], StreamStop);
      StartStep(Run(s, es[..n + 1]).sink, i.xid);
      ChunkAdds(items, i, s);
    }
  }

  lemma ChunkAdds<B>(items: seq<Item<B>>, i: Item<B>, s: Sink<B>)
    requires Between(s, items) && i.Chunk?
    ensures forall x: Xid ::
              Raw(OutstandingOf(items + [i], x).recent)
              == (if x == i.xid && |i.chunk| > 0 then s.Buffered(x) + Raw(i.chunk[..|i.chunk|]) else s.Buffered(x))
  {
    assert (items + [i])[..|items|] == items;
    var recent := OutstandingOf(items, i.xid).recent;
    assert i.chunk[..|i.chunk|] == i.chunk;
    assert Raw(recent + i.chunk) == Raw(recent) + Raw(i.chunk);
    assert i.chunk == [] ==> recent + i.chunk == recent;
  }

  lemma ReleasedIsDelivered<B>(h: Header, rows: seq<WireRow<B>>)
    ensures ReleasedAll(Raw(rows), h.Context(), h.endLsn) == Delivered(h, rows)
  {
  }

  lemma CommitStep<B>(s: Sink<B>, items: seq<Item<B>>, h: Header)
    requires Between(s, items)
    ensures var r := Step(s, StreamCommit(h.xid, h.commitLsn, h.endLsn, h.time));
            r.out == Delivered(h, OutstandingOf(items, h.xid).recent) && Between(r.sink, items + [StreamedCommit(h)])
  {
    assert (items + [StreamedCommit(h)])[..|items|] == items;
    ReleasedIsDelivered(h, OutstandingOf(items, h.xid).recent);
    var none: seq<WireRow<B>> := [];
    assert Raw(none) == [];
  }

  lemma AbortStep<B>(s: Sink<B>, items: seq<Item<B>>, x: Xid, sub: Xid)
    requires Between(s, items)
    ensures var r := Step(s, StreamAbort(x, sub));
            r.out == [] && Between(r.sink, items + [Item.Abort(x, sub)])
  {
    assert (items + [Item.Abort(x, sub)])[..|items|] == items;
    var none: seq<WireRow<B>> := [];
    assert Raw(none) == [];
  }

  lemma ControlOut<B>(s: Sink<B>, items: seq<Item<B>>, i: Item<B>, k: nat)
    requires Between(s, items) && (i.StreamedCommit? || i.Abort?) && k <= |ItemEvents(i)|
    ensures Run(s, ItemEvents(i)[..k]).out == PartialOut(items, i, k)
    ensures k == |ItemEvents(i)| ==> Between(Run(s, ItemEvents(i)[..k]).sink, items + [i])
  {
    hide Step, Delivered, OutstandingOf, Between;
    var es := ItemEvents(i);
    if k == 0 {
      assert es[..0] == [];
    } else {
      assert es[..k] == [] + [es[0]];
      RunSnoc(s, [], es[0]);
      if i.StreamedCommit? { CommitStep(s, items, i.header); } else { AbortStep(s, items, i.xid, i.subXid); }
    }
  }

  lemma ItemOut<B>(s: Sink<B>, items: seq<Item<B>>, i: Item<B>, k: nat)
    requires Between(s, items) && k <= |ItemEvents(i)|
    ensures Run(s, ItemEvents(i)[..k]).out == PartialOut(items, i, k)
    ensures k == |ItemEvents(i)| ==> Between(Run(s, ItemEvents(i)).sink, items + [i])
  {
    assert ItemEvents(i)[..|ItemEvents(i)|] == ItemEvents(i);
    match i
    case Block(_, _) => BlockOut(s, items, i, k); ClosedBlock(s, items, i);
    case Chunk(_, _) => ChunkOut(s, items, i, k);
    case StreamedCommit(_) => ControlOut(s, items, i, k);
    case Abort(_, _) => ControlOut(s, items, i, k);
  }

  lemma EventsSnoc<B>(items: seq<Item<B>>, i: Item<B>)
    ensures Events(items + [i]) == Events(items) + ItemEvents(i)
  {
    hide ItemEvents;
    assert (items + [i])[..|items|] == items;
  }

  lemma KeptSnoc<B>(items: seq<Item<B>>, i: Item<B>)
    ensures Kept(items + [i]) == Kept(items) + PartialOut(items, i, |ItemEvents(i)|)
  {
    hide Delivered, OutstandingOf;
    assert (items + [i])[..|items|] == items;
    if !i.Block? && !i.StreamedCommit? { assert Kept(items) + [] == Kept(items); }
  }

  lemma NothingYet<B>()
    ensures var none: seq<Item<B>> := [];
            Events(none) == [] && Kept(none) == [] && Between(FreshSink<B>(), none)
    ensures Run(FreshSink<B>(), []) == Outcome(FreshSink<B>(), [])
  {
  }

  lemma {:induction false} WholeItems<B>(items: seq<Item<B>>)
    ensures Run(FreshSink<B>(), Events(items)).out == Kept(items)
    ensures Between(Run(FreshSink<B>(), Events(items)).sink, items)
  {
    hide Step, Run, OutstandingOf, ItemEvents, Delivered, Kept, PartialOut, Between, Events;
    if items == [] {
      NothingYet<B>();
    } else {
      var init, i := items[..|items| - 1], items[|items| - 1];
      assert init + [i] == items;
      WholeItems(init);
      var s := Run(FreshSink<B>(), Events(init)).sink;
      RunConcat(FreshSink<B>(), Events(init), ItemEvents(i));
      assert ItemEvents(i)[..|ItemEvents(i)|] == ItemEvents(i);
      ItemOut(s, init, i, |ItemEvents(i)|);
      EventsSnoc(init, i);
      KeptSnoc(init, i);
    }
  }

  /** The channel after any prefix of any well-formed stream: the committed
      transactions' changes in commit order, then all but the last change of the
      open BEGIN block, and nothing else. */
  lemma OutputAtEveryPrefix<B>(items: seq<Item<B>>, i: Item<B>, k: nat)
    requires k <= |ItemEvents(i)|
    ensures Run(FreshSink<B>(), Events(items) + ItemEvents(i)[..k]).out == Kept(items) + PartialOut(items, i, k)
    ensures k == 0 ==> Run(FreshSink<B>(), Events(items) + ItemEvents(i)[..k]).sink.pending == None
  {
    hide Step, PartialOut, OutstandingOf, Kept;
    WholeItems(items);
    RunConcat(FreshSink<B>(), Events(items), ItemEvents(i)[..k]);
    ItemOut(Run(FreshSink<B>(), Events(items)).sink, items, i, k);
    if k == 0 { assert ItemEvents(i)[..0] == []; }
  }

  /** Every prefix of a well-formed stream has the form used above. */
  lemma {:induction false} EveryPrefix<B>(items: seq<Item<B>>, n: nat)
    requires n < |Events(items)|
    ensures exists j, k :: 0 <= j < |items| && 0 <= k <= |ItemEvents(items[j])|
              && Events(items)[..n] == Events(items[..j]) + ItemEvents(items[j])[..k]
  {
    hide ItemEvents;
    var last := |items| - 1;
    var init := items[..last];
    if n < |Events(init)| {
      EveryPrefix(init, n);
      var j, k :| 0 <= j < |init| && 0 <= k <= |ItemEvents(init[j])|
              && Events(init)[..n] == Events(init[..j]) + ItemEvents(init[j])[..k];
      assert init[..j] == items[..j] && init[j] == items[j];
      assert Events(items)[..n] == Events(init)[..n];
    } else {
      var k := n - |Events(init)|;
      assert Events(items)[..n] == Events(items[..last]) + ItemEvents(items[last])[..k];
    }
  }
}
