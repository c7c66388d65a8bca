/** The replication sink of pq/replication/stream.go as a specification: what one
    decoded pgoutput event does to the look-ahead buffer, the per-transaction
    buffers and the output channel. The classes in Stream.dfy are proved
    against Step; the theorems are about Step and Run. */
module StreamEngine {
  import opened Basics

  type Xid = nat

  datatype CommitContext = CommitContext(time: int, lsn: Lsn, xid: Xid)

  const NO_COMMIT := CommitContext(0, 0, 0)

  /** A decoded row-level message. Insert, Update and Delete carry a commit
      context; Relation and Truncate carry only the XID read off the wire. */
  datatype Change<B> =
    | Dml(body: B, lsn: Lsn, commit: CommitContext, last: bool)
    | NonDml(body: B, xid: Xid)

  /** What travels through the channel to the listener. */
  datatype Message<B> = Message(change: Change<B>, walStart: Lsn)

  datatype Event<B> =
    | Begin(finalLsn: Lsn, commitTime: int, xid: Xid)
    | Commit(commitLsn: Lsn, endLsn: Lsn, commitTime: int)
    | StreamStart(xid: Xid)
    | StreamStop
    | StreamCommit(xid: Xid, commitLsn: Lsn, endLsn: Lsn, commitTime: int)
    | StreamAbort(xid: Xid, subXid: Xid)
    | Row(walStart: Lsn, change: Change<B>)

  function StampLsn<B>(c: Change<B>, lsn: Lsn): Change<B> {
    if c.Dml? then c.(lsn := lsn) else c
  }

  function StampCommit<B>(c: Change<B>, ctx: CommitContext): Change<B> {
    if c.Dml? then c.(commit := ctx) else c
  }

  function MarkLast<B>(c: Change<B>): Change<B> {
    if c.Dml? then c.(last := true) else c
  }

  /** The sink goroutine's memory: the open transaction's commit context, the
      look-ahead message and the streamed transactions' buffers. */
  datatype Sink<B> = Sink(
    tx: CommitContext,
    pending: Option<Message<B>>,
    txns: map<Xid, seq<Message<B>>>,
    activeXid: Xid,
    streaming: bool)
  {
    function Buffered(x: Xid): seq<Message<B>> { if x in txns then txns[x] else [] }
  }

  function FreshSink<B>(): Sink<B> { Sink(NO_COMMIT, None, map[], 0, false) }

  function PendingOut<B>(p: Option<Message<B>>): seq<Message<B>> {
    match p case None => [] case Some(m) => [m]
  }

  function LastOut<B>(p: Option<Message<B>>, endLsn: Lsn): seq<Message<B>> {
    match p case None => [] case Some(m) => [Message(MarkLast(m.change), endLsn)]
  }

  /** Message k of a streamed transaction as flushTx sends it. */
  function Released<B>(msgs: seq<Message<B>>, k: nat, ctx: CommitContext, endLsn: Lsn): Message<B>
    requires k < |msgs|
  {
    var c := StampCommit(msgs[k].change, ctx);
    if k == |msgs| - 1 then Message(MarkLast(c), endLsn) else Message(c, msgs[k].walStart)
  }

  function ReleasedAll<B>(msgs: seq<Message<B>>, ctx: CommitContext, endLsn: Lsn): (out: seq<Message<B>>)
    ensures |out| == |msgs| && forall k | 0 <= k < |msgs| :: out[k] == Released(msgs, k, ctx, endLsn)
  {
    seq(|msgs|, k requires 0 <= k < |msgs| => Released(msgs, k, ctx, endLsn))
  }

  datatype Outcome<B> = Outcome(sink: Sink<B>, out: seq<Message<B>>)

  /** A row message gets its own LSN, and the open transaction's commit context
      unless it belongs to a streamed chunk. */
  function StampedChange<B>(s: Sink<B>, e: Event<B>): Change<B>
    requires e.Row?
  {
    var c := StampLsn(e.change, e.walStart);
    if s.streaming then c else StampCommit(c, s.tx)
  }

  function Step<B>(s: Sink<B>, e: Event<B>): Outcome<B> {
    match e
    case Begin(lsn, time, xid) =>
      Outcome(s.(tx := CommitContext(time, lsn, xid), pending := None), [])
    case Commit(_, endLsn, _) =>
      Outcome(s.(pending := None), LastOut(s.pending, endLsn))
    case StreamStart(xid) =>
      Outcome(s.(activeXid := xid, streaming := true), [])
    case StreamStop =>
      Outcome(s.(streaming := false), [])
    case StreamCommit(xid, commitLsn, endLsn, time) =>
      Outcome(s.(streaming := false, txns := s.txns - {xid}),
              ReleasedAll(s.Buffered(xid), CommitContext(time, commitLsn, xid), endLsn))
    case StreamAbort(xid, _) =>
      Outcome(s.(streaming := false, txns := s.txns - {xid}), [])
    case Row(walStart, _) =>
      var m := Message(StampedChange(s, e), walStart);
      if s.streaming then
        Outcome(s.(txns := s.txns[s.activeXid := s.Buffered(s.activeXid) + [m]]), [])
      else
        Outcome(s.(pending := Some(m)), PendingOut(s.pending))
  }

  /** A row before the first BEGIN of a connection is held back with its own position and
      an all-zero commit context. */
  lemma RowBeforeBegin<B>(walStart: Lsn, c: Change<B>)
    ensures var r := Step(FreshSink<B>(), Row(walStart, c));
            && r.out == [] && r.sink.txns == map[] && r.sink.activeXid == 0
            && r.sink.pending.Some? && r.sink.pending.value.walStart == walStart
            && r.sink.pending.value.change
               == if c.Dml? then Dml(c.body, walStart, CommitContext(0, 0, 0), c.last) else c
  {
  }

  /** Whatever came before, the end of a streamed transaction also ends its chunk, and only
      its own buffer is gone. */
  lemma EndOfStreamed<B>(s: Sink<B>, e: Event<B>, x: Xid)
    requires e.StreamCommit? || e.StreamAbort?
    ensures var t := Step(s, e).sink; !t.streaming && t.Buffered(x) == if x == e.xid then [] else s.Buffered(x)
    ensures |Step(s, e).out| == if e.StreamCommit? then |s.Buffered(e.xid)| else 0
  {
  }

  function Run<B>(s: Sink<B>, es: seq<Event<B>>): Outcome<B>
    decreases |es|
  {
    if es == [] then Outcome(s, [])
    else
      var before := Run(s, es[..|es| - 1]);
      var r := Step(before.sink, es[|es| - 1]);
      Outcome(r.sink, before.out + r.out)
  }

  lemma RunSnoc<B>(s: Sink<B>, es: seq<Event<B>>, e: Event<B>)
    ensures Run(s, es + [e]).sink == Step(Run(s, es).sink, e).sink
    ensures Run(s, es + [e]).out == Run(s, es).out + Step(Run(s, es).sink, e).out
  {
    hide Step;
    assert (es + [e])[..|es|] == es;
  }

  lemma {:induction false} RunConcat<B>(s: Sink<B>, a: seq<Event<B>>, b: seq<Event<B>>)
    ensures Run(s, a + b).sink == Run(Run(s, a).sink, b).sink
    ensures Run(s, a + b).out == Run(s, a).out + Run(Run(s, a).sink, b).out
    decreases |b|
  {
    hide Step;
    if b == [] {
      assert a + b == a;
    } else {
      var c, e := b[..|b| - 1], b[|b| - 1];
      assert a + b == (a + c) + [e] && b == c + [e];
      RunConcat(s, a, c);
      RunSnoc(s, a + c, e);
      RunSnoc(Run(s, a).sink, c, e);
    }
  }
}
