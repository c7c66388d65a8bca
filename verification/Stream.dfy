/** The stream object of pq/replication/stream.go: its buffers, its channel, its
    positions and its two loops, each method proved against the specification. */
module Stream {
  import opened Basics
  import opened StreamEngine

  /** messageCH: written by the sink goroutine, read by the process goroutine. */
  class Channel<B> {
    var queue: seq<Message<B>>

    constructor ()
      ensures queue == []
    {
      queue := [];
    }

    method Send(m: Message<B>)
      modifies this
      ensures queue == old(queue) + [m]
    {
      queue := queue + [m];
    }

    method Receive() returns (m: Message<B>)
      requires queue != []
      modifies this
      ensures old(queue) == [m] + queue
    {
      m := queue[0];
      queue := queue[1..];
    }
  }

  /** The one-message look-ahead buffer. */
  class MessageBuffer<B> {
    var pending: Option<Message<B>>
    const outCh: Channel<B>

    constructor (outCh: Channel<B>)
      ensures this.outCh == outCh && pending == None
    {
      this.outCh := outCh;
      pending := None;
    }

    method Flush()
      modifies this, outCh
      ensures pending == None
      ensures outCh.queue == old(outCh.queue) + PendingOut(old(pending))
    {
      if pending.Some? {
        outCh.Send(pending.value);
        pending := None;
      }
    }

    method FlushWithLsn(lsn: Lsn)
      modifies this, outCh
      ensures pending == None
      ensures outCh.queue == old(outCh.queue) + LastOut(old(pending), lsn)
    {
      if pending.Some? {
        outCh.Send(Message(MarkLast(pending.value.change), lsn));
        pending := None;
      }
    }

    method Discard()
      modifies this
      ensures pending == None
    {
      pending := None;
    }

    method Buffer(m: Message<B>)
      modifies this, outCh
      ensures pending == Some(m)
      ensures outCh.queue == old(outCh.queue) + PendingOut(old(pending))
    {
      Flush();
      pending := Some(m);
    }
  }

  /** Rows of in-progress streamed transactions, kept per XID. */
  class StreamTxBuffer<B> {
    var txns: map<Xid, seq<Message<B>>>
    var activeXid: Xid
    var streaming: bool

    constructor ()
      ensures txns == map[] && activeXid == 0 && !streaming
    {
      txns := map[];
      activeXid := 0;
      streaming := false;
    }

    function Rows(x: Xid): seq<Message<B>>
      reads this
    {
      if x in txns then txns[x] else []
    }

    method StartTx(xid: Xid)
      modifies this
      ensures activeXid == xid && streaming && txns == old(txns)
    {
      activeXid := xid;
      streaming := true;
    }

    method Append(m: Message<B>)
      modifies this`txns
      ensures txns == old(txns)[activeXid := old(Rows(activeXid)) + [m]]
    {
      txns := txns[activeXid := Rows(activeXid) + [m]];
    }

    method StopTx()
      modifies this`streaming
      ensures !streaming
    {
      streaming := false;
    }

    method FlushTx(xid: Xid, outCh: Channel<B>, endLsn: Lsn, commitLsn: Lsn, commitTime: int)
      modifies this`streaming, this`txns, outCh
      ensures !streaming && txns == old(txns) - {xid}
      ensures outCh.queue ==
              old(outCh.queue) + ReleasedAll(old(Rows(xid)), CommitContext(commitTime, commitLsn, xid), endLsn)
    {
      streaming := false;
      var msgs := Rows(xid);
      var n := |msgs|;
      var ctx := CommitContext(commitTime, commitLsn, xid);
      for i := 0 to n
        invariant !streaming && txns == old(txns)
        invariant outCh.queue == old(outCh.queue) + ReleasedAll(msgs, ctx, endLsn)[..i]
      {
        var change := StampCommit(msgs[i].change, ctx);
        var out := Message(change, msgs[i].walStart);
        if i == n - 1 {
          out := Message(MarkLast(change), endLsn);
        }
        outCh.Send(out);
        assert ReleasedAll(msgs, ctx, endLsn)[..i + 1] == ReleasedAll(msgs, ctx, endLsn)[..i] + [out];
      }
      txns := txns - {xid};
    }

    method DiscardTx(xid: Xid)
      modifies this`streaming, this`txns
      ensures !streaming && txns == old(txns) - {xid}
    {
      streaming := false;
      txns := txns - {xid};
    }
  }

  /** One message read off the replication connection. event is None when
      message.New rejects the payload, which is then dropped. */
  datatype Frame<B> =
    | XLogData(walEnd: Lsn, event: Option<Event<B>>)
    | Keepalive(serverWalEnd: Lsn)

  function FrameEvent<B>(f: Frame<B>): seq<Event<B>> {
    if f.XLogData? && f.event.Some? then [f.event.value] else []
  }

  function FrameEvents<B>(frames: seq<Frame<B>>): seq<Event<B>> {
    if frames == [] then []
    else FrameEvents(frames[..|frames| - 1]) + FrameEvent(frames[|frames| - 1])
  }

  function ConnectionOut<B>(frames: seq<Frame<B>>): seq<Message<B>> {
    Run(FreshSink<B>(), FrameEvents(frames)).out
  }

  /** The channel after several connections: each starts from fresh buffers. */
  function QueuedAfter<B>(queue: seq<Message<B>>, conns: seq<seq<Frame<B>>>): seq<Message<B>> {
    if conns == [] then queue
    else QueuedAfter(queue, conns[..|conns| - 1]) + ConnectionOut(conns[|conns| - 1])
  }

  /** What the process goroutine and the consumer have done so far. */
  datatype Progress<B> = Progress(
    confirmed: Lsn, highWater: Lsn, floor: Lsn, replayed: nat, delivered: seq<Message<B>>)

  /** The heartbeat table as configured; tableOf is a row's schema and table name. */
  datatype Heartbeat<!B, !N> = Heartbeat(enabled: bool, schema: N, table: N, tableOf: B -> (N, N))
  {
    ghost predicate Is(m: Message<B>) { enabled && m.change.Dml? && tableOf(m.change.body) == (schema, table) }
  }

  /** One message taken from the channel: a heartbeat is acknowledged and dropped,
      anything else is handed to the listener. */
  function Consume<B>(p: Progress<B>, m: Message<B>, heartbeat: bool): Progress<B> {
    if heartbeat then p.(confirmed := Max(p.confirmed, m.walStart))
    else Progress(p.confirmed, Max(p.highWater, m.walStart), p.floor,
                  p.replayed + (if m.walStart <= p.floor then 1 else 0), p.delivered + [m])
  }

  ghost function ConsumeAll<B, N>(p: Progress<B>, q: seq<Message<B>>, hb: Heartbeat<B, N>): Progress<B>
    decreases |q|
  {
    if q == [] then p else ConsumeAll(Consume(p, q[0], hb.Is(q[0])), q[1..], hb)
  }

  /** The messages of q that go to the listener, in order. */
  ghost function Others<B, N>(q: seq<Message<B>>, hb: Heartbeat<B, N>): seq<Message<B>> {
    if q == [] then [] else (if hb.Is(q[0]) then [] else [q[0]]) + Others(q[1..], hb)
  }

  /** The heartbeats of q. */
  ghost function Heartbeats<B, N>(q: seq<Message<B>>, hb: Heartbeat<B, N>): seq<Message<B>> {
    if q == [] then [] else (if hb.Is(q[0]) then [q[0]] else []) + Heartbeats(q[1..], hb)
  }

  function AtOrBelow<B>(ms: seq<Message<B>>, floor: Lsn): nat {
    if ms == [] then 0 else (if ms[0].walStart <= floor then 1 else 0) + AtOrBelow(ms[1..], floor)
  }

  /** l is the highest of base and the positions of ms. */
  ghost predicate Highest<B>(l: Lsn, base: Lsn, ms: seq<Message<B>>) {
    && base <= l && (forall k | 0 <= k < |ms| :: ms[k].walStart <= l)
    && (l == base || exists k :: 0 <= k < |ms| && ms[k].walStart == l)
  }

  lemma HigherOf<B>(l: Lsn, base: Lsn, m: Message<B>, ms: seq<Message<B>>)
    requires Highest(l, Max(base, m.walStart), ms)
    ensures Highest(l, base, [m] + ms)
  {
    var more := [m] + ms;
    assert forall k | 0 <= k < |ms| :: more[k + 1] == ms[k];
    assert more[0] == m;
    if k :| 0 <= k < |ms| && ms[k].walStart == l { assert more[k + 1].walStart == l; }
  }

  lemma Parted<B, N>(q: seq<Message<B>>, hb: Heartbeat<B, N>)
    requires q != []
    ensures Heartbeats(q, hb) == if hb.Is(q[0]) then [q[0]] + Heartbeats(q[1..], hb) else Heartbeats(q[1..], hb)
    ensures Others(q, hb) == if hb.Is(q[0]) then Others(q[1..], hb) else [q[0]] + Others(q[1..], hb)
  {
  }

  lemma NothingConsumed<B, N>(p: Progress<B>, q: seq<Message<B>>, hb: Heartbeat<B, N>)
    requires q == []
    ensures Others(q, hb) == [] && Heartbeats(q, hb) == [] && p.delivered + [] == p.delivered
    ensures Highest(p.confirmed, p.confirmed, Heartbeats(q, hb)) && Highest(p.highWater, p.highWater, Others(q, hb))
  {
  }

  /** What a queue leaves behind: the listener was called once for every message but
      the heartbeats, in order; the heartbeats are confirmed up to the highest of them;
      the mark is the highest position handed over; and the replay counter grew by the
      messages handed over at or below the floor, which itself stays. */
  lemma {:induction false} ConsumedAre<B, N>(p: Progress<B>, q: seq<Message<B>>, hb: Heartbeat<B, N>)
    ensures var r := ConsumeAll(p, q, hb);
            && r.delivered == p.delivered + Others(q, hb)
            && Highest(r.confirmed, p.confirmed, Heartbeats(q, hb))
            && Highest(r.highWater, p.highWater, Others(q, hb))
            && r.floor == p.floor && r.replayed == p.replayed + AtOrBelow(Others(q, hb), p.floor)
    decreases |q|
  {
    hide Highest, Max, Others, Heartbeats, Heartbeat<B, N>.Is;
    if q == [] {
      NothingConsumed(p, q, hb);
    } else {
      var m, rest := q[0], q[1..];
      ConsumedAre(Consume(p, m, hb.Is(m)), rest, hb);
      var r := ConsumeAll(p, q, hb);
      Parted(q, hb);
      if hb.Is(m) {
        HigherOf(r.confirmed, p.confirmed, m, Heartbeats(rest, hb));
      } else {
        HigherOf(r.highWater, p.highWater, m, Others(rest, hb));
        assert ([m] + Others(rest, hb))[1..] == Others(rest, hb);
        assert p.delivered + [m] + Others(rest, hb) == p.delivered + ([m] + Others(rest, hb));
      }
    }
  }

  /** One more frame extends the run over the frames before it. */
  lemma FramesSnoc<B>(s: Sink<B>, frames: seq<Frame<B>>, i: nat)
    requires i < |frames|
    ensures var before := Run(s, FrameEvents(frames[..i]));
            var r := Run(before.sink, FrameEvent(frames[i]));
            && Run(s, FrameEvents(frames[..i + 1])).sink == r.sink
            && Run(s, FrameEvents(frames[..i + 1])).out == before.out + r.out
  {
    hide Run, FrameEvent;
    assert frames[..i + 1][..i] == frames[..i];
    RunConcat(s, FrameEvents(frames[..i]), FrameEvent(frames[i]));
  }

  /** Every frame with a decoded payload counts, once and in its place; no other does. */
  lemma OneMoreFrame<B>(frames: seq<Frame<B>>, walEnd: Lsn, e: Event<B>)
    ensures FrameEvents<B>([]) == []
    ensures FrameEvents(frames + [XLogData(walEnd, Some(e))]) == FrameEvents(frames) + [e]
    ensures FrameEvents(frames + [XLogData(walEnd, None)]) == FrameEvents(frames)
    ensures FrameEvents(frames + [Keepalive(walEnd)]) == FrameEvents(frames)
  {
    var more := frames + [XLogData(walEnd, Some(e))];
    assert more[..|frames|] == frames;
    var rejected := frames + [XLogData(walEnd, None)];
    assert rejected[..|frames|] == frames;
    var alive := frames + [Keepalive(walEnd)];
    assert alive[..|frames|] == frames;
  }

  /** Each connection adds what a sink with empty buffers makes of its own frames. */
  lemma OneMoreConnection<B>(queue: seq<Message<B>>, conns: seq<seq<Frame<B>>>, frames: seq<Frame<B>>)
    ensures QueuedAfter(queue, []) == queue
    ensures QueuedAfter(queue, conns + [frames])
         == QueuedAfter(queue, conns) + Run(FreshSink<B>(), FrameEvents(frames)).out
  {
    hide Run;
    assert (conns + [frames])[..|conns|] == conns;
  }

  /** The channel after the first i + 1 connections. */
  lemma FirstConnections<B>(queue: seq<Message<B>>, conns: seq<seq<Frame<B>>>, i: nat)
    requires i < |conns|
    ensures QueuedAfter(queue, conns[..i + 1]) == QueuedAfter(queue, conns[..i]) + ConnectionOut(conns[i])
    ensures QueuedAfter(queue, conns[..0]) == queue
  {
    hide ConnectionOut;
    assert conns[..i + 1][..i] == conns[..i];
  }

  lemma NoFrames<B>(s: Sink<B>, frames: seq<Frame<B>>)
    ensures Run(s, FrameEvents(frames[..0])) == Outcome(s, [])
  {
  }

  class Stream<B(==)> {
    var lastXLogPos: Lsn
    var confirmedXLogPos: Lsn
    var deliveredHighWaterMark: Lsn
    var replayFloor: Lsn
    var openFromSnapshotLsn: bool
    var txCommit: CommitContext
    var replayedMessages: nat
    var delivered: seq<Message<B>>   // what listenerFunc was called with
    const messageCh: Channel<B>

    constructor ()
      ensures lastXLogPos == 0 && !openFromSnapshotLsn && txCommit == NO_COMMIT
      ensures ProgressNow() == Progress(0, 0, 0, 0, [])
      ensures messageCh.queue == [] && fresh(messageCh)
    {
      lastXLogPos, confirmedXLogPos, deliveredHighWaterMark, replayFloor := 0, 0, 0, 0;
      openFromSnapshotLsn, txCommit, replayedMessages, delivered := false, NO_COMMIT, 0, [];
      messageCh := new Channel();
    }

    ghost function ProgressNow(): Progress<B>
      reads this
    {
      Progress(confirmedXLogPos, deliveredHighWaterMark, replayFloor, replayedMessages, delivered)
    }

    ghost function SinkState(buf: MessageBuffer<B>, streamBuf: StreamTxBuffer<B>): Sink<B>
      reads this, buf, streamBuf
    {
      Sink(txCommit, buf.pending, streamBuf.txns, streamBuf.activeXid, streamBuf.streaming)
    }

    method UpdateXLogPos(l: Lsn)
      modifies this`lastXLogPos
      ensures lastXLogPos == Max(old(lastXLogPos), l)
    {
      if lastXLogPos < l {
        lastXLogPos := l;
      }
    }

    /** Ack and AckLSN: only the position in memory moves. */
    method UpdateConfirmedXLogPos(l: Lsn)
      modifies this`confirmedXLogPos
      ensures confirmedXLogPos == Max(old(confirmedXLogPos), l)
    {
      if confirmedXLogPos < l {
        confirmedXLogPos := l;
      }
    }

    method UpdateDeliveredHighWaterMark(l: Lsn)
      modifies this`deliveredHighWaterMark
      ensures deliveredHighWaterMark == Max(old(deliveredHighWaterMark), l)
    {
      if deliveredHighWaterMark < l {
        deliveredHighWaterMark := l;
      }
    }

    method MarkReplayFloor()
      modifies this`replayFloor
      ensures replayFloor == Max(old(replayFloor), deliveredHighWaterMark)
    {
      if replayFloor < deliveredHighWaterMark {
        replayFloor := deliveredHighWaterMark;
      }
    }

    method DispatchMessage(e: Event<B>, buf: MessageBuffer<B>, streamBuf: StreamTxBuffer<B>)
      requires buf.outCh == messageCh
      requires e.Row? ==> e.change == StampedChange(SinkState(buf, streamBuf), e)
      modifies this`txCommit, buf, streamBuf, messageCh
      ensures var r := Step(old(SinkState(buf, streamBuf)), e);
              SinkState(buf, streamBuf) == r.sink && messageCh.queue == old(messageCh.queue) + r.out
    {
      match e
      case Begin(lsn, time, xid) =>
        txCommit := CommitContext(time, lsn, xid);
        buf.Discard();
      case Commit(_, endLsn, _) =>
        buf.FlushWithLsn(endLsn);
      case StreamStart(xid) =>
        streamBuf.StartTx(xid);
      case StreamStop =>
        streamBuf.StopTx();
      case StreamCommit(xid, commitLsn, endLsn, time) =>
        streamBuf.FlushTx(xid, messageCh, endLsn, commitLsn, time);
      case StreamAbort(xid, _) =>
        streamBuf.DiscardTx(xid);
      case Row(walStart, change) =>
        var m := Message(change, walStart);
        if streamBuf.streaming {
          streamBuf.Append(m);
        } else {
          buf.Buffer(m);
        }
    }

    /** A decoded XLogData payload: positions first, then the row's own LSN and,
        outside a streamed chunk, the open transaction's commit context. */
    method HandleXLogData(walEnd: Lsn, event: Option<Event<B>>, buf: MessageBuffer<B>, streamBuf: StreamTxBuffer<B>)
      requires buf.outCh == messageCh
      modifies this`lastXLogPos, this`txCommit, buf, streamBuf, messageCh
      ensures lastXLogPos == Max(old(lastXLogPos), walEnd)
      ensures event.None? ==>
                SinkState(buf, streamBuf) == old(SinkState(buf, streamBuf)) && messageCh.queue == old(messageCh.queue)
      ensures event.Some? ==>
              var r := Step(old(SinkState(buf, streamBuf)), event.value);
              SinkState(buf, streamBuf) == r.sink && messageCh.queue == old(messageCh.queue) + r.out
    {
      UpdateXLogPos(walEnd);
      if event.Some? {
        var e := event.value;
        if e.Row? {
          var change := StampLsn(e.change, e.walStart);
          if !streamBuf.streaming {
            change := StampCommit(change, txCommit);
          }
          e := Row(e.walStart, change);
        }
        DispatchMessage(e, buf, streamBuf);
      }
    }

    method HandleFrame(f: Frame<B>, buf: MessageBuffer<B>, streamBuf: StreamTxBuffer<B>)
      requires buf.outCh == messageCh
      modifies this`lastXLogPos, this`txCommit, buf, streamBuf, messageCh
      ensures SinkState(buf, streamBuf) == Run(old(SinkState(buf, streamBuf)), FrameEvent(f)).sink
      ensures messageCh.queue == old(messageCh.queue) + Run(old(SinkState(buf, streamBuf)), FrameEvent(f)).out
      ensures lastXLogPos == Max(old(lastXLogPos), if f.XLogData? then f.walEnd else f.serverWalEnd)
      ensures f.XLogData? && f.event.Some? ==>
                var r := Step(old(SinkState(buf, streamBuf)), f.event.value);
                SinkState(buf, streamBuf) == r.sink && messageCh.queue == old(messageCh.queue) + r.out
      ensures !(f.XLogData? && f.event.Some?) ==>
                SinkState(buf, streamBuf) == old(SinkState(buf, streamBuf)) && messageCh.queue == old(messageCh.queue)
    {
      match f
      case XLogData(walEnd, event) =>
        if event.Some? {
          RunSnoc(SinkState(buf, streamBuf), [], event.value);
          assert [event.value] == [] + [event.value];
        }
        HandleXLogData(walEnd, event, buf, streamBuf);
      case Keepalive(walEnd) =>
        UpdateXLogPos(walEnd);
    }

    method SinkLoop(frames: seq<Frame<B>>, buf: MessageBuffer<B>, streamBuf: StreamTxBuffer<B>)
      requires buf.outCh == messageCh
      modifies this`lastXLogPos, this`txCommit, buf, streamBuf, messageCh
      ensures SinkState(buf, streamBuf) == Run(old(SinkState(buf, streamBuf)), FrameEvents(frames)).sink
      ensures messageCh.queue == old(messageCh.queue) + Run(old(SinkState(buf, streamBuf)), FrameEvents(frames)).out
    {
      hide Run, Step, FrameEvents, FrameEvent;
      ghost var s0, q0 := SinkState(buf, streamBuf), messageCh.queue;
      NoFrames(s0, frames);
      for i := 0 to |frames|
        invariant SinkState(buf, streamBuf) == Run(s0, FrameEvents(frames[..i])).sink
        invariant messageCh.queue == q0 + Run(s0, FrameEvents(frames[..i])).out
      {
        FramesSnoc(s0, frames, i);
        HandleFrame(frames[i], buf, streamBuf);
      }
      assert frames[..|frames|] == frames;
    }

    /** One connection's sink loop, from the fresh buffers sink() gives it. */
    method Attempt(frames: seq<Frame<B>>)
      requires txCommit == NO_COMMIT
      modifies this`lastXLogPos, this`txCommit, messageCh
      ensures messageCh.queue == old(messageCh.queue) + ConnectionOut(frames)
    {
      var buf := new MessageBuffer(messageCh);
      var streamBuf := new StreamTxBuffer();
      SinkLoop(frames, buf, streamBuf);
    }

    method ResetForReconnect()
      modifies this`txCommit, this`openFromSnapshotLsn, this`lastXLogPos
      ensures txCommit == NO_COMMIT && !openFromSnapshotLsn && lastXLogPos == 0
    {
      txCommit := NO_COMMIT;
      openFromSnapshotLsn := false;
      lastXLogPos := 0;
    }

    /** The position START_REPLICATION asks for. */
    method Setup(snapshotLsn: Lsn) returns (start: Lsn)
      ensures start == if openFromSnapshotLsn then snapshotLsn else lastXLogPos
    {
      start := lastXLogPos;
      if openFromSnapshotLsn {
        start := snapshotLsn;
      }
    }

    method Reconnect(snapshotLsn: Lsn) returns (start: Lsn)
      modifies this`txCommit, this`openFromSnapshotLsn, this`lastXLogPos, this`replayFloor
      ensures txCommit == NO_COMMIT && !openFromSnapshotLsn && lastXLogPos == 0
      ensures replayFloor == Max(old(replayFloor), deliveredHighWaterMark)
      ensures start == 0
    {
      ResetForReconnect();
      start := Setup(snapshotLsn);
      MarkReplayFloor();
    }

    method NextConnection(frames: seq<Frame<B>>, snapshotLsn: Lsn) returns (start: Lsn)
      modifies this`txCommit, this`openFromSnapshotLsn, this`lastXLogPos, this`replayFloor, messageCh
      ensures start == 0
      ensures messageCh.queue == old(messageCh.queue) + ConnectionOut(frames)
    {
      start := Reconnect(snapshotLsn);
      Attempt(frames);
    }

    /** Open, then one sink loop per connection with a reconnect before each of the
        later ones: every connection starts from empty buffers and no commit context,
        and every reconnect asks the server to resume from its own position. */
    method SinkOver(conns: seq<seq<Frame<B>>>, snapshotLsn: Lsn) returns (starts: seq<Lsn>)
      requires txCommit == NO_COMMIT && conns != []
      modifies this`lastXLogPos, this`txCommit, this`openFromSnapshotLsn, this`replayFloor, messageCh
      ensures messageCh.queue == QueuedAfter(old(messageCh.queue), conns)
      ensures |starts| == |conns|
      ensures starts[0] == if old(openFromSnapshotLsn) then snapshotLsn else old(lastXLogPos)
      ensures forall k | 1 <= k < |starts| :: starts[k] == 0
    {
      hide ConnectionOut, QueuedAfter;
      var first := Setup(snapshotLsn);
      starts := [first];
      ghost var q0 := messageCh.queue;
      FirstConnections(q0, conns, 0);
      Attempt(conns[0]);
      for i := 1 to |conns|
        invariant |starts| == i && starts[0] == first
        invariant forall k | 1 <= k < i :: starts[k] == 0
        invariant messageCh.queue == QueuedAfter(q0, conns[..i])
      {
        FirstConnections(q0, conns, i);
        var start := NextConnection(conns[i], snapshotLsn);
        starts := starts + [start];
      }
      assert conns[..|conns|] == conns;
    }

    method IsHeartbeatMessage<N(==)>(m: Message<B>, hb: Heartbeat<B, N>) returns (r: bool)
      ensures r == hb.Is(m)
    {
      if !hb.enabled {
        return false;
      }
      match m.change
      case Dml(body, _, _, _) =>
        var (schema, table) := hb.tableOf(body);
        r := schema == hb.schema && table == hb.table;
      case NonDml(_, _) =>
        r := false;
    }

    /** The process loop over everything queued. */
    method Process<N(==)>(hb: Heartbeat<B, N>)
      modifies this`confirmedXLogPos, this`deliveredHighWaterMark, this`replayedMessages, this`delivered, messageCh
      ensures messageCh.queue == []
      ensures ProgressNow() == ConsumeAll(old(ProgressNow()), old(messageCh.queue), hb)
      ensures delivered == old(delivered) + Others(old(messageCh.queue), hb)
      ensures Highest(confirmedXLogPos, old(confirmedXLogPos), Heartbeats(old(messageCh.queue), hb))
      ensures Highest(deliveredHighWaterMark, old(deliveredHighWaterMark), Others(old(messageCh.queue), hb))
      ensures replayedMessages == old(replayedMessages) + AtOrBelow(Others(old(messageCh.queue), hb), replayFloor)
    {
      ConsumedAre(ProgressNow(), messageCh.queue, hb);
      while messageCh.queue != []
        invariant ConsumeAll(ProgressNow(), messageCh.queue, hb)
               == ConsumeAll(old(ProgressNow()), old(messageCh.queue), hb)
        decreases |messageCh.queue|
      {
        ghost var p, q := ProgressNow(), messageCh.queue;
        var msg := messageCh.Receive();
        assert q[0] == msg && q[1..] == messageCh.queue;
        var isHeartbeat := IsHeartbeatMessage(msg, hb);
        if isHeartbeat {
          UpdateConfirmedXLogPos(msg.walStart);
        } else {
          if msg.walStart <= replayFloor {
            replayedMessages := replayedMessages + 1;
          }
          UpdateDeliveredHighWaterMark(msg.walStart);
          delivered := delivered + [msg];
        }
        assert ProgressNow() == Consume(p, msg, isHeartbeat);
      }
    }
  }
}
