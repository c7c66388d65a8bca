/** Whole runs: a PostgreSQL server with its slot, the connection, the sink, the
    channel, the process goroutine, a consumer that acknowledges late or never,
    status updates under way, disconnects, reconnects and restarts. */
module ReplicationRuns {
  import opened Basics
  import opened StreamEngine
  import opened StreamOutput
  import opened Stream

  /** A row's identity: its transaction's place in commit order and its own. */
  type RowId = (nat, nat)

  datatype Tx = Tx(h: Header, rows: seq<WireRow<RowId>>)

  /** What is fixed for a run: the transactions in commit order, the position the
      first connection starts from, and the rows of the heartbeat table. */
  datatype World = World(log: seq<Tx>, base: Lsn, heartbeat: set<RowId>)

  /** change LSN < commit LSN < transaction-end LSN <= next commit LSN. */
  ghost predicate WalFacts(w: World) {
    && (forall j | 0 <= j < |w.log| :: w.log[j].h.commitLsn < w.log[j].h.endLsn)
    && (forall j, r | 0 <= j < |w.log| && 0 <= r < |w.log[j].rows| ::
          w.log[j].rows[r].walStart < w.log[j].h.commitLsn && w.log[j].rows[r].body == (j, r))
    && (forall i, j | 0 <= i < j < |w.log| :: w.log[i].h.endLsn <= w.log[j].h.commitLsn)
  }

  datatype State = State(
    flushed: Lsn,                      // the slot's confirmed_flush_lsn
    inflight: set<Lsn>,                // flush positions of status updates sent
    start: nat,                        // first transaction this connection resends
    sent: seq<Item<RowId>>,            // what it has sent completely
    open: Option<Item<RowId>>, at: nat, // what it is sending, and how much of it
    received: Lsn,                     // lastXLogPos
    fromSnapshot: bool,                // openFromSnapshotLSN
    sink: Sink<RowId>,
    queue: seq<Message<RowId>>,        // messageCH
    progress: Progress<RowId>,
    handed: set<RowId>,                // ever given to a listener, by any process
    marked: set<RowId>,                // given by this process before its last reconnect
    redelivered: nat)                  // of those, how many were given again since

  datatype Action =
    | Receive(item: Item<RowId>, walEnd: Lsn)
    | Deliver
    | Ack(lsn: Lsn)
    | Keepalive(serverWalEnd: Lsn)
    | SendStatus
    | ApplyStatus(lsn: Lsn, backwards: bool)
    | ServerRestart(durable: Lsn)
    | Reconnect
    | ProcessRestart

  // ---- the server ----

  /** The first transaction at or after j whose commit LSN is not below p. */
  function FirstNotBelow(log: seq<Tx>, p: Lsn, j: nat): (k: nat)
    requires j <= |log|
    ensures j <= k <= |log|
    ensures forall i | j <= i < k :: log[i].h.commitLsn < p
    ensures k < |log| ==> p <= log[k].h.commitLsn
    decreases |log| - j
  {
    if j == |log| || p <= log[j].h.commitLsn then j else FirstNotBelow(log, p, j + 1)
  }

  /** START_REPLICATION: never before the slot's own position. */
  function StartIndex(w: World, requested: Lsn, flushed: Lsn): nat {
    FirstNotBelow(w.log, Max(requested, flushed), 0)
  }

  function Commits(items: seq<Item<RowId>>): nat {
    if items == [] then 0
    else
      var i := items[|items| - 1];
      Commits(items[..|items| - 1]) + (if i.Block? || i.StreamedCommit? then 1 else 0)
  }

  ghost predicate SameRows(a: seq<WireRow<RowId>>, b: seq<WireRow<RowId>>) {
    |a| == |b| && forall k | 0 <= k < |a| ::
      a[k].dml == b[k].dml && a[k].body == b[k].body && a[k].walStart == b[k].walStart
  }

  /** The rows a commit item releases. */
  function ReleasedRows(sent: seq<Item<RowId>>, i: Item<RowId>): seq<WireRow<RowId>> {
    if i.Block? then i.rows else if i.StreamedCommit? then OutstandingOf(sent, i.header.xid).recent else []
  }

  function CommitHeader(i: Item<RowId>): Header
    requires i.Block? || i.StreamedCommit?
  {
    if i.Block? then i.h else i.header
  }

  /** Commits come in log order, each transaction plain or streamed; chunks and
      aborts of unfinished transactions come at any time. */
  ghost predicate CanSend(w: World, start: nat, sent: seq<Item<RowId>>, i: Item<RowId>) {
    i.Block? || i.StreamedCommit? ==>
      var n := start + Commits(sent);
      && n < |w.log|
      && CommitHeader(i) == w.log[n].h
      && SameRows(ReleasedRows(sent, i), w.log[n].rows)
      && (i.StreamedCommit? ==> OutstandingOf(sent, i.header.xid).survived == [])
  }

  // ---- steps ----

  ghost predicate Enabled(w: World, s: State, a: Action) {
    match a
    case Receive(i, _) => if s.open.Some? then s.open == Some(i) else CanSend(w, s.start, s.sent, i)
    case Deliver => s.queue != []
    case Ack(lsn) => exists k :: 0 <= k < |s.progress.delivered| && lsn <= s.progress.delivered[k].walStart
    case ApplyStatus(lsn, _) => lsn in s.inflight && lsn != 0
    case ServerRestart(durable) => durable <= s.flushed
    case _ => true
  }

  /** A new connection after resetForReconnect; `requested` is what setup asks for. */
  function Connect(w: World, s: State): State {
    var reset := s.(received := 0, fromSnapshot := false, sink := FreshSink(), sent := [], open := None, at := 0);
    var requested := if reset.fromSnapshot then w.base else reset.received;
    reset.(start := StartIndex(w, requested, s.flushed))
  }

  function BodiesOf(q: seq<Message<RowId>>): set<RowId> { set m | m in q :: m.change.body }

  /** The sink takes one more event of item i. */
  function ReceiveNext(s: State, i: Item<RowId>, walEnd: Lsn): State {
    if s.at >= |ItemEvents(i)| then s
    else
      var r := Step(s.sink, ItemEvents(i)[s.at]);
      var s1 := s.(sink := r.sink, queue := s.queue + r.out, received := Max(s.received, walEnd));
      if s.at + 1 == |ItemEvents(i)| then s1.(sent := s.sent + [i], open := None, at := 0)
      else s1.(open := Some(i), at := s.at + 1)
  }

  /** The process goroutine takes the head of the channel. */
  function DeliverNext(w: World, s: State): State {
    if s.queue == [] then s
    else
      var m := s.queue[0];
      var s1 := s.(queue := s.queue[1..],
        progress := Consume(s.progress, m, m.change.Dml? && m.change.body in w.heartbeat));
      if m.change.Dml? && m.change.body in w.heartbeat then s1
      else s1.(handed := s.handed + {m.change.body},
               redelivered := s.redelivered + (if m.change.body in s.marked then 1 else 0))
  }

  function Next(w: World, s: State, a: Action): State {
    match a
    case Receive(i, walEnd) => ReceiveNext(s, i, walEnd)
    case Deliver => DeliverNext(w, s)
    case Ack(lsn) => s.(progress := s.progress.(confirmed := Max(s.progress.confirmed, lsn)))
    case Keepalive(walEnd) => s.(received := Max(s.received, walEnd))
    case SendStatus => s.(inflight := s.inflight + {s.progress.confirmed})
    case ApplyStatus(lsn, backwards) => s.(flushed := if backwards then lsn else Max(s.flushed, lsn))
    case ServerRestart(durable) => s.(flushed := durable)
    case Reconnect =>
      Connect(w, s).(progress := s.progress.(floor := Max(s.progress.floor, s.progress.highWater)),
                     marked := BodiesOf(s.progress.delivered))
    case ProcessRestart =>
      Connect(w, s).(progress := Progress(0, 0, 0, 0, []), queue := [], marked := {}, redelivered := 0)
  }

  /** The first Open, from the snapshot LSN or from a slot position equal to base. */
  ghost predicate Init(w: World, s: State) {
    && s.flushed <= w.base
    && (s.fromSnapshot || s.flushed == w.base)
    && s.received == 0
    && s.start == StartIndex(w, if s.fromSnapshot then w.base else s.received, s.flushed)
    && s.inflight == {} && s.sent == [] && s.open == None && s.at == 0
    && s.sink == FreshSink() && s.queue == [] && s.progress == Progress(0, 0, 0, 0, [])
    && s.handed == {} && s.marked == {} && s.redelivered == 0
  }

  ghost predicate StepTo(w: World, s: State, t: State) {
    exists a :: Enabled(w, s, a) && t == Next(w, s, a)
  }

  ghost predicate Behaviour(w: World, trace: seq<State>) {
    && trace != [] && Init(w, trace[0])
    && forall i | 0 <= i < |trace| - 1 :: StepTo(w, trace[i], trace[i + 1])
  }

  // ---- what every step keeps ----

  /** Row r of transaction n has been seen, or is a heartbeat row owed to nobody. */
  ghost predicate Seen(w: World, n: nat, r: nat, seen: set<RowId>) {
    (n, r) in w.heartbeat || (n, r) in seen
  }

  ghost predicate RowsSeen(w: World, n: nat, count: nat, seen: set<RowId>) {
    forall r | 0 <= r < count :: Seen(w, n, r, seen)
  }

  ghost predicate Settled(w: World, j: nat, seen: set<RowId>)
    requires j < |w.log|
  {
    RowsSeen(w, j, |w.log[j].rows|, seen)
  }

  /** Every transaction before the n-th that this run owes has been seen. */
  ghost predicate SettledBelow(w: World, n: nat, seen: set<RowId>) {
    n <= |w.log| && forall j | 0 <= j < n && w.base <= w.log[j].h.commitLsn :: Settled(w, j, seen)
  }

  /** Confirming p skips nothing, given that the rows in seen were handed over. */
  ghost predicate Covered(w: World, p: Lsn, seen: set<RowId>) {
    forall j | 0 <= j < |w.log| && w.base <= w.log[j].h.commitLsn < p :: Settled(w, j, seen)
  }

  /** Where a row is delivered: the last row of its transaction at its end. */
  function Position(w: World, id: RowId): Lsn
    requires id.0 < |w.log| && id.1 < |w.log[id.0].rows|
  {
    if id.1 == |w.log[id.0].rows| - 1 then w.log[id.0].h.endLsn else w.log[id.0].rows[id.1].walStart
  }

  ghost predicate Placed(w: World, m: Message<RowId>) {
    && m.change.body.0 < |w.log| && m.change.body.1 < |w.log[m.change.body.0].rows|
    && m.walStart == Position(w, m.change.body)
  }

  ghost predicate AllPlaced(w: World, ms: seq<Message<RowId>>) {
    forall m | m in ms :: Placed(w, m)
  }

  /** ms are the first rows of transaction n, in order, each in its place. */
  ghost predicate RowsOf(w: World, n: nat, ms: seq<Message<RowId>>) {
    && (ms != [] ==> n < |w.log| && |ms| <= |w.log[n].rows|)
    && forall r | 0 <= r < |ms| :: ms[r].change.body == (n, r) && Placed(w, ms[r])
  }

  /** A queued position is covered once the queue up to it has been handed over. */
  ghost predicate QueueCovered(w: World, queue: seq<Message<RowId>>, handed: set<RowId>) {
    forall k | 0 <= k < |queue| :: Covered(w, queue[k].walStart, handed + BodiesOf(queue[..k + 1]))
  }

  /** The events received so far on this connection. */
  function Wire(sent: seq<Item<RowId>>, open: Option<Item<RowId>>, at: nat): seq<Event<RowId>> {
    Events(sent) + (if open.Some? && at <= |ItemEvents(open.value)| then ItemEvents(open.value)[..at] else [])
  }

  /** What the connection is sending can be sent, and all it released is seen. */
  ghost predicate Releasing(w: World, start: nat, sent: seq<Item<RowId>>, open: Option<Item<RowId>>, at: nat,
          seen: set<RowId>) {
    && SettledBelow(w, start + Commits(sent), seen)
    && (if open.None? then at == 0
        else at < |ItemEvents(open.value)| && CanSend(w, start, sent, open.value)
             && RowsSeen(w, start + Commits(sent), |PartialOut(sent, open.value, at)|, seen))
  }

  ghost predicate ConnectionInv(w: World, s: State) {
    && s.sink == Run(FreshSink<RowId>(), Wire(s.sent, s.open, s.at)).sink
    && Releasing(w, s.start, s.sent, s.open, s.at, s.handed + BodiesOf(s.queue))
  }

  /** Every position the server may be told, or that can still be acknowledged. */
  ghost predicate PositionsInv(w: World, flushed: Lsn, inflight: set<Lsn>, p: Progress<RowId>, handed: set<RowId>) {
    && Covered(w, flushed, handed)
    && Covered(w, p.confirmed, handed)
    && (forall l | l in inflight :: Covered(w, l, handed))
    && (forall m | m in p.delivered :: Covered(w, m.walStart, handed))
  }

  ghost predicate BelowMark(w: World, p: Progress<RowId>) {
    AllPlaced(w, p.delivered) && forall m | m in p.delivered :: m.walStart <= p.highWater
  }

  ghost predicate MarkedBelow(w: World, marked: set<RowId>, floor: Lsn) {
    forall id | id in marked :: id.0 < |w.log| && id.1 < |w.log[id.0].rows| && Position(w, id) <= floor
  }

  ghost predicate ReplayInv(w: World, p: Progress<RowId>, marked: set<RowId>, redelivered: nat) {
    && p.floor <= p.highWater
    && BelowMark(w, p)
    && MarkedBelow(w, marked, p.floor)
    && redelivered <= p.replayed
  }

  ghost predicate Inv(w: World, s: State) {
    && ConnectionInv(w, s)
    && PositionsInv(w, s.flushed, s.inflight, s.progress, s.handed)
    && QueueCovered(w, s.queue, s.handed)
    && AllPlaced(w, s.queue)
    && ReplayInv(w, s.progress, s.marked, s.redelivered)
  }

  lemma InitInv(w: World, s: State)
    requires WalFacts(w) && Init(w, s)
    ensures Inv(w, s)
  {
    assert Wire(s.sent, s.open, s.at) == [];
  }

  // ---- seeing more ----

  ghost predicate Extends(w: World, a: set<RowId>, b: set<RowId>) {
    forall id | id in a && id !in w.heartbeat :: id in b
  }

  lemma SeenMore(w: World, n: nat, count: nat, a: set<RowId>, b: set<RowId>)
    requires Extends(w, a, b) && RowsSeen(w, n, count, a)
    ensures RowsSeen(w, n, count, b)
  {
    forall r | 0 <= r < count ensures Seen(w, n, r, b) {
      assert Seen(w, n, r, a);
    }
  }

  lemma CoveredMore(w: World, p: Lsn, q: Lsn, a: set<RowId>, b: set<RowId>)
    requires Extends(w, a, b) && Covered(w, p, a) && q <= p
    ensures Covered(w, q, b)
  {
    hide RowsSeen, Extends;
    forall j | 0 <= j < |w.log| && w.base <= w.log[j].h.commitLsn < q ensures Settled(w, j, b) {
      assert Settled(w, j, a);
      SeenMore(w, j, |w.log[j].rows|, a, b);
    }
  }

  lemma SettledMore(w: World, n: nat, a: set<RowId>, b: set<RowId>)
    requires Extends(w, a, b) && SettledBelow(w, n, a)
    ensures SettledBelow(w, n, b)
  {
    hide RowsSeen, Extends;
    forall j | 0 <= j < n && w.base <= w.log[j].h.commitLsn ensures Settled(w, j, b) {
      assert Settled(w, j, a);
      SeenMore(w, j, |w.log[j].rows|, a, b);
    }
  }

  lemma ReleasingMore(w: World, start: nat, sent: seq<Item<RowId>>, open: Option<Item<RowId>>, at: nat, a: set<RowId>,
          b: set<RowId>)
    requires Releasing(w, start, sent, open, at, a) && Extends(w, a, b)
    ensures Releasing(w, start, sent, open, at, b)
  {
    hide SettledBelow, Extends, RowsSeen, PartialOut, ItemEvents, CanSend, Commits;
    SettledMore(w, start + Commits(sent), a, b);
    if open.Some? {
      SeenMore(w, start + Commits(sent), |PartialOut(sent, open.value, at)|, a, b);
    }
  }

  lemma PositionsMore(w: World, s: State, b: set<RowId>)
    requires PositionsInv(w, s.flushed, s.inflight, s.progress, s.handed) && Extends(w, s.handed, b)
    ensures PositionsInv(w, s.flushed, s.inflight, s.progress, b)
  {
    hide Covered, Extends;
    CoveredMore(w, s.flushed, s.flushed, s.handed, b);
    CoveredMore(w, s.progress.confirmed, s.progress.confirmed, s.handed, b);
    forall l | l in s.inflight ensures Covered(w, l, b) { CoveredMore(w, l, l, s.handed, b); }
    forall m | m in s.progress.delivered ensures Covered(w, m.walStart, b) {
      CoveredMore(w, m.walStart, m.walStart, s.handed, b);
    }
  }

  lemma BodiesMore(q: seq<Message<RowId>>, more: seq<Message<RowId>>)
    ensures BodiesOf(q + more) == BodiesOf(q) + BodiesOf(more)
  {
    assert forall m :: m in q + more <==> m in q || m in more;
  }

  // ---- Receive ----

  lemma Cancel<T>(a: seq<T>, b: seq<T>, c: seq<T>, d: seq<T>)
    requires a + b == (a + c) + d
    ensures b == c + d
  {
    assert (a + b)[|a|..] == b;
    assert ((a + c) + d)[|a|..] == c + d;
  }

  /** One event adds to the channel exactly the next stretch of its item's output. */
  lemma EventOut(sent: seq<Item<RowId>>, i: Item<RowId>, k: nat)
    requires k < |ItemEvents(i)|
    ensures var sink := Run(FreshSink<RowId>(), Events(sent) + ItemEvents(i)[..k]).sink;
            var r := Step(sink, ItemEvents(i)[k]);
            && PartialOut(sent, i, k + 1) == PartialOut(sent, i, k) + r.out
            && Run(FreshSink<RowId>(), Events(sent) + ItemEvents(i)[..k + 1]).sink == r.sink
  {
    hide Step, PartialOut, OutstandingOf, Kept, ItemEvents, Run;
    var before := Events(sent) + ItemEvents(i)[..k];
    var e := ItemEvents(i)[k];
    assert Events(sent) + ItemEvents(i)[..k + 1] == before + [e];
    RunSnoc(FreshSink<RowId>(), before, e);
    OutputAtEveryPrefix(sent, i, k);
    OutputAtEveryPrefix(sent, i, k + 1);
    Cancel(Kept(sent), PartialOut(sent, i, k + 1), PartialOut(sent, i, k),
        Step(Run(FreshSink<RowId>(), before).sink, e).out);
  }

  lemma PartialRows(sent: seq<Item<RowId>>, i: Item<RowId>, k: nat)
    requires k <= |ItemEvents(i)|
    ensures var out, rows := PartialOut(sent, i, k), ReleasedRows(sent, i);
            && |out| <= |rows|
            && (k == |ItemEvents(i)| ==> |out| == |rows|)
            && (rows != [] ==> i.Block? || i.StreamedCommit?)
            && forall r | 0 <= r < |out| :: out[r] == DeliveredRow(CommitHeader(i), rows, r)
  {
    hide OutstandingOf, DeliveredRow, Delivered, ItemEvents;
  }

  lemma SameLength(a: seq<WireRow<RowId>>, b: seq<WireRow<RowId>>)
    requires SameRows(a, b)
    ensures |a| == |b|
  {
  }

  lemma DeliveredRowPlaced(w: World, n: nat, rows: seq<WireRow<RowId>>, r: nat)
    requires WalFacts(w) && n < |w.log| && SameRows(rows, w.log[n].rows) && r < |rows|
    ensures var m := DeliveredRow(w.log[n].h, rows, r); m.change.body == (n, r) && Placed(w, m)
  {
  }

  /** An item's output so far is its transaction's rows, each at its position. */
  lemma OutRows(w: World, start: nat, sent: seq<Item<RowId>>, i: Item<RowId>, k: nat)
    requires WalFacts(w) && CanSend(w, start, sent, i) && k <= |ItemEvents(i)|
    ensures RowsOf(w, start + Commits(sent), PartialOut(sent, i, k))
    ensures k == |ItemEvents(i)| && (i.Block? || i.StreamedCommit?) ==>
            start + Commits(sent) < |w.log| && |PartialOut(sent, i, k)| == |w.log[start + Commits(sent)].rows|
  {
    hide PartialOut, ReleasedRows, DeliveredRow, Placed, ItemEvents, WalFacts, Commits, OutstandingOf, SameRows;
    PartialRows(sent, i, k);
    var n := start + Commits(sent);
    var out := PartialOut(sent, i, k);
    if i.Block? || i.StreamedCommit? { SameLength(ReleasedRows(sent, i), w.log[n].rows); }
    forall r | 0 <= r < |out|
      ensures out[r].change.body == (n, r) && Placed(w, out[r])
    {
      DeliveredRowPlaced(w, n, ReleasedRows(sent, i), r);
    }
  }

  /** A row may be confirmed once it, the rows before it and everything before its
      transaction have been seen. */
  lemma ReleasedIsCovered(w: World, n: nat, r: nat, seen: set<RowId>)
    requires WalFacts(w) && n < |w.log| && r < |w.log[n].rows|
    requires SettledBelow(w, n, seen) && RowsSeen(w, n, r + 1, seen)
    ensures Covered(w, Position(w, (n, r)), seen)
  {
    hide RowsSeen;
    forall j | 0 <= j < |w.log| && w.base <= w.log[j].h.commitLsn < Position(w, (n, r))
      ensures Settled(w, j, seen)
    {
    }
  }

  /** `out` continues transaction n's rows after `before`. */
  lemma RowsQueued(w: World, n: nat, before: seq<Message<RowId>>, out: seq<Message<RowId>>, seen: set<RowId>, more: nat)
    requires RowsOf(w, n, before + out) && RowsSeen(w, n, |before|, seen) && more <= |out|
    ensures RowsSeen(w, n, |before| + more, seen + BodiesOf(out[..more]))
  {
    hide Placed;
    forall r | 0 <= r < |before| + more ensures Seen(w, n, r, seen + BodiesOf(out[..more])) {
      if r < |before| {
        assert Seen(w, n, r, seen);
      } else {
        assert (before + out)[r] == out[r - |before|];
        assert out[r - |before|] in out[..more];
      }
    }
  }

  lemma NewCovered(w: World, n: nat, before: seq<Message<RowId>>, out: seq<Message<RowId>>, seen: set<RowId>, t: nat)
    requires WalFacts(w) && RowsOf(w, n, before + out) && t < |out|
    requires SettledBelow(w, n, seen) && RowsSeen(w, n, |before|, seen)
    ensures Placed(w, out[t]) && Covered(w, out[t].walStart, seen + BodiesOf(out[..t + 1]))
  {
    hide SettledBelow, RowsSeen, Covered, BodiesOf;
    var seen' := seen + BodiesOf(out[..t + 1]);
    assert (before + out)[|before| + t] == out[t];
    RowsQueued(w, n, before, out, seen, t + 1);
    SettledMore(w, n, seen, seen');
    ReleasedIsCovered(w, n, |before| + t, seen');
  }

  lemma QueueExtends(w: World, n: nat, before: seq<Message<RowId>>, out: seq<Message<RowId>>,
                     handed: set<RowId>, queue: seq<Message<RowId>>)
    requires WalFacts(w) && RowsOf(w, n, before + out)
    requires SettledBelow(w, n, handed + BodiesOf(queue)) && RowsSeen(w, n, |before|, handed + BodiesOf(queue))
    requires QueueCovered(w, queue, handed) && AllPlaced(w, queue)
    ensures QueueCovered(w, queue + out, handed) && AllPlaced(w, queue + out)
  {
    hide Placed, Covered, SettledBelow, RowsSeen, RowsOf, WalFacts, BodiesOf;
    forall k | 0 <= k < |queue + out|
      ensures Placed(w, (queue + out)[k])
      ensures Covered(w, (queue + out)[k].walStart, handed + BodiesOf((queue + out)[..k + 1]))
    {
      if k < |queue| {
        assert (queue + out)[..k + 1] == queue[..k + 1];
        assert queue[k] in queue;
      } else {
        var t := k - |queue|;
        NewCovered(w, n, before, out, handed + BodiesOf(queue), t);
        assert (queue + out)[..k + 1] == queue + out[..t + 1];
        BodiesMore(queue, out[..t + 1]);
        assert handed + (BodiesOf(queue) + BodiesOf(out[..t + 1])) == handed + BodiesOf(queue) + BodiesOf(out[..t + 1]);
      }
    }
  }

  /** What Receive changes, in terms of the specification's output. */
  ghost predicate Received(w: World, s: State, i: Item<RowId>, out: seq<Message<RowId>>, t: State) {
    && s.at < |ItemEvents(i)| && CanSend(w, s.start, s.sent, i)
    && PartialOut(s.sent, i, s.at + 1) == PartialOut(s.sent, i, s.at) + out
    && t.sink == Run(FreshSink<RowId>(), Wire(t.sent, t.open, t.at)).sink
    && t == s.(sink := t.sink, queue := s.queue + out, received := t.received, sent := t.sent, open := t.open,
      at := t.at)
    && (if s.at + 1 == |ItemEvents(i)| then t.sent == s.sent + [i] && t.open == None && t.at == 0
        else t.sent == s.sent && t.open == Some(i) && t.at == s.at + 1)
  }

  lemma CanReceive(w: World, s: State, i: Item<RowId>, walEnd: Lsn)
    requires ConnectionInv(w, s) && Enabled(w, s, Receive(i, walEnd))
    ensures s.at < |ItemEvents(i)| && CanSend(w, s.start, s.sent, i)
    ensures Wire(s.sent, s.open, s.at) == Events(s.sent) + ItemEvents(i)[..s.at]
    ensures var n, seen := s.start + Commits(s.sent), s.handed + BodiesOf(s.queue);
            SettledBelow(w, n, seen) && RowsSeen(w, n, |PartialOut(s.sent, i, s.at)|, seen)
  {
    hide Run, SettledBelow, CanSend, BodiesOf, Commits, OutstandingOf;
  }

  lemma WireNext(sent: seq<Item<RowId>>, i: Item<RowId>, at: nat)
    requires at < |ItemEvents(i)|
    ensures Events(sent) + ItemEvents(i)[..at + 1] ==
            if at + 1 == |ItemEvents(i)| then Wire(sent + [i], None, 0) else Wire(sent, Some(i), at + 1)
  {
    hide ItemEvents;
    assert (sent + [i])[..|sent|] == sent;
    assert ItemEvents(i)[..|ItemEvents(i)|] == ItemEvents(i);
  }

  lemma ReceiveShape(w: World, s: State, i: Item<RowId>, walEnd: Lsn) returns (out: seq<Message<RowId>>)
    requires ConnectionInv(w, s) && Enabled(w, s, Receive(i, walEnd))
    ensures Received(w, s, i, out, ReceiveNext(s, i, walEnd))
  {
    hide Step, Run, PartialOut, OutstandingOf, SameRows, ItemEvents, Events, Wire, CanSend, Releasing, Enabled,
         RowsSeen, SettledBelow, Commits, BodiesOf;
    CanReceive(w, s, i, walEnd);
    out := Step(s.sink, ItemEvents(i)[s.at]).out;
    EventOut(s.sent, i, s.at);
    WireNext(s.sent, i, s.at);
  }

  /** Once the item is complete, its transaction (if it commits one) is settled. */
  lemma ItemSettled(w: World, s: State, i: Item<RowId>, seen: set<RowId>)
    requires SettledBelow(w, s.start + Commits(s.sent), seen)
    requires i.Block? || i.StreamedCommit? ==>
             s.start + Commits(s.sent) < |w.log| && Settled(w, s.start + Commits(s.sent), seen)
    ensures Releasing(w, s.start, s.sent + [i], None, 0, seen)
  {
    hide PartialOut, RowsSeen, CanSend;
    assert (s.sent + [i])[..|s.sent|] == s.sent;
  }

  lemma ReceiveReleasing(w: World, s: State, i: Item<RowId>, out: seq<Message<RowId>>, seen: set<RowId>)
    requires WalFacts(w) && CanSend(w, s.start, s.sent, i) && s.at < |ItemEvents(i)|
    requires PartialOut(s.sent, i, s.at + 1) == PartialOut(s.sent, i, s.at) + out
    requires SettledBelow(w, s.start + Commits(s.sent), seen)
    requires RowsSeen(w, s.start + Commits(s.sent), |PartialOut(s.sent, i, s.at)|, seen)
    ensures if s.at + 1 == |ItemEvents(i)| then Releasing(w, s.start, s.sent + [i], None, 0, seen + BodiesOf(out))
            else Releasing(w, s.start, s.sent, Some(i), s.at + 1, seen + BodiesOf(out))
  {
    hide PartialOut, ItemEvents, RowsSeen, RowsOf, CanSend, WalFacts, BodiesOf, SettledBelow, Commits;
    var n := s.start + Commits(s.sent);
    OutRows(w, s.start, s.sent, i, s.at + 1);
    assert out[..|out|] == out;
    RowsQueued(w, n, PartialOut(s.sent, i, s.at), out, seen, |out|);
    assert Extends(w, seen, seen + BodiesOf(out));
    SettledMore(w, n, seen, seen + BodiesOf(out));
    if s.at + 1 == |ItemEvents(i)| {
      ItemSettled(w, s, i, seen + BodiesOf(out));
    }
  }

  lemma ReceiveConnection(w: World, s: State, i: Item<RowId>, walEnd: Lsn, out: seq<Message<RowId>>)
    requires WalFacts(w) && ConnectionInv(w, s) && Enabled(w, s, Receive(i, walEnd))
    requires Received(w, s, i, out, ReceiveNext(s, i, walEnd))
    ensures ConnectionInv(w, ReceiveNext(s, i, walEnd))
  {
    hide ReceiveNext, Releasing, RowsSeen, SettledBelow, WalFacts, Enabled, CanSend, PartialOut, ItemEvents, Run,
         Wire, BodiesOf, Commits, ConnectionInv;
    CanReceive(w, s, i, walEnd);
    ReceiveReleasing(w, s, i, out, s.handed + BodiesOf(s.queue));
    BodiesMore(s.queue, out);
    SeenUnion(s.handed, BodiesOf(s.queue), BodiesOf(out));
    ConnectionAt(w, ReceiveNext(s, i, walEnd));
  }

  lemma SeenUnion(a: set<RowId>, b: set<RowId>, c: set<RowId>)
    ensures a + (b + c) == a + b + c
  {
  }

  lemma ConnectionAt(w: World, t: State)
    requires t.sink == Run(FreshSink<RowId>(), Wire(t.sent, t.open, t.at)).sink
    requires Releasing(w, t.start, t.sent, t.open, t.at, t.handed + BodiesOf(t.queue))
    ensures ConnectionInv(w, t)
  {
  }

  lemma ReceiveQueue(w: World, s: State, i: Item<RowId>, walEnd: Lsn, out: seq<Message<RowId>>)
    requires WalFacts(w) && Inv(w, s) && Enabled(w, s, Receive(i, walEnd))
    requires s.at < |ItemEvents(i)| && PartialOut(s.sent, i, s.at + 1) == PartialOut(s.sent, i, s.at) + out
    ensures QueueCovered(w, s.queue + out, s.handed) && AllPlaced(w, s.queue + out)
  {
    hide RowsSeen, SettledBelow, WalFacts, CanSend, PartialOut, ItemEvents, BodiesOf, Commits, ConnectionInv,
         QueueCovered, AllPlaced, RowsOf, Enabled;
    CanReceive(w, s, i, walEnd);
    OutRows(w, s.start, s.sent, i, s.at + 1);
    QueueExtends(w, s.start + Commits(s.sent), PartialOut(s.sent, i, s.at), out, s.handed, s.queue);
  }

  lemma ReceiveInv(w: World, s: State, i: Item<RowId>, walEnd: Lsn)
    requires WalFacts(w) && Inv(w, s) && Enabled(w, s, Receive(i, walEnd))
    ensures Inv(w, ReceiveNext(s, i, walEnd))
  {
    hide ReceiveNext, ConnectionInv, PositionsInv, QueueCovered, AllPlaced, ReplayInv, WalFacts, Enabled, CanSend,
         PartialOut, ItemEvents, Run, Wire;
    var out := ReceiveShape(w, s, i, walEnd);
    ReceiveConnection(w, s, i, walEnd, out);
    ReceiveQueue(w, s, i, walEnd, out);
  }

  // ---- Deliver ----

  /** Handing over the head of the queue moves its row from queued to handed; a
      heartbeat row is not owed to anyone. */
  lemma DeliverSeen(w: World, s: State, q: seq<Message<RowId>>)
    requires s.queue != []
    ensures Extends(w, s.handed + BodiesOf([s.queue[0]] + q), DeliverNext(w, s).handed + BodiesOf(q))
    ensures Extends(w, s.handed, DeliverNext(w, s).handed)
  {
    hide Consume;
    BodiesMore([s.queue[0]], q);
    var m := s.queue[0];
    assert m in [m];
    assert BodiesOf([m]) == {m.change.body};
  }

  lemma DeliverQueue(w: World, s: State)
    requires QueueCovered(w, s.queue, s.handed) && s.queue != []
    ensures QueueCovered(w, s.queue[1..], DeliverNext(w, s).handed)
    ensures Covered(w, s.queue[0].walStart, DeliverNext(w, s).handed)
  {
    hide Covered, BodiesOf, DeliverNext, Extends;
    var t := DeliverNext(w, s);
    var q := s.queue[1..];
    forall k | 0 <= k < |q| ensures Covered(w, q[k].walStart, t.handed + BodiesOf(q[..k + 1])) {
      assert s.queue[..k + 2] == [s.queue[0]] + q[..k + 1];
      DeliverSeen(w, s, q[..k + 1]);
      CoveredMore(w, q[k].walStart, q[k].walStart, s.handed + BodiesOf(s.queue[..k + 2]),
          t.handed + BodiesOf(q[..k + 1]));
    }
    assert s.queue[..1] == [s.queue[0]] + [];
    DeliverSeen(w, s, []);
    NoBodies();
    assert t.handed + BodiesOf([]) == t.handed;
    CoveredMore(w, s.queue[0].walStart, s.queue[0].walStart, s.handed + BodiesOf(s.queue[..1]),
        t.handed + BodiesOf([]));
  }

  lemma NoBodies()
    ensures BodiesOf([]) == {}
  {
  }

  lemma DeliverReplay(w: World, s: State)
    requires ReplayInv(w, s.progress, s.marked, s.redelivered) && AllPlaced(w, s.queue) && s.queue != []
    ensures var t := DeliverNext(w, s); ReplayInv(w, t.progress, t.marked, t.redelivered)
  {
    hide Placed;
    assert Placed(w, s.queue[0]);
    if s.queue[0].change.body in s.marked {
      PlacedBelow(w, s.queue[0], s.marked, s.progress.floor);
    }
  }

  lemma PlacedBelow(w: World, m: Message<RowId>, marked: set<RowId>, floor: Lsn)
    requires Placed(w, m) && MarkedBelow(w, marked, floor) && m.change.body in marked
    ensures m.walStart <= floor
  {
  }

  lemma DeliverPositions(w: World, s: State)
    requires PositionsInv(w, s.flushed, s.inflight, s.progress, s.handed) && s.queue != []
    requires Covered(w, s.queue[0].walStart, DeliverNext(w, s).handed)
    ensures var t := DeliverNext(w, s); PositionsInv(w, t.flushed, t.inflight, t.progress, t.handed)
  {
    hide Covered, Extends;
    DeliverSeen(w, s, []);
    PositionsMore(w, s, DeliverNext(w, s).handed);
  }

  lemma DeliverConnection(w: World, s: State)
    requires ConnectionInv(w, s) && s.queue != []
    ensures ConnectionInv(w, DeliverNext(w, s))
  {
    hide Run, Wire, Releasing, Consume, Extends, BodiesOf;
    assert s.queue == [s.queue[0]] + s.queue[1..];
    DeliverSeen(w, s, s.queue[1..]);
    ReleasingMore(w, s.start, s.sent, s.open, s.at, s.handed + BodiesOf(s.queue),
        DeliverNext(w, s).handed + BodiesOf(s.queue[1..]));
  }

  lemma DeliverInv(w: World, s: State)
    requires Inv(w, s) && s.queue != []
    ensures Inv(w, DeliverNext(w, s))
  {
    hide ConnectionInv, PositionsInv, QueueCovered, ReplayInv, Covered, Placed, Consume;
    DeliverConnection(w, s);
    DeliverQueue(w, s);
    DeliverPositions(w, s);
    DeliverReplay(w, s);
  }

  // ---- restarts, acks and status updates ----

  /** A fresh connection starts no later than the first transaction still owed. */
  lemma FreshConnection(w: World, flushed: Lsn, handed: set<RowId>, seen: set<RowId>)
    requires Covered(w, flushed, handed) && handed <= seen
    ensures Releasing(w, StartIndex(w, 0, flushed), [], None, 0, seen)
    ensures Run(FreshSink<RowId>(), Wire([], None, 0)).sink == FreshSink<RowId>()
  {
    assert Wire([], None, 0) == [];
    SettledMore(w, StartIndex(w, 0, flushed), handed, seen);
  }

  lemma MarkDelivered(w: World, p: Progress<RowId>)
    requires BelowMark(w, p)
    ensures MarkedBelow(w, BodiesOf(p.delivered), Max(p.floor, p.highWater))
  {
    forall id | id in BodiesOf(p.delivered)
      ensures id.0 < |w.log| && id.1 < |w.log[id.0].rows| && Position(w, id) <= Max(p.floor, p.highWater)
    {
      var m :| m in p.delivered && m.change.body == id;
    }
  }

  lemma ReconnectInv(w: World, s: State)
    requires Inv(w, s)
    ensures Inv(w, Next(w, s, Reconnect))
  {
    hide Run, Wire, Releasing, StartIndex, Covered, Placed, BodiesOf, MarkedBelow, QueueCovered, AllPlaced;
    FreshConnection(w, s.flushed, s.handed, s.handed + BodiesOf(s.queue));
    MarkDelivered(w, s.progress);
  }

  lemma ProcessRestartInv(w: World, s: State)
    requires Inv(w, s)
    ensures Inv(w, Next(w, s, ProcessRestart))
  {
    hide Run, Wire, Releasing, StartIndex, Covered, Placed, BodiesOf;
    FreshConnection(w, s.flushed, s.handed, s.handed + BodiesOf([]));
    ZeroCovered(w, s.handed);
  }

  lemma ZeroCovered(w: World, seen: set<RowId>)
    ensures Covered(w, 0, seen)
  {
  }

  lemma PositionStep(w: World, s: State, a: Action)
    requires PositionsInv(w, s.flushed, s.inflight, s.progress, s.handed) && Enabled(w, s, a)
    requires a.Ack? || a.Keepalive? || a.SendStatus? || a.ApplyStatus? || a.ServerRestart?
    ensures var t := Next(w, s, a); PositionsInv(w, t.flushed, t.inflight, t.progress, t.handed)
  {
    hide Covered;
    if a.Ack? {
      var k :| 0 <= k < |s.progress.delivered| && a.lsn <= s.progress.delivered[k].walStart;
      assert s.progress.delivered[k] in s.progress.delivered;
      CoveredMore(w, s.progress.delivered[k].walStart, a.lsn, s.handed, s.handed);
    } else if a.ServerRestart? {
      CoveredMore(w, s.flushed, a.durable, s.handed, s.handed);
    }
  }

  lemma QuietStep(w: World, s: State, a: Action)
    requires Inv(w, s) && Enabled(w, s, a)
    requires a.Ack? || a.Keepalive? || a.SendStatus? || a.ApplyStatus? || a.ServerRestart?
    ensures Inv(w, Next(w, s, a))
  {
    hide PositionsInv, Run, Wire, Releasing, QueueCovered, AllPlaced, Enabled, Placed, MarkedBelow;
    PositionStep(w, s, a);
  }

  lemma NextInv(w: World, s: State, a: Action)
    requires WalFacts(w) && Inv(w, s) && Enabled(w, s, a)
    ensures Inv(w, Next(w, s, a))
  {
    hide Inv, WalFacts, ReceiveNext, DeliverNext, Connect;
    match a
    case Receive(i, walEnd) => ReceiveInv(w, s, i, walEnd);
    case Deliver => DeliverInv(w, s);
    case Reconnect => ReconnectInv(w, s);
    case ProcessRestart => ProcessRestartInv(w, s);
    case _ => QuietStep(w, s, a);
  }

  lemma {:induction false} BehaviourInv(w: World, trace: seq<State>, i: nat)
    requires WalFacts(w) && Behaviour(w, trace) && i < |trace|
    ensures Inv(w, trace[i])
  {
    if i == 0 {
      InitInv(w, trace[0]);
    } else {
      BehaviourInv(w, trace, i - 1);
      assert StepTo(w, trace[i - 1], trace[i - 1 + 1]);
      hide Inv, WalFacts, Next, Enabled, Init;
      var a :| Enabled(w, trace[i - 1], a) && trace[i] == Next(w, trace[i - 1], a);
      NextInv(w, trace[i - 1], a);
    }
  }

  // ---- theorems ----

  /** In every run, at every moment, the slot's position has not passed the commit
      record of any transaction with a change that no listener has been given, and a
      connection opened at 0/0 would resend every such transaction. */
  lemma NoChangeSkipped(w: World, trace: seq<State>, i: nat)
    requires WalFacts(w) && Behaviour(w, trace) && i < |trace|
    ensures forall j, r | 0 <= j < |w.log| && 0 <= r < |w.log[j].rows| && (j, r) !in w.heartbeat
                       && w.base <= w.log[j].h.commitLsn && (j, r) !in trace[i].handed ::
              trace[i].flushed <= w.log[j].h.commitLsn && StartIndex(w, 0, trace[i].flushed) <= j
  {
    BehaviourInv(w, trace, i);
    forall j, r | 0 <= j < |w.log| && 0 <= r < |w.log[j].rows| && (j, r) !in w.heartbeat
               && w.base <= w.log[j].h.commitLsn && (j, r) !in trace[i].handed
      ensures trace[i].flushed <= w.log[j].h.commitLsn && StartIndex(w, 0, trace[i].flushed) <= j
    {
      assert !Seen(w, j, r, trace[i].handed);
      assert !Settled(w, j, trace[i].handed);
    }
  }

  /** Taking the head of the channel: a heartbeat row is confirmed and goes no further;
      any other message is given to the listener, and only its row becomes handed. */
  lemma DeliverGives(w: World, s: State)
    requires s.queue != []
    ensures Enabled(w, s, Deliver)
    ensures var m, t := s.queue[0], Next(w, s, Deliver);
            && s.queue == [m] + t.queue
            && if m.change.Dml? && m.change.body in w.heartbeat then
                 t.progress.delivered == s.progress.delivered && t.handed == s.handed
                 && m.walStart <= t.progress.confirmed
               else
                 t.progress.delivered == s.progress.delivered + [m] && t.handed == s.handed + {m.change.body}
                 && t.progress.confirmed == s.progress.confirmed
                 && t.redelivered == s.redelivered + (if m.change.body in s.marked then 1 else 0)
  {
  }

  lemma HandedStep(w: World, s: State, a: Action)
    requires Enabled(w, s, a) && BodiesOf(s.progress.delivered) <= s.handed
    ensures var t := Next(w, s, a); t.handed == s.handed + BodiesOf(t.progress.delivered)
  {
    hide StartIndex, BodiesOf, DeliverNext, Step, ItemEvents;
    if a.Deliver? {
      DeliverGives(w, s);
      BodiesMore(s.progress.delivered, [s.queue[0]]);
      OneBody(s.queue[0]);
    } else if a.ProcessRestart? {
      NoBodies();
    }
  }

  lemma OneBody(m: Message<RowId>)
    ensures BodiesOf([m]) == {m.change.body}
  {
    assert m in [m];
  }

  /** The listener of some process up to moment i was called with this row. */
  ghost predicate Given(trace: seq<State>, i: nat, id: RowId) {
    exists j :: 0 <= j <= i < |trace| && id in BodiesOf(trace[j].progress.delivered)
  }

  /** Handed over means that a listener was called: in every run, the rows that count
      as handed are exactly those some process gave to its listener. */
  lemma {:induction false} HandedIffGiven(w: World, trace: seq<State>, i: nat)
    requires Behaviour(w, trace) && i < |trace|
    ensures forall id :: id in trace[i].handed <==> Given(trace, i, id)
    ensures BodiesOf(trace[i].progress.delivered) <= trace[i].handed
  {
    hide Next, Enabled, BodiesOf;
    if i == 0 {
      NoBodies();
    } else {
      HandedIffGiven(w, trace, i - 1);
      assert StepTo(w, trace[i - 1], trace[i - 1 + 1]);
      var a :| Enabled(w, trace[i - 1], a) && trace[i] == Next(w, trace[i - 1], a);
      HandedStep(w, trace[i - 1], a);
      forall id
        ensures Given(trace, i, id) <==> Given(trace, i - 1, id) || id in BodiesOf(trace[i].progress.delivered)
      {
        if j :| 0 <= j <= i - 1 && id in BodiesOf(trace[j].progress.delivered) { assert 0 <= j <= i; }
      }
    }
  }

  /** The replay counter never falls short: every row given again to the listener
      after a reconnect, that was given before it, has been counted. */
  lemma ReplayNeverUndercounts(w: World, trace: seq<State>, i: nat)
    requires WalFacts(w) && Behaviour(w, trace) && i < |trace|
    ensures trace[i].redelivered <= trace[i].progress.replayed
    ensures trace[i].progress.floor <= trace[i].progress.highWater
  {
    BehaviourInv(w, trace, i);
  }

  /** Step by step: whenever the listener is given a row again that this process had
      given it before its last reconnect, the replay counter grows by one. */
  lemma ReplayedIsCounted(w: World, trace: seq<State>, i: nat)
    requires WalFacts(w) && Behaviour(w, trace) && i + 1 < |trace| && trace[i].queue != []
    requires trace[i + 1] == Next(w, trace[i], Deliver)
    requires var c := trace[i].queue[0].change; c.body in trace[i].marked && !(c.Dml? && c.body in w.heartbeat)
    ensures trace[i + 1].progress.delivered == trace[i].progress.delivered + [trace[i].queue[0]]
    ensures trace[i + 1].progress.replayed == trace[i].progress.replayed + 1
  {
    hide WalFacts, Behaviour, Placed, ConnectionInv, PositionsInv, QueueCovered, MarkedBelow;
    BehaviourInv(w, trace, i);
    assert Placed(w, trace[i].queue[0]);
    PlacedBelow(w, trace[i].queue[0], trace[i].marked, trace[i].progress.floor);
  }

  /** A step that does not restart the process. */
  ghost predicate GoesOn(w: World, s: State, t: State) {
    exists a: Action :: !a.ProcessRestart? && Enabled(w, s, a) && t == Next(w, s, a)
  }

  ghost predicate SameProcess(w: World, trace: seq<State>, j: nat, i: nat)
    requires j <= i < |trace|
  {
    forall k | j < k <= i :: GoesOn(w, trace[k - 1], trace[k])
  }

  lemma MarkedStep(w: World, s: State, a: Action, id: RowId)
    requires Enabled(w, s, a) && !a.ProcessRestart?
    requires id in s.marked && id in BodiesOf(s.progress.delivered)
    ensures var t := Next(w, s, a); id in t.marked && id in BodiesOf(t.progress.delivered)
  {
    hide StartIndex, BodiesOf, DeliverNext, Step, ItemEvents;
    if a.Deliver? {
      DeliverGives(w, s);
      BodiesMore(s.progress.delivered, [s.queue[0]]);
      DeliverKeepsMarked(w, s);
    }
  }

  lemma DeliverKeepsMarked(w: World, s: State)
    ensures DeliverNext(w, s).marked == s.marked
  {
  }

  lemma {:induction false} MarkedStays(w: World, trace: seq<State>, j: nat, i: nat, id: RowId)
    requires j < i < |trace| && trace[j + 1] == Next(w, trace[j], Reconnect) && SameProcess(w, trace, j + 1, i)
    requires id in BodiesOf(trace[j].progress.delivered)
    ensures id in trace[i].marked && id in BodiesOf(trace[i].progress.delivered)
    decreases i
  {
    hide BodiesOf, Next, Enabled;
    if i == j + 1 {
      ReconnectMarks(w, trace[j]);
    } else {
      assert GoesOn(w, trace[i - 1], trace[i]);
      MarkedStays(w, trace, j, i - 1, id);
      var a: Action :| !a.ProcessRestart? && Enabled(w, trace[i - 1], a) && trace[i] == Next(w, trace[i - 1], a);
      MarkedStep(w, trace[i - 1], a, id);
    }
  }

  lemma ReconnectMarks(w: World, s: State)
    ensures var t := Next(w, s, Reconnect);
            t.marked == BodiesOf(s.progress.delivered) && t.progress.delivered == s.progress.delivered
  {
  }

  /** A row the listener had before a reconnect of this process, and is given again at any
      later moment, raises the replay counter by one. */
  lemma GivenAgainIsCounted(w: World, trace: seq<State>, j: nat, i: nat)
    requires WalFacts(w) && Behaviour(w, trace) && j < i && i + 1 < |trace| && trace[i].queue != []
    requires trace[j + 1] == Next(w, trace[j], Reconnect) && SameProcess(w, trace, j + 1, i)
    requires trace[i + 1] == Next(w, trace[i], Deliver)
    requires var c := trace[i].queue[0].change;
             c.body in BodiesOf(trace[j].progress.delivered) && !(c.Dml? && c.body in w.heartbeat)
    ensures trace[i + 1].progress.delivered == trace[i].progress.delivered + [trace[i].queue[0]]
    ensures trace[i + 1].progress.replayed == trace[i].progress.replayed + 1
    ensures trace[i + 1].redelivered == trace[i].redelivered + 1
  {
    hide WalFacts, Behaviour, BodiesOf, Next, Enabled;
    MarkedStays(w, trace, j, i, trace[i].queue[0].change.body);
    ReplayedIsCounted(w, trace, i);
    DeliverGives(w, trace[i]);
  }
}
