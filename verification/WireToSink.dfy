/** From bytes on the connection to the sink: pq/replication/wal.go, the call of
    message.New in handleXLogData, and the end-to-end proof over whole sessions. */
module WireToSink {
  import opened Basics
  import opened Bytes
  import opened Pgoutput
  import opened PgoutputEncoding
  import E = StreamEngine
  import O = StreamOutput
  import T = StreamTheorems
  import S = Stream

  // ---- XLogData ----

  datatype XLog = XLog(walStart: nat, walEnd: nat, serverTime: int, walData: Buffer)

  function ParseXLogData(buf: Buffer): Result<XLog> {
    if |buf| < 24 then Error
    else Ok(XLog(BigEndian(buf[0..8]), BigEndian(buf[8..16]), PgTime(BigEndian(buf[16..24])), buf[24..]))
  }

  function EncodeXLogData(w: XLog): Buffer {
    Uint(w.walStart, 8) + (Uint(w.walEnd, 8) + (Uint(RawTime(w.serverTime), 8) + w.walData))
  }

  predicate XLogFits(w: XLog) { Fits64(w.walStart) && Fits64(w.walEnd) && Int64(w.serverTime) }

  lemma XLogDataDecoded(w: XLog)
    requires XLogFits(w)
    ensures ParseXLogData(EncodeXLogData(w)) == Ok(w)
  {
    hide BigEndian, Uint, RawTime, PgTime;
    var buf := EncodeXLogData(w);
    Widths();
    WholeHolds(buf);
    PgTimeRoundTrip(w.serverTime);
    var t := Uint(RawTime(w.serverTime), 8);
    FieldDecoded(buf, 0, w.walStart, 8, Uint(w.walEnd, 8) + (t + w.walData));
    FieldDecoded(buf, 8, w.walEnd, 8, t + w.walData);
    FieldDecoded(buf, 16, RawTime(w.serverTime), 8, w.walData);
    assert buf[24..] == buf[24..24 + |w.walData|];
  }

  // ---- one message through the sink ----

  /** A row-level message as the listener gets it; its XID is kept beside it. time
      is MessageTime, which Relation messages do not have. */
  datatype Content = Content(row: RowMessage, time: int)

  function WireXid(r: RowMessage): nat { if r.RelationRow? then r.relation.xid else r.xid }

  function ContentOf(r: RowMessage, time: int): Content {
    if r.RelationRow? then Content(RelationRow(r.relation.(xid := 0)), 0) else Content(r.(xid := 0), time)
  }

  function EventOf(d: Decoded, walStart: nat, time: int): E.Event<Content> {
    match d
    case Control(Begin(lsn, at, xid)) => E.Begin(lsn, at, xid)
    case Control(Commit(_, commitLsn, endLsn, at)) => E.Commit(commitLsn, endLsn, at)
    case Control(StreamStart(xid, _)) => E.StreamStart(xid)
    case Control(StreamStop) => E.StreamStop
    case Control(StreamCommit(xid, _, commitLsn, endLsn, at)) => E.StreamCommit(xid, commitLsn, endLsn, at)
    case Control(StreamAbort(xid, subXid)) => E.StreamAbort(xid, subXid)
    case RowLevel(row) =>
      var dml := row.Insert? || row.Update? || row.Delete?;
      E.Row(walStart, O.Decoded(O.WireRow(dml, ContentOf(row, time), walStart, WireXid(row))))
  }

  function WithXid(r: RowMessage, xid: nat): RowMessage {
    if r.RelationRow? then RelationRow(r.relation.(xid := xid)) else r.(xid := xid)
  }

  /** Nothing of a decoded message is lost on its way into the sink: from the change and
      the XID kept beside it the message can be put together again, and its time is the
      frame's. */
  ghost predicate Carries(c: E.Change<Content>, r: RowMessage, time: int) {
    && WithXid(c.body.row, WireXid(r)) == r
    && c.body.time == (if r.RelationRow? then 0 else time)
    && (c.Dml? <==> r.Insert? || r.Update? || r.Delete?)
    && (c.NonDml? ==> c.xid == WireXid(r))
  }

  /** Schema and table name of a row message, which isHeartbeatMessage compares. */
  function TableOf(c: Content): (Buffer, Buffer) {
    if c.row.Insert? || c.row.Update? || c.row.Delete? then (c.row.namespace, c.row.name) else ([], [])
  }

  function HeartbeatOn(enabled: bool, schema: Buffer, table: Buffer): S.Heartbeat<Content, Buffer> {
    S.Heartbeat(enabled, schema, table, TableOf)
  }

  /** On decoded messages a heartbeat is exactly a row change of the configured table. */
  lemma HeartbeatIs(enabled: bool, schema: Buffer, table: Buffer, m: E.Message<Content>)
    requires m.change.Dml? ==> m.change.body.row.Insert? || m.change.body.row.Update? || m.change.body.row.Delete?
    ensures HeartbeatOn(enabled, schema, table).Is(m) <==>
            enabled && m.change.Dml? && m.change.body.row.namespace == schema && m.change.body.row.name == table
  {
  }

  datatype ByteSink = ByteSink(sink: E.Sink<Content>, rel: Relations)

  datatype ByteOutcome = ByteOutcome(state: ByteSink, out: seq<E.Message<Content>>)

  /** handleXLogData: a frame or payload that does not parse is dropped. */
  function StepBytes(s: ByteSink, buf: Buffer): Result<ByteOutcome> {
    var w := ParseXLogData(buf);
    if w.Error? then Ok(ByteOutcome(s, []))
    else
      var w :- w;
      var d := Decode(w.walData, s.sink.streaming, s.rel);
      if d.Error? then Ok(ByteOutcome(s, []))
      else
        var d :- d;
        var r := E.Step(s.sink, EventOf(d, w.walStart, w.serverTime));
        Ok(ByteOutcome(ByteSink(r.sink, Remember(s.rel, Ok(d))), r.out))
  }

  function RunBytes(s: ByteSink, bufs: seq<Buffer>): Result<ByteOutcome>
    decreases |bufs|
  {
    if bufs == [] then Ok(ByteOutcome(s, []))
    else
      var before :- RunBytes(s, bufs[..|bufs| - 1]);
      var r :- StepBytes(before.state, bufs[|bufs| - 1]);
      Ok(ByteOutcome(r.state, before.out + r.out))
  }

  /** A frame too short to parse, or with a payload that message.New rejects in this state. */
  predicate Unreadable(s: ByteSink, buf: Buffer) {
    |buf| < 24 || Decode(buf[24..], s.sink.streaming, s.rel) == Error
  }

  lemma UnreadableLast(s: ByteSink, a: seq<Buffer>, g: Buffer)
    requires RunBytes(s, a).Ok? ==> Unreadable(RunBytes(s, a).value.state, g)
    ensures RunBytes(s, a + [g]) == RunBytes(s, a)
  {
    hide Decode, E.Step, EventOf, BigEndian, PgTime;
    assert (a + [g])[..|a|] == a;
    if RunBytes(s, a).Ok? {
      var before := RunBytes(s, a).value;
      assert StepBytes(before.state, g) == Ok(ByteOutcome(before.state, []));
      assert before.out + [] == before.out;
    }
  }

  /** Unreadable frames are dropped: wherever one stands, the others have the effect they
      have without it. */
  lemma {:induction false} UnreadableDropped(s: ByteSink, a: seq<Buffer>, g: Buffer, b: seq<Buffer>)
    requires RunBytes(s, a).Ok? ==> Unreadable(RunBytes(s, a).value.state, g)
    ensures RunBytes(s, a + [g] + b) == RunBytes(s, a + b)
    decreases |b|
  {
    hide StepBytes, Unreadable;
    if b == [] {
      assert a + [g] + b == a + [g] && a + b == a;
      UnreadableLast(s, a, g);
    } else {
      var init, last := b[..|b| - 1], b[|b| - 1];
      UnreadableDropped(s, a, g, init);
      var with, without := a + [g] + b, a + b;
      assert with[..|with| - 1] == a + [g] + init && with[|with| - 1] == last;
      assert without[..|without| - 1] == a + init && without[|without| - 1] == last;
    }
  }

  /** The row message the sink took last: held back, or the last of its transaction. */
  function Newest(s: E.Sink<Content>): Option<E.Message<Content>> {
    if !s.streaming then s.pending
    else
      var rows := s.Buffered(s.activeXid);
      if rows == [] then None else Some(rows[|rows| - 1])
  }

  lemma RowArrives(s: E.Sink<Content>, r: RowMessage, walStart: nat, time: int)
    ensures var m := Newest(E.Step(s, EventOf(RowLevel(r), walStart, time)).sink);
            m.Some? && m.value.walStart == walStart && Carries(m.value.change, r, time)
  {
  }

  /** The source's handleXLogData on the objects it changes. */
  method HandleBuffer(stream: S.Stream<Content>, decoder: Decoder, data: Buffer,
                      buf: S.MessageBuffer<Content>, streamBuf: S.StreamTxBuffer<Content>)
    returns (crashed: bool)
    requires buf.outCh == stream.messageCh
    modifies stream`lastXLogPos, stream`txCommit, buf, streamBuf, stream.messageCh, decoder
    ensures var r := StepBytes(ByteSink(old(stream.SinkState(buf, streamBuf)), old(decoder.relations)), data);
            && crashed == !r.Ok?
            && (r.Ok? ==>
                  && stream.SinkState(buf, streamBuf) == r.value.state.sink
                  && decoder.relations == r.value.state.rel
                  && stream.messageCh.queue == old(stream.messageCh.queue) + r.value.out)
    ensures var w := ParseXLogData(data);
            !crashed && w.Ok? ==>
              && stream.lastXLogPos == Max(old(stream.lastXLogPos), w.value.walEnd)
              && var d := Decode(w.value.walData, old(streamBuf.streaming), old(decoder.relations));
                 d.Ok? && d.value.RowLevel? ==>
                   var m := Newest(stream.SinkState(buf, streamBuf));
                   m.Some? && m.value.walStart == w.value.walStart
                   && Carries(m.value.change, d.value.row, w.value.serverTime)
  {
    hide Decode, E.Step, EventOf, BigEndian, PgTime, Carries, Newest;
    var parsed := ParseXLogData(data);
    if parsed.Error? {
      return false;
    }
    var w := parsed.value;
    var decoded := decoder.New(w.walData, streamBuf.streaming);
    if decoded.Panic? {
      return true;
    }
    var event := if decoded.Ok? then Some(EventOf(decoded.value, w.walStart, w.serverTime)) else None;
    ghost var before := stream.SinkState(buf, streamBuf);
    stream.HandleXLogData(w.walEnd, event, buf, streamBuf);
    if decoded.Ok? && decoded.value.RowLevel? {
      RowArrives(before, decoded.value.row, w.walStart, w.serverTime);
    }
    crashed := false;
  }

  // ---- a session as the server sends it ----

  datatype Payload = Ctl(control: Control) | Row(message: ServerMessage, prefix: Option<nat>)

  datatype Sent = Sent(walStart: nat, walEnd: nat, clock: int, payload: Payload)
  {
    function Data(): Buffer {
      match payload case Ctl(c) => EncodeControl(c) case Row(m, x) => Encode(m, x)
    }

    function Bytes(): Buffer { EncodeXLogData(XLog(walStart, walEnd, clock, Data())) }
  }

  function AllBytes(ms: seq<Sent>): (bufs: seq<Buffer>)
    ensures |bufs| == |ms| && forall k | 0 <= k < |ms| :: bufs[k] == ms[k].Bytes()
  {
    seq(|ms|, k requires 0 <= k < |ms| => ms[k].Bytes())
  }

  /** Between a STREAM START and the STREAM STOP that closes it. */
  function InsideChunk(ms: seq<Sent>): bool {
    if ms == [] then false
    else
      var last := ms[|ms| - 1].payload;
      if last.Ctl? && last.control.StreamStart? then true
      else if last.Ctl? && last.control.StreamStop? then false
      else InsideChunk(ms[..|ms| - 1])
  }

  /** The Relation messages of the session, the latest for an OID winning. */
  function RelationsAfter(rel: Relations, ms: seq<Sent>): Relations {
    if ms == [] then rel
    else
      var before := RelationsAfter(rel, ms[..|ms| - 1]);
      var p := ms[|ms| - 1].payload;
      if p.Row? && p.message.SendRelation? then before[p.message.oid := RelationOf(p)] else before
  }

  function RelationOf(p: Payload): Relation
    requires p.Row? && p.message.SendRelation?
  {
    var m := p.message;
    Relation(XidOf(p.prefix), m.oid, m.namespace, m.name, m.replicaId, m.relColumns)
  }

  predicate Describes(p: Payload, oid: nat) { p.Row? && p.message.SendRelation? && p.message.oid == oid }

  ghost predicate AnnouncedIn(ms: seq<Sent>, oid: nat) { exists j | 0 <= j < |ms| :: Describes(ms[j].payload, oid) }

  /** Message k of a session: its fields fit, a row carries an XID prefix exactly
      inside a chunk and names only tables announced earlier in the session, and
      commits and aborts of streamed transactions come between chunks. */
  ghost predicate SentOk(before: seq<Sent>, m: Sent) {
    && XLogFits(XLog(m.walStart, m.walEnd, m.clock, []))
    && match m.payload
       case Ctl(c) => ControlFits(c) && (c.StreamCommit? || c.StreamAbort? ==> !InsideChunk(before))
       case Row(r, x) => && WellFormed(r) && XidFits(x) && (x.Some? <==> InsideChunk(before))
                         && match r
                            case SendRelation(_, _, _, _, _) => true
                            case SendTruncate(oids, _, _) => forall o | o in oids :: AnnouncedIn(before, o)
                            case _ => AnnouncedIn(before, r.oid)
  }

  ghost predicate Session(ms: seq<Sent>) { forall k | 0 <= k < |ms| :: SentOk(ms[..k], ms[k]) }

  /** The latest Relation message for an OID is the one the cache holds. */
  lemma {:induction false} LatestRelation(rel: Relations, ms: seq<Sent>, j: nat, oid: nat)
    requires j < |ms| && Describes(ms[j].payload, oid)
    requires forall k | j < k < |ms| :: !Describes(ms[k].payload, oid)
    ensures oid in RelationsAfter(rel, ms) && RelationsAfter(rel, ms)[oid] == RelationOf(ms[j].payload)
  {
    if j < |ms| - 1 { LatestRelation(rel, ms[..|ms| - 1], j, oid); }
  }

  lemma {:induction false} AnnouncedKnown(rel: Relations, ms: seq<Sent>, oid: nat)
    requires AnnouncedIn(ms, oid)
    ensures oid in RelationsAfter(rel, ms)
  {
    var init := ms[..|ms| - 1];
    if !Describes(ms[|ms| - 1].payload, oid) {
      var j :| 0 <= j < |ms| && Describes(ms[j].payload, oid);
      assert Describes(init[j].payload, oid);
      AnnouncedKnown(rel, init, oid);
    }
  }

  /** An insert into a table with no columns. */
  predicate ColumnlessInsert(p: Payload) { p.Row? && p.message.SendInsert? && p.message.row == [] }

  ghost predicate Understood(m: Sent, rel: Relations) {
    m.payload.Row? ==> WellFormed(m.payload.message) && Announced(m.payload.message, rel)
  }

  /** What one sent message means to the sink, given the relations announced so far. */
  ghost function Meant(m: Sent, rel: Relations): Decoded
    requires Understood(m, rel)
  {
    match m.payload
    case Ctl(c) => Control(c)
    case Row(r, x) => RowLevel(Meaning(r, x, rel))
  }

  lemma SentUnderstood(rel: Relations, before: seq<Sent>, m: Sent)
    requires SentOk(before, m)
    ensures Understood(m, RelationsAfter(rel, before))
  {
    hide WellFormed, ControlFits, XLogFits, RelationsAfter, InsideChunk, AnnouncedIn;
    if m.payload.Row? {
      match m.payload.message {
        case SendRelation(_, _, _, _, _) =>
        case SendTruncate(oids, _, _) =>
          forall o | o in oids ensures o in RelationsAfter(rel, before) { AnnouncedKnown(rel, before, o); }
        case _ => AnnouncedKnown(rel, before, m.payload.message.oid);
      }
    }
  }

  /** The events of a session; an insert without columns is not among them. */
  ghost function SessionEvents(rel: Relations, ms: seq<Sent>): seq<E.Event<Content>>
    requires Session(ms)
  {
    if ms == [] then []
    else
      var init, m := ms[..|ms| - 1], ms[|ms| - 1];
      assert forall k | 0 <= k < |init| :: init[..k] == ms[..k];
      SentUnderstood(rel, init, m);
      if ColumnlessInsert(m.payload) then SessionEvents(rel, init)
      else SessionEvents(rel, init) + [EventOf(Meant(m, RelationsAfter(rel, init)), m.walStart, m.clock)]
  }

  predicate IsChange(m: ServerMessage) { m.SendInsert? || m.SendUpdate? || m.SendDelete? }

  /** The names the relation cache has for a table; the XID is kept elsewhere. */
  predicate Named(r: RowMessage, oid: nat, rel: Relations)
    requires (r.Insert? || r.Update? || r.Delete?) && oid in rel
  {
    r.oid == oid && r.namespace == rel[oid].namespace && r.name == rel[oid].name && r.xid == 0
  }

  predicate HasColumns(t: Tuple, row: Row) { t.columnNumber == |row| && t.columns == ColumnsOf(row) }

  /** c shows the listener what server message m says: table, values (unchanged ones of
      an update taken from its old image) and time. */
  ghost predicate Shows(c: Content, m: ServerMessage, rel: Relations, clock: int)
    requires WellFormed(m) && Announced(m, rel)
  {
    match m
    case SendRelation(oid, ns, name, replicaId, cs) =>
      c.row == RelationRow(Relation(0, oid, ns, name, replicaId, cs)) && c.time == 0
    case SendInsert(oid, row) =>
      c.row.Insert? && Named(c.row, oid, rel) && HasColumns(c.row.tuple, row) && c.time == clock
    case SendUpdate(oid, image, row) =>
      && c.row.Update? && Named(c.row, oid, rel) && HasColumns(c.row.tuple, Merged(row, image)) && c.time == clock
      && (match image
          case NoOld => c.row.old' == None && c.row.oldType == 'N' as int
          case Key(old') => c.row.old'.Some? && HasColumns(c.row.old'.value, old') && c.row.oldType == 'K' as int
          case Full(old') => c.row.old'.Some? && HasColumns(c.row.old'.value, old') && c.row.oldType == 'O' as int)
    case SendDelete(oid, full, row) =>
      && c.row.Delete? && Named(c.row, oid, rel) && HasColumns(c.row.tuple, row) && c.time == clock
      && c.row.oldType == if full then 'O' as int else 'K' as int
    case SendTruncate(oids, cascade, restart) =>
      && c.row.Truncate? && c.row.xid == 0 && c.row.oids == oids && c.row.tables == TablesOf(oids, rel)
      && c.time == clock && c.row.cascade == cascade && c.row.restartIdentity == restart
  }

  lemma ContentShows(m: ServerMessage, x: Option<nat>, rel: Relations, clock: int)
    requires WellFormed(m) && Announced(m, rel)
    ensures var r := Meaning(m, x, rel);
            && Shows(ContentOf(r, clock), m, rel, clock) && WireXid(r) == XidOf(x)
            && (r.Insert? || r.Update? || r.Delete? <==> IsChange(m))
  {
    hide Encode, EncodeImage, ColumnsOf, TablesOf, RowEncodable, RelationColumnEncodable, NoZero;
  }

  /** Row r of the stream is message m: its content, its position, and the XID before it. */
  ghost predicate RowMeans(r: O.WireRow<Content>, m: Sent, rel: Relations)
    requires m.payload.Row? && Understood(m, rel)
  {
    && Shows(r.body, m.payload.message, rel, m.clock) && r.walStart == m.walStart
    && r.wireXid == XidOf(m.payload.prefix) && r.dml == IsChange(m.payload.message)
  }

  /** Event e of the sink is message m of the server. */
  ghost predicate EventMeans(e: E.Event<Content>, m: Sent, rel: Relations)
    requires Understood(m, rel)
  {
    match m.payload
    case Ctl(c) => ControlMeans(e, c)
    case Row(_, _) => exists r :: RowMeans(r, m, rel) && e == E.Row(r.walStart, O.Decoded(r))
  }

  predicate ControlMeans(e: E.Event<Content>, c: Control) {
    match c
    case Begin(lsn, time, xid) => e == E.Begin(lsn, time, xid)
    case Commit(_, commitLsn, endLsn, time) => e == E.Commit(commitLsn, endLsn, time)
    case StreamStart(xid, _) => e == E.StreamStart(xid)
    case StreamStop => e == E.StreamStop
    case StreamCommit(xid, _, commitLsn, endLsn, time) => e == E.StreamCommit(xid, commitLsn, endLsn, time)
    case StreamAbort(xid, subXid) => e == E.StreamAbort(xid, subXid)
  }

  lemma EventIsMeant(m: Sent, rel: Relations)
    requires Understood(m, rel)
    ensures EventMeans(EventOf(Meant(m, rel), m.walStart, m.clock), m, rel)
  {
    hide Shows, ContentOf, Meaning, RowEncodable, RelationColumnEncodable, NoZero;
    if m.payload.Row? {
      var p := m.payload;
      ContentShows(p.message, p.prefix, rel, m.clock);
      var row := Meaning(p.message, p.prefix, rel);
      var r := O.WireRow(IsChange(p.message), ContentOf(row, m.clock), m.walStart, XidOf(p.prefix));
      assert RowMeans(r, m, rel);
    }
  }

  /** The events es are the messages ms one by one, but for inserts without columns. */
  ghost predicate EventsMean(es: seq<E.Event<Content>>, rel: Relations, ms: seq<Sent>)
    requires Session(ms)
    decreases |ms|
  {
    if ms == [] then es == []
    else
      var init, m := ms[..|ms| - 1], ms[|ms| - 1];
      assert forall k | 0 <= k < |init| :: init[..k] == ms[..k];
      SentUnderstood(rel, init, m);
      if ColumnlessInsert(m.payload) then EventsMean(es, rel, init)
      else
        && es != [] && EventMeans(es[|es| - 1], m, RelationsAfter(rel, init))
        && EventsMean(es[..|es| - 1], rel, init)
  }

  /** Message by message: every event of a session is what the server's message says, under
      the names of the latest Relation messages before it. */
  lemma {:induction false} SessionEventsMean(rel: Relations, ms: seq<Sent>)
    requires Session(ms)
    ensures EventsMean(SessionEvents(rel, ms), rel, ms)
    decreases |ms|
  {
    hide EventOf, Meant, EventMeans, SentOk, Understood, RelationsAfter, ColumnlessInsert;
    if ms != [] {
      var init, m := ms[..|ms| - 1], ms[|ms| - 1];
      assert forall k | 0 <= k < |init| :: init[..k] == ms[..k];
      SessionEventsMean(rel, init);
      SentUnderstood(rel, init, m);
      EventIsMeant(m, RelationsAfter(rel, init));
      var es := SessionEvents(rel, ms);
      if !ColumnlessInsert(m.payload) { assert es[..|es| - 1] == SessionEvents(rel, init); }
    }
  }

  lemma DecodeSent(m: Sent, before: seq<Sent>, rel: Relations)
    requires SentOk(before, m) && Understood(m, rel)
    ensures ParseXLogData(m.Bytes()) == Ok(XLog(m.walStart, m.walEnd, m.clock, m.Data()))
    ensures Decode(m.Data(), InsideChunk(before), rel)
         == if ColumnlessInsert(m.payload) then Error else Ok(Meant(m, rel))
  {
    hide Decode, Encode, EncodeControl, ParseXLogData, EncodeXLogData, Meaning, InsideChunk, WellFormed, AnnouncedIn,
         Announced;
    XLogDataDecoded(XLog(m.walStart, m.walEnd, m.clock, m.Data()));
    match m.payload {
      case Ctl(c) => ControlPayload(c, InsideChunk(before), rel);
      case Row(r, x) => DecodeAfterEncode(r, x, rel);
    }
  }

  lemma ControlPayload(c: Control, streamed: bool, rel: Relations)
    requires ControlFits(c)
    ensures Decode(EncodeControl(c), streamed, rel) == Ok(Control(c))
  {
    hide DecodeControl, Uint;
    ControlDecoded(c);
  }

  /** The sink's streaming flag after one event, for the events a session has. */
  lemma FlagAfter(s: E.Sink<Content>, before: seq<Sent>, m: Sent, rel: Relations)
    requires SentOk(before, m) && Understood(m, rel) && s.streaming == InsideChunk(before)
    ensures E.Step(s, EventOf(Meant(m, rel), m.walStart, m.clock)).sink.streaming == InsideChunk(before + [m])
  {
    hide Meaning, WellFormed, Announced, AnnouncedIn, ControlFits, ContentOf, WireXid, XLogFits;
    assert (before + [m])[..|before|] == before;
  }

  lemma ColumnlessFlag(before: seq<Sent>, m: Sent)
    requires ColumnlessInsert(m.payload)
    ensures InsideChunk(before + [m]) == InsideChunk(before)
    ensures forall rel :: RelationsAfter(rel, before + [m]) == RelationsAfter(rel, before)
  {
    assert (before + [m])[..|before|] == before;
  }

  lemma RelationsStep(rel: Relations, before: seq<Sent>, m: Sent)
    requires Understood(m, RelationsAfter(rel, before))
    ensures RelationsAfter(rel, before + [m])
         == Remember(RelationsAfter(rel, before), Ok(Meant(m, RelationsAfter(rel, before))))
  {
    hide WellFormed, Announced, ColumnsOf, Encode;
    assert (before + [m])[..|before|] == before;
  }

  ghost predicate Agrees(r: Result<ByteOutcome>, o: E.Outcome<Content>, rel: Relations, inside: bool) {
    r == Ok(ByteOutcome(ByteSink(o.sink, rel), o.out)) && o.sink.streaming == inside
  }

  lemma RunBytesSnoc(s: ByteSink, bufs: seq<Buffer>, b: Buffer)
    requires RunBytes(s, bufs).Ok?
    ensures var before := RunBytes(s, bufs).value;
            var r := StepBytes(before.state, b);
            RunBytes(s, bufs + [b]) == if r.Ok? then Ok(ByteOutcome(r.value.state, before.out + r.value.out)) else r
  {
    hide StepBytes;
    assert (bufs + [b])[..|bufs|] == bufs;
  }

  lemma StepSent(s: ByteSink, before: seq<Sent>, m: Sent)
    requires SentOk(before, m) && Understood(m, s.rel) && s.sink.streaming == InsideChunk(before)
    ensures StepBytes(s, m.Bytes())
         == if ColumnlessInsert(m.payload) then Ok(ByteOutcome(s, []))
            else
              var r := E.Step(s.sink, EventOf(Meant(m, s.rel), m.walStart, m.clock));
              Ok(ByteOutcome(ByteSink(r.sink, Remember(s.rel, Ok(Meant(m, s.rel)))), r.out))
  {
    hide Decode, E.Step, EventOf, Meant, SentOk, Understood, ParseXLogData, Remember, InsideChunk;
    DecodeSent(m, before, s.rel);
  }

  lemma StepAgrees(rel: Relations, before: seq<Sent>, m: Sent, bufs: seq<Buffer>, es: seq<E.Event<Content>>)
    requires SentOk(before, m) && Understood(m, RelationsAfter(rel, before))
    requires Agrees(RunBytes(ByteSink(E.FreshSink(), rel), bufs),
                    E.Run(E.FreshSink(), es), RelationsAfter(rel, before), InsideChunk(before))
    ensures var e := EventOf(Meant(m, RelationsAfter(rel, before)), m.walStart, m.clock);
            Agrees(RunBytes(ByteSink(E.FreshSink(), rel), bufs + [m.Bytes()]),
                   E.Run(E.FreshSink(), if ColumnlessInsert(m.payload) then es else es + [e]),
                   RelationsAfter(rel, before + [m]), InsideChunk(before + [m]))
  {
    hide StepBytes, RunBytes, E.Step, E.Run, EventOf, Meant, SentOk, WellFormed, Announced, Remember, RelationsAfter,
         InsideChunk, ColumnlessInsert;
    var s := ByteSink(E.FreshSink(), rel);
    RunBytesSnoc(s, bufs, m.Bytes());
    var r := RunBytes(s, bufs).value;
    StepSent(r.state, before, m);
    if ColumnlessInsert(m.payload) {
      ColumnlessFlag(before, m);
      assert r.out + [] == r.out;
    } else {
      FlagAfter(r.state.sink, before, m, r.state.rel);
      RelationsStep(rel, before, m);
      E.RunSnoc(E.FreshSink(), es, EventOf(Meant(m, r.state.rel), m.walStart, m.clock));
    }
  }

  lemma {:induction false} RunsAgree(rel: Relations, ms: seq<Sent>)
    requires Session(ms)
    ensures Agrees(RunBytes(ByteSink(E.FreshSink(), rel), AllBytes(ms)),
                   E.Run(E.FreshSink(), SessionEvents(rel, ms)), RelationsAfter(rel, ms), InsideChunk(ms))
    decreases |ms|
  {
    hide StepBytes, E.Step, EventOf, Meant, SentOk, Understood, Remember, RelationsAfter, InsideChunk, ColumnlessInsert;
    if ms == [] {
      assert AllBytes(ms) == [];
      EmptySession(rel);
    } else {
      var init, m := ms[..|ms| - 1], ms[|ms| - 1];
      assert forall k | 0 <= k < |init| :: init[..k] == ms[..k];
      assert ms == init + [m];
      assert AllBytes(ms) == AllBytes(init) + [m.Bytes()];
      RunsAgree(rel, init);
      SentUnderstood(rel, init, m);
      StepAgrees(rel, init, m, AllBytes(init), SessionEvents(rel, init));
    }
  }

  /** Byte-level end to end, for a session of any messages and any relation cache
      left over from before it: decoding never fails or reads outside a buffer,
      the sink does exactly what it does on the events the server meant, each of which
      says what its message says, its streaming flag says whether the stream is inside a
      chunk, and its cache holds the session's latest Relation messages. */
  lemma BytesAreEvents(rel: Relations, ms: seq<Sent>)
    requires Session(ms)
    ensures Agrees(RunBytes(ByteSink(E.FreshSink(), rel), AllBytes(ms)),
                   E.Run(E.FreshSink(), SessionEvents(rel, ms)), RelationsAfter(rel, ms), InsideChunk(ms))
    ensures EventsMean(SessionEvents(rel, ms), rel, ms)
  {
    hide EventsMean, Agrees, Session, SessionEvents, RunBytes, AllBytes, E.Run, RelationsAfter, InsideChunk;
    RunsAgree(rel, ms);
    SessionEventsMean(rel, ms);
  }

  lemma EmptySession(rel: Relations)
    ensures RelationsAfter(rel, []) == rel && !InsideChunk([])
  {
  }

  /** One event per message sent, exactly when no table without columns is inserted into. */
  lemma {:induction false} NothingDroppedIff(rel: Relations, ms: seq<Sent>)
    requires Session(ms)
    ensures |SessionEvents(rel, ms)| <= |ms|
    ensures |SessionEvents(rel, ms)| == |ms| <==> forall m | m in ms :: !ColumnlessInsert(m.payload)
  {
    hide EventOf, Meant, SentOk, Understood, RelationsAfter, ColumnlessInsert;
    if ms != [] {
      var init, m := ms[..|ms| - 1], ms[|ms| - 1];
      assert forall k | 0 <= k < |init| :: init[..k] == ms[..k];
      NothingDroppedIff(rel, init);
      assert ms == init + [m];
    }
  }

  /** From bytes to committed transactions: when the session's events are those of
      whole blocks, chunks, commits and aborts, what the channel carries is what
      PostgreSQL committed exactly when no row survived a STREAM ABORT of its own
      transaction. */
  lemma BytesDeliverCommittedIff(rel: Relations, ms: seq<Sent>, items: seq<O.Item<Content>>)
    requires Session(ms) && SessionEvents(rel, ms) == O.Events(items)
    ensures var r := RunBytes(ByteSink(E.FreshSink(), rel), AllBytes(ms));
            r.Ok? && (r.value.out == O.Committed(items) <==> O.NoSurvivorBeforeAbort(items))
  {
    hide Session, SessionEvents, RunBytes, AllBytes, O.Events, O.Committed, O.NoSurvivorBeforeAbort, E.Run;
    BytesAreEvents(rel, ms);
    T.DeliversCommittedIff(items);
  }
}
