/** Sessions built of whole BEGIN/COMMIT blocks, streamed chunks, streamed commits and
    aborts: their bytes deliver what was committed. */
module SessionItems {
  import opened Basics
  import opened Pgoutput
  import P = PgoutputEncoding
  import opened WireToSink
  import E = StreamEngine
  import O = StreamOutput
  import T = StreamTheorems

  /** A stretch of a session, with the messages that delimit it. */
  datatype Stretch =
    | Block(begin: Sent, blockRows: seq<Sent>, commit: Sent)
    | Chunk(start: Sent, chunkRows: seq<Sent>, stop: Sent)
    | Single(message: Sent)

  predicate AllRows(rows: seq<Sent>) { forall k | 0 <= k < |rows| :: rows[k].payload.Row? }

  /** Each delimiter is of its kind, and a block's BEGIN announces its COMMIT. */
  predicate Shaped(w: Stretch) {
    match w
    case Block(b, rows, c) =>
      && b.payload.Ctl? && b.payload.control.Begin? && c.payload.Ctl? && c.payload.control.Commit? && AllRows(rows)
      && b.payload.control.finalLsn == c.payload.control.commitLsn
      && b.payload.control.commitTime == c.payload.control.commitTime
    case Chunk(b, rows, e) =>
      b.payload.Ctl? && b.payload.control.StreamStart? && e.payload == Ctl(StreamStop) && AllRows(rows)
    case Single(m) => m.payload.Ctl? && (m.payload.control.StreamCommit? || m.payload.control.StreamAbort?)
  }

  function Messages(w: Stretch): seq<Sent> {
    match w
    case Block(b, rows, c) => [b] + rows + [c]
    case Chunk(b, rows, e) => [b] + rows + [e]
    case Single(m) => [m]
  }

  function Flat(ws: seq<Stretch>): seq<Sent> {
    if ws == [] then [] else Flat(ws[..|ws| - 1]) + Messages(ws[|ws| - 1])
  }

  // ---- the items they mean ----

  lemma PrefixSession(a: seq<Sent>, b: seq<Sent>)
    requires Session(a + b)
    ensures Session(a)
  {
    forall k | 0 <= k < |a| ensures SentOk(a[..k], a[k]) {
      assert (a + b)[..k] == a[..k] && (a + b)[k] == a[k];
    }
  }

  lemma LastSentOk(a: seq<Sent>, m: Sent)
    requires Session(a + [m])
    ensures SentOk(a, m)
  {
    assert (a + [m])[..|a|] == a && (a + [m])[|a|] == m;
  }

  function WireRowOf(row: RowMessage, walStart: nat, clock: int): O.WireRow<Content> {
    O.WireRow(row.Insert? || row.Update? || row.Delete?, ContentOf(row, clock), walStart, WireXid(row))
  }

  /** The rows a sequence of row messages means; an insert without columns is none. */
  ghost function RowsOf(rel: Relations, before: seq<Sent>, rows: seq<Sent>): seq<O.WireRow<Content>>
    requires Session(before + rows) && AllRows(rows)
    decreases |rows|
  {
    if rows == [] then []
    else
      var init, m := rows[..|rows| - 1], rows[|rows| - 1];
      assert before + rows == (before + init) + [m];
      PrefixSession(before + init, [m]);
      LastSentOk(before + init, m);
      SentUnderstood(rel, before + init, m);
      if ColumnlessInsert(m.payload) then RowsOf(rel, before, init)
      else
        RowsOf(rel, before, init)
        + [WireRowOf(Meant(m, RelationsAfter(rel, before + init)).row, m.walStart, m.clock)]
  }

  /** What stretch w of a session means, after the messages before it. */
  ghost function ItemOf(rel: Relations, before: seq<Sent>, w: Stretch): O.Item<Content>
    requires Shaped(w) && Session(before + Messages(w))
  {
    match w
    case Block(b, rows, c) =>
      RowsInSession(before, b, rows, c);
      var begin, commit := b.payload.control, c.payload.control;
      O.Block(O.Header(begin.xid, commit.commitLsn, commit.endLsn, commit.commitTime), RowsOf(rel, before + [b], rows))
    case Chunk(b, rows, e) =>
      RowsInSession(before, b, rows, e);
      O.Chunk(b.payload.control.xid, RowsOf(rel, before + [b], rows))
    case Single(m) =>
      var c := m.payload.control;
      if c.StreamCommit? then O.StreamedCommit(O.Header(c.xid, c.commitLsn, c.endLsn, c.commitTime))
      else O.Abort(c.xid, c.subXid)
  }

  lemma RowsInSession(before: seq<Sent>, b: Sent, rows: seq<Sent>, e: Sent)
    requires Session(before + ([b] + rows + [e]))
    ensures Session(before + [b] + rows) && Session(before + [b])
  {
    assert before + ([b] + rows + [e]) == (before + [b] + rows) + [e];
    PrefixSession(before + [b] + rows, [e]);
    PrefixSession(before + [b], rows);
  }

  ghost function ItemsOf(rel: Relations, ws: seq<Stretch>): seq<O.Item<Content>>
    requires Session(Flat(ws)) && forall w | w in ws :: Shaped(w)
  {
    if ws == [] then []
    else
      var init, w := ws[..|ws| - 1], ws[|ws| - 1];
      assert w in ws && forall x | x in init :: x in ws;
      PrefixSession(Flat(init), Messages(w));
      ItemsOf(rel, init) + [ItemOf(rel, Flat(init), w)]
  }

  // ---- the items are what the server says ----

  /** The wire rows are the row messages one by one, but for inserts without columns. */
  ghost predicate RowsMean(wire: seq<O.WireRow<Content>>, rel: Relations, before: seq<Sent>, rows: seq<Sent>)
    requires Session(before + rows) && AllRows(rows)
    decreases |rows|
  {
    if rows == [] then wire == []
    else
      var init, m := rows[..|rows| - 1], rows[|rows| - 1];
      assert before + rows == (before + init) + [m];
      PrefixSession(before + init, [m]);
      LastSentOk(before + init, m);
      SentUnderstood(rel, before + init, m);
      if ColumnlessInsert(m.payload) then RowsMean(wire, rel, before, init)
      else
        && wire != [] && RowMeans(wire[|wire| - 1], m, RelationsAfter(rel, before + init))
        && RowsMean(wire[..|wire| - 1], rel, before, init)
  }

  /** Item i says what the messages of stretch w say. */
  ghost predicate ItemMeans(i: O.Item<Content>, rel: Relations, before: seq<Sent>, w: Stretch)
    requires Shaped(w) && Session(before + Messages(w))
  {
    match w
    case Block(b, rows, c) =>
      RowsInSession(before, b, rows, c);
      && i.Block? && i.h.xid == b.payload.control.xid && i.h.commitLsn == c.payload.control.commitLsn
      && i.h.endLsn == c.payload.control.endLsn && i.h.time == c.payload.control.commitTime
      && RowsMean(i.rows, rel, before + [b], rows)
    case Chunk(b, rows, e) =>
      RowsInSession(before, b, rows, e);
      i.Chunk? && i.xid == b.payload.control.xid && RowsMean(i.chunk, rel, before + [b], rows)
    case Single(m) =>
      var c := m.payload.control;
      if c.StreamCommit? then i == O.StreamedCommit(O.Header(c.xid, c.commitLsn, c.endLsn, c.commitTime))
      else i == O.Abort(c.xid, c.subXid)
  }

  ghost predicate ItemsMean(items: seq<O.Item<Content>>, rel: Relations, ws: seq<Stretch>)
    requires Session(Flat(ws)) && forall w | w in ws :: Shaped(w)
    decreases |ws|
  {
    if ws == [] then items == []
    else
      var init, w := ws[..|ws| - 1], ws[|ws| - 1];
      assert w in ws && forall x | x in init :: x in ws;
      PrefixSession(Flat(init), Messages(w));
      && items != [] && ItemMeans(items[|items| - 1], rel, Flat(init), w)
      && ItemsMean(items[..|items| - 1], rel, init)
  }

  lemma MeantRow(m: Sent, rel: Relations)
    requires m.payload.Row? && Understood(m, rel)
    ensures Meant(m, rel).RowLevel? && RowMeans(WireRowOf(Meant(m, rel).row, m.walStart, m.clock), m, rel)
  {
    hide Shows, ContentOf, P.Meaning, P.RowEncodable, P.RelationColumnEncodable, P.NoZero, WireXid;
    ContentShows(m.payload.message, m.payload.prefix, rel, m.clock);
  }

  lemma {:induction false} RowsAreMeant(rel: Relations, before: seq<Sent>, rows: seq<Sent>)
    requires Session(before + rows) && AllRows(rows)
    ensures RowsMean(RowsOf(rel, before, rows), rel, before, rows)
    decreases |rows|
  {
    hide Session, SentOk, Understood, RelationsAfter, RowMeans, ContentOf, ColumnlessInsert, WireXid, Meant;
    if rows != [] {
      var init, m := rows[..|rows| - 1], rows[|rows| - 1];
      assert before + rows == (before + init) + [m];
      PrefixSession(before + init, [m]);
      LastSentOk(before + init, m);
      SentUnderstood(rel, before + init, m);
      RowsAreMeant(rel, before, init);
      MeantRow(m, RelationsAfter(rel, before + init));
      var wire := RowsOf(rel, before, rows);
      if !ColumnlessInsert(m.payload) { assert wire[..|wire| - 1] == RowsOf(rel, before, init); }
    }
  }

  lemma ItemIsMeant(rel: Relations, before: seq<Sent>, w: Stretch)
    requires Shaped(w) && Session(before + Messages(w))
    ensures ItemMeans(ItemOf(rel, before, w), rel, before, w)
  {
    hide Session, RowsOf, RowsMean;
    match w {
      case Block(b, rows, c) => RowsInSession(before, b, rows, c); RowsAreMeant(rel, before + [b], rows);
      case Chunk(b, rows, e) => RowsInSession(before, b, rows, e); RowsAreMeant(rel, before + [b], rows);
      case Single(m) =>
    }
  }

  /** Every item has the XID, positions and time of its delimiting messages, and its rows
      have the tables, values, times, positions and XIDs of its row messages. */
  lemma {:induction false} ItemsAreMeant(rel: Relations, ws: seq<Stretch>)
    requires Session(Flat(ws)) && forall w | w in ws :: Shaped(w)
    ensures ItemsMean(ItemsOf(rel, ws), rel, ws)
    decreases |ws|
  {
    hide Session, ItemOf, ItemMeans, Shaped, Messages;
    if ws != [] {
      var init, w := ws[..|ws| - 1], ws[|ws| - 1];
      assert w in ws && forall x | x in init :: x in ws;
      PrefixSession(Flat(init), Messages(w));
      ItemsAreMeant(rel, init);
      ItemIsMeant(rel, Flat(init), w);
      var items := ItemsOf(rel, ws);
      assert items[..|items| - 1] == ItemsOf(rel, init);
    }
  }

  // ---- their events are the session's ----

  lemma EventsSnoc(rel: Relations, before: seq<Sent>, m: Sent)
    requires Session(before + [m])
    ensures Session(before) && SentOk(before, m) && Understood(m, RelationsAfter(rel, before))
    ensures SessionEvents(rel, before + [m])
         == if ColumnlessInsert(m.payload) then SessionEvents(rel, before)
            else SessionEvents(rel, before) + [EventOf(Meant(m, RelationsAfter(rel, before)), m.walStart, m.clock)]
  {
    hide EventOf, Meant, RelationsAfter, SentOk, Understood, ColumnlessInsert;
    PrefixSession(before, [m]);
    LastSentOk(before, m);
    SentUnderstood(rel, before, m);
    assert (before + [m])[..|before|] == before;
  }

  lemma ControlSnoc(rel: Relations, before: seq<Sent>, m: Sent)
    requires Session(before + [m]) && m.payload.Ctl?
    ensures Session(before)
    ensures SessionEvents(rel, before + [m]) == SessionEvents(rel, before)
        + [EventOf(Control(m.payload.control), m.walStart, m.clock)]
  {
    hide EventOf, RelationsAfter, SentOk, Session, SessionEvents;
    EventsSnoc(rel, before, m);
  }

  lemma {:induction false} RowsSnoc(rel: Relations, before: seq<Sent>, rows: seq<Sent>)
    requires Session(before + rows) && AllRows(rows)
    ensures Session(before)
    ensures SessionEvents(rel, before + rows) == SessionEvents(rel, before) + O.RowEvents(RowsOf(rel, before, rows))
    decreases |rows|
  {
    hide Session, SessionEvents, SentOk, Understood, RelationsAfter, ContentOf, WireXid;
    if rows == [] {
      assert before + rows == before;
      assert O.RowEvents(RowsOf(rel, before, rows)) == [];
    } else {
      var init, m := rows[..|rows| - 1], rows[|rows| - 1];
      assert before + rows == (before + init) + [m];
      PrefixSession(before + init, [m]);
      RowsSnoc(rel, before, init);
      EventsSnoc(rel, before + init, m);
      if !ColumnlessInsert(m.payload) {
        var r := WireRowOf(Meant(m, RelationsAfter(rel, before + init)).row, m.walStart, m.clock);
        RowEvent(m, RelationsAfter(rel, before + init));
        RowEventsSnoc(RowsOf(rel, before, init), r);
      }
    }
  }

  lemma RowEvent(m: Sent, rel: Relations)
    requires m.payload.Row? && Understood(m, rel)
    ensures Meant(m, rel).RowLevel?
    ensures var r := WireRowOf(Meant(m, rel).row, m.walStart, m.clock);
            EventOf(Meant(m, rel), m.walStart, m.clock) == E.Row(r.walStart, O.Decoded(r))
  {
    hide Understood, ContentOf, WireXid;
  }

  lemma RowEventsSnoc(rows: seq<O.WireRow<Content>>, r: O.WireRow<Content>)
    ensures O.RowEvents(rows + [r]) == O.RowEvents(rows) + [E.Row(r.walStart, O.Decoded(r))]
  {
  }

  lemma DelimitedEvents(rel: Relations, before: seq<Sent>, b: Sent, rows: seq<Sent>, e: Sent)
    requires b.payload.Ctl? && e.payload.Ctl? && AllRows(rows) && Session(before + ([b] + rows + [e]))
    ensures Session(before) && Session(before + [b] + rows)
    ensures SessionEvents(rel, before + ([b] + rows + [e]))
         == SessionEvents(rel, before)
            + ([EventOf(Control(b.payload.control), b.walStart, b.clock)] + O.RowEvents(RowsOf(rel, before + [b], rows))
               + [EventOf(Control(e.payload.control), e.walStart, e.clock)])
  {
    hide Session, SessionEvents, RowsOf, EventOf;
    RowsInSession(before, b, rows, e);
    assert before + ([b] + rows + [e]) == (before + [b] + rows) + [e];
    ControlSnoc(rel, before, b);
    RowsSnoc(rel, before + [b], rows);
    ControlSnoc(rel, before + [b] + rows, e);
  }

  lemma ItemEventsAre(rel: Relations, before: seq<Sent>, w: Stretch)
    requires Shaped(w) && Session(before + Messages(w))
    ensures Session(before)
    ensures SessionEvents(rel, before + Messages(w)) == SessionEvents(rel, before)
        + O.ItemEvents(ItemOf(rel, before, w))
  {
    hide Session, SessionEvents, RowsOf;
    match w {
      case Block(b, rows, c) => DelimitedEvents(rel, before, b, rows, c);
      case Chunk(b, rows, e) => DelimitedEvents(rel, before, b, rows, e);
      case Single(m) => ControlSnoc(rel, before, m);
    }
  }

  lemma {:induction false} EventsOfItems(rel: Relations, ws: seq<Stretch>)
    requires Session(Flat(ws)) && forall w | w in ws :: Shaped(w)
    ensures SessionEvents(rel, Flat(ws)) == O.Events(ItemsOf(rel, ws))
  {
    hide Session, SessionEvents, ItemOf, Shaped, O.ItemEvents, Messages;
    if ws == [] {
      NoEvents(rel);
    } else {
      var init, w := ws[..|ws| - 1], ws[|ws| - 1];
      assert w in ws && forall x | x in init :: x in ws;
      PrefixSession(Flat(init), Messages(w));
      EventsOfItems(rel, init);
      ItemEventsAre(rel, Flat(init), w);
      var items, i := ItemsOf(rel, init), ItemOf(rel, Flat(init), w);
      assert ItemsOf(rel, ws) == items + [i];
      assert (items + [i])[..|items|] == items;
    }
  }

  lemma NoEvents(rel: Relations)
    ensures Session([]) && SessionEvents(rel, []) == []
  {
  }

  /** From the bytes of any session of blocks, interleaved chunks, commits and aborts to
      the channel: nothing panics, and it carries what PostgreSQL committed, with the
      values, tables and times the server sent, exactly when no row of a committed
      transaction survived one of its own STREAM ABORTs. */
  lemma SessionDeliversCommittedIff(rel: Relations, ws: seq<Stretch>)
    requires Session(Flat(ws)) && forall w | w in ws :: Shaped(w)
    ensures var r := RunBytes(ByteSink(E.FreshSink(), rel), AllBytes(Flat(ws)));
            var items := ItemsOf(rel, ws);
            && r.Ok? && (r.value.out == O.Committed(items) <==> O.NoSurvivorBeforeAbort(items))
            && ItemsMean(items, rel, ws)
  {
    hide Session, SessionEvents, RunBytes, AllBytes, ItemsOf, ItemsMean, Flat, Shaped, O.Events, O.Committed,
         O.NoSurvivorBeforeAbort;
    EventsOfItems(rel, ws);
    ItemsAreMeant(rel, ws);
    BytesDeliverCommittedIff(rel, Flat(ws), ItemsOf(rel, ws));
  }
}
