/** Streamed delivery against plain delivery, and what a subtransaction's
    STREAM ABORT costs. */
module StreamTheorems {
  import opened Basics
  import opened StreamEngine
  import opened StreamOutput

  function UnprefixedRow<B>(r: WireRow<B>): WireRow<B> { r.(wireXid := 0) }

  /** The transaction's rows as one BEGIN/COMMIT block would carry them. */
  function Unprefixed<B>(rows: seq<WireRow<B>>): (plain: seq<WireRow<B>>)
    ensures |plain| == |rows| && forall k | 0 <= k < |rows| :: plain[k] == UnprefixedRow(rows[k])
  {
    seq(|rows|, k requires 0 <= k < |rows| => UnprefixedRow(rows[k]))
  }

  /** Output of committing h after items, and of the same transaction sent plain. */
  function StreamedOut<B>(items: seq<Item<B>>, h: Header): seq<Message<B>> {
    Run(Run(FreshSink<B>(), Events(items)).sink, ItemEvents(StreamedCommit(h))).out
  }

  function PlainOut<B>(h: Header, rows: seq<WireRow<B>>): seq<Message<B>> {
    Run(FreshSink<B>(), ItemEvents(Block(h, Unprefixed(rows)))).out
  }

  predicate Flagged<B>(m: Message<B>) { m.change.Dml? && m.change.last }

  lemma BothOutputs<B>(items: seq<Item<B>>, h: Header)
    ensures var rows := OutstandingOf(items, h.xid).recent;
            StreamedOut(items, h) == Delivered(h, rows) && PlainOut(h, rows) == Delivered(h, Unprefixed(rows))
  {
    var rows := OutstandingOf(items, h.xid).recent;
    WholeItems(items);
    var s := Run(FreshSink<B>(), Events(items)).sink;
    var i: Item<B> := StreamedCommit(h);
    assert ItemEvents(i)[..1] == ItemEvents(i);
    ItemOut(s, items, i, 1);
    var none: seq<Item<B>> := [];
    assert Between(FreshSink<B>(), none);
    ClosedBlock(FreshSink<B>(), none, Block(h, Unprefixed(rows)));
  }

  /** However the transaction was cut and whatever was interleaved with it, its
      streamed delivery is the plain one, message by message: same rows, same
      positions, same commit context, same flag. */
  lemma StreamedRefinesPlain<B>(items: seq<Item<B>>, h: Header)
    ensures var rows := OutstandingOf(items, h.xid).recent;
            var streamed, plain := StreamedOut(items, h), PlainOut(h, rows);
            && |streamed| == |plain| == |rows|
            && forall k | 0 <= k < |rows| ::
                 && streamed[k].walStart == plain[k].walStart
                 && streamed[k].change.body == plain[k].change.body
                 && (rows[k].dml ==> streamed[k] == plain[k])
  {
    BothOutputs(items, h);
  }

  /** Only the XID kept by Relation and Truncate messages differs, and that is exactly
      when the two deliveries are not equal. */
  lemma StreamedEqualsPlainIff<B>(items: seq<Item<B>>, h: Header)
    ensures var rows := OutstandingOf(items, h.xid).recent;
            StreamedOut(items, h) == PlainOut(h, rows)
            <==> forall k | 0 <= k < |rows| :: rows[k].dml || rows[k].wireXid == 0
  {
    var rows := OutstandingOf(items, h.xid).recent;
    BothOutputs(items, h);
    var streamed, plain := StreamedOut(items, h), PlainOut(h, rows);
    if streamed == plain {
      forall k | 0 <= k < |rows| ensures rows[k].dml || rows[k].wireXid == 0 {
        assert streamed[k] == plain[k];
      }
    }
  }

  /** Only the last message carries the transaction-end LSN; the last-in-transaction
      flag is on it and nowhere else, and is missing when it is not a DML change. */
  lemma LastMessageOnly<B>(items: seq<Item<B>>, h: Header)
    requires forall r | r in OutstandingOf(items, h.xid).recent :: r.walStart < h.endLsn
    ensures var rows := OutstandingOf(items, h.xid).recent;
            var out := StreamedOut(items, h);
            && |out| == |rows|
            && (forall k | 0 <= k < |out| :: out[k].walStart == h.endLsn <==> k == |out| - 1)
            && (forall k | 0 <= k < |out| :: Flagged(out[k]) <==> k == |out| - 1 && rows[k].dml)
            && (forall k | 0 <= k < |out| && rows[k].dml :: out[k].change.Dml? && out[k].change.commit == h.Context())
  {
    hide StreamedOut, PlainOut, OutstandingOf, Delivered;
    BothOutputs(items, h);
    LastDelivered(h, OutstandingOf(items, h.xid).recent);
  }

  lemma LastDelivered<B>(h: Header, rows: seq<WireRow<B>>)
    requires forall r | r in rows :: r.walStart < h.endLsn
    ensures var out := Delivered(h, rows);
            && (forall k | 0 <= k < |out| :: out[k].walStart == h.endLsn <==> k == |out| - 1)
            && (forall k | 0 <= k < |out| :: Flagged(out[k]) <==> k == |out| - 1 && rows[k].dml)
            && (forall k | 0 <= k < |out| && rows[k].dml :: out[k].change.Dml? && out[k].change.commit == h.Context())
  {
    forall k | 0 <= k < |rows| ensures rows[k].walStart < h.endLsn {
      assert rows[k] in rows;
    }
  }

  lemma {:induction false} KeptLength<B>(items: seq<Item<B>>)
    ensures |Kept(items)| <= |Committed(items)|
    ensures |Kept(items)| == |Committed(items)| <==> NoSurvivorBeforeAbort(items)
    ensures NoSurvivorBeforeAbort(items) ==> Kept(items) == Committed(items)
  {
    if items != [] {
      var n := |items| - 1;
      var init := items[..n];
      KeptLength(init);
      assert forall i | 0 <= i <= n :: init[..i] == items[..i];
      if items[n].StreamedCommit? {
        var o := OutstandingOf(init, items[n].header.xid);
        if o.survived == [] {
          assert o.survived + o.recent == o.recent;
        }
        assert NoSurvivorBeforeAbort(items) <==> NoSurvivorBeforeAbort(init) && o.survived == [];
      } else {
        assert NoSurvivorBeforeAbort(items) <==> NoSurvivorBeforeAbort(init);
      }
    }
  }

  /** The sink delivers what PostgreSQL committed exactly when no committed streamed
      transaction has a row that was sent before one of its own STREAM ABORTs and
      survived it: discardTx drops the whole transaction whatever SubXid says. */
  lemma DeliversCommittedIff<B>(items: seq<Item<B>>)
    ensures Run(FreshSink<B>(), Events(items)).out == Committed(items) <==> NoSurvivorBeforeAbort(items)
  {
    WholeItems(items);
    KeptLength(items);
  }

  /** The channel inside item i of a stream carries what was committed before i and
      what i has released, and after i what was committed, exactly as long as no row
      of a committed transaction survived an abort of its own. */
  lemma CommittedAtEveryPrefix<B>(items: seq<Item<B>>, i: Item<B>, k: nat)
    requires k <= |ItemEvents(i)|
    ensures var out := Run(FreshSink<B>(), Events(items) + ItemEvents(i)[..k]).out;
            && (out == Committed(items) + PartialOut(items, i, k) <==> NoSurvivorBeforeAbort(items))
            && (k == |ItemEvents(i)| ==> (out == Committed(items + [i]) <==> NoSurvivorBeforeAbort(items + [i])))
  {
    hide Run, Step, PartialOut, Committed, Kept, NoSurvivorBeforeAbort;
    OutputAtEveryPrefix(items, i, k);
    KeptLength(items);
    if k == |ItemEvents(i)| {
      assert (items + [i])[..|items|] == items;
      assert ItemEvents(i)[..k] == ItemEvents(i);
      DeliversCommittedIff(items + [i]);
    }
    SameTail(Kept(items), Committed(items), PartialOut(items, i, k));
  }

  lemma SameTail<T>(a: seq<T>, b: seq<T>, tail: seq<T>)
    ensures a + tail == b + tail <==> a == b
  {
    if a + tail == b + tail {
      assert |a| == |b| && (a + tail)[..|a|] == a && (b + tail)[..|b|] == b;
    }
  }

  /** Top-level aborts alone never cost a row. */
  lemma {:induction false} TopLevelAbortsAreSafe<B>(items: seq<Item<B>>)
    requires forall i | 0 <= i < |items| && items[i].Abort? :: items[i].subXid == items[i].xid
    ensures NoSurvivorBeforeAbort(items)
  {
    forall i | 0 <= i < |items| && items[i].StreamedCommit?
      ensures OutstandingOf(items[..i], items[i].header.xid).survived == []
    {
      NothingSurvives(items[..i], items[i].header.xid);
    }
  }

  lemma {:induction false} NothingSurvives<B>(items: seq<Item<B>>, x: Xid)
    requires forall i | 0 <= i < |items| && items[i].Abort? :: items[i].subXid == items[i].xid
    ensures OutstandingOf(items, x).survived == []
  {
    if items != [] { NothingSurvives(items[..|items| - 1], x); }
  }

  /** ROLLBACK TO SAVEPOINT inside a streamed transaction loses a committed row. */
  lemma SubtransactionAbortLosesARow()
    ensures exists items: seq<Item<int>> ::
              |Committed(items)| == 1 && Run(FreshSink<int>(), Events(items)).out == []
  {
    var kept := WireRow(true, 1, 10, 7);
    var rolledBack := WireRow(true, 2, 11, 8);
    var h := Header(7, 20, 21, 0);
    var i0: seq<Item<int>> := [Chunk(7, [kept, rolledBack])];
    var i1 := i0 + [Abort(7, 8)];
    var items := i1 + [StreamedCommit(h)];
    assert i0[..0] == [] && i1[..1] == i0 && items[..2] == i1;
    assert OutstandingOf(i0, 7) == Outstanding([], [] + [kept, rolledBack]);
    assert [] + ([] + [kept, rolledBack]) == [kept, rolledBack];
    assert [kept, rolledBack][1..] == [rolledBack] && [rolledBack][1..] == [];
    assert WithoutSub([rolledBack], 8) == [];
    assert WithoutSub([kept, rolledBack], 8) == [kept];
    assert OutstandingOf(i1, 7) == Outstanding([kept], []);
    assert Committed(i1) == Committed(i0) == [];
    assert Kept(i1) == Kept(i0) == [];
    assert Kept(items) == [] + Delivered(h, []);
    WholeItems(items);
  }
}
