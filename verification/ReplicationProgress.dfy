/** What runs can still do: nothing committed stays out of reach, and what is acknowledged
    is not sent again. */
module ReplicationProgress {
  import opened Basics
  import opened StreamEngine
  import opened StreamOutput
  import opened Stream
  import opened ReplicationRuns

  // ---- one state leading to another ----

  ghost predicate Path(w: World, path: seq<State>, s: State, t: State) {
    && path != [] && path[0] == s && path[|path| - 1] == t
    && forall k | 0 <= k < |path| - 1 :: StepTo(w, path[k], path[k + 1])
  }

  ghost predicate Leads(w: World, s: State, t: State) { exists path :: Path(w, path, s, t) }

  lemma LeadsSelf(w: World, s: State)
    ensures Leads(w, s, s)
  {
    assert Path(w, [s], s, s);
  }

  lemma LeadsOn(w: World, s0: State, s: State, a: Action)
    requires Leads(w, s0, s) && Enabled(w, s, a)
    ensures Leads(w, s0, Next(w, s, a))
  {
    hide Next, Enabled;
    var path :| Path(w, path, s0, s);
    var t := Next(w, s, a);
    var more := path + [t];
    assert StepTo(w, s, t);
    forall k | 0 <= k < |more| - 1 ensures StepTo(w, more[k], more[k + 1]) {
      if k < |path| - 1 { assert StepTo(w, path[k], path[k + 1]); }
    }
    assert Path(w, more, s0, t);
  }

  // ---- catching up ----

  /** A connection between two items. */
  predicate AtRest(s: State) { s.open.None? && s.at == 0 }

  /** What is left of an item that is being sent can be received. */
  lemma {:induction false} ReceiveItem(w: World, s0: State, s: State, i: Item<RowId>) returns (t: State)
    requires WalFacts(w) && Leads(w, s0, s) && Inv(w, s)
    requires if s.open.Some? then s.open == Some(i) else CanSend(w, s.start, s.sent, i)
    ensures Leads(w, s0, t) && Inv(w, t) && AtRest(t) && t.start == s.start && t.sent == s.sent + [i]
    decreases |ItemEvents(i)| - s.at
  {
    hide Inv, WalFacts, CanSend, ItemEvents, Step, Leads;
    InsideItem(w, s, i);
    LeadsOn(w, s0, s, Receive(i, 0));
    NextInv(w, s, Receive(i, 0));
    var u := Next(w, s, Receive(i, 0));
    t := u;
    if s.at + 1 < |ItemEvents(i)| { t := ReceiveItem(w, s0, u, i); }
  }

  lemma InsideItem(w: World, s: State, i: Item<RowId>)
    requires Inv(w, s) && (if s.open.Some? then s.open == Some(i) else CanSend(w, s.start, s.sent, i))
    ensures s.at < |ItemEvents(i)| && Enabled(w, s, Receive(i, 0))
  {
    hide CanSend, Run, Wire, PositionsInv, QueueCovered, AllPlaced, ReplayInv, RowsSeen, SettledBelow, PartialOut;
  }

  /** The next transaction can be sent, as one block. */
  lemma BlockCanBeSent(w: World, start: nat, sent: seq<Item<RowId>>)
    requires start + Commits(sent) < |w.log|
    ensures var tx := w.log[start + Commits(sent)];
            CanSend(w, start, sent, Block(tx.h, tx.rows)) && Commits(sent + [Block(tx.h, tx.rows)]) == Commits(sent) + 1
  {
    var tx := w.log[start + Commits(sent)];
    assert (sent + [Block(tx.h, tx.rows)])[..|sent|] == sent;
  }

  lemma {:induction false} ReceiveRest(w: World, s0: State, s: State) returns (t: State)
    requires WalFacts(w) && Leads(w, s0, s) && Inv(w, s) && AtRest(s) && s.start + Commits(s.sent) <= |w.log|
    ensures Leads(w, s0, t) && Inv(w, t) && AtRest(t) && t.start + Commits(t.sent) == |w.log|
    decreases |w.log| - (s.start + Commits(s.sent))
  {
    hide Inv, WalFacts, CanSend, Commits, Leads;
    t := s;
    var n := s.start + Commits(s.sent);
    if n < |w.log| {
      BlockCanBeSent(w, s.start, s.sent);
      t := ReceiveItem(w, s0, s, Block(w.log[n].h, w.log[n].rows));
      t := ReceiveRest(w, s0, t);
    }
  }

  lemma {:induction false} DeliverAll(w: World, s0: State, s: State) returns (t: State)
    requires WalFacts(w) && Leads(w, s0, s) && Inv(w, s)
    ensures Leads(w, s0, t) && Inv(w, t) && t.queue == []
    ensures t.start == s.start && t.sent == s.sent && t.open == s.open && t.at == s.at
    decreases |s.queue|
  {
    hide Inv, WalFacts, Leads, Consume;
    t := s;
    if s.queue != [] {
      LeadsOn(w, s0, s, Deliver);
      NextInv(w, s, Deliver);
      t := DeliverAll(w, s0, Next(w, s, Deliver));
    }
  }

  /** Everything sent and delivered: nothing owed is left. */
  lemma AllHandedOver(w: World, t: State)
    requires Inv(w, t) && AtRest(t) && t.queue == [] && t.start + Commits(t.sent) == |w.log|
    ensures forall j, r | 0 <= j < |w.log| && 0 <= r < |w.log[j].rows| && (j, r) !in w.heartbeat
                       && w.base <= w.log[j].h.commitLsn :: (j, r) in t.handed
  {
    hide Run, Wire, PositionsInv, QueueCovered, AllPlaced, ReplayInv, BodiesOf, Commits;
    NoBodies();
    assert t.handed + BodiesOf(t.queue) == t.handed;
    assert SettledBelow(w, |w.log|, t.handed);
    forall j, r | 0 <= j < |w.log| && 0 <= r < |w.log[j].rows| && (j, r) !in w.heartbeat
               && w.base <= w.log[j].h.commitLsn
      ensures (j, r) in t.handed
    {
      assert Settled(w, j, t.handed);
      assert Seen(w, j, r, t.handed);
    }
  }

  /** No run gets stuck: whatever was sent, lost, acknowledged or restarted so far, it can
      go on until each change this run owes of each committed transaction was handed to
      the listener. */
  lemma EverythingCanBeHanded(w: World, trace: seq<State>, i: nat) returns (t: State)
    requires WalFacts(w) && Behaviour(w, trace) && i < |trace|
    ensures Leads(w, trace[i], t)
    ensures forall j, r | 0 <= j < |w.log| && 0 <= r < |w.log[j].rows| && (j, r) !in w.heartbeat
                       && w.base <= w.log[j].h.commitLsn :: (j, r) in t.handed
  {
    hide Inv, WalFacts, Behaviour, Leads, StartIndex;
    var s := trace[i];
    BehaviourInv(w, trace, i);
    LeadsSelf(w, s);
    LeadsOn(w, s, s, Reconnect);
    NextInv(w, s, Reconnect);
    var u := Next(w, s, Reconnect);
    StartInLog(w, s.flushed);
    u := ReceiveRest(w, s, u);
    t := DeliverAll(w, s, u);
    AllHandedOver(w, t);
  }

  lemma StartInLog(w: World, flushed: Lsn)
    ensures StartIndex(w, 0, flushed) <= |w.log|
  {
  }

  // ---- acknowledged means not sent again ----

  /** A status update carries the confirmed position to the slot. */
  lemma StatusReachesSlot(w: World, s0: State, s: State) returns (t: State)
    requires Leads(w, s0, s)
    ensures Leads(w, s0, t) && s.progress.confirmed <= t.flushed
  {
    hide Leads;
    t := s;
    if s.progress.confirmed > 0 {
      LeadsOn(w, s0, s, SendStatus);
      t := Next(w, s, SendStatus);
      LeadsOn(w, s0, t, ApplyStatus(s.progress.confirmed, false));
      t := Next(w, t, ApplyStatus(s.progress.confirmed, false));
    }
  }

  /** Applying a status update raises the slot to it or, when the server is set back by it,
      puts the slot at it; nothing else changes. */
  lemma StatusApplied(w: World, s: State, lsn: Lsn)
    requires lsn in s.inflight && lsn != 0
    ensures Enabled(w, s, ApplyStatus(lsn, false)) && Enabled(w, s, ApplyStatus(lsn, true))
    ensures var t := Next(w, s, ApplyStatus(lsn, false));
            s.flushed <= t.flushed && lsn <= t.flushed && (t.flushed == s.flushed || t.flushed == lsn)
    ensures Next(w, s, ApplyStatus(lsn, true)).flushed == lsn
    ensures forall b: bool :: Next(w, s, ApplyStatus(lsn, b)).handed == s.handed
                              && Next(w, s, ApplyStatus(lsn, b)).progress == s.progress
  {
  }

  /** A slot past the end of a transaction: the next connection starts after it. */
  lemma StartsAfter(w: World, s: State, j: nat)
    requires WalFacts(w) && j < |w.log| && w.log[j].h.endLsn <= s.flushed
    ensures j < Next(w, s, Reconnect).start && j < Next(w, s, ProcessRestart).start
  {
    assert forall k | 0 <= k <= j :: w.log[k].h.commitLsn < s.flushed;
  }

  /** At every moment of every run an acknowledgement of a delivered message can reach
      the slot; and once the last message of a transaction is acknowledged so, no later
      connection sends that transaction again. */
  lemma AcknowledgedIsNotResent(w: World, trace: seq<State>, i: nat, k: nat) returns (t: State)
    requires WalFacts(w) && Behaviour(w, trace) && i < |trace| && k < |trace[i].progress.delivered|
    ensures var m := trace[i].progress.delivered[k];
            && Leads(w, trace[i], t) && m.walStart <= t.flushed
            && m.change.body.0 < |w.log| && m.change.body.1 < |w.log[m.change.body.0].rows|
            && (m.change.body.1 == |w.log[m.change.body.0].rows| - 1 ==>
                  m.change.body.0 < Next(w, t, Reconnect).start && m.change.body.0 < Next(w, t, ProcessRestart).start)
  {
    hide WalFacts, Behaviour, Leads, ConnectionInv, PositionsInv, QueueCovered, StartIndex;
    var s := trace[i];
    BehaviourInv(w, trace, i);
    var m := s.progress.delivered[k];
    assert Placed(w, m);
    LeadsSelf(w, s);
    LeadsOn(w, s, s, Ack(m.walStart));
    t := StatusReachesSlot(w, s, Next(w, s, Ack(m.walStart)));
    if m.change.body.1 == |w.log[m.change.body.0].rows| - 1 { StartsAfter(w, t, m.change.body.0); }
  }

  // ---- beginnings and restarts ----

  /** A run can begin from a snapshot with the slot anywhere up to its LSN, or without one at
      the slot's position; as a restarted process does, it begins with nothing confirmed,
      delivered, queued or counted. */
  lemma RunsBegin(w: World, flushed: Lsn, fromSnapshot: bool) returns (s: State)
    requires if fromSnapshot then flushed <= w.base else flushed == w.base
    ensures Behaviour(w, [s]) && s.flushed == flushed && s.fromSnapshot == fromSnapshot
    ensures s.progress == Progress(0, 0, 0, 0, []) && s.queue == [] && s.handed == {} && s.redelivered == 0
    ensures forall u: State :: var r := Next(w, u, ProcessRestart);
              && r.progress == s.progress && r.queue == s.queue && r.marked == s.marked && r.redelivered == 0
              && r.handed == u.handed && r.flushed == u.flushed
  {
    hide StartIndex;
    s := State(flushed, {}, StartIndex(w, if fromSnapshot then w.base else 0, flushed), [], None, 0, 0, fromSnapshot,
               FreshSink(), [], Progress(0, 0, 0, 0, []), {}, {}, 0);
  }

  /** A server restart can put the slot back to any earlier position. From there the next
      connection starts no later than before, and nothing owed is lost by it. */
  lemma SlotCanFallBack(w: World, trace: seq<State>, i: nat, durable: Lsn) returns (t: State)
    requires WalFacts(w) && Behaviour(w, trace) && i < |trace| && durable <= trace[i].flushed
    ensures Leads(w, trace[i], t) && t.flushed == durable && t.handed == trace[i].handed
    ensures Next(w, t, Reconnect).start <= StartIndex(w, 0, trace[i].flushed)
  {
    hide Leads, WalFacts, Behaviour;
    var s := trace[i];
    LeadsSelf(w, s);
    LeadsOn(w, s, s, ServerRestart(durable));
    t := Next(w, s, ServerRestart(durable));
  }

  // ---- why a reconnect forgets its position ----

  /** The received position runs ahead of what was handed over: resuming from it instead
      of from 0/0 would pass over every transaction committed below it. */
  lemma ReceivedRunsAhead(w: World, s: State, a: Action, j: nat)
    requires j < |w.log| && (forall k | 0 <= k <= j :: w.log[k].h.commitLsn <= w.log[j].h.commitLsn)
    requires Enabled(w, s, a) && ((a.Keepalive? && w.log[j].h.commitLsn < a.serverWalEnd)
                                  || (a.Receive? && s.at < |ItemEvents(a.item)| && w.log[j].h.commitLsn < a.walEnd))
    ensures var t := Next(w, s, a); j < StartIndex(w, t.received, t.flushed)
  {
    hide Step, ItemEvents;
  }
}
