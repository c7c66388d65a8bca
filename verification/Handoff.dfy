/** From the snapshot to the stream: connector.go creates the slot, Prepare captures
    the LSN and then exports the snapshot, and the stream starts at the stored LSN
    once the job is completed. */
module Handoff {
  import opened Basics
  import L = LsnText
  import R = ReplicationRuns

  type TxId = nat

  /** A transaction whose commit record is written. It becomes visible to new
      snapshots later, for instance after a synchronous standby answered. */
  datatype Committed = Committed(commit: Lsn, visible: bool)

  datatype Db = Db(
    walEnd: Lsn, txs: map<TxId, Committed>,
    slot: Option<Lsn>, captured: Option<Lsn>, snapshot: Option<set<TxId>>)

  datatype Action =
    | WriteCommit(t: TxId, size: nat)
    | BecomeVisible(t: TxId)
    | CreateSlot(at: Lsn)
    | CaptureLsn(at: Lsn)
    | ExportSnapshot

  function VisibleSet(s: Db): set<TxId> { set t | t in s.txs && s.txs[t].visible }

  /** The slot's position is not past the end of the log; the captured write
      position is between the two. */
  predicate Enabled(s: Db, a: Action) {
    match a
    case WriteCommit(t, size) => t !in s.txs && size > 0
    case BecomeVisible(t) => t in s.txs
    case CreateSlot(at) => s.slot.None? && at <= s.walEnd
    case CaptureLsn(at) => s.slot.Some? && s.captured.None? && s.slot.value <= at <= s.walEnd
    case ExportSnapshot => s.captured.Some? && s.snapshot.None?
  }

  function Next(s: Db, a: Action): Db
    requires Enabled(s, a)
  {
    match a
    case WriteCommit(t, size) => s.(walEnd := s.walEnd + size, txs := s.txs[t := Committed(s.walEnd, false)])
    case BecomeVisible(t) => s.(txs := s.txs[t := s.txs[t].(visible := true)])
    case CreateSlot(at) => s.(slot := Some(at))
    case CaptureLsn(at) => s.(captured := Some(at))
    case ExportSnapshot => s.(snapshot := Some(VisibleSet(s)))
  }

  ghost predicate Behaviour(states: seq<Db>, actions: seq<Action>) {
    && |states| == |actions| + 1
    && states[0].slot.None? && states[0].captured.None? && states[0].snapshot.None?
    && forall k | 0 <= k < |actions| :: Enabled(states[k], actions[k]) && states[k + 1] == Next(states[k], actions[k])
  }

  /** Committed below the captured LSN but not visible when the snapshot is exported. */
  function Window(s: Db): set<TxId>
    requires s.captured.Some?
  {
    set t | t in s.txs && s.txs[t].commit < s.captured.value && !s.txs[t].visible
  }

  /** In neither the snapshot nor the stream that starts at the captured LSN. */
  function Lost(s: Db): set<TxId>
    requires s.captured.Some? && s.snapshot.Some?
  {
    set t | t in s.txs && s.txs[t].commit < s.captured.value && t !in s.snapshot.value
  }

  /** In both. */
  function DeliveredTwice(s: Db): set<TxId>
    requires s.captured.Some? && s.snapshot.Some?
  {
    set t | t in s.txs && s.captured.value <= s.txs[t].commit && t in s.snapshot.value
  }

  /** What is settled once the snapshot is exported: the captured LSN, the snapshot
      and the commit records below that LSN. */
  ghost predicate Frozen(e: Db, s: Db)
    requires e.captured.Some?
  {
    && s.captured == e.captured && s.slot == e.slot && e.slot.Some? && s.snapshot == Some(VisibleSet(e))
    && e.captured.value <= s.walEnd
    && forall t ::
      (t in s.txs && s.txs[t].commit < e.captured.value) <==> (t in e.txs && e.txs[t].commit < e.captured.value)
  }

  ghost predicate CapturedInLog(s: Db) {
    (s.captured.Some? ==> s.slot.Some? && s.slot.value <= s.captured.value <= s.walEnd)
      && (s.snapshot.Some? ==> s.captured.Some?)
  }

  lemma {:induction false} AlwaysInLog(states: seq<Db>, actions: seq<Action>, k: nat)
    requires Behaviour(states, actions) && k <= |actions|
    ensures CapturedInLog(states[k])
  {
    if k > 0 { AlwaysInLog(states, actions, k - 1); }
  }

  lemma FrozenStep(e: Db, s: Db, a: Action)
    requires e.captured.Some? && Frozen(e, s) && Enabled(s, a)
    ensures Frozen(e, Next(s, a))
  {
    hide VisibleSet;
  }

  lemma {:induction false} StaysFrozen(states: seq<Db>, actions: seq<Action>, k: nat, m: nat)
    requires Behaviour(states, actions) && k < m <= |actions| && actions[k].ExportSnapshot?
    ensures states[k].captured.Some? && Frozen(states[k], states[m])
    decreases m
  {
    hide Next, Enabled, Frozen;
    if m == k + 1 {
      AlwaysInLog(states, actions, k);
      ExportFreezes(states[k]);
      assert Enabled(states[k], actions[k]) && states[k + 1] == Next(states[k], actions[k]);
    } else {
      StaysFrozen(states, actions, k, m - 1);
      assert Enabled(states[m - 1], actions[m - 1]) && states[m - 1 + 1] == Next(states[m - 1], actions[m - 1]);
      FrozenStep(states[k], states[m - 1], actions[m - 1]);
    }
  }

  lemma ExportFreezes(e: Db)
    requires CapturedInLog(e) && Enabled(e, ExportSnapshot)
    ensures e.captured.Some? && Frozen(e, Next(e, ExportSnapshot))
  {
  }

  /** At every later moment exactly the transactions of the window are lost: slot
      creation, then LSN capture, then snapshot export lose nothing if and only if
      no transaction has its commit record below the captured LSN and is still
      invisible at the export. The slot can supply all the rest. */
  lemma LosesExactlyTheWindow(states: seq<Db>, actions: seq<Action>, k: nat, m: nat)
    requires Behaviour(states, actions) && k < m <= |actions| && actions[k].ExportSnapshot?
    ensures var e, s := states[k], states[m];
            && e.captured.Some? && s.captured.Some? && s.snapshot.Some? && s.slot.Some?
            && s.slot.value <= s.captured.value
            && Lost(s) == Window(e)
            && forall t | t in s.txs && t !in Window(e) ::
                 t in s.snapshot.value || s.captured.value <= s.txs[t].commit
  {
    hide Next, Enabled;
    AlwaysInLog(states, actions, k);
    StaysFrozen(states, actions, k, m);
  }

  /** A transaction that became visible between the capture and the export is in
      the snapshot and is streamed again; no other one is. */
  lemma TwiceIsVisibleInBetween(states: seq<Db>, actions: seq<Action>, k: nat, m: nat)
    requires Behaviour(states, actions) && k < m <= |actions| && actions[k].ExportSnapshot?
    ensures var e, s := states[k], states[m];
            && e.captured.Some? && s.captured.Some? && s.snapshot.Some?
            && (forall t | t in DeliveredTwice(s) :: t in VisibleSet(e))
            && forall t | t in VisibleSet(e) :: t !in Lost(s)
  {
    hide Next, Enabled;
    StaysFrozen(states, actions, k, m);
  }

  /** The window exists: a commit record written but not yet visible is enough. */
  lemma WindowLosesATransaction()
    ensures exists states: seq<Db>, actions: seq<Action>, m: nat ::
              Behaviour(states, actions) && m < |states| && states[m].captured.Some? && states[m].snapshot.Some?
                  && 0 in Lost(states[m])
  {
    var s0 := Db(10, map[], None, None, None);
    var s1 := Next(s0, CreateSlot(10));
    var s2 := Next(s1, WriteCommit(0, 5));
    var s3 := Next(s2, CaptureLsn(15));
    var s4 := Next(s3, ExportSnapshot);
    var states, actions := [s0, s1, s2, s3, s4], [CreateSlot(10), WriteCommit(0, 5), CaptureLsn(15), ExportSnapshot];
    assert Behaviour(states, actions);
    assert 0 in Lost(states[4]);
  }

  /** Waiting closes the window: when every transaction in it has become visible, and nothing
      else happened, an export loses nothing, and keeps all that was visible before. */
  lemma {:induction false} WaitingClosesTheWindow(s: Db) returns (steps: seq<TxId>, s': Db)
    requires s.captured.Some?
    ensures s' == AfterVisible(s, steps) && s'.captured == s.captured && Window(s') == {}
    ensures VisibleSet(s) <= VisibleSet(s') && forall t | t in Window(s) :: t in VisibleSet(s')
    decreases |Window(s)|
  {
    if Window(s) == {} {
      steps, s' := [], s;
    } else {
      var t :| t in Window(s);
      var next := Next(s, BecomeVisible(t));
      assert Window(next) == Window(s) - {t};
      assert VisibleSet(next) == VisibleSet(s) + {t};
      var rest;
      rest, s' := WaitingClosesTheWindow(next);
      steps := [t] + rest;
    }
  }

  /** The database after these transactions have become visible, in this order. */
  function AfterVisible(s: Db, steps: seq<TxId>): Db
    decreases |steps|
  {
    if steps == [] || !Enabled(s, BecomeVisible(steps[0])) then s
    else AfterVisible(Next(s, BecomeVisible(steps[0])), steps[1..])
  }

  // ---- where the stream starts ----

  /** One run of fetchSnapshotLSN's query. */
  datatype Poll = QueryFailed | NoJob | JobRow(lsn: string, completed: bool)

  datatype Fetch = StartAt(lsn: Lsn) | GivenUp | Waiting

  predicate Retried(p: Poll) { p.QueryFailed? || (p.JobRow? && !p.completed) }

  /** The first poll that is not retried decides: a completed row gives the position
      its text stands for, a missing row or an unreadable text is fatal. */
  function Ends(polls: seq<Poll>): Fetch {
    if polls == [] then Waiting
    else if Retried(polls[0]) then Ends(polls[1..])
    else if polls[0].JobRow? && L.Parse(polls[0].lsn).Some? then StartAt(L.Parse(polls[0].lsn).value)
    else GivenUp
  }

  /** The retry loop. */
  method FetchSnapshotLsn(polls: seq<Poll>) returns (r: Fetch)
    ensures r == Ends(polls)
  {
    assert polls[0..] == polls;
    for k := 0 to |polls|
      invariant Ends(polls[k..]) == Ends(polls)
    {
      assert polls[k..][1..] == polls[k + 1..];
      match polls[k]
      case QueryFailed =>
      case NoJob => return GivenUp;
      case JobRow(text, completed) =>
        if completed {
          if text == "" {
            return GivenUp;
          }
          var lsn := L.Parse(text);
          return if lsn.Some? then StartAt(lsn.value) else GivenUp;
        }
    }
    r := Waiting;
  }

  /** No poll up to k decided, and poll k does. */
  predicate FirstDecides(polls: seq<Poll>, k: nat) {
    k < |polls| && !Retried(polls[k]) && forall j | 0 <= j < k :: Retried(polls[j])
  }

  lemma DecidesLater(polls: seq<Poll>, k: nat)
    requires polls != [] && Retried(polls[0])
    ensures FirstDecides(polls, k + 1) <==> FirstDecides(polls[1..], k)
    ensures !FirstDecides(polls, 0)
  {
    var rest := polls[1..];
    if FirstDecides(polls, k + 1) {
      forall j | 0 <= j < k ensures Retried(rest[j]) { assert Retried(polls[j + 1]); }
    }
    if FirstDecides(rest, k) {
      forall j | 0 <= j < k + 1 ensures Retried(polls[j]) { if j > 0 { assert Retried(rest[j - 1]); } }
    }
  }

  /** How the wait ends: it goes on while every query failed or the job is not completed;
      the first other answer ends it, with the position a completed row's text stands
      for, or for good when there is no job row or no such position. */
  lemma {:induction false} EndsIff(polls: seq<Poll>)
    ensures Ends(polls).Waiting? <==> forall k | 0 <= k < |polls| :: Retried(polls[k])
    ensures forall k: nat | FirstDecides(polls, k) ::
              if polls[k].NoJob? || L.Parse(polls[k].lsn).None? then Ends(polls) == GivenUp
              else Ends(polls) == StartAt(L.Parse(polls[k].lsn).value)
    decreases |polls|
  {
    hide L.Parse;
    if polls != [] && Retried(polls[0]) {
      var rest := polls[1..];
      EndsIff(rest);
      assert forall k | 0 <= k < |rest| :: rest[k] == polls[k + 1];
      forall k: nat | FirstDecides(polls, k)
        ensures if polls[k].NoJob? || L.Parse(polls[k].lsn).None? then Ends(polls) == GivenUp
                else Ends(polls) == StartAt(L.Parse(polls[k].lsn).value)
      {
        DecidesLater(polls, 0);
        DecidesLater(polls, k - 1);
      }
      if !Ends(polls).Waiting? {
        var k :| 0 <= k < |rest| && !Retried(rest[k]);
        assert !Retried(polls[k + 1]);
      }
    }
  }

  /** Streaming starts at exactly the captured LSN, and only once the job row says
      completed: the text saveJob stores reads back as the same position. */
  lemma {:induction false} StartsAtCapturedLsn(polls: seq<Poll>, captured: Lsn)
    requires captured < L.TWO_64
    requires forall k | 0 <= k < |polls| && polls[k].JobRow? && polls[k].completed :: polls[k].lsn == L.Print(captured)
    ensures Ends(polls).StartAt? ==> Ends(polls).lsn == captured
    ensures Ends(polls).StartAt? <==>
              exists k :: 0 <= k < |polls| && polls[k].JobRow? && polls[k].completed
                && forall j | 0 <= j < k :: Retried(polls[j])
    decreases |polls|
  {
    hide L.Parse, L.Print;
    L.ParsePrint(captured);
    if polls != [] {
      var rest := polls[1..];
      StartsAtCapturedLsn(rest, captured);
      if Retried(polls[0]) {
        if k :| 0 <= k < |rest| && rest[k].JobRow? && rest[k].completed && forall j | 0 <= j < k :: Retried(rest[j]) {
          assert polls[k + 1].JobRow? && forall j | 0 <= j < k + 1 :: Retried(polls[j]);
        }
        if k :|
          0 <= k < |polls| && polls[k].JobRow? && polls[k].completed
          && forall j | 0 <= j < k :: Retried(polls[j]) {
          assert k > 0 && rest[k - 1].JobRow? && forall j | 0 <= j < k - 1 :: Retried(rest[j]);
        }
      }
    }
  }

  // ---- snapshot and stream together ----

  /** w is the log as the database wrote it, streamed from the captured LSN on. */
  ghost predicate StreamsAfter(s: Db, w: R.World, ids: seq<TxId>) {
    && s.captured.Some? && w.base == s.captured.value && |ids| == |w.log|
    && forall j | 0 <= j < |ids| :: ids[j] in s.txs && s.txs[ids[j]].commit == w.log[j].h.commitLsn
  }

  /** Nothing falls between snapshot and stream: if the window was empty at the
      export, then in every run of the stream, at every moment, each change of each
      committed transaction is in the snapshot, or was handed to the listener, or
      lies at or after the slot's position and would be resent. */
  lemma NothingFallsBetween(states: seq<Db>, actions: seq<Action>, k: nat, m: nat, w: R.World, ids: seq<TxId>,
          trace: seq<R.State>, i: nat)
    requires Behaviour(states, actions) && k < m <= |actions| && actions[k].ExportSnapshot?
    requires states[k].captured.Some? && Window(states[k]) == {}
    requires StreamsAfter(states[m], w, ids) && states[m].snapshot.Some?
    requires R.WalFacts(w) && R.Behaviour(w, trace) && i < |trace|
    ensures forall j, r | 0 <= j < |w.log| && 0 <= r < |w.log[j].rows| && (j, r) !in w.heartbeat ::
              || ids[j] in states[m].snapshot.value
              || (j, r) in trace[i].handed
              || (trace[i].flushed <= w.log[j].h.commitLsn && R.StartIndex(w, 0, trace[i].flushed) <= j)
  {
    hide R.WalFacts, R.Behaviour, Behaviour, Frozen, R.StartIndex;
    LosesExactlyTheWindow(states, actions, k, m);
    R.NoChangeSkipped(w, trace, i);
  }
}
