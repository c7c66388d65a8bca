/** Who may claim a chunk, and from when on. */
module LeaseSafety {
  import opened Basics
  import opened SnapshotProtocol
  import S = SnapshotSoundness

  predicate Claims(a: Action, id: ChunkId) { a.Claim? && a.id == id }

  /** The time of the last claim or heartbeat of a chunk. */
  function LastTouch(actions: seq<Action>, id: ChunkId): Option<nat> {
    if actions == [] then None
    else
      var a := actions[|actions| - 1];
      if (a.Claim? || a.Heartbeat?) && a.id == id then Some(a.now) else LastTouch(actions[..|actions| - 1], id)
  }

  predicate ClaimedIn(actions: seq<Action>, id: ChunkId) { exists k | 0 <= k < |actions| :: Claims(actions[k], id) }

  /** A row against the run so far: pending until first claimed, and its heartbeat is
      the last touch, in whole seconds. */
  ghost predicate RowFits(t: ChunkTable, id: ChunkId, claimed: bool, touch: Option<nat>) {
    id in t ==>
      && (t[id].status.Pending? ==> !claimed)
      && (t[id].status.InProgress? ==> claimed && touch.Some? && t[id].heartbeat == Some(Stamp(touch.value)))
  }

  predicate NoRelease(actions: seq<Action>) { forall k | 0 <= k < |actions| :: !actions[k].Release? }

  /** Ids of rows still to come have no history. */
  ghost predicate Unborn(s: State, actions: seq<Action>) {
    forall id: ChunkId | ClaimedIn(actions, id) :: id < s.nextId
  }

  ghost predicate RowsInTable(s: State) { forall id | id in s.chunks :: id < s.nextId }

  lemma RowsPreparing(s: State, a: Action, id: ChunkId)
    requires Preparing(a) && CanPrepare(s, a) && RowsInTable(s)
    ensures var s' := Prepare(s, a);
            && s.nextId <= s'.nextId && RowsInTable(s')
            && (id in s'.chunks ==>
                  (id in s.chunks && s'.chunks[id] == s.chunks[id])
                  || (s.nextId <= id && s'.chunks[id].status.Pending?))
  {
    hide Prepare, Inserted;
    S.ChunksPreparing(s, a);
  }

  lemma RowExecuting(s: State, a: Action, id: ChunkId)
    requires !Preparing(a) && CanExecute(s, a) && !a.Release?
    ensures var t, t' := s.chunks, Execute(s, a).chunks;
            && Execute(s, a).nextId == s.nextId && t'.Keys == t.Keys
            && (id in t ==>
                  if Claims(a, id) then t'[id].status.InProgress? && t'[id].heartbeat == Some(Stamp(a.now))
                    && Claimable(t[id], a.now, a.timeout)
                  else if a.Heartbeat? && a.id == id then t'[id].status == t[id].status
                      && t'[id].heartbeat == Some(Stamp(a.now))
                  else t'[id].status.Completed? || t'[id] == t[id])
            && (id in t && t[id].status.Completed? ==> t'[id].status.Completed?)
            && (Claims(a, id) ==> id in t)
  {
    hide ExecuteWorker, AllCompleted, Stamp;
  }

  lemma ClaimedSnoc(actions: seq<Action>, a: Action, id: ChunkId)
    ensures ClaimedIn(actions + [a], id) <==> ClaimedIn(actions, id) || Claims(a, id)
    ensures LastTouch(actions + [a], id) == if (a.Claim? || a.Heartbeat?) && a.id == id then Some(a.now)
        else LastTouch(actions, id)
  {
    var more := actions + [a];
    assert more[..|actions|] == actions && more[|actions|] == a;
    assert forall k | 0 <= k < |actions| :: more[k] == actions[k];
    if Claims(a, id) { assert Claims(more[|actions|], id); }
    if ClaimedIn(actions, id) {
      var k :| 0 <= k < |actions| && Claims(actions[k], id);
      assert Claims(more[k], id);
    }
  }

  lemma UnbornStep(s: State, a: Action, actions: seq<Action>, id: ChunkId)
    requires Enabled(s, a) && RowsInTable(s) && Unborn(s, actions) && !a.Release?
    ensures RowsInTable(Apply(s, a)) && Unborn(Apply(s, a), actions + [a])
  {
    hide Prepare, Execute, CanPrepare, CanExecute, ClaimedIn, LastTouch;
    var s' := Apply(s, a);
    if Preparing(a) {
      RowsPreparing(s, a, id);
    } else {
      RowExecuting(s, a, id);
    }
    forall x: ChunkId | ClaimedIn(actions + [a], x) ensures x < s'.nextId {
      ClaimedSnoc(actions, a, x);
      if !Preparing(a) { RowExecuting(s, a, x); }
    }
  }

  lemma FitsStep(s: State, a: Action, actions: seq<Action>, id: ChunkId)
    requires Enabled(s, a) && RowsInTable(s) && Unborn(s, actions) && !a.Release?
    requires RowFits(s.chunks, id, ClaimedIn(actions, id), LastTouch(actions, id))
    ensures RowFits(Apply(s, a).chunks, id, ClaimedIn(actions + [a], id), LastTouch(actions + [a], id))
  {
    hide Prepare, Execute, CanPrepare, CanExecute, ClaimedIn, LastTouch, Stamp, Claimable;
    ClaimedSnoc(actions, a, id);
    if Preparing(a) {
      RowsPreparing(s, a, id);
    } else {
      RowExecuting(s, a, id);
    }
  }

  lemma {:induction false} AlwaysFits(states: seq<State>, actions: seq<Action>, k: nat, id: ChunkId)
    requires Behaviour(states, actions) && k <= |actions| && NoRelease(actions)
    ensures RowsInTable(states[k]) && Unborn(states[k], actions[..k])
    ensures RowFits(states[k].chunks, id, ClaimedIn(actions[..k], id), LastTouch(actions[..k], id))
    decreases k
  {
    hide Apply, Enabled, ClaimedIn, LastTouch, RowFits, Unborn, RowsInTable;
    if k == 0 {
      assert actions[..0] == [];
      NothingYet(id);
    } else {
      AlwaysFits(states, actions, k - 1, id);
      assert Step(states[k - 1], actions[k - 1], states[k - 1 + 1]);
      assert actions[..k] == actions[..k - 1] + [actions[k - 1]];
      UnbornStep(states[k - 1], actions[k - 1], actions[..k - 1], id);
      FitsStep(states[k - 1], actions[k - 1], actions[..k - 1], id);
    }
  }

  lemma NothingYet(id: ChunkId)
    ensures RowsInTable(INIT) && Unborn(INIT, []) && RowFits(INIT.chunks, id, ClaimedIn([], id), LastTouch([], id))
  {
  }

  /** Lease safety: without an invalid-snapshot release, a claim is the chunk's first,
      or the chunk is uncompleted and its last claim or heartbeat is more than the
      claim timeout ago. */
  lemma ClaimedAgainOnlyWhenStale(states: seq<State>, actions: seq<Action>, k: nat)
    requires Behaviour(states, actions) && k < |actions| && NoRelease(actions) && actions[k].Claim?
    ensures var id, now, timeout := actions[k].id, actions[k].now, actions[k].timeout;
            && id in states[k].chunks && !states[k].chunks[id].status.Completed?
            && (ClaimedIn(actions[..k], id) ==>
                  var touch := LastTouch(actions[..k], id);
                  touch.Some? && touch.value + timeout < now)
  {
    hide Apply, ClaimedIn, LastTouch, Behaviour;
    var id := actions[k].id;
    AlwaysFits(states, actions, k, id);
    StepAt(states, actions, k);
  }

  lemma StepAt(states: seq<State>, actions: seq<Action>, k: nat)
    requires Behaviour(states, actions) && k < |actions|
    ensures Enabled(states[k], actions[k]) && states[k + 1] == Apply(states[k], actions[k])
  {
    assert Step(states[k], actions[k], states[k + 1]);
  }

  /** Without a release a completed chunk stays completed while it exists, and is
      never claimed again. */
  lemma {:induction false} CompletedStaysCompleted(states: seq<State>, actions: seq<Action>, j: nat, k: nat,
          id: ChunkId)
    requires Behaviour(states, actions) && j <= k <= |actions| && NoRelease(actions)
    requires id in states[j].chunks && states[j].chunks[id].status.Completed?
    ensures id in states[k].chunks ==> states[k].chunks[id].status.Completed?
    ensures k < |actions| ==> !Claims(actions[k], id)
    decreases k
  {
    hide Apply, Enabled, Claimable;
    if j < k {
      CompletedStaysCompleted(states, actions, j, k - 1, id);
      StepAt(states, actions, k - 1);
      AlwaysFits(states, actions, k - 1, id);
      AlwaysFits(states, actions, j, id);
      IdsGrow(states, actions, j, k - 1);
      CompletedStep(states[k - 1], actions[k - 1], id);
    }
    if k < |actions| {
      StepAt(states, actions, k);
      ClaimNeedsOpenRow(states[k], actions[k], id);
    }
  }

  lemma ClaimNeedsOpenRow(s: State, a: Action, id: ChunkId)
    requires Enabled(s, a) && (id in s.chunks ==> s.chunks[id].status.Completed?)
    ensures !Claims(a, id)
  {
  }

  lemma CompletedStep(s: State, a: Action, id: ChunkId)
    requires Enabled(s, a) && RowsInTable(s) && !a.Release? && id < s.nextId
    requires id in s.chunks ==> s.chunks[id].status.Completed?
    ensures id in Apply(s, a).chunks ==> Apply(s, a).chunks[id].status.Completed?
  {
    hide Prepare, Execute, CanPrepare, CanExecute, Stamp, Claimable;
    if Preparing(a) { RowsPreparing(s, a, id); } else { RowExecuting(s, a, id); }
  }

  lemma {:induction false} IdsGrow(states: seq<State>, actions: seq<Action>, j: nat, k: nat)
    requires Behaviour(states, actions) && j <= k <= |actions| && NoRelease(actions)
    ensures states[j].nextId <= states[k].nextId
    decreases k
  {
    hide Apply, Enabled;
    if j < k {
      IdsGrow(states, actions, j, k - 1);
      StepAt(states, actions, k - 1);
      AlwaysFits(states, actions, k - 1, 0);
      NextIdGrows(states[k - 1], actions[k - 1]);
    }
  }

  lemma NextIdGrows(s: State, a: Action)
    requires Enabled(s, a) && RowsInTable(s) && !a.Release?
    ensures s.nextId <= Apply(s, a).nextId
  {
    hide Prepare, Execute, CanPrepare, CanExecute;
    if Preparing(a) { RowsPreparing(s, a, 0); } else { RowExecuting(s, a, 0); }
  }

  /** If no lease ever expires, each chunk is claimed at most once in the whole run. */
  lemma AtMostOneClaim(states: seq<State>, actions: seq<Action>, j: nat, k: nat)
    requires Behaviour(states, actions) && j < k < |actions| && NoRelease(actions)
    requires actions[j].Claim? && actions[k].Claim? && actions[j].id == actions[k].id
    ensures var touch := LastTouch(actions[..k], actions[k].id);
            touch.Some? && touch.value + actions[k].timeout < actions[k].now
  {
    hide Behaviour, LastTouch;
    ClaimedAgainOnlyWhenStale(states, actions, k);
    assert Claims(actions[..k][j], actions[k].id);
  }

  // ---- when a chunk can be claimed ----

  /** A chunk in progress is claimable exactly from the moment at which the second after
      its heartbeat's, plus the timeout, has come. */
  lemma StaleIff(r: ChunkRow, now: nat, timeout: nat)
    ensures r.status.Pending? ==> Claimable(r, now, timeout)
    ensures r.status.Completed? ==> !Claimable(r, now, timeout)
    ensures r.status.InProgress? && r.heartbeat.Some? ==>
              (Claimable(r, now, timeout) <==> (r.heartbeat.value + 1) * 1000 + timeout <= now)
    ensures r.status.InProgress? && r.heartbeat.None? ==> !Claimable(r, now, timeout)
  {
    if r.heartbeat.Some? {
      WholeSeconds(now - timeout, r.heartbeat.value);
    }
  }

  lemma WholeSeconds(ms: int, sec: int)
    ensures sec < Stamp(ms) <==> (sec + 1) * 1000 <= ms
  {
  }

  /** A row in progress has its last touch as heartbeat, in whole seconds. */
  ghost predicate Touched(t: ChunkTable, id: ChunkId, touch: Option<nat>) {
    id in t && t[id].status.InProgress? ==> touch.Some? && t[id].heartbeat == Some(touch.value / 1000)
  }

  lemma TouchedStep(s: State, a: Action, actions: seq<Action>, id: ChunkId)
    requires Enabled(s, a) && Touched(s.chunks, id, LastTouch(actions, id))
    ensures Touched(Apply(s, a).chunks, id, LastTouch(actions + [a], id))
  {
    hide Prepare, Execute, CanPrepare, CanExecute, ClaimedIn, LastTouch, Claimable, Inserted;
    ClaimedSnoc(actions, a, id);
    if Preparing(a) {
      S.ChunksPreparing(s, a);
    } else {
      TouchedExecuting(s, a, id);
    }
  }

  lemma TouchedExecuting(s: State, a: Action, id: ChunkId)
    requires !Preparing(a) && CanExecute(s, a)
    ensures var t, t' := s.chunks, Execute(s, a).chunks;
            id in t' ==>
              && id in t
              && if Claims(a, id) || (a.Heartbeat? && a.id == id) then t'[id].heartbeat == Some(a.now / 1000)
                 else !t'[id].status.InProgress? || t'[id] == t[id]
  {
    hide ExecuteWorker, AllCompleted;
  }

  lemma {:induction false} AlwaysTouched(states: seq<State>, actions: seq<Action>, k: nat, id: ChunkId)
    requires Behaviour(states, actions) && k <= |actions|
    ensures Touched(states[k].chunks, id, LastTouch(actions[..k], id))
    decreases k
  {
    hide Apply, Enabled, LastTouch;
    if k == 0 {
      assert actions[..0] == [];
    } else {
      AlwaysTouched(states, actions, k - 1, id);
      StepAt(states, actions, k - 1);
      assert actions[..k] == actions[..k - 1] + [actions[k - 1]];
      TouchedStep(states[k - 1], actions[k - 1], actions[..k - 1], id);
    }
  }

  /** The other direction of lease safety, at every moment of every run: a free instance
      that has loaded a job can claim a chunk exactly when it is pending, or is in
      progress and the second after its last claim or heartbeat, plus the timeout, has
      come. So no chunk of a dead worker stays out of reach for longer than that. */
  lemma ClaimableIff(states: seq<State>, actions: seq<Action>, k: nat, i: Instance, id: ChunkId, now: nat, timeout: nat)
    requires Behaviour(states, actions) && k <= |actions| && id in states[k].chunks
    requires states[k].At(i).snap.Some? && states[k].At(i).task.Free?
    ensures var status, touch := states[k].chunks[id].status, LastTouch(actions[..k], id);
            && (status.InProgress? ==> touch.Some?)
            && (Enabled(states[k], Claim(i, id, now, timeout)) <==>
                  status.Pending? || (status.InProgress? && (touch.value / 1000 + 1) * 1000 + timeout <= now))
            && (!status.Completed? && (touch.Some? ==> touch.value + 1000 + timeout <= now) ==>
                  Enabled(states[k], Claim(i, id, now, timeout)))
  {
    hide LastTouch, Step, Claimable, AllCompleted, Stamp;
    AlwaysTouched(states, actions, k, id);
    StaleIff(states[k].chunks[id], now, timeout);
    var touch := LastTouch(actions[..k], id);
    if touch.Some? { Rounded(touch.value); }
  }

  lemma Rounded(ms: nat)
    ensures (ms / 1000 + 1) * 1000 <= ms + 1000
  {
  }

  /** A chunk given back because its snapshot is gone can be claimed at once, whatever the
      timeout, by any free instance that has loaded a job. */
  lemma ReleasedIsClaimable(s: State, i: Instance, j: Instance, now: nat, timeout: nat)
    requires (s.At(i).task.Claimed? || s.At(i).task.Reading?) && s.At(i).task.id in s.chunks
    requires j != i && s.At(j).snap.Some? && s.At(j).task.Free?
    ensures Enabled(s, Release(i))
    ensures var s', id := Apply(s, Release(i)), s.At(i).task.id;
            && Enabled(s', Claim(j, id, now, timeout))
            && s'.At(i).task.Free? && s'.At(i).snap.None?
            && forall k | k in s.chunks && k != id :: k in s'.chunks && s'.chunks[k] == s.chunks[k]
  {
    hide AllCompleted, Stamp;
  }

  /** A heartbeat can be written at any time, and renews the lease: until the timeout has
      passed no instance can claim the chunk. */
  lemma HeartbeatRenews(s: State, id: ChunkId, now: nat, j: Instance, later: nat, timeout: nat)
    requires id in s.chunks && s.chunks[id].status.InProgress? && later <= now + timeout
    ensures Enabled(s, Heartbeat(id, now))
    ensures var s' := Apply(s, Heartbeat(id, now));
            && id in s'.chunks && s'.chunks[id].status.InProgress?
            && !Enabled(s', Claim(j, id, later, timeout))
            && forall k | k in s.chunks && k != id :: k in s'.chunks && s'.chunks[k] == s.chunks[k]
  {
    hide AllCompleted;
  }
}
