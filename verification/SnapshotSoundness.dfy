/** Completion soundness and restart isolation, over all runs. */
module SnapshotSoundness {
  import opened Basics
  import opened SnapshotProtocol

  // ---- the invariant ----

  ghost predicate Done(handed: set<(Part, SnapshotId)>, p: Part, gen: SnapshotId, next: SnapshotId) {
    exists k :: gen <= k < next && (p, k) in handed
  }

  /** A completed chunk was handed over under its own snapshot or a later one. */
  ghost predicate RowsOk(t: ChunkTable, nextId: ChunkId, nextSnap: SnapshotId, handed: set<(Part, SnapshotId)>) {
    forall id | id in t ::
      && id < nextId && t[id].gen < nextSnap
      && (t[id].status.Completed? ==> Done(handed, t[id].part, t[id].gen, nextSnap))
  }

  predicate LatestIfAlive(snap: Option<SnapshotId>, alive: map<SnapshotId, Instance>, nextSnap: SnapshotId) {
    snap.Some? && snap.value in alive ==> snap.value + 1 == nextSnap
  }

  function SnapOf(job: Option<JobRow>): Option<SnapshotId> { if job.Some? then Some(job.value.snap) else None }

  /** Of the snapshots an instance holds or the job row names only the latest can be
      imported. */
  ghost predicate AliveOk(s: State) {
    && (forall i: Instance :: LatestIfAlive(s.At(i).snap, s.alive, s.nextSnap))
    && LatestIfAlive(SnapOf(s.job), s.alive, s.nextSnap)
  }

  ghost predicate HasRow(t: ChunkTable, p: Part, gen: SnapshotId) {
    exists id :: id in t && t[id].part == p && t[id].gen == gen
  }

  ghost predicate Present(parts: set<Part>, rest: set<Part>, t: ChunkTable, gen: SnapshotId) {
    forall p | p in parts && p !in rest :: HasRow(t, p, gen)
  }

  /** Only the lock holder prepares; while it inserts, its snapshot is the latest
      and its job row was never written. */
  ghost predicate PhaseOk(p: Phase, holds: bool, s: State) {
    && (!p.Idle? && !p.Failed? && !p.Prepared? ==> holds)
    && (p.Inserting? ==>
          && p.snap + 1 == s.nextSnap && p.snap !in s.posted && p.snap in s.plan
          && Present(s.plan[p.snap], Parts(p.batches), s.chunks, p.snap))
  }

  ghost predicate PhasesOk(s: State) { forall i: Instance :: PhaseOk(s.At(i).phase, s.lock == Some(i), s) }

  ghost predicate TaskOk(t: Task, chunks: ChunkTable, nextId: ChunkId, posted: set<SnapshotId>,
          handed: set<(Part, SnapshotId)>) {
    && (!t.Free? && !t.Finalizing? ==> t.id < nextId && (t.id in chunks ==> chunks[t.id].part == t.part))
    && (t.Reading? || t.Handed? || t.Marked? ==> t.snap in posted && (t.id in chunks ==> chunks[t.id].gen <= t.snap))
    && (t.Handed? || t.Marked? ==> (t.part, t.snap) in handed)
  }

  ghost predicate TasksOk(s: State) {
    forall i: Instance ::
      TaskOk(s.At(i).task, s.chunks, s.nextId, s.posted, s.handed)
          && (s.At(i).snap.Some? ==> s.At(i).snap.value in s.posted)
  }

  ghost predicate HistoryOk(s: State) {
    && (forall k | k in s.posted :: k < s.nextSnap && k in s.plan)
    && (forall k | k in s.plan :: k < s.nextSnap)
    && (forall h | h in s.handed :: h.1 in s.posted)
  }

  /** The job row is the last one written. */
  ghost predicate JobOk(s: State) {
    s.job.Some? ==> s.job.value.snap in s.posted && forall k | k in s.posted :: k <= s.job.value.snap
  }

  ghost predicate OnlyNewer(t: ChunkTable, snap: SnapshotId) { forall id | id in t :: t[id].gen > snap }

  /** Chunks are written before the job row: while it is open the table holds its
      whole plan or, once cleaned, nothing of it, only chunks no job row exists for. */
  ghost predicate PlanOk(s: State) {
    s.job.Some? && !s.job.value.completed && s.job.value.snap in s.plan ==>
      || Present(s.plan[s.job.value.snap], {}, s.chunks, s.job.value.snap)
      || OnlyNewer(s.chunks, s.job.value.snap)
  }

  ghost predicate FinalOk(s: State) {
    AnyFinalizing(s) && s.job.Some? ==> AllHanded(s.plan, s.handed, s.job.value.snap)
  }

  ghost predicate Inv(s: State) {
    && RowsOk(s.chunks, s.nextId, s.nextSnap, s.handed)
    && AliveOk(s)
    && PhasesOk(s) && TasksOk(s) && HistoryOk(s) && JobOk(s) && PlanOk(s) && FinalOk(s)
    && Sound(s)
  }

  // ---- a step of Execute leaves almost everything alone ----

  ghost predicate SameRows(t: ChunkTable, t': ChunkTable) {
    t'.Keys == t.Keys && forall id | id in t :: t'[id].part == t[id].part && t'[id].gen == t[id].gen
  }

  ghost predicate SameJob(j: Option<JobRow>, j': Option<JobRow>) {
    j.Some? == j'.Some? && (j.Some? ==> j'.value.snap == j.value.snap && (j.value.completed ==> j'.value.completed))
  }

  ghost predicate Quiet(s: State, s': State) {
    && s'.lock == s.lock && s'.nextId == s.nextId && s'.nextSnap == s.nextSnap && s'.alive == s.alive
    && s'.plan == s.plan && s'.posted == s.posted && s.handed <= s'.handed
    && SameRows(s.chunks, s'.chunks) && SameJob(s.job, s'.job)
  }

  lemma ExecuteKeepsPhases(s: State, a: Action, i: Instance)
    requires !Preparing(a) && CanExecute(s, a)
    ensures Execute(s, a).At(i).phase == s.At(i).phase
  {
    hide ExecuteTables, Claimable, AllCompleted, Stamp, StatusOf, HeartbeatOf, Update;
  }

  lemma ExecuteKeepsRows(s: State, a: Action)
    requires !Preparing(a) && CanExecute(s, a)
    ensures SameRows(s.chunks, Execute(s, a).chunks)
  {
    hide ExecuteWorker, Claimable, AllCompleted, Stamp, StatusOf, HeartbeatOf, Update;
  }

  lemma ExecuteKeepsRest(s: State, a: Action)
    requires !Preparing(a) && CanExecute(s, a)
    ensures var s' := Execute(s, a);
            && s'.lock == s.lock && s'.nextId == s.nextId && s'.nextSnap == s.nextSnap && s'.alive == s.alive
            && s'.plan == s.plan && s'.posted == s.posted && s.handed <= s'.handed && SameJob(s.job, s'.job)
  {
    hide ExecuteWorker, Claimable, AllCompleted, Stamp, StatusOf, HeartbeatOf, Update;
  }

  lemma ExecuteIsQuiet(s: State, a: Action)
    requires !Preparing(a) && CanExecute(s, a)
    ensures Quiet(s, Execute(s, a))
    ensures forall i: Instance :: Execute(s, a).At(i).phase == s.At(i).phase
  {
    hide Execute, CanExecute, SameRows, SameJob;
    ExecuteKeepsRows(s, a);
    ExecuteKeepsRest(s, a);
    forall i: Instance ensures Execute(s, a).At(i).phase == s.At(i).phase { ExecuteKeepsPhases(s, a, i); }
  }

  lemma PresentInSameRows(parts: set<Part>, rest: set<Part>, t: ChunkTable, t': ChunkTable, gen: SnapshotId)
    requires SameRows(t, t') && Present(parts, rest, t, gen)
    ensures Present(parts, rest, t', gen)
  {
    forall p | p in parts && p !in rest ensures HasRow(t', p, gen) {
      assert HasRow(t, p, gen);
      var k :| k in t && t[k].part == p && t[k].gen == gen;
      assert k in t'.Keys && t'[k].part == p && t'[k].gen == gen;
    }
  }

  lemma QuietPhase(s: State, s': State, p: Phase, holds: bool)
    requires Quiet(s, s') && PhaseOk(p, holds, s)
    ensures PhaseOk(p, holds, s')
  {
    hide Present, Parts;
    if p.Inserting? { PresentInSameRows(s.plan[p.snap], Parts(p.batches), s.chunks, s'.chunks, p.snap); }
  }

  lemma QuietRest(s: State, s': State)
    requires Quiet(s, s') && Inv(s)
    requires forall h | h in s'.handed :: h in s.handed || h.1 in s.posted
    ensures HistoryOk(s') && JobOk(s') && PlanOk(s')
  {
    hide Present, PhasesOk, TasksOk, RowsOk, AliveOk, FinalOk, Sound;
    if s.job.Some? && !s'.job.value.completed {
      var snap := s.job.value.snap;
      if Present(s.plan[snap], {}, s.chunks, snap) { PresentInSameRows(s.plan[snap], {}, s.chunks, s'.chunks, snap); }
    }
  }

  // ---- workers and their tasks ----

  /** Rows keep their part and generation, ids are never reused, history only grows. */
  ghost predicate Evolved(s: State, s': State) {
    && s.nextId <= s'.nextId && s.posted <= s'.posted && s.handed <= s'.handed
    && forall id | id in s'.chunks && id < s.nextId ::
         id in s.chunks && s'.chunks[id].part == s.chunks[id].part && s'.chunks[id].gen == s.chunks[id].gen
  }

  lemma PrepareEvolves(s: State, a: Action)
    requires Preparing(a) && CanPrepare(s, a)
    ensures Evolved(s, Prepare(s, a))
  {
    hide PrepareWorker, Insertable, Parts, OwnedBy, Unlocked;
  }

  lemma Evolves(s: State, a: Action)
    requires Enabled(s, a)
    ensures Evolved(s, Apply(s, a))
  {
    hide Prepare, Execute, CanPrepare, CanExecute;
    if Preparing(a) { PrepareEvolves(s, a); } else { ExecuteIsQuiet(s, a); }
  }

  lemma OthersStay(s: State, a: Action, i: Instance)
    requires Enabled(s, a) && (a.Heartbeat? || a.i != i)
    ensures Apply(s, a).At(i) == s.At(i)
  {
    hide Prepare, Execute, CanPrepare, CanExecute;
    if Preparing(a) { OthersStayPreparing(s, a, i); } else { OthersStayExecuting(s, a, i); }
  }

  lemma OthersStayPreparing(s: State, a: Action, i: Instance)
    requires Preparing(a) && CanPrepare(s, a) && a.i != i
    ensures Prepare(s, a).At(i) == s.At(i)
  {
    hide PrepareTables, PrepareWorker, Insertable, Inserted, Parts, OwnedBy, Unlocked;
  }

  lemma OthersStayExecuting(s: State, a: Action, i: Instance)
    requires !Preparing(a) && CanExecute(s, a) && (a.Heartbeat? || a.i != i)
    ensures Execute(s, a).At(i) == s.At(i)
  {
    hide ExecuteTables, ExecuteWorker, Claimable, AllCompleted, Update, Stamp, StatusOf, HeartbeatOf;
  }

  lemma PreparingLeavesNoTask(s: State, a: Action)
    requires Preparing(a) && CanPrepare(s, a)
    ensures var w, w' := s.At(a.i), Prepare(s, a).At(a.i);
            (w'.task == w.task && w'.snap == w.snap) || (w'.task.Free? && w'.snap.None?)
  {
    hide PrepareTables, Insertable, Inserted, Parts, OwnedBy, Unlocked;
  }

  ghost predicate WorkerOk(w: Worker, chunks: ChunkTable, nextId: ChunkId, posted: set<SnapshotId>,
          handed: set<(Part, SnapshotId)>) {
    TaskOk(w.task, chunks, nextId, posted, handed) && (w.snap.Some? ==> w.snap.value in posted)
  }

  lemma ExecutingTaskOk(s: State, a: Action)
    requires !Preparing(a) && CanExecute(s, a) && Inv(s) && !a.Heartbeat?
    ensures WorkerOk(Execute(s, a).At(a.i), s.chunks, s.nextId, s.posted, Execute(s, a).handed)
  {
    hide Claimable, AllCompleted, Update, PlanOk, FinalOk, Sound, Stamp, PhasesOk, Done, StatusOf, HeartbeatOf;
    assert TaskOk(s.At(a.i).task, s.chunks, s.nextId, s.posted, s.handed);
    assert LatestIfAlive(s.At(a.i).snap, s.alive, s.nextSnap);
  }

  lemma WorkerStaysOk(w: Worker, s: State, s': State, handed: set<(Part, SnapshotId)>)
    requires Evolved(s, s') && handed <= s'.handed && WorkerOk(w, s.chunks, s.nextId, s.posted, handed)
    ensures WorkerOk(w, s'.chunks, s'.nextId, s'.posted, s'.handed)
  {
  }

  lemma TasksKept(s: State, a: Action)
    requires Enabled(s, a) && Inv(s)
    ensures TasksOk(Apply(s, a))
  {
    hide Prepare, Execute, CanPrepare, CanExecute, TaskOk, Evolved, RowsOk, AliveOk, PhasesOk, HistoryOk, JobOk,
         PlanOk, FinalOk, Sound;
    var s' := Apply(s, a);
    Evolves(s, a);
    forall i: Instance ensures WorkerOk(s'.At(i), s'.chunks, s'.nextId, s'.posted, s'.handed) {
      assert WorkerOk(s.At(i), s.chunks, s.nextId, s.posted, s.handed);
      if a.Heartbeat? || a.i != i {
        OthersStay(s, a, i);
        EvolvedHanded(s, s');
        WorkerStaysOk(s'.At(i), s, s', s.handed);
      } else if Preparing(a) {
        PreparingLeavesNoTask(s, a);
        EvolvedHanded(s, s');
        FreeIsOk(s.chunks, s.nextId, s.posted, s.handed);
        WorkerStaysOk(s'.At(i), s, s', s.handed);
      } else {
        ExecutingTaskOk(s, a);
        WorkerStaysOk(s'.At(i), s, s', s'.handed);
      }
    }
  }

  lemma EvolvedHanded(s: State, s': State)
    requires Evolved(s, s')
    ensures s.handed <= s'.handed
  {
  }

  lemma FreeIsOk(chunks: ChunkTable, nextId: ChunkId, posted: set<SnapshotId>, handed: set<(Part, SnapshotId)>)
    ensures TaskOk(Free, chunks, nextId, posted, handed)
  {
  }

  // ---- rows ----

  /** Prepare empties the table of an open job or inserts a batch. */
  lemma ChunksPreparing(s: State, a: Action)
    requires Preparing(a) && CanPrepare(s, a)
    ensures var s' := Prepare(s, a);
            || (s'.chunks == s.chunks && s'.nextId == s.nextId)
            || (a.LoadExisting? && OpenJob(s) && s'.chunks == map[] && s'.nextId == s.nextId)
            || (a.InsertBatch? && var p := s.At(a.i).phase;
                s'.chunks == Inserted(s.chunks, s.nextId, p.snap, p.batches[0])
                    && s'.nextId == s.nextId + |p.batches[0]|)
  {
    hide PrepareWorker, Insertable, Parts, OwnedBy, Unlocked, Inserted;
  }

  lemma RowsAfterPrepare(s: State, a: Action)
    requires Preparing(a) && CanPrepare(s, a) && Inv(s)
    ensures var s' := Prepare(s, a); RowsOk(s'.chunks, s'.nextId, s'.nextSnap, s'.handed)
  {
    hide PrepareWorker, Insertable, Parts, OwnedBy, AliveOk, Present, JobOk, PlanOk, FinalOk, Sound, TasksOk, Done;
    var s' := Prepare(s, a);
    if a.InsertBatch? { assert PhaseOk(s.At(a.i).phase, s.lock == Some(a.i), s); }
    forall id | id in s'.chunks && s'.chunks[id].status.Completed?
      ensures Done(s'.handed, s'.chunks[id].part, s'.chunks[id].gen, s'.nextSnap)
    {
      DoneGrows(s.handed, s'.handed, s'.chunks[id].part, s'.chunks[id].gen, s.nextSnap, s'.nextSnap);
    }
  }

  lemma DoneGrows(handed: set<(Part, SnapshotId)>, handed': set<(Part, SnapshotId)>, p: Part, gen: SnapshotId,
          next: SnapshotId, next': SnapshotId)
    requires Done(handed, p, gen, next) && handed <= handed' && next <= next'
    ensures Done(handed', p, gen, next')
  {
    var k :| gen <= k < next && (p, k) in handed;
    assert (p, k) in handed';
  }

  /** Only MarkChunk completes a row, and only after the rows were handed over. */
  lemma CompletedByMark(s: State, a: Action, id: ChunkId)
    requires !Preparing(a) && CanExecute(s, a) && id in s.chunks
    requires var s' := Execute(s, a);
      id in s'.chunks && s'.chunks[id].status.Completed? && !s.chunks[id].status.Completed?
    ensures a.MarkChunk? && id == s.At(a.i).task.id
  {
    hide ExecuteWorker, AllCompleted, Stamp, HeartbeatOf;
  }

  lemma RowsAfterExecute(s: State, a: Action)
    requires !Preparing(a) && CanExecute(s, a) && Inv(s)
    ensures var s' := Execute(s, a); RowsOk(s'.chunks, s'.nextId, s'.nextSnap, s'.handed)
  {
    hide Execute, CanExecute, AliveOk, PhasesOk, JobOk, PlanOk, FinalOk, Sound, Done;
    var s' := Execute(s, a);
    ExecuteIsQuiet(s, a);
    forall id | id in s'.chunks && s'.chunks[id].status.Completed?
      ensures Done(s'.handed, s'.chunks[id].part, s'.chunks[id].gen, s'.nextSnap)
    {
      assert id in s.chunks;
      if !s.chunks[id].status.Completed? {
        CompletedByMark(s, a, id);
        MarkedIsDone(s, a);
      }
      DoneGrows(s.handed, s'.handed, s.chunks[id].part, s.chunks[id].gen, s.nextSnap, s.nextSnap);
    }
  }

  lemma MarkedIsDone(s: State, a: Action)
    requires a.MarkChunk? && CanExecute(s, a) && Inv(s) && s.At(a.i).task.id in s.chunks
    ensures var r := s.chunks[s.At(a.i).task.id]; Done(s.handed, r.part, r.gen, s.nextSnap)
  {
    hide AliveOk, PhasesOk, JobOk, PlanOk, FinalOk, Sound, RowsOk;
    var t := s.At(a.i).task;
    assert TaskOk(t, s.chunks, s.nextId, s.posted, s.handed);
    assert (s.chunks[t.id].part, t.snap) in s.handed;
  }

  // ---- the coordinator's side ----

  lemma PartsRest(batches: seq<seq<Part>>, p: Part)
    requires batches != [] && p in Parts(batches)
    ensures p in batches[0] || p in Parts(batches[1..])
  {
    var b :| b in batches && p in b;
    if b != batches[0] { assert b in batches[1..]; }
  }

  lemma InsertKeepsPlan(t: ChunkTable, next: ChunkId, snap: SnapshotId, batches: seq<seq<Part>>, parts: set<Part>)
    requires batches != [] && Present(parts, Parts(batches), t, snap) && forall id | id in t :: id < next
    ensures Present(parts, Parts(batches[1..]), Inserted(t, next, snap, batches[0]), snap)
  {
    hide Inserted, Parts;
    var t' := Inserted(t, next, snap, batches[0]);
    forall p | p in parts && p !in Parts(batches[1..]) ensures HasRow(t', p, snap) {
      if p in Parts(batches) {
        PartsRest(batches, p);
        var j :| 0 <= j < |batches[0]| && batches[0][j] == p;
        assert next + j in t' && t'[next + j].part == p;
      } else {
        assert HasRow(t, p, snap);
        var k :| k in t && t[k].part == p && t[k].gen == snap;
        assert k in t' && t'[k] == t[k];
      }
    }
  }

  lemma NoParts()
    ensures Parts([]) == {}
  {
  }

  lemma PresentAll(parts: set<Part>, t: ChunkTable, gen: SnapshotId)
    ensures Present(parts, parts, t, gen)
  {
  }

  /** Prepare plans at an export and writes a job row at the end, nothing else. */
  lemma PreparePlans(s: State, a: Action)
    requires Preparing(a) && CanPrepare(s, a)
    ensures var s' := Prepare(s, a);
            if a.Export? then s'.plan == s.plan[s.nextSnap := Parts(a.batches)] && s'.nextSnap == s.nextSnap + 1
            else s'.plan == s.plan && s'.nextSnap == s.nextSnap
  {
    hide PrepareWorker, Insertable, Inserted, Parts, OwnedBy, Unlocked;
  }

  lemma PreparePosts(s: State, a: Action)
    requires Preparing(a) && CanPrepare(s, a)
    ensures var s' := Prepare(s, a);
      s'.posted == s.posted || (a.InsertJob? && s'.posted == s.posted + {s.At(a.i).phase.snap})
  {
    hide PrepareWorker, Insertable, Inserted, Parts, OwnedBy, Unlocked;
  }

  lemma PrepareHandsNothing(s: State, a: Action)
    requires Preparing(a) && CanPrepare(s, a)
    ensures Prepare(s, a).handed == s.handed
  {
    hide PrepareWorker, Insertable, Inserted, Parts, OwnedBy, Unlocked;
  }

  lemma PreparingHistory(s: State, a: Action)
    requires Preparing(a) && CanPrepare(s, a) && Inv(s)
    ensures HistoryOk(Prepare(s, a))
  {
    hide Prepare, Parts, RowsOk, TasksOk, PlanOk, FinalOk, Sound, Present, AliveOk, JobOk;
    assert PhaseOk(s.At(a.i).phase, s.lock == Some(a.i), s);
    PreparePlans(s, a);
    PreparePosts(s, a);
    PrepareHandsNothing(s, a);
  }

  lemma PreparingJob(s: State, a: Action)
    requires Preparing(a) && CanPrepare(s, a) && Inv(s)
    ensures JobOk(Prepare(s, a))
  {
    hide PrepareWorker, Insertable, Inserted, Parts, RowsOk, TasksOk, PlanOk, FinalOk, Sound, Present, AliveOk, OwnedBy;
    assert PhaseOk(s.At(a.i).phase, s.lock == Some(a.i), s);
  }

  /** Snapshots only come from an export and go with their exporter. */
  lemma AliveFrom(s: State, a: Action, k: SnapshotId)
    requires Preparing(a) && CanPrepare(s, a) && k in Prepare(s, a).alive
    ensures var s' := Prepare(s, a);
            if a.Export? && k == s.nextSnap then s'.alive[k] == a.i
            else (k in s.alive && s'.alive[k] == s.alive[k] && (a.Crash? ==> s.alive[k] != a.i)
                  && (a.Close? ==> k != a.snap))
  {
    hide PrepareWorker, Insertable, Inserted, Parts;
  }

  lemma PrepareJob(s: State, a: Action)
    requires Preparing(a) && CanPrepare(s, a)
    ensures var s' := Prepare(s, a);
            s'.job == s.job || s'.job.None? || (a.InsertJob? && SnapOf(s'.job) == Some(s.At(a.i).phase.snap))
  {
    hide PrepareWorker, Insertable, Inserted, Parts, OwnedBy, Unlocked;
  }

  lemma PreparingAlive(s: State, a: Action)
    requires Preparing(a) && CanPrepare(s, a) && Inv(s) && NoneImportable(s, a)
    ensures AliveOk(Prepare(s, a))
  {
    hide Prepare, RowsOk, PlanOk, FinalOk, Sound, PhaseOk, TaskOk;
    var s' := Prepare(s, a);
    PreparePlans(s, a);
    PrepareJob(s, a);
    forall i: Instance ensures LatestIfAlive(s'.At(i).snap, s'.alive, s'.nextSnap) {
      if i == a.i { PreparingLeavesNoTask(s, a); } else { OthersStayPreparing(s, a, i); }
      assert LatestIfAlive(s.At(i).snap, s.alive, s.nextSnap);
      assert s.At(i).snap.Some? ==> s.At(i).snap.value in s.posted;
      if s'.At(i).snap.Some? && s'.At(i).snap.value in s'.alive {
        AliveFrom(s, a, s'.At(i).snap.value);
        assert a.Export? ==> !HoldsLive(s, i);
      }
    }
    if s'.job.Some? && s'.job.value.snap in s'.alive {
      AliveFrom(s, a, s'.job.value.snap);
      if a.InsertJob? { InsertingLatest(s, a.i); }
    }
  }

  lemma InsertingLatest(s: State, i: Instance)
    requires PhasesOk(s) && s.At(i).phase.Inserting?
    ensures s.At(i).phase.snap + 1 == s.nextSnap
  {
    hide Present, Parts;
    assert PhaseOk(s.At(i).phase, s.lock == Some(i), s);
  }

  /** Execute only ever loads the job's snapshot. */
  lemma ExecuteLoads(s: State, a: Action, i: Instance)
    requires !Preparing(a) && CanExecute(s, a)
    ensures var snap := Execute(s, a).At(i).snap; snap == s.At(i).snap || snap.None? || snap == SnapOf(s.job)
  {
    hide ExecuteTables, Claimable, AllCompleted, Stamp, StatusOf, HeartbeatOf, Update;
  }

  lemma ExecutingAlive(s: State, a: Action)
    requires !Preparing(a) && CanExecute(s, a) && Inv(s)
    ensures AliveOk(Execute(s, a))
  {
    hide Execute, CanExecute, RowsOk, PhasesOk, TasksOk, HistoryOk, JobOk, PlanOk, FinalOk, Sound, SameRows;
    var s' := Execute(s, a);
    ExecuteIsQuiet(s, a);
    forall i: Instance ensures LatestIfAlive(s'.At(i).snap, s'.alive, s'.nextSnap) {
      ExecuteLoads(s, a, i);
      assert LatestIfAlive(s.At(i).snap, s.alive, s.nextSnap);
    }
  }

  lemma PreparingPlan(s: State, a: Action)
    requires Preparing(a) && CanPrepare(s, a) && Inv(s)
    ensures PlanOk(Prepare(s, a))
  {
    hide PrepareWorker, Insertable, Inserted, Parts, TasksOk, FinalOk, Sound, Present, AliveOk, OwnedBy, Unlocked,
         OnlyNewer, Done;
    assert PhaseOk(s.At(a.i).phase, s.lock == Some(a.i), s);
    NoParts();
    if a.LoadExisting? && s.job.Some? { NoneIsNewer(s.job.value.snap); }
    if a.InsertBatch? && s.job.Some? && s.job.value.snap in s.plan {
      var p, snap := s.At(a.i).phase, s.job.value.snap;
      InsertKeepsJobPlan(s, p, snap);
    }
  }

  lemma NoneIsNewer(snap: SnapshotId)
    ensures OnlyNewer(map[], snap)
  {
  }

  /** Chunks of a newer snapshot leave an open job's rows as they are. */
  lemma InsertKeepsJobPlan(s: State, p: Phase, snap: SnapshotId)
    requires p.Inserting? && p.batches != [] && snap < p.snap && snap in s.plan
    requires forall id | id in s.chunks :: id < s.nextId
    ensures var t' := Inserted(s.chunks, s.nextId, p.snap, p.batches[0]);
            && (Present(s.plan[snap], {}, s.chunks, snap) ==> Present(s.plan[snap], {}, t', snap))
            && (OnlyNewer(s.chunks, snap) ==> OnlyNewer(t', snap))
  {
    hide Inserted;
    var t' := Inserted(s.chunks, s.nextId, p.snap, p.batches[0]);
    if Present(s.plan[snap], {}, s.chunks, snap) {
      forall q | q in s.plan[snap] ensures HasRow(t', q, snap) {
        assert HasRow(s.chunks, q, snap);
        var k :| k in s.chunks && s.chunks[k].part == q && s.chunks[k].gen == snap;
        assert k in t' && t'[k] == s.chunks[k];
      }
    }
  }

  lemma LockAfter(s: State, a: Action, i: Instance)
    requires Preparing(a) && CanPrepare(s, a) && a.i != i
    ensures Prepare(s, a).lock == Some(i) ==> s.lock == Some(i)
    ensures s.lock == Some(i) ==> Prepare(s, a).lock == Some(i)
  {
    hide PrepareWorker, Insertable, Inserted, Parts, OwnedBy;
  }

  lemma OtherPhaseKept(s: State, a: Action, i: Instance)
    requires Preparing(a) && CanPrepare(s, a) && Inv(s) && a.i != i
    ensures PhaseOk(s.At(i).phase, Prepare(s, a).lock == Some(i), Prepare(s, a))
  {
    hide Prepare, Parts, RowsOk, TasksOk, FinalOk, Sound, Present, AliveOk, PlanOk, HistoryOk;
    assert PhaseOk(s.At(i).phase, s.lock == Some(i), s);
    assert PhaseOk(s.At(a.i).phase, s.lock == Some(a.i), s);
    LockAfter(s, a, i);
    PreparePlans(s, a);
    PreparePosts(s, a);
    ChunksPreparing(s, a);
  }

  lemma OwnPhaseKept(s: State, a: Action)
    requires Preparing(a) && CanPrepare(s, a) && Inv(s)
    ensures PhaseOk(Prepare(s, a).At(a.i).phase, Prepare(s, a).lock == Some(a.i), Prepare(s, a))
  {
    hide Insertable, Inserted, Parts, TasksOk, FinalOk, Sound, Present, AliveOk, OwnedBy, PlanOk, Done;
    var p := s.At(a.i).phase;
    assert PhaseOk(p, s.lock == Some(a.i), s);
    if a.Export? {
      PresentAll(Parts(a.batches), s.chunks, s.nextSnap);
    } else if a.InsertBatch? {
      InsertKeepsPlan(s.chunks, s.nextId, p.snap, p.batches, s.plan[p.snap]);
    }
  }

  lemma PhasesKept(s: State, a: Action)
    requires Enabled(s, a) && Inv(s)
    ensures PhasesOk(Apply(s, a))
  {
    hide Prepare, Execute, CanPrepare, CanExecute, PhaseOk, Quiet, RowsOk, TasksOk, FinalOk, Sound, AliveOk, PlanOk,
         HistoryOk;
    var s' := Apply(s, a);
    forall i: Instance ensures PhaseOk(s'.At(i).phase, s'.lock == Some(i), s') {
      if !Preparing(a) {
        ExecuteIsQuiet(s, a);
        assert PhaseOk(s.At(i).phase, s.lock == Some(i), s);
        QuietPhase(s, s', s.At(i).phase, s.lock == Some(i));
        QuietLock(s, s');
      } else if a.i != i {
        OthersStay(s, a, i);
        OtherPhaseKept(s, a, i);
      } else {
        OwnPhaseKept(s, a);
      }
    }
  }

  lemma QuietLock(s: State, s': State)
    requires Quiet(s, s')
    ensures s'.lock == s.lock
  {
  }

  // ---- completion ----

  /** A worker that sees only completed chunks sees the whole plan of the open job. */
  lemma CheckedMeansHanded(s: State)
    requires Inv(s) && AllCompleted(s.chunks) && s.job.Some?
    ensures AllHanded(s.plan, s.handed, s.job.value.snap)
  {
    hide TasksOk, PhasesOk, AliveOk, FinalOk, Sound, Present, OnlyNewer;
    if s.job.value.completed {
      SoundMeans(s);
      return;
    }
    var snap := s.job.value.snap;
    if OnlyNewer(s.chunks, snap) { NoNewerCompleted(s, snap); }
    forall p | p in s.plan[snap] ensures (p, snap) in s.handed { PresentIsHanded(s, p, snap); }
  }

  lemma SoundMeans(s: State)
    requires Sound(s) && s.job.Some? && s.job.value.completed
    ensures AllHanded(s.plan, s.handed, s.job.value.snap)
  {
  }

  lemma NotDone(s: State, p: Part, gen: SnapshotId, snap: SnapshotId)
    requires HistoryOk(s) && (forall k | k in s.posted :: k <= snap) && gen > snap
    ensures !Done(s.handed, p, gen, s.nextSnap)
  {
    assert forall k | (p, k) in s.handed :: (p, k).1 in s.posted;
  }

  lemma NoNewerCompleted(s: State, snap: SnapshotId)
    requires RowsOk(s.chunks, s.nextId, s.nextSnap, s.handed) && HistoryOk(s) && forall k | k in s.posted :: k <= snap
    requires OnlyNewer(s.chunks, snap)
    ensures !AllCompleted(s.chunks)
  {
    hide Done;
    forall id | id in s.chunks ensures !s.chunks[id].status.Completed? {
      NotDone(s, s.chunks[id].part, s.chunks[id].gen, snap);
    }
  }

  lemma PresentIsHanded(s: State, p: Part, snap: SnapshotId)
    requires RowsOk(s.chunks, s.nextId, s.nextSnap, s.handed) && HistoryOk(s) && forall k | k in s.posted :: k <= snap
    requires snap in s.plan && p in s.plan[snap] && Present(s.plan[snap], {}, s.chunks, snap) && AllCompleted(s.chunks)
    ensures (p, snap) in s.handed
  {
    assert HasRow(s.chunks, p, snap);
    var id :| id in s.chunks && s.chunks[id].part == p && s.chunks[id].gen == snap;
    var k :| snap <= k < s.nextSnap && (p, k) in s.handed;
    assert (p, k).1 in s.posted;
  }

  lemma OwnFinalizing(s: State, a: Action)
    requires !Preparing(a) && CanExecute(s, a) && !a.Heartbeat? && Execute(s, a).At(a.i).task.Finalizing?
    ensures a.Check? && AllCompleted(s.chunks)
  {
    hide ExecuteTables, Claimable, AllCompleted, Update, Stamp, StatusOf, HeartbeatOf;
  }

  lemma FinalizingFrom(s: State, a: Action)
    requires Enabled(s, a) && AnyFinalizing(Apply(s, a))
    ensures AnyFinalizing(s) || (a.Check? && AllCompleted(s.chunks))
  {
    hide Prepare, Execute, CanPrepare, CanExecute, AllCompleted;
    var s' := Apply(s, a);
    var i :| i in s'.workers && s'.workers[i].task.Finalizing?;
    assert s'.At(i).task.Finalizing?;
    if a.Heartbeat? || a.i != i {
      OthersStay(s, a, i);
    } else if Preparing(a) {
      PreparingLeavesNoTask(s, a);
    } else {
      OwnFinalizing(s, a);
    }
    if s.At(i).task.Finalizing? { assert i in s.workers; }
  }

  lemma HandedGrows(plan: map<SnapshotId, set<Part>>, handed: set<(Part, SnapshotId)>,
          handed': set<(Part, SnapshotId)>, snap: SnapshotId)
    requires AllHanded(plan, handed, snap) && handed <= handed'
    ensures AllHanded(plan, handed', snap)
  {
  }

  lemma PreparingCompletion(s: State, a: Action)
    requires Preparing(a) && CanPrepare(s, a) && Inv(s) && NoNewJobWhileFinalizing(s, a)
    ensures FinalOk(Prepare(s, a)) && Sound(Prepare(s, a))
  {
    hide Insertable, Inserted, Parts, OwnedBy, Unlocked, RowsOk, TasksOk, PhasesOk, PlanOk, AliveOk, Present;
  }

  lemma ExecutingCompletion(s: State, a: Action)
    requires !Preparing(a) && CanExecute(s, a) && Inv(s)
    ensures FinalOk(Execute(s, a)) && Sound(Execute(s, a))
  {
    hide Execute, CanExecute, RowsOk, TasksOk, PhasesOk, PlanOk, AliveOk, AllHanded, AnyFinalizing, AllCompleted,
         SameRows, HistoryOk, JobOk;
    var s' := Execute(s, a);
    ExecuteIsQuiet(s, a);
    JobMarkedBy(s, a);
    if s.job.Some? {
      var snap := s.job.value.snap;
      if AnyFinalizing(s') { FinalizingFrom(s, a); }
      if a.Check? && AllCompleted(s.chunks) { CheckedMeansHanded(s); }
      if AllHanded(s.plan, s.handed, snap) { HandedGrows(s.plan, s.handed, s'.handed, snap); }
    }
  }

  lemma JobMarkedBy(s: State, a: Action)
    requires !Preparing(a) && CanExecute(s, a)
    ensures var s' := Execute(s, a);
            s.job.Some? && s'.job.Some? && s'.job.value.completed ==> s.job.value.completed || AnyFinalizing(s)
  {
    hide Claimable, AllCompleted, Update, Stamp, StatusOf, HeartbeatOf;
  }

  lemma HandedPosted(s: State, a: Action)
    requires !Preparing(a) && CanExecute(s, a) && Inv(s)
    ensures forall h | h in Execute(s, a).handed :: h in s.handed || h.1 in s.posted
  {
    hide ExecuteWorker, Claimable, AllCompleted, Update, Stamp, StatusOf, HeartbeatOf, RowsOk, PhasesOk, PlanOk,
         AliveOk, FinalOk, Sound;
    if a.Hand? { assert TaskOk(s.At(a.i).task, s.chunks, s.nextId, s.posted, s.handed); }
  }

  lemma InvKept(s: State, a: Action)
    requires Enabled(s, a) && Inv(s) && Disciplined(s, a)
    ensures Inv(Apply(s, a))
  {
    hide Prepare, Execute, CanPrepare, CanExecute, RowsOk, AliveOk, PhasesOk, TasksOk, HistoryOk, JobOk, PlanOk,
         FinalOk, Sound, Quiet;
    PhasesKept(s, a);
    TasksKept(s, a);
    if Preparing(a) {
      RowsAfterPrepare(s, a);
      PreparingHistory(s, a);
      PreparingJob(s, a);
      PreparingAlive(s, a);
      PreparingPlan(s, a);
      PreparingCompletion(s, a);
    } else {
      ExecuteIsQuiet(s, a);
      HandedPosted(s, a);
      RowsAfterExecute(s, a);
      QuietRest(s, Execute(s, a));
      ExecutingAlive(s, a);
      ExecutingCompletion(s, a);
    }
  }

  lemma InitInv()
    ensures Inv(INIT)
  {
  }

  lemma {:induction false} AlwaysInv(states: seq<State>, actions: seq<Action>, k: nat)
    requires Behaviour(states, actions) && k <= |actions|
    requires forall j | 0 <= j < |actions| :: Disciplined(states[j], actions[j])
    ensures Inv(states[k])
  {
    hide Apply, Enabled, Inv, Disciplined, INIT;
    if k == 0 {
      InitInv();
    } else {
      AlwaysInv(states, actions, k - 1);
      assert Step(states[k - 1], actions[k - 1], states[k - 1 + 1]);
      InvKept(states[k - 1], actions[k - 1]);
    }
  }

  // ---- the theorems ----

  ghost predicate AllDisciplined(states: seq<State>, actions: seq<Action>)
    requires |states| == |actions| + 1
  {
    forall j | 0 <= j < |actions| :: Disciplined(states[j], actions[j])
  }

  /** Completion is sound for any number of instances, crashes, stolen leases and
      releases: whenever the job row says completed, every part planned for it was
      handed over in full by some instance under the job's own snapshot. */
  lemma CompletionSound(states: seq<State>, actions: seq<Action>, k: nat)
    requires Behaviour(states, actions) && AllDisciplined(states, actions) && k <= |actions|
    ensures Sound(states[k])
  {
    hide Behaviour, Apply, Sound;
    AlwaysInv(states, actions, k);
  }

  /** Restart isolation: a chunk is marked only by an instance that read it under the
      chunk's snapshot or a later one. So an instance still holding an old job cannot
      complete a chunk of the latest, whatever it claimed. */
  lemma RestartIsolation(states: seq<State>, actions: seq<Action>, k: nat)
    requires Behaviour(states, actions) && AllDisciplined(states, actions) && k < |actions| && actions[k].MarkChunk?
    ensures var s := states[k];
            var t := s.At(actions[k].i).task;
            && t.Handed? && (t.part, t.snap) in s.handed
            && (t.id in s.chunks ==>
                  && s.chunks[t.id].part == t.part && s.chunks[t.id].gen <= t.snap
                  && (s.chunks[t.id].gen + 1 == s.nextSnap ==> t.snap == s.chunks[t.id].gen))
  {
    hide Apply;
    AlwaysInv(states, actions, k);
    assert Step(states[k], actions[k], states[k + 1]);
    var s := states[k];
    assert TaskOk(s.At(actions[k].i).task, s.chunks, s.nextId, s.posted, s.handed);
  }

  // ---- restarts after a crash leave no old snapshot ----

  predicate PhaseHolds(p: Phase, holds: bool) {
    (!p.Idle? ==> holds || p.Failed? || p.Prepared?) && (holds ==> !p.Idle?)
  }

  predicate MayExport(p: Phase) { p.Inserting? || p.Failed? || p.Prepared? }

  /** The lock holder's own latest snapshot is the only one that can be imported. */
  ghost predicate OneExport(s: State) {
    && (forall i: Instance :: PhaseHolds(s.At(i).phase, s.lock == Some(i)))
    && (forall k | k in s.alive ::
          k + 1 == s.nextSnap && s.lock == Some(s.alive[k]) && MayExport(s.At(s.alive[k]).phase))
  }

  /** Who does not hold the lock cannot take it from the holder or export. */
  lemma NonHolder(s: State, a: Action)
    requires Preparing(a) && CanPrepare(s, a) && OneExport(s) && s.lock.Some? && s.lock != Some(a.i)
    ensures a.Close? || a.Crash?
    ensures Prepare(s, a).lock == s.lock && Prepare(s, a).nextSnap == s.nextSnap
  {
    hide Insertable, Inserted, Parts, OwnedBy, MayExport;
    assert PhaseHolds(s.At(a.i).phase, s.lock == Some(a.i));
  }

  lemma OwnLockAfter(s: State, a: Action)
    requires Preparing(a) && CanPrepare(s, a)
    ensures Prepare(s, a).lock == (if a.TryLock? then Some(a.i)
        else if a.Crash? || a.Close? || a.LoseLock? then Unlocked(s, a.i) else s.lock)
  {
    hide PrepareWorker, Insertable, Inserted, Parts, OwnedBy;
  }

  lemma OwnPhaseAfter(s: State, a: Action)
    requires Preparing(a) && CanPrepare(s, a)
    ensures var p, p' := s.At(a.i).phase, Prepare(s, a).At(a.i).phase;
            && (p'.Idle? <==> a.Crash? || a.Close?)
            && (a.LoseLock? ==> p'.Failed?)
            && (!a.TryLock? && !a.Retry? && !a.LoseLock? && !a.Crash? && !a.Close? ==>
                  !p.Idle? && !p.Failed? && !p.Prepared?)
  {
    hide PrepareTables, Insertable, Inserted, Parts, OwnedBy, Unlocked;
  }

  lemma HoldsAfterOwn(s: State, a: Action)
    requires Preparing(a) && CanPrepare(s, a) && OneExport(s)
    ensures PhaseHolds(Prepare(s, a).At(a.i).phase, Prepare(s, a).lock == Some(a.i))
  {
    hide Prepare, MayExport;
    assert PhaseHolds(s.At(a.i).phase, s.lock == Some(a.i));
    OwnLockAfter(s, a);
    OwnPhaseAfter(s, a);
  }

  lemma HoldsAfter(s: State, a: Action, i: Instance)
    requires Preparing(a) && CanPrepare(s, a) && OneExport(s)
    ensures PhaseHolds(Prepare(s, a).At(i).phase, Prepare(s, a).lock == Some(i))
  {
    hide Prepare, CanPrepare, MayExport;
    if i == a.i {
      HoldsAfterOwn(s, a);
    } else {
      OthersStayPreparing(s, a, i);
      LockAfter(s, a, i);
      assert PhaseHolds(s.At(i).phase, s.lock == Some(i));
    }
  }

  lemma HolderStep(s: State, a: Action)
    requires Preparing(a) && CanPrepare(s, a) && !a.Retry? && !a.LoseLock? && !a.Crash? && !a.Close?
        && MayExport(s.At(a.i).phase)
    ensures MayExport(Prepare(s, a).At(a.i).phase) && Prepare(s, a).nextSnap == s.nextSnap
        && Prepare(s, a).lock == s.lock
  {
    hide Insertable, Inserted, Parts, OwnedBy;
  }

  lemma ExportStep(s: State, a: Action)
    requires a.Export? && CanPrepare(s, a)
    ensures var s' := Prepare(s, a);
            s'.nextSnap == s.nextSnap + 1 && s'.lock == s.lock && s'.At(a.i).phase.Inserting?
  {
    hide Parts;
  }

  lemma AliveAfter(s: State, a: Action, k: SnapshotId)
    requires Preparing(a) && CanPrepare(s, a) && OneExport(s) && !a.Retry? && !a.LoseLock? && k in Prepare(s, a).alive
    ensures var s' := Prepare(s, a);
            k + 1 == s'.nextSnap && s'.lock == Some(s'.alive[k]) && MayExport(s'.At(s'.alive[k]).phase)
  {
    hide Prepare;
    AliveFrom(s, a, k);
    assert PhaseHolds(s.At(a.i).phase, s.lock == Some(a.i));
    if a.Export? && k == s.nextSnap {
      ExportStep(s, a);
    } else if a.i != s.alive[k] {
      NonHolder(s, a);
      OthersStayPreparing(s, a, s.alive[k]);
    } else if !a.Close? && !a.Crash? {
      HolderStep(s, a);
    }
  }

  lemma OneExportPreparing(s: State, a: Action)
    requires Preparing(a) && CanPrepare(s, a) && OneExport(s) && !a.Retry? && !a.LoseLock?
    ensures OneExport(Prepare(s, a))
  {
    hide Prepare, CanPrepare, PhaseHolds, MayExport;
    var s' := Prepare(s, a);
    forall i: Instance ensures PhaseHolds(s'.At(i).phase, s'.lock == Some(i)) { HoldsAfter(s, a, i); }
    forall k | k in s'.alive ensures k + 1 == s'.nextSnap && s'.lock == Some(s'.alive[k])
      && MayExport(s'.At(s'.alive[k]).phase) {
      AliveAfter(s, a, k);
    }
  }

  lemma OneExportKept(s: State, a: Action)
    requires Enabled(s, a) && OneExport(s) && !a.Retry? && !a.LoseLock?
    ensures OneExport(Apply(s, a))
  {
    hide Prepare, Execute, CanPrepare, CanExecute, SameRows, SameJob;
    if Preparing(a) {
      OneExportPreparing(s, a);
    } else {
      ExecuteIsQuiet(s, a);
      forall i: Instance ensures Execute(s, a).At(i).phase == s.At(i).phase { }
    }
  }

  lemma {:induction false} AlwaysOneExport(states: seq<State>, actions: seq<Action>, k: nat)
    requires Behaviour(states, actions) && k <= |actions|
    requires forall j | 0 <= j < |actions| :: !actions[j].Retry? && !actions[j].LoseLock?
    ensures OneExport(states[k])
  {
    hide Apply, Enabled;
    if k > 0 {
      AlwaysOneExport(states, actions, k - 1);
      assert Step(states[k - 1], actions[k - 1], states[k - 1 + 1]);
      hide OneExport;
      OneExportKept(states[k - 1], actions[k - 1]);
    }
  }

  /** When coordinators restart only by crashing, which ends their lock and their
      exporting transaction together, and no lock is lost on its own, every export
      finds all older snapshots dead. */
  lemma CrashRestartsAreClean(states: seq<State>, actions: seq<Action>, k: nat)
    requires Behaviour(states, actions) && k < |actions|
    requires forall j | 0 <= j < |actions| :: !actions[j].Retry? && !actions[j].LoseLock?
    ensures actions[k].Export? ==> states[k].alive == map[]
  {
    hide Apply;
    AlwaysOneExport(states, actions, k);
    assert Step(states[k], actions[k], states[k + 1]);
    var s := states[k];
    if actions[k].Export? {
      assert !s.At(actions[k].i).phase.Idle?;
      assert s.alive.Keys == {};
    }
  }

  // ---- chunks without a job ----

  /** A chunk row of part p exists without a job row, and every plan being written has
      p among the batches it still has to insert. */
  ghost predicate Stuck(s: State, p: Part) {
    && s.job.None? && HasPart(s.chunks, p) && (forall id | id in s.chunks :: id < s.nextId)
    && forall i: Instance :: WillCollide(s.At(i).phase, p)
  }

  predicate WillCollide(phase: Phase, p: Part) { phase.Inserting? ==> p in Parts(phase.batches) }

  lemma CollisionAfter(s: State, a: Action, p: Part)
    requires Preparing(a) && CanPrepare(s, a) && Stuck(s, p) && (a.Export? ==> p in Parts(a.batches))
    ensures WillCollide(Prepare(s, a).At(a.i).phase, p)
  {
    hide PrepareTables, Parts;
    assert WillCollide(s.At(a.i).phase, p);
    if a.InsertBatch? { PartsRest(s.At(a.i).phase.batches, p); }
  }

  /** The job row cannot be written before the batch that collides. */
  lemma NoJobAfter(s: State, a: Action, p: Part)
    requires Preparing(a) && CanPrepare(s, a) && Stuck(s, p)
    ensures Prepare(s, a).job.None?
  {
    hide Prepare, Parts;
    PrepareJob(s, a);
    assert WillCollide(s.At(a.i).phase, p);
    NoParts();
  }

  lemma RowAfter(s: State, a: Action, p: Part)
    requires Preparing(a) && CanPrepare(s, a) && Stuck(s, p)
    ensures var s' := Prepare(s, a); HasPart(s'.chunks, p) && forall id | id in s'.chunks :: id < s'.nextId
  {
    hide Prepare, Inserted, Parts, WillCollide;
    ChunksPreparing(s, a);
    var id :| id in s.chunks && s.chunks[id].part == p;
    assert id in Prepare(s, a).chunks && Prepare(s, a).chunks[id] == s.chunks[id];
  }

  lemma StuckKept(s: State, a: Action, p: Part)
    requires Enabled(s, a) && Stuck(s, p) && (a.Export? ==> p in Parts(a.batches))
    ensures Stuck(Apply(s, a), p)
  {
    hide Prepare, Execute, CanPrepare, CanExecute, Parts, WillCollide;
    var s' := Apply(s, a);
    if Preparing(a) {
      RowAfter(s, a, p);
      CollisionAfter(s, a, p);
      NoJobAfter(s, a, p);
      forall i: Instance ensures WillCollide(s'.At(i).phase, p) {
        assert WillCollide(s.At(i).phase, p);
        if i != a.i { OthersStay(s, a, i); }
      }
    } else {
      ExecuteIsQuiet(s, a);
      var id :| id in s.chunks && s.chunks[id].part == p;
      assert id in s'.chunks.Keys && s'.chunks[id].part == p;
      forall i: Instance ensures WillCollide(s'.At(i).phase, p) { assert WillCollide(s.At(i).phase, p); }
    }
  }

  /** If a coordinator dies after inserting a chunk and before inserting the job row, no
      later attempt whose plan has that part again ever creates a job: with no job row
      nothing is cleaned, and the UNIQUE constraint refuses the batch. */
  lemma {:induction false} OrphanChunksBlockForever(states: seq<State>, actions: seq<Action>, from: nat, k: nat,
          p: Part)
    requires Behaviour(states, actions) && from <= k <= |actions| && Stuck(states[from], p)
    requires forall j | from <= j < |actions| && actions[j].Export? :: p in Parts(actions[j].batches)
    ensures states[k].job.None? && HasPart(states[k].chunks, p) && Stuck(states[k], p)
    decreases k
  {
    hide Apply, Enabled, HasPart, Parts;
    if k > from {
      OrphanChunksBlockForever(states, actions, from, k - 1, p);
      assert Step(states[k - 1], actions[k - 1], states[k - 1 + 1]);
      StuckKept(states[k - 1], actions[k - 1], p);
    }
  }
}
