/** Where the conditions of the completion theorem fail, completion fails: for every
    state, and in runs from the start. */
module SnapshotRuns {
  import opened Basics
  import opened SnapshotProtocol
  import opened SnapshotSoundness

  // ---- runs from a state ----

  ghost predicate Allowed(s: State, a: Action, leaky: bool, racy: bool) {
    (leaky || NoneImportable(s, a)) && (racy || NoNewJobWhileFinalizing(s, a))
  }

  /** s' is reached from s by a run in which every export finds older snapshots dead
      (unless leaky) and no job row appears between a check and its mark (unless racy). */
  ghost predicate Leads(s: State, s': State, leaky: bool, racy: bool) {
    exists states: seq<State>, actions: seq<Action> ::
      Run(states, actions, leaky, racy) && states[0] == s && states[|actions|] == s'
  }

  ghost predicate Run(states: seq<State>, actions: seq<Action>, leaky: bool, racy: bool) {
    && |states| == |actions| + 1
    && forall k | 0 <= k < |actions| ::
         Step(states[k], actions[k], states[k + 1]) && Allowed(states[k], actions[k], leaky, racy)
  }

  lemma LeadsSelf(s: State, leaky: bool, racy: bool)
    ensures Leads(s, s, leaky, racy)
  {
    var none: seq<Action> := [];
    assert Run([s], none, leaky, racy) && [s][0] == s && [s][|none|] == s;
  }

  lemma LeadsOn(s: State, t: State, a: Action, leaky: bool, racy: bool)
    requires Leads(s, t, leaky, racy) && Enabled(t, a) && Allowed(t, a, leaky, racy)
    ensures Leads(s, Apply(t, a), leaky, racy)
  {
    hide Apply, Enabled, Allowed;
    var states: seq<State>, actions: seq<Action> :|
      Run(states, actions, leaky, racy) && states[0] == s && states[|actions|] == t;
    var t' := Apply(t, a);
    var states', actions' := states + [t'], actions + [a];
    forall k | 0 <= k < |actions'|
      ensures Step(states'[k], actions'[k], states'[k + 1]) && Allowed(states'[k], actions'[k], leaky, racy)
    {
      if k < |actions| { assert Step(states[k], actions[k], states[k + 1]); }
    }
    assert Run(states', actions', leaky, racy) && states'[0] == s && states'[|actions'|] == t';
  }

  // ---- a job row between a check and its mark ----

  /** In every state of a run in which another instance is between its check and its
      mark, the new job it then marks is soundly completed exactly when that job has
      no parts: nothing can have been read under its snapshot yet. */
  lemma RaceSoundIff(s: State, i: Instance, j: Instance)
    requires Inv(s) && s.job.None? && Enabled(s, InsertJob(i)) && j != i && s.At(j).task.Finalizing?
    ensures var snap, t := s.At(i).phase.snap, Apply(s, InsertJob(i));
            && snap in s.plan && Enabled(t, MarkJob(j))
            && (Sound(Apply(t, MarkJob(j))) <==> s.plan[snap] == {})
  {
    hide RowsOk, AliveOk, TasksOk, JobOk, PlanOk, FinalOk, Present, Parts;
    assert PhaseOk(s.At(i).phase, s.lock == Some(i), s);
    var snap := s.At(i).phase.snap;
    assert forall p | (p, snap) in s.handed :: (p, snap).1 in s.posted;
    assert forall p | p in s.plan[snap] :: (p, snap) !in s.handed;
  }

  // ---- what every run keeps, disciplined or not ----

  /** A row in progress has a heartbeat, so that its lease can expire. */
  predicate Takeable(r: ChunkRow) { r.status.InProgress? ==> r.heartbeat.Some? }

  ghost predicate AllTakeable(t: ChunkTable) { forall id | id in t :: Takeable(t[id]) }

  /** The snapshots that workers, tasks and the job row name were posted, posted ones were
      exported, and only they were read under. */
  ghost predicate Named(s: State) {
    && HistoryOk(s)
    && (s.job.Some? ==> s.job.value.snap in s.posted)
    && (forall i: Instance :: WorkerNamed(s.At(i), s.posted, s.plan, s.nextSnap))
  }

  predicate WorkerNamed(w: Worker, posted: set<SnapshotId>, plan: map<SnapshotId, set<Part>>, nextSnap: SnapshotId) {
    && (w.snap.Some? ==> w.snap.value in posted)
    && (w.task.Reading? || w.task.Handed? || w.task.Marked? ==> w.task.snap in posted)
    && (w.phase.Inserting? ==> w.phase.snap in plan && w.phase.snap < nextSnap)
  }

  ghost predicate Plain(s: State) { AllTakeable(s.chunks) && Named(s) }

  lemma PreparingTakeable(s: State, a: Action)
    requires Preparing(a) && CanPrepare(s, a) && AllTakeable(s.chunks)
    ensures AllTakeable(Prepare(s, a).chunks)
  {
    hide Prepare, Inserted;
    ChunksPreparing(s, a);
  }

  lemma ExecutingTakeable(s: State, a: Action)
    requires !Preparing(a) && CanExecute(s, a) && AllTakeable(s.chunks)
    ensures AllTakeable(Execute(s, a).chunks)
  {
    hide ExecuteWorker, AllCompleted, Stamp;
  }

  lemma TakeableKept(s: State, a: Action)
    requires Enabled(s, a) && AllTakeable(s.chunks)
    ensures AllTakeable(Apply(s, a).chunks)
  {
    hide Prepare, Execute, CanPrepare, CanExecute, AllTakeable;
    if Preparing(a) { PreparingTakeable(s, a); } else { ExecutingTakeable(s, a); }
  }

  lemma PreparingNamed(s: State, a: Action)
    requires Preparing(a) && CanPrepare(s, a) && Named(s)
    ensures WorkerNamed(Prepare(s, a).At(a.i), Prepare(s, a).posted, Prepare(s, a).plan, Prepare(s, a).nextSnap)
  {
    hide Insertable, Inserted, Parts, OwnedBy, Unlocked, HistoryOk;
    assert WorkerNamed(s.At(a.i), s.posted, s.plan, s.nextSnap);
  }

  lemma PreparingKeepsNames(s: State, a: Action)
    requires Preparing(a) && CanPrepare(s, a) && Named(s)
    ensures Named(Prepare(s, a))
  {
    hide Prepare, Parts;
    var s' := Prepare(s, a);
    assert WorkerNamed(s.At(a.i), s.posted, s.plan, s.nextSnap);
    PreparePlans(s, a);
    PreparePosts(s, a);
    PrepareHandsNothing(s, a);
    PrepareJob(s, a);
    PostsItsJob(s, a);
    forall i: Instance ensures WorkerNamed(s'.At(i), s'.posted, s'.plan, s'.nextSnap) {
      if i == a.i {
        PreparingNamed(s, a);
      } else {
        OthersStayPreparing(s, a, i);
        assert WorkerNamed(s.At(i), s.posted, s.plan, s.nextSnap);
      }
    }
  }

  lemma PostsItsJob(s: State, a: Action)
    requires Preparing(a) && CanPrepare(s, a)
    ensures var s' := Prepare(s, a); s'.job == s.job || s'.job.None? || s'.job.value.snap in s'.posted
  {
    hide PrepareWorker, Insertable, Inserted, Parts, OwnedBy, Unlocked;
  }

  lemma ExecutingNamed(s: State, a: Action)
    requires !Preparing(a) && CanExecute(s, a) && Named(s) && !a.Heartbeat?
    ensures WorkerNamed(Execute(s, a).At(a.i), s.posted, s.plan, s.nextSnap)
    ensures forall h | h in Execute(s, a).handed :: h in s.handed || h.1 in s.posted
  {
    hide Claimable, AllCompleted, Update, Stamp, StatusOf, HeartbeatOf;
    assert WorkerNamed(s.At(a.i), s.posted, s.plan, s.nextSnap);
  }

  lemma ExecutingKeepsNames(s: State, a: Action)
    requires !Preparing(a) && CanExecute(s, a) && Named(s)
    ensures Named(Execute(s, a))
  {
    hide Execute, CanExecute, SameRows;
    var s' := Execute(s, a);
    ExecuteIsQuiet(s, a);
    if a.Heartbeat? { HeartbeatHandsNothing(s, a); } else { ExecutingNamed(s, a); }
    forall i: Instance ensures WorkerNamed(s'.At(i), s'.posted, s'.plan, s'.nextSnap) {
      if a.Heartbeat? || i != a.i {
        OthersStayExecuting(s, a, i);
        assert WorkerNamed(s.At(i), s.posted, s.plan, s.nextSnap);
      }
    }
  }

  lemma HeartbeatHandsNothing(s: State, a: Action)
    requires a.Heartbeat?
    ensures Execute(s, a).handed == s.handed
  {
  }

  lemma PlainKept(s: State, a: Action)
    requires Enabled(s, a) && Plain(s)
    ensures Plain(Apply(s, a))
  {
    hide Prepare, Execute, CanPrepare, CanExecute, Named, AllTakeable;
    TakeableKept(s, a);
    if Preparing(a) { PreparingKeepsNames(s, a); } else { ExecutingKeepsNames(s, a); }
  }

  lemma {:induction false} RunPlain(states: seq<State>, actions: seq<Action>, k: nat, leaky: bool, racy: bool)
    requires Run(states, actions, leaky, racy) && Plain(states[0]) && k <= |actions|
    ensures Plain(states[k])
    decreases k
  {
    hide Apply, Enabled, Plain, Allowed;
    if k > 0 {
      RunPlain(states, actions, k - 1, leaky, racy);
      assert Step(states[k - 1], actions[k - 1], states[k - 1 + 1]);
      PlainKept(states[k - 1], actions[k - 1]);
    }
  }

  lemma LeadsPlain(s: State, s': State, leaky: bool, racy: bool)
    requires Leads(s, s', leaky, racy) && Plain(s)
    ensures Plain(s')
  {
    hide Step, Allowed, Plain;
    var states: seq<State>, actions: seq<Action> :|
      Run(states, actions, leaky, racy) && states[0] == s && states[|actions|] == s';
    RunPlain(states, actions, |actions|, leaky, racy);
  }

  /** Any run at all keeps it. */
  lemma {:induction false} AlwaysPlain(states: seq<State>, actions: seq<Action>, k: nat)
    requires Behaviour(states, actions) && k <= |actions|
    ensures Plain(states[k])
    decreases k
  {
    hide Apply, Enabled, Plain;
    if k == 0 {
      InitPlain();
    } else {
      AlwaysPlain(states, actions, k - 1);
      assert Step(states[k - 1], actions[k - 1], states[k - 1 + 1]);
      PlainKept(states[k - 1], actions[k - 1]);
    }
  }

  lemma InitPlain()
    ensures Plain(INIT)
  {
  }

  // ---- an instance that holds a live older snapshot ----

  /** j is free, loaded the job of snapshot stale, and that one can still be imported. */
  predicate Holds(s: State, j: Instance, stale: SnapshotId) {
    s.At(j).task.Free? && s.At(j).snap == Some(stale) && stale in s.alive
  }

  /** Late enough for any lease to have expired. */
  function Late(r: ChunkRow): nat { if r.heartbeat.Some? then (r.heartbeat.value + 1) * 1000 else 0 }

  lemma LateClaims(r: ChunkRow)
    requires Takeable(r) && !r.status.Completed?
    ensures Claimable(r, Late(r), 0)
  {
  }

  lemma ClaimStep(s: State, j: Instance, id: ChunkId)
    requires s.At(j).task.Free? && s.At(j).snap.Some? && id in s.chunks && Takeable(s.chunks[id])
        && !s.chunks[id].status.Completed?
    ensures var a := Claim(j, id, Late(s.chunks[id]), 0);
            && Enabled(s, a)
            && Apply(s, a) == s.Put(j, s.At(j).(task := Claimed(id, s.chunks[id].part)))
                               .(chunks := Update(s.chunks, id, InProgress, Some(Stamp(Late(s.chunks[id])))))
  {
    hide Claimable, Stamp, Update, Late, Takeable;
    LateClaims(s.chunks[id]);
  }

  lemma ImportStep(s: State, j: Instance)
    requires s.At(j).task.Claimed? && s.At(j).snap.Some? && s.At(j).snap.value in s.alive
    ensures Enabled(s, Import(j))
    ensures Apply(s, Import(j)) == s.Put(j,
        s.At(j).(task := Reading(s.At(j).task.id, s.At(j).task.part, s.At(j).snap.value)))
  {
  }

  lemma HandStep(s: State, j: Instance)
    requires s.At(j).task.Reading?
    ensures var t := s.At(j).task;
            && Enabled(s, Hand(j))
            && Apply(s, Hand(j)) == s.Put(j, s.At(j).(task := Handed(t.id, t.part, t.snap)))
                .(handed := s.handed + {(t.part, t.snap)})
  {
  }

  lemma MarkStep(s: State, j: Instance)
    requires s.At(j).task.Handed?
    ensures var t := s.At(j).task;
            && Enabled(s, MarkChunk(j))
            && Apply(s, MarkChunk(j)) == s.Put(j, s.At(j).(task := Marked(t.id, t.part, t.snap)))
                                          .(chunks := Update(s.chunks, t.id, Completed, HeartbeatOf(s.chunks, t.id)))
  {
    hide Update;
  }

  function Counted(job: Option<JobRow>): Option<JobRow> {
    if job.Some? then Some(job.value.(completedChunks := job.value.completedChunks + 1)) else None
  }

  lemma CountStep(s: State, j: Instance)
    requires s.At(j).task.Marked?
    ensures Enabled(s, Count(j, false))
    ensures Apply(s, Count(j, false)) == s.Put(j, s.At(j).(task := Free)).(job := Counted(s.job))
  {
  }

  /** The tables after j processed chunk id under snapshot old. */
  ghost predicate Processed(s: State, s': State, j: Instance, stale: SnapshotId, id: ChunkId) {
    && s' == s.(workers := s'.workers, chunks := s'.chunks, job := Counted(s.job), handed := s'.handed)
    && s'.At(j) == s.At(j) && (forall k: Instance | k != j :: s'.At(k) == s.At(k))
    && s'.chunks.Keys == s.chunks.Keys && id in s.chunks && s'.chunks[id].status.Completed?
    && (forall k | k in s.chunks && k != id :: s'.chunks[k] == s.chunks[k])
    && s'.handed == s.handed + {(s.chunks[id].part, stale)}
  }

  /** j claims a chunk that is not completed, imports the old snapshot, hands the rows
      over and marks the chunk. */
  lemma TakeChunk(s0: State, s: State, j: Instance, stale: SnapshotId, id: ChunkId, leaky: bool, racy: bool)
          returns (s': State)
    requires Leads(s0, s, leaky, racy) && Holds(s, j, stale)
    requires id in s.chunks && Takeable(s.chunks[id]) && !s.chunks[id].status.Completed?
    ensures Leads(s0, s', leaky, racy) && Processed(s, s', j, stale, id)
  {
    hide Apply, Enabled, Leads, Update, Late, Stamp, HeartbeatOf, Counted;
    ClaimStep(s, j, id);
    var a := Claim(j, id, Late(s.chunks[id]), 0);
    var s1 := Apply(s, a);
    LeadsOn(s0, s, a, leaky, racy);
    ImportStep(s1, j);
    var s2 := Apply(s1, Import(j));
    LeadsOn(s0, s1, Import(j), leaky, racy);
    HandStep(s2, j);
    var s3 := Apply(s2, Hand(j));
    LeadsOn(s0, s2, Hand(j), leaky, racy);
    MarkStep(s3, j);
    var s4 := Apply(s3, MarkChunk(j));
    LeadsOn(s0, s3, MarkChunk(j), leaky, racy);
    CountStep(s4, j);
    s' := Apply(s4, Count(j, false));
    LeadsOn(s0, s4, Count(j, false), leaky, racy);
  }

  function Unfinished(t: ChunkTable): set<ChunkId> { set id | id in t && !t[id].status.Completed? }

  /** What stays the same while j works through the table. */
  ghost predicate Drained(s: State, s': State, j: Instance, stale: SnapshotId) {
    && s'.At(j) == s.At(j) && (forall k: Instance | k != j :: s'.At(k) == s.At(k))
    && s'.chunks.Keys == s.chunks.Keys && s'.alive == s.alive && s'.plan == s.plan && s'.lock == s.lock
    && s'.nextSnap == s.nextSnap && s'.nextId == s.nextId && s'.posted == s.posted
    && SameOpen(s.job, s'.job)
    && forall h | h in s'.handed :: h in s.handed || h.1 == stale
  }

  predicate SameOpen(job: Option<JobRow>, job': Option<JobRow>) {
    job.Some? == job'.Some? &&
      (job.Some? ==> job'.value.snap == job.value.snap && job'.value.completed == job.value.completed)
  }

  /** j alone completes every chunk of the table. */
  lemma {:induction false} Drain(s0: State, s: State, j: Instance, stale: SnapshotId, leaky: bool, racy: bool)
          returns (s': State)
    requires Leads(s0, s, leaky, racy) && Holds(s, j, stale) && AllTakeable(s.chunks)
    ensures Leads(s0, s', leaky, racy) && Drained(s, s', j, stale)
    ensures forall id | id in s'.chunks :: s'.chunks[id].status.Completed?
    decreases |Unfinished(s.chunks)|
  {
    hide Leads, Takeable;
    if Unfinished(s.chunks) == {} {
      forall id | id in s.chunks ensures s.chunks[id].status.Completed? { assert id !in Unfinished(s.chunks); }
      s' := s;
    } else {
      var id :| id in Unfinished(s.chunks);
      var t := TakeChunk(s0, s, j, stale, id, leaky, racy);
      Fewer(s.chunks, t.chunks, id);
      StillTakeable(s.chunks, t.chunks, id);
      s' := Drain(s0, t, j, stale, leaky, racy);
    }
  }

  lemma Fewer(t: ChunkTable, t': ChunkTable, id: ChunkId)
    requires id in t && !t[id].status.Completed? && t'.Keys == t.Keys && t'[id].status.Completed?
    requires forall k | k in t && k != id :: t'[k] == t[k]
    ensures |Unfinished(t')| < |Unfinished(t)|
  {
    assert Unfinished(t') == Unfinished(t) - {id};
  }

  lemma StillTakeable(t: ChunkTable, t': ChunkTable, id: ChunkId)
    requires AllTakeable(t) && t'.Keys == t.Keys && id in t && t'[id].status.Completed?
    requires forall k | k in t && k != id :: t'[k] == t[k]
    ensures AllTakeable(t')
  {
  }

  lemma CheckStep(s: State, j: Instance)
    requires s.At(j).task.Free? && s.At(j).snap.Some? && AllCompleted(s.chunks)
    ensures Enabled(s, Check(j)) && Apply(s, Check(j)) == s.Put(j, s.At(j).(task := Finalizing))
  {
    hide AllCompleted;
  }

  lemma MarkJobStep(s: State, j: Instance)
    requires s.At(j).task.Finalizing? && s.job.Some?
    ensures Enabled(s, MarkJob(j))
    ensures Apply(s, MarkJob(j)) == s.Put(j, s.At(j).(snap := None, task := Free))
            .(job := Some(s.job.value.(completed := true)))
  {
  }

  /** j completes the table and passes its check. */
  lemma DrainAndCheck(s0: State, s: State, j: Instance, stale: SnapshotId, leaky: bool, racy: bool) returns (s': State)
    requires Leads(s0, s, leaky, racy) && Holds(s, j, stale) && AllTakeable(s.chunks) && s.chunks != map[]
    ensures Leads(s0, s', leaky, racy) && s'.At(j) == s.At(j).(task := Finalizing)
    ensures forall k: Instance | k != j :: s'.At(k) == s.At(k)
    ensures s'.alive == s.alive && s'.plan == s.plan && s'.lock == s.lock && s'.nextSnap == s.nextSnap
        && s'.nextId == s.nextId
    ensures SameOpen(s.job, s'.job) && forall h | h in s'.handed :: h in s.handed || h.1 == stale
  {
    hide Leads, Apply, Enabled, AllTakeable;
    var t := Drain(s0, s, j, stale, leaky, racy);
    assert t.chunks.Keys != {};
    CheckStep(t, j);
    LeadsOn(s0, t, Check(j), leaky, racy);
    s' := Apply(t, Check(j));
  }

  /** At every moment of every run: an instance that holds an older snapshot which can
      still be imported can by itself, with no further export or job row, complete an
      open job of which some part was not handed over. */
  lemma StaleHolderCompletes(states: seq<State>, actions: seq<Action>, k: nat, j: Instance, p: Part)
    requires Behaviour(states, actions) && k <= |actions|
    requires var s := states[k];
             && HoldsLive(s, j) && s.chunks != map[]
             && s.job.Some? && s.job.value.snap != s.At(j).snap.value && s.job.value.snap in s.plan
             && p in s.plan[s.job.value.snap] && (p, s.job.value.snap) !in s.handed
    ensures exists s' :: Leads(states[k], s', false, false) && !Sound(s')
  {
    hide Leads, Apply, Enabled, AllTakeable;
    AlwaysPlain(states, actions, k);
    var s := states[k];
    LeadsSelf(s, false, false);
    var t := s;
    if !s.At(j).task.Free? {
      AbandonStep(s, j);
      LeadsOn(s, s, Abandon(j), false, false);
      t := Apply(s, Abandon(j));
    }
    var s' := StaleRun(s, t, j, s.At(j).snap.value, p, false, false);
  }

  lemma StaleRun(s0: State, s: State, j: Instance, stale: SnapshotId, p: Part, leaky: bool, racy: bool)
          returns (s': State)
    requires Leads(s0, s, leaky, racy) && Holds(s, j, stale) && AllTakeable(s.chunks) && s.chunks != map[]
    requires s.job.Some? && s.job.value.snap != stale && s.job.value.snap in s.plan
    requires p in s.plan[s.job.value.snap] && (p, s.job.value.snap) !in s.handed
    ensures Leads(s0, s', leaky, racy) && !Sound(s')
  {
    hide Leads, Apply, Enabled, AllTakeable;
    var t := DrainAndCheck(s0, s, j, stale, leaky, racy);
    MarkJobStep(t, j);
    LeadsOn(s0, t, MarkJob(j), leaky, racy);
    s' := Apply(t, MarkJob(j));
    assert (p, s.job.value.snap) !in s'.handed;
  }

  // ---- a coordinator that writes its whole plan ----

  /** Every batch can be inserted after those before it. */
  ghost predicate AllInsertable(t: ChunkTable, next: ChunkId, snap: SnapshotId, batches: seq<seq<Part>>)
    decreases |batches|
  {
    batches == [] ||
    (Insertable(t, batches[0]) && AllInsertable(Inserted(t, next, snap, batches[0]), next + |batches[0]|, snap,
      batches[1..]))
  }

  lemma ExportStep(s: State, i: Instance, batches: seq<seq<Part>>)
    requires s.At(i).phase.Exporting?
    ensures Enabled(s, Export(i, batches))
    ensures Apply(s, Export(i, batches))
         == s.Put(i, s.At(i).(phase := Inserting(s.nextSnap, batches)))
             .(alive := s.alive[s.nextSnap := i], plan := s.plan[s.nextSnap := Parts(batches)],
                 nextSnap := s.nextSnap + 1)
  {
    hide Parts;
  }

  lemma InsertStep(s: State, i: Instance)
    requires s.At(i).phase.Inserting? && s.At(i).phase.batches != [] && Insertable(s.chunks, s.At(i).phase.batches[0])
    ensures var p := s.At(i).phase;
            && Enabled(s, InsertBatch(i))
            && Apply(s, InsertBatch(i)) == s.Put(i, s.At(i).(phase := Inserting(p.snap, p.batches[1..])))
                 .(chunks := Inserted(s.chunks, s.nextId, p.snap, p.batches[0]), nextId := s.nextId + |p.batches[0]|)
  {
    hide Insertable, Inserted;
  }

  lemma InsertJobStep(s: State, i: Instance)
    requires s.At(i).phase.Inserting? && s.At(i).phase.batches == [] && s.job.None?
    ensures Enabled(s, InsertJob(i))
    ensures Apply(s, InsertJob(i)) == s.Put(i, s.At(i).(phase := Prepared))
         .(job := Some(JobRow(s.At(i).phase.snap, false, 0)), posted := s.posted + {s.At(i).phase.snap})
  {
  }

  lemma {:induction false} InsertAll(s0: State, s: State, i: Instance, leaky: bool, racy: bool) returns (s': State)
    requires Leads(s0, s, leaky, racy) && s.At(i).phase.Inserting? && AllTakeable(s.chunks)
    requires AllInsertable(s.chunks, s.nextId, s.At(i).phase.snap, s.At(i).phase.batches)
    ensures Leads(s0, s', leaky, racy) && s'.At(i) == s.At(i).(phase := Inserting(s.At(i).phase.snap, []))
    ensures s' == s.(workers := s'.workers, chunks := s'.chunks, nextId := s'.nextId) && AllTakeable(s'.chunks)
    ensures s.chunks != map[] || Parts(s.At(i).phase.batches) != {} ==> s'.chunks != map[]
    ensures forall k: Instance | k != i :: s'.At(k) == s.At(k)
    decreases |s.At(i).phase.batches|
  {
    hide Leads, Apply, Enabled, Inserted, Insertable, Parts;
    var p := s.At(i).phase;
    if p.batches == [] {
      NoParts();
      s' := s;
    } else {
      InsertStep(s, i);
      LeadsOn(s0, s, InsertBatch(i), leaky, racy);
      var t := Apply(s, InsertBatch(i));
      AfterInsert(s.chunks, s.nextId, p.snap, p.batches);
      s' := InsertAll(s0, t, i, leaky, racy);
    }
  }

  lemma AfterInsert(t: ChunkTable, next: ChunkId, snap: SnapshotId, batches: seq<seq<Part>>)
    requires batches != [] && AllTakeable(t)
    ensures var t' := Inserted(t, next, snap, batches[0]);
            && AllTakeable(t')
            && (t != map[] || Parts(batches) != {} ==> t' != map[] || Parts(batches[1..]) != {})
  {
    hide Inserted, Parts;
    var t' := Inserted(t, next, snap, batches[0]);
    if batches[0] != [] {
      assert next in t';
    } else if t != map[] {
      var id :| id in t;
      assert id in t';
    } else if Parts(batches) != {} {
      var p :| p in Parts(batches);
      PartsRest(batches, p);
    }
  }

  /** Instance i exports and writes chunks and job row without a failure. */
  lemma ExportAll(s0: State, s: State, i: Instance, batches: seq<seq<Part>>, leaky: bool, racy: bool)
          returns (s': State)
    requires Leads(s0, s, leaky, racy) && s.At(i).phase.Exporting? && s.job.None? && AllTakeable(s.chunks)
    requires (leaky || s.alive == map[]) && (racy || !AnyFinalizing(s))
    requires AllInsertable(s.chunks, s.nextId, s.nextSnap, batches)
    ensures Leads(s0, s', leaky, racy) && AllTakeable(s'.chunks) && (Parts(batches) != {} ==> s'.chunks != map[])
    ensures s'.job == Some(JobRow(s.nextSnap, false, 0)) && s'.lock == s.lock && s'.handed == s.handed
    ensures s'.nextSnap == s.nextSnap + 1 && s'.posted == s.posted + {s.nextSnap}
    ensures s'.alive == s.alive[s.nextSnap := i] && s'.plan == s.plan[s.nextSnap := Parts(batches)]
    ensures s'.At(i) == s.At(i).(phase := Prepared) && forall k: Instance | k != i :: s'.At(k) == s.At(k)
  {
    hide Leads, Apply, Enabled, AllInsertable, AllTakeable, AnyFinalizing, Parts;
    var t := Exported(s0, s, i, batches, leaky, racy);
    var u := InsertAll(s0, t, i, leaky, racy);
    InsertJobStep(u, i);
    SameFinalizing(s, u, i);
    LeadsOn(s0, u, InsertJob(i), leaky, racy);
    s' := Apply(u, InsertJob(i));
  }

  lemma Exported(s0: State, s: State, i: Instance, batches: seq<seq<Part>>, leaky: bool, racy: bool) returns (t: State)
    requires Leads(s0, s, leaky, racy) && s.At(i).phase.Exporting? && (leaky || s.alive == map[])
    ensures Leads(s0, t, leaky, racy)
    ensures t == s.Put(i, s.At(i).(phase := Inserting(s.nextSnap, batches)))
                  .(alive := s.alive[s.nextSnap := i], plan := s.plan[s.nextSnap := Parts(batches)],
                      nextSnap := s.nextSnap + 1)
  {
    hide Leads, Apply, Enabled, Parts;
    ExportStep(s, i, batches);
    LeadsOn(s0, s, Export(i, batches), leaky, racy);
    t := Apply(s, Export(i, batches));
  }

  lemma SameFinalizing(s: State, u: State, i: Instance)
    requires u.At(i).task == s.At(i).task && forall k: Instance | k != i :: u.At(k) == s.At(k)
    ensures AnyFinalizing(u) ==> AnyFinalizing(s)
  {
    if AnyFinalizing(u) {
      var k :| k in u.workers && u.workers[k].task.Finalizing?;
      assert u.At(k).task.Finalizing?;
      assert s.At(k).task.Finalizing?;
      assert k in s.workers;
    }
  }

  // ---- giving up tasks ----

  lemma AbandonStep(s: State, j: Instance)
    requires !s.At(j).task.Free?
    ensures Enabled(s, Abandon(j)) && Apply(s, Abandon(j)) == s.Put(j, s.At(j).(task := Free))
  {
  }

  function Busy(s: State): set<Instance> { set i | i in s.workers && !s.workers[i].task.Free? }

  lemma BusyIs(s: State, i: Instance)
    ensures i in Busy(s) <==> !s.At(i).task.Free?
  {
  }

  /** Everyone may give up its task: errors are logged and the loop goes on. */
  lemma {:induction false} AllGiveUp(s0: State, s: State, leaky: bool, racy: bool) returns (s': State)
    requires Leads(s0, s, leaky, racy)
    ensures Leads(s0, s', leaky, racy) && s' == s.(workers := s'.workers)
    ensures forall i: Instance :: s'.At(i) == s.At(i).(task := Free)
    decreases |Busy(s)|
  {
    hide Leads, Apply, Enabled;
    if Busy(s) == {} {
      forall i: Instance ensures s.At(i).task.Free? { BusyIs(s, i); }
      s' := s;
    } else {
      var j :| j in Busy(s);
      BusyIs(s, j);
      AbandonStep(s, j);
      LeadsOn(s0, s, Abandon(j), leaky, racy);
      var t := Apply(s, Abandon(j));
      FewerBusy(s, t, j);
      s' := AllGiveUp(s0, t, leaky, racy);
    }
  }

  lemma FewerBusy(s: State, t: State, j: Instance)
    requires !s.At(j).task.Free? && t == s.Put(j, s.At(j).(task := Free))
    ensures |Busy(t)| < |Busy(s)|
  {
    BusyIs(s, j);
    forall i: Instance ensures i in Busy(t) <==> i in Busy(s) && i != j { BusyIs(s, i); BusyIs(t, i); }
    assert Busy(t) == Busy(s) - {j};
  }

  // ---- an export beside a held live snapshot ----

  /** From the moment of the export: whoever still holds an older snapshot that can be
      imported can complete the new job under it, for any plan with a part whose
      inserts succeed, and without a further export. */
  lemma LeakRun(s0: State, t: State, i: Instance, j: Instance, leaky: bool, racy: bool) returns (s': State)
    requires Leads(s0, t, leaky, racy) && Plain(t) && t.At(i).phase.Inserting? && t.job.None? && HoldsLive(t, j)
    requires var p := t.At(i).phase;
             && p.snap !in t.posted && AllInsertable(t.chunks, t.nextId, p.snap, p.batches)
             && t.plan[p.snap] == Parts(p.batches) != {}
    ensures Leads(s0, s', leaky, racy) && !Sound(s')
  {
    hide Leads, Apply, Enabled, AllInsertable, AllTakeable, AnyFinalizing, Parts, Sound;
    var snap := t.At(i).phase.snap;
    assert WorkerNamed(t.At(j), t.posted, t.plan, t.nextSnap);
    var u := AllGiveUp(s0, t, leaky, racy);
    var v := InsertAll(s0, u, i, leaky, racy);
    InsertJobStep(v, i);
    forall k: Instance ensures v.At(k).task.Free? { assert u.At(k).task.Free?; }
    NoneFinalizing(v);
    LeadsOn(s0, v, InsertJob(i), leaky, racy);
    var w := Apply(v, InsertJob(i));
    assert w.At(j).snap == t.At(j).snap && w.At(j).task.Free?;
    var p :| p in Parts(t.At(i).phase.batches);
    assert forall q | (q, snap) in t.handed :: (q, snap).1 in t.posted;
    s' := StaleRun(s0, w, j, t.At(j).snap.value, p, leaky, racy);
  }

  lemma AfterExport(s: State, i: Instance, batches: seq<seq<Part>>) returns (t: State)
    requires Plain(s) && s.At(i).phase.Exporting?
    ensures Enabled(s, Export(i, batches)) && t == Apply(s, Export(i, batches)) && Plain(t)
    ensures t.At(i).phase == Inserting(s.nextSnap, batches) && s.nextSnap !in t.posted
        && t.plan[s.nextSnap] == Parts(batches)
    ensures t.chunks == s.chunks && t.nextId == s.nextId && t.job == s.job
    ensures forall j: Instance :: HoldsLive(s, j) ==> HoldsLive(t, j)
  {
    hide Parts, Prepare, CanPrepare, AllTakeable, HistoryOk, Apply, Enabled;
    ExportStep(s, i, batches);
    t := Apply(s, Export(i, batches));
    TakeableKept(s, Export(i, batches));
    ExportKeepsNames(s, i, batches);
  }

  lemma ExportKeepsNames(s: State, i: Instance, batches: seq<seq<Part>>)
    requires Named(s) && s.At(i).phase.Exporting?
    ensures Enabled(s, Export(i, batches)) && Named(Apply(s, Export(i, batches))) && s.nextSnap !in s.posted
  {
    hide Prepare, Parts;
    PreparingKeepsNames(s, Export(i, batches));
  }

  /** At every moment of every run: an export while somebody holds a live older snapshot
      can be followed by the completion of an unread job. */
  lemma LeakIsFatal(states: seq<State>, actions: seq<Action>, k: nat, i: Instance, batches: seq<seq<Part>>, j: Instance)
    requires Behaviour(states, actions) && k <= |actions|
    requires states[k].At(i).phase.Exporting? && states[k].job.None? && HoldsLive(states[k], j)
    requires AllInsertable(states[k].chunks, states[k].nextId, states[k].nextSnap, batches) && Parts(batches) != {}
    ensures Enabled(states[k], Export(i, batches))
    ensures exists s' :: Leads(Apply(states[k], Export(i, batches)), s', false, false) && !Sound(s')
  {
    hide Parts, AllInsertable, Leads, Apply, Sound;
    AlwaysPlain(states, actions, k);
    var t := AfterExport(states[k], i, batches);
    LeadsSelf(t, false, false);
    var s' := LeakRun(t, t, i, j, false, false);
  }

  lemma {:induction false} RunInv(states: seq<State>, actions: seq<Action>, k: nat)
    requires Run(states, actions, false, false) && Inv(states[0]) && k <= |actions|
    ensures Inv(states[k])
    decreases k
  {
    hide Apply, Enabled, Inv, Disciplined, NoneImportable, NoNewJobWhileFinalizing;
    if k > 0 {
      RunInv(states, actions, k - 1);
      assert Step(states[k - 1], actions[k - 1], states[k - 1 + 1])
        && Allowed(states[k - 1], actions[k - 1], false, false);
      AllowedIsDisciplined(states[k - 1], actions[k - 1]);
      InvKept(states[k - 1], actions[k - 1]);
    }
  }

  lemma AllowedIsDisciplined(s: State, a: Action)
    requires Allowed(s, a, false, false)
    ensures Disciplined(s, a)
  {
  }

  /** The exact condition on an export, after any disciplined run: when no job row is
      there and the plan has a part and can be inserted, what follows can complete an
      unread job if and only if somebody holds an older snapshot that can still be
      imported at that moment. */
  lemma ExportUnsoundIff(states: seq<State>, actions: seq<Action>, k: nat, i: Instance, batches: seq<seq<Part>>)
    requires Behaviour(states, actions) && AllDisciplined(states, actions) && k <= |actions|
    requires states[k].At(i).phase.Exporting? && states[k].job.None?
    requires AllInsertable(states[k].chunks, states[k].nextId, states[k].nextSnap, batches) && Parts(batches) != {}
    ensures Enabled(states[k], Export(i, batches))
    ensures (exists s' :: Leads(Apply(states[k], Export(i, batches)), s', false, false) && !Sound(s'))
       <==> exists j: Instance :: HoldsLive(states[k], j)
  {
    hide Parts, AllInsertable, Apply, Enabled, Sound, Inv, Step, Allowed, HoldsLive;
    var s, a := states[k], Export(i, batches);
    ExportStep(s, i, batches);
    if j: Instance :| HoldsLive(s, j) {
      LeakIsFatal(states, actions, k, i, batches, j);
    } else {
      AlwaysInv(states, actions, k);
      InvKept(s, a);
      var t := Apply(s, a);
      if s' :| Leads(t, s', false, false) && !Sound(s') {
        var rs: seq<State>, bs: seq<Action> :| Run(rs, bs, false, false) && rs[0] == t && rs[|bs|] == s';
        RunInv(rs, bs, |bs|);
        InvIsSound(s');
      }
    }
  }

  lemma InvIsSound(s: State)
    requires Inv(s)
    ensures Sound(s)
  {
  }

  // ---- runs from the start ----

  const FIRST: Part := (0, 0)

  lemma OnePart()
    ensures Parts([[FIRST]]) == {FIRST}
  {
    var batches := [[FIRST]];
    assert batches[0] in batches && FIRST in batches[0];
    assert FIRST in Parts(batches);
  }

  lemma OneInsertable(next: ChunkId, snap: SnapshotId)
    ensures AllInsertable(map[], next, snap, [[FIRST]]) && AllTakeable(map[])
  {
    var batches := [[FIRST]];
    assert batches[1..] == [];
  }

  ghost predicate AllFree(s: State) { forall i: Instance :: s.At(i).task.Free? }

  lemma NoneFinalizing(s: State)
    requires AllFree(s)
    ensures !AnyFinalizing(s)
  {
    assert forall i | i in s.workers :: s.workers[i] == s.At(i);
  }

  lemma LockedBy(s0: State, s: State, i: Instance, leaky: bool, racy: bool) returns (s': State)
    requires Leads(s0, s, leaky, racy) && s.At(i) == FRESH && s.lock.None?
    ensures Leads(s0, s', leaky, racy) && s' == s.Put(i, Worker(Locked, None, Free)).(lock := Some(i))
  {
    hide Leads;
    LeadsOn(s0, s, TryLock(i), leaky, racy);
    s' := Apply(s, TryLock(i));
  }

  lemma PassedBy(s0: State, s: State, i: Instance, leaky: bool, racy: bool) returns (s': State)
    requires Leads(s0, s, leaky, racy) && s.At(i).phase.Locked? && s.job.None?
    ensures Leads(s0, s', leaky, racy) && s' == s.Put(i, s.At(i).(phase := Exporting))
  {
    hide Leads;
    LeadsOn(s0, s, LoadExisting(i, true), leaky, racy);
    s' := Apply(s, LoadExisting(i, true));
  }

  lemma LoadedBy(s0: State, s: State, j: Instance, leaky: bool, racy: bool) returns (s': State)
    requires Leads(s0, s, leaky, racy) && s.At(j) == FRESH && s.job.Some?
    ensures Leads(s0, s', leaky, racy) && s' == s.Put(j, Worker(Idle, Some(s.job.value.snap), Free))
  {
    hide Leads;
    LeadsOn(s0, s, LoadJob(j), leaky, racy);
    s' := Apply(s, LoadJob(j));
  }

  /** Instance i, which holds the lock, finds the open job and cleans it up. */
  lemma CleanedBy(s0: State, s: State, i: Instance, leaky: bool, racy: bool) returns (s': State)
    requires Leads(s0, s, leaky, racy) && s.At(i).phase.Locked? && s.job.Some? && !s.job.value.completed
    ensures Leads(s0, s', leaky, racy)
    ensures s' == s.Put(i, s.At(i).(phase := Exporting)).(chunks := map[], job := None)
  {
    hide Leads;
    LeadsOn(s0, s, LoadExisting(i, true), leaky, racy);
    var t := Apply(s, LoadExisting(i, true));
    assert t == s.Put(i, s.At(i).(phase := CleaningJob)).(chunks := map[]);
    s' := JobCleaned(s0, t, i, leaky, racy);
    assert s'.workers == s.workers[i := s.At(i).(phase := Exporting)];
  }

  lemma JobCleaned(s0: State, t: State, i: Instance, leaky: bool, racy: bool) returns (s': State)
    requires Leads(s0, t, leaky, racy) && t.At(i).phase.CleaningJob?
    ensures Leads(s0, s', leaky, racy) && s' == t.Put(i, t.At(i).(phase := Exporting)).(job := None)
  {
    hide Leads;
    LeadsOn(s0, t, CleanJob(i), leaky, racy);
    s' := Apply(t, CleanJob(i));
  }

  /** The first job, of one part, prepared by instance 0 and loaded by instance 1. */
  lemma FirstJob(leaky: bool, racy: bool) returns (s: State)
    ensures Leads(INIT, s, leaky, racy) && AllFree(s)
    ensures s.job == Some(JobRow(0, false, 0)) && s.chunks != map[] && AllTakeable(s.chunks)
    ensures s.lock == Some(0) && s.alive == map[0 := 0] && s.nextSnap == 1 && s.handed == {}
        && s.plan == map[0 := {FIRST}]
    ensures s.posted == {0}
    ensures s.At(0) == Worker(Prepared, None, Free) && s.At(1) == Worker(Idle, Some(0), Free) && s.At(2) == FRESH
  {
    hide Leads, AllInsertable, AllTakeable, Parts;
    LeadsSelf(INIT, leaky, racy);
    var t := LockedBy(INIT, INIT, 0, leaky, racy);
    var u := PassedBy(INIT, t, 0, leaky, racy);
    forall i: Instance ensures u.At(i).task.Free? { }
    NoneFinalizing(u);
    OnePart();
    OneInsertable(u.nextId, u.nextSnap);
    var v := ExportAll(INIT, u, 0, [[FIRST]], leaky, racy);
    assert v.At(1) == u.At(1) == FRESH;
    s := LoadedBy(INIT, v, 1, leaky, racy);
    forall i: Instance ensures s.At(i).task.Free? { assert i > 1 ==> s.At(i) == v.At(i) == u.At(i); }
    assert s.At(2) == v.At(2) == u.At(2);
  }

  /** If a coordinator restarts between another instance's completion check and its
      mark, which names only the slot, the new job is marked completed although
      nothing was read under its snapshot. */
  lemma RaceCompletesTheWrongJob()
    ensures exists s :: Leads(INIT, s, false, true) && !Sound(s)
  {
    hide Leads, AllTakeable, Sound;
    var s0 := FirstJob(false, true);
    var s1 := DrainAndCheck(INIT, s0, 1, 0, false, true);
    assert s1.At(2) == s0.At(2);
    var s := RestartAndMark(s1);
  }

  lemma RestartAndMark(s1: State) returns (s: State)
    requires Leads(INIT, s1, false, true) && s1.lock == Some(0) && s1.alive == map[0 := 0] && s1.nextSnap == 1
    requires s1.job.Some? && !s1.job.value.completed && forall h | h in s1.handed :: h.1 == 0
    requires s1.At(1).task.Finalizing? && s1.At(2) == FRESH
    ensures Leads(INIT, s, false, true) && !Sound(s)
  {
    hide Leads, AllInsertable, AllTakeable, Parts, Apply, Enabled;
    var s2 := CrashedBy(INIT, s1, 0, 0, false, true);
    var s3 := LockedBy(INIT, s2, 2, false, true);
    var s4 := CleanedBy(INIT, s3, 2, false, true);
    OnePart();
    OneInsertable(s4.nextId, s4.nextSnap);
    var s5 := ExportAll(INIT, s4, 2, [[FIRST]], false, true);
    assert s5.At(1) == s4.At(1) == s1.At(1);
    MarkJobStep(s5, 1);
    LeadsOn(INIT, s5, MarkJob(1), false, true);
    s := Apply(s5, MarkJob(1));
    assert (FIRST, 1) !in s.handed && FIRST in s.plan[1];
  }

  lemma CrashedBy(s0: State, s: State, i: Instance, snap: SnapshotId, leaky: bool, racy: bool) returns (s': State)
    requires Leads(s0, s, leaky, racy) && s.lock == Some(i) && s.alive == map[snap := i]
    ensures Leads(s0, s', leaky, racy) && s' == s.Put(i, FRESH).(lock := None, alive := map[])
  {
    hide Leads;
    LeadsOn(s0, s, Crash(i), leaky, racy);
    s' := Apply(s, Crash(i));
    assert snap in OwnedBy(s.alive, i);
    assert s'.alive.Keys == {};
  }

  /** If a coordinator prepares again without having crashed, its first exporting
      transaction stays open: an instance that still holds the stale job completes a
      new chunk with rows of the old snapshot. */
  lemma LeakCompletesUnderTheOldSnapshot()
    ensures exists s :: Leads(INIT, s, true, false) && !Sound(s)
  {
    hide Leads, Sound, AllTakeable, AnyFinalizing;
    var s0 := FirstJob(true, false);
    var s1 := RetriedBy(INIT, s0, 0, true, false);
    forall k: Instance ensures s1.At(k).task.Free? { assert s0.At(k).task.Free?; }
    var s := ReprepareAndMark(s1, 0);
  }

  lemma RetriedBy(s0: State, s: State, i: Instance, leaky: bool, racy: bool) returns (s': State)
    requires Leads(s0, s, leaky, racy) && s.lock == Some(i) && s.At(i).task.Free?
    ensures Leads(s0, s', leaky, racy) && s' == s.Put(i, Worker(Locked, None, Free))
  {
    hide Leads;
    LeadsOn(s0, s, Retry(i), leaky, racy);
    s' := Apply(s, Retry(i));
  }

  /** The same happens if the coordinator only loses the session that holds its lock:
      another instance becomes coordinator while the first snapshot is still open. */
  lemma LostLockCompletesUnderTheOldSnapshot()
    ensures exists s :: Leads(INIT, s, true, false) && !Sound(s)
  {
    hide Leads, Sound, AllTakeable, AnyFinalizing;
    var s0 := FirstJob(true, false);
    var s1 := LockLostBy(INIT, s0, 0, true, false);
    assert s1.At(2) == s0.At(2);
    var s2 := LockedBy(INIT, s1, 2, true, false);
    forall k: Instance ensures s2.At(k).task.Free? { assert s0.At(k).task.Free?; }
    var s := ReprepareAndMark(s2, 2);
  }

  lemma LockLostBy(s0: State, s: State, i: Instance, leaky: bool, racy: bool) returns (s': State)
    requires Leads(s0, s, leaky, racy) && s.lock == Some(i)
    ensures Leads(s0, s', leaky, racy) && s' == s.Put(i, s.At(i).(phase := Failed)).(lock := None)
  {
    hide Leads;
    LeadsOn(s0, s, LoseLock(i), leaky, racy);
    s' := Apply(s, LoseLock(i));
  }

  lemma ReprepareAndMark(s1: State, i: Instance) returns (s: State)
    requires Leads(INIT, s1, true, false) && i != 1 && s1.At(i) == Worker(Locked, None, Free)
    requires forall k: Instance :: s1.At(k).task.Free?
    requires s1.job.Some? && !s1.job.value.completed && s1.posted == {0} && s1.handed == {}
        && s1.plan == map[0 := {FIRST}]
    requires s1.alive == map[0 := 0] && s1.nextSnap == 1 && s1.At(1) == Worker(Idle, Some(0), Free)
    ensures Leads(INIT, s, true, false) && !Sound(s)
  {
    hide Leads, AllInsertable, AllTakeable, Parts, Sound;
    var s2 := CleanedBy(INIT, s1, i, true, false);
    forall k: Instance ensures s2.At(k).task.Free? { assert k != i ==> s2.At(k) == s1.At(k); }
    NoneFinalizing(s2);
    OnePart();
    OneInsertable(s2.nextId, s2.nextSnap);
    var t := Exported(INIT, s2, i, [[FIRST]], true, false);
    InitPlain();
    LeadsPlain(INIT, t, true, false);
    s := LeakRun(INIT, t, i, 1, true, false);
  }

  /** An attempt succeeds after all when its plan repeats no part that is there. */
  lemma FreshPlanUnblocks(states: seq<State>, actions: seq<Action>, k: nat, i: Instance, batches: seq<seq<Part>>)
    requires Behaviour(states, actions) && k <= |actions|
    requires states[k].At(i).phase.Exporting? && states[k].job.None?
    requires AllInsertable(states[k].chunks, states[k].nextId, states[k].nextSnap, batches)
    ensures exists s' :: Leads(states[k], s', true, false) && s'.job.Some? && s'.job.value.snap == states[k].nextSnap
  {
    hide Leads, AllInsertable, AnyFinalizing, Parts;
    AlwaysPlain(states, actions, k);
    LeadsSelf(states[k], true, false);
    var t := AllGiveUp(states[k], states[k], true, false);
    forall j: Instance ensures t.At(j).task.Free? { }
    NoneFinalizing(t);
    var s' := ExportAll(states[k], t, i, batches, true, false);
  }

  /** A coordinator that crashes between the chunk insert and the job insert leaves
      the state from which no job is ever created. */
  lemma CrashLeavesOrphans()
    ensures exists s :: Leads(INIT, s, false, false) && Stuck(s, FIRST)
  {
    hide Leads, Apply, Enabled;
    LeadsSelf(INIT, false, false);
    var t := LockedBy(INIT, INIT, 0, false, false);
    var u := PassedBy(INIT, t, 0, false, false);
    var v := Exported(INIT, u, 0, [[FIRST]], false, false);
    var batches := [[FIRST]];
    assert v.At(0).phase == Inserting(0, batches) && batches[0] == [FIRST];
    InsertStep(v, 0);
    LeadsOn(INIT, v, InsertBatch(0), false, false);
    var w := Apply(v, InsertBatch(0));
    assert 0 in w.chunks && w.chunks[0].part == FIRST;
    var s := CrashedBy(INIT, w, 0, 0, false, false);
    assert HasPart(s.chunks, FIRST);
    forall i: Instance ensures WillCollide(s.At(i).phase, FIRST) { assert s.At(i) == FRESH; }
    assert Stuck(s, FIRST);
  }
}
