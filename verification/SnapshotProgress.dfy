/** What an attempt can reach: when a coordinator's whole plan can be stored, and that its
    job can then be completed. */
module SnapshotProgress {
  import opened Basics
  import opened SnapshotProtocol
  import opened SnapshotSoundness
  import opened SnapshotRuns
  import C = Chunks
  import V = SnapshotCoverage

  // ---- storing a plan ----

  function Concat(batches: seq<seq<Part>>): seq<Part> {
    if batches == [] then [] else batches[0] + Concat(batches[1..])
  }

  lemma {:induction false} ConcatParts(batches: seq<seq<Part>>, p: Part)
    ensures p in Concat(batches) <==> p in Parts(batches)
  {
    hide Parts;
    if batches == [] {
      NoParts();
    } else {
      ConcatParts(batches[1..], p);
      assert batches == [batches[0]] + batches[1..];
      V.PartsOfConcat([batches[0]], batches[1..], p);
      V.OneBatch(batches[0], p);
    }
  }

  lemma {:induction false} ConcatBoth(a: seq<seq<Part>>, b: seq<seq<Part>>)
    ensures Concat(a + b) == Concat(a) + Concat(b)
    decreases |a|
  {
    if a == [] {
      assert a + b == b;
    } else {
      ConcatBoth(a[1..], b);
      assert (a + b)[1..] == a[1..] + b && (a + b)[0] == a[0];
    }
  }

  lemma DistinctBoth(a: seq<Part>, b: seq<Part>)
    ensures Distinct(a + b) <==> Distinct(a) && Distinct(b) && forall p | p in a :: p !in b
  {
    var ab := a + b;
    if Distinct(ab) {
      forall j, k | 0 <= j < k < |a| ensures a[j] != a[k] { assert ab[j] != ab[k]; }
      forall j, k | 0 <= j < k < |b| ensures b[j] != b[k] { assert ab[|a| + j] != ab[|a| + k]; }
      forall p | p in a ensures p !in b {
        var j :| 0 <= j < |a| && a[j] == p;
        forall k | 0 <= k < |b| ensures b[k] != p { assert ab[j] != ab[|a| + k]; }
      }
    }
    if Distinct(a) && Distinct(b) && forall p | p in a :: p !in b {
      forall j, k | 0 <= j < k < |ab| ensures ab[j] != ab[k] {
        if j < |a| { assert ab[j] in a; }
        if k >= |a| { assert ab[k] == b[k - |a|] && ab[k] in b; }
      }
    }
  }

  ghost predicate NonePresent(t: ChunkTable, ps: seq<Part>) { forall p | p in ps :: !HasPart(t, p) }

  lemma PresentAfter(t: ChunkTable, next: ChunkId, snap: SnapshotId, batch: seq<Part>, p: Part)
    requires forall id | id in t :: id < next
    ensures HasPart(Inserted(t, next, snap, batch), p) <==> HasPart(t, p) || p in batch
  {
    hide Inserted;
    var t' := Inserted(t, next, snap, batch);
    if id :| id in t && t[id].part == p { assert t'[id].part == p; }
    if k :| 0 <= k < |batch| && batch[k] == p { assert t'[next + k].part == p; }
  }

  /** A plan can be stored batch by batch exactly when it names no part twice and none that
      is in the table. */
  lemma {:induction false} StoredIff(t: ChunkTable, next: ChunkId, snap: SnapshotId, batches: seq<seq<Part>>)
    requires forall id | id in t :: id < next
    ensures AllInsertable(t, next, snap, batches) <==> Distinct(Concat(batches)) && NonePresent(t, Concat(batches))
    decreases |batches|
  {
    hide HasPart, Inserted, Distinct;
    if batches == [] {
      NothingTwice();
    } else {
      var batch, rest := batches[0], Concat(batches[1..]);
      var t' := Inserted(t, next, snap, batch);
      StoredIff(t', next + |batch|, snap, batches[1..]);
      DistinctBoth(batch, rest);
      forall p ensures HasPart(t', p) <==> HasPart(t, p) || p in batch { PresentAfter(t, next, snap, batch, p); }
    }
  }

  lemma NothingTwice()
    ensures Distinct([])
  {
  }

  lemma {:induction false} TableOnce(n: nat, from: nat, count: nat)
    ensures Distinct(Concat(V.TableBatches(n, from, count)))
    decreases count - from
  {
    if from < count {
      var to := if from + C.CHUNK_BATCH_SIZE < count then from + C.CHUNK_BATCH_SIZE else count;
      var first := seq(to - from, i requires 0 <= i < to - from => (n, from + i));
      var rest := V.TableBatches(n, to, count);
      assert V.TableBatches(n, from, count) == [first] + rest;
      assert ([first] + rest)[1..] == rest;
      TableOnce(n, to, count);
      forall p | p in first ensures p !in Concat(rest) {
        ConcatParts(rest, p);
        V.TableBatchesHold(n, to, count, p);
      }
      DistinctBoth(first, Concat(rest));
    }
  }

  /** No coordinator's plan names a part twice. */
  lemma {:induction false} PlanOnce(counts: seq<nat>)
    ensures Distinct(Concat(V.JobBatches(counts)))
    decreases |counts|
  {
    hide Parts, Concat;
    if counts == [] {
      assert Concat([]) == [] by { NothingPlanned(); }
    } else {
      var n := |counts| - 1;
      var init, last := V.JobBatches(counts[..n]), V.TableBatches(n, 0, counts[n]);
      PlanOnce(counts[..n]);
      TableOnce(n, 0, counts[n]);
      ConcatBoth(init, last);
      forall p | p in Concat(init) ensures p !in Concat(last) {
        ConcatParts(init, p);
        ConcatParts(last, p);
        V.JobBatchesHold(counts[..n], p);
        V.TableBatchesHold(n, 0, counts[n], p);
      }
      DistinctBoth(Concat(init), Concat(last));
    }
  }

  lemma NothingPlanned()
    ensures Concat([]) == []
  {
  }

  lemma {:induction false} IdsBelow(states: seq<State>, actions: seq<Action>, k: nat)
    requires Behaviour(states, actions) && k <= |actions|
    ensures forall id | id in states[k].chunks :: id < states[k].nextId
    decreases k
  {
    hide Prepare, Execute, CanPrepare, CanExecute, Inserted, SameJob;
    if k > 0 {
      IdsBelow(states, actions, k - 1);
      var s, a := states[k - 1], actions[k - 1];
      assert Step(s, a, states[k - 1 + 1]);
      if Preparing(a) { ChunksPreparing(s, a); } else { ExecuteIsQuiet(s, a); }
    }
  }

  /** At every moment of every run: the chunks a coordinator plans for its tables can all be
      stored exactly when the chunk table has no row for any of them. */
  lemma PlanStoredIff(states: seq<State>, actions: seq<Action>, k: nat, counts: seq<nat>)
    requires Behaviour(states, actions) && k <= |actions|
    ensures var s := states[k];
            AllInsertable(s.chunks, s.nextId, s.nextSnap, V.JobBatches(counts)) <==>
              forall p: Part | p.0 < |counts| && p.1 < counts[p.0] :: !HasPart(s.chunks, p)
  {
    hide Step, HasPart, Parts, Concat, AllInsertable;
    IdsBelow(states, actions, k);
    PlanOnce(counts);
    var s := states[k];
    StoredIff(s.chunks, s.nextId, s.nextSnap, V.JobBatches(counts));
    forall p: Part ensures p in Concat(V.JobBatches(counts)) <==> p.0 < |counts| && p.1 < counts[p.0] {
      ConcatParts(V.JobBatches(counts), p);
      V.JobBatchesHold(counts, p);
    }
  }

  /** The batches of a table: a thousand chunks each, and what is left in the last. */
  lemma {:induction false} BatchSizes(n: nat, from: nat, count: nat)
    requires from <= count
    ensures var bs := V.TableBatches(n, from, count);
            && |bs| == (count - from + 999) / 1000
            && forall k | 0 <= k < |bs| ::
                 |bs[k]| == if k < |bs| - 1 then 1000 else count - from - 1000 * (|bs| - 1)
    decreases count - from
  {
    if from < count {
      var to := if from + C.CHUNK_BATCH_SIZE < count then from + C.CHUNK_BATCH_SIZE else count;
      BatchSizes(n, to, count);
      var rest, bs := V.TableBatches(n, to, count), V.TableBatches(n, from, count);
      assert bs[1..] == rest;
      assert forall k | 1 <= k < |bs| :: bs[k] == rest[k - 1];
    }
  }

  // ---- completing a job ----

  /** The exporting instance loads its own job and completes every chunk of it. */
  lemma JobDone(s0: State, s: State, i: Instance) returns (t: State)
    requires Leads(s0, s, false, false) && s.At(i).phase.Prepared? && s.At(i).task.Free? && s.job.Some?
    requires s.job.value.snap in s.alive && AllTakeable(s.chunks) && s.chunks != map[]
    ensures Leads(s0, t, false, false)
    ensures t.job.Some? && t.job.value.completed && t.job.value.snap == s.job.value.snap && t.plan == s.plan
  {
    hide Leads, Apply, Enabled, AllTakeable;
    LoadStep(s, i);
    LeadsOn(s0, s, LoadJob(i), false, false);
    var u := Apply(s, LoadJob(i));
    var v := DrainAndCheck(s0, u, i, s.job.value.snap, false, false);
    MarkJobStep(v, i);
    LeadsOn(s0, v, MarkJob(i), false, false);
    t := Apply(v, MarkJob(i));
  }

  lemma LoadStep(s: State, i: Instance)
    requires s.At(i).phase.Prepared? && s.At(i).task.Free? && s.job.Some?
    ensures Enabled(s, LoadJob(i))
    ensures Apply(s, LoadJob(i)) == s.Put(i, s.At(i).(snap := Some(s.job.value.snap)))
  {
  }

  lemma LedSound(s: State, t: State)
    requires Inv(s) && Leads(s, t, false, false)
    ensures Sound(t)
  {
    hide Inv, Apply, Enabled, Allowed;
    var rs: seq<State>, bs: seq<Action> :| Run(rs, bs, false, false) && rs[0] == s && rs[|bs|] == t;
    RunInv(rs, bs, |bs|);
    InvIsSound(t);
  }

  /** An attempt can succeed: after any disciplined run, an instance about to export, with no
      job row there and no chunk row for any chunk of its plan, can have its job completed
      with every chunk handed over under its own snapshot. */
  lemma AttemptCanComplete(states: seq<State>, actions: seq<Action>, k: nat, i: Instance, counts: seq<nat>)
    returns (t: State)
    requires Behaviour(states, actions) && AllDisciplined(states, actions) && k <= |actions|
    requires states[k].At(i).phase.Exporting? && states[k].job.None?
    requires (forall j: Instance :: !HoldsLive(states[k], j)) && exists n :: 0 <= n < |counts| && counts[n] > 0
    requires forall p: Part | p.0 < |counts| && p.1 < counts[p.0] :: !HasPart(states[k].chunks, p)
    ensures Leads(states[k], t, false, false)
    ensures t.job.Some? && t.job.value.completed && t.job.value.snap == states[k].nextSnap
    ensures forall p: Part | p.0 < |counts| && p.1 < counts[p.0] :: (p, states[k].nextSnap) in t.handed
  {
    hide Step, Leads, Apply, Enabled, AllInsertable, AllTakeable, HasPart, Parts, Inv, AnyFinalizing, HistoryOk;
    var s, batches := states[k], V.JobBatches(counts);
    AlwaysInv(states, actions, k);
    AlwaysPlain(states, actions, k);
    PlanStoredIff(states, actions, k, counts);
    LeadsSelf(s, false, false);
    var n :| 0 <= n < |counts| && counts[n] > 0;
    V.JobBatchesHold(counts, (n, 0));
    t := PlanDone(s, i, batches);
    LedSound(s, t);
    forall p: Part | p.0 < |counts| && p.1 < counts[p.0] ensures (p, s.nextSnap) in t.handed {
      V.JobBatchesHold(counts, p);
    }
  }

  lemma PlanDone(s: State, i: Instance, batches: seq<seq<Part>>) returns (t: State)
    requires Leads(s, s, false, false) && s.At(i).phase.Exporting? && s.job.None? && AllTakeable(s.chunks)
    requires (forall j: Instance :: !HoldsLive(s, j)) && Parts(batches) != {}
    requires AllInsertable(s.chunks, s.nextId, s.nextSnap, batches)
    ensures Leads(s, t, false, false)
    ensures t.job.Some? && t.job.value.completed && t.job.value.snap == s.nextSnap
    ensures s.nextSnap in t.plan && t.plan[s.nextSnap] == Parts(batches)
  {
    hide Leads, Apply, Enabled, AllInsertable, AllTakeable, AnyFinalizing, Parts;
    var u := AllGiveUp(s, s, false, false);
    SnapshotRuns.ExportStep(u, i, batches);
    forall j: Instance ensures !HoldsLive(u, j) { assert !HoldsLive(s, j) && u.At(j).snap == s.At(j).snap; }
    LeadsOn(s, u, Export(i, batches), false, false);
    var v := InsertAll(s, Apply(u, Export(i, batches)), i, false, false);
    InsertJobStep(v, i);
    forall j: Instance ensures v.At(j).task.Free? { assert u.At(j).task.Free?; }
    NoneFinalizing(v);
    LeadsOn(s, v, InsertJob(i), false, false);
    t := JobDone(s, Apply(v, InsertJob(i)), i);
  }

  // ---- retries and exits ----

  /** A refused insert changes no table and ends the attempt: a batch that repeats a part, or
      a job row where one is there. The instance can then neither go on nor load a job. */
  lemma RefusedInsertFails(s: State, i: Instance, a: Action)
    requires s.At(i).phase.Inserting?
    requires var p := s.At(i).phase;
             || (a == InsertBatch(i) && p.batches != [] && !Insertable(s.chunks, p.batches[0]))
             || (a == InsertJob(i) && p.batches == [] && s.job.Some?)
    ensures Enabled(s, a)
    ensures var t := Apply(s, a);
            && t.chunks == s.chunks && t.job == s.job && t.nextId == s.nextId && t.posted == s.posted
            && !Enabled(t, InsertBatch(i)) && !Enabled(t, InsertJob(i)) && !Enabled(t, LoadJob(i))
            && forall snap :: !Enabled(t, Close(i, snap))
  {
    hide Insertable, Inserted;
  }

  /** Marking a chunk completes its row, if it is still there, and touches nothing else: not
      the heartbeat, not another row, not the job. */
  lemma MarkCompletes(s: State, i: Instance)
    requires s.At(i).task.Handed?
    ensures Enabled(s, MarkChunk(i))
    ensures var t, id := Apply(s, MarkChunk(i)), s.At(i).task.id;
            && t.job == s.job && t.handed == s.handed && t.chunks.Keys == s.chunks.Keys
            && (id in s.chunks ==> t.chunks[id] == s.chunks[id].(status := Completed))
            && forall k | k in s.chunks && k != id :: t.chunks[k] == s.chunks[k]
  {
    hide AllCompleted, Claimable;
  }

  /** A read that was broken off can be begun anew as long as the snapshot lives; the
      instance keeps its chunk, and no row changes. */
  lemma BrokenReadGoesOn(s: State, i: Instance)
    requires s.At(i).task.Reading?
    ensures Enabled(s, Rewind(i))
    ensures var s', t := Apply(s, Rewind(i)), s.At(i).task;
            && s'.chunks == s.chunks && s'.job == s.job && s'.handed == s.handed
            && (s.At(i).snap == Some(t.snap) && t.snap in s.alive ==>
                  Enabled(s', Import(i)) && Apply(s', Import(i)).At(i).task == t)
  {
    hide Update, HeartbeatOf;
  }

  /** A mark whose second statement failed, or that failed after it, is sent again from its
      first statement, by the instance that handed the rows over. */
  lemma FailedMarkGoesOn(s: State, i: Instance, a: Action)
    requires s.At(i).task.Marked? && (a == Rewind(i) || a == Count(i, true))
    ensures Enabled(s, a)
    ensures var s' := Apply(s, a);
            && s'.chunks == s.chunks && s'.handed == s.handed
            && Enabled(s', MarkChunk(i)) && Apply(s', MarkChunk(i)).At(i).task == s.At(i).task
  {
    hide Update, HeartbeatOf;
  }

  /** An instance that stops, in order or by a crash, frees the lock it holds and takes its
      exporting transactions with it: by a crash all of them, and nobody else's. */
  lemma ExitsReleaseAll(s: State, i: Instance, snap: SnapshotId)
    ensures Enabled(s, Crash(i))
    ensures var t := Apply(s, Crash(i));
            && t.lock != Some(i) && (s.lock != Some(i) ==> t.lock == s.lock)
            && (forall k :: k in t.alive <==> k in s.alive && s.alive[k] != i)
            && t.chunks == s.chunks && t.job == s.job
    ensures s.At(i).phase.Prepared? && s.At(i).task.Free? && snap in s.alive && s.alive[snap] == i ==>
              && Enabled(s, Close(i, snap))
              && var t := Apply(s, Close(i, snap));
                 t.lock != Some(i) && (forall k :: k in t.alive <==> k in s.alive && k != snap)
                 && t.chunks == s.chunks && t.job == s.job
  {
  }

  // ---- the counter of the job row ----

  /** Increments since the job row was written. */
  function Increments(states: seq<State>, actions: seq<Action>, k: nat): nat
    requires |states| == |actions| + 1 && k <= |actions|
  {
    if k == 0 || states[k - 1].job.None? then 0
    else Increments(states, actions, k - 1) + (if actions[k - 1].Count? then 1 else 0)
  }

  /** completed_chunks is one for every increment a worker sent since the row was written. */
  lemma {:induction false} CounterIs(states: seq<State>, actions: seq<Action>, k: nat)
    requires Behaviour(states, actions) && k <= |actions| && states[k].job.Some?
    ensures states[k].job.value.completedChunks == Increments(states, actions, k)
    decreases k
  {
    hide Prepare, Execute, CanPrepare, CanExecute, Inserted;
    if k > 0 {
      var s, a := states[k - 1], actions[k - 1];
      assert Step(s, a, states[k - 1 + 1]);
      CounterStep(s, a);
      if s.job.Some? { CounterIs(states, actions, k - 1); }
    }
  }

  ghost predicate Counted(a: Action, job: Option<JobRow>, job': Option<JobRow>) {
    job'.Some? ==>
      job'.value.completedChunks == if job.None? then 0 else job.value.completedChunks + (if a.Count? then 1 else 0)
  }

  lemma CounterStep(s: State, a: Action)
    requires Enabled(s, a)
    ensures Counted(a, s.job, Apply(s, a).job)
  {
    hide Counted, Prepare, Execute, CanPrepare, CanExecute;
    if Preparing(a) { CounterPreparing(s, a); } else { CounterExecuting(s, a); }
  }

  lemma CounterPreparing(s: State, a: Action)
    requires Preparing(a) && CanPrepare(s, a)
    ensures Counted(a, s.job, Prepare(s, a).job)
  {
    hide PrepareWorker, Insertable, Inserted, Parts, OwnedBy, Unlocked;
  }

  lemma CounterExecuting(s: State, a: Action)
    requires !Preparing(a) && CanExecute(s, a)
    ensures Counted(a, s.job, Execute(s, a).job)
  {
    hide ExecuteWorker, Update, AllCompleted, Claimable, Stamp, StatusOf, HeartbeatOf;
  }
}
