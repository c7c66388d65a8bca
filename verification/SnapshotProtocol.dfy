/** The distributed snapshot of pq/snapshot as a state machine: any number of
    instances, one chunk table, one job row and one advisory lock for a slot; each
    SQL statement is one step, and an instance may crash between any two. */
module SnapshotProtocol {
  import opened Basics

  type Instance = nat

  type SnapshotId = nat

  type ChunkId = nat

  /** A table and a chunk index: what a chunk reads. */
  type Part = (nat, nat)

  datatype Status = Pending | InProgress | Completed

  /** gen, which no code reads, is the snapshot the chunk was planned under. */
  datatype ChunkRow = ChunkRow(part: Part, gen: SnapshotId, status: Status, heartbeat: Option<nat>)

  type ChunkTable = map<ChunkId, ChunkRow>

  datatype JobRow = JobRow(snap: SnapshotId, completed: bool, completedChunks: nat)

  /** How far Prepare has come in one instance. */
  datatype Phase =
    | Idle
    | Locked
    | CleaningJob
    | Exporting
    | Inserting(snap: SnapshotId, batches: seq<seq<Part>>)
    | Failed
    | Prepared

  /** How far Execute has come with the chunk it claimed. */
  datatype Task =
    | Free
    | Claimed(id: ChunkId, part: Part)
    | Reading(id: ChunkId, part: Part, snap: SnapshotId)
    | Handed(id: ChunkId, part: Part, snap: SnapshotId)
    | Marked(id: ChunkId, part: Part, snap: SnapshotId)
    | Finalizing

  /** snap is the snapshot id of the job row Execute loaded. */
  datatype Worker = Worker(phase: Phase, snap: Option<SnapshotId>, task: Task)

  const FRESH := Worker(Idle, None, Free)

  /** The last three fields record history: the parts planned for each snapshot,
      the snapshots whose job row was inserted, and the parts whose rows were all
      handed to the handler, with the snapshot they were read under. */
  datatype State = State(
    chunks: ChunkTable, job: Option<JobRow>, lock: Option<Instance>, workers: map<Instance, Worker>,
    nextId: ChunkId, nextSnap: SnapshotId, alive: map<SnapshotId, Instance>,
    plan: map<SnapshotId, set<Part>>, posted: set<SnapshotId>, handed: set<(Part, SnapshotId)>)
  {
    function At(i: Instance): Worker { if i in workers then workers[i] else FRESH }

    function Put(i: Instance, w: Worker): State { this.(workers := workers[i := w]) }
  }

  const INIT := State(map[], None, None, map[], 0, 0, map[], map[], {}, {})

  datatype Action =
    | TryLock(i: Instance)
    | LoadExisting(i: Instance, readable: bool)
    | CleanJob(i: Instance)
    | Export(i: Instance, batches: seq<seq<Part>>)
    | InsertBatch(i: Instance)
    | InsertJob(i: Instance)
    | Retry(i: Instance)
    | LoseLock(i: Instance)
    | LoadJob(i: Instance)
    | Claim(i: Instance, id: ChunkId, now: nat, timeout: nat)
    | Import(i: Instance)
    | Rewind(i: Instance)
    | Release(i: Instance)
    | Abandon(i: Instance)
    | Hand(i: Instance)
    | MarkChunk(i: Instance)
    | Count(i: Instance, again: bool)
    | Heartbeat(id: ChunkId, now: nat)
    | Check(i: Instance)
    | MarkJob(i: Instance)
    | Close(i: Instance, snap: SnapshotId)
    | Crash(i: Instance)

  // ---- the statements ----

  /** Timestamps are stored in whole seconds; times here are milliseconds. */
  function Stamp(ms: int): (sec: int)
    ensures ms >= 0 ==> sec >= 0
  {
    ms / 1000
  }

  predicate Claimable(r: ChunkRow, now: nat, timeout: nat) {
    r.status.Pending? || (r.status.InProgress? && r.heartbeat.Some? && r.heartbeat.value < Stamp(now - timeout))
  }

  /** UPDATE ... WHERE id: nothing happens when the row is gone. */
  function Update(t: ChunkTable, id: ChunkId, status: Status, heartbeat: Option<nat>): (t': ChunkTable)
    ensures t'.Keys == t.Keys
    ensures forall k | k in t :: t'[k].part == t[k].part && t'[k].gen == t[k].gen
    ensures forall k | k in t && k != id :: t'[k] == t[k]
    ensures id in t ==> t'[id].status == status && t'[id].heartbeat == heartbeat
  {
    if id in t then t[id := t[id].(status := status, heartbeat := heartbeat)] else t
  }

  function HeartbeatOf(t: ChunkTable, id: ChunkId): Option<nat> { if id in t then t[id].heartbeat else None }

  function StatusOf(t: ChunkTable, id: ChunkId): Status { if id in t then t[id].status else Pending }

  predicate Distinct(ps: seq<Part>) { forall j, k | 0 <= j < k < |ps| :: ps[j] != ps[k] }

  predicate HasPart(t: ChunkTable, p: Part) { exists id | id in t :: t[id].part == p }

  /** The table's UNIQUE constraint. */
  predicate Insertable(t: ChunkTable, batch: seq<Part>) {
    Distinct(batch) && forall p | p in batch :: !HasPart(t, p)
  }

  /** One multi-row INSERT; ids come from a sequence. */
  function Inserted(t: ChunkTable, next: ChunkId, snap: SnapshotId, batch: seq<Part>): (t': ChunkTable)
    ensures forall id :: id in t' <==> id in t || next <= id < next + |batch|
    ensures forall id | next <= id < next + |batch| :: t'[id] == ChunkRow(batch[id - next], snap, Pending, None)
    ensures forall id | id in t && !(next <= id < next + |batch|) :: t'[id] == t[id]
  {
    if batch == [] then t
    else
      var n := |batch| - 1;
      Inserted(t, next, snap, batch[..n])[next + n := ChunkRow(batch[n], snap, Pending, None)]
  }

  predicate AllCompleted(t: ChunkTable) { t != map[] && forall id | id in t :: t[id].status.Completed? }

  function Parts(batches: seq<seq<Part>>): set<Part> { set b, p | b in batches && p in b :: p }

  function OwnedBy(alive: map<SnapshotId, Instance>, i: Instance): set<SnapshotId> {
    set k | k in alive && alive[k] == i
  }

  function Unlocked(s: State, i: Instance): Option<Instance> { if s.lock == Some(i) then None else s.lock }

  /** Steps of Prepare, and those that end an instance's part. */
  predicate Preparing(a: Action) {
    a.TryLock? || a.LoadExisting? || a.CleanJob? || a.Export? || a.InsertBatch? || a.InsertJob? || a.Retry?
        || a.LoseLock? || a.Close? || a.Crash?
  }

  predicate CanPrepare(s: State, a: Action)
    requires Preparing(a)
  {
    match a
    case TryLock(i) => s.At(i).phase.Idle? && s.At(i).task.Free? && (s.lock.None? || s.lock == Some(i))
    case LoadExisting(i, _) => s.At(i).phase.Locked?
    case CleanJob(i) => s.At(i).phase.CleaningJob?
    case Export(i, _) => s.At(i).phase.Exporting?
    case InsertBatch(i) => s.At(i).phase.Inserting? && s.At(i).phase.batches != []
    case InsertJob(i) => s.At(i).phase.Inserting? && s.At(i).phase.batches == []
    case Retry(i) => s.lock == Some(i) && s.At(i).task.Free?
    case LoseLock(i) => s.lock == Some(i)
    case Close(i, snap) => s.At(i).phase.Prepared? && s.At(i).task.Free? && snap in s.alive && s.alive[snap] == i
    case Crash(_) => true
  }

  predicate CanExecute(s: State, a: Action)
    requires !Preparing(a)
  {
    match a
    case LoadJob(i) => (s.At(i).phase.Idle? || s.At(i).phase.Prepared?) && s.At(i).task.Free? && s.job.Some?
    case Claim(i, id, now, timeout) =>
      s.At(i).snap.Some? && s.At(i).task.Free? && id in s.chunks && Claimable(s.chunks[id], now, timeout)
    case Import(i) => s.At(i).task.Claimed? && s.At(i).snap.Some? && s.At(i).snap.value in s.alive
    case Rewind(i) => s.At(i).task.Reading? || s.At(i).task.Marked?
    case Release(i) => s.At(i).task.Claimed? || s.At(i).task.Reading?
    case Abandon(i) => !s.At(i).task.Free?
    case Hand(i) => s.At(i).task.Reading?
    case MarkChunk(i) => s.At(i).task.Handed?
    case Count(i, _) => s.At(i).task.Marked?
    case Heartbeat(_, _) => true
    case Check(i) => s.At(i).snap.Some? && s.At(i).task.Free?
    case MarkJob(i) => s.At(i).task.Finalizing?
  }

  /** What a step of Prepare makes of the instance that takes it. */
  function PrepareWorker(s: State, a: Action): Worker
    requires Preparing(a) && CanPrepare(s, a)
  {
    var w := s.At(a.i);
    match a
    case TryLock(_) => Worker(Locked, None, Free)
    case LoadExisting(_, readable) => w.(phase := if readable && OpenJob(s) then CleaningJob else Exporting)
    case CleanJob(_) => w.(phase := Exporting)
    case Export(_, batches) => w.(phase := Inserting(s.nextSnap, batches))
    case InsertBatch(_) =>
      w.(phase := if Insertable(s.chunks, w.phase.batches[0]) then Inserting(w.phase.snap, w.phase.batches[1..])
          else Failed)
    case InsertJob(_) => w.(phase := if s.job.None? then Prepared else Failed)
    case Retry(_) => Worker(Locked, None, Free)
    case LoseLock(_) => w.(phase := Failed)
    case Close(_, _) => w.(phase := Idle)
    case Crash(_) => FRESH
  }

  predicate OpenJob(s: State) { s.job.Some? && !s.job.value.completed }

  /** What it makes of everything else. */
  function PrepareTables(s: State, a: Action): (s': State)
    requires Preparing(a) && CanPrepare(s, a)
    ensures s'.workers == s.workers
  {
    match a
    case TryLock(i) => s.(lock := Some(i))
    case LoadExisting(_, readable) =>
      // an incomplete job: DELETE its chunks; otherwise, or when the job could not
      // be loaded, go straight to the export
      if readable && OpenJob(s) then s.(chunks := map[]) else s
    case CleanJob(_) => s.(job := None)
    case Export(i, batches) =>
      s.(alive := s.alive[s.nextSnap := i], plan := s.plan[s.nextSnap := Parts(batches)], nextSnap := s.nextSnap + 1)
    case InsertBatch(i) =>
      var p := s.At(i).phase;
      if Insertable(s.chunks, p.batches[0]) then
        s.(chunks := Inserted(s.chunks, s.nextId, p.snap, p.batches[0]), nextId := s.nextId + |p.batches[0]|)
      else s
    case InsertJob(i) =>
      var snap := s.At(i).phase.snap;
      if s.job.None? then s.(job := Some(JobRow(snap, false, 0)), posted := s.posted + {snap}) else s
    case Retry(_) => s
    case LoseLock(_) => s.(lock := None)   // the exporting session goes on
    case Close(i, snap) => s.(lock := Unlocked(s, i), alive := s.alive - {snap})
    case Crash(i) => s.(lock := Unlocked(s, i), alive := s.alive - OwnedBy(s.alive, i))
  }

  function Prepare(s: State, a: Action): State
    requires Preparing(a) && CanPrepare(s, a)
  {
    PrepareTables(s, a).Put(a.i, PrepareWorker(s, a))
  }

  /** What a step of Execute makes of the instance that takes it. */
  function ExecuteWorker(s: State, a: Action): Worker
    requires !Preparing(a) && CanExecute(s, a) && !a.Heartbeat?
  {
    var w := s.At(a.i);
    var t := w.task;
    match a
    case LoadJob(_) => w.(snap := Some(s.job.value.snap))
    case Claim(_, id, _, _) => w.(task := Claimed(id, s.chunks[id].part))
    case Import(_) => w.(task := Reading(t.id, t.part, w.snap.value))
    case Rewind(_) => w.(task := if t.Reading? then Claimed(t.id, t.part) else Handed(t.id, t.part, t.snap))
    case Release(_) => w.(snap := None, task := Free)
    case Abandon(_) => w.(task := Free)
    case Hand(_) => w.(task := Handed(t.id, t.part, t.snap))
    case MarkChunk(_) => w.(task := Marked(t.id, t.part, t.snap))
    case Count(_, again) =>
      // the two updates of a mark are retried together
      w.(task := if again then Handed(t.id, t.part, t.snap) else Free)
    case Check(_) => if AllCompleted(s.chunks) then w.(task := Finalizing) else w.(snap := None)
    case MarkJob(_) => w.(snap := None, task := Free)
  }

  /** What it makes of everything else. */
  function ExecuteTables(s: State, a: Action): (s': State)
    requires !Preparing(a) && CanExecute(s, a)
    ensures s'.workers == s.workers
  {
    match a
    case Claim(_, id, now, _) => s.(chunks := Update(s.chunks, id, InProgress, Some(Stamp(now))))
    case Release(i) => s.(chunks := Update(s.chunks, s.At(i).task.id, Pending, None))
    case Hand(i) => s.(handed := s.handed + {(s.At(i).task.part, s.At(i).task.snap)})
    case MarkChunk(i) =>
      var id := s.At(i).task.id;
      s.(chunks := Update(s.chunks, id, Completed, HeartbeatOf(s.chunks, id)))
    case Count(_, _) =>
      s.(job := if s.job.Some? then Some(s.job.value.(completedChunks := s.job.value.completedChunks + 1)) else None)
    case Heartbeat(id, now) => s.(chunks := Update(s.chunks, id, StatusOf(s.chunks, id), Some(Stamp(now))))
    case MarkJob(_) => s.(job := if s.job.Some? then Some(s.job.value.(completed := true)) else None)
    case _ => s
  }

  function Execute(s: State, a: Action): State
    requires !Preparing(a) && CanExecute(s, a)
  {
    if a.Heartbeat? then ExecuteTables(s, a) else ExecuteTables(s, a).Put(a.i, ExecuteWorker(s, a))
  }

  /** Whether a step can be taken, and what it does. */
  predicate Enabled(s: State, a: Action) { if Preparing(a) then CanPrepare(s, a) else CanExecute(s, a) }

  function Apply(s: State, a: Action): State
    requires Enabled(s, a)
  {
    if Preparing(a) then Prepare(s, a) else Execute(s, a)
  }

  ghost predicate Step(s: State, a: Action, s': State) { Enabled(s, a) && s' == Apply(s, a) }

  ghost predicate Behaviour(states: seq<State>, actions: seq<Action>) {
    && |states| == |actions| + 1 && states[0] == INIT
    && forall k | 0 <= k < |actions| :: Step(states[k], actions[k], states[k + 1])
  }

  /** Every planned part was handed over under the job's own snapshot. */
  ghost predicate AllHanded(plan: map<SnapshotId, set<Part>>, handed: set<(Part, SnapshotId)>, snap: SnapshotId) {
    snap in plan && forall p | p in plan[snap] :: (p, snap) in handed
  }

  ghost predicate Sound(s: State) {
    s.job.Some? && s.job.value.completed ==> AllHanded(s.plan, s.handed, s.job.value.snap)
  }

  /** Instance i loaded a job whose snapshot can still be imported. */
  predicate HoldsLive(s: State, i: Instance) { s.At(i).snap.Some? && s.At(i).snap.value in s.alive }

  /** When a new snapshot is exported, nobody holds an older one that can still be
      imported, and the job row, if there is one, names none. */
  ghost predicate NoneImportable(s: State, a: Action) {
    a.Export? ==>
      && (forall i: Instance :: !HoldsLive(s, i))
      && (s.job.Some? ==> s.job.value.snap !in s.alive)
  }

  predicate AnyFinalizing(s: State) { exists i | i in s.workers :: s.workers[i].task.Finalizing? }

  /** No job row appears between another worker's completion check and its mark. */
  predicate NoNewJobWhileFinalizing(s: State, a: Action) { a.InsertJob? ==> !AnyFinalizing(s) }

  ghost predicate Disciplined(s: State, a: Action) { NoneImportable(s, a) && NoNewJobWhileFinalizing(s, a) }
}
