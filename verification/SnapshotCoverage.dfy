/** Chunk plans, chunk queries and lease protocol together. */
module SnapshotCoverage {
  import opened Basics
  import opened Bytes
  import C = Chunks
  import opened ChunkQueries
  import P = SnapshotProtocol
  import S = SnapshotSoundness
  import R = SnapshotRuns

  // ---- what a query reads ----

  lemma {:induction false} ReadBySome(cs: seq<C.Chunk>, t: Table, pkColumns: nat, row: TableRow) returns (i: nat)
    requires row in ReadAll(cs, t, pkColumns)
    ensures i < |cs| && row in ReadChunk(cs[i], t, pkColumns)
  {
    hide ReadChunk;
    var n := |cs| - 1;
    if row in ReadChunk(cs[n], t, pkColumns) {
      i := n;
    } else {
      i := ReadBySome(cs[..n], t, pkColumns, row);
    }
  }

  lemma WantedIsRead(cs: seq<C.Chunk>, t: Table, pkColumns: nat, row: TableRow)
    requires ReadsOnce(cs, t, pkColumns) && row in Wanted(t)
    ensures row in ReadAll(cs, t, pkColumns)
  {
    assert row in multiset(Wanted(t));
  }

  // ---- the batches of a job ----

  /** Table n's chunks from `from` on, a thousand to an insert. */
  function TableBatches(n: nat, from: nat, count: nat): seq<seq<P.Part>>
    decreases count - from
  {
    if from >= count then []
    else
      var to := if from + C.CHUNK_BATCH_SIZE < count then from + C.CHUNK_BATCH_SIZE else count;
      [seq(to - from, i requires 0 <= i < to - from => (n, from + i))] + TableBatches(n, to, count)
  }

  /** One table after the other; counts[n] is how many chunks table n has. */
  function JobBatches(counts: seq<nat>): seq<seq<P.Part>> {
    if counts == [] then []
    else JobBatches(counts[..|counts| - 1]) + TableBatches(|counts| - 1, 0, counts[|counts| - 1])
  }

  lemma PartsOfConcat(a: seq<seq<P.Part>>, b: seq<seq<P.Part>>, p: P.Part)
    ensures p in P.Parts(a + b) <==> p in P.Parts(a) || p in P.Parts(b)
  {
    if x :| x in a && p in x { assert x in a + b; }
    if x :| x in b && p in x { assert x in a + b; }
  }

  lemma {:induction false} TableBatchesHold(n: nat, from: nat, count: nat, p: P.Part)
    ensures p in P.Parts(TableBatches(n, from, count)) <==> p.0 == n && from <= p.1 < count
    decreases count - from
  {
    if from < count {
      var to := if from + C.CHUNK_BATCH_SIZE < count then from + C.CHUNK_BATCH_SIZE else count;
      var first := seq(to - from, i requires 0 <= i < to - from => (n, from + i));
      TableBatchesHold(n, to, count, p);
      PartsOfConcat([first], TableBatches(n, to, count), p);
      OneBatch(first, p);
      if p.0 == n && from <= p.1 < to { assert first[p.1 - from] == p; }
    }
  }

  lemma OneBatch(batch: seq<P.Part>, p: P.Part)
    ensures p in P.Parts([batch]) <==> p in batch
  {
    if p in batch { assert batch in [batch]; }
  }

  /** A job plans exactly the chunks of its tables. */
  lemma {:induction false} JobBatchesHold(counts: seq<nat>, p: P.Part)
    ensures p in P.Parts(JobBatches(counts)) <==> p.0 < |counts| && p.1 < counts[p.0]
    decreases |counts|
  {
    hide P.Parts, TableBatches;
    if counts == [] {
      S.NoParts();
    } else {
      var n := |counts| - 1;
      JobBatchesHold(counts[..n], p);
      TableBatchesHold(n, 0, counts[n], p);
      PartsOfConcat(JobBatches(counts[..n]), TableBatches(n, 0, counts[n]), p);
    }
  }

  // ---- the plan of an export stays ----

  lemma PlanStep(s: P.State, a: P.Action, snap: P.SnapshotId)
    requires P.Enabled(s, a) && snap in s.plan && snap < s.nextSnap
    ensures var s' := P.Apply(s, a); snap in s'.plan && s'.plan[snap] == s.plan[snap] && snap < s'.nextSnap
  {
    hide P.Prepare, P.Execute, P.CanPrepare, P.CanExecute, P.Parts, S.SameRows, S.SameJob;
    if P.Preparing(a) { S.PreparePlans(s, a); } else { S.ExecuteIsQuiet(s, a); }
  }

  lemma {:induction false} PlanStays(states: seq<P.State>, actions: seq<P.Action>, e: nat, k: nat)
    requires P.Behaviour(states, actions) && e < k <= |actions| && actions[e].Export?
    ensures var snap := states[e].nextSnap;
            && snap in states[k].plan && states[k].plan[snap] == P.Parts(actions[e].batches)
            && snap < states[k].nextSnap
    decreases k
  {
    hide P.Prepare, P.Execute, P.CanPrepare, P.CanExecute, P.Parts;
    var s, a := states[k - 1], actions[k - 1];
    assert P.Step(s, a, states[k - 1 + 1]);
    if k == e + 1 {
      S.PreparePlans(s, a);
    } else {
      PlanStays(states, actions, e, k - 1);
      PlanStep(s, a, states[e].nextSnap);
    }
  }

  // ---- a completed job ----

  /** A table as the job was planned: what the catalog said, and its rows under the
      exported snapshot. */
  datatype Planned = Planned(strategy: C.Strategy, cat: C.Catalog, rows: Table, pkColumns: nat)

  /** The coordinator gets chunks for every table, and they read all wanted rows. */
  ghost predicate Readable(tables: seq<Planned>, size: int) {
    forall n | 0 <= n < |tables| :: OneReadable(tables[n], size)
  }

  ghost predicate OneReadable(t: Planned, size: int) {
    && Describes(t.cat, t.rows, t.pkColumns) && InInt64(t.cat, size)
    && TableFate(t.strategy, t.cat, t.rows, size).ReadsAll?
    && C.TablePlan(t.strategy, t.cat, size).Ok?
  }

  ghost function ChunksOf(t: Planned, size: int): seq<C.Chunk>
    requires OneReadable(t, size)
  {
    C.TablePlan(t.strategy, t.cat, size).value
  }

  ghost function Counts(tables: seq<Planned>, size: int): seq<nat>
    requires Readable(tables, size)
  {
    seq(|tables|, n requires 0 <= n < |tables| => |ChunksOf(tables[n], size)|)
  }

  /** Row of table n lies in a chunk whose rows were handed over under snap. */
  ghost predicate HandedOver(s: P.State, t: Planned, n: nat, size: int, snap: P.SnapshotId, row: TableRow)
    requires OneReadable(t, size)
  {
    exists c: nat :: c < |ChunksOf(t, size)| && row in ReadChunk(ChunksOf(t, size)[c], t.rows, t.pkColumns)
                     && ((n, c), snap) in s.handed
  }

  /** A completed job handed over every row: in every disciplined run, if the job that
      was planned at an export for any number of tables is marked completed, each
      wanted row of each table lies in a chunk whose rows were handed over in full
      under that export's snapshot. */
  lemma CompletedJobCoversTheTables(states: seq<P.State>, actions: seq<P.Action>, e: nat, k: nat,
                                    tables: seq<Planned>, size: int)
    requires P.Behaviour(states, actions) && S.AllDisciplined(states, actions) && e < k <= |actions|
    requires Readable(tables, size) && actions[e].Export? && actions[e].batches == JobBatches(Counts(tables, size))
    requires var job := states[k].job;
             job.Some? && job.value.completed && job.value.snap == states[e].nextSnap
    ensures forall n, row | 0 <= n < |tables| && row in Wanted(tables[n].rows) ::
              HandedOver(states[k], tables[n], n, size, states[e].nextSnap, row)
  {
    hide P.Step, S.AllDisciplined, OneReadable, JobBatches, P.Parts, Wanted, HandedOver;
    PlanStays(states, actions, e, k);
    S.CompletionSound(states, actions, k);
    var snap := states[e].nextSnap;
    forall n, row | 0 <= n < |tables| && row in Wanted(tables[n].rows)
      ensures HandedOver(states[k], tables[n], n, size, snap, row)
    {
      assert OneReadable(tables[n], size);
      var c := ReadByChunk(tables[n], size, row);
      JobBatchesHold(Counts(tables, size), (n, c));
      IsHandedOver(states[k], tables[n], n, size, snap, row, c);
    }
  }

  lemma ReadByChunk(t: Planned, size: int, row: TableRow) returns (c: nat)
    requires OneReadable(t, size) && row in Wanted(t.rows)
    ensures c < |ChunksOf(t, size)| && row in ReadChunk(ChunksOf(t, size)[c], t.rows, t.pkColumns)
  {
    hide Describes, TableFate, C.TablePlan, ReadChunk, Wanted, ReadsOnce;
    TableReadOnceIff(t.strategy, t.cat, t.rows, size, t.pkColumns);
    WantedIsRead(ChunksOf(t, size), t.rows, t.pkColumns, row);
    c := ReadBySome(ChunksOf(t, size), t.rows, t.pkColumns, row);
  }

  lemma IsHandedOver(s: P.State, t: Planned, n: nat, size: int, snap: P.SnapshotId, row: TableRow, c: nat)
    requires OneReadable(t, size) && c < |ChunksOf(t, size)| && ((n, c), snap) in s.handed
    requires row in ReadChunk(ChunksOf(t, size)[c], t.rows, t.pkColumns)
    ensures HandedOver(s, t, n, size, snap, row)
  {
  }
}
