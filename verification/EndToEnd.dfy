/** Snapshot and stream together, from the export to any later moment of the stream. */
module EndToEnd {
  import opened Basics
  import opened SnapshotCoverage
  import opened ChunkQueries
  import P = SnapshotProtocol
  import S = SnapshotSoundness
  import H = Handoff
  import R = ReplicationRuns

  /** Nothing committed is missed. Let the exported snapshot of the database (states dbs,
      export at step d) be the one the snapshot job was planned under (export at step e),
      with nothing in the window between the captured LSN and the export, and let that
      job be completed, in a disciplined run of any number of instances. Then each
      wanted row of each table as the snapshot sees it was handed over under the job's
      snapshot; and at every moment of every run of the stream each change of each
      committed transaction is one the snapshot sees, or was handed to the listener,
      or lies at or after the slot's position and would be resent. */
  lemma NothingIsMissed(dbs: seq<H.Db>, dbActions: seq<H.Action>, d: nat, m: nat, content: set<H.TxId> -> seq<Table>,
                        states: seq<P.State>, actions: seq<P.Action>, e: nat, k: nat, tables: seq<Planned>, size: int,
                        w: R.World, ids: seq<H.TxId>, trace: seq<R.State>, i: nat)
    // the database, and the tables its exported snapshot sees
    requires H.Behaviour(dbs, dbActions) && d < m <= |dbActions| && dbActions[d].ExportSnapshot?
    requires dbs[d].captured.Some? && H.Window(dbs[d]) == {} && dbs[m].snapshot.Some?
    requires content(dbs[m].snapshot.value) == seq(|tables|, n requires 0 <= n < |tables| => tables[n].rows)
    // the snapshot job
    requires P.Behaviour(states, actions) && S.AllDisciplined(states, actions) && e < k <= |actions|
    requires Readable(tables, size) && actions[e].Export? && actions[e].batches == JobBatches(Counts(tables, size))
    requires states[k].job.Some? && states[k].job.value.completed && states[k].job.value.snap == states[e].nextSnap
    // the stream that starts at the captured LSN
    requires H.StreamsAfter(dbs[m], w, ids) && R.WalFacts(w) && R.Behaviour(w, trace) && i < |trace|
    ensures var seen := content(dbs[m].snapshot.value);
            |seen| == |tables| && forall n, row | 0 <= n < |seen| && row in Wanted(seen[n]) ::
              HandedOver(states[k], tables[n], n, size, states[e].nextSnap, row)
    ensures forall j, r | 0 <= j < |w.log| && 0 <= r < |w.log[j].rows| && (j, r) !in w.heartbeat ::
              || ids[j] in dbs[m].snapshot.value
              || (j, r) in trace[i].handed
              || (trace[i].flushed <= w.log[j].h.commitLsn && R.StartIndex(w, 0, trace[i].flushed) <= j)
  {
    hide H.Next, P.Step, S.AllDisciplined, Counts, OneReadable, JobBatches, Wanted, HandedOver, R.WalFacts,
         R.Behaviour, R.StartIndex;
    CompletedJobCoversTheTables(states, actions, e, k, tables, size);
    H.NothingFallsBetween(dbs, dbActions, d, m, w, ids, trace, i);
  }
}
