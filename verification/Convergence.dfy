/** What the invariant buys: convergence, recovery at every crash point, conservation. */
module Convergence {
  import opened Options
  import opened Merge
  import opened WritePath
  import opened Replica
  import opened Protocol
  import opened Invariant
  import opened InvariantRemote

  /** Every op of every change ever written to the mailbox. */
  function PublishedOps(w: World): set<Op> { OpsIn(w.log, w.published) }

  /** A device with nothing queued, at the current epoch, that has seen every listed file. */
  ghost predicate CaughtUp(w: World, i: string) {
    && i in w.replicas
    && w.replicas[i].pending.None? && w.replicas[i].outbox == [] && w.replicas[i].stranded == {}
    && w.replicas[i].epoch == Current(w.remote).epoch
    && w.remote.changes.Keys <= w.replicas[i].seen
  }

  lemma PublishedOpsOk(w: World)
    requires Inv(w)
    ensures OpsOk(PublishedOps(w))
  {
    hide ReplicaOk, RemoteOk, CompactionOk, LogOk, OpsOk;
    OpsOkSubset(PublishedOps(w), AllOps(w));
  }

  lemma CaughtUpMergedAll(r: Replica, i: string, log: Log, published: set<FileName>, m: Remote)
    requires ReplicaOk(i, r, log, published, m) && RemoteOk(m, log, published)
    requires r.pending.None? && r.outbox == [] && r.stranded == {}
    requires r.epoch == Current(m).epoch && m.changes.Keys <= r.seen
    ensures r.merged == published && AllSettled(OpsIn(log, published), r.rows)
  {
    hide AllSettled, SnapshotOk;
    assert OpsIn(log, r.merged) + {} == OpsIn(log, r.merged);
  }

  lemma CaughtUpIsSettled(w: World, i: string)
    requires Inv(w) && CaughtUp(w, i)
    ensures AllSettled(PublishedOps(w), w.replicas[i].rows)
  {
    hide ReplicaOk, RemoteOk, CompactionOk, LogOk, OpsOk, AllOps, AllSettled;
    ReplicaInOrder(w, i);
    CaughtUpMergedAll(w.replicas[i], i, w.log, w.published, w.remote);
  }

  /** Convergence: in every state of every careful run, any two caught-up devices agree. */
  lemma CaughtUpDevicesAgree(run: seq<Step>, i: string, j: string)
    requires CarefulRun(run)
    requires CaughtUp(Exec(Start(), run), i) && CaughtUp(Exec(Start(), run), j)
    ensures var w := Exec(Start(), run); Agree(PublishedOps(w), w.replicas[i].rows, w.replicas[j].rows)
  {
    hide Inv, AllSettled, Agree, Exec, Careful;
    var w := Exec(Start(), run);
    RunKeepsInv(run);
    CaughtUpIsSettled(w, i);
    CaughtUpIsSettled(w, j);
    PublishedOpsOk(w);
    SettledAgree(PublishedOps(w), w.replicas[i].rows, w.replicas[j].rows);
  }

  /** A caught-up device agrees with replaying every published op from nothing, in any order. */
  lemma CaughtUpDeviceIsReplay(run: seq<Step>, i: string, ops: seq<Op>)
    requires CarefulRun(run)
    requires CaughtUp(Exec(Start(), run), i) && Elements(ops) == PublishedOps(Exec(Start(), run))
    ensures ApplyOps(map[], ops).Ok?
    ensures var w := Exec(Start(), run); Agree(PublishedOps(w), w.replicas[i].rows, ApplyOps(map[], ops).value)
  {
    hide Inv, AllSettled, Agree, Exec, ApplyOps, Careful;
    var w := Exec(Start(), run);
    RunKeepsInv(run);
    CaughtUpIsSettled(w, i);
    PublishedOpsOk(w);
    ReplaySettles(ops);
    SettledAgree(PublishedOps(w), w.replicas[i].rows, ApplyOps(map[], ops).value);
  }

  /** Folding mailbox files never meets two values under one stamp. */
  lemma PullNeverThrows(run: seq<Step>, i: string, changes: seq<Change>)
    requires CarefulRun(run)
    requires var w := Exec(Start(), run); i in w.replicas && Listing(w.remote, changes)
    ensures Fold(Exec(Start(), run).replicas[i], changes).Ok?
  {
    hide Inv, Exec, Fold, Careful;
    RunKeepsInv(run);
    FoldOk(Exec(Start(), run), i, changes);
  }

  // ---- Recovery ----------------------------------------------------------------------------

  /** The rows a fresh device starts from: the snapshot the pointer leads to, or nothing. */
  function RecoveryBase(m: Remote): Rows {
    var s := Current(m).snapshot;
    if s.Some? && s.value in m.snapshots then m.snapshots[s.value].rows else map[]
  }

  lemma BaseSettled(m: Remote, log: Log, published: set<FileName>) returns (names: set<FileName>)
    requires RemoteOk(m, log, published)
    ensures Covered(m) <= names <= published && AllSettled(OpsIn(log, names), RecoveryBase(m))
  {
    hide AllSettled;
    var s := Current(m).snapshot;
    if s.Some? {
      names := m.snapshots[s.value].merged;
      assert SnapshotOk(m.snapshots[s.value], log, published);
    } else {
      EmptyIsSettled();
      names := {};
      assert OpsIn(log, {}) == {};
    }
  }

  lemma RecoverySettled(m: Remote, log: Log, published: set<FileName>, changes: seq<Change>)
    requires RemoteOk(m, log, published) && published <= log.Keys && OpsOk(OpsIn(log, published))
    requires Listing(m, changes) && Names(changes) == m.changes.Keys - Covered(m)
    ensures ApplyOps(RecoveryBase(m), AllOpsOf(changes)).Ok?
    ensures AllSettled(OpsIn(log, published), ApplyOps(RecoveryBase(m), AllOpsOf(changes)).value)
  {
    var names := BaseSettled(m, log, published);
    assert names + Names(changes) == published;
    OpsOfListing(log, changes);
    OpsInUnion(log, names, Names(changes));
    hide RemoteOk;
    ApplyAllSettles(OpsIn(log, names), RecoveryBase(m), AllOpsOf(changes));
  }

  /** Compaction loses nothing at any crash point: in every state of every careful run, wherever a
      compaction has stopped, a fresh device that follows the pointer, restores that snapshot and
      folds the files it does not cover agrees with replaying every change ever published. */
  lemma RecoveryLosesNothing(run: seq<Step>, changes: seq<Change>, ops: seq<Op>)
    requires CarefulRun(run)
    requires var w := Exec(Start(), run);
             && Listing(w.remote, changes) && Names(changes) == w.remote.changes.Keys - Covered(w.remote)
             && Elements(ops) == PublishedOps(w)
    ensures var w := Exec(Start(), run);
            && ApplyOps(RecoveryBase(w.remote), AllOpsOf(changes)).Ok? && ApplyOps(map[], ops).Ok?
            && Agree(PublishedOps(w), ApplyOps(RecoveryBase(w.remote), AllOpsOf(changes)).value, ApplyOps(map[], ops).value)
  {
    hide AllSettled, Agree, Exec, ApplyOps, ReplicaOk, OpsOk, LogOk, RemoteOk, CompactionOk, SweepsOk, Listing, Covered, RecoveryBase, AllOps, Careful;
    var w := Exec(Start(), run);
    RunKeepsInv(run);
    PublishedOpsOk(w);
    RecoverySettled(w.remote, w.log, w.published, changes);
    ReplaySettles(ops) by { assert OpsOk(Elements(ops)); OpsOkParts(Elements(ops)); }
    OpsOkParts(PublishedOps(w));
    SettledAgree(PublishedOps(w), ApplyOps(RecoveryBase(w.remote), AllOpsOf(changes)).value, ApplyOps(map[], ops).value);
  }

  lemma OpsOkParts(ops: set<Op>)
    requires OpsOk(ops)
    ensures Functional(ops) && NonEmpty(ops)
  {}

  // ---- Nothing missing ------------------------------------------------------------------------

  /** A device with nothing queued that has seen every listed file has folded everything ever
      published, if and only if it has also folded what the current snapshot covers. */
  lemma NothingMissingIff(run: seq<Step>, i: string)
    requires CarefulRun(run)
    requires var w := Exec(Start(), run);
             && i in w.replicas && w.replicas[i].pending.None? && w.replicas[i].outbox == [] && w.replicas[i].stranded == {}
             && w.remote.changes.Keys <= w.replicas[i].seen
    ensures var w := Exec(Start(), run);
            w.replicas[i].merged == w.published <==> Covered(w.remote) <= w.replicas[i].merged
    ensures var w := Exec(Start(), run);
            Covered(w.remote) <= w.replicas[i].merged ==> AllSettled(PublishedOps(w), w.replicas[i].rows)
  {
    hide Exec, AllSettled, Careful;
    var w := Exec(Start(), run);
    RunKeepsInv(run);
    ReplicaInOrder(w, i);
    MergedAllIff(w.replicas[i], i, w.log, w.published, w.remote);
  }

  lemma MergedAllIff(r: Replica, i: string, log: Log, published: set<FileName>, m: Remote)
    requires ReplicaOk(i, r, log, published, m) && RemoteOk(m, log, published)
    requires r.pending.None? && r.outbox == [] && r.stranded == {} && m.changes.Keys <= r.seen
    ensures r.merged == published <==> Covered(m) <= r.merged
    ensures Covered(m) <= r.merged ==> AllSettled(OpsIn(log, published), r.rows)
  {
    hide AllSettled;
    assert OpsIn(log, r.merged) + {} == OpsIn(log, r.merged);
  }

  // ---- Capturing and sweeping -----------------------------------------------------------------

  /** The compactor's epoch is never compared. Its snapshot covers exactly the files in its ledger and
      those listed when it pulled. What it captures stands, with the listed files, for
      everything ever published, if and only if it has seen what the current snapshot covers. */
  lemma CaptureStandsForAllIff(run: seq<Step>, i: string, changes: seq<Change>, nows: seq<nat>)
    requires CarefulRun(run) && Enabled(Exec(Start(), run), Capture(i, changes, nows))
    ensures var w := Exec(Start(), run); var s := CapturedBy(w, i, changes, nows);
            && s.covered == w.replicas[i].seen + w.remote.changes.Keys
            && (w.published <= w.remote.changes.Keys + s.covered <==> Covered(w.remote) <= s.covered)
  {
    hide Exec, Careful, Inv, Enabled, CapturedBy, Covered;
    RunKeepsInv(run);
    CoveredIsPublished(Exec(Start(), run));
    CaptureCoversListed(Exec(Start(), run), i, changes, nows);
  }

  lemma CaptureCoversListed(w: World, i: string, changes: seq<Change>, nows: seq<nat>)
    requires Enabled(w, Capture(i, changes, nows))
    ensures i in w.replicas && CapturedBy(w, i, changes, nows).covered == w.replicas[i].seen + w.remote.changes.Keys
  {
    hide Listing, ApplyOps, ReceiveAll;
  }

  lemma CoveredIsPublished(w: World)
    requires Inv(w)
    ensures Covered(w.remote) <= w.published <= w.remote.changes.Keys + Covered(w.remote)
  {
    hide ReplicaOk, CompactionOk, AllSettled, LogOk, OpsOk, AllOps;
    var s := Current(w.remote).snapshot;
    if s.Some? { assert SnapshotOk(w.remote.snapshots[s.value], w.log, w.published); }
  }

  /** A check of snapshots deletes every snapshot that its manifest does not name. All its deletions
      spare the current snapshot and the candidate of a running compaction, if and only if its
      manifest is still the current one and no candidate is waiting for the pointer. */
  lemma SweepIsCarefulIff(run: seq<Step>, i: string)
    requires CarefulRun(run) && i in Exec(Start(), run).sweeps && Idle(Exec(Start(), run), i)
    ensures var w := Exec(Start(), run);
      (forall e :: e in w.remote.snapshots && Enabled(w, Sweep(i, e)) ==> Careful(w, Sweep(i, e)))
      <==> w.sweeps[i] == Current(w.remote).epoch && forall e :: !Candidate(w, e)
  {
    hide *;
    RunKeepsInv(run);
    AllSweepsCarefulIff(Exec(Start(), run), i);
  }

  lemma AllSweepsCarefulIff(w: World, i: string)
    requires Inv(w) && i in w.sweeps && Idle(w, i)
    ensures (forall e :: e in w.remote.snapshots && Enabled(w, Sweep(i, e)) ==> Careful(w, Sweep(i, e)))
       <==> w.sweeps[i] == Current(w.remote).epoch && forall e :: !Candidate(w, e)
  {
    SweepFacts(w, i);
    forall e ensures Enabled(w, Sweep(i, e)) <==> e != w.sweeps[i]
             ensures Enabled(w, Sweep(i, e)) ==> (Careful(w, Sweep(i, e)) <==> e != Current(w.remote).epoch && !Candidate(w, e))
    {
      SweepMeans(w, i, e);
    }
    hide Inv, Current, Candidate, Enabled, Careful;
    if forall e :: e in w.remote.snapshots && Enabled(w, Sweep(i, e)) ==> Careful(w, Sweep(i, e)) {
      assert Enabled(w, Sweep(i, Current(w.remote).epoch)) ==> !Careful(w, Sweep(i, Current(w.remote).epoch));
      forall e ensures !Candidate(w, e) {
        assert Candidate(w, e) ==> Enabled(w, Sweep(i, e)) && !Careful(w, Sweep(i, e));
      }
    }
  }

  lemma SweepMeans(w: World, i: string, e: nat)
    requires Current(w.remote).snapshot == Some(Current(w.remote).epoch) && i in w.sweeps && Idle(w, i)
    ensures Enabled(w, Sweep(i, e)) <==> e != w.sweeps[i]
    ensures Enabled(w, Sweep(i, e)) ==> (Careful(w, Sweep(i, e)) <==> e != Current(w.remote).epoch && !Candidate(w, e))
  {}

  lemma SweepFacts(w: World, i: string)
    requires Inv(w) && i in w.sweeps
    ensures var e := Current(w.remote).epoch; Current(w.remote).snapshot == Some(e) && e in w.remote.snapshots && w.sweeps[i] <= e
    ensures forall e :: Candidate(w, e) ==> e == Current(w.remote).epoch + 1 && e in w.remote.snapshots
  {
    hide ReplicaOk, LogOk, OpsOk, AllOps, SnapshotOk;
  }
}
