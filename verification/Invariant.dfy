/** What every step of the protocol keeps. */
module Invariant {
  import opened Options
  import opened Hlc
  import opened Merge
  import opened WritePath
  import opened Replica
  import opened Protocol

  type Log = map<FileName, Change>

  // ---- The invariant ---------------------------------------------------------------

  /** The rows of a device are a correct merge of exactly the files it has folded in and
      its own unpromoted writes. */
  ghost predicate RowsOk(r: Replica, log: Log) {
    AllSettled(OpsIn(log, r.merged) + PendingOps(r), r.rows)
  }

  /** Every folded file is in the log, and is published, queued here, or stranded here. */
  ghost predicate FilesOk(r: Replica, log: Log, published: set<FileName>) {
    && r.seen + r.stranded <= r.merged <= log.Keys
    && r.merged <= published + OutboxNames(r) + r.stranded
    && (forall c :: c in r.outbox ==> NameOf(c) in r.merged && log[NameOf(c)] == c)
  }

  /** Conservation: everything the device ever committed is still pending, or in a change that
      is queued, published or quarantined. */
  ghost predicate Conserved(r: Replica, log: Log, published: set<FileName>) {
    && r.committed == OpsIn(log, r.made) + PendingOps(r)
    && OutboxNames(r) <= r.made <= log.Keys
    && r.made <= published + OutboxNames(r) + QuarantineNames(r)
    && (forall c :: c in r.quarantine ==> NameOf(c) in log && log[NameOf(c)] == c)
  }

  ghost predicate PendingOk(r: Replica) {
    r.pending.Some? ==> Bounded(r.pending.value) && NonEmpty(Elements(r.pending.value.ops))
  }

  /** A device at the current epoch has seen every file the current snapshot stands for. */
  ghost predicate EpochOk(r: Replica, m: Remote) {
    r.epoch <= Current(m).epoch && (r.epoch == Current(m).epoch ==> Covered(m) <= r.seen)
  }

  ghost predicate ReplicaOk(i: string, r: Replica, log: Log, published: set<FileName>, m: Remote) {
    && r.clock.node == i && (r.adopting.Some? ==> r.adopting.value.node == i)
    && RowsOk(r, log) && FilesOk(r, log, published) && Conserved(r, log, published)
    && PendingOk(r) && EpochOk(r, m)
  }

  ghost predicate SnapshotOk(s: Snapshot, log: Log, published: set<FileName>) {
    s.covered <= s.merged <= published && AllSettled(OpsIn(log, s.merged), s.rows)
  }

  ghost predicate RemoteOk(m: Remote, log: Log, published: set<FileName>) {
    && m.pointer in m.manifests
    && (Current(m).snapshot.None? <==> Current(m).epoch == 0)
    && (Current(m).snapshot.Some? ==> Current(m).snapshot == Some(Current(m).epoch) && Current(m).epoch in m.snapshots)
    && (forall n :: n in m.changes ==> n in published && n in log && m.changes[n] == log[n])
    && (forall e :: e in m.snapshots ==> m.snapshots[e].epoch == e && SnapshotOk(m.snapshots[e], log, published))
    && published <= m.changes.Keys + Covered(m)
  }

  /** How far a compaction has got, and what it may rely on at that point. */
  ghost predicate CompactionSound(c: Compaction, m: Remote, log: Log, published: set<FileName>) {
    var target := Manifest(c.snapshot.epoch, Some(c.snapshot.epoch));
    && SnapshotOk(c.snapshot, log, published)
    && (c.phase != Captured ==> c.snapshot.epoch in m.snapshots && m.snapshots[c.snapshot.epoch] == c.snapshot)
    && (c.phase == ManifestWritten ==> m.pointer + 1 in m.manifests && m.manifests[m.pointer + 1] == target)
    && (c.phase == Pointed ==> Current(m) == target)
    && (c.phase != Pointed ==> c.snapshot.epoch == Current(m).epoch + 1 && published <= m.changes.Keys + c.snapshot.covered)
  }

  ghost predicate CompactionOk(w: World) {
    w.compaction.Some? ==>
      var c := w.compaction.value;
      && c.compactor in w.replicas && c.snapshot.covered <= w.replicas[c.compactor].seen
      && CompactionSound(c, w.remote, w.log, w.published)
  }

  /** A manifest that a device loaded names the current snapshot or an older one. */
  ghost predicate SweepsOk(sweeps: map<string, nat>, m: Remote) {
    forall i :: i in sweeps ==> 1 <= sweeps[i] <= Current(m).epoch
  }

  ghost predicate LogOk(log: Log) {
    forall n :: n in log ==> NameOf(log[n]) == n && Bounded(log[n])
  }

  ghost predicate OpsOk(ops: set<Op>) { Functional(ops) && NonEmpty(ops) }

  ghost predicate Inv(w: World) {
    && LogOk(w.log) && w.published <= w.log.Keys
    && OpsOk(AllOps(w))
    && (forall i :: i in w.replicas ==> ReplicaOk(i, w.replicas[i], w.log, w.published, w.remote))
    && RemoteOk(w.remote, w.log, w.published)
    && CompactionOk(w) && SweepsOk(w.sweeps, w.remote)
  }

  lemma StartOk()
    ensures Inv(Start())
  {
    assert AllOps(Start()) == {};
  }

  // ---- Sets of ops -------------------------------------------------------------------

  lemma OpsInExtends(log: Log, log': Log, names: set<FileName>)
    requires names <= log.Keys && (forall n :: n in log ==> n in log' && log'[n] == log[n])
    ensures OpsIn(log', names) == OpsIn(log, names)
  {}

  lemma OpsInUnion(log: Log, a: set<FileName>, b: set<FileName>)
    ensures OpsIn(log, a + b) == OpsIn(log, a) + OpsIn(log, b)
  {}

  lemma {:induction false} OpsOfListing(log: Log, changes: seq<Change>)
    requires forall c :: c in changes ==> NameOf(c) in log && log[NameOf(c)] == c
    ensures Elements(AllOpsOf(changes)) == OpsIn(log, Names(changes))
  {
    if changes != [] {
      var c, rest := changes[0], changes[1..];
      OpsOfListing(log, rest);
      assert changes == [c] + rest;
      assert Names(changes) == {NameOf(c)} + Names(rest);
      OpsInUnion(log, {NameOf(c)}, Names(rest));
      assert OpsIn(log, {NameOf(c)}) == Elements(c.ops) by {
        forall op ensures op in OpsIn(log, {NameOf(c)}) <==> op in c.ops {
          if op in c.ops { assert NameOf(c) in {NameOf(c)} && op in log[NameOf(c)].ops; }
        }
      }
      assert Elements(AllOpsOf(changes)) == Elements(c.ops) + Elements(AllOpsOf(rest));
    }
  }

  lemma AppliedIsCommitted(w: World, i: string)
    requires i in w.replicas && w.replicas[i].merged <= w.log.Keys
    ensures Applied(w, w.replicas[i]) <= AllOps(w)
  {
    forall op | op in PendingOps(w.replicas[i]) ensures op in AllPendingOps(w) {}
  }

  lemma OpsOkSubset(small: set<Op>, large: set<Op>)
    requires small <= large && OpsOk(large)
    ensures OpsOk(small)
  {
    FunctionalSubset(small, large);
  }

  // ---- Steps that change one device only ------------------------------------------------

  lemma SameReplicaOps(w: World, i: string, r: Replica)
    requires i in w.replicas && PendingOps(r) == PendingOps(w.replicas[i])
    ensures AllOps(WithReplica(w, i, r)) == AllOps(w)
  {
    var w' := WithReplica(w, i, r);
    forall op ensures op in AllPendingOps(w') <==> op in AllPendingOps(w) {
      if j :| j in w.replicas && op in PendingOps(w.replicas[j]) {
        assert j in w'.replicas && op in PendingOps(w'.replicas[j]);
      }
      if j :| j in w'.replicas && op in PendingOps(w'.replicas[j]) {
        assert j in w.replicas && op in PendingOps(w.replicas[j]);
      }
    }
  }

  ghost predicate Compacts(w: World, i: string) { w.compaction.Some? && w.compaction.value.compactor == i }

  /** Swapping in a device that is fine by itself keeps the invariant. */
  lemma SwapReplica(w: World, i: string, r: Replica)
    requires Inv(w) && OpsOk(AllOps(WithReplica(w, i, r)))
    requires ReplicaOk(i, r, w.log, w.published, w.remote)
    requires i in w.replicas ==> w.replicas[i].seen <= r.seen || !Compacts(w, i)
    ensures Inv(WithReplica(w, i, r))
  {
    hide ReplicaOk, RemoteOk, OpsOk, LogOk, SnapshotOk, AllOps;
  }

  lemma ReplaceReplica(w: World, i: string, r: Replica)
    requires Inv(w) && i in w.replicas && PendingOps(r) == PendingOps(w.replicas[i])
    requires ReplicaOk(i, r, w.log, w.published, w.remote)
    requires w.replicas[i].seen <= r.seen || !Compacts(w, i)
    ensures Inv(WithReplica(w, i, r))
  {
    hide ReplicaOk, RemoteOk, OpsOk, LogOk, CompactionOk, AllOps;
    SameReplicaOps(w, i, r);
    SwapReplica(w, i, r);
  }

  lemma ReplicaInOrder(w: World, i: string)
    requires Inv(w) && i in w.replicas
    ensures ReplicaOk(i, w.replicas[i], w.log, w.published, w.remote)
  {
    hide ReplicaOk, RemoteOk, OpsOk, LogOk, CompactionOk, SweepsOk;
  }

  lemma BeginFlushReplica(i: string, r: Replica, log: Log, published: set<FileName>, m: Remote)
    requires ReplicaOk(i, r, log, published, m)
    ensures ReplicaOk(i, ObserveOutbox(r), log, published, m)
  {
    hide AllSettled;
  }

  lemma BeginFlushOk(w: World, i: string)
    requires Inv(w) && i in w.replicas
    ensures Inv(WithReplica(w, i, ObserveOutbox(w.replicas[i])))
  {
    hide Inv, ReplicaOk;
    ReplicaInOrder(w, i);
    BeginFlushReplica(i, w.replicas[i], w.log, w.published, w.remote);
    ReplaceReplica(w, i, ObserveOutbox(w.replicas[i]));
  }

  lemma EndFlushReplica(i: string, r: Replica, n: nat, log: Log, published: set<FileName>, m: Remote)
    requires ReplicaOk(i, r, log, published, m) && n <= |r.outbox|
    requires forall k :: 0 <= k < n ==> NameOf(r.outbox[k]) in published
    ensures ReplicaOk(i, Acknowledge(r, n), log, published, m)
  {
    hide AllSettled;
    var r' := Acknowledge(r, n);
    assert r.outbox == r.outbox[..n] + r'.outbox;
    assert OutboxNames(r) <= published + OutboxNames(r') by {
      forall c | c in r.outbox ensures NameOf(c) in published + OutboxNames(r') {
        if c !in r'.outbox { assert c in r.outbox[..n]; }
      }
    }
  }

  lemma EndFlushOk(w: World, i: string, n: nat)
    requires Inv(w) && i in w.replicas && n <= |w.replicas[i].outbox|
    requires forall k :: 0 <= k < n ==> NameOf(w.replicas[i].outbox[k]) in w.published
    ensures Inv(WithReplica(w, i, Acknowledge(w.replicas[i], n)))
  {
    hide Inv, ReplicaOk;
    ReplicaInOrder(w, i);
    EndFlushReplica(i, w.replicas[i], n, w.log, w.published, w.remote);
    ReplaceReplica(w, i, Acknowledge(w.replicas[i], n));
  }

  lemma ExpireReplica(i: string, r: Replica, log: Log, published: set<FileName>, m: Remote)
    requires ReplicaOk(i, r, log, published, m)
    ensures ReplicaOk(i, Quarantined(r), log, published, m)
  {
    hide AllSettled;
    var r' := Quarantined(r);
    forall c | c in r.outbox || c in r.quarantine ensures NameOf(c) in QuarantineNames(r') {
      assert c in r'.quarantine;
    }
  }

  lemma ExpireOk(w: World, i: string)
    requires Inv(w) && i in w.replicas
    ensures Inv(WithReplica(w, i, Quarantined(w.replicas[i])))
  {
    hide Inv, ReplicaOk;
    ReplicaInOrder(w, i);
    ExpireReplica(i, w.replicas[i], w.log, w.published, w.remote);
    ReplaceReplica(w, i, Quarantined(w.replicas[i]));
  }

  lemma FoldRows(r: Replica, changes: seq<Change>, log: Log)
    requires RowsOk(r, log)
    requires forall c :: c in changes ==> NameOf(c) in log && log[NameOf(c)] == c
    requires OpsOk(OpsIn(log, r.merged) + PendingOps(r) + OpsIn(log, Names(changes)))
    ensures Fold(r, changes).Ok? && RowsOk(Fold(r, changes).value, log)
  {
    OpsOfListing(log, changes);
    OpsInUnion(log, r.merged, Names(changes));
    var ops := AllOpsOf(changes);
    ApplyAllSettles(OpsIn(log, r.merged) + PendingOps(r), r.rows, ops);
    hide AllSettled, ApplyOps, OpsIn;
    assert OpsIn(log, r.merged) + PendingOps(r) + Elements(ops) == OpsIn(log, r.merged + Names(changes)) + PendingOps(r);
  }

  /** Folding files whose ops are in order cannot throw, and leaves the device in order. */
  lemma FoldReplica(i: string, r: Replica, changes: seq<Change>, log: Log, published: set<FileName>, m: Remote)
    requires ReplicaOk(i, r, log, published, m)
    requires forall c :: c in changes ==> NameOf(c) in log && log[NameOf(c)] == c && NameOf(c) in published
    requires OpsOk(OpsIn(log, r.merged) + PendingOps(r) + OpsIn(log, Names(changes)))
    ensures Fold(r, changes).Ok?
    ensures ReplicaOk(i, Fold(r, changes).value, log, published, m)
  {
    FoldRows(r, changes, log);
    hide RowsOk, OpsOk, OpsIn, AllOpsOf, ApplyOps;
  }

  lemma FoldOk(w: World, i: string, changes: seq<Change>)
    requires Inv(w) && i in w.replicas && Listing(w.remote, changes)
    ensures Fold(w.replicas[i], changes).Ok?
    ensures ReplicaOk(i, Fold(w.replicas[i], changes).value, w.log, w.published, w.remote)
  {
    ReplicaInOrder(w, i);
    var r := w.replicas[i];
    assert r.merged <= w.log.Keys;
    hide ReplicaOk, Fold;
    AppliedIsCommitted(w, i);
    OpsOkSubset(Applied(w, r) + OpsIn(w.log, Names(changes)), AllOps(w));
    FoldReplica(i, r, changes, w.log, w.published, w.remote);
  }

  lemma InterruptedPullOk(w: World, i: string, changes: seq<Change>)
    requires Inv(w) && i in w.replicas && Listing(w.remote, changes)
    ensures Fold(w.replicas[i], changes).Ok?
    ensures Inv(WithReplica(w, i, Fold(w.replicas[i], changes).value))
  {
    hide Inv, ReplicaOk;
    FoldOk(w, i, changes);
    ReplaceReplica(w, i, Fold(w.replicas[i], changes).value);
  }

  lemma {:induction false} ReceiveAllKeepsNode(clock: Hlc, changes: seq<Change>, nows: seq<nat>)
    requires |nows| == |changes|
    ensures ReceiveAll(clock, changes, nows).node == clock.node
    decreases |changes|
  {
    if changes != [] { ReceiveAllKeepsNode(Receive(clock, changes[0].hlc, nows[0]), changes[1..], nows[1..]); }
  }

  lemma PullDoneReplica(i: string, r: Replica, changes: seq<Change>, nows: seq<nat>, log: Log, published: set<FileName>, m: Remote)
    requires ReplicaOk(i, r, log, published, m) && |nows| == |changes| && Names(changes) <= r.merged
    ensures ReplicaOk(i, PullDone(r, changes, nows), log, published, m)
  {
    hide AllSettled, ReceiveAll;
    ReceiveAllKeepsNode(r.clock, changes, nows);
  }

  lemma PullOk(w: World, i: string, changes: seq<Change>, nows: seq<nat>)
    requires Inv(w) && i in w.replicas && Listing(w.remote, changes) && |nows| == |changes|
    ensures Fold(w.replicas[i], changes).Ok?
    ensures Inv(WithReplica(w, i, Pulled(w.replicas[i], changes, nows)))
  {
    hide Inv, ReplicaOk;
    FoldOk(w, i, changes);
    var folded := Fold(w.replicas[i], changes).value;
    PullDoneReplica(i, folded, changes, nows, w.log, w.published, w.remote);
    ReplaceReplica(w, i, PullDone(folded, changes, nows));
  }

  lemma RestoreReplica(i: string, r: Replica, s: Snapshot, log: Log, published: set<FileName>, m: Remote)
    requires ReplicaOk(i, r, log, published, m) && r.pending.None? && OutboxNames(r) <= published + QuarantineNames(r)
    requires published <= log.Keys && SnapshotOk(s, log, published)
    requires s.epoch <= Current(m).epoch && (s.epoch == Current(m).epoch ==> Covered(m) <= s.covered)
    ensures ReplicaOk(i, Restored(r, s), log, published, m)
  {
    hide AllSettled;
    assert OpsIn(log, s.merged) + {} == OpsIn(log, s.merged);
  }

  lemma RestoreOk(w: World, i: string, e: nat)
    requires Inv(w) && i in w.replicas && QueueSafe(w, w.replicas[i])
    requires e in w.remote.snapshots && e <= Current(w.remote).epoch && !Compacts(w, i)
    ensures Inv(WithReplica(w, i, Restored(w.replicas[i], w.remote.snapshots[e])))
  {
    hide ReplicaOk, SnapshotOk, LogOk, OpsOk, CompactionOk;
    ReplicaInOrder(w, i);
    var s := w.remote.snapshots[e];
    RestoreReplica(i, w.replicas[i], s, w.log, w.published, w.remote);
    hide Inv;
    ReplaceReplica(w, i, Restored(w.replicas[i], s));
  }

  lemma NoSnapshotNothingCovered(m: Remote, log: Log, published: set<FileName>)
    requires RemoteOk(m, log, published) && Current(m).epoch == 0
    ensures Covered(m) == {}
  {}

  lemma FreshReplica(i: string, r: Replica, log: Log, published: set<FileName>, m: Remote)
    requires r.clock.node == i && r.adopting.None? && r.rows == map[] && r.pending.None? && r.outbox == []
    requires r.seen == r.merged == r.stranded == {} && r.epoch == 0
    requires Conserved(r, log, published) && RemoteOk(m, log, published)
    ensures ReplicaOk(i, r, log, published, m)
  {
    hide RemoteOk;
    EmptyIsSettled();
    hide AllSettled;
    assert OpsIn(log, {}) + {} == {};
    if Current(m).epoch == 0 { NoSnapshotNothingCovered(m, log, published); }
  }

  lemma EmptyStoreOk(w: World, i: string)
    requires Inv(w) && i in w.replicas && QueueSafe(w, w.replicas[i]) && !Compacts(w, i)
    ensures Inv(WithReplica(w, i, Emptied(w.replicas[i])))
  {
    ReplicaInOrder(w, i);
    hide RemoteOk, LogOk, OpsOk, CompactionOk, AllSettled;
    FreshReplica(i, Emptied(w.replicas[i]), w.log, w.published, w.remote);
    hide Inv;
    ReplaceReplica(w, i, Emptied(w.replicas[i]));
  }

  lemma ClockOnlyOk(w: World, i: string, r: Replica)
    requires Inv(w) && i in w.replicas && r.clock.node == i && (r.adopting.Some? ==> r.adopting.value.node == i)
    requires r == w.replicas[i].(clock := r.clock, adopting := r.adopting, paused := r.paused)
    ensures Inv(WithReplica(w, i, r))
  {
    hide Inv, AllSettled;
    ReplicaInOrder(w, i);
    ReplaceReplica(w, i, r);
  }

  lemma JoinOps(w: World, i: string, r: Replica)
    requires i !in w.replicas && PendingOps(r) == {}
    ensures AllOps(WithReplica(w, i, r)) == AllOps(w)
  {
    var w' := WithReplica(w, i, r);
    forall op ensures op in AllPendingOps(w') <==> op in AllPendingOps(w) {
      if j :| j in w.replicas && op in PendingOps(w.replicas[j]) {
        assert j in w'.replicas && op in PendingOps(w'.replicas[j]);
      }
      if j :| j in w'.replicas && op in PendingOps(w'.replicas[j]) {
        assert j in w.replicas && op in PendingOps(w.replicas[j]);
      }
    }
  }

  lemma JoinOk(w: World, i: string, now: nat)
    requires Inv(w) && i !in w.replicas
    ensures Inv(WithReplica(w, i, Joined(i, now)))
  {
    var r := Joined(i, now);
    assert Conserved(r, w.log, w.published) by { assert OpsIn(w.log, {}) + {} == {}; }
    hide RemoteOk, OpsOk, LogOk, CompactionOk;
    FreshReplica(i, r, w.log, w.published, w.remote);
    JoinOps(w, i, r);
    hide ReplicaOk, AllOps, Joined;
    SwapReplica(w, i, r);
  }

  // ---- Local writes ----------------------------------------------------------------------

  lemma PutIsFunctional(ops: set<Op>, applied: set<Op>, key: Key, row: Option<Row>, fields: map<Field, Value>, p: Hlc)
    requires Functional(ops) && applied <= ops && Settled(applied, key, row)
    requires forall op :: op in ops ==> !OpCarries(op, p)
    ensures Functional(ops + {Upsert(key, PutRow(row, fields, p).payload)})
  {
    hide Less;
    var payload := PutRow(row, fields, p).payload;
    var op := Upsert(key, payload);
    StampedMore(ops, op);
    forall f | f in payload && payload[f].hlc != p ensures Stamped(ops, key, f, payload[f]) {
      var old_ :| old_ in applied && old_.Upsert? && old_.key == key && f in old_.columns && old_.columns[f] == payload[f];
      assert old_ in ops;
    }
    forall k, f, c | Stamped(ops, k, f, c) ensures c.hlc != p {
      var o :| o in ops && o.Upsert? && o.key == k && f in o.columns && o.columns[f] == c;
      assert c.hlc == p ==> OpCarries(o, p);
    }
  }

  lemma DeleteIsFunctional(ops: set<Op>, key: Key, h: Hlc)
    requires Functional(ops)
    ensures Functional(ops + {Delete(key, h)})
  {
    StampedMore(ops, Delete(key, h));
  }

  lemma CommitPending(r: Replica, clock: Hlc, key: Key, row: Row, c: Change, op: Op)
    requires c.ops == [op]
    ensures PendingOps(CommitRow(r.(clock := clock), key, row, c)) == PendingOps(r) + {op}
  {
    assert Elements(c.ops) == {op};
    if r.pending.Some? {
      assert Elements(r.pending.value.ops + c.ops) == Elements(r.pending.value.ops) + Elements(c.ops);
    }
  }

  lemma CommitRowsOk(r: Replica, clock: Hlc, row: Row, c: Change, op: Op, log: Log)
    requires RowsOk(r, log) && c.ops == [op] && (op.Upsert? ==> op.columns != map[])
    requires ApplyToRow(Get(r.rows, op.key), op) == Ok(row)
    requires Functional(OpsIn(log, r.merged) + PendingOps(r) + {op})
    ensures RowsOk(CommitRow(r.(clock := clock), op.key, row, c), log)
  {
    ApplySettles(OpsIn(log, r.merged) + PendingOps(r), r.rows, op);
    CommitPending(r, clock, op.key, row, c, op);
    hide AllSettled, ApplyToRow, Functional, PendingOps;
    assert OpsIn(log, r.merged) + (PendingOps(r) + {op}) == OpsIn(log, r.merged) + PendingOps(r) + {op};
  }

  lemma CommitPendingOk(r: Replica, clock: Hlc, key: Key, row: Row, c: Change, op: Op)
    requires PendingOk(r) && c.ops == [op] && Bounded(c) && (op.Upsert? ==> op.columns != map[])
    ensures PendingOk(CommitRow(r.(clock := clock), key, row, c))
  {
    CommitPending(r, clock, key, row, c, op);
    CommitKeepsBounded(r.pending, c);
    var r' := CommitRow(r.(clock := clock), key, row, c);
    hide Bounded;
    forall o | o in PendingOps(r') && o.Upsert? ensures o.columns != map[] {
      assert o in PendingOps(r) || o == op;
    }
  }

  lemma CommitConserves(r: Replica, clock: Hlc, key: Key, row: Row, c: Change, op: Op, log: Log, published: set<FileName>)
    requires Conserved(r, log, published) && c.ops == [op]
    ensures Conserved(CommitRow(r.(clock := clock), key, row, c), log, published)
  {
    CommitPending(r, clock, key, row, c, op);
    hide PendingOps;
    assert Elements(c.ops) == {op};
  }

  /** Committing a row together with an op that merges to exactly that row. */
  lemma CommitReplica(i: string, r: Replica, clock: Hlc, row: Row, c: Change, op: Op, log: Log, published: set<FileName>, m: Remote)
    requires ReplicaOk(i, r, log, published, m) && clock.node == i
    requires c.ops == [op] && Bounded(c) && (op.Upsert? ==> op.columns != map[])
    requires ApplyToRow(Get(r.rows, op.key), op) == Ok(row)
    requires Functional(OpsIn(log, r.merged) + PendingOps(r) + {op})
    ensures ReplicaOk(i, CommitRow(r.(clock := clock), op.key, row, c), log, published, m)
  {
    CommitRowsOk(r, clock, row, c, op, log);
    CommitPendingOk(r, clock, op.key, row, c, op);
    CommitConserves(r, clock, op.key, row, c, op, log, published);
    hide RowsOk, PendingOk, Conserved, ApplyToRow, Functional, Bounded;
  }

  lemma CommitOps(w: World, i: string, r: Replica, op: Op)
    requires i in w.replicas && PendingOps(r) == PendingOps(w.replicas[i]) + {op}
    ensures AllOps(WithReplica(w, i, r)) == AllOps(w) + {op}
  {
    var w' := WithReplica(w, i, r);
    forall o ensures o in AllPendingOps(w') <==> o in AllPendingOps(w) || o == op {
      if j :| j in w.replicas && o in PendingOps(w.replicas[j]) {
        assert j in w'.replicas && o in PendingOps(w'.replicas[j]);
      }
      if j :| j in w'.replicas && o in PendingOps(w'.replicas[j]) {
        assert j in w.replicas && (o in PendingOps(w.replicas[j]) || o == op);
      }
      if o == op { assert i in w'.replicas && o in PendingOps(w'.replicas[i]); }
    }
  }

  lemma CommitOk(w: World, i: string, clock: Hlc, row: Row, c: Change, op: Op)
    requires Inv(w) && i in w.replicas && !Compacts(w, i) && clock.node == i
    requires c.ops == [op] && Bounded(c) && (op.Upsert? ==> op.columns != map[])
    requires ApplyToRow(Get(w.replicas[i].rows, op.key), op) == Ok(row)
    requires Functional(AllOps(w) + {op})
    ensures Inv(WithReplica(w, i, CommitRow(w.replicas[i].(clock := clock), op.key, row, c)))
  {
    var r := w.replicas[i];
    ReplicaInOrder(w, i);
    assert FilesOk(r, w.log, w.published);
    hide RemoteOk, LogOk, CompactionOk, ReplicaOk;
    AppliedIsCommitted(w, i);
    FunctionalSubset(Applied(w, r) + {op}, AllOps(w) + {op});
    CommitReplica(i, r, clock, row, c, op, w.log, w.published, w.remote);
    CommitPending(r, clock, op.key, row, c, op);
    assert NonEmpty(AllOps(w) + {op});
    hide CommitRow, Functional, ApplyToRow, NonEmpty;
    var r' := CommitRow(r.(clock := clock), op.key, row, c);
    CommitOps(w, i, r', op);
    SwapReplica(w, i, r');
  }

  lemma PutRowMerges(history: set<Op>, key: Key, row: Option<Row>, fields: map<Field, Value>, p: Hlc)
    requires Settled(history, key, row) && fields != map[] && Supersedes(row, fields, p)
    ensures var next := PutRow(row, fields, p);
            next.payload != map[] && ApplyToRow(row, Upsert(key, next.payload)) == Ok(next)
  {
    if row.Some? { SettledIsPublishable(history, key, row.value); }
    PutRefinesMergeIff(key, row, fields, p);
  }

  /** What a careful write commits: an op that is in order with all others and merges to the row. */
  lemma WriteCommits(w: World, i: string, key: Key, fields: map<Field, Value>, now: nat, h: Hlc, id: string)
    requires Inv(w) && Enabled(w, Write(i, key, fields, now, h, id)) && Careful(w, Write(i, key, fields, now, h, id))
    ensures var row, p := Get(w.replicas[i].rows, key), NextStamp(w.replicas[i], now); var next := PutRow(row, fields, p);
      && next.payload != map[] && ApplyToRow(row, Upsert(key, next.payload)) == Ok(next)
      && Functional(AllOps(w) + {Upsert(key, next.payload)}) && OpUpTo(Upsert(key, next.payload), h)
  {
    var r := w.replicas[i];
    var p := NextStamp(r, now);
    ReplicaInOrder(w, i);
    var row := Get(r.rows, key);
    assert Settled(Applied(w, r), key, row);
    assert FilesOk(r, w.log, w.published) && Functional(AllOps(w));
    hide Inv, ReplicaOk, Settled, OpsOk;
    PutRowMerges(Applied(w, r), key, row, fields, p);
    AppliedIsCommitted(w, i);
    PutIsFunctional(AllOps(w), Applied(w, r), key, row, fields, p);
    RowOpUpTo(key, PutRow(row, fields, p), h);
    hide Functional, Supersedes, ApplyToRow;
  }

  lemma OwnNode(w: World, i: string, now: nat)
    requires Inv(w) && i in w.replicas
    ensures NextStamp(w.replicas[i], now).node == i
  {
    ReplicaInOrder(w, i);
    hide Inv, RowsOk, FilesOk, Conserved, PendingOk, EpochOk;
  }

  lemma WriteOk(w: World, i: string, key: Key, fields: map<Field, Value>, now: nat, h: Hlc, id: string)
    requires Inv(w) && Enabled(w, Write(i, key, fields, now, h, id)) && Careful(w, Write(i, key, fields, now, h, id))
    ensures Inv(WithReplica(w, i, Put(w.replicas[i], key, fields, now, h, id)))
  {
    hide Inv, NewestStamp, Careful, Functional, ApplyToRow, PutRow, NextStamp, OpUpTo, AllOps;
    var p := NextStamp(w.replicas[i], now);
    var next := PutRow(Get(w.replicas[i].rows, key), fields, p);
    WriteCommits(w, i, key, fields, now, h, id);
    OwnNode(w, i, now);
    CommitOk(w, i, p, next, Change(id, h, [Upsert(key, next.payload)]), Upsert(key, next.payload));
  }

  lemma RemoveCommits(w: World, i: string, key: Key, now: nat, id: string)
    requires Inv(w) && Enabled(w, Remove(i, key, now, id)) && Careful(w, Remove(i, key, now, id))
    ensures var p := NextStamp(w.replicas[i], now);
      && ApplyToRow(Get(w.replicas[i].rows, key), Delete(key, p)) == Ok(Row(true, Some(p), map[]))
      && Functional(AllOps(w) + {Delete(key, p)})
  {
    var r := w.replicas[i];
    ReplicaInOrder(w, i);
    assert Settled(Applied(w, r), key, Get(r.rows, key));
    assert Functional(AllOps(w));
    hide Inv, ReplicaOk, NextStamp;
    SettledIsPublishable(Applied(w, r), key, r.rows[key]);
    DeleteRefinesMergeIff(key, r.rows[key], NextStamp(r, now));
    DeleteIsFunctional(AllOps(w), key, NextStamp(r, now));
    hide Settled, Functional, ApplyToRow;
  }

  lemma RemoveOk(w: World, i: string, key: Key, now: nat, id: string)
    requires Inv(w) && Enabled(w, Remove(i, key, now, id)) && Careful(w, Remove(i, key, now, id))
    ensures Inv(WithReplica(w, i, Erase(w.replicas[i], key, now, id)))
  {
    hide Inv, Careful, Functional, ApplyToRow, NextStamp, AllOps;
    var p := NextStamp(w.replicas[i], now);
    RemoveCommits(w, i, key, now, id);
    OwnNode(w, i, now);
    Trichotomy(p, p);
    CommitOk(w, i, p, Row(true, Some(p), map[]), Change(id, p, [Delete(key, p)]), Delete(key, p));
  }
}
