/** The steps that touch the mailbox keep the invariant too; with them, every run does. */
module InvariantRemote {
  import opened Options
  import opened Merge
  import opened WritePath
  import opened Replica
  import opened Protocol
  import opened Invariant

  // ---- The log and the published set only grow -----------------------------------------

  ghost predicate Extends(log: Log, log': Log) { forall n :: n in log ==> n in log' && log'[n] == log[n] }

  /** The mailbox still points at the same snapshot. */
  ghost predicate SameEpoch(m: Remote, m': Remote) {
    Current(m') == Current(m) && Covered(m') == Covered(m)
  }

  lemma ReplicaGrows(i: string, r: Replica, log: Log, log': Log, published: set<FileName>, published': set<FileName>, m: Remote, m': Remote)
    requires ReplicaOk(i, r, log, published, m) && Extends(log, log') && published <= published' && SameEpoch(m, m')
    ensures ReplicaOk(i, r, log', published', m')
  {
    OpsInExtends(log, log', r.merged);
    OpsInExtends(log, log', r.made);
    hide AllSettled, OpsIn;
  }

  lemma SnapshotGrows(s: Snapshot, log: Log, log': Log, published: set<FileName>, published': set<FileName>)
    requires SnapshotOk(s, log, published) && published <= log.Keys && Extends(log, log') && published <= published'
    ensures SnapshotOk(s, log', published')
  {
    OpsInExtends(log, log', s.merged);
    hide AllSettled, OpsIn;
  }

  lemma SnapshotsGrow(m: Remote, log: Log, log': Log, published: set<FileName>, published': set<FileName>)
    requires RemoteOk(m, log, published) && published <= log.Keys && Extends(log, log') && published <= published'
    ensures forall e :: e in m.snapshots ==> m.snapshots[e].epoch == e && SnapshotOk(m.snapshots[e], log', published')
  {
    hide SnapshotOk;
    forall e | e in m.snapshots ensures m.snapshots[e].epoch == e && SnapshotOk(m.snapshots[e], log', published') {
      SnapshotGrows(m.snapshots[e], log, log', published, published');
    }
  }

  lemma ReplicasGrow(w: World, log': Log, published': set<FileName>, m': Remote)
    requires Inv(w) && Extends(w.log, log') && w.published <= published' && SameEpoch(w.remote, m')
    ensures forall i :: i in w.replicas ==> ReplicaOk(i, w.replicas[i], log', published', m')
  {
    hide ReplicaOk, RemoteOk, OpsOk, LogOk, CompactionOk, Extends, SameEpoch;
    forall i | i in w.replicas ensures ReplicaOk(i, w.replicas[i], log', published', m') {
      ReplicaGrows(i, w.replicas[i], w.log, log', w.published, published', w.remote, m');
    }
  }

  lemma SameOps(w: World, w': World)
    requires w'.replicas == w.replicas && w'.log == w.log
    ensures AllOps(w') == AllOps(w)
  {}

  // ---- Closing a batch -------------------------------------------------------------------

  lemma PromoteConserves(r: Replica, log: Log, log': Log, published: set<FileName>)
    requires Conserved(r, log, published) && r.pending.Some? && NameOf(r.pending.value) !in log
    requires log' == log[NameOf(r.pending.value) := r.pending.value]
    ensures Conserved(Promote(r), log', published) && OutboxNames(Promote(r)) == OutboxNames(r) + {NameOf(r.pending.value)}
  {
    var c, r' := r.pending.value, Promote(r);
    PromoteOps(c, log, log', r.made);
    hide OpsIn;
    assert OutboxNames(r') == OutboxNames(r) + {NameOf(c)} by {
      assert c in r'.outbox;
      assert forall x :: x in r'.outbox <==> x in r.outbox || x == c;
    }
  }

  lemma PromoteReplica(i: string, r: Replica, log: Log, log': Log, published: set<FileName>, m: Remote)
    requires ReplicaOk(i, r, log, published, m) && r.pending.Some? && NameOf(r.pending.value) !in log
    requires log' == log[NameOf(r.pending.value) := r.pending.value]
    ensures ReplicaOk(i, Promote(r), log', published, m)
  {
    hide AllSettled, Bounded, NonEmpty;
    var c, r' := r.pending.value, Promote(r);
    PromoteConserves(r, log, log', published);
    hide Conserved;
    assert OpsIn(log', r'.merged) + PendingOps(r') == OpsIn(log, r.merged) + PendingOps(r) by { PromoteOps(c, log, log', r.merged); }
    hide OpsIn;
  }

  lemma PromoteOps(c: Change, log: Log, log': Log, names: set<FileName>)
    requires NameOf(c) !in log && log' == log[NameOf(c) := c] && names <= log.Keys
    ensures OpsIn(log', names + {NameOf(c)}) == OpsIn(log, names) + Elements(c.ops)
  {
    OpsInExtends(log, log', names);
    OpsInUnion(log', names, {NameOf(c)});
    forall op ensures op in OpsIn(log', {NameOf(c)}) <==> op in Elements(c.ops) {
      if op in c.ops { assert NameOf(c) in {NameOf(c)} && op in log'[NameOf(c)].ops; }
    }
  }

  lemma PromoteAllOps(w: World, w': World, i: string)
    requires i in w.replicas && w.replicas[i].pending.Some?
    requires var c := w.replicas[i].pending.value;
             NameOf(c) !in w.log && w' == WithReplica(w, i, Promote(w.replicas[i])).(log := w.log[NameOf(c) := c])
    ensures AllOps(w') == AllOps(w)
  {
    var c := w.replicas[i].pending.value;
    PromoteOps(c, w.log, w'.log, w.log.Keys);
    assert w'.log.Keys == w.log.Keys + {NameOf(c)};
    forall op ensures op in AllPendingOps(w') + Elements(c.ops) <==> op in AllPendingOps(w) {
      if j :| j in w.replicas && op in PendingOps(w.replicas[j]) {
        if j != i { assert j in w'.replicas && op in PendingOps(w'.replicas[j]); }
      }
      if j :| j in w'.replicas && op in PendingOps(w'.replicas[j]) {
        assert j in w.replicas && op in PendingOps(w.replicas[j]);
      }
      if op in Elements(c.ops) { assert i in w.replicas && op in PendingOps(w.replicas[i]); }
    }
  }

  lemma CompactionGrows(w: World, w': World)
    requires Inv(w) && Extends(w.log, w'.log) && w.published <= w'.published
    requires w'.compaction == w.compaction && w'.replicas.Keys == w.replicas.Keys
    requires forall i :: i in w.replicas ==> w.replicas[i].seen <= w'.replicas[i].seen
    requires w'.remote == w.remote.(changes := w'.remote.changes)
    requires w'.published <= w'.remote.changes.Keys + w.published && w.remote.changes.Keys <= w'.remote.changes.Keys
    ensures CompactionOk(w')
  {
    hide ReplicaOk, RemoteOk, OpsOk, LogOk, SnapshotOk;
    if w.compaction.Some? {
      SnapshotGrows(w.compaction.value.snapshot, w.log, w'.log, w.published, w'.published);
    }
  }

  /** The parts of the invariant put together again. */
  lemma Assemble(w: World)
    requires LogOk(w.log) && w.published <= w.log.Keys && OpsOk(AllOps(w))
    requires forall i :: i in w.replicas ==> ReplicaOk(i, w.replicas[i], w.log, w.published, w.remote)
    requires RemoteOk(w.remote, w.log, w.published) && CompactionOk(w) && SweepsOk(w.sweeps, w.remote)
    ensures Inv(w)
  {
    hide LogOk, OpsOk, AllOps, ReplicaOk, RemoteOk, CompactionOk, SweepsOk;
  }

  lemma RemoteGrows(m: Remote, m': Remote, log: Log, log': Log, published: set<FileName>, published': set<FileName>)
    requires RemoteOk(m, log, published) && published <= log.Keys && Extends(log, log') && published <= published'
    requires m' == m.(changes := m'.changes) && m.changes.Keys <= m'.changes.Keys
    requires forall n :: n in m'.changes ==> n in published' && n in log' && m'.changes[n] == log'[n]
    requires published' <= m'.changes.Keys + published
    ensures RemoteOk(m', log', published')
  {
    SnapshotsGrow(m, log, log', published, published');
    hide SnapshotOk;
  }

  lemma RemoteGrowsLog(m: Remote, log: Log, log': Log, published: set<FileName>)
    requires RemoteOk(m, log, published) && published <= log.Keys && Extends(log, log')
    ensures RemoteOk(m, log', published)
  {
    RemoteGrows(m, m, log, log', published, published);
  }

  /** The closed batch is new to the log, and the device that closed it is in order. */
  lemma PromotedDevice(w: World, i: string)
    requires Inv(w) && i in w.replicas && w.replicas[i].pending.Some? && NameOf(w.replicas[i].pending.value) !in w.log
    ensures var log' := BatchClosed(w, i).log;
            Extends(w.log, log') && ReplicaOk(i, Promote(w.replicas[i]), log', w.published, w.remote)
  {
    hide Inv, ReplicaOk, Promote;
    ReplicaInOrder(w, i);
    PromoteReplica(i, w.replicas[i], w.log, BatchClosed(w, i).log, w.published, w.remote);
  }

  lemma CloseBatchReplicas(w: World, i: string)
    requires Inv(w) && i in w.replicas && w.replicas[i].pending.Some? && NameOf(w.replicas[i].pending.value) !in w.log
    ensures var w' := BatchClosed(w, i);
            forall j :: j in w'.replicas ==> ReplicaOk(j, w'.replicas[j], w'.log, w.published, w.remote)
  {
    hide Inv, ReplicaOk, Promote, Extends, Current, Covered;
    PromotedDevice(w, i);
    ReplicasGrow(w, BatchClosed(w, i).log, w.published, w.remote);
    assert BatchClosed(w, i).replicas == w.replicas[i := Promote(w.replicas[i])];
    hide BatchClosed;
  }

  lemma LogGrows(log: Log, c: Change)
    requires LogOk(log) && Bounded(c) && NameOf(c) !in log
    ensures LogOk(log[NameOf(c) := c])
  {
    hide Bounded;
  }

  lemma PendingBounded(w: World, i: string)
    requires Inv(w) && i in w.replicas && w.replicas[i].pending.Some?
    ensures Bounded(w.replicas[i].pending.value)
  {
    ReplicaInOrder(w, i);
    hide Inv, RowsOk, FilesOk, Conserved, EpochOk, Bounded;
  }

  lemma CloseBatchOk(w: World, i: string)
    requires Inv(w) && i in w.replicas && w.replicas[i].pending.Some? && NameOf(w.replicas[i].pending.value) !in w.log
    ensures Inv(BatchClosed(w, i))
  {
    hide ReplicaOk, OpsOk, LogOk, AllOps, CompactionOk, Bounded, RemoteOk;
    var w' := BatchClosed(w, i);
    PendingBounded(w, i);
    LogGrows(w.log, w.replicas[i].pending.value);
    CloseBatchReplicas(w, i);
    PromoteAllOps(w, w', i);
    CompactionGrows(w, w');
    assert w'.remote == w.remote && w'.published == w.published;
    hide BatchClosed;
    RemoteGrowsLog(w.remote, w.log, w'.log, w.published);
    Assemble(w');
  }

  // ---- Writing a change file ---------------------------------------------------------------

  lemma WriteFileOk(w: World, c: Change)
    requires Inv(w) && NameOf(c) in w.log && w.log[NameOf(c)] == c
    ensures Inv(FileWritten(w, c))
  {
    var w' := FileWritten(w, c);
    hide ReplicaOk, OpsOk, LogOk, SnapshotOk;
    ReplicasGrow(w, w.log, w'.published, w'.remote);
    CompactionGrows(w, w');
    hide CompactionOk;
    RemoteGrows(w.remote, w'.remote, w.log, w.log, w.published, w'.published);
    hide RemoteOk;
    SameOps(w, w');
    Assemble(w');
  }

  lemma QueuedIsLogged(w: World, i: string, k: nat)
    requires Inv(w) && i in w.replicas && k < |w.replicas[i].outbox|
    ensures var c := w.replicas[i].outbox[k]; NameOf(c) in w.log && w.log[NameOf(c)] == c
  {
    ReplicaInOrder(w, i);
    hide Inv, AllSettled;
  }

  // ---- Compaction ----------------------------------------------------------------------------

  /** What a compactor with nothing unpublished in its rows captures is a sound snapshot that, with the files
      still in the mailbox, stands for everything published. */
  lemma CaptureSound(w: World, r: Replica, pulled: Replica, i: string)
    requires ReplicaOk(i, pulled, w.log, w.published, w.remote) && RemoteOk(w.remote, w.log, w.published)
    requires pulled.pending.None? && OutboxNames(pulled) + pulled.stranded <= w.published
    requires w.remote.changes.Keys <= pulled.seen && Covered(w.remote) <= pulled.seen
    ensures var s := Capturing(r, pulled, Current(w.remote).epoch + 1);
            SnapshotOk(s, w.log, w.published) && w.published <= w.remote.changes.Keys + s.covered
  {
    hide AllSettled;
    assert OpsIn(w.log, pulled.merged) + {} == OpsIn(w.log, pulled.merged);
  }

  lemma PulledIsReady(w: World, i: string, changes: seq<Change>, nows: seq<nat>)
    requires i in w.replicas && PullsAll(w.remote, w.replicas[i], changes, nows)
    ensures var r, pulled := w.replicas[i], Pulled(w.replicas[i], changes, nows);
            && pulled == r.(clock := pulled.clock, stored := pulled.stored, rows := pulled.rows, seen := pulled.seen, merged := pulled.merged)
            && r.seen <= pulled.seen && w.remote.changes.Keys <= pulled.seen
  {}

  lemma CaptureOk(w: World, i: string, changes: seq<Change>, nows: seq<nat>)
    requires Inv(w) && i in w.replicas && w.compaction.None? && PullsAll(w.remote, w.replicas[i], changes, nows)
    requires w.replicas[i].pending.None? && OutboxNames(w.replicas[i]) + w.replicas[i].stranded <= w.published
    requires Covered(w.remote) <= w.replicas[i].seen + w.remote.changes.Keys
    ensures Inv(SnapshotCaptured(w, i, Pulled(w.replicas[i], changes, nows)))
  {
    var r, pulled := w.replicas[i], Pulled(w.replicas[i], changes, nows);
    var mid, w' := WithReplica(w, i, pulled), SnapshotCaptured(w, i, pulled);
    PulledIsReady(w, i, changes, nows);
    hide ReplicaOk, OpsOk, LogOk, SnapshotOk, RemoteOk, AllOps, Pulled, PullsAll;
    PullOk(w, i, changes, nows);
    ReplicaInOrder(mid, i);
    CaptureSound(w, r, pulled, i);
    CapturedOk(mid, w', i);
  }

  lemma CapturedOk(mid: World, w': World, i: string)
    requires Inv(mid) && w' == mid.(compaction := w'.compaction) && w'.compaction.Some?
    requires var c := w'.compaction.value;
             && c.compactor == i && c.phase == Captured && i in mid.replicas && c.snapshot.covered <= mid.replicas[i].seen
             && c.snapshot.epoch == Current(mid.remote).epoch + 1
             && SnapshotOk(c.snapshot, mid.log, mid.published) && mid.published <= mid.remote.changes.Keys + c.snapshot.covered
    ensures Inv(w')
  {
    SameOps(mid, w');
    hide ReplicaOk, OpsOk, LogOk, SnapshotOk, RemoteOk, AllOps;
  }

  /** A change of snapshots, manifests or change files that leaves the current snapshot in
      place and the mailbox in order. */
  lemma RemoteOnlyOk(w: World, w': World)
    requires Inv(w) && w' == w.(remote := w'.remote, compaction := w'.compaction)
    requires SameEpoch(w.remote, w'.remote) && RemoteOk(w'.remote, w.log, w.published) && CompactionOk(w')
    ensures Inv(w')
  {
    SameOps(w, w');
    hide ReplicaOk, RemoteOk, OpsOk, CompactionOk, AllOps, LogOk, SameEpoch;
    ReplicasGrow(w, w.log, w.published, w'.remote);
    Assemble(w');
  }

  lemma PutSnapshotRemote(c: Compaction, m: Remote, log: Log, published: set<FileName>)
    requires RemoteOk(m, log, published) && CompactionSound(c, m, log, published) && c.phase == Captured
    ensures var m' := m.(snapshots := m.snapshots[c.snapshot.epoch := c.snapshot]);
            SameEpoch(m, m') && RemoteOk(m', log, published) && CompactionSound(c.(phase := SnapshotWritten), m', log, published)
  {
    hide SnapshotOk;
  }

  lemma PutSnapshotOk(w: World)
    requires Inv(w) && w.compaction.Some? && w.compaction.value.phase == Captured
    ensures Inv(SnapshotPut(w))
  {
    hide ReplicaOk, OpsOk, LogOk, AllOps, RemoteOk, SameEpoch, CompactionSound;
    PutSnapshotRemote(w.compaction.value, w.remote, w.log, w.published);
    RemoteOnlyOk(w, SnapshotPut(w));
  }

  lemma PutManifestRemote(c: Compaction, m: Remote, log: Log, published: set<FileName>)
    requires RemoteOk(m, log, published) && CompactionSound(c, m, log, published) && c.phase == SnapshotWritten
    ensures var m' := m.(manifests := m.manifests[m.pointer + 1 := Manifest(c.snapshot.epoch, Some(c.snapshot.epoch))]);
            SameEpoch(m, m') && RemoteOk(m', log, published) && CompactionSound(c.(phase := ManifestWritten), m', log, published)
  {
    hide SnapshotOk;
  }

  lemma PutManifestOk(w: World)
    requires Inv(w) && w.compaction.Some? && w.compaction.value.phase == SnapshotWritten
    ensures Inv(ManifestPut(w))
  {
    hide ReplicaOk, OpsOk, LogOk, AllOps, RemoteOk, SameEpoch, CompactionSound;
    PutManifestRemote(w.compaction.value, w.remote, w.log, w.published);
    RemoteOnlyOk(w, ManifestPut(w));
  }

  lemma MovePointerReplica(i: string, r: Replica, log: Log, published: set<FileName>, m: Remote, m': Remote)
    requires ReplicaOk(i, r, log, published, m) && Current(m').epoch == Current(m).epoch + 1
    ensures ReplicaOk(i, r, log, published, m')
  {
    hide AllSettled;
  }

  lemma MovePointerRemote(c: Compaction, m: Remote, log: Log, published: set<FileName>)
    requires RemoteOk(m, log, published) && CompactionSound(c, m, log, published) && c.phase == ManifestWritten
    ensures var m' := m.(pointer := m.pointer + 1);
            && Current(m').epoch == Current(m).epoch + 1
            && RemoteOk(m', log, published) && CompactionSound(c.(phase := Pointed), m', log, published)
  {
    hide SnapshotOk;
  }

  lemma MovePointerOk(w: World)
    requires Inv(w) && w.compaction.Some? && w.compaction.value.phase == ManifestWritten
    ensures Inv(PointerMoved(w))
  {
    hide CompactionSound, ReplicaOk, OpsOk, LogOk, AllOps, RemoteOk, Current;
    var w' := PointerMoved(w);
    SameOps(w, w');
    MovePointerRemote(w.compaction.value, w.remote, w.log, w.published);
    forall i | i in w.replicas ensures ReplicaOk(i, w.replicas[i], w.log, w.published, w'.remote) {
      MovePointerReplica(i, w.replicas[i], w.log, w.published, w.remote, w'.remote);
    }
    Assemble(w');
  }

  lemma SaveEpochReplica(i: string, r: Replica, e: nat, log: Log, published: set<FileName>, m: Remote)
    requires ReplicaOk(i, r, log, published, m) && e == Current(m).epoch && Covered(m) <= r.seen
    ensures ReplicaOk(i, r.(epoch := e), log, published, m)
  {
    hide AllSettled;
  }

  lemma SaveEpochOk(w: World)
    requires Inv(w) && w.compaction.Some? && w.compaction.value.phase == Pointed
    ensures var i := w.compaction.value.compactor;
            i in w.replicas && Inv(WithReplica(w, i, w.replicas[i].(epoch := w.compaction.value.snapshot.epoch)))
  {
    var i, e := w.compaction.value.compactor, w.compaction.value.snapshot.epoch;
    hide SnapshotOk, ReplicaOk, OpsOk, LogOk, RemoteOk, AllOps;
    assert i in w.replicas && e == Current(w.remote).epoch && Covered(w.remote) <= w.replicas[i].seen;
    ReplicaInOrder(w, i);
    hide CompactionOk, Inv;
    SaveEpochReplica(i, w.replicas[i], e, w.log, w.published, w.remote);
    ReplaceReplica(w, i, w.replicas[i].(epoch := e));
  }

  lemma DropChangeOk(w: World, n: FileName)
    requires Inv(w) && w.compaction.Some? && w.compaction.value.phase == Pointed && n in w.compaction.value.snapshot.covered
    ensures Inv(ChangeDropped(w, n))
  {
    var w' := ChangeDropped(w, n);
    hide ReplicaOk, OpsOk, LogOk, SnapshotOk, AllOps;
    assert SameEpoch(w.remote, w'.remote);
    assert RemoteOk(w'.remote, w.log, w.published);
    assert CompactionOk(w');
    hide RemoteOk, CompactionOk, SameEpoch;
    RemoteOnlyOk(w, w');
  }

  lemma DropSnapshotOk(w: World, e: nat)
    requires Inv(w) && Current(w.remote).snapshot != Some(e)
    requires w.compaction.Some? && w.compaction.value.phase != Captured ==> e != w.compaction.value.snapshot.epoch
    ensures Inv(SnapshotDropped(w, e))
  {
    var w' := SnapshotDropped(w, e);
    hide ReplicaOk, OpsOk, LogOk, SnapshotOk, AllOps;
    assert SameEpoch(w.remote, w'.remote);
    assert RemoteOk(w'.remote, w.log, w.published);
    assert CompactionOk(w');
    hide RemoteOk, CompactionOk, SameEpoch;
    RemoteOnlyOk(w, w');
  }

  lemma LoadManifestOk(w: World, i: string)
    requires Inv(w) && Current(w.remote).snapshot.Some?
    ensures Inv(w.(sweeps := w.sweeps[i := Current(w.remote).snapshot.value]))
  {
    SameOps(w, w.(sweeps := w.sweeps[i := Current(w.remote).snapshot.value]));
    hide ReplicaOk, OpsOk, LogOk, AllOps, SnapshotOk, CompactionSound;
  }

  /** A deletion that spares the current snapshot and the candidate of a compaction. */
  lemma SweepOk(w: World, i: string, e: nat)
    requires Inv(w) && Enabled(w, Sweep(i, e)) && Careful(w, Sweep(i, e))
    ensures Inv(SnapshotDropped(w, e))
  {
    hide ReplicaOk, OpsOk, LogOk, AllOps, SnapshotOk, RemoteOk, Covered, Current;
    DropSnapshotOk(w, e);
  }

  lemma StopCompactionOk(w: World)
    requires Inv(w)
    ensures Inv(w.(compaction := None))
  {
    assert AllOps(w.(compaction := None)) == AllOps(w);
    hide ReplicaOk, RemoteOk, OpsOk, LogOk, AllOps;
  }

  lemma NodeKept(w: World, i: string)
    requires Inv(w) && i in w.replicas
    ensures w.replicas[i].clock.node == i && (w.replicas[i].adopting.Some? ==> w.replicas[i].adopting.value.node == i)
  {
    ReplicaInOrder(w, i);
    hide Inv, RowsOk, FilesOk, Conserved, PendingOk, EpochOk;
  }

  lemma CrashOk(w: World, i: string, now: nat)
    requires Inv(w) && i in w.replicas
    ensures Inv(Restarting(w, i, now))
  {
    hide Inv;
    NodeKept(w, i);
    var r := Restarted(w.replicas[i], now);
    ClockOnlyOk(w, i, r);
    if Compacts(w, i) { StopCompactionOk(WithReplica(w, i, r)); }
  }

  lemma AdoptClockOk(w: World, i: string)
    requires Inv(w) && i in w.replicas && w.replicas[i].adopting.Some?
    ensures Inv(WithReplica(w, i, ClockAdopted(w.replicas[i])))
  {
    hide Inv;
    NodeKept(w, i);
    ClockOnlyOk(w, i, ClockAdopted(w.replicas[i]));
  }

  lemma QuietOk(w: World, i: string, r: Replica)
    requires Inv(w) && i in w.replicas && (r.adopting == w.replicas[i].adopting || r.adopting.None?)
    requires r == w.replicas[i].(adopting := r.adopting, paused := r.paused)
    ensures Inv(WithReplica(w, i, r))
  {
    hide Inv;
    NodeKept(w, i);
    ClockOnlyOk(w, i, r);
  }

  lemma CompactorDropsOk(w: World, e: nat)
    requires Inv(w) && w.compaction.Some? && w.compaction.value.phase == Pointed && e != w.compaction.value.snapshot.epoch
    ensures Inv(SnapshotDropped(w, e))
  {
    hide ReplicaOk, OpsOk, LogOk, AllOps, SnapshotOk, RemoteOk, Covered, Current;
    DropSnapshotOk(w, e);
  }

  // ---- Every step, every run --------------------------------------------------------------------

  /** Steps by which a device writes, queues or publishes. */
  predicate Writing(s: Step) {
    s.Write? || s.Remove? || s.CloseBatch? || s.BeginFlush? || s.WriteFile? || s.EndFlush? || s.Expire?
  }

  /** Steps of a compaction or of a check of snapshots. */
  predicate OnMailbox(s: Step) {
    s.Capture? || s.PutSnapshot? || s.PutManifest? || s.MovePointer? || s.SaveEpoch? || s.DropChange? || s.DropSnapshot?
    || s.EndCompaction? || s.LoadManifest? || s.Sweep?
  }

  lemma WritingKeepsInv(w: World, s: Step)
    requires Inv(w) && Careful(w, s) && Enabled(w, s) && Writing(s)
    ensures Inv(Do(w, s))
  {
    hide Inv, Put, Erase, Promote, ObserveOutbox, Supersedes, Unused, NewestStamp, PutRow, NextStamp, Quarantined, Acknowledge;
    match s
    case Write(i, key, fields, now, h, id) => WriteOk(w, i, key, fields, now, h, id);
    case Remove(i, key, now, id) => RemoveOk(w, i, key, now, id);
    case CloseBatch(i) => CloseBatchOk(w, i);
    case BeginFlush(i) => BeginFlushOk(w, i);
    case WriteFile(i, k) =>
      QueuedIsLogged(w, i, k);
      WriteFileOk(w, w.replicas[i].outbox[k]);
    case EndFlush(i, n) => EndFlushOk(w, i, n);
    case Expire(i) => ExpireOk(w, i);
  }

  /** Of the steps on the mailbox only two touch a device. */
  lemma MailboxLeavesDevices(w: World, s: Step)
    requires OnMailbox(s) && !s.Capture? && !s.SaveEpoch?
    ensures Do(w, s).replicas == w.replicas && Do(w, s).log == w.log
  {
    hide Current, Listing, Fold;
  }

  lemma MailboxKeepsInv(w: World, s: Step)
    requires Inv(w) && Careful(w, s) && Enabled(w, s) && OnMailbox(s)
    ensures Inv(Do(w, s))
  {
    hide Inv, Fold, PullDone, SnapshotCaptured, SnapshotPut, ManifestPut, PointerMoved, ChangeDropped, SnapshotDropped;
    match s
    case Capture(i, changes, nows) => CaptureOk(w, i, changes, nows);
    case PutSnapshot => PutSnapshotOk(w);
    case PutManifest => PutManifestOk(w);
    case MovePointer => MovePointerOk(w);
    case SaveEpoch => SaveEpochOk(w);
    case DropChange(n) => DropChangeOk(w, n);
    case DropSnapshot(e) => CompactorDropsOk(w, e);
    case EndCompaction => StopCompactionOk(w);
    case LoadManifest(i) => LoadManifestOk(w, i);
    case Sweep(i, e) => SweepOk(w, i, e);
  }

  lemma ReadingKeepsInv(w: World, s: Step)
    requires Inv(w) && Careful(w, s) && Enabled(w, s) && !Writing(s) && !OnMailbox(s)
    ensures Inv(Do(w, s))
  {
    hide Inv, Fold, Restored, Restarted, Emptied, ClockAdopted, PullDone;
    match s
    case Join(i, now) => JoinOk(w, i, now);
    case Pull(i, changes, nows) => PullOk(w, i, changes, nows);
    case InterruptedPull(i, changes) => InterruptedPullOk(w, i, changes);
    case Restore(i, e) => RestoreOk(w, i, e);
    case AdoptClock(i) => AdoptClockOk(w, i);
    case GiveUpRestore(i) => QuietOk(w, i, w.replicas[i].(adopting := None));
    case Pause(i) => QuietOk(w, i, w.replicas[i].(paused := true));
    case Unpause(i) => QuietOk(w, i, w.replicas[i].(paused := false));
    case EmptyStore(i) => EmptyStoreOk(w, i);
    case Crash(i, now) => CrashOk(w, i, now);
  }

  /** Every careful step keeps the invariant. */
  lemma StepKeepsInv(w: World, s: Step)
    requires Inv(w) && Careful(w, s)
    ensures Inv(Do(w, s))
  {
    hide Inv, Careful, Enabled;
    if Enabled(w, s) {
      if Writing(s) { WritingKeepsInv(w, s); } else if OnMailbox(s) { MailboxKeepsInv(w, s); } else { ReadingKeepsInv(w, s); }
    } else {
      DisabledStep(w, s);
    }
  }

  lemma DisabledStep(w: World, s: Step)
    requires !Enabled(w, s)
    ensures Do(w, s) == w
  {}

  /** Every run of careful steps from the empty system, in any interleaving, keeps the invariant. */
  lemma {:induction false} RunKeepsInv(run: seq<Step>)
    requires CarefulRun(run)
    ensures Inv(Exec(Start(), run))
  {
    if run == [] {
      StartOk();
    } else {
      hide Inv, Careful, Do;
      RunKeepsInv(run[..|run| - 1]);
      StepKeepsInv(Exec(Start(), run[..|run| - 1]), run[|run| - 1]);
    }
  }
}
