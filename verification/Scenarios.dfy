/** Stretches of a run that every example is made of, with their outcome in closed form: a device
    publishes one write, a device compacts, a device restores a snapshot. */
module Scenarios {
  import opened Options
  import opened Hlc
  import opened Merge
  import opened WritePath
  import opened Replica
  import opened Protocol

  lemma ThenStep(w: World, run: seq<Step>, mid: World, s: Step)
    requires Exec(w, run) == mid
    ensures Exec(w, run + [s]) == Do(mid, s)
  {
    ExecSnoc(w, run, s);
  }

  lemma ThenRun(w: World, a: seq<Step>, mid: World, b: seq<Step>)
    requires Exec(w, a) == mid
    ensures Exec(w, a + b) == Exec(mid, b)
  {
    ExecConcat(w, a, b);
  }

  predicate Quiet(r: Replica) { r.pending.None? && r.outbox == [] && r.adopting.None? && !r.paused }

  // ---- Publishing one write ------------------------------------------------------------------

  function Publishing(i: string, key: Key, fields: map<Field, Value>, now: nat, h: Hlc, id: string): seq<Step> {
    [Write(i, key, fields, now, h, id)] + [CloseBatch(i)] + [BeginFlush(i)] + [WriteFile(i, 0)] + [EndFlush(i, 1)]
  }

  function WrittenRow(r: Replica, key: Key, fields: map<Field, Value>, now: nat): Row {
    PutRow(Get(r.rows, key), fields, NextStamp(r, now))
  }

  function PutChange(r: Replica, key: Key, fields: map<Field, Value>, now: nat, h: Hlc, id: string): Change {
    Change(id, h, [Upsert(key, WrittenRow(r, key, fields, now).payload)])
  }

  function Wrote(r: Replica, key: Key, fields: map<Field, Value>, now: nat, h: Hlc, id: string): Replica {
    var c := PutChange(r, key, fields, now, h, id);
    r.(clock := NextStamp(r, now), stored := Some(h), rows := r.rows[key := WrittenRow(r, key, fields, now)],
       pending := Some(c), committed := r.committed + Elements(c.ops))
  }

  function Queued(r: Replica, key: Key, fields: map<Field, Value>, now: nat, h: Hlc, id: string): Replica {
    var c := PutChange(r, key, fields, now, h, id);
    Wrote(r, key, fields, now, h, id).(pending := None, outbox := [c], merged := r.merged + {NameOf(c)}, made := r.made + {NameOf(c)})
  }

  function Flushed(r: Replica, key: Key, fields: map<Field, Value>, now: nat, h: Hlc, id: string): Replica {
    var c := PutChange(r, key, fields, now, h, id);
    Queued(r, key, fields, now, h, id).(outbox := [], seen := r.seen + {NameOf(c)})
  }

  ghost predicate CanPublish(w: World, i: string, key: Key, fields: map<Field, Value>, now: nat, h: Hlc, id: string) {
    && Idle(w, i) && Quiet(w.replicas[i]) && fields != map[]
    && NewestStamp(WrittenRow(w.replicas[i], key, fields, now), h)
    && forall n :: n in w.log ==> n.id != id
  }

  lemma WriteIs(w: World, i: string, key: Key, fields: map<Field, Value>, now: nat, h: Hlc, id: string)
    requires CanPublish(w, i, key, fields, now, h, id)
    ensures Do(w, Write(i, key, fields, now, h, id)) == WithReplica(w, i, Wrote(w.replicas[i], key, fields, now, h, id))
  {
    hide NewestStamp, PutRow, NextStamp;
    var r := w.replicas[i];
    assert Put(r, key, fields, now, h, id) == Wrote(r, key, fields, now, h, id);
  }

  lemma CloseBatchIs(w: World, i: string, c: Change)
    requires Idle(w, i) && w.replicas[i].pending == Some(c) && forall n :: n in w.log ==> n.id != c.id
    ensures Do(w, CloseBatch(i)) == WithReplica(w, i, Promote(w.replicas[i])).(log := w.log[NameOf(c) := c])
  {
    assert Enabled(w, CloseBatch(i));
  }

  /** The first two steps: the change is queued. */
  lemma QueueingIs(w: World, i: string, key: Key, fields: map<Field, Value>, now: nat, h: Hlc, id: string)
    requires CanPublish(w, i, key, fields, now, h, id)
    ensures var c := PutChange(w.replicas[i], key, fields, now, h, id);
      Exec(w, [Write(i, key, fields, now, h, id)] + [CloseBatch(i)]) ==
        WithReplica(w, i, Queued(w.replicas[i], key, fields, now, h, id)).(log := w.log[NameOf(c) := c])
  {
    hide NewestStamp, PutRow, NextStamp, Exec, Do, Enabled;
    var r, c := w.replicas[i], PutChange(w.replicas[i], key, fields, now, h, id);
    var write, w1 := Write(i, key, fields, now, h, id), WithReplica(w, i, Wrote(r, key, fields, now, h, id));
    WriteIs(w, i, key, fields, now, h, id);
    NoSteps(w);
    ThenStep(w, [], w, write);
    assert [] + [write] == [write];
    ThenStep(w, [write], w1, CloseBatch(i));
    CloseBatchIs(w1, i, c);
    assert [] + [c] == [c];
    assert Promote(w1.replicas[i]) == Queued(r, key, fields, now, h, id);
    assert w1.replicas[i := Promote(w1.replicas[i])] == w.replicas[i := Queued(r, key, fields, now, h, id)];
  }

  lemma BeginFlushIs(w: World, i: string)
    requires Idle(w, i) && !w.replicas[i].paused
    ensures Do(w, BeginFlush(i)) == WithReplica(w, i, ObserveOutbox(w.replicas[i]))
  {
    assert Enabled(w, BeginFlush(i));
  }

  lemma WriteFileIs(w: World, i: string, k: nat)
    requires Idle(w, i) && !w.replicas[i].paused
    requires k < |w.replicas[i].outbox| && NameOf(w.replicas[i].outbox[k]) in w.replicas[i].seen
    ensures Do(w, WriteFile(i, k)) == FileWritten(w, w.replicas[i].outbox[k])
  {
    assert Enabled(w, WriteFile(i, k));
  }

  lemma EndFlushIs(w: World, i: string, n: nat)
    requires Idle(w, i) && n <= |w.replicas[i].outbox| && forall k :: 0 <= k < n ==> NameOf(w.replicas[i].outbox[k]) in w.published
    ensures Enabled(w, EndFlush(i, n)) && Do(w, EndFlush(i, n)) == WithReplica(w, i, Acknowledge(w.replicas[i], n))
  {
    assert Enabled(w, EndFlush(i, n));
  }

  /** The rest: the queued change is written and acknowledged. */
  lemma FlushingIs(w: World, i: string, c: Change)
    requires Idle(w, i) && w.replicas[i].outbox == [c] && !w.replicas[i].paused
    ensures Exec(w, [BeginFlush(i)] + [WriteFile(i, 0)] + [EndFlush(i, 1)]) ==
      FileWritten(WithReplica(w, i, w.replicas[i].(outbox := [], seen := w.replicas[i].seen + {NameOf(c)})), c)
  {
    hide Exec, Do, Enabled;
    var r := w.replicas[i];
    assert OutboxNames(r) == {NameOf(c)} by { assert c in r.outbox; }
    var r1 := r.(seen := r.seen + {NameOf(c)});
    var w1 := WithReplica(w, i, r1);
    NoSteps(w);
    ThenStep(w, [], w, BeginFlush(i));
    assert [] + [BeginFlush(i)] == [BeginFlush(i)];
    BeginFlushIs(w, i);
    ThenStep(w, [BeginFlush(i)], w1, WriteFile(i, 0));
    var w2 := FileWritten(w1, c);
    WriteFileIs(w1, i, 0);
    ThenStep(w, [BeginFlush(i)] + [WriteFile(i, 0)], w2, EndFlush(i, 1));
    EndFlushIs(w2, i, 1);
    assert Acknowledge(r1, 1) == r1.(outbox := []);
    assert w1.replicas[i := r1.(outbox := [])] == w.replicas[i := r1.(outbox := [])];
  }

  lemma PublishingIs(w: World, i: string, key: Key, fields: map<Field, Value>, now: nat, h: Hlc, id: string)
    requires CanPublish(w, i, key, fields, now, h, id)
    ensures var c := PutChange(w.replicas[i], key, fields, now, h, id);
      Exec(w, Publishing(i, key, fields, now, h, id)) ==
        FileWritten(WithReplica(w, i, Flushed(w.replicas[i], key, fields, now, h, id)).(log := w.log[NameOf(c) := c]), c)
  {
    hide Exec, PutRow, NextStamp, NewestStamp, PutChange;
    var r, c := w.replicas[i], PutChange(w.replicas[i], key, fields, now, h, id);
    QueueingIs(w, i, key, fields, now, h, id);
    var mid := WithReplica(w, i, Queued(r, key, fields, now, h, id)).(log := w.log[NameOf(c) := c]);
    var a, b := [Write(i, key, fields, now, h, id)] + [CloseBatch(i)], [BeginFlush(i)] + [WriteFile(i, 0)] + [EndFlush(i, 1)];
    ThenRun(w, a, mid, b);
    assert a + b == Publishing(i, key, fields, now, h, id);
    FlushingIs(mid, i, c);
    assert mid.replicas[i := Flushed(r, key, fields, now, h, id)] == w.replicas[i := Flushed(r, key, fields, now, h, id)];
  }

  // ---- Compacting --------------------------------------------------------------------------------

  function Compacting(i: string, changes: seq<Change>, nows: seq<nat>): seq<Step> {
    [Capture(i, changes, nows)] + [PutSnapshot] + [PutManifest] + [MovePointer] + [SaveEpoch]
  }

  function CompactedRemote(m: Remote, s: Snapshot): Remote {
    m.(snapshots := m.snapshots[s.epoch := s], manifests := m.manifests[m.pointer + 1 := Manifest(s.epoch, Some(s.epoch))],
       pointer := m.pointer + 1)
  }

  /** From the captured snapshot to the moved pointer. */
  lemma FinishingIs(w: World, i: string, s: Snapshot)
    requires w.compaction == Some(Compaction(i, s, Captured)) && i in w.replicas
    ensures Exec(w, [PutSnapshot] + [PutManifest] + [MovePointer] + [SaveEpoch]) ==
      WithReplica(w, i, w.replicas[i].(epoch := s.epoch))
        .(remote := CompactedRemote(w.remote, s), compaction := Some(Compaction(i, s, Pointed)))
  {
    hide Exec, Do;
    NoSteps(w);
    ThenStep(w, [], w, PutSnapshot);
    assert [] + [PutSnapshot] == [PutSnapshot];
    var w1, w2, w3 := SnapshotPut(w), ManifestPut(SnapshotPut(w)), PointerMoved(ManifestPut(SnapshotPut(w)));
    FinishingSteps(w, i, s);
    ThenStep(w, [PutSnapshot], w1, PutManifest);
    ThenStep(w, [PutSnapshot] + [PutManifest], w2, MovePointer);
    ThenStep(w, [PutSnapshot] + [PutManifest] + [MovePointer], w3, SaveEpoch);
  }

  lemma FinishingSteps(w: World, i: string, s: Snapshot)
    requires w.compaction == Some(Compaction(i, s, Captured)) && i in w.replicas
    ensures var w1 := SnapshotPut(w); var w2 := ManifestPut(w1); var w3 := PointerMoved(w2);
      && Do(w, PutSnapshot) == w1 && Do(w1, PutManifest) == w2 && Do(w2, MovePointer) == w3
      && Do(w3, SaveEpoch) == WithReplica(w, i, w.replicas[i].(epoch := s.epoch))
           .(remote := CompactedRemote(w.remote, s), compaction := Some(Compaction(i, s, Pointed)))
  {
    hide Do;
    PutSnapshotIs(w);
    PutManifestIs(SnapshotPut(w));
    MovePointerIs(ManifestPut(SnapshotPut(w)));
    SaveEpochIs(PointerMoved(ManifestPut(SnapshotPut(w))));
  }

  lemma PutSnapshotIs(w: World)
    requires w.compaction.Some? && w.compaction.value.phase == Captured
    ensures Do(w, PutSnapshot) == SnapshotPut(w)
  {
    assert Enabled(w, PutSnapshot);
  }

  lemma PutManifestIs(w: World)
    requires w.compaction.Some? && w.compaction.value.phase == SnapshotWritten
    ensures Do(w, PutManifest) == ManifestPut(w)
  {
    assert Enabled(w, PutManifest);
  }

  lemma MovePointerIs(w: World)
    requires w.compaction.Some? && w.compaction.value.phase == ManifestWritten
    ensures Do(w, MovePointer) == PointerMoved(w)
  {
    assert Enabled(w, MovePointer);
  }

  lemma SaveEpochIs(w: World)
    requires w.compaction.Some? && w.compaction.value.phase == Pointed && w.compaction.value.compactor in w.replicas
    ensures var i := w.compaction.value.compactor;
            Do(w, SaveEpoch) == WithReplica(w, i, w.replicas[i].(epoch := w.compaction.value.snapshot.epoch))
  {
    assert Enabled(w, SaveEpoch);
  }

  lemma CaptureIs(w: World, i: string, changes: seq<Change>, nows: seq<nat>)
    requires Enabled(w, Capture(i, changes, nows))
    ensures i in w.replicas && |nows| == |changes| && Fold(w.replicas[i], changes).Ok?
    ensures Do(w, Capture(i, changes, nows)) ==
      WithReplica(w, i, Pulled(w.replicas[i], changes, nows)).(compaction := Some(Compaction(i, CapturedBy(w, i, changes, nows), Captured)))
  {
    hide Fold, PullDone, Listing, Current;
  }

  lemma CompactingIs(w: World, i: string, changes: seq<Change>, nows: seq<nat>)
    requires Enabled(w, Capture(i, changes, nows))
    ensures var s := CapturedBy(w, i, changes, nows);
      Exec(w, Compacting(i, changes, nows)) ==
        WithReplica(w, i, Pulled(w.replicas[i], changes, nows).(epoch := s.epoch))
          .(remote := CompactedRemote(w.remote, s), compaction := Some(Compaction(i, s, Pointed)))
  {
    CaptureIs(w, i, changes, nows);
    hide Exec, Do, Enabled, Fold, PullDone, Listing, Current, Pulled, CapturedBy;
    var s, pulled := CapturedBy(w, i, changes, nows), Pulled(w.replicas[i], changes, nows);
    NoSteps(w);
    ThenStep(w, [], w, Capture(i, changes, nows));
    assert [] + [Capture(i, changes, nows)] == [Capture(i, changes, nows)];
    var w1 := WithReplica(w, i, pulled).(compaction := Some(Compaction(i, s, Captured)));
    var rest := [PutSnapshot] + [PutManifest] + [MovePointer] + [SaveEpoch];
    ThenRun(w, [Capture(i, changes, nows)], w1, rest);
    assert [Capture(i, changes, nows)] + rest == Compacting(i, changes, nows);
    FinishingIs(w1, i, s);
    assert w1.replicas[i := pulled.(epoch := s.epoch)] == w.replicas[i := pulled.(epoch := s.epoch)];
  }

  lemma NothingToPull(m: Remote, r: Replica)
    requires m.changes.Keys <= r.seen
    ensures PullsAll(m, r, [], []) && Pulled(r, [], []) == r.(stored := Some(r.clock))
  {
    assert Names([]) == {} && AllOpsOf([]) == [] && r.seen + {} == r.seen && r.merged + {} == r.merged;
  }

  /** The snapshot of a device with nothing to pull. */
  function SnapshotNow(w: World, i: string): Snapshot
    requires i in w.replicas
  {
    var r := w.replicas[i];
    Snapshot(Current(w.remote).epoch + 1, r.clock, r.seen, r.rows, r.merged)
  }

  lemma CaptureNothingIs(w: World, i: string)
    requires Idle(w, i) && w.replicas[i].adopting.None? && w.replicas[i].pending.None? && w.compaction.None? && w.remote.changes.Keys <= w.replicas[i].seen
    ensures Enabled(w, Capture(i, [], [])) && CapturedBy(w, i, [], []) == SnapshotNow(w, i)
    ensures Do(w, Capture(i, [], [])) ==
      WithReplica(w, i, w.replicas[i].(stored := Some(w.replicas[i].clock))).(compaction := Some(Compaction(i, SnapshotNow(w, i), Captured)))
  {
    NothingToPull(w.remote, w.replicas[i]);
    hide PullsAll, Pulled, Current;
  }

  lemma CompactingNothingIs(w: World, i: string)
    requires Idle(w, i) && w.replicas[i].adopting.None? && w.replicas[i].pending.None? && w.compaction.None? && w.remote.changes.Keys <= w.replicas[i].seen
    ensures var s, r := SnapshotNow(w, i), w.replicas[i];
      Exec(w, Compacting(i, [], [])) == WithReplica(w, i, r.(stored := Some(r.clock), epoch := s.epoch))
        .(remote := CompactedRemote(w.remote, s), compaction := Some(Compaction(i, s, Pointed)))
  {
    hide Exec, Do, Enabled, Fold, PullDone, Current;
    CaptureNothingIs(w, i);
    NothingToPull(w.remote, w.replicas[i]);
    CompactingIs(w, i, [], []);
  }

  lemma CanCapture(w: World, i: string, changes: seq<Change>, nows: seq<nat>)
    requires Idle(w, i) && w.replicas[i].adopting.None? && w.replicas[i].pending.None? && w.compaction.None? && PullsAll(w.remote, w.replicas[i], changes, nows)
    ensures Enabled(w, Capture(i, changes, nows))
  {}

  lemma JoinIs(w: World, i: string, now: nat)
    requires i !in w.replicas
    ensures Do(w, Join(i, now)) == WithReplica(w, i, Joined(i, now))
  {
    assert Enabled(w, Join(i, now));
  }

  lemma EndCompactionIs(w: World)
    requires w.compaction.Some?
    ensures Do(w, EndCompaction) == w.(compaction := None)
  {
    assert Enabled(w, EndCompaction);
  }

  lemma DropSnapshotIs(w: World, e: nat)
    requires w.compaction.Some? && w.compaction.value.phase == Pointed && e != w.compaction.value.snapshot.epoch
    ensures Do(w, DropSnapshot(e)) == SnapshotDropped(w, e)
  {
    assert Enabled(w, DropSnapshot(e));
  }

  lemma DropChangeIs(w: World, n: FileName)
    requires w.compaction.Some? && w.compaction.value.phase == Pointed && n in w.compaction.value.snapshot.covered
    ensures Do(w, DropChange(n)) == ChangeDropped(w, n)
  {
    assert Enabled(w, DropChange(n));
  }

  lemma SweepIs(w: World, i: string, e: nat)
    requires Idle(w, i) && i in w.sweeps && e != w.sweeps[i]
    ensures Do(w, Sweep(i, e)) == SnapshotDropped(w, e)
  {
    assert Enabled(w, Sweep(i, e));
  }

  lemma LoadManifestIs(w: World, i: string)
    requires Idle(w, i) && Current(w.remote).snapshot.Some?
    ensures Do(w, LoadManifest(i)) == w.(sweeps := w.sweeps[i := Current(w.remote).snapshot.value])
  {
    assert Enabled(w, LoadManifest(i));
  }

  // ---- Restoring -------------------------------------------------------------------------------------

  function Restoring(i: string, e: nat, changes: seq<Change>, nows: seq<nat>): seq<Step> {
    [Restore(i, e)] + [Pull(i, changes, nows)] + [AdoptClock(i)]
  }

  lemma RestoreIs(w: World, i: string, e: nat)
    requires Idle(w, i) && e in w.remote.snapshots && e <= Current(w.remote).epoch
    ensures Do(w, Restore(i, e)) == WithReplica(w, i, Restored(w.replicas[i], w.remote.snapshots[e]))
  {
    assert Enabled(w, Restore(i, e));
  }

  lemma PullIs(w: World, i: string, changes: seq<Change>, nows: seq<nat>)
    requires Idle(w, i) && PullsAll(w.remote, w.replicas[i], changes, nows)
    ensures Do(w, Pull(i, changes, nows)) == WithReplica(w, i, Pulled(w.replicas[i], changes, nows))
  {
    assert Enabled(w, Pull(i, changes, nows));
    hide Fold, PullDone, Listing;
  }

  lemma AdoptClockIs(w: World, i: string)
    requires Idle(w, i) && w.replicas[i].adopting.Some? && w.replicas[i].stored.Some?
    ensures Do(w, AdoptClock(i)) == WithReplica(w, i, ClockAdopted(w.replicas[i]))
  {
    assert Enabled(w, AdoptClock(i));
  }

  lemma PauseIs(w: World, i: string)
    requires i in w.replicas
    ensures Do(w, Pause(i)) == WithReplica(w, i, w.replicas[i].(paused := true))
  {
    assert Enabled(w, Pause(i));
  }

  lemma RestoringIs(w: World, i: string, e: nat, changes: seq<Change>, nows: seq<nat>)
    requires Idle(w, i) && e in w.remote.snapshots && e <= Current(w.remote).epoch
    requires PullsAll(w.remote, Restored(w.replicas[i], w.remote.snapshots[e]), changes, nows)
    ensures var restored := Restored(w.replicas[i], w.remote.snapshots[e]);
      Exec(w, Restoring(i, e, changes, nows)) == WithReplica(w, i, ClockAdopted(Pulled(restored, changes, nows)))
  {
    hide Exec, Do, Enabled, ApplyOps, AllOpsOf, ReceiveAll, Listing, Current;
    var restored := Restored(w.replicas[i], w.remote.snapshots[e]);
    NoSteps(w);
    ThenStep(w, [], w, Restore(i, e));
    assert [] + [Restore(i, e)] == [Restore(i, e)];
    var w1 := WithReplica(w, i, restored);
    RestoreIs(w, i, e);
    ThenStep(w, [Restore(i, e)], w1, Pull(i, changes, nows));
    var pulled := Pulled(restored, changes, nows);
    var w2 := WithReplica(w1, i, pulled);
    PullIs(w1, i, changes, nows);
    ThenStep(w, [Restore(i, e)] + [Pull(i, changes, nows)], w2, AdoptClock(i));
    AdoptClockIs(w2, i);
    assert w2.replicas[i := ClockAdopted(pulled)] == w.replicas[i := ClockAdopted(pulled)];
  }
}
