/** Where the guarantees stop: runs of the system in which a condition of the theorems fails and
    the conclusion fails with it. */
module Limits {
  import opened Options
  import opened Hlc
  import opened Merge
  import opened WritePath
  import opened Replica
  import opened Protocol
  import opened Convergence
  import opened Conservation
  import opened Scenarios

  const ROW := Key("notes", "n1")

  // ---- One note with one field ------------------------------------------------------------------

  function Text(v: Value): map<Field, Value> { map["text" := v] }

  function Note(v: Value, h: Hlc): Row { Row(false, None, map["text" := Cell(v, h)]) }

  function NoteChange(v: Value, h: Hlc, id: string): Change { Change(id, h, [Upsert(ROW, Note(v, h).payload)]) }

  /** The device holds nothing, or only the note. */
  ghost predicate OnlyNote(rows: Rows) {
    rows == map[] || (rows.Keys == {ROW} && exists v, h :: rows[ROW] == Note(v, h))
  }

  lemma NoteIsNewest(v: Value, h: Hlc)
    ensures NewestStamp(Note(v, h), h)
  {
    assert Note(v, h).payload["text"].hlc == h && StampOf(Note(v, h), h);
    Trichotomy(h, h);
  }

  lemma PutNote(rows: Rows, v: Value, p: Hlc)
    requires OnlyNote(rows)
    ensures PutRow(Get(rows, ROW), Text(v), p) == Note(v, p) && rows[ROW := Note(v, p)] == map[ROW := Note(v, p)]
  {
    assert Written(Text(v), p) == Note(v, p).payload;
  }

  /** The outcome of publishing the note. */
  function Posted(r: Replica, v: Value, p: Hlc, id: string): Replica {
    var n := NameOf(NoteChange(v, p, id));
    r.(clock := p, stored := Some(p), rows := map[ROW := Note(v, p)], committed := r.committed + {Upsert(ROW, Note(v, p).payload)},
       seen := r.seen + {n}, merged := r.merged + {n}, made := r.made + {n})
  }

  lemma CanPost(w: World, i: string, v: Value, now: nat, p: Hlc, id: string)
    requires Idle(w, i) && Quiet(w.replicas[i]) && OnlyNote(w.replicas[i].rows) && p == NextStamp(w.replicas[i], now)
    requires forall n :: n in w.log ==> n.id != id
    ensures CanPublish(w, i, ROW, Text(v), now, p, id)
    ensures PutChange(w.replicas[i], ROW, Text(v), now, p, id) == NoteChange(v, p, id)
    ensures Flushed(w.replicas[i], ROW, Text(v), now, p, id) == Posted(w.replicas[i], v, p, id)
  {
    PutNote(w.replicas[i].rows, v, p);
    NoteIsNewest(v, p);
    assert "text" in Text(v);
    assert Elements([Upsert(ROW, Note(v, p).payload)]) == {Upsert(ROW, Note(v, p).payload)};
    hide NewestStamp, PutRow, NextStamp, OnlyNote;
  }

  lemma Post(w: World, i: string, v: Value, now: nat, p: Hlc, id: string)
    requires Idle(w, i) && Quiet(w.replicas[i]) && OnlyNote(w.replicas[i].rows) && p == NextStamp(w.replicas[i], now)
    requires forall n :: n in w.log ==> n.id != id
    ensures var c := NoteChange(v, p, id);
      Exec(w, Publishing(i, ROW, Text(v), now, p, id)) ==
        FileWritten(WithReplica(w, i, Posted(w.replicas[i], v, p, id)).(log := w.log[NameOf(c) := c]), c)
  {
    CanPost(w, i, v, now, p, id);
    hide Exec, CanPublish, Flushed, NextStamp, Posted;
    PublishingIs(w, i, ROW, Text(v), now, p, id);
  }

  lemma PullsOne(m: Remote, r: Replica, c: Change, now: nat)
    requires NameOf(c) in m.changes && m.changes[NameOf(c)] == c && m.changes.Keys - r.seen == {NameOf(c)}
    requires ApplyOps(r.rows, c.ops).Ok?
    ensures PullsAll(m, r, [c], [now])
    ensures var clock := Receive(r.clock, c.hlc, now);
      Pulled(r, [c], [now]) == r.(clock := clock, stored := Some(clock), rows := ApplyOps(r.rows, c.ops).value,
                                  seen := r.seen + {NameOf(c)}, merged := r.merged + {NameOf(c)})
  {
    assert [c][1..] == [] && c.ops + [] == c.ops && AllOpsOf([c]) == c.ops;
    assert Names([c]) == {NameOf(c)} by { assert c in [c]; }
    assert [now][1..] == [] && ReceiveAll(r.clock, [c], [now]) == Receive(r.clock, c.hlc, now) by {
      assert ReceiveAll(Receive(r.clock, c.hlc, now), [], []) == Receive(r.clock, c.hlc, now);
    }
    hide ApplyOps, Receive;
  }

  lemma ApplyNote(rows: Rows, v: Value, h: Hlc)
    requires rows == map[]
    ensures ApplyOps(rows, NoteChange(v, h, "").ops) == Ok(map[ROW := Note(v, h)])
  {
    var columns := Note(v, h).payload;
    assert !Clashes(map[], columns) && MergeColumns(map[], columns) == columns;
    assert [Upsert(ROW, columns)][1..] == [];
    assert ApplyOp(rows, Upsert(ROW, columns)) == Ok(map[ROW := Note(v, h)]);
  }

  lemma ApplyNoteOver(v: Value, h: Hlc, u: Value, g: Hlc)
    ensures Less(h, g) ==> ApplyOps(map[ROW := Note(u, g)], NoteChange(v, h, "").ops) == Ok(map[ROW := Note(u, g)])
    ensures h == g && u != v ==> ApplyOps(map[ROW := Note(u, g)], NoteChange(v, h, "").ops).Err?
  {
    var old_, columns, rows := Note(u, g).payload, Note(v, h).payload, map[ROW := Note(u, g)];
    Trichotomy(h, g);
    assert [Upsert(ROW, columns)][1..] == [];
    assert "text" in columns && columns["text"] == Cell(v, h) && At(old_, "text") == Some(Cell(u, g));
    if Less(h, g) {
      assert ChooseCell(At(old_, "text"), columns["text"]) == Keep;
      assert !Clashes(old_, columns) && MergeColumns(old_, columns) == old_;
      assert ApplyOp(rows, Upsert(ROW, columns)) == Ok(rows[ROW := Note(u, g)]) && rows[ROW := Note(u, g)] == rows;
      assert ApplyOps(rows, []) == Ok(rows);
    } else if h == g && u != v {
      assert ChooseCell(At(old_, "text"), columns["text"]) == Conflict;
      assert Clashes(old_, columns);
    }
  }

  lemma JoinTwo(i: string, now: nat, j: string, now': nat)
    requires i != j
    ensures Exec(Start(), [Join(i, now)] + [Join(j, now')]) ==
      World(map[i := Joined(i, now), j := Joined(j, now')], Start().remote, None, map[], map[], {})
  {
    hide Exec;
    NoSteps(Start());
    ThenStep(Start(), [], Start(), Join(i, now));
    assert [] + [Join(i, now)] == [Join(i, now)];
    var w1 := Do(Start(), Join(i, now));
    assert w1.replicas == map[i := Joined(i, now)];
    ThenStep(Start(), [Join(i, now)], w1, Join(j, now'));
    assert w1.replicas[j := Joined(j, now')] == map[i := Joined(i, now), j := Joined(j, now')];
  }

  // ---- A device behind the current epoch ----------------------------------------------------

  const P := Hlc(2, 0, "b")
  const HELLO := NoteChange("hello", P, "chg_2")
  const NAME := NameOf(HELLO)
  const OP := Upsert(ROW, Note("hello", P).payload)
  const A := Joined("a", 1)
  const B := Posted(Joined("b", 1), "hello", P, "chg_2")
  const TAKEN := Snapshot(1, P, {NAME}, map[ROW := Note("hello", P)], {NAME})
  const ONE := map[1 := Manifest(0, None), 2 := Manifest(1, Some(1))]
  const AFTER := Remote(map[], map[1 := TAKEN], ONE, 2)

  /** One device writes and publishes. */
  function PostedRun(): seq<Step> { [Join("a", 1)] + [Join("b", 1)] + Publishing("b", ROW, Text("hello"), 2, P, "chg_2") }

  /** It compacts, and the covered file is deleted. */
  function CompactedRun(): seq<Step> { PostedRun() + Compacting("b", [], []) + [DropChange(NAME)] }

  function Two(b: Replica, m: Remote, c: Option<Compaction>): World {
    World(map["a" := A, "b" := b], m, c, map[], map[NAME := HELLO], {NAME})
  }

  lemma PostedWorld()
    ensures Exec(Start(), PostedRun()) == Two(B, Start().remote.(changes := map[NAME := HELLO]), None)
  {
    hide Exec;
    var w := World(map["a" := A, "b" := Joined("b", 1)], Start().remote, None, map[], map[], {});
    JoinTwo("a", 1, "b", 1);
    assert NextStamp(w.replicas["b"], 2) == P;
    Post(w, "b", "hello", 2, P, "chg_2");
    ThenRun(Start(), [Join("a", 1)] + [Join("b", 1)], w, Publishing("b", ROW, Text("hello"), 2, P, "chg_2"));
    assert w.replicas["b" := B] == map["a" := A, "b" := B];
  }

  lemma CompactedWorld()
    ensures Exec(Start(), CompactedRun()) == Two(B.(epoch := 1), AFTER, Some(Compaction("b", TAKEN, Pointed)))
  {
    hide Exec, Do, Enabled;
    PostedWorld();
    var w := Two(B, Start().remote.(changes := map[NAME := HELLO]), None);
    CompactingNothingIs(w, "b");
    assert SnapshotNow(w, "b") == TAKEN && B.(stored := Some(B.clock)) == B;
    ThenRun(Start(), PostedRun(), w, Compacting("b", [], []));
    var w1 := Two(B.(epoch := 1), AFTER.(changes := map[NAME := HELLO]), Some(Compaction("b", TAKEN, Pointed)));
    assert w.replicas["b" := B.(epoch := 1)] == w1.replicas && CompactedRemote(w.remote, TAKEN) == w1.remote;
    ThenStep(Start(), PostedRun() + Compacting("b", [], []), w1, DropChange(NAME));
    DropChangeIs(w1, NAME);
    assert map[NAME := HELLO] - {NAME} == map[];
  }

  lemma RestedWorld()
    ensures Exec(Start(), CompactedRun() + [EndCompaction]) == Two(B.(epoch := 1), AFTER, None)
  {
    hide Exec, Do, Enabled;
    CompactedWorld();
    var w := Two(B.(epoch := 1), AFTER, Some(Compaction("b", TAKEN, Pointed)));
    ThenStep(Start(), CompactedRun(), w, EndCompaction);
    EndCompactionIs(w);
  }

  /** A device below the current epoch can have nothing queued and nothing left to list, and still
      miss a change that a caught-up device has: listing the mailbox alone cannot tell. */
  lemma StaleEpochHidesChanges()
    ensures var w := Exec(Start(), CompactedRun());
            && CaughtUp(w, "b")
            && "a" in w.replicas && w.replicas["a"].pending.None? && w.replicas["a"].outbox == [] && w.replicas["a"].stranded == {}
            && w.remote.changes.Keys <= w.replicas["a"].seen && w.replicas["a"].epoch < Current(w.remote).epoch
            && !Agree(PublishedOps(w), w.replicas["a"].rows, w.replicas["b"].rows)
  {
    CompactedWorld();
    hide Exec;
    var w := Exec(Start(), CompactedRun());
    assert !RowsAgree(PublishedOps(w), ROW, Get(w.replicas["a"].rows, ROW), Get(w.replicas["b"].rows, ROW));
  }

  // ---- A compactor behind the current epoch ----------------------------------------------------

  /** A change that was published is in no mailbox file and under no snapshot any more. */
  ghost predicate Lost(w: World) {
    "b" in w.replicas && OP in w.replicas["b"].committed && NAME in w.published && !Kept(w, w.replicas["b"], OP)
  }

  lemma LostIs(w: World)
    requires "b" in w.replicas && w.replicas["b"] == B.(epoch := w.replicas["b"].epoch, stored := w.replicas["b"].stored)
    requires w.remote.changes == map[] && Covered(w.remote) == {} && w.published == {NAME}
    ensures Lost(w)
  {
    assert PendingOps(w.replicas["b"]) == {};
  }

  const EMPTY := Snapshot(2, A.clock, {}, map[], {})

  function StaleCompactionRun(): seq<Step> { CompactedRun() + [EndCompaction] + Compacting("a", [], []) + [DropSnapshot(1)] }

  /** A device that has not seen what the current snapshot covers compacts: its snapshot becomes
      current, the old one is cleaned up, and the published change is gone. */
  lemma StaleCompactorLosesChange()
    ensures Lost(Exec(Start(), StaleCompactionRun()))
  {
    hide Exec, Do, Enabled, Lost;
    RestedWorld();
    var w1 := Two(B.(epoch := 1), AFTER, None);
    CompactingNothingIs(w1, "a");
    assert SnapshotNow(w1, "a") == EMPTY;
    ThenRun(Start(), CompactedRun() + [EndCompaction], w1, Compacting("a", [], []));
    var w2 := WithReplica(w1, "a", A.(stored := Some(A.clock), epoch := 2))
                .(remote := CompactedRemote(AFTER, EMPTY), compaction := Some(Compaction("a", EMPTY, Pointed)));
    ThenStep(Start(), CompactedRun() + [EndCompaction] + Compacting("a", [], []), w2, DropSnapshot(1));
    DropSnapshotIs(w2, 1);
    var w3 := SnapshotDropped(w2, 1);
    assert w3.remote.snapshots == map[2 := EMPTY] && Current(w3.remote) == Manifest(2, Some(2));
    LostIs(w3);
  }

  // ---- A clean-up with an older manifest --------------------------------------------------------

  const NEXT := Snapshot(2, P, {NAME}, map[ROW := Note("hello", P)], {NAME})

  /** Device `a` has loaded the manifest; then the compactor writes its next snapshot; then `a`
      deletes what its manifest does not name; then the compactor goes on. */
  function SweptRun(): seq<Step> {
    CompactedRun() + [EndCompaction] + [LoadManifest("a")] + [Capture("b", [], [])] + [PutSnapshot] + [Sweep("a", 2)]
    + [PutManifest] + [MovePointer] + [DropSnapshot(1)]
  }

  function Sweeping(m: Remote, c: Option<Compaction>): World { Two(B.(epoch := 1), m, c).(sweeps := map["a" := 1]) }

  lemma CandidateWritten()
    ensures Exec(Start(), CompactedRun() + [EndCompaction] + [LoadManifest("a")] + [Capture("b", [], [])] + [PutSnapshot]) ==
      Sweeping(AFTER.(snapshots := map[1 := TAKEN, 2 := NEXT]), Some(Compaction("b", NEXT, SnapshotWritten)))
  {
    hide Exec, Do, Enabled;
    RestedWorld();
    var w1, w2 := Two(B.(epoch := 1), AFTER, None), Sweeping(AFTER, None);
    ThenStep(Start(), CompactedRun() + [EndCompaction], w1, LoadManifest("a"));
    LoadManifestIs(w1, "a");
    ThenStep(Start(), CompactedRun() + [EndCompaction] + [LoadManifest("a")], w2, Capture("b", [], []));
    CaptureNothingIs(w2, "b");
    var r := B.(epoch := 1);
    assert r.(stored := Some(r.clock)) == r && w2.replicas["b" := r] == w2.replicas;
    assert SnapshotNow(w2, "b") == NEXT;
    var w3 := Sweeping(AFTER, Some(Compaction("b", NEXT, Captured)));
    ThenStep(Start(), CompactedRun() + [EndCompaction] + [LoadManifest("a")] + [Capture("b", [], [])], w3, PutSnapshot);
    PutSnapshotIs(w3);
    assert map[1 := TAKEN][2 := NEXT] == map[1 := TAKEN, 2 := NEXT];
  }

  lemma CandidateSwept()
    ensures Exec(Start(), CompactedRun() + [EndCompaction] + [LoadManifest("a")] + [Capture("b", [], [])] + [PutSnapshot] + [Sweep("a", 2)]) ==
      Sweeping(AFTER, Some(Compaction("b", NEXT, SnapshotWritten)))
  {
    hide Exec, Do, Enabled;
    CandidateWritten();
    var run := CompactedRun() + [EndCompaction] + [LoadManifest("a")] + [Capture("b", [], [])] + [PutSnapshot];
    var w := Sweeping(AFTER.(snapshots := map[1 := TAKEN, 2 := NEXT]), Some(Compaction("b", NEXT, SnapshotWritten)));
    ThenStep(Start(), run, w, Sweep("a", 2));
    SweepIs(w, "a", 2);
    assert map[1 := TAKEN, 2 := NEXT] - {2} == map[1 := TAKEN];
  }

  /** A check of snapshots by another device deletes the candidate before it becomes current, and
      the compaction then deletes the only snapshot left. */
  lemma CleanUpLosesChange()
    ensures Lost(Exec(Start(), SweptRun()))
  {
    hide Exec, Do, Enabled, Lost;
    CandidateSwept();
    var run := CompactedRun() + [EndCompaction] + [LoadManifest("a")] + [Capture("b", [], [])] + [PutSnapshot] + [Sweep("a", 2)];
    var w := Sweeping(AFTER, Some(Compaction("b", NEXT, SnapshotWritten)));
    ThenStep(Start(), run, w, PutManifest);
    PutManifestIs(w);
    var w1 := ManifestPut(w);
    ThenStep(Start(), run + [PutManifest], w1, MovePointer);
    MovePointerIs(w1);
    var w2 := PointerMoved(w1);
    ThenStep(Start(), run + [PutManifest] + [MovePointer], w2, DropSnapshot(1));
    DropSnapshotIs(w2, 1);
    var w3 := SnapshotDropped(w2, 1);
    assert w3.remote.snapshots == map[] && Current(w3.remote) == Manifest(2, Some(2));
    LostIs(w3);
  }

  // ---- A restore that drops queued changes ---------------------------------------------------------

  const Q := Hlc(80, 0, "d")
  const C := Joined("c", 5).(stored := Some(Hlc(5, 0, "c")), epoch := 1)
  const BARE := Snapshot(1, Hlc(5, 0, "c"), {}, map[], {})
  const FIRST := Remote(map[], map[1 := BARE], ONE, 2)

  /** A device compacts an empty mailbox; another one joins. */
  function FirstRun(): seq<Step> { [Join("c", 5)] + [Join("d", 79)] + Compacting("c", [], []) + [EndCompaction] }

  const FIRST_WORLD := World(map["c" := C, "d" := Joined("d", 79)], FIRST, None, map[], map[], {})

  lemma FirstWorld()
    ensures Exec(Start(), FirstRun()) == FIRST_WORLD
  {
    hide Exec, Do, Enabled;
    JoinTwo("c", 5, "d", 79);
    var w := World(map["c" := Joined("c", 5), "d" := Joined("d", 79)], Start().remote, None, map[], map[], {});
    CompactingNothingIs(w, "c");
    assert SnapshotNow(w, "c") == BARE;
    ThenRun(Start(), [Join("c", 5)] + [Join("d", 79)], w, Compacting("c", [], []));
    var w1 := FIRST_WORLD.(compaction := Some(Compaction("c", BARE, Pointed)));
    assert w.replicas["c" := C] == w1.replicas && CompactedRemote(w.remote, BARE) == FIRST;
    ThenStep(Start(), [Join("c", 5)] + [Join("d", 79)] + Compacting("c", [], []), w1, EndCompaction);
    EndCompactionIs(w1);
  }

  /** A write is queued, remote access is denied so that flushing does nothing, and the device
      restores the newer snapshot. */
  function PausedRestoreRun(): seq<Step> {
    FirstRun() + ([Write("d", ROW, Text("one"), 80, Q, "chg_1")] + [CloseBatch("d")]) + [Pause("d")] + [Restore("d", 1)]
  }

  /** The change was committed and is now nowhere: not queued, not in the mailbox, not quarantined. */
  lemma PausedRestoreDropsQueue()
    ensures var w := Exec(Start(), PausedRestoreRun()); var op := Upsert(ROW, Note("one", Q).payload);
      "d" in w.replicas && op in w.replicas["d"].committed && !Kept(w, w.replicas["d"], op)
  {
    hide Exec, Do, Enabled;
    FirstWorld();
    var w := FIRST_WORLD;
    var d, c := Joined("d", 79), NoteChange("one", Q, "chg_1");
    assert NextStamp(d, 80) == Q;
    CanPost(w, "d", "one", 80, Q, "chg_1");
    QueueingIs(w, "d", ROW, Text("one"), 80, Q, "chg_1");
    ThenRun(Start(), FirstRun(), w, [Write("d", ROW, Text("one"), 80, Q, "chg_1")] + [CloseBatch("d")]);
    var r := Queued(d, ROW, Text("one"), 80, Q, "chg_1");
    var w1 := WithReplica(w, "d", r).(log := map[NameOf(c) := c]);
    assert Elements(c.ops) == {Upsert(ROW, Note("one", Q).payload)};
    assert r.committed == {Upsert(ROW, Note("one", Q).payload)} && r.outbox == [c];
    hide Queued;
    var run := FirstRun() + ([Write("d", ROW, Text("one"), 80, Q, "chg_1")] + [CloseBatch("d")]);
    ThenStep(Start(), run, w1, Pause("d"));
    var w2 := WithReplica(w1, "d", r.(paused := true));
    PauseIs(w1, "d");
    ThenStep(Start(), run + [Pause("d")], w2, Restore("d", 1));
    var w3 := WithReplica(w2, "d", Restored(w2.replicas["d"], BARE));
    RestoreIs(w2, "d", 1);
    assert Covered(w3.remote) == {} && PendingOps(w3.replicas["d"]) == {};
  }

  // ---- A snapshot with unpublished changes in it ------------------------------------------------

  /** A device queues a write. Flushing then sets it aside, because the offline limit expired, or
      does nothing, because remote access is paused; and the device compacts. */
  function UnpublishedCaptureRun(instead: Step): seq<Step> {
    [Join("c", 5)] + [Join("d", 79)] + ([Write("d", ROW, Text("one"), 80, Q, "chg_1")] + [CloseBatch("d")]) + [instead]
    + Compacting("d", [], [])
  }

  const QUEUED := Queued(Joined("d", 79), ROW, Text("one"), 80, Q, "chg_1")
  const QUEUED_WORLD := World(map["c" := Joined("c", 5), "d" := QUEUED], Start().remote, None, map[], map[NameOf(D1) := D1], {})

  lemma QueuedWorld()
    ensures Exec(Start(), [Join("c", 5)] + [Join("d", 79)] + ([Write("d", ROW, Text("one"), 80, Q, "chg_1")] + [CloseBatch("d")])) == QUEUED_WORLD
    ensures QUEUED.rows == map[ROW := Note("one", Q)] && QUEUED.seen == {} && QUEUED.pending.None? && QUEUED.adopting.None?
    ensures QUEUED.outbox == [D1] && QUEUED.stranded == {}
  {
    hide Exec, Do, Enabled;
    JoinTwo("c", 5, "d", 79);
    var w := World(map["c" := Joined("c", 5), "d" := Joined("d", 79)], Start().remote, None, map[], map[], {});
    assert NextStamp(Joined("d", 79), 80) == Q;
    CanPost(w, "d", "one", 80, Q, "chg_1");
    PutNote(map[], "one", Q);
    QueueingIs(w, "d", ROW, Text("one"), 80, Q, "chg_1");
    ThenRun(Start(), [Join("c", 5)] + [Join("d", 79)], w, [Write("d", ROW, Text("one"), 80, Q, "chg_1")] + [CloseBatch("d")]);
    assert w.replicas["d" := QUEUED] == QUEUED_WORLD.replicas;
  }

  lemma InsteadIs(instead: Step)
    requires instead == Expire("d") || instead == Pause("d")
    requires QUEUED.pending.None?
    ensures Do(QUEUED_WORLD, instead) == WithReplica(QUEUED_WORLD, "d", if instead.Expire? then Quarantined(QUEUED) else QUEUED.(paused := true))
  {
    hide Queued;
    assert Enabled(QUEUED_WORLD, instead);
  }

  /** Nothing was ever published, the mailbox is empty, and yet a fresh device that restores the
      current snapshot holds the row: it does not agree with replaying what was published. */
  lemma UnpublishedCaptureInventsRow(instead: Step)
    requires instead == Expire("d") || instead == Pause("d")
    ensures var w := Exec(Start(), UnpublishedCaptureRun(instead));
      && PublishedOps(w) == {} && w.remote.changes == map[] && Listing(w.remote, [])
      && RecoveryBase(w.remote) == map[ROW := Note("one", Q)]
      && !Agree(PublishedOps(w), ApplyOps(RecoveryBase(w.remote), []).value, ApplyOps(map[], []).value)
  {
    hide Exec, Do, Enabled, Queued;
    QueuedWorld();
    InsteadIs(instead);
    var start := [Join("c", 5)] + [Join("d", 79)] + ([Write("d", ROW, Text("one"), 80, Q, "chg_1")] + [CloseBatch("d")]);
    var w := Do(QUEUED_WORLD, instead);
    ThenStep(Start(), start, QUEUED_WORLD, instead);
    CompactingNothingIs(w, "d");
    ThenRun(Start(), start + [instead], w, Compacting("d", [], []));
    var after := Exec(Start(), UnpublishedCaptureRun(instead));
    assert after.published == {} && RecoveryBase(after.remote) == map[ROW := Note("one", Q)];
    assert !RowsAgree(PublishedOps(after), ROW, Get(map[ROW := Note("one", Q)], ROW), Get(map[], ROW));
  }

  // ---- A restore that issues a stamp again ---------------------------------------------------------

  const D1 := NoteChange("one", Q, "chg_1")
  const D2 := NoteChange("two", Q, "chg_2")

  /** The device publishes a note, restores the snapshot (which brings its own change back), pulls
      once more, and writes the note again under the same wall time. */
  function ReissueRun(): seq<Step> {
    FirstRun() + Publishing("d", ROW, Text("one"), 80, Q, "chg_1") + Restoring("d", 1, [D1], [80]) + [Pull("d", [], [])]
    + Publishing("d", ROW, Text("two"), 80, Q, "chg_2")
  }

  const POSTED_D := Posted(Joined("d", 79), "one", Q, "chg_1")
  const D_WORLD := FIRST_WORLD.(replicas := map["c" := C, "d" := POSTED_D], remote := FIRST.(changes := map[NameOf(D1) := D1]),
                                log := map[NameOf(D1) := D1], published := {NameOf(D1)})
  const RESTORED_D := POSTED_D.(clock := Hlc(5, 0, "d"), stored := Some(Hlc(5, 0, "d")), epoch := 1)

  lemma FirstPosted()
    ensures Exec(Start(), FirstRun() + Publishing("d", ROW, Text("one"), 80, Q, "chg_1")) == D_WORLD
  {
    hide Exec, Do, Enabled;
    FirstWorld();
    var w := FIRST_WORLD;
    assert NextStamp(Joined("d", 79), 80) == Q;
    Post(w, "d", "one", 80, Q, "chg_1");
    ThenRun(Start(), FirstRun(), w, Publishing("d", ROW, Text("one"), 80, Q, "chg_1"));
    assert w.replicas["d" := POSTED_D] == D_WORLD.replicas && {} + {NameOf(D1)} == {NameOf(D1)};
  }

  lemma ClockLowered()
    ensures Exec(Start(), FirstRun() + Publishing("d", ROW, Text("one"), 80, Q, "chg_1") + Restoring("d", 1, [D1], [80]) + [Pull("d", [], [])])
         == D_WORLD.(replicas := map["c" := C, "d" := RESTORED_D])
  {
    hide Exec, Do, Enabled;
    FirstPosted();
    var run := FirstRun() + Publishing("d", ROW, Text("one"), 80, Q, "chg_1");
    var restored := Restored(POSTED_D, BARE);
    ApplyNote(restored.rows, "one", Q);
    assert map[NameOf(D1) := D1].Keys - restored.seen == {NameOf(D1)};
    PullsOne(D_WORLD.remote, restored, D1, 80);
    RestoringIs(D_WORLD, "d", 1, [D1], [80]);
    ThenRun(Start(), run, D_WORLD, Restoring("d", 1, [D1], [80]));
    var r := ClockAdopted(Pulled(restored, [D1], [80]));
    assert r == RESTORED_D.(stored := r.stored) && r.clock == Hlc(5, 0, "d");
    var w1 := WithReplica(D_WORLD, "d", r);
    ThenStep(Start(), run + Restoring("d", 1, [D1], [80]), w1, Pull("d", [], []));
    NothingToPull(w1.remote, r);
    assert r.(stored := Some(r.clock)) == RESTORED_D;
    PullIs(w1, "d", [], []);
    assert w1.replicas["d" := RESTORED_D] == map["c" := C, "d" := RESTORED_D];
  }

  /** Two published changes now carry different values under one stamp: folding them throws. */
  lemma ReissuedStampMakesPullThrow()
    ensures var w := Exec(Start(), ReissueRun());
      && "c" in w.replicas && D1 != D2 && Listing(w.remote, [D1, D2]) && Names([D1, D2]) == w.remote.changes.Keys - w.replicas["c"].seen
      && Fold(w.replicas["c"], [D1, D2]).Err?
  {
    hide Exec, Do, Enabled;
    ClockLowered();
    var w := D_WORLD.(replicas := map["c" := C, "d" := RESTORED_D]);
    var run := FirstRun() + Publishing("d", ROW, Text("one"), 80, Q, "chg_1") + Restoring("d", 1, [D1], [80]) + [Pull("d", [], [])];
    assert NextStamp(RESTORED_D, 80) == Q;
    assert RESTORED_D.rows[ROW] == Note("one", Q);
    Post(w, "d", "two", 80, Q, "chg_2");
    ThenRun(Start(), run, w, Publishing("d", ROW, Text("two"), 80, Q, "chg_2"));
    var t := Exec(Start(), ReissueRun());
    assert t.remote.changes == map[NameOf(D1) := D1, NameOf(D2) := D2] && t.replicas["c"] == C;
    BothListed(t.remote);
    FoldBothThrows();
    hide Fold, Listing, Posted;
  }

  lemma BothListed(m: Remote)
    requires m.changes == map[NameOf(D1) := D1, NameOf(D2) := D2]
    ensures Listing(m, [D1, D2]) && Names([D1, D2]) == m.changes.Keys - C.seen
  {
    assert Names([D1, D2]) == {NameOf(D1), NameOf(D2)} by { assert D1 in [D1, D2] && D2 in [D1, D2]; }
  }

  lemma FoldBothThrows()
    ensures Fold(C, [D1, D2]).Err?
  {
    assert [D1, D2][1..] == [D2] && [D2][1..] == [] && D2.ops + [] == D2.ops;
    assert AllOpsOf([]) == [] && AllOpsOf([D2]) == D2.ops + AllOpsOf([D2][1..]);
    assert AllOpsOf([D1, D2]) == D1.ops + AllOpsOf([D1, D2][1..]);
    ApplyNote(map[], "one", Q);
    ApplyNoteOver("two", Q, "one", Q);
    ApplyOpsSplit(map[], D1.ops, D2.ops);
    hide ApplyOps;
  }

  // ---- A restore that forks a row ---------------------------------------------------------------------

  const H := Hlc(100, 0, "a")
  const M := Hlc(60, 0, "d")
  const THEIRS := NoteChange("theirs", H, "chg_1")
  const MINE := NoteChange("mine", M, "chg_2")
  const LAGGING := Snapshot(1, Hlc(5, 0, "c"), {NameOf(THEIRS)}, map[ROW := Note("theirs", H)], {NameOf(THEIRS)})

  /** A device ahead of the others publishes; a compactor whose clock is behind compacts; a new
      device restores the snapshot and writes; the compactor pulls. */
  function ForkRun(): seq<Step> {
    LaggingRun() + Restoring("d", 1, [], []) + Publishing("d", ROW, Text("mine"), 60, M, "chg_2") + [Pull("c", [MINE], [60])]
  }

  function LaggingRun(): seq<Step> {
    [Join("a", 99)] + [Join("c", 5)] + [Join("d", 50)] + Publishing("a", ROW, Text("theirs"), 100, H, "chg_1")
    + Compacting("c", [THEIRS], [50]) + [EndCompaction]
  }

  const AHEAD := Posted(Joined("a", 99), "theirs", H, "chg_1")
  const RECEIVED := Receive(Hlc(5, 0, "c"), H, 50)
  const BEHIND := Joined("c", 5).(clock := RECEIVED, stored := Some(RECEIVED), rows := map[ROW := Note("theirs", H)],
                                  seen := {NameOf(THEIRS)}, merged := {NameOf(THEIRS)}, epoch := 1)
  const LAG_REMOTE := Remote(map[NameOf(THEIRS) := THEIRS], map[1 := LAGGING], ONE, 2)

  function Three(c: Replica, d: Replica, m: Remote, log: map<FileName, Change>): World {
    World(map["a" := AHEAD, "c" := c, "d" := d], m, None, map[], log, log.Keys)
  }

  lemma LaggingWorld()
    ensures Exec(Start(), LaggingRun()) == Three(BEHIND, Joined("d", 50), LAG_REMOTE, map[NameOf(THEIRS) := THEIRS])
  {
    hide Exec, Do, Enabled;
    JoinTwo("a", 99, "c", 5);
    var w0 := World(map["a" := Joined("a", 99), "c" := Joined("c", 5)], Start().remote, None, map[], map[], {});
    ThenStep(Start(), [Join("a", 99)] + [Join("c", 5)], w0, Join("d", 50));
    var w1 := World(map["a" := Joined("a", 99), "c" := Joined("c", 5), "d" := Joined("d", 50)], Start().remote, None, map[], map[], {});
    JoinIs(w0, "d", 50);
    assert w0.replicas["d" := Joined("d", 50)] == w1.replicas;
    assert NextStamp(Joined("a", 99), 100) == H;
    Post(w1, "a", "theirs", 100, H, "chg_1");
    ThenRun(Start(), [Join("a", 99)] + [Join("c", 5)] + [Join("d", 50)], w1, Publishing("a", ROW, Text("theirs"), 100, H, "chg_1"));
    var w2 := Three(Joined("c", 5), Joined("d", 50), Start().remote.(changes := map[NameOf(THEIRS) := THEIRS]), map[NameOf(THEIRS) := THEIRS]);
    assert w1.replicas["a" := AHEAD] == w2.replicas && {} + {NameOf(THEIRS)} == w2.published;
    LaggingCaptured(w2);
    ThenRun(Start(), [Join("a", 99)] + [Join("c", 5)] + [Join("d", 50)] + Publishing("a", ROW, Text("theirs"), 100, H, "chg_1"), w2,
            Compacting("c", [THEIRS], [50]));
    var w3 := Three(BEHIND, Joined("d", 50), LAG_REMOTE, map[NameOf(THEIRS) := THEIRS]).(compaction := Some(Compaction("c", LAGGING, Pointed)));
    ThenStep(Start(), [Join("a", 99)] + [Join("c", 5)] + [Join("d", 50)] + Publishing("a", ROW, Text("theirs"), 100, H, "chg_1")
             + Compacting("c", [THEIRS], [50]), w3, EndCompaction);
    EndCompactionIs(w3);
  }

  /** The snapshot's clock is taken before the compaction's own pull, so it lies below the stamps of
      the rows it is stored with. */
  lemma LaggingCaptured(w: World)
    requires w == Three(Joined("c", 5), Joined("d", 50), Start().remote.(changes := map[NameOf(THEIRS) := THEIRS]), map[NameOf(THEIRS) := THEIRS])
    ensures Exec(w, Compacting("c", [THEIRS], [50])) ==
      Three(BEHIND, Joined("d", 50), LAG_REMOTE, map[NameOf(THEIRS) := THEIRS]).(compaction := Some(Compaction("c", LAGGING, Pointed)))
    ensures Less(LAGGING.clock, H)
  {
    hide Exec, Do, Enabled;
    ApplyNote(map[], "theirs", H);
    assert w.remote.changes.Keys - Joined("c", 5).seen == {NameOf(THEIRS)};
    PullsOne(w.remote, Joined("c", 5), THEIRS, 50);
    CanCapture(w, "c", [THEIRS], [50]);
    CompactingIs(w, "c", [THEIRS], [50]);
    assert CapturedBy(w, "c", [THEIRS], [50]) == LAGGING;
    assert w.replicas["c" := BEHIND] == map["a" := AHEAD, "c" := BEHIND, "d" := Joined("d", 50)];
    assert CompactedRemote(w.remote, LAGGING) == LAG_REMOTE;
  }

  const NEW_D := Joined("d", 50).(clock := Hlc(5, 0, "d"), stored := Some(Hlc(50, 0, "d")), rows := map[ROW := Note("theirs", H)],
                                  seen := {NameOf(THEIRS)}, merged := {NameOf(THEIRS)}, epoch := 1)
  const BOTH := map[NameOf(THEIRS) := THEIRS, NameOf(MINE) := MINE]

  lemma ForkedWorld()
    ensures Exec(Start(), LaggingRun() + Restoring("d", 1, [], []) + Publishing("d", ROW, Text("mine"), 60, M, "chg_2"))
         == Three(BEHIND, Posted(NEW_D, "mine", M, "chg_2"), LAG_REMOTE.(changes := BOTH), BOTH)
  {
    hide Exec, Do, Enabled;
    LaggingWorld();
    var w := Three(BEHIND, Joined("d", 50), LAG_REMOTE, map[NameOf(THEIRS) := THEIRS]);
    var restored := Restored(Joined("d", 50), LAGGING);
    NothingToPull(LAG_REMOTE, restored);
    RestoringIs(w, "d", 1, [], []);
    ThenRun(Start(), LaggingRun(), w, Restoring("d", 1, [], []));
    assert ClockAdopted(Pulled(restored, [], [])) == NEW_D;
    var w1 := Three(BEHIND, NEW_D, LAG_REMOTE, map[NameOf(THEIRS) := THEIRS]);
    assert w.replicas["d" := NEW_D] == w1.replicas;
    assert NextStamp(NEW_D, 60) == M;
    assert NEW_D.rows[ROW] == Note("theirs", H);
    Post(w1, "d", "mine", 60, M, "chg_2");
    ThenRun(Start(), LaggingRun() + Restoring("d", 1, [], []), w1, Publishing("d", ROW, Text("mine"), 60, M, "chg_2"));
    var r := Posted(NEW_D, "mine", M, "chg_2");
    assert w1.replicas["d" := r] == map["a" := AHEAD, "c" := BEHIND, "d" := r];
    assert map[NameOf(THEIRS) := THEIRS][NameOf(MINE) := MINE] == BOTH && w1.published + {NameOf(MINE)} == BOTH.Keys;
  }

  /** The restored device writes below the row it overwrites. It keeps its own value, everyone else
      the other one: two caught-up devices disagree. */
  lemma LaggingRestoreForksRow()
    ensures var w := Exec(Start(), ForkRun());
      && CaughtUp(w, "c") && CaughtUp(w, "d")
      && !Agree(PublishedOps(w), w.replicas["c"].rows, w.replicas["d"].rows)
  {
    hide Exec, Do, Enabled;
    ForkedWorld();
    var d := Posted(NEW_D, "mine", M, "chg_2");
    var w := Three(BEHIND, d, LAG_REMOTE.(changes := BOTH), BOTH);
    ThenStep(Start(), LaggingRun() + Restoring("d", 1, [], []) + Publishing("d", ROW, Text("mine"), 60, M, "chg_2"), w, Pull("c", [MINE], [60]));
    ApplyNoteOver("mine", M, "theirs", H);
    assert BOTH.Keys - BEHIND.seen == {NameOf(MINE)};
    PullsOne(w.remote, BEHIND, MINE, 60);
    var c := Pulled(BEHIND, [MINE], [60]);
    var t := Three(c, d, LAG_REMOTE.(changes := BOTH), BOTH);
    PullIs(w, "c", [MINE], [60]);
    assert w.replicas["c" := c] == t.replicas;
    assert c.rows == map[ROW := Note("theirs", H)] && d.rows == map[ROW := Note("mine", M)];
    Disagree(t);
  }

  lemma Disagree(w: World)
    requires "c" in w.replicas && "d" in w.replicas && PublishedOps(w) == OpsIn(BOTH, BOTH.Keys)
    requires w.replicas["c"].rows == map[ROW := Note("theirs", H)] && w.replicas["d"].rows == map[ROW := Note("mine", M)]
    ensures !Agree(PublishedOps(w), w.replicas["c"].rows, w.replicas["d"].rows)
  {
    var history := PublishedOps(w);
    assert !Overtaken(history, ROW, H);
    var a, b := Get(w.replicas["c"].rows, ROW), Get(w.replicas["d"].rows, ROW);
    assert At(a.value.payload, "text") == Some(Cell("theirs", H)) && At(b.value.payload, "text") == Some(Cell("mine", M));
    assert !RowsAgree(history, ROW, a, b);
  }

  /** A pull that stops halfway leaves rows above the clock it never saved. */
  lemma InterruptedPullOutrunsClock()
    ensures var r := Joined("d", 50);
            && Fold(r, [THEIRS]).Ok?
            && !Supersedes(Get(Fold(r, [THEIRS]).value.rows, ROW), Text("mine"), NextStamp(Fold(r, [THEIRS]).value, 60))
  {
    ApplyNote(map[], "theirs", H);
    assert [THEIRS][1..] == [] && THEIRS.ops + [] == THEIRS.ops && AllOpsOf([THEIRS]) == THEIRS.ops;
    var r := Fold(Joined("d", 50), [THEIRS]).value;
    assert r.rows[ROW].payload["text"] == Cell("theirs", H) && "text" in Text("mine");
    assert NextStamp(r, 60) == M;
  }

  // ---- The clock after a restore ----------------------------------------------------------------------

  /** A device that has restored the snapshot, pulled, and adopted the snapshot's clock. */
  function Rehydrated(r: Replica, s: Snapshot, changes: seq<Change>, nows: seq<nat>): Replica
    requires |nows| == |changes|
  {
    ClockAdopted(PullDone(Restored(r, s), changes, nows))
  }

  lemma {:induction false} ReceiveAllNeverFalls(clock: Hlc, changes: seq<Change>, nows: seq<nat>)
    requires |nows| == |changes|
    ensures Leq(clock, ReceiveAll(clock, changes, nows)) && ReceiveAll(clock, changes, nows).node == clock.node
    decreases |changes|
  {
    Trichotomy(clock, clock);
    if changes != [] {
      var next := Receive(clock, changes[0].hlc, nows[0]);
      NextIsAhead(clock, ReceiveAt(changes[0].hlc, nows[0]));
      Trichotomy(clock, next);
      hide Receive, Less;
      ReceiveAllNeverFalls(next, changes[1..], nows[1..]);
      Transitive(clock, next, ReceiveAll(clock, changes, nows));
    }
  }

  lemma TickPassesIff(clock: Hlc, base: Hlc, now: nat)
    requires base.node == clock.node
    ensures Less(clock, Tick(base, now)) <==>
            if base.ts < now then clock.ts < now
            else clock.ts < base.ts || (clock.ts == base.ts && clock.counter <= base.counter)
  {
    LexTrichotomy(clock.node, clock.node);
  }

  /** The first write after a restore is always stamped above the clock the device had before. After
      one more pull, whatever it brings, that is so if and only if the wall clock has passed the old
      clock or the clock that pull ended with, which started from the snapshot's, has reached it. */
  lemma RestoredClockPassesIff(r: Replica, s: Snapshot, now: nat, c1: seq<Change>, n1: seq<nat>, c2: seq<Change>, n2: seq<nat>)
    requires |n1| == |c1| && |n2| == |c2|
    ensures Less(r.clock, NextStamp(Rehydrated(r, s, c1, n1), now))
    ensures var saved := ReceiveAll(s.clock.(node := r.clock.node), c2, n2);
      Less(r.clock, NextStamp(PullDone(Rehydrated(r, s, c1, n1), c2, n2), now)) <==>
        if saved.ts < now then r.clock.ts < now
        else r.clock.ts < saved.ts || (r.clock.ts == saved.ts && r.clock.counter <= saved.counter)
  {
    var restored := Rehydrated(r, s, c1, n1);
    var base, saved := ReceiveAll(r.clock, c1, n1), ReceiveAll(s.clock.(node := r.clock.node), c2, n2);
    ReceiveAllNeverFalls(r.clock, c1, n1);
    ReceiveAllNeverFalls(s.clock.(node := r.clock.node), c2, n2);
    assert restored.stored == Some(base) && restored.clock == s.clock.(node := r.clock.node);
    FirstWritePasses(r.clock, restored, base, now);
    var last := PullDone(restored, c2, n2);
    assert last.clock == saved && last.stored == Some(saved);
    Trichotomy(saved, saved);
    assert NextStamp(last, now) == Tick(saved, now);
    TickPassesIff(r.clock, saved, now);
  }

  lemma FirstWritePasses(clock: Hlc, r: Replica, base: Hlc, now: nat)
    requires Leq(clock, base) && r.stored == Some(base) && base.node == clock.node == r.clock.node
    ensures Less(clock, NextStamp(r, now))
  {
    var from := Refreshed(r);
    assert Leq(base, from) by {
      Trichotomy(base, from);
      Trichotomy(base, base);
    }
    Transitive(clock, base, from);
    NextIsAhead(from, TickAt(now));
    Transitive(clock, from, Tick(from, now)) by { Trichotomy(from, Tick(from, now)); }
  }
}
