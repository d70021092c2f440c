/** The whole system: any number of devices over one passive mailbox, with compaction in
    separate phases so that it can stop between any two of them. */
module Protocol {
  import opened Options
  import opened Hlc
  import opened Merge
  import opened WritePath
  import opened Replica

  datatype Manifest = Manifest(epoch: nat, snapshot: Option<nat>)

  datatype Remote = Remote(
    changes: map<FileName, Change>,
    snapshots: map<nat, Snapshot>,   // by epoch, as their paths are
    manifests: map<nat, Manifest>,   // by generation
    pointer: nat)                    // the current generation

  datatype Phase = Captured | SnapshotWritten | ManifestWritten | Pointed

  datatype Compaction = Compaction(compactor: string, snapshot: Snapshot, phase: Phase)

  /** `sweeps` holds, for each device that checks the retention of snapshots, the snapshot its
      manifest named. `log` and `published` are history variables: every change ever promoted by
      any device, and the names among them that were ever written to the mailbox. */
  datatype World = World(
    replicas: map<string, Replica>,
    remote: Remote,
    compaction: Option<Compaction>,
    sweeps: map<string, nat>,
    log: map<FileName, Change>,
    published: set<FileName>)

  function Start(): World {
    World(map[], Remote(map[], map[], map[1 := Manifest(0, None)], 1), None, map[], map[], {})
  }

  function Current(m: Remote): Manifest {
    if m.pointer in m.manifests then m.manifests[m.pointer] else Manifest(0, None)
  }

  /** The files that the current snapshot stands for. */
  function Covered(m: Remote): set<FileName> {
    var s := Current(m).snapshot;
    if s.Some? && s.value in m.snapshots then m.snapshots[s.value].covered else {}
  }

  function OpsIn(log: map<FileName, Change>, names: set<FileName>): set<Op> {
    set n, op | n in names && n in log && op in log[n].ops :: op
  }

  function AllPendingOps(w: World): set<Op> {
    set i, op | i in w.replicas && op in PendingOps(w.replicas[i]) :: op
  }

  /** Every op any device ever committed. */
  function AllOps(w: World): set<Op> { OpsIn(w.log, w.log.Keys) + AllPendingOps(w) }

  /** The ops folded into a device's rows. */
  function Applied(w: World, r: Replica): set<Op> { OpsIn(w.log, r.merged) + PendingOps(r) }

  ghost predicate OpCarries(op: Op, h: Hlc) {
    match op
    case Delete(_, d) => d == h
    case Upsert(_, columns) => exists f :: f in columns && columns[f].hlc == h
  }

  /** No op anywhere carries the stamp yet. */
  ghost predicate Unused(w: World, h: Hlc) { forall op :: op in AllOps(w) ==> !OpCarries(op, h) }

  /** The listing of a pull: distinct files, read from the mailbox. */
  predicate Listing(m: Remote, changes: seq<Change>) {
    && (forall c :: c in changes ==> NameOf(c) in m.changes && m.changes[NameOf(c)] == c)
    && (forall x, y :: 0 <= x < y < |changes| ==> NameOf(changes[x]) != NameOf(changes[y]))
  }

  datatype Step =
    | Join(node: string, now: nat)
    | Write(node: string, key: Key, fields: map<Field, Value>, now: nat, h: Hlc, id: string)
    | Remove(node: string, key: Key, now: nat, id: string)
    | CloseBatch(node: string)
    | BeginFlush(node: string)
    | WriteFile(node: string, index: nat)
    | EndFlush(node: string, count: nat)
    | Expire(node: string)
    | Pull(node: string, changes: seq<Change>, nows: seq<nat>)
    | InterruptedPull(node: string, changes: seq<Change>)
    | Restore(node: string, epoch: nat)
    | AdoptClock(node: string)
    | GiveUpRestore(node: string)
    | EmptyStore(node: string)
    | Pause(node: string) | Unpause(node: string)
    | Crash(node: string, now: nat)
    | Capture(node: string, changes: seq<Change>, nows: seq<nat>)
    | PutSnapshot | PutManifest | MovePointer | SaveEpoch
    | DropChange(name: FileName)
    | DropSnapshot(epoch: nat)
    | EndCompaction
    | LoadManifest(node: string)
    | Sweep(node: string, epoch: nat)

  /** The device exists and its store lock is free: a compaction holds it from start to end. */
  predicate Idle(w: World, i: string) {
    i in w.replicas && !(w.compaction.Some? && w.compaction.value.compactor == i)
  }

  /** A completed pull of everything unseen. */
  ghost predicate PullsAll(m: Remote, r: Replica, changes: seq<Change>, nows: seq<nat>) {
    && Listing(m, changes) && |nows| == |changes|
    && Names(changes) == m.changes.Keys - r.seen
    && Fold(r, changes).Ok?
  }

  /** What the program can do. Nothing here asks whether a new stamp supersedes the row it writes
      to, whether a restore drops queued changes, or whether a compactor is up to date. */
  ghost predicate Enabled(w: World, s: Step) {
    match s
    case Join(i, _) => i !in w.replicas
    case Write(i, key, fields, now, h, id) =>
      && Idle(w, i) && w.replicas[i].adopting.None? && fields != map[]
      && NewestStamp(PutRow(Get(w.replicas[i].rows, key), fields, NextStamp(w.replicas[i], now)), h)
    case Remove(i, key, now, id) =>
      && Idle(w, i) && w.replicas[i].adopting.None?
      && key in w.replicas[i].rows && !w.replicas[i].rows[key].deleted
    case CloseBatch(i) =>
      && Idle(w, i) && w.replicas[i].pending.Some?
      && (forall n :: n in w.log ==> n.id != w.replicas[i].pending.value.id)
    case BeginFlush(i) => Idle(w, i) && !w.replicas[i].paused
    case WriteFile(i, k) =>
      && Idle(w, i) && !w.replicas[i].paused
      && k < |w.replicas[i].outbox| && NameOf(w.replicas[i].outbox[k]) in w.replicas[i].seen
    case EndFlush(i, n) =>
      && Idle(w, i) && n <= |w.replicas[i].outbox|
      && (forall k :: 0 <= k < n ==> NameOf(w.replicas[i].outbox[k]) in w.published)
    case Expire(i) => Idle(w, i) && w.replicas[i].pending.None?
    case Pull(i, changes, nows) => Idle(w, i) && PullsAll(w.remote, w.replicas[i], changes, nows)
    case InterruptedPull(i, changes) =>
      Idle(w, i) && Listing(w.remote, changes) && Fold(w.replicas[i], changes).Ok?
    case Restore(i, e) => Idle(w, i) && e in w.remote.snapshots && e <= Current(w.remote).epoch
    case AdoptClock(i) => Idle(w, i) && w.replicas[i].adopting.Some? && w.replicas[i].stored.Some?
    case GiveUpRestore(i) => Idle(w, i)
    case EmptyStore(i) => Idle(w, i)
    case Pause(i) => i in w.replicas
    case Unpause(i) => i in w.replicas
    case Crash(i, _) => i in w.replicas
    case Capture(i, changes, nows) =>
      && Idle(w, i) && w.replicas[i].adopting.None? && w.replicas[i].pending.None? && w.compaction.None?
      && PullsAll(w.remote, w.replicas[i], changes, nows)
    case PutSnapshot => w.compaction.Some? && w.compaction.value.phase == Captured
    case PutManifest => w.compaction.Some? && w.compaction.value.phase == SnapshotWritten
    case MovePointer => w.compaction.Some? && w.compaction.value.phase == ManifestWritten
    case SaveEpoch =>
      w.compaction.Some? && w.compaction.value.phase == Pointed && w.compaction.value.compactor in w.replicas
    case DropChange(n) =>
      w.compaction.Some? && w.compaction.value.phase == Pointed && n in w.compaction.value.snapshot.covered
    case DropSnapshot(e) =>
      w.compaction.Some? && w.compaction.value.phase == Pointed && e != w.compaction.value.snapshot.epoch
    case EndCompaction => w.compaction.Some?
    case LoadManifest(i) => Idle(w, i) && Current(w.remote).snapshot.Some?
    case Sweep(i, e) => Idle(w, i) && i in w.sweeps && e != w.sweeps[i]
  }

  /** Nothing the device has queued would be lost with its local store. */
  predicate QueueSafe(w: World, r: Replica) {
    r.pending.None? && OutboxNames(r) <= w.published + QuarantineNames(r)
  }

  /** A compaction has written its snapshot and not yet made it current. */
  predicate Candidate(w: World, e: nat) {
    && w.compaction.Some? && w.compaction.value.phase in {SnapshotWritten, ManifestWritten}
    && w.compaction.value.snapshot.epoch == e
  }

  /** What the guarantees need of a step beyond its being possible. */
  ghost predicate Careful(w: World, s: Step) {
    Enabled(w, s) ==>
      match s
      case Write(i, key, fields, now, _, _) =>
        var p := NextStamp(w.replicas[i], now);
        Supersedes(Get(w.replicas[i].rows, key), fields, p) && Unused(w, p)
      case Remove(i, key, now, _) =>
        var p, row := NextStamp(w.replicas[i], now), w.replicas[i].rows[key];
        (forall f :: f in row.payload ==> Leq(row.payload[f].hlc, p)) && Unused(w, p)
      case Restore(i, _) => QueueSafe(w, w.replicas[i])
      case EmptyStore(i) => QueueSafe(w, w.replicas[i])
      case Capture(i, _, _) =>
        var r := w.replicas[i];
        && OutboxNames(r) + r.stranded <= w.published
        && Covered(w.remote) <= r.seen + w.remote.changes.Keys
      case Sweep(_, e) => Current(w.remote).snapshot != Some(e) && !Candidate(w, e)
      case _ => true
  }

  function WithReplica(w: World, i: string, r: Replica): World { w.(replicas := w.replicas[i := r]) }

  /** The snapshot a compactor captures. Its clock is the one the compactor had before the
      pull that the compaction itself performs. */
  function Capturing(r: Replica, pulled: Replica, epoch: nat): Snapshot {
    Snapshot(epoch, r.clock, pulled.seen, pulled.rows, pulled.merged)
  }

  function InPhase(w: World, p: Phase): World
    requires w.compaction.Some?
  {
    w.(compaction := Some(w.compaction.value.(phase := p)))
  }

  function BatchClosed(w: World, i: string): World
    requires i in w.replicas && w.replicas[i].pending.Some?
  {
    var c := w.replicas[i].pending.value;
    WithReplica(w, i, Promote(w.replicas[i])).(log := w.log[NameOf(c) := c])
  }

  function FileWritten(w: World, c: Change): World {
    w.(remote := w.remote.(changes := w.remote.changes[NameOf(c) := c]), published := w.published + {NameOf(c)})
  }

  function Restarting(w: World, i: string, now: nat): World
    requires i in w.replicas
  {
    var running := w.compaction.Some? && w.compaction.value.compactor == i;
    WithReplica(w, i, Restarted(w.replicas[i], now)).(compaction := if running then None else w.compaction)
  }

  function Pulled(r: Replica, changes: seq<Change>, nows: seq<nat>): Replica
    requires Fold(r, changes).Ok? && |nows| == |changes|
  {
    PullDone(Fold(r, changes).value, changes, nows)
  }

  function SnapshotCaptured(w: World, i: string, pulled: Replica): World
    requires i in w.replicas
  {
    WithReplica(w, i, pulled).(compaction :=
      Some(Compaction(i, Capturing(w.replicas[i], pulled, Current(w.remote).epoch + 1), Captured)))
  }

  function SnapshotPut(w: World): World
    requires w.compaction.Some?
  {
    var s := w.compaction.value.snapshot;
    InPhase(w, SnapshotWritten).(remote := w.remote.(snapshots := w.remote.snapshots[s.epoch := s]))
  }

  function ManifestPut(w: World): World
    requires w.compaction.Some?
  {
    var s := w.compaction.value.snapshot;
    InPhase(w, ManifestWritten).(remote := w.remote.(manifests :=
      w.remote.manifests[w.remote.pointer + 1 := Manifest(s.epoch, Some(s.epoch))]))
  }

  function PointerMoved(w: World): World
    requires w.compaction.Some?
  {
    InPhase(w, Pointed).(remote := w.remote.(pointer := w.remote.pointer + 1))
  }

  function ChangeDropped(w: World, n: FileName): World {
    w.(remote := w.remote.(changes := w.remote.changes - {n}))
  }

  function SnapshotDropped(w: World, e: nat): World {
    w.(remote := w.remote.(snapshots := w.remote.snapshots - {e}))
  }

  /** The effect of a step; a step that is not enabled leaves the world as it is. */
  ghost function Do(w: World, s: Step): World {
    if !Enabled(w, s) then w else
    match s
    case Join(i, now) => WithReplica(w, i, Joined(i, now))
    case Write(i, key, fields, now, h, id) => WithReplica(w, i, Put(w.replicas[i], key, fields, now, h, id))
    case Remove(i, key, now, id) => WithReplica(w, i, Erase(w.replicas[i], key, now, id))
    case CloseBatch(i) => BatchClosed(w, i)
    case BeginFlush(i) => WithReplica(w, i, ObserveOutbox(w.replicas[i]))
    case WriteFile(i, k) => FileWritten(w, w.replicas[i].outbox[k])
    case EndFlush(i, n) => WithReplica(w, i, Acknowledge(w.replicas[i], n))
    case Expire(i) => WithReplica(w, i, Quarantined(w.replicas[i]))
    case Pull(i, changes, nows) => WithReplica(w, i, Pulled(w.replicas[i], changes, nows))
    case InterruptedPull(i, changes) => WithReplica(w, i, Fold(w.replicas[i], changes).value)
    case Restore(i, e) => WithReplica(w, i, Restored(w.replicas[i], w.remote.snapshots[e]))
    case AdoptClock(i) => WithReplica(w, i, ClockAdopted(w.replicas[i]))
    case GiveUpRestore(i) => WithReplica(w, i, w.replicas[i].(adopting := None))
    case Pause(i) => WithReplica(w, i, w.replicas[i].(paused := true))
    case Unpause(i) => WithReplica(w, i, w.replicas[i].(paused := false))
    case EmptyStore(i) => WithReplica(w, i, Emptied(w.replicas[i]))
    case Crash(i, now) => Restarting(w, i, now)
    case Capture(i, changes, nows) => SnapshotCaptured(w, i, Pulled(w.replicas[i], changes, nows))
    case PutSnapshot => SnapshotPut(w)
    case PutManifest => ManifestPut(w)
    case MovePointer => PointerMoved(w)
    case SaveEpoch =>
      var i := w.compaction.value.compactor;
      WithReplica(w, i, w.replicas[i].(epoch := w.compaction.value.snapshot.epoch))
    case DropChange(n) => ChangeDropped(w, n)
    case DropSnapshot(e) => SnapshotDropped(w, e)
    case EndCompaction => w.(compaction := None)
    case LoadManifest(i) => w.(sweeps := w.sweeps[i := Current(w.remote).snapshot.value])
    case Sweep(_, e) => SnapshotDropped(w, e)
  }

  /** The world after a run. */
  ghost function Exec(w: World, run: seq<Step>): World {
    if run == [] then w else Do(Exec(w, run[..|run| - 1]), run[|run| - 1])
  }

  /** The snapshot that a compaction by `i` would capture, pulling `changes`. */
  ghost function CapturedBy(w: World, i: string, changes: seq<Change>, nows: seq<nat>): Snapshot
    requires Enabled(w, Capture(i, changes, nows))
  {
    Capturing(w.replicas[i], Pulled(w.replicas[i], changes, nows), Current(w.remote).epoch + 1)
  }

  /** Every step of the run met `Careful` when it was taken. */
  ghost predicate CarefulRun(run: seq<Step>)
    decreases |run|, 1
  {
    run == [] || CarefulLast(run)
  }

  ghost predicate CarefulLast(run: seq<Step>)
    requires run != []
    decreases |run|, 0
  {
    var front := run[..|run| - 1];
    CarefulRun(front) && Careful(Exec(Start(), front), run[|run| - 1])
  }

  lemma CarefulSnoc(run: seq<Step>, s: Step)
    requires CarefulRun(run) && Careful(Exec(Start(), run), s)
    ensures CarefulRun(run + [s])
  {
    hide Exec, Careful;
    assert (run + [s])[..|run|] == run;
    assert CarefulLast(run + [s]);
  }

  lemma ExecSnoc(w: World, run: seq<Step>, s: Step)
    ensures Exec(w, run + [s]) == Do(Exec(w, run), s)
  {
    hide Do;
    assert (run + [s])[..|run|] == run;
  }

  lemma NoSteps(w: World)
    ensures Exec(w, []) == w
  {}

  lemma {:induction false} ExecConcat(w: World, a: seq<Step>, b: seq<Step>)
    ensures Exec(w, a + b) == Exec(Exec(w, a), b)
    decreases |b|
  {
    if b == [] {
      assert a + b == a;
    } else {
      var n := |b| - 1;
      ExecConcat(w, a, b[..n]);
      assert (a + b)[..|a| + n] == a + b[..n];
      assert b == b[..n] + [b[n]];
    }
  }
}
