/** One device: its clock, its durable local store, and the local transitions of the engine. */
module Replica {
  import opened Options
  import opened Hlc
  import opened Merge
  import opened WritePath

  /** A change file is named by the change's stamp and its random id. */
  datatype FileName = FileName(hlc: Hlc, id: string)

  function NameOf(c: Change): FileName { FileName(c.hlc, c.id) }

  /** A compacted mailbox state. `merged` is a history variable: the files folded into `rows`. */
  datatype Snapshot = Snapshot(epoch: nat, clock: Hlc, covered: set<FileName>, rows: Rows, merged: set<FileName>)

  /** `merged`, `made`, `committed` and `stranded` are history variables. */
  datatype Replica = Replica(
    clock: Hlc,                 // the engine's clock
    stored: Option<Hlc>,        // the clock in the local store
    rows: Rows,
    pending: Option<Change>,    // the batch that local writes are collected in
    outbox: seq<Change>,        // changes waiting to be written to the mailbox
    quarantine: set<Change>,    // changes set aside when the offline limit expired
    seen: set<FileName>,        // the change ledger
    epoch: nat,                 // the epoch of the last snapshot restored or written
    adopting: Option<Hlc>,      // a restored snapshot's clock, adopted once the restore is over
    paused: bool,               // remote access was denied and not restored since
    merged: set<FileName>,      // files whose ops are folded into `rows`
    made: set<FileName>,        // files this device has ever promoted
    committed: set<Op>,         // ops this device has ever committed
    stranded: set<FileName>)    // quarantined files whose ops are still in `rows`

  function Joined(node: string, now: nat): Replica {
    Replica(Create(now, node), None, map[], None, [], {}, {}, 0, None, false, {}, {}, {}, {})
  }

  function OutboxNames(r: Replica): set<FileName> { set c | c in r.outbox :: NameOf(c) }

  function QuarantineNames(r: Replica): set<FileName> { set c | c in r.quarantine :: NameOf(c) }

  function PendingOps(r: Replica): set<Op> { if r.pending.Some? then Elements(r.pending.value.ops) else {} }

  // ---- Writing -------------------------------------------------------------------

  /** Before a write the engine catches up with a later clock in the local store. */
  function Refreshed(r: Replica): Hlc {
    if r.stored.Some? && Less(r.clock, r.stored.value) then r.stored.value.(node := r.clock.node) else r.clock
  }

  /** The stamp the next local write will carry. */
  function NextStamp(r: Replica, now: nat): Hlc { Tick(Refreshed(r), now) }

  /** Store a changed row and its op in one transaction. */
  function CommitRow(r: Replica, key: Key, row: Row, c: Change): Replica {
    var batch := Commit(r.pending, c);
    r.(rows := r.rows[key := row], pending := Some(batch), stored := Some(batch.hlc),
       committed := r.committed + Elements(c.ops))
  }

  /** `put`; `h` is the newest stamp of the written row. */
  function Put(r: Replica, key: Key, fields: map<Field, Value>, now: nat, h: Hlc, id: string): Replica
    requires fields != map[]
  {
    var p := NextStamp(r, now);
    var row := PutRow(Get(r.rows, key), fields, p);
    CommitRow(r.(clock := p), key, row, Change(id, h, [Upsert(key, row.payload)]))
  }

  /** `delete` of a live row. */
  function Erase(r: Replica, key: Key, now: nat, id: string): Replica {
    var p := NextStamp(r, now);
    CommitRow(r.(clock := p), key, Row(true, Some(p), map[]), Change(id, p, [Delete(key, p)]))
  }

  /** Close the pending batch and queue it. */
  function Promote(r: Replica): Replica
    requires r.pending.Some?
  {
    var c := r.pending.value;
    r.(pending := None, outbox := r.outbox + [c], merged := r.merged + {NameOf(c)}, made := r.made + {NameOf(c)})
  }

  // ---- Publishing ------------------------------------------------------------------

  /** A flush first records its own files as seen. */
  function ObserveOutbox(r: Replica): Replica { r.(seen := r.seen + OutboxNames(r)) }

  /** Drop the first `n` queued changes once their files are written. */
  function Acknowledge(r: Replica, n: nat): Replica
    requires n <= |r.outbox|
  {
    r.(outbox := r.outbox[n..])
  }

  /** Set every queued change aside after the offline limit expired. */
  function Quarantined(r: Replica): Replica {
    r.(outbox := [], quarantine := r.quarantine + (set c | c in r.outbox), stranded := r.stranded + OutboxNames(r))
  }

  // ---- Receiving ---------------------------------------------------------------------

  function AllOpsOf(changes: seq<Change>): seq<Op> {
    if changes == [] then [] else changes[0].ops + AllOpsOf(changes[1..])
  }

  function Names(changes: seq<Change>): set<FileName> { set c | c in changes :: NameOf(c) }

  /** Fold change files into the rows; the ledger and the clock are only saved by a pull that completes. */
  function Fold(r: Replica, changes: seq<Change>): Result<Replica, Clash> {
    match ApplyOps(r.rows, AllOpsOf(changes))
    case Ok(rows) => Ok(r.(rows := rows, merged := r.merged + Names(changes)))
    case Err(e) => Err(e)
  }

  function ReceiveAll(clock: Hlc, changes: seq<Change>, nows: seq<nat>): Hlc
    requires |nows| == |changes|
    decreases |changes|
  {
    if changes == [] then clock
    else ReceiveAll(Receive(clock, changes[0].hlc, nows[0]), changes[1..], nows[1..])
  }

  /** What a completed pull adds to a fold: the ledger and the clock. */
  function PullDone(r: Replica, changes: seq<Change>, nows: seq<nat>): Replica
    requires |nows| == |changes|
  {
    var clock := ReceiveAll(r.clock, changes, nows);
    r.(clock := clock, stored := Some(clock), seen := r.seen + Names(changes))
  }

  // ---- Starting over -------------------------------------------------------------------

  /** Replace the local store by a snapshot. Everything queued is cleared with it. */
  function Restored(r: Replica, s: Snapshot): Replica {
    r.(stored := None, rows := s.rows, pending := None, outbox := [], seen := s.covered, epoch := s.epoch,
       adopting := Some(s.clock.(node := r.clock.node)), merged := s.merged, stranded := {})
  }

  /** The restore ends by adopting the snapshot's clock, whatever its own pull received. */
  function ClockAdopted(r: Replica): Replica
    requires r.adopting.Some?
  {
    r.(clock := r.adopting.value, adopting := None)
  }

  /** An expired device with no snapshot to restore empties its store. */
  function Emptied(r: Replica): Replica {
    r.(stored := None, rows := map[], pending := None, outbox := [], seen := {}, epoch := 0,
       adopting := None, merged := {}, stranded := {})
  }

  /** The clock a restarted process begins with. */
  function RestartClock(r: Replica, now: nat): Hlc {
    if r.stored.Some? then r.stored.value.(node := r.clock.node) else Create(now, r.clock.node)
  }

  /** The process dies and starts again from the local store. */
  function Restarted(r: Replica, now: nat): Replica {
    r.(clock := RestartClock(r, now), adopting := None, paused := false)
  }
}
