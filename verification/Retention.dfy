/** The offline limit: when a flush publishes what a device has queued, and when it sets it aside
    because the device has been away for too long. */
module Retention {
  import opened Options
  import opened WritePath

  /** The time of the last successful sync, as the local store has it. */
  datatype SyncTime = Never | Unreadable | At(ms: int)

  /** The device has been offline for longer than the mesh allows. A time that cannot be read counts
      as too long ago, and none at all as not. */
  predicate Expired(last: SyncTime, now: int, limit: int) {
    last.Unreadable? || (last.At? && now - last.ms > limit)
  }

  // ---- One device and its clock -----------------------------------------------------------------

  /** `sent` holds what was published, in order. */
  datatype Device = Device(pending: Option<Change>, queue: seq<Change>, aside: set<Change>, sent: seq<Change>,
                           last: SyncTime, now: int)

  datatype Step =
    | Open(change: Change)          // a batch with local writes is begun
    | Close                         // and queued
    | Clock(now: int)               // the wall clock moves, either way
    | Pulled                        // a pull completes while connected
    | Flush(published: bool)        // with the mailbox taking every file, or not

  function QueuedOf(d: Device): seq<Change> { if d.pending.Some? then d.queue + [d.pending.value] else d.queue }

  function Flushed(d: Device, limit: int, published: bool): Device {
    if d.queue == [] then d
    else if Expired(d.last, d.now, limit) then
      d.(pending := None, queue := [], aside := d.aside + set c | c in QueuedOf(d))
    else if published then d.(queue := [], sent := d.sent + d.queue, last := At(d.now))
    else d
  }

  function Do(d: Device, s: Step, limit: int): Device {
    match s
    case Open(c) => if d.pending.None? then d.(pending := Some(c)) else d
    case Close => d.(pending := None, queue := QueuedOf(d))
    case Clock(now) => d.(now := now)
    case Pulled => d.(last := At(d.now))
    case Flush(published) => Flushed(d, limit, published)
  }

  function Start(last: SyncTime, now: int): Device { Device(None, [], {}, [], last, now) }

  function Exec(d: Device, run: seq<Step>, limit: int): Device {
    if run == [] then d else Do(Exec(d, run[..|run| - 1], limit), run[|run| - 1], limit)
  }

  // ---- The recorded time ----------------------------------------------------------------------------

  /** The step is a successful sync: a completed pull, or a flush that publishes something. */
  ghost predicate Syncs(d: Device, s: Step, limit: int) {
    s.Pulled? || (s.Flush? && Do(d, s, limit).sent != d.sent)
  }

  ghost predicate SyncsAt(d: Device, run: seq<Step>, limit: int, k: nat)
    requires k < |run|
  {
    Syncs(Exec(d, run[..k], limit), run[k], limit)
  }

  /** The recorded time is that of the latest successful sync of the run. */
  ghost predicate Latest(d: Device, run: seq<Step>, limit: int, k: nat) {
    && k < |run| && SyncsAt(d, run, limit, k) && (forall l :: k < l < |run| ==> !SyncsAt(d, run, limit, l))
    && Exec(d, run, limit).last == At(Exec(d, run[..k], limit).now)
  }

  lemma StepRecords(d: Device, s: Step, limit: int)
    ensures Do(d, s, limit).last == if Syncs(d, s, limit) then At(d.now) else d.last
  {
    if s.Flush? && d.queue != [] { assert |d.sent + d.queue| > |d.sent|; }
  }

  /** Over every run, what the store has is the time of the latest successful sync, or what it had
      at first if there was none. */
  lemma {:induction false} LastIsLatestSync(d: Device, run: seq<Step>, limit: int)
    ensures (exists k :: Latest(d, run, limit, k))
         || (Exec(d, run, limit).last == d.last && forall k :: 0 <= k < |run| ==> !SyncsAt(d, run, limit, k))
  {
    if run != [] {
      var n := |run| - 1;
      var front, mid := run[..n], Exec(d, run[..n], limit);
      LastIsLatestSync(d, front, limit);
      StepRecords(mid, run[n], limit);
      forall k | 0 <= k < n ensures SyncsAt(d, front, limit, k) <==> SyncsAt(d, run, limit, k) { assert front[..k] == run[..k]; }
      hide Syncs;
      if SyncsAt(d, run, limit, n) {
        assert Latest(d, run, limit, n);
      } else if exists k: nat :: Latest(d, front, limit, k) {
        var k: nat :| Latest(d, front, limit, k);
        assert front[..k] == run[..k];
        assert Latest(d, run, limit, k);
      }
    }
  }

  // ---- What a flush does --------------------------------------------------------------------------------

  /** Over every run, with a recorded time and a limit of at least nothing: a flush with something
      queued sets all of it aside, the open batch included, and sends nothing, if and only if the
      clock is past the recorded time plus the limit. Otherwise it sets nothing aside, and sends the
      queue and records the time if the mailbox takes it. */
  lemma FlushSetsAsideIff(start: Device, run: seq<Step>, limit: int, published: bool)
    requires limit >= 0
    requires var d := Exec(start, run, limit); d.last.At? && d.queue != []
    ensures var d := Exec(start, run, limit); var after := Do(d, Flush(published), limit);
      && (after.queue == [] && after.sent == d.sent <==> d.now > d.last.ms + limit)
      && (d.now > d.last.ms + limit ==>
            after == d.(pending := None, queue := [], aside := d.aside + (set c | c in d.queue) + (if d.pending.Some? then {d.pending.value} else {})))
      && (d.now <= d.last.ms + limit ==>
            after == if published then d.(queue := [], sent := d.sent + d.queue, last := At(d.now)) else d)
  {
    hide Exec;
    var d := Exec(start, run, limit);
    assert |d.sent + d.queue| > |d.sent|;
    assert (set c | c in QueuedOf(d)) == (set c | c in d.queue) + (if d.pending.Some? then {d.pending.value} else {});
  }

  /** A device that has just synced keeps nothing back, and one without a recorded time never does. */
  lemma JustSyncedIsNeverSetAside(start: Device, run: seq<Step>, limit: int, published: bool)
    requires limit >= 0
    ensures var d := Exec(start, run, limit);
      && Do(Do(d, Pulled, limit), Flush(published), limit).aside == d.aside
      && Do(Do(Do(d, Pulled, limit), Flush(true), limit), Flush(published), limit).aside == d.aside
      && (d.last.Never? ==> Do(d, Flush(published), limit).aside == d.aside)
      && (d.last.Unreadable? && d.queue != [] ==> Do(d, Flush(published), limit).sent == d.sent)
  {}

  /** The clock does not move back, and nothing syncs. */
  ghost predicate Away(run: seq<Step>, now: int) {
    && (forall k :: 0 <= k < |run| ==> !run[k].Pulled?)
    && (forall k :: 0 <= k < |run| && run[k].Clock? ==> now <= run[k].now)
  }

  /** An expired device stays expired, whatever it writes and however often it flushes, until a pull
      completes: none of its changes is sent. */
  lemma {:induction false} ExpiredStaysSo(d: Device, run: seq<Step>, limit: int)
    requires d.last.At? && d.now > d.last.ms + limit && Away(run, d.now)
    ensures var after := Exec(d, run, limit); after.sent == d.sent && after.last == d.last && after.now >= d.now
  {
    if run != [] {
      ExpiredStaysSo(d, run[..|run| - 1], limit);
    }
  }
}
