/** The hybrid logical clock of the sync engine: creation, ticking, receiving, and
    the structured comparison that orders every stamp in the system. */
module Hlc {

  datatype Hlc = Hlc(ts: nat, counter: nat, node: string)

  /** How far ahead of the wall clock a remote timestamp is believed, in milliseconds. */
  const MAX_DRIFT: nat := 300_000

  function Max(x: int, y: int): int { if x < y then y else x }

  function Min(x: int, y: int): int { if x < y then x else y }

  // ---- Order ---------------------------------------------------------------

  /** The `<` operator on strings. */
  predicate LexLess(a: string, b: string) {
    if b == [] then false
    else if a == [] then true
    else if a[0] != b[0] then a[0] < b[0]
    else LexLess(a[1..], b[1..])
  }

  /** Structured comparison; only the sign of the result matters. */
  function Compare(x: Hlc, y: Hlc): int {
    if x.ts != y.ts then x.ts - y.ts
    else if x.counter != y.counter then x.counter - y.counter
    else if LexLess(x.node, y.node) then -1
    else if LexLess(y.node, x.node) then 1
    else 0
  }

  predicate Less(x: Hlc, y: Hlc) { Compare(x, y) < 0 }

  predicate Leq(x: Hlc, y: Hlc) { !Less(y, x) }

  lemma {:induction false} LexTrichotomy(a: string, b: string)
    ensures !(LexLess(a, b) && LexLess(b, a))
    ensures !LexLess(a, b) && !LexLess(b, a) <==> a == b
  {
    if a != [] && b != [] && a[0] == b[0] {
      LexTrichotomy(a[1..], b[1..]);
      assert a == [a[0]] + a[1..] && b == [b[0]] + b[1..];
    }
  }

  lemma {:induction false} LexTransitive(a: string, b: string, c: string)
    requires LexLess(a, b) && LexLess(b, c)
    ensures LexLess(a, c)
  {
    if a != [] && a[0] == b[0] == c[0] {
      LexTransitive(a[1..], b[1..], c[1..]);
    }
  }

  lemma Trichotomy(x: Hlc, y: Hlc)
    ensures !(Less(x, y) && Less(y, x))
    ensures !Less(x, y) && !Less(y, x) <==> x == y
  {
    LexTrichotomy(x.node, y.node);
  }

  lemma Transitive(x: Hlc, y: Hlc, z: Hlc)
    requires Leq(x, y) && Leq(y, z)
    ensures Leq(x, z)
    ensures Less(x, y) || Less(y, z) ==> Less(x, z)
  {
    LexTrichotomy(x.node, y.node);
    LexTrichotomy(y.node, z.node);
    LexTrichotomy(x.node, z.node);
    if LexLess(x.node, y.node) && LexLess(y.node, z.node) {
      LexTransitive(x.node, y.node, z.node);
    }
  }

  /** Stamps are totally ordered: the laws every proof about merging rests on. */
  lemma TotalOrder()
    ensures forall x: Hlc, y: Hlc {:trigger Less(x, y)} :: Less(x, y) ==> !Less(y, x) && x != y
    ensures forall x: Hlc, y: Hlc {:trigger Less(x, y), Less(y, x)} :: Less(x, y) || Less(y, x) || x == y
    ensures forall x: Hlc, y: Hlc, z: Hlc {:trigger Less(x, y), Less(y, z)} ::
              Less(x, y) && Less(y, z) ==> Less(x, z)
    ensures forall x: Hlc, y: Hlc, z: Hlc {:trigger Less(y, x), Less(y, z)} ::
              !Less(y, x) && Less(y, z) ==> Less(x, z)
    ensures forall x: Hlc, y: Hlc, z: Hlc {:trigger Less(x, y), Less(z, y)} ::
              Less(x, y) && !Less(z, y) ==> Less(x, z)
  {
    forall x: Hlc, y: Hlc ensures Less(x, y) ==> !Less(y, x) && x != y
                          ensures Less(x, y) || Less(y, x) || x == y
    {
      Trichotomy(x, y);
    }
    forall x: Hlc, y: Hlc, z: Hlc ensures Leq(x, y) && Leq(y, z) && (Less(x, y) || Less(y, z)) ==> Less(x, z) {
      if Leq(x, y) && Leq(y, z) { Transitive(x, y, z); }
    }
    forall x: Hlc, y: Hlc, z: Hlc
      ensures Less(x, y) && Less(y, z) ==> Less(x, z)
      ensures !Less(y, x) && Less(y, z) ==> Less(x, z)
      ensures Less(x, y) && !Less(z, y) ==> Less(x, z)
    {
      Trichotomy(x, y);
      Trichotomy(y, z);
    }
  }

  // ---- Clock ---------------------------------------------------------------

  function Create(now: nat, node: string): Hlc { Hlc(now, 0, node) }

  /** Advance the clock for a local event. */
  function Tick(clock: Hlc, now: nat): Hlc {
    if now > clock.ts then Hlc(now, 0, clock.node)
    else Hlc(clock.ts, clock.counter + 1, clock.node)
  }

  /** Advance the clock past a remote stamp, believing it only MAX_DRIFT ahead of `now`. */
  function Receive(clock: Hlc, remote: Hlc, now: nat): Hlc {
    var believed := Min(remote.ts, now + MAX_DRIFT);
    var ts := Max(Max(now, clock.ts), believed);
    var counter :=
      if ts == clock.ts && ts == remote.ts then Max(clock.counter, remote.counter) + 1
      else if ts == clock.ts then clock.counter + 1
      else if ts == believed then remote.counter + 1
      else 0;
    Hlc(ts, counter, clock.node)
  }

  /** Strictly later in (ts, counter), whatever the node ids. */
  predicate Ahead(x: Hlc, y: Hlc) {
    x.ts > y.ts || (x.ts == y.ts && x.counter > y.counter)
  }

  /** The receiver can pass the remote stamp: the exact reach of the drift window. */
  predicate WithinReach(clock: Hlc, remote: Hlc, now: nat) {
    remote.ts <= Max(clock.ts, now + MAX_DRIFT)
  }

  /** A receive moves past the remote stamp exactly when it is within reach. */
  lemma ReceivePassesRemoteIffWithinReach(clock: Hlc, remote: Hlc, now: nat)
    ensures WithinReach(clock, remote, now) <==> remote.ts <= clock.ts || remote.ts <= now + 5 * 60 * 1000
    ensures Ahead(Receive(clock, remote, now), remote) <==> WithinReach(clock, remote, now)
    ensures WithinReach(clock, remote, now) ==> Less(remote, Receive(clock, remote, now))
  {}

  datatype Event = TickAt(now: nat) | ReceiveAt(remote: Hlc, now: nat)

  function Next(clock: Hlc, e: Event): Hlc {
    match e
    case TickAt(now) => Tick(clock, now)
    case ReceiveAt(remote, now) => Receive(clock, remote, now)
  }

  /** The clock after a run of events under an arbitrary, even backward, wall clock. */
  function After(clock: Hlc, run: seq<Event>): Hlc {
    if run == [] then clock else Next(After(clock, run[..|run| - 1]), run[|run| - 1])
  }

  lemma NextIsAhead(clock: Hlc, e: Event)
    ensures Ahead(Next(clock, e), clock) && Less(clock, Next(clock, e)) && Next(clock, e).node == clock.node
  {}

  /** The clock moves no further than it must: no other stamp that is ahead of the clock, not before
      the wall clock and ahead of a remote stamp within reach, comes before the next one. A remote
      stamp out of reach moves it to the end of the drift window, or by one if it is there already. */
  lemma ClockAdvancesLeast(clock: Hlc, e: Event, x: Hlc)
    requires Ahead(x, clock) && x.ts >= e.now
    requires e.ReceiveAt? && WithinReach(clock, e.remote, e.now) ==> Ahead(x, e.remote)
    ensures e.TickAt? || WithinReach(clock, e.remote, e.now) ==> !Ahead(Next(clock, e), x)
    ensures e.ReceiveAt? && !WithinReach(clock, e.remote, e.now) ==>
      Next(clock, e) == if clock.ts >= e.now + MAX_DRIFT then Hlc(clock.ts, clock.counter + 1, clock.node)
                        else Hlc(e.now + MAX_DRIFT, e.remote.counter + 1, clock.node)
  {}

  lemma AfterStep(clock: Hlc, run: seq<Event>, i: nat)
    requires i < |run|
    ensures After(clock, run[..i + 1]) == Next(After(clock, run[..i]), run[i])
  {
    assert run[..i + 1][..i] == run[..i];
  }

  lemma {:induction false} ClockIncreases(clock: Hlc, run: seq<Event>, i: nat, j: nat)
    requires i < j <= |run|
    ensures Ahead(After(clock, run[..j]), After(clock, run[..i]))
    decreases j
  {
    AfterStep(clock, run, j - 1);
    NextIsAhead(After(clock, run[..j - 1]), run[j - 1]);
    if i < j - 1 {
      ClockIncreases(clock, run, i, j - 1);
    }
  }

  lemma {:induction false} ClockIsBounded(clock: Hlc, run: seq<Event>, wall: nat)
    requires forall i :: 0 <= i < |run| ==> run[i].now <= wall
    ensures After(clock, run).ts <= Max(clock.ts, wall + MAX_DRIFT)
    ensures After(clock, run).node == clock.node
  {
    if run != [] {
      ClockIsBounded(clock, run[..|run| - 1], wall);
    }
  }

  /** Clock safety over whole runs: strictly increasing at every step, each receive
      past any reachable remote stamp, and never further ahead of the wall clock than
      the drift window. */
  lemma ClockSafety(clock: Hlc, run: seq<Event>, wall: nat)
    requires forall i :: 0 <= i < |run| ==> run[i].now <= wall
    ensures forall i, j :: 0 <= i < j <= |run| ==> Ahead(After(clock, run[..j]), After(clock, run[..i]))
    ensures forall i :: 0 <= i < |run| && run[i].ReceiveAt?
                        && WithinReach(After(clock, run[..i]), run[i].remote, run[i].now) ==>
              Ahead(After(clock, run[..i + 1]), run[i].remote)
    ensures After(clock, run).ts <= Max(clock.ts, wall + MAX_DRIFT)
    ensures After(clock, run).node == clock.node
  {
    forall i, j | 0 <= i < j <= |run| ensures Ahead(After(clock, run[..j]), After(clock, run[..i])) {
      ClockIncreases(clock, run, i, j);
    }
    forall i | 0 <= i < |run| && run[i].ReceiveAt?
               && WithinReach(After(clock, run[..i]), run[i].remote, run[i].now)
      ensures Ahead(After(clock, run[..i + 1]), run[i].remote)
    {
      AfterStep(clock, run, i);
      ReceivePassesRemoteIffWithinReach(After(clock, run[..i]), run[i].remote, run[i].now);
    }
    ClockIsBounded(clock, run, wall);
  }
}
