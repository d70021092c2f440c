/** Named locks built from a chain of promises: each caller waits for the promise that was the
    tail when it arrived, and leaves its own promise as the new tail. */
module Lock {
  import opened Options

  datatype Phase = Waiting | Running | Done

  /** `after` is the call whose promise this one awaits; none when the tail was absent. A call's
      promise is resolved when the call is done, and is never rejected. */
  datatype Call = Call(name: string, after: Option<nat>, phase: Phase)

  /** Calls are numbered by arrival. */
  datatype Locks = Locks(tails: map<string, nat>, calls: seq<Call>)

  datatype Step =
    | Arrive(name: string)
    | Begin(call: nat)
    | End(call: nat, failed: bool)

  predicate Resolved(s: Locks, after: Option<nat>) {
    after.None? || (after.value < |s.calls| && s.calls[after.value].phase == Done)
  }

  predicate Enabled(s: Locks, step: Step) {
    match step
    case Arrive(_) => true
    case Begin(i) => i < |s.calls| && s.calls[i].phase == Waiting && Resolved(s, s.calls[i].after)
    case End(i, _) => i < |s.calls| && s.calls[i].phase == Running
  }

  function Tail(s: Locks, name: string): Option<nat> { if name in s.tails then Some(s.tails[name]) else None }

  function Arrived(s: Locks, name: string): Locks {
    Locks(s.tails[name := |s.calls|], s.calls + [Call(name, Tail(s, name), Waiting)])
  }

  function Begun(s: Locks, i: nat): Locks
    requires i < |s.calls|
  {
    s.(calls := s.calls[i := s.calls[i].(phase := Running)])
  }

  /** Resolve the call's promise, and drop the tail if it is still this call's. */
  function Ended(s: Locks, i: nat): Locks
    requires i < |s.calls|
  {
    var name := s.calls[i].name;
    Locks(if Tail(s, name) == Some(i) then s.tails - {name} else s.tails,
          s.calls[i := s.calls[i].(phase := Done)])
  }

  function Do(s: Locks, step: Step): Locks {
    if !Enabled(s, step) then s
    else
      match step
      case Arrive(name) => Arrived(s, name)
      case Begin(i) => Begun(s, i)
      case End(i, _) => Ended(s, i)
  }

  function Exec(run: seq<Step>): Locks {
    if run == [] then Locks(map[], []) else Do(Exec(run[..|run| - 1]), run[|run| - 1])
  }

  // ---- Invariant --------------------------------------------------------------------------

  predicate Same(s: Locks, i: nat, j: nat) { i < |s.calls| && j < |s.calls| && s.calls[i].name == s.calls[j].name }

  /** A call waits for the one that arrived just before it under its name; without one to wait
      for, all earlier ones are done. */
  ghost predicate Chained(s: Locks) {
    forall i, j | 0 <= j < i < |s.calls| && Same(s, i, j) ::
      match s.calls[i].after
      case None => s.calls[j].phase == Done
      case Some(k) => k < i && j <= k
  }

  ghost predicate Linked(s: Locks) {
    forall i | 0 <= i < |s.calls| && s.calls[i].after.Some? :: s.calls[i].after.value < i && Same(s, i, s.calls[i].after.value)
  }

  /** A call that has begun comes after calls that are all done. */
  ghost predicate InOrder(s: Locks) {
    forall i, j | 0 <= j < i < |s.calls| && Same(s, i, j) :: s.calls[i].phase != Waiting ==> s.calls[j].phase == Done
  }

  /** The tail is the last call under its name, and is absent only when all calls are done. */
  ghost predicate TailsOk(s: Locks) {
    && (forall n :: n in s.tails ==>
          s.tails[n] < |s.calls| && s.calls[s.tails[n]].name == n && s.calls[s.tails[n]].phase != Done)
    && (forall i :: 0 <= i < |s.calls| ==>
          if s.calls[i].name in s.tails then i <= s.tails[s.calls[i].name] else s.calls[i].phase == Done)
  }

  ghost predicate Inv(s: Locks) { Chained(s) && Linked(s) && InOrder(s) && TailsOk(s) }

  lemma ArriveKeepsChain(s: Locks, name: string)
    requires Chained(s) && Linked(s) && TailsOk(s)
    ensures Chained(Arrived(s, name)) && Linked(Arrived(s, name))
  {
    var t := Arrived(s, name);
    forall x, y | 0 <= y < x < |t.calls| && Same(t, x, y)
      ensures match t.calls[x].after
              case None => t.calls[y].phase == Done
              case Some(k) => k < x && y <= k
    {
      if x < |s.calls| { assert Same(s, x, y); }
    }
    forall x | 0 <= x < |t.calls| && t.calls[x].after.Some?
      ensures t.calls[x].after.value < x && Same(t, x, t.calls[x].after.value)
    {
      if x < |s.calls| { assert Same(s, x, s.calls[x].after.value); }
    }
  }

  lemma ArriveKeepsOrder(s: Locks, name: string)
    requires InOrder(s)
    ensures InOrder(Arrived(s, name))
  {
    var t := Arrived(s, name);
    forall x, y | 0 <= y < x < |t.calls| && Same(t, x, y) && t.calls[x].phase != Waiting
      ensures t.calls[y].phase == Done
    {
      assert Same(s, x, y);
    }
  }

  lemma ArriveKeepsTails(s: Locks, name: string)
    requires TailsOk(s)
    ensures TailsOk(Arrived(s, name))
  {}

  lemma ArriveKeepsInv(s: Locks, name: string)
    requires Inv(s)
    ensures Inv(Arrived(s, name))
  {
    hide Chained, Linked, InOrder, TailsOk;
    ArriveKeepsChain(s, name);
    ArriveKeepsOrder(s, name);
    ArriveKeepsTails(s, name);
  }

  lemma EarlierAreDone(s: Locks, i: nat, j: nat)
    requires Inv(s) && Enabled(s, Begin(i)) && j < i && Same(s, i, j)
    ensures s.calls[j].phase == Done
  {
    match s.calls[i].after {
      case None =>
      case Some(k) =>
        assert Same(s, i, k);
        if j < k { assert Same(s, k, j); }
    }
  }

  /** Moving a call on, towards its end, keeps the chain. */
  ghost predicate Moved(s: Locks, t: Locks, i: nat) {
    && i < |s.calls| && s.calls[i].phase != Done && |t.calls| == |s.calls|
    && t.calls == s.calls[i := t.calls[i]]
    && t.calls[i].name == s.calls[i].name && t.calls[i].after == s.calls[i].after
  }

  lemma MoveKeepsChain(s: Locks, t: Locks, i: nat)
    requires Moved(s, t, i) && Chained(s) && Linked(s)
    ensures Chained(t) && Linked(t)
  {
    forall x, y ensures Same(t, x, y) <==> Same(s, x, y) {}
    forall x, y | 0 <= y < x < |t.calls| && Same(t, x, y)
      ensures match t.calls[x].after
              case None => t.calls[y].phase == Done
              case Some(k) => k < x && y <= k
    {
      assert Same(s, x, y);
    }
  }

  lemma BeginKeepsOrder(s: Locks, i: nat)
    requires Inv(s) && Enabled(s, Begin(i))
    ensures InOrder(Begun(s, i))
  {
    var t := Begun(s, i);
    forall x, y | 0 <= y < x < |t.calls| && Same(t, x, y) && t.calls[x].phase != Waiting
      ensures t.calls[y].phase == Done
    {
      assert Same(s, x, y);
      if x == i { EarlierAreDone(s, i, y); }
    }
  }

  lemma BeginKeepsTails(s: Locks, i: nat)
    requires TailsOk(s) && Enabled(s, Begin(i))
    ensures TailsOk(Begun(s, i))
  {}

  lemma BeginKeepsInv(s: Locks, i: nat)
    requires Inv(s) && Enabled(s, Begin(i))
    ensures Inv(Begun(s, i))
  {
    BeginKeepsOrder(s, i);
    BeginKeepsTails(s, i);
    hide Chained, Linked, InOrder, TailsOk;
    MoveKeepsChain(s, Begun(s, i), i);
  }

  lemma EndKeepsOrder(s: Locks, i: nat)
    requires InOrder(s) && i < |s.calls| && s.calls[i].phase == Running
    ensures InOrder(Ended(s, i))
  {
    var t := Ended(s, i);
    forall x, y | 0 <= y < x < |t.calls| && Same(t, x, y) && t.calls[x].phase != Waiting
      ensures t.calls[y].phase == Done
    {
      assert Same(s, x, y);
    }
  }

  lemma EndKeepsTails(s: Locks, i: nat)
    requires InOrder(s) && TailsOk(s) && i < |s.calls| && s.calls[i].phase == Running
    ensures TailsOk(Ended(s, i))
  {
    var t, n := Ended(s, i), s.calls[i].name;
    forall j | 0 <= j < |t.calls|
      ensures if t.calls[j].name in t.tails then j <= t.tails[t.calls[j].name] else t.calls[j].phase == Done
    {
      if t.calls[j].name == n && j < i { assert Same(s, i, j); }
    }
  }

  lemma EndKeepsInv(s: Locks, i: nat)
    requires Inv(s) && i < |s.calls| && s.calls[i].phase == Running
    ensures Inv(Ended(s, i))
  {
    hide Chained, Linked, InOrder, TailsOk;
    EndKeepsOrder(s, i);
    EndKeepsTails(s, i);
    MoveKeepsChain(s, Ended(s, i), i);
  }

  lemma {:induction false} RunKeepsInv(run: seq<Step>)
    ensures Inv(Exec(run))
  {
    if run != [] {
      var s, step := Exec(run[..|run| - 1]), run[|run| - 1];
      RunKeepsInv(run[..|run| - 1]);
      hide Inv;
      if Enabled(s, step) {
        match step
        case Arrive(name) => ArriveKeepsInv(s, name);
        case Begin(i) => BeginKeepsInv(s, i);
        case End(i, _) => EndKeepsInv(s, i);
      }
    }
  }

  // ---- What the lock promises ------------------------------------------------------------------

  /** At most one section per name runs. */
  lemma MutualExclusion(run: seq<Step>, i: nat, j: nat)
    requires var s := Exec(run);
             Same(s, i, j) && s.calls[i].phase == Running && s.calls[j].phase == Running
    ensures i == j
  {
    RunKeepsInv(run);
    hide Exec;
    var s := Exec(run);
    assert Same(s, i, j) && Same(s, j, i);
  }

  /** Sections run in arrival order: one begins only after every earlier one under its name ended. */
  lemma ArrivalOrder(run: seq<Step>, i: nat)
    requires Enabled(Exec(run), Begin(i))
    ensures var s := Exec(run); forall j :: 0 <= j < i && Same(s, i, j) ==> s.calls[j].phase == Done
  {
    RunKeepsInv(run);
    hide Exec;
    var s := Exec(run);
    forall j | 0 <= j < i && Same(s, i, j) ensures s.calls[j].phase == Done { EarlierAreDone(s, i, j); }
  }

  /** The first call under a name that is not done. */
  ghost predicate Next(s: Locks, name: string, i: nat) {
    && i < |s.calls| && s.calls[i].name == name && s.calls[i].phase != Done
    && forall j :: 0 <= j < i && s.calls[j].name == name ==> s.calls[j].phase == Done
  }

  /** Nobody waits forever for a lock that is free: whatever sections failed on the way, the next
      call in line is running or can begin. */
  lemma NextCanBegin(run: seq<Step>, name: string, i: nat)
    requires Next(Exec(run), name, i)
    ensures Exec(run).calls[i].phase == Running || Enabled(Exec(run), Begin(i))
  {
    RunKeepsInv(run);
    hide Exec;
  }

  /** Ending a section, by returning or by throwing, lets the call behind it begin. */
  lemma EndReleasesNext(run: seq<Step>, i: nat, failed: bool, j: nat)
    requires Enabled(Exec(run), End(i, failed))
    requires j < |Exec(run).calls| && Exec(run).calls[j].phase == Waiting && Exec(run).calls[j].after == Some(i)
    ensures Enabled(Do(Exec(run), End(i, failed)), Begin(j))
  {
    hide Exec;
  }

  /** A name has no tail exactly when nobody holds it and nobody waits for it. */
  lemma TailGoneIffNobodyWaits(run: seq<Step>, name: string)
    ensures var s := Exec(run);
            name !in s.tails <==> forall i :: 0 <= i < |s.calls| && s.calls[i].name == name ==> s.calls[i].phase == Done
  {
    RunKeepsInv(run);
    hide Exec;
    var s := Exec(run);
    if name in s.tails { assert s.calls[s.tails[name]].name == name; }
  }

  // ---- The store's table of tails ---------------------------------------------------------------

  /** `withLock` up to its first await, from there to the section, and its `finally` block. */
  class LockTable {
    var lockTails: map<string, nat>
    var calls: seq<Call>

    constructor ()
      ensures Value() == Exec([])
    {
      lockTails, calls := map[], [];
    }

    function Value(): Locks
      reads this
    {
      Locks(lockTails, calls)
    }

    method Enter(name: string) returns (call: nat)
      modifies this
      ensures call == old(|calls|) && Value() == Do(old(Value()), Arrive(name))
    {
      var previous := if name in lockTails then Some(lockTails[name]) else None;
      call := |calls|;
      calls := calls + [Call(name, previous, Waiting)];
      lockTails := lockTails[name := call];
    }

    method Proceed(call: nat) returns (entered: bool)
      requires call < |calls| && calls[call].phase == Waiting
      modifies `calls
      ensures entered == Enabled(old(Value()), Begin(call)) && Value() == Do(old(Value()), Begin(call))
    {
      entered := calls[call].after.None? || (calls[call].after.value < |calls| && calls[calls[call].after.value].phase == Done);
      if entered {
        calls := calls[call := calls[call].(phase := Running)];
      }
    }

    method Leave(call: nat, failed: bool)
      requires call < |calls| && calls[call].phase == Running
      modifies this
      ensures Value() == Do(old(Value()), End(call, failed))
    {
      var name := calls[call].name;
      calls := calls[call := calls[call].(phase := Done)];
      if name in lockTails && lockTails[name] == call {
        lockTails := lockTails - {name};
      }
    }
  }
}
