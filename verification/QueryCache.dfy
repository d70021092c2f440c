/** The query cache: answers are cached by descriptor, and the event of every committed change
    starts all cached queries of its table again. Reads, answers and events interleave freely. */
module QueryCache {
  import opened Options
  import opened Merge

  datatype Clause = Clause(field: string, operator: string, operand: Value)
  datatype Order = Order(field: string, ascending: bool)
  datatype Descriptor = Descriptor(table: string, clause: Option<Clause>, order: Option<Order>)

  /** How a table's rows answer a descriptor: any function of those rows. */
  type Evaluation = (seq<Row>, Descriptor) -> seq<Row>

  datatype Phase = Reading | Answered(rows: seq<Row>) | Rejected

  /** Queries are numbered in the order they are started; the number stands for the promise. */
  datatype Query = Query(descriptor: Descriptor, phase: Phase)

  datatype Status = Pending | Ready | Error

  /** `query` is the query the entry belongs to: its promise while pending, its origin afterwards. */
  datatype Entry = Entry(status: Status, rows: Option<seq<Row>>, query: nat)

  datatype Cache = Cache(entries: map<Descriptor, Entry>, index: map<string, seq<Descriptor>>, queries: seq<Query>)

  /** `unannounced` holds the tables of committed changes whose events are still to come. */
  datatype State = State(store: map<string, seq<Row>>, unannounced: multiset<string>, cache: Cache)

  function TableOf(store: map<string, seq<Row>>, table: string): seq<Row> { if table in store then store[table] else [] }

  // ---- Operations ---------------------------------------------------------------------------

  function Indexed(index: map<string, seq<Descriptor>>, d: Descriptor): map<string, seq<Descriptor>> {
    var ds := if d.table in index then index[d.table] else [];
    if d in ds then index else index[d.table := ds + [d]]
  }

  /** Start a query. The entry keeps the rows it had while the new answer is awaited. */
  function Run(c: Cache, d: Descriptor): Cache {
    var rows := if d in c.entries then c.entries[d].rows else None;
    Cache(c.entries[d := Entry(Pending, rows, |c.queries|)], Indexed(c.index, d), c.queries + [Query(d, Reading)])
  }

  function RunAll(c: Cache, ds: seq<Descriptor>): Cache {
    if ds == [] then c
    else
      var n := |ds| - 1;
      var before := RunAll(c, ds[..n]);
      if ds[n] in before.entries then Run(before, ds[n]) else before
  }

  function Invalidate(c: Cache, table: string): Cache { if table in c.index then RunAll(c, c.index[table]) else c }

  /** A caller is given the pending or ready answer if there is one and it does not bypass the cache. */
  predicate Served(c: Cache, d: Descriptor, bypass: bool) {
    !bypass && d in c.entries && (c.entries[d].status == Pending || (c.entries[d].status == Ready && c.entries[d].rows.Some?))
  }

  function Load(c: Cache, d: Descriptor, bypass: bool): Cache { if Served(c, d, bypass) then c else Run(c, d) }

  /** A query's promise settles: it is stored only in an entry that still waits for this very query. */
  function Deliver(c: Cache, q: nat): Cache
    requires q < |c.queries|
  {
    var d := c.queries[q].descriptor;
    if !(d in c.entries && c.entries[d].status == Pending && c.entries[d].query == q) then c
    else
      match c.queries[q].phase
      case Reading => c
      case Answered(rows) => c.(entries := c.entries[d := Entry(Ready, Some(rows), q)])
      case Rejected => c.(entries := c.entries[d := c.entries[d].(status := Error)])
  }

  datatype Step =
    | Commit(table: string, rows: seq<Row>)       // a put, a delete or a pull stores rows of a table
    | Announce(table: string)                     // the event of one committed change
    | Ask(descriptor: Descriptor, bypass: bool)
    | Read(query: nat)                            // the local store answers
    | Fail(query: nat)                            // the local store throws
    | Settle(query: nat)

  predicate Enabled(s: State, step: Step) {
    match step
    case Announce(t) => t in s.unannounced
    case Read(q) => q < |s.cache.queries| && s.cache.queries[q].phase == Reading
    case Fail(q) => q < |s.cache.queries| && s.cache.queries[q].phase == Reading
    case Settle(q) => q < |s.cache.queries|
    case _ => true
  }

  function WithPhase(c: Cache, q: nat, p: Phase): Cache
    requires q < |c.queries|
  {
    c.(queries := c.queries[q := c.queries[q].(phase := p)])
  }

  function Do(s: State, step: Step, eval: Evaluation): State {
    if !Enabled(s, step) then s
    else
      match step
      case Commit(t, rows) => s.(store := s.store[t := rows], unannounced := s.unannounced + multiset{t})
      case Announce(t) => s.(unannounced := s.unannounced - multiset{t}, cache := Invalidate(s.cache, t))
      case Ask(d, bypass) => s.(cache := Load(s.cache, d, bypass))
      case Read(q) =>
        var d := s.cache.queries[q].descriptor;
        s.(cache := WithPhase(s.cache, q, Answered(eval(TableOf(s.store, d.table), d))))
      case Fail(q) => s.(cache := WithPhase(s.cache, q, Rejected))
      case Settle(q) => s.(cache := Deliver(s.cache, q))
  }

  function Start(): State { State(map[], multiset{}, Cache(map[], map[], [])) }

  function Exec(run: seq<Step>, eval: Evaluation): State {
    if run == [] then Start() else Do(Exec(run[..|run| - 1], eval), run[|run| - 1], eval)
  }

  // ---- Invariant ----------------------------------------------------------------------------

  /** Every entry belongs to the newest query of its descriptor. */
  ghost predicate Newest(c: Cache, d: Descriptor) {
    && d in c.entries
    && c.entries[d].query < |c.queries| && c.queries[c.entries[d].query].descriptor == d
    && forall q :: c.entries[d].query < q < |c.queries| ==> c.queries[q].descriptor != d
  }

  ghost predicate Owned(c: Cache) {
    && (forall d :: d in c.entries ==> Newest(c, d))
    && (forall q :: 0 <= q < |c.queries| ==> c.queries[q].descriptor in c.entries)
  }

  /** The index lists every cached descriptor under its table. */
  ghost predicate Complete(c: Cache) {
    && (forall d :: d in c.entries ==> d.table in c.index && d in c.index[d.table])
    && (forall t, d :: t in c.index && d in c.index[t] ==> d.table == t && d in c.entries)
  }

  /** A ready entry holds its query's answer, and an error entry belongs to a query that failed. */
  ghost predicate Honest(c: Cache, d: Descriptor) {
    d in c.entries && Newest(c, d) ==>
      var e, p := c.entries[d], c.queries[c.entries[d].query].phase;
      && (e.status == Ready ==> p.Answered? && e.rows == Some(p.rows))
      && (e.status == Error ==> p.Rejected?)
  }

  ghost predicate Faithful(c: Cache) { forall d :: d in c.entries ==> Honest(c, d) }

  ghost predicate FreshAnswer(s: State, d: Descriptor, eval: Evaluation) {
    d in s.cache.entries && Newest(s.cache, d) ==>
      var p := s.cache.queries[s.cache.entries[d].query].phase;
      p.Answered? && d.table !in s.unannounced ==> p.rows == eval(TableOf(s.store, d.table), d)
  }

  /** The newest query of a descriptor has answered with what a fresh evaluation gives, unless a
      committed change to its table still awaits its event. */
  ghost predicate Fresh(s: State, eval: Evaluation) {
    forall d :: d in s.cache.entries ==> FreshAnswer(s, d, eval)
  }

  ghost predicate CacheOk(c: Cache) { Owned(c) && Complete(c) && Faithful(c) }

  ghost predicate Inv(s: State, eval: Evaluation) { CacheOk(s.cache) && Fresh(s, eval) }

  lemma RunOwned(c: Cache, d: Descriptor)
    requires Owned(c)
    ensures Owned(Run(c, d))
  {
    var t := Run(c, d);
    forall e | e in t.entries ensures Newest(t, e) {
      if e != d { assert Newest(c, e); }
    }
  }

  lemma RunComplete(c: Cache, d: Descriptor)
    requires Complete(c)
    ensures Complete(Run(c, d))
  {}

  lemma RunFaithful(c: Cache, d: Descriptor)
    requires Owned(c) && Faithful(c)
    ensures Faithful(Run(c, d))
  {
    var t := Run(c, d);
    forall e | e in t.entries ensures Honest(t, e) {
      if e != d { assert Newest(c, e) && Honest(c, e); }
    }
  }

  /** Running queries touches nothing but the entries of those queries, which become pending. */
  ghost predicate Reruns(c: Cache, t: Cache, ds: seq<Descriptor>) {
    && c.queries <= t.queries && t.entries.Keys == c.entries.Keys
    && (forall d :: d in c.entries && d !in ds ==> t.entries[d] == c.entries[d])
    && (forall d :: d in c.entries && d in ds ==>
          t.entries[d].status == Pending && t.entries[d].query < |t.queries| && t.queries[t.entries[d].query].phase == Reading)
  }

  lemma RunStep(c: Cache, d: Descriptor)
    requires CacheOk(c)
    ensures CacheOk(Run(c, d))
  {
    RunOwned(c, d);
    RunComplete(c, d);
    RunFaithful(c, d);
  }

  lemma {:induction false} RunAllKeepsCache(c: Cache, ds: seq<Descriptor>)
    requires CacheOk(c)
    ensures CacheOk(RunAll(c, ds))
  {
    hide CacheOk, Run;
    if ds != [] {
      var n := |ds| - 1;
      RunAllKeepsCache(c, ds[..n]);
      RunStep(RunAll(c, ds[..n]), ds[n]);
    }
  }

  lemma RerunsOneMore(c: Cache, t: Cache, ds: seq<Descriptor>, d: Descriptor)
    requires Reruns(c, t, ds) && d in c.entries
    ensures Reruns(c, Run(t, d), ds + [d])
  {
    hide Indexed;
  }

  lemma {:induction false} RunAllReruns(c: Cache, ds: seq<Descriptor>)
    requires forall d :: d in ds ==> d in c.entries
    ensures Reruns(c, RunAll(c, ds), ds)
  {
    if ds != [] {
      var n := |ds| - 1;
      assert ds == ds[..n] + [ds[n]];
      RunAllReruns(c, ds[..n]);
      var mid := RunAll(c, ds[..n]);
      assert ds[n] in mid.entries;
      hide Reruns, Run;
      RerunsOneMore(c, mid, ds[..n], ds[n]);
    }
  }

  lemma RunAllOk(c: Cache, ds: seq<Descriptor>)
    requires CacheOk(c) && forall d :: d in ds ==> d in c.entries
    ensures CacheOk(RunAll(c, ds)) && Reruns(c, RunAll(c, ds), ds)
  {
    hide CacheOk, Reruns, RunAll;
    RunAllKeepsCache(c, ds);
    RunAllReruns(c, ds);
  }

  lemma AnnounceKeepsInv(s: State, table: string, eval: Evaluation)
    requires Inv(s, eval) && table in s.unannounced
    ensures Inv(Do(s, Announce(table), eval), eval)
  {
    var t, c := Do(s, Announce(table), eval), s.cache;
    if table in c.index {
      RunAllOk(c, c.index[table]);
    }
    forall d | d in t.cache.entries ensures FreshAnswer(t, d, eval) {
      assert FreshAnswer(s, d, eval) && Newest(c, d);
    }
  }

  lemma AskKeepsInv(s: State, d: Descriptor, bypass: bool, eval: Evaluation)
    requires Inv(s, eval)
    ensures Inv(Do(s, Ask(d, bypass), eval), eval)
  {
    var t := Do(s, Ask(d, bypass), eval);
    RunStep(s.cache, d);
    forall e | e in t.cache.entries ensures FreshAnswer(t, e, eval) {
      if e != d || Served(s.cache, d, bypass) { assert FreshAnswer(s, e, eval) && Newest(s.cache, e); }
    }
  }

  lemma CommitKeepsInv(s: State, table: string, rows: seq<Row>, eval: Evaluation)
    requires Inv(s, eval)
    ensures Inv(Do(s, Commit(table, rows), eval), eval)
  {
    var t := Do(s, Commit(table, rows), eval);
    forall d | d in t.cache.entries ensures FreshAnswer(t, d, eval) {
      assert FreshAnswer(s, d, eval);
    }
  }

  /** A query that was reading has answered or failed; nothing else changed. */
  lemma PhaseKeepsCache(c: Cache, q: nat, p: Phase)
    requires CacheOk(c) && q < |c.queries| && c.queries[q].phase == Reading
    ensures CacheOk(WithPhase(c, q, p))
    ensures forall d :: Newest(WithPhase(c, q, p), d) <==> Newest(c, d)
  {
    var t := WithPhase(c, q, p);
    forall d ensures Newest(t, d) <==> Newest(c, d) {}
    forall d | d in t.entries ensures Honest(t, d) { assert Honest(c, d); }
  }

  lemma ReadKeepsInv(s: State, step: Step, eval: Evaluation)
    requires Inv(s, eval) && (step.Read? || step.Fail?) && Enabled(s, step)
    ensures Inv(Do(s, step, eval), eval)
  {
    var t, q := Do(s, step, eval), step.query;
    PhaseKeepsCache(s.cache, q, t.cache.queries[q].phase);
    forall d | d in t.cache.entries ensures FreshAnswer(t, d, eval) {
      assert FreshAnswer(s, d, eval) && Newest(s.cache, d);
    }
  }

  lemma DeliverKeepsNewest(c: Cache, q: nat, d: Descriptor)
    requires q < |c.queries|
    ensures Newest(Deliver(c, q), d) <==> Newest(c, d)
    ensures Deliver(c, q).queries == c.queries && Deliver(c, q).index == c.index
    ensures Deliver(c, q).entries.Keys == c.entries.Keys
    ensures d in c.entries ==> Deliver(c, q).entries[d].query == c.entries[d].query
  {}

  lemma DeliverIsFaithful(c: Cache, q: nat)
    requires q < |c.queries| && Owned(c) && Faithful(c)
    ensures Faithful(Deliver(c, q))
  {
    var t := Deliver(c, q);
    forall d | d in t.entries ensures Honest(t, d) {
      DeliverKeepsNewest(c, q, d);
      assert Honest(c, d);
    }
  }

  lemma DeliverKeepsCache(c: Cache, q: nat)
    requires CacheOk(c) && q < |c.queries|
    ensures CacheOk(Deliver(c, q))
  {
    DeliverIsFaithful(c, q);
    hide Faithful, Newest, Deliver;
    forall d ensures Newest(Deliver(c, q), d) <==> Newest(c, d) { DeliverKeepsNewest(c, q, d); }
    DeliverKeepsNewest(c, q, Descriptor("", None, None));
  }

  lemma SettleKeepsInv(s: State, q: nat, eval: Evaluation)
    requires Inv(s, eval) && q < |s.cache.queries|
    ensures Inv(Do(s, Settle(q), eval), eval)
  {
    var t := Do(s, Settle(q), eval);
    DeliverKeepsCache(s.cache, q);
    hide CacheOk, Deliver, Newest;
    forall d | d in t.cache.entries ensures FreshAnswer(t, d, eval) {
      DeliverKeepsNewest(s.cache, q, d);
      assert FreshAnswer(s, d, eval);
    }
  }

  lemma {:induction false} RunKeepsInv(run: seq<Step>, eval: Evaluation)
    ensures Inv(Exec(run, eval), eval)
  {
    if run != [] {
      var s, step := Exec(run[..|run| - 1], eval), run[|run| - 1];
      RunKeepsInv(run[..|run| - 1], eval);
      hide Inv;
      if Enabled(s, step) {
        match step
        case Commit(t, rows) => CommitKeepsInv(s, t, rows, eval);
        case Announce(t) => AnnounceKeepsInv(s, t, eval);
        case Ask(d, bypass) => AskKeepsInv(s, d, bypass, eval);
        case Read(_) => ReadKeepsInv(s, step, eval);
        case Fail(_) => ReadKeepsInv(s, step, eval);
        case Settle(q) => SettleKeepsInv(s, q, eval);
      }
    }
  }

  // ---- What the cache promises -----------------------------------------------------------------

  /** Whatever interleaving of commits, events, reads and completions led here: a ready entry holds
      exactly what a fresh evaluation would, unless a committed change still awaits its event. */
  lemma ReadyRowsAreFresh(run: seq<Step>, d: Descriptor, eval: Evaluation)
    requires var s := Exec(run, eval);
             d in s.cache.entries && s.cache.entries[d].status == Ready && d.table !in s.unannounced
    ensures var s := Exec(run, eval); s.cache.entries[d].rows == Some(eval(TableOf(s.store, d.table), d))
  {
    RunKeepsInv(run, eval);
    hide Exec;
    assert FreshAnswer(Exec(run, eval), d, eval);
  }

  /** No later query asks for the same descriptor. */
  ghost predicate NewestQuery(c: Cache, q: nat) {
    q < |c.queries| && forall r :: q < r < |c.queries| ==> c.queries[r].descriptor != c.queries[q].descriptor
  }

  /** Answers arrive: over every run, once the newest query of a descriptor has settled, its entry is
      ready with exactly that answer if the query was answered, and an error that keeps the rows it
      had if the query failed. */
  lemma NewestQuerySettles(run: seq<Step>, q: nat, eval: Evaluation)
    requires NewestQuery(Exec(run, eval).cache, q)
    ensures var s := Exec(run, eval); var d := s.cache.queries[q].descriptor; var t := Do(s, Settle(q), eval);
      && d in s.cache.entries && d in t.cache.entries && t.store == s.store
      && match s.cache.queries[q].phase
         case Reading => t == s && s.cache.entries[d].status == Pending
         case Answered(rows) => t.cache.entries[d] == Entry(Ready, Some(rows), q)
         case Rejected => t.cache.entries[d] == Entry(Error, s.cache.entries[d].rows, q)
  {
    RunKeepsInv(run, eval);
    hide Exec;
    var c := Exec(run, eval).cache;
    var d := c.queries[q].descriptor;
    assert Newest(c, d) && Honest(c, d);
  }

  /** Over every run, asking starts a query if and only if the caller bypasses the cache, nothing is
      cached, or the last query failed; otherwise nothing changes. */
  lemma AskStartsQueryIff(run: seq<Step>, d: Descriptor, bypass: bool, eval: Evaluation)
    ensures var s := Exec(run, eval); var t := Do(s, Ask(d, bypass), eval);
      && (|t.cache.queries| == |s.cache.queries| + 1 <==>
            bypass || d !in s.cache.entries || s.cache.entries[d].status == Error)
      && (t == s || (d in t.cache.entries && t.cache.entries[d].status == Pending
                     && t.cache.entries[d].query == |s.cache.queries| && t.cache.queries == s.cache.queries + [Query(d, Reading)]))
  {
    RunKeepsInv(run, eval);
    hide Exec;
    var c := Exec(run, eval).cache;
    if d in c.entries { assert Newest(c, d) && Honest(c, d); }
  }

  /** Rows stay visible: a step changes what an entry shows only by settling its own query with an
      answer. */
  lemma RowsStayUntilAnswered(s: State, step: Step, d: Descriptor, eval: Evaluation)
    requires d in s.cache.entries
    ensures var t := Do(s, step, eval);
      && d in t.cache.entries
      && (t.cache.entries[d].rows == s.cache.entries[d].rows
          || (step.Settle? && step.query < |s.cache.queries| && s.cache.entries[d].query == step.query
              && s.cache.queries[step.query].phase.Answered? && t.cache.entries[d].rows == Some(s.cache.queries[step.query].phase.rows)))
  {
    if step.Announce? && step.table in s.cache.index { RunAllKeepsRows(s.cache, s.cache.index[step.table], d); }
  }

  lemma {:induction false} RunAllKeepsRows(c: Cache, ds: seq<Descriptor>, d: Descriptor)
    requires d in c.entries
    ensures d in RunAll(c, ds).entries && RunAll(c, ds).entries[d].rows == c.entries[d].rows
  {
    hide Indexed;
    if ds != [] { RunAllKeepsRows(c, ds[..|ds| - 1], d); }
  }

  /** Nothing is committed to the table. */
  ghost predicate NoCommits(run: seq<Step>, table: string) {
    forall i :: 0 <= i < |run| ==> !(run[i].Commit? && run[i].table == table)
  }

  lemma {:induction false} AnswerStays(front: seq<Step>, mid: seq<Step>, q: nat, eval: Evaluation)
    requires q < |Exec(front, eval).cache.queries| && Exec(front, eval).cache.queries[q].phase.Answered?
    requires NoCommits(mid, Exec(front, eval).cache.queries[q].descriptor.table)
    ensures var s, t := Exec(front, eval), Exec(front + mid, eval); var table := s.cache.queries[q].descriptor.table;
      q < |t.cache.queries| && t.cache.queries[q] == s.cache.queries[q] && TableOf(t.store, table) == TableOf(s.store, table)
    decreases |mid|
  {
    if mid == [] {
      assert front + mid == front;
    } else {
      var n := |mid| - 1;
      AnswerStays(front, mid[..n], q, eval);
      assert (front + mid)[..|front| + n] == front + mid[..n] && (front + mid)[|front| + n] == mid[n];
      var s, step := Exec(front + mid[..n], eval), mid[n];
      assert Exec(front + mid, eval) == Do(s, step, eval);
      hide Exec;
      QueriesStay(s, step, q, eval);
    }
  }

  /** A query that has been answered is not touched again, and only commits change a table. */
  lemma QueriesStay(s: State, step: Step, q: nat, eval: Evaluation)
    requires q < |s.cache.queries| && s.cache.queries[q].phase.Answered?
    ensures var t := Do(s, step, eval); q < |t.cache.queries| && t.cache.queries[q] == s.cache.queries[q]
    ensures forall table :: !(step.Commit? && step.table == table) ==> TableOf(Do(s, step, eval).store, table) == TableOf(s.store, table)
  {
    if Enabled(s, step) {
      match step
      case Announce(table) => if table in s.cache.index { RunAllExtends(s.cache, s.cache.index[table]); }
      case Settle(p) => DeliverKeepsNewest(s.cache, p, s.cache.queries[q].descriptor);
      case _ =>
    }
  }

  lemma {:induction false} RunAllExtends(c: Cache, ds: seq<Descriptor>)
    ensures c.queries <= RunAll(c, ds).queries
  {
    if ds != [] { RunAllExtends(c, ds[..|ds| - 1]); }
  }

  /** A whole query: read, then anything but a commit to its table, then settled as the newest of its
      descriptor. The entry is then ready and equals a fresh evaluation, whatever events are due. */
  lemma SettledQueryIsFresh(front: seq<Step>, mid: seq<Step>, q: nat, eval: Evaluation)
    requires Enabled(Exec(front, eval), Read(q)) && NoCommits(mid, Exec(front, eval).cache.queries[q].descriptor.table)
    requires NewestQuery(Exec(front + [Read(q)] + mid, eval).cache, q)
    ensures var t := Exec(front + [Read(q)] + mid + [Settle(q)], eval); var d := Exec(front, eval).cache.queries[q].descriptor;
      d in t.cache.entries && t.cache.entries[d] == Entry(Ready, Some(eval(TableOf(t.store, d.table), d)), q)
  {
    var s := Exec(front, eval);
    ExecSnoc(front, Read(q), eval);
    AnswerStays(front + [Read(q)], mid, q, eval);
    NewestQuerySettles(front + [Read(q)] + mid, q, eval);
    ExecSnoc(front + [Read(q)] + mid, Settle(q), eval);
  }

  lemma ExecSnoc(run: seq<Step>, step: Step, eval: Evaluation)
    ensures Exec(run + [step], eval) == Do(Exec(run, eval), step, eval)
  {
    assert (run + [step])[..|run|] == run;
  }

  /** An older query never overwrites a newer one: once another query of the same descriptor has
      been started, a completion changes nothing. */
  lemma OlderNeverOverwrites(run: seq<Step>, older: nat, newer: nat, eval: Evaluation)
    requires var c := Exec(run, eval).cache;
             older < newer < |c.queries| && c.queries[older].descriptor == c.queries[newer].descriptor
    ensures var s := Exec(run, eval); Do(s, Settle(older), eval) == s
  {
    RunKeepsInv(run, eval);
    hide Exec;
    var c := Exec(run, eval).cache;
    assert Newest(c, c.queries[older].descriptor);
  }

  /** After the event of a change, no cached query of its table is ready: each is being asked again. */
  lemma EventRestartsQueries(run: seq<Step>, table: string, d: Descriptor, eval: Evaluation)
    requires var s := Exec(run, eval); table in s.unannounced && d in s.cache.entries && d.table == table
    ensures var t := Do(Exec(run, eval), Announce(table), eval).cache;
            d in t.entries && t.entries[d].status == Pending && |Exec(run, eval).cache.queries| <= t.entries[d].query
  {
    RunKeepsInv(run, eval);
    hide Exec;
    var s := Exec(run, eval);
    var t := Do(s, Announce(table), eval);
    RunAllOk(s.cache, s.cache.index[table]);
    assert Newest(t.cache, d) && Newest(s.cache, d);
    StartedAnew(s.cache, s.cache.index[table], d);
  }

  lemma {:induction false} StartedAnew(c: Cache, ds: seq<Descriptor>, d: Descriptor)
    requires CacheOk(c) && d in ds && forall e :: e in ds ==> e in c.entries
    ensures d in RunAll(c, ds).entries && |c.queries| <= RunAll(c, ds).entries[d].query
  {
    hide CacheOk, Indexed;
    var n := |ds| - 1;
    var front := ds[..n];
    assert ds == front + [ds[n]];
    RunAllOk(c, front);
    var mid := RunAll(c, front);
    if ds[n] != d {
      StartedAnew(c, front, d);
      assert RunAll(c, ds).entries[d] == mid.entries[d];
    } else {
      assert RunAll(c, ds).entries[d].query == |mid.queries|;
    }
  }

  // ---- The engine's fields -------------------------------------------------------------------------

  class QueryTable {
    var queryCache: map<Descriptor, Entry>
    var queryCacheByTable: map<string, seq<Descriptor>>
    var queries: seq<Query>

    constructor ()
      ensures Value() == Start().cache
    {
      queryCache, queryCacheByTable, queries := map[], map[], [];
    }

    function Value(): Cache
      reads this
    {
      Cache(queryCache, queryCacheByTable, queries)
    }

    method RunQuery(d: Descriptor) returns (promise: nat)
      modifies this
      ensures Value() == Run(old(Value()), d) && promise == old(|queries|)
    {
      promise := |queries|;
      queries := queries + [Query(d, Reading)];
      var rows := if d in queryCache then queryCache[d].rows else None;
      queryCache := queryCache[d := Entry(Pending, rows, promise)];
      if d.table !in queryCacheByTable {
        queryCacheByTable := queryCacheByTable[d.table := []];
      }
      if d !in queryCacheByTable[d.table] {
        queryCacheByTable := queryCacheByTable[d.table := queryCacheByTable[d.table] + [d]];
      }
    }

    method LoadQueryRows(d: Descriptor, bypass: bool) returns (promise: nat)
      modifies this
      ensures Value() == Load(old(Value()), d, bypass)
      ensures promise == if Served(old(Value()), d, bypass) then old(queryCache[d].query) else old(|queries|)
      ensures d in queryCache && queryCache[d].query == promise && queryCache[d].status in {Pending, Ready}
    {
      if !bypass && d in queryCache {
        var entry := queryCache[d];
        if entry.status == Pending || (entry.status == Ready && entry.rows.Some?) {
          return entry.query;
        }
      }
      promise := RunQuery(d);
    }

    method InvalidateTable(table: string)
      modifies this
      ensures Value() == Invalidate(old(Value()), table)
    {
      if table !in queryCacheByTable {
        return;
      }
      var ds := queryCacheByTable[table];
      for i := 0 to |ds|
        invariant Value() == RunAll(old(Value()), ds[..i])
      {
        assert ds[..i + 1][..i] == ds[..i];
        if ds[i] in queryCache {
          var _ := RunQuery(ds[i]);
        }
      }
      assert ds[..|ds|] == ds;
    }
  }
}
