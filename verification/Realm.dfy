/** Realm-wide state: several copies of one module agree on a shared store through a property of
    the global object, whatever else happens to that object. */
module Realm {
  import opened Options

  type Key = string

  /** Values as far as this protocol sees them; objects by identity. */
  datatype Value = Undefined | Primitive | Obj(id: nat)

  /** An accessor's getter gives a value or throws. */
  datatype Property =
    | Data(value: Value, writable: bool, enumerable: bool, configurable: bool)
    | Accessor(result: Option<Value>, configurable: bool)

  /** `hardened` is a host whose definitions always throw. */
  datatype Host = Host(properties: map<Key, Property>, extensible: bool, hardened: bool)

  /** Which published values an id's callers can adopt. */
  type Usable = (Key, Value) -> bool

  // ---- The host --------------------------------------------------------------------------------

  /** Reading a property; none when the read throws. */
  function Get(h: Host, k: Key): Option<Value> {
    if k !in h.properties then Some(Undefined)
    else match h.properties[k]
         case Data(v, _, _, _) => Some(v)
         case Accessor(r, _) => r
  }

  function Fixed(store: nat): Property { Data(Obj(store), false, false, false) }

  /** Defining the fixed property; none when the definition throws. These are the rules of
      ValidateAndApplyPropertyDescriptor in section 10.1.6.3 of ECMA-262. */
  function Define(h: Host, k: Key, store: nat): Option<Host> {
    var defined := h.(properties := h.properties[k := Fixed(store)]);
    if h.hardened then None
    else if k !in h.properties then (if h.extensible then Some(defined) else None)
    else
      match h.properties[k]
      case Accessor(_, configurable) => if configurable then Some(defined) else None
      case Data(v, writable, enumerable, configurable) =>
        if configurable || (!enumerable && (writable || v == Obj(store))) then Some(defined) else None
  }

  /** What a read that may throw is taken for. */
  function Reads(h: Host, k: Key): Value { match Get(h, k) case Some(v) => v case None => Undefined }

  // ---- One call ----------------------------------------------------------------------------------

  /** An answer is remembered unless it is undefined: a lookup cannot tell that from no answer. */
  predicate Remembered(answers: map<Key, Value>, k: Key) { k in answers && answers[k] != Undefined }

  /** The answer of a copy without one, and the host afterwards; `made` is what `create` builds. */
  function Resolve(h: Host, k: Key, made: nat, usable: Usable): (Value, Host) {
    var published := Reads(h, k);
    if usable(k, published) then (published, h)
    else
      match Define(h, k, made)
      case None => (Obj(made), h)
      case Some(after) =>
        (match Get(after, k)
         case Some(v) => (if usable(k, v) then v else Obj(made), after)
         case None => (Obj(made), after))
  }

  class HostObject {
    var host: Host
  }

  class Copy {
    var answers: map<Key, Value>

    method SharedGlobalState(realm: HostObject, k: Key, made: nat, usable: Usable) returns (store: Value)
      modifies this, realm
      ensures var first := Resolve(old(realm.host), k, made, usable);
              if Remembered(old(answers), k) then store == old(answers[k]) && answers == old(answers) && realm.host == old(realm.host)
              else store == first.0 && answers == old(answers)[k := first.0] && realm.host == first.1
    {
      if k in answers && answers[k] != Undefined {
        return answers[k];
      }
      var published := Get(realm.host, k);
      if published.Some? && usable(k, published.value) {
        answers := answers[k := published.value];
        return published.value;
      }
      if published.None? && usable(k, Undefined) {
        answers := answers[k := Undefined];
        return Undefined;
      }
      var after := Define(realm.host, k, made);
      if after.Some? {
        realm.host := after.value;
        var installed := Get(realm.host, k);
        if installed.Some? && usable(k, installed.value) {
          answers := answers[k := installed.value];
          return installed.value;
        }
      }
      answers := answers[k := Obj(made)];
      return Obj(made);
    }
  }

  // ---- All interleavings ------------------------------------------------------------------------

  datatype World = World(host: Host, copies: map<nat, map<Key, Value>>)

  datatype Step =
    | Call(copy: nat, key: Key, made: nat)
    | Disturb(host: Host)            // other scripts in the realm

  function AnswersOf(w: World, c: nat): map<Key, Value> { if c in w.copies then w.copies[c] else map[] }

  function Do(w: World, s: Step, usable: Usable): World {
    match s
    case Disturb(h) => w.(host := h)
    case Call(c, k, made) =>
      if Remembered(AnswersOf(w, c), k) then w
      else
        var r := Resolve(w.host, k, made, usable);
        World(r.1, w.copies[c := AnswersOf(w, c)[k := r.0]])
  }

  function Exec(w: World, run: seq<Step>, usable: Usable): World {
    if run == [] then w else Do(Exec(w, run[..|run| - 1], usable), run[|run| - 1], usable)
  }

  // ---- Agreement ---------------------------------------------------------------------------------

  predicate Answered(w: World, c: nat, k: Key) { k in AnswersOf(w, c) }

  /** A property that no script can change. */
  predicate Permanent(h: Host, k: Key) {
    k in h.properties && h.properties[k].Data? && !h.properties[k].writable && !h.properties[k].configurable
  }

  /** The host holds a usable store that no script can replace. */
  ghost predicate Settled(h: Host, k: Key, store: nat, usable: Usable) {
    usable(k, Obj(store)) && Permanent(h, k) && h.properties[k].value == Obj(store)
  }

  /** An absent property that can never be added: the host is not extensible. */
  predicate Barred(h: Host, k: Key) { k !in h.properties && !h.extensible }

  /** What can become of a property, by section 10.1.6.3 of ECMA-262. A configurable one can become
      anything; of the others, data keeps its flags except that a writable one can be fixed, and
      keeps its value too unless it was writable; an accessor stays, and reads as its getter likes. */
  predicate MayBecome(before: Property, after: Property) {
    before.configurable
    || (match (before, after)
        case (Data(v, w, e, _), Data(v', w', e', c')) => !c' && e' == e && (w || (!w' && v' == v))
        case (Accessor(_, _), Accessor(_, c')) => !c'
        case _ => false)
  }

  /** What scripts can do to a host as far as one key is concerned: a property that is not
      configurable stays or changes as it may, and a host that is not extensible stays so and gets no
      new property. */
  ghost predicate Permitted(h: Host, after: Host, k: Key) {
    && (k in h.properties && !h.properties[k].configurable ==>
          k in after.properties && MayBecome(h.properties[k], after.properties[k]))
    && (!h.extensible ==> !after.extensible)
    && (Barred(h, k) ==> k !in after.properties)
  }

  /** A host on which the key reads as `v`, as another script may leave it. */
  function Rewritten(h: Host, k: Key, v: Value): Host {
    var p := if k !in h.properties || h.properties[k].configurable then Data(v, true, true, true)
             else match h.properties[k]
                  case Data(_, w, e, _) => Data(v, w, e, false)
                  case Accessor(_, _) => Accessor(Some(v), false);
    h.(properties := h.properties[k := p])
  }

  /** What a key reads as is safe from every other script exactly when its property is permanent, or
      absent from a host that is not extensible. */
  lemma SafeIffPermanent(h: Host, k: Key)
    ensures (forall after :: Permitted(h, after, k) ==> Get(after, k) == Get(h, k)) <==> Permanent(h, k) || Barred(h, k)
  {
    if !Permanent(h, k) && !Barred(h, k) {
      var other := if Get(h, k) == Some(Primitive) then Undefined else Primitive;
      var after := Rewritten(h, k, other);
      assert Permitted(h, after, k) && Get(after, k) != Get(h, k);
    }
  }

  // ---- Answers over time -----------------------------------------------------------------------

  /** Other scripts keep the rules for the property of the key. */
  ghost predicate PermittedRun(w: World, run: seq<Step>, k: Key, usable: Usable) {
    forall i :: 0 <= i < |run| && run[i].Disturb? ==> Permitted(Exec(w, run[..i], usable).host, run[i].host, k)
  }

  /** The copy's answer is the same after the run. */
  ghost predicate AnswerKept(w: World, run: seq<Step>, c: nat, k: Key, usable: Usable)
    requires Answered(w, c, k)
  {
    Answered(Exec(w, run, usable), c, k) && AnswersOf(Exec(w, run, usable), c)[k] == AnswersOf(w, c)[k]
  }

  /** The key reads as undefined, that is usable, and no script can change it. */
  ghost predicate ForeverUndefined(h: Host, k: Key, usable: Usable) {
    usable(k, Undefined) && Reads(h, k) == Undefined && (Permanent(h, k) || Barred(h, k))
  }

  /** However the realm is disturbed, lawfully or not, an answer other than undefined stays. */
  lemma {:induction false} AnswersNeverChange(w: World, run: seq<Step>, c: nat, k: Key, usable: Usable)
    requires Remembered(AnswersOf(w, c), k)
    ensures AnswerKept(w, run, c, k, usable)
  {
    if run != [] {
      AnswersNeverChange(w, run[..|run| - 1], c, k, usable);
    }
  }

  lemma {:induction false} UndefinedStays(w: World, run: seq<Step>, c: nat, k: Key, usable: Usable)
    requires Answered(w, c, k) && AnswersOf(w, c)[k] == Undefined && ForeverUndefined(w.host, k, usable)
    requires PermittedRun(w, run, k, usable)
    ensures AnswerKept(w, run, c, k, usable) && ForeverUndefined(Exec(w, run, usable).host, k, usable)
  {
    if run != [] {
      var n := |run| - 1;
      var front, s := run[..n], run[n];
      forall i | 0 <= i < |front| && front[i].Disturb? ensures Permitted(Exec(w, front[..i], usable).host, front[i].host, k) {
        assert front[..i] == run[..i] && run[i].Disturb?;
      }
      UndefinedStays(w, front, c, k, usable);
      if s.Call? && s.key != k { OtherPropertyUntouched(Exec(w, front, usable).host, s.key, s.made, k, usable); }
    }
  }

  lemma OneStep(w: World, s: Step, usable: Usable)
    ensures Exec(w, [s], usable) == Do(w, s, usable)
  {
    assert [s][..0] == [];
  }

  lemma TwoSteps(w: World, s: Step, t: Step, usable: Usable)
    ensures [s, t][..0] == [] && [s, t][..1] == [s] && Exec(w, [s, t], usable) == Do(Do(w, s, usable), t, usable)
  {
    OneStep(w, s, usable);
    assert [s, t][..1] == [s];
  }

  /** A call that finds no remembered answer answers with an object, unless undefined is usable. */
  lemma AsksAgain(w: World, c: nat, k: Key, usable: Usable)
    requires Answered(w, c, k) && AnswersOf(w, c)[k] == Undefined && !(Reads(w.host, k) == Undefined && usable(k, Undefined))
    ensures var w' := Do(w, Call(c, k, 0), usable); Answered(w', c, k) && AnswersOf(w', c)[k] != Undefined
  {}

  /** An answer stays the same for every lawful continuation if and only if it is not undefined, or
      the key will read as undefined for good. */
  lemma AnswerFixedIff(w: World, c: nat, k: Key, usable: Usable)
    requires Answered(w, c, k)
    ensures (forall run :: PermittedRun(w, run, k, usable) ==> AnswerKept(w, run, c, k, usable))
       <==> AnswersOf(w, c)[k] != Undefined || ForeverUndefined(w.host, k, usable)
  {
    if AnswersOf(w, c)[k] != Undefined {
      forall run ensures AnswerKept(w, run, c, k, usable) { AnswersNeverChange(w, run, c, k, usable); }
    } else if ForeverUndefined(w.host, k, usable) {
      forall run | PermittedRun(w, run, k, usable) ensures AnswerKept(w, run, c, k, usable) { UndefinedStays(w, run, c, k, usable); }
    } else {
      var run := ChangingRun(w, c, k, usable);
    }
  }

  lemma ChangingRun(w: World, c: nat, k: Key, usable: Usable) returns (run: seq<Step>)
    requires Answered(w, c, k) && AnswersOf(w, c)[k] == Undefined && !ForeverUndefined(w.host, k, usable)
    ensures PermittedRun(w, run, k, usable) && !AnswerKept(w, run, c, k, usable)
  {
    var call := Call(c, k, 0);
    if Reads(w.host, k) == Undefined && usable(k, Undefined) {
      var after := Rewritten(w.host, k, Obj(0));
      run := [Disturb(after), call];
      TwoSteps(w, Disturb(after), call, usable);
      AsksAgain(Do(w, Disturb(after), usable), c, k, usable);
      forall i | 0 <= i < |run| && run[i].Disturb? ensures Permitted(Exec(w, run[..i], usable).host, run[i].host, k) {}
    } else {
      run := [call];
      OneStep(w, call, usable);
      AsksAgain(w, c, k, usable);
    }
  }

  /** A copy whose test accepts undefined answers so on an empty host, and with an object once another
      script has defined the property: against the promise that an answer never changes. */
  lemma UndefinedAnswerChanges(k: Key)
    ensures var usable: Usable := (_: Key, _: Value) => true;
      var empty := Host(map[], true, false); var defined := Host(map[k := Data(Obj(7), true, true, true)], true, false);
      var w := Exec(World(empty, map[]), [Call(0, k, 1)], usable);
      && AnswersOf(w, 0) == map[k := Undefined] && Permitted(w.host, defined, k)
      && AnswersOf(Exec(w, [Disturb(defined), Call(0, k, 2)], usable), 0) == map[k := Obj(7)]
  {
    var usable: Usable := (_: Key, _: Value) => true;
    var empty, defined := Host(map[], true, false), Host(map[k := Data(Obj(7), true, true, true)], true, false);
    OneStep(World(empty, map[]), Call(0, k, 1), usable);
    var w := Exec(World(empty, map[]), [Call(0, k, 1)], usable);
    TwoSteps(w, Disturb(defined), Call(0, k, 2), usable);
    assert map[k := Undefined][k := Obj(7)] == map[k := Obj(7)];
  }

  // ---- A shared store ----------------------------------------------------------------------------

  /** Defining succeeds, on a host that is not hardened, exactly when the property rules allow the
      fixed property: the same rules that bind other scripts. */
  lemma DefinableIff(h: Host, k: Key, store: nat)
    ensures Define(h, k, store).Some? <==> !h.hardened && Permitted(h, h.(properties := h.properties[k := Fixed(store)]), k)
  {}

  /** What was defined is permanent and reads as the store. */
  lemma DefinedIsPermanent(h: Host, k: Key, store: nat)
    requires Define(h, k, store).Some?
    ensures var after := Define(h, k, store).value;
      && Permitted(h, after, k) && Permanent(after, k) && Get(after, k) == Some(Obj(store))
      && forall other :: other != k ==> Get(after, other) == Get(h, other)
  {}

  /** The host lets the property be defined, or already holds a fixed one. */
  ghost predicate Open(h: Host, k: Key, usable: Usable) {
    || (exists store :: Settled(h, k, store, usable))
    || (!usable(k, Reads(h, k)) && forall store :: Define(h, k, store).Some?)
  }

  /** Other scripts obey the property rules. Until the first call for the key, they are taken to
      leave it definable. */
  ghost predicate Lawful(w: World, h: Host, k: Key, usable: Usable) {
    && Permitted(w.host, h, k)
    && ((forall c :: !Answered(w, c, k)) ==> Open(h, k, usable))
  }

  ghost predicate LawfulRun(w: World, run: seq<Step>, k: Key, usable: Usable) {
    forall i :: 0 <= i < |run| && run[i].Disturb? ==> Lawful(Exec(w, run[..i], usable), run[i].host, k, usable)
  }

  /** Objects made by `create` are usable for their own key. */
  ghost predicate MakesUsable(run: seq<Step>, k: Key, usable: Usable) {
    forall i :: 0 <= i < |run| && run[i].Call? && run[i].key == k ==> usable(k, Obj(run[i].made))
  }

  ghost predicate Agreed(w: World, k: Key, usable: Usable) {
    if forall c :: !Answered(w, c, k) then Open(w.host, k, usable)
    else exists store :: Settled(w.host, k, store, usable) && forall c :: Answered(w, c, k) ==> AnswersOf(w, c)[k] == Obj(store)
  }

  lemma ResolveSettles(h: Host, k: Key, made: nat, usable: Usable) returns (store: nat)
    requires Open(h, k, usable) && usable(k, Obj(made))
    ensures var r := Resolve(h, k, made, usable); r.0 == Obj(store) && Settled(r.1, k, store, usable)
  {
    if s :| Settled(h, k, s, usable) {
      store := s;
    } else {
      store := made;
      assert Define(h, k, made).Some?;
    }
  }

  lemma CallOtherKey(w: World, s: Step, k: Key, usable: Usable)
    requires s.Call? && s.key != k && Agreed(w, k, usable)
    ensures Agreed(Do(w, s, usable), k, usable)
  {
    var t := Do(w, s, usable);
    forall c ensures Answered(t, c, k) == Answered(w, c, k) && (Answered(w, c, k) ==> AnswersOf(t, c)[k] == AnswersOf(w, c)[k]) {}
    OtherPropertyUntouched(w.host, s.key, s.made, k, usable);
    if forall c :: !Answered(w, c, k) {
      assert Open(t.host, k, usable);
    } else {
      var store :| Settled(w.host, k, store, usable) && forall c :: Answered(w, c, k) ==> AnswersOf(w, c)[k] == Obj(store);
      assert Settled(t.host, k, store, usable);
    }
  }

  lemma OtherPropertyUntouched(h: Host, other: Key, made: nat, k: Key, usable: Usable)
    requires other != k
    ensures var after := Resolve(h, other, made, usable).1;
            && after.extensible == h.extensible && after.hardened == h.hardened
            && (k in after.properties <==> k in h.properties)
            && (k in h.properties ==> after.properties[k] == h.properties[k])
            && (Open(h, k, usable) ==> Open(after, k, usable))
  {
    var after := Resolve(h, other, made, usable).1;
    assert Get(after, k) == Get(h, k);
    forall store ensures Define(after, k, store).Some? == Define(h, k, store).Some? {}
    if s :| Settled(h, k, s, usable) {
      assert Settled(after, k, s, usable);
    }
  }

  lemma CallThisKey(w: World, s: Step, k: Key, usable: Usable)
    requires s.Call? && s.key == k && usable(k, Obj(s.made)) && Agreed(w, k, usable)
    ensures Agreed(Do(w, s, usable), k, usable)
  {
    var t := Do(w, s, usable);
    if !Answered(w, s.copy, k) {
      if forall c :: !Answered(w, c, k) {
        var store := ResolveSettles(w.host, k, s.made, usable);
        assert Settled(t.host, k, store, usable);
        assert Answered(t, s.copy, k);
        forall c | Answered(t, c, k) ensures AnswersOf(t, c)[k] == Obj(store) {
          assert c != s.copy ==> !Answered(w, c, k);
        }
      } else {
        var store :| Settled(w.host, k, store, usable) && forall c :: Answered(w, c, k) ==> AnswersOf(w, c)[k] == Obj(store);
        assert Settled(t.host, k, store, usable) && Answered(t, s.copy, k);
        forall c | Answered(t, c, k) ensures AnswersOf(t, c)[k] == Obj(store) {
          assert c != s.copy ==> Answered(w, c, k);
        }
      }
    }
  }

  lemma DisturbKeepsAgreed(w: World, h: Host, k: Key, usable: Usable)
    requires Agreed(w, k, usable) && Lawful(w, h, k, usable)
    ensures Agreed(Do(w, Disturb(h), usable), k, usable)
  {
    var t := Do(w, Disturb(h), usable);
    forall c ensures Answered(t, c, k) == Answered(w, c, k) {}
    if !forall c :: !Answered(w, c, k) {
      var store :| Settled(w.host, k, store, usable) && forall c :: Answered(w, c, k) ==> AnswersOf(w, c)[k] == Obj(store);
      assert Settled(t.host, k, store, usable);
    }
  }

  lemma {:induction false} RunKeepsAgreed(h: Host, run: seq<Step>, k: Key, usable: Usable)
    requires Open(h, k, usable) && MakesUsable(run, k, usable) && LawfulRun(World(h, map[]), run, k, usable)
    ensures Agreed(Exec(World(h, map[]), run, usable), k, usable)
  {
    var start := World(h, map[]);
    if run == [] {
      assert forall c :: !Answered(start, c, k);
    } else {
      var n := |run| - 1;
      var front, s := run[..n], run[n];
      forall i | 0 <= i < |front| && front[i].Disturb?
        ensures Lawful(Exec(start, front[..i], usable), front[i].host, k, usable)
      {
        assert front[..i] == run[..i] && run[i].Disturb?;
      }
      RunKeepsAgreed(h, front, k, usable);
      var w := Exec(start, front, usable);
      match s
      case Disturb(g) => DisturbKeepsAgreed(w, g, k, usable);
      case Call(_, key, _) => if key == k { CallThisKey(w, s, k, usable); } else { CallOtherKey(w, s, k, usable); }
    }
  }

  /** On a host that lets the property be defined, all copies hold the same store, whatever the
      order of their calls and whatever lawful scripts do in between. */
  lemma CopiesAgree(h: Host, run: seq<Step>, k: Key, usable: Usable, c: nat, d: nat)
    requires Open(h, k, usable) && MakesUsable(run, k, usable) && LawfulRun(World(h, map[]), run, k, usable)
    requires var w := Exec(World(h, map[]), run, usable); Answered(w, c, k) && Answered(w, d, k)
    ensures var w := Exec(World(h, map[]), run, usable); AnswersOf(w, c)[k] == AnswersOf(w, d)[k]
  {
    RunKeepsAgreed(h, run, k, usable);
  }

  /** An empty, extensible host lets every key be defined. */
  lemma FreshHostIsOpen(k: Key, usable: Usable)
    requires !usable(k, Undefined)
    ensures Open(Host(map[], true, false), k, usable)
  {}

  /** Nothing usable is published under the key and nothing can be defined there. */
  ghost predicate Closed(h: Host, k: Key, usable: Usable) {
    && !usable(k, Reads(h, k))
    && forall store :: Define(h, k, store).None?
  }

  /** Whenever a copy asks for the key, the host is closed to it. */
  ghost predicate ClosedRun(w: World, run: seq<Step>, k: Key, usable: Usable) {
    forall i :: 0 <= i < |run| && run[i].Call? && run[i].key == k ==> Closed(Exec(w, run[..i], usable).host, k, usable)
  }

  /** Each call makes another object. */
  ghost predicate MakesOnce(run: seq<Step>) {
    forall i, j :: 0 <= i < j < |run| && run[i].Call? && run[j].Call? ==> run[i].made != run[j].made
  }

  /** On a frozen or hardened host every copy ends up with a store one of its own calls made. */
  lemma {:induction false} ClosedHostGivesOwnStore(h: Host, run: seq<Step>, k: Key, usable: Usable, c: nat) returns (i: nat)
    requires ClosedRun(World(h, map[]), run, k, usable) && Answered(Exec(World(h, map[]), run, usable), c, k)
    ensures i < |run| && run[i].Call? && run[i].copy == c && run[i].key == k
    ensures AnswersOf(Exec(World(h, map[]), run, usable), c)[k] == Obj(run[i].made)
  {
    var start, n := World(h, map[]), |run| - 1;
    var front, s := run[..n], run[n];
    var w := Exec(start, front, usable);
    if Answered(w, c, k) {
      forall j | 0 <= j < |front| && front[j].Call? && front[j].key == k ensures Closed(Exec(start, front[..j], usable).host, k, usable) {
        assert front[..j] == run[..j] && run[j] == front[j];
      }
      i := ClosedHostGivesOwnStore(h, front, k, usable, c);
    } else {
      assert s.Call? && s.copy == c && s.key == k;
      assert Closed(w.host, k, usable) && Define(w.host, k, s.made).None?;
      i := n;
    }
  }

  /** So on such a host no two copies ever share a store. */
  lemma ClosedHostNeverShares(h: Host, run: seq<Step>, k: Key, usable: Usable, c: nat, d: nat)
    requires ClosedRun(World(h, map[]), run, k, usable) && MakesOnce(run) && c != d
    requires var w := Exec(World(h, map[]), run, usable); Answered(w, c, k) && Answered(w, d, k)
    ensures var w := Exec(World(h, map[]), run, usable); AnswersOf(w, c)[k] != AnswersOf(w, d)[k]
  {
    var i := ClosedHostGivesOwnStore(h, run, k, usable, c);
    var j := ClosedHostGivesOwnStore(h, run, k, usable, d);
    hide Exec;
  }

  /** A usable store that others may still replace is adopted as it is, and copies that ask before
      and after the replacement disagree. */
  lemma SquatterSplitsCopies(k: Key)
    ensures var usable: Usable := (_: Key, v: Value) => v.Obj?;
      var squatted := (id: nat) => Host(map[k := Data(Obj(id), true, false, true)], true, false);
      var w := Exec(World(squatted(1), map[]), [Call(0, k, 7), Disturb(squatted(2)), Call(1, k, 8)], usable);
      AnswersOf(w, 0) == map[k := Obj(1)] && AnswersOf(w, 1) == map[k := Obj(2)]
  {
    var usable: Usable := (_: Key, v: Value) => v.Obj?;
    var squatted := (id: nat) => Host(map[k := Data(Obj(id), true, false, true)], true, false);
    var run := [Call(0, k, 7), Disturb(squatted(2)), Call(1, k, 8)];
    var start := World(squatted(1), map[]);
    assert run[..2] == [Call(0, k, 7), Disturb(squatted(2))] && run[..2][..1] == [Call(0, k, 7)];
    assert Exec(start, run[..2][..1], usable) == Do(start, Call(0, k, 7), usable) by {
      assert run[..2][..1][..0] == [];
    }
    assert Exec(start, run[..2], usable) == Do(Do(start, Call(0, k, 7), usable), Disturb(squatted(2)), usable);
  }
}
