/** One reconcile against a store nobody else writes meanwhile, with any of its calls failing: what
    it leaves behind, and that complete reconciles converge. */
module Convergence {
  import opened Values
  import opened Objects

  type Store = map<Key, Obj>

  /** A failed get or write has no effect; a lost reply hides a write that took effect. */
  datatype Fault = NoFault | GetFails | WriteFails | ReplyLost

  datatype Applied = Applied(store: Store, ok: bool)

  function Live(store: Store, key: Key): Option<Obj>
  {
    if key in store then Some(store[key]) else None
  }

  /** The object that CreateOrUpdate leaves stored, unless the mutate step rejects it. */
  function Settled(server: Server, owner: Owner, live: Option<Obj>, desired: Obj): Option<Obj>
  {
    match Mutate(owner, if live.Some? then live.value else desired, desired)
    case Rejected(_) => None
    case Mutated(target) => Some(if live == Some(target) then target else Admit(server, target))
  }

  /** The object needs no write. */
  predicate AsDesired(owner: Owner, live: Option<Obj>, desired: Obj)
  {
    live.Some? && Mutate(owner, live.value, desired) == Mutated(live.value)
  }

  function ApplyChild(server: Server, owner: Owner, store: Store, desired: Obj, fault: Fault): Applied
  {
    var live := Live(store, desired.key);
    var settled := Settled(server, owner, live, desired);
    if fault.GetFails? || settled.None? then Applied(store, false)
    else if AsDesired(owner, live, desired) then Applied(store, true)
    else if fault.WriteFails? then Applied(store, false)
    else Applied(store[desired.key := settled.value], fault.NoFault?)
  }

  /** The apply loop: stops at the first failure. `finished` children are done. */
  datatype Progress = Progress(store: Store, finished: nat)

  function ApplyChildren(server: Server, owner: Owner, store: Store, objs: seq<Obj>, faults: seq<Fault>): Progress
    requires |faults| == |objs|
    decreases |objs|
  {
    if objs == [] then Progress(store, 0)
    else
      var first := ApplyChild(server, owner, store, objs[0], faults[0]);
      if !first.ok then Progress(first.store, 0)
      else
        var rest := ApplyChildren(server, owner, first.store, objs[1..], faults[1..]);
        Progress(rest.store, rest.finished + 1)
  }

  /** Applying the object to what is live under its key fails. */
  predicate Fails(server: Server, owner: Owner, live: Option<Obj>, desired: Obj, fault: Fault)
  {
    || fault.GetFails?
    || Settled(server, owner, live, desired).None?
    || (!fault.NoFault? && !AsDesired(owner, live, desired))
  }

  ghost predicate DistinctKeys(objs: seq<Obj>)
  {
    forall i, j :: 0 <= i < j < |objs| ==> objs[i].key != objs[j].key
  }

  lemma {:induction false} FinishedBound(server: Server, owner: Owner, store: Store, objs: seq<Obj>, faults: seq<Fault>)
    requires |faults| == |objs|
    ensures ApplyChildren(server, owner, store, objs, faults).finished <= |objs|
    decreases |objs|
  {
    if objs != [] {
      FinishedBound(server, owner, ApplyChild(server, owner, store, objs[0], faults[0]).store, objs[1..], faults[1..]);
    }
  }

  /** A key that no child up to and including the failing one has is untouched. */
  lemma {:induction false} OthersUntouched(
      server: Server, owner: Owner, store: Store, objs: seq<Obj>, faults: seq<Fault>, key: Key)
    requires |faults| == |objs|
    requires var p := ApplyChildren(server, owner, store, objs, faults);
             forall i :: 0 <= i <= p.finished && i < |objs| ==> objs[i].key != key
    ensures Live(ApplyChildren(server, owner, store, objs, faults).store, key) == Live(store, key)
    decreases |objs|
  {
    if objs != [] {
      assert objs[0].key != key;
      var first := ApplyChild(server, owner, store, objs[0], faults[0]);
      if first.ok {
        var q := ApplyChildren(server, owner, first.store, objs[1..], faults[1..]);
        forall i | 0 <= i <= q.finished && i < |objs[1..]| ensures objs[1..][i].key != key {
          assert objs[1..][i] == objs[i + 1];
        }
        OthersUntouched(server, owner, first.store, objs[1..], faults[1..], key);
      }
    }
  }

  /** A finished child did not fail and is settled, from what was live when the loop began. */
  lemma {:induction false} FinishedSettled(
      server: Server, owner: Owner, store: Store, objs: seq<Obj>, faults: seq<Fault>, i: nat)
    requires |faults| == |objs| && DistinctKeys(objs)
    requires i < ApplyChildren(server, owner, store, objs, faults).finished && i < |objs|
    ensures var p := ApplyChildren(server, owner, store, objs, faults);
            && !Fails(server, owner, Live(store, objs[i].key), objs[i], faults[i])
            && Live(p.store, objs[i].key) == Settled(server, owner, Live(store, objs[i].key), objs[i])
    decreases |objs|
  {
    var first := ApplyChild(server, owner, store, objs[0], faults[0]);
    if i == 0 {
      OthersUntouched(server, owner, first.store, objs[1..], faults[1..], objs[0].key);
    } else {
      FinishedSettled(server, owner, first.store, objs[1..], faults[1..], i - 1);
      assert Live(first.store, objs[i].key) == Live(store, objs[i].key);
    }
  }

  /** The loop stops at the first child that fails. That child is untouched, or settled when only the
      reply was lost. */
  lemma {:induction false} StopsAtFailure(
      server: Server, owner: Owner, store: Store, objs: seq<Obj>, faults: seq<Fault>)
    requires |faults| == |objs| && DistinctKeys(objs)
    requires ApplyChildren(server, owner, store, objs, faults).finished < |objs|
    ensures var p := ApplyChildren(server, owner, store, objs, faults);
            var d, fault := objs[p.finished], faults[p.finished];
            var settled := Settled(server, owner, Live(store, d.key), d);
            && Fails(server, owner, Live(store, d.key), d, fault)
            && Live(p.store, d.key) == if fault.ReplyLost? && settled.Some? then settled else Live(store, d.key)
    decreases |objs|
  {
    var first := ApplyChild(server, owner, store, objs[0], faults[0]);
    if first.ok {
      var k := ApplyChildren(server, owner, store, objs, faults).finished;
      StopsAtFailure(server, owner, first.store, objs[1..], faults[1..]);
      assert Live(first.store, objs[k].key) == Live(store, objs[k].key);
    }
  }

  // Convergence

  /** Any order of a rendering that names no key twice. */
  ghost predicate UniqueKeys(objs: multiset<Obj>)
  {
    && (forall d :: d in objs ==> objs[d] == 1)
    && (forall d, e :: d in objs && e in objs && d.key == e.key ==> d == e)
  }

  lemma Twice(s: seq<Obj>, i: nat, j: nat)
    requires i < j < |s| && s[i] == s[j]
    ensures multiset(s)[s[i]] >= 2
  {
    assert s == s[..j] + s[j..];
    assert s[i] in s[..j] && s[j] in s[j..];
  }

  lemma OrderHasDistinctKeys(order: seq<Obj>)
    requires UniqueKeys(multiset(order))
    ensures DistinctKeys(order)
  {
    forall i, j | 0 <= i < j < |order| ensures order[i].key != order[j].key {
      assert order[i] in multiset(order) && order[j] in multiset(order);
      if order[i] == order[j] { Twice(order, i, j); }
    }
  }

  lemma DistinctIsUnique(order: seq<Obj>)
    requires DistinctKeys(order)
    ensures UniqueKeys(multiset(order))
  {
    forall d | d in multiset(order) ensures multiset(order)[d] == 1 {
      var i :| 0 <= i < |order| && order[i] == d;
      assert order == order[..i] + ([d] + order[i + 1..]);
      assert d !in order[..i] && d !in order[i + 1..];
    }
  }

  ghost predicate Names(objs: multiset<Obj>, key: Key)
  {
    exists d :: d in objs && d.key == key
  }

  ghost function Named(objs: multiset<Obj>, key: Key): (d: Obj)
    requires Names(objs, key)
    ensures d in objs && d.key == key
  {
    var d :| d in objs && d.key == key; d
  }

  /** What the store holds under a key after a complete run, in whatever order it went. */
  ghost function Final(server: Server, owner: Owner, live: Option<Obj>, objs: multiset<Obj>, key: Key): Option<Obj>
  {
    if Names(objs, key) then Settled(server, owner, live, Named(objs, key)) else live
  }

  function NoFaults(n: nat): seq<Fault>
  {
    seq(n, _ => NoFault)
  }

  function Complete(server: Server, owner: Owner, store: Store, order: seq<Obj>): Progress
  {
    ApplyChildren(server, owner, store, order, NoFaults(|order|))
  }

  /** Every rendered object is of a supported kind and controlled by nobody else. */
  ghost predicate Clear(server: Server, owner: Owner, store: Store, objs: multiset<Obj>)
  {
    forall d :: d in objs ==> Settled(server, owner, Live(store, d.key), d).Some?
  }

  /** Without faults the loop completes if and only if nothing is in the way. */
  lemma CompletesIff(server: Server, owner: Owner, store: Store, order: seq<Obj>)
    requires UniqueKeys(multiset(order))
    ensures Complete(server, owner, store, order).finished == |order| <==> Clear(server, owner, store, multiset(order))
  {
    OrderHasDistinctKeys(order);
    var faults := NoFaults(|order|);
    var p := Complete(server, owner, store, order);
    FinishedBound(server, owner, store, order, faults);
    if p.finished < |order| {
      StopsAtFailure(server, owner, store, order, faults);
      assert order[p.finished] in multiset(order);
    } else {
      forall d | d in multiset(order) ensures Settled(server, owner, Live(store, d.key), d).Some? {
        var i :| 0 <= i < |order| && order[i] == d;
        FinishedSettled(server, owner, store, order, faults, i);
      }
    }
  }

  /** Any run leaves each key as it was or as a complete run would. */
  lemma RunEffect(server: Server, owner: Owner, store: Store, order: seq<Obj>, faults: seq<Fault>, key: Key)
    requires |faults| == |order| && UniqueKeys(multiset(order))
    ensures var p := ApplyChildren(server, owner, store, order, faults);
            var live := Live(store, key);
            && (Live(p.store, key) == live || Live(p.store, key) == Final(server, owner, live, multiset(order), key))
            && (p.finished == |order| ==> Live(p.store, key) == Final(server, owner, live, multiset(order), key))
  {
    OrderHasDistinctKeys(order);
    FinishedBound(server, owner, store, order, faults);
    var p := ApplyChildren(server, owner, store, order, faults);
    if Names(multiset(order), key) {
      var d := Named(multiset(order), key);
      var i :| 0 <= i < |order| && order[i] == d;
      if i < p.finished {
        FinishedSettled(server, owner, store, order, faults, i);
      } else if i == p.finished {
        StopsAtFailure(server, owner, store, order, faults);
      } else {
        OthersUntouched(server, owner, store, order, faults, key);
      }
    } else {
      forall i | 0 <= i < |order| ensures order[i].key != key {
        assert order[i] in multiset(order);
      }
      OthersUntouched(server, owner, store, order, faults, key);
    }
  }

  lemma SettledTwice(server: Server, owner: Owner, live: Option<Obj>, desired: Obj)
    requires ValidServer(server)
    requires live.Some? ==> live.value.key == desired.key
    requires Settled(server, owner, live, desired).Some?
    ensures Settled(server, owner, Settled(server, owner, live, desired), desired) ==
            Settled(server, owner, live, desired)
    ensures Settled(server, owner, live, desired).value.key == desired.key
  {
    MutateAdmitIdempotent(server, owner, if live.Some? then live.value else desired, desired);
  }

  /** A reconcile that may have stopped anywhere: some order of the children, some faults. */
  datatype Attempt = Attempt(order: seq<Obj>, faults: seq<Fault>)

  ghost predicate AttemptsOf(objs: multiset<Obj>, attempts: seq<Attempt>)
  {
    forall a :: a in attempts ==> multiset(a.order) == objs && |a.faults| == |a.order|
  }

  ghost function AfterAttempts(
      server: Server, owner: Owner, store: Store, objs: multiset<Obj>, attempts: seq<Attempt>): Store
    requires AttemptsOf(objs, attempts)
    decreases |attempts|
  {
    if attempts == [] then store
    else
      var a := attempts[0];
      AfterAttempts(server, owner, ApplyChildren(server, owner, store, a.order, a.faults).store, objs, attempts[1..])
  }

  ghost predicate StoredUnderKeys(server: Server, store: Store)
  {
    forall key :: key in store ==> Stored(server, key, store[key])
  }

  /** After any number of attempts, each key is as it was or final. */
  lemma {:induction false} AttemptsEffect(
      server: Server, owner: Owner, store: Store, objs: multiset<Obj>, attempts: seq<Attempt>, key: Key)
    requires ValidServer(server) && UniqueKeys(objs) && AttemptsOf(objs, attempts)
    requires Live(store, key).Some? ==> Live(store, key).value.key == key
    requires Names(objs, key) ==> Settled(server, owner, Live(store, key), Named(objs, key)).Some?
    ensures var after := Live(AfterAttempts(server, owner, store, objs, attempts), key);
            after == Live(store, key) || after == Final(server, owner, Live(store, key), objs, key)
    decreases |attempts|
  {
    if attempts != [] {
      var a := attempts[0];
      assert multiset(a.order) == objs && |a.faults| == |a.order|;
      RunEffect(server, owner, store, a.order, a.faults, key);
      if Names(objs, key) { SettledTwice(server, owner, Live(store, key), Named(objs, key)); }
      AttemptsEffect(server, owner, ApplyChildren(server, owner, store, a.order, a.faults).store, objs,
        attempts[1..], key);
    }
  }

  lemma CompleteIsFinal(server: Server, owner: Owner, store: Store, order: seq<Obj>, key: Key)
    requires UniqueKeys(multiset(order)) && Clear(server, owner, store, multiset(order))
    ensures Complete(server, owner, store, order).finished == |order|
    ensures Live(Complete(server, owner, store, order).store, key) ==
            Final(server, owner, Live(store, key), multiset(order), key)
  {
    CompletesIff(server, owner, store, order);
    RunEffect(server, owner, store, order, NoFaults(|order|), key);
  }

  lemma SameStore(a: Store, b: Store)
    requires forall key :: Live(a, key) == Live(b, key)
    ensures a == b
  {
    forall key ensures key in a <==> key in b
               ensures key in a ==> a[key] == b[key]
    {
      assert Live(a, key) == Live(b, key);
    }
  }

  /** Nothing that was in the way appears, and a complete run agrees with one from the store before. */
  lemma AttemptsThenComplete(
      server: Server, owner: Owner, store: Store, attempts: seq<Attempt>, order: seq<Obj>, key: Key)
    requires ValidServer(server) && UniqueKeys(multiset(order)) && AttemptsOf(multiset(order), attempts)
    requires StoredUnderKeys(server, store) && Clear(server, owner, store, multiset(order))
    ensures var between := AfterAttempts(server, owner, store, multiset(order), attempts);
            && (Names(multiset(order), key) ==>
                  Settled(server, owner, Live(between, key), Named(multiset(order), key)).Some?)
            && Final(server, owner, Live(between, key), multiset(order), key) ==
               Final(server, owner, Live(store, key), multiset(order), key)
  {
    AttemptsEffect(server, owner, store, multiset(order), attempts, key);
    if Names(multiset(order), key) {
      SettledTwice(server, owner, Live(store, key), Named(multiset(order), key));
    }
  }

  /** Convergence. Whatever reconciles of the same rendering came before, stopped anywhere and in any
      order, one complete reconcile reaches the store that a single complete reconcile in any order
      would have reached at once, and a further one changes nothing. */
  lemma ReconcilesConverge(
      server: Server, owner: Owner, store: Store, attempts: seq<Attempt>, order: seq<Obj>, order': seq<Obj>)
    requires ValidServer(server) && UniqueKeys(multiset(order)) && multiset(order') == multiset(order)
    requires AttemptsOf(multiset(order), attempts)
    requires StoredUnderKeys(server, store) && Clear(server, owner, store, multiset(order))
    ensures var between := AfterAttempts(server, owner, store, multiset(order), attempts);
            var p := Complete(server, owner, between, order);
            && p.finished == |order|
            && p.store == Complete(server, owner, store, order').store
            && Complete(server, owner, p.store, order') == Progress(p.store, |order'|)
  {
    var objs := multiset(order);
    var between := AfterAttempts(server, owner, store, objs, attempts);
    var p, direct := Complete(server, owner, between, order), Complete(server, owner, store, order');
    ClearStays(server, owner, store, attempts, order);
    forall key ensures Live(p.store, key) == Live(direct.store, key) {
      AttemptsThenComplete(server, owner, store, attempts, order, key);
      CompleteIsFinal(server, owner, between, order, key);
      CompleteIsFinal(server, owner, store, order', key);
    }
    SameStore(p.store, direct.store);
    CompletesIff(server, owner, between, order);
    CompleteTwice(server, owner, store, order', order');
  }

  lemma ClearStays(server: Server, owner: Owner, store: Store, attempts: seq<Attempt>, order: seq<Obj>)
    requires ValidServer(server) && UniqueKeys(multiset(order)) && AttemptsOf(multiset(order), attempts)
    requires StoredUnderKeys(server, store) && Clear(server, owner, store, multiset(order))
    ensures Clear(server, owner, AfterAttempts(server, owner, store, multiset(order), attempts), multiset(order))
  {
    forall d | d in multiset(order)
      ensures Settled(server, owner, Live(AfterAttempts(server, owner, store, multiset(order), attempts), d.key),
              d).Some?
    {
      assert Named(multiset(order), d.key) == d;
      AttemptsThenComplete(server, owner, store, attempts, order, d.key);
    }
  }

  lemma CompleteTwice(server: Server, owner: Owner, store: Store, order: seq<Obj>, order': seq<Obj>)
    requires ValidServer(server) && UniqueKeys(multiset(order)) && multiset(order') == multiset(order)
    requires StoredUnderKeys(server, store) && Clear(server, owner, store, multiset(order))
    ensures var p := Complete(server, owner, store, order);
            Complete(server, owner, p.store, order') == Progress(p.store, |order'|)
  {
    var objs := multiset(order);
    var p := Complete(server, owner, store, order);
    forall d | d in objs ensures Settled(server, owner, Live(p.store, d.key), d).Some? {
      CompleteIsFinal(server, owner, store, order, d.key);
      assert Named(objs, d.key) == d;
      SettledTwice(server, owner, Live(store, d.key), d);
    }
    forall key ensures Live(Complete(server, owner, p.store, order').store, key) == Live(p.store, key) {
      CompleteIsFinal(server, owner, store, order, key);
      CompleteIsFinal(server, owner, p.store, order', key);
      if Names(objs, key) { SettledTwice(server, owner, Live(store, key), Named(objs, key)); }
    }
    SameStore(Complete(server, owner, p.store, order').store, p.store);
    CompletesIff(server, owner, p.store, order');
  }

  /** The fixpoint: every rendered child is stored as asked for, keeping what an update must keep, and
      every other key is as it was. */
  lemma CompleteRunConforms(server: Server, owner: Owner, store: Store, order: seq<Obj>, key: Key)
    requires ValidServer(server) && UniqueKeys(multiset(order))
    requires StoredUnderKeys(server, store) && Clear(server, owner, store, multiset(order))
    ensures var after := Live(Complete(server, owner, store, order).store, key);
            if Names(multiset(order), key) then
              var d := Named(multiset(order), key);
              && after.Some? && Stored(server, key, after.value) && Conforms(server, owner, d, after.value)
              && (key in store ==> Preserves(owner, store[key], d, after.value))
            else after == Live(store, key)
  {
    CompleteIsFinal(server, owner, store, order, key);
    if Names(multiset(order), key) {
      var d := Named(multiset(order), key);
      var live := Live(store, key);
      var start := if live.Some? then live.value else d;
      MutateThenAdmit(server, owner, start, d);
      if live.Some? && Mutate(owner, start, d) == Mutated(start) {
        UnchangedConforms(server, owner, start, d);
      }
    }
  }
}
