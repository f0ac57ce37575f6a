/** From any reachable world: once everyone else is quiet and the cache has caught up, one reconcile
    takes the store to the fixpoint and the status to ready. */
module QuietRun {
  import opened Values
  import opened Objects
  import opened Workloads
  import opened Protocol
  import opened ProtocolInvariants
  import opened ChildSafety
  import C = Convergence
  import T = ProtocolTheorems

  /** What is stored now. */
  function CurrentStore(w: World): C.Store
  {
    map key | key in w.children && ReadVersion(w.children[key], |w.children[key]|).Some? ::
      ReadVersion(w.children[key], |w.children[key]|).value
  }

  lemma LiveIsLast(w: World, key: Key)
    ensures C.Live(CurrentStore(w), key) == ReadVersion(History(w, key), |History(w, key)|)
  {
  }

  /** With the last version in hand, create-or-update settles the child: the step of the protocol and
      the step of the sequential model agree. */
  lemma FreshWriteSettles(server: Server, owner: Owner, run: nat, h: seq<Version>, desired: Obj)
    ensures var last := ReadVersion(h, |h|);
            var settled := C.Settled(server, owner, last, desired);
            match CreateOrUpdate(server, owner, run, h, |h|, desired)
            case Refused(_) => settled.None?
            case Kept(at) => settled == last && C.AsDesired(owner, last, desired)
            case Put(h') =>
              && h' != [] && settled == ReadVersion(h', |h'|) && settled.Some?
              && !C.AsDesired(owner, last, desired)
  {
  }

  lemma ContinueOne(cfg: Config, w: World, steps: seq<Step>, step: Step)
    ensures Continue(cfg, w, steps + [step]) == Do(cfg, Continue(cfg, w, steps), step)
  {
  }

  lemma {:induction false} ContinueMore(cfg: Config, w: World, steps: seq<Step>, more: seq<Step>)
    ensures Continue(cfg, w, steps + more) == Continue(cfg, Continue(cfg, w, steps), more)
    decreases |more|
  {
    if more == [] {
      assert steps + more == steps;
    } else {
      var before, last := more[..|more| - 1], more[|more| - 1];
      assert steps + more == (steps + before) + [last];
      ContinueOne(cfg, w, steps + before, last);
      ContinueMore(cfg, w, steps, before);
    }
  }

  /** What a get of the last version and a write amount to. */
  lemma FetchThenWrite(cfg: Config, w: World)
    requires Shape(w) && w.phase.Applying? && w.phase.todo != []
    ensures var todo := w.phase.todo;
            var h := History(w, todo[0].key);
            Do(cfg, Do(cfg, w, Fetch(|h|)), Write(false)) ==
            Settle(w.(phase := Fetched(todo, |h|)), todo,
                   CreateOrUpdate(cfg.server, OwnerOf(cfg, Snapshot(w)), |w.runs| - 1, h, |h|, todo[0]), false)
  {
  }

  /** Get the last version of the first child, and write. */
  lemma QuietChild(cfg: Config, w: World) returns (w': World)
    requires Shape(w) && w.phase.Applying? && w.phase.todo != []
    requires C.Settled(cfg.server, OwnerOf(cfg, Snapshot(w)), C.Live(CurrentStore(w), w.phase.todo[0].key),
             w.phase.todo[0]).Some?
    ensures w' == Do(cfg, Do(cfg, w, Fetch(|History(w, w.phase.todo[0].key)|)), Write(false))
    ensures w'.phase == Applying(w.phase.todo[1..]) && w'.log == w.log && w'.seen == w.seen && w'.cache == w.cache
    ensures CurrentStore(w') ==
            C.ApplyChild(cfg.server, OwnerOf(cfg, Snapshot(w)), CurrentStore(w), w.phase.todo[0], C.NoFault).store
  {
    var todo := w.phase.todo;
    var h, owner := History(w, todo[0].key), OwnerOf(cfg, Snapshot(w));
    var fetched := w.(phase := Fetched(todo, |h|));
    FetchThenWrite(cfg, w);
    LiveIsLast(w, todo[0].key);
    FreshWriteSettles(cfg.server, owner, |w.runs| - 1, h, todo[0]);
    QuietSettle(fetched, todo, CreateOrUpdate(cfg.server, owner, |w.runs| - 1, h, |h|, todo[0]));
    assert CurrentStore(fetched) == CurrentStore(w);
    w' := Do(cfg, Do(cfg, w, Fetch(|h|)), Write(false));
  }

  /** Settling a child whose reply arrives moves on to the next one. */
  lemma QuietSettle(w: World, todo: seq<Obj>, outcome: Outcome)
    requires Reading(w) && w.runs != [] && todo != [] && !outcome.Refused?
    requires outcome.Put? ==> outcome.history != [] && ReadVersion(outcome.history, |outcome.history|).Some?
    ensures var w' := Settle(w, todo, outcome, false);
            && w'.phase == Applying(todo[1..]) && w'.log == w.log && w'.seen == w.seen && w'.cache == w.cache
            && CurrentStore(w') ==
               if outcome.Kept? then CurrentStore(w)
               else CurrentStore(w)[todo[0].key := ReadVersion(outcome.history, |outcome.history|).value]
  {
  }

  lemma TwoStepsMore(cfg: Config, w: World, a: Step, b: Step, more: seq<Step>)
    ensures Continue(cfg, w, [a, b] + more) == Continue(cfg, Do(cfg, Do(cfg, w, a), b), more)
  {
    ContinueOne(cfg, w, [], a);
    ContinueOne(cfg, w, [a], b);
    assert [] + [a] == [a] && [a] + [b] == [a, b];
    ContinueMore(cfg, w, [a, b], more);
  }

  /** A complete run unfolds into its first child and a complete run of the rest. */
  lemma CompleteUnfolds(server: Server, owner: Owner, store: C.Store, objs: seq<Obj>)
    requires objs != [] && C.Complete(server, owner, store, objs).finished == |objs|
    ensures var first := C.ApplyChild(server, owner, store, objs[0], C.NoFault).store;
            && C.Settled(server, owner, C.Live(store, objs[0].key), objs[0]).Some?
            && C.Complete(server, owner, first, objs[1..]).finished == |objs| - 1
            && C.Complete(server, owner, store, objs).store == C.Complete(server, owner, first, objs[1..]).store
  {
    assert C.NoFaults(|objs|)[1..] == C.NoFaults(|objs| - 1);
  }

  /** The controller's calls for the children, each of which succeeds. */
  predicate AppliesChildren(steps: seq<Step>)
  {
    forall s :: s in steps ==> s.Fetch? || s == Write(false)
  }

  /** One reconcile from beginning to end: it reads and renders, applies children, and has its report
      delivered; nobody else takes a step, and none of its calls fails. */
  ghost predicate OneReconcile(steps: seq<Step>, order: seq<Obj>, live: Option<int>)
  {
    exists middle :: AppliesChildren(middle) && steps == [Begin(order)] + middle + [Finish(live)] + [Report(true)]
  }

  /** The controller restarts or its cache advances; nothing is written. */
  predicate CatchesUp(steps: seq<Step>)
  {
    forall s :: s in steps ==> s.Observe? || s.Crash?
  }

  /** The whole apply loop, undisturbed. */
  lemma {:induction false} QuietChildren(cfg: Config, w: World) returns (steps: seq<Step>)
    requires Shape(w) && w.phase.Applying?
    requires C.Complete(cfg.server, OwnerOf(cfg, Snapshot(w)), CurrentStore(w), w.phase.todo).finished == |w.phase.todo|
    ensures AppliesChildren(steps)
    ensures var w' := Continue(cfg, w, steps);
            && w'.phase == Applying([]) && w'.log == w.log && w'.seen == w.seen && w'.cache == w.cache && Shape(w')
            && CurrentStore(w') ==
               C.Complete(cfg.server, OwnerOf(cfg, Snapshot(w)), CurrentStore(w), w.phase.todo).store
    decreases |w.phase.todo|
  {
    var todo := w.phase.todo;
    if todo == [] {
      steps := [];
    } else {
      CompleteUnfolds(cfg.server, OwnerOf(cfg, Snapshot(w)), CurrentStore(w), todo);
      var fetch := Fetch(|History(w, todo[0].key)|);
      var w1 := QuietChild(cfg, w);
      StepKeepsShape(cfg, w, fetch);
      StepKeepsShape(cfg, Do(cfg, w, fetch), Write(false));
      var rest := QuietChildren(cfg, w1);
      TwoStepsMore(cfg, w, fetch, Write(false), rest);
      steps := [fetch, Write(false)] + rest;
    }
  }

  lemma QuietBegin(cfg: Config, w: World, order: seq<Obj>)
    requires Shape(w) && w.phase.Idle? && w.cache == |w.log| - 1 && Current(w).Some?
    requires var objs := cfg.render(Current(w).value.spec); objs.Some? && multiset(objs.value) == multiset(order)
    ensures var begun := Do(cfg, w, Begin(order));
            && Shape(begun) && begun.phase == Applying(order)
            && begun.log == w.log && begun.seen == |w.log| - 1 && CurrentStore(begun) == CurrentStore(w)
  {
    StepKeepsShape(cfg, w, Begin(order));
    assert Do(cfg, w, Begin(order)).children == w.children;
  }

  lemma QuietReport(cfg: Config, w: World, live: Option<int>)
    requires Shape(w) && w.phase == Applying([]) && w.seen == |w.log| - 1
    ensures var w' := Do(cfg, Do(cfg, w, Finish(live)), Report(true));
            var wl := Snapshot(w);
            && w'.phase.Idle? && w'.log != [] && CurrentStore(w') == CurrentStore(w)
            && Current(w') == Some(wl.(status := SucceededStatus(wl.status, wl.spec, wl.generation, live)))
  {
    var finished := Do(cfg, w, Finish(live));
    var status := SucceededStatus(Snapshot(w).status, Snapshot(w).spec, Snapshot(w).generation, live);
    assert finished == w.(phase := Reporting(status));
    assert PatchStatus(Snapshot(w).status, Snapshot(w).status, status) == status;
    assert Do(cfg, finished, Report(true)) == DoReport(finished);
    assert DoReport(finished).children == w.children;
  }

  lemma InSequence(cfg: Config, w: World, first: Step, middle: seq<Step>, a: Step, b: Step)
    ensures Continue(cfg, w, [first] + middle + [a] + [b]) ==
            Do(cfg, Do(cfg, Continue(cfg, Do(cfg, w, first), middle), a), b)
  {
    ContinueOne(cfg, w, [first] + middle + [a], b);
    ContinueOne(cfg, w, [first] + middle, a);
    ContinueMore(cfg, w, [first], middle);
    ContinueOne(cfg, w, [], first);
    assert [] + [first] == [first];
  }

  /** A reconcile begun with the cache up to date, its apply loop, and its report, undisturbed. */
  lemma QuietReconcile(cfg: Config, w: World, order: seq<Obj>, live: Option<int>) returns (steps: seq<Step>)
    requires Shape(w) && w.phase.Idle? && w.cache == |w.log| - 1 && Current(w).Some?
    requires var objs := cfg.render(Current(w).value.spec); objs.Some? && multiset(objs.value) == multiset(order)
    requires C.Complete(cfg.server, OwnerOf(cfg, Current(w).value), CurrentStore(w), order).finished == |order|
    ensures OneReconcile(steps, order, live)
    ensures var w' := Continue(cfg, w, steps);
            var wl := Current(w).value;
            && w'.phase.Idle? && w'.log != []
            && Current(w') == Some(wl.(status := SucceededStatus(wl.status, wl.spec, wl.generation, live)))
            && CurrentStore(w') == C.Complete(cfg.server, OwnerOf(cfg, wl), CurrentStore(w), order).store
  {
    QuietBegin(cfg, w, order);
    var begun := Do(cfg, w, Begin(order));
    var middle := QuietChildren(cfg, begun);
    QuietReport(cfg, Continue(cfg, begun, middle), live);
    InSequence(cfg, w, Begin(order), middle, Finish(live), Report(true));
    steps := [Begin(order)] + middle + [Finish(live)] + [Report(true)];
  }

  lemma {:induction false} CatchUp(cfg: Config, w: World) returns (steps: seq<Step>)
    requires Shape(w)
    ensures CatchesUp(steps)
    ensures Continue(cfg, w, steps) == w.(cache := |w.log| - 1, phase := Idle)
    decreases |w.log| - w.cache
  {
    if w.cache + 1 < |w.log| {
      var w1 := Do(cfg, w, Observe);
      var rest := CatchUp(cfg, w1);
      steps := [Observe] + rest;
      ContinueOne(cfg, w, [], Observe);
      assert [] + [Observe] == [Observe];
      ContinueMore(cfg, w, [Observe], rest);
    } else {
      steps := [Crash];
      ContinueOne(cfg, w, [], Crash);
      assert [] + [Crash] == [Crash];
    }
  }

  /** From `w` to `w'`: ready at the current generation; the child under the key is as asked for and
      keeps what it must keep, or, when the key is not rendered, is untouched. */
  ghost predicate Converged(cfg: Config, w: World, w': World, order: seq<Obj>, key: Key)
  {
    && w.log != [] && Current(w).Some? && w'.log != [] && Current(w').Some?
    && var wl, wl' := Current(w).value, Current(w').value;
    && wl'.uid == wl.uid && wl'.generation == wl.generation && wl'.spec == wl.spec
    && ReadyAt(wl'.status) == Some(wl.generation) && wl'.status.observedGeneration == wl.generation
    && var before, after := C.Live(CurrentStore(w), key), C.Live(CurrentStore(w'), key);
    if C.Names(multiset(order), key) then
      var d := C.Named(multiset(order), key);
      && after.Some? && Conforms(cfg.server, OwnerOf(cfg, wl), d, after.value)
      && (before.Some? ==> Preserves(OwnerOf(cfg, wl), before.value, d, after.value))
    else after == before
  }

  /** The objects are the rendering of the current spec, none is of an unsupported kind or controlled by
      another owner, and no two share a key. */
  ghost predicate CanConverge(cfg: Config, w: World, order: seq<Obj>)
  {
    && w.log != [] && Current(w).Some?
    && var objs := cfg.render(Current(w).value.spec);
    && objs.Some? && multiset(objs.value) == multiset(order)
    && C.UniqueKeys(multiset(order))
    && C.Clear(cfg.server, OwnerOf(cfg, Current(w).value), CurrentStore(w), multiset(order))
  }

  lemma QuietReconcileConverges(cfg: Config, w: World, order: seq<Obj>, live: Option<int>) returns (steps: seq<Step>)
    requires ValidServer(cfg.server) && Shape(w) && Safe(cfg, w) && CanConverge(cfg, w, order)
    requires w.phase.Idle? && w.cache == |w.log| - 1
    ensures OneReconcile(steps, order, live) && Continue(cfg, w, steps).phase.Idle?
    ensures forall key :: Converged(cfg, w, Continue(cfg, w, steps), order, key)
  {
    var wl := Current(w).value;
    var owner := OwnerOf(cfg, wl);
    C.CompletesIff(cfg.server, owner, CurrentStore(w), order);
    steps := QuietReconcile(cfg, w, order, live);
    StoreIsStored(cfg, w);
    SucceededStatusReady(wl.status, wl.spec, wl.generation, live);
    forall key ensures Converged(cfg, w, Continue(cfg, w, steps), order, key) {
      C.CompleteRunConforms(cfg.server, owner, CurrentStore(w), order, key);
    }
  }

  /** Every reachable world can still converge: wherever the interleavings so far have left it, let the
      controller restart, its cache catch up and everyone else keep quiet, and one reconcile, in any
      order of the children, gets there. */
  lemma EveryWorldConverges(cfg: Config, past: seq<Step>, order: seq<Obj>, live: Option<int>)
    returns (catchUp: seq<Step>, reconcile: seq<Step>)
    requires ValidServer(cfg.server) && CanConverge(cfg, After(cfg, past), order)
    ensures CatchesUp(catchUp) && OneReconcile(reconcile, order, live)
    ensures forall key :: Converged(cfg, After(cfg, past), After(cfg, past + (catchUp + reconcile)), order, key)
  {
    T.Always(cfg, past);
    catchUp, reconcile := ConvergesFrom(cfg, After(cfg, past), order, live);
    ContinueMore(cfg, START, past, catchUp + reconcile);
  }

  lemma ConvergesFrom(cfg: Config, w: World, order: seq<Obj>, live: Option<int>)
    returns (catchUp: seq<Step>, reconcile: seq<Step>)
    requires ValidServer(cfg.server) && Shape(w) && Safe(cfg, w) && CanConverge(cfg, w, order)
    ensures CatchesUp(catchUp) && OneReconcile(reconcile, order, live)
    ensures forall key :: Converged(cfg, w, Continue(cfg, w, catchUp + reconcile), order, key)
  {
    var ready: World;
    catchUp, ready := GetReady(cfg, w, order);
    reconcile := QuietReconcileConverges(cfg, ready, order, live);
    ContinueMore(cfg, w, catchUp, reconcile);
    forall key ensures Converged(cfg, w, Continue(cfg, w, catchUp + reconcile), order, key) {
      ReadyConverged(cfg, w, ready, Continue(cfg, ready, reconcile), order, key);
    }
  }

  /** The same world with the cache caught up and nothing under way. */
  lemma GetReady(cfg: Config, w: World, order: seq<Obj>) returns (steps: seq<Step>, ready: World)
    requires Shape(w) && Safe(cfg, w) && CanConverge(cfg, w, order)
    ensures CatchesUp(steps) && Continue(cfg, w, steps) == ready && ready == w.(cache := |w.log| - 1, phase := Idle)
    ensures Shape(ready) && Safe(cfg, ready) && CanConverge(cfg, ready, order)
  {
    steps := CatchUp(cfg, w);
    ready := w.(cache := |w.log| - 1, phase := Idle);
    ReadySafe(cfg, w, ready);
    ReadyCanConverge(cfg, w, ready, order);
  }

  lemma ReadyCanConverge(cfg: Config, w: World, ready: World, order: seq<Obj>)
    requires CanConverge(cfg, w, order) && ready == w.(cache := |w.log| - 1, phase := Idle)
    ensures CanConverge(cfg, ready, order)
  {
  }

  lemma ReadyConverged(cfg: Config, w: World, ready: World, w': World, order: seq<Obj>, key: Key)
    requires w.log != [] && ready == w.(cache := |w.log| - 1, phase := Idle) && Converged(cfg, ready, w', order, key)
    ensures Converged(cfg, w, w', order, key)
  {
  }

  lemma ReadySafe(cfg: Config, w: World, w': World)
    requires Shape(w) && Safe(cfg, w) && w' == w.(cache := |w.log| - 1, phase := Idle)
    ensures Shape(w') && Safe(cfg, w')
  {
    SafeStays(cfg, w, w');
  }

  lemma StoreIsStored(cfg: Config, w: World)
    requires Safe(cfg, w)
    ensures C.StoredUnderKeys(cfg.server, CurrentStore(w))
  {
    forall key | key in CurrentStore(w) ensures Stored(cfg.server, key, CurrentStore(w)[key]) {
      assert SafeVersion(cfg, w, key, |History(w, key)| - 1);
    }
  }
}
