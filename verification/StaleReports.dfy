/** Two runs in which the status patch does not do what it is for: a report that lands on the successor of
    its Workload, and a success that is not stored. Both exist for every rendering that can be applied. */
module StaleReports {
  import opened Values
  import opened Objects
  import opened Workloads
  import opened Protocol
  import opened ProtocolInvariants
  import opened ProtocolTheorems
  import opened ChildSafety
  import opened QuietRun
  import C = Convergence


  /** A reconcile of what the cache shows, up to the point where every child is applied. */
  lemma AppliesAll(cfg: Config, w: World, order: seq<Obj>) returns (steps: seq<Step>)
    requires Shape(w) && w.phase.Idle? && w.log[w.cache].Some?
    requires var objs := cfg.render(w.log[w.cache].value.spec); objs.Some? && multiset(objs.value) == multiset(order)
    requires C.Complete(cfg.server, OwnerOf(cfg, w.log[w.cache].value), CurrentStore(w), order).finished == |order|
    ensures exists middle :: AppliesChildren(middle) && steps == [Begin(order)] + middle
    ensures var w' := Continue(cfg, w, steps);
            && Shape(w') && w'.phase == Applying([]) && w'.log == w.log && w'.cache == w.cache == w'.seen
            && CurrentStore(w') ==
               C.Complete(cfg.server, OwnerOf(cfg, w.log[w.cache].value), CurrentStore(w), order).store
  {
    var begun := Do(cfg, w, Begin(order));
    StepKeepsShape(cfg, w, Begin(order));
    assert begun.phase == Applying(order) && begun.seen == w.cache && begun.children == w.children
      && begun.log == w.log;
    assert CurrentStore(begun) == CurrentStore(w);
    var middle := QuietChildren(cfg, begun);
    ContinueOne(cfg, w, [], Begin(order));
    assert [] + [Begin(order)] == [Begin(order)];
    ContinueMore(cfg, w, [Begin(order)], middle);
    steps := [Begin(order)] + middle;
  }

  // A report that outlives its Workload

  /** The Workload is edited, or new, and no reconcile has reported on its generation yet. */
  predicate Unreported(wl: Workload)
  {
    wl.status.observedGeneration != wl.generation && ReadyAt(wl.status) != Some(wl.generation)
  }

  /** The successor claims to be ready, and observed, at the generation of the Workload that is gone. */
  predicate Outlived(wl: Workload, successor: WorkloadSpec, w: World)
  {
    && w.log != [] && Current(w).Some? && w.misreported
    && var current := Current(w).value;
    && current.uid != wl.uid && current.generation == 1 && current.spec == successor
    && current.status.observedGeneration == wl.generation && ReadyAt(current.status) == Some(wl.generation)
  }

  lemma LandsOnSuccessor(w: World, wl: Workload, successor: WorkloadSpec)
    requires w.log != [] && Reading(w) && Snapshot(w) == wl && Unreported(wl) && w.phase.Reporting?
    requires ReadyAt(w.phase.status) == Some(wl.generation) && w.phase.status.observedGeneration == wl.generation
    requires Current(w).Some? && Current(w).value.uid != wl.uid
    requires Current(w).value.generation == 1 && Current(w).value.spec == successor
    ensures Outlived(wl, successor, DoReport(w))
  {
  }

  function Replaced(w: World, successor: WorkloadSpec): World
  {
    w.(log := w.log + [None] + [Some(Workload(|w.log| + 1, 1, successor, NO_STATUS))])
  }

  lemma LoseAndReplace(cfg: Config, w: World, successor: WorkloadSpec)
    requires w.log != [] && Current(w).Some?
    ensures Do(cfg, Do(cfg, w, DeleteWorkload), CreateWorkload(successor)) == Replaced(w, successor)
  {
    assert Do(cfg, w, DeleteWorkload) == w.(log := w.log + [None]);
  }

  lemma FinishesReady(cfg: Config, w: World, live: Option<int>)
    requires Shape(w) && w.phase == Applying([])
    ensures var w' := Do(cfg, w, Finish(live));
            && w' == w.(phase := w'.phase) && w'.phase.Reporting?
            && w'.phase.status == SucceededStatus(Snapshot(w).status, Snapshot(w).spec, Snapshot(w).generation, live)
            && ReadyAt(w'.phase.status) == Some(Snapshot(w).generation)
  {
    SucceededStatusReady(Snapshot(w).status, Snapshot(w).spec, Snapshot(w).generation, live);
  }

  /** Finishing a reconcile, losing the Workload and gaining its successor before the report arrives. */
  lemma OutlivedReport(cfg: Config, w: World, successor: WorkloadSpec, live: Option<int>)
    requires Shape(w) && w.phase == Applying([]) && w.seen == |w.log| - 1 && Unreported(Snapshot(w))
    ensures Outlived(
              Snapshot(w), successor,
              Do(cfg, Do(cfg, Do(cfg, Do(cfg, w, Finish(live)), DeleteWorkload), CreateWorkload(successor)),
                Report(true)))
  {
    FinishesReady(cfg, w, live);
    var finished := Do(cfg, w, Finish(live));
    LoseAndReplace(cfg, finished, successor);
    DeliveredReport(cfg, Replaced(finished, successor));
    LandsOnSuccessor(Replaced(finished, successor), Snapshot(w), successor);
  }

  lemma DeliveredReport(cfg: Config, w: World)
    requires w.log != [] && Reading(w) && w.phase.Reporting?
    ensures Do(cfg, w, Report(true)) == DoReport(w)
  {
  }

  /** The status patch names neither uid nor version. From every reachable world with an unreported Workload
      whose children can be applied, a run leads to its successor, at generation 1, claiming to be ready at the
      generation of the Workload that is gone. */
  lemma PatchCrossesIncarnations(
      cfg: Config, past: seq<Step>, order: seq<Obj>, successor: WorkloadSpec, live: Option<int>)
    returns (steps: seq<Step>)
    requires ValidServer(cfg.server) && CanConverge(cfg, After(cfg, past), order)
    requires Unreported(Current(After(cfg, past)).value)
    ensures Outlived(Current(After(cfg, past)).value, successor, After(cfg, past + steps))
  {
    Always(cfg, past);
    steps := OutliveAny(cfg, After(cfg, past), Current(After(cfg, past)).value, order, successor, live);
    ContinueMore(cfg, START, past, steps);
  }

  lemma Then(cfg: Config, w: World, first: seq<Step>, more: seq<Step>, between: World, last: World)
    requires Continue(cfg, w, first) == between && Continue(cfg, between, more) == last
    ensures Continue(cfg, w, first + more) == last
  {
    ContinueMore(cfg, w, first, more);
  }

  /** Nothing is under way and the cache shows the Workload, whose children can be applied. */
  ghost predicate ReadyFor(cfg: Config, w: World, wl: Workload, order: seq<Obj>)
  {
    && Shape(w) && Safe(cfg, w) && CanConverge(cfg, w, order) && Current(w) == Some(wl)
    && w.phase.Idle? && w.cache == |w.log| - 1
  }

  lemma GetReadyFor(cfg: Config, w: World, wl: Workload, order: seq<Obj>) returns (steps: seq<Step>)
    requires Shape(w) && Safe(cfg, w) && CanConverge(cfg, w, order) && Current(w) == Some(wl)
    ensures ReadyFor(cfg, Continue(cfg, w, steps), wl, order)
  {
    steps := CatchUp(cfg, w);
    IsReady(cfg, w, wl, order, w.(cache := |w.log| - 1, phase := Idle));
  }

  lemma IsReady(cfg: Config, w: World, wl: Workload, order: seq<Obj>, ready: World)
    requires Shape(w) && Safe(cfg, w) && CanConverge(cfg, w, order) && Current(w) == Some(wl)
    requires ready == w.(cache := |w.log| - 1, phase := Idle)
    ensures ReadyFor(cfg, ready, wl, order)
  {
    ReadySafe(cfg, w, ready);
    ReadyCanConverge(cfg, w, ready, order);
  }

  lemma OutliveAny(cfg: Config, w: World, wl: Workload, order: seq<Obj>, successor: WorkloadSpec, live: Option<int>)
    returns (steps: seq<Step>)
    requires ValidServer(cfg.server) && Shape(w) && Safe(cfg, w) && CanConverge(cfg, w, order)
    requires Current(w) == Some(wl) && Unreported(wl)
    ensures Outlived(wl, successor, Continue(cfg, w, steps))
  {
    var catchUp := GetReadyFor(cfg, w, wl, order);
    var ready := Continue(cfg, w, catchUp);
    var more := OutliveFrom(cfg, ready, wl, order, successor, live);
    Then(cfg, w, catchUp, more, ready, Continue(cfg, ready, more));
    steps := catchUp + more;
  }

  lemma OutliveFrom(cfg: Config, w: World, wl: Workload, order: seq<Obj>, successor: WorkloadSpec, live: Option<int>)
    returns (steps: seq<Step>)
    requires ValidServer(cfg.server) && ReadyFor(cfg, w, wl, order) && Unreported(wl)
    ensures Outlived(wl, successor, Continue(cfg, w, steps))
  {
    C.CompletesIff(cfg.server, OwnerOf(cfg, Current(w).value), CurrentStore(w), order);
    var apply := AppliesAll(cfg, w, order);
    OutlivedReport(cfg, Continue(cfg, w, apply), successor, live);
    FourMore(cfg, w, apply, Finish(live), DeleteWorkload, CreateWorkload(successor), Report(true));
    steps := apply + [Finish(live)] + [DeleteWorkload] + [CreateWorkload(successor)] + [Report(true)];
  }

  lemma FourMore(cfg: Config, w: World, steps: seq<Step>, a: Step, b: Step, c: Step, d: Step)
    ensures Continue(cfg, w, steps + [a] + [b] + [c] + [d]) ==
            Do(cfg, Do(cfg, Do(cfg, Do(cfg, Continue(cfg, w, steps), a), b), c), d)
  {
    ContinueOne(cfg, w, steps, a);
    ContinueOne(cfg, w, steps + [a], b);
    ContinueOne(cfg, w, steps + [a] + [b], c);
    ContinueOne(cfg, w, steps + [a] + [b] + [c], d);
  }

  // A run of that kind from the start, for the objects the chart renders

  /** The objects of the chart without an Ingress: of supported kinds, under six different keys, and with no
      controller yet. */
  predicate ChartObjects(objs: seq<Obj>, namespace: string, name: string)
  {
    && |objs| == 6
    && objs[0].key == Key(Deployment, namespace, name)
    && objs[1].key == Key(Service, namespace, name)
    && objs[2].key == Key(HorizontalPodAutoscaler, namespace, name)
    && objs[3].key == Key(PodDisruptionBudget, namespace, name)
    && objs[4].key == Key(NetworkPolicy, namespace, name + "-default-deny")
    && objs[5].key == Key(NetworkPolicy, namespace, name + "-allow")
    && forall i :: 0 <= i < 6 ==> objs[i].controller == None
  }

  lemma ChartKeys(objs: seq<Obj>, namespace: string, name: string)
    requires ChartObjects(objs, namespace, name)
    ensures C.UniqueKeys(multiset(objs))
  {
    assert |name + "-default-deny"| == |name| + 13 && |name + "-allow"| == |name| + 6;
    C.DistinctIsUnique(objs);
  }

  /** In an empty namespace nothing is in the way of the chart's objects. */
  lemma ChartIsClear(server: Server, owner: Owner, objs: seq<Obj>, namespace: string, name: string)
    requires ChartObjects(objs, namespace, name)
    ensures C.Clear(server, owner, map[], multiset(objs))
  {
    forall d | d in multiset(objs) ensures C.Settled(server, owner, C.Live(map[], d.key), d).Some? {
      var i :| 0 <= i < 6 && objs[i] == d;
    }
  }

  lemma ChartCanConverge(cfg: Config, w: World, objs: seq<Obj>, namespace: string)
    requires w.log != [] && Current(w).Some? && w.children == map[]
    requires cfg.render(Current(w).value.spec) == Some(objs) && ChartObjects(objs, namespace, cfg.name)
    ensures CanConverge(cfg, w, objs)
  {
    ChartKeys(objs, namespace, cfg.name);
    ChartIsClear(cfg.server, OwnerOf(cfg, Current(w).value), objs, namespace, cfg.name);
    assert CurrentStore(w) == map[];
  }

  /** A Workload created and then edited, before anything is applied. */
  lemma EditedWorkload(cfg: Config, first: WorkloadSpec, edited: WorkloadSpec)
    requires first != edited
    ensures After(cfg, [CreateWorkload(first), EditSpec(edited)]) ==
            START.(log := [None, Some(Workload(1, 1, first, NO_STATUS)), Some(Workload(1, 2, edited, NO_STATUS))])
  {
    ContinueOne(cfg, START, [CreateWorkload(first)], EditSpec(edited));
    ContinueOne(cfg, START, [], CreateWorkload(first));
    assert [] + [CreateWorkload(first)] == [CreateWorkload(first)];
    assert [CreateWorkload(first)] + [EditSpec(edited)] == [CreateWorkload(first), EditSpec(edited)];
  }

  /** The input: create a Workload, edit it, and while the edit is being reconciled delete and recreate it. */
  lemma ChartCrossesIncarnations(
      cfg: Config, namespace: string, objs: seq<Obj>, first: WorkloadSpec, edited: WorkloadSpec, live: Option<int>)
    returns (steps: seq<Step>)
    requires ValidServer(cfg.server) && first != edited
    requires cfg.render(edited) == Some(objs) && ChartObjects(objs, namespace, cfg.name)
    ensures Outlived(Workload(1, 2, edited, NO_STATUS), first, After(cfg, steps))
  {
    var past := [CreateWorkload(first), EditSpec(edited)];
    EditedWorkload(cfg, first, edited);
    ChartCanConverge(cfg, After(cfg, past), objs, namespace);
    var more := PatchCrossesIncarnations(cfg, past, objs, first, live);
    steps := past + more;
  }

  // A success that is not stored

  /** A report of success is made of the snapshot, whatever has been stored since. */
  predicate ReportsOnSnapshot(w: World)
  {
    w.phase.Reporting? && ReadyAt(w.phase.status).Some? ==>
      && Reading(w)
      && w.phase.status ==
         SucceededStatus(Snapshot(w).status, Snapshot(w).spec, Snapshot(w).generation,
           Some(w.phase.status.readyReplicas))
  }

  lemma FailureReportsOnSnapshot(w: World, reason: string, message: string)
    requires Reading(w)
    ensures ReportsOnSnapshot(FailWith(w, reason, message))
  {
    FailedStatusReady(Snapshot(w).status, Snapshot(w).generation, reason, message);
  }

  lemma SettleReportsOnSnapshot(w: World, todo: seq<Obj>, outcome: Outcome, lost: bool)
    requires Reading(w) && w.runs != [] && todo != []
    ensures ReportsOnSnapshot(Settle(w, todo, outcome, lost))
  {
    match outcome
    case Refused(message) => FailureReportsOnSnapshot(w, "ApplyFailed", message);
    case Kept(_) =>
    case Put(h) => FailureReportsOnSnapshot(w.(children := w.children[todo[0].key := h]), "ApplyFailed", "no reply");
  }

  lemma WriteReportsOnSnapshot(cfg: Config, w: World, lost: bool)
    requires Shape(w) && w.phase.Fetched? && w.phase.todo != []
    ensures ReportsOnSnapshot(DoWrite(cfg, w, lost))
  {
    forall outcome { SettleReportsOnSnapshot(w, w.phase.todo, outcome, lost); }
  }

  lemma StepReportsOnSnapshot(cfg: Config, w: World, step: Step)
    requires Shape(w) && ReportsOnSnapshot(w)
    ensures ReportsOnSnapshot(Do(cfg, w, step))
  {
    match step
    case Write(lost) => if w.phase.Fetched? && w.phase.todo != [] { WriteReportsOnSnapshot(cfg, w, lost); }
    case Fail(message) => if w.phase.Applying?
      || w.phase.Fetched? { FailureReportsOnSnapshot(w, "ApplyFailed", message); }
    case Begin(_) =>
      if w.phase.Idle? && w.log[w.cache].Some? {
        FailureReportsOnSnapshot(w.(seen := w.cache, runs := w.runs + [Run(w.cache, [])]), "RenderFailed",
          "render failed");
      }
    case _ =>
  }

  lemma {:induction false} AlwaysReportsOnSnapshot(cfg: Config, steps: seq<Step>)
    requires ValidServer(cfg.server)
    ensures ReportsOnSnapshot(After(cfg, steps))
    decreases |steps|
  {
    if steps != [] {
      var before := steps[..|steps| - 1];
      Always(cfg, before);
      AlwaysReportsOnSnapshot(cfg, before);
      StepReportsOnSnapshot(cfg, After(cfg, before), steps[|steps| - 1]);
    }
  }

  /** The snapshot said already all that a success says. */
  predicate SaidBefore(wl: Workload)
  {
    && FindCondition(wl.status.conditions, ROLLOUT_DEGRADED) == Some(RolloutCondition(wl.spec, wl.generation))
    && FindCondition(wl.status.conditions, READY) ==
       Some(Condition(READY, true, "Reconciled", RECONCILED, wl.generation))
  }

  /** In every reachable world a delivered report of success leaves Ready=True at the generation read, unless
      the snapshot said all of it already and what is stored no longer does: equal conditions are not sent,
      however stale the snapshot is. */
  lemma SuccessIsStoredIff(cfg: Config, past: seq<Step>)
    requires ValidServer(cfg.server)
    requires var w := After(cfg, past);
             w.log != [] && Current(w).Some? && Reading(w) && w.phase.Reporting? && ReadyAt(w.phase.status).Some?
    ensures var w := After(cfg, past);
            var wl, w' := Snapshot(w), Do(cfg, w, Report(true));
            && w'.log != [] && Current(w').Some?
            && (ReadyAt(Current(w').value.status) == Some(wl.generation) <==>
                !(SaidBefore(wl) && ReadyAt(Current(w).value.status) != Some(wl.generation)))
  {
    var w := After(cfg, past);
    AlwaysReportsOnSnapshot(cfg, past);
    DeliveredReport(cfg, w);
    SaidBeforeIff(w);
    ClaimIsStoredIff(w);
  }

  lemma SaidBeforeIff(w: World)
    requires Reading(w) && w.phase.Reporting? && ReadyAt(w.phase.status).Some? && ReportsOnSnapshot(w)
    ensures ReadyAt(w.phase.status) == Some(Snapshot(w).generation)
    ensures w.phase.status.conditions == Snapshot(w).status.conditions <==> SaidBefore(Snapshot(w))
  {
    var wl := Snapshot(w);
    SucceededStatusReady(wl.status, wl.spec, wl.generation, Some(w.phase.status.readyReplicas));
    SameConditionsIff(wl.status, wl.spec, wl.generation, Some(w.phase.status.readyReplicas));
  }

  lemma ClaimIsStoredIff(w: World)
    requires w.log != [] && Current(w).Some? && Reading(w) && w.phase.Reporting? && ReadyAt(w.phase.status).Some?
    ensures var w', claim := DoReport(w), ReadyAt(w.phase.status);
            && w'.log != [] && Current(w').Some?
            && (ReadyAt(Current(w').value.status) == claim <==>
                !(w.phase.status.conditions == Snapshot(w).status.conditions
                  && ReadyAt(Current(w).value.status) != claim))
  {
  }

  // A run to such a world

  /** A report on the last version replaces its status. */
  lemma FreshReport(w: World)
    requires Shape(w) && w.phase.Reporting? && w.seen == |w.log| - 1
    requires w.phase.status.conditions != Snapshot(w).status.conditions
    ensures var w' := DoReport(w);
            && w'.phase.Idle? && w'.cache == w.cache && w'.children == w.children
            && w'.log == w.log + [Some(Snapshot(w).(status := w.phase.status))]
  {
  }

  lemma FailsApplying(cfg: Config, w: World, message: string)
    requires Shape(w) && w.phase.Applying?
    ensures Do(cfg, w, Fail(message)) == FailWith(w, "ApplyFailed", message)
    ensures ReadyAt(Do(cfg, w, Fail(message)).phase.status).None?
  {
    FailedStatusReady(Snapshot(w).status, Snapshot(w).generation, "ApplyFailed", message);
  }

  /** A reconcile that reads the last version and fails has that reported, over whatever success is stored. */
  lemma FailedReconcile(cfg: Config, w: World, order: seq<Obj>, message: string)
    requires Shape(w) && w.phase.Idle? && w.cache == |w.log| - 1 && Current(w).Some?
    requires ReadyAt(Current(w).value.status).Some?
    requires var objs := cfg.render(Current(w).value.spec); objs.Some? && multiset(objs.value) == multiset(order)
    ensures var w' := Do(cfg, Do(cfg, Do(cfg, w, Begin(order)), Fail(message)), Report(true));
            && Shape(w') && w'.phase.Idle? && w'.cache == w.cache && CurrentStore(w') == CurrentStore(w)
            && |w'.log| == |w.log| + 1 && w.log <= w'.log && Current(w').Some?
            && Current(w').value == Current(w).value.(status := Current(w').value.status)
            && ReadyAt(Current(w').value.status).None?
  {
    QuietBegin(cfg, w, order);
    var begun := Do(cfg, w, Begin(order));
    assert begun.cache == w.cache;
    FailedApply(cfg, begun, message);
  }

  lemma FailedApply(cfg: Config, w: World, message: string)
    requires Shape(w) && w.phase.Applying? && w.seen == |w.log| - 1 && ReadyAt(Snapshot(w).status).Some?
    ensures var w' := Do(cfg, Do(cfg, w, Fail(message)), Report(true));
            && Shape(w') && w'.phase.Idle? && w'.cache == w.cache && CurrentStore(w') == CurrentStore(w)
            && |w'.log| == |w.log| + 1 && w.log <= w'.log && Current(w').Some?
            && Current(w').value == Snapshot(w).(status := Current(w').value.status)
            && ReadyAt(Current(w').value.status).None?
  {
    FailsApplying(cfg, w, message);
    var failing := Do(cfg, w, Fail(message));
    StepKeepsShape(cfg, w, Fail(message));
    DeliveredReport(cfg, failing);
    ReportKeepsShape(failing);
    FreshReport(failing);
    assert CurrentStore(DoReport(failing)) == CurrentStore(w);
  }

  /** The second last version says that success, and the last one no longer; the cache shows the former. */
  predicate Overtaken(w: World)
  {
    && w.cache + 2 == |w.log| && w.log[w.cache].Some? && Current(w).Some?
    && var told, last := w.log[w.cache].value, Current(w).value;
    && SaidBefore(told) && last == told.(status := last.status) && ReadyAt(last.status).None?
  }

  /** A reconcile of the overtaken version applies every child and reports a success that says nothing new. */
  lemma StaleReconcile(cfg: Config, w: World, order: seq<Obj>, live: Option<int>) returns (steps: seq<Step>)
    requires Shape(w) && w.phase.Idle? && Overtaken(w)
    requires var objs := cfg.render(Current(w).value.spec); objs.Some? && multiset(objs.value) == multiset(order)
    requires C.Complete(cfg.server, OwnerOf(cfg, Current(w).value), CurrentStore(w), order).finished == |order|
    ensures exists middle :: AppliesChildren(middle) && steps == [Begin(order)] + middle + [Finish(live)]
    ensures var w' := Continue(cfg, w, steps);
            && Shape(w') && w'.phase.Reporting? && w'.log == w.log && w'.seen == w.cache
            && ReadyAt(w'.phase.status) == Some(Current(w).value.generation)
  {
    var apply := AppliesAll(cfg, w, order);
    var applied := Continue(cfg, w, apply);
    FinishesReady(cfg, applied, live);
    StepKeepsShape(cfg, applied, Finish(live));
    ContinueOne(cfg, w, apply, Finish(live));
    steps := apply + [Finish(live)];
  }

  lemma SuccessSaysIt(wl: Workload, live: Option<int>)
    ensures SaidBefore(wl.(status := SucceededStatus(wl.status, wl.spec, wl.generation, live)))
    ensures ReadyAt(SucceededStatus(wl.status, wl.spec, wl.generation, live)) == Some(wl.generation)
  {
    var r := RolloutCondition(wl.spec, wl.generation);
    var y := Condition(READY, true, "Reconciled", RECONCILED, wl.generation);
    var once := SetCondition(wl.status.conditions, r);
    SetThenFind(wl.status.conditions, r, ROLLOUT_DEGRADED);
    SetThenFind(once, y, ROLLOUT_DEGRADED);
    SetThenFind(once, y, READY);
    SucceededStatusReady(wl.status, wl.spec, wl.generation, live);
  }

  /** Nothing under way, the success told, and every child applied. */
  ghost predicate Told(cfg: Config, wl: Workload, w: World, order: seq<Obj>)
  {
    && w.log != [] && w.phase.Idle? && Current(w).Some?
    && Current(w).value == wl.(status := Current(w).value.status)
    && SaidBefore(Current(w).value) && ReadyAt(Current(w).value.status).Some?
    && C.Complete(cfg.server, OwnerOf(cfg, wl), CurrentStore(w), order).finished == |order|
  }

  lemma CompleteAgain(cfg: Config, w: World, order: seq<Obj>)
    requires ValidServer(cfg.server) && Safe(cfg, w) && CanConverge(cfg, w, order)
    ensures var owner, store := OwnerOf(cfg, Current(w).value), CurrentStore(w);
            && C.Complete(cfg.server, owner, store, order).finished == |order|
            && C.Complete(cfg.server, owner, C.Complete(cfg.server, owner, store, order).store, order).finished ==
               |order|
  {
    var owner, store := OwnerOf(cfg, Current(w).value), CurrentStore(w);
    C.CompletesIff(cfg.server, owner, store, order);
    StoreIsStored(cfg, w);
    C.CompleteTwice(cfg.server, owner, store, order, order);
  }

  lemma TellSuccess(cfg: Config, w: World, order: seq<Obj>, live: Option<int>) returns (steps: seq<Step>)
    requires ValidServer(cfg.server) && Shape(w) && Safe(cfg, w) && CanConverge(cfg, w, order)
    requires w.phase.Idle? && w.cache == |w.log| - 1
    ensures Told(cfg, Current(w).value, Continue(cfg, w, steps), order)
  {
    CompleteAgain(cfg, w, order);
    steps := QuietReconcile(cfg, w, order, live);
    SuccessSaysIt(Current(w).value, live);
  }

  lemma {:induction false} ShapeStays(cfg: Config, w: World, steps: seq<Step>)
    requires Shape(w)
    ensures Shape(Continue(cfg, w, steps))
    decreases |steps|
  {
    if steps != [] {
      ShapeStays(cfg, w, steps[..|steps| - 1]);
      StepKeepsShape(cfg, Continue(cfg, w, steps[..|steps| - 1]), steps[|steps| - 1]);
    }
  }

  /** Afterwards the cache is shown the success. */
  lemma ShowSuccess(cfg: Config, w: World, order: seq<Obj>, live: Option<int>) returns (steps: seq<Step>)
    requires ValidServer(cfg.server) && Shape(w) && Safe(cfg, w) && CanConverge(cfg, w, order)
    requires w.phase.Idle? && w.cache == |w.log| - 1
    ensures var w' := Continue(cfg, w, steps); Told(cfg, Current(w).value, w', order) && w'.cache == |w'.log| - 1
  {
    var reconcile := TellSuccess(cfg, w, order, live);
    ShapeStays(cfg, w, reconcile);
    var told := Continue(cfg, w, reconcile);
    var observe := CatchUp(cfg, told);
    ContinueMore(cfg, w, reconcile, observe);
    StaysTold(cfg, Current(w).value, told, Continue(cfg, told, observe), order);
    steps := reconcile + observe;
  }

  lemma StaysTold(cfg: Config, wl: Workload, w: World, w': World, order: seq<Obj>)
    requires Told(cfg, wl, w, order) && w' == w.(cache := |w.log| - 1, phase := Idle)
    ensures Told(cfg, wl, w', order)
  {
    assert CurrentStore(w') == CurrentStore(w);
  }

  /** A success is about to be reported for the second time, and what is stored no longer says it. */
  predicate AboutToBeLost(wl: Workload, w: World)
  {
    && w.log != [] && w.phase.Reporting? && ReadyAt(w.phase.status) == Some(wl.generation)
    && Reading(w) && SaidBefore(Snapshot(w)) && Snapshot(w) == wl.(status := Snapshot(w).status)
    && Current(w).Some? && Current(w).value == wl.(status := Current(w).value.status)
    && ReadyAt(Current(w).value.status).None?
  }

  /** From a told world: a reconcile fails, and the next one still reads the success. */
  lemma OvertakeSuccess(cfg: Config, w: World, wl: Workload, order: seq<Obj>, message: string, live: Option<int>)
    returns (steps: seq<Step>)
    requires Shape(w) && Told(cfg, wl, w, order) && w.cache == |w.log| - 1
    requires var objs := cfg.render(wl.spec); objs.Some? && multiset(objs.value) == multiset(order)
    ensures AboutToBeLost(wl, Continue(cfg, w, steps))
  {
    FailedReconcile(cfg, w, order, message);
    var failed := Do(cfg, Do(cfg, Do(cfg, w, Begin(order)), Fail(message)), Report(true));
    IsOvertaken(cfg, w, failed, wl, order);
    var more := OvertakenSuccess(cfg, failed, wl, order, live);
    ThreeMore(cfg, w, Begin(order), Fail(message), Report(true));
    ContinueMore(cfg, w, [Begin(order), Fail(message), Report(true)], more);
    steps := [Begin(order), Fail(message), Report(true)] + more;
  }

  lemma IsOvertaken(cfg: Config, w: World, w': World, wl: Workload, order: seq<Obj>)
    requires Told(cfg, wl, w, order) && w.cache == |w.log| - 1 && w'.cache == w.cache
    requires |w'.log| == |w.log| + 1 && w.log <= w'.log && Current(w').Some?
    requires Current(w').value == Current(w).value.(status := Current(w').value.status)
    requires ReadyAt(Current(w').value.status).None?
    ensures Overtaken(w') && Current(w').value == wl.(status := Current(w').value.status)
  {
    assert w'.log[w.cache] == Current(w);
  }

  lemma OvertakenSuccess(cfg: Config, w: World, wl: Workload, order: seq<Obj>, live: Option<int>)
    returns (steps: seq<Step>)
    requires Shape(w) && w.phase.Idle? && Overtaken(w) && Current(w).value == wl.(status := Current(w).value.status)
    requires var objs := cfg.render(wl.spec); objs.Some? && multiset(objs.value) == multiset(order)
    requires C.Complete(cfg.server, OwnerOf(cfg, wl), CurrentStore(w), order).finished == |order|
    ensures AboutToBeLost(wl, Continue(cfg, w, steps))
  {
    steps := StaleReconcile(cfg, w, order, live);
    ReportsOvertaken(w, Continue(cfg, w, steps), wl);
  }

  lemma ReportsOvertaken(w: World, w': World, wl: Workload)
    requires Overtaken(w) && Current(w).value == wl.(status := Current(w).value.status)
    requires w'.log == w.log && w'.seen == w.cache && w'.phase.Reporting?
    requires ReadyAt(w'.phase.status) == Some(wl.generation)
    ensures AboutToBeLost(wl, w')
  {
  }

  lemma ThreeMore(cfg: Config, w: World, a: Step, b: Step, c: Step)
    ensures Continue(cfg, w, [a, b, c]) == Do(cfg, Do(cfg, Do(cfg, w, a), b), c)
  {
    ContinueOne(cfg, w, [], a);
    ContinueOne(cfg, w, [a], b);
    ContinueOne(cfg, w, [a, b], c);
    assert [] + [a] == [a] && [a] + [b] == [a, b] && [a, b] + [c] == [a, b, c];
  }

  lemma LoseFrom(cfg: Config, w: World, wl: Workload, order: seq<Obj>, message: string, live: Option<int>)
    returns (steps: seq<Step>)
    requires ValidServer(cfg.server) && ReadyFor(cfg, w, wl, order)
    ensures AboutToBeLost(wl, Continue(cfg, w, steps))
  {
    var tell := ShowSuccess(cfg, w, order, live);
    ShapeStays(cfg, w, tell);
    var told := Continue(cfg, w, tell);
    var overtake := OvertakeSuccess(cfg, told, wl, order, message, live);
    Then(cfg, w, tell, overtake, told, Continue(cfg, told, overtake));
    steps := tell + overtake;
  }

  lemma LoseAny(cfg: Config, w: World, wl: Workload, order: seq<Obj>, message: string, live: Option<int>)
    returns (steps: seq<Step>)
    requires ValidServer(cfg.server) && Shape(w) && Safe(cfg, w) && CanConverge(cfg, w, order) && Current(w) == Some(wl)
    ensures AboutToBeLost(wl, Continue(cfg, w, steps))
  {
    var catchUp := GetReadyFor(cfg, w, wl, order);
    var ready := Continue(cfg, w, catchUp);
    var more := LoseFrom(cfg, ready, wl, order, message, live);
    Then(cfg, w, catchUp, more, ready, Continue(cfg, ready, more));
    steps := catchUp + more;
  }

  /** A reconcile of the Workload's generation has applied every child, and the delivery of its report leaves
      the Workload not ready at that generation. */
  ghost predicate Lost(cfg: Config, wl: Workload, w: World)
  {
    && w.log != [] && w.phase.Reporting? && ReadyAt(w.phase.status) == Some(wl.generation)
    && w.runs != [] && Completed(cfg, w, |w.runs| - 1, wl.uid, wl.generation)
    && Current(w).Some? && Current(w).value == wl.(status := Current(w).value.status)
    && var w' := Do(cfg, w, Report(true));
    && w'.log != [] && Current(w').Some? && ReadyAt(Current(w').value.status) != Some(wl.generation)
  }

  /** A success that is not stored, from every reachable world whose children can be applied: a success is
      told, a later reconcile fails and is told of, the cache does not show that yet, and a third reconcile
      applies every child and has its report delivered. */
  lemma SuccessIsLost(cfg: Config, past: seq<Step>, order: seq<Obj>, message: string, live: Option<int>)
    returns (steps: seq<Step>)
    requires ValidServer(cfg.server) && CanConverge(cfg, After(cfg, past), order)
    ensures Lost(cfg, Current(After(cfg, past)).value, After(cfg, past + steps))
  {
    Always(cfg, past);
    steps := LoseAny(cfg, After(cfg, past), Current(After(cfg, past)).value, order, message, live);
    ContinueMore(cfg, START, past, steps);
    LostAtTheEnd(cfg, past + steps, Current(After(cfg, past)).value);
  }

  lemma LostAtTheEnd(cfg: Config, steps: seq<Step>, wl: Workload)
    requires ValidServer(cfg.server) && AboutToBeLost(wl, After(cfg, steps))
    ensures Lost(cfg, wl, After(cfg, steps))
  {
    Always(cfg, steps);
    SuccessIsStoredIff(cfg, steps);
  }
}
