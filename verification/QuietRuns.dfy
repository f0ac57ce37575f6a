/** Every quiet run, not just one: whatever the controller does by itself, in whatever order and however
    often it restarts, its first delivered report finds the store at the fixpoint. */
module QuietRuns {
  import opened Values
  import opened Objects
  import opened Workloads
  import opened Protocol
  import opened ProtocolInvariants
  import opened ChildSafety
  import opened QuietRun
  import C = Convergence
  import T = ProtocolTheorems

  /** A step that writes nothing but what the controller writes, and in which no call for a child fails and
      every get of one returns the last version. Crashes, lost reports, and reads of the Workload from a
      cache that lags behind the controller's own reports are quiet too. */
  predicate QuietStep(w: World, step: Step)
  {
    match step
    case EditSpec(_) => false
    case CreateWorkload(_) => false
    case DeleteWorkload => false
    case WriteChild(_, _) => false
    case Fail(_) => false
    case Fetch(from) => w.phase.Applying? && w.phase.todo != [] ==> from == |History(w, w.phase.todo[0].key)|
    case Write(lost) => !lost
    case _ => true
  }

  predicate QuietSteps(cfg: Config, w: World, steps: seq<Step>)
  {
    steps == []
    || (QuietSteps(cfg, w, steps[..|steps| - 1])
       && QuietStep(Continue(cfg, w, steps[..|steps| - 1]), steps[|steps| - 1]))
  }

  // What a quiet run keeps. `w0` is where it began, with nothing under way and the cache caught up.

  ghost predicate Begins(cfg: Config, w0: World, order: seq<Obj>)
  {
    && ValidServer(cfg.server) && Shape(w0) && Safe(cfg, w0) && CanConverge(cfg, w0, order)
    && w0.phase.Idle? && w0.cache == |w0.log| - 1
  }

  ghost function Target(cfg: Config, w0: World, order: seq<Obj>, key: Key): Option<Obj>
    requires w0.log != [] && Current(w0).Some?
  {
    C.Final(cfg.server, OwnerOf(cfg, Current(w0).value), C.Live(CurrentStore(w0), key), multiset(order), key)
  }

  /** Since the beginning only the status of the Workload has changed, and every status stored is ready. */
  predicate OnlyReports(w0: World, w: World)
    requires w0.log != [] && Current(w0).Some?
  {
    var n, wl := |w0.log|, Current(w0).value;
    && w0.log <= w.log
    && (forall i :: n - 1 <= i < |w.log| ==> w.log[i].Some? && w.log[i].value == wl.(status := w.log[i].value.status))
    && (forall i :: n <= i < |w.log| ==> ReadyNow(wl.generation, w.log[i].value.status))
  }

  predicate ReadyNow(generation: nat, status: Status)
  {
    ReadyAt(status) == Some(generation) && status.observedGeneration == generation
  }

  /** Each key is as it was at the beginning or as it will be at the end. */
  ghost predicate Midway(cfg: Config, w0: World, w: World, order: seq<Obj>)
    requires w0.log != [] && Current(w0).Some?
  {
    forall key :: C.Live(CurrentStore(w), key) in {C.Live(CurrentStore(w0), key), Target(cfg, w0, order, key)}
  }

  /** The children still to do are rendered ones, and every other key is as it will be at the end. */
  ghost predicate Remaining(cfg: Config, w0: World, w: World, order: seq<Obj>, todo: seq<Obj>)
    requires w0.log != [] && Current(w0).Some?
  {
    && (forall d :: d in todo ==> d in multiset(order))
    && (forall key :: (forall d :: d in todo ==> d.key != key) ==>
       C.Live(CurrentStore(w), key) == Target(cfg, w0, order, key))
  }

  ghost predicate OnCourse(cfg: Config, w0: World, w: World, order: seq<Obj>)
    requires w0.log != [] && Current(w0).Some?
  {
    match w.phase
    case Idle => true
    case Applying(todo) => w.seen >= |w0.log| - 1 && Remaining(cfg, w0, w, order, todo)
    case Fetched(todo, from) =>
      && w.seen >= |w0.log| - 1 && Remaining(cfg, w0, w, order, todo)
      && todo != [] && from == |History(w, todo[0].key)|
    case Reporting(status) =>
      && w.seen >= |w0.log| - 1 && Remaining(cfg, w0, w, order, []) && Reading(w)
      && status ==
         SucceededStatus(Snapshot(w).status, Snapshot(w).spec, Snapshot(w).generation, Some(status.readyReplicas))
  }

  ghost predicate QuietInvariant(cfg: Config, w0: World, w: World, order: seq<Obj>)
    requires w0.log != [] && Current(w0).Some?
  {
    && Shape(w) && OnlyReports(w0, w) && w.cache >= |w0.log| - 1
    && Midway(cfg, w0, w, order) && OnCourse(cfg, w0, w, order)
  }

  lemma BeginKeeps(cfg: Config, w0: World, w: World, order: seq<Obj>, order': seq<Obj>)
    requires Begins(cfg, w0, order) && QuietInvariant(cfg, w0, w, order) && w.phase.Idle?
    ensures QuietInvariant(cfg, w0, Do(cfg, w, Begin(order')), order)
  {
    var w' := Do(cfg, w, Begin(order'));
    StepKeepsShape(cfg, w, Begin(order'));
    assert w.log[w.cache].value.spec == Current(w0).value.spec;
    if w' != w {
      assert w'.phase == Applying(order') && multiset(order') == multiset(order) && CurrentStore(w') == CurrentStore(w);
      NothingDone(cfg, w0, w', order, order');
    }
  }

  lemma NothingDone(cfg: Config, w0: World, w: World, order: seq<Obj>, order': seq<Obj>)
    requires w0.log != [] && Current(w0).Some? && Midway(cfg, w0, w, order) && multiset(order') == multiset(order)
    ensures Remaining(cfg, w0, w, order, order')
  {
    assert forall d :: d in order' <==> d in multiset(order');
  }

  /** Settling a child takes it to where it will be at the end, wherever between it is. */
  lemma ChildReachesTarget(cfg: Config, w0: World, w: World, order: seq<Obj>, d: Obj)
    requires Begins(cfg, w0, order) && Midway(cfg, w0, w, order) && d in multiset(order)
    ensures var owner := OwnerOf(cfg, Current(w0).value);
            var settled := C.Settled(cfg.server, owner, C.Live(CurrentStore(w), d.key), d);
            settled.Some? && settled == Target(cfg, w0, order, d.key)
  {
    var live0 := C.Live(CurrentStore(w0), d.key);
    assert C.Named(multiset(order), d.key) == d;
    StoreIsStored(cfg, w0);
    C.SettledTwice(cfg.server, OwnerOf(cfg, Current(w0).value), live0, d);
  }

  /** A write after a get of the last version settles the child. */
  lemma FreshWrite(cfg: Config, w: World)
    requires Shape(w) && w.phase.Fetched? && w.phase.todo != [] && w.phase.from == |History(w, w.phase.todo[0].key)|
    requires C.Settled(cfg.server, OwnerOf(cfg, Snapshot(w)), C.Live(CurrentStore(w), w.phase.todo[0].key),
             w.phase.todo[0]).Some?
    ensures var w', d := Do(cfg, w, Write(false)), w.phase.todo[0];
            && w'.phase == Applying(w.phase.todo[1..]) && w'.log == w.log && w'.seen == w.seen && w'.cache == w.cache
            && C.Live(CurrentStore(w'), d.key) ==
               C.Settled(cfg.server, OwnerOf(cfg, Snapshot(w)), C.Live(CurrentStore(w), d.key), d)
            && forall key :: key != d.key ==> C.Live(CurrentStore(w'), key) == C.Live(CurrentStore(w), key)
  {
    var todo, d, owner := w.phase.todo, w.phase.todo[0], OwnerOf(cfg, Snapshot(w));
    var h := History(w, d.key);
    LiveIsLast(w, d.key);
    FreshWriteSettles(cfg.server, owner, |w.runs| - 1, h, d);
    var outcome := CreateOrUpdate(cfg.server, owner, |w.runs| - 1, h, |h|, d);
    QuietSettle(w, todo, outcome);
    assert Do(cfg, w, Write(false)) == Settle(w, todo, outcome, false);
  }

  lemma WriteKeeps(cfg: Config, w0: World, w: World, order: seq<Obj>)
    requires Begins(cfg, w0, order) && QuietInvariant(cfg, w0, w, order) && w.phase.Fetched?
    ensures QuietInvariant(cfg, w0, Do(cfg, w, Write(false)), order)
  {
    var todo := w.phase.todo;
    assert todo[0] in todo;
    StepKeepsShape(cfg, w, Write(false));
    ChildReachesTarget(cfg, w0, w, order, todo[0]);
    FreshWrite(cfg, w);
    OneLess(cfg, w0, w, Do(cfg, w, Write(false)), order, todo);
  }

  lemma OneLess(cfg: Config, w0: World, w: World, w': World, order: seq<Obj>, todo: seq<Obj>)
    requires w0.log != [] && Current(w0).Some? && todo != []
    requires Midway(cfg, w0, w, order) && Remaining(cfg, w0, w, order, todo)
    requires C.Live(CurrentStore(w'), todo[0].key) == Target(cfg, w0, order, todo[0].key)
    requires forall key :: key != todo[0].key ==> C.Live(CurrentStore(w'), key) == C.Live(CurrentStore(w), key)
    ensures Midway(cfg, w0, w', order) && Remaining(cfg, w0, w', order, todo[1..])
  {
    assert todo == [todo[0]] + todo[1..];
  }

  lemma FinishKeeps(cfg: Config, w0: World, w: World, order: seq<Obj>, live: Option<int>)
    requires Begins(cfg, w0, order) && QuietInvariant(cfg, w0, w, order) && w.phase == Applying([])
    ensures QuietInvariant(cfg, w0, Do(cfg, w, Finish(live)), order)
  {
    StepKeepsShape(cfg, w, Finish(live));
    FinishedWorld(cfg, w, live);
    SameStoreKeeps(cfg, w0, w, Do(cfg, w, Finish(live)), order, []);
  }

  lemma FinishedWorld(cfg: Config, w: World, live: Option<int>)
    requires Shape(w) && w.phase == Applying([])
    ensures var w' := Do(cfg, w, Finish(live));
            && w'.phase.Reporting? && w' == w.(phase := w'.phase)
            && w'.phase.status ==
               SucceededStatus(Snapshot(w).status, Snapshot(w).spec, Snapshot(w).generation,
                 Some(w'.phase.status.readyReplicas))
  {
  }

  lemma SameStoreKeeps(cfg: Config, w0: World, w: World, w': World, order: seq<Obj>, todo: seq<Obj>)
    requires w0.log != [] && Current(w0).Some? && w'.children == w.children
    requires Midway(cfg, w0, w, order) && Remaining(cfg, w0, w, order, todo)
    ensures Midway(cfg, w0, w', order) && Remaining(cfg, w0, w', order, todo)
  {
    assert CurrentStore(w') == CurrentStore(w);
  }

  /** However stale the snapshot, the report leaves a ready status. */
  lemma ReportIsReady(w0: World, w: World)
    requires Shape(w) && w0.log != [] && Current(w0).Some? && OnlyReports(w0, w)
    requires w.phase.Reporting? && w.seen >= |w0.log| - 1
    requires w.phase.status ==
             SucceededStatus(Snapshot(w).status, Snapshot(w).spec, Snapshot(w).generation,
               Some(w.phase.status.readyReplicas))
    ensures Current(w).Some?
    ensures ReadyNow(Current(w0).value.generation,
            PatchStatus(Current(w).value.status, Snapshot(w).status, w.phase.status))
  {
    var wl := Snapshot(w);
    SucceededStatusReady(wl.status, wl.spec, wl.generation, Some(w.phase.status.readyReplicas));
    assert |w.log| > |w0.log| || w.log[w.seen] == Current(w);
  }

  lemma ReportedWorld(w: World, patched: Status)
    requires Shape(w) && w.phase.Reporting? && Current(w).Some?
    requires patched == PatchStatus(Current(w).value.status, Snapshot(w).status, w.phase.status)
    ensures var w', last := DoReport(w), Some(Current(w).value.(status := patched));
            && w'.phase.Idle? && w'.children == w.children && w'.cache == w.cache
            && w'.log == (if Current(w) == last then w.log else w.log + [last])
  {
  }

  lemma OneMoreReport(w0: World, w: World, w': World)
    requires w0.log != [] && Current(w0).Some? && w.log != [] && OnlyReports(w0, w)
    requires w'.log == w.log || |w'.log| == |w.log| + 1
    requires w.log <= w'.log
    requires Current(w').Some? && Current(w').value == Current(w0).value.(status := Current(w').value.status)
    requires ReadyNow(Current(w0).value.generation, Current(w').value.status)
    ensures OnlyReports(w0, w')
  {
  }

  lemma ReportKeeps(cfg: Config, w0: World, w: World, order: seq<Obj>)
    requires Begins(cfg, w0, order) && QuietInvariant(cfg, w0, w, order) && w.phase.Reporting?
    ensures var w' := DoReport(w);
            && QuietInvariant(cfg, w0, w', order) && Remaining(cfg, w0, w', order, [])
            && Current(w').Some? && ReadyNow(Current(w0).value.generation, Current(w').value.status)
  {
    ReportKeepsShape(w);
    ReportIsReady(w0, w);
    var patched := PatchStatus(Current(w).value.status, Snapshot(w).status, w.phase.status);
    ReportedWorld(w, patched);
    OneMoreReport(w0, w, DoReport(w));
    SameStoreKeeps(cfg, w0, w, DoReport(w), order, []);
  }

  /** A restart, an advance of the cache, a get, or a report that is lost. */
  predicate Silent(step: Step)
  {
    step.Crash? || step.Observe? || step.Fetch? || step == Report(false)
  }

  lemma SilentWorld(cfg: Config, w: World, step: Step)
    requires Shape(w) && Silent(step)
    ensures var w' := Do(cfg, w, step);
            && w' == w.(cache := w'.cache, phase := w'.phase) && w'.cache >= w.cache
            && (|| w'.phase.Idle? || w'.phase == w.phase
                || (step.Fetch? && w.phase.Applying? && w.phase.todo != []
                   && w'.phase == Fetched(w.phase.todo, step.from)))
  {
  }

  lemma SilentStepKeeps(cfg: Config, w0: World, w: World, order: seq<Obj>, step: Step)
    requires Begins(cfg, w0, order) && QuietInvariant(cfg, w0, w, order) && QuietStep(w, step) && Silent(step)
    ensures QuietInvariant(cfg, w0, Do(cfg, w, step), order)
  {
    StepKeepsShape(cfg, w, step);
    SilentWorld(cfg, w, step);
    SilentKeeps(cfg, w0, w, Do(cfg, w, step), order);
  }

  lemma SilentKeeps(cfg: Config, w0: World, w: World, w': World, order: seq<Obj>)
    requires w0.log != [] && Current(w0).Some? && QuietInvariant(cfg, w0, w, order) && Shape(w')
    requires w' == w.(cache := w'.cache, phase := w'.phase) && w'.cache >= w.cache
    requires || w'.phase.Idle? || w'.phase == w.phase
             || (w.phase.Applying? && w.phase.todo != []
                 && w'.phase == Fetched(w.phase.todo, |History(w, w.phase.todo[0].key)|))
    ensures QuietInvariant(cfg, w0, w', order)
  {
    assert CurrentStore(w') == CurrentStore(w);
  }

  lemma QuietStepKeeps(cfg: Config, w0: World, w: World, order: seq<Obj>, step: Step)
    requires Begins(cfg, w0, order) && QuietInvariant(cfg, w0, w, order) && QuietStep(w, step)
    ensures QuietInvariant(cfg, w0, Do(cfg, w, step), order)
  {
    match step
    case Begin(order') => if w.phase.Idle? { BeginKeeps(cfg, w0, w, order, order'); }
    case Write(_) => if w.phase.Fetched? { WriteKeeps(cfg, w0, w, order); }
    case Finish(live) => if w.phase == Applying([]) { FinishKeeps(cfg, w0, w, order, live); }
    case Report(delivered) =>
      if !delivered {
        SilentStepKeeps(cfg, w0, w, order, step);
      } else if w.phase.Reporting? {
        ReportKeeps(cfg, w0, w, order);
      }
    case _ => SilentStepKeeps(cfg, w0, w, order, step);
  }

  lemma {:induction false} QuietRunKeeps(cfg: Config, w0: World, order: seq<Obj>, steps: seq<Step>)
    requires Begins(cfg, w0, order) && QuietSteps(cfg, w0, steps)
    ensures QuietInvariant(cfg, w0, Continue(cfg, w0, steps), order)
    decreases |steps|
  {
    if steps != [] {
      var before, step := steps[..|steps| - 1], steps[|steps| - 1];
      QuietRunKeeps(cfg, w0, order, before);
      QuietStepKeeps(cfg, w0, Continue(cfg, w0, before), order, step);
    }
  }

  /** What is stored at the end is what the rendering asks for, and keeps what it must keep. */
  lemma TargetConforms(cfg: Config, w0: World, order: seq<Obj>, key: Key)
    requires Begins(cfg, w0, order)
    ensures var owner := OwnerOf(cfg, Current(w0).value);
            var before, after := C.Live(CurrentStore(w0), key), Target(cfg, w0, order, key);
            if C.Names(multiset(order), key) then
              var d := C.Named(multiset(order), key);
              && after.Some? && Conforms(cfg.server, owner, d, after.value)
              && (before.Some? ==> Preserves(owner, before.value, d, after.value))
            else after == before
  {
    var owner := OwnerOf(cfg, Current(w0).value);
    StoreIsStored(cfg, w0);
    C.CompleteRunConforms(cfg.server, owner, CurrentStore(w0), order, key);
    C.CompleteIsFinal(cfg.server, owner, CurrentStore(w0), order, key);
  }

  /** Convergence of every quiet run: from a reachable world in which nothing is under way and the cache has
      caught up, every quiet run that ends in a delivered report has converged. */
  lemma QuietRunsConverge(cfg: Config, past: seq<Step>, order: seq<Obj>, steps: seq<Step>, key: Key)
    requires ValidServer(cfg.server) && CanConverge(cfg, After(cfg, past), order)
    requires After(cfg, past).phase.Idle? && After(cfg, past).cache == |After(cfg, past).log| - 1
    requires QuietSteps(cfg, After(cfg, past), steps) && Continue(cfg, After(cfg, past), steps).phase.Reporting?
    ensures Converged(cfg, After(cfg, past), After(cfg, past + (steps + [Report(true)])), order, key)
  {
    var w0 := After(cfg, past);
    T.Always(cfg, past);
    QuietRunKeeps(cfg, w0, order, steps);
    ReportKeeps(cfg, w0, Continue(cfg, w0, steps), order);
    AtTheEnd(cfg, w0, DoReport(Continue(cfg, w0, steps)), order, key);
    LastReport(cfg, past, steps);
  }

  lemma LastReport(cfg: Config, past: seq<Step>, steps: seq<Step>)
    requires var w := Continue(cfg, After(cfg, past), steps); w.log != [] && Reading(w) && w.phase.Reporting?
    ensures After(cfg, past + (steps + [Report(true)])) == DoReport(Continue(cfg, After(cfg, past), steps))
  {
    ContinueOne(cfg, After(cfg, past), steps, Report(true));
    ContinueMore(cfg, START, past, steps + [Report(true)]);
  }

  lemma AtTheEnd(cfg: Config, w0: World, w: World, order: seq<Obj>, key: Key)
    requires Begins(cfg, w0, order) && w.log != [] && OnlyReports(w0, w) && Remaining(cfg, w0, w, order, [])
    requires Current(w).Some? && ReadyNow(Current(w0).value.generation, Current(w).value.status)
    ensures Converged(cfg, w0, w, order, key)
  {
    TargetConforms(cfg, w0, order, key);
  }
}
