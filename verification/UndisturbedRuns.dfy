/** Every run in which nobody else writes, whatever fails in it: when a reconcile gets as far as reporting
    success, exactly the children it overlooked are not as they should be. */
module UndisturbedRuns {
  import opened Values
  import opened Objects
  import opened Workloads
  import opened Protocol
  import opened ProtocolInvariants
  import opened ChildSafety
  import opened QuietRun
  import opened QuietRuns
  import C = Convergence
  import T = ProtocolTheorems

  /** A step that is not somebody else's write: calls may fail, replies may be lost, gets may be stale, and the
      controller may crash. */
  predicate OwnStep(step: Step)
  {
    !step.EditSpec? && !step.CreateWorkload? && !step.DeleteWorkload? && !step.WriteChild?
  }

  predicate Undisturbed(steps: seq<Step>)
  {
    forall s :: s in steps ==> OwnStep(s)
  }

  // Children that are overlooked

  function WriteOutcome(cfg: Config, w: World): Outcome
    requires Reading(w) && w.runs != [] && w.phase.Fetched? && w.phase.todo != []
    requires w.phase.from <= |History(w, w.phase.todo[0].key)|
  {
    var d := w.phase.todo[0];
    CreateOrUpdate(cfg.server, OwnerOf(cfg, Snapshot(w)), |w.runs| - 1, History(w, d.key), w.phase.from, d)
  }

  predicate CanWrite(w: World)
  {
    && Reading(w) && w.runs != [] && w.phase.Fetched? && w.phase.todo != []
    && w.phase.from <= |History(w, w.phase.todo[0].key)|
  }

  /** The write about to be made sends nothing, because the version held is as desired, although a write over the
      last version would change it. */
  predicate Overlooks(cfg: Config, w: World)
  {
    && CanWrite(w) && WriteOutcome(cfg, w).Kept?
    && var d := w.phase.todo[0];
    && var live := C.Live(CurrentStore(w), d.key);
    && C.Settled(cfg.server, OwnerOf(cfg, Snapshot(w)), live, d) != live
  }

  /** That is: the version held needs no write, and the last version does. */
  lemma OverlooksIff(cfg: Config, w: World)
    requires CanWrite(w)
    ensures var d, owner := w.phase.todo[0], OwnerOf(cfg, Snapshot(w));
            var h := History(w, d.key);
            var held, last := ReadVersion(h, w.phase.from), ReadVersion(h, |h|);
            Overlooks(cfg, w) <==> C.AsDesired(owner, held, d) && C.Settled(cfg.server, owner, last, d) != last
  {
    LiveIsLast(w, w.phase.todo[0].key);
  }

  /** The keys that the latest reconcile of the run has overlooked. */
  function Overlooked(cfg: Config, w0: World, steps: seq<Step>): set<Key>
  {
    if steps == [] then {}
    else
      var before, step := steps[..|steps| - 1], steps[|steps| - 1];
      AfterStep(cfg, Continue(cfg, w0, before), step, Overlooked(cfg, w0, before))
  }

  function AfterStep(cfg: Config, w: World, step: Step, overlooked: set<Key>): set<Key>
  {
    if step.Begin? && w.phase.Idle? then {}
    else if step.Write? && Overlooks(cfg, w) then overlooked + {w.phase.todo[0].key}
    else overlooked
  }

  // What such a run keeps

  /** Since the beginning only the status of the Workload has changed. */
  predicate OnlyStatus(w0: World, w: World)
    requires w0.log != [] && Current(w0).Some?
  {
    var wl := Current(w0).value;
    && w0.log <= w.log
    && forall i :: |w0.log| - 1 <= i < |w.log| ==>
       w.log[i].Some? && w.log[i].value == wl.(status := w.log[i].value.status)
  }

  predicate IsToDo(todo: seq<Obj>, key: Key)
  {
    exists d :: d in todo && d.key == key
  }

  /** The children still to do are rendered ones under different keys; of the other keys, exactly the overlooked
      ones are not as they will be at the end. */
  ghost predicate DoneBut(cfg: Config, w0: World, w: World, order: seq<Obj>, todo: seq<Obj>, overlooked: set<Key>)
    requires w0.log != [] && Current(w0).Some?
  {
    && (forall d :: d in todo ==> d in multiset(order)) && C.DistinctKeys(todo)
    && (forall key :: IsToDo(todo, key) ==> key !in overlooked)
    && (forall key :: !IsToDo(todo, key) ==>
          (C.Live(CurrentStore(w), key) == Target(cfg, w0, order, key) <==> key !in overlooked))
  }

  ghost predicate OnTrack(cfg: Config, w0: World, w: World, order: seq<Obj>, overlooked: set<Key>)
    requires w0.log != [] && Current(w0).Some?
  {
    match w.phase
    case Idle => true
    case Applying(todo) => w.seen >= |w0.log| - 1 && DoneBut(cfg, w0, w, order, todo, overlooked)
    case Fetched(todo, _) => todo != [] && w.seen >= |w0.log| - 1 && DoneBut(cfg, w0, w, order, todo, overlooked)
    case Reporting(status) => ReadyAt(status).Some? ==> DoneBut(cfg, w0, w, order, [], overlooked)
  }

  ghost predicate RunInvariant(cfg: Config, w0: World, w: World, order: seq<Obj>, overlooked: set<Key>)
    requires w0.log != [] && Current(w0).Some?
  {
    && Shape(w) && OnlyStatus(w0, w) && w.cache >= |w0.log| - 1
    && Midway(cfg, w0, w, order) && OnTrack(cfg, w0, w, order, overlooked)
  }

  // Writes

  /** Whatever version is held, what a write stores is what a write over the last version would store. */
  lemma AnyWrite(server: Server, owner: Owner, run: nat, h: seq<Version>, from: nat, desired: Obj)
    requires from <= |h|
    ensures var o := CreateOrUpdate(server, owner, run, h, from, desired);
            o.Put? ==>
              && o.history != [] && ReadVersion(o.history, |o.history|).Some?
              && ReadVersion(o.history, |o.history|) == C.Settled(server, owner, ReadVersion(h, |h|), desired)
  {
    var o := CreateOrUpdate(server, owner, run, h, from, desired);
    if o.Put? {
      assert ReadVersion(h, from) == ReadVersion(h, |h|);
      FreshWriteSettles(server, owner, run, h, desired);
      assert o == CreateOrUpdate(server, owner, run, h, |h|, desired);
    }
  }

  lemma SettledStore(w: World, outcome: Outcome, lost: bool)
    requires Reading(w) && w.runs != [] && w.phase.Fetched? && w.phase.todo != []
    requires outcome.Put? ==> outcome.history != [] && ReadVersion(outcome.history, |outcome.history|).Some?
    ensures CurrentStore(Settle(w, w.phase.todo, outcome, lost)) ==
            if outcome.Put?
              then CurrentStore(w)[w.phase.todo[0].key := ReadVersion(outcome.history, |outcome.history|).value]
            else CurrentStore(w)
  {
    assert !outcome.Put? ==> Settle(w, w.phase.todo, outcome, lost).children == w.children;
  }

  lemma SettledPhase(w: World, outcome: Outcome, lost: bool)
    requires Reading(w) && w.runs != [] && w.phase.Fetched? && w.phase.todo != []
    requires (outcome.Put? ==> outcome.history != [])
    ensures var w' := Settle(w, w.phase.todo, outcome, lost);
            && w'.log == w.log && w'.cache == w.cache && w'.seen == w.seen
            && (if outcome.Refused? || (outcome.Put? && lost) then w'.phase.Reporting? && ReadyAt(w'.phase.status).None?
                else w'.phase == Applying(w.phase.todo[1..]))
  {
    var status, generation := Snapshot(w).status, Snapshot(w).generation;
    if outcome.Refused? { FailedStatusReady(status, generation, "ApplyFailed", outcome.message); }
    FailedStatusReady(status, generation, "ApplyFailed", "no reply");
  }

  /** One child less to do: it is where it will be at the end, or it is overlooked. */
  lemma OneDone(
      cfg: Config, w0: World, w: World, w': World, order: seq<Obj>, todo: seq<Obj>, before: set<Key>,
        overlooked: set<Key>)
    requires w0.log != [] && Current(w0).Some? && todo != [] && DoneBut(cfg, w0, w, order, todo, before)
    requires forall key :: key != todo[0].key ==> C.Live(CurrentStore(w'), key) == C.Live(CurrentStore(w), key)
    requires overlooked == before || overlooked == before + {todo[0].key}
    requires C.Live(CurrentStore(w'), todo[0].key) == Target(cfg, w0, order, todo[0].key) <==> overlooked == before
    ensures DoneBut(cfg, w0, w', order, todo[1..], overlooked)
  {
    var key0 := todo[0].key;
    assert todo == [todo[0]] + todo[1..] && todo[0] in todo;
    assert IsToDo(todo, key0);
    forall d | d in todo[1..] ensures d.key != key0 {
      var i :| 0 <= i < |todo[1..]| && todo[1..][i] == d;
      assert todo[i + 1] == d;
    }
    forall key ensures IsToDo(todo, key) <==> key == key0 || IsToDo(todo[1..], key) {
      if d :| d in todo && d.key == key && d != todo[0] { assert d in todo[1..]; }
      if d :| d in todo[1..] && d.key == key { assert d in todo; }
    }
    assert forall i :: 0 <= i < |todo[1..]| ==> todo[1..][i] == todo[i + 1];
  }

  /** What a write does, however stale its get and whether or not the reply arrives: at most the one child
      changes, to where it will be at the end; and going on to the next child without having changed it
      there is overlooking it. */
  lemma WrittenWorld(cfg: Config, w: World, lost: bool)
    requires Shape(w) && CanWrite(w)
    ensures var w', d := Do(cfg, w, Write(lost)), w.phase.todo[0];
            var live, after := C.Live(CurrentStore(w), d.key), C.Live(CurrentStore(w'), d.key);
            var settled := C.Settled(cfg.server, OwnerOf(cfg, Snapshot(w)), live, d);
            && w'.log == w.log && w'.cache == w.cache && w'.seen == w.seen
            && (forall key :: key != d.key ==> C.Live(CurrentStore(w'), key) == C.Live(CurrentStore(w), key))
            && (after == live || after == settled)
            && (|| (w'.phase.Reporting? && ReadyAt(w'.phase.status).None?)
                || (w'.phase == Applying(w.phase.todo[1..]) && (after == settled <==> !Overlooks(cfg, w))))
  {
    var d := w.phase.todo[0];
    var h := History(w, d.key);
    var outcome := WriteOutcome(cfg, w);
    LiveIsLast(w, d.key);
    AnyWrite(cfg.server, OwnerOf(cfg, Snapshot(w)), |w.runs| - 1, h, w.phase.from, d);
    assert Do(cfg, w, Write(lost)) == Settle(w, w.phase.todo, outcome, lost);
    SettledStore(w, outcome, lost);
    SettledPhase(w, outcome, lost);
  }

  lemma WriteKeepsRun(cfg: Config, w0: World, w: World, order: seq<Obj>, overlooked: set<Key>, lost: bool)
    requires Begins(cfg, w0, order) && RunInvariant(cfg, w0, w, order, overlooked) && CanWrite(w)
    ensures RunInvariant(cfg, w0, Do(cfg, w, Write(lost)), order, AfterStep(cfg, w, Write(lost), overlooked))
  {
    var todo := w.phase.todo;
    StepKeepsShape(cfg, w, Write(lost));
    assert todo[0] in todo && IsToDo(todo, todo[0].key);
    ChildReachesTarget(cfg, w0, w, order, todo[0]);
    WrittenWorld(cfg, w, lost);
    WrittenKeeps(cfg, w0, w, Do(cfg, w, Write(lost)), order, overlooked, AfterStep(cfg, w, Write(lost), overlooked));
  }

  lemma WrittenKeeps(
      cfg: Config, w0: World, w: World, w': World, order: seq<Obj>, before: set<Key>, overlooked: set<Key>)
    requires w0.log != [] && Current(w0).Some? && RunInvariant(cfg, w0, w, order, before) && Shape(w')
    requires w.phase.Fetched? && w.phase.todo != [] && w'.log == w.log && w'.cache == w.cache && w'.seen == w.seen
    requires forall key :: key != w.phase.todo[0].key ==> C.Live(CurrentStore(w'), key) == C.Live(CurrentStore(w), key)
    requires var d := w.phase.todo[0];
             var after, target := C.Live(CurrentStore(w'), d.key), Target(cfg, w0, order, d.key);
             && (after == C.Live(CurrentStore(w), d.key) || after == target)
             && (overlooked == before || overlooked == before + {d.key})
             && (|| (w'.phase.Reporting? && ReadyAt(w'.phase.status).None?)
                 || (w'.phase == Applying(w.phase.todo[1..]) && (after == target <==> overlooked == before)))
    ensures RunInvariant(cfg, w0, w', order, overlooked)
  {
    if w'.phase.Applying? { OneDone(cfg, w0, w, w', order, w.phase.todo, before, overlooked); }
  }

  // The other steps

  lemma BeginKeepsRun(cfg: Config, w0: World, w: World, order: seq<Obj>, overlooked: set<Key>, order': seq<Obj>)
    requires Begins(cfg, w0, order) && RunInvariant(cfg, w0, w, order, overlooked) && w.phase.Idle?
    ensures RunInvariant(cfg, w0, Do(cfg, w, Begin(order')), order, {})
  {
    var w' := Do(cfg, w, Begin(order'));
    StepKeepsShape(cfg, w, Begin(order'));
    assert w.log[w.cache].value.spec == Current(w0).value.spec;
    if w' != w {
      assert w'.phase == Applying(order') && multiset(order') == multiset(order) && CurrentStore(w') == CurrentStore(w);
      NothingBegun(cfg, w0, w', order, order');
    }
  }

  lemma NothingBegun(cfg: Config, w0: World, w: World, order: seq<Obj>, order': seq<Obj>)
    requires Begins(cfg, w0, order) && Midway(cfg, w0, w, order) && multiset(order') == multiset(order)
    ensures DoneBut(cfg, w0, w, order, order', {})
  {
    assert forall d :: d in order' <==> d in multiset(order');
    C.OrderHasDistinctKeys(order');
  }

  /** Steps that store nothing and apply nothing. */
  predicate WritesNothing(step: Step)
  {
    OwnStep(step) && !step.Begin? && !step.Write? && step != Report(true)
  }

  lemma UnwrittenWorld(cfg: Config, w: World, step: Step)
    requires Shape(w) && WritesNothing(step)
    ensures var w' := Do(cfg, w, step);
            && w' == w.(cache := w'.cache, phase := w'.phase) && w'.cache >= w.cache
            && (|| w'.phase.Idle? || w'.phase == w.phase
                || (w.phase == Applying([]) && w'.phase.Reporting?)
                || (w.phase.Applying? && w.phase.todo != [] && w'.phase.Fetched? && w'.phase.todo == w.phase.todo)
                || (w'.phase.Reporting? && ReadyAt(w'.phase.status).None?))
  {
    if step.Fail? && (w.phase.Applying? || w.phase.Fetched?) {
      FailedStatusReady(Snapshot(w).status, Snapshot(w).generation, "ApplyFailed", step.message);
    }
  }

  lemma UnwrittenKeeps(cfg: Config, w0: World, w: World, w': World, order: seq<Obj>, overlooked: set<Key>)
    requires w0.log != [] && Current(w0).Some? && RunInvariant(cfg, w0, w, order, overlooked) && Shape(w')
    requires w' == w.(cache := w'.cache, phase := w'.phase) && w'.cache >= w.cache
    requires || w'.phase.Idle? || w'.phase == w.phase
             || (w.phase == Applying([]) && w'.phase.Reporting?)
             || (w.phase.Applying? && w.phase.todo != [] && w'.phase.Fetched? && w'.phase.todo == w.phase.todo)
             || (w'.phase.Reporting? && ReadyAt(w'.phase.status).None?)
    ensures RunInvariant(cfg, w0, w', order, overlooked)
  {
    assert CurrentStore(w') == CurrentStore(w);
  }

  lemma ReportKeepsRun(cfg: Config, w0: World, w: World, order: seq<Obj>, overlooked: set<Key>)
    requires Begins(cfg, w0, order) && RunInvariant(cfg, w0, w, order, overlooked) && w.phase.Reporting?
    ensures RunInvariant(cfg, w0, DoReport(w), order, overlooked)
    ensures CurrentStore(DoReport(w)) == CurrentStore(w)
  {
    var patched := PatchStatus(Current(w).value.status, Snapshot(w).status, w.phase.status);
    ReportKeepsShape(w);
    ReportedWorld(w, patched);
    assert CurrentStore(DoReport(w)) == CurrentStore(w);
  }

  lemma StepKeepsRun(cfg: Config, w0: World, w: World, order: seq<Obj>, overlooked: set<Key>, step: Step)
    requires Begins(cfg, w0, order) && RunInvariant(cfg, w0, w, order, overlooked) && OwnStep(step)
    ensures RunInvariant(cfg, w0, Do(cfg, w, step), order, AfterStep(cfg, w, step, overlooked))
  {
    if step.Begin? {
      if w.phase.Idle? { BeginKeepsRun(cfg, w0, w, order, overlooked, step.order); }
    } else if step.Write? {
      if CanWrite(w) { WriteKeepsRun(cfg, w0, w, order, overlooked, step.lost); }
    } else if step == Report(true) {
      if w.phase.Reporting? { ReportKeepsRun(cfg, w0, w, order, overlooked); }
    } else {
      StepKeepsShape(cfg, w, step);
      UnwrittenWorld(cfg, w, step);
      UnwrittenKeeps(cfg, w0, w, Do(cfg, w, step), order, overlooked);
    }
  }

  lemma {:induction false} RunKeepsRun(cfg: Config, w0: World, order: seq<Obj>, steps: seq<Step>)
    requires Begins(cfg, w0, order) && Undisturbed(steps)
    ensures RunInvariant(cfg, w0, Continue(cfg, w0, steps), order, Overlooked(cfg, w0, steps))
    decreases |steps|
  {
    if steps != [] {
      var before, step := steps[..|steps| - 1], steps[|steps| - 1];
      assert step in steps && forall s :: s in before ==> s in steps;
      RunKeepsRun(cfg, w0, order, before);
      StepKeepsRun(cfg, w0, Continue(cfg, w0, before), order, Overlooked(cfg, w0, before), step);
    }
  }

  // What a success means

  /** The run, from a reachable world with nothing under way and the cache caught up, is about to report success. */
  predicate AboutToSucceed(cfg: Config, past: seq<Step>, steps: seq<Step>)
  {
    var w0, w := After(cfg, past), Continue(cfg, After(cfg, past), steps);
    && w0.phase.Idle? && w0.cache == |w0.log| - 1 && Undisturbed(steps)
    && w.log != [] && Reading(w) && w.phase.Reporting? && ReadyAt(w.phase.status).Some?
  }

  /** When nobody else writes, whatever failed, was lost, crashed or was stale on the way: once a success is
      delivered, a child is where it should be if and only if the latest reconcile did not overlook it. */
  lemma SuccessIsCompleteIff(cfg: Config, past: seq<Step>, order: seq<Obj>, steps: seq<Step>, key: Key)
    requires ValidServer(cfg.server) && CanConverge(cfg, After(cfg, past), order) && AboutToSucceed(cfg, past, steps)
    ensures C.Live(CurrentStore(After(cfg, past + (steps + [Report(true)]))), key) ==
            Target(cfg, After(cfg, past), order, key)
            <==> key !in Overlooked(cfg, After(cfg, past), steps)
  {
    var w0 := After(cfg, past);
    T.Always(cfg, past);
    RunKeepsRun(cfg, w0, order, steps);
    ReportKeepsRun(cfg, w0, Continue(cfg, w0, steps), order, Overlooked(cfg, w0, steps));
    LastReport(cfg, past, steps);
  }

  /** No write of the run goes by a get of anything but the last version. */
  ghost predicate FreshGets(cfg: Config, w0: World, steps: seq<Step>)
  {
    forall n :: 0 <= n < |steps| && steps[n].Write? && CanWrite(Continue(cfg, w0, steps[..n])) ==>
      var w := Continue(cfg, w0, steps[..n]); w.phase.from == |History(w, w.phase.todo[0].key)|
  }

  lemma FreshOverlooksNothing(cfg: Config, w: World)
    requires CanWrite(w) && w.phase.from == |History(w, w.phase.todo[0].key)|
    ensures !Overlooks(cfg, w)
  {
    var d := w.phase.todo[0];
    LiveIsLast(w, d.key);
    FreshWriteSettles(cfg.server, OwnerOf(cfg, Snapshot(w)), |w.runs| - 1, History(w, d.key), d);
  }

  lemma {:induction false} FreshRunOverlooksNothing(cfg: Config, w0: World, steps: seq<Step>)
    requires FreshGets(cfg, w0, steps)
    ensures Overlooked(cfg, w0, steps) == {}
    decreases |steps|
  {
    if steps != [] {
      var before, step := steps[..|steps| - 1], steps[|steps| - 1];
      assert forall n :: 0 <= n < |before| ==> before[..n] == steps[..n] && before[n] == steps[n];
      FreshRunOverlooksNothing(cfg, w0, before);
      assert steps[..|before|] == before && steps[|before|] == step;
      var w := Continue(cfg, w0, before);
      if step.Write? && CanWrite(w) { FreshOverlooksNothing(cfg, w); }
    }
  }

  /** So with fresh gets, however many calls failed and replies were lost on the way, a delivered success finds
      every rendered child as asked for, with what it must keep, and every other key as it was. */
  lemma FreshSuccessIsComplete(cfg: Config, past: seq<Step>, order: seq<Obj>, steps: seq<Step>, key: Key)
    requires ValidServer(cfg.server) && CanConverge(cfg, After(cfg, past), order) && AboutToSucceed(cfg, past, steps)
    requires FreshGets(cfg, After(cfg, past), steps)
    ensures var w0, w' := After(cfg, past), After(cfg, past + (steps + [Report(true)]));
            var before, after := C.Live(CurrentStore(w0), key), C.Live(CurrentStore(w'), key);
            var owner := OwnerOf(cfg, Current(w0).value);
            if C.Names(multiset(order), key) then
              var d := C.Named(multiset(order), key);
              && after.Some? && Conforms(cfg.server, owner, d, after.value)
              && (before.Some? ==> Preserves(owner, before.value, d, after.value))
            else after == before
  {
    T.Always(cfg, past);
    FreshRunOverlooksNothing(cfg, After(cfg, past), steps);
    SuccessIsCompleteIff(cfg, past, order, steps, key);
    TargetConforms(cfg, After(cfg, past), order, key);
  }
}
