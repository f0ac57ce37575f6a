/** What holds in every reachable world of the protocol. */
module ProtocolInvariants {
  import opened Values
  import opened Objects
  import opened Workloads
  import opened Protocol

  function Desireds(done: seq<Receipt>): (objs: seq<Obj>)
    ensures |objs| == |done|
  {
    seq(|done|, i requires 0 <= i < |done| => done[i].desired)
  }

  /** Positions are in range, every version's uid was issued by then, and a reconcile in progress has
      the Workload it read. */
  ghost predicate Shape(w: World)
  {
    && w.log != []
    && w.seen <= w.cache < |w.log|
    && (forall i :: 0 <= i < |w.log| && w.log[i].Some? ==> w.log[i].value.uid <= i)
    && (forall r :: 0 <= r < |w.runs| ==> w.runs[r].read < |w.log| && w.log[w.runs[r].read].Some?)
    && (!w.phase.Idle? ==> Reading(w) && w.runs != [] && w.runs[|w.runs| - 1].read == w.seen)
  }

  predicate SameIncarnation(log: seq<Option<Workload>>, i: int, j: int)
  {
    0 <= i < |log| && 0 <= j < |log| && log[i].Some? && log[j].Some? && log[i].value.uid == log[j].value.uid
  }

  /** Along one incarnation generations only grow and fix the spec. */
  ghost predicate Lineage(log: seq<Option<Workload>>)
  {
    forall i, j {:trigger SameIncarnation(log, i, j)} :: i <= j && SameIncarnation(log, i, j) ==>
      && log[i].value.generation <= log[j].value.generation
      && (log[i].value.generation == log[j].value.generation ==> log[i].value.spec == log[j].value.spec)
  }

  predicate ObservedPair(log: seq<Option<Workload>>, seen: nat, i: int, j: int)
    requires SameIncarnation(log, i, j)
  {
    && (i <= j ==> log[i].value.status.observedGeneration <= log[j].value.status.observedGeneration)
    && (i <= j || seen <= j ==> log[i].value.status.observedGeneration <= log[j].value.generation)
  }

  /** Observed generations only grow, stay below the generation they are stored with, and below every
      generation the next reconcile can still read. */
  ghost predicate Observed(log: seq<Option<Workload>>, seen: nat)
  {
    forall i, j :: SameIncarnation(log, i, j) ==> ObservedPair(log, seen, i, j)
  }

  /** Later worlds keep every version, every reconcile, and every finished child of one. */
  ghost predicate Extends(w: World, w': World)
  {
    && w.log <= w'.log
    && |w.runs| <= |w'.runs|
    && (forall r :: 0 <= r < |w.runs| ==> w.runs[r].read == w'.runs[r].read && w.runs[r].done <= w'.runs[r].done)
    && (forall key :: History(w, key) <= History(w', key))
  }

  lemma WriteExtends(server: Server, owner: Owner, run: nat, h: seq<Version>, from: nat, desired: Obj)
    requires from <= |h|
    ensures var o := CreateOrUpdate(server, owner, run, h, from, desired);
            o.Put? ==> h <= o.history
  {
  }

  lemma StepExtends(cfg: Config, w: World, step: Step)
    ensures Extends(w, Do(cfg, w, step))
  {
    var w' := Do(cfg, w, step);
    if step.Write? && w.phase.Fetched? && w.phase.todo != [] && Reading(w) && w.runs != [] {
      DoWriteExtends(cfg, w, step.lost);
    }
  }

  lemma SettleExtends(w: World, todo: seq<Obj>, outcome: Outcome, lost: bool)
    requires Reading(w) && w.runs != [] && todo != []
    requires outcome.Put? ==> History(w, todo[0].key) <= outcome.history
    ensures Extends(w, Settle(w, todo, outcome, lost))
  {
  }

  lemma DoWriteExtends(cfg: Config, w: World, lost: bool)
    requires Reading(w) && w.runs != []
    requires w.phase.Fetched? && w.phase.todo != []
    ensures Extends(w, DoWrite(cfg, w, lost))
  {
    var todo, from, owner, run := w.phase.todo, w.phase.from, OwnerOf(cfg, Snapshot(w)), |w.runs| - 1;
    var h := History(w, todo[0].key);
    if from <= |h| {
      WriteExtends(cfg.server, owner, run, h, from, todo[0]);
      SettleExtends(w, todo, CreateOrUpdate(cfg.server, owner, run, h, from, todo[0]), lost);
    }
  }

  lemma SettleKeepsShape(w: World, todo: seq<Obj>, outcome: Outcome, lost: bool)
    requires Shape(w) && !w.phase.Idle? && todo != []
    ensures Shape(Settle(w, todo, outcome, lost))
  {
  }

  lemma WriteKeepsShape(cfg: Config, w: World, lost: bool)
    requires Shape(w) && w.phase.Fetched? && w.phase.todo != []
    ensures Shape(DoWrite(cfg, w, lost))
  {
    forall outcome { SettleKeepsShape(w, w.phase.todo, outcome, lost); }
  }

  lemma ReportKeepsShape(w: World)
    requires Shape(w) && w.phase.Reporting?
    ensures Shape(DoReport(w))
  {
  }

  lemma OutsideStepKeepsShape(cfg: Config, w: World, step: Step)
    requires Shape(w)
    requires step.EditSpec? || step.CreateWorkload? || step.DeleteWorkload? || step.Observe? || step.WriteChild?
             || step.Crash?
    ensures Shape(Do(cfg, w, step))
  {
  }

  lemma StepKeepsShape(cfg: Config, w: World, step: Step)
    requires Shape(w)
    ensures Shape(Do(cfg, w, step))
  {
    match step
    case Write(lost) => if w.phase.Fetched? && w.phase.todo != [] { WriteKeepsShape(cfg, w, lost); }
    case Report(delivered) => if w.phase.Reporting? { ReportKeepsShape(w); }
    case Begin(_) =>
    case Fetch(_) =>
    case Fail(_) =>
    case Finish(_) =>
    case _ => OutsideStepKeepsShape(cfg, w, step);
  }

  /** What can be appended to the log: a deletion, a new incarnation, or the last entry with the same
      generation and spec or with the next generation. */
  predicate NextEntry(log: seq<Option<Workload>>, e: Option<Workload>)
    requires log != []
  {
    var last := log[|log| - 1];
    e.Some? && e.value.uid != |log| ==>
      && last.Some? && e.value.uid == last.value.uid
      && (|| (e.value.generation == last.value.generation && e.value.spec == last.value.spec)
          || e.value.generation == last.value.generation + 1)
  }

  lemma StepAppends(cfg: Config, w: World, step: Step)
    requires Shape(w)
    ensures var log, log' := w.log, Do(cfg, w, step).log;
            log' == log || (|log'| == |log| + 1 && log' == log + [log'[|log|]] && NextEntry(log, log'[|log|]))
  {
    if !step.EditSpec? && !step.CreateWorkload? && !step.DeleteWorkload? && !step.Report? {
      OtherStepsKeepLog(cfg, w, step);
    }
  }

  lemma AppendKeepsLineage(log: seq<Option<Workload>>, e: Option<Workload>)
    requires log != [] && Lineage(log) && NextEntry(log, e)
    requires forall i :: 0 <= i < |log| && log[i].Some? ==> log[i].value.uid <= i
    ensures Lineage(log + [e])
  {
    var log', n := log + [e], |log|;
    forall i, j | i <= j && SameIncarnation(log', i, j)
      ensures log'[i].value.generation <= log'[j].value.generation
      ensures log'[i].value.generation == log'[j].value.generation ==> log'[i].value.spec == log'[j].value.spec
    {
      if j < n {
        assert SameIncarnation(log, i, j);
      } else if i < n {
        assert SameIncarnation(log, i, n - 1);
      }
    }
  }

  lemma StepKeepsLineage(cfg: Config, w: World, step: Step)
    requires Shape(w) && Lineage(w.log)
    ensures Lineage(Do(cfg, w, step).log)
  {
    StepAppends(cfg, w, step);
    var log' := Do(cfg, w, step).log;
    if log' != w.log { AppendKeepsLineage(w.log, log'[|w.log|]); }
  }

  // Reconciles

  /** Reconcile number `r` read this incarnation at this generation and finished every child that the
      spec it read renders to. */
  ghost predicate Completed(cfg: Config, w: World, r: nat, uid: nat, generation: nat)
  {
    && r < |w.runs|
    && w.runs[r].read < |w.log|
    && var read := w.log[w.runs[r].read];
    && read.Some? && read.value.uid == uid && read.value.generation == generation
    && var objs := cfg.render(read.value.spec);
    && objs.Some? && multiset(Desireds(w.runs[r].done)) == multiset(objs.value)
  }

  ghost predicate Vouched(cfg: Config, w: World, uid: nat, generation: nat)
  {
    exists r :: Completed(cfg, w, r, uid, generation)
  }

  /** Finished children and those still to do make up the rendered ones. */
  ghost predicate Underway(cfg: Config, w: World, todo: seq<Obj>)
  {
    && Reading(w) && w.runs != []
    && var objs := cfg.render(Snapshot(w).spec);
    && objs.Some?
    && multiset(Desireds(w.runs[|w.runs| - 1].done)) + multiset(todo) == multiset(objs.value)
  }

  /** What a reconcile is about to report is either no claim of readiness and the observed generation
      it read, or readiness at the generation it read after finishing every child. */
  ghost predicate HonestReport(cfg: Config, w: World, status: Status)
  {
    && Reading(w) && w.runs != []
    && var base := Snapshot(w);
    if ReadyAt(status).None? then status.observedGeneration == base.status.observedGeneration
    else
      && ReadyAt(status).value == status.observedGeneration == base.generation
      && Completed(cfg, w, |w.runs| - 1, base.uid, base.generation)
  }

  ghost predicate Progress(cfg: Config, w: World)
  {
    match w.phase
    case Idle => true
    case Applying(todo) => Underway(cfg, w, todo)
    case Fetched(todo, _) => todo != [] && Underway(cfg, w, todo)
    case Reporting(status) => HonestReport(cfg, w, status)
  }

  /** A stored claim of readiness is at the stored observed generation, and some reconcile that read
      that generation of that incarnation finished every child. */
  ghost predicate HonestEntry(cfg: Config, w: World, i: int)
    requires 0 <= i < |w.log|
  {
    w.log[i].Some? && ReadyAt(w.log[i].value.status).Some? ==>
      && w.log[i].value.status.observedGeneration == ReadyAt(w.log[i].value.status).value
      && Vouched(cfg, w, w.log[i].value.uid, w.log[i].value.status.observedGeneration)
  }

  ghost predicate HonestLog(cfg: Config, w: World)
  {
    !w.misreported ==> forall i :: 0 <= i < |w.log| ==> HonestEntry(cfg, w, i)
  }

  lemma CompletedStays(cfg: Config, w: World, step: Step, r: nat, uid: nat, generation: nat)
    requires Shape(w) && Progress(cfg, w)
    requires Completed(cfg, w, r, uid, generation)
    ensures Completed(cfg, Do(cfg, w, step), r, uid, generation)
  {
    StepExtends(cfg, w, step);
    var w' := Do(cfg, w, step);
    if w'.runs[r].done != w.runs[r].done {
      OnlyUnderwayGrows(cfg, w, step, r);
      NothingLeft(multiset(Desireds(w.runs[r].done)), w.phase.todo);
      assert false;
    }
  }

  lemma NothingLeft(done: multiset<Obj>, todo: seq<Obj>)
    requires done + multiset(todo) == done
    ensures todo == []
  {
    assert |done + multiset(todo)| == |done| + |todo|;
  }

  lemma OnlyUnderwayGrows(cfg: Config, w: World, step: Step, r: nat)
    requires Shape(w) && r < |w.runs| && r < |Do(cfg, w, step).runs|
    requires Do(cfg, w, step).runs[r].done != w.runs[r].done
    ensures w.phase.Fetched? && w.phase.todo != [] && r == |w.runs| - 1
  {
  }

  lemma DesiredsAppend(done: seq<Receipt>, receipt: Receipt)
    ensures multiset(Desireds(done + [receipt])) == multiset(Desireds(done)) + multiset{receipt.desired}
  {
    assert Desireds(done + [receipt]) == Desireds(done) + [receipt.desired];
  }

  lemma FinishedProgress(cfg: Config, w: World, todo: seq<Obj>, at: nat)
    requires todo != [] && Underway(cfg, w, todo)
    ensures Underway(cfg, Finished(w, todo, at), todo[1..])
  {
    DesiredsAppend(w.runs[|w.runs| - 1].done, Receipt(todo[0], at));
    assert todo == [todo[0]] + todo[1..];
  }

  lemma FailProgress(cfg: Config, w: World, reason: string, message: string)
    requires Reading(w) && w.runs != []
    ensures Progress(cfg, FailWith(w, reason, message))
  {
    FailedStatusReady(Snapshot(w).status, Snapshot(w).generation, reason, message);
  }

  lemma SettleProgress(cfg: Config, w: World, todo: seq<Obj>, outcome: Outcome, lost: bool)
    requires todo != [] && Underway(cfg, w, todo)
    ensures Progress(cfg, Settle(w, todo, outcome, lost))
  {
    match outcome
    case Refused(message) => FailProgress(cfg, w, "ApplyFailed", message);
    case Kept(at) => FinishedProgress(cfg, w, todo, at);
    case Put(h) =>
      var w' := w.(children := w.children[todo[0].key := h]);
      FailProgress(cfg, w', "ApplyFailed", "no reply");
      if h != [] { FinishedProgress(cfg, w', todo, |h| - 1); }
  }

  lemma WriteProgress(cfg: Config, w: World, lost: bool)
    requires Shape(w) && Progress(cfg, w) && w.phase.Fetched?
    ensures Progress(cfg, DoWrite(cfg, w, lost))
  {
    forall outcome { SettleProgress(cfg, w, w.phase.todo, outcome, lost); }
  }

  lemma BeginProgress(cfg: Config, w: World, order: seq<Obj>)
    requires Shape(w) && w.phase.Idle? && w.log[w.cache].Some?
    ensures Progress(cfg, DoBegin(cfg, w, order))
  {
    FailProgress(cfg, w.(seen := w.cache, runs := w.runs + [Run(w.cache, [])]), "RenderFailed", "render failed");
  }

  lemma FinishProgress(cfg: Config, w: World, live: Option<int>)
    requires Shape(w) && Progress(cfg, w) && w.phase == Applying([])
    ensures Progress(cfg, Do(cfg, w, Finish(live)))
  {
    SucceededStatusReady(Snapshot(w).status, Snapshot(w).spec, Snapshot(w).generation, live);
  }

  lemma StepKeepsProgress(cfg: Config, w: World, step: Step)
    requires Shape(w) && Progress(cfg, w)
    ensures Progress(cfg, Do(cfg, w, step))
  {
    var w' := Do(cfg, w, step);
    match step
    case Write(lost) => if w.phase.Fetched? { WriteProgress(cfg, w, lost); }
    case Begin(order) => if w.phase.Idle? && w.log[w.cache].Some? { BeginProgress(cfg, w, order); }
    case Finish(live) => if w.phase == Applying([]) { FinishProgress(cfg, w, live); }
    case Fail(message) => if w.phase.Applying? || w.phase.Fetched? { FailProgress(cfg, w, "ApplyFailed", message); }
    case _ =>
  }

  /** Without a claim of readiness in the conditions it carries, a report changes no observed generation:
      if the snapshot was ready already, its observed generation was the one being reported. */
  lemma UnclaimedReport(cfg: Config, w: World)
    requires Shape(w) && Progress(cfg, w) && w.phase.Reporting? && HonestEntry(cfg, w, w.seen)
    requires w.phase.status.conditions == Snapshot(w).status.conditions || ReadyAt(w.phase.status).None?
    ensures w.phase.status.observedGeneration == Snapshot(w).status.observedGeneration
  {
  }

  /** An entry like the last one, at the same generation or a later one. */
  lemma AppendKeepsObserved(log: seq<Option<Workload>>, seen: nat, e: Workload)
    requires log != [] && log[|log| - 1].Some? && seen < |log| && Observed(log, seen)
    requires var last := log[|log| - 1].value;
             && e.uid == last.uid && e.generation >= last.generation
             && e.status.observedGeneration == last.status.observedGeneration
    ensures Observed(log + [Some(e)], seen)
  {
    var log', n := log + [Some(e)], |log|;
    forall i, j | SameIncarnation(log', i, j) ensures ObservedPair(log', seen, i, j) {
      assert SameIncarnation(log, if i == n then n - 1 else i, if j == n then n - 1 else j);
    }
  }

  lemma CrossingKeepsObserved(cfg: Config, w: World)
    requires Shape(w) && Observed(w.log, w.seen) && Progress(cfg, w) && HonestEntry(cfg, w, w.seen)
    requires w.phase.Reporting? && !DoReport(w).misreported
    requires Current(w).Some? && Current(w).value.uid != Snapshot(w).uid
    ensures Observed(DoReport(w).log, w.seen)
  {
    UnclaimedReport(cfg, w);
    var log' := DoReport(w).log;
    if log' != w.log { AppendKeepsObserved(w.log, w.seen, log'[|w.log|].value); }
  }

  lemma ReportKeepsObserved(cfg: Config, w: World)
    requires Shape(w) && Lineage(w.log) && Observed(w.log, w.seen) && Progress(cfg, w)
    requires w.phase.Reporting? && (Current(w).Some? ==> Current(w).value.uid == Snapshot(w).uid)
    ensures Observed(DoReport(w).log, w.seen)
  {
    var log, log' := w.log, DoReport(w).log;
    var n := |log|;
    forall i, j | SameIncarnation(log', i, j) ensures ObservedPair(log', w.seen, i, j) {
      if i < n && j < n {
        assert SameIncarnation(log, i, j);
      } else {
        var i0, j0 := if i == n then n - 1 else i, if j == n then n - 1 else j;
        assert SameIncarnation(log, i0, j0) && SameIncarnation(log, i0, n - 1);
        assert SameIncarnation(log, n - 1, w.seen) && SameIncarnation(log, w.seen, j0);
      }
    }
  }

  lemma EditKeepsObserved(cfg: Config, w: World, spec: WorkloadSpec)
    requires Shape(w) && Observed(w.log, w.seen)
    ensures Observed(Do(cfg, w, EditSpec(spec)).log, w.seen)
  {
    var log' := Do(cfg, w, EditSpec(spec)).log;
    if log' != w.log { AppendKeepsObserved(w.log, w.seen, log'[|w.log|].value); }
  }

  lemma CreateOrDeleteKeepsObserved(cfg: Config, w: World, step: Step)
    requires Shape(w) && Observed(w.log, w.seen)
    requires step.CreateWorkload? || step.DeleteWorkload?
    ensures Observed(Do(cfg, w, step).log, w.seen)
  {
    var log, log' := w.log, Do(cfg, w, step).log;
    forall i, j | SameIncarnation(log', i, j) ensures ObservedPair(log', w.seen, i, j) {
      if i < |log| && j < |log| {
        assert SameIncarnation(log, i, j);
      }
    }
  }

  /** The Workload is written by its users and by the status patch, nobody else. */
  lemma OtherStepsKeepLog(cfg: Config, w: World, step: Step)
    requires Shape(w)
    requires !step.EditSpec? && !step.CreateWorkload? && !step.DeleteWorkload? && !step.Report?
    ensures var w' := Do(cfg, w, step);
            w'.log == w.log && w.seen <= w'.seen && w'.misreported == w.misreported
  {
  }

  lemma StepKeepsObserved(cfg: Config, w: World, step: Step)
    requires Shape(w) && Lineage(w.log) && Progress(cfg, w) && HonestLog(cfg, w)
    requires w.misreported || Observed(w.log, w.seen)
    ensures var w' := Do(cfg, w, step); w'.misreported || Observed(w'.log, w'.seen)
  {
    var w' := Do(cfg, w, step);
    if w'.misreported || w.misreported { return; }
    match step
    case Report(delivered) =>
      if w.phase.Reporting? && delivered {
        if Current(w).Some? && Current(w).value.uid != Snapshot(w).uid {
          CrossingKeepsObserved(cfg, w);
        } else {
          ReportKeepsObserved(cfg, w);
        }
      }
    case EditSpec(spec) => EditKeepsObserved(cfg, w, spec);
    case CreateWorkload(_) => CreateOrDeleteKeepsObserved(cfg, w, step);
    case DeleteWorkload => CreateOrDeleteKeepsObserved(cfg, w, step);
    case _ =>
      OtherStepsKeepLog(cfg, w, step);
      forall i, j | SameIncarnation(w'.log, i, j) ensures ObservedPair(w'.log, w'.seen, i, j) {
        assert ObservedPair(w.log, w.seen, i, j);
      }
  }

  /** An entry with the same claim and the same observed generation stays honest. */
  lemma HonestEntryStays(cfg: Config, w: World, step: Step, i: nat, j: nat)
    requires Shape(w) && Progress(cfg, w) && i < |w.log| && HonestEntry(cfg, w, i)
    requires j < |Do(cfg, w, step).log|
    requires SameClaim(w.log[i], Do(cfg, w, step).log[j])
    ensures HonestEntry(cfg, Do(cfg, w, step), j)
  {
    var w' := Do(cfg, w, step);
    if w'.log[j].Some? && ReadyAt(w'.log[j].value.status).Some? {
      var uid, generation := w.log[i].value.uid, w.log[i].value.status.observedGeneration;
      var r :| Completed(cfg, w, r, uid, generation);
      CompletedStays(cfg, w, step, r, uid, generation);
    }
  }

  predicate SameClaim(e: Option<Workload>, e': Option<Workload>)
  {
    e'.Some? && ReadyAt(e'.value.status).Some? ==>
      && e.Some?
      && e'.value.uid == e.value.uid
      && ReadyAt(e'.value.status) == ReadyAt(e.value.status)
      && e'.value.status.observedGeneration == e.value.status.observedGeneration
  }

  /** A report that crosses incarnations without a claim leaves the claim that is stored, or none. */
  lemma CrossingIsHonest(cfg: Config, w: World)
    requires Shape(w) && Progress(cfg, w)
    requires forall i :: 0 <= i < |w.log| ==> HonestEntry(cfg, w, i)
    requires w.phase.Reporting? && Current(w).Some? && !DoReport(w).misreported && |DoReport(w).log| > |w.log|
    requires Current(w).value.uid != Snapshot(w).uid
    ensures HonestEntry(cfg, DoReport(w), |w.log|)
  {
    assert HonestEntry(cfg, w, w.seen);
    UnclaimedReport(cfg, w);
    if w.phase.status.conditions == Snapshot(w).status.conditions {
      HonestEntryStays(cfg, w, Report(true), |w.log| - 1, |w.log|);
    }
  }

  /** The patched status: either its conditions are those of the report, or conditions and observed
      generation of a ready status are the current ones. */
  lemma ReportIsHonest(cfg: Config, w: World)
    requires Shape(w) && Lineage(w.log) && Observed(w.log, w.seen) && Progress(cfg, w)
    requires forall i :: 0 <= i < |w.log| ==> HonestEntry(cfg, w, i)
    requires w.phase.Reporting? && Current(w).Some? && |DoReport(w).log| > |w.log|
    requires Current(w).value.uid == Snapshot(w).uid
    ensures HonestEntry(cfg, DoReport(w), |w.log|)
  {
    var n := |w.log|;
    var base, current, next := Snapshot(w), Current(w).value, w.phase.status;
    assert SameIncarnation(w.log, w.seen, n - 1) && SameIncarnation(w.log, n - 1, w.seen);
    assert ObservedPair(w.log, w.seen, w.seen, n - 1) && ObservedPair(w.log, w.seen, n - 1, w.seen);
    if next.conditions == base.status.conditions {
      assert HonestEntry(cfg, w, w.seen);
      HonestEntryStays(cfg, w, Report(true), n - 1, n);
    } else if ReadyAt(next).Some? {
      CompletedStays(cfg, w, Report(true), |w.runs| - 1, base.uid, base.generation);
    }
  }

  lemma NewEntryIsHonest(cfg: Config, w: World, step: Step)
    requires Shape(w) && Lineage(w.log) && Observed(w.log, w.seen) && Progress(cfg, w)
    requires forall i :: 0 <= i < |w.log| ==> HonestEntry(cfg, w, i)
    requires !Do(cfg, w, step).misreported && |Do(cfg, w, step).log| > |w.log|
    ensures |Do(cfg, w, step).log| == |w.log| + 1
    ensures HonestEntry(cfg, Do(cfg, w, step), |w.log|)
  {
    match step
    case Report(_) =>
      if Current(w).value.uid == Snapshot(w).uid { ReportIsHonest(cfg, w); } else { CrossingIsHonest(cfg, w); }
    case EditSpec(_) => HonestEntryStays(cfg, w, step, |w.log| - 1, |w.log|);
    case _ =>
      if !step.CreateWorkload? && !step.DeleteWorkload? { OtherStepsKeepLog(cfg, w, step); }
  }

  lemma OldEntriesStayHonest(cfg: Config, w: World, step: Step)
    requires Shape(w) && Progress(cfg, w)
    requires forall i :: 0 <= i < |w.log| ==> HonestEntry(cfg, w, i)
    ensures |w.log| <= |Do(cfg, w, step).log|
    ensures forall i :: 0 <= i < |w.log| ==> HonestEntry(cfg, Do(cfg, w, step), i)
  {
    var w' := Do(cfg, w, step);
    StepExtends(cfg, w, step);
    assert w.log <= w'.log;
    forall i | 0 <= i < |w.log| ensures HonestEntry(cfg, w', i) {
      HonestEntryStays(cfg, w, step, i, i);
    }
  }

  lemma StepKeepsHonestLog(cfg: Config, w: World, step: Step)
    requires Shape(w) && Lineage(w.log) && Progress(cfg, w) && HonestLog(cfg, w)
    requires w.misreported || Observed(w.log, w.seen)
    ensures HonestLog(cfg, Do(cfg, w, step))
  {
    MisreportedStays(cfg, w, step);
    if !Do(cfg, w, step).misreported {
      OldEntriesStayHonest(cfg, w, step);
      if |Do(cfg, w, step).log| > |w.log| { NewEntryIsHonest(cfg, w, step); }
    }
  }

  lemma MisreportedStays(cfg: Config, w: World, step: Step)
    ensures w.misreported ==> Do(cfg, w, step).misreported
  {
  }
}
