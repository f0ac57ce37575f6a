/** Exactly when the status a reconcile stores is honest, and exactly when its success is stored at all. */
module StatusHonesty {
  import opened Values
  import opened Objects
  import opened Workloads
  import opened Protocol
  import opened ProtocolInvariants
  import opened ProtocolTheorems

  /** Incarnations follow one another, and no reconcile has read past what the latest one read. */
  ghost predicate Chronology(w: World)
  {
    && (forall i, j :: 0 <= i <= j < |w.log| && w.log[i].Some? && w.log[j].Some? ==>
       w.log[i].value.uid <= w.log[j].value.uid)
    && (forall r :: 0 <= r < |w.runs| ==> w.runs[r].read <= w.seen)
  }

  lemma RunsReadInOrder(cfg: Config, w: World, step: Step)
    requires Shape(w) && Chronology(w)
    ensures var w' := Do(cfg, w, step);
            forall r :: 0 <= r < |w'.runs| ==> w'.runs[r].read <= w'.seen
  {
    StepExtends(cfg, w, step);
    OneMoreRun(cfg, w, step);
  }

  lemma OneMoreRun(cfg: Config, w: World, step: Step)
    requires Shape(w)
    ensures var w' := Do(cfg, w, step);
            && w.seen <= w'.seen && |w'.runs| <= |w.runs| + 1
            && (|w'.runs| > |w.runs| ==> w'.runs[|w.runs|].read == w'.seen)
  {
  }

  lemma StepKeepsChronology(cfg: Config, w: World, step: Step)
    requires Shape(w) && Chronology(w)
    ensures Chronology(Do(cfg, w, step))
  {
    StepAppends(cfg, w, step);
    RunsReadInOrder(cfg, w, step);
    var log, log' := w.log, Do(cfg, w, step).log;
    forall i, j | 0 <= i <= j < |log'| && log'[i].Some? && log'[j].Some?
      ensures log'[i].value.uid <= log'[j].value.uid {
      if j == |log| && i < j && log'[j].value.uid != |log| { assert log[|log| - 1].Some?; }
    }
  }

  lemma {:induction false} AlwaysInOrder(cfg: Config, steps: seq<Step>)
    requires ValidServer(cfg.server)
    ensures Chronology(After(cfg, steps))
    decreases |steps|
  {
    if steps != [] {
      var before, step := steps[..|steps| - 1], steps[|steps| - 1];
      AlwaysInOrder(cfg, before);
      Always(cfg, before);
      StepKeepsChronology(cfg, After(cfg, before), step);
    }
  }

  /** No reconcile has read a later incarnation than the one in hand. */
  lemma SuccessorIsUnread(cfg: Config, w: World, uid: nat, generation: nat)
    requires Shape(w) && Chronology(w) && Reading(w) && Snapshot(w).uid < uid
    ensures !Vouched(cfg, w, uid, generation)
  {
  }

  /** Every entry of the log is honest. */
  ghost predicate Honest(cfg: Config, w: World)
  {
    forall i :: 0 <= i < |w.log| ==> HonestEntry(cfg, w, i)
  }

  lemma MisreportIsDishonest(cfg: Config, w: World)
    requires Invariant(cfg, w) && Chronology(w) && !w.misreported && w.phase.Reporting? && Misreports(w)
    ensures |DoReport(w).log| == |w.log| + 1 && !HonestEntry(cfg, DoReport(w), |w.log|)
  {
    var uid, w' := Current(w).value.uid, DoReport(w);
    assert Snapshot(w).uid < uid;
    if ReadyAt(Current(w).value.status).Some? {
      assert HonestEntry(cfg, w, |w.log| - 1);
      SuccessorIsUnread(cfg, w, uid, ReadyAt(Current(w).value.status).value);
      assert false;
    }
    StepKeepsShape(cfg, w, Report(true));
    StepKeepsChronology(cfg, w, Report(true));
    SuccessorIsUnread(cfg, w', uid, w'.log[|w.log|].value.status.observedGeneration);
  }

  lemma CrossingReport(cfg: Config, w: World)
    requires Invariant(cfg, w) && Chronology(w) && !w.misreported && Crossing(w)
    ensures Honest(cfg, DoReport(w)) <==> !Claims(w)
  {
    if Claims(w) {
      MisreportIsDishonest(cfg, w);
    } else {
      StepKeepsHonestLog(cfg, w, Report(true));
    }
  }

  /** In every reachable world: a report that lands on another incarnation than the one read is honest
      exactly when the conditions it carries do not claim readiness. */
  lemma CrossingReportIsHonestIff(cfg: Config, past: seq<Step>)
    requires ValidServer(cfg.server) && Crossing(After(cfg, past)) && !After(cfg, past).misreported
    ensures Honest(cfg, DoReport(After(cfg, past))) <==> !Claims(After(cfg, past))
  {
    Always(cfg, past);
    AlwaysInOrder(cfg, past);
    CrossingReport(cfg, After(cfg, past));
  }

  /** The report leaves an observed generation no higher than the generation it is stored with, and no lower
      than any stored with the current incarnation before. */
  ghost predicate ObservesHonestly(w: World)
    requires Crossing(w)
  {
    var stored := Current(DoReport(w)).value;
    && stored.status.observedGeneration <= stored.generation
    && forall i :: SameIncarnation(w.log, i, |w.log| - 1) ==>
         w.log[i].value.status.observedGeneration <= stored.status.observedGeneration
  }

  lemma CrossingObservation(cfg: Config, w: World)
    requires Shape(w) && Observed(w.log, w.seen) && Progress(cfg, w) && HonestEntry(cfg, w, w.seen) && Crossing(w)
    ensures var current, generation := Current(w).value, Snapshot(w).generation;
            ObservesHonestly(w) <==>
            || !Claims(w) || Snapshot(w).status.observedGeneration == generation
            || current.status.observedGeneration <= generation <= current.generation
  {
    var n, current := |w.log|, Current(w).value;
    assert SameIncarnation(w.log, n - 1, n - 1) && ObservedPair(w.log, w.seen, n - 1, n - 1);
    if !Claims(w) { UnclaimedReport(cfg, w); }
    forall i | SameIncarnation(w.log, i, n - 1)
      ensures w.log[i].value.status.observedGeneration <= current.status.observedGeneration {
      assert ObservedPair(w.log, w.seen, i, n - 1);
    }
  }

  /** In every reachable world, such a report leaves an honest observed generation exactly when it claims
      nothing, or the generation read had been observed already, or it lies between what the successor has
      observed and the successor's own generation. */
  lemma CrossingObservedGenerationIff(cfg: Config, past: seq<Step>)
    requires ValidServer(cfg.server) && Crossing(After(cfg, past)) && !After(cfg, past).misreported
    ensures var w := After(cfg, past);
            var current, generation := Current(w).value, Snapshot(w).generation;
            ObservesHonestly(w) <==>
            || !Claims(w) || Snapshot(w).status.observedGeneration == generation
            || current.status.observedGeneration <= generation <= current.generation
  {
    Always(cfg, past);
    CrossingObservation(cfg, After(cfg, past));
  }

  // Whole runs

  /** At every moment of the run every entry of the log is honest. */
  ghost predicate HonestThroughout(cfg: Config, steps: seq<Step>)
  {
    forall n :: 0 <= n <= |steps| ==> Honest(cfg, After(cfg, steps[..n]))
  }

  /** Some step of the run delivers a report that carries a claim of readiness to another incarnation than the
      one it read. */
  ghost predicate Misreported(cfg: Config, steps: seq<Step>)
  {
    exists n :: 0 <= n < |steps| && steps[n] == Report(true) && Misreports(After(cfg, steps[..n]))
  }

  /** A run is honest throughout exactly when no step of it misreports. */
  lemma HonestThroughoutIff(cfg: Config, steps: seq<Step>)
    requires ValidServer(cfg.server)
    ensures HonestThroughout(cfg, steps) <==> !Misreported(cfg, steps)
  {
    HonestUnlessFlagged(cfg, steps);
    FlagIsRaised(cfg, steps);
  }

  /** The history flag says whether some step has misreported. */
  lemma {:induction false} FlagIsRaised(cfg: Config, steps: seq<Step>)
    requires ValidServer(cfg.server)
    ensures After(cfg, steps).misreported <==> Misreported(cfg, steps)
    decreases |steps|
  {
    if steps != [] {
      var before, step := steps[..|steps| - 1], steps[|steps| - 1];
      FlagIsRaised(cfg, before);
      Always(cfg, before);
      RaisesFlag(cfg, After(cfg, before), step);
      assert forall n :: 0 <= n < |before| ==> before[..n] == steps[..n] && before[n] == steps[n];
      if After(cfg, steps).misreported && !After(cfg, before).misreported {
        assert steps[|before|] == Report(true) && Misreports(After(cfg, steps[..|before|]));
      }
    }
  }

  lemma RaisesFlag(cfg: Config, w: World, step: Step)
    requires Shape(w)
    ensures Do(cfg, w, step).misreported <==> w.misreported || (step == Report(true) && Misreports(w))
  {
    MisreportedStays(cfg, w, step);
    if step != Report(true) && !w.misreported && Do(cfg, w, step).misreported {
      OnlyReportsMisreport(cfg, w, step);
    }
  }

  lemma {:induction false} HonestUnlessFlagged(cfg: Config, steps: seq<Step>)
    requires ValidServer(cfg.server)
    ensures HonestThroughout(cfg, steps) <==> !After(cfg, steps).misreported
    decreases |steps|
  {
    Always(cfg, steps);
    if steps != [] {
      var before, step := steps[..|steps| - 1], steps[|steps| - 1];
      HonestUnlessFlagged(cfg, before);
      assert forall n :: 0 <= n < |steps| ==> before[..n] == steps[..n];
      assert steps[..|steps|] == steps;
      Always(cfg, before);
      AlwaysInOrder(cfg, before);
      LastStep(cfg, After(cfg, before), step);
      if HonestThroughout(cfg, steps) {
        assert Honest(cfg, After(cfg, steps[..|steps|]));
      }
    }
  }

  /** One step turns an honest world dishonest exactly by misreporting, and nothing makes up for that. */
  lemma LastStep(cfg: Config, w: World, step: Step)
    requires Invariant(cfg, w) && Chronology(w) && Invariant(cfg, Do(cfg, w, step))
    ensures w.misreported ==> Do(cfg, w, step).misreported
    ensures !w.misreported ==> (Honest(cfg, Do(cfg, w, step)) <==> !Do(cfg, w, step).misreported)
  {
    MisreportedStays(cfg, w, step);
    if !w.misreported && Do(cfg, w, step).misreported {
      OnlyReportsMisreport(cfg, w, step);
      MisreportIsDishonest(cfg, w);
    }
  }

  lemma OnlyReportsMisreport(cfg: Config, w: World, step: Step)
    requires Shape(w) && !w.misreported && Do(cfg, w, step).misreported
    ensures step == Report(true) && Misreports(w) && Do(cfg, w, step) == DoReport(w)
  {
    if step.Report? {
    } else if !step.EditSpec? && !step.CreateWorkload? && !step.DeleteWorkload? {
      OtherStepsKeepLog(cfg, w, step);
    }
  }
}
