/** The staged preflight runner (operator/internal/preflight/check.go): six stages, short-circuited by
    the first blocking red one. */
module Preflight {
  import opened Values
  import opened Sequences
  import opened Severity

  const STAGES := 6

  /** A check bound to a stage, with the results it would return if it were run. */
  datatype Check = Check(stage: int, name: string, outcome: seq<CheckResult>)

  /** For each stage, whether it is informational, that is, does not block. */
  type Mask = m: seq<bool> | |m| == 6 witness [false, false, false, false, false, false]

  const ALL_BLOCKING: Mask := [false, false, false, false, false, false]

  predicate InRange(c: Check)
  {
    0 <= c.stage < STAGES
  }

  function OfStage(id: int): Check -> bool
  {
    (c: Check) => c.stage == id
  }

  function Outcomes(): Check -> seq<CheckResult>
  {
    (c: Check) => c.outcome
  }

  /** The checks of one stage, in the order supplied. */
  function Bucket(checks: seq<Check>, id: int): seq<Check>
  {
    Filter(OfStage(id), checks)
  }

  lemma BucketAppend(checks: seq<Check>, c: Check, id: int)
    ensures Bucket(checks + [c], id) == if c.stage == id then Bucket(checks, id) + [c] else Bucket(checks, id)
  {
    FilterConcat(OfStage(id), checks, [c]);
  }

  function StageResults(checks: seq<Check>, id: int): seq<CheckResult>
  {
    FlatMap(Outcomes(), Bucket(checks, id))
  }

  /** A stage whose checks were run. */
  function RunStage(checks: seq<Check>, mask: Mask, id: nat): Stage
    requires id < STAGES
  {
    var results := StageResults(checks, id);
    Stage(id, StageStatusOf(results), if results == [] then None else Some(results), !mask[id], mask[id])
  }

  function SkippedStage(mask: Mask, id: nat): Stage
    requires id < STAGES
  {
    Stage(id, Skipped, None, !mask[id], mask[id])
  }

  predicate BlockingRed(checks: seq<Check>, mask: Mask, id: nat)
    requires id < STAGES
  {
    !mask[id] && StageStatusOf(StageResults(checks, id)) == Red
  }

  /** The least stage from `from` on that is red and blocks, or 6. */
  function FirstBlockingRed(checks: seq<Check>, mask: Mask, from: nat): (id: nat)
    requires from <= STAGES
    ensures from <= id <= STAGES
    ensures id < STAGES ==> BlockingRed(checks, mask, id)
    ensures forall k :: from <= k < id ==> !BlockingRed(checks, mask, k)
    decreases STAGES - from
  {
    if from == STAGES || BlockingRed(checks, mask, from) then from else FirstBlockingRed(checks, mask, from + 1)
  }

  /** The report of a run: stages up to the first blocking red one were run, later ones skipped. */
  function StagesOf(checks: seq<Check>, mask: Mask): (stages: seq<Stage>)
    ensures |stages| == STAGES
  {
    var first := FirstBlockingRed(checks, mask, 0);
    seq(STAGES, id requires 0 <= id < STAGES =>
      if id <= first then RunStage(checks, mask, id) else SkippedStage(mask, id))
  }

  lemma StageFlags(checks: seq<Check>, mask: Mask)
    ensures forall i :: 0 <= i < STAGES ==>
              var stage := StagesOf(checks, mask)[i];
              stage.id == i && stage.blocking == !mask[i] && stage.informational == mask[i]
  {
  }

  /** All six stages run, with no short-circuit. */
  function ExhaustiveStages(checks: seq<Check>, mask: Mask): (stages: seq<Stage>)
    ensures |stages| == STAGES
  {
    seq(STAGES, id requires 0 <= id < STAGES => RunStage(checks, mask, id))
  }

  /** The checks of the stages that were run, in the order they ran. */
  function TraceUpTo(checks: seq<Check>, n: nat): seq<Check>
  {
    if n == 0 then [] else TraceUpTo(checks, n - 1) + Bucket(checks, n - 1)
  }

  function Trace(checks: seq<Check>, mask: Mask): seq<Check>
  {
    var first := FirstBlockingRed(checks, mask, 0);
    TraceUpTo(checks, if first < STAGES then first + 1 else STAGES)
  }

  class Runner {
    const byStage: array<seq<Check>>
    ghost const checks: seq<Check>

    ghost predicate Valid()
      reads byStage
    {
      byStage.Length == STAGES && forall id :: 0 <= id < STAGES ==> byStage[id] == Bucket(checks, id)
    }

    /** Buckets the checks by stage, dropping those of no stage. */
    constructor (checks: seq<Check>)
      ensures Valid() && this.checks == checks && fresh(byStage)
    {
      this.checks := checks;
      var buckets := new seq<Check>[STAGES](_ => []);
      byStage := buckets;
      new;
      for i := 0 to |checks|
        invariant byStage.Length == STAGES
        invariant forall id :: 0 <= id < STAGES ==> byStage[id] == Bucket(checks[..i], id)
      {
        var c := checks[i];
        forall id: int { BucketAppend(checks[..i], c, id); }
        assert checks[..i + 1] == checks[..i] + [c];
        if InRange(c) {
          byStage[c.stage] := byStage[c.stage] + [c];
        }
      }
      assert checks[..|checks|] == checks;
    }

    /** Every stage blocks. */
    method Run() returns (report: Report, executed: seq<Check>)
      requires Valid()
      ensures report.stages == StagesOf(checks, ALL_BLOCKING) && report.verdict == VerdictOf(report.stages)
      ensures executed == Trace(checks, ALL_BLOCKING)
      ensures |report.stages| == 6
      ensures forall i :: 0 <= i < 6 ==>
                report.stages[i].id == i && report.stages[i].blocking && !report.stages[i].informational
    {
      report, executed := RunStages(ALL_BLOCKING);
      StageFlags(checks, ALL_BLOCKING);
    }

    /** The supplied stages are informational; a number that is no stage is ignored. */
    method RunWithProvisionedStages(provisioned: seq<int>) returns (report: Report, executed: seq<Check>)
      requires Valid()
      ensures var mask := Provisioned(provisioned);
              && report.stages == StagesOf(checks, mask) && report.verdict == VerdictOf(report.stages)
              && executed == Trace(checks, mask)
      ensures |report.stages| == 6
      ensures forall i :: 0 <= i < 6 ==>
                && report.stages[i].id == i && (report.stages[i].informational <==> i in provisioned)
                && (report.stages[i].blocking <==> i !in provisioned)
    {
      var informational := ALL_BLOCKING;
      for i := 0 to |provisioned|
        invariant informational == Provisioned(provisioned[..i])
      {
        var id := provisioned[i];
        assert provisioned[..i + 1] == provisioned[..i] + [id];
        if 0 <= id < STAGES {
          informational := informational[id := true];
        }
      }
      assert provisioned[..|provisioned|] == provisioned;
      report, executed := RunStages(informational);
      StageFlags(checks, informational);
    }

    method RunStages(informational: Mask) returns (report: Report, executed: seq<Check>)
      requires Valid()
      ensures report.stages == StagesOf(checks, informational) && report.verdict == VerdictOf(report.stages)
      ensures executed == Trace(checks, informational)
    {
      var stages: seq<Stage> := [];
      executed := [];
      var shortCircuited := false;
      ghost var first, all := FirstBlockingRed(checks, informational, 0), StagesOf(checks, informational);
      for id := 0 to STAGES
        invariant stages == all[..id]
        invariant shortCircuited <==> first < id
        invariant executed == TraceUpTo(checks, if first < id then first + 1 else id)
      {
        assert all[..id + 1] == all[..id] + [all[id]];
        var blocking := !informational[id];
        if shortCircuited {
          stages := stages + [Stage(id, Skipped, None, blocking, !blocking)];
        } else {
          var results := RunChecks(byStage[id]);
          executed := executed + byStage[id];
          var status := StageStatus(results);
          stages := stages + [Stage(id, status, if results == [] then None else Some(results), blocking, !blocking)];
          if blocking && status == Red {
            shortCircuited := true;
          }
        }
      }
      var verdict := ComputeVerdict(stages);
      report := Report(verdict, stages);
    }
  }

  method RunChecks(checks: seq<Check>) returns (results: seq<CheckResult>)
    ensures results == FlatMap(Outcomes(), checks)
  {
    results := [];
    for i := 0 to |checks|
      invariant results == FlatMap(Outcomes(), checks[..i])
    {
      FlatMapConcat(Outcomes(), checks[..i], [checks[i]]);
      assert checks[..i + 1] == checks[..i] + [checks[i]];
      results := results + checks[i].outcome;
    }
    assert checks[..|checks|] == checks;
  }

  function Provisioned(provisioned: seq<int>): Mask
  {
    seq(STAGES, id => id in provisioned)
  }
}
