/** Statuses and their folds (operator/internal/preflight/report.go). */
module Severity {
  import opened Values

  /** Statuses are strings in the report; `Other` is any string that is none of the four. */
  datatype Status = Green | Amber | Red | Skipped | Other(text: string)

  datatype CheckResult = CheckResult(id: string, status: Status)

  /** `results` is None where the report has null: a list nothing was appended to. */
  datatype Stage = Stage(id: nat, status: Status, results: Option<seq<CheckResult>>, blocking: bool,
    informational: bool)

  datatype Report = Report(verdict: Status, stages: seq<Stage>)

  function Rank(s: Status): nat
  {
    match s
    case Red => 3
    case Amber => 2
    case Green => 1
    case _ => 0
  }

  /** The more severe of two statuses; a skipped one counts as green. */
  function Worse(a: Status, b: Status): (worse: Status)
    ensures Rank(worse) >= Rank(a) && Rank(worse) >= Rank(b)
    ensures worse == a || worse == b || worse == Green
    ensures worse != Skipped
  {
    if Rank(a) >= Rank(b) then
      if a == Skipped then Green else a
    else
      if b == Skipped then Green else b
  }

  /** What a stage's status means: red if some result is red, else amber if some is amber, else green. */
  function StageStatusOf(results: seq<CheckResult>): Status
  {
    if exists r :: r in results && r.status == Red then Red
    else if exists r :: r in results && r.status == Amber then Amber
    else Green
  }

  method StageStatus(results: seq<CheckResult>) returns (out: Status)
    ensures out == StageStatusOf(results)
  {
    out := Green;
    for i := 0 to |results|
      invariant out == StageStatusOf(results[..i])
    {
      out := Worse(out, results[i].status);
      assert results[..i + 1] == results[..i] + [results[i]];
    }
    assert results[..|results|] == results;
  }

  /** What the verdict means: red if a blocking stage is red; else amber if any stage is amber or a
      stage that does not block is red; else green. */
  function VerdictOf(stages: seq<Stage>): Status
  {
    if exists s :: s in stages && s.blocking && s.status == Red then Red
    else if exists s :: s in stages && (s.status == Amber || (!s.blocking && s.status == Red)) then Amber
    else Green
  }

  method ComputeVerdict(stages: seq<Stage>) returns (out: Status)
    ensures out == VerdictOf(stages)
  {
    out := Green;
    for i := 0 to |stages|
      invariant out == VerdictOf(stages[..i])
    {
      var s := stages[i];
      var eff := s.status;
      if !s.blocking {
        if eff == Red {
          eff := Amber;
        }
      }
      out := Worse(out, eff);
      assert stages[..i + 1] == stages[..i] + [s];
    }
    assert stages[..|stages|] == stages;
  }
}
