/** The deploy gate end to end: the preflight command (operator/cmd/preflight/main.go), the install-tier
    check (operator/internal/preflight/k8sstages.go), and the Terraform module that turns the report
    into a plan, a failure and a tier (modules/preflight/main.tf). */
module Gate {
  import opened Values
  import opened Sequences
  import opened Severity
  import opened Preflight
  import T = PreflightTheorems

  /** What the four cloud checks return. */
  datatype Cloud = Cloud(
    identity: seq<CheckResult>, kms: seq<CheckResult>, secrets: seq<CheckResult>, egress: seq<CheckResult>)

  /** The answer to a self access review, which may fail. */
  datatype Review = ReviewFailed | Allowed | Denied

  /** The cluster's answers: the three reviews of the install-tier check, and the results of the other
      checks of stage 4, around it, and of the namespace check of stage 5. */
  datatype Cluster = Cluster(
    createCRD: Review, createClusterRole: Review, createDeployment: Review,
    before: seq<CheckResult>, after: seq<CheckResult>, namespaceStatus: Status)

  const INSTALL_TIER := "k8s.installtier"

  /** The other checks of stage 4 have identifiers of their own. */
  predicate ValidCluster(k: Cluster)
  {
    (forall r :: r in k.before ==> r.id != INSTALL_TIER) && (forall r :: r in k.after ==> r.id != INSTALL_TIER)
  }

  /** Any failed review is red; CRDs and cluster roles give tier A; else Deployments give tier B. */
  function CheckInstallTier(k: Cluster): (r: CheckResult)
    ensures r.id == "k8s.installtier" && r.status in {Green, Amber, Red}
    ensures var answered := ReviewFailed !in {k.createCRD, k.createClusterRole, k.createDeployment};
            && (r.status == Green <==> answered && k.createCRD.Allowed? && k.createClusterRole.Allowed?)
            && (r.status == Red <==>
                !answered || (Denied in {k.createCRD, k.createClusterRole} && k.createDeployment.Denied?))
  {
    if k.createCRD.ReviewFailed? then CheckResult(INSTALL_TIER, Red)
    else if k.createClusterRole.ReviewFailed? then CheckResult(INSTALL_TIER, Red)
    else if k.createDeployment.ReviewFailed? then CheckResult(INSTALL_TIER, Red)
    else if k.createCRD.Allowed? && k.createClusterRole.Allowed? then CheckResult(INSTALL_TIER, Green)
    else if k.createDeployment.Allowed? then CheckResult(INSTALL_TIER, Amber)
    else CheckResult(INSTALL_TIER, Red)
  }

  function CloudChecks(p: Cloud): seq<Check>
  {
    [Check(0, "identity", p.identity), Check(1, "kms", p.kms), Check(2, "secrets", p.secrets),
      Check(3, "network", p.egress)]
  }

  function K8sChecks(k: Cluster): seq<Check>
  {
    [Check(4, "kubernetes-infra", k.before + [CheckInstallTier(k)] + k.after),
     Check(5, "workload-readiness",
       [CheckResult("workload.namespace", k.namespaceStatus), CheckResult("workload.image", Amber)])]
  }

  const NO_KUBECONFIG := [Check(4, "kubernetes-unreachable", [CheckResult("k8s.unreachable", Red)])]

  /** `provider` is None when selecting it failed, `cluster` when building its clients failed. */
  datatype Options = Options(
    kubeconfig: string, mode: string, provider: Option<Cloud>, cluster: Option<Cluster>, skipK8sWhenNoKubeconfig: bool)

  const FULL_MASK: Mask := [true, true, true, true, false, false]

  /** The report of an internal failure. */
  const ERROR_REPORT := Report(Red, [Stage(0, Red, Some([CheckResult("preflight.internal_error", Red)]), true, false)])

  predicate RunsToCompletion(o: Options)
  {
    o.provider.Some? && (o.kubeconfig != "" ==> o.cluster.Some?) && o.mode in {"full", "agnostic"}
  }

  function AllChecks(o: Options): seq<Check>
    requires RunsToCompletion(o)
  {
    CloudChecks(o.provider.value)
    + (if o.kubeconfig != "" then K8sChecks(o.cluster.value)
       else if !o.skipK8sWhenNoKubeconfig then NO_KUBECONFIG
       else [])
  }

  function ModeMask(mode: string): Mask
  {
    if mode == "full" then FULL_MASK else ALL_BLOCKING
  }

  /** The report on standard output: that of the run, or a red one carrying the error. */
  function Printed(o: Options): Report
  {
    if !RunsToCompletion(o) then ERROR_REPORT
    else
      var stages := StagesOf(AllChecks(o), ModeMask(o.mode));
      Report(VerdictOf(stages), stages)
  }

  predicate Any(results: seq<CheckResult>, status: Status)
  {
    exists r :: r in results && r.status == status
  }

  /** What the verdict says of the options. An internal failure is red, as is a kubeconfig that is missing
      and not excused. With a cluster the verdict is red iff the namespace check or another check around the
      reviews is, or the reviews let the deploy identity install nothing or fail, or, in agnostic mode, a
      cloud check is red; otherwise it is amber, as the image is not looked at. */
  predicate VerdictTells(o: Options, report: Report)
  {
    if o.provider.None? || (o.kubeconfig != "" && o.cluster.None?) || (o.mode != "full" && o.mode != "agnostic")
    then report == Report(Red, [Stage(0, Red, Some([CheckResult("preflight.internal_error", Red)]), true, false)])
    else
      var p := o.provider.value;
      var cloud := p.identity + p.kms + p.secrets + p.egress;
      var stops := o.mode == "agnostic" && exists r :: r in cloud && r.status == Red;
      if o.kubeconfig != "" then
        var k := o.cluster.value;
        var answered := !k.createCRD.ReviewFailed? && !k.createClusterRole.ReviewFailed?
                        && !k.createDeployment.ReviewFailed?;
        var allows := (k.createCRD.Allowed? && k.createClusterRole.Allowed?) || k.createDeployment.Allowed?;
        var around := exists r :: r in k.before + k.after && r.status == Red;
        report.verdict ==
          if stops || around || !answered || !allows || k.namespaceStatus == Red then Red else Amber
      else if !o.skipK8sWhenNoKubeconfig then report.verdict == Red
      else
        report.verdict ==
          if stops then Red
          else if exists r :: r in cloud && (r.status == Red || r.status == Amber) then Amber
          else Green
  }

  /** The command: assembles the checks, runs them in the given mode, and always prints a report. */
  method PrintReport(o: Options) returns (printed: Report)
    ensures printed == Printed(o)
    ensures VerdictTells(o, printed)
  {
    PrintedTells(o);
    if o.provider.None? {
      return ERROR_REPORT;
    }
    var checks := CloudChecks(o.provider.value);
    if o.kubeconfig != "" {
      if o.cluster.None? {
        return ERROR_REPORT;
      }
      checks := checks + K8sChecks(o.cluster.value);
    } else if !o.skipK8sWhenNoKubeconfig {
      checks := checks + NO_KUBECONFIG;
    } else {
      assert checks == checks + [];
    }
    var runner := new Runner(checks);
    if o.mode == "full" {
      assert Provisioned([0, 1, 2, 3]) == FULL_MASK;
      var report, _ := runner.RunWithProvisionedStages([0, 1, 2, 3]);
      return report;
    } else if o.mode == "agnostic" {
      var report, _ := runner.Run();
      return report;
    } else {
      return ERROR_REPORT;
    }
  }

  /** Every check of the cloud stages, and of the stages after them, can be found in the run. */
  lemma CloudFinds(p: Cloud, rest: seq<Check>, mode: string, onlyBlocking: bool, status: Status)
    requires mode in {"full", "agnostic"} && forall c :: c in rest ==> c.stage in {4, 5}
    ensures T.Finds(CloudChecks(p) + rest, ModeMask(mode), onlyBlocking, status) <==>
            || ((onlyBlocking ==> mode == "agnostic")
                && (Any(p.identity, status) || Any(p.kms, status) || Any(p.secrets, status) || Any(p.egress, status)))
            || exists c :: c in rest && Any(c.outcome, status)
  {
    var checks, mask := CloudChecks(p) + rest, ModeMask(mode);
    forall i | 0 <= i < |checks|
      ensures InRange(checks[i])
      ensures !mask[checks[i].stage] <==> mode == "agnostic" || i >= 4
    {
      if i >= 4 { assert checks[i] in rest; }
    }
    FindsInChecks(checks, mask, onlyBlocking, status);
    assert checks[0].outcome == p.identity && checks[1].outcome == p.kms;
    assert checks[2].outcome == p.secrets && checks[3].outcome == p.egress;
    assert forall c :: c in rest ==> exists i :: 4 <= i < |checks| && checks[i] == c by {
      forall c | c in rest ensures exists i :: 4 <= i < |checks| && checks[i] == c {
        var j :| 0 <= j < |rest| && rest[j] == c;
        assert checks[4 + j] == c;
      }
    }
  }

  lemma FindsInChecks(checks: seq<Check>, mask: Mask, onlyBlocking: bool, status: Status)
    requires forall i :: 0 <= i < |checks| ==> InRange(checks[i])
    ensures T.Finds(checks, mask, onlyBlocking, status) <==>
            exists i :: 0 <= i < |checks| && InRange(checks[i]) && (onlyBlocking ==> !mask[checks[i].stage])
                        && Any(checks[i].outcome, status)
  {
    if i :| 0 <= i < |checks| && (onlyBlocking ==> !mask[checks[i].stage]) && Any(checks[i].outcome, status) {
      var r :| r in checks[i].outcome && r.status == status;
      var j :| 0 <= j < |checks[i].outcome| && checks[i].outcome[j] == r;
    }
  }

  lemma AnyOfK8s(k: Cluster, status: Status)
    ensures (exists c :: c in K8sChecks(k) && Any(c.outcome, status)) <==>
            || Any(k.before + k.after, status) || CheckInstallTier(k).status == status
            || k.namespaceStatus == status || status == Amber
  {
    var stage4, stage5 := K8sChecks(k)[0], K8sChecks(k)[1];
    assert stage5.outcome[0].status == k.namespaceStatus && stage5.outcome[1].status == Amber;
    assert stage5.outcome[0] in stage5.outcome && stage5.outcome[1] in stage5.outcome;
    assert CheckInstallTier(k) in stage4.outcome;
    assert stage4 in K8sChecks(k) && stage5 in K8sChecks(k);
  }

  lemma AnyOfCloud(p: Cloud, status: Status)
    ensures Any(p.identity + p.kms + p.secrets + p.egress, status) <==>
            Any(p.identity, status) || Any(p.kms, status) || Any(p.secrets, status) || Any(p.egress, status)
  {
  }

  lemma PrintedTells(o: Options)
    ensures VerdictTells(o, Printed(o))
  {
    if RunsToCompletion(o) {
      var p := o.provider.value;
      var rest := AllChecks(o)[4..];
      assert AllChecks(o) == CloudChecks(p) + rest;
      T.VerdictMeaning(AllChecks(o), ModeMask(o.mode));
      CloudFinds(p, rest, o.mode, true, Red);
      CloudFinds(p, rest, o.mode, false, Red);
      CloudFinds(p, rest, o.mode, false, Amber);
      AnyOfCloud(p, Red);
      AnyOfCloud(p, Amber);
      if o.kubeconfig != "" {
        AnyOfK8s(o.cluster.value, Red);
        AnyOfK8s(o.cluster.value, Amber);
      } else if !o.skipK8sWhenNoKubeconfig {
        assert NO_KUBECONFIG[0] in NO_KUBECONFIG && NO_KUBECONFIG[0].outcome[0] in NO_KUBECONFIG[0].outcome;
      }
    }
  }

  // The Terraform module

  /** A plan is blocked by the postcondition, fails because an expression iterates over null, or goes on
      with a tier. */
  datatype Plan = Blocked | IteratesNull | Planned(tier: string)

  /** The first stage with id 4, if any. */
  function Stage4(stages: seq<Stage>): Option<Stage>
  {
    if stages == [] then None
    else if stages[0].id == 4 then Some(stages[0])
    else Stage4(stages[1..])
  }

  function IsInstallTier(): CheckResult -> bool
  {
    (r: CheckResult) => r.id == INSTALL_TIER
  }

  function TierOf(status: Status): string
  {
    match status
    case Green => "A"
    case Amber => "B"
    case Red => "RED"
    case _ => "B"
  }

  function PlanOf(failOnRed: bool, tierOverride: string, report: Report): Plan
  {
    if failOnRed && report.verdict == Red then Blocked
    else
      var stage4 := Stage4(report.stages);
      if stage4.Some? && stage4.value.results.None? then IteratesNull
      else
        var tiers := Filter(IsInstallTier(), if stage4.None? then [] else stage4.value.results.value);
        var status := if tiers != [] then tiers[0].status else Other("");
        Planned(if tierOverride != "" then tierOverride else TierOf(status))
  }

  // What the gate guarantees

  lemma Stage4Of(checks: seq<Check>, mask: Mask)
    ensures Stage4(StagesOf(checks, mask)) == Some(StagesOf(checks, mask)[4])
  {
    var s := StagesOf(checks, mask);
    assert s[1..][1..][1..][1..][0] == s[4];
    assert Stage4(s[1..][1..][1..][1..]) == Some(s[4]);
    assert Stage4(s[1..][1..][1..]) == Some(s[4]);
    assert Stage4(s[1..][1..]) == Some(s[4]);
  }

  lemma {:induction false} NoInstallTier(s: seq<CheckResult>)
    requires forall r :: r in s ==> r.id != INSTALL_TIER
    ensures Filter(IsInstallTier(), s) == []
  {
    if s != [] { NoInstallTier(s[1..]); }
  }

  lemma InstallTierFound(k: Cluster)
    requires ValidCluster(k)
    ensures Filter(IsInstallTier(), k.before + [CheckInstallTier(k)] + k.after) == [CheckInstallTier(k)]
  {
    NoInstallTier(k.before);
    NoInstallTier(k.after);
    FilterConcat(IsInstallTier(), k.before + [CheckInstallTier(k)], k.after);
    FilterConcat(IsInstallTier(), k.before, [CheckInstallTier(k)]);
  }

  /** Each stage has exactly one check, so its results are that check's. */
  lemma StageResultsOf(p: Cloud, k: Cluster)
    ensures var checks := CloudChecks(p) + K8sChecks(k);
            && StageResults(checks, 0) == p.identity && StageResults(checks, 1) == p.kms
            && StageResults(checks, 2) == p.secrets && StageResults(checks, 3) == p.egress
            && StageResults(checks, 4) == k.before + [CheckInstallTier(k)] + k.after
            && StageResults(checks, 5) ==
               [CheckResult("workload.namespace", k.namespaceStatus), CheckResult("workload.image", Amber)]
  {
    var checks := CloudChecks(p) + K8sChecks(k);
    forall id | 0 <= id < 6
      ensures Bucket(checks, id) == [checks[id]]
      ensures StageResults(checks, id) == checks[id].outcome
    {
      OneCheck(checks, id);
    }
  }

  lemma OneCheck(checks: seq<Check>, id: nat)
    requires |checks| == 6 && id < 6 && forall i :: 0 <= i < 6 ==> checks[i].stage == i
    ensures Bucket(checks, id) == [checks[id]] && StageResults(checks, id) == checks[id].outcome
  {
    var c := checks;
    NoneOfStage(c[..id], id);
    NoneOfStage(c[id + 1..], id);
    assert c == c[..id] + ([c[id]] + c[id + 1..]);
    FilterConcat(OfStage(id), c[..id], [c[id]] + c[id + 1..]);
    FilterConcat(OfStage(id), [c[id]], c[id + 1..]);
    assert FlatMap(Outcomes(), [c[id]]) == c[id].outcome + FlatMap(Outcomes(), [c[id]][1..]);
  }

  lemma {:induction false} NoneOfStage(checks: seq<Check>, id: nat)
    requires forall i :: 0 <= i < |checks| ==> checks[i].stage != id
    ensures Bucket(checks, id) == []
  {
    if checks != [] { NoneOfStage(checks[1..], id); }
  }

  predicate AnyRed(results: seq<CheckResult>)
  {
    exists r :: r in results && r.status == Red
  }

  /** Some cloud check found something red. */
  predicate CloudRed(p: Cloud)
  {
    AnyRed(p.identity) || AnyRed(p.kms) || AnyRed(p.secrets) || AnyRed(p.egress)
  }

  /** Stage 4 is skipped exactly when the mode lets the cloud stages block and one of them is red;
      otherwise it carries the install-tier result. */
  lemma Stage4Ran(p: Cloud, k: Cluster, mode: string)
    requires mode in {"full", "agnostic"}
    ensures var stage := StagesOf(CloudChecks(p) + K8sChecks(k), ModeMask(mode))[4];
            if mode == "agnostic" && CloudRed(p) then stage.status == Skipped && stage.results == None
            else stage.results == Some(k.before + [CheckInstallTier(k)] + k.after)
  {
    StageResultsOf(p, k);
    CloudStagesBlock(p, K8sChecks(k), mode);
  }

  /** What each stage of a run against a reached cluster carries, unless it was skipped, and which stages
      block. */
  lemma StagesTell(o: Options, id: nat)
    requires RunsToCompletion(o) && o.kubeconfig != "" && id < 6
    ensures var p, k := o.provider.value, o.cluster.value;
            var stages := Printed(o).stages;
            var carried :=
              if id == 0 then p.identity
              else if id == 1 then p.kms
              else if id == 2 then p.secrets
              else if id == 3 then p.egress
              else if id == 4 then k.before + [CheckInstallTier(k)] + k.after
              else [CheckResult("workload.namespace", k.namespaceStatus), CheckResult("workload.image", Amber)];
            && |stages| == 6 && stages[id].id == id
            && (stages[id].status != Skipped ==> stages[id].results == if carried == [] then None else Some(carried))
            && (stages[id].blocking <==> o.mode == "agnostic" || id >= 4)
            && (stages[id].informational <==> o.mode == "full" && id < 4)
  {
    StageResultsOf(o.provider.value, o.cluster.value);
    StageCarries(AllChecks(o), ModeMask(o.mode), id);
  }

  lemma StageCarries(checks: seq<Check>, mask: Mask, id: nat)
    requires id < 6
    ensures var stage, results := StagesOf(checks, mask)[id], StageResults(checks, id);
            && stage.id == id
               && (stage.status != Skipped ==> stage.results == if results == [] then None else Some(results))
            && stage.blocking == !mask[id] && stage.informational == mask[id]
  {
  }

  predicate CanInstallOperator(k: Cluster)
  {
    k.createCRD.Allowed? && k.createClusterRole.Allowed? && !k.createDeployment.ReviewFailed?
  }

  predicate CanInstallManifests(k: Cluster)
  {
    k.createDeployment.Allowed? && !k.createCRD.ReviewFailed? && !k.createClusterRole.ReviewFailed?
  }

  function InstallableTier(k: Cluster): string
  {
    if CanInstallOperator(k) then "A" else if CanInstallManifests(k) then "B" else "RED"
  }

  /** The whole gate against a reachable cluster. The plan is blocked iff red blocks and something is red:
      the namespace or another check around the reviews, a review that fails, reviews that allow neither
      tier, or, in agnostic mode, a cloud check. It dies on a null list iff red does not block and, in
      agnostic mode, a cloud check is red. Otherwise it has a tier: the override if there is one, else A iff
      the operator can be installed, else B iff the manifests can, else RED. */
  lemma GateDecides(o: Options, failOnRed: bool, tierOverride: string)
    requires RunsToCompletion(o) && o.kubeconfig != "" && ValidCluster(o.cluster.value)
    ensures var plan := PlanOf(failOnRed, tierOverride, Printed(o));
            var p, k := o.provider.value, o.cluster.value;
            var cloud := p.identity + p.kms + p.secrets + p.egress;
            var stops := o.mode == "agnostic" && exists r :: r in cloud && r.status == Red;
            var around := exists r :: r in k.before + k.after && r.status == Red;
            var answered := !k.createCRD.ReviewFailed? && !k.createClusterRole.ReviewFailed?
                            && !k.createDeployment.ReviewFailed?;
            var operator := answered && k.createCRD.Allowed? && k.createClusterRole.Allowed?;
            var manifests := answered && k.createDeployment.Allowed?;
            && (plan == Blocked <==>
                failOnRed && (stops || around || k.namespaceStatus == Red || !(operator || manifests)))
            && (plan == IteratesNull <==> !failOnRed && stops)
            && (plan.Planned? ==>
                  plan.tier == if tierOverride != "" then tierOverride
                               else if operator then "A" else if manifests then "B" else "RED")
  {
    var p, k := o.provider.value, o.cluster.value;
    var checks, mask := AllChecks(o), ModeMask(o.mode);
    AnyOfCloud(p, Red);
    PrintedTells(o);
    Stage4Of(checks, mask);
    Stage4Ran(p, k, o.mode);
    if o.mode == "agnostic" && CloudRed(p) {
      SkippedMeansRed(checks, mask);
    } else {
      PlanOfReachedCluster(failOnRed, tierOverride, Printed(o), k);
    }
  }

  lemma PlanOfReachedCluster(failOnRed: bool, tierOverride: string, report: Report, k: Cluster)
    requires ValidCluster(k) && Stage4(report.stages).Some?
    requires Stage4(report.stages).value.results == Some(k.before + [CheckInstallTier(k)] + k.after)
    ensures PlanOf(failOnRed, tierOverride, report) ==
            if failOnRed && report.verdict == Red then Blocked
            else Planned(if tierOverride != "" then tierOverride else InstallableTier(k))
  {
    InstallTierFound(k);
  }

  lemma SkippedMeansRed(checks: seq<Check>, mask: Mask)
    requires StagesOf(checks, mask)[4].status == Skipped
    ensures VerdictOf(StagesOf(checks, mask)) == Red
  {
    var first := FirstBlockingRed(checks, mask, 0);
    if first < 4 {
      assert StagesOf(checks, mask)[first] in StagesOf(checks, mask);
    }
  }

  lemma RedTierIsRed(p: Cloud, k: Cluster, mask: Mask)
    requires CheckInstallTier(k).status == Red && !mask[4]
    ensures VerdictOf(StagesOf(CloudChecks(p) + K8sChecks(k), mask)) == Red
  {
    var checks := CloudChecks(p) + K8sChecks(k);
    StageResultsOf(p, k);
    assert AnyRed(StageResults(checks, 4)) by { assert CheckInstallTier(k) in StageResults(checks, 4); }
    T.ShownIsFound(checks, mask, 4);
    T.VerdictMeaning(checks, mask);
  }

  /** With red blocking and no override, a plan that goes on never iterates over null, and its tier is
      one the cluster lets the deploy identity install. */
  lemma PassingPlanIsDeployable(o: Options)
    requires RunsToCompletion(o) && o.kubeconfig != "" && ValidCluster(o.cluster.value)
    requires PlanOf(true, "", Printed(o)) != Blocked
    ensures var plan := PlanOf(true, "", Printed(o));
            var k := o.cluster.value;
            && Printed(o).stages[4].status != Skipped
            && plan in {Planned("A"), Planned("B")}
            && (plan == Planned("A") ==> k.createCRD.Allowed? && k.createClusterRole.Allowed?)
            && (plan == Planned("B") ==> k.createDeployment.Allowed?)
  {
    GateDecides(o, true, "");
    var p, k := o.provider.value, o.cluster.value;
    var checks, mask := AllChecks(o), ModeMask(o.mode);
    if CheckInstallTier(k).status == Red { RedTierIsRed(p, k, mask); }
    if Printed(o).stages[4].status == Skipped { SkippedMeansRed(checks, mask); }
  }

  /** Without a cluster to ask (no kubeconfig, or an internal failure) the verdict is red; a plan that
      is told to go on regardless falls to tier B, unless stage 4 was skipped or given no checks. */
  lemma NoClusterIsRed(o: Options)
    requires !RunsToCompletion(o) || (o.kubeconfig == "" && !o.skipK8sWhenNoKubeconfig)
    ensures Printed(o).verdict == Red
    ensures PlanOf(true, "", Printed(o)) == Blocked
    ensures PlanOf(false, "", Printed(o)) ==
            if RunsToCompletion(o) && o.mode == "agnostic" && CloudRed(o.provider.value)
            then IteratesNull
            else Planned("B")
  {
    if RunsToCompletion(o) {
      UnreachableIsRed(o.provider.value, o.mode);
      UnreachablePlan(o.provider.value, o.mode);
    }
  }

  lemma UnreachableIsRed(p: Cloud, mode: string)
    ensures VerdictOf(StagesOf(CloudChecks(p) + NO_KUBECONFIG, ModeMask(mode))) == Red
  {
    var checks, mask := CloudChecks(p) + NO_KUBECONFIG, ModeMask(mode);
    assert checks[4] == NO_KUBECONFIG[0] && checks[4].outcome[0].status == Red && !mask[4];
    assert T.Finds(checks, mask, true, Red);
    T.VerdictMeaning(checks, mask);
  }

  lemma UnreachablePlan(p: Cloud, mode: string)
    requires mode in {"full", "agnostic"}
    ensures PlanOf(false, "", Report(Red, StagesOf(CloudChecks(p) + NO_KUBECONFIG, ModeMask(mode)))) ==
            if mode == "agnostic" && CloudRed(p) then IteratesNull else Planned("B")
  {
    Stage4Of(CloudChecks(p) + NO_KUBECONFIG, ModeMask(mode));
    UnreachableStage(p, mode);
    NoInstallTier([CheckResult("k8s.unreachable", Red)]);
  }

  lemma UnreachableStage(p: Cloud, mode: string)
    requires mode in {"full", "agnostic"}
    ensures StagesOf(CloudChecks(p) + NO_KUBECONFIG, ModeMask(mode))[4].results ==
            if mode == "agnostic" && CloudRed(p) then None else Some([CheckResult("k8s.unreachable", Red)])
  {
    UnreachableResults(p);
    CloudStagesBlock(p, NO_KUBECONFIG, mode);
  }

  /** Whatever follows them, the cloud checks stop an agnostic run before stage 4 iff one is red. */
  lemma CloudStagesBlock(p: Cloud, rest: seq<Check>, mode: string)
    requires mode in {"full", "agnostic"}
    requires var checks := CloudChecks(p) + rest;
             && StageResults(checks, 0) == p.identity && StageResults(checks, 1) == p.kms
             && StageResults(checks, 2) == p.secrets && StageResults(checks, 3) == p.egress
    ensures FirstBlockingRed(CloudChecks(p) + rest, ModeMask(mode), 0) < 4 <==> mode == "agnostic" && CloudRed(p)
  {
    var checks, mask := CloudChecks(p) + rest, ModeMask(mode);
    assert forall s :: AnyRed(s) <==> StageStatusOf(s) == Red;
    assert BlockingRed(checks, mask, 0) <==> mode == "agnostic" && AnyRed(p.identity);
    assert BlockingRed(checks, mask, 1) <==> mode == "agnostic" && AnyRed(p.kms);
    assert BlockingRed(checks, mask, 2) <==> mode == "agnostic" && AnyRed(p.secrets);
    assert BlockingRed(checks, mask, 3) <==> mode == "agnostic" && AnyRed(p.egress);
  }

  lemma UnreachableResults(p: Cloud)
    ensures var checks := CloudChecks(p) + NO_KUBECONFIG;
            && StageResults(checks, 0) == p.identity && StageResults(checks, 1) == p.kms
            && StageResults(checks, 2) == p.secrets && StageResults(checks, 3) == p.egress
            && StageResults(checks, 4) == [CheckResult("k8s.unreachable", Red)]
  {
    var checks := CloudChecks(p) + NO_KUBECONFIG;
    var padded := checks + [Check(5, "", [])];
    assert checks == padded[..5];
    forall id | 0 <= id < 5 ensures StageResults(checks, id) == checks[id].outcome {
      OneCheck(padded, id);
      BucketAppend(checks, Check(5, "", []), id);
    }
  }
}
