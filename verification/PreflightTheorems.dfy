/** What the preflight report means, for every list of checks, every outcome and every mask. */
module PreflightTheorems {
  import opened Values
  import opened Sequences
  import opened Severity
  import opened Preflight

  /** Some check of a blocking (or of any) stage has a result of that status. */
  ghost predicate Finds(checks: seq<Check>, mask: Mask, onlyBlocking: bool, status: Status)
  {
    exists i, j ::
      && 0 <= i < |checks| && 0 <= j < |checks[i].outcome|
      && checks[i].outcome[j].status == status
      && InRange(checks[i]) && (onlyBlocking ==> !mask[checks[i].stage])
  }

  /** A stage's results are those of its checks. */
  lemma StageFinds(checks: seq<Check>, id: nat, r: CheckResult)
    ensures r in StageResults(checks, id) <==>
            exists i :: 0 <= i < |checks| && checks[i].stage == id && r in checks[i].outcome
  {
    var bucket := Bucket(checks, id);
    FlatMapMember(Outcomes(), bucket, r);
    if k :| 0 <= k < |bucket| && r in Outcomes()(bucket[k]) {
      FilterCount(OfStage(id), checks, bucket[k]);
      assert bucket[k] in multiset(bucket);
      assert bucket[k] in multiset(checks);
    }
    if i :| 0 <= i < |checks| && checks[i].stage == id && r in checks[i].outcome {
      FilterCount(OfStage(id), checks, checks[i]);
      assert checks[i] in multiset(checks);
      assert checks[i] in multiset(bucket);
      var k :| 0 <= k < |bucket| && bucket[k] == checks[i];
      assert r in Outcomes()(bucket[k]);
    }
  }

  /** A found result shows in its stage. */
  lemma FoundShows(checks: seq<Check>, mask: Mask, onlyBlocking: bool, status: Status)
    requires Finds(checks, mask, onlyBlocking, status) && (status == Red || status == Amber)
    ensures exists id :: 0 <= id < STAGES && (onlyBlocking ==> !mask[id]) &&
                         RunStage(checks, mask, id).status in {Red, status}
  {
    var i, j :|
      && 0 <= i < |checks| && 0 <= j < |checks[i].outcome|
      && checks[i].outcome[j].status == status
      && InRange(checks[i]) && (onlyBlocking ==> !mask[checks[i].stage]);
    StageFinds(checks, checks[i].stage, checks[i].outcome[j]);
    assert RunStage(checks, mask, checks[i].stage).status in {Red, status};
  }

  /** A stage that is not green shows a found result. */
  lemma ShownIsFound(checks: seq<Check>, mask: Mask, id: nat)
    requires id < STAGES && RunStage(checks, mask, id).status != Green
    ensures Finds(checks, mask, !mask[id], RunStage(checks, mask, id).status)
    ensures Finds(checks, mask, false, RunStage(checks, mask, id).status)
  {
    var r :| r in StageResults(checks, id) && r.status == RunStage(checks, mask, id).status;
    StageFinds(checks, id, r);
    var i :| 0 <= i < |checks| && checks[i].stage == id && r in checks[i].outcome;
    var j :| 0 <= j < |checks[i].outcome| && checks[i].outcome[j] == r;
  }

  lemma ExhaustiveMeaning(checks: seq<Check>, mask: Mask)
    ensures var verdict := VerdictOf(ExhaustiveStages(checks, mask));
            && (verdict == Red <==> Finds(checks, mask, true, Red))
            && (verdict == Green <==> !Finds(checks, mask, false, Red) && !Finds(checks, mask, false, Amber))
  {
    var stages := ExhaustiveStages(checks, mask);
    forall s | s in stages && s.status != Green
      ensures Finds(checks, mask, s.blocking, s.status) && Finds(checks, mask, false, s.status)
    {
      var id :| 0 <= id < STAGES && stages[id] == s;
      ShownIsFound(checks, mask, id);
    }
    if Finds(checks, mask, true, Red) {
      FoundShows(checks, mask, true, Red);
      var id :| 0 <= id < STAGES && !mask[id] && RunStage(checks, mask, id).status in {Red, Red};
      assert stages[id] in stages;
    }
    forall status | status in {Red, Amber} && Finds(checks, mask, false, status)
      ensures VerdictOf(stages) != Green
    {
      FoundShows(checks, mask, false, status);
      var id :| 0 <= id < STAGES && RunStage(checks, mask, id).status in {Red, status};
      assert stages[id] in stages;
    }
  }

  /** Short-circuiting changes no verdict: a run's verdict is that of running all six stages. */
  lemma ShortCircuitKeepsVerdict(checks: seq<Check>, mask: Mask)
    ensures VerdictOf(StagesOf(checks, mask)) == VerdictOf(ExhaustiveStages(checks, mask))
  {
    var stages, all := StagesOf(checks, mask), ExhaustiveStages(checks, mask);
    var first := FirstBlockingRed(checks, mask, 0);
    if first < STAGES {
      assert stages[first] == all[first] == RunStage(checks, mask, first);
      assert stages[first] in stages && all[first] in all;
    } else {
      assert stages == all;
    }
  }

  /** The report of a run is the exhaustive one with exactly the stages after the least blocking red
      one replaced by skipped, null results. */
  lemma ShortCircuitRefines(checks: seq<Check>, mask: Mask, id: nat)
    requires id < STAGES
    ensures var stages, all := StagesOf(checks, mask), ExhaustiveStages(checks, mask);
            var cut := exists k :: 0 <= k < id && all[k].blocking && all[k].status == Red;
            && VerdictOf(stages) == VerdictOf(all)
            && stages[id] == if cut then all[id].(status := Skipped, results := None) else all[id]
  {
    ShortCircuitKeepsVerdict(checks, mask);
    var first := FirstBlockingRed(checks, mask, 0);
    var all := ExhaustiveStages(checks, mask);
    assert forall k :: 0 <= k < STAGES ==> (all[k].blocking && all[k].status == Red <==> BlockingRed(checks, mask, k));
    if first < id { assert all[first].blocking && all[first].status == Red; }
  }

  /** The verdict, in terms of the checks alone: red iff some check of a blocking stage has a red
      result, run or not; green iff no check of any stage has a red or amber one; otherwise amber. */
  lemma VerdictMeaning(checks: seq<Check>, mask: Mask)
    ensures var verdict := VerdictOf(StagesOf(checks, mask));
            && (verdict == Red <==> Finds(checks, mask, true, Red))
            && (verdict == Green <==> !Finds(checks, mask, false, Red) && !Finds(checks, mask, false, Amber))
            && verdict in {Green, Amber, Red}
  {
    ShortCircuitKeepsVerdict(checks, mask);
    ExhaustiveMeaning(checks, mask);
  }

  // Monotonicity

  /** The same checks with some results more severe. */
  ghost predicate Raised(checks: seq<Check>, checks': seq<Check>)
  {
    && |checks| == |checks'|
    && forall i :: 0 <= i < |checks| ==>
         && checks[i].stage == checks'[i].stage && |checks[i].outcome| == |checks'[i].outcome|
         && forall j :: 0 <= j < |checks[i].outcome| ==>
              Rank(checks[i].outcome[j].status) <= Rank(checks'[i].outcome[j].status)
  }

  /** Raising results never lowers the verdict. */
  lemma RaisingNeverLowers(checks: seq<Check>, checks': seq<Check>, mask: Mask)
    requires Raised(checks, checks')
    ensures Rank(VerdictOf(StagesOf(checks, mask))) <= Rank(VerdictOf(StagesOf(checks', mask)))
  {
    VerdictMeaning(checks, mask);
    VerdictMeaning(checks', mask);
    RaisedFinds(checks, checks', mask, true);
    RaisedFinds(checks, checks', mask, false);
  }

  lemma RaisedFinds(checks: seq<Check>, checks': seq<Check>, mask: Mask, onlyBlocking: bool)
    requires Raised(checks, checks')
    ensures Finds(checks, mask, onlyBlocking, Red) ==> Finds(checks', mask, onlyBlocking, Red)
    ensures Finds(checks, mask, onlyBlocking, Amber) ==>
              Finds(checks', mask, onlyBlocking, Red) || Finds(checks', mask, onlyBlocking, Amber)
  {
  }

  predicate MoreInformational(mask: Mask, mask': Mask)
  {
    forall id :: 0 <= id < STAGES && mask[id] ==> mask'[id]
  }

  /** Provisioning more stages never raises the verdict. */
  lemma MaskingNeverRaises(checks: seq<Check>, mask: Mask, mask': Mask)
    requires MoreInformational(mask, mask')
    ensures Rank(VerdictOf(StagesOf(checks, mask'))) <= Rank(VerdictOf(StagesOf(checks, mask)))
  {
    VerdictMeaning(checks, mask);
    VerdictMeaning(checks, mask');
  }

  /** Provisioning more stages changes nothing at all for a run that was not red: same statuses, same
      results, same verdict. */
  lemma MaskingKeepsPassingRuns(checks: seq<Check>, mask: Mask, mask': Mask, id: nat)
    requires MoreInformational(mask, mask') && id < STAGES
    requires VerdictOf(StagesOf(checks, mask)) != Red
    ensures var a, b := StagesOf(checks, mask)[id], StagesOf(checks, mask')[id];
            a.status == b.status && a.results == b.results && a.status != Skipped
    ensures VerdictOf(StagesOf(checks, mask)) == VerdictOf(StagesOf(checks, mask'))
  {
    VerdictMeaning(checks, mask);
    VerdictMeaning(checks, mask');
    forall k | 0 <= k < STAGES ensures !BlockingRed(checks, mask, k) && !BlockingRed(checks, mask', k) {
      if !mask[k] && RunStage(checks, mask, k).status != Green { ShownIsFound(checks, mask, k); }
    }
    assert FirstBlockingRed(checks, mask, 0) == STAGES == FirstBlockingRed(checks, mask', 0);
  }

  // The execution trace

  lemma {:induction false} TraceBucket(checks: seq<Check>, n: nat, id: nat)
    ensures Bucket(TraceUpTo(checks, n), id) == if id < n then Bucket(checks, id) else []
  {
    if n > 0 {
      TraceBucket(checks, n - 1, id);
      FilterConcat(OfStage(id), TraceUpTo(checks, n - 1), Bucket(checks, n - 1));
      BucketOfBucket(checks, n - 1, id);
      assert Bucket(checks, id) + [] == Bucket(checks, id) == [] + Bucket(checks, id);
    }
  }

  lemma {:induction false} BucketOfBucket(checks: seq<Check>, n: int, id: int)
    ensures Bucket(Bucket(checks, n), id) == if id == n then Bucket(checks, n) else []
  {
    if checks != [] {
      BucketOfBucket(checks[1..], n, id);
      var head := if checks[0].stage == n then [checks[0]] else [];
      FilterConcat(OfStage(id), head, Bucket(checks[1..], n));
    }
  }

  lemma {:induction false} TraceSorted(checks: seq<Check>, n: nat)
    ensures forall i :: 0 <= i < |TraceUpTo(checks, n)| ==> 0 <= TraceUpTo(checks, n)[i].stage < n
    ensures forall i, j :: 0 <= i < j < |TraceUpTo(checks, n)| ==>
            TraceUpTo(checks, n)[i].stage <= TraceUpTo(checks, n)[j].stage
  {
    if n > 0 {
      TraceSorted(checks, n - 1);
      forall c | c in Bucket(checks, n - 1) ensures c.stage == n - 1 {
        FilterCount(OfStage(n - 1), checks, c);
        assert c in multiset(Bucket(checks, n - 1));
      }
    }
  }

  /** The checks executed are those of the stages up to the first blocking red one and of no other:
      stage by stage, within a stage in the order supplied, each as often as it was supplied. */
  lemma ExecutionTrace(checks: seq<Check>, mask: Mask, id: nat, c: Check)
    ensures var first := FirstBlockingRed(checks, mask, 0);
            var trace := Trace(checks, mask);
            && Bucket(trace, id) == (if id <= first && id < STAGES then Bucket(checks, id) else [])
            && (forall i, j :: 0 <= i < j < |trace| ==> trace[i].stage <= trace[j].stage)
            && multiset(trace)[c] == if InRange(c) && c.stage <= first then multiset(checks)[c] else 0
  {
    var first := FirstBlockingRed(checks, mask, 0);
    var n := if first < STAGES then first + 1 else STAGES;
    TraceBucket(checks, n, id);
    TraceSorted(checks, n);
    var trace := Trace(checks, mask);
    if c.stage >= 0 {
      TraceBucket(checks, n, c.stage);
      FilterCount(OfStage(c.stage), trace, c);
      FilterCount(OfStage(c.stage), checks, c);
    } else {
      assert c !in trace;
    }
  }

  /** The order in which the checks are supplied does not show in any stage's status or verdict, nor
      in which results a stage has. */
  lemma OrderDoesNotMatter(checks: seq<Check>, checks': seq<Check>, mask: Mask, id: nat)
    requires multiset(checks) == multiset(checks') && id < STAGES
    ensures var a, b := StagesOf(checks, mask)[id], StagesOf(checks', mask)[id];
            && a.status == b.status && (a.results.Some? <==> b.results.Some?)
            && (a.results.Some? ==> multiset(a.results.value) == multiset(b.results.value))
            && VerdictOf(StagesOf(checks, mask)) == VerdictOf(StagesOf(checks', mask))
  {
    forall k | 0 <= k < STAGES
      ensures multiset(StageResults(checks, k)) == multiset(StageResults(checks', k))
      ensures StageStatusOf(StageResults(checks, k)) == StageStatusOf(StageResults(checks', k))
    {
      SameBuckets(checks, checks', k);
      FlatMapPermutation(Outcomes(), Bucket(checks, k), Bucket(checks', k));
      SameStatus(StageResults(checks, k), StageResults(checks', k));
    }
    SameFirst(checks, checks', mask, 0);
    SameVerdict(StagesOf(checks, mask), StagesOf(checks', mask));
  }

  lemma SameBuckets(checks: seq<Check>, checks': seq<Check>, id: nat)
    requires multiset(checks) == multiset(checks')
    ensures multiset(Bucket(checks, id)) == multiset(Bucket(checks', id))
  {
    forall c: Check ensures multiset(Bucket(checks, id))[c] == multiset(Bucket(checks', id))[c] {
      FilterCount(OfStage(id), checks, c);
      FilterCount(OfStage(id), checks', c);
    }
  }

  lemma SameStatus(a: seq<CheckResult>, b: seq<CheckResult>)
    requires multiset(a) == multiset(b)
    ensures StageStatusOf(a) == StageStatusOf(b)
  {
    assert forall r :: r in a <==> r in multiset(a);
    assert forall r :: r in b <==> r in multiset(b);
  }

  lemma SameFirst(checks: seq<Check>, checks': seq<Check>, mask: Mask, from: nat)
    requires from <= STAGES
    requires forall k :: 0 <= k < STAGES ==>
             StageStatusOf(StageResults(checks, k)) == StageStatusOf(StageResults(checks', k))
    ensures FirstBlockingRed(checks, mask, from) == FirstBlockingRed(checks', mask, from)
  {
    var a, b := FirstBlockingRed(checks, mask, from), FirstBlockingRed(checks', mask, from);
    assert a < b ==> BlockingRed(checks', mask, a);
    assert b < a ==> BlockingRed(checks, mask, b);
  }

  lemma SameVerdict(a: seq<Stage>, b: seq<Stage>)
    requires |a| == |b| && forall i :: 0 <= i < |a| ==> a[i].status == b[i].status && a[i].blocking == b[i].blocking
    ensures VerdictOf(a) == VerdictOf(b)
  {
  }
}
