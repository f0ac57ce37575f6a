/** The guarantees of the reconcile protocol over every run. */
module ProtocolTheorems {
  import opened Values
  import opened Objects
  import opened Workloads
  import opened Protocol
  import opened ProtocolInvariants
  import opened ChildSafety

  ghost predicate Invariant(cfg: Config, w: World)
  {
    && Shape(w)
    && Lineage(w.log)
    && Progress(cfg, w)
    && (w.misreported || Observed(w.log, w.seen))
    && HonestLog(cfg, w)
    && Safe(cfg, w)
  }

  lemma StepKeepsInvariant(cfg: Config, w: World, step: Step)
    requires ValidServer(cfg.server) && Invariant(cfg, w)
    ensures Invariant(cfg, Do(cfg, w, step))
  {
    StepKeepsShape(cfg, w, step);
    StepKeepsLineage(cfg, w, step);
    StepKeepsProgress(cfg, w, step);
    StepKeepsObserved(cfg, w, step);
    StepKeepsHonestLog(cfg, w, step);
    StepKeepsSafe(cfg, w, step);
  }

  lemma {:induction false} Always(cfg: Config, steps: seq<Step>)
    requires ValidServer(cfg.server)
    ensures Invariant(cfg, After(cfg, steps))
    decreases |steps|
  {
    if steps != [] {
      Always(cfg, steps[..|steps| - 1]);
      StepKeepsInvariant(cfg, After(cfg, steps[..|steps| - 1]), steps[|steps| - 1]);
    }
  }

  /** Observed generations: never above the generation they are stored with, and never decreasing
      over the life of one incarnation. */
  lemma ObservedGenerationIsHonest(cfg: Config, steps: seq<Step>, i: nat, j: nat)
    requires ValidServer(cfg.server) && !After(cfg, steps).misreported
    requires i <= j < |After(cfg, steps).log|
    requires var log := After(cfg, steps).log; log[i].Some? && log[j].Some? && log[i].value.uid == log[j].value.uid
    ensures var log := After(cfg, steps).log;
            && log[i].value.status.observedGeneration <= log[i].value.generation
            && log[i].value.status.observedGeneration <= log[j].value.status.observedGeneration
  {
    Always(cfg, steps);
    var w := After(cfg, steps);
    assert ObservedPair(w.log, w.seen, i, i) && ObservedPair(w.log, w.seen, i, j);
  }

  /** The child was at some point stored exactly as asked for, by the end of that reconcile's turn on it. */
  predicate AppliedIn(cfg: Config, w: World, run: nat, desired: Obj, receipt: Receipt)
    requires run < |w.runs| && w.runs[run].read < |w.log| && w.log[w.runs[run].read].Some?
  {
    && receipt in w.runs[run].done && receipt.desired == desired
    && var h := History(w, desired.key);
    && receipt.at < |h| && h[receipt.at].obj.Some?
    && Conforms(cfg.server, OwnerOf(cfg, w.log[w.runs[run].read].value), desired, h[receipt.at].obj.value)
  }

  /** Every stored Ready=True: its generation is the stored observed generation, and one reconcile that
      read that generation of that incarnation had every child its spec renders to applied. */
  lemma ReadyIsHonest(cfg: Config, steps: seq<Step>, i: nat, generation: nat) returns (run: nat)
    requires ValidServer(cfg.server) && !After(cfg, steps).misreported
    requires i < |After(cfg, steps).log| && After(cfg, steps).log[i].Some?
    requires ReadyAt(After(cfg, steps).log[i].value.status) == Some(generation)
    ensures After(cfg, steps).log[i].value.status.observedGeneration == generation
    ensures var w := After(cfg, steps);
            && run < |w.runs| && w.runs[run].read < |w.log|
            && var read := w.log[w.runs[run].read];
            && read.Some? && read.value.uid == w.log[i].value.uid && read.value.generation == generation
            && var objs := cfg.render(read.value.spec);
            && objs.Some?
            && forall d :: d in objs.value ==> exists receipt :: AppliedIn(cfg, w, run, d, receipt)
  {
    Always(cfg, steps);
    var w := After(cfg, steps);
    assert HonestEntry(cfg, w, i);
    run :| Completed(cfg, w, run, w.log[i].value.uid, generation);
    var objs := cfg.render(w.log[w.runs[run].read].value.spec).value;
    var done := w.runs[run].done;
    forall d | d in objs ensures exists receipt :: AppliedIn(cfg, w, run, d, receipt) {
      assert d in multiset(objs);
      assert d in multiset(Desireds(done));
      var k :| 0 <= k < |done| && Desireds(done)[k] == d;
      assert SafeReceipt(cfg, w, run, k);
      assert AppliedIn(cfg, w, run, d, done[k]);
    }
  }

  /** Over every run, every version the operator stored: it is for an object some reconcile rendered,
      so no other key is ever touched; it deletes nothing; and over a live object it leaves another
      owner's child, assigned addresses, selectors, replica counts and foreign metadata alone. */
  lemma OperatorNeverDisturbs(cfg: Config, steps: seq<Step>, key: Key, i: nat)
    requires ValidServer(cfg.server)
    requires i < |History(After(cfg, steps), key)|
    requires History(After(cfg, steps), key)[i].author.Operator?
    ensures var w := After(cfg, steps);
            var h := History(w, key);
            var Operator(desired, owner, run) := h[i].author;
            && desired.key == key && Rendered(cfg, w, run, owner, desired)
            && h[i].obj.Some? && Conforms(cfg.server, owner, desired, h[i].obj.value)
            && (i > 0 && h[i - 1].obj.Some? ==> Preserves(owner, h[i - 1].obj.value, desired, h[i].obj.value))
  {
    Always(cfg, steps);
    assert SafeVersion(cfg, After(cfg, steps), key, i);
  }

  /** The replica count last stated by anyone but the operator, or the one a create started with. */
  function StatedReplicas(h: seq<Version>): Option<int>
  {
    if h == [] then None
    else
      var last := h[|h| - 1];
      match last.author
      case Outside => if last.obj.Some? then last.obj.value.spec.replicas else None
      case Operator(desired, _, _) =>
        if |h| > 1 && h[|h| - 2].obj.Some? then StatedReplicas(h[..|h| - 1])
        else if desired.spec.replicas.Some? then desired.spec.replicas
        else Some(1)
  }

  lemma {:induction false} ReplicasAreStated(cfg: Config, w: World, key: Key, n: nat)
    requires Safe(cfg, w) && key.kind.Deployment?
    requires 0 < n <= |History(w, key)| && History(w, key)[n - 1].obj.Some?
    ensures History(w, key)[n - 1].obj.value.spec.replicas == StatedReplicas(History(w, key)[..n])
  {
    var h := History(w, key);
    assert SafeVersion(cfg, w, key, n - 1);
    if n > 1 && h[n - 2].obj.Some? {
      assert SafeVersion(cfg, w, key, n - 2);
      assert h[..n][..n - 1] == h[..n - 1];
      ReplicasAreStated(cfg, w, key, n - 1);
      assert h[n - 2].obj.value.spec.replicas == Admit(cfg.server, h[n - 2].obj.value).spec.replicas;
    }
  }

  /** No autoscaler write is ever lost: whatever the interleaving of gets, mutates and writes, the
      stored replica count is the last one stated by somebody else. */
  lemma AutoscalerWritesSurvive(cfg: Config, steps: seq<Step>, key: Key)
    requires ValidServer(cfg.server) && key.kind.Deployment?
    requires var h := History(After(cfg, steps), key); h != [] && h[|h| - 1].obj.Some?
    ensures var h := History(After(cfg, steps), key);
            h[|h| - 1].obj.value.spec.replicas == StatedReplicas(h)
  {
    Always(cfg, steps);
    var h := History(After(cfg, steps), key);
    ReplicasAreStated(cfg, After(cfg, steps), key, |h|);
    assert h[..|h|] == h;
  }
}
