/** The work queue around Reconcile, for one key (operator/internal/controller/workload_controller.go):
    what puts the key in, and what takes it out. */
module WakeUp {
  /** Where the worker is: not at this key, at its start, or past the read of the Workload. */
  datatype Worker = Idle | Started | Found | Missing

  /** `existence` says, revision by revision, whether the Workload exists afterwards; the cache has applied
      the first `seen` revisions, and the last read of the cache saw the first `readAt`. `dirty` is
      membership in the queue, `delayed` a timer that will add the key. */
  datatype World = World(existence: seq<bool>, seen: nat, readAt: nat, dirty: bool, delayed: bool, worker: Worker)

  const START := World([], 0, 0, false, false, Idle)

  predicate Has(existence: seq<bool>, n: nat)
    requires n <= |existence|
  {
    n > 0 && existence[n - 1]
  }

  predicate Exists(w: World)
  {
    Has(w.existence, |w.existence|)
  }

  datatype Step =
    | Create
    | Update
    | Delete
    | Deliver(to: nat)
    | ChildEvent
    | Take
    | Read(fails: bool)
    | Finish(fails: bool)
    | Expire
    | Restart

  predicate Valid(w: World)
  {
    w.seen <= |w.existence| && w.readAt <= |w.existence|
  }

  /** A watch event moves the cache on, and enqueues the key unless the Workload is absent before and after:
      after an interruption the cache catches up in one go. A read that fails for any reason but absence
      requeues, as does a failed reconcile, with backoff; a successful one requeues after thirty
      seconds; one that found nothing does not. */
  function Do(w: World, step: Step): (next: World)
    requires Valid(w)
    ensures Valid(next)
  {
    match step
    case Create => if Exists(w) then w else w.(existence := w.existence + [true])
    case Update => if Exists(w) then w.(existence := w.existence + [true]) else w
    case Delete => if Exists(w) then w.(existence := w.existence + [false]) else w
    case Deliver(to) =>
      if !(w.seen < to <= |w.existence|) then w
      else w.(seen := to, dirty := w.dirty || Has(w.existence, w.seen) || Has(w.existence, to))
    case ChildEvent => w.(dirty := true)
    case Take => if w.worker.Idle? && w.dirty then w.(worker := Started, dirty := false) else w
    case Read(fails) =>
      if !w.worker.Started? then w
      else if fails then w.(worker := Idle, delayed := true)
      else w.(worker := if Has(w.existence, w.seen) then Found else Missing, readAt := w.seen)
    case Finish(_) =>
      if w.worker.Found? then w.(worker := Idle, delayed := true)
      else if w.worker.Missing? then w.(worker := Idle)
      else w
    case Expire => if w.delayed then w.(delayed := false, dirty := true) else w
    case Restart => World(w.existence, 0, 0, false, false, Idle)
  }

  function After(w: World, steps: seq<Step>): (next: World)
    requires Valid(w)
    ensures Valid(next)
    decreases steps
  {
    if steps == [] then w else After(Do(w, steps[0]), steps[1..])
  }

  /** Something will make a worker read the cache again. */
  predicate WillRead(w: World)
  {
    w.dirty || w.delayed || w.worker.Started?
  }

  /** Two cache positions that no reconcile needs to tell apart. */
  predicate SameView(existence: seq<bool>, i: nat, j: nat)
    requires i <= |existence| && j <= |existence|
  {
    i == j || (!Has(existence, i) && !Has(existence, j))
  }

  predicate Invariant(w: World)
  {
    && Valid(w)
    && (Has(w.existence, w.seen) ==> WillRead(w) || w.worker.Found?)
    && (WillRead(w) || SameView(w.existence, w.readAt, w.seen))
  }

  lemma StepKeepsInvariant(w: World, step: Step)
    requires Invariant(w)
    ensures Invariant(Do(w, step))
  {
  }

  lemma {:induction false} RunKeepsInvariant(w: World, steps: seq<Step>)
    requires Invariant(w)
    ensures Invariant(After(w, steps))
    decreases steps
  {
    if steps != [] {
      StepKeepsInvariant(w, steps[0]);
      RunKeepsInvariant(Do(w, steps[0]), steps[1..]);
    }
  }

  /** In every reachable state an existing Workload has its key in the queue, on a timer, or with a worker,
      or its creation has not been delivered yet. */
  lemma NoLostWakeUp(steps: seq<Step>)
    ensures var w := After(START, steps);
            Exists(w) ==>
              w.dirty || w.delayed || w.worker.Started? || w.worker.Found?
              || (w.seen < |w.existence| && !Has(w.existence, w.seen))
  {
    RunKeepsInvariant(START, steps);
  }

  /** Nor is a change overlooked: unless another read is coming, the last one saw what the cache shows. */
  lemma NoOverlookedChange(steps: seq<Step>)
    ensures var w := After(START, steps);
            WillRead(w) || SameView(w.existence, w.readAt, w.seen)
  {
    RunKeepsInvariant(START, steps);
  }

  /** An event of a watched child is never forgotten: whatever happens then, short of a restart, another read
      is coming until one has succeeded. */
  lemma ChildEventIsRead(w: World, steps: seq<Step>)
    requires Valid(w) && Restart !in steps && Read(false) !in steps
    ensures WillRead(After(Do(w, ChildEvent), steps))
  {
    StaysToBeRead(Do(w, ChildEvent), steps);
  }

  lemma {:induction false} StaysToBeRead(w: World, steps: seq<Step>)
    requires Valid(w) && WillRead(w) && Restart !in steps && Read(false) !in steps
    ensures WillRead(After(w, steps))
    decreases steps
  {
    if steps != [] {
      assert steps[0] in steps;
      StaysToBeRead(Do(w, steps[0]), steps[1..]);
    }
  }

  /** Only creating and deleting decide whether the Workload exists; no step of the queue does. */
  lemma ExistenceIs(w: World, step: Step)
    requires Valid(w)
    ensures w.existence <= Do(w, step).existence
    ensures Exists(Do(w, step)) <==> step.Create? || (Exists(w) && !step.Delete?)
    ensures w.existence != Do(w, step).existence <==> if step.Create? then !Exists(w)
                                                      else (step.Update? || step.Delete?) && Exists(w)
  {
  }

  /** The key gets into the queue by an event or an expired timer, and out of it to a worker that was idle; a
      restart forgets queue, timer and worker. */
  lemma QueueMoves(w: World, step: Step)
    requires Valid(w)
    ensures !w.dirty && Do(w, step).dirty ==> step.Deliver? || step.ChildEvent? || (step.Expire? && w.delayed)
    ensures w.dirty && !Do(w, step).dirty ==> step.Restart? || Do(w, step).worker.Started?
    ensures !w.worker.Started? && Do(w, step).worker.Started? <==> step.Take? && w.worker.Idle? && w.dirty
    ensures step.Restart? ==> !WillRead(Do(w, step)) && Do(w, step).worker.Idle? && Do(w, step).seen == 0
  {
  }

  /** A read that succeeds finds what the cache shows, and a finished reconcile sets the timer iff it found the
      Workload. */
  lemma WorkerMoves(w: World, fails: bool)
    requires Valid(w) && !w.delayed
    ensures var read := Do(w, Read(fails));
            w.worker.Started? ==>
              if fails then read.worker.Idle? && read.delayed
              else read.readAt == w.seen && read.worker == if Has(w.existence, w.seen) then Found else Missing
    ensures Do(w, Finish(fails)).delayed <==> w.worker.Found?
    ensures w.worker.Found? || w.worker.Missing? ==> Do(w, Finish(fails)).worker.Idle?
  {
  }

  predicate Tracked(w: World)
  {
    w.dirty || w.delayed || !w.worker.Idle?
  }

  /** A running controller drops a key only by finishing a reconcile that read nothing; it does so exactly
      when nothing else has asked for the key meanwhile. */
  lemma OnlyNotFoundDropsKey(w: World, step: Step)
    requires Invariant(w) && Tracked(w) && !step.Restart?
    ensures !Tracked(Do(w, step)) <==> step.Finish? && w.worker.Missing? && !w.dirty && !w.delayed
    ensures !Tracked(Do(w, step)) ==> !Has(w.existence, w.seen)
  {
  }

  lemma FirstStep(w: World, step: Step, rest: seq<Step>)
    requires Valid(w)
    ensures After(w, [step] + rest) == After(Do(w, step), rest)
  {
  }

  function Queued(w: World): World
    requires Valid(w)
  {
    Do(Do(Do(w, Read(false)), Finish(false)), Expire)
  }

  /** Finishing what a worker has begun and letting the timer run puts the key of a cached Workload back. */
  lemma BackInQueue(w: World)
    requires Invariant(w) && Has(w.existence, w.seen)
    ensures Queued(w) == w.(readAt := Queued(w).readAt, dirty := true, delayed := false, worker := Idle)
  {
  }

  const CATCH_UP := [Read(false), Finish(false), Expire, Take, Read(false)]

  lemma CatchUp(w: World)
    requires Invariant(w) && Has(w.existence, w.seen)
    ensures After(w, CATCH_UP) == Do(Do(Queued(w), Take), Read(false))
  {
  }

  /** From every reachable state, delivering the outstanding events is enough for the queue by itself to get
      a worker to a read that finds an existing Workload at its newest revision. */
  lemma AlwaysReconciledAgain(steps: seq<Step>)
    requires Exists(After(START, steps))
    ensures var w := After(START, steps);
            var later := After(w, [Deliver(|w.existence|)] + CATCH_UP);
            later.worker.Found? && later.readAt == |w.existence| && later.existence == w.existence
  {
    var w := After(START, steps);
    RunKeepsInvariant(START, steps);
    var delivered := Do(w, Deliver(|w.existence|));
    StepKeepsInvariant(w, Deliver(|w.existence|));
    FirstStep(w, Deliver(|w.existence|), CATCH_UP);
    CatchUp(delivered);
    BackInQueue(delivered);
  }
}
