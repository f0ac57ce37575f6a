/** The queue and the protocol as one system: from every state that it can get into, once everyone else falls
    silent, the queue by itself brings the Workload to convergence. */
module Controller {
  import opened Values
  import opened Objects
  import opened Workloads
  import opened Protocol
  import opened ProtocolInvariants
  import opened ChildSafety
  import opened QuietRun
  import C = Convergence
  import T = ProtocolTheorems

  /** Where the one worker is: at no key, before the read of the Workload, or at a reconcile. */
  datatype Worker = Idle | Started | Busy

  /** The world of the protocol, and for the key of its Workload whether it is queued, whether a timer will queue
      it, and where the worker is. A restarted controller takes up work when its cache has synced. */
  datatype State = State(world: World, queued: bool, delayed: bool, worker: Worker, synced: bool)

  const BEGINNING := State(START, false, false, Worker.Idle, false)

  datatype Move =
    | Other(step: Step)        // somebody else writes the Workload or a child
    | ChildEvent               // a watched child changes
    | Advance                  // the cache advances by one version, and its event is delivered
    | Sync                     // the first list after a start is delivered
    | Take                     // the worker takes the key
    | ReadFails                // the Workload cannot be read
    | Start(order: seq<Obj>)   // the Workload is read, and rendered in some order
    | Work(step: Step)         // one step of the reconcile
    | Expire                   // the timer queues the key
    | Restart

  predicate IsOthers(step: Step)
  {
    step.EditSpec? || step.CreateWorkload? || step.DeleteWorkload? || step.WriteChild?
  }

  predicate IsWork(step: Step)
  {
    step.Fetch? || step.Write? || step.Fail? || step.Finish? || step.Report?
  }

  predicate Cached(w: World)
  {
    w.cache < |w.log| && w.log[w.cache].Some?
  }

  /** Events queue the key unless the Workload is absent before and after. A read that finds nothing drops the
      key; one that fails, and every reconcile that ends, sets the timer. */
  function Next(cfg: Config, s: State, move: Move): State
  {
    match move
    case Other(step) => if IsOthers(step) then s.(world := Do(cfg, s.world, step)) else s
    case ChildEvent => s.(queued := true)
    case Advance =>
      var w := Do(cfg, s.world, Observe);
      if !s.synced || w == s.world then s
      else s.(world := w, queued := s.queued || Cached(s.world) || Cached(w))
    case Sync => if s.synced then s else s.(synced := true, queued := s.queued || Cached(s.world))
    case Take => if s.synced && s.queued && s.worker.Idle? then s.(queued := false, worker := Started) else s
    case ReadFails => if s.worker.Started? then s.(worker := Worker.Idle, delayed := true) else s
    case Start(order) =>
      var w := Do(cfg, s.world, Begin(order));
      if !s.worker.Started? then s
      else if !Cached(s.world) then s.(worker := Worker.Idle)
      else if w.phase.Idle? then s
      else s.(world := w, worker := Busy)
    case Work(step) =>
      var w := Do(cfg, s.world, step);
      if !s.worker.Busy? || !IsWork(step) then s
      else if w.phase.Idle? then s.(world := w, worker := Worker.Idle, delayed := true)
      else s.(world := w)
    case Expire => if s.delayed then s.(delayed := false, queued := true) else s
    case Restart => State(Do(cfg, s.world, Crash), false, false, Worker.Idle, false)
  }

  function Moved(cfg: Config, s: State, moves: seq<Move>): State
  {
    if moves == [] then s else Next(cfg, Moved(cfg, s, moves[..|moves| - 1]), moves[|moves| - 1])
  }

  // What holds in every state

  ghost predicate Sound(cfg: Config, s: State)
  {
    && T.Invariant(cfg, s.world)
    && (s.worker.Busy? <==> !s.world.phase.Idle?)
    && (s.worker.Started? ==> s.synced)
    && (s.synced && Cached(s.world) ==> s.queued || s.delayed || !s.worker.Idle?)
  }

  lemma StepKeepsPhase(cfg: Config, w: World, step: Step)
    requires Shape(w) && (IsOthers(step) || step.Observe?)
    ensures var w' := Do(cfg, w, step);
            && w'.phase == w.phase
            && (step.Observe? && w' != w ==> w'.cache == w.cache + 1)
            && (IsOthers(step) ==> w'.cache == w.cache && w.log <= w'.log)
  {
  }

  lemma WorkKeepsCache(cfg: Config, w: World, step: Step)
    requires Shape(w) && (IsWork(step) || step.Begin? || step.Crash?)
    ensures var w' := Do(cfg, w, step); w'.cache == w.cache && w.log <= w'.log
    ensures step.Crash? ==> Do(cfg, w, step).phase.Idle?
  {
    StepExtends(cfg, w, step);
  }

  lemma MoveKeepsSound(cfg: Config, s: State, move: Move)
    requires ValidServer(cfg.server) && Sound(cfg, s)
    ensures Sound(cfg, Next(cfg, s, move))
  {
    match move
    case Other(step) =>
      if IsOthers(step) {
        T.StepKeepsInvariant(cfg, s.world, step);
        StepKeepsPhase(cfg, s.world, step);
      }
    case Advance =>
      T.StepKeepsInvariant(cfg, s.world, Observe);
      StepKeepsPhase(cfg, s.world, Observe);
    case Start(order) =>
      T.StepKeepsInvariant(cfg, s.world, Begin(order));
      WorkKeepsCache(cfg, s.world, Begin(order));
    case Work(step) =>
      if IsWork(step) {
        T.StepKeepsInvariant(cfg, s.world, step);
        WorkKeepsCache(cfg, s.world, step);
      }
    case Restart =>
      T.StepKeepsInvariant(cfg, s.world, Crash);
      WorkKeepsCache(cfg, s.world, Crash);
    case _ =>
  }

  lemma {:induction false} AlwaysSound(cfg: Config, moves: seq<Move>)
    requires ValidServer(cfg.server)
    ensures Sound(cfg, Moved(cfg, BEGINNING, moves))
    decreases |moves|
  {
    if moves == [] {
      T.Always(cfg, []);
    } else {
      AlwaysSound(cfg, moves[..|moves| - 1]);
      MoveKeepsSound(cfg, Moved(cfg, BEGINNING, moves[..|moves| - 1]), moves[|moves| - 1]);
    }
  }

  /** The key is queued only by an event, the first list or an expired timer, and leaves the queue only to a worker
      that was idle or by a restart; a timer is set only by a read that failed or a reconcile that ended. */
  lemma QueueMoves(cfg: Config, s: State, move: Move)
    ensures !s.queued && Next(cfg, s, move).queued ==>
              move.ChildEvent? || move.Advance? || move.Sync? || (move.Expire? && s.delayed)
    ensures s.queued && !Next(cfg, s, move).queued ==> move.Restart? || Next(cfg, s, move).worker.Started?
    ensures !s.worker.Started? && Next(cfg, s, move).worker.Started? <==>
            move.Take? && s.synced && s.queued && s.worker.Idle?
    ensures !s.delayed && Next(cfg, s, move).delayed ==>
              (move.ReadFails? && s.worker.Started?) || (move.Work? && s.worker.Busy?)
    ensures move.Restart? ==> !ToBeRead(Next(cfg, s, move)) && !Next(cfg, s, move).synced
  {
  }

  /** Something will make the worker read the Workload again. */
  predicate ToBeRead(s: State)
  {
    s.queued || s.delayed || s.worker.Started?
  }

  predicate NoRead(moves: seq<Move>)
  {
    forall m :: m in moves ==> !m.Start? && !m.Restart?
  }

  /** A change of a watched child is never forgotten: whatever happens then, short of a restart, the worker
      has a read to come until one is made. */
  lemma {:induction false} ChildEventIsRead(cfg: Config, s: State, moves: seq<Move>)
    requires NoRead(moves)
    ensures ToBeRead(Moved(cfg, Next(cfg, s, ChildEvent), moves))
    decreases |moves|
  {
    if moves != [] {
      var last := |moves| - 1;
      assert moves[last] in moves && NoRead(moves[..last]);
      ChildEventIsRead(cfg, s, moves[..last]);
      StaysToBeRead(cfg, Moved(cfg, Next(cfg, s, ChildEvent), moves[..last]), moves[last]);
    }
  }

  lemma StaysToBeRead(cfg: Config, s: State, move: Move)
    requires ToBeRead(s) && !move.Start? && !move.Restart?
    ensures ToBeRead(Next(cfg, s, move))
  {
    match move
    case Other(_) =>
    case Work(_) =>
    case _ =>
  }

  // Convergence

  /** The moves of the queue and of its worker: nobody else writes, and the controller does not restart. */
  predicate IsOwn(move: Move)
  {
    move.Advance? || move.Sync? || move.Take? || move.Start? || move.Work? || move.Expire?
  }

  predicate OwnMoves(moves: seq<Move>)
  {
    forall m :: m in moves ==> IsOwn(m)
  }

  lemma MovedOne(cfg: Config, s: State, moves: seq<Move>, move: Move)
    ensures Moved(cfg, s, moves + [move]) == Next(cfg, Moved(cfg, s, moves), move)
  {
    assert (moves + [move])[..|moves|] == moves;
  }

  lemma {:induction false} MovedMore(cfg: Config, s: State, moves: seq<Move>, more: seq<Move>)
    ensures Moved(cfg, s, moves + more) == Moved(cfg, Moved(cfg, s, moves), more)
    decreases |more|
  {
    if more == [] {
      assert moves + more == moves;
    } else {
      var before, last := more[..|more| - 1], more[|more| - 1];
      assert moves + more == (moves + before) + [last];
      MovedOne(cfg, s, moves + before, last);
      MovedMore(cfg, s, moves, before);
    }
  }

  lemma MovedTwo(cfg: Config, s: State, a: Move, b: Move)
    ensures Moved(cfg, s, [a, b]) == Next(cfg, Next(cfg, s, a), b)
  {
    MovedOne(cfg, s, [], a);
    MovedOne(cfg, s, [a], b);
    assert [] + [a] == [a] && [a] + [b] == [a, b];
  }

  const GIVE_UP := [Work(Fail("given up")), Work(Report(false))]

  /** A reconcile under way can always end: its next call for a child fails, and so does its report. */
  lemma GiveUp(cfg: Config, s: State)
    requires Sound(cfg, s)
    ensures var s' := Moved(cfg, s, GIVE_UP);
            && s'.world == s.world.(phase := Phase.Idle) && !s'.worker.Busy? && s'.synced == s.synced
  {
    MovedTwo(cfg, s, GIVE_UP[0], GIVE_UP[1]);
    if s.worker.Busy? {
      var failed := Do(cfg, s.world, Fail("given up"));
      assert failed.phase.Reporting? && failed == s.world.(phase := failed.phase);
      assert Do(cfg, failed, Report(false)) == failed.(phase := Phase.Idle);
    }
  }

  /** The events still outstanding are delivered. */
  lemma {:induction false} Deliver(cfg: Config, s: State) returns (moves: seq<Move>)
    requires ValidServer(cfg.server) && Sound(cfg, s) && s.synced && !s.worker.Busy?
    ensures OwnMoves(moves)
    ensures var s' := Moved(cfg, s, moves);
            && Sound(cfg, s') && s'.synced && s'.worker == s.worker && s'.world == s.world.(cache := |s.world.log| - 1)
    decreases |s.world.log| - s.world.cache
  {
    if s.world.cache + 1 < |s.world.log| {
      var s1 := Next(cfg, s, Advance);
      MoveKeepsSound(cfg, s, Advance);
      assert s1.world == s.world.(cache := s.world.cache + 1);
      var rest := Deliver(cfg, s1);
      MovedOne(cfg, s, [], Advance);
      assert [] + [Advance] == [Advance];
      MovedMore(cfg, s, [Advance], rest);
      moves := [Advance] + rest;
    } else {
      moves := [];
    }
  }

  /** With the Workload in the cache, the timer and the queue bring the worker to its read. */
  lemma ReachRead(cfg: Config, s: State)
    requires Sound(cfg, s) && s.synced && !s.worker.Busy? && Cached(s.world)
    ensures var s' := Moved(cfg, s, [Expire, Take]); s'.worker.Started? && s'.world == s.world
  {
    MovedTwo(cfg, s, Expire, Take);
  }

  function Works(steps: seq<Step>): seq<Move>
  {
    seq(|steps|, i requires 0 <= i < |steps| => Work(steps[i]))
  }

  lemma StaysAtWork(cfg: Config, w: World, step: Step)
    requires Shape(w) && !w.phase.Idle? && (step.Fetch? || step == Write(false) || step.Finish?)
    ensures !Do(cfg, w, step).phase.Idle?
  {
  }

  lemma WorkOne(cfg: Config, s: State, step: Step)
    requires Shape(s.world) && s.worker.Busy? && !s.world.phase.Idle? && (step.Fetch? || step == Write(false))
    ensures var w := Do(cfg, s.world, step); Next(cfg, s, Work(step)) == s.(world := w) && Shape(w) && !w.phase.Idle?
  {
    StepKeepsShape(cfg, s.world, step);
    StaysAtWork(cfg, s.world, step);
  }

  /** Applying children is the same for the worker and for the protocol. */
  lemma {:induction false} WorkIsProtocol(cfg: Config, s: State, steps: seq<Step>)
    requires Shape(s.world) && s.worker.Busy? && !s.world.phase.Idle? && AppliesChildren(steps)
    ensures Moved(cfg, s, Works(steps)) == s.(world := Continue(cfg, s.world, steps))
    ensures Shape(Continue(cfg, s.world, steps)) && !Continue(cfg, s.world, steps).phase.Idle?
    decreases |steps|
  {
    if steps != [] {
      var before, step := steps[..|steps| - 1], steps[|steps| - 1];
      assert step in steps && forall t :: t in before ==> t in steps;
      WorkIsProtocol(cfg, s, before);
      WorkOne(cfg, s.(world := Continue(cfg, s.world, before)), step);
      assert Works(steps) == Works(before) + [Work(step)];
      MovedOne(cfg, s, Works(before), Work(step));
    }
  }

  /** One reconcile of the protocol is one turn of the worker. */
  lemma ReconcileIsTurn(cfg: Config, s: State, order: seq<Obj>, middle: seq<Step>, live: Option<int>)
    requires Shape(s.world) && s.worker.Started? && s.world.phase.Idle? && Cached(s.world) && AppliesChildren(middle)
    requires !Do(cfg, s.world, Begin(order)).phase.Idle?
    requires Continue(cfg, s.world, [Begin(order)] + middle + [Finish(live)] + [Report(true)]).phase.Idle?
    ensures Moved(cfg, s, [Start(order)] + Works(middle) + [Work(Finish(live))] + [Work(Report(true))]).world ==
            Continue(cfg, s.world, [Begin(order)] + middle + [Finish(live)] + [Report(true)])
  {
    var begun := Do(cfg, s.world, Begin(order));
    var s1 := Next(cfg, s, Start(order));
    StepKeepsShape(cfg, s.world, Begin(order));
    WorkIsProtocol(cfg, s1, middle);
    var applied := Continue(cfg, begun, middle);
    StaysAtWork(cfg, applied, Finish(live));
    InSequence(cfg, s.world, Begin(order), middle, Finish(live), Report(true));
    TurnInSequence(cfg, s, Start(order), Works(middle), Work(Finish(live)), Work(Report(true)));
  }

  lemma TurnInSequence(cfg: Config, s: State, first: Move, middle: seq<Move>, a: Move, b: Move)
    ensures Moved(cfg, s, [first] + middle + [a] + [b]) ==
            Next(cfg, Next(cfg, Moved(cfg, Next(cfg, s, first), middle), a), b)
  {
    MovedOne(cfg, s, [first] + middle + [a], b);
    MovedOne(cfg, s, [first] + middle, a);
    MovedMore(cfg, s, [first], middle);
    MovedOne(cfg, s, [], first);
    assert [] + [first] == [first];
  }

  lemma {:induction false} MovesKeepSound(cfg: Config, s: State, moves: seq<Move>)
    requires ValidServer(cfg.server) && Sound(cfg, s)
    ensures Sound(cfg, Moved(cfg, s, moves))
    decreases |moves|
  {
    if moves != [] {
      MovesKeepSound(cfg, s, moves[..|moves| - 1]);
      MoveKeepsSound(cfg, Moved(cfg, s, moves[..|moves| - 1]), moves[|moves| - 1]);
    }
  }

  /** Nothing is under way, the cache has synced, and the world is as it was but for that. */
  ghost predicate AtRest(cfg: Config, s: State, s': State)
  {
    Sound(cfg, s') && s'.synced && !s'.worker.Busy? && s'.world == s.world.(phase := Phase.Idle)
  }

  lemma ComeToRest(cfg: Config, s: State)
    requires ValidServer(cfg.server) && Sound(cfg, s)
    ensures AtRest(cfg, s, Moved(cfg, s, GIVE_UP + [Sync]))
  {
    GiveUp(cfg, s);
    MovedOne(cfg, s, GIVE_UP, Sync);
    MovesKeepSound(cfg, s, GIVE_UP + [Sync]);
  }

  /** From rest to the read, with every event delivered. */
  lemma ReadNewest(cfg: Config, s: State) returns (moves: seq<Move>)
    requires ValidServer(cfg.server) && Sound(cfg, s) && s.synced && !s.worker.Busy? && Current(s.world).Some?
    ensures OwnMoves(moves)
    ensures var s' := Moved(cfg, s, moves); s'.worker.Started? && s'.world == s.world.(cache := |s.world.log| - 1)
  {
    var deliver := Deliver(cfg, s);
    ReachRead(cfg, Moved(cfg, s, deliver));
    MovedMore(cfg, s, deliver, [Expire, Take]);
    moves := deliver + [Expire, Take];
  }

  lemma TurnConverges(cfg: Config, s: State, order: seq<Obj>, live: Option<int>) returns (moves: seq<Move>)
    requires ValidServer(cfg.server) && Shape(s.world) && Safe(cfg, s.world) && CanConverge(cfg, s.world, order)
    requires s.worker.Started? && s.world.phase.Idle? && s.world.cache == |s.world.log| - 1
    ensures OwnMoves(moves)
    ensures forall key :: Converged(cfg, s.world, Moved(cfg, s, moves).world, order, key)
  {
    var steps := QuietReconcileConverges(cfg, s.world, order, live);
    var middle :| AppliesChildren(middle) && steps == [Begin(order)] + middle + [Finish(live)] + [Report(true)];
    QuietBegin(cfg, s.world, order);
    ReconcileIsTurn(cfg, s, order, middle, live);
    moves := [Start(order)] + Works(middle) + [Work(Finish(live))] + [Work(Report(true))];
  }

  lemma FromRest(cfg: Config, s: State, order: seq<Obj>, live: Option<int>) returns (moves: seq<Move>)
    requires ValidServer(cfg.server) && Sound(cfg, s) && s.synced && !s.worker.Busy?
    requires CanConverge(cfg, s.world, order)
    ensures OwnMoves(moves)
    ensures forall key :: Converged(cfg, s.world, Moved(cfg, s, moves).world, order, key)
  {
    var first := ReadNewest(cfg, s);
    var read := Moved(cfg, s, first);
    ReadySafe(cfg, s.world, read.world);
    ReadyCanConverge(cfg, s.world, read.world, order);
    var turn := TurnConverges(cfg, read, order, live);
    MovedMore(cfg, s, first, turn);
    moves := first + turn;
    forall key ensures Converged(cfg, s.world, Moved(cfg, s, moves).world, order, key) {
      ReadyConverged(cfg, s.world, read.world, Moved(cfg, s, moves).world, order, key);
    }
  }

  /** From every state that the whole system can get into, through any writes of others, failures and restarts:
      once everyone else falls silent, moves of the queue and its worker lead to convergence. A reconcile that
      is under way is given up. */
  lemma QueueConverges(cfg: Config, past: seq<Move>, order: seq<Obj>, live: Option<int>) returns (moves: seq<Move>)
    requires ValidServer(cfg.server) && CanConverge(cfg, Moved(cfg, BEGINNING, past).world, order)
    ensures OwnMoves(moves)
    ensures forall key ::
              Converged(cfg, Moved(cfg, BEGINNING, past).world, Moved(cfg, BEGINNING, past + moves).world, order, key)
  {
    AlwaysSound(cfg, past);
    moves := ConvergeFrom(cfg, Moved(cfg, BEGINNING, past), order, live);
    MovedMore(cfg, BEGINNING, past, moves);
  }

  lemma ConvergeFrom(cfg: Config, s: State, order: seq<Obj>, live: Option<int>) returns (moves: seq<Move>)
    requires ValidServer(cfg.server) && Sound(cfg, s) && CanConverge(cfg, s.world, order)
    ensures OwnMoves(moves)
    ensures forall key :: Converged(cfg, s.world, Moved(cfg, s, moves).world, order, key)
  {
    ComeToRest(cfg, s);
    var rest := Moved(cfg, s, GIVE_UP + [Sync]);
    var more := FromRestOf(cfg, s, rest, order, live);
    MovedMore(cfg, s, GIVE_UP + [Sync], more);
    moves := GIVE_UP + [Sync] + more;
  }

  lemma FromRestOf(cfg: Config, s: State, rest: State, order: seq<Obj>, live: Option<int>) returns (moves: seq<Move>)
    requires ValidServer(cfg.server) && AtRest(cfg, s, rest) && CanConverge(cfg, s.world, order)
    ensures OwnMoves(moves)
    ensures forall key :: Converged(cfg, s.world, Moved(cfg, rest, moves).world, order, key)
  {
    RestCanConverge(cfg, s.world, rest.world, order);
    moves := FromRest(cfg, rest, order, live);
    forall key ensures Converged(cfg, s.world, Moved(cfg, rest, moves).world, order, key) {
      RestConverged(cfg, s.world, rest.world, Moved(cfg, rest, moves).world, order, key);
    }
  }

  lemma RestCanConverge(cfg: Config, w: World, rest: World, order: seq<Obj>)
    requires CanConverge(cfg, w, order) && rest == w.(phase := Phase.Idle)
    ensures CanConverge(cfg, rest, order)
  {
    assert CurrentStore(rest) == CurrentStore(w);
  }

  lemma RestConverged(cfg: Config, w: World, rest: World, w': World, order: seq<Obj>, key: Key)
    requires rest == w.(phase := Phase.Idle) && Converged(cfg, rest, w', order, key)
    ensures Converged(cfg, w, w', order, key)
  {
    assert CurrentStore(rest) == CurrentStore(w);
  }
}
