/** What every stored version of every child object satisfies, in every reachable world. */
module ChildSafety {
  import opened Values
  import opened Objects
  import opened Workloads
  import opened Protocol
  import opened ProtocolInvariants

  /** What a create stores: the rendered object, owned, as the server admits it. */
  function Created(server: Server, owner: Owner, desired: Obj): Obj
  {
    match Mutate(owner, desired, desired)
    case Mutated(target) => Admit(server, target)
    case Rejected(_) => desired
  }

  /** A version that the operator stored over the version before it. */
  predicate OperatorVersion(server: Server, owner: Owner, desired: Obj, before: Option<Obj>, stored: Option<Obj>)
  {
    && stored.Some?
    && Conforms(server, owner, desired, stored.value)
    && (if before.Some? then Preserves(owner, before.value, desired, stored.value)
        else stored.value == Created(server, owner, desired))
  }

  /** The reconcile with that number read a Workload whose rendering contains the object, and applied
      it on behalf of that incarnation. */
  predicate Rendered(cfg: Config, w: World, run: nat, owner: Owner, desired: Obj)
  {
    && run < |w.runs| && w.runs[run].read < |w.log|
    && var read := w.log[w.runs[run].read];
    && read.Some? && owner == OwnerOf(cfg, read.value)
    && var objs := cfg.render(read.value.spec);
    && objs.Some? && desired in objs.value
  }

  predicate SafeVersion(cfg: Config, w: World, key: Key, i: int)
  {
    var h := History(w, key);
    0 <= i < |h| ==>
      && (h[i].obj.Some? ==> Stored(cfg.server, key, h[i].obj.value))
      && (h[i].author.Operator? ==>
            var Operator(desired, owner, run) := h[i].author;
            && desired.key == key
            && Rendered(cfg, w, run, owner, desired)
            && OperatorVersion(cfg.server, owner, desired, ReadVersion(h, i), h[i].obj))
  }

  predicate SafeReceipt(cfg: Config, w: World, r: int, i: int)
  {
    0 <= r < |w.runs| && 0 <= i < |w.runs[r].done| ==>
      && var Receipt(desired, at) := w.runs[r].done[i];
      && var h := History(w, desired.key);
      && at < |h| && h[at].obj.Some?
      && w.runs[r].read < |w.log| && w.log[w.runs[r].read].Some?
      && Conforms(cfg.server, OwnerOf(cfg, w.log[w.runs[r].read].value), desired, h[at].obj.value)
  }

  ghost predicate Safe(cfg: Config, w: World)
  {
    && (forall key, i :: SafeVersion(cfg, w, key, i))
    && (forall r, i :: SafeReceipt(cfg, w, r, i))
  }

  lemma CreateOrUpdateIsSafe(server: Server, owner: Owner, run: nat, h: seq<Version>, from: nat, desired: Obj)
    requires ValidServer(server) && from <= |h|
    requires forall i :: 0 <= i < |h| && h[i].obj.Some? ==> Stored(server, desired.key, h[i].obj.value)
    ensures SafeOutcome(server, owner, run, h, desired, CreateOrUpdate(server, owner, run, h, from, desired))
  {
    var live := ReadVersion(h, from);
    var start := if live.Some? then live.value else desired;
    if Mutate(owner, start, desired).Mutated? {
      MutateThenAdmit(server, owner, start, desired);
      if live.Some? && Mutate(owner, start, desired) == Mutated(start) {
        UnchangedConforms(server, owner, start, desired);
      }
    }
  }

  lemma SafeVersionStays(cfg: Config, w: World, w': World, key: Key, i: int)
    requires Shape(w) && Extends(w, w') && SafeVersion(cfg, w, key, i) && i < |History(w, key)|
    ensures SafeVersion(cfg, w', key, i)
  {
  }

  lemma SafeReceiptStays(cfg: Config, w: World, w': World, r: int, i: int)
    requires Shape(w) && Extends(w, w') && SafeReceipt(cfg, w, r, i)
    requires 0 <= r < |w.runs| && i < |w.runs[r].done|
    ensures SafeReceipt(cfg, w', r, i)
  {
    if 0 <= i {
      var key := w.runs[r].done[i].desired.key;
      assert History(w, key) <= History(w', key);
    }
  }

  /** A later world is safe when its new versions and its new receipts are. */
  lemma SafeStays(cfg: Config, w: World, w': World)
    requires Shape(w) && Safe(cfg, w) && Extends(w, w')
    requires forall key, i :: |History(w, key)| <= i < |History(w', key)| ==> SafeVersion(cfg, w', key, i)
    requires forall r, i ::
               (&& 0 <= r < |w'.runs|
                && (if r < |w.runs| then |w.runs[r].done| else 0) <= i < |w'.runs[r].done|) ==>
               SafeReceipt(cfg, w', r, i)
    ensures Safe(cfg, w')
  {
    forall key, i ensures SafeVersion(cfg, w', key, i) {
      assert SafeVersion(cfg, w, key, i);
      if i < |History(w, key)| { SafeVersionStays(cfg, w, w', key, i); }
    }
    forall r, i ensures SafeReceipt(cfg, w', r, i) {
      assert SafeReceipt(cfg, w, r, i);
      if 0 <= r < |w.runs| && i < |w.runs[r].done| { SafeReceiptStays(cfg, w, w', r, i); }
    }
  }

  predicate SafeOutcome(server: Server, owner: Owner, run: nat, h: seq<Version>, desired: Obj, outcome: Outcome)
  {
    match outcome
    case Refused(_) => true
    case Kept(at) => at < |h| && h[at].obj.Some? && Conforms(server, owner, desired, h[at].obj.value)
    case Put(h') =>
      && h <= h' && |h| <= |h'| <= |h| + 1
      && h' != [] && h'[|h'| - 1].obj.Some?
      && Conforms(server, owner, desired, h'[|h'| - 1].obj.value)
      && (|h'| > |h| ==>
            && h'[|h|].author == Operator(desired, owner, run)
            && Stored(server, desired.key, h'[|h|].obj.value)
            && OperatorVersion(server, owner, desired, ReadVersion(h, |h|), h'[|h|].obj))
  }

  /** The child being applied was rendered by the reconcile under way, before and after it is settled. */
  lemma ChildIsRendered(cfg: Config, w: World, outcome: Outcome, lost: bool)
    requires Shape(w) && Progress(cfg, w) && w.phase.Fetched?
    ensures Rendered(cfg, Settle(w, w.phase.todo, outcome, lost), |w.runs| - 1, OwnerOf(cfg, Snapshot(w)),
            w.phase.todo[0])
  {
    var desired := w.phase.todo[0];
    assert desired in multiset(w.phase.todo);
    assert desired in multiset(cfg.render(Snapshot(w).spec).value);
  }

  lemma SettledHistory(w: World, outcome: Outcome, lost: bool, key: Key)
    requires Shape(w) && w.phase.Fetched? && w.phase.todo != []
    ensures History(Settle(w, w.phase.todo, outcome, lost), key) ==
            if outcome.Put? && key == w.phase.todo[0].key then outcome.history else History(w, key)
  {
  }

  lemma WrittenIsSafe(cfg: Config, w: World, run: nat, owner: Owner, h: seq<Version>, desired: Obj, i: int)
    requires Rendered(cfg, w, run, owner, desired) && |h| <= i
    requires SafeOutcome(cfg.server, owner, run, h, desired, Put(History(w, desired.key)))
    ensures SafeVersion(cfg, w, desired.key, i)
  {
  }

  lemma NewVersionIsSafe(cfg: Config, w: World, outcome: Outcome, lost: bool, key: Key, i: int)
    requires Shape(w) && Progress(cfg, w) && w.phase.Fetched?
    requires SafeOutcome(cfg.server, OwnerOf(cfg, Snapshot(w)), |w.runs| - 1, History(w, w.phase.todo[0].key),
             w.phase.todo[0], outcome)
    requires |History(w, key)| <= i
    ensures SafeVersion(cfg, Settle(w, w.phase.todo, outcome, lost), key, i)
  {
    var desired := w.phase.todo[0];
    SettledHistory(w, outcome, lost, key);
    if outcome.Put? && key == desired.key {
      ChildIsRendered(cfg, w, outcome, lost);
      WrittenIsSafe(
        cfg, Settle(w, w.phase.todo, outcome, lost), |w.runs| - 1, OwnerOf(cfg, Snapshot(w)), History(w, key),
          desired, i);
    }
  }

  lemma NewReceiptIsSafe(cfg: Config, w: World, outcome: Outcome, lost: bool, r: int, i: int)
    requires Shape(w) && Progress(cfg, w) && w.phase.Fetched? && 0 <= r < |w.runs| && |w.runs[r].done| <= i
    requires SafeOutcome(cfg.server, OwnerOf(cfg, Snapshot(w)), |w.runs| - 1, History(w, w.phase.todo[0].key),
             w.phase.todo[0], outcome)
    ensures SafeReceipt(cfg, Settle(w, w.phase.todo, outcome, lost), r, i)
  {
  }

  /** The apply loop settles a safe outcome safely. */
  lemma SettleIsSafe(cfg: Config, w: World, outcome: Outcome, lost: bool)
    requires Shape(w) && Progress(cfg, w) && Safe(cfg, w) && w.phase.Fetched?
    requires Extends(w, Settle(w, w.phase.todo, outcome, lost))
    requires SafeOutcome(cfg.server, OwnerOf(cfg, Snapshot(w)), |w.runs| - 1, History(w, w.phase.todo[0].key),
             w.phase.todo[0], outcome)
    ensures Safe(cfg, Settle(w, w.phase.todo, outcome, lost))
  {
    var w' := Settle(w, w.phase.todo, outcome, lost);
    forall key, i | |History(w, key)| <= i < |History(w', key)| ensures SafeVersion(cfg, w', key, i) {
      NewVersionIsSafe(cfg, w, outcome, lost, key, i);
    }
    forall r, i | 0 <= r < |w'.runs| && (if r < |w.runs| then |w.runs[r].done| else 0) <= i < |w'.runs[r].done|
      ensures SafeReceipt(cfg, w', r, i)
    {
      NewReceiptIsSafe(cfg, w, outcome, lost, r, i);
    }
    SafeStays(cfg, w, w');
  }

  lemma WriteIsSafe(cfg: Config, w: World, lost: bool)
    requires ValidServer(cfg.server) && Shape(w) && Progress(cfg, w) && Safe(cfg, w) && w.phase.Fetched?
    ensures Safe(cfg, DoWrite(cfg, w, lost))
  {
    var desired, run, owner := w.phase.todo[0], |w.runs| - 1, OwnerOf(cfg, Snapshot(w));
    var h := History(w, desired.key);
    if w.phase.from <= |h| {
      forall i | 0 <= i < |h| && h[i].obj.Some? ensures Stored(cfg.server, desired.key, h[i].obj.value) {
        assert SafeVersion(cfg, w, desired.key, i);
      }
      CreateOrUpdateIsSafe(cfg.server, owner, run, h, w.phase.from, desired);
      DoWriteExtends(cfg, w, lost);
      SettleIsSafe(cfg, w, CreateOrUpdate(cfg.server, owner, run, h, w.phase.from, desired), lost);
    }
  }

  lemma OutsideIsSafe(cfg: Config, w: World, key: Key, obj: Option<Obj>)
    requires ValidServer(cfg.server) && Shape(w) && Safe(cfg, w)
    ensures Safe(cfg, Do(cfg, w, WriteChild(key, obj)))
  {
    var w' := Do(cfg, w, WriteChild(key, obj));
    StepExtends(cfg, w, WriteChild(key, obj));
    if obj.Some? { AdmitIdempotent(cfg.server, obj.value.(key := key)); }
    SafeStays(cfg, w, w');
  }

  /** Children are written by whoever writes them, and by the apply loop; nothing else finishes one. */
  lemma OtherStepsKeepChildren(cfg: Config, w: World, step: Step)
    requires Shape(w) && !step.Write? && !step.WriteChild?
    ensures var w' := Do(cfg, w, step);
            && w'.children == w.children && w.runs <= w'.runs
            && forall r :: |w.runs| <= r < |w'.runs| ==> w'.runs[r].done == []
  {
  }

  lemma StepKeepsSafe(cfg: Config, w: World, step: Step)
    requires ValidServer(cfg.server) && Shape(w) && Progress(cfg, w) && Safe(cfg, w)
    ensures Safe(cfg, Do(cfg, w, step))
  {
    if step.Write? {
      if w.phase.Fetched? { WriteIsSafe(cfg, w, step.lost); }
    } else if step.WriteChild? {
      OutsideIsSafe(cfg, w, step.key, step.obj);
    } else {
      StepExtends(cfg, w, step);
      OtherStepsKeepChildren(cfg, w, step);
      SafeStays(cfg, w, Do(cfg, w, step));
    }
  }
}
