/** Reconciles of one Workload key interleaved with everyone else: users who edit, delete and
    recreate the Workload, the autoscaler and other writers of child objects, a watch cache that
    lags, calls that fail or whose reply is lost, and a controller that crashes.

    Every object is kept as the list of all its versions, so that a resource version is a position,
    a compare-and-swap succeeds when the version read is the last, and a stale read is a read of an
    earlier position. */
module Protocol {
  import opened Values
  import opened Objects
  import opened Workloads

  /** `render` gives the objects of a spec in some order, or None when rendering fails. */
  datatype Config = Config(name: string, server: Server, render: WorkloadSpec -> Option<seq<Obj>>)

  /** Who stored a version: the operator for a rendered object during some reconcile, or anyone else. */
  datatype Author = Outside | Operator(desired: Obj, owner: Owner, run: nat)

  datatype Version = Version(obj: Option<Obj>, author: Author)

  /** The rendered object that a reconcile finished with, and the stored version it left. */
  datatype Receipt = Receipt(desired: Obj, at: nat)

  /** One reconcile: the Workload version it read, and the children it has finished, in order. */
  datatype Run = Run(read: nat, done: seq<Receipt>)

  datatype Phase =
    | Idle
    | Applying(todo: seq<Obj>)               // about to get the first object of `todo`
    | Fetched(todo: seq<Obj>, from: nat)     // holds version number `from` of it (0: found nothing)
    | Reporting(status: Status)              // about to patch the status

  datatype World = World(
    log: seq<Option<Workload>>,              // every version of the Workload; the last is current
    cache: nat,                              // the version the watch cache shows
    seen: nat,                               // the version the latest reconcile read
    children: map<Key, seq<Version>>,
    runs: seq<Run>,
    phase: Phase,
    misreported: bool)                       // a patch has carried a claim of readiness to another incarnation

  datatype Step =
    | EditSpec(spec: WorkloadSpec)
    | CreateWorkload(spec: WorkloadSpec)
    | DeleteWorkload
    | Observe                                // the cache advances by one version
    | WriteChild(key: Key, obj: Option<Obj>) // anyone but the operator
    | Begin(order: seq<Obj>)                 // a reconcile reads the Workload and renders, in any order
    | Fetch(from: nat)                       // the get, possibly of a stale version
    | Write(lost: bool)                      // mutate, then create, update or nothing
    | Fail(message: string)                  // any call of the apply loop fails
    | Finish(live: Option<int>)              // all children done; the ready count, if it could be read
    | Report(delivered: bool)                // the status patch
    | Crash

  const START := World([None], 0, 0, map[], [], Idle, false)

  function History(w: World, key: Key): seq<Version>
  {
    if key in w.children then w.children[key] else []
  }

  function ReadVersion(h: seq<Version>, from: nat): Option<Obj>
    requires from <= |h|
  {
    if from == 0 then None else h[from - 1].obj
  }

  function Current(w: World): Option<Workload>
    requires w.log != []
  {
    w.log[|w.log| - 1]
  }

  /** The Workload of the reconcile in progress, as it read it. */
  predicate Reading(w: World)
  {
    w.seen < |w.log| && w.log[w.seen].Some?
  }

  function Snapshot(w: World): Workload
    requires Reading(w)
  {
    w.log[w.seen].value
  }

  function OwnerOf(cfg: Config, wl: Workload): Owner
  {
    Owner("Workload", cfg.name, wl.uid)
  }

  function FailWith(w: World, reason: string, message: string): World
    requires Reading(w)
  {
    w.(phase := Reporting(FailedStatus(Snapshot(w).status, Snapshot(w).generation, reason, message)))
  }

  /** The reconcile is done with the first object of `todo`, whose stored version is number `at`. */
  function Finished(w: World, todo: seq<Obj>, at: nat): World
    requires w.runs != [] && todo != []
  {
    var last := |w.runs| - 1;
    w.(runs := w.runs[last := w.runs[last].(done := w.runs[last].done + [Receipt(todo[0], at)])],
       phase := Applying(todo[1..]))
  }

  /** What CreateOrUpdate did: an error, nothing because the version held already was as desired, or
      a write that left this history. */
  datatype Outcome = Refused(message: string) | Kept(at: nat) | Put(history: seq<Version>)

  /** CreateOrUpdate after the get of version number `from`: mutate it; send nothing if it is
      unchanged; else create (which fails if an object exists) or update (which fails if the version
      held is not the last). The server stores no new version for a write that changes nothing. */
  function CreateOrUpdate(server: Server, owner: Owner, run: nat, h: seq<Version>, from: nat, desired: Obj): Outcome
    requires from <= |h|
  {
    var live, last := ReadVersion(h, from), ReadVersion(h, |h|);
    match Mutate(owner, if live.Some? then live.value else desired, desired)
    case Rejected(_) => Refused("rejected")
    case Mutated(target) =>
      if live == Some(target) then Kept(from - 1)
      else if live.None? && last.Some? then Refused("already exists")
      else if live.Some? && from != |h| then Refused("conflict")
      else
        var stored := Admit(server, target);
        if last == Some(stored) then Put(h)
        else Put(h + [Version(Some(stored), Operator(desired, owner, run))])
  }

  /** The apply loop after CreateOrUpdate: on success go on, on failure report; a write may have taken
      effect although its reply was lost. */
  function Settle(w: World, todo: seq<Obj>, outcome: Outcome, lost: bool): World
    requires Reading(w) && w.runs != [] && todo != []
  {
    match outcome
    case Refused(message) => FailWith(w, "ApplyFailed", message)
    case Kept(at) => Finished(w, todo, at)
    case Put(h) =>
      var w' := w.(children := w.children[todo[0].key := h]);
      if lost || h == [] then FailWith(w', "ApplyFailed", "no reply") else Finished(w', todo, |h| - 1)
  }

  function DoWrite(cfg: Config, w: World, lost: bool): World
    requires Reading(w) && w.runs != []
    requires w.phase.Fetched? && w.phase.todo != []
  {
    var todo, from := w.phase.todo, w.phase.from;
    var h := History(w, todo[0].key);
    if from > |h| then w
    else Settle(w, todo, CreateOrUpdate(cfg.server, OwnerOf(cfg, Snapshot(w)), |w.runs| - 1, h, from, todo[0]), lost)
  }

  /** The world has a report ready, and the current incarnation is another than the one read. */
  predicate Crossing(w: World)
  {
    w.log != [] && Current(w).Some? && Reading(w) && w.phase.Reporting? && Current(w).value.uid != Snapshot(w).uid
  }

  /** The conditions that the report carries claim readiness; equal conditions are not carried. */
  predicate Claims(w: World)
    requires Reading(w) && w.phase.Reporting?
  {
    w.phase.status.conditions != Snapshot(w).status.conditions && ReadyAt(w.phase.status).Some?
  }

  /** The report, if delivered now, carries a claim of readiness to another incarnation. */
  predicate Misreports(w: World)
  {
    Crossing(w) && Claims(w)
  }

  /** The patch carries no resource version and no uid: it applies to whatever is stored. A patch that
      changes nothing stores no new version. */
  function DoReport(w: World): World
    requires w.log != [] && Reading(w) && w.phase.Reporting?
  {
    var current := Current(w);
    if current.None? then w.(phase := Idle)
    else
      var patched := current.value.(status := PatchStatus(current.value.status, Snapshot(w).status, w.phase.status));
      w.(log := if patched == current.value then w.log else w.log + [Some(patched)],
         phase := Idle,
         misreported := w.misreported || Misreports(w))
  }

  /** A reconcile reads what the cache shows and renders it. */
  function DoBegin(cfg: Config, w: World, order: seq<Obj>): World
    requires w.cache < |w.log| && w.log[w.cache].Some?
  {
    var started := w.(seen := w.cache, runs := w.runs + [Run(w.cache, [])]);
    var objs := cfg.render(w.log[w.cache].value.spec);
    if objs.None? then FailWith(started, "RenderFailed", "render failed")
    else if multiset(order) != multiset(objs.value) then w
    else started.(phase := Applying(order))
  }

  /** One step of the system. A step that is not enabled changes nothing. */
  function Do(cfg: Config, w: World, step: Step): World
  {
    if w.log == [] then w
    else match step
      case EditSpec(spec) =>
        var current := Current(w);
        if current.None? || current.value.spec == spec then w
        else w.(log := w.log + [Some(current.value.(spec := spec, generation := current.value.generation + 1))])
      case CreateWorkload(spec) =>
        if Current(w).Some? then w
        else w.(log := w.log + [Some(Workload(|w.log|, 1, spec, NO_STATUS))])
      case DeleteWorkload =>
        if Current(w).None? then w else w.(log := w.log + [None])
      case Observe =>
        if w.cache + 1 < |w.log| then w.(cache := w.cache + 1) else w
      case WriteChild(key, obj) =>
        var stored := if obj.Some? then Some(Admit(cfg.server, obj.value.(key := key))) else None;
        w.(children := w.children[key := History(w, key) + [Version(stored, Outside)]])
      case Begin(order) =>
        if !w.phase.Idle? || w.cache >= |w.log| || w.log[w.cache].None? then w
        else DoBegin(cfg, w, order)
      case Fetch(from) =>
        if !w.phase.Applying? || w.phase.todo == [] || from > |History(w, w.phase.todo[0].key)| then w
        else w.(phase := Fetched(w.phase.todo, from))
      case Write(lost) =>
        if !w.phase.Fetched? || w.phase.todo == [] || !Reading(w) || w.runs == [] then w
        else DoWrite(cfg, w, lost)
      case Fail(message) =>
        if !(w.phase.Applying? || w.phase.Fetched?) || !Reading(w) then w
        else FailWith(w, "ApplyFailed", message)
      case Finish(live) =>
        if w.phase != Applying([]) || !Reading(w) then w
        else w.(phase := Reporting(SucceededStatus(Snapshot(w).status, Snapshot(w).spec, Snapshot(w).generation, live)))
      case Report(delivered) =>
        if !w.phase.Reporting? || !Reading(w) then w
        else if delivered then DoReport(w)
        else w.(phase := Idle)
      case Crash => w.(phase := Idle)
  }

  /** What users do to the Workload: an edit counts as a generation iff it changes the spec, and keeps the
      incarnation and its status; only an absent one is created, as a new incarnation with nothing reported;
      only a present one is deleted. */
  lemma UserSteps(cfg: Config, w: World, spec: WorkloadSpec)
    requires w.log != []
    ensures var edited, current := Do(cfg, w, EditSpec(spec)), Current(w);
            if current.None? || current.value.spec == spec then edited == w
            else Current(edited) ==
                 Some(Workload(current.value.uid, current.value.generation + 1, spec, current.value.status))
    ensures var created := Do(cfg, w, CreateWorkload(spec));
            if Current(w).Some? then created == w
            else Current(created) == Some(Workload(|w.log|, 1, spec, Status([], 0, 0)))
    ensures var deleted := Do(cfg, w, DeleteWorkload); Current(w).None? ==> deleted == w
    ensures Do(cfg, w, DeleteWorkload).log != [] && Current(Do(cfg, w, DeleteWorkload)) == None
  {
  }

  /** The world after some more steps. */
  function Continue(cfg: Config, w: World, steps: seq<Step>): World
  {
    if steps == [] then w
    else Do(cfg, Continue(cfg, w, steps[..|steps| - 1]), steps[|steps| - 1])
  }

  /** The world after a list of steps. Reachable worlds are exactly these. */
  function After(cfg: Config, steps: seq<Step>): World
  {
    Continue(cfg, START, steps)
  }
}
