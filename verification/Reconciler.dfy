/** One call of Reconcile, step by step, against a cluster that only it writes meanwhile
    (operator/internal/controller/workload_controller.go). */
module Reconciler {
  import opened Values
  import opened Objects
  import opened Workloads
  import opened Convergence
  import Apply
  import DeepCopy

  datatype Result = Done | RequeueAfter(seconds: nat) | Failed

  /** Why applying a child fails. */
  datatype Failure = GetFailed | Refused(error: ApplyError) | WriteFailed | NoReply

  /** The first call that fails, if any does; an object that is as desired is not written. */
  function FailureOf(owner: Owner, live: Option<Obj>, desired: Obj, fault: Fault): Option<Failure>
  {
    if fault.GetFails? then Some(GetFailed)
    else match Mutate(owner, if live.Some? then live.value else desired, desired)
      case Rejected(e) => Some(Failure.Refused(e))
      case Mutated(target) =>
        if live == Some(target) || fault.NoFault? then None
        else if fault.WriteFails? then Some(WriteFailed)
        else Some(NoReply)
  }

  /** The status a reconcile reports after rendering (or not) and getting this far with the children. */
  function Reported(wl: Workload, rendered: Option<seq<Obj>>, finished: nat, live: Option<int>, message: string): Status
  {
    if rendered.None? then FailedStatus(wl.status, wl.generation, "RenderFailed", message)
    else if finished < |rendered.value| then FailedStatus(wl.status, wl.generation, "ApplyFailed", message)
    else SucceededStatus(wl.status, wl.spec, wl.generation, live)
  }

  class Cluster {
    const server: Server
    var children: Store
    var workload: Option<Workload>

    constructor (server: Server)
    {
      this.server, children, workload := server, map[], None;
    }

    /** Get, mutate, and create or update; no write when the mutate step changed nothing. */
    method SetOwnerAndApply(owner: Owner, desired: Obj, fault: Fault) returns (error: Option<Failure>)
      modifies this`children
      ensures Applied(children, error.None?) == ApplyChild(server, owner, old(children), desired, fault)
      ensures error == FailureOf(owner, Live(old(children), desired.key), desired, fault)
      ensures error == Some(GetFailed) <==> fault.GetFails?
      ensures var held := if desired.key in old(children) then old(children)[desired.key] else desired;
              var another := held.controller.Some?
                             && !(held.controller.value.kind == owner.kind && held.controller.value.name == owner.name);
              && (error == Some(Failure.Refused(AlreadyOwned)) <==> !fault.GetFails? && another)
              && (error == Some(Failure.Refused(UnsupportedKind)) <==>
                  !fault.GetFails? && !another && held.key.kind.Unsupported?)
      ensures error.Some? && children != old(children) ==> error == Some(NoReply)
      ensures error in {Some(WriteFailed), Some(NoReply)} ==> !fault.NoFault?
    {
      var target := new Apply.Target(desired);
      if fault.GetFails? {
        return Some(GetFailed);
      }
      var found := desired.key in children;
      if found {
        target.Load(children[desired.key]);
      }
      var before := target.Contents();
      var rejected := target.MutateInPlace(owner, desired);
      if rejected.Some? {
        return Some(Failure.Refused(rejected.value));
      }
      var after := target.Contents();
      if found && after == before {
        return None;
      }
      if fault.WriteFails? {
        return Some(WriteFailed);
      }
      children := children[desired.key := Admit(server, after)];
      return if fault.NoFault? then None else Some(NoReply);
    }

    /** The status patch against the snapshot. */
    method PatchStatus(base: Status, next: Status, fails: bool) returns (ok: bool)
      modifies this`workload
      ensures ok <==> !fails && old(workload).Some?
      ensures workload == if ok
              then Some(old(workload).value.(status := Workloads.PatchStatus(old(workload).value.status, base, next)))
                          else old(workload)
    {
      ok := !fails && workload.Some?;
      if ok {
        workload := Some(workload.value.(status := Workloads.PatchStatus(workload.value.status, base, next)));
      }
    }

    /** The loop over the children, left at the first failure. */
    method ApplyAll(owner: Owner, objs: seq<Obj>, faults: seq<Fault>) returns (finished: nat)
      requires |faults| == |objs|
      modifies this`children
      ensures Progress(children, finished) == ApplyChildren(server, owner, old(children), objs, faults)
    {
      finished := 0;
      while finished < |objs|
        invariant finished <= |objs|
        invariant var rest := ApplyChildren(server, owner, children, objs[finished..], faults[finished..]);
                  ApplyChildren(server, owner, old(children), objs, faults) ==
                    Progress(rest.store, rest.finished + finished)
      {
        var error := SetOwnerAndApply(owner, objs[finished], faults[finished]);
        assert objs[finished..][1..] == objs[finished + 1..] && faults[finished..][1..] == faults[finished + 1..];
        if error.Some? {
          return;
        }
        finished := finished + 1;
      }
    }

    /** The failure exits: Ready=False on the status in memory, nothing else, and one patch. */
    method ReportFailure(
        wl: DeepCopy.WorkloadObject, base: DeepCopy.StatusObject, reason: string, message: string, patchFails: bool)
      requires workload.Some? && workload.value.status == base.Value() == wl.status.Value()
      requires wl.status != base && wl.status.conditions != base.conditions
      modifies this`workload, wl.status, wl.status.conditions
      ensures workload == if patchFails then old(workload)
              else Some(old(workload).value.(status := FailedStatus(old(base.Value()), wl.generation, reason, message)))
      ensures patchFails
              || TellsFailure(old(workload).value.status, wl.generation, reason, message, workload.value.status)
    {
      FailureTells(base.Value(), wl.generation, reason, message);
      wl.status.SetStatusCondition(Condition(READY, false, reason, message, wl.generation));
      var _ := PatchStatus(base.Value(), wl.status.Value(), patchFails);
    }

    /** What a success sets on the status in memory: both conditions, the ready count if it could be read,
        and the observed generation. */
    method Succeed(wl: DeepCopy.WorkloadObject, spec: WorkloadSpec, live: Option<int>)
      modifies wl.status, wl.status.conditions
      ensures wl.status.Value() == SucceededStatus(old(wl.status.Value()), spec, wl.generation, live)
    {
      wl.status.SetStatusCondition(RolloutCondition(spec, wl.generation));
      if live.Some? {
        wl.status.readyReplicas := live.value;
      }
      wl.status.observedGeneration := wl.generation;
      wl.status.SetStatusCondition(Condition(READY, true, "Reconciled", RECONCILED, wl.generation));
    }

    /** The success exit: the status in memory, and one patch. */
    method ReportSuccess(
        wl: DeepCopy.WorkloadObject, base: DeepCopy.StatusObject, spec: WorkloadSpec, live: Option<int>,
          patchFails: bool)
      returns (ok: bool)
      requires workload.Some? && workload.value.status == base.Value() == wl.status.Value()
      requires wl.status != base && wl.status.conditions != base.conditions
      modifies this`workload, wl.status, wl.status.conditions
      ensures ok <==> !patchFails
      ensures workload == if patchFails then old(workload)
              else Some(old(workload).value.(status := SucceededStatus(old(base.Value()), spec, wl.generation, live)))
      ensures patchFails
              || TellsSuccess(old(workload).value.status, spec, wl.generation, live, workload.value.status)
    {
      Succeed(wl, spec, live);
      ok := PatchStatus(base.Value(), wl.status.Value(), patchFails);
      SuccessTells(old(base.Value()), spec, wl.generation, live);
    }

    /** `readFails` says that the Workload cannot be read, for another reason than its absence; `rendered` is
        what rendering gave, in the order it gave it; `faults` are the failures the calls for the children
        meet; `live` is the Deployment's ready count if it can be read. */
    method Reconcile(
        name: string, readFails: bool, rendered: Option<seq<Obj>>, faults: seq<Fault>, live: Option<int>,
          message: string,
        patchFails: bool)
      returns (result: Result)
      requires rendered.Some? ==> |faults| == |rendered.value|
      modifies this`children, this`workload
      ensures readFails ==> result == Failed && workload == old(workload) && children == old(children)
      ensures !readFails && old(workload).None? ==> result == Done && workload == None && children == old(children)
      ensures !readFails && old(workload).Some? ==>
                var wl := old(workload).value;
                var p := if rendered.None? then Progress(old(children), 0)
                         else ApplyChildren(server, Owner("Workload", name, wl.uid), old(children), rendered.value,
                           faults);
                && children == p.store
                && workload ==
                   Some(if patchFails then wl else wl.(status := Reported(wl, rendered, p.finished, live, message)))
                && result == if !patchFails && rendered.Some? && p.finished >= |rendered.value| then RequeueAfter(30)
                   else Failed
      ensures !readFails && old(workload).Some? && !patchFails ==>
                workload.Some? && workload == Some(old(workload).value.(status := workload.value.status))
      ensures
        || readFails || old(workload).None? || patchFails
        || (var wl, status := old(workload).value, workload.value.status;
            if result == RequeueAfter(30) then TellsSuccess(wl.status, wl.spec, wl.generation, live, status)
            else
              var reason := if rendered.None? then "RenderFailed" else "ApplyFailed";
              TellsFailure(wl.status, wl.generation, reason, message, status))
    {
      if readFails {
        return Failed;
      }
      if workload.None? {
        return Done;
      }
      var read := workload.value;
      var wl := new DeepCopy.WorkloadObject(read.uid, read.generation, read.spec, read.status);
      var copy := wl.DeepCopy();
      var base := copy.status;
      if rendered.None? {
        ReportFailure(wl, base, "RenderFailed", message, patchFails);
        return Failed;
      }
      var finished := ApplyAll(Owner("Workload", name, wl.uid), rendered.value, faults);
      if finished < |rendered.value| {
        ReportFailure(wl, base, "ApplyFailed", message, patchFails);
        return Failed;
      }
      var ok := ReportSuccess(wl, base, read.spec, live, patchFails);
      if !ok {
        return Failed;
      }
      return RequeueAfter(30);
    }
  }
}
