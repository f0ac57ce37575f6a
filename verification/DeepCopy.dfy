/** The Workload as the controller holds it in memory, with its pointers and its slice of conditions,
    and the generated deep copies (operator/api/v1/zz_generated.deepcopy.go). The spec and the status of a
    Workload are objects of their own, reached through fields. */
module DeepCopy {
  import opened Values
  import opened Workloads

  /** What a pointer, a map or a slice of a spec refers to; a nil one is null. */
  class Cell<T> {
    var value: T

    constructor (value: T)
      ensures this.value == value
    {
      this.value := value;
    }
  }

  function At<T>(p: Cell?<T>): Option<T>
    reads p
  {
    if p == null then None else Some(p.value)
  }

  method NewCell<T>(v: Option<T>) returns (out: Cell?<T>)
    ensures At(out) == v && (out != null ==> fresh(out))
  {
    out := null;
    if v.Some? {
      out := new Cell(v.value);
    }
  }

  class SpecObject {
    var image: string
    var port: int
    var rolloutStrategy: string
    var autoscale: Autoscale
    var ingressClass: string
    var livenessProbe: Cell?<Probe>
    var readinessProbe: Cell?<Probe>
    var requests: Cell?<map<string, string>>
    var limits: Cell?<map<string, string>>
    var claims: Cell?<seq<string>>
    var securityContext: Cell?<map<string, Values.Value>>
    var podSecurityContext: Cell?<map<string, Values.Value>>
    var ingress: Cell?<IngressConfig>

    /** The object itself and every mutable cell it reaches; null for the pointers that are nil. */
    ghost function Cells(): set<object?>
      reads this
    {
      {this as object?, livenessProbe as object?, readinessProbe as object?, requests as object?, limits as object?,
       claims as object?, securityContext as object?, podSecurityContext as object?, ingress as object?}
    }

    function Value(): WorkloadSpec
      reads this, livenessProbe, readinessProbe, requests, limits, claims, securityContext, podSecurityContext, ingress
    {
      WorkloadSpec(
        image, port, rolloutStrategy, autoscale, At(livenessProbe), At(readinessProbe),
        Resources(At(requests), At(limits), At(claims)), At(securityContext), At(podSecurityContext), ingressClass,
          At(ingress))
    }

    constructor (spec: WorkloadSpec)
      ensures Value() == spec && fresh(Cells() - {null})
    {
      image, port, rolloutStrategy, autoscale := spec.image, spec.port, spec.rolloutStrategy, spec.autoscale;
      ingressClass := spec.ingressClass;
      var p0 := NewCell(spec.livenessProbe);
      var p1 := NewCell(spec.readinessProbe);
      var p2 := NewCell(spec.resources.requests);
      var p3 := NewCell(spec.resources.limits);
      var p4 := NewCell(spec.resources.claims);
      var p5 := NewCell(spec.securityContext);
      var p6 := NewCell(spec.podSecurityContext);
      var p7 := NewCell(spec.ingress);
      livenessProbe, readinessProbe, requests, limits := p0, p1, p2, p3;
      claims, securityContext, podSecurityContext, ingress := p4, p5, p6, p7;
    }

    constructor Zero()
      ensures fresh(this)
    {
      image, port, rolloutStrategy, autoscale, ingressClass := "", 0, "", Autoscale(0, 0, 0), "";
      livenessProbe, readinessProbe, requests, limits := null, null, null, null;
      claims, securityContext, podSecurityContext, ingress := null, null, null, null;
    }

    /** A struct assignment: every field, pointers included, so that both objects share their cells. */
    method Assign(out: SpecObject)
      requires out != this
      modifies out
      ensures out.image == image && out.port == port && out.rolloutStrategy == rolloutStrategy
      ensures out.autoscale == autoscale
      ensures out.ingressClass == ingressClass && out.livenessProbe == livenessProbe
      ensures out.readinessProbe == readinessProbe
      ensures out.requests == requests && out.limits == limits && out.claims == claims
      ensures out.securityContext == securityContext && out.podSecurityContext == podSecurityContext
      ensures out.ingress == ingress
    {
      out.image, out.port, out.rolloutStrategy, out.autoscale := image, port, rolloutStrategy, autoscale;
      out.ingressClass, out.livenessProbe, out.readinessProbe := ingressClass, livenessProbe, readinessProbe;
      out.requests, out.limits, out.claims := requests, limits, claims;
      out.securityContext, out.podSecurityContext, out.ingress := securityContext, podSecurityContext, ingress;
    }

    /** The struct has been assigned to `out`; each list that is not nil is replaced by one of its own. */
    method CopyResourcesInto(out: SpecObject)
      requires out != this && out.requests == requests && out.limits == limits && out.claims == claims
      modifies out`requests, out`limits, out`claims
      ensures At(out.requests) == At(requests) && At(out.limits) == At(limits) && At(out.claims) == At(claims)
      ensures fresh({out.requests as object?, out.limits as object?, out.claims as object?} - {null})
    {
      if requests != null {
        out.requests := new Cell(requests.value);
      }
      if limits != null {
        out.limits := new Cell(limits.value);
      }
      if claims != null {
        out.claims := new Cell(claims.value);
      }
    }

    method CopyProbesInto(out: SpecObject)
      requires out != this && out.livenessProbe == livenessProbe && out.readinessProbe == readinessProbe
      modifies out`livenessProbe, out`readinessProbe
      ensures At(out.livenessProbe) == At(livenessProbe) && At(out.readinessProbe) == At(readinessProbe)
      ensures fresh({out.livenessProbe as object?, out.readinessProbe as object?} - {null})
    {
      if livenessProbe != null {
        out.livenessProbe := new Cell(livenessProbe.value);
      }
      if readinessProbe != null {
        out.readinessProbe := new Cell(readinessProbe.value);
      }
    }

    method CopyRestInto(out: SpecObject)
      requires out != this && out.securityContext == securityContext && out.podSecurityContext == podSecurityContext
      requires out.ingress == ingress
      modifies out`securityContext, out`podSecurityContext, out`ingress
      ensures At(out.securityContext) == At(securityContext) && At(out.podSecurityContext) == At(podSecurityContext)
      ensures At(out.ingress) == At(ingress)
      ensures fresh({out.securityContext as object?, out.podSecurityContext as object?,
              out.ingress as object?} - {null})
    {
      if securityContext != null {
        out.securityContext := new Cell(securityContext.value);
      }
      if podSecurityContext != null {
        out.podSecurityContext := new Cell(podSecurityContext.value);
      }
      if ingress != null {
        out.ingress := new Cell(ingress.value);
      }
    }

    /** The struct is assigned, and then each pointer that is not nil is replaced by one to a cell of its own. */
    method DeepCopyInto(out: SpecObject)
      requires out != this
      modifies out
      ensures out.image == image
      ensures out.port == port
      ensures out.rolloutStrategy == rolloutStrategy
      ensures out.autoscale == autoscale
      ensures out.ingressClass == ingressClass
      ensures At(out.livenessProbe) == At(livenessProbe)
      ensures At(out.readinessProbe) == At(readinessProbe)
      ensures At(out.requests) == At(requests)
      ensures At(out.limits) == At(limits)
      ensures At(out.claims) == At(claims)
      ensures At(out.securityContext) == At(securityContext)
      ensures At(out.podSecurityContext) == At(podSecurityContext)
      ensures At(out.ingress) == At(ingress)
      ensures out.livenessProbe == null || fresh(out.livenessProbe)
      ensures out.readinessProbe == null || fresh(out.readinessProbe)
      ensures out.requests == null || fresh(out.requests)
      ensures out.limits == null || fresh(out.limits)
      ensures out.claims == null || fresh(out.claims)
      ensures out.securityContext == null || fresh(out.securityContext)
      ensures out.podSecurityContext == null || fresh(out.podSecurityContext)
      ensures out.ingress == null || fresh(out.ingress)
    {
      Assign(out);
      CopyProbesInto(out);
      CopyResourcesInto(out);
      CopyRestInto(out);
    }

    method DeepCopy() returns (out: SpecObject)
      ensures out.Value() == Value() && fresh(out.Cells() - {null})
    {
      out := new SpecObject.Zero();
      DeepCopyInto(out);
    }
  }

  class StatusObject {
    var conditions: array<Condition>
    var observedGeneration: nat
    var readyReplicas: int

    function Value(): Status
      reads this, conditions
    {
      Status(conditions[..], observedGeneration, readyReplicas)
    }

    constructor (status: Status)
      ensures Value() == status && fresh(conditions)
    {
      var s := status.conditions;
      conditions := new Condition[|s|](i requires 0 <= i < |s| => s[i]);
      observedGeneration, readyReplicas := status.observedGeneration, status.readyReplicas;
      new;
      assert conditions[..] == s;
    }

    /** The slice is copied element by element into a slice of its own. */
    method DeepCopy() returns (out: StatusObject)
      ensures out.Value() == Value() && fresh(out) && fresh(out.conditions)
    {
      var n := conditions.Length;
      var copy := new Condition[n];
      for i := 0 to n
        invariant copy[..i] == conditions[..i]
      {
        copy[i] := conditions[i];
      }
      out := new StatusObject(Status([], observedGeneration, readyReplicas));
      out.conditions := copy;
      assert copy[..] == copy[..n] && conditions[..] == conditions[..n];
    }

    /** Overwrites the condition of that name in place, or appends it to a grown slice. */
    method SetStatusCondition(c: Condition)
      modifies this`conditions, conditions
      ensures Value() == old(Value()).(conditions := SetCondition(old(Value()).conditions, c))
      ensures conditions == old(conditions) || fresh(conditions)
    {
      var n := conditions.Length;
      ghost var s := conditions[..];
      var i := 0;
      while i < n && conditions[i].name != c.name
        invariant 0 <= i <= n
        invariant forall k :: 0 <= k < i ==> conditions[k].name != c.name
      {
        i := i + 1;
      }
      SetConditionAt(s, c, i);
      if i < n {
        conditions[i] := c;
      } else {
        var grown := new Condition[n + 1](
          k requires 0 <= k <= n reads this, conditions => if k < conditions.Length then conditions[k] else c);
        conditions := grown;
        assert conditions[..] == s + [c];
      }
    }
  }

  lemma {:induction false} SetConditionAt(s: seq<Condition>, c: Condition, i: nat)
    requires i <= |s| && forall k :: 0 <= k < i ==> s[k].name != c.name
    requires i < |s| ==> s[i].name == c.name
    ensures SetCondition(s, c) == if i < |s| then s[i := c] else s + [c]
  {
    if s != [] && i > 0 {
      SetConditionAt(s[1..], c, i - 1);
    }
  }

  /** The value of a Workload in memory. */
  function ValueOf(w: WorkloadObject): Workload
    reads w, w.spec, w.spec.livenessProbe, w.spec.readinessProbe, w.spec.requests, w.spec.limits, w.spec.claims,
          w.spec.securityContext, w.spec.podSecurityContext, w.spec.ingress, w.status, w.status.conditions
  {
    Workload(w.uid, w.generation, w.spec.Value(), w.status.Value())
  }

  /** All that the copy consists of is new, and it has the value that the item had. */
  twostate predicate CopyOf(item: WorkloadObject, new copy: WorkloadObject)
    reads copy, copy.spec, copy.spec.livenessProbe, copy.spec.readinessProbe, copy.spec.requests, copy.spec.limits,
          copy.spec.claims, copy.spec.securityContext, copy.spec.podSecurityContext, copy.spec.ingress, copy.status,
          copy.status.conditions
  {
    && fresh(copy) && fresh(copy.spec.Cells() - {null}) && fresh(copy.status) && fresh(copy.status.conditions)
    && ValueOf(copy) == old(ValueOf(item))
  }

  class WorkloadObject {
    var uid: nat
    var generation: nat
    const spec: SpecObject
    const status: StatusObject

    constructor (uid: nat, generation: nat, spec: WorkloadSpec, status: Status)
      ensures this.uid == uid && this.generation == generation
      ensures this.spec.Value() == spec && this.status.Value() == status
      ensures fresh(this.spec.Cells() - {null}) && fresh(this.status) && fresh(this.status.conditions)
    {
      this.uid, this.generation := uid, generation;
      this.spec := new SpecObject(spec);
      this.status := new StatusObject(status);
    }

    constructor Of(uid: nat, generation: nat, spec: SpecObject, status: StatusObject)
      ensures this.uid == uid && this.generation == generation && this.spec == spec && this.status == status
    {
      this.uid, this.generation, this.spec, this.status := uid, generation, spec, status;
    }

    method DeepCopy() returns (out: WorkloadObject)
      ensures CopyOf(this, out)
    {
      var spec' := spec.DeepCopy();
      var status' := status.DeepCopy();
      out := new WorkloadObject.Of(uid, generation, spec', status');
    }
  }

  function SetAll(conditions: seq<Condition>, updates: seq<Condition>): seq<Condition>
    decreases |updates|
  {
    if updates == [] then conditions else SetAll(SetCondition(conditions, updates[0]), updates[1..])
  }

  /** The snapshot taken before a reconcile keeps its value through any number of in-place updates of
      the status it was copied from. */
  method SnapshotThenUpdate(status: StatusObject, updates: seq<Condition>, generation: nat, readyReplicas: int)
    returns (base: StatusObject)
    modifies status, status.conditions
    ensures fresh(base) && base.Value() == old(status.Value())
    ensures status.Value() == Status(SetAll(old(status.Value()).conditions, updates), generation, readyReplicas)
  {
    base := status.DeepCopy();
    ghost var before := status.Value();
    var i := 0;
    while i < |updates|
      invariant 0 <= i <= |updates|
      invariant base.Value() == before && base.conditions != status.conditions
      invariant status.conditions == old(status.conditions) || fresh(status.conditions)
      invariant SetAll(status.Value().conditions, updates[i..]) == SetAll(before.conditions, updates)
    {
      status.SetStatusCondition(updates[i]);
      i := i + 1;
    }
    status.observedGeneration := generation;
    status.readyReplicas := readyReplicas;
  }

  /** The items of a WorkloadList: every item is copied into cells of its own. */
  method DeepCopyItems(items: array<WorkloadObject>) returns (out: array<WorkloadObject>)
    ensures fresh(out) && out.Length == items.Length
    ensures forall i :: 0 <= i < items.Length ==> CopyOf(old(items[i]), out[i])
  {
    var copies: seq<WorkloadObject> := [];
    for n := 0 to items.Length
      invariant |copies| == n
      invariant forall i :: 0 <= i < n ==> CopyOf(old(items[i]), copies[i])
    {
      var c := items[n].DeepCopy();
      copies := copies + [c];
    }
    out := new WorkloadObject[items.Length](i requires 0 <= i < |copies| => copies[i]);
  }
}
