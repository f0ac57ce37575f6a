/** Child objects as the API server stores them, and what one mutate-and-write of a rendered object
    does to a stored one (operator/internal/controller/apply.go). */
module Objects {
  import opened Values

  datatype Kind =
    | Service | Deployment | HorizontalPodAutoscaler | PodDisruptionBudget | NetworkPolicy | Ingress
    | Unsupported(kindName: string)

  datatype Key = Key(kind: Kind, namespace: string, name: string)

  /** A controller owner reference: two references denote the same object when kind and name agree. */
  datatype Owner = Owner(kind: string, name: string, uid: nat)

  type StringMap = map<string, string>

  /** The spec fields the operator treats apart, and the rest. A kind without a field leaves it zero. */
  datatype Spec = Spec(
    clusterIP: string, clusterIPs: seq<string>, selector: Option<Value>, replicas: Option<int>, body: Value)

  datatype Obj = Obj(key: Key, controller: Option<Owner>, labels: StringMap, annotations: StringMap, spec: Spec)

  datatype ApplyError = AlreadyOwned | UnsupportedKind

  datatype Mutation = Mutated(target: Obj) | Rejected(error: ApplyError)

  /** The server side of a write: `fill` adds the defaulted fields of a kind, `allocate` is the
      address the server hands to a Service. */
  datatype Server = Server(fill: (Kind, Value) -> Value, allocate: Key -> (string, seq<string>))

  ghost predicate ValidServer(server: Server)
  {
    && (forall kind, body :: server.fill(kind, server.fill(kind, body)) == server.fill(kind, body))
    && (forall key :: server.allocate(key).0 != "")
  }

  predicate SameOwner(a: Owner, b: Owner)
  {
    a.kind == b.kind && a.name == b.name
  }

  predicate OwnedByAnother(owner: Owner, o: Obj)
  {
    o.controller.Some? && !SameOwner(o.controller.value, owner)
  }

  /** The spec that the mutate step leaves on the object it was handed. */
  function MergedSpec(live: Obj, desired: Obj): Spec
  {
    match live.key.kind
    case Service =>
      if live.spec.clusterIP != ""
      then desired.spec.(clusterIP := live.spec.clusterIP, clusterIPs := live.spec.clusterIPs)
      else desired.spec
    case Deployment =>
      desired.spec.(
        selector := if live.spec.selector.None? then desired.spec.selector else live.spec.selector,
        replicas := live.spec.replicas)
    case _ => desired.spec
  }

  /** One mutate step on the live object (on create, on a copy of the desired one). */
  function Mutate(owner: Owner, live: Obj, desired: Obj): Mutation
  {
    if OwnedByAnother(owner, live) then Rejected(AlreadyOwned)
    else if live.key.kind.Unsupported? then Rejected(UnsupportedKind)
    else Mutated(live.(
      controller := Some(owner),
      labels := live.labels + desired.labels,
      annotations := live.annotations + desired.annotations,
      spec := MergedSpec(live, desired)))
  }

  /** What the server stores for a written object: defaults filled in, an address allocated to a
      Service that has none, one replica for a Deployment that states none. */
  function Admit(server: Server, o: Obj): Obj
  {
    var address := server.allocate(o.key);
    var blank := o.key.kind.Service? && o.spec.clusterIP == "";
    o.(spec := Spec(
      if blank then address.0 else o.spec.clusterIP,
      if blank then address.1 else o.spec.clusterIPs,
      o.spec.selector,
      if o.key.kind.Deployment? && o.spec.replicas.None? then Some(1) else o.spec.replicas,
      server.fill(o.key.kind, o.spec.body)))
  }

  /** A stored object is one the server has admitted under its own key. */
  predicate Stored(server: Server, key: Key, o: Obj)
  {
    o.key == key && Admit(server, o) == o
  }

  /** The stored object carries everything the rendered one asks for and belongs to the owner. */
  predicate Conforms(server: Server, owner: Owner, desired: Obj, o: Obj)
  {
    && o.key == desired.key
    && o.controller == Some(owner)
    && (forall k | k in desired.labels :: k in o.labels && o.labels[k] == desired.labels[k])
    && (forall k | k in desired.annotations :: k in o.annotations && o.annotations[k] == desired.annotations[k])
    && o.spec.body == server.fill(desired.key.kind, desired.spec.body)
  }

  /** No entry is removed, and only rendered entries change value. */
  predicate KeepsEntries(before: StringMap, rendered: StringMap, after: StringMap)
  {
    && before.Keys <= after.Keys
    && after.Keys <= before.Keys + rendered.Keys
    && (forall k | k in before && k !in rendered :: after[k] == before[k])
  }

  /** What an update of a live object by the operator may never disturb. */
  predicate Preserves(owner: Owner, before: Obj, desired: Obj, after: Obj)
  {
    && after.key == before.key
    && !OwnedByAnother(owner, before)
    && KeepsEntries(before.labels, desired.labels, after.labels)
    && KeepsEntries(before.annotations, desired.annotations, after.annotations)
    && (before.key.kind.Service? && before.spec.clusterIP != "" ==>
          after.spec.clusterIP == before.spec.clusterIP && after.spec.clusterIPs == before.spec.clusterIPs)
    && (before.key.kind.Deployment? && before.spec.selector.Some? ==> after.spec.selector == before.spec.selector)
    && (before.key.kind.Deployment? && before.spec.replicas.Some? ==> after.spec.replicas == before.spec.replicas)
  }

  lemma AdmitIdempotent(server: Server, o: Obj)
    requires ValidServer(server)
    ensures Stored(server, o.key, Admit(server, o))
  {
  }

  /** Writing the mutated object: the result conforms to the rendered one, and an update preserves
      everything listed in `Preserves`. */
  lemma MutateThenAdmit(server: Server, owner: Owner, live: Obj, desired: Obj)
    requires ValidServer(server) && live.key == desired.key
    requires Mutate(owner, live, desired).Mutated?
    ensures var after := Admit(server, Mutate(owner, live, desired).target);
            && Stored(server, desired.key, after)
            && Conforms(server, owner, desired, after)
            && Preserves(owner, live, desired, after)
  {
  }

  /** What is stored under a key, field by field. The selector and the replica count of a Deployment and the
      addresses of a Service are the live ones where there are any, and otherwise, on a create for one, those
      rendered, one replica, or what the server allocates; the selector and count of any other kind are
      those rendered. */
  lemma StoredFields(server: Server, owner: Owner, live: Obj, desired: Obj)
    requires live.key == desired.key && Mutate(owner, live, desired).Mutated?
    ensures var after := Admit(server, Mutate(owner, live, desired).target);
            var deployment, service := desired.key.kind.Deployment?, desired.key.kind.Service?;
            && after.spec.selector ==
               (if deployment && live.spec.selector.Some? then live.spec.selector else desired.spec.selector)
            && after.spec.replicas ==
               (if !deployment then desired.spec.replicas
                else if live.spec.replicas.Some? then live.spec.replicas else Some(1))
            && (after.spec.clusterIP, after.spec.clusterIPs) ==
               (if service && live.spec.clusterIP != "" then (live.spec.clusterIP, live.spec.clusterIPs)
                else if service && desired.spec.clusterIP == "" then server.allocate(desired.key)
                else (desired.spec.clusterIP, desired.spec.clusterIPs))
            && after.labels == live.labels + desired.labels
            && after.annotations == live.annotations + desired.annotations
  {
  }

  /** A created object has exactly the rendered labels and annotations. */
  lemma CreatedIsRendered(server: Server, owner: Owner, desired: Obj)
    requires Mutate(owner, desired, desired).Mutated?
    ensures var after := Admit(server, Mutate(owner, desired, desired).target);
            && after.labels == desired.labels && after.annotations == desired.annotations
            && after.key == desired.key && after.controller == Some(owner)
            && after.spec.selector == desired.spec.selector
            && (desired.spec.replicas.Some? ==> after.spec.replicas == desired.spec.replicas)
  {
    assert desired.labels + desired.labels == desired.labels;
    assert desired.annotations + desired.annotations == desired.annotations;
  }

  /** A stored object that the mutate step leaves unchanged, so that no write is sent, conforms
      already. */
  lemma UnchangedConforms(server: Server, owner: Owner, live: Obj, desired: Obj)
    requires Stored(server, desired.key, live)
    requires Mutate(owner, live, desired) == Mutated(live)
    ensures Conforms(server, owner, desired, live)
  {
  }

  /** Whatever was stored before, a second mutate-and-write of the same rendered object reproduces
      what the first one stored. */
  lemma MutateAdmitIdempotent(server: Server, owner: Owner, live: Obj, desired: Obj)
    requires ValidServer(server) && live.key == desired.key
    requires Mutate(owner, live, desired).Mutated?
    ensures var after := Admit(server, Mutate(owner, live, desired).target);
            var again := Mutate(owner, after, desired);
            again.Mutated? && Admit(server, again.target) == after
  {
    var after := Admit(server, Mutate(owner, live, desired).target);
    AdmitIdempotent(server, Mutate(owner, live, desired).target);
    assert after.labels + desired.labels == after.labels;
    assert after.annotations + desired.annotations == after.annotations;
    assert server.allocate(desired.key).0 != "";
  }
}
