/** The mutate step of setOwnerAndApply, in place on the object handed to CreateOrUpdate
    (operator/internal/controller/apply.go). */
module Apply {
  import opened Values
  import opened Objects

  /** A nil map has no entries. */
  function Entries(m: Option<StringMap>): StringMap
  {
    if m.None? then map[] else m.value
  }

  /** Copies the existing entries, then the desired ones over them; two nil maps give nil. */
  method MergeStringMaps(existing: Option<StringMap>, desired: Option<StringMap>) returns (out: Option<StringMap>)
    ensures out.None? <==> existing.None? && desired.None?
    ensures forall k :: k in Entries(desired) ==> k in Entries(out) && Entries(out)[k] == Entries(desired)[k]
    ensures KeepsEntries(Entries(existing), Entries(desired), Entries(out))
    ensures Entries(out) == Entries(existing) + Entries(desired)
  {
    if existing.None? && desired.None? {
      return None;
    }
    var merged: StringMap := map[];
    var todo := Entries(existing).Keys;
    while todo != {}
      invariant todo <= Entries(existing).Keys
      invariant merged == map k | k in Entries(existing) && k !in todo :: Entries(existing)[k]
      decreases todo
    {
      var k :| k in todo;
      merged := merged[k := Entries(existing)[k]];
      todo := todo - {k};
    }
    assert merged == Entries(existing);
    todo := Entries(desired).Keys;
    while todo != {}
      invariant todo <= Entries(desired).Keys
      invariant merged == Entries(existing) + map k | k in Entries(desired) && k !in todo :: Entries(desired)[k]
      decreases todo
    {
      var k :| k in todo;
      merged := merged[k := Entries(desired)[k]];
      todo := todo - {k};
    }
    assert (map k | k in Entries(desired) && k !in todo :: Entries(desired)[k]) == Entries(desired);
    out := Some(merged);
  }

  /** The object in memory that a get overwrites, the mutate step changes, and a write sends. */
  class Target {
    var key: Key
    var controller: Option<Owner>
    var labels: Option<StringMap>
    var annotations: Option<StringMap>
    var spec: Spec

    function Contents(): Obj
      reads this
    {
      Obj(key, controller, Entries(labels), Entries(annotations), spec)
    }

    /** A deep copy of the rendered object. */
    constructor (o: Obj)
      ensures Contents() == o
    {
      key, controller, labels, annotations, spec := o.key, o.controller, Some(o.labels), Some(o.annotations), o.spec;
    }

    method Load(o: Obj)
      modifies this
      ensures Contents() == o
    {
      key, controller, labels, annotations, spec := o.key, o.controller, Some(o.labels), Some(o.annotations), o.spec;
    }

    method ReconcileMetadata(desired: Obj)
      modifies this`labels, this`annotations
      ensures Entries(labels) == Entries(old(labels)) + desired.labels
      ensures Entries(annotations) == Entries(old(annotations)) + desired.annotations
    {
      labels := MergeStringMaps(labels, Some(desired.labels));
      annotations := MergeStringMaps(annotations, Some(desired.annotations));
    }

    /** Asserts ownership, merges the metadata, and overwrites the spec, putting back what the server
        or the autoscaler owns. An object of an unsupported kind is rejected after the first two. */
    method MutateInPlace(owner: Owner, desired: Obj) returns (rejected: Option<ApplyError>)
      modifies this
      ensures match Mutate(owner, old(Contents()), desired)
              case Rejected(e) => rejected == Some(e)
              case Mutated(target) => rejected == None && Contents() == target
    {
      if controller.Some? && !SameOwner(controller.value, owner) {
        return Some(AlreadyOwned);
      }
      controller := Some(owner);
      ReconcileMetadata(desired);
      match key.kind {
        case Service =>
          var clusterIP, clusterIPs := spec.clusterIP, spec.clusterIPs;
          spec := desired.spec;
          if clusterIP != "" {
            spec := spec.(clusterIP := clusterIP, clusterIPs := clusterIPs);
          }
        case Deployment =>
          if spec.selector.None? {
            spec := spec.(selector := desired.spec.selector);
          }
          var selector, replicas := spec.selector, spec.replicas;
          spec := desired.spec;
          spec := spec.(selector := selector);
          spec := spec.(replicas := replicas);
        case Unsupported(_) =>
          return Some(UnsupportedKind);
        case _ =>
          spec := desired.spec;
      }
      return None;
    }
  }
}
