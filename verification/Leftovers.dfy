/** What convergence does not do: a child that the current spec no longer renders stays, and stays owned. */
module Leftovers {
  import opened Values
  import opened Objects
  import opened Workloads
  import opened Protocol
  import opened ProtocolInvariants
  import opened ChildSafety
  import opened QuietRun
  import C = Convergence
  import T = ProtocolTheorems

  /** The object stored under the key has the Workload as its controller. */
  predicate OwnedBy(w: World, owner: Owner, key: Key)
  {
    var live := C.Live(CurrentStore(w), key);
    live.Some? && live.value.controller == Some(owner)
  }

  /** The Workload owns no child but rendered ones. */
  ghost predicate OwnsNothingElse(cfg: Config, w: World, order: seq<Obj>)
    requires w.log != [] && Current(w).Some?
  {
    forall key :: OwnedBy(w, OwnerOf(cfg, Current(w).value), key) ==> C.Names(multiset(order), key)
  }

  /** After convergence the children that the Workload owns are exactly the rendered ones if and only if it owned
      nothing else before. */
  lemma OwnedAreRenderedIff(cfg: Config, w: World, w': World, order: seq<Obj>)
    requires w.log != [] && Current(w).Some? && w'.log != [] && Current(w').Some?
    requires forall key :: Converged(cfg, w, w', order, key)
    ensures (forall key :: OwnedBy(w', OwnerOf(cfg, Current(w').value), key) <==> C.Names(multiset(order), key))
            <==> OwnsNothingElse(cfg, w, order)
  {
    var owner := OwnerOf(cfg, Current(w).value);
    forall key
      ensures OwnedBy(w', owner, key) <==> C.Names(multiset(order), key) || OwnedBy(w, owner, key)
      ensures OwnerOf(cfg, Current(w').value) == owner
    {
      assert Converged(cfg, w, w', order, key);
    }
  }

  /** Nobody but the operator has ever written a child. */
  ghost predicate OnlyOperatorWrites(w: World)
  {
    forall key, i :: 0 <= i < |History(w, key)| ==> History(w, key)[i].author.Operator?
  }

  /** The last version under the key was stored by a reconcile of this Workload whose rendering named it. */
  ghost predicate LastStoredFor(cfg: Config, w: World, key: Key)
    requires w.log != [] && Current(w).Some?
  {
    var h, owner := History(w, key), OwnerOf(cfg, Current(w).value);
    h != [] && h[|h| - 1].author.Operator?
    && var Operator(desired, author, run) := h[|h| - 1].author;
       author == owner && desired.key == key && Rendered(cfg, w, run, owner, desired)
  }

  lemma OwnedIffStored(cfg: Config, past: seq<Step>, key: Key)
    requires ValidServer(cfg.server) && OnlyOperatorWrites(After(cfg, past))
    requires After(cfg, past).log != [] && Current(After(cfg, past)).Some?
    ensures var w := After(cfg, past);
            OwnedBy(w, OwnerOf(cfg, Current(w).value), key) <==> LastStoredFor(cfg, w, key)
  {
    var w := After(cfg, past);
    T.Always(cfg, past);
    LiveIsLast(w, key);
    assert SafeVersion(cfg, w, key, |History(w, key)| - 1);
  }

  /** In every run in which only the operator writes children, and which has converged: the Workload owns exactly
      the rendered children if and only if no earlier rendering of it was the last to store any other. */
  lemma OwnedAreRenderedUnlessDroppedIff(cfg: Config, past: seq<Step>, w': World, order: seq<Obj>)
    requires ValidServer(cfg.server) && OnlyOperatorWrites(After(cfg, past))
    requires After(cfg, past).log != [] && Current(After(cfg, past)).Some? && w'.log != [] && Current(w').Some?
    requires forall key :: Converged(cfg, After(cfg, past), w', order, key)
    ensures (forall key :: OwnedBy(w', OwnerOf(cfg, Current(w').value), key) <==> C.Names(multiset(order), key))
            <==> forall key :: LastStoredFor(cfg, After(cfg, past), key) ==> C.Names(multiset(order), key)
  {
    OwnedAreRenderedIff(cfg, After(cfg, past), w', order);
    forall key
      ensures OwnedBy(After(cfg, past), OwnerOf(cfg, Current(After(cfg, past)).value), key) <==>
              LastStoredFor(cfg, After(cfg, past), key)
    {
      OwnedIffStored(cfg, past, key);
    }
  }
}
