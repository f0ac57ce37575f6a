/** Decoded document trees (JSON and YAML share one shape), the JSON Merge Patch of RFC 7396 that
    `client.MergeFrom` produces and the API server applies, and Helm's overlay of user values on
    chart defaults. */
module Values {
  datatype Option<+T> = None | Some(value: T)

  datatype Value =
    | Null
    | Bool(flag: bool)
    | Int(number: int)
    | Str(text: string)
    | List(items: seq<Value>)
    | Map(entries: map<string, Value>)

  /** No object anywhere in the tree has a null member. Arrays are opaque to a merge patch. */
  predicate NullFree(v: Value)
    decreases v
  {
    v.Map? ==> forall k | k in v.entries :: !v.entries[k].Null? && NullFree(v.entries[k])
  }

  /** MergePatch of section 2 of RFC 7396: a null member deletes, an object member recurses, and
      everything else, arrays included, replaces. */
  function MergePatch(target: Value, patch: Value): Value
    decreases patch
  {
    if !patch.Map? then patch
    else
      var t := if target.Map? then target.entries else map[];
      Map(map k | k in t.Keys + patch.entries.Keys && !(k in patch.entries && patch.entries[k].Null?) ::
            if k in patch.entries then MergePatch(if k in t then t[k] else Null, patch.entries[k]) else t[k])
  }

  /** The members of `to` that a patch has to carry: those absent from `from` or different there. */
  predicate Changed(from: map<string, Value>, to: map<string, Value>, k: string)
    requires k in to
  {
    k !in from || from[k] != to[k]
  }

  /** The patch document between two objects: unchanged members are omitted, removed members become
      null, objects are diffed in turn, arrays and scalars are carried whole. */
  function Diff(from: map<string, Value>, to: map<string, Value>): map<string, Value>
    decreases Map(to)
  {
    map k | k in from.Keys + to.Keys && (k in to ==> Changed(from, to, k)) ::
      if k !in to then Null
      else if k in from && from[k].Map? && to[k].Map? then
        assert to[k] == Map(to).entries[k];
        Map(Diff(from[k].entries, to[k].entries))
      else to[k]
  }

  /** Merging a null-free subtree over anything that is not an object installs that subtree. */
  lemma {:induction false} MergeInstalls(target: Value, patch: Value)
    requires !target.Map? && NullFree(patch)
    ensures MergePatch(target, patch) == patch
    decreases patch
  {
    if patch.Map? {
      forall k | k in patch.entries ensures MergePatch(Null, patch.entries[k]) == patch.entries[k] {
        MergeInstalls(Null, patch.entries[k]);
      }
      assert MergePatch(target, patch).entries == patch.entries;
    }
  }

  /** Patching the snapshot with the difference to the new document yields the new document. */
  lemma {:induction false} DiffThenMerge(from: map<string, Value>, to: map<string, Value>)
    requires NullFree(Map(to))
    ensures MergePatch(Map(from), Map(Diff(from, to))) == Map(to)
    decreases Map(to)
  {
    var merged := MergePatch(Map(from), Map(Diff(from, to))).entries;
    var patch := Diff(from, to);
    forall k | k in to && Changed(from, to, k)
      ensures k in merged && merged[k] == to[k]
    {
      assert k in patch && !patch[k].Null?;
      assert merged[k] == MergePatch(if k in from then from[k] else Null, patch[k]);
      if k in from && from[k].Map? && to[k].Map? {
        assert to[k] == Map(to).entries[k];
        DiffThenMerge(from[k].entries, to[k].entries);
        assert from[k] == Map(from[k].entries) && to[k] == Map(to[k].entries);
      } else if k !in from || !from[k].Map? {
        MergeInstalls(if k in from then from[k] else Null, to[k]);
      }
    }
    assert merged.Keys == to.Keys;
    assert merged == to;
  }

  function Member(m: map<string, Value>, k: string): Option<Value>
  {
    if k in m then Some(m[k]) else None
  }

  /** The patch is never bound to the snapshot: applied to any document it leaves a member on which
      snapshot and new document agree exactly as that document has it, and (for a member that is
      not an object) otherwise installs or removes it as the new document says. */
  lemma MergeMember(target: map<string, Value>, from: map<string, Value>, to: map<string, Value>, k: string)
    requires k in to ==> !to[k].Map? && !to[k].Null?
    ensures Member(MergePatch(Map(target), Map(Diff(from, to))).entries, k) ==
            if Member(from, k) == Member(to, k) then Member(target, k) else Member(to, k)
  {
  }

  /** Helm's coalescing of user values over chart defaults: user keys win, tables merge key by key,
      and a user null removes the default. */
  function Overlay(user: map<string, Value>, defaults: map<string, Value>): map<string, Value>
    decreases Map(user)
  {
    map k | k in user.Keys + defaults.Keys && !(k in user && user[k].Null?) ::
      if k !in user then defaults[k]
      else if k in defaults && user[k].Map? && defaults[k].Map? then
        assert user[k] == Map(user).entries[k];
        Map(Overlay(user[k].entries, defaults[k].entries))
      else user[k]
  }

  /** The truth of a template guard: null, false, zero, and anything empty are false. */
  predicate Truthy(v: Value)
  {
    match v
    case Null => false
    case Bool(b) => b
    case Int(n) => n != 0
    case Str(s) => s != ""
    case List(xs) => xs != []
    case Map(m) => m != map[]
  }
}
