/** Concatenating the images of a list, which the runner does with check results and the decoder with
    documents. */
module Sequences {
  function FlatMap<A, B>(f: A -> seq<B>, s: seq<A>): seq<B>
  {
    if s == [] then [] else f(s[0]) + FlatMap(f, s[1..])
  }

  lemma {:induction false} FlatMapConcat<A, B>(f: A -> seq<B>, s: seq<A>, t: seq<A>)
    ensures FlatMap(f, s + t) == FlatMap(f, s) + FlatMap(f, t)
  {
    if s == [] {
      assert s + t == t;
    } else {
      assert (s + t)[1..] == s[1..] + t;
      FlatMapConcat(f, s[1..], t);
    }
  }

  lemma FlatMapOne<A, B>(f: A -> seq<B>, a: A)
    ensures FlatMap(f, [a]) == f(a)
  {
  }

  lemma {:induction false} FlatMapMember<A, B>(f: A -> seq<B>, s: seq<A>, b: B)
    ensures b in FlatMap(f, s) <==> exists i :: 0 <= i < |s| && b in f(s[i])
  {
    if s != [] {
      FlatMapMember(f, s[1..], b);
      if i :| 0 <= i < |s| && b in f(s[i]) {
        if i > 0 { assert b in f(s[1..][i - 1]); }
      }
    }
  }

  lemma Removing<A>(t: seq<A>, i: nat)
    requires i < |t|
    ensures multiset(t) == multiset{t[i]} + multiset(t[..i] + t[i + 1..])
  {
    assert t == t[..i] + ([t[i]] + t[i + 1..]);
  }

  lemma Cancel<A>(a: A, m: multiset<A>, n: multiset<A>)
    requires multiset{a} + m == multiset{a} + n
    ensures m == n
  {
    assert m == multiset{a} + m - multiset{a};
    assert n == multiset{a} + n - multiset{a};
  }

  lemma FlatMapRemoving<A, B>(f: A -> seq<B>, t: seq<A>, i: nat)
    requires i < |t|
    ensures multiset(FlatMap(f, t)) == multiset(f(t[i])) + multiset(FlatMap(f, t[..i] + t[i + 1..]))
  {
    assert t == t[..i] + ([t[i]] + t[i + 1..]);
    FlatMapConcat(f, t[..i], [t[i]] + t[i + 1..]);
    FlatMapConcat(f, t[..i], t[i + 1..]);
  }

  /** Permuting the list permutes the concatenation. */
  lemma {:induction false} FlatMapPermutation<A, B>(f: A -> seq<B>, s: seq<A>, t: seq<A>)
    requires multiset(s) == multiset(t)
    ensures multiset(FlatMap(f, s)) == multiset(FlatMap(f, t))
    decreases |s|
  {
    assert |s| == |multiset(s)| == |multiset(t)| == |t|;
    if s != [] {
      assert s[0] in multiset(t);
      var i :| 0 <= i < |t| && t[i] == s[0];
      assert s[..0] + s[1..] == s[1..];
      Removing(s, 0);
      Removing(t, i);
      Cancel(s[0], multiset(s[1..]), multiset(t[..i] + t[i + 1..]));
      FlatMapPermutation(f, s[1..], t[..i] + t[i + 1..]);
      FlatMapRemoving(f, t, i);
    }
  }

  /** The elements that satisfy `p`, in order. */
  function Filter<A>(p: A -> bool, s: seq<A>): seq<A>
  {
    if s == [] then [] else (if p(s[0]) then [s[0]] else []) + Filter(p, s[1..])
  }

  lemma {:induction false} FilterConcat<A>(p: A -> bool, s: seq<A>, t: seq<A>)
    ensures Filter(p, s + t) == Filter(p, s) + Filter(p, t)
  {
    if s == [] {
      assert s + t == t;
    } else {
      var head := if p(s[0]) then [s[0]] else [];
      assert (s + t)[0] == s[0] && (s + t)[1..] == s[1..] + t;
      FilterConcat(p, s[1..], t);
      assert head + (Filter(p, s[1..]) + Filter(p, t)) == (head + Filter(p, s[1..])) + Filter(p, t);
    }
  }

  /** Filtering keeps exactly the elements that satisfy `p`, each as often as before. */
  lemma {:induction false} FilterCount<A>(p: A -> bool, s: seq<A>, a: A)
    ensures multiset(Filter(p, s))[a] == if p(a) then multiset(s)[a] else 0
  {
    if s != [] {
      assert s == [s[0]] + s[1..];
      FilterCount(p, s[1..], a);
    }
  }
}
