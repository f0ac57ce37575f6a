/** Splitting, joining, trimming and case folding as Go's strings package does them, and the two small
    parsers built on them: the lists in environment variables (operator/cmd/preflight/main.go) and ARM
    identifiers (operator/internal/cloud/azure/egress.go). */
module Text {
  import opened Values
  import opened Sequences

  /** The code points of the Unicode property White_Space. */
  predicate IsSpace(c: char)
  {
    var n := c as int;
    || 9 <= n <= 13 || n == 0x20 || n == 0x85 || n == 0xA0 || n == 0x1680 || 0x2000 <= n <= 0x200A
    || n == 0x2028 || n == 0x2029 || n == 0x202F || n == 0x205F || n == 0x3000
  }

  /** The code points with the White_Space property, one by one. */
  lemma SpacesAre(c: char)
    ensures IsSpace(c) <==>
            c as int in {
              0x9, 0xA, 0xB, 0xC, 0xD, 0x20, 0x85, 0xA0, 0x1680, 0x2000, 0x2001, 0x2002, 0x2003, 0x2004, 0x2005, 0x2006,
              0x2007, 0x2008, 0x2009, 0x200A, 0x2028, 0x2029, 0x202F, 0x205F, 0x3000}
  {
  }

  function TrimLeft(s: string): string
  {
    if s != "" && IsSpace(s[0]) then TrimLeft(s[1..]) else s
  }

  function TrimRight(s: string): string
  {
    if s != "" && IsSpace(s[|s| - 1]) then TrimRight(s[..|s| - 1]) else s
  }

  function TrimSpace(s: string): string
  {
    TrimRight(TrimLeft(s))
  }

  predicate Blank(s: string)
  {
    forall c :: c in s ==> IsSpace(c)
  }

  /** Trimming has nothing to take off. */
  predicate Trimmed(s: string)
  {
    s != "" ==> !IsSpace(s[0]) && !IsSpace(s[|s| - 1])
  }

  function Split(s: string, sep: char): (parts: seq<string>)
    ensures parts != []
  {
    if s == "" then [""]
    else
      var rest := Split(s[1..], sep);
      if s[0] == sep then [""] + rest else [[s[0]] + rest[0]] + rest[1..]
  }

  function Join(parts: seq<string>, sep: char): string
  {
    if parts == [] then "" else if |parts| == 1 then parts[0] else parts[0] + [sep] + Join(parts[1..], sep)
  }

  /** None of the parts can be mistaken for two. */
  predicate Separable(parts: seq<string>, sep: char)
  {
    forall p :: p in parts ==> sep !in p
  }

  lemma {:induction false} SplitIsSeparable(s: string, sep: char)
    ensures Separable(Split(s, sep), sep)
  {
    if s != "" {
      var rest := Split(s[1..], sep);
      SplitIsSeparable(s[1..], sep);
      assert rest[0] in rest && forall p :: p in rest[1..] ==> p in rest;
    }
  }

  lemma {:induction false} SplitPrefixed(p: string, s: string, sep: char)
    requires sep !in p
    ensures Split(p + s, sep) == [p + Split(s, sep)[0]] + Split(s, sep)[1..]
  {
    var parts := Split(s, sep);
    if p == "" {
      assert p + s == s && p + parts[0] == parts[0];
      assert parts == [parts[0]] + parts[1..];
    } else {
      assert (p + s)[1..] == p[1..] + s;
      SplitPrefixed(p[1..], s, sep);
      assert [p[0]] + (p[1..] + parts[0]) == p + parts[0];
    }
  }

  lemma {:induction false} SplitJoin(parts: seq<string>, sep: char)
    requires parts != [] && Separable(parts, sep)
    ensures Split(Join(parts, sep), sep) == parts
  {
    if |parts| == 1 {
      assert parts[0] == parts[0] + "";
      SplitPrefixed(parts[0], "", sep);
    } else {
      var rest := Join(parts[1..], sep);
      assert forall p :: p in parts[1..] ==> p in parts;
      SplitJoin(parts[1..], sep);
      assert Join(parts, sep) == parts[0] + ([sep] + rest);
      assert ([sep] + rest)[1..] == rest;
      SplitPrefixed(parts[0], [sep] + rest, sep);
      assert parts[0] + "" == parts[0] && parts == [parts[0]] + parts[1..];
    }
  }

  // Trimming

  lemma {:induction false} TrimRightMeaning(s: string)
    ensures TrimRight(s) <= s && Blank(s[|TrimRight(s)|..])
    ensures TrimRight(s) != "" ==> !IsSpace(TrimRight(s)[|TrimRight(s)| - 1])
  {
    if s != "" && IsSpace(s[|s| - 1]) {
      TrimRightMeaning(s[..|s| - 1]);
      assert s[|TrimRight(s)|..] == s[..|s| - 1][|TrimRight(s)|..] + [s[|s| - 1]];
    }
  }

  lemma {:induction false} TrimLeftMeaning(s: string)
    ensures |TrimLeft(s)| <= |s| && TrimLeft(s) == s[|s| - |TrimLeft(s)|..] && Blank(s[..|s| - |TrimLeft(s)|])
    ensures TrimLeft(s) != "" ==> !IsSpace(TrimLeft(s)[0])
  {
    if s != "" && IsSpace(s[0]) {
      TrimLeftMeaning(s[1..]);
      var n := |s| - |TrimLeft(s)|;
      assert s[..n] == [s[0]] + s[1..][..n - 1];
    }
  }

  /** Trimming takes blanks off both ends and nothing else. */
  lemma TrimSpaceMeaning(s: string) returns (before: string, after: string)
    ensures s == before + TrimSpace(s) + after && Blank(before) && Blank(after) && Trimmed(TrimSpace(s))
  {
    var t := TrimLeft(s);
    TrimLeftMeaning(s);
    TrimRightMeaning(t);
    before, after := s[..|s| - |t|], t[|TrimSpace(s)|..];
  }

  lemma TrimmedStays(s: string)
    requires Trimmed(s)
    ensures TrimSpace(s) == s
  {
  }

  lemma TrimSpaceEmptyIff(s: string)
    ensures TrimSpace(s) == "" <==> Blank(s)
  {
    var before, after := TrimSpaceMeaning(s);
    if TrimSpace(s) != "" {
      assert s[|before|] == TrimSpace(s)[0];
    }
  }

  // Lists in environment variables

  function Entry(): string -> seq<string>
  {
    (part: string) => if TrimSpace(part) == "" then [] else [TrimSpace(part)]
  }

  /** What a comma-separated list means; None is Go's nil. */
  function EntriesOf(s: string): Option<seq<string>>
  {
    NilIfEmpty(FlatMap(Entry(), Split(s, ',')))
  }

  function NilIfEmpty(entries: seq<string>): Option<seq<string>>
  {
    if entries == [] then None else Some(entries)
  }

  lemma NextEntry(parts: seq<string>, i: nat)
    requires i < |parts|
    ensures FlatMap(Entry(), parts[..i + 1]) ==
            FlatMap(Entry(), parts[..i]) + if TrimSpace(parts[i]) == "" then [] else [TrimSpace(parts[i])]
  {
    assert parts[..i + 1] == parts[..i] + [parts[i]];
    FlatMapConcat(Entry(), parts[..i], [parts[i]]);
    assert FlatMap(Entry(), [parts[i]]) == Entry()(parts[i]);
  }

  method SplitNonEmpty(s: string) returns (out: Option<seq<string>>)
    ensures out == EntriesOf(s)
  {
    out := None;
    if s == "" {
      return;
    }
    var parts := Split(s, ',');
    for i := 0 to |parts|
      invariant out == NilIfEmpty(FlatMap(Entry(), parts[..i]))
    {
      NextEntry(parts, i);
      assert FlatMap(Entry(), parts[..i]) + [] == FlatMap(Entry(), parts[..i]);
      var p := TrimSpace(parts[i]);
      if p != "" {
        out := Some((if out.None? then [] else out.value) + [p]);
      }
    }
    assert parts[..|parts|] == parts;
  }

  /** A name that survives a round trip through a list. */
  predicate Clean(name: string)
  {
    name != "" && Trimmed(name) && ',' !in name
  }

  lemma {:induction false} CleanEntries(names: seq<string>)
    requires forall n :: n in names ==> Clean(n)
    ensures FlatMap(Entry(), names) == names
  {
    if names != [] {
      assert names == [names[0]] + names[1..];
      assert names[0] in names && Clean(names[0]);
      TrimmedStays(names[0]);
      CleanEntries(names[1..]);
    }
  }

  lemma EntriesAreClean(s: string)
    requires EntriesOf(s).Some?
    ensures forall n :: n in EntriesOf(s).value ==> Clean(n)
  {
    var parts := Split(s, ',');
    SplitIsSeparable(s, ',');
    forall n | n in EntriesOf(s).value ensures Clean(n) {
      FlatMapMember(Entry(), parts, n);
      var i :| 0 <= i < |parts| && n in Entry()(parts[i]);
      var before, after := TrimSpaceMeaning(parts[i]);
      assert parts[i] in parts;
    }
  }

  /** Splitting the join of clean names returns them, and of no names nil. */
  lemma NamesRoundTrip(names: seq<string>)
    requires forall n :: n in names ==> Clean(n)
    ensures EntriesOf(Join(names, ',')) == if names == [] then None else Some(names)
  {
    CleanEntries(names);
    if names != [] {
      SplitJoin(names, ',');
    } else {
      TrimmedStays("");
    }
  }

  /** Joining what a split returned and splitting again returns the same. */
  lemma SplitIsStable(s: string)
    requires EntriesOf(s).Some?
    ensures EntriesOf(Join(EntriesOf(s).value, ',')) == EntriesOf(s)
  {
    EntriesAreClean(s);
    NamesRoundTrip(EntriesOf(s).value);
  }

  /** The split is nil exactly when the text holds nothing but commas and blanks. */
  lemma NilIff(s: string)
    ensures EntriesOf(s).None? <==> forall c :: c in s ==> c == ',' || IsSpace(c)
  {
    var parts := Split(s, ',');
    EmptyIff(parts);
    forall c | c != ',' ensures c in s <==> Occurs(c, parts) {
      OccursInParts(s, c);
    }
    SplitIsSeparable(s, ',');
    if c :| c in s && c != ',' && !IsSpace(c) {
      assert Occurs(c, parts);
    }
  }

  predicate Occurs(c: char, parts: seq<string>)
  {
    exists p :: p in parts && c in p
  }

  lemma OccursCons(c: char, p: string, parts: seq<string>)
    ensures Occurs(c, [p] + parts) <==> c in p || Occurs(c, parts)
  {
  }

  /** The parts together hold the characters of the text, but for the commas. */
  lemma {:induction false} OccursInParts(s: string, c: char)
    requires c != ','
    ensures c in s <==> Occurs(c, Split(s, ','))
  {
    if s != "" {
      var rest := Split(s[1..], ',');
      OccursInParts(s[1..], c);
      assert s == [s[0]] + s[1..];
      if s[0] == ',' {
        OccursCons(c, "", rest);
      } else {
        OccursCons(c, [s[0]] + rest[0], rest[1..]);
        OccursCons(c, rest[0], rest[1..]);
        assert rest == [rest[0]] + rest[1..];
      }
    }
  }

  lemma {:induction false} EmptyIff(parts: seq<string>)
    ensures FlatMap(Entry(), parts) == [] <==> forall p :: p in parts ==> Blank(p)
  {
    if parts != [] {
      TrimSpaceEmptyIff(parts[0]);
      EmptyIff(parts[1..]);
      assert parts == [parts[0]] + parts[1..];
    }
  }
}
