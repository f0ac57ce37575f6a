/** The parser of ARM identifiers (operator/internal/cloud/azure/egress.go). */
module Arm {
  import opened Text

  /** Simple case folding, for comparison with an ASCII text without a k: besides the capital letters the long s
      folds into ASCII. */
  function Fold(c: char): char
  {
    if 'A' <= c <= 'Z' then ((c as int) - ('A' as int) + ('a' as int)) as char
    else if c as int == 0x17F then 's'
    else c
  }

  /** Equality under case folding, of any text with an ASCII one. */
  predicate EqualFold(s: string, ascii: string)
  {
    |s| == |ascii| && forall i :: 0 <= i < |s| ==> Fold(s[i]) == Fold(ascii[i])
  }

  const RESOURCE_GROUPS := "resourceGroups"

  /** The segment after the last but one or earlier "resourceGroups" among the first `n` segments. */
  function GroupAfter(parts: seq<string>, n: nat): string
    requires n <= |parts|
  {
    if n == 0 then ""
    else if EqualFold(parts[n - 1], RESOURCE_GROUPS) && n < |parts| then parts[n]
    else GroupAfter(parts, n - 1)
  }

  /** Takes the segment after the last "resourceGroups" that has one, and the last segment. */
  method GroupAndName(id: string) returns (group: string, name: string)
    ensures var parts := Split(id, '/');
            group == GroupAfter(parts, |parts|) && name == parts[|parts| - 1]
  {
    var parts := Split(id, '/');
    group := "";
    for i := 0 to |parts|
      invariant group == GroupAfter(parts, i)
    {
      if EqualFold(parts[i], RESOURCE_GROUPS) && i + 1 < |parts| {
        group := parts[i + 1];
      }
    }
    name := parts[|parts| - 1];
  }

  /** A "resourceGroups" segment with a segment after it. */
  predicate Marks(parts: seq<string>, i: int)
  {
    0 <= i < |parts| - 1 && EqualFold(parts[i], RESOURCE_GROUPS)
  }

  /** The group is empty if nothing marks it (`last` is -1), and otherwise follows the last mark. */
  lemma {:induction false} GroupFollowsLastMark(parts: seq<string>, n: nat, last: int)
    requires n <= |parts|
    requires last == -1 || (last < n && Marks(parts, last))
    requires forall j :: Marks(parts, j) && j < n ==> j <= last
    ensures GroupAfter(parts, n) == if last == -1 then "" else parts[last + 1]
  {
    if n > 0 && last != n - 1 {
      assert !Marks(parts, n - 1);
      GroupFollowsLastMark(parts, n - 1, last);
    }
  }

  /** The text is "resourceGroups" but for the case of its letters; a long s is an s in another case. */
  predicate Respells(s: string)
  {
    && |s| == 14
    && forall i :: 0 <= i < 14 ==>
         var c := "resourceGroups"[i] as int;
         || s[i] as int == c
         || ('a' as int <= c <= 'z' as int && s[i] as int == c - 32)
         || ('A' as int <= c <= 'Z' as int && s[i] as int == c + 32)
         || (c == 's' as int && s[i] as int == 0x17F)
  }

  lemma FoldsOntoIff(c: char, letter: char)
    requires 'a' <= letter <= 'z' || 'A' <= letter <= 'Z'
    requires letter != 'k' && letter != 'K' && letter != 'S'
    ensures Fold(c) == Fold(letter) <==>
            || c == letter
            || ('a' <= letter <= 'z' && c as int == letter as int - 32)
            || ('A' <= letter <= 'Z' && c as int == letter as int + 32)
            || (letter == 's' && c as int == 0x17F)
  {
  }

  lemma EqualFoldIff(s: string)
    ensures EqualFold(s, RESOURCE_GROUPS) <==> Respells(s)
  {
    assert |RESOURCE_GROUPS| == 14;
    if |s| == 14 {
      forall i | 0 <= i < 14
        ensures var letter := RESOURCE_GROUPS[i];
                Fold(s[i]) == Fold(letter) <==>
                || s[i] == letter
                || ('a' <= letter <= 'z' && s[i] as int == letter as int - 32)
                || ('A' <= letter <= 'Z' && s[i] as int == letter as int + 32)
                || (letter == 's' && s[i] as int == 0x17F)
      {
        FoldsOntoIff(s[i], RESOURCE_GROUPS[i]);
      }
    }
  }

  /** `marker` is the segment in front of the group. */
  function VNetSegments(subscription: string, marker: string, group: string, name: string): seq<string>
  {
    ["", "subscriptions", subscription, marker, group, "providers", "Microsoft.Network", "virtualNetworks", name]
  }

  /** The identifier of a virtual network:
      /subscriptions/.../resourceGroups/.../providers/Microsoft.Network/virtualNetworks/... */
  function VNetId(subscription: string, marker: string, group: string, name: string): string
  {
    Join(VNetSegments(subscription, marker, group, name), '/')
  }

  /** Parsing an identifier returns its group and name, in whatever case "resourceGroups" is written, exactly
      when the group is not itself called that in some case; if it is, the parser takes the segment after
      it. The subscription and the name may be called anything. */
  lemma ParsesVNetIdIff(subscription: string, marker: string, group: string, name: string)
    requires '/' !in subscription && '/' !in group && '/' !in name && '/' !in marker && Respells(marker)
    ensures var parts := Split(VNetId(subscription, marker, group, name), '/');
            && parts[|parts| - 1] == name
            && GroupAfter(parts, |parts|) == (if Respells(group) then "providers" else group)
            && (GroupAfter(parts, |parts|) == group <==> !Respells(group))
  {
    SplitJoin(VNetSegments(subscription, marker, group, name), '/');
    var parts := VNetSegments(subscription, marker, group, name);
    assert |"providers"| == 9 && |RESOURCE_GROUPS| == 14;
    EqualFoldIff(marker);
    EqualFoldIff(group);
    assert !Marks(parts, 8) && !Marks(parts, 7) && !Marks(parts, 6) && !Marks(parts, 5) && Marks(parts, 3);
    assert Marks(parts, 4) <==> Respells(group);
    GroupFollowsLastMark(parts, 9, if Respells(group) then 4 else 3);
  }

  /** So in lower case. */
  lemma ParsesLowerCase(subscription: string, group: string, name: string)
    requires '/' !in subscription && '/' !in group && '/' !in name && |group| != 14
    ensures var parts := Split(VNetId(subscription, "resourcegroups", group, name), '/');
            parts[|parts| - 1] == name && GroupAfter(parts, |parts|) == group
  {
    ParsesVNetIdIff(subscription, "resourcegroups", group, name);
  }
}
