/**
 * The few java.lang.String operations the mapper relies on, with Java's
 * semantics: `indexOf`, `split(sep, 2)` (keeps a trailing empty piece),
 * `split(sep)` (drops trailing empty pieces) and `replace(c, "")`.
 * Separators are single characters, so the regular expressions the source
 * passes (":", "\\|", ",") match exactly one character.
 */
module JavaStrings {

  /** `s.indexOf(c)`: the position of the first `c`, or -1. */
  function IndexOf(s: string, c: char): (i: int)
    ensures -1 <= i < |s|
    ensures i == -1 <==> c !in s
    ensures 0 <= i ==> s[i] == c && c !in s[..i]
  {
    if s == [] then -1
    else if s[0] == c then 0
    else
      var j := IndexOf(s[1..], c);
      assert j >= 0 ==> s[..j + 1] == [s[0]] + s[1..][..j];
      if j == -1 then -1 else j + 1
  }

  /** The first separator of `a + [sep] + b` is the one after `a` when `a` has none. */
  lemma IndexOfAfter(a: string, sep: char, b: string)
    requires sep !in a
    ensures IndexOf(a + [sep] + b, sep) == |a|
  {
    var s := a + [sep] + b;
    var i := IndexOf(s, sep);
    assert s[|a|] == sep;
    IndexOfIsFirst(s, sep, |a|);
    assert forall k :: 0 <= k < |a| ==> s[k] == a[k];
  }

  /** No occurrence comes before the one `indexOf` reports. */
  lemma {:induction false} IndexOfIsFirst(s: string, c: char, k: int)
    requires 0 <= k < |s| && s[k] == c
    ensures 0 <= IndexOf(s, c) <= k
  {
    if s[0] != c {
      IndexOfIsFirst(s[1..], c, k - 1);
    }
  }

  /**
   * `s.split(sep, 2)`: cut at the first separator. With a positive limit Java
   * keeps a trailing empty piece, so `"foo:"` gives `["foo", ""]`; with no
   * separator the whole string is the only piece.
   */
  function SplitFirst(s: string, sep: char): (parts: seq<string>)
    ensures sep !in s ==> parts == [s]
    ensures sep in s ==> |parts| == 2 && s == parts[0] + [sep] + parts[1] && sep !in parts[0]
  {
    var i := IndexOf(s, sep);
    if i < 0 then [s] else [s[..i], s[i + 1..]]
  }

  /** Cutting is unique: a string built around its first separator splits back into its halves. */
  lemma SplitFirstOf(a: string, sep: char, b: string)
    requires sep !in a
    ensures SplitFirst(a + [sep] + b, sep) == [a, b]
  {
    var s := a + [sep] + b;
    IndexOfAfter(a, sep, b);
    assert s[..|a|] == a;
    assert s[|a| + 1..] == b;
  }

  /** The pieces joined back with `sep` between them. */
  function Join(parts: seq<string>, sep: char): string
  {
    if parts == [] then ""
    else if |parts| == 1 then parts[0]
    else parts[0] + [sep] + Join(parts[1..], sep)
  }

  /** Every piece between separators, empty ones included (Java's `split(sep, -1)`). */
  function Pieces(s: string, sep: char): (parts: seq<string>)
    ensures |parts| >= 1
    ensures forall k :: 0 <= k < |parts| ==> sep !in parts[k]
    ensures Join(parts, sep) == s
    decreases |s|
  {
    var i := IndexOf(s, sep);
    if i < 0 then [s]
    else
      var rest := Pieces(s[i + 1..], sep);
      assert s == s[..i] + [sep] + s[i + 1..];
      [s[..i]] + rest
  }

  /** The other direction of the round trip: joining separator-free pieces and cutting again gives them back. */
  lemma {:induction false} PiecesOfJoin(parts: seq<string>, sep: char)
    requires |parts| >= 1
    requires forall k :: 0 <= k < |parts| ==> sep !in parts[k]
    ensures Pieces(Join(parts, sep), sep) == parts
  {
    if |parts| > 1 {
      PiecesCons(parts[0], sep, Join(parts[1..], sep));
      PiecesOfJoin(parts[1..], sep);
      assert parts == [parts[0]] + parts[1..];
    }
  }

  /** Cutting `a + [sep] + b` gives `a`, then the pieces of `b`. */
  lemma PiecesCons(a: string, sep: char, b: string)
    requires sep !in a
    ensures Pieces(a + [sep] + b, sep) == [a] + Pieces(b, sep)
  {
    var s := a + [sep] + b;
    IndexOfAfter(a, sep, b);
    assert s[..|a|] == a;
    assert s[|a| + 1..] == b;
  }

  /** The pieces with every trailing empty string removed. */
  function DropTrailingEmpty(parts: seq<string>): (r: seq<string>)
    ensures |r| <= |parts| && r == parts[..|r|]
    ensures r == [] || r[|r| - 1] != ""
    ensures forall k :: |r| <= k < |parts| ==> parts[k] == ""
  {
    if parts == [] || parts[|parts| - 1] != "" then parts
    else DropTrailingEmpty(parts[..|parts| - 1])
  }

  /**
   * `s.split(sep)` (limit 0): when `sep` does not occur the result is `[s]`
   * (so `""` gives `[""]`); otherwise all pieces with trailing empty strings
   * removed, so `"320|ms|"` gives two pieces and `"|||"` none.
   */
  function Split(s: string, sep: char): (parts: seq<string>)
    ensures sep !in s ==> parts == [s]
    ensures forall k :: 0 <= k < |parts| ==> sep !in parts[k]
    ensures |parts| == 0 ==> forall k :: 0 <= k < |s| ==> s[k] == sep
    ensures s != "" && |parts| >= 1 ==> parts[|parts| - 1] != ""
  {
    if sep !in s then [s]
    else
      var all := Pieces(s, sep);
      var kept := DropTrailingEmpty(all);
      if kept == [] then
        AllEmptyJoin(all, sep);
        kept
      else kept
  }

  /** Joining only empty pieces leaves nothing but separators. */
  lemma {:induction false} AllEmptyJoin(parts: seq<string>, sep: char)
    requires forall k :: 0 <= k < |parts| ==> parts[k] == ""
    ensures forall k :: 0 <= k < |Join(parts, sep)| ==> Join(parts, sep)[k] == sep
  {
    if |parts| > 1 {
      AllEmptyJoin(parts[1..], sep);
    }
  }

  /** Appending an empty piece appends one separator. */
  lemma {:induction false} JoinSnocEmpty(parts: seq<string>, sep: char)
    requires |parts| >= 1
    ensures Join(parts + [""], sep) == Join(parts, sep) + [sep]
  {
    if |parts| > 1 {
      JoinSnocEmpty(parts[1..], sep);
      assert (parts + [""])[1..] == parts[1..] + [""];
    }
  }

  /**
   * What `split` loses is only trailing separators: the kept pieces, joined
   * back, are a prefix of the input and every character after it is `sep`.
   */
  lemma SplitLosesOnlyTrailingSeparators(s: string, sep: char)
    ensures Join(Split(s, sep), sep) <= s
    ensures forall k :: |Join(Split(s, sep), sep)| <= k < |s| ==> s[k] == sep
  {
    if sep in s {
      var all := Pieces(s, sep);
      var kept := DropTrailingEmpty(all);
      if kept != [] {
        TrailingEmptyJoin(kept, all, sep);
      }
    }
  }

  /** Joining a non-empty prefix followed by empty pieces adds one separator per empty piece. */
  lemma {:induction false} TrailingEmptyJoin(kept: seq<string>, all: seq<string>, sep: char)
    requires |kept| >= 1 && |kept| <= |all| && kept == all[..|kept|]
    requires forall k :: |kept| <= k < |all| ==> all[k] == ""
    ensures Join(kept, sep) <= Join(all, sep)
    ensures forall k :: |Join(kept, sep)| <= k < |Join(all, sep)| ==> Join(all, sep)[k] == sep
    decreases |all|
  {
    if |all| > |kept| {
      var shorter := all[..|all| - 1];
      TrailingEmptyJoin(kept, shorter, sep);
      assert all == shorter + [""];
      JoinSnocEmpty(shorter, sep);
    } else {
      assert kept == all;
    }
  }

  /** Separator-free pieces whose last one is not empty split back exactly. */
  lemma SplitOfJoin(parts: seq<string>, sep: char)
    requires |parts| >= 1 && parts[|parts| - 1] != ""
    requires forall k :: 0 <= k < |parts| ==> sep !in parts[k]
    ensures Split(Join(parts, sep), sep) == parts
  {
    var s := Join(parts, sep);
    if |parts| > 1 {
      assert s == parts[0] + [sep] + Join(parts[1..], sep);
      assert s[|parts[0]|] == sep;
      PiecesOfJoin(parts, sep);
    } else {
      assert s == parts[0];
    }
  }

  /** `s.replace(String.valueOf(c), "")`: every `c` removed, everything else kept in order. */
  function RemoveAll(s: string, c: char): (r: string)
    ensures c !in r
    ensures |r| <= |s|
  {
    if s == [] then []
    else (if s[0] == c then [] else [s[0]]) + RemoveAll(s[1..], c)
  }

  /** Apart from `c`, the characters of the result are those of the input, each as often. */
  lemma {:induction false} RemoveAllKeepsOthers(s: string, c: char)
    ensures multiset(RemoveAll(s, c)) == multiset(s)[c := 0]
  {
    if s != [] {
      var head := if s[0] == c then [] else [s[0]];
      var rest := RemoveAll(s[1..], c);
      RemoveAllKeepsOthers(s[1..], c);
      assert RemoveAll(s, c) == head + rest;
      assert s == [s[0]] + s[1..];
      ClearSplits(multiset([s[0]]), multiset(s[1..]), c);
      assert multiset([s[0]])[c := 0] == multiset(head);
    }
  }

  /** Clearing the count of `c` in a union clears it in each part. */
  lemma ClearSplits(m1: multiset<char>, m2: multiset<char>, c: char)
    ensures (m1 + m2)[c := 0] == m1[c := 0] + m2[c := 0]
  {
  }

  /** Removing from a concatenation removes from each part and keeps the parts in order. */
  lemma {:induction false} RemoveAllAppend(a: string, b: string, c: char)
    ensures RemoveAll(a + b, c) == RemoveAll(a, c) + RemoveAll(b, c)
  {
    if a != [] {
      assert (a + b)[0] == a[0];
      assert (a + b)[1..] == a[1..] + b;
      RemoveAllAppend(a[1..], b, c);
    } else {
      assert a + b == b;
    }
  }

  /** One character on its own: removed when it is `c`, kept otherwise. */
  lemma RemoveAllOne(x: char, c: char)
    ensures RemoveAll([x], c) == if x == c then [] else [x]
  {
    assert [x][1..] == [];
  }

  /** With nothing to remove, `replace` is the identity. */
  lemma {:induction false} RemoveAbsent(s: string, c: char)
    requires c !in s
    ensures RemoveAll(s, c) == s
  {
    if s != [] {
      RemoveAbsent(s[1..], c);
      assert s == [s[0]] + s[1..];
    }
  }
}
