/**
 * String helpers shared by every page: ASCII case mapping (the model of
 * `toLowerCase` / `toUpperCase`), substring search (`includes`, `indexOf`),
 * and the `split` / `join` pair used to take a pathname apart.
 */
module Text {

  /** `toLowerCase` restricted to ASCII: 'A'..'Z' map to 'a'..'z', all else is kept. */
  function LowerChar(c: char): char
  {
    if 'A' <= c <= 'Z' then (c as int + 32) as char else c
  }

  /** `toUpperCase` restricted to ASCII: 'a'..'z' map to 'A'..'Z', all else is kept. */
  function UpperChar(c: char): char
  {
    if 'a' <= c <= 'z' then (c as int - 32) as char else c
  }

  /** Lower-cases a whole string character by character. */
  function Lower(s: string): (r: string)
    ensures |r| == |s|
    ensures forall i :: 0 <= i < |s| ==> r[i] == LowerChar(s[i])
  {
    seq(|s|, i requires 0 <= i < |s| => LowerChar(s[i]))
  }

  /** `needle` sits in `hay` starting at index `k`. */
  predicate OccursAt(hay: string, needle: string, k: int)
  {
    0 <= k && k + |needle| <= |hay| && hay[k..k + |needle|] == needle
  }

  /** An occurrence at k + 1 in `hay` is an occurrence at k in `hay[1..]`. */
  lemma OccursShift(hay: string, needle: string, k: int)
    requires |hay| > 0 && 0 <= k
    ensures OccursAt(hay[1..], needle, k) <==> OccursAt(hay, needle, k + 1)
  {
    if 0 <= k && k + |needle| <= |hay| - 1 {
      assert hay[1..][k..k + |needle|] == hay[k + 1..k + 1 + |needle|];
    }
  }

  lemma ContainsStep(hay: string, needle: string)
    requires |hay| > 0 && !OccursAt(hay, needle, 0)
    ensures (exists k :: OccursAt(hay, needle, k)) <==> (exists k :: OccursAt(hay[1..], needle, k))
  {
    if k :| OccursAt(hay, needle, k) {
      OccursShift(hay, needle, k - 1);
      assert OccursAt(hay[1..], needle, k - 1);
    }
    if k :| OccursAt(hay[1..], needle, k) {
      OccursShift(hay, needle, k);
    }
  }

  /**
   * JavaScript's `hay.includes(needle)` (equivalently `hay.indexOf(needle) !== -1`):
   * true exactly when `needle` occurs somewhere in `hay`. The empty needle
   * occurs everywhere, also in the empty string.
   */
  function Contains(hay: string, needle: string): (b: bool)
    ensures b <==> exists k :: OccursAt(hay, needle, k)
    decreases |hay|
  {
    if |needle| > |hay| then false
    else if hay[..|needle|] == needle then
      assert OccursAt(hay, needle, 0);
      true
    else
      ContainsStep(hay, needle);
      Contains(hay[1..], needle)
  }

  /** The empty query is found in every string; every string is found in itself. */
  lemma {:induction false} ContainsTrivial(s: string)
    ensures Contains(s, "")
    ensures Contains(s, s)
  {
    assert OccursAt(s, "", 0);
    assert OccursAt(s, s, 0);
  }

  /** A letter absent from `s` in both cases is absent from its lower-cased form. */
  lemma LowerLacks(s: string, c: char)
    requires 'a' <= c <= 'z' && c !in s && UpperChar(c) !in s
    ensures c !in Lower(s)
  {
    forall i | 0 <= i < |s| ensures Lower(s)[i] != c {
      assert s[i] != c && s[i] != UpperChar(c);
    }
  }

  /** A needle with a character the haystack lacks cannot occur in it. */
  lemma MissingCharExcludes(hay: string, needle: string, j: nat)
    requires j < |needle| && needle[j] !in hay
    ensures !Contains(hay, needle)
  {
    forall k | 0 <= k && k + |needle| <= |hay|
      ensures !OccursAt(hay, needle, k)
    {
      assert hay[k..k + |needle|][j] == hay[k + j];
    }
  }

  /** `field.toLowerCase().includes(query.toLowerCase())`: the search rule of every list page. */
  function MatchesIgnoringCase(field: string, query: string): (b: bool)
    ensures b <==> exists k :: OccursAt(Lower(field), Lower(query), k)
  {
    Contains(Lower(field), Lower(query))
  }

  /** An empty search box matches every field. */
  lemma EmptyQueryMatches(field: string)
    ensures MatchesIgnoringCase(field, "")
  {
    assert Lower("") == "";
    ContainsTrivial(Lower(field));
  }

  /** `parts.join(sep)`: the pieces in order with one `sep` between each two. */
  function Join(parts: seq<string>, sep: char): string
  {
    if |parts| == 0 then ""
    else if |parts| == 1 then parts[0]
    else parts[0] + [sep] + Join(parts[1..], sep)
  }

  /**
   * A join starts with its first piece and, when no piece holds the
   * separator, holds exactly one separator fewer than there are pieces.
   */
  lemma {:induction false} JoinCountsSeparators(parts: seq<string>, sep: char)
    requires |parts| >= 1
    requires forall i :: 0 <= i < |parts| ==> sep !in parts[i]
    ensures parts[0] <= Join(parts, sep)
    ensures multiset(Join(parts, sep))[sep] == |parts| - 1
  {
    if |parts| >= 2 {
      JoinCountsSeparators(parts[1..], sep);
      var rest := Join(parts[1..], sep);
      assert Join(parts, sep) == parts[0] + [sep] + rest;
      assert multiset(parts[0] + [sep] + rest) == multiset(parts[0]) + multiset([sep]) + multiset(rest);
      assert multiset(parts[0])[sep] == 0;
    } else {
      assert multiset(parts[0])[sep] == 0;
    }
  }

  /**
   * JavaScript's `s.split(sep)` for a one-character separator: the maximal
   * pieces between separators, empty pieces included, so there is always one
   * piece more than there are separators (`"".split("/")` is `[""]`).
   */
  function Split(s: string, sep: char): (parts: seq<string>)
    ensures |parts| >= 1
    ensures forall i :: 0 <= i < |parts| ==> sep !in parts[i]
    ensures Join(parts, sep) == s
    decreases |s|
  {
    if |s| == 0 then [""]
    else if s[0] == sep then [""] + Split(s[1..], sep)
    else
      var rest := Split(s[1..], sep);
      [[s[0]] + rest[0]] + rest[1..]
  }

  /** Splitting a join of separator-free pieces gives the pieces back. */
  lemma {:induction false} SplitJoin(parts: seq<string>, sep: char)
    requires |parts| >= 1
    requires forall i :: 0 <= i < |parts| ==> sep !in parts[i]
    ensures Split(Join(parts, sep), sep) == parts
  {
    if |parts| == 1 {
      SplitLone(parts[0], sep);
      assert parts == [parts[0]];
    } else {
      SplitJoin(parts[1..], sep);
      SplitPiece(parts[0], sep, parts[1..]);
    }
  }

  /** A separator-free text splits into itself alone. */
  lemma {:induction false} SplitLone(piece: string, sep: char)
    requires sep !in piece
    ensures Split(piece, sep) == [piece]
    decreases |piece|
  {
    if |piece| > 0 {
      SplitLone(piece[1..], sep);
      assert [piece[0]] + piece[1..] == piece;
    }
  }

  /** A separator-free piece in front of `[sep] + Join(rest)` splits off as one piece. */
  lemma {:induction false} SplitPiece(piece: string, sep: char, rest: seq<string>)
    requires sep !in piece
    requires |rest| >= 1 && Split(Join(rest, sep), sep) == rest
    ensures Split(piece + [sep] + Join(rest, sep), sep) == [piece] + rest
    decreases |piece|
  {
    var s := piece + [sep] + Join(rest, sep);
    if |piece| == 0 {
      assert s == [sep] + Join(rest, sep);
      assert s[1..] == Join(rest, sep);
    } else {
      SplitPiece(piece[1..], sep, rest);
      assert s[1..] == piece[1..] + [sep] + Join(rest, sep);
      assert [piece[0]] + piece[1..] == piece;
    }
  }

  /** The first index of `c` in `s`, as `indexOf`: -1 when absent. */
  function IndexOf(s: string, c: char): (i: int)
    ensures -1 <= i < |s|
    ensures i == -1 <==> c !in s
    ensures 0 <= i ==> s[i] == c && c !in s[..i]
  {
    if |s| == 0 then -1
    else if s[0] == c then 0
    else
      var j := IndexOf(s[1..], c);
      if j == -1 then -1
      else
        assert s[..j + 1] == [s[0]] + s[1..][..j];
        j + 1
  }

  /**
   * `s.replace(from, to)` with a one-character string pattern: only the FIRST
   * occurrence is replaced; a string without `from` is returned unchanged.
   */
  function ReplaceFirst(s: string, from: char, to: char): (r: string)
    ensures |r| == |s|
    ensures from !in s ==> r == s
    ensures from in s ==> r == s[IndexOf(s, from) := to]
  {
    if |s| == 0 then s
    else if s[0] == from then [to] + s[1..]
    else [s[0]] + ReplaceFirst(s[1..], from, to)
  }

  /** `s.charAt(0).toUpperCase() + s.slice(1)`. */
  function Capitalize(s: string): (r: string)
    ensures |r| == |s|
    ensures |s| > 0 ==> r[0] == UpperChar(s[0])
    ensures forall i :: 0 < i < |s| ==> r[i] == s[i]
  {
    if |s| == 0 then "" else [UpperChar(s[0])] + s[1..]
  }

  /** Capitalising changes at most the first character, and only its case. */
  lemma CapitalizeKeepsLetters(s: string)
    ensures |Capitalize(s)| == |s|
    ensures |s| > 0 ==> Capitalize(s)[1..] == s[1..]
    ensures Lower(Capitalize(s)) == Lower(s)
    ensures Capitalize(Capitalize(s)) == Capitalize(s)
    ensures |s| > 0 ==> !('a' <= Capitalize(s)[0] <= 'z')
    ensures |s| > 0 && 'a' <= s[0] <= 'z' ==> Capitalize(s)[0] != s[0]
  {
    if |s| > 0 {
      assert Capitalize(s)[1..] == s[1..];
      assert forall i :: 0 <= i < |s| ==> Lower(Capitalize(s))[i] == Lower(s)[i];
    }
  }

}
