/** The .NET string operations the correlation code relies on, stated over `seq<char>`. */
module Strings {
  import opened Wrappers

  /** The characters `char.IsWhiteSpace` accepts: the Unicode space separators, the line and
      paragraph separators, U+0009 to U+000D and U+0085. */
  predicate IsWhiteSpace(c: char)
  {
    || c == ' '
    || '\t' <= c <= '\r'
    || c == '\U{85}'
    || c == '\U{A0}'
    || c == '\U{1680}'
    || '\U{2000}' <= c <= '\U{200A}'
    || c == '\U{2028}'
    || c == '\U{2029}'
    || c == '\U{202F}'
    || c == '\U{205F}'
    || c == '\U{3000}'
  }

  /** `string.IsNullOrWhiteSpace`: null, empty, or made of white space only. */
  predicate IsBlank(s: Option<string>)
  {
    s.None? || forall i :: 0 <= i < |s.value| ==> IsWhiteSpace(s.value[i])
  }

  /** Ordinal `StartsWith`. */
  predicate StartsWith(s: string, prefix: string)
  {
    prefix <= s
  }

  /** `sep` occurs in `s` starting at index `i`. */
  predicate OccursAt(s: string, sep: string, i: int)
  {
    0 <= i && i + |sep| <= |s| && s[i..i + |sep|] == sep
  }

  /** Ordinal `string.Contains(string)`. */
  predicate Contains(s: string, sep: string)
  {
    exists i | 0 <= i <= |s| :: OccursAt(s, sep, i)
  }

  /** Ordinal `string.IndexOf(sep, from)`: the first occurrence of `sep` at or after `from`. */
  function IndexOf(s: string, sep: string, from: nat): (r: Option<nat>)
    ensures r.Some? ==> from <= r.value && OccursAt(s, sep, r.value)
    ensures r.Some? ==> forall j :: from <= j < r.value ==> !OccursAt(s, sep, j)
    ensures r.None? ==> forall j :: from <= j ==> !OccursAt(s, sep, j)
    decreases |s| - from
  {
    if from + |sep| > |s| then None
    else if OccursAt(s, sep, from) then Some(from)
    else IndexOf(s, sep, from + 1)
  }

  /** An occurrence with none before it is the one `IndexOf` finds. */
  lemma IndexOfFirstOccurrence(s: string, sep: string, k: nat)
    requires OccursAt(s, sep, k)
    requires forall j :: 0 <= j < k ==> !OccursAt(s, sep, j)
    ensures IndexOf(s, sep, 0) == Some(k)
  {
  }

  /** `string.Split(sep)` with no options: cut at every occurrence of `sep`, scanning left to
      right, keeping empty pieces. */
  function Split(s: string, sep: string): (parts: seq<string>)
    requires |sep| > 0
    ensures 1 <= |parts|
    decreases |s|
  {
    match IndexOf(s, sep, 0)
    case None => [s]
    case Some(i) => [s[..i]] + Split(s[i + |sep|..], sep)
  }

  /** `Contains` holds exactly when `IndexOf` finds an occurrence. */
  lemma ContainsIffIndexOf(s: string, sep: string)
    ensures Contains(s, sep) <==> IndexOf(s, sep, 0).Some?
  {
    if IndexOf(s, sep, 0).Some? {
      assert OccursAt(s, sep, IndexOf(s, sep, 0).value);
    }
  }

  /** A split yields two pieces or more exactly when the separator occurs. */
  lemma SplitCutsIffContains(s: string, sep: string)
    requires |sep| > 0
    ensures Contains(s, sep) <==> 2 <= |Split(s, sep)|
  {
    ContainsIffIndexOf(s, sep);
  }

  /** No piece of a split contains the separator. */
  lemma {:induction false} SplitPiecesHaveNoSeparator(s: string, sep: string)
    requires |sep| > 0
    ensures forall k :: 0 <= k < |Split(s, sep)| ==> !Contains(Split(s, sep)[k], sep)
    decreases |s|
  {
    match IndexOf(s, sep, 0)
    case None =>
      ContainsIffIndexOf(s, sep);
    case Some(i) =>
      PrefixBeforeFirstHasNoSeparator(s, sep, i);
      SplitPiecesHaveNoSeparator(s[i + |sep|..], sep);
  }

  /** The first piece of a split is the text before the first separator, or all of it. */
  lemma SplitFirstPiece(s: string, sep: string)
    requires |sep| > 0
    ensures IndexOf(s, sep, 0).None? ==> Split(s, sep) == [s]
    ensures IndexOf(s, sep, 0).Some? ==> Split(s, sep)[0] == s[..IndexOf(s, sep, 0).value]
    ensures StartsWith(s, Split(s, sep)[0])
  {
  }

  /** After the first separator, splitting carries on over the rest of the text. */
  lemma SplitAfterFirst(s: string, sep: string, i: nat)
    requires |sep| > 0 && IndexOf(s, sep, 0) == Some(i)
    ensures Split(s, sep) == [s[..i]] + Split(s[i + |sep|..], sep)
  {
  }

  /** `string.Join(sep, parts)`. */
  function Join(parts: seq<string>, sep: string): string
    requires 1 <= |parts|
    decreases |parts|
  {
    if |parts| == 1 then parts[0] else parts[0] + sep + Join(parts[1..], sep)
  }

  /** The text before the first occurrence of a separator does not contain it. */
  lemma PrefixBeforeFirstHasNoSeparator(s: string, sep: string, i: nat)
    requires |sep| > 0 && IndexOf(s, sep, 0) == Some(i)
    ensures !Contains(s[..i], sep)
  {
    forall j | 0 <= j <= i && OccursAt(s[..i], sep, j)
      ensures false
    {
      assert i <= |s|;
      assert j + |sep| <= i;
      assert s[..i][j..j + |sep|] == s[j..j + |sep|];
      assert OccursAt(s, sep, j);
    }
  }

  /** Joining the pieces of a split with the same separator gives back the original text. */
  lemma {:induction false} JoinSplit(s: string, sep: string)
    requires |sep| > 0
    ensures Join(Split(s, sep), sep) == s
    decreases |s|
  {
    match IndexOf(s, sep, 0)
    case None =>
    case Some(i) =>
      var rest := s[i + |sep|..];
      JoinSplit(rest, sep);
      SplitAfterFirst(s, sep, i);
      JoinCons(s[..i], Split(rest, sep), sep);
      assert s == s[..i] + sep + rest;
  }

  /** Joining a piece in front of others puts the separator between them. */
  lemma JoinCons(x: string, ys: seq<string>, sep: string)
    requires 1 <= |ys|
    ensures Join([x] + ys, sep) == x + sep + Join(ys, sep)
  {
    assert ([x] + ys)[1..] == ys;
  }

  /** Ordinal prefixes compose: a prefix of a prefix of `s` is a prefix of `s`. */
  lemma StartsWithTransitive(s: string, q: string, p: string)
    requires StartsWith(s, q) && StartsWith(q, p)
    ensures StartsWith(s, p)
  {
  }

  /** A one-character needle occurs exactly when that character does. */
  lemma ContainsCharIff(s: string, c: char)
    ensures Contains(s, [c]) <==> c in s
  {
    if c in s {
      var i :| 0 <= i < |s| && s[i] == c;
      assert OccursAt(s, [c], i);
    }
    if Contains(s, [c]) {
      var i :| 0 <= i <= |s| && OccursAt(s, [c], i);
      assert s[i] == s[i..i + 1][0];
    }
  }
}
