/** `SuperCustomOperationContextConverter`: the legacy encoding that packs the operation id
    and its parent into one OperationId property as "id//parentId". */
module SuperCustomOperationContextConverter {
  import opened Wrappers
  import opened Strings
  import opened Telemetry

  const Separator: string := "//"

  /** The operation id and parent id packed in a value: `Split("//")[0]` and `[1]` when the
      value contains "//", else the whole value and "". The id is the text before the first
      "//" and the parent id the text from there up to the next "//" or the end; neither
      holds "//", and the value starts with them joined by "//". */
  function SplitOperationId(value: string): (r: (string, string))
    ensures !Contains(value, Separator) ==> r == (value, "")
    ensures Contains(value, Separator) ==>
      && !Contains(r.0, Separator)
      && !Contains(r.1, Separator)
      && StartsWith(value, r.0 + Separator + r.1)
    ensures Contains(value, Separator) ==>
      && IndexOf(value, Separator, 0).Some?
      && r.0 == value[..IndexOf(value, Separator, 0).value]
      && r.1 == Split(value[IndexOf(value, Separator, 0).value + 2..], Separator)[0]
  {
    if Contains(value, Separator) then
      ContainsIffIndexOf(value, Separator);
      SplitAfterFirst(value, Separator, IndexOf(value, Separator, 0).value);
      SplitCutsIffContains(value, Separator);
      SplitPiecesHaveNoSeparator(value, Separator);
      PackedPrefix(value);
      var parts := Split(value, Separator);
      (parts[0], parts[1])
    else (value, "")
  }

  /** The first two pieces of a split, joined by "//", begin the value. */
  lemma PackedPrefix(value: string)
    requires Contains(value, Separator)
    ensures 2 <= |Split(value, Separator)|
    ensures StartsWith(value, Split(value, Separator)[0] + Separator + Split(value, Separator)[1])
  {
    ContainsIffIndexOf(value, Separator);
    var i := IndexOf(value, Separator, 0).value;
    SplitAfterFirst(value, Separator, i);
    SplitFirstPiece(value[i + 2..], Separator);
    JoinedPrefix(value, i, Split(value[i + 2..], Separator)[0]);
  }

  /** If "//" occurs at `i` and `p` begins what follows it, then the text before `i`, "//"
      and `p` begin the value. */
  lemma JoinedPrefix(value: string, i: nat, p: string)
    requires OccursAt(value, Separator, i)
    requires StartsWith(value[i + 2..], p)
    ensures StartsWith(value, value[..i] + Separator + p)
  {
    assert value == value[..i] + Separator + value[i + 2..];
    PrefixAfter(value[..i] + Separator, p, value[i + 2..]);
  }

  /** Putting the same text in front keeps a prefix a prefix. */
  lemma PrefixAfter(x: string, y: string, z: string)
    requires StartsWith(z, y)
    ensures StartsWith(x + z, x + y)
  {
    assert (x + z)[..|x + y|] == x + y;
  }

  /** `EnrichWithCorrelationInfo`. An entry without an operation context, or without an
      OperationId property, is returned as is; otherwise the property is split and both the
      operation id and the parent id are overwritten, the parent possibly with "". */
  function EnrichWithCorrelationInfo(names: ContextNames, t: TelemetryItem): (r: TelemetryItem)
    ensures t.operation.None? ==> r == t
    ensures names.operationId !in t.properties ==> r == t
    ensures r.kind == t.kind && r.name == t.name && r.properties == t.properties
    ensures t.operation.Some? && names.operationId in t.properties ==>
      var value := t.properties[names.operationId];
      && r.operation.Some?
      && r.operation.value.name == t.operation.value.name
      && (!Contains(value, Separator) ==> r.operation.value.id == Some(value) && r.operation.value.parentId == Some(""))
      && (Contains(value, Separator) ==>
            && r.operation.value.id == Some(SplitOperationId(value).0)
            && r.operation.value.parentId == Some(SplitOperationId(value).1))
  {
    match t.operation
    case None => t
    case Some(op) =>
      if names.operationId !in t.properties then t
      else
        var ids := SplitOperationId(t.properties[names.operationId]);
        t.(operation := Some(op.(id := Some(ids.0), parentId := Some(ids.1))))
  }

  /** The first "//" of `a + rest` is where `rest` starts, when `a` has no "//", does not end
      in '/', and `rest` starts with "//". */
  lemma FirstSeparatorAfter(a: string, rest: string)
    requires !Contains(a, Separator)
    requires |a| == 0 || a[|a| - 1] != '/'
    requires StartsWith(rest, Separator)
    ensures IndexOf(a + rest, Separator, 0) == Some(|a|)
  {
    var v := a + rest;
    assert v[|a|..|a| + 2] == rest[..2];
    forall j | 0 <= j < |a|
      ensures !OccursAt(v, Separator, j)
    {
      NoSeparatorInside(a, rest, j);
    }
    IndexOfFirstOccurrence(v, Separator, |a|);
  }

  /** No "//" of `a + rest` starts inside `a`, when `a` has none and does not end in '/'. */
  lemma NoSeparatorInside(a: string, rest: string, j: nat)
    requires !Contains(a, Separator)
    requires |a| == 0 || a[|a| - 1] != '/'
    requires j < |a|
    ensures !OccursAt(a + rest, Separator, j)
  {
    var v := a + rest;
    if j + 2 <= |a| {
      assert v[j..j + 2] == a[j..j + 2];
      assert !OccursAt(a, Separator, j);
    } else if j + 2 <= |v| {
      assert v[j..j + 2][0] == v[j] == a[|a| - 1];
    }
  }

  /** Splitting "a//rest" gives `a` and the first piece of `rest`, when `a` has no "//" and
      does not end in '/'. */
  lemma PackedSplit(a: string, rest: string)
    requires !Contains(a, Separator)
    requires |a| == 0 || a[|a| - 1] != '/'
    ensures SplitOperationId(a + Separator + rest) == (a, Split(rest, Separator)[0])
  {
    var v := a + Separator + rest;
    assert v == a + (Separator + rest);
    FirstSeparatorAfter(a, Separator + rest);
    assert OccursAt(v, Separator, |a|);
    assert v[|a| + 2..] == rest;
    SplitAfterFirst(v, Separator, |a|);
  }

  /** Round trip: packing two ids with "//" and splitting gives them back, when neither holds
      "//" and the first does not end in '/'. */
  lemma {:induction false} SplitRoundTrip(a: string, b: string)
    requires !Contains(a, Separator) && !Contains(b, Separator)
    requires |a| == 0 || a[|a| - 1] != '/'
    ensures SplitOperationId(a + Separator + b) == (a, b)
  {
    PackedSplit(a, b);
    ContainsIffIndexOf(b, Separator);
    SplitFirstPiece(b, Separator);
  }

  /** Segments after the second "//" are dropped. */
  lemma {:induction false} LaterSegmentsDropped(a: string, b: string, c: string)
    requires !Contains(a, Separator) && !Contains(b, Separator)
    requires |a| == 0 || a[|a| - 1] != '/'
    requires |b| == 0 || b[|b| - 1] != '/'
    ensures SplitOperationId(a + Separator + b + Separator + c) == (a, b)
  {
    var rest := b + Separator + c;
    assert a + Separator + b + Separator + c == a + Separator + rest;
    PackedSplit(a, rest);
    SecondPieceBeforeNextSeparator(b, c);
  }

  /** The first piece of "b//c" is `b`, when `b` has no "//" and does not end in '/'. */
  lemma SecondPieceBeforeNextSeparator(b: string, c: string)
    requires !Contains(b, Separator)
    requires |b| == 0 || b[|b| - 1] != '/'
    ensures Split(b + Separator + c, Separator)[0] == b
  {
    assert b + Separator + c == b + (Separator + c);
    FirstSeparatorAfter(b, Separator + c);
    SplitFirstPiece(b + Separator + c, Separator);
  }

  /** A text with no two '/' in a row holds no "//". */
  lemma NoDoubleSlash(s: string)
    requires forall i :: 0 <= i < |s| - 1 ==> s[i] != '/' || s[i + 1] != '/'
    ensures !Contains(s, Separator)
  {
    forall i | 0 <= i <= |s|
      ensures !OccursAt(s, Separator, i)
    {
      if i + 2 <= |s| {
        assert s[i..i + 2][0] == s[i] && s[i..i + 2][1] == s[i + 1];
      }
    }
  }

  /** Without the trailing-'/' condition the round trip fails: "x/" and "y" hold no "//",
      yet "x/" + "//" + "y" splits as ("x", "/y"). */
  lemma TrailingSlashBreaksRoundTrip()
    ensures !Contains("x/", Separator) && !Contains("y", Separator)
    ensures SplitOperationId("x/" + Separator + "y") == ("x", "/y")
  {
    NoDoubleSlash("x/");
    NoDoubleSlash("y");
    NoDoubleSlash("x");
    NoDoubleSlash("/y");
    assert "x/" + Separator + "y" == "x" + Separator + "/y";
    SplitRoundTrip("x", "/y");
  }

  /** Once an OperationId property is present, an OperationParentId property has no effect:
      the parent id comes from the packed value alone. */
  lemma ParentPropertyIgnored(names: ContextNames, t: TelemetryItem, parent: string)
    requires t.operation.Some? && names.operationId in t.properties
    requires names.operationParentId != names.operationId
    ensures var u := t.(properties := t.properties[names.operationParentId := parent]);
      EnrichWithCorrelationInfo(names, u).operation == EnrichWithCorrelationInfo(names, t).operation
  {
  }

  /** Enriching an enriched entry gives the same operation ids, since the properties are
      not changed. */
  lemma EnrichIdempotent(names: ContextNames, t: TelemetryItem)
    ensures EnrichWithCorrelationInfo(names, EnrichWithCorrelationInfo(names, t)) == EnrichWithCorrelationInfo(names, t)
  {
  }
}
