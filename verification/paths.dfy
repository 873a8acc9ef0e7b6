/** Deriving a document's category from its file path. */
module Paths {
  import opened Strings

  /** The path separator (`path.sep` on POSIX systems). */
  const Sep: char := '/'

  const DocsSegment: string := "docs"

  /** The category of a path without one. */
  const UnknownCategory: string := "unknown"

  /** `parts.findIndex(p => p === x)`: the first index holding `x`, or -1. */
  function FirstIndexOf(parts: seq<string>, x: string): (r: int)
    ensures -1 <= r < |parts|
    ensures r == -1 <==> x !in parts
    ensures 0 <= r ==> parts[r] == x && x !in parts[..r]
    decreases |parts|
  {
    if parts == [] then -1
    else if parts[0] == x then 0
    else
      var k := FirstIndexOf(parts[1..], x);
      assert k >= 0 ==> parts[..k + 1] == [parts[0]] + parts[1..][..k];
      if k == -1 then -1 else k + 1
  }

  /** The path segment right after the first `docs` segment; "unknown" when
      there is no `docs` segment or it is the last one. */
  function CategoryFromPath(path: string): (c: string)
    ensures var parts := Split(path, Sep);
            && (DocsSegment !in parts[..|parts| - 1] ==> c == UnknownCategory)
            && (forall k :: 0 <= k < |parts| - 1 && parts[k] == DocsSegment && DocsSegment !in parts[..k]
                  ==> c == parts[k + 1])
  {
    var parts := Split(path, Sep);
    var docsIndex := FirstIndexOf(parts, DocsSegment);
    assert DocsSegment in parts[..|parts| - 1] ==> 0 <= docsIndex < |parts| - 1;
    if docsIndex != -1 && docsIndex < |parts| - 1 then parts[docsIndex + 1]
    else UnknownCategory
  }

  /** A path whose segments are known: the segment after the first `docs`
      is the category. */
  lemma CategoryOfSegments(parts: seq<string>, k: nat)
    requires Split(Join(parts, [Sep]), Sep) == parts
    requires k + 1 < |parts| && parts[k] == DocsSegment && DocsSegment !in parts[..k]
    ensures CategoryFromPath(Join(parts, [Sep])) == parts[k + 1]
  {
  }

  lemma SeparatorFree(prefix: seq<string>, c: string, rest: seq<string>)
    requires forall i :: 0 <= i < |prefix| ==> Sep !in prefix[i]
    requires forall i :: 0 <= i < |rest| ==> Sep !in rest[i]
    requires Sep !in c
    ensures var parts := prefix + [DocsSegment, c] + rest;
            forall i :: 0 <= i < |parts| ==> Sep !in parts[i]
  {
    var parts := prefix + [DocsSegment, c] + rest;
    forall i | 0 <= i < |parts| ensures Sep !in parts[i] {
      if i < |prefix| {
        assert parts[i] == prefix[i];
      } else if i >= |prefix| + 2 {
        assert parts[i] == rest[i - |prefix| - 2];
      }
    }
  }

  /** A path built as `<prefix>/docs/<c>/<rest>`, with no `docs` in the prefix,
      has category `c`. */
  lemma CategoryOfDocsPath(prefix: seq<string>, c: string, rest: seq<string>)
    requires DocsSegment !in prefix
    requires forall i :: 0 <= i < |prefix| ==> Sep !in prefix[i]
    requires forall i :: 0 <= i < |rest| ==> Sep !in rest[i]
    requires Sep !in c
    ensures CategoryFromPath(Join(prefix + [DocsSegment, c] + rest, [Sep])) == c
  {
    var parts := prefix + [DocsSegment, c] + rest;
    SeparatorFree(prefix, c, rest);
    SplitJoin(parts, Sep);
    assert parts[..|prefix|] == prefix;
    CategoryOfSegments(parts, |prefix|);
  }
}
