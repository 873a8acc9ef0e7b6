/** Properties of a whole validation run over one document, relating the
    separate checks of the validator to each other. */
module ValidatorProperties {
  import opened Results
  import opened JsValues
  import opened Schemas
  import opened Validator

  /** A category without a schema: one warning, no error, and no check reads
      the front matter. */
  lemma UnknownCategoryIgnoresFrontMatter(category: string, fm1: FrontMatter, fm2: FrontMatter)
    requires SchemaFor(category).None?
    ensures ValidateFrontMatter(category, fm1) == ValidateFrontMatter(category, fm2)
    ensures |ValidateFrontMatter(category, fm1).errors| == 0
    ensures |ValidateFrontMatter(category, fm1).warnings| == 1
  {
  }

  /** Messages of the three kinds of error start with different characters. */
  lemma ErrorKindsDistinct(f: string, k: EnumField, v: Value, m: string)
    ensures MissingField(f) != InvalidValue(k, v)
    ensures MissingField(f) != ParseFailure(m)
  {
    assert MissingField(f)[0] == '缺';
    assert InvalidValue(k, v)[0] == '无';
    assert ParseFailure(m)[0] == '解';
  }

  lemma EnumErrorNotMissingField(k: EnumField, s: Schema, fm: FrontMatter, f: string)
    ensures MissingField(f) !in EnumError(k, s, fm)
  {
    if EnumError(k, s, fm) != [] {
      ErrorKindsDistinct(f, k, fm[k.Key()], "");
    }
  }

  lemma EnumErrorsNotMissingField(s: Schema, fm: FrontMatter, f: string)
    ensures multiset(EnumErrors(s, fm))[MissingField(f)] == 0
  {
    var d, p, st := EnumError(Difficulty, s, fm), EnumError(ProjectType, s, fm), EnumError(Status, s, fm);
    EnumErrorNotMissingField(Difficulty, s, fm, f);
    EnumErrorNotMissingField(ProjectType, s, fm, f);
    EnumErrorNotMissingField(Status, s, fm, f);
    assert multiset(d + p + st) == multiset(d) + multiset(p) + multiset(st);
  }

  /** In the full report of a known category, the error naming `f` appears
      once per listing of `f` among the required fields when `f` is falsy,
      and not at all when it is truthy. */
  lemma MissingFieldReportedOnce(s: Schema, fm: FrontMatter, f: string)
    ensures multiset(CheckSchema(s, fm).errors)[MissingField(f)]
            == if Present(fm, f) then 0 else multiset(s.required)[f]
  {
    MissingFieldCount(s.required, fm, f);
    EnumErrorsNotMissingField(s, fm, f);
    match TagWarnings(s.tags, fm)
    case Err(m) => ErrorKindsDistinct(f, Difficulty, Null, m);
    case Ok(_) =>
  }

  lemma CountInDistinct(xs: seq<string>, f: string)
    requires NoDuplicates(xs)
    ensures multiset(xs)[f] == if f in xs then 1 else 0
  {
    if xs != [] {
      assert xs == [xs[0]] + xs[1..];
      CountInDistinct(xs[1..], f);
    }
  }

  /** For the categories of the table: exactly one "missing field" error for
      each falsy required field, none for any other field. */
  lemma MissingFieldExactlyOnce(category: string, fm: FrontMatter, f: string)
    requires SchemaFor(category).Some?
    ensures var r := ValidateFrontMatter(category, fm);
            multiset(r.errors)[MissingField(f)]
            == if f in SchemaFor(category).value.required && !Present(fm, f) then 1 else 0
  {
    var s := SchemaFor(category).value;
    TableWellFormed(category);
    MissingFieldReportedOnce(s, fm, f);
    CountInDistinct(s.required, f);
  }

  /** A tag that makes `tag.includes` throw is caught: the report keeps every
      error recorded before the tag check, in order, adds one error after
      them, and has no warnings. (Replacing the tags by an empty array is the
      same document with a tag check that cannot throw.) */
  lemma ThrowingTagKeepsEarlierErrors(s: Schema, fm: FrontMatter, m: string)
    requires TagWarnings(s.tags, fm) == Err(m)
    ensures var r := CheckSchema(s, fm);
            var r0 := CheckSchema(s, fm["tags" := Arr([])]);
            r.errors == r0.errors + [ParseFailure(m)] && r.warnings == []
  {
    var fm0 := fm["tags" := Arr([])];
    assert "tags" in fm && fm["tags"].Arr?;
    forall k | k in s.required ensures Present(fm, k) == Present(fm0, k) {
    }
    RequiredErrorsByPresence(s.required, fm, fm0);
    assert EnumErrors(s, fm) == EnumErrors(s, fm0) by {
      assert Difficulty.Key() != "tags" && ProjectType.Key() != "tags" && Status.Key() != "tags";
    }
    assert InvalidTags([], s.tags.value) == Ok([]);
    assert TagWarnings(s.tags, fm0) == Ok([]);
  }

  /** The two blocks hold the same thing under `key`. */
  predicate SameAt(fm1: FrontMatter, fm2: FrontMatter, key: string) {
    (key in fm1 <==> key in fm2) && (key in fm1 ==> fm1[key] == fm2[key])
  }

  lemma EnumErrorLocal(k: EnumField, s: Schema, fm1: FrontMatter, fm2: FrontMatter)
    requires SameAt(fm1, fm2, k.Key())
    ensures EnumError(k, s, fm1) == EnumError(k, s, fm2)
  {
  }

  lemma LengthWarningLocal(k: LengthField, fm1: FrontMatter, fm2: FrontMatter)
    requires SameAt(fm1, fm2, k.Key())
    ensures LengthWarning(k, fm1) == LengthWarning(k, fm2)
  {
  }

  lemma TagWarningsLocal(vocab: Option<seq<string>>, fm1: FrontMatter, fm2: FrontMatter)
    requires SameAt(fm1, fm2, "tags")
    ensures TagWarnings(vocab, fm1) == TagWarnings(vocab, fm2)
  {
  }

  /** Two blocks that differ at most under `key`, where both hold equally
      truthy values, get the same report when `key` is a required field read
      by no other check. */
  lemma OnlyPresenceRead(s: Schema, fm1: FrontMatter, fm2: FrontMatter, key: string)
    requires forall k :: k != key ==> SameAt(fm1, fm2, k)
    requires Present(fm1, key) == Present(fm2, key)
    requires key !in {"difficulty", "project_type", "status", "tags", "title", "description"}
    ensures CheckSchema(s, fm1) == CheckSchema(s, fm2)
  {
    forall i | 0 <= i < |s.required| ensures Present(fm1, s.required[i]) == Present(fm2, s.required[i]) {
      if s.required[i] != key {
        assert SameAt(fm1, fm2, s.required[i]);
      }
    }
    RequiredErrorsByPresence(s.required, fm1, fm2);
    EnumErrorLocal(Difficulty, s, fm1, fm2);
    EnumErrorLocal(ProjectType, s, fm1, fm2);
    EnumErrorLocal(Status, s, fm1, fm2);
    TagWarningsLocal(s.tags, fm1, fm2);
    LengthWarningLocal(Title, fm1, fm2);
    LengthWarningLocal(Description, fm1, fm2);
  }

  /** `category` is never compared with the schema's `categories` list: only
      its truthiness matters to the report. */
  lemma CategoryValueIgnored(category: string, fm: FrontMatter, v1: Value, v2: Value)
    requires Truthy(v1) == Truthy(v2)
    ensures ValidateFrontMatter(category, fm["category" := v1])
            == ValidateFrontMatter(category, fm["category" := v2])
  {
    var fm1 := fm["category" := v1];
    var fm2 := fm["category" := v2];
    if SchemaFor(category).Some? {
      forall k | k != "category" ensures SameAt(fm1, fm2, k) {
      }
      OnlyPresenceRead(SchemaFor(category).value, fm1, fm2, "category");
    }
  }

  // ------------------------------------------- the other checks, report-wide

  /** The three kinds of invalid-value error differ in their fourth character. */
  lemma EnumKindsDistinct(k1: EnumField, k2: EnumField, v1: Value, v2: Value)
    requires k1 != k2
    ensures InvalidValue(k1, v1) != InvalidValue(k2, v2)
  {
    assert InvalidValue(k1, v1)[3] == k1.Prefix()[3];
    assert InvalidValue(k2, v2)[3] == k2.Prefix()[3];
  }

  /** In the full report of a known category, the invalid-value error for an
      enumerated field appears exactly when that field's own check raises it:
      no other check produces that message, and a caught tag throw keeps it. */
  lemma EnumErrorInReport(k: EnumField, s: Schema, fm: FrontMatter)
    requires k.Key() in fm
    ensures InvalidValue(k, fm[k.Key()]) in CheckSchema(s, fm).errors <==> EnumError(k, s, fm) != []
  {
    var e := InvalidValue(k, fm[k.Key()]);
    assert e[0] == '无';
    var req := RequiredErrors(s.required, fm);
    assert e !in req;
    forall k' | k' != k ensures e !in EnumError(k', s, fm) {
      if EnumError(k', s, fm) != [] {
        EnumKindsDistinct(k', k, fm[k'.Key()], fm[k.Key()]);
      }
    }
    assert e in EnumErrors(s, fm) <==> e in EnumError(k, s, fm) by {
      assert k == Difficulty || k == ProjectType || k == Status;
    }
    match TagWarnings(s.tags, fm)
    case Err(m) =>
      assert ParseFailure(m)[0] == '解';
    case Ok(_) =>
  }

  /** With no throw from the tag check, the warnings are the tag warning, then
      the title warning, then the description warning, each present or not. */
  lemma WarningsInSourceOrder(s: Schema, fm: FrontMatter)
    requires TagWarnings(s.tags, fm).Ok?
    ensures CheckSchema(s, fm).warnings
            == TagWarnings(s.tags, fm).value + LengthWarning(Title, fm) + LengthWarning(Description, fm)
    ensures |CheckSchema(s, fm).warnings| <= 3
  {
  }

  lemma TooLongFirst(k: LengthField, n: int)
    ensures k.TooLong(n)[0] == if k == Title then '标' else '描'
  {
  }

  /** The length cited in a length warning determines the warning. */
  lemma TooLongInjective(k: LengthField, n: int, m: int)
    requires k.TooLong(n) == k.TooLong(m)
    ensures n == m
  {
    var p := if k == Title then "标题过长 (" else "描述过长 (";
    var q := if k == Title then " > 60字符)" else " > 160字符)";
    var a, b := IntToString(n), IntToString(m);
    assert k.TooLong(n) == p + a + q;
    assert k.TooLong(m) == p + b + q;
    assert a == (p + a + q)[|p|..|p| + |a|];
    assert |a| == |b|;
    assert b == (p + b + q)[|p|..|p| + |b|];
    IntToStringRoundTrip(n);
    IntToStringRoundTrip(m);
  }

  /** In the full report of a known category whose tag check does not throw,
      a length warning citing `n` appears exactly when the field's length is
      `n` and exceeds the limit. */
  lemma LengthWarningInReport(k: LengthField, s: Schema, fm: FrontMatter, n: int)
    requires TagWarnings(s.tags, fm).Ok?
    ensures k.TooLong(n) in CheckSchema(s, fm).warnings <==>
            k.Key() in fm && LengthOf(fm[k.Key()]) == Some(n) && n > k.Limit()
  {
    var w := k.TooLong(n);
    TooLongFirst(k, n);
    var tw := TagWarnings(s.tags, fm).value;
    assert w !in tw by {
      if tw != [] {
        var bad := InvalidTags(fm["tags"].items, s.tags.value);
        assert tw == [UnrecognisedTags(bad.value)];
        assert UnrecognisedTags(bad.value)[0] == TagWarningPrefix[0];
      }
    }
    var other := if k == Title then Description else Title;
    assert w !in LengthWarning(other, fm) by {
      if LengthWarning(other, fm) != [] {
        TooLongFirst(other, LengthOf(fm[other.Key()]).value);
      }
    }
    WarningsInSourceOrder(s, fm);
    if w in LengthWarning(k, fm) {
      TooLongInjective(k, n, LengthOf(fm[k.Key()]).value);
    }
  }
}
