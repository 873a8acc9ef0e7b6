/** Validation of one document's front matter against the schema of its
    category: ordered error and warning lists, never an escaping exception. */
module Validator {
  import opened Results
  import opened Strings
  import opened JsValues
  import opened Schemas
  import opened Paths

  /** The outcome for one document. */
  datatype Report = Report(errors: seq<string>, warnings: seq<string>)

  /** The front-matter parser: the parsed block, or the message it threw. */
  type Parser = string -> Result<FrontMatter>

  // ---------------------------------------------------------------- messages

  const MissingFieldPrefix: string := "缺少必需字段: "
  const ParseFailurePrefix: string := "解析Front Matter失败: "
  const TagWarningPrefix: string := "建议的标签不在推荐列表中: "

  function MissingField(field: string): string {
    MissingFieldPrefix + field
  }

  function ParseFailure(message: string): string {
    ParseFailurePrefix + message
  }

  function UnknownCategoryWarning(category: string): string {
    "未找到分类 \"" + category + "\" 的元数据规范"
  }

  /** The three fields checked against a closed enumeration. */
  datatype EnumField = Difficulty | ProjectType | Status {
    function Key(): string {
      match this
      case Difficulty => "difficulty"
      case ProjectType => "project_type"
      case Status => "status"
    }

    function Allowed(s: Schema): Option<seq<string>> {
      match this
      case Difficulty => s.difficulties
      case ProjectType => s.projectTypes
      case Status => s.statuses
    }

    function Prefix(): string {
      match this
      case Difficulty => "无效的难度等级: "
      case ProjectType => "无效的项目类型: "
      case Status => "无效的状态: "
    }
  }

  function InvalidValue(k: EnumField, v: Value): string {
    k.Prefix() + Display(v)
  }

  /** The two fields with a length limit. */
  datatype LengthField = Title | Description {
    function Key(): string {
      match this
      case Title => "title"
      case Description => "description"
    }

    function Limit(): nat {
      match this
      case Title => 60
      case Description => 160
    }

    function TooLong(n: int): string {
      match this
      case Title => "标题过长 (" + IntToString(n) + " > 60字符)"
      case Description => "描述过长 (" + IntToString(n) + " > 160字符)"
    }
  }

  /** The messages of the TypeError thrown by `tag.includes(...)` on a tag
      that is not a string or an array. */
  const NullIncludesMessage: string := "Cannot read properties of null (reading 'includes')"
  const NotAFunctionMessage: string := "tag.includes is not a function"

  // ---------------------------------------------------------- required fields

  /** One "missing field" error per falsy required field, in list order. */
  function RequiredErrors(required: seq<string>, fm: FrontMatter): (errs: seq<string>)
    ensures |errs| <= |required|
    ensures forall i :: 0 <= i < |errs| ==> StartsWith(errs[i], MissingFieldPrefix)
    decreases |required|
  {
    if required == [] then []
    else
      (if Present(fm, required[0]) then [] else [MissingField(required[0])])
      + RequiredErrors(required[1..], fm)
  }

  /** Errors of an earlier part of the required list come before those of a
      later part. */
  lemma {:induction false} RequiredErrorsAppend(a: seq<string>, b: seq<string>, fm: FrontMatter)
    ensures RequiredErrors(a + b, fm) == RequiredErrors(a, fm) + RequiredErrors(b, fm)
    decreases |a|
  {
    if a != [] {
      var head := if Present(fm, a[0]) then [] else [MissingField(a[0])];
      assert (a + b)[0] == a[0];
      assert (a + b)[1..] == a[1..] + b;
      RequiredErrorsAppend(a[1..], b, fm);
      calc {
        RequiredErrors(a + b, fm);
        head + RequiredErrors(a[1..] + b, fm);
        head + (RequiredErrors(a[1..], fm) + RequiredErrors(b, fm));
        (head + RequiredErrors(a[1..], fm)) + RequiredErrors(b, fm);
        RequiredErrors(a, fm) + RequiredErrors(b, fm);
      }
    } else {
      assert a + b == b;
    }
  }

  lemma PrefixCancel(p: string, x: string, y: string)
    requires p + x == p + y
    ensures x == y
  {
    assert x == (p + x)[|p|..];
  }

  /** The error naming `f` is produced once per occurrence of `f` in the
      required list when `f` is falsy, and never when it is truthy. */
  lemma {:induction false} MissingFieldCount(required: seq<string>, fm: FrontMatter, f: string)
    ensures multiset(RequiredErrors(required, fm))[MissingField(f)]
            == if Present(fm, f) then 0 else multiset(required)[f]
    decreases |required|
  {
    if required != [] {
      MissingFieldCount(required[1..], fm, f);
      assert required == [required[0]] + required[1..];
      if MissingField(required[0]) == MissingField(f) {
        PrefixCancel(MissingFieldPrefix, required[0], f);
      }
    }
  }

  /** Truthiness is all the required-field check looks at. */
  lemma {:induction false} RequiredErrorsByPresence(required: seq<string>, fm1: FrontMatter, fm2: FrontMatter)
    requires forall i :: 0 <= i < |required| ==> Present(fm1, required[i]) == Present(fm2, required[i])
    ensures RequiredErrors(required, fm1) == RequiredErrors(required, fm2)
    decreases |required|
  {
    if required != [] {
      RequiredErrorsByPresence(required[1..], fm1, fm2);
    }
  }

  // ------------------------------------------------------------ enumerations

  /** At most one error for an enumerated field: only when the schema has the
      enumeration, the field is truthy, and its value equals no entry. */
  function EnumError(k: EnumField, s: Schema, fm: FrontMatter): (errs: seq<string>)
    ensures |errs| <= 1
    ensures errs != [] <==>
            && k.Allowed(s).Some?
            && Present(fm, k.Key())
            && forall i :: 0 <= i < |k.Allowed(s).value| ==> fm[k.Key()] != Str(k.Allowed(s).value[i])
    ensures errs != [] ==> errs[0] == InvalidValue(k, fm[k.Key()])
  {
    match k.Allowed(s)
    case None => []
    case Some(allowed) =>
      if Present(fm, k.Key()) && !Includes(allowed, fm[k.Key()])
      then [InvalidValue(k, fm[k.Key()])]
      else []
  }

  /** An entry of the enumeration is always accepted. */
  lemma EnumAcceptsMembers(k: EnumField, s: Schema, fm: FrontMatter, i: nat)
    requires k.Allowed(s).Some? && i < |k.Allowed(s).value|
    ensures EnumError(k, s, fm[k.Key() := Str(k.Allowed(s).value[i])]) == []
  {
  }

  /** The enumeration checks in source order: difficulty, project type, status. */
  function EnumErrors(s: Schema, fm: FrontMatter): seq<string> {
    EnumError(Difficulty, s, fm) + EnumError(ProjectType, s, fm) + EnumError(Status, s, fm)
  }

  // -------------------------------------------------------------------- tags

  /** Substring overlap in either direction. */
  predicate Overlap(tag: string, recommended: string) {
    Contains(tag, recommended) || Contains(recommended, tag)
  }

  /** Some recommended tag overlaps `tag`. */
  ghost predicate Recognised(tag: string, vocab: seq<string>) {
    exists i :: 0 <= i < |vocab| && Overlap(tag, vocab[i])
  }

  /** A tag on which `tag.includes` is not a function: calling it throws. */
  predicate Throws(tag: Value) {
    tag.Null? || tag.Bool? || tag.Num? || tag.Obj?
  }

  predicate AllStrings(tags: seq<Value>) {
    forall i :: 0 <= i < |tags| ==> tags[i].Str?
  }

  /** `tag.includes(v) || v.includes(tag)` for one recommended tag `v`: a
      string tag is a substring test both ways; an array tag tests for `v`
      as an element, then `v` for the array's string form; any other tag
      has no `includes` method to call. */
  function OverlapsOne(tag: Value, v: string): (r: Result<bool>)
    ensures r.Err? <==> Throws(tag)
    ensures r.Err? ==> r.message == if tag.Null? then NullIncludesMessage else NotAFunctionMessage
    ensures tag.Str? ==> r == Ok(Contains(tag.s, v) || Contains(v, tag.s))
    ensures tag.Arr? ==>
              (r == Ok(true) <==>
               (exists i :: 0 <= i < |tag.items| && tag.items[i] == Str(v)) || Contains(v, Display(tag)))
    ensures tag == Str(v) || tag == Arr([Str(v)]) ==> r == Ok(true)
  {
    ContainsSelf(v);
    match tag
    case Str(t) => Ok(Overlap(t, v))
    case Arr(items) => Ok(Str(v) in items || Contains(v, Display(tag)))
    case Null => Err(NullIncludesMessage)
    case _ => Err(NotAFunctionMessage)
  }

  /** Wrapping a string tag in a one-element array never makes it overlap a
      recommended tag it did not overlap on its own. */
  lemma ArrayTagNoWider(t: string, v: string)
    ensures OverlapsOne(Arr([Str(t)]), v) == Ok(true) ==> OverlapsOne(Str(t), v) == Ok(true)
  {
  }

  /** `vocab.some(v => tag.includes(v) || v.includes(tag))`, stopping at the
      first overlap or the first throw. */
  function TagOverlaps(tag: Value, vocab: seq<string>): (r: Result<bool>)
    ensures tag.Str? ==> r == Ok(Recognised(tag.s, vocab))
    ensures tag.Arr? ==> r.Ok?
    ensures Throws(tag) ==> (r.Err? <==> |vocab| > 0)
    ensures r.Err? ==> r.message == if tag.Null? then NullIncludesMessage else NotAFunctionMessage
    decreases |vocab|
  {
    if vocab == [] then Ok(false)
    else
      match OverlapsOne(tag, vocab[0])
      case Err(m) => Err(m)
      case Ok(true) => Ok(true)
      case Ok(false) =>
        var rest := TagOverlaps(tag, vocab[1..]);
        assert tag.Str? ==> (Recognised(tag.s, vocab) <==> Recognised(tag.s, vocab[1..])) by {
          if tag.Str? && Recognised(tag.s, vocab) {
            var i :| 0 <= i < |vocab| && Overlap(tag.s, vocab[i]);
            assert i > 0 && vocab[1..][i - 1] == vocab[i];
          }
          if tag.Str? && Recognised(tag.s, vocab[1..]) {
            var i :| 0 <= i < |vocab[1..]| && Overlap(tag.s, vocab[1..][i]);
            assert vocab[i + 1] == vocab[1..][i];
          }
        }
        rest
  }

  /** `tags.filter(tag => !vocab.some(...))`: the tags no recommended tag
      overlaps, in order, or the first throw. */
  function InvalidTags(tags: seq<Value>, vocab: seq<string>): (r: Result<seq<Value>>)
    ensures r.Ok? ==> |r.value| <= |tags|
    ensures r.Err? <==> |vocab| > 0 && exists i :: 0 <= i < |tags| && Throws(tags[i])
    decreases |tags|
  {
    if tags == [] then Ok([])
    else
      var head := TagOverlaps(tags[0], vocab);
      var rest := InvalidTags(tags[1..], vocab);
      assert forall i :: 0 < i < |tags| ==> tags[i] == tags[1..][i - 1];
      assert (exists i :: 0 <= i < |tags| && Throws(tags[i]))
             <==> Throws(tags[0]) || exists i :: 0 <= i < |tags[1..]| && Throws(tags[1..][i]);
      assert tags == [tags[0]] + tags[1..];
      match head
      case Err(m) => Err(m)
      case Ok(ok) =>
        match rest
        case Err(m) => Err(m)
        case Ok(bad) => Ok(if ok then bad else [tags[0]] + bad)
  }

  /** Over string tags the filter keeps exactly the unrecognised ones. */
  lemma {:induction false} InvalidTagsMembers(tags: seq<Value>, vocab: seq<string>)
    requires AllStrings(tags)
    ensures InvalidTags(tags, vocab).Ok?
    ensures forall v :: v in InvalidTags(tags, vocab).value <==> v in tags && v.Str? && !Recognised(v.s, vocab)
    decreases |tags|
  {
    if tags != [] {
      InvalidTagsStep(tags, vocab);
      InvalidTagsMembers(tags[1..], vocab);
      assert tags == [tags[0]] + tags[1..];
    }
  }

  lemma AllStringsSplit(a: seq<Value>, b: seq<Value>)
    requires AllStrings(a) && AllStrings(b)
    ensures AllStrings(a + b)
    ensures a != [] ==> AllStrings(a[1..])
  {
    var ab := a + b;
    forall i | 0 <= i < |ab| ensures ab[i].Str? {
      if i < |a| { assert ab[i] == a[i]; } else { assert ab[i] == b[i - |a|]; }
    }
    if a != [] {
      forall i | 0 <= i < |a[1..]| ensures a[1..][i].Str? { assert a[1..][i] == a[i + 1]; }
    }
  }

  /** One step of the filter over string tags. */
  lemma InvalidTagsStep(tags: seq<Value>, vocab: seq<string>)
    requires tags != [] && AllStrings(tags)
    ensures InvalidTags(tags, vocab).Ok?
    ensures InvalidTags(tags, vocab).value
            == (if Recognised(tags[0].s, vocab) then [] else [tags[0]]) + InvalidTags(tags[1..], vocab).value
  {
    assert tags[0].Str?;
    assert AllStrings(tags[1..]) by {
      forall i | 0 <= i < |tags[1..]| ensures tags[1..][i].Str? { assert tags[1..][i] == tags[i + 1]; }
    }
  }

  /** Unrecognised tags keep their relative order. */
  lemma {:induction false} InvalidTagsAppend(a: seq<Value>, b: seq<Value>, vocab: seq<string>)
    requires AllStrings(a) && AllStrings(b)
    ensures InvalidTags(a + b, vocab).Ok?
    ensures InvalidTags(a + b, vocab).value == InvalidTags(a, vocab).value + InvalidTags(b, vocab).value
    decreases |a|
  {
    var ab := a + b;
    AllStringsSplit(a, b);
    if a == [] {
      assert ab == b;
    } else {
      assert ab[1..] == a[1..] + b;
      assert ab[0] == a[0];
      InvalidTagsAppend(a[1..], b, vocab);
      InvalidTagsStep(a, vocab);
      InvalidTagsStep(ab, vocab);
      var head := if Recognised(a[0].s, vocab) then [] else [a[0]];
      calc {
        InvalidTags(ab, vocab).value;
        head + InvalidTags(a[1..] + b, vocab).value;
        head + (InvalidTags(a[1..], vocab).value + InvalidTags(b, vocab).value);
        (head + InvalidTags(a[1..], vocab).value) + InvalidTags(b, vocab).value;
      }
    }
  }

  /** The single warning listing every unrecognised tag, joined by ", ". */
  function UnrecognisedTags(bad: seq<Value>): string {
    TagWarningPrefix + ArrayJoin(bad, ", ")
  }

  /** The tag check: no warning unless `tags` is an array and the schema has a
      vocabulary; then at most one warning, or the throw of a non-string tag. */
  function TagWarnings(vocab: Option<seq<string>>, fm: FrontMatter): (r: Result<seq<string>>)
    ensures r.Ok? ==> |r.value| <= 1
    ensures vocab.None? || "tags" !in fm || !fm["tags"].Arr? ==> r == Ok([])
    ensures r.Ok? && r.value != [] ==>
              && vocab.Some? && "tags" in fm && fm["tags"].Arr?
              && var bad := InvalidTags(fm["tags"].items, vocab.value);
                 bad.Ok? && r.value == [UnrecognisedTags(bad.value)]
    ensures vocab.Some? && "tags" in fm && fm["tags"].Arr? && AllStrings(fm["tags"].items) ==>
              r.Ok? &&
              (r.value != [] <==> exists i :: 0 <= i < |fm["tags"].items| &&
                                    !Recognised(fm["tags"].items[i].s, vocab.value))
  {
    if Present(fm, "tags") && fm["tags"].Arr? then
      match vocab
      case None => Ok([])
      case Some(v) =>
        var tags := fm["tags"].items;
        match InvalidTags(tags, v)
        case Err(m) => Err(m)
        case Ok(bad) =>
          assert AllStrings(tags) ==> (bad != [] <==> exists i :: 0 <= i < |tags| && !Recognised(tags[i].s, v)) by {
            if AllStrings(tags) {
              InvalidTagsMembers(tags, v);
            }
            if AllStrings(tags) && bad != [] {
              assert bad[0] in bad;
            }
            if AllStrings(tags) && exists i :: 0 <= i < |tags| && !Recognised(tags[i].s, v) {
              var i :| 0 <= i < |tags| && !Recognised(tags[i].s, v);
              assert tags[i] in tags;
            }
          }
          Ok(if |bad| > 0 then [UnrecognisedTags(bad)] else [])
    else Ok([])
  }

  // ---------------------------------------------------------------- lengths

  /** At most one warning, exactly when the field's length exceeds the limit,
      citing that length. */
  function LengthWarning(k: LengthField, fm: FrontMatter): (w: seq<string>)
    ensures |w| <= 1
    ensures w != [] <==> k.Key() in fm && LengthOf(fm[k.Key()]).Some? && LengthOf(fm[k.Key()]).value > k.Limit()
    ensures w != [] ==> w[0] == k.TooLong(LengthOf(fm[k.Key()]).value)
  {
    if Present(fm, k.Key()) then
      match LengthOf(fm[k.Key()])
      case Some(n) => if n > k.Limit() then [k.TooLong(n)] else []
      case None => []
    else []
  }

  /** A string title of exactly 60 characters is accepted; one of 61 draws a
      single warning citing 61. */
  lemma TitleBoundary(fm: FrontMatter, s: string)
    requires "title" in fm && fm["title"] == Str(s)
    ensures |s| == 60 ==> LengthWarning(Title, fm) == []
    ensures |s| == 61 ==> LengthWarning(Title, fm) == ["标题过长 (61 > 60字符)"]
  {
    if |s| == 61 {
      assert Title.Key() == "title" && LengthOf(fm["title"]) == Some(61);
      assert IntToString(61) == "61";
      assert Title.TooLong(61) == "标题过长 (" + "61" + " > 60字符)";
      var w := LengthWarning(Title, fm);
      assert w != [] && |w| == 1 && w[0] == Title.TooLong(61);
      assert "标题过长 (" + "61" + " > 60字符)" == "标题过长 (61 > 60字符)";
    }
  }

  /** The same boundary for descriptions at 160 characters. */
  lemma DescriptionBoundary(fm: FrontMatter, s: string)
    requires "description" in fm && fm["description"] == Str(s)
    ensures |s| == 160 ==> LengthWarning(Description, fm) == []
    ensures |s| == 161 ==> LengthWarning(Description, fm) == ["描述过长 (161 > 160字符)"]
  {
    if |s| == 161 {
      assert Description.Key() == "description" && LengthOf(fm["description"]) == Some(161);
      assert IntToString(161) == "161";
      assert Description.TooLong(161) == "描述过长 (" + "161" + " > 160字符)";
      assert "描述过长 (" + "161" + " > 160字符)" == "描述过长 (161 > 160字符)";
      var w := LengthWarning(Description, fm);
      assert w != [] && |w| == 1 && w[0] == Description.TooLong(161);
    }
  }

  // ------------------------------------------------------------- whole check

  /** All checks of a known category, in source order. A throw from the tag
      check is caught: one error is appended after those already recorded,
      and the later warnings are never produced. */
  function CheckSchema(s: Schema, fm: FrontMatter): (r: Report)
    ensures |r.errors| <= |s.required| + 4
    ensures |r.warnings| <= 3
  {
    var errs := RequiredErrors(s.required, fm) + EnumErrors(s, fm);
    match TagWarnings(s.tags, fm)
    case Err(m) => Report(errs + [ParseFailure(m)], [])
    case Ok(tagWarnings) =>
      Report(errs, tagWarnings + LengthWarning(Title, fm) + LengthWarning(Description, fm))
  }

  /** Validation of an already parsed block for a category: a category
      without a schema gets one warning and nothing else. */
  function ValidateFrontMatter(category: string, fm: FrontMatter): (r: Report)
    ensures SchemaFor(category).None? ==>
              r.errors == [] && r.warnings == [UnknownCategoryWarning(category)]
  {
    match SchemaFor(category)
    case None => Report([], [UnknownCategoryWarning(category)])
    case Some(s) => CheckSchema(s, fm)
  }

  /** `validateFileMetadata(filePath, content)`: a parse failure is the one
      error and there are no warnings, because parsing precedes every push. */
  function ValidateFileMetadata(path: string, content: string, parse: Parser): (r: Report)
    ensures parse(content).Err? ==>
              r.errors == [ParseFailure(parse(content).message)] && r.warnings == []
    ensures parse(content).Ok? && SchemaFor(CategoryFromPath(path)).None? ==>
              |r.errors| == 0 && |r.warnings| == 1
  {
    match parse(content)
    case Err(m) => Report([ParseFailure(m)], [])
    case Ok(fm) => ValidateFrontMatter(CategoryFromPath(path), fm)
  }
}
