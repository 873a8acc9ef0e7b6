/** The front-matter skeleton generator for a category. */
module Template {
  import opened Results
  import opened Strings
  import opened JsValues
  import opened Schemas
  import Validator

  function Quote(s: string): string {
    "\"" + s + "\""
  }

  /** `list ? list[0] : fallback`: the first entry of a present list (an empty
      one yields `undefined`), the fallback when the list is absent. */
  function FirstOr(list: Option<seq<string>>, fallback: string): (r: string)
    ensures list.Some? && |list.value| > 0 ==> r == list.value[0]
    ensures list.None? ==> r == fallback
    ensures list == Some([]) ==> r == "undefined"
  {
    match list
    case None => fallback
    case Some(l) => if |l| > 0 then l[0] else "undefined"
  }

  /** The tags shown in the skeleton: the first three recommended tags, or two
      placeholders for a schema without a vocabulary. */
  function SampleTags(s: Schema): (tags: seq<string>)
    ensures |tags| <= 3
    ensures s.tags.Some? ==> |tags| == Min(3, |s.tags.value|) && tags == s.tags.value[..|tags|]
    ensures s.tags.None? ==> tags == ["tag1", "tag2"]
  {
    match s.tags
    case Some(t) => if |t| <= 3 then t else t[..3]
    case None => ["tag1", "tag2"]
  }

  /** The sample tags, each in double quotes. */
  function QuotedTags(s: Schema): seq<string> {
    var tags := SampleTags(s);
    seq(|tags|, i requires 0 <= i < |tags| => Quote(tags[i]))
  }

  function Min(a: nat, b: nat): nat {
    if a <= b then a else b
  }

  /** The default put in the skeleton for an enumerated field. */
  function EnumDefault(s: Schema, field: string): Option<string> {
    if field == "difficulty" then Some(FirstOr(s.difficulties, "easy"))
    else if field == "category" then Some(FirstOr(s.categories, "general"))
    else if field == "project_type" then Some(FirstOr(s.projectTypes, "web_application"))
    else if field == "status" then Some(FirstOr(s.statuses, "planned"))
    else None
  }

  const Indent: string := "  "

  /** The skeleton lines for one required field: `tech_stack` expands to a
      key line and three indented lines, every other field is one
      `field: value` line. */
  function FieldLines(s: Schema, field: string): (lines: seq<string>)
    ensures |lines| == if field == "tech_stack" then 4 else 1
    ensures StartsWith(lines[0], field + ":")
    ensures forall i :: 1 <= i < |lines| ==> StartsWith(lines[i], Indent)
  {
    if field == "tags" then
      [field + ": [" + Join(QuotedTags(s), ", ") + "]"]
    else if field == "sidebar_position" then [field + ": 1"]
    else if field == "tech_stack" then
      [ field + ":",
        Indent + "frontend: [\"React\", \"TypeScript\"]",
        Indent + "backend: [\"Node.js\", \"Express\"]",
        Indent + "tools: [\"Git\", \"VS Code\"]" ]
    else match EnumDefault(s, field)
      case Some(d) => [field + ": " + Quote(d)]
      case None => [field + ": \"\""]
  }

  /** The field blocks of a list of required fields, in list order. */
  function Body(s: Schema, fields: seq<string>): seq<string>
    decreases |fields|
  {
    if fields == [] then [] else FieldLines(s, fields[0]) + Body(s, fields[1..])
  }

  /** All lines of the skeleton: the opening fence, the field blocks, the
      closing fence and an empty last line. */
  function TemplateLines(s: Schema): seq<string> {
    ["---"] + Body(s, s.required) + ["---", ""]
  }

  /** `generateMetadataTemplate(category)`: "" for a category without a
      schema, otherwise a block fenced by `---` lines ending in a newline. */
  function GenerateTemplate(category: string): (t: string)
    ensures SchemaFor(category).None? <==> t == ""
    ensures SchemaFor(category).Some? ==> StartsWith(t, "---\n") && EndsWith(t, "---\n")
  {
    match SchemaFor(category)
    case None => ""
    case Some(s) =>
      TemplateFenced(s);
      Join(TemplateLines(s), "\n")
  }

  lemma TemplateFenced(s: Schema)
    ensures var t := Join(TemplateLines(s), "\n");
            StartsWith(t, "---\n") && EndsWith(t, "---\n")
  {
    var body := Body(s, s.required);
    var t := Join(TemplateLines(s), "\n");
    assert TemplateLines(s) == ["---"] + (body + ["---", ""]);
    JoinAppend(["---"], body + ["---", ""], "\n");
    if body == [] {
      assert body + ["---", ""] == ["---", ""];
      assert t == "---\n---\n";
    } else {
      JoinAppend(body, ["---", ""], "\n");
      assert t == "---" + "\n" + (Join(body, "\n") + "\n" + "---\n");
      assert t[|t| - 4..] == "---\n";
    }
  }

  // ----------------------------------------------------- reading it back

  /** The text of a line before its first ':' (the YAML key of a key line). */
  function BeforeColon(line: string): string
    decreases |line|
  {
    if line == [] || line[0] == ':' then [] else [line[0]] + BeforeColon(line[1..])
  }

  lemma {:induction false} BeforeColonOfKeyLine(key: string, rest: string)
    requires ':' !in key
    ensures BeforeColon(key + ":" + rest) == key
    decreases |key|
  {
    if key != [] {
      assert (key + ":" + rest)[1..] == key[1..] + ":" + rest;
      BeforeColonOfKeyLine(key[1..], rest);
    }
  }

  /** The keys of the un-indented lines, skipping fences and blank lines. */
  function TopLevelKeys(lines: seq<string>): seq<string>
    decreases |lines|
  {
    if lines == [] then []
    else
      var line := lines[0];
      (if line == "---" || line == "" || line[0] == ' ' then [] else [BeforeColon(line)])
      + TopLevelKeys(lines[1..])
  }

  lemma {:induction false} TopLevelKeysAppend(a: seq<string>, b: seq<string>)
    ensures TopLevelKeys(a + b) == TopLevelKeys(a) + TopLevelKeys(b)
    decreases |a|
  {
    if a == [] {
      assert a + b == b;
    } else {
      assert (a + b)[0] == a[0];
      assert (a + b)[1..] == a[1..] + b;
      TopLevelKeysAppend(a[1..], b);
    }
  }

  lemma FieldKeys(s: Schema, field: string)
    requires PlainKey(field)
    ensures TopLevelKeys(FieldLines(s, field)) == [field]
  {
    var lines := FieldLines(s, field);
    var rest := lines[0][|field| + 1..];
    assert lines[0] == field + ":" + rest;
    BeforeColonOfKeyLine(field, rest);
    assert lines[0] != "---" by {
      assert ':' in lines[0];
    }
    if |lines| == 4 {
      assert lines == [lines[0]] + [lines[1], lines[2], lines[3]];
      assert lines[1][0] == ' ' && lines[2][0] == ' ' && lines[3][0] == ' ';
      assert TopLevelKeys([lines[3]]) == [];
      assert TopLevelKeys([lines[2], lines[3]]) == [] by {
        assert [lines[2], lines[3]][1..] == [lines[3]];
      }
      assert TopLevelKeys([lines[1], lines[2], lines[3]]) == [] by {
        assert [lines[1], lines[2], lines[3]][1..] == [lines[2], lines[3]];
      }
      TopLevelKeysAppend([lines[0]], [lines[1], lines[2], lines[3]]);
    }
  }

  lemma {:induction false} BodyKeys(s: Schema, fields: seq<string>)
    requires forall i :: 0 <= i < |fields| ==> PlainKey(fields[i])
    ensures TopLevelKeys(Body(s, fields)) == fields
    decreases |fields|
  {
    if fields != [] {
      FieldKeys(s, fields[0]);
      BodyKeys(s, fields[1..]);
      TopLevelKeysAppend(FieldLines(s, fields[0]), Body(s, fields[1..]));
      assert fields == [fields[0]] + fields[1..];
    }
  }

  /** Each required field appears as a top-level key of the skeleton, in
      schema order, and nothing else does. */
  lemma TemplateKeysAreRequiredFields(s: Schema)
    requires forall i :: 0 <= i < |s.required| ==> PlainKey(s.required[i])
    ensures TopLevelKeys(TemplateLines(s)) == s.required
  {
    BodyKeys(s, s.required);
    TopLevelKeysAppend(["---"], Body(s, s.required));
    TopLevelKeysAppend(["---"] + Body(s, s.required), ["---", ""]);
    assert TopLevelKeys(["---", ""]) == [];
  }

  // -------------------------------------------- agreement with the validator

  /** The default of an enumerated field is the enumeration's first entry,
      so the validator accepts it. */
  lemma EnumDefaultAccepted(s: Schema, k: Validator.EnumField, fm: FrontMatter)
    requires k.Allowed(s).Some? && |k.Allowed(s).value| > 0
    ensures EnumDefault(s, k.Key()) == Some(k.Allowed(s).value[0])
    ensures Validator.EnumError(k, s, fm[k.Key() := Str(EnumDefault(s, k.Key()).value)]) == []
  {
  }

  /** The sample tags are taken from the vocabulary, so they never draw the
      unrecognised-tag warning. */
  lemma SampleTagsRecognised(s: Schema, fm: FrontMatter)
    requires s.tags.Some?
    ensures var tags := SampleTags(s);
            Validator.TagWarnings(s.tags, fm["tags" := Arr(seq(|tags|, i requires 0 <= i < |tags| => Str(tags[i])))]) == Ok([])
  {
    var tags := SampleTags(s);
    var vals := seq(|tags|, i requires 0 <= i < |tags| => Str(tags[i]));
    var vocab := s.tags.value;
    forall i | 0 <= i < |vals| ensures Validator.Recognised(vals[i].s, vocab) {
      ContainsSelf(tags[i]);
      assert tags[i] == vocab[i];
      assert Validator.Overlap(tags[i], vocab[i]);
    }
  }

  /** `template projects`: the skeleton lists every required field of the
      projects schema, in order, and defaults `status` to "completed". */
  lemma ProjectsTemplate()
    ensures TopLevelKeys(TemplateLines(Table["projects"]))
            == ["title", "description", "tags", "project_type", "tech_stack", "status"]
    ensures FieldLines(Table["projects"], "status") == ["status: \"completed\""]
  {
    ProjectsWellFormed();
    TemplateKeysAreRequiredFields(Table["projects"]);
    ProjectsStatusDefault(Table["projects"]);
  }

  lemma ProjectsStatusDefault(s: Schema)
    requires s.statuses == Some(["completed", "in-progress", "planned", "archived"])
    ensures FieldLines(s, "status") == ["status: \"completed\""]
  {
    assert EnumDefault(s, "status") == Some("completed");
    assert "status" + ": " + Quote("completed") == "status: \"completed\"";
  }

  /** Every line of a required field's block is a line of the skeleton. */
  lemma {:induction false} FieldLineInBody(s: Schema, fields: seq<string>, f: string, j: nat)
    requires f in fields && j < |FieldLines(s, f)|
    ensures FieldLines(s, f)[j] in Body(s, fields)
    decreases |fields|
  {
    if fields[0] != f {
      FieldLineInBody(s, fields[1..], f, j);
    }
  }

  lemma FieldLineInTemplate(s: Schema, f: string, j: nat)
    requires f in s.required && j < |FieldLines(s, f)|
    ensures FieldLines(s, f)[j] in TemplateLines(s)
  {
    FieldLineInBody(s, s.required, f, j);
  }

  /** The line of an enumerated required field, given its default. */
  lemma EnumLineInTemplate(s: Schema, field: string, d: string)
    requires field in s.required && EnumDefault(s, field) == Some(d)
    ensures field + ": \"" + d + "\"" in TemplateLines(s)
  {
    assert FieldLines(s, field) == [field + ": " + Quote(d)];
    FieldLineInTemplate(s, field, 0);
    assert field + ": " + Quote(d) == field + ": \"" + d + "\"";
  }

  /** Each enumerated required field is emitted with the first entry of its
      enumeration, quoted; an empty enumeration shows as "undefined". */
  lemma EnumDefaultInTemplate(s: Schema, field: string, list: seq<string>)
    requires field in s.required
    requires || (field == "difficulty" && s.difficulties == Some(list))
             || (field == "category" && s.categories == Some(list))
             || (field == "project_type" && s.projectTypes == Some(list))
             || (field == "status" && s.statuses == Some(list))
    ensures |list| > 0 ==> field + ": \"" + list[0] + "\"" in TemplateLines(s)
    ensures |list| == 0 ==> field + ": \"undefined\"" in TemplateLines(s)
  {
    var d := if |list| > 0 then list[0] else "undefined";
    EnumLineInTemplate(s, field, d);
    assert field + ": \"" + "undefined" + "\"" == field + ": \"undefined\"";
  }

  /** An enumerated required field whose schema has no enumeration is emitted
      with the fixed fallback of that field. */
  lemma EnumFallbackInTemplate(s: Schema, field: string, fallback: string)
    requires field in s.required
    requires || (field == "difficulty" && s.difficulties.None? && fallback == "easy")
             || (field == "category" && s.categories.None? && fallback == "general")
             || (field == "project_type" && s.projectTypes.None? && fallback == "web_application")
             || (field == "status" && s.statuses.None? && fallback == "planned")
    ensures field + ": \"" + fallback + "\"" in TemplateLines(s)
  {
    EnumLineInTemplate(s, field, fallback);
  }

  /** The `tags` line quotes exactly the sample tags, separated by ", ". */
  lemma TagsLineInTemplate(s: Schema)
    requires "tags" in s.required
    ensures var tags := SampleTags(s);
            "tags: [" + Join(seq(|tags|, i requires 0 <= i < |tags| => "\"" + tags[i] + "\""), ", ") + "]"
            in TemplateLines(s)
  {
    var tags := SampleTags(s);
    assert QuotedTags(s) == seq(|tags|, i requires 0 <= i < |tags| => "\"" + tags[i] + "\"");
    assert FieldLines(s, "tags") == ["tags" + ": [" + Join(QuotedTags(s), ", ") + "]"];
    assert "tags" + ": [" == "tags: [";
    FieldLineInTemplate(s, "tags", 0);
  }

  /** Without a vocabulary the `tags` line shows the two placeholders. */
  lemma PlaceholderTagsInTemplate(s: Schema)
    requires "tags" in s.required && s.tags.None?
    ensures "tags: [\"tag1\", \"tag2\"]" in TemplateLines(s)
  {
    TagsLineInTemplate(s);
    var tags := SampleTags(s);
    var quoted := seq(|tags|, i requires 0 <= i < |tags| => "\"" + tags[i] + "\"");
    assert tags == ["tag1", "tag2"];
    assert |quoted| == 2 && quoted[0] == "\"" + "tag1" + "\"" && quoted[1] == "\"" + "tag2" + "\"";
    assert "\"" + "tag1" + "\"" == "\"tag1\"" && "\"" + "tag2" + "\"" == "\"tag2\"";
    assert quoted == ["\"tag1\"", "\"tag2\""];
    assert Join(quoted, ", ") == "\"tag1\"" + ", " + "\"tag2\"";
    assert "tags: [" + ("\"tag1\"" + ", " + "\"tag2\"") + "]" == "tags: [\"tag1\", \"tag2\"]";
  }

  /** `template interview`: both enumerated fields default to their first
      entries, the category to "技术基础", and the schema's lack of a
      vocabulary shows as the two placeholder tags. */
  lemma InterviewTemplateDefaults()
    ensures "difficulty: \"easy\"" in TemplateLines(Table["interview"])
    ensures "category: \"技术基础\"" in TemplateLines(Table["interview"])
    ensures "tags: [\"tag1\", \"tag2\"]" in TemplateLines(Table["interview"])
  {
    var s := Table["interview"];
    assert "difficulty" in s.required && "category" in s.required && "tags" in s.required by {
      assert s.required == ["title", "description", "tags", "difficulty", "category"];
      assert s.required[2] == "tags" && s.required[3] == "difficulty" && s.required[4] == "category";
    }
    assert s.tags.None?;
    InterviewDefaults(s);
    PlaceholderTagsInTemplate(s);
  }

  lemma InterviewDefaults(s: Schema)
    requires "difficulty" in s.required && "category" in s.required
    requires s.difficulties == Some(["easy", "medium", "hard"])
    requires s.categories == Some(["技术基础", "算法题", "系统设计", "项目经验", "行为面试"])
    ensures "difficulty: \"easy\"" in TemplateLines(s)
    ensures "category: \"技术基础\"" in TemplateLines(s)
  {
    var ds, cs := s.difficulties.value, s.categories.value;
    assert "difficulty: \"easy\"" in TemplateLines(s) by {
      EnumDefaultInTemplate(s, "difficulty", ds);
      assert "difficulty" + ": \"" + "easy" + "\"" == "difficulty: \"easy\"";
    }
    assert "category: \"技术基础\"" in TemplateLines(s) by {
      EnumDefaultInTemplate(s, "category", cs);
      assert "category" + ": \"" + "技术基础" + "\"" == "category: \"技术基础\"";
    }
  }

  // ------------------------------------------------- the text as a whole

  predicate AllNoNewline(xs: seq<string>) {
    forall i :: 0 <= i < |xs| ==> '\n' !in xs[i]
  }

  predicate OptNoNewline(o: Option<seq<string>>) {
    o.Some? ==> AllNoNewline(o.value)
  }

  /** No string of the schema contains a line break. */
  predicate NewlineFree(s: Schema) {
    && AllNoNewline(s.required) && OptNoNewline(s.tags) && OptNoNewline(s.difficulties)
    && OptNoNewline(s.categories) && OptNoNewline(s.projectTypes) && OptNoNewline(s.statuses)
  }

  lemma FirstOrNoNewline(list: Option<seq<string>>, fallback: string)
    requires OptNoNewline(list) && '\n' !in fallback
    ensures '\n' !in FirstOr(list, fallback)
  {
  }

  lemma KeyLineNoNewline(field: string, value: string)
    requires '\n' !in field && '\n' !in value
    ensures '\n' !in field + ": " + value
  {
    assert '\n' !in ": ";
  }

  lemma TagsLineNoNewline(s: Schema)
    requires NewlineFree(s)
    ensures AllNoNewline(FieldLines(s, "tags"))
  {
    var tags := SampleTags(s);
    var quoted := QuotedTags(s);
    forall i | 0 <= i < |quoted| ensures '\n' !in quoted[i] {
      assert s.tags.Some? ==> tags[i] == s.tags.value[i];
      assert '\n' !in "\"";
    }
    JoinAvoids(quoted, ", ", '\n');
    assert '\n' !in ": [" && '\n' !in "]";
    var line := "tags" + ": [" + Join(quoted, ", ") + "]";
    assert FieldLines(s, "tags") == [line];
  }

  lemma TechStackNoNewline(s: Schema)
    ensures AllNoNewline(FieldLines(s, "tech_stack"))
  {
    var lines := FieldLines(s, "tech_stack");
    assert '\n' !in lines[0];
    assert '\n' !in lines[1];
    assert '\n' !in lines[2];
    assert '\n' !in lines[3];
  }

  lemma FieldLinesNoNewline(s: Schema, field: string)
    requires NewlineFree(s) && '\n' !in field
    ensures AllNoNewline(FieldLines(s, field))
  {
    if field == "tags" {
      TagsLineNoNewline(s);
    } else if field == "tech_stack" {
      TechStackNoNewline(s);
    } else if field == "sidebar_position" {
      KeyLineNoNewline(field, "1");
    } else {
      FirstOrNoNewline(s.difficulties, "easy");
      FirstOrNoNewline(s.categories, "general");
      FirstOrNoNewline(s.projectTypes, "web_application");
      FirstOrNoNewline(s.statuses, "planned");
      match EnumDefault(s, field)
      case Some(d) =>
        assert '\n' !in Quote(d);
        KeyLineNoNewline(field, Quote(d));
      case None =>
        KeyLineNoNewline(field, "\"\"");
    }
  }

  lemma {:induction false} BodyNoNewline(s: Schema, fields: seq<string>)
    requires NewlineFree(s) && AllNoNewline(fields)
    ensures AllNoNewline(Body(s, fields))
    decreases |fields|
  {
    if fields != [] {
      FieldLinesNoNewline(s, fields[0]);
      BodyNoNewline(s, fields[1..]);
      var a, b := FieldLines(s, fields[0]), Body(s, fields[1..]);
      forall i | 0 <= i < |a + b| ensures '\n' !in (a + b)[i] {
        if i < |a| { assert (a + b)[i] == a[i]; } else { assert (a + b)[i] == b[i - |a|]; }
      }
    }
  }

  /** The generated text, split at line breaks, gives back the skeleton
      lines; so its top-level keys are the required fields in schema order. */
  lemma TemplateReadsBack(s: Schema)
    requires NewlineFree(s)
    requires forall i :: 0 <= i < |s.required| ==> PlainKey(s.required[i])
    ensures Split(Join(TemplateLines(s), "\n"), '\n') == TemplateLines(s)
    ensures TopLevelKeys(Split(Join(TemplateLines(s), "\n"), '\n')) == s.required
  {
    var body := Body(s, s.required);
    BodyNoNewline(s, s.required);
    var lines := TemplateLines(s);
    forall i | 0 <= i < |lines| ensures '\n' !in lines[i] {
      if 1 <= i < |lines| - 2 { assert lines[i] == body[i - 1]; }
    }
    SplitJoin(lines, '\n');
    TemplateKeysAreRequiredFields(s);
  }

  lemma BasicShapeNewlineFree(s: Schema)
    requires s.required == BasicRequired && s.tags.Some? && AllNoNewline(s.tags.value)
    requires s.difficulties.None? && s.categories.None? && s.projectTypes.None? && s.statuses.None?
    ensures NewlineFree(s)
  {
    assert AllNoNewline(BasicRequired);
  }

  lemma BasicNewlineFree(c: string)
    requires c in Table && c != "projects" && c != "interview"
    ensures NewlineFree(Table[c])
  {
    if c == "computer-science" {
      assert AllNoNewline(Table["computer-science"].tags.value);
    } else if c == "frontend" {
      assert AllNoNewline(Table["frontend"].tags.value);
    } else if c == "backend" {
      assert AllNoNewline(Table["backend"].tags.value);
    } else {
      assert c == "ai";
      assert AllNoNewline(Table["ai"].tags.value);
    }
    BasicShapeNewlineFree(Table[c]);
  }

  lemma ProjectsNewlineFree()
    ensures NewlineFree(Table["projects"])
  {
    var s := Table["projects"];
    assert AllNoNewline(s.required);
    assert OptNoNewline(s.tags);
    assert OptNoNewline(s.projectTypes);
    assert OptNoNewline(s.statuses);
  }

  lemma InterviewNewlineFree()
    ensures NewlineFree(Table["interview"])
  {
    var s := Table["interview"];
    assert AllNoNewline(s.required);
    assert OptNoNewline(s.difficulties);
    assert OptNoNewline(s.categories);
  }

  /** Every schema of the table is free of line breaks. */
  lemma TableNewlineFree(c: string)
    requires c in Table
    ensures NewlineFree(Table[c])
  {
    if c == "projects" {
      ProjectsNewlineFree();
    } else if c == "interview" {
      InterviewNewlineFree();
    } else {
      BasicNewlineFree(c);
    }
  }

  /** For every category of the table, the generated text lists exactly the
      category's required fields as its top-level keys, in schema order. */
  lemma GeneratedKeysAreRequiredFields(category: string)
    requires SchemaFor(category).Some?
    ensures TopLevelKeys(Split(GenerateTemplate(category), '\n')) == SchemaFor(category).value.required
  {
    TableNewlineFree(category);
    TableWellFormed(category);
    TemplateReadsBack(SchemaFor(category).value);
  }
}
