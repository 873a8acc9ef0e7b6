/** The static per-category schema table of the linter. */
module Schemas {
  import opened Results

  /** What one category of documents must and may declare. A missing
      enumeration or tag vocabulary is `None` (the property is absent in the
      table, not an empty list). */
  datatype Schema = Schema(
    required: seq<string>,
    optional: seq<string>,
    tags: Option<seq<string>>,
    difficulties: Option<seq<string>>,
    projectTypes: Option<seq<string>>,
    statuses: Option<seq<string>>,
    categories: Option<seq<string>>)

  /** The categories in the table's declaration order (the order
      `Object.keys` lists them in). */
  const CategoryNames: seq<string> :=
    ["computer-science", "frontend", "backend", "ai", "projects", "interview"]

  const Table: map<string, Schema> := map[
    "computer-science" := Schema(
      ["title", "description", "tags", "sidebar_position"],
      ["difficulty", "prerequisites", "estimated_time", "related_topics"],
      Some(["算法", "数据结构", "操作系统", "计算机网络", "数据库", "系统编程"]),
      None, None, None, None),
    "frontend" := Schema(
      ["title", "description", "tags", "sidebar_position"],
      ["framework_version", "browser_support", "demo_link", "source_code"],
      Some(["Vue", "React", "TypeScript", "CSS", "JavaScript", "前端工程化"]),
      None, None, None, None),
    "backend" := Schema(
      ["title", "description", "tags", "sidebar_position"],
      ["tech_stack", "performance", "security_level", "scalability"],
      Some(["Node.js", "Express", "数据库", "API", "微服务", "部署"]),
      None, None, None, None),
    "ai" := Schema(
      ["title", "description", "tags", "sidebar_position"],
      ["model_type", "dataset", "accuracy", "use_cases"],
      Some(["LangChain", "RAG", "提示工程", "机器学习", "AI应用"]),
      None, None, None, None),
    "projects" := Schema(
      ["title", "description", "tags", "project_type", "tech_stack", "status"],
      ["duration", "team_size", "demo_link", "github_link"],
      Some(["Web应用", "移动应用", "工具库", "开源项目"]),
      None,
      Some(["web_application", "mobile_app", "library", "tool", "plugin"]),
      Some(["completed", "in-progress", "planned", "archived"]),
      None),
    "interview" := Schema(
      ["title", "description", "tags", "difficulty", "category"],
      ["company", "frequency", "follow_up", "related_questions"],
      None,
      Some(["easy", "medium", "hard"]),
      None,
      None,
      Some(["技术基础", "算法题", "系统设计", "项目经验", "行为面试"]))
  ]

  predicate NoDuplicates(xs: seq<string>) {
    forall i, j :: 0 <= i < j < |xs| ==> xs[i] != xs[j]
  }

  /** A field name that can stand as a top-level YAML key on a line of its own. */
  predicate PlainKey(f: string) {
    f != "" && f[0] != ' ' && ':' !in f && '\n' !in f
  }

  /** A schema whose required fields are distinct plain keys and whose tag
      vocabulary, when present, is non-empty. */
  predicate WellFormed(s: Schema) {
    && NoDuplicates(s.required)
    && (forall i :: 0 <= i < |s.required| ==> PlainKey(s.required[i]))
    && (s.tags.Some? ==> |s.tags.value| > 0)
  }

  /** The table's own keys are exactly the listed categories, listed once each. */
  lemma TableKeys()
    ensures Table.Keys == set c | c in CategoryNames
    ensures NoDuplicates(CategoryNames)
  {
  }

  const BasicRequired: seq<string> := ["title", "description", "tags", "sidebar_position"]

  lemma BasicSchemasWellFormed(c: string)
    requires c in Table && c != "projects" && c != "interview"
    ensures WellFormed(Table[c])
  {
    assert Table[c].required == BasicRequired;
    assert Table[c].tags.Some? && |Table[c].tags.value| > 0;
    assert NoDuplicates(BasicRequired);
  }

  lemma ProjectsWellFormed()
    ensures WellFormed(Table["projects"])
  {
    var req := ["title", "description", "tags", "project_type", "tech_stack", "status"];
    assert Table["projects"].required == req;
    assert NoDuplicates(req);
    assert forall i :: 0 <= i < |req| ==> PlainKey(req[i]);
    assert Table["projects"].tags.Some? && |Table["projects"].tags.value| > 0;
  }

  lemma InterviewWellFormed()
    ensures WellFormed(Table["interview"])
  {
    var req := ["title", "description", "tags", "difficulty", "category"];
    assert Table["interview"].required == req;
    assert NoDuplicates(req);
    assert forall i :: 0 <= i < |req| ==> PlainKey(req[i]);
    assert Table["interview"].tags.None?;
  }

  /** Every schema of the table is well formed. */
  lemma TableWellFormed(c: string)
    requires c in Table
    ensures WellFormed(Table[c])
  {
    if c == "projects" {
      ProjectsWellFormed();
    } else if c == "interview" {
      InterviewWellFormed();
    } else {
      BasicSchemasWellFormed(c);
    }
  }

  /** `METADATA_SCHEMAS[category]` restricted to the table's own keys. */
  function SchemaFor(category: string): (r: Option<Schema>)
    ensures r.Some? <==> category in CategoryNames
    ensures r.Some? ==> r.value == Table[category]
  {
    TableKeys();
    if category in Table then Some(Table[category]) else None
  }

  /** Property names every plain JavaScript object inherits from
      `Object.prototype`; each reads as a truthy function or object. */
  const InheritedKeys: set<string> := {
    "constructor", "__proto__", "toString", "toLocaleString", "valueOf",
    "hasOwnProperty", "isPrototypeOf", "propertyIsEnumerable",
    "__defineGetter__", "__defineSetter__", "__lookupGetter__", "__lookupSetter__"
  }

  /** What `METADATA_SCHEMAS[category]` yields as written: an own schema, an
      inherited prototype member (truthy, but with no `required` list), or
      `undefined`. */
  datatype Lookup = Own(schema: Schema) | Inherited | Absent

  function LookupAsWritten(category: string): (r: Lookup)
    ensures r.Own? <==> SchemaFor(category).Some?
    ensures r.Inherited? <==> category in InheritedKeys
    ensures r.Own? ==> r.schema == SchemaFor(category).value
  {
    if category in Table then Own(Table[category])
    else if category in InheritedKeys then Inherited
    else Absent
  }
}
