/** The schema lookup as written reads inherited `Object.prototype` members:
    a category named like one of them is treated as having a schema. */
module AsWrittenLookup {
  import opened Results
  import opened Strings
  import opened JsValues
  import opened Schemas
  import opened Paths
  import opened Validator
  import Template

  /** The TypeError of `schema.required.forEach` when `schema` is an inherited
      function or object without a `required` list. */
  const ForEachOnUndefined: string := "Cannot read properties of undefined (reading 'forEach')"

  /** Validation as written: an inherited member passes the `!schema` test,
      the required-field loop throws, and the catch records one error. */
  function ValidateFrontMatterAsWritten(category: string, fm: FrontMatter): (r: Report)
    ensures category !in InheritedKeys ==> r == ValidateFrontMatter(category, fm)
    ensures category in InheritedKeys ==> r.errors == [ParseFailure(ForEachOnUndefined)] && r.warnings == []
  {
    match LookupAsWritten(category)
    case Own(s) => CheckSchema(s, fm)
    case Absent => Report([], [UnknownCategoryWarning(category)])
    case Inherited => Report([ParseFailure(ForEachOnUndefined)], [])
  }

  /** Template generation as written: an inherited member passes both the
      `main` guard and the `!schema` test, and `forEach` throws uncaught. */
  function GenerateTemplateAsWritten(category: string): (r: Result<string>)
    ensures category !in InheritedKeys ==> r == Ok(Template.GenerateTemplate(category))
    ensures category in InheritedKeys ==> r == Err(ForEachOnUndefined)
  {
    match LookupAsWritten(category)
    case Inherited => Err(ForEachOnUndefined)
    case _ => Ok(Template.GenerateTemplate(category))
  }

  lemma ConstructorPathText()
    ensures Join(["docs", "constructor", "intro.md"], [Sep]) == "docs/constructor/intro.md"
  {
    var parts := ["docs", "constructor", "intro.md"];
    assert Join(parts[2..], "/") == "intro.md";
    assert Join(parts[1..], "/") == "constructor" + "/" + "intro.md";
  }

  lemma ConstructorPath()
    ensures CategoryFromPath("docs/constructor/intro.md") == "constructor"
  {
    assert Sep !in "constructor" && Sep !in "intro.md";
    CategoryOfDocsPath([], "constructor", ["intro.md"]);
    assert [] + [DocsSegment, "constructor"] + ["intro.md"] == ["docs", "constructor", "intro.md"];
    ConstructorPathText();
  }

  lemma ConstructorIsInherited()
    ensures "constructor" in InheritedKeys && "constructor" !in CategoryNames
  {
  }

  /** A document under `docs/constructor/` gets an error as written, where
      every other category without a schema gets only the warning. */
  lemma ConstructorDirectoryCounterexample()
    ensures CategoryFromPath("docs/constructor/intro.md") == "constructor"
    ensures ValidateFrontMatterAsWritten("constructor", map[]).errors != []
    ensures ValidateFrontMatter("constructor", map[]).errors == []
    ensures ValidateFrontMatter("constructor", map[]).warnings == [UnknownCategoryWarning("constructor")]
    ensures GenerateTemplateAsWritten("constructor").Err?
  {
    ConstructorPath();
    ConstructorIsInherited();
  }

  /** The corrected lookup reads own keys only: any category the table does
      not list, inherited names included, gets exactly the unknown-category
      warning whatever the front matter. */
  lemma UnlistedCategoryOnlyWarned(category: string, fm: FrontMatter)
    requires category !in CategoryNames
    ensures ValidateFrontMatter(category, fm) == Report([], [UnknownCategoryWarning(category)])
    ensures Template.GenerateTemplate(category) == ""
  {
  }
}
