/** The command line: the `validate` run over all documents, the `template`
    command and the usage fallback, reduced to what they decide. */
module Cli {
  import opened Results
  import opened Strings
  import opened Schemas
  import opened Validator
  import opened Scan
  import Template

  /** A printed block of the report: a document with errors or warnings. */
  datatype Entry = Entry(path: string, report: Report)

  /** What a `validate` run prints in its summary. */
  datatype Summary = Summary(fileCount: nat, entries: seq<Entry>, totalErrors: nat, totalWarnings: nat)

  /** The decision of one invocation. */
  datatype Outcome =
    | MissingDocs
    | Validated(summary: Summary)
    | TemplatePrinted(text: string)
    | TemplateUsage(categories: string)
    | Usage(categories: string)

  /** The process exit status of an outcome. */
  function ExitCode(o: Outcome): int {
    match o
    case MissingDocs => 1
    case Validated(s) => if s.totalErrors > 0 then 1 else 0
    case TemplatePrinted(_) => 0
    case TemplateUsage(_) => 1
    case Usage(_) => 0
  }

  /** `Object.keys(METADATA_SCHEMAS).join(', ')`. */
  function CategoryList(): string {
    Join(CategoryNames, ", ")
  }

  function ReportOf(d: Document, parse: Parser): Report {
    ValidateFileMetadata(d.path, d.content, parse)
  }

  /** Error count over a list of reports. */
  function SumErrors(rs: seq<Report>): nat
    decreases |rs|
  {
    if rs == [] then 0 else SumErrors(rs[..|rs| - 1]) + |rs[|rs| - 1].errors|
  }

  /** Warning count over a list of reports. */
  function SumWarnings(rs: seq<Report>): nat
    decreases |rs|
  {
    if rs == [] then 0 else SumWarnings(rs[..|rs| - 1]) + |rs[|rs| - 1].warnings|
  }

  /** The total is positive exactly when some report has an error. */
  lemma {:induction false} SumErrorsPositive(rs: seq<Report>)
    ensures SumErrors(rs) > 0 <==> exists i :: 0 <= i < |rs| && rs[i].errors != []
    decreases |rs|
  {
    if rs != [] {
      var init := rs[..|rs| - 1];
      SumErrorsPositive(init);
      if exists i :: 0 <= i < |init| && init[i].errors != [] {
        var i :| 0 <= i < |init| && init[i].errors != [];
        assert rs[i] == init[i];
      }
      if exists i :: 0 <= i < |rs| && rs[i].errors != [] {
        var i :| 0 <= i < |rs| && rs[i].errors != [];
        if i < |rs| - 1 {
          assert init[i] == rs[i];
        }
      }
    }
  }

  /** Warnings never enter the error total. */
  lemma {:induction false} WarningsDoNotCount(rs: seq<Report>, ws: seq<seq<string>>)
    requires |ws| == |rs|
    ensures SumErrors(seq(|rs|, i requires 0 <= i < |rs| => Report(rs[i].errors, ws[i]))) == SumErrors(rs)
    decreases |rs|
  {
    if rs != [] {
      var rs' := seq(|rs|, i requires 0 <= i < |rs| => Report(rs[i].errors, ws[i]));
      var n := |rs| - 1;
      WarningsDoNotCount(rs[..n], ws[..n]);
      assert rs'[..n] == seq(n, i requires 0 <= i < n => Report(rs[..n][i].errors, ws[..n][i]));
    }
  }

  lemma SumStep(rs: seq<Report>, i: nat)
    requires i < |rs|
    ensures SumErrors(rs[..i + 1]) == SumErrors(rs[..i]) + |rs[i].errors|
    ensures SumWarnings(rs[..i + 1]) == SumWarnings(rs[..i]) + |rs[i].warnings|
  {
    assert rs[..i + 1][..i] == rs[..i];
  }

  /** The printed blocks, in document order: one for each document whose
      report has an error or a warning. */
  function Blocks(paths: seq<string>, reports: seq<Report>): seq<Entry>
    requires |paths| == |reports|
    decreases |reports|
  {
    if reports == [] then []
    else
      var n := |reports| - 1;
      Blocks(paths[..n], reports[..n])
      + (if reports[n].errors != [] || reports[n].warnings != [] then [Entry(paths[n], reports[n])] else [])
  }

  /** The `validate` loop over the documents' reports, in document order:
      a block for every document with errors or warnings, and the counts
      added up. */
  method Tally(paths: seq<string>, reports: seq<Report>) returns (s: Summary)
    requires |paths| == |reports|
    ensures s.fileCount == |reports|
    ensures s.totalErrors == SumErrors(reports)
    ensures s.totalWarnings == SumWarnings(reports)
    ensures s.totalErrors > 0 <==> exists i :: 0 <= i < |reports| && reports[i].errors != []
    ensures forall e :: e in s.entries ==> e.report.errors != [] || e.report.warnings != []
    ensures forall i :: 0 <= i < |reports| && (reports[i].errors != [] || reports[i].warnings != [])
                        ==> Entry(paths[i], reports[i]) in s.entries
    ensures |s.entries| <= |reports|
    ensures s.entries == Blocks(paths, reports)
  {
    var totalErrors, totalWarnings := 0, 0;
    var entries: seq<Entry> := [];
    var i := 0;
    while i < |reports|
      invariant 0 <= i <= |reports|
      invariant totalErrors == SumErrors(reports[..i])
      invariant totalWarnings == SumWarnings(reports[..i])
      invariant |entries| <= i
      invariant entries == Blocks(paths[..i], reports[..i])
      invariant forall e :: e in entries ==> e.report.errors != [] || e.report.warnings != []
      invariant forall j :: 0 <= j < i && (reports[j].errors != [] || reports[j].warnings != [])
                          ==> Entry(paths[j], reports[j]) in entries
    {
      var r := reports[i];
      SumStep(reports, i);
      assert paths[..i + 1][..i] == paths[..i] && reports[..i + 1][..i] == reports[..i];
      assert Blocks(paths[..i + 1], reports[..i + 1])
             == Blocks(paths[..i], reports[..i])
                + (if r.errors != [] || r.warnings != [] then [Entry(paths[i], r)] else []);
      if |r.errors| > 0 || |r.warnings| > 0 {
        entries := entries + [Entry(paths[i], r)];
        if |r.errors| > 0 {
          totalErrors := totalErrors + |r.errors|;
        }
        if |r.warnings| > 0 {
          totalWarnings := totalWarnings + |r.warnings|;
        }
      }
      i := i + 1;
    }
    assert reports[..|reports|] == reports;
    assert paths[..|paths|] == paths;
    SumErrorsPositive(reports);
    s := Summary(|reports|, entries, totalErrors, totalWarnings);
  }

  /** The documents' reports, validated one by one. */
  function Reports(docs: seq<Document>, parse: Parser): (rs: seq<Report>)
    ensures |rs| == |docs|
    ensures forall i :: 0 <= i < |docs| ==> rs[i] == ReportOf(docs[i], parse)
  {
    seq(|docs|, i requires 0 <= i < |docs| => ReportOf(docs[i], parse))
  }

  function PathsOf(docs: seq<Document>): (ps: seq<string>)
    ensures |ps| == |docs|
    ensures forall i :: 0 <= i < |docs| ==> ps[i] == docs[i].path
  {
    seq(|docs|, i requires 0 <= i < |docs| => docs[i].path)
  }

  /** `main(args)`. `docs` is the listing of `<cwd>/docs`, `None` when that
      directory does not exist. */
  method RunCommand(args: seq<string>, cwd: string, docs: Option<seq<Node>>, parse: Parser) returns (o: Outcome)
    ensures |args| == 0 || (args[0] != "validate" && args[0] != "template") ==>
              o == Usage(CategoryList()) && ExitCode(o) == 0
    ensures |args| > 0 && args[0] == "validate" && docs.None? ==> o == MissingDocs && ExitCode(o) == 1
    ensures |args| > 0 && args[0] == "validate" && docs.Some? ==>
              var files := ScanDirectory(PathJoin(cwd, "docs"), docs.value);
              o.Validated? && o.summary.fileCount == |files| &&
              (ExitCode(o) != 0 <==> exists i :: 0 <= i < |files| && ReportOf(files[i], parse).errors != [])
    ensures |args| > 0 && args[0] == "template" ==>
              (ExitCode(o) != 0 <==> |args| < 2 || SchemaFor(args[1]).None?)
    ensures |args| > 0 && args[0] == "template" && ExitCode(o) != 0 ==> o == TemplateUsage(CategoryList())
    ensures |args| > 0 && args[0] == "template" && ExitCode(o) == 0 ==>
              o.TemplatePrinted? && o.text == Template.GenerateTemplate(args[1]) && o.text != ""
  {
    if |args| > 0 && args[0] == "validate" {
      if docs.None? {
        return MissingDocs;
      }
      var files := ScanDirectory(PathJoin(cwd, "docs"), docs.value);
      var summary := Tally(PathsOf(files), Reports(files, parse));
      return Validated(summary);
    } else if |args| > 0 && args[0] == "template" {
      if |args| < 2 || args[1] == "" || SchemaFor(args[1]).None? {
        return TemplateUsage(CategoryList());
      }
      return TemplatePrinted(Template.GenerateTemplate(args[1]));
    } else {
      return Usage(CategoryList());
    }
  }
}
