/** The walk that collects the Markdown documents under the docs directory,
    over an abstract directory tree. */
module Scan {
  import opened Strings
  import Paths

  /** A directory entry, children in the order the directory lists them. */
  datatype Node = File(name: string, content: string) | Dir(name: string, children: seq<Node>)

  /** A collected document: its path and its text. */
  datatype Document = Document(path: string, content: string)

  /** Directories the walk enters: not hidden, not `node_modules`. */
  predicate Descends(name: string) {
    !StartsWith(name, ".") && name != "node_modules"
  }

  predicate IsMarkdown(name: string) {
    EndsWith(name, ".md")
  }

  /** `path.join(dir, item)` for a plain entry name. */
  function PathJoin(dir: string, item: string): string {
    dir + [Paths.Sep] + item
  }

  lemma PathJoinKeepsSuffix(dir: string, name: string)
    requires IsMarkdown(name)
    ensures EndsWith(PathJoin(dir, name), ".md")
  {
    var p := PathJoin(dir, name);
    assert p[|p| - 3..] == name[|name| - 3..];
  }

  /** `scanDirectory(dir)`: depth first, in listing order, every `.md` file
      reached through directories the walk enters. */
  function ScanDirectory(dir: string, nodes: seq<Node>): (docs: seq<Document>)
    ensures forall i :: 0 <= i < |docs| ==> EndsWith(docs[i].path, ".md")
    decreases nodes
  {
    if nodes == [] then []
    else
      var here :=
        match nodes[0]
        case File(name, content) =>
          if IsMarkdown(name) then PathJoinKeepsSuffix(dir, name); [Document(PathJoin(dir, name), content)] else []
        case Dir(name, children) =>
          if Descends(name) then ScanDirectory(PathJoin(dir, name), children) else [];
      var rest := ScanDirectory(dir, nodes[1..]);
      assert forall i :: 0 <= i < |here + rest| ==> (here + rest)[i] in here || (here + rest)[i] in rest;
      here + rest
  }

  /** Independent of listing order: `d` is collected when some entry at this
      level is the Markdown file itself, or an entered directory whose
      entries collect it. */
  ghost predicate Collects(dir: string, nodes: seq<Node>, d: Document)
    decreases nodes
  {
    exists i :: 0 <= i < |nodes| &&
      match nodes[i]
      case File(name, content) => IsMarkdown(name) && d == Document(PathJoin(dir, name), content)
      case Dir(name, children) => Descends(name) && Collects(PathJoin(dir, name), children, d)
  }

  /** The walk returns exactly the documents the tree holds under entered
      directories. */
  lemma {:induction false} ScanFindsExactlyCollected(dir: string, nodes: seq<Node>, d: Document)
    ensures d in ScanDirectory(dir, nodes) <==> Collects(dir, nodes, d)
    decreases nodes
  {
    if nodes != [] {
      ScanFindsExactlyCollected(dir, nodes[1..], d);
      var first := nodes[0];
      var firstCollects :=
        match first
        case File(name, content) => IsMarkdown(name) && d == Document(PathJoin(dir, name), content)
        case Dir(name, children) => Descends(name) && Collects(PathJoin(dir, name), children, d);
      match first
      case File(_, _) =>
      case Dir(name, children) =>
        ScanFindsExactlyCollected(PathJoin(dir, name), children, d);
      assert Collects(dir, nodes, d) <==> firstCollects || Collects(dir, nodes[1..], d) by {
        if Collects(dir, nodes, d) && !firstCollects {
          var i :| 0 <= i < |nodes| &&
            match nodes[i]
            case File(name, content) => IsMarkdown(name) && d == Document(PathJoin(dir, name), content)
            case Dir(name, children) => Descends(name) && Collects(PathJoin(dir, name), children, d);
          assert i > 0 && nodes[1..][i - 1] == nodes[i];
        }
        if Collects(dir, nodes[1..], d) {
          var i :| 0 <= i < |nodes[1..]| &&
            match nodes[1..][i]
            case File(name, content) => IsMarkdown(name) && d == Document(PathJoin(dir, name), content)
            case Dir(name, children) => Descends(name) && Collects(PathJoin(dir, name), children, d);
          assert nodes[i + 1] == nodes[1..][i];
        }
        if firstCollects {
          assert nodes[0] == first;
        }
      }
    }
  }
}
