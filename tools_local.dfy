/**
  The project-file helpers the local model may call (aegis_llm/tools_local.py):
  listing project files and reading the start of one file, both confined to
  the project root.

  The configured root, path resolution, the recursive glob and file reading
  are outside this model: resolved paths are component sequences, the glob's
  output is the sequence of paths it yields in its order, and a file's
  decoded text is a parameter.
*/
module ToolsLocal {
  import opened Wrappers
  import opened PyStr
  import opened Paths

  /** The safety test of both helpers: `project_root` is `p` or one of `p.parents`. */
  predicate WithinRoot(projectRoot: seq<string>, p: seq<string>) {
    projectRoot in Parents(p) || projectRoot == p
  }

  /** The test compares whole components, never text. */
  lemma WithinRootByComponents(projectRoot: seq<string>, p: seq<string>)
    ensures WithinRoot(projectRoot, p) <==> IsUnder(projectRoot, p)
  {
    ParentOrSelf(projectRoot, p);
  }

  /** A sibling directory whose name extends the root's name is refused, though its text starts with the root's text. */
  lemma SiblingRefused()
    ensures !WithinRoot(["home", "proj"], ["home", "proj2"])
    ensures StartsWith(PathText(["home", "proj2"]), PathText(["home", "proj"]))
  {
    WithinRootByComponents(["home", "proj"], ["home", "proj2"]);
    assert ["home", "proj2"][..2] == ["home", "proj2"];
    assert "proj2" != "proj";
    assert PathText(["home", "proj"]) == "/home/proj";
    assert PathText(["home", "proj2"]) == "/home/proj2";
  }

  // ---------------------------------------------------------------------
  // list_project_files
  // ---------------------------------------------------------------------

  /** One path the recursive glob yields, and whether it is a regular file. */
  datatype Entry = Entry(path: seq<string>, isFile: bool)

  /** `{"path": str(rel), "name": p.name}`. */
  datatype Listed = Listed(path: string, name: string)

  /** All entries lie under `root`. */
  predicate AllUnder(root: seq<string>, entries: seq<Entry>) {
    forall e :: e in entries ==> IsUnder(root, e.path)
  }

  /** The row of one file: its path relative to the project root, and its name. */
  function ListedOf(projectRoot: seq<string>, e: Entry): Listed
    requires IsUnder(projectRoot, e.path)
  {
    Listed(RelText(RelativeTo(projectRoot, e.path)), Name(e.path))
  }

  /** A file's row ends with its name and reads back as its path below the project root. */
  lemma ListedPath(projectRoot: seq<string>, e: Entry)
    requires IsUnder(projectRoot, e.path) && |e.path| > |projectRoot|
    ensures ListedOf(projectRoot, e).name == e.path[|e.path| - 1]
    ensures ListedOf(projectRoot, e).path == Join(e.path[|projectRoot|..], "/")
  {
  }

  /** The entries the loop does not skip (`if not p.is_file(): continue`), in glob order. */
  function Regular(entries: seq<Entry>): (r: seq<Entry>)
    ensures |r| <= |entries|
    ensures forall i :: 0 <= i < |r| ==> r[i].isFile && r[i] in entries
    ensures forall k :: 0 <= k < |entries| && entries[k].isFile ==> entries[k] in r
  {
    if entries == [] then []
    else
      var init := entries[..|entries| - 1];
      var e := entries[|entries| - 1];
      assert forall k :: 0 <= k < |init| ==> init[k] == entries[k];
      Regular(init) + (if e.isFile then [e] else [])
  }

  lemma {:induction false} RegularAppend(a: seq<Entry>, b: seq<Entry>)
    ensures Regular(a + b) == Regular(a) + Regular(b)
    decreases |b|
  {
    if b == [] {
      assert a + b == a;
    } else {
      var init, e := b[..|b| - 1], b[|b| - 1];
      var tail := if e.isFile then [e] else [];
      assert (a + b)[..|a + b| - 1] == a + init && (a + b)[|a + b| - 1] == e;
      assert Regular(a + b) == Regular(a + init) + tail;
      RegularAppend(a, init);
      assert Regular(b) == Regular(init) + tail;
      assert Regular(a) + Regular(init) + tail == Regular(a) + (Regular(init) + tail);
    }
  }

  /** One row per entry. */
  function Rows(projectRoot: seq<string>, es: seq<Entry>): (r: seq<Listed>)
    requires AllUnder(projectRoot, es)
    ensures |r| == |es| && forall i :: 0 <= i < |es| ==> r[i] == ListedOf(projectRoot, es[i])
  {
    seq(|es|, i requires 0 <= i < |es| => ListedOf(projectRoot, es[i]))
  }

  /** The rows of the regular files, before any cap. */
  function Files(projectRoot: seq<string>, entries: seq<Entry>): seq<Listed>
    requires AllUnder(projectRoot, entries)
  {
    Rows(projectRoot, Regular(entries))
  }

  /** Rows and the file filter both distribute over concatenation. */
  lemma FilesAppend(projectRoot: seq<string>, a: seq<Entry>, b: seq<Entry>)
    requires AllUnder(projectRoot, a + b)
    ensures AllUnder(projectRoot, a) && AllUnder(projectRoot, b)
    ensures Files(projectRoot, a + b) == Files(projectRoot, a) + Files(projectRoot, b)
  {
    assert forall e :: e in a ==> e in a + b;
    assert forall e :: e in b ==> e in a + b;
    RegularAppend(a, b);
  }

  /** At most `max(max_files, 1)` rows: the cap is tested only after a row is appended. */
  function Cap(maxFiles: int): (c: int)
    ensures c >= 1 && c >= maxFiles
  {
    if maxFiles >= 1 then maxFiles else 1
  }

  /** The result of a permitted listing: the first `Cap(maxFiles)` file rows. */
  function Listing(projectRoot: seq<string>, entries: seq<Entry>, maxFiles: int): seq<Listed>
    requires AllUnder(projectRoot, entries)
  {
    TakePrefix(Files(projectRoot, entries), Cap(maxFiles))
  }

  /** The listing holds `min(files, max(max_files, 1))` rows, the first ones in glob order. */
  lemma ListingBound(projectRoot: seq<string>, entries: seq<Entry>, maxFiles: int)
    requires AllUnder(projectRoot, entries)
    ensures var fs := Files(projectRoot, entries);
      && |Listing(projectRoot, entries, maxFiles)| == (if |fs| <= Cap(maxFiles) then |fs| else Cap(maxFiles))
      && Listing(projectRoot, entries, maxFiles) == fs[..|Listing(projectRoot, entries, maxFiles)|]
  {
  }

  /** Rows collected up to the cap, or all rows below it, are the listing. */
  lemma CappedListing(projectRoot: seq<string>, entries: seq<Entry>, i: nat, results: seq<Listed>, maxFiles: int)
    requires i <= |entries| && AllUnder(projectRoot, entries)
    requires results == Files(projectRoot, entries[..i])
    requires (i == |entries| && |results| < Cap(maxFiles)) || |results| == Cap(maxFiles)
    ensures results == Listing(projectRoot, entries, maxFiles)
  {
    assert entries == entries[..i] + entries[i..];
    FilesAppend(projectRoot, entries[..i], entries[i..]);
    if i == |entries| {
      assert entries[i..] == [];
    }
  }

  /** The default `max_files`. */
  const DefaultMaxFiles := 50

  /**
    `list_project_files`: refuse a `root` outside the project root, otherwise
    collect the listing.
  */
  method ListProjectFiles(projectRoot: seq<string>, root: seq<string>, entries: seq<Entry>, maxFiles: int)
    returns (r: Result<seq<Listed>, string>)
    requires AllUnder(root, entries)
    ensures !WithinRoot(projectRoot, root) ==> r == Failure("Refusing to list outside project root: " + PathText(root))
    ensures WithinRoot(projectRoot, root) ==> AllUnder(projectRoot, entries) && r == Success(Listing(projectRoot, entries, maxFiles))
  {
    if !WithinRoot(projectRoot, root) {
      return Failure("Refusing to list outside project root: " + PathText(root));
    }
    WithinRootByComponents(projectRoot, root);
    forall e | e in entries
      ensures IsUnder(projectRoot, e.path)
    {
      IsUnderTrans(projectRoot, root, e.path);
    }
    var results := CollectFiles(projectRoot, entries, maxFiles);
    return Success(results);
  }

  /**
    The loop of `list_project_files`: walk the glob's entries, skip what is
    not a regular file, append a row per file and stop once `max_files` rows
    are collected.
  */
  method CollectFiles(projectRoot: seq<string>, entries: seq<Entry>, maxFiles: int) returns (results: seq<Listed>)
    requires AllUnder(projectRoot, entries)
    ensures results == Listing(projectRoot, entries, maxFiles)
  {
    results := [];
    var i := 0;
    while i < |entries|
      invariant 0 <= i <= |entries|
      invariant AllUnder(projectRoot, entries[..i])
      invariant results == Files(projectRoot, entries[..i])
      invariant |results| < Cap(maxFiles)
    {
      var e := entries[i];
      FilesStep(projectRoot, entries, i);
      if e.isFile {
        results := results + [ListedOf(projectRoot, e)];
        if |results| >= maxFiles {
          i := i + 1;
          break;
        }
      }
      i := i + 1;
    }
    CappedListing(projectRoot, entries, i, results, maxFiles);
  }

  /** One more entry adds its row exactly when it is a regular file. */
  lemma FilesStep(projectRoot: seq<string>, entries: seq<Entry>, i: nat)
    requires i < |entries| && AllUnder(projectRoot, entries)
    ensures AllUnder(projectRoot, entries[..i]) && AllUnder(projectRoot, entries[..i + 1])
    ensures Files(projectRoot, entries[..i + 1]) == Files(projectRoot, entries[..i])
      + (if entries[i].isFile then [ListedOf(projectRoot, entries[i])] else [])
  {
    assert entries[..i + 1] == entries[..i] + [entries[i]];
    assert entries == entries[..i + 1] + entries[i + 1..];
    FilesAppend(projectRoot, entries[..i + 1], entries[i + 1..]);
    FilesAppend(projectRoot, entries[..i], [entries[i]]);
  }

  // ---------------------------------------------------------------------
  // read_file_snippet
  // ---------------------------------------------------------------------

  /** `{"path": ..., "snippet": ..., "truncated": str(truncated)}`. */
  datatype Snippet = Snippet(path: string, snippet: string, truncated: string)

  /** The default `max_chars`. */
  const DefaultMaxChars := 4000

  /**
    `read_file_snippet`: `resolved` is `(project_root / rel_path).resolve()`
    and `text` the file's decoded contents.
  */
  function ReadFileSnippet(projectRoot: seq<string>, relPath: string, resolved: seq<string>, text: string, maxChars: int)
    : (r: Result<Snippet, string>)
    ensures !WithinRoot(projectRoot, resolved) ==> r == Failure("Refusing to read outside project root: " + relPath)
    ensures r.Success? ==> IsUnder(projectRoot, resolved)
  {
    if !WithinRoot(projectRoot, resolved) then Failure("Refusing to read outside project root: " + relPath)
    else
      WithinRootByComponents(projectRoot, resolved);
      Success(Snippet(
        RelText(RelativeTo(projectRoot, resolved)),
        TakePrefix(text, maxChars),
        if |text| > maxChars then "True" else "False"))
  }

  /**
    A permitted read returns a prefix of the text, `max_chars` long unless the
    text is shorter, and `truncated` says "True" exactly when text was cut off.
  */
  lemma SnippetIsPrefix(projectRoot: seq<string>, relPath: string, resolved: seq<string>, text: string, maxChars: int)
    requires WithinRoot(projectRoot, resolved)
    ensures var r := ReadFileSnippet(projectRoot, relPath, resolved, text, maxChars);
      && r.Success?
      && r.value.snippet == text[..|r.value.snippet|]
      && (maxChars >= 0 ==> |r.value.snippet| == if |text| <= maxChars then |text| else maxChars)
      && (r.value.truncated == "True" <==> |text| > maxChars)
      && (r.value.truncated == "False" <==> |text| <= maxChars)
      && (r.value.truncated == "False" ==> r.value.snippet == text)
  {
  }
}
