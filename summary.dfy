/**
 * `FileUtils.getProjectSummary`: a tally over the first fifty files of the
 * codebase walk, counting files per extension, lines, and the files whose
 * names mark them as entry points or project descriptions.
 */
module Summary {
  import opened Wrappers
  import opened Strings
  import opened Paths
  import opened Records
  import opened Scanner

  /**
   * The summary object. `languages` is the extension-to-count object, kept as
   * its entries in insertion order, which is the order in which JavaScript
   * enumerates keys that are not array indices (no extension is one). The
   * `structure` field, which the source leaves empty, is not kept.
   */
  datatype ProjectSummary = ProjectSummary(
    totalFiles: nat,
    languages: seq<(string, nat)>,
    totalLines: nat,
    mainFiles: seq<string>)

  /** How many files `getProjectSummary` asks the walk for. */
  const SummaryFiles: nat := 50

  /** The markers of a main file, looked for in the lower-cased base name. */
  const MainMarkers: seq<string> := ["index", "main", "app", "server", "package.json", "readme"]

  /** `['index', ...].some(main => name.includes(main))` with `name` the lower-cased base name. */
  predicate IsMainFile(path: string) {
    var name := ToLower(Basename(path));
    exists i :: 0 <= i < |MainMarkers| && Contains(name, MainMarkers[i])
  }

  /** `languages[ext]`, with an absent key read as 0 (`|| 0`). */
  function Lookup(languages: seq<(string, nat)>, ext: string): nat
    decreases |languages|
  {
    if languages == [] then 0
    else if languages[0].0 == ext then languages[0].1
    else Lookup(languages[1..], ext)
  }

  predicate HasKey(languages: seq<(string, nat)>, ext: string) {
    exists i :: 0 <= i < |languages| && languages[i].0 == ext
  }

  /** No key is listed twice. */
  predicate DistinctKeys(languages: seq<(string, nat)>) {
    forall i, j :: 0 <= i < j < |languages| ==> languages[i].0 != languages[j].0
  }

  /** The sum of the counts. */
  function Total(languages: seq<(string, nat)>): nat
    decreases |languages|
  {
    if languages == [] then 0 else languages[0].1 + Total(languages[1..])
  }

  /** `languages[ext] = (languages[ext] || 0) + 1`: an existing key keeps its place, a new one goes last. */
  function Bump(languages: seq<(string, nat)>, ext: string): (r: seq<(string, nat)>)
    ensures |r| == if HasKey(languages, ext) then |languages| else |languages| + 1
    ensures forall i :: 0 <= i < |languages| ==> r[i].0 == languages[i].0
    ensures HasKey(r, ext)
    decreases |languages|
  {
    if languages == [] then
      assert [(ext, 1)][0].0 == ext;
      [(ext, 1)]
    else if languages[0].0 == ext then
      var r := [(ext, languages[0].1 + 1)] + languages[1..];
      assert r[0].0 == ext && HasKey(languages, ext);
      r
    else
      var rest := Bump(languages[1..], ext);
      var r := [languages[0]] + rest;
      HasKeyCons(languages, ext);
      assert r[1..] == rest;
      HasKeyCons(r, ext);
      r
  }

  lemma HasKeyCons(languages: seq<(string, nat)>, ext: string)
    requires languages != []
    ensures HasKey(languages, ext) <==> languages[0].0 == ext || HasKey(languages[1..], ext)
  {
    if HasKey(languages, ext) && languages[0].0 != ext {
      var i :| 0 <= i < |languages| && languages[i].0 == ext;
      assert languages[1..][i - 1].0 == ext;
    }
    if HasKey(languages[1..], ext) {
      var i :| 0 <= i < |languages[1..]| && languages[1..][i].0 == ext;
      assert languages[i + 1].0 == ext;
    }
  }

  /** `file.content.split('\n').length`. */
  function LineCount(content: string): nat {
    |Split(content, '\n')|
  }

  /** The `languages` object after the `forEach` loop has seen `files`, in order. */
  function LanguagesOf(files: seq<FileRecord>): seq<(string, nat)>
    decreases |files|
  {
    if files == [] then [] else Bump(LanguagesOf(files[..|files| - 1]), files[|files| - 1].extension)
  }

  /** `totalLines` after the loop has seen `files`. */
  function LinesOf(files: seq<FileRecord>): nat
    decreases |files|
  {
    if files == [] then 0 else LinesOf(files[..|files| - 1]) + LineCount(files[|files| - 1].content)
  }

  /** `mainFiles` after the loop has seen `files`. */
  function MainFilesOf(files: seq<FileRecord>): seq<string>
    decreases |files|
  {
    if files == [] then []
    else
      var file := files[|files| - 1];
      MainFilesOf(files[..|files| - 1]) + if IsMainFile(file.path) then [file.path] else []
  }

  /** The summary of the files the walk returned. */
  function SummaryOf(files: seq<FileRecord>): ProjectSummary {
    ProjectSummary(|files|, LanguagesOf(files), LinesOf(files), MainFilesOf(files))
  }

  // ---- what the summary says about the files ----

  lemma {:induction false} BumpLookup(languages: seq<(string, nat)>, ext: string, e: string)
    ensures Lookup(Bump(languages, ext), e) == Lookup(languages, e) + (if e == ext then 1 else 0)
    decreases |languages|
  {
    if languages != [] && languages[0].0 != ext {
      BumpLookup(languages[1..], ext, e);
      assert ([languages[0]] + Bump(languages[1..], ext))[1..] == Bump(languages[1..], ext);
    }
  }

  lemma {:induction false} BumpTotal(languages: seq<(string, nat)>, ext: string)
    ensures Total(Bump(languages, ext)) == Total(languages) + 1
    decreases |languages|
  {
    if languages != [] {
      var r := Bump(languages, ext);
      if languages[0].0 == ext {
        assert r[1..] == languages[1..];
      } else {
        BumpTotal(languages[1..], ext);
        assert r[1..] == Bump(languages[1..], ext);
      }
    }
  }

  lemma {:induction false} BumpKeys(languages: seq<(string, nat)>, ext: string, e: string)
    ensures HasKey(Bump(languages, ext), e) <==> HasKey(languages, e) || e == ext
    decreases |languages|
  {
    var r := Bump(languages, ext);
    if languages == [] {
      assert r[0].0 == ext;
    } else {
      HasKeyCons(languages, e);
      HasKeyCons(r, e);
      if languages[0].0 == ext {
        assert r[1..] == languages[1..];
      } else {
        BumpKeys(languages[1..], ext, e);
        assert r[1..] == Bump(languages[1..], ext);
      }
    }
  }

  lemma BumpDistinct(languages: seq<(string, nat)>, ext: string)
    requires DistinctKeys(languages)
    ensures DistinctKeys(Bump(languages, ext))
  {
    var r := Bump(languages, ext);
    if !HasKey(languages, ext) {
      forall i, j | 0 <= i < j < |r|
        ensures r[i].0 != r[j].0
      {
        if j == |languages| {
          assert r[j].0 == ext by {
            BumpKeys(languages, ext, ext);
            var k :| 0 <= k < |r| && r[k].0 == ext;
          }
        }
      }
    }
  }

  /** How many of `files` have extension `ext`. */
  function CountExt(files: seq<FileRecord>, ext: string): nat
    decreases |files|
  {
    if files == [] then 0
    else CountExt(files[..|files| - 1], ext) + (if files[|files| - 1].extension == ext then 1 else 0)
  }

  /** The newlines in the contents of `files`. */
  function Newlines(files: seq<FileRecord>): nat
    decreases |files|
  {
    if files == [] then 0 else Newlines(files[..|files| - 1]) + Count(files[|files| - 1].content, '\n')
  }

  /** The paths of the files that satisfy `keep`, first to last. */
  function PathsWhere(files: seq<FileRecord>, keep: string -> bool): seq<string>
    decreases |files|
  {
    if files == [] then []
    else (if keep(files[0].path) then [files[0].path] else []) + PathsWhere(files[1..], keep)
  }

  /** The paths of the main files of `files`, first to last. */
  function MainPaths(files: seq<FileRecord>): seq<string> {
    PathsWhere(files, IsMainFile)
  }

  lemma {:induction false} PathsWhereSnoc(files: seq<FileRecord>, f: FileRecord, keep: string -> bool)
    ensures PathsWhere(files + [f], keep) == PathsWhere(files, keep) + if keep(f.path) then [f.path] else []
    decreases |files|
  {
    if files == [] {
      assert [f][1..] == [];
    } else {
      assert (files + [f])[0] == files[0] && (files + [f])[1..] == files[1..] + [f];
      PathsWhereSnoc(files[1..], f, keep);
      AppendAssoc(if keep(files[0].path) then [files[0].path] else [],
               PathsWhere(files[1..], keep), if keep(f.path) then [f.path] else []);
    }
  }

  /** Some file has path `p`. */
  predicate HasPath(files: seq<FileRecord>, p: string) {
    exists i :: 0 <= i < |files| && files[i].path == p
  }

  lemma {:induction false} PathsWhereMembers(files: seq<FileRecord>, keep: string -> bool, p: string)
    ensures p in PathsWhere(files, keep) <==> keep(p) && HasPath(files, p)
    decreases |files|
  {
    if files != [] {
      PathsWhereMembers(files[1..], keep, p);
      if HasPath(files, p) && files[0].path != p {
        var i :| 0 <= i < |files| && files[i].path == p;
        assert files[1..][i - 1].path == p;
      }
      if HasPath(files[1..], p) {
        var i :| 0 <= i < |files[1..]| && files[1..][i].path == p;
        assert files[i + 1].path == p;
      }
      if files[0].path == p {
        assert HasPath(files, p);
      }
    }
  }

  /** A path is listed as a main file exactly when one of the files has it and it carries a marker. */
  lemma MainPathsMembers(files: seq<FileRecord>, p: string)
    ensures p in MainPaths(files) <==> IsMainFile(p) && HasPath(files, p)
  {
    PathsWhereMembers(files, IsMainFile, p);
  }

  /**
   * The counts per extension add up to the number of files, no extension is
   * listed twice, and each extension's count is the number of files that
   * have it.
   */
  lemma {:induction false} SummaryCounts(files: seq<FileRecord>)
    ensures var s := SummaryOf(files);
      && s.totalFiles == |files|
      && Total(s.languages) == s.totalFiles
      && DistinctKeys(s.languages)
      && (forall e :: Lookup(s.languages, e) == CountExt(files, e))
    decreases |files|
  {
    if files != [] {
      var init, file := files[..|files| - 1], files[|files| - 1];
      SummaryCounts(init);
      var languages := LanguagesOf(init);
      BumpTotal(languages, file.extension);
      BumpDistinct(languages, file.extension);
      forall e {
        BumpLookup(languages, file.extension, e);
      }
    }
  }

  /** The line total counts each file's newlines plus one. */
  lemma {:induction false} SummaryLines(files: seq<FileRecord>)
    ensures SummaryOf(files).totalLines == Newlines(files) + |files|
    decreases |files|
  {
    if files != [] {
      SummaryLines(files[..|files| - 1]);
      SplitLength(files[|files| - 1].content, '\n');
    }
  }

  /** The main files are the paths whose lower-cased base name holds a marker, in the walk's order. */
  lemma {:induction false} SummaryMainFiles(files: seq<FileRecord>)
    ensures SummaryOf(files).mainFiles == MainPaths(files)
    decreases |files|
  {
    if files != [] {
      var init, file := files[..|files| - 1], files[|files| - 1];
      SummaryMainFiles(init);
      assert init + [file] == files;
      PathsWhereSnoc(init, file, IsMainFile);
    }
  }

  /** Some file has extension `e`. */
  predicate HasExtension(files: seq<FileRecord>, e: string) {
    exists i :: 0 <= i < |files| && files[i].extension == e
  }

  lemma HasExtensionSnoc(files: seq<FileRecord>, f: FileRecord, e: string)
    ensures HasExtension(files + [f], e) <==> HasExtension(files, e) || f.extension == e
  {
    var all := files + [f];
    if HasExtension(all, e) && f.extension != e {
      var i :| 0 <= i < |all| && all[i].extension == e;
      assert files[i].extension == e;
    }
    if HasExtension(files, e) {
      var i :| 0 <= i < |files| && files[i].extension == e;
      assert all[i].extension == e;
    }
    assert all[|files|] == f;
  }

  /** The extensions listed are exactly those of the files. */
  lemma {:induction false} SummaryKeys(files: seq<FileRecord>, e: string)
    ensures HasKey(SummaryOf(files).languages, e) <==> HasExtension(files, e)
    decreases |files|
  {
    if files != [] {
      var init, file := files[..|files| - 1], files[|files| - 1];
      SummaryKeys(init, e);
      BumpKeys(LanguagesOf(init), file.extension, e);
      assert init + [file] == files;
      HasExtensionSnoc(init, file, e);
    }
  }

  /** The summary object built from the files the walk returned, with its `forEach` loop. */
  method Summarize(files: seq<FileRecord>) returns (summary: ProjectSummary)
    ensures summary == SummaryOf(files)
  {
    var languages: seq<(string, nat)> := [];
    var totalLines: nat := 0;
    var mainFiles: seq<string> := [];
    var i := 0;
    while i < |files|
      invariant 0 <= i <= |files|
      invariant languages == LanguagesOf(files[..i])
      invariant totalLines == LinesOf(files[..i])
      invariant mainFiles == MainFilesOf(files[..i])
    {
      var file := files[i];
      assert files[..i + 1][..i] == files[..i] && files[..i + 1][i] == file;
      languages := Bump(languages, file.extension);
      totalLines := totalLines + |Split(file.content, '\n')|;
      if IsMainFile(file.path) {
        mainFiles := mainFiles + [file.path];
      }
      i := i + 1;
    }
    assert files[..i] == files;
    summary := ProjectSummary(|files|, languages, totalLines, mainFiles);
  }

  /** `getProjectSummary(rootPath)` over the tree `root` found at `rootPath`. */
  method GetProjectSummary(root: Node, rootPath: string) returns (summary: ProjectSummary)
    ensures summary == SummaryOf(Take(CandDir(root, rootPath, 0), SummaryFiles))
  {
    var files := AnalyzeCodebase(root, rootPath, SummaryFiles);
    summary := Summarize(files);
  }
}
