/**
 * `FileUtils.analyzeCodebase`: a depth-first walk of a directory tree that
 * collects the readable source files it meets, up to a cap. The file system
 * is an in-memory tree; `readdirSync` on an entry that is not a readable
 * directory throws, which the walk catches and treats as an empty listing.
 */
module Scanner {
  import opened Wrappers
  import opened Strings
  import opened Paths
  import opened Records

  /**
   * A directory entry as `readdirSync(dir, { withFileTypes: true })` reports
   * it: a regular file with its size and text, a directory with its entries in
   * listing order, or anything else (a link, a device). `readable` says
   * whether reading the file or listing the directory succeeds.
   */
  datatype Node =
    | File(name: string, size: nat, content: string, readable: bool)
    | Dir(name: string, entries: seq<Node>, readable: bool)
    | Other(name: string)

  /** Directory names that are never entered. */
  const IgnoredDirs: set<string> := {"node_modules", ".git", "dist", "build", ".next", "__pycache__"}

  /** The extensions of the files that are collected. */
  const CodeExtensions: set<string> :=
    {".js", ".ts", ".jsx", ".tsx", ".py", ".java", ".cpp", ".c", ".cs", ".php", ".rb", ".go", ".rs", ".swift", ".kt"}

  /** Directories deeper than this below the root are not listed. */
  const MaxDepth: nat := 5

  /** Files of this many bytes or more are skipped. */
  const SizeLimit: nat := 100000

  /** An entry name never contains a path separator. */
  predicate WellNamed(n: Node)
    decreases n
  {
    '/' !in n.name && (n.Dir? ==> forall i :: 0 <= i < |n.entries| ==> WellNamed(n.entries[i]))
  }

  function Size(n: Node): (s: nat)
    ensures s >= 1
    decreases n
  {
    match n
    case Dir(_, entries, _) => 1 + SizeList(entries)
    case _ => 1
  }

  function SizeList(entries: seq<Node>): nat
    decreases entries
  {
    if entries == [] then 0 else Size(entries[0]) + SizeList(entries[1..])
  }

  lemma {:induction false} EntrySmaller(entries: seq<Node>, i: nat)
    requires i < |entries|
    ensures Size(entries[i]) <= SizeList(entries)
    decreases entries
  {
    if i > 0 {
      EntrySmaller(entries[1..], i - 1);
    }
  }

  /** `readFile(path)` of a file entry: its record, or `null` when it cannot be read. */
  function ReadFile(n: Node, path: string): Option<FileRecord> {
    if n.File? && n.readable then Some(FileRecord(path, n.content, n.size, Extname(path))) else None
  }

  /** Whether the file-entry branch of the walk keeps this entry. */
  predicate Kept(n: Node, path: string) {
    n.File? && Extname(n.name) in CodeExtensions && n.readable && n.size < SizeLimit
  }

  // ---- the walk, with the cap, over the files found so far ----

  /** What `scanDir(path, depth)` leaves in `files`, for the node at `path`, with `acc` the files found before. */
  function WalkDir(dir: Node, path: string, depth: nat, maxFiles: int, acc: seq<FileRecord>): seq<FileRecord>
    decreases Size(dir), 0
  {
    if depth > MaxDepth || |acc| >= maxFiles then acc
    else match dir
      case Dir(_, entries, readable) => if readable then WalkEntries(entries, path, depth, maxFiles, acc) else acc
      case _ => acc
  }

  /** The `for` loop over the entries of the directory at `path`, stopping once the cap is reached. */
  function WalkEntries(entries: seq<Node>, path: string, depth: nat, maxFiles: int, acc: seq<FileRecord>): seq<FileRecord>
    decreases SizeList(entries), 2
  {
    if entries == [] || |acc| >= maxFiles then acc
    else WalkEntries(entries[1..], path, depth, maxFiles, WalkEntry(entries[0], path, depth, maxFiles, acc))
  }

  /** One entry of the directory at `path`: enter a directory that is not ignored, keep a source file. */
  function WalkEntry(entry: Node, path: string, depth: nat, maxFiles: int, acc: seq<FileRecord>): seq<FileRecord>
    decreases Size(entry), 1
  {
    var fullPath := PathJoin(path, entry.name);
    match entry
    case Dir(name, _, _) => if name !in IgnoredDirs then WalkDir(entry, fullPath, depth + 1, maxFiles, acc) else acc
    case File(name, size, _, _) =>
      if Extname(name) in CodeExtensions then
        var file := ReadFile(entry, fullPath);
        if file.Some? && file.value.size < SizeLimit then acc + [file.value] else acc
      else acc
    case Other(_) => acc
  }

  /** `analyzeCodebase(rootPath, maxFiles)` over the tree `root` found at `rootPath`. */
  function Analyze(root: Node, rootPath: string, maxFiles: int): seq<FileRecord> {
    WalkDir(root, rootPath, 0, maxFiles, [])
  }

  // ---- the reference: every file the walk would keep, without a cap ----

  function CandDir(dir: Node, path: string, depth: nat): seq<FileRecord>
    decreases Size(dir), 0
  {
    if depth > MaxDepth then []
    else match dir
      case Dir(_, entries, readable) => if readable then CandEntries(entries, path, depth) else []
      case _ => []
  }

  /** The files of each entry in listing order, the files of a subdirectory where the subdirectory stands. */
  function CandEntries(entries: seq<Node>, path: string, depth: nat): seq<FileRecord>
    decreases SizeList(entries), 2
  {
    if entries == [] then [] else CandEntry(entries[0], path, depth) + CandEntries(entries[1..], path, depth)
  }

  function CandEntry(entry: Node, path: string, depth: nat): seq<FileRecord>
    decreases Size(entry), 1
  {
    var fullPath := PathJoin(path, entry.name);
    match entry
    case Dir(name, _, _) => if name !in IgnoredDirs then CandDir(entry, fullPath, depth + 1) else []
    case File(_, size, content, _) =>
      if Kept(entry, fullPath) then [FileRecord(fullPath, content, size, Extname(fullPath))] else []
    case Other(_) => []
  }

  /** The first `n` elements of `s`, all of them when `n` is large, none when `n <= 0`. */
  function Take<T>(s: seq<T>, n: int): (r: seq<T>)
    ensures |r| <= |s| && r == s[..|r|]
    ensures |r| == if n <= 0 then 0 else if n < |s| then n else |s|
  {
    if n <= 0 then [] else if n < |s| then s[..n] else s
  }

  lemma TakeAppend<T>(a: seq<T>, b: seq<T>, n: int)
    ensures Take(a + b, n) == Take(a, n) + Take(b, n - |Take(a, n)|)
  {
    if 0 < n < |a| {
      assert (a + b)[..n] == a[..n];
    } else if n >= |a| {
      assert Take(a, n) == a;
      if n - |a| < |b| {
        assert (a + b)[..n] == a + b[..n - |a|];
      } else {
        assert b == b[..|b|];
      }
    }
  }

  /** The capped walk is the reference list cut at the cap, after the files found before. */
  lemma {:induction false} WalkDirTake(dir: Node, path: string, depth: nat, maxFiles: int, acc: seq<FileRecord>)
    ensures WalkDir(dir, path, depth, maxFiles, acc) == acc + Take(CandDir(dir, path, depth), maxFiles - |acc|)
    decreases Size(dir), 0
  {
    if depth <= MaxDepth && |acc| < maxFiles && dir.Dir? && dir.readable {
      WalkEntriesTake(dir.entries, path, depth, maxFiles, acc);
    } else {
      assert acc + [] == acc;
    }
  }

  lemma {:induction false} WalkEntriesTake(entries: seq<Node>, path: string, depth: nat, maxFiles: int, acc: seq<FileRecord>)
    ensures WalkEntries(entries, path, depth, maxFiles, acc) == acc + Take(CandEntries(entries, path, depth), maxFiles - |acc|)
    decreases SizeList(entries), 2
  {
    if entries == [] || |acc| >= maxFiles {
      assert acc + [] == acc;
    } else {
      var first, rest := CandEntry(entries[0], path, depth), CandEntries(entries[1..], path, depth);
      var n := maxFiles - |acc|;
      WalkEntryTake(entries[0], path, depth, maxFiles, acc);
      var t1 := Take(first, n);
      var acc1 := acc + t1;
      assert WalkEntries(entries, path, depth, maxFiles, acc) == WalkEntries(entries[1..], path, depth, maxFiles, acc1);
      WalkEntriesTake(entries[1..], path, depth, maxFiles, acc1);
      assert maxFiles - |acc1| == n - |t1|;
      var t2 := Take(rest, n - |t1|);
      assert CandEntries(entries, path, depth) == first + rest;
      TakeAppend(first, rest, n);
      AppendAssoc(acc, t1, t2);
    }
  }

  lemma {:induction false} WalkEntryTake(entry: Node, path: string, depth: nat, maxFiles: int, acc: seq<FileRecord>)
    requires |acc| < maxFiles
    ensures WalkEntry(entry, path, depth, maxFiles, acc) == acc + Take(CandEntry(entry, path, depth), maxFiles - |acc|)
    decreases Size(entry), 1
  {
    var fullPath := PathJoin(path, entry.name);
    match entry
    case Dir(name, _, _) =>
      if name !in IgnoredDirs {
        WalkDirTake(entry, fullPath, depth + 1, maxFiles, acc);
      } else {
        assert acc + [] == acc;
      }
    case File(_, _, _, _) =>
      assert acc + [] == acc;
    case Other(_) =>
      assert acc + [] == acc;
  }

  /** `analyzeCodebase` returns the first `maxFiles` files of the depth-first order, and none when `maxFiles <= 0`. */
  lemma AnalyzeTake(root: Node, rootPath: string, maxFiles: int)
    ensures Analyze(root, rootPath, maxFiles) == Take(CandDir(root, rootPath, 0), maxFiles)
    ensures |Analyze(root, rootPath, maxFiles)| <= if maxFiles <= 0 then 0 else maxFiles
  {
    WalkDirTake(root, rootPath, 0, maxFiles, []);
    assert [] + Take(CandDir(root, rootPath, 0), maxFiles) == Take(CandDir(root, rootPath, 0), maxFiles);
  }

  // ---- what the reference list holds ----

  /** A record with an allowed extension, below the size limit. */
  predicate KeptRecord(r: FileRecord) {
    r.extension in CodeExtensions && r.size < SizeLimit
  }

  predicate AllKept(records: seq<FileRecord>) {
    forall i :: 0 <= i < |records| ==> KeptRecord(records[i])
  }

  lemma {:induction false} CandDirKept(dir: Node, path: string, depth: nat)
    requires WellNamed(dir)
    ensures AllKept(CandDir(dir, path, depth))
    decreases Size(dir), 0
  {
    if depth <= MaxDepth && dir.Dir? && dir.readable {
      CandEntriesKept(dir.entries, path, depth);
    }
  }

  lemma {:induction false} CandEntriesKept(entries: seq<Node>, path: string, depth: nat)
    requires forall i :: 0 <= i < |entries| ==> WellNamed(entries[i])
    ensures AllKept(CandEntries(entries, path, depth))
    decreases SizeList(entries), 2
  {
    if entries != [] {
      CandEntryKept(entries[0], path, depth);
      CandEntriesKept(entries[1..], path, depth);
    }
  }

  lemma {:induction false} CandEntryKept(entry: Node, path: string, depth: nat)
    requires WellNamed(entry)
    ensures AllKept(CandEntry(entry, path, depth))
    decreases Size(entry), 1
  {
    var fullPath := PathJoin(path, entry.name);
    match entry
    case Dir(name, _, _) =>
      if name !in IgnoredDirs {
        CandDirKept(entry, fullPath, depth + 1);
      }
    case File(_, _, _, _) =>
      FileEntryKept(entry, path, depth);
    case Other(_) =>
  }

  lemma JoinedExtensionKept(path: string, name: string)
    requires '/' !in name && Extname(name) in CodeExtensions
    ensures Extname(PathJoin(path, name)) in CodeExtensions
  {
    ExtnameJoin(path, name);
  }

  lemma FileEntryKept(entry: Node, path: string, depth: nat)
    requires entry.File? && '/' !in entry.name
    ensures AllKept(CandEntry(entry, path, depth))
  {
    var fullPath := PathJoin(path, entry.name);
    if Kept(entry, fullPath) {
      JoinedExtensionKept(path, entry.name);
      var rec := FileRecord(fullPath, entry.content, entry.size, Extname(fullPath));
      assert KeptRecord(rec);
      assert CandEntry(entry, path, depth) == [rec];
    }
  }

  /**
   * Each record `analyzeCodebase` returns has an extension from the allow-list
   * and a size below 100000 bytes.
   */
  lemma AnalyzeKept(root: Node, rootPath: string, maxFiles: int)
    requires WellNamed(root)
    ensures AllKept(Analyze(root, rootPath, maxFiles))
  {
    AnalyzeTake(root, rootPath, maxFiles);
    CandDirKept(root, rootPath, 0);
  }

  /** The listing of a directory, in order, is the files of its first entries and then those of the rest. */
  lemma {:induction false} CandEntriesAppend(a: seq<Node>, b: seq<Node>, path: string, depth: nat)
    ensures CandEntries(a + b, path, depth) == CandEntries(a, path, depth) + CandEntries(b, path, depth)
    decreases |a|
  {
    if a == [] {
      assert a + b == b;
    } else {
      assert (a + b)[0] == a[0] && (a + b)[1..] == a[1..] + b;
      CandEntriesAppend(a[1..], b, path, depth);
      AppendAssoc(CandEntry(a[0], path, depth), CandEntries(a[1..], path, depth), CandEntries(b, path, depth));
    }
  }

  // ---- what the walk never looks at ----

  /** The tree with the contents of every ignored directory below it removed. */
  function StripIgnored(n: Node): (r: Node)
    ensures r.name == n.name && (n.Dir? <==> r.Dir?) && (!n.Dir? ==> r == n)
    decreases n
  {
    match n
    case Dir(name, entries, readable) => Dir(name, StripEntries(entries), readable)
    case _ => n
  }

  function StripEntries(entries: seq<Node>): (r: seq<Node>)
    ensures |r| == |entries|
    decreases entries
  {
    if entries == [] then []
    else
      var e := entries[0];
      [if e.Dir? && e.name in IgnoredDirs then Dir(e.name, [], e.readable) else StripIgnored(e)] + StripEntries(entries[1..])
  }

  lemma {:induction false} StripDir(dir: Node, path: string, depth: nat)
    ensures CandDir(StripIgnored(dir), path, depth) == CandDir(dir, path, depth)
    decreases Size(dir), 0
  {
    if dir.Dir? {
      StripEntriesSame(dir.entries, path, depth);
    }
  }

  lemma {:induction false} StripEntriesSame(entries: seq<Node>, path: string, depth: nat)
    ensures CandEntries(StripEntries(entries), path, depth) == CandEntries(entries, path, depth)
    decreases SizeList(entries), 2
  {
    if entries != [] {
      var e := entries[0];
      var s := StripEntries(entries);
      assert s[0] == (if e.Dir? && e.name in IgnoredDirs then Dir(e.name, [], e.readable) else StripIgnored(e));
      assert s[1..] == StripEntries(entries[1..]);
      StripEntriesSame(entries[1..], path, depth);
      if !(e.Dir? && e.name in IgnoredDirs) && e.Dir? {
        StripDir(e, PathJoin(path, e.name), depth + 1);
      }
    }
  }

  /**
   * Nothing inside a directory whose name is in the ignore set, at any depth
   * below the root, can affect what `analyzeCodebase` returns.
   */
  lemma IgnoredDirsUnread(root: Node, rootPath: string, maxFiles: int)
    ensures Analyze(StripIgnored(root), rootPath, maxFiles) == Analyze(root, rootPath, maxFiles)
  {
    AnalyzeTake(root, rootPath, maxFiles);
    AnalyzeTake(StripIgnored(root), rootPath, maxFiles);
    StripDir(root, rootPath, 0);
  }

  /** The tree, seen from `depth`, with the listing of every directory deeper than the limit removed. */
  function CutDeep(n: Node, depth: nat): (r: Node)
    ensures r.name == n.name && (n.Dir? <==> r.Dir?) && (!n.Dir? ==> r == n)
    decreases n
  {
    match n
    case Dir(name, entries, readable) =>
      if depth > MaxDepth then Dir(name, [], readable) else Dir(name, CutEntries(entries, depth + 1), readable)
    case _ => n
  }

  function CutEntries(entries: seq<Node>, depth: nat): (r: seq<Node>)
    ensures |r| == |entries|
    decreases entries
  {
    if entries == [] then [] else [CutDeep(entries[0], depth)] + CutEntries(entries[1..], depth)
  }

  lemma {:induction false} CutDir(dir: Node, path: string, depth: nat)
    ensures CandDir(CutDeep(dir, depth), path, depth) == CandDir(dir, path, depth)
    decreases Size(dir), 0
  {
    if dir.Dir? && depth <= MaxDepth {
      CutEntriesSame(dir.entries, path, depth);
    }
  }

  lemma {:induction false} CutEntriesSame(entries: seq<Node>, path: string, depth: nat)
    ensures CandEntries(CutEntries(entries, depth + 1), path, depth) == CandEntries(entries, path, depth)
    decreases SizeList(entries), 2
  {
    if entries != [] {
      var e := entries[0];
      var c := CutEntries(entries, depth + 1);
      assert c[0] == CutDeep(e, depth + 1) && c[1..] == CutEntries(entries[1..], depth + 1);
      CutEntriesSame(entries[1..], path, depth);
      if e.Dir? {
        CutDir(e, PathJoin(path, e.name), depth + 1);
        assert CandEntry(c[0], path, depth) == CandEntry(e, path, depth);
      }
    }
  }

  /** Directories more than five levels below the root are never listed. */
  lemma DeepDirsUnread(root: Node, rootPath: string, maxFiles: int)
    ensures Analyze(CutDeep(root, 0), rootPath, maxFiles) == Analyze(root, rootPath, maxFiles)
  {
    AnalyzeTake(root, rootPath, maxFiles);
    AnalyzeTake(CutDeep(root, 0), rootPath, maxFiles);
    CutDir(root, rootPath, 0);
  }

  // ---- the walk as the source runs it ----

  /** One `analyzeCodebase` call: the `files` array that its `scanDir` closure pushes to. */
  class CodebaseScan {
    var files: seq<FileRecord>
    const maxFiles: int

    constructor (maxFiles: int)
      ensures this.maxFiles == maxFiles && files == []
    {
      this.maxFiles := maxFiles;
      files := [];
    }

    /** `scanDir(path, depth)` on the node found at `path`. */
    method ScanDir(dir: Node, path: string, depth: nat)
      modifies this
      ensures files == WalkDir(dir, path, depth, maxFiles, old(files))
      decreases Size(dir), 0
    {
      if depth > MaxDepth || |files| >= maxFiles {
        return;
      }
      if !(dir.Dir? && dir.readable) {
        return;
      }
      var entries := dir.entries;
      assert entries[0..] == entries;
      var i := 0;
      while i < |entries|
        invariant 0 <= i <= |entries|
        invariant WalkEntries(entries[i..], path, depth, maxFiles, files) == WalkDir(dir, path, depth, maxFiles, old(files))
        decreases |entries| - i
      {
        if |files| >= maxFiles {
          break;
        }
        var entry := entries[i];
        assert entries[i..][0] == entry && entries[i..][1..] == entries[i + 1..];
        EntrySmaller(entries, i);
        ScanEntry(entry, path, depth);
        i := i + 1;
      }
    }

    /** The body of the `for` loop of `scanDir` for one entry of the directory at `path`. */
    method ScanEntry(entry: Node, path: string, depth: nat)
      modifies this
      ensures files == WalkEntry(entry, path, depth, maxFiles, old(files))
      decreases Size(entry), 1
    {
      var fullPath := PathJoin(path, entry.name);
      if entry.Dir? && entry.name !in IgnoredDirs {
        ScanDir(entry, fullPath, depth + 1);
      } else if entry.File? && Extname(entry.name) in CodeExtensions {
        var file := ReadFile(entry, fullPath);
        if file.Some? && file.value.size < SizeLimit {
          files := files + [file.value];
        }
      }
    }
  }

  /** `analyzeCodebase(rootPath, maxFiles)`: the first `maxFiles` files in depth-first listing order. */
  method AnalyzeCodebase(root: Node, rootPath: string, maxFiles: int) returns (files: seq<FileRecord>)
    ensures files == Take(CandDir(root, rootPath, 0), maxFiles)
  {
    var scan := new CodebaseScan(maxFiles);
    scan.ScanDir(root, rootPath, 0);
    files := scan.files;
    AnalyzeTake(root, rootPath, maxFiles);
  }
}
