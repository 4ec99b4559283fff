/**
 * The parts of Node's `path` module that the directory scan uses:
 * `join` of a directory and an entry name, `basename` and `extname`.
 */
module Paths {
  import opened Wrappers
  import opened Strings

  /** Index of the last occurrence of `c` in `s`. */
  function LastIndex(s: string, c: char): (k: Option<nat>)
    ensures k.None? <==> c !in s
    ensures k.Some? ==> k.value < |s| && s[k.value] == c && c !in s[k.value + 1..]
    decreases |s|
  {
    if s == [] then None
    else if s[|s| - 1] == c then Some(|s| - 1)
    else
      var k := LastIndex(s[..|s| - 1], c);
      assert s[..|s| - 1] + [s[|s| - 1]] == s;
      if k.Some? then assert s[k.value + 1..] == s[..|s| - 1][k.value + 1..] + [s[|s| - 1]]; k
      else k
  }

  /**
   * `path.join(dir, name)` for a directory path and the name of one of its
   * entries: the current directory is dropped and a single `/` separates them.
   */
  function PathJoin(dir: string, name: string): (p: string)
    ensures EndsWith(p, name)
  {
    if dir == "" || dir == "." then name
    else if EndsWith(dir, "/") then dir + name
    else dir + "/" + name
  }

  /** `path.basename(p)`: what follows the last `/`. */
  function Basename(p: string): string {
    match LastIndex(p, '/')
    case None => p
    case Some(k) => p[k + 1..]
  }

  /** The base name is a suffix of the path and holds no `/`. */
  lemma BasenameSuffix(p: string)
    ensures EndsWith(p, Basename(p)) && '/' !in Basename(p)
  {
  }

  /**
   * The extension of a base name as `path.extname` computes it: from the last
   * `.` to the end, or empty when there is no dot, when the only dots are
   * leading (`.bashrc`), or for `..`.
   */
  function BaseExt(b: string): (e: string)
    ensures e == "" || (EndsWith(b, e) && e[0] == '.' && '.' !in e[1..] && |e| < |b|)
    ensures '.' !in b ==> e == ""
  {
    match LastIndex(b, '.')
    case None => ""
    case Some(k) => if k == 0 || b == ".." then "" else b[k..]
  }

  /** `path.extname(p)`. */
  function Extname(p: string): string {
    BaseExt(Basename(p))
  }

  /** A name without `/` is its own base name. */
  lemma BasenameOfName(name: string)
    requires '/' !in name
    ensures Basename(name) == name
  {
  }

  /** The base name of a joined path is the entry name. */
  lemma BasenameJoin(dir: string, name: string)
    requires '/' !in name
    ensures Basename(PathJoin(dir, name)) == name
  {
    var p := PathJoin(dir, name);
    if p != name {
      var k := |p| - |name| - 1;
      assert p[k] == '/';
      assert p[k + 1..] == name;
    }
  }

  /** The extension of a joined path is the extension of the entry name. */
  lemma ExtnameJoin(dir: string, name: string)
    requires '/' !in name
    ensures Extname(PathJoin(dir, name)) == Extname(name)
  {
    BasenameJoin(dir, name);
    BasenameOfName(name);
  }

  /** Worked cases of `extname`. */
  lemma ExtnameExamples()
    ensures BaseExt("a.js") == ".js"
    ensures BaseExt(".rc") == ""
  {
    assert "a.js"[..3] == "a.j" && "a.j"[..2] == "a." && LastIndex("a.", '.') == Some(1);
    assert ".rc"[..2] == ".r" && ".r"[..1] == "." && LastIndex(".", '.') == Some(0);
  }
}
