/** POSIX path text: `os.path.join` as `posixpath` defines it, and the
    resolution of a path text to the directory it names, as a sequence of
    names below the root.  Resolution is lexical: empty names and "." are
    skipped and ".." goes up one level (staying at the root). */
module Paths {

  /** A resolved path: the names from the root down. */
  type Path = seq<string>

  /** A name that denotes one entry of a directory. */
  predicate ValidName(s: string)
  {
    s != "" && s != "." && s != ".." && '/' !in s
  }

  predicate ValidPath(p: Path)
  {
    forall i :: 0 <= i < |p| ==> ValidName(p[i])
  }

  /** `posixpath.join(a, b)`: an absolute `b` replaces `a`; otherwise a
      separator is put between them unless `a` is empty or already ends
      with one. */
  function Join(a: string, b: string): (r: string)
    ensures |b| > 0 && b[0] == '/' ==> r == b
    ensures (|b| == 0 || b[0] != '/') && (a == "" || a[|a| - 1] == '/') ==> r == a + b
    ensures (|b| == 0 || b[0] != '/') && a != "" && a[|a| - 1] != '/' ==> r == a + "/" + b
  {
    if |b| > 0 && b[0] == '/' then b
    else if a == "" || a[|a| - 1] == '/' then a + b
    else a + "/" + b
  }

  /** Joining a non-empty part never gives the empty path. */
  lemma JoinNonEmpty(a: string, b: string)
    requires b != ""
    ensures Join(a, b) != ""
  {
    assert |Join(a, b)| >= |b|;
  }

  /** `s.split('/')`: the pieces between separators; always at least one. */
  function SplitOnSlash(s: string): (r: seq<string>)
    ensures |r| >= 1
    ensures forall i :: 0 <= i < |r| ==> '/' !in r[i]
  {
    if s == [] then [""]
    else if s[0] == '/' then [""] + SplitOnSlash(s[1..])
    else
      var rest := SplitOnSlash(s[1..]);
      [[s[0]] + rest[0]] + rest[1..]
  }

  /** Walking the names of a path from `base`. */
  function Normalize(base: Path, names: seq<string>): Path
    decreases |names|
  {
    if names == [] then base
    else
      var n := names[0];
      var next := if n == "" || n == "." then base
                  else if n == ".." then (if base == [] then [] else base[..|base| - 1])
                  else base + [n];
      Normalize(next, names[1..])
  }

  /** The directory that path text `s` names, seen from the working directory `cwd`. */
  function Resolve(cwd: Path, s: string): Path
  {
    Normalize(if |s| > 0 && s[0] == '/' then [] else cwd, SplitOnSlash(s))
  }

  lemma {:induction false} SplitAroundSlash(a: string, b: string)
    ensures SplitOnSlash(a + "/" + b) == SplitOnSlash(a) + SplitOnSlash(b)
  {
    if a == [] {
      assert a + "/" + b == "/" + b;
      assert ("/" + b)[1..] == b;
    } else {
      assert (a + "/" + b)[0] == a[0];
      assert (a + "/" + b)[1..] == a[1..] + "/" + b;
      SplitAroundSlash(a[1..], b);
    }
  }

  lemma {:induction false} SplitName(s: string)
    requires '/' !in s
    ensures SplitOnSlash(s) == [s]
  {
    if s != [] {
      SplitName(s[1..]);
      assert [s[0]] + s[1..] == s;
    }
  }

  lemma {:induction false} NormalizeAppend(base: Path, x: seq<string>, y: seq<string>)
    ensures Normalize(base, x + y) == Normalize(Normalize(base, x), y)
    decreases |x|
  {
    if x == [] {
      assert x + y == y;
    } else {
      assert (x + y)[0] == x[0];
      assert (x + y)[1..] == x[1..] + y;
      var n := x[0];
      var next := if n == "" || n == "." then base
                  else if n == ".." then (if base == [] then [] else base[..|base| - 1])
                  else base + [n];
      NormalizeAppend(next, x[1..], y);
    }
  }

  /** Resolution keeps paths made of valid names valid. */
  lemma {:induction false} NormalizeValid(base: Path, names: seq<string>)
    requires ValidPath(base)
    requires forall i :: 0 <= i < |names| ==> '/' !in names[i]
    ensures ValidPath(Normalize(base, names))
    decreases |names|
  {
    if names != [] {
      var n := names[0];
      var next := if n == "" || n == "." then base
                  else if n == ".." then (if base == [] then [] else base[..|base| - 1])
                  else base + [n];
      assert ValidPath(next);
      NormalizeValid(next, names[1..]);
    }
  }

  lemma ResolveValid(cwd: Path, s: string)
    requires ValidPath(cwd)
    ensures ValidPath(Resolve(cwd, s))
  {
    NormalizeValid(if |s| > 0 && s[0] == '/' then [] else cwd, SplitOnSlash(s));
  }

  /** Joining a valid name onto a path text names the entry of that name in
      the directory the path text names. */
  lemma ResolveJoin(cwd: Path, x: string, id: string)
    requires ValidName(id)
    ensures Resolve(cwd, Join(x, id)) == Resolve(cwd, x) + [id]
  {
    SplitName(id);
    var j := Join(x, id);
    if x == "" {
      assert j == id && id[0] != '/';
      assert [id][1..] == [] && [""][1..] == [];
      assert Resolve(cwd, j) == Normalize(cwd + [id], []);
      assert Resolve(cwd, x) == Normalize(cwd, []);
    } else if x[|x| - 1] == '/' {
      var x' := x[..|x| - 1];
      assert x == x' + "/" + "";
      assert j == x' + "/" + id;
      SplitAroundSlash(x', id);
      SplitAroundSlash(x', "");
      var base := if x[0] == '/' then [] else cwd;
      assert j[0] == x[0];
      NormalizeAppend(base, SplitOnSlash(x'), [id]);
      NormalizeAppend(base, SplitOnSlash(x'), [""]);
    } else {
      assert j == x + "/" + id;
      SplitAroundSlash(x, id);
      var base := if x[0] == '/' then [] else cwd;
      assert j[0] == x[0];
      NormalizeAppend(base, SplitOnSlash(x), [id]);
    }
  }

  /** Different names give different paths under the same directory. */
  lemma JoinInjective(cwd: Path, x: string, a: string, b: string)
    requires ValidName(a) && ValidName(b) && a != b
    ensures Resolve(cwd, Join(x, a)) != Resolve(cwd, Join(x, b))
  {
    ResolveJoin(cwd, x, a);
    ResolveJoin(cwd, x, b);
    var base := Resolve(cwd, x);
    assert (base + [a])[|base|] != (base + [b])[|base|];
  }
}
