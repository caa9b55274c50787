/**
 * File-name sanitising and the POSIX behaviour of `os.path.basename` and
 * `os.path.join` that both downloaders use to place files on disk.
 */
module Paths {
  import opened Text

  /** The characters `< > : " / \ | ? *` that the regex `[<>:"/\\|?*]` replaces. */
  predicate IsForbidden(c: char) {
    c == '<' || c == '>' || c == ':' || c == '"' || c == '/' || c == '\\' || c == '|' || c == '?' || c == '*'
  }

  /** `re.sub(r'[<>:"/\\|?*]', '_', s)`. */
  function Sanitize(s: string): (r: string)
    ensures |r| == |s|
    ensures forall i :: 0 <= i < |s| ==> r[i] == (if IsForbidden(s[i]) then '_' else s[i])
    ensures forall i :: 0 <= i < |r| ==> !IsForbidden(r[i])
  {
    if s == [] then [] else [if IsForbidden(s[0]) then '_' else s[0]] + Sanitize(s[1..])
  }

  /** A name without forbidden characters is left as it is. */
  lemma SanitizeClean(s: string)
    requires forall i :: 0 <= i < |s| ==> !IsForbidden(s[i])
    ensures Sanitize(s) == s
  {
  }

  /** `os.path.basename(p)`: the text after the last `/`. */
  function Basename(p: string): (r: string)
    ensures '/' !in r
    ensures EndsWith(p, r)
  {
    AfterLast(p, '/')
  }

  /** `os.path.join(a, b)` on POSIX. */
  function Join(a: string, b: string): string {
    if StartsWith(b, "/") then b
    else if a == [] || a[|a| - 1] == '/' then a + b
    else a + "/" + b
  }

  /**
   * A last path component that names a directory rather than a file: the empty
   * one (a path ending in `/`), `.` and `..`. `open(path, 'wb')` on such a path
   * raises instead of creating a file.
   */
  predicate NamesDirectory(name: string) {
    name == "" || name == "." || name == ".."
  }

  /** `NamesDirectory(Basename(p))`, read off the last three characters of `p`. */
  predicate EndsInDirectory(p: string) {
    var n := |p|;
    n == 0 || p[n - 1] == '/' ||
    (p[n - 1] == '.' && (n == 1 || p[n - 2] == '/' || (p[n - 2] == '.' && (n == 2 || p[n - 3] == '/'))))
  }

  lemma EndsInDirectoryBasename(p: string)
    ensures EndsInDirectory(p) <==> NamesDirectory(Basename(p))
  {
    var b := AfterLast(p, '/');
    assert Basename(p) == b;
    if |b| == 1 {
      OneCharBasename(p, b);
    } else if |b| == 2 {
      TwoCharBasename(p, b);
    } else if |b| >= 3 {
      LongBasename(p, b);
    }
  }

  /** A one-character last component is `.` exactly when `p` ends in `.` after a `/` or the start. */
  lemma OneCharBasename(p: string, b: string)
    requires b == AfterLast(p, '/') && |b| == 1
    ensures EndsInDirectory(p) <==> b == "."
  {
    var n := |p|;
    assert b[0] == p[n - 1] && b[0] in b;
    assert n == 1 || p[n - 2] == '/';
    assert b == "." <==> b[0] == '.';
  }

  /** A two-character last component is `..` exactly when `p` ends in `..` after a `/` or the start. */
  lemma TwoCharBasename(p: string, b: string)
    requires b == AfterLast(p, '/') && |b| == 2
    ensures EndsInDirectory(p) <==> b == ".."
  {
    var n := |p|;
    assert b[0] == p[n - 2] && b[0] in b;
    assert b[1] == p[n - 1] && b[1] in b;
    assert n == 2 || p[n - 3] == '/';
    assert b == ".." <==> b[0] == '.' && b[1] == '.';
  }

  /** A last component of three or more characters ends in three non-`/` characters. */
  lemma LongBasename(p: string, b: string)
    requires b == AfterLast(p, '/') && |b| >= 3
    ensures !EndsInDirectory(p)
  {
    var n := |p|;
    assert b[|b| - 1] == p[n - 1] && b[|b| - 1] in b;
    assert b[|b| - 2] == p[n - 2] && b[|b| - 2] in b;
    assert b[|b| - 3] == p[n - 3] && b[|b| - 3] in b;
  }

  /**
   * Joining a name without `/` places it right behind the directory: the result
   * begins with the directory and the name is its basename. The joined path
   * names a directory exactly when the name is `""`, `.` or `..` (the folder
   * itself, the folder again, its parent); any other name is a file directly
   * inside the folder.
   */
  lemma JoinPlacesInside(dir: string, name: string)
    requires '/' !in name
    ensures StartsWith(Join(dir, name), dir)
    ensures Basename(Join(dir, name)) == name
    ensures Join(dir, name) == dir + name || Join(dir, name) == dir + "/" + name
    ensures EndsInDirectory(Join(dir, name)) <==> NamesDirectory(name)
  {
    if name != [] {
      assert name[0] in name;
    }
    assert !StartsWith(name, "/");
    if dir == [] || dir[|dir| - 1] == '/' {
      assert Join(dir, name) == dir + [] + name == dir + name;
      PlacedAfterSlash(dir, [], name);
    } else {
      assert Join(dir, name) == dir + "/" + name;
      PlacedAfterSlash(dir, "/", name);
    }
    EndsInDirectoryBasename(Join(dir, name));
  }

  /** A name placed right after a `/` (or at the very start) is the basename, behind the directory. */
  lemma PlacedAfterSlash(dir: string, mid: string, name: string)
    requires '/' !in name
    requires mid == "/" || (mid == [] && (dir == [] || dir[|dir| - 1] == '/'))
    ensures StartsWith(dir + mid + name, dir) && Basename(dir + mid + name) == name
  {
    var r := dir + mid + name;
    assert r[..|dir|] == dir;
    assert r[|dir| + |mid|..] == name;
    if |dir| + |mid| > 0 {
      assert r[|dir| + |mid| - 1] == '/';
    }
    BasenameIsLastComponent(r, name);
  }

  lemma BasenameIsLastComponent(p: string, name: string)
    requires '/' !in name && EndsWith(p, name)
    requires |name| == |p| || p[|p| - |name| - 1] == '/'
    ensures Basename(p) == name
  {
  }
}
