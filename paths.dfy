/** Path handling. Node's `path.relative`, `path.resolve` and `path.join`, each
    followed by vite's `normalizePath`, are foreign to the model: they are
    passed in as functions. `path.extname`, which decides how a manifest key is
    classified, is modelled for POSIX paths. */
module Paths {
  import opened Text

  /** The foreign path operations, already composed with `normalizePath`. */
  datatype PathOps = PathOps(
    relative: (string, string) -> string,  // normalizePath(path.relative(from, to))
    resolve: string -> string,             // path.resolve(p)
    join: (string, string) -> string       // normalizePath(path.join(a, b))
  )

  function TrimTrailingSlashes(p: string): (r: string)
    ensures |r| <= |p| && r == p[..|r|]
    ensures |r| > 0 ==> r[|r| - 1] != '/'
  {
    if |p| > 0 && p[|p| - 1] == '/' then TrimTrailingSlashes(p[..|p| - 1]) else p
  }

  /** The part of `p` after its last '/'. */
  function AfterLastSlash(p: string): (r: string)
    ensures NoChar(r, '/') && EndsWith(p, r)
  {
    if |p| == 0 then ""
    else if p[|p| - 1] == '/' then ""
    else AfterLastSlash(p[..|p| - 1]) + [p[|p| - 1]]
  }

  /** `path.extname(p)`: from the last '.' of the last path segment to its end;
      empty when that segment has no '.', starts with its only run of leading
      dots (".bashrc"), or is "..". */
  function Extname(p: string): (r: string)
    ensures r == "" || (r[0] == '.' && NoChar(r[1..], '.'))
  {
    var base := AfterLastSlash(TrimTrailingSlashes(p));
    var k := LastIndex(base, '.');
    if k <= 0 || base == ".." then "" else base[k..]
  }

  lemma {:induction false} AfterLastSlashOf(dir: string, name: string)
    requires dir == "" || EndsWith(dir, "/")
    requires NoChar(name, '/')
    ensures AfterLastSlash(dir + name) == name
  {
    var p := dir + name;
    if |name| == 0 {
      assert p == dir;
    } else {
      var q := name[..|name| - 1];
      var c := name[|name| - 1];
      assert p[|p| - 1] == c;
      assert p[..|p| - 1] == dir + q;
      AfterLastSlashOf(dir, q);
      assert AfterLastSlash(p) == AfterLastSlash(dir + q) + [c];
      assert q + [c] == name;
    }
  }

  lemma FileNameHasNoSlash(stem: string, ext: string)
    requires NoChar(stem, '/') && NoChar(ext, '/')
    ensures NoChar(stem + "." + ext, '/')
  {
    var name := stem + "." + ext;
    forall i | 0 <= i < |name| ensures name[i] != '/' {
      if i < |stem| { assert name[i] == stem[i]; }
      else if i > |stem| { assert name[i] == ext[i - |stem| - 1]; }
    }
  }

  lemma ExtnameOfName(dir: string, name: string)
    requires dir == "" || EndsWith(dir, "/")
    requires |name| > 0 && name[|name| - 1] != '/' && NoChar(name, '/')
    requires LastIndex(name, '.') > 0 && name != ".."
    ensures Extname(dir + name) == name[LastIndex(name, '.')..]
  {
    var p := dir + name;
    assert p[|p| - 1] == name[|name| - 1];
    assert TrimTrailingSlashes(p) == p;
    AfterLastSlashOf(dir, name);
  }

  /** The extension of `<dir/>stem.ext` is `.ext`. */
  lemma ExtnameOfFile(dir: string, stem: string, ext: string)
    requires dir == "" || EndsWith(dir, "/")
    requires |stem| > 0 && stem != "." && NoChar(stem, '/')
    requires NoChar(ext, '/') && NoChar(ext, '.')
    ensures Extname(dir + (stem + "." + ext)) == "." + ext
  {
    var name := stem + "." + ext;
    FileNameHasNoSlash(stem, ext);
    LastIndexBefore(stem, '.', ext);
    NotDotDot(stem, ext);
    ExtnameOfName(dir, name);
    assert Extname(dir + name) == name[|stem|..];
    DropPrefix(stem, "." + ext);
    assert name[|stem|..] == "." + ext;
  }

  lemma NotDotDot(stem: string, ext: string)
    requires |stem| > 0 && stem != "."
    ensures stem + "." + ext != ".."
  {
    var name := stem + "." + ext;
    if |stem| == 1 && |ext| == 0 {
      assert name[0] == stem[0];
      assert stem == [stem[0]];
    }
  }
}
