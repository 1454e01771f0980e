/** The path arithmetic of the engine, done with std::string::find_last_of. */
module Paths {

  /** `s.find_last_of(c)`: the last position holding `c`, with -1 standing for `npos`. */
  function LastIndexOf(s: string, c: char): (r: int)
    ensures -1 <= r < |s|
    decreases |s|
  {
    if |s| == 0 then -1
    else if s[|s| - 1] == c then |s| - 1
    else LastIndexOf(s[..|s| - 1], c)
  }

  /** -1 exactly when `c` does not occur; otherwise a position holding `c` with none after it. */
  lemma {:induction false} LastIndexOfSpec(s: string, c: char)
    ensures var r := LastIndexOf(s, c);
      && (r == -1 <==> c !in s)
      && (r >= 0 ==> s[r] == c && c !in s[r + 1..])
    decreases |s|
  {
    if |s| > 0 && s[|s| - 1] != c {
      var t := s[..|s| - 1];
      LastIndexOfSpec(t, c);
      LastIndexOfExtend(t, s[|s| - 1], c, LastIndexOf(t, c));
      assert s == t + [s[|s| - 1]];
    }
  }

  /** Appending a character other than `c` keeps the last position of `c`. */
  lemma LastIndexOfExtend(t: string, x: char, c: char, r: int)
    requires x != c && -1 <= r < |t|
    requires r == -1 <==> c !in t
    requires r >= 0 ==> t[r] == c && c !in t[r + 1..]
    ensures r == -1 <==> c !in t + [x]
    ensures r >= 0 ==> (t + [x])[r] == c && c !in (t + [x])[r + 1..]
  {
    if r >= 0 {
      assert (t + [x])[r + 1..] == t[r + 1..] + [x];
    }
  }

  /**
   * `path.substr(0, path.find_last_of('/'))` (Model::load_model): everything
   * before the last '/'; with no '/' at all, `npos` makes it the whole path.
   */
  function Directory(path: string): (d: string)
    ensures '/' !in path ==> d == path
    ensures '/' in path ==>
      |d| < |path| && d == path[..|d|] && path[|d|] == '/' && '/' !in path[|d| + 1..]
  {
    LastIndexOfSpec(path, '/');
    var k := LastIndexOf(path, '/');
    if k < 0 then path else path[..k]
  }

  /**
   * `path.substr(path.find_last_of("/") + 1, path.size())`
   * (Texture2D::get_local_path): the part after the last '/', since
   * `npos + 1` wraps to 0 the whole path when there is none.
   */
  function FileName(path: string): string {
    path[LastIndexOf(path, '/') + 1..]
  }

  /** The file name is the '/'-free suffix of the path, cut just after its last '/'. */
  lemma FileNameShape(path: string)
    ensures var f := FileName(path);
      && '/' !in f
      && |f| <= |path| && f == path[|path| - |f|..]
      && ('/' !in path ==> f == path)
      && ('/' in path ==> |f| < |path| && path[|path| - |f| - 1] == '/')
  {
    LastIndexOfSpec(path, '/');
  }

  /** A path with a '/' is its directory, a '/', and its file name. */
  lemma SplitJoin(path: string)
    requires '/' in path
    ensures Directory(path) + "/" + FileName(path) == path
  {
    LastIndexOfSpec(path, '/');
    var k := LastIndexOf(path, '/');
    assert path == path[..k] + [path[k]] + path[k + 1..];
  }

  /** The last '/' of `dir + "/" + name` is the joining one when `name` has none. */
  lemma {:induction false} LastSlashOfJoin(dir: string, name: string)
    requires '/' !in name
    ensures LastIndexOf(dir + "/" + name, '/') == |dir|
  {
    var s := dir + "/" + name;
    LastIndexOfSpec(s, '/');
    var r := LastIndexOf(s, '/');
    assert s[|dir|] == '/';
    assert forall j :: |dir| < j < |s| ==> s[j] == name[j - |dir| - 1];
  }

  /** Joining a directory with a plain file name and taking the file name back gives the name. */
  lemma FileNameOfJoin(dir: string, name: string)
    requires '/' !in name
    ensures FileName(dir + "/" + name) == name
  {
    LastSlashOfJoin(dir, name);
    assert (dir + "/" + name)[|dir| + 1..] == name;
  }

  /** Joining a directory with a plain file name and taking the directory back gives the directory. */
  lemma DirectoryOfJoin(dir: string, name: string)
    requires '/' !in name
    ensures Directory(dir + "/" + name) == dir
  {
    LastSlashOfJoin(dir, name);
    assert (dir + "/" + name)[..|dir|] == dir;
  }
}
