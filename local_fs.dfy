/**
 * The device's local file system, as far as the case controller and the upload queue use it:
 * POSIX path helpers (os.path.basename, os.path.join) and a set of directories, each with the
 * names of the files it holds in listing order.
 */
module LocalFs {

  /** os.path.basename on POSIX: everything after the last '/'. */
  function Basename(p: string): string {
    if p == [] || p[|p| - 1] == '/' then []
    else Basename(p[..|p| - 1]) + [p[|p| - 1]]
  }

  /**
   * The basename is the longest suffix of the path without a '/': it holds none, and the
   * character before it, if any, is a '/'.
   */
  lemma {:induction false} BasenameSuffix(p: string)
    ensures var b := Basename(p);
      && '/' !in b
      && |b| <= |p| && b == p[|p| - |b|..]
      && (|b| < |p| ==> p[|p| - |b| - 1] == '/')
    decreases |p|
  {
    if p != [] && p[|p| - 1] != '/' {
      var init := p[..|p| - 1];
      BasenameSuffix(init);
      var b0 := Basename(init);
      assert init == p[..|p| - 1];
      assert Basename(p) == b0 + [p[|p| - 1]];
      assert p == init + [p[|p| - 1]];
      assert p[|p| - |b0| - 1..] == init[|init| - |b0|..] + [p[|p| - 1]];
    }
  }

  /** os.path.join with two arguments on POSIX. */
  function Join(dir: string, name: string): (p: string)
    ensures name != [] && name[0] == '/' ==> p == name
    ensures (name == [] || name[0] != '/') ==>
      |dir| + |name| <= |p| && p[..|dir|] == dir && p[|p| - |name|..] == name
  {
    if name != [] && name[0] == '/' then name
    else if dir == [] || dir[|dir| - 1] == '/' then dir + name
    else dir + "/" + name
  }

  lemma {:induction false} BasenameAfterSlash(s: string, name: string)
    requires s != [] && s[|s| - 1] == '/'
    requires '/' !in name
    ensures Basename(s + name) == name
  {
    if name != [] {
      var p := s + name;
      assert p[..|p| - 1] == s + name[..|name| - 1];
      BasenameAfterSlash(s, name[..|name| - 1]);
      assert name == name[..|name| - 1] + [name[|name| - 1]];
    } else {
      assert s + name == s;
    }
  }

  /** The name a directory was joined under is the basename of the joined path. */
  lemma BasenameOfJoin(dir: string, name: string)
    requires '/' !in name
    ensures Basename(Join(dir, name)) == name
  {
    if dir == [] {
      assert Join(dir, name) == name;
      if name != [] {
        BasenameAfterSlash("/", name);
        assert ("/" + name)[..1] == "/";
      }
      BasenameWhole(name);
    } else if dir[|dir| - 1] == '/' {
      BasenameAfterSlash(dir, name);
    } else {
      assert dir + "/" + name == (dir + "/") + name;
      BasenameAfterSlash(dir + "/", name);
    }
  }

  lemma {:induction false} BasenameWhole(name: string)
    requires '/' !in name
    ensures Basename(name) == name
  {
    if name != [] {
      BasenameWhole(name[..|name| - 1]);
      assert name == name[..|name| - 1] + [name[|name| - 1]];
    }
  }

  /** A directory tree: directory path -> the names of its files, in listing order. */
  class Disk {
    var dirs: map<string, seq<string>>

    constructor (initial: map<string, seq<string>>)
      ensures dirs == initial
    {
      dirs := initial;
    }

    /** os.makedirs(d, exist_ok=True): an existing directory keeps its files. */
    method MakeDirs(d: string)
      modifies this
      ensures dirs == if d in old(dirs) then old(dirs) else old(dirs)[d := []]
    {
      if d !in dirs {
        dirs := dirs[d := []];
      }
    }

    /** shutil.rmtree(d): fails (and changes nothing) when d does not exist. */
    method RemoveTree(d: string) returns (removed: bool)
      modifies this
      ensures removed == (d in old(dirs))
      ensures dirs == old(dirs) - {d}
    {
      removed := d in dirs;
      dirs := dirs - {d};
    }
  }
}
