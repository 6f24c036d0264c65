/**
 * The remote file store as the upload queue sees it through FTP: a set of directory paths
 * (each a sequence of segment names, relative to the server's root), the session's working
 * directory, and the files that STOR commands have placed. Directories the server refuses
 * to create (for lack of permission, say) are a fixed part of the server's state.
 */
module RemoteStore {

  type RemotePath = seq<string>

  /** _ensure_ftp_path passes over empty segments and "/". */
  predicate Skipped(part: string) { part == "" || part == "/" }

  /** The segments _ensure_ftp_path actually walks, in order. */
  function Segments(parts: seq<string>): (segs: seq<string>)
    ensures |segs| <= |parts|
    ensures forall s :: s in segs ==> s in parts && !Skipped(s)
    ensures forall s :: s in parts && !Skipped(s) ==> s in segs
  {
    if parts == [] then []
    else (if Skipped(parts[0]) then [] else [parts[0]]) + Segments(parts[1..])
  }

  /** Walking two lists of parts one after the other walks their segments in that order. */
  lemma {:induction false} SegmentsAppend(a: seq<string>, b: seq<string>)
    ensures Segments(a + b) == Segments(a) + Segments(b)
    decreases |a|
  {
    if a == [] {
      assert a + b == b;
    } else {
      assert (a + b)[1..] == a[1..] + b;
      SegmentsAppend(a[1..], b);
    }
  }

  /** A single part is walked iff it is neither empty nor "/". */
  lemma SegmentsSingle(part: string)
    ensures Segments([part]) == if Skipped(part) then [] else [part]
  {
    assert [part][1..] == [];
  }

  /** The directory a walk of parts from at ends in. */
  function Target(at: RemotePath, parts: seq<string>): RemotePath {
    at + Segments(parts)
  }

  /** Every directory the walk passes through below at, the last one included. */
  ghost function Prefixes(at: RemotePath, segs: seq<string>): set<RemotePath> {
    set i | 1 <= i <= |segs| :: at + segs[..i]
  }

  /** No directory on the way is both missing and refused. */
  ghost predicate Reachable(dirs: set<RemotePath>, refused: set<RemotePath>, at: RemotePath, segs: seq<string>) {
    forall i :: 1 <= i <= |segs| ==> at + segs[..i] in dirs || at + segs[..i] !in refused
  }

  /**
   * What _ensure_ftp_path does to the server's directories, and whether it gets through:
   * enter each segment, creating it first when it is missing; stop at the first refusal.
   */
  function Walk(dirs: set<RemotePath>, refused: set<RemotePath>, at: RemotePath, parts: seq<string>)
    : (set<RemotePath>, bool)
    decreases |parts|
  {
    if parts == [] then (dirs, true)
    else if Skipped(parts[0]) then Walk(dirs, refused, at, parts[1..])
    else
      var next := at + [parts[0]];
      if next in dirs then Walk(dirs, refused, next, parts[1..])
      else if next in refused then (dirs, false)
      else Walk(dirs + {next}, refused, next, parts[1..])
  }

  lemma PrefixesCons(at: RemotePath, p: string, rest: seq<string>)
    ensures Prefixes(at, [p] + rest) == {at + [p]} + Prefixes(at + [p], rest)
  {
    var segs := [p] + rest;
    forall x | x in Prefixes(at, segs) ensures x in {at + [p]} + Prefixes(at + [p], rest) {
      var i :| 1 <= i <= |segs| && x == at + segs[..i];
      if i > 1 {
        assert segs[..i] == [p] + rest[..i - 1];
        assert x == (at + [p]) + rest[..i - 1];
      } else {
        assert segs[..i] == [p];
      }
    }
    forall x | x in {at + [p]} + Prefixes(at + [p], rest) ensures x in Prefixes(at, segs) {
      if x == at + [p] {
        assert segs[..1] == [p];
      } else {
        var j :| 1 <= j <= |rest| && x == (at + [p]) + rest[..j];
        assert segs[..j + 1] == [p] + rest[..j];
        assert x == at + segs[..j + 1];
      }
    }
  }

  lemma ReachableCons(dirs: set<RemotePath>, refused: set<RemotePath>, at: RemotePath, p: string, rest: seq<string>)
    ensures Reachable(dirs, refused, at, [p] + rest) <==>
      (at + [p] in dirs || at + [p] !in refused) && Reachable(dirs, refused, at + [p], rest)
  {
    var segs := [p] + rest;
    if Reachable(dirs, refused, at, segs) {
      assert segs[..1] == [p];
      forall j | 1 <= j <= |rest|
        ensures (at + [p]) + rest[..j] in dirs || (at + [p]) + rest[..j] !in refused
      {
        assert segs[..j + 1] == [p] + rest[..j];
        assert at + segs[..j + 1] == (at + [p]) + rest[..j];
      }
    }
    if (at + [p] in dirs || at + [p] !in refused) && Reachable(dirs, refused, at + [p], rest) {
      forall i | 1 <= i <= |segs| ensures at + segs[..i] in dirs || at + segs[..i] !in refused {
        if i == 1 {
          assert segs[..1] == [p];
        } else {
          assert segs[..i] == [p] + rest[..i - 1];
          assert at + segs[..i] == (at + [p]) + rest[..i - 1];
        }
      }
    }
  }

  /** Creating directories the server does not refuse changes no walk's outcome. */
  lemma ReachableStable(dirs: set<RemotePath>, more: set<RemotePath>, refused: set<RemotePath>, at: RemotePath, segs: seq<string>)
    requires dirs <= more && (more - dirs) !! refused
    ensures Reachable(dirs, refused, at, segs) <==> Reachable(more, refused, at, segs)
  {
    if Reachable(more, refused, at, segs) {
      forall i | 1 <= i <= |segs| ensures at + segs[..i] in dirs || at + segs[..i] !in refused {
        var x := at + segs[..i];
        if x in more && x !in dirs {
          assert x in more - dirs;
        }
      }
    }
  }

  /** A walk only adds directories, only ones on its own path, and never a refused one. */
  lemma {:induction false} WalkGrows(dirs: set<RemotePath>, refused: set<RemotePath>, at: RemotePath, parts: seq<string>)
    ensures var w := Walk(dirs, refused, at, parts);
      dirs <= w.0 && (w.0 - dirs) !! refused && w.0 <= dirs + Prefixes(at, Segments(parts))
    decreases |parts|
  {
    if parts != [] {
      var rest := parts[1..];
      if Skipped(parts[0]) {
        assert Segments(parts) == Segments(rest);
        WalkGrows(dirs, refused, at, rest);
      } else {
        var next := at + [parts[0]];
        assert Segments(parts) == [parts[0]] + Segments(rest);
        PrefixesCons(at, parts[0], Segments(rest));
        if next in dirs {
          WalkGrows(dirs, refused, next, rest);
        } else if next !in refused {
          WalkGrows(dirs + {next}, refused, next, rest);
        }
      }
    }
  }

  /**
   * The walk gets through exactly when no directory on the way is missing and refused,
   * and then every directory on the way exists afterwards.
   */
  lemma {:induction false} WalkSucceeds(dirs: set<RemotePath>, refused: set<RemotePath>, at: RemotePath, parts: seq<string>)
    ensures var w := Walk(dirs, refused, at, parts);
      && (w.1 <==> Reachable(dirs, refused, at, Segments(parts)))
      && (w.1 ==> Prefixes(at, Segments(parts)) <= w.0)
    decreases |parts|
  {
    if parts != [] {
      var rest := parts[1..];
      if Skipped(parts[0]) {
        assert Segments(parts) == Segments(rest);
        WalkSucceeds(dirs, refused, at, rest);
      } else {
        var next := at + [parts[0]];
        assert Segments(parts) == [parts[0]] + Segments(rest);
        PrefixesCons(at, parts[0], Segments(rest));
        ReachableCons(dirs, refused, at, parts[0], Segments(rest));
        if next in dirs {
          WalkSucceeds(dirs, refused, next, rest);
          WalkGrows(dirs, refused, next, rest);
        } else if next !in refused {
          WalkSucceeds(dirs + {next}, refused, next, rest);
          WalkGrows(dirs + {next}, refused, next, rest);
          ReachableStable(dirs, dirs + {next}, refused, next, Segments(rest));
        }
      }
    }
  }

  /** When every directory on the way exists, the walk changes nothing and succeeds. */
  lemma {:induction false} WalkExisting(dirs: set<RemotePath>, refused: set<RemotePath>, at: RemotePath, parts: seq<string>)
    requires Prefixes(at, Segments(parts)) <= dirs
    ensures Walk(dirs, refused, at, parts) == (dirs, true)
    decreases |parts|
  {
    if parts != [] {
      var rest := parts[1..];
      if Skipped(parts[0]) {
        assert Segments(parts) == Segments(rest);
        WalkExisting(dirs, refused, at, rest);
      } else {
        assert Segments(parts) == [parts[0]] + Segments(rest);
        PrefixesCons(at, parts[0], Segments(rest));
        WalkExisting(dirs, refused, at + [parts[0]], rest);
      }
    }
  }

  /** Ensuring the same path twice: the second walk creates nothing. */
  lemma WalkIdempotent(dirs: set<RemotePath>, refused: set<RemotePath>, at: RemotePath, parts: seq<string>)
    requires Walk(dirs, refused, at, parts).1
    ensures var d := Walk(dirs, refused, at, parts).0; Walk(d, refused, at, parts) == (d, true)
  {
    WalkSucceeds(dirs, refused, at, parts);
    WalkExisting(Walk(dirs, refused, at, parts).0, refused, at, parts);
  }

  /**
   * The directories on the way that a walk from dirs leaves in place: every prefix up to,
   * and not including, the first one that is both missing and refused.
   */
  ghost function Walked(dirs: set<RemotePath>, refused: set<RemotePath>, at: RemotePath, segs: seq<string>)
    : set<RemotePath>
  {
    set i | 1 <= i <= |segs| && Reachable(dirs, refused, at, segs[..i]) :: at + segs[..i]
  }

  lemma WalkedCons(dirs: set<RemotePath>, refused: set<RemotePath>, at: RemotePath, p: string, rest: seq<string>)
    ensures Walked(dirs, refused, at, [p] + rest) ==
      if at + [p] in dirs || at + [p] !in refused then {at + [p]} + Walked(dirs, refused, at + [p], rest) else {}
  {
    var segs := [p] + rest;
    var ok := at + [p] in dirs || at + [p] !in refused;
    assert segs[..1] == [p] + rest[..0];
    ReachableCons(dirs, refused, at, p, rest[..0]);
    forall x | x in Walked(dirs, refused, at, segs)
      ensures ok && x in {at + [p]} + Walked(dirs, refused, at + [p], rest)
    {
      var i :| 1 <= i <= |segs| && Reachable(dirs, refused, at, segs[..i]) && x == at + segs[..i];
      assert segs[..i] == [p] + rest[..i - 1];
      ReachableCons(dirs, refused, at, p, rest[..i - 1]);
      if i > 1 {
        assert x == (at + [p]) + rest[..i - 1];
      }
    }
    if ok {
      forall x | x in {at + [p]} + Walked(dirs, refused, at + [p], rest)
        ensures x in Walked(dirs, refused, at, segs)
      {
        if x != at + [p] {
          var j :| 1 <= j <= |rest| && Reachable(dirs, refused, at + [p], rest[..j]) && x == (at + [p]) + rest[..j];
          assert segs[..j + 1] == [p] + rest[..j];
          ReachableCons(dirs, refused, at, p, rest[..j]);
          assert x == at + segs[..j + 1];
        }
      }
    }
  }

  /** Creating directories the server does not refuse changes what any walk leaves in place. */
  lemma WalkedStable(dirs: set<RemotePath>, more: set<RemotePath>, refused: set<RemotePath>, at: RemotePath, segs: seq<string>)
    requires dirs <= more && (more - dirs) !! refused
    ensures Walked(dirs, refused, at, segs) == Walked(more, refused, at, segs)
  {
    forall i | 1 <= i <= |segs|
      ensures Reachable(dirs, refused, at, segs[..i]) <==> Reachable(more, refused, at, segs[..i])
    {
      ReachableStable(dirs, more, refused, at, segs[..i]);
    }
  }

  /** The directories after a walk are exactly the old ones and those the walk leaves in place. */
  lemma {:induction false} WalkExact(dirs: set<RemotePath>, refused: set<RemotePath>, at: RemotePath, parts: seq<string>)
    ensures Walk(dirs, refused, at, parts).0 == dirs + Walked(dirs, refused, at, Segments(parts))
    decreases |parts|
  {
    if parts != [] {
      var rest := parts[1..];
      if Skipped(parts[0]) {
        assert Segments(parts) == Segments(rest);
        WalkExact(dirs, refused, at, rest);
      } else {
        var next := at + [parts[0]];
        assert Segments(parts) == [parts[0]] + Segments(rest);
        WalkedCons(dirs, refused, at, parts[0], Segments(rest));
        if next in dirs {
          WalkExact(dirs, refused, next, rest);
        } else if next !in refused {
          WalkExact(dirs + {next}, refused, next, rest);
          WalkedStable(dirs, dirs + {next}, refused, next, Segments(rest));
        }
      }
    }
  }

  /**
   * What a walk leaves in place: only directories on its own path, and all of them when
   * the path is reachable.
   */
  lemma WalkedMeaning(dirs: set<RemotePath>, refused: set<RemotePath>, at: RemotePath, segs: seq<string>)
    ensures Walked(dirs, refused, at, segs) <= Prefixes(at, segs)
    ensures Reachable(dirs, refused, at, segs) ==> Walked(dirs, refused, at, segs) == Prefixes(at, segs)
  {
    if Reachable(dirs, refused, at, segs) {
      forall i | 1 <= i <= |segs| ensures Reachable(dirs, refused, at, segs[..i]) {
        forall j | 1 <= j <= i ensures at + segs[..i][..j] in dirs || at + segs[..i][..j] !in refused {
          assert segs[..i][..j] == segs[..j];
        }
      }
    }
  }

  /** Files named names, placed in directory dir. */
  function Placed(dir: RemotePath, names: seq<string>): (r: set<(RemotePath, string)>)
    ensures forall f :: f in names ==> (dir, f) in r
    ensures forall x :: x in r ==> x.0 == dir && x.1 in names
  {
    set f | f in names :: (dir, f)
  }

  /** The FTP server together with one session's working directory. */
  class FtpServer {
    /** The directory a session starts in after login. */
    const home: RemotePath
    const refused: set<RemotePath>
    var dirs: set<RemotePath>
    var cwd: RemotePath
    /** (directory, file name) of every file stored on the server. */
    var files: set<(RemotePath, string)>

    ghost predicate Valid()
      reads this
    {
      home in dirs && cwd in dirs
    }

    constructor (home: RemotePath, refused: set<RemotePath>, dirs: set<RemotePath>)
      requires home in dirs
      ensures Valid()
      ensures this.home == home && this.refused == refused && this.dirs == dirs
      ensures cwd == home && files == {}
    {
      this.home := home;
      this.refused := refused;
      this.dirs := dirs;
      cwd := home;
      files := {};
    }

    /** Login: a new session starts in the home directory. */
    method Open()
      requires Valid()
      modifies this
      ensures Valid() && cwd == home && dirs == old(dirs) && files == old(files)
    {
      cwd := home;
    }

    /** CWD into a child of the working directory; fails when it does not exist. */
    method Cwd(part: string) returns (ok: bool)
      requires Valid()
      modifies this
      ensures Valid() && dirs == old(dirs) && files == old(files)
      ensures ok == (old(cwd) + [part] in dirs)
      ensures cwd == if ok then old(cwd) + [part] else old(cwd)
    {
      ok := cwd + [part] in dirs;
      if ok {
        cwd := cwd + [part];
      }
    }

    /** MKD of a child of the working directory; fails when it exists or is refused. */
    method Mkd(part: string) returns (ok: bool)
      requires Valid()
      modifies this
      ensures Valid() && cwd == old(cwd) && files == old(files)
      ensures ok == (cwd + [part] !in old(dirs) && cwd + [part] !in refused)
      ensures dirs == if ok then old(dirs) + {cwd + [part]} else old(dirs)
    {
      ok := cwd + [part] !in dirs && cwd + [part] !in refused;
      if ok {
        dirs := dirs + {cwd + [part]};
      }
    }

    /**
     * _ensure_ftp_path: walk parts from the working directory, entering each segment and
     * creating the missing ones, stop at the first failure, and in every case return to the
     * directory the walk started from.
     */
    method EnsurePath(parts: seq<string>) returns (ok: bool)
      requires Valid()
      modifies this
      ensures Valid() && files == old(files)
      ensures cwd == old(cwd)
      ensures (dirs, ok) == Walk(old(dirs), refused, old(cwd), parts)
    {
      var original := cwd;
      ok := true;
      var i := 0;
      while i < |parts|
        invariant 0 <= i <= |parts|
        invariant Valid() && files == old(files) && old(dirs) <= dirs && original in dirs
        invariant ok
        invariant Walk(old(dirs), refused, original, parts) == Walk(dirs, refused, cwd, parts[i..])
      {
        var part := parts[i];
        assert parts[i..][1..] == parts[i + 1..];
        if !Skipped(part) {
          var entered := Cwd(part);
          if !entered {
            var made := Mkd(part);
            if !made {
              ok := false;
              break;
            }
            entered := Cwd(part);
          }
        }
        i := i + 1;
      }
      cwd := original;
    }

    /**
     * STOR of name into the existing directory dir (a bare name addresses the working
     * directory); accepted is the transfer's outcome.
     */
    method Store(dir: RemotePath, name: string, accepted: bool)
      requires Valid() && dir in dirs
      modifies this
      ensures Valid() && dirs == old(dirs) && cwd == old(cwd)
      ensures files == if accepted then old(files) + {(dir, name)} else old(files)
    {
      if accepted {
        files := files + {(dir, name)};
      }
    }
  }
}
