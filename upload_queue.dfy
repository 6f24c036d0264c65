/**
 * FTPQueueManager: the durable queue that carries confirmed cases' evidence folders to the
 * remote store. The queue is a map from case name to its entry; `saved` is the persisted
 * copy of that map (upload_status.json), and `staged` is the staging area, one folder per
 * case name holding the names of the copied files.
 */
module UploadQueue {
  import opened Common
  import opened LocalFs
  import opened RemoteStore

  /** ftp_connect_with_retry's default number of attempts. */
  const MaxRetries: nat := 3
  const Pending := "pending"

  datatype Entry = Entry(originalPath: string, status: string)

  /** names lists every key of m exactly once: list(m.items()) order. */
  ghost predicate Enumerates(names: seq<string>, m: map<string, Entry>) {
    && (forall i, j :: 0 <= i < j < |names| ==> names[i] != names[j])
    && (forall n :: n in names <==> n in m)
  }

  /** Some connection attempt within the retry budget succeeds. */
  ghost predicate Connects(connect: nat -> bool) {
    exists j :: 0 <= j < MaxRetries && connect(j)
  }

  function Listed(ns: seq<string>): set<string> {
    set n | n in ns
  }

  /** Every one of names is stored in folder. */
  ghost predicate AllStored(files: set<(RemotePath, string)>, folder: RemotePath, names: seq<string>) {
    forall f :: f in names ==> (folder, f) in files
  }

  lemma AllStoredGrows(files: set<(RemotePath, string)>, more: set<(RemotePath, string)>, folder: RemotePath, names: seq<string>)
    requires AllStored(files, folder, names) && files <= more
    ensures AllStored(more, folder, names)
  {
  }

  lemma MinusStep<V>(m: map<string, V>, gone: set<string>, name: string)
    ensures (m - gone) - {name} == m - (gone + {name})
  {
  }

  lemma UpdateSame(m: map<string, Entry>, k: string, v: Entry)
    requires k in m && m[k] == v
    ensures m[k := v] == m
  {
  }

  /**
   * The transfer loop of one case: the files go one by one into folder until the transfer
   * at index firstFailure fails; the result says whether every file went through.
   */
  method StoreFiles(ftp: FtpServer, folder: RemotePath, files: seq<string>, firstFailure: nat) returns (ok: bool)
    requires ftp.Valid() && folder in ftp.dirs
    modifies ftp
    ensures ftp.Valid() && ftp.cwd == old(ftp.cwd) && ftp.dirs == old(ftp.dirs)
    ensures ok == (firstFailure >= |files|)
    ensures ftp.files == old(ftp.files) + Placed(folder, files[..Min(firstFailure, |files|)])
  {
    ok := true;
    var i := 0;
    while i < |files|
      invariant 0 <= i <= |files| && i <= firstFailure
      invariant ftp.Valid() && ftp.cwd == old(ftp.cwd) && ftp.dirs == old(ftp.dirs)
      invariant ftp.files == old(ftp.files) + Placed(folder, files[..i])
    {
      if i == firstFailure {
        ok := false;
        break;
      }
      ftp.Store(folder, files[i], true);
      assert files[..i + 1] == files[..i] + [files[i]];
      i := i + 1;
    }
    assert i == Min(firstFailure, |files|);
  }

  class FtpQueueManager {
    const deviceId: string
    const deviceIp: string
    /** Whether an FTP server is configured at all. */
    const serverConfigured: bool
    const retryInterval: int
    /** The photo tree, where the original case folders live. */
    const disk: Disk
    var status: map<string, Entry>
    var saved: map<string, Entry>
    var staged: map<string, seq<string>>
    var lastAttempt: int
    /** How many times the map has been written to its persisted copy. */
    ghost var saves: nat

    /** Every change to the map is persisted before the operation returns. */
    ghost predicate Valid()
      reads this
    {
      saved == status
    }

    /**
     * Start-up: the map is reloaded from its persisted copy; a missing or unreadable copy
     * (snapshot == None) gives an empty queue.
     */
    constructor (deviceId: string, deviceIp: string, serverConfigured: bool, retryInterval: int,
                 disk: Disk, snapshot: Option<map<string, Entry>>, staged: map<string, seq<string>>)
      ensures Valid()
      ensures this.deviceId == deviceId && this.deviceIp == deviceIp && this.disk == disk
      ensures this.serverConfigured == serverConfigured && this.retryInterval == retryInterval
      ensures status == snapshot.GetOr(map[]) && this.staged == staged && lastAttempt == 0 && saves == 0
    {
      this.deviceId := deviceId;
      this.deviceIp := deviceIp;
      this.serverConfigured := serverConfigured;
      this.retryInterval := retryInterval;
      this.disk := disk;
      status := snapshot.GetOr(map[]);
      saved := snapshot.GetOr(map[]);
      this.staged := staged;
      lastAttempt := 0;
      saves := 0;
    }

    /** The per-device folder under the store's Sentinel folder. */
    function MainDir(): string
      reads {}
    {
      "Sentinel/" + deviceId + "_" + deviceIp
    }

    /** The path segments handed to _ensure_ftp_path for one case. */
    function CaseParts(date: string, name: string): seq<string>
      reads {}
    {
      ["/", MainDir(), date, name]
    }

    /** For a date and a case name that are walked, the case folder is device/date/name. */
    lemma CaseSegments(date: string, name: string)
      requires !Skipped(date) && !Skipped(name)
      ensures Segments(CaseParts(date, name)) == [MainDir(), date, name]
    {
      var m := MainDir();
      assert !Skipped(m);
      assert CaseParts(date, name) == ["/"] + ([m] + ([date] + [name]));
      SegmentsSingle("/");
      SegmentsSingle(m);
      SegmentsSingle(date);
      SegmentsSingle(name);
      SegmentsAppend([date], [name]);
      SegmentsAppend([m], [date] + [name]);
      SegmentsAppend(["/"], [m] + ([date] + [name]));
    }

    /**
     * queue_case: a case folder that exists is copied into the staging area (unless a copy
     * is already there), entered in the map as pending, and the map is persisted.
     */
    method QueueCase(caseDir: string)
      requires Valid()
      modifies this
      ensures Valid() && lastAttempt == old(lastAttempt)
      ensures caseDir !in disk.dirs ==> status == old(status) && staged == old(staged)
      ensures caseDir in disk.dirs ==>
        var name := Basename(caseDir);
        && status == old(status)[name := Entry(caseDir, Pending)]
        && (name in old(staged) ==> staged == old(staged))
        && (name !in old(staged) ==> staged == old(staged)[name := disk.dirs[caseDir]])
      ensures Basename(caseDir) in old(status) && old(status)[Basename(caseDir)] == Entry(caseDir, Pending) ==>
        status == old(status)
      ensures saves == old(saves) + if caseDir in disk.dirs then 1 else 0
    {
      if caseDir !in disk.dirs {
        return;
      }
      var name := Basename(caseDir);
      var entry := Entry(caseDir, Pending);
      if name !in staged {
        staged := staged[name := disk.dirs[caseDir]];
      }
      if name in status && status[name] == entry {
        UpdateSame(status, name, entry);
      }
      status := status[name := entry];
      saved := status;
      saves := saves + 1;
    }

    /**
     * ftp_connect_with_retry: up to MaxRetries login attempts, stopping at the first that
     * succeeds; the result is the index of that attempt. connect(j) is the outcome of attempt j.
     */
    method ConnectWithRetry(connect: nat -> bool) returns (session: Option<nat>)
      ensures session.Some? ==>
        session.value < MaxRetries && connect(session.value) &&
        forall j :: 0 <= j < session.value ==> !connect(j)
      ensures session.None? ==> forall j :: 0 <= j < MaxRetries ==> !connect(j)
    {
      var attempt := 0;
      while attempt < MaxRetries
        invariant 0 <= attempt <= MaxRetries
        invariant forall j :: 0 <= j < attempt ==> !connect(j)
      {
        if connect(attempt) {
          return Some(attempt);
        }
        attempt := attempt + 1;
      }
      return None;
    }

    /**
     * Lines 220-227 of process_queue as written: the case folder is ensured, but
     * _ensure_ftp_path has returned to the starting directory, so every STOR lands there.
     * firstFailure is the index of the first file whose transfer fails.
     */
    method UploadCaseAsWritten(ftp: FtpServer, date: string, name: string, files: seq<string>, firstFailure: nat)
      returns (ok: bool)
      requires ftp.Valid()
      modifies ftp
      ensures ftp.Valid() && ftp.cwd == old(ftp.cwd)
      ensures var w := Walk(old(ftp.dirs), ftp.refused, old(ftp.cwd), CaseParts(date, name));
        && ftp.dirs == w.0
        && ok == (w.1 && firstFailure >= |files|)
        && ftp.files == old(ftp.files) + (if w.1 then Placed(old(ftp.cwd), files[..Min(firstFailure, |files|)]) else {})
    {
      var made := ftp.EnsurePath(CaseParts(date, name));
      if !made {
        return false;
      }
      ok := StoreFiles(ftp, ftp.cwd, files, firstFailure);
    }

    /**
     * What goes wrong as written: the case folder lies strictly below the directory the walk
     * starts from (the device folder is never skipped), so none of the files the as-written
     * step stores lands in the case folder.
     */
    lemma StoresOutsideCaseFolder(at: RemotePath, date: string, name: string, files: seq<string>)
      ensures Target(at, CaseParts(date, name)) != at
      ensures Placed(at, files) !! Placed(Target(at, CaseParts(date, name)), files)
    {
      var parts := CaseParts(date, name);
      assert MainDir() in parts && !Skipped(MainDir());
      assert |Segments(parts)| >= 1;
    }

    /**
     * The same step with the evidently intended effect: every file is stored inside the
     * case's own folder, the directory the walk ends in.
     */
    method UploadCase(ftp: FtpServer, date: string, name: string, files: seq<string>, firstFailure: nat)
      returns (ok: bool)
      requires ftp.Valid()
      modifies ftp
      ensures ftp.Valid() && ftp.cwd == old(ftp.cwd)
      ensures var w := Walk(old(ftp.dirs), ftp.refused, old(ftp.cwd), CaseParts(date, name));
        && ftp.dirs == w.0
        && ok == (w.1 && firstFailure >= |files|)
        && ftp.files == old(ftp.files) +
             (if w.1 then Placed(Target(old(ftp.cwd), CaseParts(date, name)), files[..Min(firstFailure, |files|)]) else {})
    {
      var parts := CaseParts(date, name);
      var made := ftp.EnsurePath(parts);
      if !made {
        return false;
      }
      var folder := Target(ftp.cwd, parts);
      WalkSucceeds(old(ftp.dirs), ftp.refused, old(ftp.cwd), parts);
      assert folder == ftp.cwd + Segments(parts)[..|Segments(parts)|];
      ok := StoreFiles(ftp, folder, files, firstFailure);
    }
    /** The remote folder a case's files belong in. */
    function CaseFolder(ftp: FtpServer, date: string, name: string): RemotePath {
      Target(ftp.home, CaseParts(date, name))
    }

    /** The wake of process_queue that does nothing: empty map, no server, or too soon. */
    predicate Waits(now: int)
      reads this
    {
      status == map[] || !serverConfigured || now - lastAttempt < retryInterval
    }

    /** Every file of the case would transfer, and its folder can be walked to. */
    ghost predicate Delivered(name: string, files: seq<string>, dirs: set<RemotePath>, ftp: FtpServer,
                              date: string, firstFailure: string -> nat)
    {
      Reachable(dirs, ftp.refused, ftp.home, Segments(CaseParts(date, name))) && firstFailure(name) >= |files|
    }

    /** The entries among keys that one cycle removes: orphans and fully uploaded cases. */
    ghost function Gone(keys: set<string>, staged0: map<string, seq<string>>, dirs: set<RemotePath>,
                        ftp: FtpServer, date: string, firstFailure: string -> nat): set<string>
    {
      set n | n in keys && (n !in staged0 || Delivered(n, staged0[n], dirs, ftp, date, firstFailure))
    }

    /** The original case folders deleted when the entries in gone are removed. */
    ghost function Originals(gone: set<string>, status0: map<string, Entry>, staged0: map<string, seq<string>>): set<string>
    {
      set n | n in gone && n in status0 && n in staged0 :: status0[n].originalPath
    }

    /**
     * The files one cycle stores for the case name: when its folder can be walked to, the
     * files listed before its first failed transfer, in that folder; nothing otherwise.
     */
    ghost function Uploads(name: string, staged0: map<string, seq<string>>, dirs: set<RemotePath>, ftp: FtpServer,
                           date: string, firstFailure: string -> nat): set<(RemotePath, string)>
    {
      if name in staged0 && Reachable(dirs, ftp.refused, ftp.home, Segments(CaseParts(date, name)))
      then Placed(CaseFolder(ftp, date, name), staged0[name][..Min(firstFailure(name), |staged0[name]|)])
      else {}
    }

    /** The files one cycle stores for all the cases in keys. */
    ghost function AllUploads(keys: set<string>, staged0: map<string, seq<string>>, dirs: set<RemotePath>,
                              ftp: FtpServer, date: string, firstFailure: string -> nat): set<(RemotePath, string)>
    {
      set n, x | n in keys && x in Uploads(n, staged0, dirs, ftp, date, firstFailure) :: x
    }

    /** The remote directories one cycle leaves in place for the case name: those of its walk. */
    ghost function Paths(name: string, staged0: map<string, seq<string>>, dirs: set<RemotePath>, ftp: FtpServer,
                         date: string): set<RemotePath>
    {
      if name in staged0 then Walked(dirs, ftp.refused, ftp.home, Segments(CaseParts(date, name))) else {}
    }

    /** The remote directories one cycle leaves in place for all the cases in keys. */
    ghost function AllPaths(keys: set<string>, staged0: map<string, seq<string>>, dirs: set<RemotePath>,
                            ftp: FtpServer, date: string): set<RemotePath>
    {
      set n, x | n in keys && x in Paths(n, staged0, dirs, ftp, date) :: x
    }

    lemma AllPathsStep(keys: set<string>, name: string, staged0: map<string, seq<string>>, dirs: set<RemotePath>,
                       ftp: FtpServer, date: string)
      ensures AllPaths(keys + {name}, staged0, dirs, ftp, date) ==
        AllPaths(keys, staged0, dirs, ftp, date) + Paths(name, staged0, dirs, ftp, date)
    {
    }

    /**
     * What the directories of a cycle amount to: every staged case whose path is reachable has
     * its whole path, its own folder included; and every directory lies on the path of some
     * staged case.
     */
    lemma AllPathsMeaning(keys: set<string>, staged0: map<string, seq<string>>, dirs: set<RemotePath>,
                          ftp: FtpServer, date: string)
      ensures forall n :: n in keys && n in staged0 && Reachable(dirs, ftp.refused, ftp.home, Segments(CaseParts(date, n))) ==>
        && Prefixes(ftp.home, Segments(CaseParts(date, n))) <= AllPaths(keys, staged0, dirs, ftp, date)
        && Target(ftp.home, CaseParts(date, n)) in AllPaths(keys, staged0, dirs, ftp, date)
      ensures forall x :: x in AllPaths(keys, staged0, dirs, ftp, date) ==>
        exists n :: n in keys && n in staged0 && x in Prefixes(ftp.home, Segments(CaseParts(date, n)))
    {
      forall n | n in keys && n in staged0 && Reachable(dirs, ftp.refused, ftp.home, Segments(CaseParts(date, n)))
        ensures Prefixes(ftp.home, Segments(CaseParts(date, n))) <= AllPaths(keys, staged0, dirs, ftp, date)
        ensures Target(ftp.home, CaseParts(date, n)) in AllPaths(keys, staged0, dirs, ftp, date)
      {
        var segs := Segments(CaseParts(date, n));
        WalkedMeaning(dirs, ftp.refused, ftp.home, segs);
        assert MainDir() in CaseParts(date, n) && !Skipped(MainDir());
        assert segs[..|segs|] == segs;
        assert Target(ftp.home, CaseParts(date, n)) in Prefixes(ftp.home, segs);
        forall x | x in Prefixes(ftp.home, segs) ensures x in AllPaths(keys, staged0, dirs, ftp, date) {
          assert x in Paths(n, staged0, dirs, ftp, date);
        }
      }
      forall x | x in AllPaths(keys, staged0, dirs, ftp, date)
        ensures exists n :: n in keys && n in staged0 && x in Prefixes(ftp.home, Segments(CaseParts(date, n)))
      {
        var n :| n in keys && x in Paths(n, staged0, dirs, ftp, date);
        WalkedMeaning(dirs, ftp.refused, ftp.home, Segments(CaseParts(date, n)));
      }
    }

    /** Step i of the loop adds the directories of entry names[i], as the cycle's start saw it. */
    lemma AdvancePaths(names: seq<string>, i: nat, staged0: map<string, seq<string>>, gone: set<string>,
                       staged1: map<string, seq<string>>, dirs0: set<RemotePath>, ftp: FtpServer, date: string,
                       dirs1: set<RemotePath>, dirs2: set<RemotePath>)
      requires i < |names| && names[i] !in gone && staged1 == staged0 - gone
      requires dirs1 == dirs0 + AllPaths(Listed(names[..i]), staged0, dirs0, ftp, date)
      requires dirs2 == dirs1 + Paths(names[i], staged1, dirs0, ftp, date)
      ensures dirs2 == dirs0 + AllPaths(Listed(names[..i + 1]), staged0, dirs0, ftp, date)
    {
      var name := names[i];
      assert Paths(name, staged1, dirs0, ftp, date) == Paths(name, staged0, dirs0, ftp, date);
      assert Listed(names[..i + 1]) == Listed(names[..i]) + {name} by {
        assert names[..i + 1] == names[..i] + [name];
      }
      AllPathsStep(Listed(names[..i]), name, staged0, dirs0, ftp, date);
    }

    lemma AllUploadsStep(keys: set<string>, name: string, staged0: map<string, seq<string>>, dirs: set<RemotePath>,
                         ftp: FtpServer, date: string, firstFailure: string -> nat)
      ensures AllUploads(keys + {name}, staged0, dirs, ftp, date, firstFailure) ==
        AllUploads(keys, staged0, dirs, ftp, date, firstFailure) + Uploads(name, staged0, dirs, ftp, date, firstFailure)
    {
    }

    lemma GoneStep(names: seq<string>, i: nat, staged0: map<string, seq<string>>,
                   dirs: set<RemotePath>, ftp: FtpServer, date: string, firstFailure: string -> nat)
      requires i < |names|
      ensures var name := names[i];
        var cond := name !in staged0 || Delivered(name, staged0[name], dirs, ftp, date, firstFailure);
        Gone(Listed(names[..i + 1]), staged0, dirs, ftp, date, firstFailure) ==
          Gone(Listed(names[..i]), staged0, dirs, ftp, date, firstFailure) + (if cond then {name} else {})
    {
      assert names[..i + 1] == names[..i] + [names[i]];
      assert Listed(names[..i + 1]) == Listed(names[..i]) + {names[i]};
    }

    lemma OriginalsStep(gone: set<string>, name: string, status0: map<string, Entry>, staged0: map<string, seq<string>>)
      requires name in status0
      ensures Originals(gone + {name}, status0, staged0) ==
        Originals(gone, status0, staged0) + (if name in staged0 then {status0[name].originalPath} else {})
    {
    }

    /**
     * The body of process_queue's loop for one entry: an orphan (no staging copy) is dropped;
     * otherwise the case is uploaded, and only when every file went through are the staging
     * copy, the original folder and the entry removed.
     */
    method ProcessEntry(ftp: FtpServer, date: string, name: string, firstFailure: string -> nat,
                        ghost dirs0: set<RemotePath>) returns (dropped: bool)
      requires ftp.Valid() && ftp.cwd == ftp.home && name in status
      requires dirs0 <= ftp.dirs && (ftp.dirs - dirs0) !! ftp.refused
      modifies this, disk, ftp
      ensures ftp.Valid() && ftp.cwd == ftp.home
      ensures dirs0 <= ftp.dirs && (ftp.dirs - dirs0) !! ftp.refused
      ensures name !in old(staged) ==> ftp.dirs == old(ftp.dirs)
      ensures ftp.dirs == old(ftp.dirs) + Paths(name, old(staged), dirs0, ftp, date)
      ensures ftp.files == old(ftp.files) + Uploads(name, old(staged), dirs0, ftp, date, firstFailure)
      ensures dropped == (name !in old(staged) || Delivered(name, old(staged)[name], dirs0, ftp, date, firstFailure))
      ensures dropped && name in old(staged) ==> AllStored(ftp.files, CaseFolder(ftp, date, name), old(staged)[name])
      ensures saved == old(saved) && lastAttempt == old(lastAttempt) && saves == old(saves)
      ensures status == if dropped then old(status) - {name} else old(status)
      ensures staged == if dropped then old(staged) - {name} else old(staged)
      ensures disk.dirs == if dropped && name in old(staged) then old(disk.dirs) - {old(status)[name].originalPath}
                           else old(disk.dirs)
    {
      if name !in staged {
        status := status - {name};
        return true;
      }
      var parts := CaseParts(date, name);
      WalkSucceeds(ftp.dirs, ftp.refused, ftp.home, parts);
      WalkGrows(ftp.dirs, ftp.refused, ftp.home, parts);
      ReachableStable(dirs0, ftp.dirs, ftp.refused, ftp.home, Segments(parts));
      WalkExact(ftp.dirs, ftp.refused, ftp.home, parts);
      WalkedStable(dirs0, ftp.dirs, ftp.refused, ftp.home, Segments(parts));
      dropped := UploadCase(ftp, date, name, staged[name], firstFailure(name));
      if dropped {
        staged := staged - {name};
        var original := status[name].originalPath;
        if original in disk.dirs {
          var _ := disk.RemoveTree(original);
        }
        status := status - {name};
      }
    }

    /** The bookkeeping of one step of process_queue's loop, on the states before and after. */
    lemma Advance(names: seq<string>, i: nat, status0: map<string, Entry>, staged0: map<string, seq<string>>,
                  disk0: map<string, seq<string>>, dirs0: set<RemotePath>, ftp: FtpServer, date: string,
                  firstFailure: string -> nat, gone: set<string>, files0: set<(RemotePath, string)>,
                  status1: map<string, Entry>, staged1: map<string, seq<string>>, disk1: map<string, seq<string>>,
                  files1: set<(RemotePath, string)>, dropped: bool,
                  status2: map<string, Entry>, staged2: map<string, seq<string>>, disk2: map<string, seq<string>>,
                  files2: set<(RemotePath, string)>)
      requires i < |names| && names[i] in status0 && names[i] !in gone
      requires gone == Gone(Listed(names[..i]), staged0, dirs0, ftp, date, firstFailure)
      requires status1 == status0 - gone && staged1 == staged0 - gone
      requires disk1 == disk0 - Originals(gone, status0, staged0)
      requires forall n :: n in gone && n in staged0 ==> AllStored(files1, CaseFolder(ftp, date, n), staged0[n])
      requires files1 == files0 + AllUploads(Listed(names[..i]), staged0, dirs0, ftp, date, firstFailure)
      requires files2 == files1 + Uploads(names[i], staged1, dirs0, ftp, date, firstFailure)
      requires var name := names[i];
        && dropped == (name !in staged1 || Delivered(name, staged1[name], dirs0, ftp, date, firstFailure))
        && (dropped && name in staged1 ==> AllStored(files2, CaseFolder(ftp, date, name), staged1[name]))
        && status2 == (if dropped then status1 - {name} else status1)
        && staged2 == (if dropped then staged1 - {name} else staged1)
        && disk2 == (if dropped && name in staged1 then disk1 - {status1[name].originalPath} else disk1)
      ensures var next := if dropped then gone + {names[i]} else gone;
        && next == Gone(Listed(names[..i + 1]), staged0, dirs0, ftp, date, firstFailure)
        && status2 == status0 - next && staged2 == staged0 - next
        && disk2 == disk0 - Originals(next, status0, staged0)
        && (forall n :: n in next && n in staged0 ==> AllStored(files2, CaseFolder(ftp, date, n), staged0[n]))
        && files2 == files0 + AllUploads(Listed(names[..i + 1]), staged0, dirs0, ftp, date, firstFailure)
    {
      var name := names[i];
      GoneStep(names, i, staged0, dirs0, ftp, date, firstFailure);
      assert Uploads(name, staged1, dirs0, ftp, date, firstFailure) == Uploads(name, staged0, dirs0, ftp, date, firstFailure);
      assert Listed(names[..i + 1]) == Listed(names[..i]) + {name} by {
        assert names[..i + 1] == names[..i] + [name];
      }
      AllUploadsStep(Listed(names[..i]), name, staged0, dirs0, ftp, date, firstFailure);
      forall n | n in gone && n in staged0
        ensures AllStored(files2, CaseFolder(ftp, date, n), staged0[n])
      {
        AllStoredGrows(files1, files2, CaseFolder(ftp, date, n), staged0[n]);
      }
      if dropped {
        MinusStep(status0, gone, name);
        MinusStep(staged0, gone, name);
        OriginalsStep(gone, name, status0, staged0);
        if name in staged0 {
          MinusStep(disk0, Originals(gone, status0, staged0), status0[name].originalPath);
        }
      }
    }

    /** What the loop over the entries has done after the first i of them. */
    ghost predicate Progress(ftp: FtpServer, names: seq<string>, i: nat, date: string, firstFailure: string -> nat,
                             status0: map<string, Entry>, staged0: map<string, seq<string>>,
                             disk0: map<string, seq<string>>, dirs0: set<RemotePath>, files0: set<(RemotePath, string)>,
                             gone: set<string>)
      reads this, disk, ftp
    {
      && i <= |names|
      && ftp.Valid() && ftp.cwd == ftp.home
      && gone == Gone(Listed(names[..i]), staged0, dirs0, ftp, date, firstFailure)
      && status == status0 - gone && staged == staged0 - gone
      && disk.dirs == disk0 - Originals(gone, status0, staged0)
      && (forall n :: n in gone && n in staged0 ==> AllStored(ftp.files, CaseFolder(ftp, date, n), staged0[n]))
      && dirs0 <= ftp.dirs && (ftp.dirs - dirs0) !! ftp.refused
      && ftp.dirs == dirs0 + AllPaths(Listed(names[..i]), staged0, dirs0, ftp, date)
      && ftp.files == files0 + AllUploads(Listed(names[..i]), staged0, dirs0, ftp, date, firstFailure)
    }

    /** One iteration of the loop over the entries: entry names[i] is processed. */
    method Step(ftp: FtpServer, names: seq<string>, i: nat, date: string, firstFailure: string -> nat,
                ghost status0: map<string, Entry>, ghost staged0: map<string, seq<string>>,
                ghost disk0: map<string, seq<string>>, ghost dirs0: set<RemotePath>, ghost files0: set<(RemotePath, string)>,
                ghost gone: set<string>)
      returns (dropped: bool)
      requires i < |names| && names[i] in status0 && names[i] !in Listed(names[..i])
      requires Progress(ftp, names, i, date, firstFailure, status0, staged0, disk0, dirs0, files0, gone)
      modifies this, disk, ftp
      ensures Progress(ftp, names, i + 1, date, firstFailure, status0, staged0, disk0, dirs0, files0,
                       if dropped then gone + {names[i]} else gone)
      ensures saved == old(saved) && lastAttempt == old(lastAttempt) && saves == old(saves)
    {
      var name := names[i];
      ghost var status1, staged1, disk1, files1, dirs1 := status, staged, disk.dirs, ftp.files, ftp.dirs;
      dropped := ProcessEntry(ftp, date, name, firstFailure, dirs0);
      AdvancePaths(names, i, staged0, gone, staged1, dirs0, ftp, date, dirs1, ftp.dirs);
      Advance(names, i, status0, staged0, disk0, dirs0, ftp, date, firstFailure, gone, files0,
              status1, staged1, disk1, files1, dropped, status, staged, disk.dirs, ftp.files);
    }

    /**
     * The loop of process_queue over every entry, in the map's iteration order, within one
     * FTP session that starts in the home directory.
     */
    method ProcessEntries(ftp: FtpServer, names: seq<string>, date: string, firstFailure: string -> nat)
      returns (processed: bool)
      requires ftp.Valid() && ftp.cwd == ftp.home
      requires Enumerates(names, status)
      modifies this, disk, ftp
      ensures ftp.Valid() && ftp.cwd == ftp.home
      ensures saved == old(saved) && lastAttempt == old(lastAttempt) && saves == old(saves)
      ensures var gone := Gone(old(status).Keys, old(staged), old(ftp.dirs), ftp, date, firstFailure);
        && status == old(status) - gone
        && staged == old(staged) - gone
        && processed == (gone != {})
        && disk.dirs == old(disk.dirs) - Originals(gone, old(status), old(staged))
        && (forall n :: n in gone && n in old(staged) ==> AllStored(ftp.files, CaseFolder(ftp, date, n), old(staged)[n]))
      ensures old(ftp.dirs) <= ftp.dirs && (ftp.dirs - old(ftp.dirs)) !! ftp.refused
      ensures ftp.dirs == old(ftp.dirs) + AllPaths(old(status).Keys, old(staged), old(ftp.dirs), ftp, date)
      ensures ftp.files == old(ftp.files) + AllUploads(old(status).Keys, old(staged), old(ftp.dirs), ftp, date, firstFailure)
    {
      ghost var status0, staged0, disk0, dirs0, files0 := status, staged, disk.dirs, ftp.dirs, ftp.files;
      ghost var gone: set<string> := {};
      processed := false;
      var i := 0;
      while i < |names|
        invariant Progress(ftp, names, i, date, firstFailure, status0, staged0, disk0, dirs0, files0, gone)
        invariant lastAttempt == old(lastAttempt) && saved == old(saved) && saves == old(saves)
        invariant processed == (gone != {})
      {
        assert names[i] !in Listed(names[..i]);
        var dropped := Step(ftp, names, i, date, firstFailure, status0, staged0, disk0, dirs0, files0, gone);
        if dropped {
          gone := gone + {names[i]};
          processed := true;
        }
        i := i + 1;
      }
      assert names[..|names|] == names;
      assert Listed(names) == status0.Keys;
    }

    /**
     * process_queue: one wake of the background uploader. now is the clock, connect(j) the
     * outcome of login attempt j, names the map's iteration order, date the date folder and
     * firstFailure(n) the index of the first file of case n whose transfer fails.
     */
    method ProcessQueue(now: int, connect: nat -> bool, ftp: FtpServer, names: seq<string>, date: string,
                        firstFailure: string -> nat)
      requires Valid() && ftp.Valid()
      requires Enumerates(names, status)
      modifies this, disk, ftp
      ensures Valid() && ftp.Valid()
      ensures old(Waits(now)) ==>
        && status == old(status) && staged == old(staged) && lastAttempt == old(lastAttempt)
        && disk.dirs == old(disk.dirs) && ftp.dirs == old(ftp.dirs) && ftp.files == old(ftp.files)
      ensures !old(Waits(now)) ==> lastAttempt == now
      ensures !old(Waits(now)) && !Connects(connect) ==>
        && status == old(status) && staged == old(staged)
        && disk.dirs == old(disk.dirs) && ftp.dirs == old(ftp.dirs) && ftp.files == old(ftp.files)
      ensures !old(Waits(now)) && Connects(connect) ==>
        var gone := Gone(old(status).Keys, old(staged), old(ftp.dirs), ftp, date, firstFailure);
        && status == old(status) - gone
        && staged == old(staged) - gone
        && disk.dirs == old(disk.dirs) - Originals(gone, old(status), old(staged))
        && ftp.cwd == ftp.home
        && old(ftp.dirs) <= ftp.dirs && (ftp.dirs - old(ftp.dirs)) !! ftp.refused
        && ftp.dirs == old(ftp.dirs) + AllPaths(old(status).Keys, old(staged), old(ftp.dirs), ftp, date)
        && ftp.files == old(ftp.files) + AllUploads(old(status).Keys, old(staged), old(ftp.dirs), ftp, date, firstFailure)
        && (forall n, f :: n in gone && n in old(staged) && f in old(staged)[n] ==>
             (Target(ftp.home, CaseParts(date, n)), f) in ftp.files)
        && saves == old(saves) + if gone != {} then 1 else 0
      ensures old(Waits(now)) || !Connects(connect) ==> saves == old(saves)
    {
      if Waits(now) {
        return;
      }
      lastAttempt := now;
      var session := ConnectWithRetry(connect);
      if session.None? {
        return;
      }
      ftp.Open();
      var processed := ProcessEntries(ftp, names, date, firstFailure);
      if processed {
        saved := status;
        saves := saves + 1;
      }
    }
  }
}
