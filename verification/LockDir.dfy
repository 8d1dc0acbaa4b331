/** Taking, repairing and dropping the repository lock in its own form: the holder
    files of one repository, changed under the guard (acquire_with,
    remove_stale_holder_for_run, list_holders_unlocked, clear_stale_lock,
    release_run_lock and release in crates/wanax-core/src/lock.rs). */
module LockDir {
  import opened Types
  import opened GlobOverlap
  import opened Lock
  import Order

  /** The files of the holders of `run` are gone. */
  function WithoutRun(fs: Files, run: string): Files {
    map k | k in fs && !(fs[k].Full? && fs[k].h.run == run) :: fs[k]
  }

  function Swept(fs: Files, req: Request): Files { if req.resume then WithoutRun(fs, req.run) else fs }

  predicate NoLive(fs: Files, run: string, alive: set<Pid>) {
    forall k :: k in fs && fs[k].Full? && fs[k].h.run == run ==> fs[k].h.pid !in alive
  }

  /** When a request is granted. */
  ghost predicate Grantable(m: Matcher, fs: Files, alive: set<Pid>, req: Request) {
    && AllFull(fs) && NoLive(fs, req.run, alive)
    && (forall k :: k in Swept(fs, req) && Swept(fs, req)[k].Full? ==> !Conflicts(m, Swept(fs, req)[k].h, req))
    && req.Slot() !in Swept(fs, req)
  }

  /** A start may have its own file and paths: every file can be read, its run has no live
      holder, and its file is free. */
  predicate Unhindered(fs: Files, alive: set<Pid>, req: Request) {
    && (forall k :: k in fs ==> fs[k].Full?)
    && (forall k :: k in fs && fs[k].Full? && fs[k].h.run == req.run ==> fs[k].h.pid !in alive)
    && req.Slot() !in Swept(fs, req)
  }

  /** Both may write some path. */
  ghost predicate SharePath(m: Matcher, a: seq<string>, b: seq<string>) {
    exists path :: m.SetMatches(a, path) && m.SetMatches(b, path)
  }

  /** All paths in play are literal, a whole subtree or everything. */
  predicate SimplePaths(fs: Files, req: Request) {
    AllSimple(req.paths) && forall k :: k in fs && fs[k].Full? ==> AllSimple(fs[k].h.paths)
  }

  /** An unhindered start for paths is granted exactly when no holder that the sweep leaves
      has the whole repository, and none may write a path that it may write too. */
  lemma PathsGrantedExactly(m: Matcher, fs: Files, alive: set<Pid>, req: Request)
    requires Unhindered(fs, alive, req) && !req.wantExclusive && req.paths != []
    requires ReadsSimple(m) && SimplePaths(fs, req)
    ensures Grantable(m, fs, alive, req) <==>
            forall k :: k in Swept(fs, req) ==>
                          !Swept(fs, req)[k].h.exclusive && !SharePath(m, Swept(fs, req)[k].h.paths, req.paths)
  {
    hide Overlap, ReadsSimple, AllSimple;
    forall k | k in Swept(fs, req)
      ensures Conflicts(m, Swept(fs, req)[k].h, req)
          <==> Swept(fs, req)[k].h.exclusive || SharePath(m, Swept(fs, req)[k].h.paths, req.paths)
    {
      OverlapExact(m, Swept(fs, req)[k].h.paths, req.paths);
    }
  }

  /** One for the whole repository, exactly when the sweep leaves no holder at all. */
  lemma WholeGrantedExactly(m: Matcher, fs: Files, alive: set<Pid>, req: Request)
    requires Unhindered(fs, alive, req) && (req.wantExclusive || req.paths == [])
    ensures Grantable(m, fs, alive, req) <==> forall k :: k !in Swept(fs, req)
  {
    hide Overlap;
  }

  /** A hindered one never is. */
  lemma HinderedIsRefused(m: Matcher, fs: Files, alive: set<Pid>, req: Request)
    requires !Unhindered(fs, alive, req)
    ensures !Grantable(m, fs, alive, req)
  {}

  lemma GrantedExactly(m: Matcher, fs: Files, alive: set<Pid>, req: Request)
    ensures Grantable(m, fs, alive, req) ==> Unhindered(fs, alive, req)
    ensures Unhindered(fs, alive, req) && (req.wantExclusive || req.paths == []) ==>
              (Grantable(m, fs, alive, req) <==> forall k :: k !in Swept(fs, req))
    ensures Unhindered(fs, alive, req) && !req.wantExclusive && req.paths != []
            && ReadsSimple(m) && SimplePaths(fs, req) ==>
              (Grantable(m, fs, alive, req) <==>
                 forall k :: k in Swept(fs, req) ==>
                               !Swept(fs, req)[k].h.exclusive && !SharePath(m, Swept(fs, req)[k].h.paths, req.paths))
  {
    hide Grantable, Unhindered, ReadsSimple, SimplePaths, SharePath;
    if !Unhindered(fs, alive, req) {
      HinderedIsRefused(m, fs, alive, req);
    } else if req.wantExclusive || req.paths == [] {
      WholeGrantedExactly(m, fs, alive, req);
    } else if ReadsSimple(m) && SimplePaths(fs, req) {
      PathsGrantedExactly(m, fs, alive, req);
    }
  }

  /** Only stale holders of the resuming run are missing. */
  predicate OnlySwept(before: Files, after: Files, req: Request, alive: set<Pid>) {
    && Submap(after, before)
    && forall k :: k in before && k !in after ==>
                     req.resume && before[k].Full? && before[k].h.run == req.run && before[k].h.pid !in alive
  }

  function RunsOf(fs: Files): set<string> { set k | k in fs && k.Of? :: k.run }

  /** `holders` lists exactly the files. */
  predicate Listed(fs: Files, holders: seq<(Slot, Holder)>) {
    && (forall i :: 0 <= i < |holders| ==> holders[i].0 in fs && fs[holders[i].0] == Full(holders[i].1))
    && (forall k :: k in fs ==> exists i :: 0 <= i < |holders| && holders[i].0 == k)
  }

  lemma ListedTogether(fs: Files, runs: seq<string>, rest: seq<(Slot, Holder)>)
    requires (forall x :: x in runs <==> Of(x) in fs) && (Main in fs ==> fs[Main].Full?)
    requires |rest| == |runs| && forall j :: 0 <= j < |runs| ==>
               Of(runs[j]) in fs && rest[j].0 == Of(runs[j]) && fs[Of(runs[j])] == Full(rest[j].1)
    ensures AllFull(fs)
    ensures Listed(fs, (if Main in fs then [(Main, fs[Main].h)] else []) + rest)
  {
    var head := if Main in fs then [(Main, fs[Main].h)] else [];
    var all := head + rest;
    forall k | k in fs ensures fs[k].Full? && exists i :: 0 <= i < |all| && all[i].0 == k {
      if k.Main? {
        assert all[0].0 == k;
      } else {
        assert k.run in runs;
        var j :| 0 <= j < |runs| && runs[j] == k.run;
        assert all[|head| + j] == rest[j];
      }
    }
  }

  class LockSet {
    var files: Files

    constructor (files: Files)
      ensures this.files == files
    {
      this.files := files;
    }

    /** The holders of these runs, unless one of the files cannot be read. */
    method ReadHolders(runs: seq<string>) returns (r: Option<seq<(Slot, Holder)>>)
      requires forall j :: 0 <= j < |runs| ==> Of(runs[j]) in files
      ensures r.Some? <==> forall j :: 0 <= j < |runs| ==> files[Of(runs[j])].Full?
      ensures r.Some? ==> |r.value| == |runs| &&
                          forall j :: 0 <= j < |runs| ==> r.value[j].0 == Of(runs[j])
                                                          && files[Of(runs[j])] == Full(r.value[j].1)
    {
      var out: seq<(Slot, Holder)> := [];
      for n := 0 to |runs|
        invariant |out| == n
        invariant forall j :: 0 <= j < n ==> out[j].0 == Of(runs[j]) && files[Of(runs[j])] == Full(out[j].1)
      {
        var k := Of(runs[n]);
        if files[k].Empty? { return None; }
        out := out + [(k, files[k].h)];
      }
      r := Some(out);
    }

    method SortedRuns() returns (runs: seq<string>)
      ensures forall x :: x in runs <==> Of(x) in files
    {
      var entries := ReadDir();
      runs := Order.Sort(entries);
      assert forall x :: x in runs <==> x in RunsOf(files);
    }

    /** The exclusive holder first, then the others by file name; one unreadable
        file makes the whole listing fail. */
    method ListHolders() returns (r: Result<seq<(Slot, Holder)>, ErrorCode>)
      ensures r.Ok? <==> AllFull(files)
      ensures r.Ok? ==> Listed(files, r.value)
      ensures r.Err? ==> r.error == EDb
    {
      var out: seq<(Slot, Holder)> := [];
      if Main in files {
        if files[Main].Empty? { return Err(EDb); }
        out := [(Main, files[Main].h)];
      }
      var runs := SortedRuns();
      assert forall j :: 0 <= j < |runs| ==> runs[j] in runs;
      var rest := ReadHolders(runs);
      if rest.None? { return Err(EDb); }
      ListedTogether(files, runs, rest.value);
      r := Ok(out + rest.value);
    }

    /** The names under `.wanax/locks`, in no particular order. */
    method ReadDir() returns (entries: seq<string>)
      ensures forall i, j :: 0 <= i < j < |entries| ==> entries[i] != entries[j]
      ensures (set x | x in entries) == RunsOf(files)
    {
      entries := [];
      var left := RunsOf(files);
      while left != {}
        invariant left <= RunsOf(files)
        invariant forall i, j :: 0 <= i < j < |entries| ==> entries[i] != entries[j]
        invariant forall x :: x in entries <==> x in RunsOf(files) && x !in left
        decreases |left|
      {
        var x :| x in left;
        left := left - {x};
        entries := entries + [x];
      }
    }

    method RemoveFile(k: Slot)
      modifies this
      ensures files == map x | x in old(files) && x != k :: old(files)[x]
    {
      files := map x | x in files && x != k :: files[x];
    }

    /** On an error some stale holders may already be gone. */
    method RemoveStaleHolderForRun(req: Request, alive: set<Pid>) returns (r: Option<ErrorCode>)
      requires req.resume
      modifies this
      ensures OnlySwept(old(files), files, req, alive)
      ensures r.None? <==> AllFull(old(files)) && NoLive(old(files), req.run, alive)
      ensures r.None? ==> files == WithoutRun(old(files), req.run)
      ensures r.Some? ==> r.value == if AllFull(old(files)) then ERepoLocked else EDb
    {
      var listed := ListHolders();
      if listed.Err? { return Some(listed.error); }
      var holders := listed.value;
      for i := 0 to |holders|
        invariant OnlySwept(old(files), files, req, alive)
        invariant forall j :: 0 <= j < i ==> holders[j].1.run == req.run ==>
                    holders[j].1.pid !in alive && holders[j].0 !in files
        invariant forall k :: k in old(files) && k !in files ==> old(files)[k].h.run == req.run
      {
        var (k, h) := holders[i];
        if h.run == req.run {
          if h.pid in alive { return Some(ERepoLocked); }
          RemoveFile(k);
        }
      }
      assert files == WithoutRun(old(files), req.run);
      r := None;
    }

    method LockConflicts(m: Matcher, h: Holder, req: Request) returns (b: bool)
      ensures b <==> Conflicts(m, h, req)
    {
      if h.exclusive || req.Exclusive() { return true; }
      b := PeerGlobSetsOverlap(m, h.paths, req.paths);
    }

    /** Granted exactly when every file can be read, the run has no live holder, none
        of the holders that a resume leaves conflicts, and the file is free; then the
        new holder is added. A refused start changes nothing. */
    method AcquireWith(m: Matcher, p: Pid, req: Request, alive: set<Pid>) returns (r: Result<Holder, ErrorCode>)
      modifies this
      ensures r.Ok? <==> Grantable(m, old(files), alive, req)
      ensures r.Ok? ==> r.value == req.HolderFor(p)
                        && files == Swept(old(files), req)[req.Slot() := Full(req.HolderFor(p))]
      ensures r.Err? ==> OnlySwept(old(files), files, req, alive)
                         && r.error == if AllFull(old(files)) then ERepoLocked else EDb
      ensures r.Ok? ==> && r.value.run == req.run && r.value.pid == p
                        && r.value.exclusive == (req.wantExclusive || req.paths == [])
                        && r.value.paths == (if req.wantExclusive then [] else req.paths)
      ensures r.Ok? ==> Unhindered(old(files), alive, req)
      ensures Unhindered(old(files), alive, req) && (req.wantExclusive || req.paths == []) ==>
                (r.Ok? <==> forall k :: k !in Swept(old(files), req))
      ensures Unhindered(old(files), alive, req) && !req.wantExclusive && req.paths != []
              && ReadsSimple(m) && SimplePaths(old(files), req) ==>
                (r.Ok? <==> forall k :: k in Swept(old(files), req) ==>
                                          !Swept(old(files), req)[k].h.exclusive
                                          && !SharePath(m, Swept(old(files), req)[k].h.paths, req.paths))
    {
      hide Overlap;
      GrantedExactly(m, files, alive, req);
      if req.resume {
        var stale := RemoveStaleHolderForRun(req, alive);
        if stale.Some? { return Err(stale.value); }
      }
      assert files == Swept(old(files), req);
      var refusal := CheckHolders(m, req, alive);
      if refusal.Some? { return Err(refusal.value); }
      r := CreateHolder(p, req);
    }

    method CheckHolders(m: Matcher, req: Request, alive: set<Pid>) returns (refusal: Option<ErrorCode>)
      requires req.resume ==> NoneOf(files, req.run)
      ensures refusal.None? <==> AllFull(files) && NoLive(files, req.run, alive)
                                 && forall k :: k in files ==> !Conflicts(m, files[k].h, req)
      ensures refusal.Some? ==> refusal.value == if AllFull(files) then ERepoLocked else EDb
    {
      hide Overlap, Conflicts;
      var listed := ListHolders();
      if listed.Err? { return Some(listed.error); }
      var holders := listed.value;
      for i := 0 to |holders|
        invariant forall j :: 0 <= j < i ==>
                    (holders[j].1.run == req.run ==> holders[j].1.pid !in alive) && !Conflicts(m, holders[j].1, req)
      {
        var h := holders[i].1;
        if req.resume && h.run == req.run && h.pid !in alive { continue; }
        if h.run == req.run && h.pid in alive { return Some(ERepoLocked); }
        var conflict := LockConflicts(m, h, req);
        if conflict { return Some(ERepoLocked); }
      }
      refusal := None;
    }

    method CreateHolder(p: Pid, req: Request) returns (r: Result<Holder, ErrorCode>)
      modifies this
      ensures r.Ok? <==> req.Slot() !in old(files)
      ensures r.Ok? ==> r.value == req.HolderFor(p) && files == old(files)[req.Slot() := Full(req.HolderFor(p))]
      ensures r.Err? ==> r.error == ERepoLocked && files == old(files)
    {
      var path := req.Slot();
      if path in files { return Err(ERepoLocked); }
      files := files[path := Empty];
      var info := Holder(req.run, p, req.Exclusive(), if req.Exclusive() then [] else req.paths);
      files := files[path := Full(info)];
      r := Ok(info);
    }

    method Release(k: Slot)
      modifies this
      ensures files == map x | x in old(files) && x != k :: old(files)[x]
    {
      if k in files { RemoveFile(k); } else { assert files == map x | x in files && x != k :: files[x]; }
    }

    /** Remove the holders whose process is dead. */
    method ClearDead(holders: seq<(Slot, Holder)>, alive: set<Pid>) returns (cleared: seq<Holder>)
      requires Listed(files, holders)
      modifies this
      ensures files == LiveOnes(old(files), alive)
      ensures cleared == DeadAmong(holders, alive, |holders|)
    {
      cleared := [];
      for i := 0 to |holders|
        invariant Submap(files, old(files))
        invariant forall k :: k in old(files) && k !in files ==> old(files)[k].h.pid !in alive
        invariant forall j :: 0 <= j < i ==> (holders[j].0 in files ==> holders[j].1.pid in alive)
        invariant cleared == DeadAmong(holders, alive, i)
      {
        var (k, h) := holders[i];
        if h.pid !in alive {
          if k in files { RemoveFile(k); }
          cleared := cleared + [h];
        }
      }
      assert files == LiveOnes(old(files), alive);
    }

    /** doctor --fix-lock: exactly the holders of dead processes are removed. */
    method ClearStaleLock(alive: set<Pid>) returns (r: Result<seq<Holder>, ErrorCode>)
      modifies this
      ensures r.Ok? <==> AllFull(old(files)) && LiveOnes(old(files), alive) != old(files)
      ensures r.Ok? ==> forall h :: h in r.value
                                    <==> h.pid !in alive && exists k :: k in old(files) && old(files)[k] == Full(h)
      ensures r.Err? ==> r.error == if !AllFull(old(files)) then EDb else if old(files) == map[] then ELockStale
                                                                          else ERepoLocked
      ensures files == if AllFull(old(files)) then LiveOnes(old(files), alive) else old(files)
    {
      var listed := ListHolders();
      if listed.Err? { return Err(listed.error); }
      var holders := listed.value;
      if holders == [] {
        assert files == map[] && LiveOnes(files, alive) == files;
        return Err(ELockStale);
      }
      assert holders[0].0 in files;
      DeadAmongMembers(files, holders, alive);
      ClearedMeansChanged(files, holders, alive);
      var cleared := ClearDead(holders, alive);
      if cleared == [] { return Err(ERepoLocked); }
      r := Ok(cleared);
    }

    /** Every file of the run goes, whether or not its process lives. */
    method ReleaseRunLock(run: string) returns (r: Option<ErrorCode>)
      modifies this
      ensures r == if AllFull(old(files)) then None else Some(EDb)
      ensures files == if AllFull(old(files)) then WithoutRun(old(files), run) else old(files)
    {
      var listed := ListHolders();
      if listed.Err? { return Some(listed.error); }
      var holders := listed.value;
      for i := 0 to |holders|
        invariant Submap(files, old(files))
        invariant forall k :: k in old(files) && k !in files ==> old(files)[k].h.run == run
        invariant forall j :: 0 <= j < i ==> holders[j].1.run == run ==> holders[j].0 !in files
      {
        var (k, h) := holders[i];
        if h.run == run && k in files { RemoveFile(k); }
      }
      assert files == WithoutRun(old(files), run);
      r := None;
    }
  }

  function LiveOnes(fs: Files, alive: set<Pid>): Files {
    map k | k in fs && fs[k].Full? && fs[k].h.pid in alive :: fs[k]
  }

  /** The dead among the first n holders. */
  function DeadAmong(holders: seq<(Slot, Holder)>, alive: set<Pid>, n: nat): seq<Holder>
    requires n <= |holders|
  {
    if n == 0 then []
    else DeadAmong(holders, alive, n - 1) + if holders[n - 1].1.pid !in alive then [holders[n - 1].1] else []
  }

  lemma {:induction false} DeadAmongAt(holders: seq<(Slot, Holder)>, alive: set<Pid>, n: nat, h: Holder)
    requires n <= |holders|
    ensures h in DeadAmong(holders, alive, n) <==> h.pid !in alive && exists j :: 0 <= j < n && holders[j].1 == h
  {
    if n > 0 { DeadAmongAt(holders, alive, n - 1, h); }
  }

  lemma {:induction false} DeadAmongMembers(fs: Files, holders: seq<(Slot, Holder)>, alive: set<Pid>)
    requires Listed(fs, holders)
    ensures forall h :: h in DeadAmong(holders, alive, |holders|)
                        <==> h.pid !in alive && exists k :: k in fs && fs[k] == Full(h)
  {
    forall h ensures h in DeadAmong(holders, alive, |holders|)
        <==> h.pid !in alive && exists k :: k in fs && fs[k] == Full(h) {
      DeadAmongAt(holders, alive, |holders|, h);
      if k :| k in fs && fs[k] == Full(h) {
        var j :| 0 <= j < |holders| && holders[j].0 == k;
        assert holders[j].1 == h;
      }
      if j :| 0 <= j < |holders| && holders[j].1 == h { assert fs[holders[j].0] == Full(h); }
    }
  }

  lemma {:induction false} ClearedMeansChanged(fs: Files, holders: seq<(Slot, Holder)>, alive: set<Pid>)
    requires Listed(fs, holders) && AllFull(fs)
    ensures DeadAmong(holders, alive, |holders|) == [] <==> LiveOnes(fs, alive) == fs
  {
    DeadAmongMembers(fs, holders, alive);
    var dead := DeadAmong(holders, alive, |holders|);
    if dead == [] {
      forall k | k in fs ensures fs[k].h.pid in alive { assert fs[k] == Full(fs[k].h) && fs[k].h !in dead; }
    } else {
      assert dead[0] in dead;
      var k :| k in fs && fs[k] == Full(dead[0]);
      assert k !in LiveOnes(fs, alive);
    }
  }
}
