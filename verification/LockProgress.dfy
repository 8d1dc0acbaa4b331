/** The protocol gets somewhere: a process that is left alone in the guarded section
    takes the lock whenever the acquiring method would grant it, and ends with the
    same files. */
module LockProgress {
  import opened Types
  import opened GlobOverlap
  import opened Lock
  import opened LockDir

  /** t is reached from s by steps of p alone. */
  least predicate Alone[nat](m: Matcher, s: Sys, p: Pid, t: Sys) {
    s == t || exists a: Action, u: Sys :: a.p == p && Step(m, s, a, u) && Alone(m, u, p, t)
  }

  lemma {:induction false} OneMore(m: Matcher, s: Sys, a: Action, u: Sys, t: Sys)
    requires Step(m, s, a, u) && Alone(m, u, a.p, t)
    ensures Alone(m, s, a.p, t)
  {
    var k: nat :| Alone#[k](m, u, a.p, t);
    assert Alone#[k + 1](m, s, a.p, t);
  }

  /** s as it is once p holds its lock. */
  function Held(s: Sys, p: Pid, req: Request): Sys {
    Leave(s, p, Holding(req)).(files := s.files[req.Slot() := Full(req.HolderFor(p))])
  }

  lemma {:induction false} WritesAlone(m: Matcher, s: Sys, p: Pid, req: Request)
    requires PhaseOf(s, p) == Writing(req) && req.Slot() in s.files
    ensures Alone(m, s, p, Held(s, p, req))
  {
    hide Conflicts;
    var t := Held(s, p, req);
    assert Alone#[1](m, t, p, t);
    OneMore(m, s, Write(p), t, t);
  }

  /** Nothing among these files stands in the way. */
  ghost predicate Unopposed(m: Matcher, fs: Files, alive: set<Pid>, req: Request) {
    && AllFull(fs) && NoLive(fs, req.run, alive)
    && (forall k :: k in fs ==> !Conflicts(m, fs[k].h, req))
    && req.Slot() !in fs
  }

  lemma {:induction false} ChecksAlone(m: Matcher, s: Sys, p: Pid, req: Request, left: set<Slot>)
    requires PhaseOf(s, p) == Going(Take(req), true, s.files, left) && left <= s.files.Keys
    requires Unopposed(m, s.files, s.alive, req)
    ensures Alone(m, s, p, Held(s, p, req))
    decreases |left|
  {
    hide Conflicts;
    if left == {} {
      var u := Put(s, p, Writing(req)).(files := s.files[req.Slot() := Empty]);
      WritesAlone(m, u, p, req);
      assert Held(u, p, req) == Held(s, p, req);
      OneMore(m, s, Proceed(p), u, Held(s, p, req));
    } else {
      var k :| k in left;
      var u := Put(s, p, Going(Take(req), true, s.files, left - {k}));
      assert Step(m, s, Handle(p, k), u);
      ChecksAlone(m, u, p, req, left - {k});
      assert Held(u, p, req) == Held(s, p, req);
      OneMore(m, s, Handle(p, k), u, Held(s, p, req));
    }
  }

  lemma {:induction false} ListsAlone(m: Matcher, s: Sys, p: Pid, req: Request)
    requires PhaseOf(s, p) == Listing(Take(req), true, s.files) && Unopposed(m, s.files, s.alive, req)
    ensures Alone(m, s, p, Held(s, p, req))
  {
    hide Conflicts;
    var u := Put(s, p, Going(Take(req), true, s.files, s.files.Keys));
    ChecksAlone(m, u, p, req, s.files.Keys);
    assert Held(u, p, req) == Held(s, p, req);
    OneMore(m, s, List(p, s.files), u, Held(s, p, req));
  }

  /** s as it is once a resume has swept the stale holders of its run. */
  function AfterSweep(s: Sys, req: Request): Sys { s.(files := WithoutRun(s.files, req.run)) }

  /** A resume that has listed `seen` and is looking for stale holders of its run. */
  ghost predicate Sweeping(m: Matcher, s: Sys, p: Pid, req: Request, seen: Files, left: set<Slot>) {
    && PhaseOf(s, p) == Going(Take(req), false, seen, left) && left <= seen.Keys && AllFull(seen)
       && Submap(s.files, seen)
    && NoLive(seen, req.run, s.alive)
    && (forall k :: k in s.files && k !in left ==> s.files[k].h.run != req.run)
    && Unopposed(m, WithoutRun(s.files, req.run), s.alive, req)
  }

  lemma SweepStep(m: Matcher, s: Sys, p: Pid, req: Request, seen: Files, left: set<Slot>, k: Slot) returns (u: Sys)
    requires Sweeping(m, s, p, req, seen, left) && k in left
    ensures Step(m, s, Handle(p, k), u) && Sweeping(m, u, p, req, seen, left - {k})
    ensures Held(AfterSweep(u, req), p, req) == Held(AfterSweep(s, req), p, req)
  {
    hide Conflicts, Unopposed, WithoutRun;
    var skipped := Put(s, p, Going(Take(req), false, seen, left - {k}));
    u := if seen[k].h.run == req.run then Removed(skipped, k) else skipped;
    if seen[k].h.run == req.run { SameWithout(s.files, skipped, k, seen, req.run); }
  }

  lemma SameWithout(fs: Files, s: Sys, k: Slot, seen: Files, run: string)
    requires s.files == fs && Submap(fs, seen) && k in seen && seen[k].Full? && seen[k].h.run == run
    ensures WithoutRun(Removed(s, k).files, run) == WithoutRun(fs, run)
  {}

  lemma {:induction false} SweepsAlone(m: Matcher, s: Sys, p: Pid, req: Request, seen: Files, left: set<Slot>)
    requires Sweeping(m, s, p, req, seen, left)
    ensures Alone(m, s, p, Held(AfterSweep(s, req), p, req))
    decreases |left|
  {
    if left == {} {
      SweptAlone(m, s, p, req, seen);
    } else {
      hide Step, Sweeping, Held, AfterSweep;
      var k :| k in left;
      var u := SweepStep(m, s, p, req, seen, left, k);
      SweepsAlone(m, u, p, req, seen, left - {k});
      OneMore(m, s, Handle(p, k), u, Held(AfterSweep(s, req), p, req));
    }
  }

  lemma {:induction false} SweptAlone(m: Matcher, s: Sys, p: Pid, req: Request, seen: Files)
    requires Sweeping(m, s, p, req, seen, {})
    ensures Alone(m, s, p, Held(AfterSweep(s, req), p, req))
  {
    hide Conflicts, Unopposed;
    var t := Held(AfterSweep(s, req), p, req);
    assert WithoutRun(s.files, req.run) == s.files;
    var u := Put(s, p, Listing(Take(req), true, s.files));
    ListsAlone(m, u, p, req);
    assert Held(u, p, req) == t;
    OneMore(m, s, Proceed(p), u, t);
  }

  // ---- repair and cancel ----

  /** The holders such a task is after. */
  predicate After(task: Task, h: Holder, alive: set<Pid>) {
    match task
    case Take(_) => false
    case Clear => h.pid !in alive
    case Drop(run) => h.run == run
  }

  function Spared(fs: Files, task: Task, alive: set<Pid>): Files {
    map k | k in fs && fs[k].Full? && !After(task, fs[k].h, alive) :: fs[k]
  }

  /** s as it is once p is through with the task. */
  function Done(s: Sys, p: Pid, task: Task): Sys {
    Leave(s, p, Outside).(files := Spared(s.files, task, s.alive))
  }

  /** One listed holder is looked at, and removed if it has to go. */
  function Edited(s: Sys, p: Pid, task: Task, seen: Files, left: set<Slot>, k: Slot): Sys
    requires k in left && k in seen && seen[k].Full?
  {
    var skipped := Put(s, p, Going(task, true, seen, left - {k}));
    if After(task, seen[k].h, s.alive) then Removed(skipped, k) else skipped
  }

  lemma {:induction false} OneEdit(m: Matcher, s: Sys, p: Pid, task: Task, seen: Files, left: set<Slot>, k: Slot)
    requires !task.Take? && PhaseOf(s, p) == Going(task, true, seen, left)
    requires AllFull(seen) && left <= seen.Keys && Submap(s.files, seen) && k in left
    ensures var u := Edited(s, p, task, seen, left, k);
            Step(m, s, Handle(p, k), u) && Done(u, p, task) == Done(s, p, task)
  {
    hide Conflicts;
    var u := Edited(s, p, task, seen, left, k);
    assert Spared(u.files, task, u.alive) == Spared(s.files, task, s.alive);
  }

  lemma {:induction false} EditsAlone(m: Matcher, s: Sys, p: Pid, task: Task, seen: Files, left: set<Slot>)
    requires !task.Take? && PhaseOf(s, p) == Going(task, true, seen, left)
    requires AllFull(seen) && left <= seen.Keys && Submap(s.files, seen)
    requires forall k :: k in s.files && k !in left ==> !After(task, s.files[k].h, s.alive)
    ensures Alone(m, s, p, Done(s, p, task))
    decreases |left|
  {
    hide Conflicts;
    if left == {} {
      assert Spared(s.files, task, s.alive) == s.files;
      assert Alone#[1](m, Done(s, p, task), p, Done(s, p, task));
      OneMore(m, s, Proceed(p), Done(s, p, task), Done(s, p, task));
    } else {
      var k :| k in left;
      var u := Edited(s, p, task, seen, left, k);
      OneEdit(m, s, p, task, seen, left, k);
      EditsAlone(m, u, p, task, seen, left - {k});
      OneMore(m, s, Handle(p, k), u, Done(s, p, task));
    }
  }

  /** A repair left alone removes exactly the holders of dead processes, a cancel exactly
      those of its run, as the methods do. */
  lemma {:induction false} EditsWhenAlone(m: Matcher, s: Sys, p: Pid, task: Task)
    requires p in s.alive && PhaseOf(s, p).Outside? && s.guard.None? && AllFull(s.files) && !task.Take?
    ensures Alone(m, s, p, s.(files := match task case Drop(run) => WithoutRun(s.files, run)
                                                  case _ => LiveOnes(s.files, s.alive),
                              at := s.at[p := Outside]))
  {
    var g := Put(s, p, Listing(task, true, s.files)).(guard := Some(p));
    var u := Put(g, p, Going(task, true, s.files, s.files.Keys));
    EditsAlone(m, u, p, task, s.files, s.files.Keys);
    var t := Done(u, p, task);
    assert Spared(s.files, task, s.alive) == match task case Drop(run) => WithoutRun(s.files, run)
                                                        case _ => LiveOnes(s.files, s.alive);
    assert t.at == s.at[p := Outside];
    OneMore(m, g, List(p, s.files), u, t);
    OneMore(m, s, Guard(p, task), g, t);
  }

  /** s as it is once p was granted what it asked for. */
  function Granted(s: Sys, p: Pid, req: Request): Sys {
    s.(files := Swept(s.files, req)[req.Slot() := Full(req.HolderFor(p))], at := s.at[p := Holding(req)])
  }

  lemma ListedSweeps(m: Matcher, s: Sys, u: Sys, p: Pid, req: Request)
    requires req.resume && s.guard.None? && Grantable(m, s.files, s.alive, req)
    requires u == Put(s, p, Going(Take(req), false, s.files, s.files.Keys)).(guard := Some(p))
    ensures Sweeping(m, u, p, req, s.files, s.files.Keys)
    ensures Held(AfterSweep(u, req), p, req) == Granted(s, p, req)
  {
    hide Conflicts;
  }

  lemma {:induction false} ListingGrants(m: Matcher, s: Sys, g: Sys, p: Pid, req: Request)
    requires p in s.alive && s.guard.None? && Grantable(m, s.files, s.alive, req)
    requires g == Put(s, p, Listing(Take(req), !req.resume, s.files)).(guard := Some(p))
    ensures Alone(m, g, p, Granted(s, p, req))
  {
    hide Conflicts, Sweeping, AfterSweep;
    var t := Granted(s, p, req);
    if req.resume {
      var u := Put(g, p, Going(Take(req), false, s.files, s.files.Keys));
      ListedSweeps(m, s, u, p, req);
      SweepsAlone(m, u, p, req, s.files, s.files.Keys);
      OneMore(m, g, List(p, s.files), u, t);
    } else {
      ListsAlone(m, g, p, req);
      assert Held(g, p, req) == t;
    }
  }

  /** Whatever the acquiring method grants, the protocol grants to a process left
      alone, with the same files in the end. */
  lemma {:induction false} GrantedWhenAlone(m: Matcher, s: Sys, p: Pid, req: Request)
    requires p in s.alive && PhaseOf(s, p).Outside? && s.guard.None? && Grantable(m, s.files, s.alive, req)
    ensures Alone(m, s, p, s.(files := Swept(s.files, req)[req.Slot() := Full(req.HolderFor(p))],
                              at := s.at[p := Holding(req)]))
  {
    hide Conflicts, Grantable;
    var g := Put(s, p, Listing(Take(req), !req.resume, s.files)).(guard := Some(p));
    ListingGrants(m, s, g, p, req);
    OneMore(m, s, Guard(p, Take(req)), g, Granted(s, p, req));
  }

  // ---- what goes wrong when a live run's files are dropped ----

  const FIRST := Request("a", true, [], false)
  const SECOND := Request("b", true, [], false)
  const ONE_FILE: Files := map[Main := Full(FIRST.HolderFor(1))]

  /** Process 1 holds the repository for run a, and process 2 is about to drop the
      files of run a without having killed it. */
  const BEFORE_DROP := Sys(ONE_FILE, {1, 2, 3}, {1, 2, 3}, Some(2),
                           map[1 := Holding(FIRST), 2 := Going(Drop("a"), true, ONE_FILE, {Main}), 3 := Outside])

  lemma BeforeDropIsSound(m: Matcher)
    ensures Inv(m, BEFORE_DROP)
  {
    hide Overlap;
  }

  /** A concrete interleaving, sound up to the drop, after which two live processes
      hold the whole repository. */
  lemma DropOfALiveRun(m: Matcher) returns (dropped: Sys, left: Sys, end: Sys)
    ensures Inv(m, BEFORE_DROP) && Step(m, BEFORE_DROP, Handle(2, Main), dropped) && Step(m, dropped, Proceed(2), left)
    ensures Alone(m, left, 3, end)
    ensures PhaseOf(end, 1) == Holding(FIRST) && PhaseOf(end, 3) == Holding(SECOND) && 1 in end.alive && 3 in end.alive
    ensures !MutuallyExclusive(m, end)
  {
    hide Inv, Overlap;
    BeforeDropIsSound(m);
    dropped := Put(BEFORE_DROP, 2, Going(Drop("a"), true, ONE_FILE, {})).(files := map[]);
    left := Leave(dropped, 2, Outside);
    end := left.(files := map[Main := Full(SECOND.HolderFor(3))], at := left.at[3 := Holding(SECOND)]);
    var files := Removed(BEFORE_DROP, Main).files;
    assert forall k :: k !in files;
    assert files == map[];
    assert {Main} - {Main} == {};
    assert Swept(left.files, SECOND) == map[];
    GrantedWhenAlone(m, left, 3, SECOND);
    assert Swept(left.files, SECOND)[Main := Full(SECOND.HolderFor(3))] == end.files;
  }
}
