/** The repository lock as a protocol between processes that start, resume, release,
    crash, repair and cancel (crates/wanax-core/src/lock.rs).

    Holder files change only under the LOCKSET guard, except that a process
    releases its own file without it. The guard dies with its process, files do not.
    Process ids are not reused. */
module Lock {
  import opened Types
  import opened GlobOverlap

  type Pid = nat

  /** Where a holder file lives: `.wanax/LOCK`, or `.wanax/locks/<run>`. */
  datatype Slot = Main | Of(run: string)

  datatype Holder = Holder(run: string, pid: Pid, exclusive: bool, paths: seq<string>)

  /** A file is created empty and filled in a second step. */
  datatype File = Empty | Full(h: Holder)

  type Files = map<Slot, File>

  datatype Request = Request(run: string, wantExclusive: bool, paths: seq<string>, resume: bool)
  {
    /** No paths means the whole repository. */
    predicate Exclusive() { wantExclusive || paths == [] }

    function Slot(): Slot { if Exclusive() then Main else Of(run) }

    function HolderFor(p: Pid): Holder { Holder(run, p, Exclusive(), if Exclusive() then [] else paths) }
  }

  /** `lock_conflicts`. */
  ghost predicate Conflicts(m: Matcher, h: Holder, req: Request) {
    h.exclusive || req.Exclusive() || Overlap(m, h.paths, req.paths)
  }

  datatype Task =
    | Take(req: Request)
    | Clear
    | Drop(run: string)

  /** What a process is doing. `swept` says that a resume already removed the stale
      holders of its run; `left` are the listed files not looked at yet. */
  datatype Phase =
    | Outside
    | Listing(task: Task, swept: bool, before: Files)
    | Going(task: Task, swept: bool, seen: Files, left: set<Slot>)
    | Writing(req: Request)
    | Holding(req: Request)

  predicate Guarded(ph: Phase) { ph.Listing? || ph.Going? || ph.Writing? }

  datatype Sys = Sys(files: Files, alive: set<Pid>, used: set<Pid>, guard: Option<Pid>, at: map<Pid, Phase>)

  function PhaseOf(s: Sys, p: Pid): Phase { if p in s.at then s.at[p] else Outside }

  predicate Submap(a: Files, b: Files) { forall k :: k in a ==> k in b && b[k] == a[k] }

  predicate AllFull(fs: Files) { forall k :: k in fs ==> fs[k].Full? }

  // ---- the steps ----

  datatype Action =
    | Spawn(p: Pid)
    | Die(p: Pid)
    | Guard(p: Pid, task: Task)
    | List(p: Pid, seen: Files)
    | Handle(p: Pid, k: Slot)
    | Proceed(p: Pid)
    | Write(p: Pid)
    | Release(p: Pid)
    | Fail(p: Pid)

  function Put(s: Sys, p: Pid, ph: Phase): Sys { s.(at := s.at[p := ph]) }

  /** Leave the guarded section. */
  function Leave(s: Sys, p: Pid, ph: Phase): Sys { Put(s, p, ph).(guard := None) }

  function Removed(s: Sys, k: Slot): Sys { s.(files := map x | x in s.files && x != k :: s.files[x]) }

  /** A file that was removed in the meantime is filled without anybody seeing it. */
  function Filled(fs: Files, req: Request, p: Pid): Files {
    if req.Slot() in fs then fs[req.Slot() := Full(req.HolderFor(p))] else fs
  }

  function NeedsSweep(task: Task): bool { task.Take? && task.req.resume }

  /** One listed holder is looked at. */
  ghost function Handled(m: Matcher, s: Sys, p: Pid, ph: Phase, k: Slot): Sys
    requires ph.Going? && k in ph.left && k in ph.seen && ph.seen[k].Full?
  {
    var h, live := ph.seen[k].h, ph.seen[k].h.pid in s.alive;
    var skipped := Put(s, p, ph.(left := ph.left - {k}));
    match ph.task
    case Take(req) =>
      if !ph.swept then
        if h.run != req.run then skipped
        else if live then Leave(s, p, Outside)
        else Removed(skipped, k)
      else if req.resume && h.run == req.run && !live then skipped
      else if h.run == req.run && live then Leave(s, p, Outside)
      else if Conflicts(m, h, req) then Leave(s, p, Outside)
      else skipped
    case Clear => if live then skipped else Removed(skipped, k)
    case Drop(run) => if h.run == run then Removed(skipped, k) else skipped
  }

  ghost predicate Step(m: Matcher, s: Sys, a: Action, t: Sys) {
    match a
    case Spawn(p) =>
      p > 0 && p !in s.used && t == Put(s, p, Outside).(alive := s.alive + {p}, used := s.used + {p})
    case Die(p) =>
      && p in s.alive
      && t == Put(s, p, Outside).(alive := s.alive - {p}, guard := if s.guard == Some(p) then None else s.guard)
    case Guard(p, task) =>
      && p in s.alive && PhaseOf(s, p).Outside? && s.guard.None?
      && t == Put(s, p, Listing(task, !NeedsSweep(task), s.files)).(guard := Some(p))
    case List(p, seen) =>
      var ph := PhaseOf(s, p);
      && ph.Listing? && Submap(s.files, seen) && Submap(seen, ph.before)
      && t == if AllFull(seen) then Put(s, p, Going(ph.task, ph.swept, seen, seen.Keys)) else Leave(s, p, Outside)
    case Handle(p, k) =>
      var ph := PhaseOf(s, p);
      && ph.Going? && k in ph.left && k in ph.seen && ph.seen[k].Full?
      && t == Handled(m, s, p, ph, k)
    case Proceed(p) =>
      var ph := PhaseOf(s, p);
      && ph.Going? && ph.left == {}
      && t == if !ph.task.Take? then Leave(s, p, Outside)
              else if !ph.swept then Put(s, p, Listing(ph.task, true, s.files))
              else if ph.task.req.Slot() in s.files then Leave(s, p, Outside)
              else Put(s, p, Writing(ph.task.req)).(files := s.files[ph.task.req.Slot() := Empty])
    case Write(p) =>
      var ph := PhaseOf(s, p);
      && ph.Writing?
      && t == Leave(s, p, Holding(ph.req)).(files := Filled(s.files, ph.req, p))
    case Release(p) =>
      var ph := PhaseOf(s, p);
      && ph.Holding?
      && t == Removed(Put(s, p, Outside), ph.req.Slot())
    case Fail(p) =>
      Guarded(PhaseOf(s, p)) && t == Leave(s, p, Outside)
  }

  /** The discipline of `cancel`: it drops the files of a run only once it has
      killed the run's process. */
  predicate AfterKill(s: Sys, a: Action) {
    a.Handle? ==>
      var ph := PhaseOf(s, a.p);
      ph.Going? && ph.task.Drop? && a.k in ph.seen && ph.seen[a.k].Full? && ph.seen[a.k].h.run == ph.task.run
      && a.k in s.files ==>
        ph.seen[a.k].h.pid !in s.alive
  }

  // ---- the invariant ----

  ghost predicate ProcessesOk(s: Sys) {
    && (s.guard.Some? ==> s.guard.value in s.alive && Guarded(PhaseOf(s, s.guard.value)))
    && (forall p :: p in s.at && Guarded(s.at[p]) ==> s.guard == Some(p))
    && (forall p :: p in s.at && !s.at[p].Outside? ==> p in s.alive)
    && s.alive <= s.used
  }

  predicate SlotFits(k: Slot, h: Holder) {
    (k.Main? <==> h.exclusive) && (k.Of? ==> k.run == h.run)
  }

  ghost predicate FilesOk(m: Matcher, fs: Files) {
    && (forall k :: k in fs && fs[k].Full? ==> SlotFits(k, fs[k].h))
    && (Main in fs ==> forall k :: k in fs ==> k == Main)
    && (forall j, k :: j in fs && k in fs && j != k && fs[j].Full? && fs[k].Full?
                       ==> !Overlap(m, fs[j].h.paths, fs[k].h.paths))
  }

  predicate NoneOf(fs: Files, run: string) { forall k :: k in fs && fs[k].Full? ==> fs[k].h.run != run }

  /** What a process in the guarded section may rely on. */
  ghost predicate GuardOk(m: Matcher, s: Sys, ph: Phase) {
    match ph
    case Listing(task, swept, before) =>
      && Submap(s.files, before)
      && (NeedsSweep(task) && swept ==> NoneOf(before, task.req.run))
      && (!NeedsSweep(task) ==> swept)
    case Going(task, swept, seen, left) =>
      && Submap(s.files, seen) && AllFull(seen) && left <= seen.Keys
      && (!NeedsSweep(task) ==> swept)
      && (task.Take? && !swept ==> forall k :: k in s.files && k !in left ==> s.files[k].h.run != task.req.run)
      && (NeedsSweep(task) && swept ==> NoneOf(seen, task.req.run))
      && (task.Take? && swept ==> forall k :: k in s.files && k !in left ==> !Conflicts(m, s.files[k].h, task.req))
    case Writing(req) =>
      && req.Slot() in s.files && s.files[req.Slot()].Empty?
      && forall k :: k in s.files && k != req.Slot() ==> s.files[k].Full? && !Conflicts(m, s.files[k].h, req)
    case _ => true
  }

  ghost predicate HoldingOk(s: Sys) {
    forall p :: p in s.at && s.at[p].Holding? ==>
                  var req := s.at[p].req;
                  req.Slot() in s.files && s.files[req.Slot()] == Full(req.HolderFor(p))
  }

  /** Every file of a live process is the one that process holds. */
  ghost predicate OwnersOk(s: Sys) {
    forall k :: k in s.files && s.files[k].Full? ==>
                  var p := s.files[k].h.pid;
                  p in s.used && (p in s.alive ==> PhaseOf(s, p).Holding? && PhaseOf(s, p).req.Slot() == k)
  }

  ghost predicate Inv(m: Matcher, s: Sys) {
    && ProcessesOk(s) && FilesOk(m, s.files) && HoldingOk(s) && OwnersOk(s)
    && forall p :: p in s.at ==> GuardOk(m, s, s.at[p])
  }

  // ---- every step keeps it ----

  lemma StepKeepsProcesses(m: Matcher, s: Sys, a: Action, t: Sys)
    requires Inv(m, s) && Step(m, s, a, t)
    ensures ProcessesOk(t)
  {
    hide FilesOk, HoldingOk, GuardOk, Conflicts, Submap, AllFull;
  }

  lemma FewerFilesOk(m: Matcher, fs: Files, gs: Files)
    requires FilesOk(m, fs) && Submap(gs, fs)
    ensures FilesOk(m, gs)
  {
    hide Overlap;
  }

  /** The file a process writes conflicts with none of the others. */
  lemma WriteKeepsFiles(m: Matcher, fs: Files, req: Request, p: Pid)
    requires FilesOk(m, fs) && req.Slot() in fs
    requires forall k :: k in fs && k != req.Slot() ==> fs[k].Full? && !Conflicts(m, fs[k].h, req)
    ensures FilesOk(m, fs[req.Slot() := Full(req.HolderFor(p))])
  {
    hide Overlap;
    forall k | k in fs ensures OverlapBothWays(m, fs[k], req) { BothWays(m, fs[k], req); }
  }

  ghost predicate OverlapBothWays(m: Matcher, f: File, req: Request) {
    f.Full? ==> Overlap(m, f.h.paths, req.paths) == Overlap(m, req.paths, f.h.paths)
  }

  lemma BothWays(m: Matcher, f: File, req: Request)
    ensures OverlapBothWays(m, f, req)
  {
    if f.Full? { OverlapSymmetric(m, f.h.paths, req.paths); }
  }

  lemma CreateKeepsFiles(m: Matcher, fs: Files, req: Request)
    requires FilesOk(m, fs) && req.Slot() !in fs && AllFull(fs)
    requires forall k :: k in fs ==> !Conflicts(m, fs[k].h, req)
    ensures FilesOk(m, fs[req.Slot() := Empty])
  {
    hide Overlap;
  }

  lemma StepKeepsFiles(m: Matcher, s: Sys, a: Action, t: Sys)
    requires Inv(m, s) && Step(m, s, a, t)
    ensures FilesOk(m, t.files)
  {
    hide FilesOk, HoldingOk, ProcessesOk, Conflicts;
    if a.Write? {
      WriteKeepsFiles(m, s.files, PhaseOf(s, a.p).req, a.p);
    } else if a.Proceed? && t.files != s.files {
      CreateKeepsFiles(m, s.files, PhaseOf(s, a.p).task.req);
    } else {
      FewerFilesOk(m, s.files, t.files);
    }
  }

  /** A holder file that is gone was released by its own process, swept as the dead
      holder of the resuming run, cleared as a dead one, or dropped with its run. */
  ghost predicate RemovalOk(s: Sys, a: Action, k: Slot)
    requires k in s.files && s.files[k].Full?
  {
    var h := s.files[k].h;
    || a == Release(h.pid)
    || (a.Handle? && a.k == k && PhaseOf(s, a.p).Going? && MayRemove(s, PhaseOf(s, a.p).task, h))
  }

  predicate MayRemove(s: Sys, task: Task, h: Holder) {
    match task
    case Take(req) => req.resume && h.run == req.run && h.pid !in s.alive
    case Clear => h.pid !in s.alive
    case Drop(run) => h.run == run
  }

  lemma HandlingRemoves(m: Matcher, s: Sys, p: Pid, ph: Phase, k: Slot)
    requires ph.Going? && k in ph.left && k in ph.seen && ph.seen[k].Full? && (!NeedsSweep(ph.task) ==> ph.swept)
    ensures var t := Handled(m, s, p, ph, k);
            t.files == s.files || (t.files == Removed(s, k).files && MayRemove(s, ph.task, ph.seen[k].h))
  {
    hide Conflicts;
  }

  lemma RemovalsAreJustified(m: Matcher, s: Sys, a: Action, t: Sys, k: Slot)
    requires Inv(m, s) && Step(m, s, a, t) && k in s.files && s.files[k].Full?
    ensures k in t.files ==> t.files[k] == s.files[k]
    ensures k !in t.files ==> RemovalOk(s, a, k)
  {
    hide FilesOk, Conflicts, OwnersOk, AllFull, Handled;
    if Guarded(PhaseOf(s, a.p)) { assert s.guard == Some(a.p) && GuardOk(m, s, s.at[a.p]); }
    if a.Handle? { HandlingRemoves(m, s, a.p, PhaseOf(s, a.p), a.k); }
  }

  /** No process starts or stops holding except by writing, releasing or dying. */
  lemma HoldersAct(m: Matcher, s: Sys, a: Action, t: Sys, p: Pid)
    requires Step(m, s, a, t) && p in t.at && t.at[p].Holding? && !(a.Write? && a.p == p)
    ensures p in s.at && s.at[p] == t.at[p] && a.p != p
  {
    hide Conflicts, AllFull, Submap;
  }

  lemma HolderStays(m: Matcher, s: Sys, a: Action, t: Sys, p: Pid)
    requires Inv(m, s) && Step(m, s, a, t) && AfterKill(s, a) && p in t.at && t.at[p].Holding?
    ensures var req := t.at[p].req; req.Slot() in t.files && t.files[req.Slot()] == Full(req.HolderFor(p))
  {
    hide FilesOk, Conflicts, OwnersOk, AllFull, Handled;
    if !(a.Write? && a.p == p) {
      HoldersAct(m, s, a, t, p);
      var k := s.at[p].req.Slot();
      RemovalsAreJustified(m, s, a, t, k);
      if a.Handle? { assert s.guard == Some(a.p) && GuardOk(m, s, s.at[a.p]); }
    }
  }

  /** Another holder's file is never the one that is removed or written. */
  lemma StepKeepsHolding(m: Matcher, s: Sys, a: Action, t: Sys)
    requires Inv(m, s) && Step(m, s, a, t) && AfterKill(s, a)
    ensures HoldingOk(t)
  {
    hide Inv, Step, AfterKill;
    forall p | p in t.at && t.at[p].Holding?
      ensures var req := t.at[p].req; req.Slot() in t.files && t.files[req.Slot()] == Full(req.HolderFor(p))
    {
      HolderStays(m, s, a, t, p);
    }
  }

  /** A file is only ever filled by its own process. */
  lemma FilledByOwner(m: Matcher, s: Sys, a: Action, t: Sys, k: Slot)
    requires Step(m, s, a, t) && k in t.files && t.files[k].Full?
    ensures (a.Write? && PhaseOf(s, a.p).Writing? && k == PhaseOf(s, a.p).req.Slot() && t.files[k].h.pid == a.p)
            || (k in s.files && s.files[k] == t.files[k])
  {
    hide Conflicts, AllFull, Submap;
  }

  lemma StepKeepsOwner(m: Matcher, s: Sys, a: Action, t: Sys, k: Slot)
    requires Inv(m, s) && Step(m, s, a, t) && k in t.files && t.files[k].Full?
    ensures var p := t.files[k].h.pid;
            p in t.used && (p in t.alive ==> PhaseOf(t, p).Holding? && PhaseOf(t, p).req.Slot() == k)
  {
    hide FilesOk, HoldingOk, GuardOk, Conflicts, AllFull, Submap;
    FilledByOwner(m, s, a, t, k);
  }

  lemma StepKeepsOwners(m: Matcher, s: Sys, a: Action, t: Sys)
    requires Inv(m, s) && Step(m, s, a, t)
    ensures OwnersOk(t)
  {
    hide Inv, Step;
    forall k | k in t.files && t.files[k].Full?
      ensures var p := t.files[k].h.pid;
              p in t.used && (p in t.alive ==> PhaseOf(t, p).Holding? && PhaseOf(t, p).req.Slot() == k)
    {
      StepKeepsOwner(m, s, a, t, k);
    }
  }

  /** Looking at one listed holder keeps what the looking process relies on. */
  lemma HandlingKeepsGuard(m: Matcher, s: Sys, p: Pid, ph: Phase, k: Slot)
    requires ph.Going? && k in ph.left && k in ph.seen && ph.seen[k].Full? && GuardOk(m, s, ph)
    ensures var t := Handled(m, s, p, ph, k); GuardOk(m, t, t.at[p])
  {
    hide Conflicts;
  }

  lemma OwnGuardOk(m: Matcher, s: Sys, a: Action, t: Sys)
    requires Inv(m, s) && Step(m, s, a, t) && a.p in t.at
    ensures GuardOk(m, t, t.at[a.p])
  {
    hide FilesOk, Conflicts, HoldingOk, OwnersOk, Handled;
    assert a.p in s.at ==> GuardOk(m, s, s.at[a.p]);
    if a.Handle? { HandlingKeepsGuard(m, s, a.p, PhaseOf(s, a.p), a.k); }
  }

  lemma StepKeepsGuardOf(m: Matcher, s: Sys, a: Action, t: Sys, p: Pid)
    requires Inv(m, s) && Step(m, s, a, t) && p in t.at
    ensures GuardOk(m, t, t.at[p])
  {
    hide Inv, Step, GuardOk;
    if p != a.p { OtherGuardOk(m, s, a, t, p); } else { OwnGuardOk(m, s, a, t); }
  }

  /** While one process is guarded, the others can only take files away. */
  lemma OthersOnlyRemove(m: Matcher, s: Sys, a: Action, t: Sys, p: Pid)
    requires ProcessesOk(s) && Step(m, s, a, t) && p in t.at && p != a.p && Guarded(t.at[p])
    ensures p in s.at && t.at[p] == s.at[p] && Submap(t.files, s.files)
    ensures t.files == s.files || a.Release?
  {
    hide Conflicts, AllFull;
    assert p in s.at && t.at[p] == s.at[p];
    assert s.guard == Some(p);
  }

  lemma OtherGuardOk(m: Matcher, s: Sys, a: Action, t: Sys, p: Pid)
    requires Inv(m, s) && Step(m, s, a, t) && p in t.at && p != a.p
    ensures GuardOk(m, t, t.at[p])
  {
    hide FilesOk, Conflicts, OwnersOk, AllFull, ProcessesOk;
    if Guarded(t.at[p]) {
      OthersOnlyRemove(m, s, a, t, p);
      assert GuardOk(m, s, s.at[p]);
    }
  }

  /** The invariant survives every step of every process. */
  lemma StepKeepsInv(m: Matcher, s: Sys, a: Action, t: Sys)
    requires Inv(m, s) && Step(m, s, a, t) && AfterKill(s, a)
    ensures Inv(m, t)
  {
    hide Step, AfterKill, FilesOk, HoldingOk, ProcessesOk, OwnersOk, GuardOk;
    StepKeepsProcesses(m, s, a, t);
    StepKeepsFiles(m, s, a, t);
    StepKeepsHolding(m, s, a, t);
    StepKeepsOwners(m, s, a, t);
    forall p | p in t.at ensures GuardOk(m, t, t.at[p]) { StepKeepsGuardOf(m, s, a, t, p); }
  }

  // ---- whole interleavings ----

  /** A finite interleaving: state i + 1 follows state i by action i. */
  ghost predicate Interleaving(m: Matcher, states: seq<Sys>, actions: seq<Action>) {
    && |states| == |actions| + 1
    && forall i :: 0 <= i < |actions| ==> Step(m, states[i], actions[i], states[i + 1])
  }

  ghost predicate CancelsKillFirst(states: seq<Sys>, actions: seq<Action>)
    requires |states| == |actions| + 1
  {
    forall i :: 0 <= i < |actions| ==> AfterKill(states[i], actions[i])
  }

  const NOBODY := Sys(map[], {}, {}, None, map[])

  lemma NobodyIsOk(m: Matcher)
    ensures Inv(m, NOBODY)
  {}

  lemma {:induction false} InterleavingKeepsInv(m: Matcher, states: seq<Sys>, actions: seq<Action>, i: nat)
    requires Interleaving(m, states, actions) && CancelsKillFirst(states, actions) && i < |states|
    requires Inv(m, states[0])
    ensures Inv(m, states[i])
  {
    hide Step, AfterKill, Inv;
    if i > 0 {
      InterleavingKeepsInv(m, states, actions, i - 1);
      StepKeepsInv(m, states[i - 1], actions[i - 1], states[i]);
    }
  }

  /** Holder files never conflict, and an exclusive one is alone; in particular no
      two processes hold conflicting locks. */
  ghost predicate MutuallyExclusive(m: Matcher, s: Sys) {
    && (forall j, k :: j in s.files && k in s.files && j != k && s.files[j].Full? && s.files[k].Full? ==>
          && !s.files[j].h.exclusive && !s.files[k].h.exclusive
          && !Overlap(m, s.files[j].h.paths, s.files[k].h.paths))
    && (forall k :: k in s.files && s.files[k].Full? && s.files[k].h.exclusive ==> s.files.Keys == {k})
    && (forall p, q :: p in s.at && q in s.at && p != q && s.at[p].Holding? && s.at[q].Holding? ==>
          && !s.at[p].req.Exclusive() && !s.at[q].req.Exclusive()
          && !Overlap(m, s.at[p].req.paths, s.at[q].req.paths))
  }

  lemma InvExcludes(m: Matcher, s: Sys)
    requires Inv(m, s)
    ensures MutuallyExclusive(m, s)
  {
    hide GuardOk, Overlap;
  }

  /** From an empty repository, whatever the interleaving. */
  lemma AlwaysExclusive(m: Matcher, states: seq<Sys>, actions: seq<Action>, i: nat)
    requires Interleaving(m, states, actions) && CancelsKillFirst(states, actions) && i < |states|
    requires states[0] == NOBODY
    ensures MutuallyExclusive(m, states[i])
  {
    hide Step, AfterKill, Inv, MutuallyExclusive;
    NobodyIsOk(m);
    InterleavingKeepsInv(m, states, actions, i);
    InvExcludes(m, states[i]);
  }

  /** Two processes with path locks never share a writable path. */
  lemma NoSharedPath(m: Matcher, s: Sys, p: Pid, q: Pid, path: string)
    requires ReadsSimple(m) && Inv(m, s) && p in s.at && q in s.at && p != q && s.at[p].Holding? && s.at[q].Holding?
    requires AllSimple(s.at[p].req.paths) && AllSimple(s.at[q].req.paths)
    ensures !(m.SetMatches(s.at[p].req.paths, path) && m.SetMatches(s.at[q].req.paths, path))
  {
    hide Inv, Overlap, ReadsSimple, AllSimple;
    InvExcludes(m, s);
    OverlapExact(m, s.at[p].req.paths, s.at[q].req.paths);
  }

  // ---- who may remove what ----

  /** No live holder disappears except by its own release. */
  lemma LiveHoldersStay(m: Matcher, s: Sys, a: Action, t: Sys, k: Slot)
    requires Inv(m, s) && Step(m, s, a, t) && AfterKill(s, a)
    requires k in s.files && s.files[k].Full? && s.files[k].h.pid in s.alive && a != Release(s.files[k].h.pid)
    ensures k in t.files && t.files[k] == s.files[k]
  {
    hide FilesOk, Conflicts, HoldingOk;
    RemovalsAreJustified(m, s, a, t, k);
    if a.Handle? { assert s.guard == Some(a.p); }
  }

  /** A start never removes a stale holder, nor any other. */
  lemma StartRemovesNothing(m: Matcher, s: Sys, a: Action, t: Sys, k: Slot)
    requires Inv(m, s) && Step(m, s, a, t) && k in s.files && s.files[k].Full?
    requires match PhaseOf(s, a.p)
             case Listing(task, _, _) => task.Take? && !task.req.resume
             case Going(task, _, _, _) => task.Take? && !task.req.resume
             case Writing(_) => true
             case _ => false
    requires !a.Die? && !a.Spawn? && !a.Guard?
    ensures k in t.files && t.files[k] == s.files[k]
  {
    hide FilesOk, Conflicts;
    RemovalsAreJustified(m, s, a, t, k);
  }

  // ---- dropping the files of a run without looking at its process ----

  /** Dropping is the one removal that ignores whether the holder lives. The step
      that does it breaks a live process's hold exactly when it was not killed first. */
  lemma DropExactly(m: Matcher, s: Sys, a: Action, t: Sys)
    requires Inv(m, s) && Step(m, s, a, t)
    ensures HoldingOk(t) <==> AfterKill(s, a)
  {
    hide FilesOk, Conflicts;
    if AfterKill(s, a) {
      StepKeepsHolding(m, s, a, t);
    } else {
      var ph := PhaseOf(s, a.p);
      assert s.guard == Some(a.p);
      assert s.files[a.k] == ph.seen[a.k];
      var p := s.files[a.k].h.pid;
      assert PhaseOf(s, p).Holding? && p != a.p;
      assert t.at[p] == s.at[p] && a.k !in t.files;
    }
  }

  // ---- a crash between creating and filling a file ----

  /** An empty file that nobody is about to fill. */
  ghost predicate Orphan(s: Sys, k: Slot) {
    && k in s.files && s.files[k].Empty?
    && forall p :: p in s.at && s.at[p].Writing? ==> s.at[p].req.Slot() != k
  }
}
