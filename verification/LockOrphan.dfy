/** A crash between creating and filling a holder file (create_holder in
    crates/wanax-core/src/lock.rs): how it comes about, and what it does to every
    later interleaving, whether or not cancels kill first. */
module LockOrphan {
  import opened Types
  import opened GlobOverlap
  import opened Lock

  // ---- what holds even when cancels do not kill first ----

  /** What a process in the guarded section may rely on, even if files of live
      processes are dropped. */
  predicate Relies(s: Sys, ph: Phase) {
    match ph
    case Listing(_, _, before) => Submap(s.files, before)
    case Going(_, _, seen, left) => Submap(s.files, seen) && AllFull(seen) && left <= seen.Keys
    case Writing(req) =>
      && (req.Slot() in s.files ==> s.files[req.Slot()].Empty?)
      && forall k :: k in s.files && k != req.Slot() ==> s.files[k].Full?
    case _ => true
  }

  ghost predicate Orderly(s: Sys) {
    && ProcessesOk(s)
    && forall p :: p in s.at ==> Relies(s, s.at[p])
  }

  lemma InvIsOrderly(m: Matcher, s: Sys)
    requires Inv(m, s)
    ensures Orderly(s)
  {
    hide FilesOk, HoldingOk, OwnersOk, Conflicts;
    forall p | p in s.at ensures Relies(s, s.at[p]) { assert GuardOk(m, s, s.at[p]); }
  }

  lemma StepKeepsGuard(m: Matcher, s: Sys, a: Action, t: Sys)
    requires Orderly(s) && Step(m, s, a, t)
    ensures ProcessesOk(t)
  {
    hide Relies, Conflicts, Submap, AllFull;
  }

  /** Whoever is in the guarded section sees the others only remove files. */
  lemma OthersRemove(m: Matcher, s: Sys, a: Action, t: Sys, p: Pid)
    requires ProcessesOk(s) && Step(m, s, a, t) && p in t.at && p != a.p && Guarded(t.at[p])
    ensures p in s.at && t.at[p] == s.at[p] && Submap(t.files, s.files)
  {
    hide Conflicts, AllFull;
    assert p in s.at && t.at[p] == s.at[p];
    assert s.guard == Some(p);
  }

  lemma OwnStepRelies(m: Matcher, s: Sys, a: Action, t: Sys)
    requires Orderly(s) && Step(m, s, a, t) && a.p in t.at
    ensures Relies(t, t.at[a.p])
  {
    hide ProcessesOk, Conflicts;
    if a.p in s.at { assert Relies(s, s.at[a.p]); }
  }

  lemma StepKeepsOrder(m: Matcher, s: Sys, a: Action, t: Sys)
    requires Orderly(s) && Step(m, s, a, t)
    ensures Orderly(t)
  {
    hide Step, ProcessesOk;
    StepKeepsGuard(m, s, a, t);
    forall p | p in t.at ensures Relies(t, t.at[p]) {
      if p == a.p {
        OwnStepRelies(m, s, a, t);
      } else if Guarded(t.at[p]) {
        OthersRemove(m, s, a, t, p);
        assert Relies(s, s.at[p]);
      }
    }
  }

  lemma {:induction false} AlwaysOrderly(m: Matcher, states: seq<Sys>, actions: seq<Action>, i: nat)
    requires Interleaving(m, states, actions) && i < |states| && states[0] == NOBODY
    ensures Orderly(states[i])
  {
    hide Step, Inv, Orderly;
    if i == 0 {
      NobodyIsOk(m);
      InvIsOrderly(m, NOBODY);
    } else {
      AlwaysOrderly(m, states, actions, i - 1);
      StepKeepsOrder(m, states[i - 1], actions[i - 1], states[i]);
    }
  }

  // ---- how an orphan comes about, and how it goes ----

  /** The process dies, or its write fails, between creating its file and filling it. */
  predicate Crashes(s: Sys, a: Action, k: Slot) {
    && (a.Die? || a.Fail?) && k in s.files
    && PhaseOf(s, a.p).Writing? && PhaseOf(s, a.p).req.Slot() == k
  }

  /** These steps leave an orphan, and no others. */
  lemma OrphanExactly(m: Matcher, s: Sys, a: Action, t: Sys, k: Slot)
    requires Orderly(s) && Step(m, s, a, t) && !Orphan(s, k)
    ensures Orphan(t, k) <==> Crashes(s, a, k)
  {
    hide Conflicts, Submap, AllFull;
    if Crashes(s, a, k) {
      assert s.guard == Some(a.p) && Relies(s, s.at[a.p]);
      assert forall p :: p in t.at && t.at[p].Writing? ==> s.guard == Some(p);
    } else if Orphan(t, k) {
      EmptyBefore(m, s, a, t, k);
      var p :| p in s.at && s.at[p].Writing? && s.at[p].req.Slot() == k;
      WriterMoves(m, s, a, t, p);
    }
  }

  /** An empty file nobody is filling was there, and empty, a step before. */
  lemma EmptyBefore(m: Matcher, s: Sys, a: Action, t: Sys, k: Slot)
    requires Step(m, s, a, t) && Orphan(t, k)
    ensures k in s.files && s.files[k].Empty?
  {
    hide Conflicts, Submap, AllFull;
    if a.Proceed? && a.p in t.at && t.at[a.p].Writing? { assert t.at[a.p].req.Slot() != k; }
  }

  /** Only its own step ends a process's writing. */
  lemma WriterMoves(m: Matcher, s: Sys, a: Action, t: Sys, p: Pid)
    requires Orderly(s) && Step(m, s, a, t) && p in s.at && s.at[p].Writing? && (p in t.at ==> t.at[p] != s.at[p])
    ensures a.p == p
  {
    hide Conflicts, Submap, AllFull, Relies;
  }

  /** A process releases the file of this name, whoever made it. */
  predicate Frees(s: Sys, a: Action, k: Slot) {
    a.Release? && PhaseOf(s, a.p).Holding? && PhaseOf(s, a.p).req.Slot() == k
  }

  /** An orphan goes away exactly when a process releases a file of that name that it
      lost before; and while it is there no file is created or filled. */
  lemma OrphanGoesExactly(m: Matcher, s: Sys, a: Action, t: Sys, k: Slot)
    requires Orderly(s) && Step(m, s, a, t) && Orphan(s, k)
    ensures Orphan(t, k) <==> !Frees(s, a, k)
    ensures Submap(t.files, s.files)
  {
    hide Conflicts;
    if Guarded(PhaseOf(s, a.p)) { assert s.guard == Some(a.p) && Relies(s, s.at[a.p]); }
  }

  /** Where cancels kill first nobody holds a name whose file it lost. */
  lemma NobodyFrees(m: Matcher, s: Sys, a: Action, k: Slot)
    requires Inv(m, s) && Orphan(s, k)
    ensures !Frees(s, a, k)
  {
    hide FilesOk, OwnersOk, ProcessesOk, GuardOk;
  }

  // ---- whole interleavings ----

  /** After any interleaving, with or without killing first: from an orphan on, it is
      there as long as nobody frees it, and until then the files only get fewer. */
  lemma {:induction false} OrphanStaysExactly(m: Matcher, states: seq<Sys>, actions: seq<Action>, i: nat, j: nat,
                                              k: Slot)
    requires Interleaving(m, states, actions) && states[0] == NOBODY && i <= j < |states| && Orphan(states[i], k)
    ensures (forall l :: i <= l <= j ==> Orphan(states[l], k))
            <==> (forall l :: i <= l < j ==> !Frees(states[l], actions[l], k))
    ensures (forall l :: i <= l < j ==> !Frees(states[l], actions[l], k)) ==> Submap(states[j].files, states[i].files)
    decreases j - i
  {
    hide Step, Frees, Orphan;
    if i < j {
      OrphanStaysExactly(m, states, actions, i, j - 1, k);
      if forall l :: i <= l < j - 1 ==> !Frees(states[l], actions[l], k) {
        assert Orphan(states[j - 1], k);
        AlwaysOrderly(m, states, actions, j - 1);
        OrphanGoesExactly(m, states[j - 1], actions[j - 1], states[j], k);
      }
    }
  }

  /** Where cancels kill first the lock is stuck for good: the file stays, and no
      holder ever appears again, whatever anybody does. */
  lemma {:induction false} OrphanForever(m: Matcher, states: seq<Sys>, actions: seq<Action>, i: nat, j: nat, k: Slot)
    requires Interleaving(m, states, actions) && CancelsKillFirst(states, actions) && states[0] == NOBODY
    requires i <= j < |states| && Orphan(states[i], k)
    ensures Orphan(states[j], k) && Submap(states[j].files, states[i].files)
    decreases j - i
  {
    hide Step, Orphan, Inv, AfterKill, Frees, Orderly;
    if i < j {
      OrphanForever(m, states, actions, i, j - 1, k);
      var s, a := states[j - 1], actions[j - 1];
      NobodyIsOk(m);
      InterleavingKeepsInv(m, states, actions, j - 1);
      InvIsOrderly(m, s);
      NobodyFrees(m, s, a, k);
      OrphanGoesExactly(m, s, a, states[j], k);
    }
  }

  // ---- two interleavings ----

  /** One more step. */
  lemma Then(m: Matcher, states: seq<Sys>, actions: seq<Action>, a: Action, t: Sys)
    returns (longer: seq<Sys>, more: seq<Action>)
    requires Interleaving(m, states, actions) && states != [] && Step(m, states[|states| - 1], a, t)
    ensures Interleaving(m, longer, more) && longer == states + [t] && more == actions + [a]
    ensures longer[0] == states[0] && longer[|longer| - 1] == t
  {
    hide Step;
    longer, more := states + [t], actions + [a];
  }

  const WHOLE := Request("a", true, [], false)
  const NO_FILES: Files := map[]
  const CREATED: Files := map[Main := Empty]

  const HALF := Sys(CREATED, {1}, {1}, Some(1), map[1 := Writing(WHOLE)])

  /** A process that has created its file and not filled it yet. */
  lemma HalfWay(m: Matcher) returns (states: seq<Sys>, actions: seq<Action>)
    ensures Interleaving(m, states, actions) && CancelsKillFirst(states, actions) && states[0] == NOBODY
    ensures states != [] && states[|states| - 1] == HALF
  {
    hide Conflicts;
    var s1 := Sys(NO_FILES, {1}, {1}, None, map[1 := Outside]);
    var s2 := Sys(NO_FILES, {1}, {1}, Some(1), map[1 := Listing(Take(WHOLE), true, NO_FILES)]);
    var s3 := Sys(NO_FILES, {1}, {1}, Some(1), map[1 := Going(Take(WHOLE), true, NO_FILES, {})]);
    states := [NOBODY, s1, s2, s3, HALF];
    actions := [Spawn(1), Guard(1, Take(WHOLE)), List(1, NO_FILES), Proceed(1)];
    assert NOBODY.alive + {1} == NOBODY.used + {1} == {1} && NOBODY.at[1 := Outside] == s1.at;
    assert WHOLE.Slot() == Main && NO_FILES.Keys == {} && NO_FILES[Main := Empty] == CREATED;
    assert Put(s3, 1, Writing(WHOLE)).at == HALF.at;
    assert Step(m, NOBODY, actions[0], s1) && Step(m, s1, actions[1], s2);
    assert Step(m, s2, actions[2], s3) && Step(m, s3, actions[3], HALF);
  }

  /** It dies there: no process is left and nothing was ever dropped, and yet its
      empty file stays. */
  lemma CrashLeavesOrphan(m: Matcher) returns (states: seq<Sys>, actions: seq<Action>)
    ensures Interleaving(m, states, actions) && CancelsKillFirst(states, actions) && states[0] == NOBODY
    ensures Orphan(states[|states| - 1], Main) && states[|states| - 1].alive == {}
  {
    hide Conflicts;
    var dead := Sys(CREATED, {}, {1}, None, map[1 := Outside]);
    states, actions := HalfWay(m);
    assert HALF.alive - {1} == {};
    states, actions := Then(m, states, actions, Die(1), dead);
  }

  const OTHER := Request("b", true, [], false)
  const FILLED: Files := map[Main := Full(WHOLE.HolderFor(1))]

  function Two(fs: Files, guard: Option<Pid>, second: Phase): Sys {
    Sys(fs, {1, 2}, {1, 2}, guard, map[1 := Holding(WHOLE), 2 := second])
  }

  lemma SecondMoves()
    ensures forall fs, g, a, b :: Put(Two(fs, g, a), 2, b) == Two(fs, g, b)
  {
    forall fs, g, a, b ensures Put(Two(fs, g, a), 2, b) == Two(fs, g, b) {
      assert Two(fs, g, a).at[2 := b] == Two(fs, g, b).at;
    }
  }

  /** Process 1 holds the repository and process 2 is about to drop its file. */
  lemma Dropping(m: Matcher) returns (states: seq<Sys>, actions: seq<Action>)
    ensures Interleaving(m, states, actions) && states[0] == NOBODY
    ensures states != [] && states[|states| - 1] == Two(FILLED, Some(2), Listing(Drop("a"), true, FILLED))
  {
    hide Conflicts, Interleaving;
    states, actions := HalfWay(m);
    SecondMoves();
    var held := Sys(FILLED, {1}, {1}, None, map[1 := Holding(WHOLE)]);
    assert WHOLE.Slot() == Main && Filled(CREATED, WHOLE, 1) == FILLED;
    assert held.alive + {2} == held.used + {2} == {1, 2} && held.at[2 := Outside] == Two(FILLED, None, Outside).at;
    states, actions := Then(m, states, actions, Write(1), held);
    states, actions := Then(m, states, actions, Spawn(2), Two(FILLED, None, Outside));
    states, actions := Then(m, states, actions, Guard(2, Drop("a")),
                            Two(FILLED, Some(2), Listing(Drop("a"), true, FILLED)));
  }

  /** Process 1 holds the repository and process 2 has dropped its file without killing it. */
  lemma Dropped(m: Matcher) returns (states: seq<Sys>, actions: seq<Action>)
    ensures Interleaving(m, states, actions) && states[0] == NOBODY
    ensures states != [] && states[|states| - 1] == Two(NO_FILES, None, Outside)
  {
    hide Conflicts, Interleaving;
    states, actions := Dropping(m);
    SecondMoves();
    var going := Going(Drop("a"), true, FILLED, {Main});
    assert FILLED.Keys == {Main} && {Main} - {Main} == {};
    assert Removed(Two(FILLED, Some(2), going), Main).files == NO_FILES;
    states, actions := Then(m, states, actions, List(2, FILLED), Two(FILLED, Some(2), going));
    states, actions := Then(m, states, actions, Handle(2, Main), Two(NO_FILES, Some(2), going.(left := {})));
    states, actions := Then(m, states, actions, Proceed(2), Two(NO_FILES, None, Outside));
  }

  /** Without killing first an orphan can go away again, by the release of a process
      that lost its file: process 2 fails to fill the file it created in its place. */
  lemma OrphanFreed(m: Matcher) returns (states: seq<Sys>, actions: seq<Action>)
    ensures Interleaving(m, states, actions) && states[0] == NOBODY && |states| >= 2
    ensures Orphan(states[|states| - 2], Main) && Main !in states[|states| - 1].files
    ensures Frees(states[|states| - 2], actions[|actions| - 1], Main)
  {
    hide Conflicts, Interleaving;
    states, actions := Dropped(m);
    var stuck := Two(CREATED, None, Outside);
    assert OTHER.Slot() == Main && NO_FILES.Keys == {} && NO_FILES[Main := Empty] == CREATED;
    SecondMoves();
    states, actions := Then(m, states, actions, Guard(2, Take(OTHER)),
                            Two(NO_FILES, Some(2), Listing(Take(OTHER), true, NO_FILES)));
    states, actions := Then(m, states, actions, List(2, NO_FILES),
                            Two(NO_FILES, Some(2), Going(Take(OTHER), true, NO_FILES, {})));
    states, actions := Then(m, states, actions, Proceed(2), Two(CREATED, Some(2), Writing(OTHER)));
    states, actions := Then(m, states, actions, Fail(2), stuck);
    states, actions := Then(m, states, actions, Release(1), Removed(Put(stuck, 1, Outside), Main));
  }
}
