/** What a peer batch logs, and what it comes to (run_peer_batch in
    crates/wanax-cli/src/engine.rs), said of the plan and of what the peers hand in. */
module BatchRun {
  import opened Types
  import opened Budget
  import opened Events
  import opened GlobOverlap
  import opened Drive
  import opened ResumeStart
  import Text

  /** A log without its ticks. */
  function Plain(log: seq<Event>): seq<Event> {
    if log == [] then []
    else Plain(log[..|log| - 1]) + if log[|log| - 1].Tick? then [] else [log[|log| - 1]]
  }

  lemma {:induction false} PlainSnoc(log: seq<Event>, e: Event)
    ensures Plain(log + [e]) == Plain(log) + if e.Tick? then [] else [e]
  {
    assert (log + [e])[..|log + [e]| - 1] == log;
  }

  // ---- the events of a batch ----

  /** The master: a unit of its own for the whole batch, which covers the units of a wave. */
  predicate AnnouncesBatch(e: Event, master: Id, covers: seq<Id>) {
    && e.UnitDispatched? && e.p.workUnitId == Some(master) && e.p.covers == Some(covers)
    && e.p.dependsOn == None && e.p.globs == None && e.p.localKey == None && e.p.parent == None
  }

  /** One peer, under its master and with its own task and globs. */
  predicate AnnouncesPeer(e: Event, id: Id, master: Id, idx: nat, peer: PeerDraft) {
    && e.UnitSeeded? && e.p.workUnitId == Some(id) && e.p.parent == Some(master)
    && e.p.title == Some(peer.title) && e.p.instruction == Some(peer.instruction) && e.p.globs == Some(peer.globs)
    && e.p.role == Some(RPeer) && e.p.dependsOn == Some([]) && e.p.testCommand == None && e.p.covers == None
    && (idx < U32_MAX ==> e.p.seqNo == Some(idx + 2) && e.p.localKey == Some("peer-" + Text.Digits(idx + 1)))
  }

  /** What one peer handed in. */
  predicate AttestsPeer(e: Event, id: Id, h: Handle, k: Committed) {
    && e.ReceiptSubmitted? && e.p.workUnitId == Some(id) && e.p.commit == Some(k.commit)
    && e.p.changed == Some(k.changed) && e.p.exitCode == Some(h.testExit) && e.p.claimed == Some(h.claimed)
  }

  /** Peers 0 to n came back with a commit. */
  predicate HandedIn(b: BatchInput, n: nat) {
    forall i :: 0 <= i < n ==> PeerAt(b, i).adapter.Ok? && PeerAt(b, i).committed.Ok?
  }

  /** The events after `from`, ticks aside: the first n seeds and the first m receipts. */
  predicate Tells(log: seq<Event>, from: nat, master: Id, first: Id, peers: seq<PeerDraft>, n: nat, b: BatchInput,
                  m: nat) {
    && n <= |peers| && m <= n && HandedIn(b, m) && |Plain(log)| == from + n + m
    && (forall i :: 0 <= i < n ==> AnnouncesPeer(Plain(log)[from + i], first + i, master, i, peers[i]))
    && (forall i :: 0 <= i < m ==>
          AttestsPeer(Plain(log)[from + n + i], first + i, PeerAt(b, i).adapter.value, PeerAt(b, i).committed.value))
  }

  // ---- seeding and collecting ----

  lemma PeerAnnounced(id: Id, idx: nat, master: Id, peer: PeerDraft)
    ensures AnnouncesPeer(UnitSeeded(UnitPayload(NewPeer(id, idx, master, peer))), id, master, idx, peer)
  {}

  lemma PeerAttested(c: Config, receipt: Id, id: Id, h: Handle, k: Committed)
    ensures AttestsPeer(ReceiptSubmitted(ReceiptPayload(PeerReceipt(c, receipt, id, h, k), id)), id, h, k)
  {}

  lemma {:induction false} SeedsTell(l: Ledger, from: nat, first: Id, master: Id, peers: seq<PeerDraft>, b: BatchInput,
                                     idx: nat)
    requires idx <= |peers| && Tells(l.log, from, master, first, peers, idx, b, 0)
    ensures Tells(SeedPeers(l, first, master, peers, idx).log, from, master, first, peers, |peers|, b, 0)
    ensures Plain(l.log) <= Plain(SeedPeers(l, first, master, peers, idx).log)
    decreases |peers| - idx
  {
    hide UnitPayload, NewPeer, AnnouncesPeer, Plain;
    if idx < |peers| {
      var e := UnitSeeded(UnitPayload(NewPeer(first + idx, idx, master, peers[idx])));
      PeerAnnounced(first + idx, idx, master, peers[idx]);
      PlainSnoc(l.log, e);
      SeedsTell(Logged(l, e), from, first, master, peers, b, idx + 1);
    }
  }

  lemma ChargesAreTicks(c: Config, l: Ledger, h: Handle)
    requires l.bursts != []
    ensures Plain(ChargeHandle(c, Booked(l, h), h).log) == Plain(l.log)
  {
    hide CostOf, Plain;
    var m := ChargeHandle(c, Booked(l, h), h).log;
    if m != l.log { PlainSnoc(l.log, m[|m| - 1]); }
  }

  /** The first peer that did not hand in a commit, and why; none if all did. */
  predicate FirstFailure(b: BatchInput, n: nat, m: nat, error: Option<ErrorCode>) {
    && m <= n && HandedIn(b, m)
    && if m == n then error == None
       else error == Some(if PeerAt(b, m).adapter.Err? then PeerAt(b, m).adapter.error
                          else if PeerAt(b, m).committed.Err? then PeerAt(b, m).committed.error else EDb)
            && (PeerAt(b, m).adapter.Err? || PeerAt(b, m).committed.Err?)
  }

  lemma {:induction false} CollectTells(c: Config, l: Ledger, b: BatchInput, first: Id, receipts: Id, i: nat,
                                        from: nat, master: Id, peers: seq<PeerDraft>)
    returns (m: nat)
    requires l.bursts != [] && Tells(l.log, from, master, first, peers, |peers|, b, i)
    ensures var (done, error) := Collect(c, l, b, first, receipts, i, |peers|);
            && FirstFailure(b, |peers|, m, error)
            && Tells(done.log, from, master, first, peers, |peers|, b, m) && Plain(l.log) <= Plain(done.log)
    decreases |peers| - i
  {
    hide Plain, ChargeHandle, Booked, AnnouncesPeer, AttestsPeer, PeerAt;
    m := i;
    if i < |peers| && PeerAt(b, i).adapter.Ok? {
      var p := PeerAt(b, i);
      var h := p.adapter.value;
      ChargesAreTicks(c, l, h);
      if p.committed.Ok? {
        var worked := ChargeHandle(c, Booked(l, h), h);
        BurstsStay(c, l, h);
        var e := ReceiptSubmitted(ReceiptPayload(PeerReceipt(c, receipts + i, first + i, h, p.committed.value),
                                                 first + i));
        PlainSnoc(worked.log, e);
        PeerAttested(c, receipts + i, first + i, h, p.committed.value);
        m := CollectTells(c, Logged(worked, e), b, first, receipts, i + 1, from, master, peers);
      }
    }
  }

  lemma BurstsStay(c: Config, l: Ledger, h: Handle)
    requires l.bursts != []
    ensures ChargeHandle(c, Booked(l, h), h).bursts != []
  {
    hide CostOf;
  }

  // ---- the batch ----

  /** Refused before anything is logged. */
  predicate RefusedFor(peers: seq<PeerDraft>, b: BatchInput, error: ErrorCode, disjoint: bool) {
    if |peers| < 2 then error == ECommanderSchema
    else if !disjoint then error == EPeerOverlap
    else b.boundary == Some(error)
  }

  /** The receipt of the merged batch: what was merged, and the outer exit of the merge. */
  predicate AttestsMerge(r: Receipt, master: Id, c: Config, b: BatchInput, k: Committed) {
    && r.unitId == master && r.changedFiles == k.changed && r.commit == k.commit && r.testCommand == c.testCommand
    && r.exitCode == b.mergedExit && (r.claimedPass <==> b.mergedExit == 0)
  }

  /** The first failure of a batch that was seeded, or its receipt. */
  predicate BatchYields(g: Phase, c: Config, b: BatchInput, master: Id, covers: seq<Id>, error: Option<ErrorCode>) {
    if b.joined.Some? then g.FailedWith? && g.error == b.joined.value
    else if error.Some? then g.FailedWith? && g.error == error.value
    else match b.merged
      case Err(e) => g.FailedWith? && g.error == e
      case Ok(k) =>
        g.Got? && !g.stored && g.wave == covers && g.u.id == master && g.u.rework == 0
            && AttestsMerge(g.receipt, master, c, b, k)
  }

  /** For any batch, from any state. It is refused, with nothing logged, below two peers,
      for globs of two peers that overlap, or for its boundaries. Else its master is
      announced; a run that may not start working fails there. Else all peers are seeded
      in order, and unless the workers could not be joined their receipts follow, up to the
      first peer that failed; ticks aside, nothing else is logged. */
  lemma {:induction false} BatchExactly(c: Config, s: Loop, peers: seq<PeerDraft>, covers: seq<Id>, b: BatchInput)
    returns (m: nat, error: Option<ErrorCode>)
    requires !s.ledger.run.state.IsTerminal()
    ensures var g := RunPeerBatch(c, s, peers, covers, b);
            var master, disjoint := s.nextId, PairwiseDisjoint(c.matcher, DraftGlobs(peers));
            var log, from := g.s.ledger.log, |Plain(s.ledger.log)| + 1;
            if |peers| < 2 || !disjoint || b.boundary.Some? then
              g.FailedWith? && g.s == s && RefusedFor(peers, b, g.error, disjoint)
            else
              && Plain(s.ledger.log) <= Plain(log) && |Plain(log)| >= from
              && AnnouncesBatch(Plain(log)[from - 1], master, covers)
              && if !MayDispatch(s.ledger.run.state) then
                   g.FailedWith? && g.error == EDb && |Plain(log)| == from
                 else
                   && Tells(log, from, master, master + 1, peers, |peers|, b, m)
                   && (if b.joined.Some? then m == 0 else FirstFailure(b, |peers|, m, error))
                   && BatchYields(g, c, b, master, covers, error)
  {
    hide Plain, Collect, SeedPeers, PairwiseDisjoint, MasterPayload, Instructions, Tells, AnnouncesBatch;
    m, error := 0, None;
    if |peers| >= 2 && PairwiseDisjoint(c.matcher, DraftGlobs(peers)) && b.boundary.None? {
      var master := NewMaster(s.nextId, peers);
      var e := UnitDispatched(MasterPayload(master, covers));
      PlainSnoc(s.ledger.log, e);
      MasterAnnounced(master, covers);
      if MayDispatch(s.ledger.run.state) {
        var s1 := s.(ledger := Logged(s.ledger, e), nextId := s.nextId + 1);
        var l := Moved(s1.ledger, InnerWorking).value;
        var from, first := |Plain(s.ledger.log)| + 1, s.nextId + 1;
        NothingTold(l.log, from, master.id, first, peers, b);
        SeedsTell(l, from, first, master.id, peers, b, 0);
        var seeded := Opened(SeedPeers(l, first, master.id, peers, 0));
        if b.joined.None? {
          m := CollectTells(c, seeded, b, first, first + |peers|, 0, from, master.id, peers);
          error := Collect(c, seeded, b, first, first + |peers|, 0, |peers|).1;
        }
      }
    }
  }

  lemma MasterAnnounced(master: WorkUnit, covers: seq<Id>)
    ensures AnnouncesBatch(UnitDispatched(MasterPayload(master, covers)), master.id, covers)
  {}

  lemma {:induction false} NothingTold(log: seq<Event>, from: nat, master: Id, first: Id, peers: seq<PeerDraft>,
                                       b: BatchInput)
    requires |Plain(log)| == from
    ensures Tells(log, from, master, first, peers, 0, b, 0)
  {
    hide Plain;
  }
}
