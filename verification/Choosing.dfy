/** What a turn of a run with a DAG sets to work: a wave, or one unit (the first half of a
    turn of drive_factory in crates/wanax-cli/src/engine.rs). */
module Choosing {
  import opened Types
  import opened Text
  import opened Scheduler
  import opened Drive

  /** The drafts ask of the members of a wave what the units say. */
  predicate Asks(drafts: seq<PeerDraft>, members: seq<WorkUnit>) {
    && |drafts| == |members|
    && forall k :: 0 <= k < |members| ==>
         && drafts[k].title == members[k].title && drafts[k].instruction == members[k].instruction
         && (if members[k].globs.Some? then drafts[k].globs == members[k].globs.value else drafts[k].globs == [])
  }

  /** The wave's reworks are counted on as long as the same units make it up. */
  ghost predicate CountsOn(s: Loop, x: Loop, ids: seq<Id>) {
    && x == s.(waveRework := x.waveRework, waveKey := x.waveKey)
    && (forall id :: id in x.waveKey <==> id in ids)
    && x.waveRework == (if forall id :: id in s.waveKey <==> id in ids then s.waveRework else 0)
  }

  /** With a DAG and nothing pending: two or more units that can go together go as a batch,
      with their own tasks and globs; else the first unit that may start goes alone. */
  lemma {:induction false} DagExactly(c: Config, s: Loop, input: TurnInput)
    returns (at: seq<nat>, drafts: seq<PeerDraft>, ids: seq<Id>, x: Loop)
    requires s.pending.None? && s.dag.Some?
    ensures var ready := ReadyUnits(s.dag.value);
            && PickedInTurn(c.matcher, ready, |ready|, at)
            && (|at| >= 2 ==>
                  && Asks(drafts, Members(ready, at)) && CountsOn(s, x, ids) && |ids| == |at|
                  && (forall k :: 0 <= k < |at| ==> ids[k] == Members(ready, at)[k].id)
                  && InnerPhase(c, s, input) == RunPeerBatch(c, x, drafts, ids, input.batch))
    ensures |at| < 2 ==>
              forall i :: 0 <= i < |s.dag.value| && FirstToStart(s.dag.value, i) ==>
                var u := s.dag.value[i];
                InnerPhase(c, s, input) == RunSingle(c, s, Some(u), u.title, u.instruction, input)
  {
    hide RunSingle, RunPeerBatch, ReadyUnits, Wave, PickedInTurn, Members, NextReady, MayStart;
    var ready := ReadyUnits(s.dag.value);
    at := WaveInTurn(c.matcher, ready);
    PicksAreMembers(c.matcher, ready, |ready|, at);
    var wave := Members(ready, at);
    drafts, ids := WaveDrafts(wave), Ids(wave);
    x := Waved(s, ids);
    SameSet(s.waveKey, ids);
    if |at| < 2 {
      forall i | 0 <= i < |s.dag.value| && FirstToStart(s.dag.value, i)
        ensures var u := s.dag.value[i];
                InnerPhase(c, s, input) == RunSingle(c, s, Some(u), u.title, u.instruction, input)
      {
        NextIsFirst(s.dag.value, i);
      }
    }
  }

  predicate FirstToStart(units: seq<WorkUnit>, i: nat) {
    i < |units| && MayStart(units[i], units) && forall j :: 0 <= j < i ==> !MayStart(units[j], units)
  }

  lemma SameSet(key: set<Id>, ids: seq<Id>)
    ensures IdSet(ids) == key <==> forall id :: id in key <==> id in ids
  {}

  /** The master of a batch: its title counts the peers, and its instruction has one line for
      each, in order. */
  lemma {:induction false} MasterReads(id: Id, peers: seq<PeerDraft>, last: PeerDraft)
    ensures var m := NewMaster(id, peers + [last]);
            && m.title == "peer-batch (" + Digits(|peers| + 1) + ")"
            && m.instruction == (if peers == [] then "" else NewMaster(id, peers).instruction + "\n")
                                + "- " + last.title + ": " + last.instruction
  {
    InstructionsSnoc(peers, last);
  }

  lemma {:induction false} InstructionsSnoc(peers: seq<PeerDraft>, last: PeerDraft)
    ensures Instructions(peers + [last]) == (if peers == [] then "" else Instructions(peers) + "\n")
                                            + "- " + last.title + ": " + last.instruction
  {
    var all, line := peers + [last], "- " + last.title + ": " + last.instruction;
    if peers != [] {
      InstructionsSnoc(peers[1..], last);
      assert all[1..] == peers[1..] + [last];
    }
  }
}
