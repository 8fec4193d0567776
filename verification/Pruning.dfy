/** Pruned undo rows over whole runs: how far down the chain can still be unwound. */
module Pruning {
  import opened Basics
  import opened Protocol
  import opened BlockApply
  import opened Undo
  import opened Consensus
  import opened Replay
  import opened ReorgLaws
  import opened ForkChoiceLaws
  import opened ChainSteps
  import opened ReorgOutcomes
  import opened ChainRuns

  /** Every canonical block at or above the floor has its undo row. */
  ghost predicate RowsFrom(s: Chain, floor: nat) {
    forall h :: h in s.snap.canonical && h >= floor ==> s.snap.canonical[h] in s.undo
  }

  /** Nothing but new undo rows, and new canonical entries that have one. */
  ghost predicate Adds(s: Chain, t: Chain) {
    && s.undo.Keys <= t.undo.Keys
    && forall h :: h in t.snap.canonical ==>
         t.snap.canonical[h] in t.undo || (h in s.snap.canonical && s.snap.canonical[h] == t.snap.canonical[h])
  }

  lemma AddsKeepsRows(s: Chain, t: Chain, floor: nat)
    requires Adds(s, t) && RowsFrom(s, floor)
    ensures RowsFrom(t, floor)
  {
  }

  lemma AddsCompose(s: Chain, t: Chain, u: Chain)
    requires Adds(s, t) && Adds(t, u)
    ensures Adds(s, u)
  {
    forall h | h in u.snap.canonical
      ensures u.snap.canonical[h] in u.undo || (h in s.snap.canonical && s.snap.canonical[h] == u.snap.canonical[h])
    {
      if u.snap.canonical[h] !in u.undo {
        assert h in t.snap.canonical && t.snap.canonical[h] == u.snap.canonical[h];
        assert t.snap.canonical[h] !in t.undo;
      }
    }
  }

  lemma CommitAdds(host: Host, book: Book, now: nat, s: Chain, b: BlockRecord)
    ensures Adds(s, CommitRow(host, book, now, s, b).0)
  {
    hide ApplyBlock, PrepareUndo, IndexRows;
  }

  lemma {:induction false} BranchAdds(host: Host, book: Book, clock: nat -> nat, s: Chain, bs: seq<BlockRecord>)
    requires HashesListed(bs)
    ensures Adds(s, ApplyBranch(host, book, clock, s, bs).0)
    decreases |bs|
  {
    hide CommitRow, ZkClaimsOk, RewardForBlock, Adds;
    NothingAdds(s);
    if bs != [] {
      CommitAdds(host, book, clock(bs[0].height), s, bs[0]);
      BranchStep(host, book, clock, s, bs);
      var (t, r) := Forward(host, book, clock(bs[0].height), s, bs[0]);
      if r.Ok? {
        BranchAdds(host, book, clock, t, bs[1..]);
        AddsCompose(s, t, ApplyBranch(host, book, clock, t, bs[1..]).0);
      }
    }
  }

  lemma NothingAdds(s: Chain)
    ensures Adds(s, s)
  {
  }

  // Unwinding only takes canonical entries away.
  lemma UnwoundAdds(host: Host, book: Book, genesis: Core, s: Chain, newTip: string)
    requires Inv(host, book, genesis, s) && Begins(s, newTip)
    ensures Adds(s, Unwinding(s, newTip).0)
  {
    hide ExtendSnap, RestoreSnap, ReplayBlocks, WellFormed, Linked, UndoRowsOk, Inv, Unwind, BranchTo, CommonAncestor,
         AncestorHeight, Plan, CanonicalBlocks, AncestorAt;
    InvParts(host, book, genesis, s);
    UnwoundFromInv(host, book, genesis, s, newTip);
    BeginsPlan(host, book, genesis, s, newTip);
    UnwindFromInv(host, book, genesis, s, AncestorHeight(s, newTip));
    var u := Unwinding(s, newTip).0;
    InvParts(host, book, genesis, u);
    forall h | h in u.snap.canonical ensures h in s.snap.canonical && s.snap.canonical[h] == u.snap.canonical[h] {
      PrefixEntry(s, u, h);
    }
  }

  lemma PrefixEntry(s: Chain, u: Chain, h: nat)
    requires WellFormed(s.records) && Linked(s) && WellFormed(u.records) && Linked(u) && h in u.snap.canonical
    requires |CanonicalBlocks(u)| <= |CanonicalBlocks(s)|
    requires CanonicalBlocks(u) == CanonicalBlocks(s)[..|CanonicalBlocks(u)|]
    ensures h in s.snap.canonical && s.snap.canonical[h] == u.snap.canonical[h]
  {
    hide WellFormed, Linked;
    CanonicalIsNumbered(u, h);
    CanonicalRow(u, h);
    CanonicalRow(s, h);
  }

  lemma ReorgAdds(host: Host, book: Book, clock: nat -> nat, genesis: Core, s: Chain, newTip: string)
    requires Inv(host, book, genesis, s)
    ensures Adds(s, Reorg(host, book, clock, s, newTip).0)
  {
    hide WellFormed, Inv, Unwind, BranchTo, CommonAncestor, ApplyBranch, Reorg, Adds;
    InvParts(host, book, genesis, s);
    NothingAdds(s);
    ReorgPhases(host, book, clock, s, newTip);
    if Begins(s, newTip) {
      UnwoundAdds(host, book, genesis, s, newTip);
      if Unwinding(s, newTip).1.Ok? {
        ReorgApplies(host, book, clock, s, newTip);
        BranchAdds(host, book, clock, Unwinding(s, newTip).0, Branch(s, newTip).value);
        AddsCompose(s, Unwinding(s, newTip).0, Reorg(host, book, clock, s, newTip).0);
      }
    }
  }

  // Every step but pruning adds.
  lemma StepAdds(host: Host, book: Book, genesis: Core, s: Chain, e: Event, t: Chain)
    requires Inv(host, book, genesis, s) && Next(host, book, s, e, t) && !e.Prune?
    ensures Adds(s, t)
  {
    hide WellFormed, CheckRemote, Placeable, Previewed, Reorg, RivalRow, CommonAncestor, BranchTo, Reweighed, ReorgFrom,
         MinedRow, Mine, ExtendRemote, CommitRow, RivalRemote, BackfillReorg, CumWeight, MinePlan, RemoteRow, Inv,
         BackfillRow;
    if e.Mined? {
      if MinedRow(host, book, s, e).Some? {
        MinedCommits(host, book, s, e);
        CommitAdds(host, book, e.now, s, MinedRow(host, book, s, e).value);
      } else {
        MinedNothing(host, book, s, e);
      }
    } else if e.Gossip? && e.block.height == s.snap.core.counters.height + 1 {
      NextGossipCommits(host, book, s, e);
      if Previewed(host, book, e.previewAt, s, e.block) {
        var row := RemoteRow(host, s, e.block).value;
        CommitAdds(host, book, e.clock(row.height), s, row);
      }
    } else if TriesReorg(host, s, e) {
      ReorgFromStore(host, book, s, e);
      ReorgFromKeepsInv(host, book, genesis, s, e);
      TriedReorg(host, book, s, e);
      ReorgAdds(host, book, e.clock, genesis, ReorgFrom(host, s, e), Target(e));
    } else if e.Candidate? {
      CandidateIsOffChain(host, s, e.block);
    } else {
      Untried(host, book, s, e);
    }
  }

  lemma CandidateIsOffChain(host: Host, s: Chain, b: RemoteBlock)
    ensures BackfillRow(host, s, b).Ok? ==> !BackfillRow(host, s, b).value.canonical
  {
    hide CheckRemote;
  }

  // Pruning at height n and depth d keeps the rows of canonical blocks at n - d and above.
  lemma PruneKeepsRows(host: Host, book: Book, genesis: Core, s: Chain, depth: nat, floor: nat)
    requires Inv(host, book, genesis, s) && RowsFrom(s, floor)
    requires SatSub(s.snap.core.counters.height, depth) <= floor
    ensures RowsFrom(s.(undo := Pruned(s.undo, s.snap.core.counters.height, depth)), floor)
  {
    hide ExtendSnap, RestoreSnap, ReplayBlocks, WellFormed, Linked, UndoRowsOk;
    InvParts(host, book, genesis, s);
    forall h | h in s.snap.canonical && h >= floor
      ensures s.snap.canonical[h] in Pruned(s.undo, s.snap.core.counters.height, depth)
    {
      CanonicalIsNumbered(s, h);
      CanonicalRow(s, h);
      UndoRowAt(host, book, genesis, s, CanonicalBlocks(s), h - 1);
    }
  }

  /** And exactly those: a canonical block keeps its row when it sits no more than the depth below the height. */
  lemma PruneKeepsExactly(host: Host, book: Book, genesis: Core, s: Chain, depth: nat, h: nat)
    requires Inv(host, book, genesis, s) && h in s.snap.canonical
    ensures var n := s.snap.core.counters.height;
            s.snap.canonical[h] in Pruned(s.undo, n, depth) <==> s.snap.canonical[h] in s.undo && n <= h + depth
  {
    hide ExtendSnap, RestoreSnap, ReplayBlocks, WellFormed, Linked, UndoRowsOk;
    InvParts(host, book, genesis, s);
    CanonicalIsNumbered(s, h);
    CanonicalRow(s, h);
    if s.snap.canonical[h] in s.undo {
      UndoRowAt(host, book, genesis, s, CanonicalBlocks(s), h - 1);
    }
  }

  /** The greatest height, less the depth, at which the run has pruned. */
  function PruneFloor(states: seq<Chain>, events: seq<Event>, n: nat): nat
    requires n <= |events| <= |states|
  {
    if n == 0 then 0
    else
      var below := PruneFloor(states, events, n - 1);
      match events[n - 1]
      case Prune(depth) =>
        var at := SatSub(states[n - 1].snap.core.counters.height, depth);
        if at > below then at else below
      case _ => below
  }

  lemma {:induction false} RunKeepsRows(host: Host, book: Book, genesis: Core, states: seq<Chain>, events: seq<Event>,
                                        i: nat)
    requires IsRun(host, book, genesis, states, events) && i < |states| && NoMismatch(host, book, states, events, i)
    ensures RowsFrom(states[i], PruneFloor(states, events, i))
  {
    hide Inv, StopsAtMismatch, Allowed, Adds;
    if i > 0 {
      var s, e := states[i - 1], events[i - 1];
      var below, floor := PruneFloor(states, events, i - 1), PruneFloor(states, events, i);
      RunKeepsRows(host, book, genesis, states, events, i - 1);
      RunKeepsInv(host, book, genesis, states, events, i - 1);
      assert RowsFrom(s, floor);
      if e.Prune? {
        PruneKeepsRows(host, book, genesis, s, e.depth, floor);
      } else {
        StepAdds(host, book, genesis, s, e, states[i]);
        AddsKeepsRows(s, states[i], floor);
      }
    }
  }

  // Unwinding to height k succeeds exactly when every canonical block above k has its undo row.
  lemma UnwindSucceedsIff(host: Host, book: Book, genesis: Core, s: Chain, k: nat)
    requires Inv(host, book, genesis, s) && k <= s.snap.core.counters.height
    ensures Unwind(s, TopId(s), AncestorAt(s, k)).1.Ok? <==> RowsFrom(s, k + 1)
  {
    hide ExtendSnap, RestoreSnap, ReplayBlocks, WellFormed, Linked, UndoRowsOk, Inv, Unwind, AncestorAt, TopId,
         CanonicalBlocks;
    InvParts(host, book, genesis, s);
    TopIdIs(host, book, genesis, s);
    var blocks := CanonicalBlocks(s);
    UnwindFromInv(host, book, genesis, s, k);
    FloorReachedIff(s.undo, blocks, k);
    forall h | h in s.snap.canonical ensures 1 <= h <= |blocks| && blocks[h - 1].id == s.snap.canonical[h] {
      CanonicalIsNumbered(s, h);
      CanonicalRow(s, h);
    }
    forall i | 0 <= i < |blocks| ensures i + 1 in s.snap.canonical && s.snap.canonical[i + 1] == blocks[i].id {
      CanonicalRow(s, i + 1);
    }
    if RowsFrom(s, k + 1) {
      forall i | k <= i < |blocks| ensures blocks[i].id in s.undo {
        assert i + 1 in s.snap.canonical;
      }
    }
  }

  /** Over any run with no root mismatch, the chain unwinds to every height not more than one below the
      greatest height at a prune less its depth. */
  lemma PrunedRunUnwinds(host: Host, book: Book, genesis: Core, states: seq<Chain>, events: seq<Event>, i: nat, k: nat)
    requires IsRun(host, book, genesis, states, events) && i < |states| && NoMismatch(host, book, states, events, i)
    requires PruneFloor(states, events, i) <= k + 1 && k <= states[i].snap.core.counters.height
    ensures Inv(host, book, genesis, states[i])
    ensures var s := states[i];
            var (t, r) := Unwind(s, TopId(s), AncestorAt(s, k));
            r.Ok? && Inv(host, book, genesis, t) && CanonicalBlocks(t) == CanonicalBlocks(s)[..k]
  {
    hide Inv, IsRun, NoMismatch, Unwind, TopId, AncestorAt, CanonicalBlocks, PruneFloor;
    RunKeepsInv(host, book, genesis, states, events, i);
    RunKeepsRows(host, book, genesis, states, events, i);
    UnwindSucceedsIff(host, book, genesis, states[i], k);
    UnwindFromInv(host, book, genesis, states[i], k);
  }
}
