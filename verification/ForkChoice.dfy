/** Fork choice and reorganisation against the replay. */
module ForkChoiceLaws {
  import opened Basics
  import opened Protocol
  import opened Undo
  import opened Consensus
  import opened Replay
  import opened ReorgLaws

  // ----- the common ancestor

  lemma {:induction false} AncestorsRankLower(records: map<string, BlockRecord>, cur: Option<string>, x: string)
    requires WellFormed(records) && x in AncestorIds(records, cur)
    ensures Rank(records, Some(x)) <= Rank(records, cur)
    decreases Rank(records, cur)
  {
    if x != cur.value {
      ParentRanksLower(records, cur.value);
      AncestorsRankLower(records, Parent(records, cur.value), x);
    }
  }

  // The climb finds the deepest block on both ancestries, or reports genesis when there is none.
  lemma {:induction false} ClimbFindsDeepest(records: map<string, BlockRecord>, stop: set<string>, cur: Option<string>)
    requires WellFormed(records) && "" !in stop
    ensures var a := ClimbTo(records, stop, cur);
            && (a == "" <==> AncestorIds(records, cur) * stop == {})
            && (a != "" ==> a in AncestorIds(records, cur) && a in stop)
            && forall x :: x in AncestorIds(records, cur) && x in stop
                ==> Rank(records, Some(x)) <= Rank(records, Some(a))
    decreases Rank(records, cur)
  {
    if cur.Some? {
      ParentRanksLower(records, cur.value);
      if cur.value in stop {
        forall x | x in AncestorIds(records, cur) ensures Rank(records, Some(x)) <= Rank(records, cur) {
          AncestorsRankLower(records, cur, x);
        }
        assert cur.value in AncestorIds(records, cur) * stop;
      } else {
        ClimbFindsDeepest(records, stop, Parent(records, cur.value));
        assert AncestorIds(records, cur) * stop == AncestorIds(records, Parent(records, cur.value)) * stop;
      }
    }
  }

  // ----- the plan of a reorganisation

  /** The chain keeps its first `k` blocks and continues with `bs`, none of which is on it. */
  ghost predicate Plan(s: Chain, newTip: string, k: nat, bs: seq<BlockRecord>)
    requires Linked(s)
  {
    var c := s.snap.canonical;
    && k <= s.snap.core.counters.height
    && (forall i :: 0 <= i < |bs| ==> bs[i].id in s.records && s.records[bs[i].id] == bs[i]
                                      && bs[i].id !in c.Values && bs[i].height == k + i + 1)
    && (forall i, j :: 0 <= i < |bs| && 0 <= j < |bs| && j == i + 1 ==> bs[j].parent == Some(bs[i].id))
    && (bs != [] ==> bs[|bs| - 1].id == newTip && bs[0].parent == (if k == 0 then None else Some(c[k])))
    && (bs == [] ==> k > 0 && c[k] == newTip)
  }

  ghost function AncestorAt(s: Chain, k: nat): string
    requires Linked(s) && k <= s.snap.core.counters.height
  {
    if k == 0 then "" else s.snap.canonical[k]
  }

  lemma TipAncestors(s: Chain, tipId: string)
    requires WellFormed(s.records) && Linked(s) && s.snap.core.counters.height > 0
    requires tipId == s.snap.canonical[s.snap.core.counters.height]
    ensures AncestorIds(s.records, Some(tipId)) == s.snap.canonical.Values
    ensures "" !in s.snap.canonical.Values
  {
    var c := s.snap.canonical;
    CanonicalAncestors(s, s.snap.core.counters.height);
    forall id ensures id in AncestorIds(s.records, Some(tipId)) <==> id in c.Values {
    }
    if h :| h in c && c[h] == "" {
      CanonicalRow(s, h);
    }
  }

  lemma PlanExists(s: Chain, tipId: string, newTip: string) returns (k: nat)
    requires WellFormed(s.records) && Linked(s) && s.snap.core.counters.height > 0
    requires tipId == s.snap.canonical[s.snap.core.counters.height] && newTip in s.records
    requires BranchTo(s.records, CommonAncestor(s.records, tipId, newTip), Some(newTip)).Ok?
    ensures k <= s.snap.core.counters.height
    ensures AncestorAt(s, k) == CommonAncestor(s.records, tipId, newTip)
    ensures Plan(s, newTip, k, BranchTo(s.records, CommonAncestor(s.records, tipId, newTip), Some(newTip)).value)
  {
    var c := s.snap.canonical;
    TipAncestors(s, tipId);
    var a := CommonAncestor(s.records, tipId, newTip);
    assert newTip != "" by {
      assert RowOk(s.records, newTip);
    }
    BranchHasShape(s.records, c.Values, Some(newTip));
    if a == "" {
      k := 0;
    } else {
      k :| k in c && c[k] == a;
      CanonicalRow(s, k);
    }
  }

  // ----- reorganisation equals replay

  lemma PlanFits(s: Chain, newTip: string, k: nat, bs: seq<BlockRecord>)
    requires Linked(s) && Plan(s, newTip, k, bs)
    ensures k <= |CanonicalBlocks(s)|
  {
  }

  lemma PlanDistinct(s: Chain, newTip: string, k: nat, bs: seq<BlockRecord>)
    requires Linked(s) && Plan(s, newTip, k, bs)
    ensures DistinctIds(bs)
  {
    hide Linked;
    forall i, j | 0 <= i < j < |bs| ensures bs[i].id != bs[j].id {
      assert s.records[bs[i].id] == bs[i] && s.records[bs[j].id] == bs[j];
    }
  }

  lemma PlanReplays(host: Host, book: Book, clock: nat -> nat, genesis: Core, s: Chain, s1: Chain, newTip: string,
                    k: nat, bs: seq<BlockRecord>)
    requires Inv(host, book, genesis, s) && Plan(s, newTip, k, bs) && HashesListed(bs)
    requires s1.snap == SnapAt(host, book, genesis, CanonicalBlocks(s), k)
    requires SameButFlags(s.records, s1.records) && s1.undo == s.undo
    requires ApplyBranch(host, book, clock, s1, bs).1.Ok?
    ensures Continues(host, book, genesis, CanonicalBlocks(s)[..k], s1, bs, ApplyBranch(host, book, clock, s1, bs).0)
  {
    hide ExtendSnap, RestoreSnap, RowRestores, ReplayBlocks, Linked, WellFormed, UndoRowsOk, ApplyBranch, Continues,
        Inv, DistinctIds, BlockAt;
    InvParts(host, book, genesis, s);
    var prefix := CanonicalBlocks(s)[..k];
    PrefixReplays(host, book, genesis, CanonicalBlocks(s), k);
    ContinuesNothing(host, book, genesis, prefix, s1);
    forall i | 0 <= i < |bs| ensures bs[i].id in s1.records && Strip(s1.records[bs[i].id]) == Strip(bs[i]) {
      assert Strip(s.records[bs[i].id]) == Strip(s1.records[bs[i].id]);
    }
    PlanDistinct(s, newTip, k, bs);
    assert [] + bs == bs;
    BranchContinues(host, book, clock, genesis, prefix, s1, [], s1, bs);
  }

  lemma PlanLinks(s: Chain, newTip: string, k: nat, bs: seq<BlockRecord>)
    requires WellFormed(s.records) && Linked(s) && Plan(s, newTip, k, bs)
    ensures var all := CanonicalBlocks(s)[..k] + Stripped(bs);
            && Numbered(all)
            && StoredExactly(s.records, all) && ParentLinked(all)
            && all != [] && newTip in s.records && all[|all| - 1] == Strip(s.records[newTip])
            && all[|all| - 1].id == newTip
  {
    hide Linked, WellFormed;
    var blocks := CanonicalBlocks(s);
    var all := blocks[..k] + Stripped(bs);
    forall i | 0 <= i < |all|
      ensures all[i].height == i + 1 && all[i].id in s.records && Strip(s.records[all[i].id]) == all[i]
    {
      if i < k {
        CanonicalRow(s, i + 1);
      }
    }
    forall i, j | 0 <= i < |all| && 0 <= j < |all| && j == i + 1 ensures all[j].parent == Some(all[i].id) {
      if j < k {
        CanonicalRow(s, j + 1);
      } else if j == k {
        CanonicalRow(s, k);
      } else {
        assert bs[j - k].parent == Some(bs[i - k].id);
      }
    }
    if bs == [] {
      CanonicalRow(s, k);
    }
  }

  lemma PlanUndoRows(host: Host, book: Book, genesis: Core, s: Chain, s1: Chain, newTip: string, k: nat,
                     bs: seq<BlockRecord>, t: Chain)
    requires Inv(host, book, genesis, s) && Plan(s, newTip, k, bs) && s1.undo == s.undo
    requires Continues(host, book, genesis, CanonicalBlocks(s)[..k], s1, bs, t)
    ensures UndoRowsOk(host, book, genesis, t, CanonicalBlocks(s)[..k] + Stripped(bs))
  {
    hide ExtendSnap, RestoreSnap, ReplayBlocks, Linked, WellFormed, Inv, BlockAt;
    InvParts(host, book, genesis, s);
    var blocks := CanonicalBlocks(s);
    var all := blocks[..k] + Stripped(bs);
    forall i | 0 <= i < |all| && all[i].id in t.undo
      ensures RowRestores(host, book, genesis, all, i, t.undo[all[i].id])
    {
      if i < k {
        var id := all[i].id;
        CanonicalRow(s, i + 1);
        assert id in s.snap.canonical.Values;
        assert id !in Ids(bs) && id in s.undo;
        UndoRowAt(host, book, genesis, s, blocks, i);
        assert all[..i] == blocks[..i] && all[..i + 1] == blocks[..i + 1];
      }
    }
  }

  /** The reference: every stored ancestor of a block, lowest first. */
  ghost function Ancestry(records: map<string, BlockRecord>, id: string): Result<seq<BlockRecord>, ChainError>
    requires WellFormed(records)
  {
    BranchTo(records, "", Some(id))
  }

  // A numbered, linked and stored sequence ending at `id` is its ancestry, flags aside.
  lemma {:induction false} LinkedIsAncestry(records: map<string, BlockRecord>, all: seq<BlockRecord>)
    requires WellFormed(records) && Numbered(all) && all != []
    requires StoredExactly(records, all) && ParentLinked(all)
    ensures var id := all[|all| - 1].id;
            Ancestry(records, id).Ok? && Stripped(Ancestry(records, id).value) == all
  {
    var n := |all| - 1;
    var id := all[n].id;
    assert RowOk(records, id) && Strip(records[id]) == all[n];
    ParentRanksLower(records, id);
    if n == 0 {
      assert BranchTo(records, "", None) == Ok([]);
    } else {
      assert all[n].parent == Some(all[n - 1].id);
      LinkedIsAncestry(records, all[..n]);
      var below := Ancestry(records, all[n - 1].id).value;
      assert Stripped(below + [records[id]]) == Stripped(below) + [all[n]];
      assert all == all[..n] + [all[n]];
    }
  }

  lemma ReorgSteps(host: Host, book: Book, clock: nat -> nat, s: Chain, newTip: string)
    requires WellFormed(s.records) && Reorg(host, book, clock, s, newTip).1 == Ok(true)
    ensures s.snap.tip.Some? && newTip in s.records && s.records[newTip].cumWeight > s.snap.tip.value.cumWeight
    ensures var tipId := s.snap.tip.value.blockId;
            var ancestor := CommonAncestor(s.records, tipId, newTip);
            var branch := BranchTo(s.records, ancestor, Some(newTip));
            var unwound := Unwind(s, Some(tipId), ancestor);
            && branch.Ok? && HashesListed(branch.value) && unwound.1.Ok?
            && ApplyBranch(host, book, clock, unwound.0, branch.value).1.Ok?
            && ApplyBranch(host, book, clock, unwound.0, branch.value).0 == Reorg(host, book, clock, s, newTip).0
  {
    hide ApplyBranch, Unwind, BranchTo;
    var ancestor := CommonAncestor(s.records, s.snap.tip.value.blockId, newTip);
    BranchRowsOk(s.records, ancestor, Some(newTip));
  }

  lemma PlannedReorg(host: Host, book: Book, clock: nat -> nat, genesis: Core, s: Chain, newTip: string, k: nat,
                     bs: seq<BlockRecord>, s1: Chain, t: Chain)
    requires Inv(host, book, genesis, s) && s.snap.core.counters.height > 0
    requires k <= s.snap.core.counters.height && Plan(s, newTip, k, bs) && HashesListed(bs)
    requires var unwound := Unwind(s, Some(s.snap.canonical[s.snap.core.counters.height]), AncestorAt(s, k));
             unwound.0 == s1 && unwound.1.Ok?
    requires ApplyBranch(host, book, clock, s1, bs).0 == t && ApplyBranch(host, book, clock, s1, bs).1.Ok?
    ensures Inv(host, book, genesis, t) && SameButFlags(s.records, t.records)
    ensures Ancestry(s.records, newTip).Ok? && CanonicalBlocks(t) == Stripped(Ancestry(s.records, newTip).value)
    ensures newTip in s.records && CanonicalBlocks(t) != []
    ensures CanonicalBlocks(t)[|CanonicalBlocks(t)| - 1] == Strip(s.records[newTip])
  {
    hide ExtendSnap, RestoreSnap, ReplayBlocks, RowRestores, ApplyBranch, Unwind, UndoRowsOk, Linked, WellFormed,
         Plan, Continues, SnapAt;
    TopSnap(host, book, genesis, s);
    UnwindReplays(host, book, genesis, s, s, s.snap.core.counters.height, k, AncestorAt(s, k));
    PlanReplays(host, book, clock, genesis, s, s1, newTip, k, bs);
    PlanApplied(host, book, genesis, s, s1, newTip, k, bs, t);
  }

  lemma TipRow(host: Host, book: Book, genesis: Core, s: Chain)
    requires Inv(host, book, genesis, s) && CanonicalBlocks(s) != []
    ensures s.snap.tip.Some?
    ensures var top := CanonicalBlocks(s)[|CanonicalBlocks(s)| - 1];
            s.snap.tip.value == Tip(|CanonicalBlocks(s)|, top.id, top.cumWeight, top.root)
  {
    hide ExtendSnap, RestoreSnap, ReplayBlocks, UndoRowsOk, Linked, WellFormed;
    InvShape(host, book, genesis, s);
    CanonicalRow(s, |CanonicalBlocks(s)|);
  }

  // From a replayed state, a reorganisation that succeeds leaves the replay of the new tip's whole
  // ancestry: balances, counters, markers, tasks, registry, canonical index, summaries and tip.
  lemma ReorgEqualsReplay(host: Host, book: Book, clock: nat -> nat, genesis: Core, s: Chain, newTip: string)
    requires Inv(host, book, genesis, s) && Reorg(host, book, clock, s, newTip).1 == Ok(true)
    ensures var t := Reorg(host, book, clock, s, newTip).0;
            && Inv(host, book, genesis, t)
            && SameButFlags(s.records, t.records)
            && Ancestry(s.records, newTip).Ok?
            && CanonicalBlocks(t) == Stripped(Ancestry(s.records, newTip).value)
            && ReplayBlocks(host, book, genesis, Stripped(Ancestry(s.records, newTip).value)) == Ok(t.snap)
            && t.snap.tip.Some? && t.snap.tip.value.blockId == newTip && s.snap.tip.Some?
            && t.snap.tip.value.cumWeight > s.snap.tip.value.cumWeight
  {
    hide ExtendSnap, RestoreSnap, ReplayBlocks, RowRestores, ApplyBranch, Unwind, UndoRowsOk, Linked, WellFormed,
         Plan, Reorg, BranchTo, SnapAt, SameButFlags;
    ReorgSteps(host, book, clock, s, newTip);
    InvShape(host, book, genesis, s);
    var tipId := s.snap.tip.value.blockId;
    var ancestor := CommonAncestor(s.records, tipId, newTip);
    var bs := BranchTo(s.records, ancestor, Some(newTip)).value;
    var k := PlanExists(s, tipId, newTip);
    var s1 := Unwind(s, Some(tipId), ancestor).0;
    var t := ApplyBranch(host, book, clock, s1, bs).0;
    PlannedReorg(host, book, clock, genesis, s, newTip, k, bs, s1, t);
    TipRow(host, book, genesis, t);
    assert RowOk(s.records, newTip) by {
      StoredRowOk(s.records, newTip);
    }
  }

  lemma StoredRowOk(records: map<string, BlockRecord>, id: string)
    requires WellFormed(records) && id in records
    ensures RowOk(records, id)
  {
  }

  lemma TopSnap(host: Host, book: Book, genesis: Core, s: Chain)
    requires Inv(host, book, genesis, s)
    ensures SnapAt(host, book, genesis, CanonicalBlocks(s), s.snap.core.counters.height) == s.snap
  {
    hide ExtendSnap, ReplayBlocks, UndoRowsOk;
    assert CanonicalBlocks(s)[..s.snap.core.counters.height] == CanonicalBlocks(s);
  }

  lemma PlanApplied(host: Host, book: Book, genesis: Core, s: Chain, s1: Chain, newTip: string, k: nat,
                    bs: seq<BlockRecord>, t: Chain)
    requires Inv(host, book, genesis, s) && Plan(s, newTip, k, bs)
    requires s1.undo == s.undo && SameButFlags(s.records, s1.records)
    requires Continues(host, book, genesis, CanonicalBlocks(s)[..k], s1, bs, t)
    ensures Inv(host, book, genesis, t) && SameButFlags(s.records, t.records)
    ensures Ancestry(s.records, newTip).Ok? && CanonicalBlocks(t) == Stripped(Ancestry(s.records, newTip).value)
    ensures CanonicalBlocks(t) == CanonicalBlocks(s)[..k] + Stripped(bs)
    ensures newTip in s.records && CanonicalBlocks(t) != []
    ensures CanonicalBlocks(t)[|CanonicalBlocks(t)| - 1] == Strip(s.records[newTip])
  {
    hide ExtendSnap, RestoreSnap, ReplayBlocks, RowRestores, UndoRowsOk, Linked, WellFormed, Inv, BlockAt, Ancestry,
         StoredExactly, ParentLinked, SameButFlags, Numbered, Plan;
    InvParts(host, book, genesis, s);
    PlanFits(s, newTip, k, bs);
    var all := CanonicalBlocks(s)[..k] + Stripped(bs);
    PlanLinks(s, newTip, k, bs);
    PlanUndoRows(host, book, genesis, s, s1, newTip, k, bs, t);
    ContinuesReplays(host, book, genesis, CanonicalBlocks(s)[..k], s1, bs, t);
    FlagsCompose(s.records, s1.records, t.records);
    FlagsKeepWellFormed(s.records, t.records);
    FlagsKeepStored(s.records, t.records, all);
    GenesisHeight(host, book, genesis, s);
    InvFromBlocks(host, book, genesis, t, all);
    LinkedIsAncestry(s.records, all);
  }

  lemma GenesisHeight(host: Host, book: Book, genesis: Core, s: Chain)
    requires Inv(host, book, genesis, s)
    ensures genesis.counters.height == 0
  {
  }
}
