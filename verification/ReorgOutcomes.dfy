/** Every outcome of a reorganisation, failures included: what chain it stops on, what its tip weighs, and
    what it does to the money. */
module ReorgOutcomes {
  import opened Basics
  import opened Protocol
  import opened BlockApply
  import opened Conservation
  import opened Undo
  import opened Consensus
  import opened Replay
  import opened ReorgLaws
  import opened ForkChoiceLaws
  import opened ChainSteps

  // ----- the phases of a reorganisation

  ghost function Ancestor(s: Chain, newTip: string): string
    requires WellFormed(s.records) && s.snap.tip.Some?
  {
    CommonAncestor(s.records, s.snap.tip.value.blockId, newTip)
  }

  ghost function Branch(s: Chain, newTip: string): Result<seq<BlockRecord>, ChainError>
    requires WellFormed(s.records) && s.snap.tip.Some?
  {
    BranchTo(s.records, Ancestor(s, newTip), Some(newTip))
  }

  /** A stored, heavier block whose branch is stored too: unwinding begins. */
  ghost predicate Begins(s: Chain, newTip: string)
    requires WellFormed(s.records)
  {
    && s.snap.tip.Some? && newTip in s.records
    && s.records[newTip].cumWeight > s.snap.tip.value.cumWeight
    && Branch(s, newTip).Ok?
  }

  ghost function Unwinding(s: Chain, newTip: string): (Chain, Result<(), ChainError>)
    requires WellFormed(s.records) && Begins(s, newTip)
  {
    Unwind(s, Some(s.snap.tip.value.blockId), Ancestor(s, newTip))
  }

  /** The state the unwinding leaves; the state itself when there is none. */
  ghost function Unwound(s: Chain, newTip: string): Chain
    requires WellFormed(s.records)
  {
    if Begins(s, newTip) then Unwinding(s, newTip).0 else s
  }

  lemma {:induction false} BranchFault(records: map<string, BlockRecord>, ancestor: string, cur: Option<string>)
    requires WellFormed(records) && BranchTo(records, ancestor, cur).Err?
    ensures BranchTo(records, ancestor, cur).error == Rejected("unknown block in branch")
    decreases Rank(records, cur)
  {
    if cur.value in records {
      ParentRanksLower(records, cur.value);
      BranchFault(records, ancestor, Parent(records, cur.value));
    }
  }

  lemma ReorgPhases(host: Host, book: Book, clock: nat -> nat, s: Chain, newTip: string)
    requires WellFormed(s.records)
    ensures var (t, r) := Reorg(host, book, clock, s, newTip);
            && (!Begins(s, newTip) ==> t == s && r != Ok(true) && r != Err(RootMismatch))
            && (Begins(s, newTip) && Unwinding(s, newTip).1.Err? ==>
                  t == Unwinding(s, newTip).0 && r == Err(Unwinding(s, newTip).1.error))
  {
    hide Unwind, ApplyBranch, BranchTo, CommonAncestor;
    if s.snap.tip.Some? {
      if Branch(s, newTip).Ok? {
        BranchRowsOk(s.records, Ancestor(s, newTip), Some(newTip));
      } else {
        BranchFault(s.records, Ancestor(s, newTip), Some(newTip));
      }
    }
  }

  lemma ReorgApplies(host: Host, book: Book, clock: nat -> nat, s: Chain, newTip: string)
    requires WellFormed(s.records) && Begins(s, newTip) && Unwinding(s, newTip).1.Ok?
    ensures HashesListed(Branch(s, newTip).value)
    ensures var (t, r) := Reorg(host, book, clock, s, newTip);
            var (v, applied) := ApplyBranch(host, book, clock, Unwinding(s, newTip).0, Branch(s, newTip).value);
            && t == v && (applied.Ok? ==> r == Ok(true)) && (applied.Err? ==> r == Err(applied.error))
  {
    hide Unwind, ApplyBranch, BranchTo, CommonAncestor;
    BranchRowsOk(s.records, Ancestor(s, newTip), Some(newTip));
  }

  // ----- the chain a reorganisation stops on

  ghost function AncestorHeight(s: Chain, newTip: string): nat
    requires WellFormed(s.records) && s.snap.tip.Some?
  {
    var a := Ancestor(s, newTip);
    if a in s.records then s.records[a].height else 0
  }

  /** The kept part of the old chain, cut where an undo row is missing, and, if the unwinding got to
      the ancestor, the part of the branch that applied. */
  ghost function StopChain(host: Host, book: Book, clock: nat -> nat, s: Chain, newTip: string): seq<BlockRecord>
    requires WellFormed(s.records) && Linked(s)
  {
    var blocks := CanonicalBlocks(s);
    if !Begins(s, newTip) then blocks
    else
      var k := AncestorHeight(s, newTip);
      var f := Floor(s.undo, blocks, k);
      if f > k then blocks[..f]
      else
        var bs := Branch(s, newTip).value;
        blocks[..f] + Stripped(bs[..AppliedCount(host, book, clock, Unwinding(s, newTip).0, bs)])
  }

  lemma BeginsPlan(host: Host, book: Book, genesis: Core, s: Chain, newTip: string)
    requires Inv(host, book, genesis, s) && Begins(s, newTip)
    ensures var k := AncestorHeight(s, newTip);
            && k <= s.snap.core.counters.height && AncestorAt(s, k) == Ancestor(s, newTip)
            && Plan(s, newTip, k, Branch(s, newTip).value)
            && TopId(s) == Some(s.snap.tip.value.blockId)
  {
    hide ExtendSnap, RestoreSnap, ReplayBlocks, WellFormed, Linked, UndoRowsOk, BranchTo, CommonAncestor, Plan;
    TopIdIs(host, book, genesis, s);
    var k := PlanExists(s, s.snap.tip.value.blockId, newTip);
    if k > 0 {
      CanonicalRow(s, k);
    } else {
      BlankIsNoId(s.records);
    }
  }

  lemma BlankIsNoId(records: map<string, BlockRecord>)
    requires WellFormed(records)
    ensures "" !in records
  {
    forall id | id in records ensures id != "" {
      assert RowOk(records, id);
    }
  }

  lemma PrefixIsCanonical(s: Chain, u: Chain, k: nat)
    requires WellFormed(s.records) && Linked(s) && WellFormed(u.records) && Linked(u)
    requires k <= s.snap.core.counters.height && CanonicalBlocks(u) == CanonicalBlocks(s)[..k]
    ensures u.snap.core.counters.height == k && u.snap.canonical.Values <= s.snap.canonical.Values
    ensures k > 0 ==> k in u.snap.canonical && u.snap.canonical[k] == s.snap.canonical[k]
  {
    hide WellFormed, Linked;
    assert u.snap.core.counters.height == |CanonicalBlocks(u)| == k;
    forall h | h in u.snap.canonical ensures u.snap.canonical[h] in s.snap.canonical.Values {
      CanonicalIsNumbered(u, h);
      CanonicalRow(u, h);
      CanonicalRow(s, h);
    }
    if k > 0 {
      CanonicalRow(u, k);
      CanonicalRow(s, k);
    }
  }

  lemma CanonicalIsNumbered(s: Chain, h: nat)
    requires Linked(s) && h in s.snap.canonical
    ensures 1 <= h <= s.snap.core.counters.height
  {
  }

  lemma PlanStacks(s: Chain, u: Chain, newTip: string, k: nat, bs: seq<BlockRecord>)
    requires WellFormed(s.records) && Linked(s) && WellFormed(u.records) && Linked(u)
    requires Plan(s, newTip, k, bs) && HashesListed(bs)
    requires CanonicalBlocks(u) == CanonicalBlocks(s)[..k] && SameButFlags(s.records, u.records)
    ensures Stacks(u, bs)
  {
    hide WellFormed, Linked, CanonicalBlocks;
    PlanDistinct(s, newTip, k, bs);
    PrefixIsCanonical(s, u, k);
    forall i | 0 <= i < |bs| ensures bs[i].id in u.records && Strip(u.records[bs[i].id]) == Stripped(bs)[i] {
      assert Strip(s.records[bs[i].id]) == Strip(u.records[bs[i].id]);
    }
  }

  // From the ancestor on, the branch decides.
  lemma AppliesFromInv(host: Host, book: Book, clock: nat -> nat, genesis: Core, s: Chain, newTip: string)
    requires Inv(host, book, genesis, s) && Begins(s, newTip) && Unwinding(s, newTip).1.Ok?
    requires var k := AncestorHeight(s, newTip);
             && k <= s.snap.core.counters.height && Plan(s, newTip, k, Branch(s, newTip).value)
             && Inv(host, book, genesis, Unwinding(s, newTip).0)
             && CanonicalBlocks(Unwinding(s, newTip).0) == CanonicalBlocks(s)[..k]
             && SameButFlags(s.records, Unwinding(s, newTip).0.records)
    ensures var (t, r) := Reorg(host, book, clock, s, newTip);
            var bs := Branch(s, newTip).value;
            var all := CanonicalBlocks(s)[..AncestorHeight(s, newTip)]
                       + Stripped(bs[..AppliedCount(host, book, clock, Unwinding(s, newTip).0, bs)]);
            && (Inv(host, book, genesis, t) <==> r != Err(RootMismatch))
            && (Inv(host, book, genesis, t) ==> CanonicalBlocks(t) == all)
            && TipWeight(t) == TopWeight(all) && (r == Err(RootMismatch) ==> Overrun(t))
  {
    hide ExtendSnap, RestoreSnap, ReplayBlocks, WellFormed, Linked, UndoRowsOk, Plan, Reorg, Stacks, SameButFlags, Inv,
         TopWeight, TipWeight, CanonicalBlocks, AncestorHeight, Unwinding, Branch, ApplyBranch;
    InvParts(host, book, genesis, s);
    InvParts(host, book, genesis, Unwinding(s, newTip).0);
    ReorgApplies(host, book, clock, s, newTip);
    PlanStacks(s, Unwinding(s, newTip).0, newTip, AncestorHeight(s, newTip), Branch(s, newTip).value);
    BranchFromInv(host, book, clock, genesis, Unwinding(s, newTip).0, Branch(s, newTip).value);
  }

  // The unwinding keeps the invariant, and gets to the ancestor exactly when no undo row above is missing.
  lemma UnwoundFromInv(host: Host, book: Book, genesis: Core, s: Chain, newTip: string)
    requires Inv(host, book, genesis, s) && Begins(s, newTip)
    ensures var (u, r) := Unwinding(s, newTip);
            var k := AncestorHeight(s, newTip);
            var f := Floor(s.undo, CanonicalBlocks(s), k);
            && k <= s.snap.core.counters.height && Plan(s, newTip, k, Branch(s, newTip).value)
            && Inv(host, book, genesis, u) && CanonicalBlocks(u) == CanonicalBlocks(s)[..f]
            && SameButFlags(s.records, u.records)
            && f >= k && (r.Ok? <==> f == k) && (r.Err? ==> r.error == MissingUndo)
  {
    hide ExtendSnap, RestoreSnap, ReplayBlocks, WellFormed, Linked, UndoRowsOk, Unwind, BranchTo, CommonAncestor, Plan,
         SameButFlags, Inv, CanonicalBlocks, TopId, AncestorAt, AncestorHeight, Branch, Ancestor;
    InvParts(host, book, genesis, s);
    TopIdIs(host, book, genesis, s);
    BeginsPlan(host, book, genesis, s, newTip);
    UnwindFromInv(host, book, genesis, s, AncestorHeight(s, newTip));
  }

  lemma StopChainIs(host: Host, book: Book, clock: nat -> nat, s: Chain, newTip: string)
    requires WellFormed(s.records) && Linked(s)
    ensures var c := StopChain(host, book, clock, s, newTip);
            && (!Begins(s, newTip) ==> c == CanonicalBlocks(s))
            && (Begins(s, newTip) ==>
                  var k := AncestorHeight(s, newTip);
                  var f := Floor(s.undo, CanonicalBlocks(s), k);
                  var bs := Branch(s, newTip).value;
                  var n := AppliedCount(host, book, clock, Unwinding(s, newTip).0, bs);
                  && (f > k ==> c == CanonicalBlocks(s)[..f])
                  && (f == k ==> c == CanonicalBlocks(s)[..k] + Stripped(bs[..n])))
  {
    hide WellFormed, Linked, CanonicalBlocks, Unwinding, Branch, AncestorHeight, Floor, AppliedCount;
  }

  /** Every outcome from a replayed state: the invariant survives exactly when no applied block's root
      mismatched, and the tip then is the top of the stopping chain. */
  lemma ReorgFromInv(host: Host, book: Book, clock: nat -> nat, genesis: Core, s: Chain, newTip: string)
    requires Inv(host, book, genesis, s)
    ensures var (t, r) := Reorg(host, book, clock, s, newTip);
            && (Inv(host, book, genesis, t) <==> r != Err(RootMismatch))
            && (Inv(host, book, genesis, t) ==> CanonicalBlocks(t) == StopChain(host, book, clock, s, newTip))
            && TipWeight(t) == TopWeight(StopChain(host, book, clock, s, newTip))
            && (r == Err(RootMismatch) ==> Overrun(t))
    ensures Inv(host, book, genesis, Unwound(s, newTip))
  {
    hide ExtendSnap, RestoreSnap, ReplayBlocks, WellFormed, Linked, UndoRowsOk, Plan, Reorg, SameButFlags, Inv,
         TopWeight, TipWeight, CanonicalBlocks, AncestorHeight, Branch, Ancestor, Unwinding, Begins, StopChain, Floor,
         AppliedCount;
    InvParts(host, book, genesis, s);
    ReorgPhases(host, book, clock, s, newTip);
    TipWeighsTop(host, book, genesis, s);
    StopChainIs(host, book, clock, s, newTip);
    if Begins(s, newTip) {
      UnwoundFromInv(host, book, genesis, s, newTip);
      TipWeighsTop(host, book, genesis, Unwinding(s, newTip).0);
      if Unwinding(s, newTip).1.Ok? {
        AppliesFromInv(host, book, clock, genesis, s, newTip);
      }
    }
  }

  /** From a replayed state a reorganisation wins exactly when the block is stored and heavier than the tip, its branch
      is stored, every block to undo has its undo row, and every block of the branch applies; and it declines
      exactly when there is no tip or the block is stored and no heavier. */
  lemma ReorgWinsIff(host: Host, book: Book, clock: nat -> nat, genesis: Core, s: Chain, newTip: string)
    requires Inv(host, book, genesis, s)
    ensures var r := Reorg(host, book, clock, s, newTip).1;
            && (r == Ok(true) <==>
                  && s.snap.tip.Some? && newTip in s.records
                  && s.records[newTip].cumWeight > s.snap.tip.value.cumWeight && Branch(s, newTip).Ok?
                  && (forall i :: AncestorHeight(s, newTip) <= i < |CanonicalBlocks(s)| ==>
                        CanonicalBlocks(s)[i].id in s.undo)
                  && AppliedCount(host, book, clock, Unwinding(s, newTip).0, Branch(s, newTip).value)
                     == |Branch(s, newTip).value|)
            && (r == Ok(false) <==>
                  s.snap.tip.None? || (newTip in s.records
                                       && s.records[newTip].cumWeight <= s.snap.tip.value.cumWeight))
  {
    hide ExtendSnap, RestoreSnap, ReplayBlocks, WellFormed, Linked, UndoRowsOk, Plan, SameButFlags, Inv,
         CanonicalBlocks, AncestorHeight, Unwinding, Floor, AppliedCount, Stacks, ApplyBranch, BranchTo, CommonAncestor,
         Unwind;
    InvParts(host, book, genesis, s);
    ReorgPhases(host, book, clock, s, newTip);
    if Begins(s, newTip) {
      UnwoundFromInv(host, book, genesis, s, newTip);
      TopIdIs(host, book, genesis, s);
      FloorReachedIff(s.undo, CanonicalBlocks(s), AncestorHeight(s, newTip));
      if Unwinding(s, newTip).1.Ok? {
        BranchWins(host, book, clock, genesis, s, newTip);
      }
    }
  }

  lemma BranchWins(host: Host, book: Book, clock: nat -> nat, genesis: Core, s: Chain, newTip: string)
    requires Inv(host, book, genesis, s) && Begins(s, newTip) && Unwinding(s, newTip).1.Ok?
    ensures Reorg(host, book, clock, s, newTip).1 == Ok(true) <==>
              AppliedCount(host, book, clock, Unwinding(s, newTip).0, Branch(s, newTip).value)
              == |Branch(s, newTip).value|
    ensures Reorg(host, book, clock, s, newTip).1 != Ok(false)
  {
    hide ExtendSnap, RestoreSnap, ReplayBlocks, WellFormed, Linked, UndoRowsOk, Plan, Reorg, Stacks, SameButFlags, Inv,
         TopWeight, TipWeight, CanonicalBlocks, AncestorHeight, Unwinding, Branch, ApplyBranch, Floor;
    InvParts(host, book, genesis, s);
    UnwoundFromInv(host, book, genesis, s, newTip);
    InvParts(host, book, genesis, Unwinding(s, newTip).0);
    ReorgApplies(host, book, clock, s, newTip);
    PlanStacks(s, Unwinding(s, newTip).0, newTip, AncestorHeight(s, newTip), Branch(s, newTip).value);
    BranchFromInv(host, book, clock, genesis, Unwinding(s, newTip).0, Branch(s, newTip).value);
  }

  // ----- a branch on top of the tip

  // Weights and flags aside, the two stores hold one forest.
  ghost predicate SameForest(a: map<string, BlockRecord>, b: map<string, BlockRecord>) {
    && WellFormed(a) && WellFormed(b) && a.Keys == b.Keys
    && forall id :: id in a ==> Placement(a[id]) == Placement(b[id])
  }

  lemma SameParents(a: map<string, BlockRecord>, b: map<string, BlockRecord>, cur: Option<string>)
    requires SameForest(a, b)
    ensures Rank(a, cur) == Rank(b, cur)
    ensures cur.Some? ==> Parent(a, cur.value) == Parent(b, cur.value)
  {
    hide WellFormed;
    if cur.Some? && cur.value in a {
      var ar := Placement(a[cur.value]);
      assert ar.height == a[cur.value].height && ar.parent == a[cur.value].parent;
      var br := Placement(b[cur.value]);
      assert br.height == b[cur.value].height && br.parent == b[cur.value].parent;
    }
  }

  lemma {:induction false} SameWalks(a: map<string, BlockRecord>, b: map<string, BlockRecord>, stop: set<string>,
                                     cur: Option<string>)
    requires SameForest(a, b)
    ensures AncestorIds(a, cur) == AncestorIds(b, cur) && ClimbTo(a, stop, cur) == ClimbTo(b, stop, cur)
    decreases Rank(a, cur)
  {
    hide WellFormed, Placement;
    SameParents(a, b, cur);
    if cur.Some? {
      ParentRanksLower(a, cur.value);
      SameWalks(a, b, stop, Parent(a, cur.value));
    }
  }

  lemma {:induction false} SameBranch(a: map<string, BlockRecord>, b: map<string, BlockRecord>, ancestor: string,
                                      cur: Option<string>)
    requires SameForest(a, b) && BranchTo(a, ancestor, cur).Ok?
    ensures BranchTo(b, ancestor, cur).Ok?
    ensures var (x, y) := (BranchTo(a, ancestor, cur).value, BranchTo(b, ancestor, cur).value);
            |x| == |y| && forall i :: 0 <= i < |x| ==> x[i].id == y[i].id
    decreases Rank(a, cur)
  {
    hide WellFormed, Placement;
    SameParents(a, b, cur);
    if cur.Some? && cur.value != ancestor {
      ParentRanksLower(a, cur.value);
      ParentRanksLower(b, cur.value);
      SameBranch(a, b, ancestor, Parent(a, cur.value));
      StoredRowOk(a, cur.value);
      StoredRowOk(b, cur.value);
    }
  }

  // A branch whose blocks outweigh their parents, put on top of the chain, lowers no weight.
  lemma {:induction false} TopBranchOutweighs(s: Chain, newTip: string, bs: seq<BlockRecord>, n: nat)
    requires WellFormed(s.records) && Linked(s) && s.snap.core.counters.height > 0 && n <= |bs|
    requires Plan(s, newTip, s.snap.core.counters.height, bs)
    requires forall i :: 0 <= i < |bs| ==> Outweighs(s.records, bs[i].id)
    ensures TopWeight(CanonicalBlocks(s) + Stripped(bs[..n])) >= TopWeight(CanonicalBlocks(s))
  {
    hide WellFormed, Linked;
    var blocks := CanonicalBlocks(s);
    if n > 0 {
      TopBranchOutweighs(s, newTip, bs, n - 1);
      assert Outweighs(s.records, bs[n - 1].id);
      var below := blocks + Stripped(bs[..n - 1]);
      assert (blocks + Stripped(bs[..n]))[|blocks| + n - 1] == Strip(bs[n - 1]);
      if n == 1 {
        CanonicalRow(s, |blocks|);
        assert below == blocks;
      } else {
        assert below[|below| - 1] == Strip(bs[n - 2]);
      }
    }
  }

  ghost predicate BranchOutweighs(s: Chain, newTip: string)
    requires WellFormed(s.records) && Begins(s, newTip)
  {
    forall i :: 0 <= i < |Branch(s, newTip).value| ==> Outweighs(s.records, Branch(s, newTip).value[i].id)
  }

  // Only undoing the tip can leave a lighter one.
  lemma LighterIsUnwound(host: Host, book: Book, clock: nat -> nat, genesis: Core, s: Chain, newTip: string)
    requires Inv(host, book, genesis, s) && TopWeight(StopChain(host, book, clock, s, newTip)) < TipWeight(s)
    requires Begins(s, newTip) && AncestorHeight(s, newTip) == s.snap.core.counters.height ==>
               BranchOutweighs(s, newTip)
    ensures Begins(s, newTip) && Ancestor(s, newTip) != s.snap.tip.value.blockId && s.snap.tip.value.blockId in s.undo
  {
    hide ExtendSnap, RestoreSnap, ReplayBlocks, WellFormed, Linked, UndoRowsOk, Plan, SameButFlags, Inv, TopWeight,
         TipWeight, CanonicalBlocks, AncestorHeight, Branch, Ancestor, Unwinding, StopChain, AppliedCount, AncestorAt,
         Floor;
    InvParts(host, book, genesis, s);
    TopIdIs(host, book, genesis, s);
    TipWeighsTop(host, book, genesis, s);
    StopChainIs(host, book, clock, s, newTip);
    assert Begins(s, newTip);
    BeginsPlan(host, book, genesis, s, newTip);
    UnwoundFromInv(host, book, genesis, s, newTip);
    var k, blocks := AncestorHeight(s, newTip), CanonicalBlocks(s);
    assert blocks[..|blocks|] == blocks;
    if k == |blocks| {
      FloorAtTop(s.undo, blocks, k);
      TopBranchOutweighs(s, newTip, Branch(s, newTip).value,
                         AppliedCount(host, book, clock, Unwinding(s, newTip).0, Branch(s, newTip).value));
    } else {
      AboveAncestor(s, k);
      if s.snap.tip.value.blockId !in s.undo {
        FloorAtTop(s.undo, blocks, k);
      }
    }
  }

  lemma FloorAtTop(undo: map<string, BlockUndo>, blocks: seq<BlockRecord>, k: nat)
    requires k <= |blocks|
    requires k == |blocks| || blocks[|blocks| - 1].id !in undo
    ensures Floor(undo, blocks, k) == |blocks|
  {
  }

  // ----- the block store through a reorganisation

  lemma {:induction false} UnwindKeepsFlags(s: Chain, cur: Option<string>, ancestor: string)
    requires WellFormed(s.records)
    ensures SameButFlags(s.records, Unwind(s, cur, ancestor).0.records)
    decreases Rank(s.records, cur)
  {
    hide UnwindOne, WellFormed, SameButFlags;
    SameFlagsSelf(s.records);
    if cur.Some? && cur.value != ancestor {
      var (t, r) := UnwindOne(s, cur.value);
      UnwindStep(s, cur.value, ancestor);
      UnwindOneFlags(s, cur.value);
      if r.Ok? {
        FlagsKeepWellFormed(s.records, t.records);
        ParentRanksLower(s.records, cur.value);
        UnwindKeepsFlags(t, r.value, ancestor);
        FlagsCompose(s.records, t.records, Unwind(t, r.value, ancestor).0.records);
      }
    }
  }

  lemma ForwardKeepsFlags(host: Host, book: Book, now: nat, s: Chain, b: BlockRecord)
    requires |b.hashes| == |b.txs| && b.id in s.records && Strip(s.records[b.id]) == Strip(b)
    ensures SameButFlags(s.records, Forward(host, book, now, s, b).0.records)
  {
    hide CommitRow, ZkClaimsOk, RewardForBlock;
    if CommitRow(host, book, now, s, b).1.Ok? {
      CommitExtends(host, book, now, s, b);
    } else {
      FailedCommit(host, book, now, s, b);
    }
  }

  lemma {:induction false} BranchKeepsFlags(host: Host, book: Book, clock: nat -> nat, s: Chain, bs: seq<BlockRecord>)
    requires HashesListed(bs) && StoredExactly(s.records, Stripped(bs))
    ensures SameButFlags(s.records, ApplyBranch(host, book, clock, s, bs).0.records)
    decreases |bs|
  {
    hide Forward, SameButFlags;
    SameFlagsSelf(s.records);
    if bs != [] {
      var (t, r) := Forward(host, book, clock(bs[0].height), s, bs[0]);
      assert Stripped(bs)[0] == Strip(bs[0]);
      ForwardKeepsFlags(host, book, clock(bs[0].height), s, bs[0]);
      BranchStep(host, book, clock, s, bs);
      if r.Ok? {
        forall i | 0 <= i < |bs[1..]| ensures Stripped(bs[1..])[i] == Stripped(bs)[i + 1] {
        }
        FlagsKeepStored(s.records, t.records, Stripped(bs[1..]));
        BranchKeepsFlags(host, book, clock, t, bs[1..]);
        FlagsCompose(s.records, t.records, ApplyBranch(host, book, clock, t, bs[1..]).0.records);
      }
    }
  }

  // Whatever becomes of it, a reorganisation changes nothing in the block store but canonical flags.
  lemma ReorgKeepsFlags(host: Host, book: Book, clock: nat -> nat, s: Chain, newTip: string)
    requires WellFormed(s.records)
    ensures SameButFlags(s.records, Reorg(host, book, clock, s, newTip).0.records)
  {
    hide Unwind, ApplyBranch, BranchTo, CommonAncestor, Reorg, SameButFlags;
    ReorgPhases(host, book, clock, s, newTip);
    SameFlagsSelf(s.records);
    if Begins(s, newTip) {
      UnwindKeepsFlags(s, Some(s.snap.tip.value.blockId), Ancestor(s, newTip));
      var u, bs := Unwinding(s, newTip).0, Branch(s, newTip).value;
      if Unwinding(s, newTip).1.Ok? {
        ReorgApplies(host, book, clock, s, newTip);
        BranchRowsOk(s.records, Ancestor(s, newTip), Some(newTip));
        FlagsKeepStored(s.records, u.records, Stripped(bs));
        BranchKeepsFlags(host, book, clock, u, bs);
        FlagsCompose(s.records, u.records, ApplyBranch(host, book, clock, u, bs).0.records);
      }
    }
  }

  // ----- money

  /** Circulation plus burned and supply minus circulation are the same, and nothing has saturated. */
  ghost predicate SameMoney(a: Core, b: Core) {
    && Sum(b.balances) + b.counters.burned == Sum(a.balances) + a.counters.burned
    && b.counters.supply - Sum(b.balances) == a.counters.supply - Sum(a.balances)
    && SoundCore(b)
  }

  lemma MoneyCompose(a: Core, b: Core, c: Core)
    requires SameMoney(a, b) && SameMoney(b, c)
    ensures SameMoney(a, c)
  {
  }

  lemma CommitConserves(host: Host, book: Book, now: nat, s: Chain, b: BlockRecord)
    requires SoundCore(s.snap.core)
    ensures SameMoney(s.snap.core, CommitRow(host, book, now, s, b).0.snap.core)
  {
    hide ApplyBlock, PrepareUndo, SoundCore, IndexRows;
    if ApplyBlock(host, book, s.snap.core, now, b.height, b.txs, b.hashes, b.producer, b.reward.total).Ok? {
      BlockConserves(host, book, s.snap.core, now, b.height, b.txs, b.hashes, b.producer, b.reward.total);
    }
  }

  lemma {:induction false} BranchConserves(host: Host, book: Book, clock: nat -> nat, s: Chain, bs: seq<BlockRecord>)
    requires SoundCore(s.snap.core) && HashesListed(bs)
    ensures SameMoney(s.snap.core, ApplyBranch(host, book, clock, s, bs).0.snap.core)
    decreases |bs|
  {
    hide CommitRow, ZkClaimsOk, RewardForBlock, Sum;
    if bs != [] {
      var t := Forward(host, book, clock(bs[0].height), s, bs[0]).0;
      CommitConserves(host, book, clock(bs[0].height), s, bs[0]);
      BranchStep(host, book, clock, s, bs);
      if Forward(host, book, clock(bs[0].height), s, bs[0]).1.Ok? {
        BranchConserves(host, book, clock, t, bs[1..]);
        MoneyCompose(s.snap.core, t.snap.core, ApplyBranch(host, book, clock, t, bs[1..]).0.snap.core);
      }
    }
  }

  // Past its unwinding a reorganisation conserves, from any state and however it ends.
  lemma ReorgConserves(host: Host, book: Book, clock: nat -> nat, s: Chain, newTip: string)
    requires WellFormed(s.records) && SoundCore(Unwound(s, newTip).snap.core)
    ensures SameMoney(Unwound(s, newTip).snap.core, Reorg(host, book, clock, s, newTip).0.snap.core)
  {
    hide Unwind, ApplyBranch, BranchTo, CommonAncestor, Reorg, Sum;
    ReorgPhases(host, book, clock, s, newTip);
    if Begins(s, newTip) && Unwinding(s, newTip).1.Ok? {
      ReorgApplies(host, book, clock, s, newTip);
      BranchConserves(host, book, clock, Unwinding(s, newTip).0, Branch(s, newTip).value);
    }
  }

  // A replayed state holds the genesis money.
  lemma InvConserves(host: Host, book: Book, genesis: Core, s: Chain)
    requires Inv(host, book, genesis, s) && SoundCore(genesis)
    ensures SameMoney(genesis, s.snap.core)
  {
    hide ExtendSnap, RestoreSnap, ReplayBlocks, Linked, WellFormed, UndoRowsOk, Sum;
    ReplayConserves(host, book, genesis, CanonicalBlocks(s));
  }

  // ----- what one undo moves, from any state

  ghost function Kept<K(!new), V>(tree: map<K, V>, keys: set<K>): map<K, V> {
    map k | k in tree && k in keys :: tree[k]
  }

  ghost function PutBack<K(!new), V>(kvs: map<K, Option<V>>): map<K, V> {
    map k | k in kvs && kvs[k].Some? :: kvs[k].value
  }

  lemma SumOfNothing<K>()
    ensures var m: map<K, nat> := map[]; Sum(m) == 0
  {
  }

  lemma PartsWithout<K>(a: map<K, nat>, b: map<K, nat>, k: K)
    requires a.Keys !! b.Keys && k in b
    ensures a + b == (a + (b - {k}))[k := b[k]] && k !in a + (b - {k})
  {
  }

  lemma {:induction false} SumOfParts<K>(a: map<K, nat>, b: map<K, nat>)
    requires a.Keys !! b.Keys
    ensures Sum(a + b) == Sum(a) + Sum(b)
    decreases |b|
  {
    hide Sum;
    if b == map[] {
      assert a + b == a && Sum(b) == 0 by {
        SumOfNothing<K>();
      }
    } else {
      var k :| k in b;
      var c := b - {k};
      assert b.Keys == c.Keys + {k};
      SumOfParts(a, c);
      PartsWithout(a, b, k);
      SumUpdate(a + c, k, b[k]);
      SumRemove(b, k);
    }
  }

  lemma RestoreMoves<K(!new)>(tree: map<K, nat>, kvs: map<K, Option<nat>>)
    ensures Sum(Restored(tree, kvs)) + Sum(Kept(tree, kvs.Keys)) == Sum(tree) + Sum(PutBack(kvs))
  {
    var rest := tree - kvs.Keys;
    assert Restored(tree, kvs) == rest + PutBack(kvs);
    assert tree == rest + Kept(tree, kvs.Keys);
    SumOfParts(rest, PutBack(kvs));
    SumOfParts(rest, Kept(tree, kvs.Keys));
  }

  /** Undoing a block keeps circulation plus burned exactly when what its row puts back is what stands in
      the captured places. */
  lemma UndoConservesIff(s: Chain, id: string)
    requires id in s.undo
    ensures var (u, c) := (s.undo[id], s.snap.core);
            var t := ApplyUndo(s, id).value.snap.core;
            Sum(t.balances) + t.counters.burned == Sum(c.balances) + c.counters.burned <==>
              Sum(PutBack(u.balances)) + (if Burned in u.counters then u.counters[Burned] else c.counters.burned)
              == Sum(Kept(c.balances, u.balances.Keys)) + c.counters.burned
  {
    hide Restored, Sum;
    RestoreMoves(s.snap.core.balances, s.undo[id].balances);
  }
}
