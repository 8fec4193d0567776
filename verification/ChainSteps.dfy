/** What one commit, one unwinding and one reorganisation do to the chain invariant, failures included. */
module ChainSteps {
  import opened Basics
  import opened Text
  import opened Protocol
  import opened BlockApply
  import opened Caac
  import opened Undo
  import opened Consensus
  import opened Replay
  import opened ReorgLaws
  import opened ForkChoiceLaws

  // ----- steps that leave the canonical chain alone

  // The canonical blocks are stored, and each names the one below.
  lemma CanonicalStored(s: Chain)
    requires WellFormed(s.records) && Linked(s)
    ensures StoredExactly(s.records, CanonicalBlocks(s)) && ParentLinked(CanonicalBlocks(s))
    ensures Numbered(CanonicalBlocks(s)) && |CanonicalBlocks(s)| == s.snap.core.counters.height
  {
    hide WellFormed, Linked;
    var blocks := CanonicalBlocks(s);
    forall i | 0 <= i < |blocks|
      ensures blocks[i].id in s.records && Strip(s.records[blocks[i].id]) == blocks[i] && blocks[i].height == i + 1
    {
      CanonicalRow(s, i + 1);
    }
    forall i, j | 0 <= i < |blocks| && 0 <= j < |blocks| && j == i + 1 ensures blocks[j].parent == Some(blocks[i].id) {
      CanonicalRow(s, j + 1);
    }
  }

  // Only the rows of the canonical chain and the shape of the store matter.
  lemma OtherRecordsKeepInv(host: Host, book: Book, genesis: Core, s: Chain, records: map<string, BlockRecord>)
    requires Inv(host, book, genesis, s) && WellFormed(records) && StoredExactly(records, CanonicalBlocks(s))
    ensures Inv(host, book, genesis, s.(records := records))
    ensures CanonicalBlocks(s.(records := records)) == CanonicalBlocks(s)
  {
    hide ExtendSnap, RestoreSnap, ReplayBlocks, RowRestores, WellFormed, Linked;
    var t, blocks := s.(records := records), CanonicalBlocks(s);
    CanonicalStored(s);
    InvFromBlocks(host, book, genesis, t, blocks);
  }

  /** What the code leaves to its callers: a stored block sits one above its parent, height-1 blocks
      name none, heights are u64, and no candidate overwrites a canonical row. */
  ghost predicate Placeable(s: Chain, row: BlockRecord) {
    var records := s.records[row.id := row];
    && (forall id :: id in records ==> Placed(records, id))
    && row.id !in s.snap.canonical.Values
    && row.height <= U64_MAX
  }

  lemma PlacedRowWeighs(s: Chain, row: BlockRecord, weight: nat)
    requires WellFormed(s.records) && Placeable(s, row) && weight <= 1_100
    requires row.cumWeight == CumWeight(s.records, row.parent, weight)
    ensures WellFormed(s.records[row.id := row])
  {
    var records := s.records[row.id := row];
    forall id | id in records ensures RowOk(records, id) {
      assert Placed(records, id);
      if id == row.id {
        if row.parent.Some? && row.parent.value in s.records {
          assert RowOk(s.records, row.parent.value);
          assert row.parent.value in records;
        }
      } else {
        assert RowOk(s.records, id);
      }
    }
  }

  lemma OffChainRowKeepsCanonical(s: Chain, row: BlockRecord)
    requires WellFormed(s.records) && Linked(s) && row.id !in s.snap.canonical.Values
    ensures StoredExactly(s.records[row.id := row], CanonicalBlocks(s))
  {
    hide WellFormed, Linked;
    var blocks := CanonicalBlocks(s);
    forall i | 0 <= i < |blocks|
      ensures blocks[i].id in s.records[row.id := row] && Strip(s.records[row.id := row][blocks[i].id]) == blocks[i]
    {
      CanonicalRow(s, i + 1);
      assert s.snap.canonical[i + 1] in s.snap.canonical.Values;
    }
  }

  lemma PruneKeepsInv(host: Host, book: Book, genesis: Core, s: Chain, depth: nat)
    requires Inv(host, book, genesis, s)
    ensures Inv(host, book, genesis, s.(undo := Pruned(s.undo, s.snap.core.counters.height, depth)))
  {
    hide ExtendSnap, RestoreSnap, ReplayBlocks, WellFormed;
    var t := s.(undo := Pruned(s.undo, s.snap.core.counters.height, depth));
    assert forall h :: LinkAt(s, h) <==> LinkAt(t, h);
    assert CanonicalBlocks(t) == CanonicalBlocks(s);
  }

  // ----- a new block on the tip

  /** A row for the next height, naming the top block, whose id is new to the canonical chain. */
  ghost predicate OnTop(s: Chain, row: BlockRecord) {
    && WellFormed(s.records[row.id := row])
    && row.height == s.snap.core.counters.height + 1
    && row.id !in s.snap.canonical.Values
    && (row.height > 1 ==> row.height - 1 in s.snap.canonical
                           && row.parent == Some(s.snap.canonical[row.height - 1]))
  }

  lemma OnTopParts(s: Chain, row: BlockRecord)
    requires OnTop(s, row)
    ensures row.id !in s.snap.canonical.Values && row.height == s.snap.core.counters.height + 1
    ensures |row.hashes| == |row.txs|
  {
    assert RowOk(s.records[row.id := row], row.id);
  }

  // The row on its own is the plan of an extension.
  lemma OneRowPlan(s: Chain, row: BlockRecord)
    requires WellFormed(s.records) && Linked(s) && OnTop(s, row) && s.records[row.id := row] == s.records
    ensures Plan(s, row.id, |CanonicalBlocks(s)|, [row])
  {
    hide Linked;
    assert RowOk(s.records, row.id);
    if row.height > 1 {
      CanonicalRow(s, row.height - 1);
    }
  }

  lemma OnTopOfStored(s: Chain, u: Chain, row: BlockRecord)
    requires OnTop(s, row) && u == s.(records := s.records[row.id := row])
    ensures OnTop(u, row)
  {
    hide WellFormed;
    assert u.records[row.id := row] == u.records;
  }

  lemma ExtendKeepsInv(host: Host, book: Book, genesis: Core, now: nat, s: Chain, row: BlockRecord)
    requires Inv(host, book, genesis, s) && OnTop(s, row) && CommitRow(host, book, now, s, row).1.Ok?
    ensures var t := CommitRow(host, book, now, s, row).0;
            Inv(host, book, genesis, t) && CanonicalBlocks(t) == CanonicalBlocks(s) + [Strip(row)]
  {
    hide ExtendSnap, RestoreSnap, ReplayBlocks, RowRestores, WellFormed, Linked, UndoRowsOk, CommitRow, Continues, Plan;
    var t, blocks := CommitRow(host, book, now, s, row).0, CanonicalBlocks(s);
    OnTopParts(s, row);
    CommitExtends(host, book, now, s, row);
    // As if the row had been stored before it was committed.
    var u := s.(records := s.records[row.id := row]);
    OffChainRowKeepsCanonical(s, row);
    OtherRecordsKeepInv(host, book, genesis, s, u.records);
    StripExtends(host, book, s.snap, row);
    ContinuesNothing(host, book, genesis, blocks, u);
    assert t.records == u.records[row.id := Strip(row)];
    ContinuesOneMore(host, book, genesis, blocks, u, [], u, row, t);
    assert [] + [row] == [row] && blocks[..|blocks|] == blocks && Stripped([row]) == [Strip(row)];
    OnTopOfStored(s, u, row);
    OneRowPlan(u, row);
    PlanApplied(host, book, genesis, u, u, row.id, |blocks|, [row], t);
  }

  // ----- reweighing a backfilled branch

  lemma {:induction false} ReweighedKeeps(host: Host, records: map<string, BlockRecord>, blocks: seq<BlockRecord>)
    requires WellFormed(records) && PlacedAs(records, blocks)
    ensures var r := Reweighed(host, records, blocks);
            && WellFormed(r) && r.Keys == records.Keys
            && (forall id :: id in records && id !in Ids(blocks) ==> r[id] == records[id])
            && (forall id :: id in records ==> Placement(r[id]) == Placement(records[id]))
    decreases |blocks|
  {
    if blocks != [] {
      var b := blocks[0];
      var weight := ProducerWeight(host, b.producer);
      var row := b.(weight := weight, cumWeight := CumWeight(records, b.parent, weight), canonical := false);
      var next := records[b.id := row];
      ReweighOneKeeps(records, row, weight);
      assert PlacedAs(records, blocks[1..]) by {
        forall i | 0 <= i < |blocks[1..]| ensures blocks[1..][i] == blocks[i + 1] {
        }
      }
      PlacementKept(records, row, blocks[1..]);
      ReweighedKeeps(host, next, blocks[1..]);
      forall id | id in records && id !in Ids(blocks) ensures Reweighed(host, records, blocks)[id] == records[id] {
        assert blocks[0].id in Ids(blocks);
        assert id !in Ids(blocks[1..]) by {
          assert forall i :: 0 <= i < |blocks[1..]| ==> blocks[1..][i] == blocks[i + 1];
        }
      }
    }
  }

  // A record apart from its weights and flag.
  function Placement(b: BlockRecord): BlockRecord {
    b.(weight := 0, cumWeight := 0, canonical := true)
  }

  lemma ReweighOneKeeps(records: map<string, BlockRecord>, row: BlockRecord, weight: nat)
    requires WellFormed(records) && row.id in records && Placement(records[row.id]) == Placement(row) && weight <= 1_100
    requires row.cumWeight == CumWeight(records, row.parent, weight)
    ensures WellFormed(records[row.id := row])
  {
    var next := records[row.id := row];
    assert RowOk(records, row.id) && Placement(records[row.id]).height == row.height;
    assert Placement(records[row.id]).parent == row.parent && Placement(records[row.id]).txs == row.txs
           && Placement(records[row.id]).hashes == row.hashes && Placement(records[row.id]).id == row.id;
    forall id | id in next ensures RowOk(next, id) {
      assert RowOk(records, id);
      if row.parent.Some? && row.parent.value in records {
        assert RowOk(records, row.parent.value);
      }
    }
  }

  /** A block outweighs its parent, when that is stored. */
  ghost predicate Outweighs(records: map<string, BlockRecord>, id: string) {
    && id in records
    && var r := records[id];
       r.parent.Some? && r.parent.value in records ==> r.cumWeight > records[r.parent.value].cumWeight
  }

  ghost predicate Rising(blocks: seq<BlockRecord>) {
    forall i, j :: 0 <= i < j < |blocks| ==> blocks[i].height < blocks[j].height
  }

  ghost predicate PlacedAs(records: map<string, BlockRecord>, blocks: seq<BlockRecord>) {
    forall i :: 0 <= i < |blocks| ==>
      blocks[i].id in records && Placement(records[blocks[i].id]) == Placement(blocks[i])
  }

  // Blocks that sit higher are other blocks, and no parent is among them.
  lemma HigherBlocks(records: map<string, BlockRecord>, b: BlockRecord, blocks: seq<BlockRecord>)
    requires WellFormed(records) && PlacedAs(records, [b] + blocks) && Rising([b] + blocks)
    ensures b.id !in Ids(blocks)
    ensures b.parent.Some? && b.parent.value in records ==>
              && b.parent.value != b.id && b.parent.value !in Ids(blocks)
              && records[b.parent.value].cumWeight <= U64_MAX * 1_100
    ensures PlacedAs(records, blocks) && Rising(blocks)
  {
    var all := [b] + blocks;
    assert all[0] == b && forall i :: 0 <= i < |blocks| ==> all[i + 1] == blocks[i];
    assert Placement(records[all[0].id]) == Placement(b) && RowOk(records, b.id);
    assert Placement(records[b.id]).height == b.height && Placement(records[b.id]).parent == b.parent;
    forall i | 0 <= i < |blocks| ensures Placement(records[blocks[i].id]).height == blocks[i].height > b.height {
      assert Placement(records[all[i + 1].id]) == Placement(all[i + 1]);
    }
    if b.parent.Some? && b.parent.value in records {
      assert RowOk(records, b.parent.value);
    }
  }

  /** A block weighs what its producer's record says, and its parent's stored weight together with that. */
  ghost predicate WeighedRight(host: Host, records: map<string, BlockRecord>, id: string) {
    && id in records
    && var r := records[id];
       && r.weight == WeightFromRecord(host.caac(Norm(r.producer)))
       && r.cumWeight == r.weight + if r.parent.Some? && r.parent.value in records
                                    then records[r.parent.value].cumWeight else 0
  }

  lemma WeighedOutweighs(host: Host, records: map<string, BlockRecord>, id: string)
    requires WeighedRight(host, records, id)
    ensures Outweighs(records, id)
  {
  }

  // Weighing a branch again, lowest block first, leaves every one of its blocks weighed right.
  lemma {:induction false} ReweighedIsRight(host: Host, records: map<string, BlockRecord>, blocks: seq<BlockRecord>)
    requires WellFormed(records) && PlacedAs(records, blocks) && Rising(blocks)
    ensures forall i :: 0 <= i < |blocks| ==> WeighedRight(host, Reweighed(host, records, blocks), blocks[i].id)
    decreases |blocks|
  {
    hide WellFormed, Ids, WeightFromRecord, Norm;
    if blocks != [] {
      var b, more := blocks[0], blocks[1..];
      assert blocks == [b] + more;
      HigherBlocks(records, b, more);
      var weight := ProducerWeight(host, b.producer);
      var row := b.(weight := weight, cumWeight := CumWeight(records, b.parent, weight), canonical := false);
      var next := records[b.id := row];
      ReweighOneKeeps(records, row, weight);
      PlacementKept(records, row, more);
      ReweighedIsRight(host, next, more);
      ReweighedKeeps(host, next, more);
      var r := Reweighed(host, next, more);
      assert r[b.id] == row;
      forall i | 0 <= i < |blocks| ensures WeighedRight(host, r, blocks[i].id) {
        if i > 0 {
          assert blocks[i] == more[i - 1];
        }
      }
    }
  }

  lemma ReweighedOutweighs(host: Host, records: map<string, BlockRecord>, blocks: seq<BlockRecord>)
    requires WellFormed(records) && PlacedAs(records, blocks) && Rising(blocks)
    ensures forall i :: 0 <= i < |blocks| ==> Outweighs(Reweighed(host, records, blocks), blocks[i].id)
  {
    hide WellFormed, WeighedRight, Outweighs, Reweighed, Rising, PlacedAs;
    ReweighedIsRight(host, records, blocks);
    forall i | 0 <= i < |blocks| ensures Outweighs(Reweighed(host, records, blocks), blocks[i].id) {
      WeighedOutweighs(host, Reweighed(host, records, blocks), blocks[i].id);
    }
  }

  lemma PlacementKept(records: map<string, BlockRecord>, row: BlockRecord, blocks: seq<BlockRecord>)
    requires PlacedAs(records, blocks) && row.id in records && Placement(records[row.id]) == Placement(row)
    ensures PlacedAs(records[row.id := row], blocks)
  {
    forall i | 0 <= i < |blocks|
      ensures blocks[i].id in records[row.id := row]
      ensures Placement(records[row.id := row][blocks[i].id]) == Placement(blocks[i])
    {
      assert Placement(records[blocks[i].id]) == Placement(blocks[i]);
    }
  }

  lemma PlanIsOffChain(s: Chain, newTip: string, k: nat, bs: seq<BlockRecord>)
    requires Linked(s) && Plan(s, newTip, k, bs)
    ensures PlacedAs(s.records, bs) && Rising(bs)
    ensures Ids(bs) !! s.snap.canonical.Values
  {
    hide Linked;
  }

  lemma CanonicalRowsStay(s: Chain, records: map<string, BlockRecord>)
    requires WellFormed(s.records) && Linked(s) && records.Keys == s.records.Keys
    requires forall id :: id in s.records && id in s.snap.canonical.Values ==> records[id] == s.records[id]
    ensures StoredExactly(records, CanonicalBlocks(s))
  {
    hide WellFormed, Linked;
    var blocks := CanonicalBlocks(s);
    forall i | 0 <= i < |blocks| ensures blocks[i].id in records && Strip(records[blocks[i].id]) == blocks[i] {
      CanonicalRow(s, i + 1);
      assert s.snap.canonical[i + 1] in s.snap.canonical.Values;
    }
  }

  lemma ReweighedRowsStored(host: Host, book: Book, genesis: Core, s: Chain, newTip: string, bs: seq<BlockRecord>)
    requires Inv(host, book, genesis, s) && newTip in s.records && s.snap.tip.Some?
    requires BranchTo(s.records, CommonAncestor(s.records, s.snap.tip.value.blockId, newTip), Some(newTip)) == Ok(bs)
    ensures StoredExactly(Reweighed(host, s.records, bs), CanonicalBlocks(s))
    ensures WellFormed(Reweighed(host, s.records, bs))
  {
    hide ReplayBlocks, WellFormed, Linked, UndoRowsOk, Reweighed, BranchTo, CommonAncestor, Plan, StoredExactly, Ids;
    InvShape(host, book, genesis, s);
    var k := PlanExists(s, s.snap.tip.value.blockId, newTip);
    PlanIsOffChain(s, newTip, k, bs);
    ReweighedKeeps(host, s.records, bs);
    CanonicalRowsStay(s, Reweighed(host, s.records, bs));
  }

  lemma ReweighedStoreKeepsInv(host: Host, book: Book, genesis: Core, s: Chain, newTip: string)
    requires Inv(host, book, genesis, s)
    ensures Inv(host, book, genesis, ReweighedStore(host, s, newTip))
    ensures ReweighedStore(host, s, newTip).snap == s.snap
    ensures CanonicalBlocks(ReweighedStore(host, s, newTip)) == CanonicalBlocks(s)
  {
    hide ReplayBlocks, WellFormed, Linked, UndoRowsOk, Inv, Reweighed, BranchTo, CommonAncestor, StoredExactly;
    InvParts(host, book, genesis, s);
    if newTip in s.records && s.snap.tip.Some? {
      var branch := BranchTo(s.records, CommonAncestor(s.records, s.snap.tip.value.blockId, newTip), Some(newTip));
      if branch.Ok? {
        ReweighedRowsStored(host, book, genesis, s, newTip, branch.value);
        OtherRecordsKeepInv(host, book, genesis, s, Reweighed(host, s.records, branch.value));
      }
    }
  }

  // ----- one block committed or undone

  lemma StrayUndoKeepsInv(host: Host, book: Book, genesis: Core, s: Chain, id: string, u: BlockUndo)
    requires Inv(host, book, genesis, s) && id !in s.snap.canonical.Values
    ensures Inv(host, book, genesis, s.(undo := s.undo[id := u]))
    ensures CanonicalBlocks(s.(undo := s.undo[id := u])) == CanonicalBlocks(s)
  {
    hide ExtendSnap, RestoreSnap, ReplayBlocks, WellFormed, Linked, RowRestores;
    var t, blocks := s.(undo := s.undo[id := u]), CanonicalBlocks(s);
    CanonicalStored(s);
    forall i | 0 <= i < |blocks| ensures blocks[i].id != id {
      CanonicalRow(s, i + 1);
      assert s.snap.canonical[i + 1] in s.snap.canonical.Values;
    }
    InvFromBlocks(host, book, genesis, t, blocks);
  }

  // What a failed commit leaves: the new undo row and, past the apply, the applied ledger.
  lemma FailedCommit(host: Host, book: Book, now: nat, s: Chain, b: BlockRecord)
    requires CommitRow(host, book, now, s, b).1.Err?
    ensures var (t, r) := CommitRow(host, book, now, s, b);
            && b.id in t.undo && t == s.(undo := s.undo[b.id := t.undo[b.id]], snap := s.snap.(core := t.snap.core))
            && (r.error != RootMismatch ==> t.snap == s.snap)
            && (r.error == RootMismatch ==> t.snap.core.counters.height == b.height)
  {
    hide PrepareUndo, ApplyTxs, ApplyReward;
  }

  // The record of the new height is missing.
  lemma AppliedUnrecorded(s: Chain, t: Chain)
    requires Linked(s) && t.snap.canonical == s.snap.canonical
    requires t.snap.core.counters.height == s.snap.core.counters.height + 1
    ensures !Linked(t)
  {
    assert t.snap.core.counters.height !in s.snap.canonical;
  }

  function TopWeight(blocks: seq<BlockRecord>): nat {
    if blocks == [] then 0 else blocks[|blocks| - 1].cumWeight
  }

  function TipWeight(s: Chain): nat {
    if s.snap.tip.None? then 0 else s.snap.tip.value.cumWeight
  }

  lemma TipWeighsTop(host: Host, book: Book, genesis: Core, s: Chain)
    requires Inv(host, book, genesis, s)
    ensures TipWeight(s) == TopWeight(CanonicalBlocks(s))
  {
    hide ExtendSnap, RestoreSnap, ReplayBlocks, UndoRowsOk, Linked, WellFormed;
    InvShape(host, book, genesis, s);
    if CanonicalBlocks(s) != [] {
      TipRow(host, book, genesis, s);
    }
  }

  /** The ledger is past its canonical chain and its tip: a block was applied and not recorded. */
  ghost predicate Overrun(s: Chain) {
    var n := s.snap.core.counters.height;
    n >= 1 && n !in s.snap.canonical && (s.snap.tip.Some? ==> s.snap.tip.value.height < n)
  }

  lemma OverrunByOne(host: Host, book: Book, genesis: Core, s: Chain, t: Chain)
    requires Inv(host, book, genesis, s) && t.snap == s.snap.(core := t.snap.core)
    requires t.snap.core.counters.height == s.snap.core.counters.height + 1
    ensures Overrun(t)
  {
    hide ReplayBlocks, WellFormed, UndoRowsOk;
    InvShape(host, book, genesis, s);
  }

  // A commit on top keeps the invariant unless its root mismatches.
  lemma CommitFromInv(host: Host, book: Book, genesis: Core, now: nat, s: Chain, row: BlockRecord)
    requires Inv(host, book, genesis, s) && OnTop(s, row)
    ensures var (t, r) := CommitRow(host, book, now, s, row);
            && (Inv(host, book, genesis, t) <==> r != Err(RootMismatch))
            && (r.Ok? ==> CanonicalBlocks(t) == CanonicalBlocks(s) + [Strip(row)])
            && (r.Err? ==> t.records == s.records && t.snap == s.snap.(core := t.snap.core))
            && (r.Err? && r.error != RootMismatch ==> t.snap == s.snap && CanonicalBlocks(t) == CanonicalBlocks(s))
            && (r == Err(RootMismatch) ==> Overrun(t))
  {
    hide ExtendSnap, RestoreSnap, ReplayBlocks, WellFormed, Linked, UndoRowsOk, CommitRow, OnTop;
    var (t, r) := CommitRow(host, book, now, s, row);
    if r.Ok? {
      ExtendKeepsInv(host, book, genesis, now, s, row);
    } else {
      FailedCommit(host, book, now, s, row);
      OnTopParts(s, row);
      if r.error == RootMismatch {
        AppliedUnrecorded(s, t);
        OverrunByOne(host, book, genesis, s, t);
      } else {
        StrayUndoKeepsInv(host, book, genesis, s, row.id, t.undo[row.id]);
      }
    }
  }

  lemma PrefixUndoRows(host: Host, book: Book, genesis: Core, s: Chain, t: Chain, blocks: seq<BlockRecord>, h: nat)
    requires h <= |blocks| && ReplayBlocks(host, book, genesis, blocks).Ok? && t.undo == s.undo
    requires UndoRowsOk(host, book, genesis, s, blocks)
    ensures ReplayBlocks(host, book, genesis, blocks[..h]) == Ok(SnapAt(host, book, genesis, blocks, h))
    ensures UndoRowsOk(host, book, genesis, t, blocks[..h])
  {
    hide ExtendSnap, RestoreSnap, ReplayBlocks;
    PrefixReplays(host, book, genesis, blocks, h);
    forall i | 0 <= i < h && blocks[i].id in t.undo
      ensures RowRestores(host, book, genesis, blocks[..h], i, t.undo[blocks[i].id])
    {
      UndoRowAt(host, book, genesis, s, blocks, i);
      assert blocks[..h][..i] == blocks[..i] && blocks[..h][..i + 1] == blocks[..i + 1];
    }
  }

  // The invariant holds of every earlier state of the replay.
  lemma PrefixInv(host: Host, book: Book, genesis: Core, s: Chain, t: Chain, h: nat)
    requires Inv(host, book, genesis, s) && h <= s.snap.core.counters.height
    requires t.snap == SnapAt(host, book, genesis, CanonicalBlocks(s), h)
    requires SameButFlags(s.records, t.records) && t.undo == s.undo
    ensures Inv(host, book, genesis, t) && CanonicalBlocks(t) == CanonicalBlocks(s)[..h]
  {
    hide ExtendSnap, RestoreSnap, ReplayBlocks, WellFormed, Linked, BlockAt, UndoRowsOk, Inv, SnapAt, SameButFlags,
         StoredExactly;
    InvParts(host, book, genesis, s);
    GenesisHeight(host, book, genesis, s);
    CanonicalStored(s);
    var blocks := CanonicalBlocks(s);
    PrefixUndoRows(host, book, genesis, s, t, blocks, h);
    FlagsKeepStored(s.records, t.records, blocks);
    StoredPrefix(t.records, blocks, h);
    FlagsKeepWellFormed(s.records, t.records);
    InvFromBlocks(host, book, genesis, t, blocks[..h]);
  }

  lemma StoredPrefix(records: map<string, BlockRecord>, blocks: seq<BlockRecord>, h: nat)
    requires StoredExactly(records, blocks) && h <= |blocks|
    ensures StoredExactly(records, blocks[..h])
  {
  }

  // ----- unwinding

  /** How many blocks an unwinding towards height `k` leaves: it stops under a missing undo row. */
  function Floor(undo: map<string, BlockUndo>, blocks: seq<BlockRecord>, k: nat): (f: nat)
    ensures f <= |blocks| && (k <= |blocks| ==> k <= f)
    decreases |blocks|
  {
    var n := |blocks|;
    if n <= k || blocks[n - 1].id !in undo then n else Floor(undo, blocks[..n - 1], k)
  }

  lemma {:induction false} FloorReachedIff(undo: map<string, BlockUndo>, blocks: seq<BlockRecord>, k: nat)
    requires k <= |blocks|
    ensures Floor(undo, blocks, k) == k <==> forall i :: k <= i < |blocks| ==> blocks[i].id in undo
    decreases |blocks|
  {
    var n := |blocks|;
    if n > k && blocks[n - 1].id in undo {
      FloorReachedIff(undo, blocks[..n - 1], k);
      assert forall i :: 0 <= i < n - 1 ==> blocks[..n - 1][i] == blocks[i];
    }
  }

  function TopId(s: Chain): Option<string> {
    var n := s.snap.core.counters.height;
    if n in s.snap.canonical then Some(s.snap.canonical[n]) else None
  }

  lemma TopIdIs(host: Host, book: Book, genesis: Core, s: Chain)
    requires Inv(host, book, genesis, s)
    ensures var n := |CanonicalBlocks(s)|;
            && n == s.snap.core.counters.height
            && TopId(s) == (if n == 0 then None else Some(CanonicalBlocks(s)[n - 1].id))
            && (n > 0 ==> n in s.snap.canonical && s.snap.canonical[n] == CanonicalBlocks(s)[n - 1].id)
            && (n > 0 ==> s.snap.tip.Some? && s.snap.tip.value.blockId == CanonicalBlocks(s)[n - 1].id)
            && (n == 0 ==> s.snap.tip.None?)
  {
    hide ExtendSnap, RestoreSnap, ReplayBlocks, UndoRowsOk, WellFormed;
    InvShape(host, book, genesis, s);
    if CanonicalBlocks(s) != [] {
      CanonicalRow(s, |CanonicalBlocks(s)|);
    }
  }

  // Undoing the top block leaves the replay without it; with no undo row nothing changes.
  lemma UndoTop(host: Host, book: Book, genesis: Core, s: Chain)
    requires Inv(host, book, genesis, s) && CanonicalBlocks(s) != []
    ensures var blocks := CanonicalBlocks(s);
            var top := blocks[|blocks| - 1];
            var (t, r) := UnwindOne(s, top.id);
            && (r.Ok? <==> top.id in s.undo) && (r.Err? ==> t == s && r.error == MissingUndo)
            && (r.Ok? ==> && Inv(host, book, genesis, t) && CanonicalBlocks(t) == blocks[..|blocks| - 1]
                          && SameButFlags(s.records, t.records) && t.undo == s.undo && r.value == TopId(t))
  {
    hide ExtendSnap, RestoreSnap, ReplayBlocks, WellFormed, Linked, UndoRowsOk, SnapAt, SameButFlags, UnwindOne, TopId;
    var blocks, n := CanonicalBlocks(s), |CanonicalBlocks(s)|;
    TopIdIs(host, book, genesis, s);
    CanonicalStored(s);
    TopSnap(host, book, genesis, s);
    TopUnwindsIff(s, blocks[n - 1].id);
    if blocks[n - 1].id in s.undo {
      SameFlagsSelf(s.records);
      UnwindOneReplays(host, book, genesis, s, s, n);
      var t := UnwindOne(s, blocks[n - 1].id).0;
      PrefixInv(host, book, genesis, s, t, n - 1);
      TopIdIs(host, book, genesis, t);
      if n > 1 {
        CanonicalRow(s, n - 1);
      }
    }
  }

  lemma SameFlagsSelf(records: map<string, BlockRecord>)
    ensures SameButFlags(records, records)
  {
  }

  lemma TopUnwindsIff(s: Chain, id: string)
    requires WellFormed(s.records) && id in s.records
    ensures UnwindOne(s, id).1.Ok? <==> id in s.undo
    ensures UnwindOne(s, id).1.Err? ==> UnwindOne(s, id) == (s, Err(MissingUndo))
  {
    hide RestoreSnap;
    assert RowOk(s.records, id);
  }

  lemma UnwindStep(s: Chain, id: string, ancestor: string)
    requires WellFormed(s.records) && id != ancestor
    ensures var (t, r) := UnwindOne(s, id);
            && WellFormed(t.records)
            && (r.Err? ==> Unwind(s, Some(id), ancestor).0 == t && Unwind(s, Some(id), ancestor).1 == Err(r.error))
            && (r.Ok? ==> Unwind(s, Some(id), ancestor) == Unwind(t, r.value, ancestor))
  {
    hide UnwindOne, WellFormed, SameButFlags;
    UnwindOneFlags(s, id);
    FlagsKeepWellFormed(s.records, UnwindOne(s, id).0.records);
    ParentRanksLower(s.records, id);
  }

  // Unwinding keeps the invariant however far it gets.
  lemma {:induction false} UnwindFromInv(host: Host, book: Book, genesis: Core, s: Chain, k: nat)
    requires Inv(host, book, genesis, s) && k <= s.snap.core.counters.height
    ensures var (t, r) := Unwind(s, TopId(s), AncestorAt(s, k));
            var f := Floor(s.undo, CanonicalBlocks(s), k);
            && Inv(host, book, genesis, t) && CanonicalBlocks(t) == CanonicalBlocks(s)[..f]
            && SameButFlags(s.records, t.records) && t.undo == s.undo
            && (r.Ok? <==> f == k) && (r.Err? ==> r.error == MissingUndo)
    decreases s.snap.core.counters.height
  {
    hide ExtendSnap, RestoreSnap, ReplayBlocks, WellFormed, Linked, UndoRowsOk, SameButFlags, UnwindOne, Unwind, Inv,
         TopId, AncestorAt;
    InvParts(host, book, genesis, s);
    TopIdIs(host, book, genesis, s);
    SameFlagsSelf(s.records);
    var blocks, n := CanonicalBlocks(s), |CanonicalBlocks(s)|;
    if n == k {
      AtAncestor(s);
      assert blocks[..n] == blocks;
    } else {
      var id := blocks[n - 1].id;
      AboveAncestor(s, k);
      UnwindStep(s, id, AncestorAt(s, k));
      UndoTop(host, book, genesis, s);
      if id in s.undo {
        var t := UnwindOne(s, id).0;
        TopIdIs(host, book, genesis, t);
        InvParts(host, book, genesis, t);
        SameAncestor(s, t, k);
        UnwindFromInv(host, book, genesis, t, k);
        FlagsCompose(s.records, t.records, Unwind(t, TopId(t), AncestorAt(t, k)).0.records);
      } else {
        assert UnwindOne(s, id).0 == s && blocks[..n] == blocks;
      }
    }
  }

  lemma AtAncestor(s: Chain)
    requires WellFormed(s.records) && Linked(s)
    ensures Unwind(s, TopId(s), AncestorAt(s, s.snap.core.counters.height)) == (s, Ok(()))
  {
    hide WellFormed;
  }

  lemma AboveAncestor(s: Chain, k: nat)
    requires WellFormed(s.records) && Linked(s) && k < s.snap.core.counters.height
    ensures CanonicalBlocks(s)[s.snap.core.counters.height - 1].id != AncestorAt(s, k)
  {
    hide WellFormed, Linked;
    CanonicalRow(s, s.snap.core.counters.height);
    if k > 0 {
      CanonicalRow(s, k);
    }
  }

  lemma SameAncestor(s: Chain, t: Chain, k: nat)
    requires WellFormed(s.records) && Linked(s) && WellFormed(t.records) && Linked(t)
    requires k <= t.snap.core.counters.height <= s.snap.core.counters.height
    requires CanonicalBlocks(t) == CanonicalBlocks(s)[..t.snap.core.counters.height]
    ensures AncestorAt(s, k) == AncestorAt(t, k)
  {
    hide WellFormed, Linked;
    if k > 0 {
      CanonicalRow(s, k);
      CanonicalRow(t, k);
    }
  }

  // ----- applying a branch

  /** A branch ready to go on top: stored, numbered and linked upwards from the top, none of it canonical. */
  ghost predicate Stacks(s: Chain, bs: seq<BlockRecord>) {
    && HashesListed(bs) && DistinctIds(bs) && ParentLinked(bs) && StoredExactly(s.records, Stripped(bs))
    && (forall i :: 0 <= i < |bs| ==> bs[i].height == s.snap.core.counters.height + i + 1)
    && (forall i :: 0 <= i < |bs| ==> bs[i].id !in s.snap.canonical.Values)
    && (bs != [] && bs[0].height > 1 ==> bs[0].height - 1 in s.snap.canonical
                                         && bs[0].parent == Some(s.snap.canonical[bs[0].height - 1]))
  }

  lemma FirstIsOnTop(s: Chain, bs: seq<BlockRecord>)
    requires WellFormed(s.records) && Stacks(s, bs) && bs != []
    ensures OnTop(s, bs[0]) && |bs[0].hashes| == |bs[0].txs|
  {
    hide WellFormed;
    var b := bs[0];
    assert Stripped(bs)[0] == Strip(b);
    FlagsKeepWellFormed(s.records, s.records[b.id := b]);
  }

  lemma RestStacks(s: Chain, bs: seq<BlockRecord>, t: Chain)
    requires Stacks(s, bs) && bs != [] && t.records == s.records[bs[0].id := Strip(bs[0])]
    requires t.snap.core.counters.height == bs[0].height
    requires t.snap.canonical == s.snap.canonical[bs[0].height := bs[0].id]
    ensures Stacks(t, bs[1..])
  {
    var more := bs[1..];
    forall i | 0 <= i < |more|
      ensures more[i] == bs[i + 1] && more[i].id != bs[0].id && more[i].id !in t.snap.canonical.Values
      ensures more[i].height == t.snap.core.counters.height + i + 1
      ensures more[i].id in t.records && Strip(t.records[more[i].id]) == Stripped(more)[i]
    {
      assert Stripped(bs)[i + 1] == Strip(more[i]);
    }
    if more != [] {
      assert bs[1].parent == Some(bs[0].id);
    }
  }

  lemma ForwardFromInv(host: Host, book: Book, genesis: Core, now: nat, s: Chain, row: BlockRecord)
    requires Inv(host, book, genesis, s) && OnTop(s, row)
    ensures var (t, r) := Forward(host, book, now, s, row);
            && (Inv(host, book, genesis, t) <==> r != Err(RootMismatch))
            && (r.Ok? ==> && CanonicalBlocks(t) == CanonicalBlocks(s) + [Strip(row)]
                          && t.records == s.records[row.id := Strip(row)] && t.snap.core.counters.height == row.height
                          && t.snap.canonical == s.snap.canonical[row.height := row.id])
            && (r.Err? ==> t.records == s.records && t.snap.tip == s.snap.tip)
            && (r.Err? && r.error != RootMismatch ==> CanonicalBlocks(t) == CanonicalBlocks(s))
            && (r == Err(RootMismatch) ==> Overrun(t))
  {
    hide ExtendSnap, RestoreSnap, ReplayBlocks, WellFormed, Linked, UndoRowsOk, CommitRow, OnTop, Inv, ZkClaimsOk,
         RewardForBlock;
    CommitFromInv(host, book, genesis, now, s, row);
    OnTopParts(s, row);
    if CommitRow(host, book, now, s, row).1.Ok? {
      CommitExtends(host, book, now, s, row);
      ExtendShape(host, book, s.snap, row);
    }
  }

  /** How many blocks of a branch apply before one fails. */
  ghost function AppliedCount(host: Host, book: Book, clock: nat -> nat, s: Chain, bs: seq<BlockRecord>): (n: nat)
    ensures n <= |bs|
    decreases |bs|
  {
    if bs == [] then 0
    else
      var (t, r) := Forward(host, book, clock(bs[0].height), s, bs[0]);
      if r.Err? then 0 else 1 + AppliedCount(host, book, clock, t, bs[1..])
  }

  lemma BranchStep(host: Host, book: Book, clock: nat -> nat, s: Chain, bs: seq<BlockRecord>)
    requires HashesListed(bs) && bs != []
    ensures var (t, r) := Forward(host, book, clock(bs[0].height), s, bs[0]);
            && HashesListed(bs[1..])
            && ApplyBranch(host, book, clock, s, bs)
               == (if r.Err? then (t, r) else ApplyBranch(host, book, clock, t, bs[1..]))
            && AppliedCount(host, book, clock, s, bs)
               == (if r.Err? then 0 else 1 + AppliedCount(host, book, clock, t, bs[1..]))
  {
    hide Forward;
  }

  lemma StrippedOneMore(bs: seq<BlockRecord>, n: nat)
    requires n < |bs|
    ensures Stripped(bs[..n + 1]) == [Strip(bs[0])] + Stripped(bs[1..][..n])
  {
  }

  // Applying a branch keeps the invariant, however far it gets, unless a root mismatches.
  lemma {:induction false} BranchFromInv(host: Host, book: Book, clock: nat -> nat, genesis: Core, s: Chain,
                                         bs: seq<BlockRecord>)
    requires Inv(host, book, genesis, s) && Stacks(s, bs)
    ensures var (t, r) := ApplyBranch(host, book, clock, s, bs);
            var n := AppliedCount(host, book, clock, s, bs);
            && (Inv(host, book, genesis, t) <==> r != Err(RootMismatch))
            && (Inv(host, book, genesis, t) ==> CanonicalBlocks(t) == CanonicalBlocks(s) + Stripped(bs[..n]))
            && TipWeight(t) == TopWeight(CanonicalBlocks(s) + Stripped(bs[..n]))
            && (r.Ok? <==> n == |bs|) && (r == Err(RootMismatch) ==> Overrun(t))
    decreases |bs|
  {
    hide ExtendSnap, RestoreSnap, ReplayBlocks, WellFormed, Linked, UndoRowsOk, Forward, OnTop, Inv, Stacks, Strip,
         TopWeight, TipWeight, CanonicalBlocks, Stripped, Overrun;
    InvParts(host, book, genesis, s);
    TipWeighsTop(host, book, genesis, s);
    NothingMore(CanonicalBlocks(s), bs);
    if bs != [] {
      var b := bs[0];
      FirstIsOnTop(s, bs);
      StacksParts(s, bs);
      ForwardFromInv(host, book, genesis, clock(b.height), s, b);
      BranchStep(host, book, clock, s, bs);
      var (t, r) := Forward(host, book, clock(b.height), s, b);
      if r.Ok? {
        InvParts(host, book, genesis, t);
        RestStacks(s, bs, t);
        BranchFromInv(host, book, clock, genesis, t, bs[1..]);
        var n := AppliedCount(host, book, clock, t, bs[1..]);
        StrippedOneMore(bs, n);
        assert CanonicalBlocks(s) + Stripped(bs[..n + 1]) == CanonicalBlocks(t) + Stripped(bs[1..][..n]);
      } else {
        SameTipWeight(s, t);
      }
    }
  }

  lemma SameTipWeight(s: Chain, t: Chain)
    requires s.snap.tip == t.snap.tip
    ensures TipWeight(s) == TipWeight(t)
  {
  }

  lemma StacksParts(s: Chain, bs: seq<BlockRecord>)
    requires Stacks(s, bs)
    ensures HashesListed(bs)
  {
  }

  lemma NothingMore(blocks: seq<BlockRecord>, bs: seq<BlockRecord>)
    ensures blocks + Stripped(bs[..0]) == blocks
  {
  }
}
