/** The ledger as the node runs it: trees changed in place, loops over transactions and parents. Each
    method is tied to the function that specifies it; what those functions promise is proved about
    them (tet-core/src/ledger.rs, tet-core/src/consensus.rs). */
module LedgerStore {
  import opened Basics
  import opened Text
  import opened Protocol
  import opened Locks
  import opened BlockApply
  import opened BlockLaws
  import opened Undo
  import opened Consensus
  import opened ReorgOutcomes
  import opened ChainRuns
  import opened Fees
  import opened SupplyOps
  import opened LockLaws

  // ----- the ancestor walk on any store, cyclic ones included

  // The block `n` parents above `id`, if the walk gets that far.
  ghost function Nth(records: map<string, BlockRecord>, id: string, n: nat): Option<string> {
    if n == 0 then Some(id)
    else match Nth(records, id, n - 1)
         case None => None
         case Some(x) => Parent(records, x)
  }

  lemma {:induction false} ClosedHoldsWalk(records: map<string, BlockRecord>, id: string, walked: set<string>, n: nat)
    requires id in walked
    requires forall x :: x in walked ==> Parent(records, x).None? || Parent(records, x).value in walked
    ensures Nth(records, id, n).Some? ==> Nth(records, id, n).value in walked
  {
    if n > 0 {
      ClosedHoldsWalk(records, id, walked, n - 1);
    }
  }

  lemma {:induction false} NthShift(records: map<string, BlockRecord>, id: string, n: nat)
    requires Parent(records, id).Some?
    ensures Nth(records, Parent(records, id).value, n) == Nth(records, id, n + 1)
  {
    if n > 0 {
      NthShift(records, id, n - 1);
    }
  }

  lemma {:induction false} NthOfOrphan(records: map<string, BlockRecord>, id: string, n: nat)
    requires Parent(records, id).None? && n > 0
    ensures Nth(records, id, n).None?
  {
    if n > 1 {
      NthOfOrphan(records, id, n - 1);
    }
  }

  // Following parents from `id` reaches `x`.
  ghost predicate Reaches(records: map<string, BlockRecord>, id: string, x: string) {
    exists n: nat :: Nth(records, id, n) == Some(x)
  }

  lemma NthReaches(records: map<string, BlockRecord>, id: string, n: nat, x: string)
    requires Nth(records, id, n) == Some(x)
    ensures Reaches(records, id, x)
  {
  }

  lemma ClosedHoldsReached(records: map<string, BlockRecord>, id: string, walked: set<string>, x: string)
    requires id in walked && Reaches(records, id, x)
    requires forall y :: y in walked ==> Parent(records, y).None? || Parent(records, y).value in walked
    ensures x in walked
  {
    var n: nat :| Nth(records, id, n) == Some(x);
    ClosedHoldsWalk(records, id, walked, n);
  }

  // On a well-formed store the walk reaches exactly the ancestors.
  lemma {:induction false} WalkIsAncestry(records: map<string, BlockRecord>, id: string, x: string)
    requires WellFormed(records)
    ensures x in AncestorIds(records, Some(id)) <==> Reaches(records, id, x)
    decreases Rank(records, Some(id))
  {
    hide WellFormed;
    ParentRanksLower(records, id);
    var up := Parent(records, id);
    if up.Some? {
      WalkIsAncestry(records, up.value, x);
    }
    if x == id {
      NthReaches(records, id, 0, x);
    } else if up.None? {
      if Reaches(records, id, x) {
        var n: nat :| Nth(records, id, n) == Some(x);
        NthOfOrphan(records, id, n);
      }
    } else {
      if Reaches(records, up.value, x) {
        var n: nat :| Nth(records, up.value, n) == Some(x);
        NthShift(records, id, n);
        NthReaches(records, id, n + 1, x);
      }
      if Reaches(records, id, x) {
        var n: nat :| Nth(records, id, n) == Some(x);
        NthShift(records, id, n - 1);
        NthReaches(records, up.value, n - 1, x);
      }
    }
  }

  class Ledger {
    const host: Host

    // balances and the meta tree
    var balances: map<string, nat>
    var counters: Counters
    var meta: map<MetaKey, MetaVal>
    var registry: map<string, WorkerRow>
    // explorer rows, block store, canonical index, tip
    var summaries: map<nat, Summary>
    var canonical: map<nat, string>
    var tip: Option<Tip>
    var index: map<string, TxRow>
    var records: map<string, BlockRecord>
    var undo: map<string, BlockUndo>
    // read by blocks, written by other operations
    var book: Book
    // written only by the direct operations
    var stakes: map<string, nat>
    var court: map<string, nat>
    var nonces: map<string, nat>
    var presaleLocks: map<string, nat>

    constructor (host: Host, book: Book)
      ensures this.host == host && this.book == book
      ensures View() == Start(Core(map[], Counters(0, 0, 0, 0, 0), map[], map[]))
      ensures VaultView() == EmptyVault().(book := book)
    {
      this.host, this.book := host, book;
      balances, counters := map[], Counters(0, 0, 0, 0, 0);
      meta, registry, summaries, canonical, tip := map[], map[], map[], map[], None;
      index, records, undo := map[], map[], map[];
      stakes, court, nonces, presaleLocks := map[], map[], map[], map[];
    }

    function CoreView(): Core
      reads this
    {
      Core(balances, counters, meta, registry)
    }

    function View(): Chain
      reads this
    {
      Chain(Snap(CoreView(), canonical, tip, summaries), index, records, undo)
    }

    function VaultView(): Vault
      reads this
    {
      Vault(CoreView(), book, stakes, court, nonces, presaleLocks)
    }

    method LockedBalanceMicro(wallet: string, now: nat) returns (sum: nat)
      ensures sum == LockedSum(book, wallet, now)
      ensures var w := Trim(wallet);
              var cliff := w != "" && book.founder == Some(w) && 0 < book.founderUnlockAt && now < book.founderUnlockAt;
              sum == Capped(Sum(LockedRows(book.vests, w, now)) + if cliff then book.founderLocked else 0)
    {
      hide Sum, LockedRows;
      LockedSumIs(book, wallet, now);
      var peer := Trim(wallet);
      sum := 0;
      for i := 0 to |book.vests|
        invariant sum == VestSum(book.vests[..i], peer, now)
      {
        assert book.vests[..i + 1][..i] == book.vests[..i];
        var row := book.vests[i];
        if row.wallet == peer && row.unlockAt > now {
          sum := SatAdd(sum, row.amount);
        }
      }
      assert book.vests[..|book.vests|] == book.vests;
      if peer != "" && book.founder == Some(peer) && book.founderUnlockAt > 0 && now < book.founderUnlockAt {
        sum := SatAdd(sum, book.founderLocked);
      }
    }

    /** `compute_state_root_after_remote_block`: nothing is written. */
    method PreviewRoot(txs: seq<Envelope>, producer: string, reward: nat, now: nat)
      returns (r: Result<string, LedgerError>)
      ensures r.Ok? <==> PreviewBlock(host, book, CoreView(), now, txs, producer, reward).Ok?
      ensures r.Ok? ==> r.value == host.root(PreviewBlock(host, book, CoreView(), now, txs, producer, reward).value)
    {
      var d := Draft(balances, counters.airdrops);
      for i := 0 to |txs|
        invariant PreviewTxs(host, book, now, txs, Draft(balances, counters.airdrops))
            == PreviewTxs(host, book, now, txs[i..], d)
      {
        assert txs[i..][0] == txs[i] && txs[i..][1..] == txs[i + 1..];
        var step := PreviewTx(host, book, now, txs[i], d);
        if step.Err? {
          return Err(step.error);
        }
        d := step.value;
      }
      var paid := ApplyReward(d.balances, producer, reward);
      if paid.Err? {
        return Err(paid.error);
      }
      return Ok(host.root(paid.value));
    }

    /** `apply_consensus_block_batch`: every check comes before the first write. */
    method ApplyConsensusBlockBatch(blockHeight: nat, txs: seq<Envelope>, hashes: seq<string>, producer: string,
                                    reward: nat, now: nat) returns (r: Result<string, LedgerError>)
      modifies this`balances, this`counters, this`meta, this`registry
      ensures var spec := ApplyBlock(host, book, old(CoreView()), now, blockHeight, txs, hashes, producer, reward);
              && (r.Ok? <==> spec.Ok?)
              && CoreView() == (if spec.Ok? then spec.value.core else old(CoreView()))
              && (r.Ok? ==> r.value == host.root(CoreView().balances))
    {
      if |txs| != |hashes| {
        return Err(Invalid("txs/tx_hashes length mismatch"));
      }
      var core := CoreView();
      var a := InitialAcc(core);
      for i := 0 to |txs|
        invariant ApplyTxs(host, book, core, now, blockHeight, txs, hashes, InitialAcc(core))
               == ApplyTxs(host, book, core, now, blockHeight, txs[i..], hashes[i..], a)
      {
        assert txs[i..][0] == txs[i] && txs[i..][1..] == txs[i + 1..];
        assert hashes[i..][0] == hashes[i] && hashes[i..][1..] == hashes[i + 1..];
        var step := ApplyTx(host, book, core, now, blockHeight, txs[i], hashes[i], a);
        if step.Err? {
          return Err(step.error);
        }
        a := step.value;
      }
      var paid := ApplyReward(a.balances, producer, reward);
      if paid.Err? {
        return Err(paid.error);
      }
      var root := host.root(paid.value);
      StoredBalancesAreTheMap(host, book, core, now, blockHeight, txs, hashes, producer, reward);
      balances := WriteBack(balances, paid.value, a.dirty + RewardDirty(producer, reward));
      counters := Counters(a.supply, a.burned, a.fees, blockHeight,
                           if a.credited then a.airdrops else counters.airdrops);
      meta := meta + a.meta;
      registry := registry + a.registry;
      return Ok(root);
    }

    method PrepareBlockUndo(id: string, blockHeight: nat, txs: seq<Envelope>, hashes: seq<string>, producer: string,
                            reward: nat) returns (u: BlockUndo)
      ensures u == PrepareUndo(host, View(), id, blockHeight, txs, hashes, producer, reward)
    {
      ghost var parts := TxKeyParts(host, txs, hashes);
      var base := UndoKeys(if reward > 0 then {WORKER_POOL, Norm(producer)} else {}, {Height}, {}, {}, {});
      var keys := base;
      for i := 0 to Pairs(txs, hashes)
        invariant keys == AllKeys(base, parts[..i])
      {
        assert parts[..i + 1][..i] == parts[..i];
        keys := keys.Plus(TxUndoKeys(host, txs[i], hashes[i]));
      }
      assert parts[..|parts|] == parts;
      var core := CoreView();
      u := BlockUndo(id, blockHeight, Captured(balances, keys.balances),
                     map k | k in keys.counters :: Count(core.counters, k),
                     Captured(meta, keys.meta), Captured(registry, keys.registry), Captured(index, keys.index),
                     Captured(canonical, {blockHeight}), tip, Captured(summaries, {blockHeight}));
    }

    method ApplyBlockUndo(id: string) returns (r: Result<(), ChainError>)
      modifies this`index, this`summaries, this`canonical, this`tip, this`counters, this`meta, this`balances,
          this`registry
      ensures r == (if id in undo then Ok(()) else Err(MissingUndo))
      ensures View() == (if id in undo then ApplyUndo(old(View()), id).value else old(View()))
    {
      hide Restored, RestoredCounters;
      if id !in undo {
        return Err(MissingUndo);
      }
      var u := undo[id];
      index := Restored(index, u.index);
      summaries := Restored(summaries, u.summaries);
      canonical := Restored(canonical, u.canonical);
      tip := u.tip;
      counters := RestoredCounters(counters, u.counters);
      meta := Restored(meta, u.meta);
      balances := Restored(balances, u.balances);
      registry := Restored(registry, u.registry);
      return Ok(());
    }

    /** `prune_history_after_block`, the undo rows. */
    method PruneHistoryAfterBlock(currentHeight: nat, depth: nat) returns (removed: nat)
      modifies this`undo
      ensures undo == Pruned(old(undo), currentHeight, depth)
      ensures removed == |old(undo)| - |undo|
    {
      var floor := SatSub(currentHeight, depth);
      removed := 0;
      if floor > 0 {
        var todo := undo.Keys;
        while todo != {}
          invariant todo <= undo.Keys <= old(undo).Keys
          invariant forall id :: id in undo ==> undo[id] == old(undo)[id]
          invariant forall id :: id in old(undo) && old(undo)[id].height >= floor ==> id in undo
          invariant forall id :: id in undo && id !in todo ==> undo[id].height >= floor
          invariant removed == |old(undo)| - |undo|
          decreases |todo|
        {
          var id :| id in todo;
          todo := todo - {id};
          if undo[id].height < floor {
            assert undo.Keys == (undo - {id}).Keys + {id};
            undo := undo - {id};
            removed := removed + 1;
          }
        }
      }
      assert undo == Pruned(old(undo), currentHeight, depth);
    }

    method RecordBlockSummary(b: BlockRecord)
      modifies this`summaries
      ensures View() == RecordSummary(old(View()), b)
    {
      summaries := summaries[b.height := Summary(b.height, b.id, b.root, |b.txs|)];
    }

    method RecordBlockRecord(row: BlockRecord)
      modifies this`records, this`canonical, this`tip
      ensures View() == RecordBlock(old(View()), row)
    {
      records := records[row.id := row];
      if row.canonical {
        canonical := canonical[row.height := row.id];
        tip := Some(Tip(row.height, row.id, row.cumWeight, row.root));
      }
    }

    method SetBlockRecordCanonical(id: string, flag: bool)
      modifies this`records
      ensures View() == SetCanonicalFlag(old(View()), id, flag)
    {
      if id in records {
        records := records[id := records[id].(canonical := flag)];
      }
    }

    method RecordTxIndexesBatch(b: BlockRecord, flag: bool)
      requires |b.hashes| == |b.txs|
      modifies this`index
      ensures View() == RecordTxIndexes(old(View()), b, flag)
    {
      var batch: map<string, TxRow> := map[];
      for i := 0 to |b.txs|
        invariant batch == IndexRows(b.height, b.hashes[..i], b.txs[..i], flag)
      {
        assert b.hashes[..i + 1][..i] == b.hashes[..i] && b.txs[..i + 1][..i] == b.txs[..i];
        batch := batch[b.hashes[i] := TxRow(b.hashes[i], b.height, i, flag, b.txs[i])];
      }
      assert b.hashes[..|b.txs|] == b.hashes && b.txs[..|b.txs|] == b.txs;
      index := index + batch;
    }

    // ----- consensus.rs on this ledger

    /** `ancestor_ids_from_tip`: stops at an unknown block, at a root, or at a block seen before. */
    method AncestorIdsFromTip(tipId: string) returns (out: set<string>)
      ensures forall x :: x in out <==> Reaches(records, tipId, x)
    {
      hide Reaches;
      out := {};
      var cur := Some(tipId);
      ghost var n: nat := 0;
      while cur.Some? && cur.value !in out
        invariant cur == Nth(records, tipId, n)
        invariant forall x :: x in out ==> Reaches(records, tipId, x)
        invariant forall x :: x in out ==>
                    Parent(records, x) == cur || Parent(records, x).None? || Parent(records, x).value in out
        invariant if n == 0 then out == {} else tipId in out
        decreases if cur.Some? then |records.Keys - out| + 1 else 0
      {
        var id := cur.value;
        NthReaches(records, tipId, n, id);
        if id in records {
          assert records.Keys - (out + {id}) < records.Keys - out;
          StrictSubsetSmaller(records.Keys - (out + {id}), records.Keys - out);
        }
        out := out + {id};
        cur := if id in records then records[id].parent else None;
        n := n + 1;
      }
      forall x | Reaches(records, tipId, x) ensures x in out {
        ClosedHoldsReached(records, tipId, out, x);
      }
    }

    method FindCommonAncestor(newTip: string) returns (r: Option<string>)
      requires WellFormed(records)
      ensures r == (if tip.None? then None else Some(CommonAncestor(records, tip.value.blockId, newTip)))
    {
      if tip.None? {
        return None;
      }
      var stop := AncestorIdsFromTip(tip.value.blockId);
      assert stop == AncestorIds(records, Some(tip.value.blockId)) by {
        forall x ensures x in stop <==> x in AncestorIds(records, Some(tip.value.blockId)) {
          WalkIsAncestry(records, tip.value.blockId, x);
        }
      }
      var cur := Some(newTip);
      while cur.Some?
        invariant ClimbTo(records, stop, cur) == ClimbTo(records, stop, Some(newTip))
        decreases Rank(records, cur)
      {
        ParentRanksLower(records, cur.value);
        if cur.value in stop {
          return cur;
        }
        cur := if cur.value in records then records[cur.value].parent else None;
      }
      return Some("");
    }

    method BranchFromAncestorToTip(ancestor: string, newTip: string) returns (r: Result<seq<BlockRecord>, ChainError>)
      requires WellFormed(records)
      ensures r == BranchTo(records, ancestor, Some(newTip))
    {
      var above: seq<BlockRecord> := [];
      var cur := Some(newTip);
      while cur.Some? && cur.value != ancestor
        invariant BranchTo(records, ancestor, Some(newTip)).Ok? <==> BranchTo(records, ancestor, cur).Ok?
        invariant BranchTo(records, ancestor, cur).Ok? ==>
                    BranchTo(records, ancestor, Some(newTip)).value == BranchTo(records, ancestor, cur).value + above
        decreases Rank(records, cur)
      {
        ParentRanksLower(records, cur.value);
        if cur.value !in records {
          BranchFault(records, ancestor, Some(newTip));
          return Err(Rejected("unknown block in branch"));
        }
        var block := records[cur.value];
        ghost var below := BranchTo(records, ancestor, block.parent);
        if below.Ok? {
          assert below.value + [block] + above == below.value + ([block] + above);
        }
        cur := block.parent;
        above := [block] + above;
      }
      assert [] + above == above;
      return Ok(above);
    }

    method StoreAndApply(b: BlockRecord, now: nat) returns (r: Result<(), ChainError>)
      modifies this
      ensures book == old(book)
      ensures var spec := CommitRow(host, book, now, old(View()), b);
              View() == spec.0 && r == spec.1
    {
      hide ApplyBlock, PrepareUndo, IndexRows;
      ghost var s := View();
      var u := PrepareBlockUndo(b.id, b.height, b.txs, b.hashes, b.producer, b.reward.total);
      undo := undo[b.id := u];
      var applied := ApplyConsensusBlockBatch(b.height, b.txs, b.hashes, b.producer, b.reward.total, now);
      if applied.Err? {
        return Err(Rejected("apply"));
      }
      AppliedBlockIsListed(host, book, s.snap.core, now, b.height, b.txs, b.hashes, b.producer, b.reward.total);
      StoredBalancesAreTheMap(host, book, s.snap.core, now, b.height, b.txs, b.hashes, b.producer, b.reward.total);
      if applied.value != b.root {
        return Err(RootMismatch);
      }
      RecordBlockSummary(b);
      RecordBlockRecord(b.(canonical := true));
      RecordTxIndexesBatch(b, true);
      return Ok(());
    }

    method ApplyBlockRecordForward(b: BlockRecord, now: nat) returns (r: Result<(), ChainError>)
      modifies this
      ensures book == old(book)
      ensures var spec := Forward(host, book, now, old(View()), b);
              View() == spec.0 && r == spec.1
    {
      hide CommitRow, ZkClaimsOk, RewardForBlock;
      if !ZkClaimsOk(host, CoreView(), b.txs, {}) {
        return Err(Rejected("zk"));
      }
      if RewardForBlock(host, b.txs) != Some(b.reward) {
        return Err(Rejected("reorg reward mismatch"));
      }
      r := StoreAndApply(b, now);
    }

    method UnwindTo(ancestor: string) returns (r: Result<(), ChainError>)
      requires WellFormed(records) && tip.Some?
      modifies this
      ensures book == old(book)
      ensures var spec := Unwind(old(View()), Some(old(tip).value.blockId), ancestor);
              View() == spec.0 && r == spec.1
    {
      hide Restored, RestoredCounters, IndexRows, Strip;
      var cur := Some(tip.value.blockId);
      ghost var spec := Unwind(View(), cur, ancestor);
      while cur.Some? && cur.value != ancestor
        invariant WellFormed(records) && book == old(book)
        invariant Unwind(View(), cur, ancestor) == spec
        decreases Rank(records, cur)
      {
        var id := cur.value;
        ghost var s := View();
        UnwindOneFlags(s, id);
        FlagsKeepWellFormed(s.records, UnwindOne(s, id).0.records);
        ParentRanksLower(s.records, id);
        if id !in records || |records[id].hashes| != |records[id].txs| {
          return Err(Rejected("missing canonical block during unwind"));
        }
        var block := records[id];
        var undone := ApplyBlockUndo(id);
        if undone.Err? {
          return Err(undone.error);
        }
        SetBlockRecordCanonical(id, false);
        RecordTxIndexesBatch(block, false);
        assert View() == UnwindOne(s, id).0;
        cur := block.parent;
      }
      return Ok(());
    }

    /** `reorg_to_branch`: unwind to the common ancestor, then apply the branch. */
    method ReorgToBranch(newTip: string, clock: nat -> nat) returns (r: Result<bool, ChainError>)
      requires WellFormed(records)
      modifies this
      ensures book == old(book)
      ensures var spec := Reorg(host, book, clock, old(View()), newTip);
              View() == spec.0 && r == spec.1
    {
      hide Forward, Unwind, BranchTo, CommonAncestor, UnwindOne;
      if tip.None? {
        return Ok(false);
      }
      if newTip !in records {
        return Err(Rejected("unknown new tip"));
      }
      if records[newTip].cumWeight <= tip.value.cumWeight {
        return Ok(false);
      }
      ghost var s := View();
      var ancestor := FindCommonAncestor(newTip);
      var branch := BranchFromAncestorToTip(ancestor.value, newTip);
      if branch.Err? {
        return Err(branch.error);
      }
      BranchRowsOk(s.records, ancestor.value, Some(newTip));
      var unwound := UnwindTo(ancestor.value);
      if unwound.Err? {
        return Err(unwound.error);
      }
      var blocks := branch.value;
      ghost var s1 := View();
      assert blocks[0..] == blocks;
      for i := 0 to |blocks|
        invariant book == old(book)
        invariant ApplyBranch(host, book, clock, s1, blocks) == ApplyBranch(host, book, clock, View(), blocks[i..])
      {
        assert blocks[i..][0] == blocks[i] && blocks[i..][1..] == blocks[i + 1..];
        var applied := ApplyBlockRecordForward(blocks[i], clock(blocks[i].height));
        if applied.Err? {
          return Err(applied.error);
        }
      }
      return Ok(true);
    }

    /** `try_reorg_backfilled_branch` */
    method TryReorgBackfilledBranch(newTip: string, clock: nat -> nat) returns (r: Result<bool, ChainError>)
      requires WellFormed(records) && WellFormed(ReweighedStore(host, View(), newTip).records)
      modifies this
      ensures book == old(book)
      ensures var spec := BackfillReorg(host, book, clock, old(View()), newTip);
              View() == spec.0 && r == spec.1
    {
      hide Reorg, BranchTo, CommonAncestor;
      if newTip !in records || tip.None? {
        return Ok(false);
      }
      ghost var s := View();
      var ancestor := FindCommonAncestor(newTip);
      var branch := BranchFromAncestorToTip(ancestor.value, newTip);
      if branch.Err? {
        return Err(branch.error);
      }
      var blocks := branch.value;
      for i := 0 to |blocks|
        invariant book == old(book) && View() == s.(records := records)
        invariant Reweighed(host, s.records, blocks) == Reweighed(host, records, blocks[i..])
      {
        assert blocks[i..][0] == blocks[i] && blocks[i..][1..] == blocks[i + 1..];
        var b := blocks[i];
        var weight := ProducerWeight(host, b.producer);
        RecordBlockRecord(b.(weight := weight, cumWeight := CumWeight(records, b.parent, weight), canonical := false));
      }
      assert View() == ReweighedStore(host, s, newTip);
      r := ReorgToBranch(newTip, clock);
    }

    // ----- direct operations: one storage transaction each

    // The writes of the genesis transaction, over the cleared trees.
    method MintShares(founderWallet: string, treasury: string, pinned: Option<string>, now: nat, cliff: nat)
      requires balances == map[] && book.bonds == map[]
      modifies this`balances, this`counters, this`book
      ensures VaultView() == Minted(old(VaultView()), Genesis(founderWallet, Some(treasury), pinned, now, cliff))
    {
      hide Trim, Credited;
      var founder := Trim(founderWallet);
      balances := Credited(balances, founder, GENESIS_FOUNDER_SHARE_MICRO);
      balances := Credited(balances, WORKER_POOL, GENESIS_WORKER_POOL_SHARE_MICRO);
      balances := Credited(balances, treasury, GENESIS_TREASURY_SHARE_MICRO);
      balances := Credited(balances, PROTOCOL_RESERVE, 0);
      counters := counters.(supply := MAX_SUPPLY_MICRO);
      book := book.(founder := Some(founder), founderUnlockAt := if now + cliff > U64_MAX then U64_MAX else now + cliff,
                    founderLocked := GENESIS_FOUNDER_SHARE_MICRO);
    }

    // The treasury address is read after the trees are cleared.
    method ApplyGenesisAllocation(founderWallet: string, treasury: Option<string>, pinned: Option<string>, now: nat,
                                  cliff: nat) returns (r: Result<(), LedgerError>)
      modifies this`balances, this`counters, this`book
      ensures var op := Genesis(founderWallet, treasury, pinned, now, cliff);
              var spec := DoGenesis(old(VaultView()), op);
              && (r.Ok? <==> spec.Ok?)
              && VaultView() == if spec.Ok? then spec.value else AfterFailedGenesis(old(VaultView()), op)
      ensures Accounted(old(VaultView())) ==> Accounted(VaultView())
    {
      hide Trim, Norm, Accounted, Credited;
      ghost var op := Genesis(founderWallet, treasury, pinned, now, cliff);
      if Accounted(VaultView()) {
        GenesisAccounts(VaultView(), op);
      }
      var founder := Trim(founderWallet);
      if founder == "" {
        return Err(Invalid("founder_wallet_id required"));
      }
      if pinned.Some? && (Norm(pinned.value) == "" || Norm(founderWallet) != Norm(pinned.value)) {
        return Err(Invalid("mainnet genesis founder mismatch"));
      }
      if counters.supply > 0 {
        return Err(Invalid("genesis already applied"));
      }
      balances := map[];
      book := book.(bonds := map[]);
      if treasury.None? {
        return Err(Invalid("TET_TREASURY_ADDRESS is required"));
      }
      MintShares(founderWallet, treasury.value, pinned, now, cliff);
      return Ok(());
    }

    method CommitNonce(wallet: string, nonce: Option<nat>)
      modifies this`nonces
      ensures VaultView() == WithNonce(old(VaultView()), wallet, nonce)
    {
      if nonce.Some? {
        nonces := nonces[Norm(wallet) := nonce.value];
      }
    }

    method StakeMicro(wallet: string, amount: nat, nonce: Option<nat>, now: nat) returns (r: Result<nat, LedgerError>)
      modifies this`balances, this`stakes, this`nonces
      ensures var spec := DoStake(old(VaultView()), Stake(wallet, amount, nonce, now));
              (r.Ok? <==> spec.Ok?) && VaultView() == (if spec.Ok? then spec.value else old(VaultView()))
      ensures r.Ok? ==> r.value == Get(stakes, Norm(wallet))
      ensures Accounted(old(VaultView())) ==> Accounted(VaultView())
    {
      hide Norm, Accounted;
      ghost var v, op := VaultView(), Stake(wallet, amount, nonce, now);
      if Accounted(v) && DoStake(v, op).Ok? {
        StakeAccounts(v, op);
      }
      var w := Norm(wallet);
      if w == "" || amount == 0 {
        return Err(Invalid("wallet and amount required"));
      }
      var locked := LockedBalanceMicro(w, now);
      if !FreshNonce(VaultView(), w, nonce) {
        return Err(Invalid("stale nonce"));
      }
      if SatSub(Get(balances, w), locked) < amount {
        return Err(InsufficientFunds);
      }
      balances := Debited(balances, w, amount);
      stakes := Credited(stakes, w, amount);
      CommitNonce(w, nonce);
      return Ok(Get(stakes, w));
    }

    method StakeWorkerBondMicro(wallet: string, amount: nat, nonce: Option<nat>, now: nat)
      returns (r: Result<nat, LedgerError>)
      modifies this`balances, this`book, this`nonces
      ensures var spec := DoStake(old(VaultView()), StakeBond(wallet, amount, nonce, now));
              (r.Ok? <==> spec.Ok?) && VaultView() == (if spec.Ok? then spec.value else old(VaultView()))
      ensures r.Ok? ==> r.value == Get(book.bonds, Norm(wallet))
      ensures Accounted(old(VaultView())) ==> Accounted(VaultView())
    {
      hide Norm, Accounted;
      ghost var v, op := VaultView(), StakeBond(wallet, amount, nonce, now);
      if Accounted(v) && DoStake(v, op).Ok? {
        StakeAccounts(v, op);
      }
      var w := Norm(wallet);
      if w == "" || amount == 0 {
        return Err(Invalid("wallet and amount required"));
      }
      var locked := LockedBalanceMicro(w, now);
      if !FreshNonce(VaultView(), w, nonce) {
        return Err(Invalid("stale nonce"));
      }
      if SatSub(Get(balances, w), locked) < amount {
        return Err(InsufficientFunds);
      }
      balances := Debited(balances, w, amount);
      book := book.(bonds := Credited(book.bonds, w, amount));
      CommitNonce(w, nonce);
      return Ok(Get(book.bonds, w));
    }

    method UnstakeWorkerBondMicro(wallet: string, amount: nat, nonce: Option<nat>) returns (r: Result<nat, LedgerError>)
      modifies this`balances, this`book, this`nonces
      ensures var spec := DoUnstake(old(VaultView()), UnstakeBond(wallet, amount, nonce));
              (r.Ok? <==> spec.Ok?) && VaultView() == (if spec.Ok? then spec.value else old(VaultView()))
      ensures r.Ok? ==> r.value == Get(book.bonds, Norm(wallet))
      ensures Accounted(old(VaultView())) ==> Accounted(VaultView())
    {
      hide Norm, Accounted;
      ghost var v, op := VaultView(), UnstakeBond(wallet, amount, nonce);
      if Accounted(v) && DoUnstake(v, op).Ok? {
        UnstakeAccounts(v, op);
      }
      var w := Norm(wallet);
      if w == "" || amount == 0 {
        return Err(Invalid("wallet and amount required"));
      }
      if !FreshNonce(VaultView(), w, nonce) {
        return Err(Invalid("stale nonce"));
      }
      if Get(book.bonds, w) < amount {
        return Err(Invalid("insufficient worker bond"));
      }
      book := book.(bonds := Debited(book.bonds, w, amount));
      balances := Credited(balances, w, amount);
      CommitNonce(w, nonce);
      return Ok(Get(book.bonds, w));
    }

    method ZkCourtLockChallengerBond(inferenceId: string, challenger: string, bond: nat)
      returns (r: Result<nat, LedgerError>)
      modifies this`balances, this`court
      ensures var spec := DoLockCourt(old(VaultView()), LockCourtBond(inferenceId, challenger, bond));
              (r.Ok? <==> spec.Ok?) && VaultView() == (if spec.Ok? then spec.value else old(VaultView()))
      ensures r.Ok? ==> r.value == bond
      ensures Accounted(old(VaultView())) ==> Accounted(VaultView())
    {
      hide Norm, Trim, Accounted;
      ghost var v, op := VaultView(), LockCourtBond(inferenceId, challenger, bond);
      if Accounted(v) && DoLockCourt(v, op).Ok? {
        CourtAccounts(v, op);
      }
      var c, key := Norm(challenger), CourtKey(inferenceId, challenger);
      if c == "" {
        return Err(Invalid("challenger wallet required"));
      }
      if key in court {
        return Err(Invalid("challenger bond already locked"));
      }
      if Get(balances, c) < bond {
        return Err(InsufficientFunds);
      }
      balances := Debited(balances, c, bond);
      court := court[key := bond];
      return Ok(bond);
    }

    method ZkCourtSettleChallengerBond(inferenceId: string, challenger: string, valid: bool) returns (settled: nat)
      modifies this`balances, this`court
      ensures DoSettleCourt(old(VaultView()), SettleCourtBond(inferenceId, challenger, valid)) == Ok(VaultView())
      ensures settled == Get(old(court), CourtKey(inferenceId, challenger))
      ensures Accounted(old(VaultView())) ==> Accounted(VaultView())
    {
      hide Norm, Trim, Accounted;
      ghost var v, op := VaultView(), SettleCourtBond(inferenceId, challenger, valid);
      if Accounted(v) && DoSettleCourt(v, op).Ok? {
        CourtAccounts(v, op);
      }
      var key := CourtKey(inferenceId, challenger);
      settled := Get(court, key);
      if settled == 0 {
        return;
      }
      court := court - {key};
      balances := Credited(balances, if valid then Norm(challenger) else ECOSYSTEM, settled);
    }

    method SlashWorkerBondToEcosystemAll(wallet: string) returns (r: Result<nat, LedgerError>)
      modifies this`balances, this`book
      ensures var spec := DoSlash(old(VaultView()), SlashBond(wallet));
              (r.Ok? <==> spec.Ok?) && VaultView() == (if spec.Ok? then spec.value else old(VaultView()))
      ensures r.Ok? ==> r.value == Get(old(book).bonds, Norm(wallet)) > 0
      ensures Accounted(old(VaultView())) ==> Accounted(VaultView())
    {
      hide Norm, Accounted;
      ghost var v, op := VaultView(), SlashBond(wallet);
      if Accounted(v) && DoSlash(v, op).Ok? {
        SlashAccounts(v, op);
      }
      var w := Norm(wallet);
      if w == "" {
        return Err(Invalid("wallet required"));
      }
      var bond := Get(book.bonds, w);
      if bond == 0 {
        return Err(Invalid("no worker bond to slash"));
      }
      book := book.(bonds := book.bonds - {w});
      balances := Credited(balances, ECOSYSTEM, bond);
      return Ok(bond);
    }

    method SlashStakeMicro(wallet: string, amount: nat) returns (r: Result<nat, LedgerError>)
      modifies this`counters, this`stakes
      ensures var spec := DoSlash(old(VaultView()), SlashStake(wallet, amount));
              (r.Ok? <==> spec.Ok?) && VaultView() == (if spec.Ok? then spec.value else old(VaultView()))
      ensures Accounted(old(VaultView())) ==> Accounted(VaultView())
    {
      hide Norm, Accounted;
      ghost var v, op := VaultView(), SlashStake(wallet, amount);
      if Accounted(v) && DoSlash(v, op).Ok? {
        SlashAccounts(v, op);
      }
      var w := Norm(wallet);
      if w == "" || amount == 0 {
        return Err(Invalid("wallet and amount required"));
      }
      if Get(stakes, w) < amount {
        return Err(Invalid("insufficient staked balance"));
      }
      stakes := Debited(stakes, w, amount);
      counters := counters.(burned := SatAdd(counters.burned, amount));
      counters := counters.(supply := SatSub(counters.supply, amount));
      return Ok(Get(stakes, w));
    }

    method MintRewardWithProof(peer: string, gross: nat, attested: bool) returns (r: Result<(), LedgerError>)
      modifies this`balances, this`counters
      ensures var spec := DoMint(old(VaultView()), MintReward(peer, gross, attested));
              (r.Ok? <==> spec.Ok?) && VaultView() == (if spec.Ok? then spec.value else old(VaultView()))
      ensures Accounted(old(VaultView())) ==> Accounted(VaultView())
    {
      hide Trim, Accounted;
      ghost var v, op := VaultView(), MintReward(peer, gross, attested);
      if Accounted(v) && DoMint(v, op).Ok? {
        RewardAccounts(v, op);
      }
      if gross == 0 {
        return Ok(());
      }
      if !attested {
        return Err(Invalid("attestation required"));
      }
      var total := SatAdd(counters.supply, gross);
      if total > MAX_SUPPLY_MICRO {
        return Err(Invalid("hard cap exceeded"));
      }
      balances := Credited(balances, Trim(peer), gross);
      counters := counters.(supply := total);
      return Ok(());
    }

    method MintWorkerNetworkReward(worker: string, vault: string, requested: nat, uplift: bool, attested: bool,
                                   unlockAt: nat)
      returns (r: Result<nat, LedgerError>)
      modifies this`balances, this`book
      ensures var spec := DoWorkerReward(old(VaultView()),
                                         WorkerReward(worker, vault, requested, uplift, attested, unlockAt));
              (r.Ok? <==> spec.Ok?) && VaultView() == (if spec.Ok? then spec.value else old(VaultView()))
      ensures Accounted(old(VaultView())) ==> Accounted(VaultView())
    {
      hide Trim, Uplifted, Accounted;
      ghost var v, op := VaultView(), WorkerReward(worker, vault, requested, uplift, attested, unlockAt);
      if Accounted(v) && DoWorkerReward(v, op).Ok? {
        RewardAccounts(v, op);
      }
      if requested == 0 {
        return Ok(0);
      }
      var gross := Uplifted(requested, uplift);
      if worker == vault {
        return Err(Invalid("worker wallet must differ from imperial vault"));
      }
      if !attested {
        return Err(Invalid("attestation required"));
      }
      if Get(balances, WORKER_POOL) < gross {
        return Err(InsufficientFunds);
      }
      balances := Debited(balances, WORKER_POOL, gross);
      balances := Credited(balances, Trim(worker), gross);
      book := book.(vests := book.vests + [VestLock(Trim(worker), gross, unlockAt)]);
      return Ok(gross);
    }

    method SettleAiUtilityPayment(payerWallet: string, workerWallet: string, gross: nat)
      returns (r: Result<FeeSplit, LedgerError>)
      modifies this`balances, this`counters
      ensures var spec := DoAiUtility(host, old(VaultView()), AiUtilityPayment(payerWallet, workerWallet, gross));
              (r.Ok? <==> spec.Ok?) && VaultView() == (if spec.Ok? then spec.value else old(VaultView()))
      ensures Accounted(old(VaultView())) ==> Accounted(VaultView())
    {
      hide Trim, Charge, Accounted;
      ghost var v, op := VaultView(), AiUtilityPayment(payerWallet, workerWallet, gross);
      if Accounted(v) && DoAiUtility(host, v, op).Ok? {
        AiUtilityAccounts(host, v, op);
      }
      var payer, worker := Trim(payerWallet), Trim(workerWallet);
      if payer == "" || worker == "" || gross == 0 || payer == worker {
        return Err(Invalid("arguments"));
      }
      var charged := Charge(AiUtility, gross);
      if charged.Err? || host.treasury.None? {
        return Err(Invalid("charge"));
      }
      var split := charged.value;
      if Get(balances, payer) < gross {
        return Err(InsufficientFunds);
      }
      balances := Debited(balances, payer, gross);
      balances := Credited(balances, worker, split.net);
      if split.treasury > 0 {
        balances := Credited(balances, host.treasury.value, split.treasury);
        counters := counters.(fees := SatAdd(counters.fees, split.treasury));
      }
      if split.burn > 0 {
        counters := counters.(burned := SatAdd(counters.burned, split.burn),
                              supply := SatSub(counters.supply, split.burn));
      }
      return Ok(split);
    }

    method SettleAiInferenceDynamicCharge(payerWallet: string, cost: nat) returns (r: Result<FeeSplit, LedgerError>)
      modifies this`balances, this`counters
      ensures var spec := DoAiInference(old(VaultView()), AiInferenceCharge(payerWallet, cost));
              (r.Ok? <==> spec.Ok?) && VaultView() == (if spec.Ok? then spec.value else old(VaultView()))
      ensures Accounted(old(VaultView())) ==> Accounted(VaultView())
    {
      hide Trim, Charge, Accounted;
      ghost var v, op := VaultView(), AiInferenceCharge(payerWallet, cost);
      if Accounted(v) && DoAiInference(v, op).Ok? {
        AiInferenceAccounts(v, op);
      }
      var payer := Trim(payerWallet);
      var charged := Charge(AiInference, cost);
      if payer == "" || cost == 0 || charged.Err? {
        return Err(Invalid("arguments"));
      }
      var split := charged.value;
      if Get(balances, payer) < cost {
        return Err(InsufficientFunds);
      }
      balances := Debited(balances, payer, cost);
      balances := Credited(balances, WORKER_POOL, split.pool);
      if split.burn > 0 {
        counters := counters.(burned := SatAdd(counters.burned, split.burn),
                              supply := SatSub(counters.supply, split.burn));
      }
      return Ok(split);
    }

    method MarkPresale(src: string, dst: string, now: nat, presaleMs: nat)
      modifies this`presaleLocks
      ensures VaultView() == WithPresale(old(VaultView()), src, dst, now, presaleMs)
    {
      hide Norm;
      if presaleMs > 0 && Norm(src) == DEX_TREASURY {
        presaleLocks := presaleLocks[Norm(dst) := if now + presaleMs > U64_MAX then U64_MAX else now + presaleMs];
      }
    }

    method TransferNoFee(src: string, dst: string, amount: nat, now: nat, presaleMs: nat, attested: bool)
      returns (r: Result<nat, LedgerError>)
      modifies this`balances, this`presaleLocks
      ensures var spec := DoTransferNoFee(host, old(VaultView()),
                                          Op.TransferNoFee(src, dst, amount, now, presaleMs, attested));
              (r.Ok? <==> spec.Ok?) && VaultView() == (if spec.Ok? then spec.value else old(VaultView()))
      ensures Accounted(old(VaultView())) ==> Accounted(VaultView())
    {
      hide Norm, PresaleAllows, Accounted;
      ghost var v, op := VaultView(), Op.TransferNoFee(src, dst, amount, now, presaleMs, attested);
      if Accounted(v) && DoTransferNoFee(host, v, op).Ok? {
        TransferNoFeeAccounts(host, v, op);
      }
      if src == dst || amount == 0 {
        return Ok(0);
      }
      if amount > MAX_SUPPLY_MICRO {
        return Err(Invalid("amount exceeds hard cap"));
      }
      if !attested {
        return Err(Invalid("attestation required"));
      }
      var locked := LockedBalanceMicro(src, now);
      if !PresaleAllows(host, VaultView(), src, dst, now) {
        return Err(Invalid("wallet is locked"));
      }
      if SatSub(Get(balances, src), locked) < amount {
        return Err(InsufficientFunds);
      }
      balances := Debited(balances, src, amount);
      balances := Credited(balances, dst, amount);
      MarkPresale(src, dst, now, presaleMs);
      return Ok(amount);
    }

    // The writes of `settle_transfer_internal`, once everything was checked.
    method MoveTaxed(src: string, dst: string, amount: nat, feeBps: Option<nat>, nonce: Option<nat>, now: nat,
                     presaleMs: nat, attested: bool, split: FeeSplit)
      modifies this`balances, this`counters, this`presaleLocks, this`nonces
      ensures VaultView() == Taxed(old(VaultView()),
                                   TransferInternal(src, dst, amount, feeBps, nonce, now, presaleMs, attested), split)
    {
      hide Norm, Debited, Credited;
      balances := Debited(balances, src, amount);
      balances := Credited(balances, dst, split.net);
      MarkPresale(src, dst, now, presaleMs);
      if split.Fee() > 0 {
        balances := Credited(balances, WORKER_POOL, split.pool);
        if split.burn > 0 {
          counters := counters.(burned := SatAdd(counters.burned, split.burn),
                                supply := SatSub(counters.supply, split.burn));
        }
        counters := counters.(fees := SatAdd(counters.fees, split.Fee()));
      }
      CommitNonce(src, nonce);
    }

    method SettleTransferInternal(src: string, dst: string, amount: nat, feeBps: Option<nat>, nonce: Option<nat>,
                                  now: nat,
                                  presaleMs: nat, attested: bool) returns (r: Result<FeeSplit, LedgerError>)
      modifies this`balances, this`counters, this`presaleLocks, this`nonces
      ensures var spec := DoTransferInternal(host, old(VaultView()),
                            TransferInternal(src, dst, amount, feeBps, nonce, now, presaleMs, attested));
              (r.Ok? <==> spec.Ok?) && VaultView() == (if spec.Ok? then spec.value else old(VaultView()))
      ensures Accounted(old(VaultView())) ==> Accounted(VaultView())
    {
      hide Norm, PresaleAllows, Charge, LockedSum, FreshNonce, Taxed, Accounted;
      ghost var v, op := VaultView(), TransferInternal(src, dst, amount, feeBps, nonce, now, presaleMs, attested);
      if Accounted(v) && DoTransferInternal(host, v, op).Ok? {
        TransferInternalAccounts(host, v, op);
      }
      if src == dst || amount == 0 {
        return Ok(FeeSplit(0, 0, 0, 0));
      }
      if amount > MAX_SUPPLY_MICRO {
        return Err(Invalid("amount exceeds hard cap"));
      }
      if !attested {
        return Err(Invalid("attestation required"));
      }
      var charged := Charge(TransferFee(if feeBps.Some? then feeBps.value else TRANSFER_FEE_BPS_DEFAULT), amount);
      if charged.Err? {
        return Err(Invalid("fee"));
      }
      var split := charged.value;
      var locked := LockedBalanceMicro(src, now);
      if !PresaleAllows(host, VaultView(), src, dst, now) {
        return Err(Invalid("wallet is locked"));
      }
      if !FreshNonce(VaultView(), src, nonce) {
        return Err(Invalid("stale or replay nonce"));
      }
      if SatSub(Get(balances, src), locked) < amount {
        return Err(InsufficientFunds);
      }
      MoveTaxed(src, dst, amount, feeBps, nonce, now, presaleMs, attested, split);
      return Ok(split);
    }
  }

  /** From a real genesis, along every run of the chain, failed steps included: all coins are in circulation or
      burned, and the supply is what circulates. */
  lemma GenesisChainConserves(host: Host, book: Book, o: Op, states: seq<Chain>, events: seq<Event>, i: nat)
    requires o.Genesis? && DoGenesis(EmptyVault(), o).Ok?
    requires IsRun(host, book, DoGenesis(EmptyVault(), o).value.core, states, events) && i < |states|
    requires UnwindsReplays(host, book, states, events, i)
    ensures var c := states[i].snap.core;
            Sum(c.balances) == c.counters.supply && c.counters.supply + c.counters.burned == MAX_SUPPLY_MICRO
  {
    hide DoGenesis, IsRun, Sum, UnwindsReplays;
    GenesisIsSound(o);
    RunConserves(host, book, DoGenesis(EmptyVault(), o).value.core, states, events, i);
  }

  lemma StrictSubsetSmaller<T>(a: set<T>, b: set<T>)
    requires a < b
    ensures |a| < |b|
  {
    assert b == a + (b - a) && |b - a| > 0;
  }
}
