/** The reference the chain is measured against: apply every block from genesis, with no locks, no
    undo and no fork choice. */
module Replay {
  import opened Basics
  import opened Protocol
  import opened Locks
  import opened BlockApply
  import opened BlockLaws
  import opened Conservation
  import opened Undo
  import opened UndoLaws
  import opened Consensus

  function ExtendSnap(host: Host, book: Book, snap: Snap, b: BlockRecord): Result<Snap, ChainError> {
    match ApplyBlock(host, book.Unlocked(), snap.core, 0, b.height, b.txs, b.hashes, b.producer, b.reward.total)
    case Err(_) => Err(Rejected("apply"))
    case Ok(o) =>
      if host.root(o.core.balances) != b.root then Err(Rejected("state_root"))
      else Ok(Snap(o.core, snap.canonical[b.height := b.id], Some(Tip(b.height, b.id, b.cumWeight, b.root)),
                   snap.summaries[b.height := Summary(b.height, b.id, b.root, |b.txs|)]))
  }

  function ReplayBlocks(host: Host, book: Book, genesis: Core, blocks: seq<BlockRecord>): Result<Snap, ChainError> {
    if blocks == [] then Ok(Snap(genesis, map[], None, map[]))
    else
      var below :- ReplayBlocks(host, book, genesis, blocks[..|blocks| - 1]);
      ExtendSnap(host, book, below, blocks[|blocks| - 1])
  }

  // ----- one block forward and back

  // A committed block extends the replay, leaves an undo row that restores the state before it, and
  // adds its record; nothing else changes.
  lemma CommitExtends(host: Host, book: Book, now: nat, s: Chain, b: BlockRecord)
    requires |b.hashes| == |b.txs| && CommitRow(host, book, now, s, b).1.Ok?
    ensures var s1 := CommitRow(host, book, now, s, b).0;
            && ExtendSnap(host, book, s.snap, b) == Ok(s1.snap)
            && s1.records == s.records[b.id := Strip(b)]
            && b.id in s1.undo && s1.undo == s.undo[b.id := s1.undo[b.id]]
            && s1.undo[b.id].height == b.height
            && RestoreSnap(s1.snap, s1.undo[b.id]) == s.snap
  {
    var u := PrepareUndo(host, s, b.id, b.height, b.txs, b.hashes, b.producer, b.reward.total);
    var s1 := CommitRow(host, book, now, s, b).0;
    StoredBalancesAreTheMap(host, book, s.snap.core, now, b.height, b.txs, b.hashes, b.producer, b.reward.total);
    UnlockedIsNoStricter(book, 0, now);
    BlockUnderLooserLocks(host, book, now, book.Unlocked(), 0, s.snap.core, b.height, b.txs, b.hashes, b.producer,
                          b.reward.total);
    CoreRestored(host, book, s, s1.snap, b.id, now, b.height, b.txs, b.hashes, b.producer, b.reward.total);
    RestoreUndoesWrites(s.snap.canonical, s1.snap.canonical, {b.height});
    RestoreUndoesWrites(s.snap.summaries, s1.snap.summaries, {b.height});
  }

  lemma {:induction false} IndexRowsKeys(height: nat, hashes: seq<string>, txs: seq<Envelope>, canonical: bool)
    requires |hashes| == |txs|
    ensures forall h :: h in IndexRows(height, hashes, txs, canonical) <==> h in hashes
  {
    if txs != [] {
      var n := |txs| - 1;
      IndexRowsKeys(height, hashes[..n], txs[..n], canonical);
      assert hashes == hashes[..n] + [hashes[n]];
    }
  }

  lemma IndexRestored(index: map<string, TxRow>, height: nat, hashes: seq<string>, txs: seq<Envelope>,
                      keys: set<string>)
    requires |hashes| == |txs| && forall h :: h in hashes ==> h in keys
    ensures Restored(index + IndexRows(height, hashes, txs, true), Captured(index, keys)) == index
  {
    IndexRowsKeys(height, hashes, txs, true);
    RestoreUndoesWrites(index, index + IndexRows(height, hashes, txs, true), keys);
  }

  lemma IndexKeysCaptured(host: Host, b: BlockRecord)
    requires |b.hashes| == |b.txs|
    ensures forall h :: h in b.hashes ==> h in BlockUndoKeys(host, b.txs, b.hashes, b.producer, b.reward.total).index
  {
    forall h | h in b.hashes ensures h in BlockUndoKeys(host, b.txs, b.hashes, b.producer, b.reward.total).index {
      var i :| 0 <= i < |b.hashes| && b.hashes[i] == h;
      BlockKeysCover(host, b.txs, b.hashes, b.producer, b.reward.total, i);
      assert h in TxUndoKeys(host, b.txs[i], b.hashes[i]).index;
    }
  }

  // Undo inverts apply: every row but the block store and the undo store is what it was.
  lemma UndoInvertsCommit(host: Host, book: Book, now: nat, s: Chain, b: BlockRecord)
    requires |b.hashes| == |b.txs| && CommitRow(host, book, now, s, b).1.Ok?
    ensures var s1 := CommitRow(host, book, now, s, b).0;
            ApplyUndo(s1, b.id) == Ok(s.(records := s1.records, undo := s1.undo))
  {
    CommitExtends(host, book, now, s, b);
    IndexKeysCaptured(host, b);
    IndexRestored(s.index, b.height, b.hashes, b.txs,
                  BlockUndoKeys(host, b.txs, b.hashes, b.producer, b.reward.total).index);
  }

  // ----- any number of blocks forward and back

  ghost predicate CommitsAll(host: Host, book: Book, clock: nat -> nat, s: Chain, blocks: seq<BlockRecord>)
    decreases |blocks|
  {
    blocks == [] ||
    (&& |blocks[0].hashes| == |blocks[0].txs|
     && CommitRow(host, book, clock(blocks[0].height), s, blocks[0]).1.Ok?
     && CommitsAll(host, book, clock, CommitRow(host, book, clock(blocks[0].height), s, blocks[0]).0, blocks[1..]))
  }

  ghost function AfterAll(host: Host, book: Book, clock: nat -> nat, s: Chain, blocks: seq<BlockRecord>): Chain
    requires CommitsAll(host, book, clock, s, blocks)
    decreases |blocks|
  {
    if blocks == [] then s
    else AfterAll(host, book, clock, CommitRow(host, book, clock(blocks[0].height), s, blocks[0]).0, blocks[1..])
  }

  // Last in, first out.
  function UndoAll(s: Chain, blocks: seq<BlockRecord>): Result<Chain, ChainError>
    decreases |blocks|
  {
    if blocks == [] then Ok(s)
    else
      var s1 :- UndoAll(s, blocks[1..]);
      ApplyUndo(s1, blocks[0].id)
  }

  ghost predicate DistinctIds(blocks: seq<BlockRecord>) {
    forall i, j :: 0 <= i < j < |blocks| ==> blocks[i].id != blocks[j].id
  }

  lemma {:induction false} AfterAllKeepsUndo(host: Host, book: Book, clock: nat -> nat, s: Chain,
                                             blocks: seq<BlockRecord>, id: string)
    requires CommitsAll(host, book, clock, s, blocks)
    requires forall i :: 0 <= i < |blocks| ==> blocks[i].id != id
    ensures var t := AfterAll(host, book, clock, s, blocks);
            (id in t.undo <==> id in s.undo) && (id in s.undo ==> t.undo[id] == s.undo[id])
    decreases |blocks|
  {
    hide CommitRow;
    if blocks != [] {
      CommitExtends(host, book, clock(blocks[0].height), s, blocks[0]);
      assert blocks[0].id != id;
      AfterAllKeepsUndo(host, book, clock, CommitRow(host, book, clock(blocks[0].height), s, blocks[0]).0,
                        blocks[1..], id);
    }
  }

  // An undo reads its own row and the trees, not the stores.
  lemma UndoIgnoresStores(s: Chain, id: string, records: map<string, BlockRecord>, undo: map<string, BlockUndo>)
    requires id in s.undo && id in undo && undo[id] == s.undo[id]
    ensures ApplyUndo(s.(records := records, undo := undo), id)
         == Ok(ApplyUndo(s, id).value.(records := records, undo := undo))
  {
    hide RestoreSnap;
  }

  // Undoing n stacked blocks, newest first, gives back the state before all of them.
  lemma {:induction false} UndoAllInvertsAll(host: Host, book: Book, clock: nat -> nat, s: Chain,
                                             blocks: seq<BlockRecord>)
    requires CommitsAll(host, book, clock, s, blocks) && DistinctIds(blocks)
    ensures var t := AfterAll(host, book, clock, s, blocks);
            UndoAll(t, blocks) == Ok(s.(records := t.records, undo := t.undo))
    decreases |blocks|
  {
    hide CommitRow, ApplyUndo, ExtendSnap, RestoreSnap;
    if blocks != [] {
      var b, now := blocks[0], clock(blocks[0].height);
      var s1 := CommitRow(host, book, now, s, b).0;
      var t := AfterAll(host, book, clock, s, blocks);
      assert forall i :: 0 <= i < |blocks[1..]| ==> blocks[1..][i] == blocks[i + 1];
      UndoAllInvertsAll(host, book, clock, s1, blocks[1..]);
      AfterAllKeepsUndo(host, book, clock, s1, blocks[1..], b.id);
      CommitExtends(host, book, now, s, b);
      UndoInvertsCommit(host, book, now, s, b);
      UndoIgnoresStores(s1, b.id, t.records, t.undo);
    }
  }

  // ----- replay keeps the money

  lemma {:induction false} ReplayConserves(host: Host, book: Book, genesis: Core, blocks: seq<BlockRecord>)
    requires SoundCore(genesis) && ReplayBlocks(host, book, genesis, blocks).Ok?
    ensures var c := ReplayBlocks(host, book, genesis, blocks).value.core;
            && SoundCore(c)
            && Sum(c.balances) + c.counters.burned == Sum(genesis.balances) + genesis.counters.burned
            && c.counters.supply - Sum(c.balances) == genesis.counters.supply - Sum(genesis.balances)
  {
    hide ApplyBlock;
    if blocks != [] {
      var n := |blocks| - 1;
      var b := blocks[n];
      ReplayConserves(host, book, genesis, blocks[..n]);
      var below := ReplayBlocks(host, book, genesis, blocks[..n]).value;
      BlockConserves(host, book.Unlocked(), below.core, 0, b.height, b.txs, b.hashes, b.producer, b.reward.total);
    }
  }
}
