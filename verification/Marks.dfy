/** The canonical flags of the block store and the transaction index: what they say along a chain, and that every
    step keeps it so (tet-core/src/consensus.rs:1107-1206, tet-core/src/ledger.rs:921-1010). */
module Marks {
  import opened Basics
  import opened Text
  import opened Protocol
  import opened BlockApply
  import opened Undo
  import opened Consensus
  import opened Replay
  import opened ReorgLaws
  import opened ForkChoiceLaws
  import opened ChainSteps
  import opened ReorgOutcomes
  import opened ChainRuns

  // ----- what the marks say

  ghost predicate OnChain(s: Chain, id: string) {
    id in s.records && s.records[id].height in s.snap.canonical && s.snap.canonical[s.records[id].height] == id
  }

  /** A record's flag is set exactly for the canonical block of its height. */
  ghost predicate FlagsRight(s: Chain) {
    forall id :: id in s.records ==> (s.records[id].canonical <==> OnChain(s, id))
  }

  /** The index a chain should have: each hash under its last block. */
  ghost function ChainIndex(blocks: seq<BlockRecord>): map<string, TxRow>
    requires HashesListed(blocks)
  {
    if blocks == [] then map[]
    else
      var b := blocks[|blocks| - 1];
      ChainIndex(blocks[..|blocks| - 1]) + IndexRows(b.height, b.hashes, b.txs, true)
  }

  /** Every transaction of the chain is indexed under its block, and no other hash is marked canonical. */
  ghost predicate IndexRight(index: map<string, TxRow>, blocks: seq<BlockRecord>)
    requires HashesListed(blocks)
  {
    forall h {:trigger h in index} {:trigger h in ChainIndex(blocks)} ::
      if h in ChainIndex(blocks) then h in index && index[h] == ChainIndex(blocks)[h]
      else h in index ==> !index[h].canonical
  }

  // Undoing a block touches only its own transactions' index rows.
  ghost predicate UndoKeysRight(undo: map<string, BlockUndo>, blocks: seq<BlockRecord>) {
    forall i :: 0 <= i < |blocks| && blocks[i].id in undo ==>
      forall h :: h in undo[blocks[i].id].index ==> h in blocks[i].hashes
  }

  ghost predicate Marked(s: Chain)
    requires Linked(s)
  {
    && FlagsRight(s) && HashesListed(CanonicalBlocks(s))
    && IndexRight(s.index, CanonicalBlocks(s)) && UndoKeysRight(s.undo, CanonicalBlocks(s))
  }

  /** No hash is in two blocks. */
  ghost predicate NoHashTwice(blocks: seq<BlockRecord>) {
    forall i, j, h :: 0 <= i < j < |blocks| && h in blocks[i].hashes ==> h !in blocks[j].hashes
  }

  // ----- the index, read

  lemma {:induction false} IndexRowsAt(height: nat, hashes: seq<string>, txs: seq<Envelope>, canonical: bool, i: nat)
    requires |hashes| == |txs| && i < |hashes| && Distinct(hashes)
    ensures hashes[i] in IndexRows(height, hashes, txs, canonical)
    ensures IndexRows(height, hashes, txs, canonical)[hashes[i]] == TxRow(hashes[i], height, i, canonical, txs[i])
  {
    var n := |txs| - 1;
    if i < n {
      assert hashes[..n][i] == hashes[i] && txs[..n][i] == txs[i];
      IndexRowsAt(height, hashes[..n], txs[..n], canonical, i);
    }
  }

  lemma {:induction false} IndexRowsFlag(height: nat, hashes: seq<string>, txs: seq<Envelope>, canonical: bool,
                                         h: string)
    requires |hashes| == |txs| && h in IndexRows(height, hashes, txs, canonical)
    ensures IndexRows(height, hashes, txs, canonical)[h].canonical == canonical
  {
    var n := |txs| - 1;
    if h != hashes[n] {
      IndexRowsFlag(height, hashes[..n], txs[..n], canonical, h);
    }
  }

  lemma {:induction false} ChainIndexHas(blocks: seq<BlockRecord>, h: string)
    requires HashesListed(blocks)
    ensures h in ChainIndex(blocks) <==> exists i :: 0 <= i < |blocks| && h in blocks[i].hashes
    ensures h in ChainIndex(blocks) ==> ChainIndex(blocks)[h].canonical
  {
    if blocks != [] {
      var n := |blocks| - 1;
      var b := blocks[n];
      assert forall i :: 0 <= i < n ==> blocks[..n][i] == blocks[i];
      ChainIndexHas(blocks[..n], h);
      IndexRowsKeys(b.height, b.hashes, b.txs, true);
      if h in IndexRows(b.height, b.hashes, b.txs, true) {
        IndexRowsFlag(b.height, b.hashes, b.txs, true, h);
      }
    }
  }

  lemma {:induction false} ChainIndexAt(blocks: seq<BlockRecord>, k: nat, i: nat)
    requires HashesListed(blocks) && NoHashTwice(blocks) && k < |blocks| && i < |blocks[k].hashes|
    requires Distinct(blocks[k].hashes)
    ensures blocks[k].hashes[i] in ChainIndex(blocks)
    ensures ChainIndex(blocks)[blocks[k].hashes[i]]
         == TxRow(blocks[k].hashes[i], blocks[k].height, i, true, blocks[k].txs[i])
  {
    var n := |blocks| - 1;
    var b := blocks[n];
    IndexRowsKeys(b.height, b.hashes, b.txs, true);
    if k < n {
      assert forall j :: 0 <= j < n ==> blocks[..n][j] == blocks[j];
      ChainIndexAt(blocks[..n], k, i);
    } else {
      IndexRowsAt(b.height, b.hashes, b.txs, true, i);
    }
  }

  // ----- one block committed

  lemma {:induction false} AllKeysIndex(base: UndoKeys, parts: seq<UndoKeys>, hashes: seq<string>, h: string)
    requires |parts| <= |hashes| && base.index == {}
    requires forall i :: 0 <= i < |parts| ==> parts[i].index == {hashes[i]}
    ensures h in AllKeys(base, parts).index ==> h in hashes
  {
    if parts != [] {
      AllKeysIndex(base, parts[..|parts| - 1], hashes, h);
    }
  }

  lemma BlockIndexKeys(host: Host, b: BlockRecord)
    ensures forall h :: h in BlockUndoKeys(host, b.txs, b.hashes, b.producer, b.reward.total).index ==> h in b.hashes
  {
    forall h | h in BlockUndoKeys(host, b.txs, b.hashes, b.producer, b.reward.total).index ensures h in b.hashes {
      var reward := UndoKeys(if b.reward.total > 0 then {WORKER_POOL, Norm(b.producer)} else {}, {Height}, {}, {}, {});
      AllKeysIndex(reward, TxKeyParts(host, b.txs, b.hashes), b.hashes, h);
    }
  }

  lemma CommitIndexes(host: Host, book: Book, now: nat, s: Chain, b: BlockRecord)
    ensures var (t, r) := CommitRow(host, book, now, s, b);
            && t.undo == s.undo[b.id := t.undo[b.id]] && b.id in t.undo
            && (forall h :: h in t.undo[b.id].index ==> h in b.hashes)
            && (r.Err? ==> t.index == s.index)
            && (r.Ok? ==> |b.hashes| == |b.txs| && t.index == s.index + IndexRows(b.height, b.hashes, b.txs, true))
  {
    hide ApplyBlock, BlockUndoKeys, IndexRows;
    BlockIndexKeys(host, b);
    if ApplyBlock(host, book, s.snap.core, now, b.height, b.txs, b.hashes, b.producer, b.reward.total).Ok? {
      AppliedIsListed(host, book, s, now, b);
    }
  }

  lemma AppliedIsListed(host: Host, book: Book, s: Chain, now: nat, b: BlockRecord)
    requires ApplyBlock(host, book, s.snap.core, now, b.height, b.txs, b.hashes, b.producer, b.reward.total).Ok?
    ensures |b.hashes| == |b.txs|
  {
  }

  lemma IndexOneMore(index: map<string, TxRow>, blocks: seq<BlockRecord>, b: BlockRecord)
    requires HashesListed(blocks) && |b.hashes| == |b.txs| && IndexRight(index, blocks)
    ensures HashesListed(blocks + [b])
    ensures IndexRight(index + IndexRows(b.height, b.hashes, b.txs, true), blocks + [b])
  {
    hide IndexRows;
    var more := blocks + [b];
    assert more[..|more| - 1] == blocks && more[|more| - 1] == b;
    assert ChainIndex(more) == ChainIndex(blocks) + IndexRows(b.height, b.hashes, b.txs, true);
  }

  lemma UndoKeysOneMore(undo: map<string, BlockUndo>, blocks: seq<BlockRecord>, b: BlockRecord, u: BlockUndo)
    requires UndoKeysRight(undo, blocks) && (forall h :: h in u.index ==> h in b.hashes)
    requires forall i :: 0 <= i < |blocks| ==> blocks[i].id != b.id
    ensures UndoKeysRight(undo[b.id := u], blocks + [b])
    ensures UndoKeysRight(undo[b.id := u], blocks)
  {
  }

  lemma CanonicalIds(s: Chain, i: nat)
    requires WellFormed(s.records) && Linked(s) && i < |CanonicalBlocks(s)|
    ensures CanonicalBlocks(s)[i].id in s.snap.canonical.Values
  {
    hide WellFormed, Linked;
    CanonicalRow(s, i + 1);
    assert s.snap.canonical[i + 1] in s.snap.canonical.Values;
  }

  lemma NotYetOnChain(s: Chain, id: string)
    requires WellFormed(s.records) && Linked(s) && id !in s.snap.canonical.Values
    ensures forall i :: 0 <= i < |CanonicalBlocks(s)| ==> CanonicalBlocks(s)[i].id != id
  {
    hide WellFormed, Linked, CanonicalBlocks;
    forall i | 0 <= i < |CanonicalBlocks(s)| ensures CanonicalBlocks(s)[i].id != id {
      CanonicalIds(s, i);
    }
  }

  lemma FlagOneMore(s: Chain, t: Chain, row: BlockRecord)
    requires FlagsRight(s) && row.id !in s.snap.canonical.Values && row.height !in s.snap.canonical
    requires t.records == s.records[row.id := Strip(row)]
    requires t.snap.canonical == s.snap.canonical[row.height := row.id]
    ensures FlagsRight(t)
  {
    forall id | id in t.records ensures t.records[id].canonical <==> OnChain(t, id) {
      if id != row.id {
        assert s.records[id].canonical <==> OnChain(s, id);
      }
    }
  }

  // A commit on top that does not stop at a mismatch keeps the marks.
  lemma CommitMarks(host: Host, book: Book, genesis: Core, now: nat, s: Chain, row: BlockRecord)
    requires Inv(host, book, genesis, s) && Marked(s) && OnTop(s, row)
    requires CommitRow(host, book, now, s, row).1 != Err(RootMismatch)
    ensures var t := CommitRow(host, book, now, s, row).0;
            Inv(host, book, genesis, t) && Marked(t) && s.index.Keys <= t.index.Keys
  {
    hide CommitRow, Inv, WellFormed, Linked, FlagsRight, IndexRight, UndoKeysRight, CanonicalBlocks, OnTop, Strip,
         HashesListed;
    InvParts(host, book, genesis, s);
    OnTopParts(s, row);
    var t := CommitRow(host, book, now, s, row).0;
    CommitFromInv(host, book, genesis, now, s, row);
    InvParts(host, book, genesis, t);
    CommitIndexes(host, book, now, s, row);
    NotYetOnChain(s, row.id);
    StrippedParts(row);
    UndoKeysOneMore(s.undo, CanonicalBlocks(s), Strip(row), t.undo[row.id]);
    if CommitRow(host, book, now, s, row).1.Ok? {
      CommitExtends(host, book, now, s, row);
      ExtendShape(host, book, s.snap, row);
      CanonicalTop(s);
      FlagOneMore(s, t, row);
      IndexOneMore(s.index, CanonicalBlocks(s), Strip(row));
    } else {
      SameFlags(s, t);
    }
  }

  lemma StrippedParts(b: BlockRecord)
    ensures var c := Strip(b);
            c.id == b.id && c.hashes == b.hashes && c.txs == b.txs && c.height == b.height
  {
  }

  lemma CanonicalTop(s: Chain)
    requires Linked(s)
    ensures s.snap.core.counters.height + 1 !in s.snap.canonical
  {
  }

  lemma SameFlags(s: Chain, t: Chain)
    requires FlagsRight(s) && t.records == s.records && t.snap.canonical == s.snap.canonical
    ensures FlagsRight(t)
  {
    forall id | id in t.records ensures t.records[id].canonical <==> OnChain(t, id) {
      assert OnChain(s, id) <==> OnChain(t, id);
    }
  }

  // ----- one block undone

  // None of a block's hashes is in the blocks below.
  ghost predicate HashesNew(blocks: seq<BlockRecord>, b: BlockRecord) {
    forall i, h :: 0 <= i < |blocks| && h in blocks[i].hashes ==> h !in b.hashes
  }

  lemma UnwoundIndex(s: Chain, id: string)
    requires UnwindOne(s, id).1.Ok?
    ensures id in s.records && id in s.undo && |s.records[id].hashes| == |s.records[id].txs|
    ensures var (t, b) := (UnwindOne(s, id).0, s.records[id]);
            && t.index == Restored(s.index, s.undo[id].index) + IndexRows(b.height, b.hashes, b.txs, false)
            && t.records == s.records[id := b.(canonical := false)] && t.undo == s.undo
  {
    hide RestoreSnap, Restored, IndexRows;
  }

  lemma RestoredElsewhere<K, V>(tree: map<K, V>, kvs: map<K, Option<V>>, k: K)
    requires k !in kvs
    ensures (k in Restored(tree, kvs) <==> k in tree) && (k in tree ==> Restored(tree, kvs)[k] == tree[k])
  {
  }

  lemma ChainIndexLast(blocks: seq<BlockRecord>)
    requires HashesListed(blocks) && blocks != []
    ensures var (below, b) := (blocks[..|blocks| - 1], blocks[|blocks| - 1]);
            && HashesListed(below)
            && ChainIndex(blocks) == ChainIndex(below) + IndexRows(b.height, b.hashes, b.txs, true)
  {
    hide IndexRows;
  }

  lemma HashesNewIff(blocks: seq<BlockRecord>, b: BlockRecord)
    requires HashesListed(blocks)
    ensures HashesNew(blocks, b) <==> forall h :: h in b.hashes ==> h !in ChainIndex(blocks)
  {
    forall h ensures h in ChainIndex(blocks) <==> exists i :: 0 <= i < |blocks| && h in blocks[i].hashes {
      ChainIndexHas(blocks, h);
    }
    if HashesNew(blocks, b) {
      forall h | h in b.hashes ensures h !in ChainIndex(blocks) {
        ChainIndexHas(blocks, h);
      }
    }
  }

  /** Undoing the top block leaves the index right exactly when none of its hashes is in a block below. */
  lemma UndoneIndexIff(index: map<string, TxRow>, kvs: map<string, Option<TxRow>>, blocks: seq<BlockRecord>)
    requires HashesListed(blocks) && blocks != [] && IndexRight(index, blocks)
    requires forall h :: h in kvs ==> h in blocks[|blocks| - 1].hashes
    ensures var (below, b) := (blocks[..|blocks| - 1], blocks[|blocks| - 1]);
            && HashesListed(below)
            && (IndexRight(Restored(index, kvs) + IndexRows(b.height, b.hashes, b.txs, false), below)
                <==> HashesNew(below, b))
            && index.Keys <= (Restored(index, kvs) + IndexRows(b.height, b.hashes, b.txs, false)).Keys
  {
    hide IndexRows, Restored, ChainIndex, HashesNew;
    var below, b := blocks[..|blocks| - 1], blocks[|blocks| - 1];
    ChainIndexLast(blocks);
    HashesNewIff(below, b);
    var after := Restored(index, kvs) + IndexRows(b.height, b.hashes, b.txs, false);
    IndexRowsKeys(b.height, b.hashes, b.txs, false);
    IndexRowsKeys(b.height, b.hashes, b.txs, true);
    forall h | h in b.hashes ensures h in after && !after[h].canonical {
      IndexRowsFlag(b.height, b.hashes, b.txs, false, h);
    }
    forall h | h !in b.hashes
      ensures (h in after <==> h in index) && (h in index ==> after[h] == index[h])
      ensures (h in ChainIndex(blocks) <==> h in ChainIndex(below))
      ensures h in ChainIndex(below) ==> ChainIndex(blocks)[h] == ChainIndex(below)[h]
    {
      RestoredElsewhere(index, kvs, h);
    }
    forall h | h in ChainIndex(below) ensures ChainIndex(below)[h].canonical {
      ChainIndexHas(below, h);
    }
    if forall h :: h in b.hashes ==> h !in ChainIndex(below) {
      assert IndexRight(after, below);
    } else {
      var h :| h in b.hashes && h in ChainIndex(below);
      assert !(h in after && after[h] == ChainIndex(below)[h]);
    }
  }

  lemma FlagOneLess(s: Chain, t: Chain, id: string)
    requires FlagsRight(s) && id in s.records && OnChain(s, id)
    requires t.records == s.records[id := s.records[id].(canonical := false)]
    requires t.snap.canonical == s.snap.canonical - {s.records[id].height}
    ensures FlagsRight(t)
  {
    forall x | x in t.records ensures t.records[x].canonical <==> OnChain(t, x) {
      if x != id {
        assert s.records[x].canonical <==> OnChain(s, x);
      }
    }
  }

  lemma UndoKeysPrefix(undo: map<string, BlockUndo>, blocks: seq<BlockRecord>, n: nat)
    requires UndoKeysRight(undo, blocks) && n <= |blocks|
    ensures UndoKeysRight(undo, blocks[..n])
  {
  }

  lemma CanonicalLessTop(s: Chain, t: Chain)
    requires WellFormed(s.records) && Linked(s) && WellFormed(t.records) && Linked(t) && CanonicalBlocks(s) != []
    requires CanonicalBlocks(t) == CanonicalBlocks(s)[..|CanonicalBlocks(s)| - 1]
    ensures t.snap.canonical == s.snap.canonical - {|CanonicalBlocks(s)|}
  {
    hide WellFormed, Linked;
    var n := |CanonicalBlocks(s)|;
    assert |CanonicalBlocks(t)| == n - 1;
    forall h ensures h in t.snap.canonical <==> h in s.snap.canonical && h != n {
      Heights(s, h);
      Heights(t, h);
    }
    forall h | h in t.snap.canonical ensures t.snap.canonical[h] == s.snap.canonical[h] {
      Heights(t, h);
      CanonicalRow(t, h);
      CanonicalRow(s, h);
    }
  }

  lemma Heights(s: Chain, h: nat)
    requires Linked(s)
    ensures h in s.snap.canonical <==> 1 <= h <= s.snap.core.counters.height
  {
  }

  // The top block's record, flag aside.
  lemma TopRecord(s: Chain)
    requires WellFormed(s.records) && Linked(s) && CanonicalBlocks(s) != []
    ensures var (n, b) := (|CanonicalBlocks(s)|, CanonicalBlocks(s)[|CanonicalBlocks(s)| - 1]);
            && b.id in s.records && OnChain(s, b.id) && s.records[b.id].height == n
            && s.records[b.id].hashes == b.hashes && s.records[b.id].txs == b.txs && b.height == n
  {
    hide WellFormed, Linked;
    CanonicalRow(s, |CanonicalBlocks(s)|);
  }

  // The store and the index after the top block is undone.
  lemma UndoneTop(host: Host, book: Book, genesis: Core, s: Chain)
    requires Inv(host, book, genesis, s) && CanonicalBlocks(s) != []
    requires CanonicalBlocks(s)[|CanonicalBlocks(s)| - 1].id in s.undo
    ensures var b := CanonicalBlocks(s)[|CanonicalBlocks(s)| - 1];
            var t := UnwindOne(s, b.id).0;
            && Inv(host, book, genesis, t) && CanonicalBlocks(t) == CanonicalBlocks(s)[..|CanonicalBlocks(s)| - 1]
            && b.id in s.records && |b.hashes| == |b.txs| && OnChain(s, b.id)
            && t.records == s.records[b.id := s.records[b.id].(canonical := false)] && t.undo == s.undo
            && t.snap.canonical == s.snap.canonical - {s.records[b.id].height}
            && t.index == Restored(s.index, s.undo[b.id].index) + IndexRows(b.height, b.hashes, b.txs, false)
  {
    hide Inv, WellFormed, Linked, CanonicalBlocks, UnwindOne, SameButFlags, OnChain, Restored, IndexRows, TopId;
    InvParts(host, book, genesis, s);
    var b := CanonicalBlocks(s)[|CanonicalBlocks(s)| - 1];
    UndoTop(host, book, genesis, s);
    UnwoundIndex(s, b.id);
    InvParts(host, book, genesis, UnwindOne(s, b.id).0);
    TopRecord(s);
    CanonicalLessTop(s, UnwindOne(s, b.id).0);
  }

  lemma UndoTopMarks(host: Host, book: Book, genesis: Core, s: Chain)
    requires Inv(host, book, genesis, s) && Marked(s) && CanonicalBlocks(s) != []
    requires var (blocks, n) := (CanonicalBlocks(s), |CanonicalBlocks(s)|); HashesNew(blocks[..n - 1], blocks[n - 1])
    requires CanonicalBlocks(s)[|CanonicalBlocks(s)| - 1].id in s.undo
    ensures var t := UnwindOne(s, CanonicalBlocks(s)[|CanonicalBlocks(s)| - 1].id).0;
            Inv(host, book, genesis, t) && Marked(t) && s.index.Keys <= t.index.Keys
  {
    hide Inv, WellFormed, Linked, FlagsRight, IndexRight, UndoKeysRight, CanonicalBlocks, HashesListed, HashesNew,
         UnwindOne, OnChain, Restored, IndexRows, ChainIndex;
    InvParts(host, book, genesis, s);
    var blocks, n := CanonicalBlocks(s), |CanonicalBlocks(s)|;
    var b := blocks[n - 1];
    UndoneTop(host, book, genesis, s);
    InvParts(host, book, genesis, UnwindOne(s, b.id).0);
    FlagOneLess(s, UnwindOne(s, b.id).0, b.id);
    UndoKeysPrefix(s.undo, blocks, n - 1);
    UndoKeysOf(s.undo, blocks, n - 1);
    UndoneIndexIff(s.index, s.undo[b.id].index, blocks);
  }

  lemma UndoKeysOf(undo: map<string, BlockUndo>, blocks: seq<BlockRecord>, i: nat)
    requires UndoKeysRight(undo, blocks) && i < |blocks| && blocks[i].id in undo
    ensures forall h :: h in undo[blocks[i].id].index ==> h in blocks[i].hashes
  {
  }

  // ----- a reorganisation

  lemma NoHashTwicePrefix(blocks: seq<BlockRecord>, n: nat)
    requires NoHashTwice(blocks) && n <= |blocks|
    ensures NoHashTwice(blocks[..n])
    ensures 0 < n ==> HashesNew(blocks[..n - 1], blocks[n - 1])
  {
  }

  // However far it gets, unwinding keeps the marks of a chain with no hash twice.
  lemma {:induction false} UnwindMarks(host: Host, book: Book, genesis: Core, s: Chain, k: nat)
    requires Inv(host, book, genesis, s) && Marked(s) && NoHashTwice(CanonicalBlocks(s))
    requires k <= s.snap.core.counters.height
    ensures var t := Unwind(s, TopId(s), AncestorAt(s, k)).0;
            Inv(host, book, genesis, t) && Marked(t) && s.index.Keys <= t.index.Keys
    decreases s.snap.core.counters.height
  {
    hide Inv, WellFormed, Linked, CanonicalBlocks, UnwindOne, Unwind, TopId, AncestorAt, Marked, NoHashTwice, HashesNew,
         SameButFlags;
    InvParts(host, book, genesis, s);
    TopIdIs(host, book, genesis, s);
    var blocks, n := CanonicalBlocks(s), |CanonicalBlocks(s)|;
    if n == k {
      AtAncestor(s);
    } else {
      var id := blocks[n - 1].id;
      AboveAncestor(s, k);
      UnwindStep(s, id, AncestorAt(s, k));
      UndoTop(host, book, genesis, s);
      NoHashTwicePrefix(blocks, n - 1);
      NoHashTwicePrefix(blocks, n);
      if id in s.undo {
        var t := UnwindOne(s, id).0;
        assert blocks[..n] == blocks;
        UndoTopMarks(host, book, genesis, s);
        TopIdIs(host, book, genesis, t);
        InvParts(host, book, genesis, t);
        SameAncestor(s, t, k);
        UnwindMarks(host, book, genesis, t, k);
      } else {
        assert UnwindOne(s, id).0 == s;
      }
    }
  }

  lemma ForwardMarks(host: Host, book: Book, genesis: Core, now: nat, s: Chain, row: BlockRecord)
    requires Inv(host, book, genesis, s) && Marked(s) && OnTop(s, row)
    requires Forward(host, book, now, s, row).1 != Err(RootMismatch)
    ensures var t := Forward(host, book, now, s, row).0;
            Inv(host, book, genesis, t) && Marked(t) && s.index.Keys <= t.index.Keys
  {
    hide Inv, CommitRow, OnTop, Marked, ZkClaimsOk, RewardForBlock;
    if CommitRow(host, book, now, s, row).1 != Err(RootMismatch) {
      CommitMarks(host, book, genesis, now, s, row);
    }
  }

  lemma {:induction false} BranchMarks(host: Host, book: Book, clock: nat -> nat, genesis: Core, s: Chain,
                                       bs: seq<BlockRecord>)
    requires Inv(host, book, genesis, s) && Marked(s) && Stacks(s, bs)
    requires ApplyBranch(host, book, clock, s, bs).1 != Err(RootMismatch)
    ensures var t := ApplyBranch(host, book, clock, s, bs).0;
            Inv(host, book, genesis, t) && Marked(t) && s.index.Keys <= t.index.Keys
    decreases |bs|
  {
    hide Inv, WellFormed, Linked, Forward, OnTop, Stacks, Marked, CanonicalBlocks, Strip;
    InvParts(host, book, genesis, s);
    if bs != [] {
      var b := bs[0];
      FirstIsOnTop(s, bs);
      StacksParts(s, bs);
      ForwardFromInv(host, book, genesis, clock(b.height), s, b);
      BranchStep(host, book, clock, s, bs);
      ForwardMarks(host, book, genesis, clock(b.height), s, b);
      var (t, r) := Forward(host, book, clock(b.height), s, b);
      if r.Ok? {
        RestStacks(s, bs, t);
        BranchMarks(host, book, clock, genesis, t, bs[1..]);
      }
    }
  }

  lemma UnwoundMarks(host: Host, book: Book, genesis: Core, s: Chain, newTip: string)
    requires Inv(host, book, genesis, s) && Marked(s) && NoHashTwice(CanonicalBlocks(s)) && Begins(s, newTip)
    ensures var u := Unwinding(s, newTip).0; Inv(host, book, genesis, u) && Marked(u) && s.index.Keys <= u.index.Keys
  {
    hide Inv, WellFormed, Linked, CanonicalBlocks, Unwind, TopId, AncestorAt, Marked, NoHashTwice, BranchTo,
         CommonAncestor, Plan, AncestorHeight;
    InvParts(host, book, genesis, s);
    BeginsPlan(host, book, genesis, s, newTip);
    UnwindMarks(host, book, genesis, s, AncestorHeight(s, newTip));
  }

  lemma UnwoundStacks(host: Host, book: Book, genesis: Core, s: Chain, newTip: string)
    requires Inv(host, book, genesis, s) && Begins(s, newTip) && Unwinding(s, newTip).1.Ok?
    requires HashesListed(Branch(s, newTip).value)
    ensures Stacks(Unwinding(s, newTip).0, Branch(s, newTip).value)
  {
    hide Inv, WellFormed, Linked, CanonicalBlocks, Unwind, Plan, AncestorHeight, Stacks, BranchTo, CommonAncestor,
         SameButFlags, Floor, HashesListed;
    InvParts(host, book, genesis, s);
    UnwoundFromInv(host, book, genesis, s, newTip);
    InvParts(host, book, genesis, Unwinding(s, newTip).0);
    PlanStacks(s, Unwinding(s, newTip).0, newTip, AncestorHeight(s, newTip), Branch(s, newTip).value);
  }

  /** A reorganisation of a chain with no hash twice keeps the marks, however it ends but at a root mismatch. */
  lemma ReorgMarks(host: Host, book: Book, clock: nat -> nat, genesis: Core, s: Chain, newTip: string)
    requires Inv(host, book, genesis, s) && Marked(s) && NoHashTwice(CanonicalBlocks(s))
    requires Reorg(host, book, clock, s, newTip).1 != Err(RootMismatch)
    ensures var t := Reorg(host, book, clock, s, newTip).0;
            Inv(host, book, genesis, t) && Marked(t) && s.index.Keys <= t.index.Keys
  {
    hide Inv, WellFormed, Linked, CanonicalBlocks, Unwind, Marked, NoHashTwice, BranchTo, CommonAncestor, Reorg,
         ApplyBranch, Stacks, HashesListed;
    InvParts(host, book, genesis, s);
    ReorgPhases(host, book, clock, s, newTip);
    if Begins(s, newTip) {
      UnwoundMarks(host, book, genesis, s, newTip);
      if Unwinding(s, newTip).1.Ok? {
        ReorgApplies(host, book, clock, s, newTip);
        UnwoundStacks(host, book, genesis, s, newTip);
        BranchMarks(host, book, clock, genesis, Unwinding(s, newTip).0, Branch(s, newTip).value);
      }
    }
  }

  // ----- steps

  lemma PlaceableOnTop(host: Host, book: Book, genesis: Core, s: Chain, row: BlockRecord, weight: nat)
    requires Inv(host, book, genesis, s) && Placeable(s, row) && weight <= 1_100
    requires row.cumWeight == CumWeight(s.records, row.parent, weight)
    requires row.height == s.snap.core.counters.height + 1
    requires row.height > 1 ==> ParentIdForHeight(s.snap, row.height) == Ok(row.parent)
    ensures OnTop(s, row)
  {
    hide Inv, WellFormed, Placeable, CumWeight, ParentIdForHeight;
    InvParts(host, book, genesis, s);
    PlacedRowWeighs(s, row, weight);
    PlaceableRow(s, row);
    ParentIsTop(host, book, genesis, s);
  }

  // Other records, with flags that are right, leave the marks as they are.
  lemma OtherRecordsMarks(s: Chain, t: Chain)
    requires Linked(s) && Linked(t) && Marked(s) && FlagsRight(t) && CanonicalBlocks(t) == CanonicalBlocks(s)
    requires t.index == s.index && t.undo == s.undo
    ensures Marked(t)
  {
    hide Linked, FlagsRight, IndexRight, UndoKeysRight, HashesListed;
  }

  lemma OffChainRowFlags(s: Chain, row: BlockRecord)
    requires FlagsRight(s) && !row.canonical && row.id !in s.snap.canonical.Values
    ensures FlagsRight(s.(records := s.records[row.id := row]))
  {
    var t := s.(records := s.records[row.id := row]);
    forall id | id in t.records ensures t.records[id].canonical <==> OnChain(t, id) {
      if id != row.id {
        assert s.records[id].canonical <==> OnChain(s, id);
      }
    }
  }

  lemma {:induction false} ReweighedFlags(host: Host, records: map<string, BlockRecord>, blocks: seq<BlockRecord>,
                                          id: string)
    requires forall i :: 0 <= i < |blocks| ==> blocks[i].id in records
    requires id in records && (!records[id].canonical || id !in Ids(blocks))
    ensures id in Reweighed(host, records, blocks)
    ensures Reweighed(host, records, blocks)[id].canonical == records[id].canonical
    decreases |blocks|
  {
    if blocks != [] {
      var b := blocks[0];
      var weight := ProducerWeight(host, b.producer);
      var row := b.(weight := weight, cumWeight := CumWeight(records, b.parent, weight), canonical := false);
      assert b.id in Ids(blocks);
      forall i | 0 <= i < |blocks[1..]| ensures blocks[1..][i] == blocks[i + 1] {
      }
      ReweighedFlags(host, records[b.id := row], blocks[1..], id);
    }
  }

  lemma ReorgFromMarks(host: Host, book: Book, genesis: Core, s: Chain, e: Event)
    requires Inv(host, book, genesis, s) && Marked(s) && Allowed(host, book, s, e) && TriesReorg(host, s, e)
    ensures Inv(host, book, genesis, ReorgFrom(host, s, e)) && Marked(ReorgFrom(host, s, e))
    ensures CanonicalBlocks(ReorgFrom(host, s, e)) == CanonicalBlocks(s)
  {
    hide Inv, WellFormed, Linked, CanonicalBlocks, CheckRemote, Placeable, Previewed, Reweighed, BranchTo,
         CommonAncestor, IndexRight, UndoKeysRight, FlagsRight, HashesListed, Marked;
    InvParts(host, book, genesis, s);
    ReorgFromKeepsInv(host, book, genesis, s, e);
    var t := ReorgFrom(host, s, e);
    InvParts(host, book, genesis, t);
    ReorgFromStore(host, book, s, e);
    MarkedParts(s);
    if e.Gossip? {
      if RivalRow(host, s, e.block).Some? {
        PlaceableRow(s, RivalRow(host, s, e.block).value);
        OffChainRowFlags(s, RivalRow(host, s, e.block).value);
      }
    } else {
      ReweighedStoreFlags(host, book, genesis, s, e.newTip);
    }
    OtherRecordsMarks(s, t);
  }

  lemma MarkedParts(s: Chain)
    requires Linked(s) && Marked(s)
    ensures FlagsRight(s) && HashesListed(CanonicalBlocks(s))
  {
  }

  lemma ReweighedStoreFlags(host: Host, book: Book, genesis: Core, s: Chain, newTip: string)
    requires Inv(host, book, genesis, s) && FlagsRight(s) && newTip in s.records && s.snap.tip.Some?
    requires Branch(s, newTip).Ok?
    ensures FlagsRight(ReweighedStore(host, s, newTip))
  {
    hide Inv, WellFormed, Linked, CanonicalBlocks, Reweighed, BranchTo, CommonAncestor, Plan, Placement;
    InvParts(host, book, genesis, s);
    TopIdIs(host, book, genesis, s);
    var bs := Branch(s, newTip).value;
    BranchRowsOk(s.records, Ancestor(s, newTip), Some(newTip));
    var k := PlanExists(s, s.snap.tip.value.blockId, newTip);
    PlanIsOffChain(s, newTip, k, bs);
    ReweighedKeeps(host, s.records, bs);
    var t := ReweighedStore(host, s, newTip);
    forall id | id in t.records ensures t.records[id].canonical <==> OnChain(t, id) {
      assert s.records[id].canonical <==> OnChain(s, id);
      SameHeight(s.records[id], t.records[id]);
      ReweighedFlags(host, s.records, bs, id);
    }
  }

  lemma SameHeight(a: BlockRecord, b: BlockRecord)
    requires Placement(a) == Placement(b)
    ensures a.height == b.height
  {
    assert Placement(a).height == a.height && Placement(b).height == b.height;
  }

  lemma StrayUndoMarks(s: Chain, t: Chain, id: string)
    requires WellFormed(s.records) && Linked(s) && Marked(s) && id !in s.snap.canonical.Values
    requires id in t.undo && t == s.(undo := s.undo[id := t.undo[id]])
    requires Linked(t) && CanonicalBlocks(t) == CanonicalBlocks(s)
    ensures Marked(t)
  {
    hide WellFormed, Linked, CanonicalBlocks, IndexRight, HashesListed;
    NotYetOnChain(s, id);
    assert FlagsRight(t) by {
      forall x | x in t.records ensures t.records[x].canonical <==> OnChain(t, x) {
        assert OnChain(s, x) <==> OnChain(t, x);
      }
    }
  }

  lemma PruneMarks(s: Chain, t: Chain, undo: map<string, BlockUndo>)
    requires Linked(s) && Marked(s) && t == s.(undo := undo) && Linked(t) && CanonicalBlocks(t) == CanonicalBlocks(s)
    requires forall id :: id in undo ==> id in s.undo && undo[id] == s.undo[id]
    ensures Marked(t)
  {
    hide Linked, CanonicalBlocks, IndexRight, HashesListed;
    assert FlagsRight(t) by {
      forall x | x in t.records ensures t.records[x].canonical <==> OnChain(t, x) {
        assert OnChain(s, x) <==> OnChain(t, x);
      }
    }
  }

  lemma MinedMarks(host: Host, book: Book, genesis: Core, s: Chain, e: Event, t: Chain)
    requires e.Mined? && Inv(host, book, genesis, s) && Marked(s) && Next(host, book, s, e, t)
    ensures Inv(host, book, genesis, t) && Marked(t)
  {
    hide Inv, Placeable, Effect, MinedRow, CommitRow, ParentIdForHeight, CumWeight, WellFormed, Marked, Linked, OnTop,
         MinePlan;
    InvParts(host, book, genesis, s);
    if MinedRow(host, book, s, e).Some? {
      var row := MinedRow(host, book, s, e).value;
      MinedCommits(host, book, s, e);
      PlaceableOnTop(host, book, genesis, s, row, ProducerWeight(host, e.producer));
      CommitMarks(host, book, genesis, e.now, s, row);
    } else {
      MinedNothing(host, book, s, e);
      if t != s {
        var id := MinePlan(host, book, e.previewAt, s, e.producer, e.txs).value.id;
        StrayUndoKeepsInv(host, book, genesis, s, id, t.undo[id]);
        InvParts(host, book, genesis, t);
        StrayUndoMarks(s, t, id);
      }
    }
  }

  lemma NextGossipMarks(host: Host, book: Book, genesis: Core, s: Chain, e: Event, t: Chain)
    requires e.Gossip? && e.block.height == s.snap.core.counters.height + 1
    requires Inv(host, book, genesis, s) && Marked(s) && Next(host, book, s, e, t)
    requires !StopsAtMismatch(host, book, s, e)
    ensures Inv(host, book, genesis, t) && Marked(t)
  {
    hide Inv, Placeable, Effect, CommitRow, CumWeight, WellFormed, Marked, Linked, OnTop, Previewed, CheckRemote;
    NextGossipCommits(host, book, s, e);
    if Previewed(host, book, e.previewAt, s, e.block) {
      var row := RemoteRow(host, s, e.block).value;
      PlaceableRow(s, row);
      PlaceableOnTop(host, book, genesis, s, row, ProducerWeight(host, row.producer));
      CommitMarks(host, book, genesis, e.clock(row.height), s, row);
    }
  }

  lemma QuietMarks(host: Host, book: Book, genesis: Core, s: Chain, e: Event, t: Chain)
    requires Inv(host, book, genesis, s) && Marked(s) && Next(host, book, s, e, t) && (e.Candidate? || e.Prune?)
    ensures Inv(host, book, genesis, t) && Marked(t)
  {
    hide Inv, WellFormed, Marked, Linked, CanonicalBlocks, CheckRemote, Placeable, FlagsRight, HashesListed;
    InvParts(host, book, genesis, s);
    if e.Prune? {
      PruneKeepsInv(host, book, genesis, s, e.depth);
      InvParts(host, book, genesis, t);
      PrunedChain(host, book, genesis, s, e.depth);
      PruneMarks(s, t, t.undo);
    } else if BackfillRow(host, s, e.block).Ok? {
      var row := BackfillRow(host, s, e.block).value;
      PlaceableRow(s, row);
      OffChainKeepsInv(host, book, genesis, s, row, ProducerWeight(host, row.producer));
      InvParts(host, book, genesis, t);
      MarkedParts(s);
      OffChainRowFlags(s, row);
      OtherRecordsMarks(s, t);
    }
  }

  lemma PrunedChain(host: Host, book: Book, genesis: Core, s: Chain, depth: nat)
    requires Inv(host, book, genesis, s)
    requires Linked(s.(undo := Pruned(s.undo, s.snap.core.counters.height, depth)))
    ensures CanonicalBlocks(s.(undo := Pruned(s.undo, s.snap.core.counters.height, depth))) == CanonicalBlocks(s)
  {
    hide ReplayBlocks, WellFormed, UndoRowsOk;
    var t := s.(undo := Pruned(s.undo, s.snap.core.counters.height, depth));
    assert forall h :: LinkAt(s, h) <==> LinkAt(t, h);
  }

  /** A step that does not stop at a root mismatch keeps the marks of a chain with no hash twice. */
  lemma StepMarks(host: Host, book: Book, genesis: Core, s: Chain, e: Event, t: Chain)
    requires Inv(host, book, genesis, s) && Marked(s) && NoHashTwice(CanonicalBlocks(s))
    requires Next(host, book, s, e, t) && !StopsAtMismatch(host, book, s, e)
    ensures Inv(host, book, genesis, t) && Marked(t)
  {
    hide Inv, WellFormed, Marked, Linked, CanonicalBlocks, NoHashTwice, CheckRemote, Placeable, Previewed, ReorgFrom,
         Reorg, RivalRemote, BackfillReorg, Mine, ExtendRemote, BranchTo, CommonAncestor, RivalRow;
    if e.Mined? {
      MinedMarks(host, book, genesis, s, e, t);
    } else if e.Candidate? || e.Prune? {
      QuietMarks(host, book, genesis, s, e, t);
    } else if e.Gossip? && e.block.height == s.snap.core.counters.height + 1 {
      NextGossipMarks(host, book, genesis, s, e, t);
    } else if TriesReorg(host, s, e) {
      ReorgFromStore(host, book, s, e);
      ReorgFromMarks(host, book, genesis, s, e);
      TriedReorg(host, book, s, e);
      ReorgMarks(host, book, e.clock, genesis, ReorgFrom(host, s, e), Target(e));
    } else {
      Untried(host, book, s, e);
    }
  }

  // ----- runs

  ghost predicate HashesOnce(s: Chain) {
    Linked(s) ==> NoHashTwice(CanonicalBlocks(s))
  }

  lemma StartMarked(genesis: Core)
    requires genesis.counters.height == 0
    ensures Linked(Start(genesis)) && Marked(Start(genesis))
  {
    assert CanonicalBlocks(Start(genesis)) == [];
  }

  lemma {:induction false} RunIsMarked(host: Host, book: Book, genesis: Core, states: seq<Chain>, events: seq<Event>,
                                       i: nat)
    requires IsRun(host, book, genesis, states, events) && i < |states| && NoMismatch(host, book, states, events, i)
    requires forall j :: 0 <= j < i ==> HashesOnce(states[j])
    ensures Inv(host, book, genesis, states[i]) && Marked(states[i])
  {
    hide Next, Inv, StopsAtMismatch, Marked, Linked, NoHashTwice, CanonicalBlocks;
    if i == 0 {
      GenesisInv(host, book, genesis);
      StartMarked(genesis);
    } else {
      RunIsMarked(host, book, genesis, states, events, i - 1);
      InvParts(host, book, genesis, states[i - 1]);
      assert HashesOnce(states[i - 1]);
      StepMarks(host, book, genesis, states[i - 1], events[i - 1], states[i]);
    }
  }

  // The record of a canonical height.
  ghost predicate IsAt(s: Chain, h: nat, b: BlockRecord) {
    h in s.snap.canonical && s.snap.canonical[h] in s.records && b == s.records[s.snap.canonical[h]]
  }

  /** A record is flagged canonical exactly when it is the canonical block of its height. */
  ghost predicate FlagsAre(s: Chain) {
    forall id :: id in s.records ==>
      (s.records[id].canonical <==>
         s.records[id].height in s.snap.canonical && s.snap.canonical[s.records[id].height] == id)
  }

  /** Each transaction of a canonical block is indexed at that height and position, canonical, with its envelope. */
  ghost predicate TxsIndexed(s: Chain) {
    forall h: nat, b, i: nat :: IsAt(s, h, b) && i < |b.hashes| && Distinct(b.hashes) ==> IndexedAt(s, h, b, i)
  }

  ghost predicate IndexedAt(s: Chain, h: nat, b: BlockRecord, i: nat) {
    && i < |b.hashes| && i < |b.txs| && b.hashes[i] in s.index
    && s.index[b.hashes[i]] == TxRow(b.hashes[i], h, i, true, b.txs[i])
  }

  /** A hash in no canonical block is not indexed as canonical. */
  ghost predicate OrphansMarked(s: Chain) {
    forall hash :: hash in s.index && (forall h: nat, b :: IsAt(s, h, b) ==> hash !in b.hashes) ==>
      !s.index[hash].canonical
  }

  ghost predicate MarksAre(s: Chain) {
    FlagsAre(s) && TxsIndexed(s) && OrphansMarked(s)
  }

  lemma BlockIsAt(s: Chain, h: nat, b: BlockRecord)
    requires WellFormed(s.records) && Linked(s) && IsAt(s, h, b)
    ensures 1 <= h <= |CanonicalBlocks(s)| == s.snap.core.counters.height && b.height == h
    ensures var c := CanonicalBlocks(s)[h - 1]; c.height == h && c.hashes == b.hashes && c.txs == b.txs
  {
    hide WellFormed;
    Heights(s, h);
    CanonicalRow(s, h);
    StripParts(b);
  }

  lemma StripParts(b: BlockRecord)
    ensures Strip(b).height == b.height && Strip(b).hashes == b.hashes && Strip(b).txs == b.txs && Strip(b).id == b.id
  {
  }

  lemma AtBlock(s: Chain, i: nat)
    requires WellFormed(s.records) && Linked(s) && i < |CanonicalBlocks(s)|
    ensures CanonicalBlocks(s)[i].id in s.records
    ensures var b := s.records[CanonicalBlocks(s)[i].id];
            IsAt(s, i + 1, b) && b.hashes == CanonicalBlocks(s)[i].hashes
  {
    hide WellFormed, Linked;
    CanonicalRow(s, i + 1);
  }

  lemma MarkedTx(s: Chain, h: nat, b: BlockRecord, i: nat)
    requires WellFormed(s.records) && Linked(s) && Marked(s) && NoHashTwice(CanonicalBlocks(s))
    requires IsAt(s, h, b) && i < |b.hashes| && Distinct(b.hashes)
    ensures IndexedAt(s, h, b, i)
  {
    hide WellFormed, Linked, CanonicalBlocks, IsAt, ChainIndex, NoHashTwice, FlagsRight, UndoKeysRight, Distinct;
    BlockIsAt(s, h, b);
    ChainIndexAt(CanonicalBlocks(s), h - 1, i);
  }

  lemma MarkedTxs(s: Chain)
    requires WellFormed(s.records) && Linked(s) && Marked(s) && NoHashTwice(CanonicalBlocks(s))
    ensures TxsIndexed(s)
  {
    hide WellFormed, Linked, CanonicalBlocks, IsAt, NoHashTwice, Marked, Distinct, IndexedAt;
    forall h: nat, b, i: nat | IsAt(s, h, b) && i < |b.hashes| && Distinct(b.hashes) ensures IndexedAt(s, h, b, i) {
      MarkedTx(s, h, b, i);
    }
  }

  lemma MarkedOrphans(s: Chain)
    requires WellFormed(s.records) && Linked(s) && Marked(s)
    ensures OrphansMarked(s)
  {
    hide WellFormed, Linked, CanonicalBlocks, IsAt, ChainIndex, FlagsRight, UndoKeysRight;
    var blocks := CanonicalBlocks(s);
    forall hash | hash in s.index && (forall h: nat, b :: IsAt(s, h, b) ==> hash !in b.hashes)
      ensures !s.index[hash].canonical
    {
      ChainIndexHas(blocks, hash);
      if i :| 0 <= i < |blocks| && hash in blocks[i].hashes {
        AtBlock(s, i);
      }
    }
  }

  lemma MarkedReads(s: Chain)
    requires WellFormed(s.records) && Linked(s) && Marked(s) && NoHashTwice(CanonicalBlocks(s))
    ensures MarksAre(s)
  {
    hide WellFormed, Linked, CanonicalBlocks, TxsIndexed, OrphansMarked, IndexRight, UndoKeysRight, NoHashTwice;
    MarkedTxs(s);
    MarkedOrphans(s);
    MarkedFlags(s);
  }

  lemma MarkedFlags(s: Chain)
    requires FlagsRight(s)
    ensures FlagsAre(s)
  {
    forall id | id in s.records
      ensures s.records[id].canonical <==>
                s.records[id].height in s.snap.canonical && s.snap.canonical[s.records[id].height] == id
    {
      assert s.records[id].canonical <==> OnChain(s, id);
    }
  }

  /** Along every run that stops at no root mismatch and in which no chain holds a hash twice, the flags and the index
      are right in every state. */
  lemma RunMarks(host: Host, book: Book, genesis: Core, states: seq<Chain>, events: seq<Event>, i: nat)
    requires IsRun(host, book, genesis, states, events) && i < |states| && NoMismatch(host, book, states, events, i)
    requires forall j :: 0 <= j <= i ==> HashesOnce(states[j])
    ensures MarksAre(states[i])
  {
    hide IsRun, NoMismatch, Inv, Marked, Linked, WellFormed, NoHashTwice, CanonicalBlocks, MarksAre;
    RunIsMarked(host, book, genesis, states, events, i);
    InvParts(host, book, genesis, states[i]);
    assert HashesOnce(states[i]);
    MarkedReads(states[i]);
  }

  /** A reorganisation that wins: the marks are right on the new chain, every block it left is flagged off, and every
      hash only such blocks hold is indexed, and not as canonical. */
  lemma WonReorgMarks(host: Host, book: Book, clock: nat -> nat, genesis: Core, s: Chain, newTip: string)
    requires Inv(host, book, genesis, s) && Marked(s) && NoHashTwice(CanonicalBlocks(s))
    requires Reorg(host, book, clock, s, newTip).1 == Ok(true) && HashesOnce(Reorg(host, book, clock, s, newTip).0)
    ensures var t := Reorg(host, book, clock, s, newTip).0;
            && MarksAre(t)
            && forall h: nat, b :: IsAt(s, h, b) && b.id !in t.snap.canonical.Values ==>
                 && b.id in t.records && !t.records[b.id].canonical
                 && forall hash :: hash in b.hashes && (forall g: nat, c :: IsAt(t, g, c) ==> hash !in c.hashes) ==>
                      hash in t.index && !t.index[hash].canonical
  {
    hide Inv, Marked, Linked, WellFormed, NoHashTwice, CanonicalBlocks, Reorg, IsAt, Ancestry, Stripped, SameButFlags,
         FlagsAre, TxsIndexed;
    InvParts(host, book, genesis, s);
    ReorgMarks(host, book, clock, genesis, s, newTip);
    var t := Reorg(host, book, clock, s, newTip).0;
    InvParts(host, book, genesis, t);
    MarkedReads(t);
    ReorgKeepsFlags(host, book, clock, s, newTip);
    forall h: nat, b | IsAt(s, h, b) && b.id !in t.snap.canonical.Values
      ensures b.id in t.records && !t.records[b.id].canonical
      ensures forall hash :: hash in b.hashes ==> hash in s.index
    {
      LeftBlock(s, t, h, b);
      forall hash | hash in b.hashes ensures hash in s.index {
        IndexedHash(s, h, b, hash);
      }
    }
  }

  lemma LeftBlock(s: Chain, t: Chain, h: nat, b: BlockRecord)
    requires WellFormed(s.records) && IsAt(s, h, b) && SameButFlags(s.records, t.records) && FlagsAre(t)
    requires b.id !in t.snap.canonical.Values
    ensures b.id in t.records && !t.records[b.id].canonical
  {
    assert RowOk(s.records, s.snap.canonical[h]);
    assert b.id == s.snap.canonical[h];
  }

  lemma IndexedHash(s: Chain, h: nat, b: BlockRecord, hash: string)
    requires WellFormed(s.records) && Linked(s) && Marked(s) && IsAt(s, h, b) && hash in b.hashes
    ensures hash in s.index
  {
    hide WellFormed, Linked, CanonicalBlocks, ChainIndex;
    BlockIsAt(s, h, b);
    ChainIndexHas(CanonicalBlocks(s), hash);
  }
}
