/** The chain invariant: the ledger is the replay of its canonical chain. A reorganisation keeps it,
    with the new tip's whole ancestry as the canonical chain. */
module ReorgLaws {
  import opened Basics
  import opened Protocol
  import opened BlockApply
  import opened Undo
  import opened Consensus
  import opened Replay

  // ----- the invariant

  ghost predicate LinkAt(s: Chain, h: nat) {
    var c := s.snap.canonical;
    && h in c && c[h] in s.records && s.records[c[h]].height == h
    && (h > 1 ==> h - 1 in c && s.records[c[h]].parent == Some(c[h - 1]))
  }

  /** `canonical_by_height` is defined exactly on 1..height; each entry's record has that height and
      names the entry below as its parent. */
  ghost predicate Linked(s: Chain) {
    && (forall h :: h in s.snap.canonical <==> 1 <= h <= s.snap.core.counters.height)
    && (forall h {:trigger LinkAt(s, h)} :: 1 <= h <= s.snap.core.counters.height ==> LinkAt(s, h))
  }

  // The canonical record at a height, its flag set aside.
  ghost function BlockAt(s: Chain, h: nat): BlockRecord
    requires Linked(s) && 1 <= h <= s.snap.core.counters.height
  {
    assert LinkAt(s, h);
    Strip(s.records[s.snap.canonical[h]])
  }

  ghost function CanonicalBlocks(s: Chain): seq<BlockRecord>
    requires Linked(s)
  {
    seq(s.snap.core.counters.height, i requires 0 <= i < s.snap.core.counters.height => BlockAt(s, i + 1))
  }

  // The state after the first `h` blocks.
  ghost function SnapAt(host: Host, book: Book, genesis: Core, blocks: seq<BlockRecord>, h: nat): Snap
    requires h <= |blocks| && ReplayBlocks(host, book, genesis, blocks).Ok?
  {
    PrefixReplays(host, book, genesis, blocks, h);
    ReplayBlocks(host, book, genesis, blocks[..h]).value
  }

  lemma {:induction false} PrefixReplays(host: Host, book: Book, genesis: Core, blocks: seq<BlockRecord>, h: nat)
    requires h <= |blocks| && ReplayBlocks(host, book, genesis, blocks).Ok?
    ensures ReplayBlocks(host, book, genesis, blocks[..h]).Ok?
  {
    hide ExtendSnap;
    if h == |blocks| {
      assert blocks[..h] == blocks;
    } else {
      PrefixReplays(host, book, genesis, blocks[..|blocks| - 1], h);
      assert blocks[..|blocks| - 1][..h] == blocks[..h];
    }
  }

  lemma SnapAtPrefix(host: Host, book: Book, genesis: Core, blocks: seq<BlockRecord>, more: seq<BlockRecord>, h: nat)
    requires h <= |blocks| && ReplayBlocks(host, book, genesis, blocks + more).Ok?
    requires ReplayBlocks(host, book, genesis, blocks).Ok?
    ensures SnapAt(host, book, genesis, blocks + more, h) == SnapAt(host, book, genesis, blocks, h)
  {
    hide ExtendSnap;
    assert (blocks + more)[..h] == blocks[..h];
  }

  // The undo row of block `i` takes the state after it to the state before it.
  ghost predicate RowRestores(host: Host, book: Book, genesis: Core, blocks: seq<BlockRecord>, i: nat, u: BlockUndo)
    requires i < |blocks| && ReplayBlocks(host, book, genesis, blocks).Ok?
  {
    && u.height == blocks[i].height
    && RestoreSnap(SnapAt(host, book, genesis, blocks, i + 1), u) == SnapAt(host, book, genesis, blocks, i)
  }

  // Pruned rows may be missing; the kept ones are right.
  ghost predicate UndoRowsOk(host: Host, book: Book, genesis: Core, s: Chain, blocks: seq<BlockRecord>)
    requires ReplayBlocks(host, book, genesis, blocks).Ok?
  {
    forall i :: 0 <= i < |blocks| && blocks[i].id in s.undo ==>
      RowRestores(host, book, genesis, blocks, i, s.undo[blocks[i].id])
  }

  ghost predicate Inv(host: Host, book: Book, genesis: Core, s: Chain) {
    && genesis.counters.height == 0
    && WellFormed(s.records)
    && Linked(s)
    && ReplayBlocks(host, book, genesis, CanonicalBlocks(s)) == Ok(s.snap)
    && UndoRowsOk(host, book, genesis, s, CanonicalBlocks(s))
  }

  lemma InvParts(host: Host, book: Book, genesis: Core, s: Chain)
    requires Inv(host, book, genesis, s)
    ensures WellFormed(s.records) && Linked(s)
    ensures ReplayBlocks(host, book, genesis, CanonicalBlocks(s)) == Ok(s.snap)
    ensures UndoRowsOk(host, book, genesis, s, CanonicalBlocks(s))
  {
  }

  lemma GenesisInv(host: Host, book: Book, genesis: Core)
    requires genesis.counters.height == 0
    ensures Inv(host, book, genesis, Chain(Snap(genesis, map[], None, map[]), map[], map[], map[]))
  {
  }

  // ----- what a replay of a numbered chain looks like

  ghost predicate Numbered(blocks: seq<BlockRecord>) {
    forall i :: 0 <= i < |blocks| ==> blocks[i].height == i + 1
  }

  lemma ExtendShape(host: Host, book: Book, snap: Snap, b: BlockRecord)
    requires ExtendSnap(host, book, snap, b).Ok?
    ensures var t := ExtendSnap(host, book, snap, b).value;
            && t.core.counters.height == b.height && t.canonical == snap.canonical[b.height := b.id]
            && t.tip == Some(Tip(b.height, b.id, b.cumWeight, b.root))
  {
    hide ApplyTxs, ApplyReward;
  }

  lemma {:induction false} ReplayShape(host: Host, book: Book, genesis: Core, blocks: seq<BlockRecord>)
    requires genesis.counters.height == 0 && Numbered(blocks) && ReplayBlocks(host, book, genesis, blocks).Ok?
    ensures var t := ReplayBlocks(host, book, genesis, blocks).value;
            && t.core.counters.height == |blocks|
            && (forall h :: h in t.canonical <==> 1 <= h <= |blocks|)
            && (forall h :: h in t.canonical ==> t.canonical[h] == blocks[h - 1].id)
            && (t.tip.None? <==> blocks == [])
            && (blocks != [] ==> var b := blocks[|blocks| - 1]; t.tip == Some(Tip(|blocks|, b.id, b.cumWeight, b.root)))
  {
    hide ExtendSnap;
    if blocks != [] {
      ReplayShape(host, book, genesis, blocks[..|blocks| - 1]);
      ExtendShape(host, book, ReplayBlocks(host, book, genesis, blocks[..|blocks| - 1]).value, blocks[|blocks| - 1]);
    }
  }

  lemma CanonicalRow(s: Chain, h: nat)
    requires WellFormed(s.records) && Linked(s) && 1 <= h <= s.snap.core.counters.height
    ensures h in s.snap.canonical && s.snap.canonical[h] in s.records
    ensures CanonicalBlocks(s)[h - 1] == Strip(s.records[s.snap.canonical[h]])
    ensures CanonicalBlocks(s)[h - 1].id == s.snap.canonical[h] != ""
    ensures CanonicalBlocks(s)[h - 1].height == h
    ensures CanonicalBlocks(s)[h - 1].parent == (if h == 1 then None else Some(CanonicalBlocks(s)[h - 2].id))
  {
    var c := s.snap.canonical;
    assert LinkAt(s, h);
    assert RowOk(s.records, c[h]);
    if h > 1 {
      assert LinkAt(s, h - 1);
    }
  }

  // The tip is the top entry.
  lemma InvShape(host: Host, book: Book, genesis: Core, s: Chain)
    requires Inv(host, book, genesis, s)
    ensures Numbered(CanonicalBlocks(s))
    ensures s.snap.tip.None? <==> CanonicalBlocks(s) == []
    ensures CanonicalBlocks(s) != [] ==>
              var n := |CanonicalBlocks(s)|;
              && n in s.snap.canonical && s.snap.canonical[n] in s.records
              && var top := s.records[s.snap.canonical[n]];
                 s.snap.tip == Some(Tip(n, s.snap.canonical[n], top.cumWeight, top.root))
  {
    hide ExtendSnap, RestoreSnap, UndoRowsOk, ReplayBlocks, Linked, WellFormed;
    var blocks := CanonicalBlocks(s);
    forall i | 0 <= i < |blocks| ensures blocks[i].height == i + 1 {
      CanonicalRow(s, i + 1);
    }
    ReplayShape(host, book, genesis, blocks);
    if blocks != [] {
      CanonicalRow(s, |blocks|);
    }
  }

  // Conversely, a numbered, linked and stored sequence that replays to the state is its chain.
  ghost predicate StoredExactly(records: map<string, BlockRecord>, blocks: seq<BlockRecord>) {
    forall i :: 0 <= i < |blocks| ==> blocks[i].id in records && Strip(records[blocks[i].id]) == blocks[i]
  }

  ghost predicate ParentLinked(blocks: seq<BlockRecord>) {
    forall i, j :: 0 <= i < |blocks| && 0 <= j < |blocks| && j == i + 1 ==> blocks[j].parent == Some(blocks[i].id)
  }

  lemma FlagsKeepStored(a: map<string, BlockRecord>, b: map<string, BlockRecord>, blocks: seq<BlockRecord>)
    requires SameButFlags(a, b) && StoredExactly(a, blocks)
    ensures StoredExactly(b, blocks)
  {
    forall i | 0 <= i < |blocks| ensures blocks[i].id in b && Strip(b[blocks[i].id]) == blocks[i] {
      assert Strip(a[blocks[i].id]) == Strip(b[blocks[i].id]);
    }
  }

  lemma LinkedFromBlocks(s: Chain, blocks: seq<BlockRecord>)
    requires s.snap.core.counters.height == |blocks| && Numbered(blocks)
    requires forall h :: h in s.snap.canonical <==> 1 <= h <= |blocks|
    requires forall h :: h in s.snap.canonical ==> s.snap.canonical[h] == blocks[h - 1].id
    requires StoredExactly(s.records, blocks)
    requires ParentLinked(blocks)
    ensures Linked(s) && CanonicalBlocks(s) == blocks
  {
    forall h | 1 <= h <= |blocks| ensures LinkAt(s, h) {
      assert Strip(s.records[blocks[h - 1].id]) == blocks[h - 1];
      if h > 1 {
        assert blocks[h - 1].parent == Some(blocks[h - 2].id);
      }
    }
    assert Linked(s);
    forall i | 0 <= i < |blocks| ensures CanonicalBlocks(s)[i] == blocks[i] {
      assert LinkAt(s, i + 1);
    }
  }

  lemma InvFromBlocks(host: Host, book: Book, genesis: Core, s: Chain, blocks: seq<BlockRecord>)
    requires genesis.counters.height == 0 && WellFormed(s.records) && Numbered(blocks)
    requires ReplayBlocks(host, book, genesis, blocks) == Ok(s.snap)
    requires StoredExactly(s.records, blocks)
    requires ParentLinked(blocks)
    requires UndoRowsOk(host, book, genesis, s, blocks)
    ensures Inv(host, book, genesis, s) && CanonicalBlocks(s) == blocks
  {
    hide ExtendSnap, RestoreSnap, UndoRowsOk, ReplayBlocks, Linked, WellFormed, StoredExactly, ParentLinked;
    ReplayShape(host, book, genesis, blocks);
    LinkedFromBlocks(s, blocks);
  }

  // ----- fork choice on a well-formed store

  lemma {:induction false} CanonicalAncestors(s: Chain, h: nat)
    requires WellFormed(s.records) && Linked(s) && h in s.snap.canonical
    ensures forall id :: id in AncestorIds(s.records, Some(s.snap.canonical[h]))
                         <==> exists g :: g in s.snap.canonical && g <= h && s.snap.canonical[g] == id
  {
    var c := s.snap.canonical;
    CanonicalRow(s, h);
    assert LinkAt(s, h) && RowOk(s.records, c[h]);
    if h == 1 {
      assert AncestorIds(s.records, None) == {};
      assert forall id :: id in AncestorIds(s.records, Some(c[1])) ==> id == c[1];
    } else {
      assert h - 1 in c && s.records[c[h]].parent == Some(c[h - 1]);
      CanonicalAncestors(s, h - 1);
      forall id ensures id in AncestorIds(s.records, Some(c[h]))
                        <==> exists g :: g in c && g <= h && c[g] == id
      {
        if id in AncestorIds(s.records, Some(c[h])) && id != c[h] {
          assert id in AncestorIds(s.records, Some(c[h - 1]));
        }
      }
    }
  }

  /** The branch from the common ancestor to `cur`: linked, numbered upwards from the ancestor, and
      disjoint from everything at or below the stopping set. */
  ghost predicate BranchShape(records: map<string, BlockRecord>, stop: set<string>, ancestor: string,
                              cur: Option<string>, bs: seq<BlockRecord>)
  {
    && (forall i :: 0 <= i < |bs| ==> bs[i].id in records && records[bs[i].id] == bs[i] && bs[i].id !in stop)
    && (forall i, j :: 0 <= i < |bs| && 0 <= j < |bs| && j == i + 1 ==> bs[j].parent == Some(bs[i].id))
    && (ancestor == "" || ancestor in stop)
    && (bs == [] ==> cur.None? || cur.value == ancestor)
    && (bs != [] ==> cur == Some(bs[|bs| - 1].id) && bs[0].parent == (if ancestor == "" then None else Some(ancestor)))
    && (ancestor == "" ==> forall i :: 0 <= i < |bs| ==> bs[i].height == i + 1)
    && (ancestor in records ==> forall i :: 0 <= i < |bs| ==> bs[i].height == records[ancestor].height + i + 1)
  }

  lemma {:induction false} BranchHasShape(records: map<string, BlockRecord>, stop: set<string>, cur: Option<string>)
    requires WellFormed(records) && "" !in stop && cur != Some("")
    requires BranchTo(records, ClimbTo(records, stop, cur), cur).Ok?
    ensures var a := ClimbTo(records, stop, cur);
            BranchShape(records, stop, a, cur, BranchTo(records, a, cur).value)
    decreases Rank(records, cur)
  {
    var a := ClimbTo(records, stop, cur);
    if cur.Some? && cur.value !in stop {
      assert cur.value != a by {
        ClimbStops(records, stop, cur);
      }
      var up := Parent(records, cur.value);
      assert RowOk(records, cur.value);
      ParentRanksLower(records, cur.value);
      BranchHasShape(records, stop, up);
      var below := BranchTo(records, a, up).value;
      var bs := BranchTo(records, a, cur).value;
      assert bs == below + [records[cur.value]];
      if below != [] {
        assert records[below[|below| - 1].id] == below[|below| - 1];
      }
    }
  }

  lemma {:induction false} ClimbStops(records: map<string, BlockRecord>, stop: set<string>, cur: Option<string>)
    requires WellFormed(records)
    ensures ClimbTo(records, stop, cur) == "" || ClimbTo(records, stop, cur) in stop
    decreases Rank(records, cur)
  {
    if cur.Some? && cur.value !in stop {
      ParentRanksLower(records, cur.value);
      ClimbStops(records, stop, Parent(records, cur.value));
    }
  }

  // ----- unwinding follows the replay backwards

  lemma UndoRowAt(host: Host, book: Book, genesis: Core, s: Chain, blocks: seq<BlockRecord>, i: nat)
    requires ReplayBlocks(host, book, genesis, blocks).Ok? && UndoRowsOk(host, book, genesis, s, blocks)
    requires i < |blocks| && blocks[i].id in s.undo
    ensures RowRestores(host, book, genesis, blocks, i, s.undo[blocks[i].id])
  {
    hide ReplayBlocks, RowRestores;
  }

  lemma UnwindOneReplays(host: Host, book: Book, genesis: Core, s0: Chain, s: Chain, h: nat)
    requires Inv(host, book, genesis, s0) && 1 <= h <= s0.snap.core.counters.height
    requires s.snap == SnapAt(host, book, genesis, CanonicalBlocks(s0), h)
    requires SameButFlags(s0.records, s.records) && s.undo == s0.undo
    requires UnwindOne(s, s0.snap.canonical[h]).1.Ok?
    ensures var (t, r) := UnwindOne(s, s0.snap.canonical[h]);
            && t.snap == SnapAt(host, book, genesis, CanonicalBlocks(s0), h - 1)
            && SameButFlags(s0.records, t.records) && t.undo == s0.undo
            && r.value == (if h == 1 then None else Some(s0.snap.canonical[h - 1]))
  {
    hide ExtendSnap, RestoreSnap, ReplayBlocks, Linked, UnwindOne, WellFormed, Inv, SnapAt, UndoRowsOk, BlockAt;
    InvParts(host, book, genesis, s0);
    CanonicalRow(s0, h);
    var id, blocks := s0.snap.canonical[h], CanonicalBlocks(s0);
    UnwindOneFlags(s, id);
    UndoRowAt(host, book, genesis, s0, blocks, h - 1);
    assert Strip(s0.records[id]) == Strip(s.records[id]);
    if h > 1 {
      CanonicalRow(s0, h - 1);
    }
  }

  lemma {:induction false} UnwindReplays(host: Host, book: Book, genesis: Core, s0: Chain, s: Chain, h: nat, k: nat,
                                         ancestor: string)
    requires Inv(host, book, genesis, s0)
    requires k <= h <= s0.snap.core.counters.height
    requires ancestor == (if k == 0 then "" else s0.snap.canonical[k])
    requires s.snap == SnapAt(host, book, genesis, CanonicalBlocks(s0), h)
    requires SameButFlags(s0.records, s.records) && WellFormed(s.records) && s.undo == s0.undo
    requires Unwind(s, if h == 0 then None else Some(s0.snap.canonical[h]), ancestor).1.Ok?
    ensures var t := Unwind(s, if h == 0 then None else Some(s0.snap.canonical[h]), ancestor).0;
            && t.snap == SnapAt(host, book, genesis, CanonicalBlocks(s0), k)
            && SameButFlags(s0.records, t.records) && t.undo == s0.undo
    decreases h
  {
    hide ExtendSnap, RestoreSnap, UnwindOne, UndoRowsOk, ReplayBlocks, Linked, WellFormed, SameButFlags;
    var c := s0.snap.canonical;
    if h > k {
      CanonicalRow(s0, h);
      if k > 0 {
        CanonicalRow(s0, k);
      }
      assert c[h] != ancestor;
      var s1 := UnwindOne(s, c[h]).0;
      UnwindOneFlags(s, c[h]);
      FlagsKeepWellFormed(s.records, s1.records);
      ParentRanksLower(s.records, c[h]);
      UnwindOneReplays(host, book, genesis, s0, s, h);
      UnwindReplays(host, book, genesis, s0, s1, h - 1, k, ancestor);
    }
  }

  // ----- applying the branch follows the replay forwards

  function Stripped(bs: seq<BlockRecord>): seq<BlockRecord> {
    seq(|bs|, i requires 0 <= i < |bs| => Strip(bs[i]))
  }

  ghost function Ids(bs: seq<BlockRecord>): set<string> {
    set i | 0 <= i < |bs| :: bs[i].id
  }

  /** `t` continues `s` by `bs`: it replays, only flags changed, each new undo row restores the state
      before its block, and no other undo row changed. */
  ghost predicate Continues(host: Host, book: Book, genesis: Core, prefix: seq<BlockRecord>, s: Chain,
                            bs: seq<BlockRecord>, t: Chain)
  {
    var all := prefix + Stripped(bs);
    && ReplayBlocks(host, book, genesis, all) == Ok(t.snap)
    && SameButFlags(s.records, t.records)
    && NewRowsRestore(host, book, genesis, all, |prefix|, t)
    && (forall id :: id !in Ids(bs) ==> (id in s.undo <==> id in t.undo) && (id in s.undo ==> s.undo[id] == t.undo[id]))
  }

  lemma ReplaySnoc(host: Host, book: Book, genesis: Core, blocks: seq<BlockRecord>, b: BlockRecord, before: Snap,
                   after: Snap)
    requires ReplayBlocks(host, book, genesis, blocks) == Ok(before)
    requires ExtendSnap(host, book, before, b) == Ok(after)
    ensures ReplayBlocks(host, book, genesis, blocks + [b]) == Ok(after)
    ensures SnapAt(host, book, genesis, blocks + [b], |blocks|) == before
    ensures SnapAt(host, book, genesis, blocks + [b], |blocks| + 1) == after
  {
    hide ExtendSnap;
    var all := blocks + [b];
    assert all[..|all| - 1] == blocks && all[..|blocks|] == blocks && all[..|blocks| + 1] == all;
  }

  ghost predicate NewRowsRestore(host: Host, book: Book, genesis: Core, all: seq<BlockRecord>, from: nat, t: Chain)
    requires ReplayBlocks(host, book, genesis, all).Ok?
  {
    forall i :: from <= i < |all| ==> all[i].id in t.undo && RowRestores(host, book, genesis, all, i, t.undo[all[i].id])
  }

  lemma OneMoreRowRestores(host: Host, book: Book, genesis: Core, all: seq<BlockRecord>, from: nat, s: Chain,
                           b: BlockRecord, t: Chain)
    requires ReplayBlocks(host, book, genesis, all) == Ok(s.snap) && from <= |all|
    requires NewRowsRestore(host, book, genesis, all, from, s)
    requires forall i :: from <= i < |all| ==> all[i].id != b.id
    requires ExtendSnap(host, book, s.snap, b) == Ok(t.snap)
    requires b.id in t.undo && t.undo == s.undo[b.id := t.undo[b.id]]
    requires t.undo[b.id].height == b.height && RestoreSnap(t.snap, t.undo[b.id]) == s.snap
    ensures ReplayBlocks(host, book, genesis, all + [b]) == Ok(t.snap)
    ensures NewRowsRestore(host, book, genesis, all + [b], from, t)
  {
    hide ExtendSnap, RestoreSnap, ReplayBlocks, SnapAt;
    ReplaySnoc(host, book, genesis, all, b, s.snap, t.snap);
    var more := all + [b];
    forall i | from <= i < |more|
      ensures more[i].id in t.undo && RowRestores(host, book, genesis, more, i, t.undo[more[i].id])
    {
      if i < |all| {
        assert RowRestores(host, book, genesis, all, i, s.undo[all[i].id]);
        SnapAtPrefix(host, book, genesis, all, [b], i);
        SnapAtPrefix(host, book, genesis, all, [b], i + 1);
      }
    }
  }

  lemma IdsOneMore(bs: seq<BlockRecord>, b: BlockRecord)
    ensures Ids(bs + [b]) == Ids(bs) + {b.id}
  {
    assert (bs + [b])[|bs|] == b && forall i :: 0 <= i < |bs| ==> (bs + [b])[i] == bs[i];
  }

  lemma ContinuesOneMore(host: Host, book: Book, genesis: Core, prefix: seq<BlockRecord>, s0: Chain,
                         bs: seq<BlockRecord>, s: Chain, b: BlockRecord, t: Chain)
    requires Continues(host, book, genesis, prefix, s0, bs, s)
    requires b.id !in Ids(bs) && b.id in s.records && Strip(s.records[b.id]) == Strip(b)
    requires ExtendSnap(host, book, s.snap, Strip(b)) == Ok(t.snap)
    requires t.records == s.records[b.id := Strip(b)]
    requires b.id in t.undo && t.undo == s.undo[b.id := t.undo[b.id]]
    requires t.undo[b.id].height == b.height && RestoreSnap(t.snap, t.undo[b.id]) == s.snap
    ensures Continues(host, book, genesis, prefix, s0, bs + [b], t)
  {
    hide ExtendSnap, RestoreSnap, ReplayBlocks, RowRestores, NewRowsRestore, SnapAt;
    var all := prefix + Stripped(bs);
    assert prefix + Stripped(bs + [b]) == all + [Strip(b)];
    forall i | |prefix| <= i < |all| ensures all[i].id != b.id {
      assert all[i].id == bs[i - |prefix|].id && bs[i - |prefix|].id in Ids(bs);
    }
    OneMoreRowRestores(host, book, genesis, all, |prefix|, s, Strip(b), t);
    forall id | id in s0.records ensures Strip(s0.records[id]) == Strip(t.records[id]) {
      assert Strip(s0.records[id]) == Strip(s.records[id]);
    }
    IdsOneMore(bs, b);
  }

  lemma ForwardExtends(host: Host, book: Book, now: nat, s: Chain, b: BlockRecord)
    requires |b.hashes| == |b.txs| && Forward(host, book, now, s, b).1.Ok?
    ensures var t := Forward(host, book, now, s, b).0;
            && ExtendSnap(host, book, s.snap, Strip(b)) == Ok(t.snap)
            && t.records == s.records[b.id := Strip(b)]
            && b.id in t.undo && t.undo == s.undo[b.id := t.undo[b.id]]
            && t.undo[b.id].height == b.height && RestoreSnap(t.snap, t.undo[b.id]) == s.snap
  {
    hide ExtendSnap, RestoreSnap, CommitRow;
    CommitExtends(host, book, now, s, b);
    StripExtends(host, book, s.snap, b);
  }

  // The flag plays no part in the replay.
  lemma StripExtends(host: Host, book: Book, snap: Snap, b: BlockRecord)
    ensures ExtendSnap(host, book, snap, Strip(b)) == ExtendSnap(host, book, snap, b)
  {
    hide ApplyBlock;
  }

  lemma ContinuesFlags(host: Host, book: Book, genesis: Core, prefix: seq<BlockRecord>, s0: Chain,
                       bs: seq<BlockRecord>, s: Chain)
    requires Continues(host, book, genesis, prefix, s0, bs, s)
    ensures SameButFlags(s0.records, s.records)
  {
  }

  lemma ContinuesNothing(host: Host, book: Book, genesis: Core, prefix: seq<BlockRecord>, s: Chain)
    requires ReplayBlocks(host, book, genesis, prefix) == Ok(s.snap)
    ensures Continues(host, book, genesis, prefix, s, [], s)
  {
    hide ExtendSnap, ReplayBlocks;
    assert prefix + Stripped([]) == prefix;
  }

  lemma ContinuesReplays(host: Host, book: Book, genesis: Core, prefix: seq<BlockRecord>, s: Chain,
                         bs: seq<BlockRecord>, t: Chain)
    requires Continues(host, book, genesis, prefix, s, bs, t)
    ensures ReplayBlocks(host, book, genesis, prefix + Stripped(bs)) == Ok(t.snap)
  {
    hide ReplayBlocks, NewRowsRestore;
  }

  lemma NextOfBranch(records: map<string, BlockRecord>, done: seq<BlockRecord>, bs: seq<BlockRecord>)
    requires bs != [] && HashesListed(bs) && StoredExactly(records, Stripped(bs)) && DistinctIds(done + bs)
    ensures bs[0].id !in Ids(done) && |bs[0].hashes| == |bs[0].txs|
    ensures bs[0].id in records && Strip(records[bs[0].id]) == Strip(bs[0])
    ensures HashesListed(bs[1..]) && StoredExactly(records, Stripped(bs[1..]))
    ensures done + [bs[0]] + bs[1..] == done + bs
  {
    assert (done + bs)[|done|] == bs[0] && forall i :: 0 <= i < |done| ==> (done + bs)[i] == done[i];
    assert Stripped(bs)[0] == Strip(bs[0]);
    assert forall i :: 0 <= i < |bs[1..]| ==> Stripped(bs[1..])[i] == Stripped(bs)[i + 1];
  }

  lemma {:induction false} BranchContinues(host: Host, book: Book, clock: nat -> nat, genesis: Core,
                                           prefix: seq<BlockRecord>, s0: Chain, done: seq<BlockRecord>, s: Chain,
                                           bs: seq<BlockRecord>)
    requires HashesListed(bs) && ApplyBranch(host, book, clock, s, bs).1.Ok? && StoredExactly(s0.records, Stripped(bs))
    requires DistinctIds(done + bs)
    requires Continues(host, book, genesis, prefix, s0, done, s)
    ensures Continues(host, book, genesis, prefix, s0, done + bs, ApplyBranch(host, book, clock, s, bs).0)
    decreases |bs|
  {
    hide ExtendSnap, RestoreSnap, ReplayBlocks, Forward, Continues, DistinctIds, Ids, StoredExactly;
    if bs == [] {
      assert done + bs == done;
    } else {
      var b := bs[0];
      NextOfBranch(s0.records, done, bs);
      var s1 := Forward(host, book, clock(b.height), s, b).0;
      ForwardExtends(host, book, clock(b.height), s, b);
      ContinuesFlags(host, book, genesis, prefix, s0, done, s);
      assert Strip(s0.records[b.id]) == Strip(s.records[b.id]);
      ContinuesOneMore(host, book, genesis, prefix, s0, done, s, b, s1);
      BranchContinues(host, book, clock, genesis, prefix, s0, done + [b], s1, bs[1..]);
    }
  }
}
