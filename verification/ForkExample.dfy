/** The smallest forks: two blocks at height 1, the second heavier. The invariant holds there and the
    reorganisation succeeds; with a wrong root on the second it fails half way. */
module ForkExample {
  import opened Basics
  import opened Protocol
  import opened Undo
  import opened Consensus
  import opened Replay
  import opened ReorgLaws
  import opened ForkChoiceLaws
  import opened ChainSteps
  import opened ReorgOutcomes
  import opened ChainRuns
  import opened Pruning

  const HOST: Host := Host(None, "burn", [], s => s, b => "root", e => None, (h, p, r, t, q) => "id",
                           (i, j, r) => ZkOther, w => None, h => None, 0, f => 0)
  const BOOK: Book := Book([], None, 0, 0, map[])
  const GENESIS: Core := Core(map[], Counters(0, 0, 0, 0, 0), map[], map[])
  const LIGHT: BlockRecord := BlockRecord(1, "a", None, "p", [], [], "root", Reward(0, 0, 0), 10, 10, true)
  const HEAVY: BlockRecord := BlockRecord(1, "b", None, "q", [], [], "root", Reward(0, 0, 0), 20, 20, false)

  lemma EmptyBlockCommits(s: Chain, b: BlockRecord)
    requires b.hashes == [] && b.txs == [] && b.root == "root" && b.reward == Reward(0, 0, 0)
    ensures var (t, r) := CommitRow(HOST, BOOK, 0, s, b);
            && r.Ok? && t.records == s.records[b.id := b.(canonical := true)] && b.id in t.undo
            && t.snap.tip == Some(Tip(b.height, b.id, b.cumWeight, b.root))
            && t.snap.canonical == s.snap.canonical[b.height := b.id] && t.snap.core.counters.height == b.height
            && t.undo == s.undo[b.id := t.undo[b.id]]
    ensures Forward(HOST, BOOK, 0, s, b) == CommitRow(HOST, BOOK, 0, s, b)
  {
    hide PrepareUndo;
  }

  lemma Extends(s: Chain, b: BlockRecord)
    requires b.hashes == [] && b.txs == [] && b.root == "root" && b.reward == Reward(0, 0, 0) && b.canonical
    requires Inv(HOST, BOOK, GENESIS, s) && OnTop(s, b)
    ensures var t := CommitRow(HOST, BOOK, 0, s, b).0;
            && Inv(HOST, BOOK, GENESIS, t) && t.records == s.records[b.id := b]
            && t.snap.canonical == s.snap.canonical[b.height := b.id] && t.snap.core.counters.height == b.height
            && t.snap.tip == Some(Tip(b.height, b.id, b.cumWeight, b.root))
            && b.id in t.undo && t.undo == s.undo[b.id := t.undo[b.id]] && t.undo[b.id].height == b.height
  {
    hide Inv, CommitRow, OnTop, ExtendSnap, RestoreSnap;
    EmptyBlockCommits(s, b);
    CommitExtends(HOST, BOOK, 0, s, b);
    ExtendKeepsInv(HOST, BOOK, GENESIS, 0, s, b);
  }

  lemma OneInv()
    ensures var s := One();
            && Inv(HOST, BOOK, GENESIS, s) && s.records == map["a" := LIGHT]
            && s.snap.canonical == map[1 := "a"] && s.snap.core.counters.height == 1
            && s.snap.tip == Some(Tip(1, "a", 10, "root"))
            && s.undo.Keys == {"a"} && s.undo["a"].height == 1
  {
    hide Inv, CommitRow;
    GenesisInv(HOST, BOOK, GENESIS);
    Extends(Start(GENESIS), LIGHT);
  }

  ghost function One(): Chain {
    CommitRow(HOST, BOOK, 0, Start(GENESIS), LIGHT).0
  }

  // The rival under some claimed root.
  function Rival(root: string): BlockRecord {
    HEAVY.(root := root)
  }

  ghost function Forked(root: string): Chain {
    RecordBlock(One(), Rival(root))
  }

  lemma ForkedInv(root: string)
    ensures Inv(HOST, BOOK, GENESIS, Forked(root))
    ensures Forked(root).records == map["a" := LIGHT, "b" := Rival(root)] && "a" in Forked(root).undo
    ensures Forked(root).snap.tip == Some(Tip(1, "a", 10, "root"))
    ensures Forked(root).snap.core.counters.height == 1
  {
    hide Inv, One;
    OneInv();
    OffChainKeepsInv(HOST, BOOK, GENESIS, One(), Rival(root), 20);
  }

  lemma ForkedSearch(records: map<string, BlockRecord>, root: string)
    requires records == map["a" := LIGHT, "b" := Rival(root)]
    ensures WellFormed(records)
    ensures CommonAncestor(records, "a", "b") == ""
    ensures BranchTo(records, "", Some("b")) == Ok([Rival(root)])
  {
    assert RowOk(records, "a") && RowOk(records, "b");
    assert Parent(records, "a") == None && Parent(records, "b") == None;
    assert AncestorIds(records, None) == {};
    assert AncestorIds(records, Some("a")) == {"a"};
    assert ClimbTo(records, {"a"}, None) == "";
    assert BranchTo(records, "", None) == Ok([]);
    assert [] + [Rival(root)] == [Rival(root)];
  }

  // The old tip unwinds to the empty chain.
  lemma LightUnwinds(s: Chain)
    requires Inv(HOST, BOOK, GENESIS, s) && s.snap.tip == Some(Tip(1, "a", 10, "root")) && "a" in s.undo
    ensures WellFormed(s.records)
    ensures var (u, r) := Unwind(s, Some("a"), "");
            && r.Ok? && Inv(HOST, BOOK, GENESIS, u) && CanonicalBlocks(u) == []
            && u.snap.tip == None && u.snap.core.counters.height == 0
  {
    hide Inv, Unwind, CanonicalBlocks, Linked, WellFormed;
    InvParts(HOST, BOOK, GENESIS, s);
    TopIdIs(HOST, BOOK, GENESIS, s);
    TipRowStored(HOST, BOOK, GENESIS, s);
    UnwindFromInv(HOST, BOOK, GENESIS, s, 0);
    TopIdIs(HOST, BOOK, GENESIS, Unwind(s, Some("a"), "").0);
  }

  lemma RivalApplies(s: Chain, clock: nat -> nat)
    requires clock(1) == 0
    ensures ApplyBranch(HOST, BOOK, clock, s, [HEAVY]).1.Ok?
    ensures ApplyBranch(HOST, BOOK, clock, s, [HEAVY]).0.snap.tip == Some(Tip(1, "b", 20, "root"))
  {
    hide CommitRow, Forward;
    EmptyBlockCommits(s, HEAVY);
    var t := Forward(HOST, BOOK, 0, s, HEAVY).0;
    assert ApplyBranch(HOST, BOOK, clock, t, []) == (t, Ok(()));
    assert [HEAVY][1..] == [] && [HEAVY][0] == HEAVY;
  }

  /** From a state that satisfies the invariant, the heavier rival becomes the chain. */
  lemma HeavierRivalWins(clock: nat -> nat)
    requires clock(1) == 0
    ensures Inv(HOST, BOOK, GENESIS, Forked("root"))
    ensures Reorg(HOST, BOOK, clock, Forked("root"), "b").1 == Ok(true)
    ensures Reorg(HOST, BOOK, clock, Forked("root"), "b").0.snap.tip == Some(Tip(1, "b", 20, "root"))
  {
    hide Inv, Forked, CommonAncestor, BranchTo, Unwind, ApplyBranch, WellFormed;
    var s := Forked("root");
    ForkedInv("root");
    ForkedSearch(s.records, "root");
    LightUnwinds(s);
    RivalApplies(Unwind(s, Some("a"), "").0, clock);
  }

  // A block that claims another root is applied before that is found out.
  lemma WrongRootCommits(s: Chain, b: BlockRecord)
    requires b.hashes == [] && b.txs == [] && b.root != "root" && b.reward == Reward(0, 0, 0)
    ensures Forward(HOST, BOOK, 0, s, b).1 == Err(RootMismatch)
    ensures Forward(HOST, BOOK, 0, s, b) == CommitRow(HOST, BOOK, 0, s, b)
  {
    hide PrepareUndo;
  }

  lemma WrongRivalApplies(s: Chain, clock: nat -> nat)
    requires clock(1) == 0
    ensures var (t, r) := ApplyBranch(HOST, BOOK, clock, s, [Rival("bad")]);
            && r == Err(RootMismatch) && t.snap == s.snap.(core := t.snap.core) && t.snap.core.counters.height == 1
  {
    hide CommitRow, Forward;
    assert [Rival("bad")][0] == Rival("bad");
    WrongRootCommits(s, Rival("bad"));
    FailedCommit(HOST, BOOK, 0, s, Rival("bad"));
  }

  /** The same fork with a wrong root on the heavier block: the reorganisation fails with the old tip undone
      and the new block applied, at height 1 with no tip. The invariant is gone and the weight has dropped. */
  lemma WrongRivalLeavesNoTip(clock: nat -> nat)
    requires clock(1) == 0
    ensures Inv(HOST, BOOK, GENESIS, Forked("bad")) && TipWeight(Forked("bad")) == 10
    ensures var (t, r) := Reorg(HOST, BOOK, clock, Forked("bad"), "b");
            && r == Err(RootMismatch) && t.snap.tip == None && t.snap.core.counters.height == 1
            && !Linked(t) && TipWeight(t) == 0
  {
    hide Inv, Forked, CommonAncestor, BranchTo, Unwind, ApplyBranch, WellFormed, Linked;
    var s := Forked("bad");
    ForkedInv("bad");
    ForkedSearch(s.records, "bad");
    LightUnwinds(s);
    var u := Unwind(s, Some("a"), "").0;
    WrongRivalApplies(u, clock);
    InvParts(HOST, BOOK, GENESIS, u);
    AppliedUnrecorded(u, Reorg(HOST, BOOK, clock, s, "b").0);
  }

  // ----- a failed reorganisation whose tip is heavier

  const MIDDLE: BlockRecord := BlockRecord(1, "b", None, "q", [], [], "root", Reward(0, 0, 0), 30, 30, false)
  const TOP: BlockRecord := BlockRecord(2, "c", Some("b"), "q", [], [], "bad", Reward(0, 0, 0), 10, 40, false)

  ghost function Stacked(): Chain {
    RecordBlock(RecordBlock(One(), MIDDLE), TOP)
  }

  lemma StackedInv()
    ensures Inv(HOST, BOOK, GENESIS, Stacked())
    ensures Stacked().records == map["a" := LIGHT, "b" := MIDDLE, "c" := TOP] && "a" in Stacked().undo
    ensures Stacked().snap.tip == Some(Tip(1, "a", 10, "root"))
  {
    hide Inv, One;
    OneInv();
    OffChainKeepsInv(HOST, BOOK, GENESIS, One(), MIDDLE, 30);
    OffChainKeepsInv(HOST, BOOK, GENESIS, RecordBlock(One(), MIDDLE), TOP, 10);
  }

  lemma StackedSearch(records: map<string, BlockRecord>)
    requires records == map["a" := LIGHT, "b" := MIDDLE, "c" := TOP]
    ensures WellFormed(records)
    ensures CommonAncestor(records, "a", "c") == ""
    ensures BranchTo(records, "", Some("c")) == Ok([MIDDLE, TOP])
  {
    assert RowOk(records, "a") && RowOk(records, "b") && RowOk(records, "c");
    assert Parent(records, "a") == None && Parent(records, "b") == None && Parent(records, "c") == Some("b");
    assert AncestorIds(records, None) == {};
    assert AncestorIds(records, Some("a")) == {"a"};
    assert ClimbTo(records, {"a"}, None) == "";
    assert ClimbTo(records, {"a"}, Some("b")) == "";
    assert BranchTo(records, "", None) == Ok([]);
    assert [] + [MIDDLE] == [MIDDLE] && [MIDDLE] + [TOP] == [MIDDLE, TOP];
    assert BranchTo(records, "", Some("b")) == Ok([MIDDLE]);
  }

  lemma StackApplies(s: Chain, clock: nat -> nat)
    requires clock(1) == 0 == clock(2)
    ensures HashesListed([MIDDLE, TOP])
    ensures var (t, r) := ApplyBranch(HOST, BOOK, clock, s, [MIDDLE, TOP]);
            r == Err(RootMismatch) && t.snap.tip == Some(Tip(1, "b", 30, "root"))
  {
    hide CommitRow, Forward;
    EmptyBlockCommits(s, MIDDLE);
    var t := Forward(HOST, BOOK, 0, s, MIDDLE).0;
    WrongRootCommits(t, TOP);
    FailedCommit(HOST, BOOK, 0, t, TOP);
    assert [MIDDLE, TOP][1..] == [TOP] && [MIDDLE, TOP][0] == MIDDLE && [TOP][0] == TOP;
  }

  /** Undone and failed, yet heavier: the branch's first block applied and outweighs the old tip. */
  lemma FailedYetHeavier(clock: nat -> nat)
    requires clock(1) == 0 == clock(2)
    ensures Inv(HOST, BOOK, GENESIS, Stacked())
    ensures WellFormed(Stacked().records) && Unwound(Stacked(), "c").snap.tip == None
    ensures var (t, r) := Reorg(HOST, BOOK, clock, Stacked(), "c");
            r == Err(RootMismatch) && TipWeight(t) == 30 && TipWeight(Stacked()) == 10
  {
    hide Inv, Stacked, CommonAncestor, BranchTo, Unwind, ApplyBranch, WellFormed;
    var s := Stacked();
    StackedInv();
    StackedSearch(s.records);
    LightUnwinds(s);
    StackApplies(Unwind(s, Some("a"), "").0, clock);
  }

  // ----- pruned, then replaced by a heavier and shorter chain

  const SECOND: BlockRecord := BlockRecord(2, "m", Some("a"), "p", [], [], "root", Reward(0, 0, 0), 10, 20, true)
  const THIRD: BlockRecord := BlockRecord(3, "n", Some("m"), "p", [], [], "root", Reward(0, 0, 0), 10, 30, true)
  const SHORT: BlockRecord := BlockRecord(2, "w", Some("a"), "q", [], [], "root", Reward(0, 0, 0), 30, 40, false)

  ghost function Two(): Chain {
    CommitRow(HOST, BOOK, 0, One(), SECOND).0
  }

  ghost function Three(): Chain {
    CommitRow(HOST, BOOK, 0, Two(), THIRD).0
  }

  // Three blocks and a rival to the upper two.
  ghost function Tall(): Chain {
    RecordBlock(Three(), SHORT)
  }

  // Pruned at height three and depth one.
  ghost function TallPruned(): Chain {
    Tall().(undo := Pruned(Tall().undo, 3, 1))
  }

  lemma TwoInv()
    ensures var s := Two();
            && Inv(HOST, BOOK, GENESIS, s) && s.records == map["a" := LIGHT, "m" := SECOND]
            && s.snap.canonical == map[1 := "a", 2 := "m"] && s.snap.core.counters.height == 2
            && s.undo.Keys == {"a", "m"} && s.undo["a"].height == 1 && s.undo["m"].height == 2
  {
    hide Inv, CommitRow, One;
    OneInv();
    Extends(One(), SECOND);
  }

  lemma ThreeInv()
    ensures var s := Three();
            && Inv(HOST, BOOK, GENESIS, s) && s.records == map["a" := LIGHT, "m" := SECOND, "n" := THIRD]
            && s.snap.canonical == map[1 := "a", 2 := "m", 3 := "n"] && s.snap.core.counters.height == 3
            && s.snap.tip == Some(Tip(3, "n", 30, "root")) && s.undo.Keys == {"a", "m", "n"}
            && s.undo["a"].height == 1 && s.undo["m"].height == 2 && s.undo["n"].height == 3
  {
    hide Inv, CommitRow, Two;
    TwoInv();
    Extends(Two(), THIRD);
  }

  lemma TallInv()
    ensures var s := Tall();
            && Inv(HOST, BOOK, GENESIS, s)
            && s.records == map["a" := LIGHT, "m" := SECOND, "n" := THIRD, "w" := SHORT]
            && s.snap == Three().snap && s.undo == Three().undo
  {
    hide Inv, Three;
    ThreeInv();
    OffChainKeepsInv(HOST, BOOK, GENESIS, Three(), SHORT, 30);
  }

  lemma TallPrunedInv()
    ensures var s := TallPruned();
            && Inv(HOST, BOOK, GENESIS, s)
            && s.records == map["a" := LIGHT, "m" := SECOND, "n" := THIRD, "w" := SHORT]
            && s.snap.canonical == map[1 := "a", 2 := "m", 3 := "n"] && s.snap.core.counters.height == 3
            && s.snap.tip == Some(Tip(3, "n", 30, "root")) && s.undo.Keys == {"m", "n"}
  {
    hide Inv, Three, Tall;
    ThreeInv();
    TallInv();
    PruneKeepsInv(HOST, BOOK, GENESIS, Tall(), 1);
  }

  lemma TallSearch(records: map<string, BlockRecord>)
    requires records == map["a" := LIGHT, "m" := SECOND, "n" := THIRD, "w" := SHORT]
    ensures WellFormed(records)
    ensures CommonAncestor(records, "n", "w") == "a"
    ensures BranchTo(records, "a", Some("w")) == Ok([SHORT])
  {
    assert RowOk(records, "a") && RowOk(records, "m") && RowOk(records, "n") && RowOk(records, "w");
    assert AncestorIds(records, None) == {};
    assert AncestorIds(records, Some("a")) == {"a"};
    assert AncestorIds(records, Some("m")) == {"a", "m"};
    assert AncestorIds(records, Some("n")) == {"a", "m", "n"};
    assert ClimbTo(records, {"a", "m", "n"}, Some("a")) == "a";
    assert BranchTo(records, "a", Some("a")) == Ok([]);
    assert [] + [SHORT] == [SHORT];
  }

  // The two blocks above the pruned one unwind.
  lemma TallUnwinds(s: Chain)
    requires Inv(HOST, BOOK, GENESIS, s) && s.snap.canonical == map[1 := "a", 2 := "m", 3 := "n"]
    requires s.snap.core.counters.height == 3 && s.undo.Keys == {"m", "n"}
    ensures WellFormed(s.records)
    ensures var (u, r) := Unwind(s, Some("n"), "a");
            && r.Ok? && Inv(HOST, BOOK, GENESIS, u) && u.undo == s.undo
            && u.snap.canonical == map[1 := "a"] && u.snap.core.counters.height == 1
  {
    hide Inv, Unwind, Linked, WellFormed, ReplayBlocks, UndoRowsOk, CanonicalBlocks;
    InvParts(HOST, BOOK, GENESIS, s);
    TopIdIs(HOST, BOOK, GENESIS, s);
    UnwindFromInv(HOST, BOOK, GENESIS, s, 1);
    UnwindSucceedsIff(HOST, BOOK, GENESIS, s, 1);
    var u := Unwind(s, Some("n"), "a").0;
    InvParts(HOST, BOOK, GENESIS, u);
    PrefixIsCanonical(s, u, 1);
    forall h ensures h in u.snap.canonical <==> h == 1 {
      CanonicalHeights(u, h);
    }
  }

  lemma CanonicalHeights(s: Chain, h: nat)
    requires Linked(s)
    ensures h in s.snap.canonical <==> 1 <= h <= s.snap.core.counters.height
  {
  }

  lemma ShortApplies(s: Chain, clock: nat -> nat)
    requires clock(2) == 0
    ensures HashesListed([SHORT])
    ensures var (t, r) := ApplyBranch(HOST, BOOK, clock, s, [SHORT]);
            && r.Ok? && t.snap.canonical == s.snap.canonical[2 := "w"] && t.snap.core.counters.height == 2
            && t.undo.Keys == s.undo.Keys + {"w"}
  {
    hide CommitRow, Forward;
    EmptyBlockCommits(s, SHORT);
    var t := Forward(HOST, BOOK, 0, s, SHORT).0;
    assert ApplyBranch(HOST, BOOK, clock, t, []) == (t, Ok(()));
    assert [SHORT][1..] == [] && [SHORT][0] == SHORT;
  }

  lemma ShortWins(s: Chain, clock: nat -> nat)
    requires Inv(HOST, BOOK, GENESIS, s) && clock(2) == 0
    requires s.records == map["a" := LIGHT, "m" := SECOND, "n" := THIRD, "w" := SHORT]
    requires s.snap.canonical == map[1 := "a", 2 := "m", 3 := "n"] && s.snap.core.counters.height == 3
    requires s.snap.tip == Some(Tip(3, "n", 30, "root")) && s.undo.Keys == {"m", "n"}
    ensures WellFormed(s.records)
    ensures var (t, r) := Reorg(HOST, BOOK, clock, s, "w");
            && r == Ok(true) && t.snap.canonical == map[1 := "a", 2 := "w"] && t.snap.core.counters.height == 2
            && t.undo.Keys == {"m", "n", "w"}
  {
    hide Inv, CommonAncestor, BranchTo, Unwind, ApplyBranch, WellFormed, Reorg, HashesListed;
    TallSearch(s.records);
    TallUnwinds(s);
    ShortApplies(Unwind(s, Some("n"), "a").0, clock);
    assert Begins(s, "w");
    ReorgApplies(HOST, BOOK, clock, s, "w");
  }

  /** Pruned at height three and depth one, then reorganised to a heavier chain of two blocks: that chain does
      not unwind by two. The floor set at the greatest height stays where it is. */
  lemma ShorterChainIsShallow(clock: nat -> nat)
    requires clock(2) == 0
    ensures Inv(HOST, BOOK, GENESIS, TallPruned())
    ensures var (t, r) := Reorg(HOST, BOOK, clock, TallPruned(), "w");
            && r == Ok(true) && Inv(HOST, BOOK, GENESIS, t) && t.snap.core.counters.height == 2
            && Unwind(t, TopId(t), AncestorAt(t, 0)).1.Err?
  {
    hide Inv, TallPruned, Unwind, WellFormed, Linked, Reorg, TopId, AncestorAt, Ancestry, CanonicalBlocks, ReplayBlocks;
    TallPrunedInv();
    ShortWins(TallPruned(), clock);
    var t := Reorg(HOST, BOOK, clock, TallPruned(), "w").0;
    ReorgEqualsReplay(HOST, BOOK, clock, GENESIS, TallPruned(), "w");
    InvParts(HOST, BOOK, GENESIS, t);
    UnwindSucceedsIff(HOST, BOOK, GENESIS, t, 0);
    assert 1 in t.snap.canonical;
  }
}
