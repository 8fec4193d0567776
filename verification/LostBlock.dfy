/** A run that mints. A backfilled block with a wrong root is applied and not recorded; a heavier rival then
    undoes only the block below it, which puts the pool's coins back while the reward they paid stays. */
module LostBlock {
  import opened Basics
  import opened Text
  import opened Protocol
  import opened BlockApply
  import opened BlockLaws
  import opened Conservation
  import opened Undo
  import opened Consensus
  import opened ChainSteps
  import opened ChainRuns

  function IdOf(height: nat, parent: string, root: string, hashes: seq<string>, producer: string): string {
    producer
  }

  function Attested(wallet: string): Option<CaacRecord> {
    if wallet == "r" then Some(CaacRecord("", 1, 0)) else None
  }

  function LeaderAt(height: nat): Option<string> {
    if height == 1 then Some("r") else Some("q")
  }

  const HOST: Host := Host(None, "burn", [], s => s, b => "root", e => None, IdOf, (i, j, r) => ZkOther, Attested,
                           LeaderAt, 5, f => 0)
  const BOOK: Book := Book([], None, 0, 0, map[])
  const GENESIS: Core := Core(map[WORKER_POOL := 10], Counters(10, 0, 0, 0, 0), map[], map[])
  const PAID: Reward := Reward(5, 0, 5)
  const FIRST: BlockRecord := BlockRecord(1, "p", None, "p", [], [], "root", PAID, 10, 10, true)
  const WRONG: BlockRecord := BlockRecord(2, "q", Some("p"), "q", [], [], "bad", PAID, 10, 20, false)
  const HEAVY: BlockRecord := BlockRecord(1, "r", None, "r", [], [], "root", PAID, 1_010, 1_010, false)

  lemma Names()
    ensures Norm("p") == "p" && Norm("q") == "q" && Norm("r") == "r"
    ensures forall w :: |w| == 1 ==> !IsReservedSystemWallet(w) && w != WORKER_POOL
  {
    assert Trim("p") == "p" && Trim("q") == "q" && Trim("r") == "r";
    assert Lower("p") == "p" && Lower("q") == "q" && Lower("r") == "r";
    assert |WORKER_POOL| == 64;
  }

  lemma Weights()
    ensures ProducerWeight(HOST, "p") == 10 && ProducerWeight(HOST, "q") == 10 && ProducerWeight(HOST, "r") == 1_010
  {
    Names();
    assert Norm("") == "";
  }

  // What an empty block does: five coins from the pool to its producer.
  function Rewarded(core: Core, height: nat, producer: string): Core {
    core.(balances := core.balances[WORKER_POOL := SatSub(Get(core.balances, WORKER_POOL), 5)]
                                   [producer := Get(core.balances, producer) + 5],
          counters := core.counters.(height := height))
  }

  lemma PaysFive(bal: map<string, nat>, producer: string)
    requires Norm(producer) == producer && |producer| == 1
    requires 5 <= Get(bal, WORKER_POOL) && Get(bal, producer) <= 1_000
    ensures ApplyReward(bal, producer, 5)
         == Ok(bal[WORKER_POOL := Get(bal, WORKER_POOL) - 5][producer := Get(bal, producer) + 5])
  {
    hide Norm, IsReservedSystemWallet;
    Names();
  }

  lemma EmptyBlock(book: Book, core: Core, height: nat, producer: string)
    requires Norm(producer) == producer && |producer| == 1
    requires 5 <= Get(core.balances, WORKER_POOL) && Get(core.balances, producer) <= 1_000
    ensures var r := ApplyBlock(HOST, book, core, 0, height, [], [], producer, 5);
            r.Ok? && r.value.core == Rewarded(core, height, producer)
    ensures PreviewBlock(HOST, book, core, 0, [], producer, 5).Ok?
  {
    hide Norm, ApplyReward, WriteBack;
    PaysFive(core.balances, producer);
    StoredBalancesAreTheMap(HOST, book, core, 0, height, [], [], producer, 5);
    assert core.meta + map[] == core.meta && core.registry + map[] == core.registry;
  }

  lemma EmptyClaims(core: Core)
    ensures RewardForBlock(HOST, []) == Some(PAID) && ZkClaimsOk(HOST, core, [], {}) && TxHashes(HOST, []) == Some([])
  {
    assert FlopsOf(HOST, []) == Some(0);
  }

  // ----- commits

  ghost predicate Empty(b: BlockRecord) {
    b.txs == [] && b.hashes == [] && b.reward == PAID && Norm(b.producer) == b.producer && |b.producer| == 1
  }

  ghost predicate CanPay(core: Core, producer: string) {
    5 <= Get(core.balances, WORKER_POOL) && Get(core.balances, producer) <= 1_000
  }

  lemma GoodCommit(s: Chain, b: BlockRecord)
    requires Empty(b) && b.root == "root" && CanPay(s.snap.core, b.producer)
    ensures var (t, r) := CommitRow(HOST, BOOK, 0, s, b);
            && r.Ok? && t.records == s.records[b.id := Strip(b)]
            && t.snap.core == Rewarded(s.snap.core, b.height, b.producer)
            && t.snap.canonical == s.snap.canonical[b.height := b.id]
            && t.snap.tip == Some(Tip(b.height, b.id, b.cumWeight, b.root))
            && t.undo == s.undo[b.id := PrepareUndo(HOST, s, b.id, b.height, [], [], b.producer, 5)]
    ensures Forward(HOST, BOOK, 0, s, b) == CommitRow(HOST, BOOK, 0, s, b)
  {
    hide PrepareUndo, ApplyBlock, Norm, RewardForBlock, ZkClaimsOk;
    EmptyBlock(BOOK, s.snap.core, b.height, b.producer);
    EmptyClaims(s.snap.core);
  }

  lemma WrongCommit(s: Chain, b: BlockRecord)
    requires Empty(b) && b.root != "root" && CanPay(s.snap.core, b.producer)
    ensures var (t, r) := CommitRow(HOST, BOOK, 0, s, b);
            && r == Err(RootMismatch)
            && t.records == s.records && t.snap == s.snap.(core := Rewarded(s.snap.core, b.height, b.producer))
            && t.undo == s.undo[b.id := PrepareUndo(HOST, s, b.id, b.height, [], [], b.producer, 5)]
    ensures Forward(HOST, BOOK, 0, s, b) == CommitRow(HOST, BOOK, 0, s, b)
  {
    hide PrepareUndo, ApplyBlock, Norm, RewardForBlock, ZkClaimsOk;
    EmptyBlock(BOOK, s.snap.core, b.height, b.producer);
    EmptyClaims(s.snap.core);
  }

  // What undoing the first block puts back: the pool's ten coins, and no row for its producer.
  lemma FirstUndo()
    ensures var u := PrepareUndo(HOST, Start(GENESIS), "p", 1, [], [], "p", 5);
            && u.balances == map[WORKER_POOL := Some(10), "p" := None] && u.counters == map[Height := 0]
            && u.canonical == map[1 := None] && u.tip == None
  {
    hide Norm;
    Names();
    var k := BlockUndoKeys(HOST, [], [], "p", 5);
    assert TxKeyParts(HOST, [], []) == [];
    assert k.balances == {WORKER_POOL, "p"} && k.counters == {Height};
  }

  // ----- the five steps

  const MINE: Event := Mined(0, 0, "p", [])
  const SEND_WRONG: Event := Candidate(RemoteBlock(2, "q", Some("p"), "q", PAID, "bad", []))
  const TRY_WRONG: Event := Backfilled(h => 0, "q")
  const SEND_HEAVY: Event := Candidate(RemoteBlock(1, "r", None, "r", PAID, "root", []))
  const TRY_HEAVY: Event := Backfilled(h => 0, "r")

  /** The tip is the first block, its undo row is there, and the store holds it and the candidates. */
  ghost predicate OnFirst(s: Chain, core: Core, records: map<string, BlockRecord>) {
    && s.snap.core == core && s.records == map["p" := FIRST] + records
    && s.snap.tip == Some(Tip(1, "p", 10, "root")) && s.snap.canonical == map[1 := "p"]
    && "p" in s.undo && s.undo["p"] == PrepareUndo(HOST, Start(GENESIS), "p", 1, [], [], "p", 5)
  }

  function MinedCore(): Core {
    Rewarded(GENESIS, 1, "p")
  }

  function LostCore(): Core {
    Rewarded(MinedCore(), 2, "q")
  }

  lemma Coins()
    ensures MinedCore().balances == map[WORKER_POOL := 5, "p" := 5]
    ensures LostCore().balances == map[WORKER_POOL := 0, "p" := 5, "q" := 5]
    ensures MinedCore().counters == GENESIS.counters.(height := 1)
    ensures LostCore().counters == GENESIS.counters.(height := 2)
  {
    hide IsReservedSystemWallet;
    Names();
    assert "p" != WORKER_POOL && "q" != WORKER_POOL;
  }

  lemma FirstPlan()
    ensures MinePlan(HOST, BOOK, 0, Start(GENESIS), "p", []) == Ok(FIRST)
  {
    hide Norm, PreviewBlock, RewardForBlock, ZkClaimsOk;
    Names();
    Weights();
    EmptyBlock(BOOK, GENESIS, 1, "p");
    EmptyClaims(GENESIS);
  }

  lemma Mines()
    ensures Allowed(HOST, BOOK, Start(GENESIS), MINE)
    ensures OnFirst(Effect(HOST, BOOK, Start(GENESIS), MINE).0, MinedCore(), map[])
  {
    hide Norm, MinePlan, CommitRow, ApplyBlock, PrepareUndo, Effect;
    var s := Start(GENESIS);
    Names();
    FirstPlan();
    EmptyBlock(BOOK, GENESIS, 1, "p");
    assert Placed(s.records[FIRST.id := FIRST], FIRST.id);
    GoodCommit(s, FIRST);
    assert MinedRow(HOST, BOOK, s, MINE) == Some(FIRST);
    MinedCommits(HOST, BOOK, s, MINE);
    assert Strip(FIRST) == FIRST;
  }

  lemma WrongRow(s: Chain, core: Core)
    requires OnFirst(s, core, map[])
    ensures BackfillRow(HOST, s, SEND_WRONG.block) == Ok(WRONG)
  {
    hide Norm, RewardForBlock, ZkClaimsOk, ProducerWeight;
    Names();
    Weights();
    EmptyClaims(s.snap.core);
  }

  lemma HeavyRow(s: Chain, core: Core)
    requires OnFirst(s, core, map["q" := WRONG])
    ensures BackfillRow(HOST, s, SEND_HEAVY.block) == Ok(HEAVY)
  {
    hide Norm, RewardForBlock, ZkClaimsOk, ProducerWeight;
    Names();
    Weights();
    EmptyClaims(s.snap.core);
  }

  lemma HasPlace(s: Chain, core: Core, row: BlockRecord, before: map<string, BlockRecord>)
    requires (row == WRONG && before == map[]) || (row == HEAVY && before == map["q" := WRONG])
    requires OnFirst(s, core, before)
    ensures WellFormed(s.records) && Placeable(s, row)
  {
    hide PrepareUndo;
    var records := s.records[row.id := row];
    forall id | id in records ensures Placed(records, id) {
    }
    forall id | id in s.records ensures RowOk(s.records, id) {
    }
  }

  lemma Sends(s: Chain, core: Core, e: Event, row: BlockRecord, before: map<string, BlockRecord>)
    requires (e == SEND_WRONG && row == WRONG && before == map[])
             || (e == SEND_HEAVY && row == HEAVY && before == map["q" := WRONG])
    requires OnFirst(s, core, before)
    ensures Allowed(HOST, BOOK, s, e)
    ensures OnFirst(Effect(HOST, BOOK, s, e).0, core, before[row.id := row])
  {
    hide BackfillRow, PrepareUndo, WellFormed, Placeable;
    HasPlace(s, core, row, before);
    if e == SEND_WRONG {
      WrongRow(s, core);
    } else {
      HeavyRow(s, core);
    }
  }

  // ----- the block store is searched

  lemma WrongSearch(records: map<string, BlockRecord>)
    requires records == map["p" := FIRST, "q" := WRONG]
    ensures WellFormed(records)
    ensures CommonAncestor(records, "p", "q") == "p" && BranchTo(records, "p", Some("q")) == Ok([WRONG])
    ensures Reweighed(HOST, records, [WRONG]) == records
  {
    assert RowOk(records, "p") && RowOk(records, "q");
    assert Parent(records, "p") == None && Parent(records, "q") == Some("p");
    assert AncestorIds(records, None) == {};
    assert AncestorIds(records, Some("p")) == {"p"};
    assert ClimbTo(records, {"p"}, Some("p")) == "p";
    assert BranchTo(records, "p", Some("p")) == Ok([]);
    assert [] + [WRONG] == [WRONG] && [WRONG][1..] == [];
    Weights();
    assert records["q" := WRONG] == records;
  }

  lemma HeavySearch(records: map<string, BlockRecord>)
    requires records == map["p" := FIRST, "q" := WRONG, "r" := HEAVY]
    ensures WellFormed(records)
    ensures CommonAncestor(records, "p", "r") == "" && BranchTo(records, "", Some("r")) == Ok([HEAVY])
    ensures Reweighed(HOST, records, [HEAVY]) == records
  {
    assert RowOk(records, "p") && RowOk(records, "q") && RowOk(records, "r");
    assert Parent(records, "p") == None && Parent(records, "r") == None;
    assert AncestorIds(records, None) == {};
    assert AncestorIds(records, Some("p")) == {"p"};
    assert ClimbTo(records, {"p"}, None) == "";
    assert BranchTo(records, "", None) == Ok([]);
    assert [] + [HEAVY] == [HEAVY] && [HEAVY][1..] == [];
    Weights();
    assert records["r" := HEAVY] == records;
  }

  lemma WrongApplies(s: Chain)
    requires OnFirst(s, MinedCore(), map["q" := WRONG])
    ensures HashesListed([WRONG])
    ensures var (t, r) := ApplyBranch(HOST, BOOK, h => 0, s, [WRONG]);
            r == Err(RootMismatch) && OnFirst(t, LostCore(), map["q" := WRONG])
  {
    hide Norm, Forward, CommitRow, PrepareUndo, Rewarded, MinedCore;
    Names();
    Coins();
    assert [WRONG][0] == WRONG;
    WrongCommit(s, WRONG);
  }

  // The wrong block is applied on top of the first and not recorded.
  lemma TriesWrong(s: Chain)
    requires OnFirst(s, MinedCore(), map["q" := WRONG])
    ensures Allowed(HOST, BOOK, s, TRY_WRONG) && StopsAtMismatch(HOST, BOOK, s, TRY_WRONG)
    ensures OnFirst(Effect(HOST, BOOK, s, TRY_WRONG).0, LostCore(), map["q" := WRONG])
  {
    hide CommonAncestor, BranchTo, Reweighed, ApplyBranch, PrepareUndo, WellFormed, MinedCore, LostCore;
    assert s.records == map["p" := FIRST, "q" := WRONG];
    WrongSearch(s.records);
    assert ReweighedStore(HOST, s, "q") == s;
    assert Unwind(s, Some("p"), "p") == (s, Ok(()));
    WrongApplies(s);
  }

  lemma FirstCounters(c: Counters, kvs: map<CounterKey, nat>)
    requires c == GENESIS.counters.(height := 2) && kvs == map[Height := 0]
    ensures RestoredCounters(c, kvs) == GENESIS.counters
  {
  }

  lemma FirstBalances(bal: map<string, nat>, kvs: map<string, Option<nat>>)
    requires bal == map[WORKER_POOL := 0, "p" := 5, "q" := 5] && kvs == map[WORKER_POOL := Some(10), "p" := None]
    requires "p" != WORKER_POOL && "q" != WORKER_POOL
    ensures Restored(bal, kvs) == map[WORKER_POOL := 10, "q" := 5]
  {
  }

  // Undoing the first block puts the pool's ten coins back, and leaves the second block's reward.
  lemma FirstRestored(snap: Snap, u: BlockUndo)
    requires snap.core == LostCore() && u == PrepareUndo(HOST, Start(GENESIS), "p", 1, [], [], "p", 5)
    ensures var core := RestoreSnap(snap, u).core;
            && core.balances == map[WORKER_POOL := 10, "q" := 5]
            && core.counters == GENESIS.counters
  {
    hide PrepareUndo, LostCore, IsReservedSystemWallet, Restored, RestoredCounters, Norm;
    Names();
    Coins();
    FirstUndo();
    assert "p" != WORKER_POOL && "q" != WORKER_POOL;
    FirstBalances(snap.core.balances, u.balances);
    FirstCounters(snap.core.counters, u.counters);
  }

  lemma UndoesFirst(s: Chain)
    requires OnFirst(s, LostCore(), map["q" := WRONG, "r" := HEAVY])
    ensures WellFormed(s.records)
    ensures var (u, r) := Unwind(s, Some("p"), "");
            && r.Ok? && u.snap.core.balances == map[WORKER_POOL := 10, "q" := 5]
            && u.snap.core.counters == GENESIS.counters
  {
    hide PrepareUndo, WellFormed, LostCore, Unwind, RestoreSnap, Restored;
    assert s.records == map["p" := FIRST, "q" := WRONG, "r" := HEAVY];
    HeavySearch(s.records);
    FirstRestored(s.snap, s.undo["p"]);
    UnwindStep(s, "p", "");
    UnwindOneFlags(s, "p");
    UnwindEnds(UnwindOne(s, "p").0);
  }

  lemma UnwindEnds(s: Chain)
    requires WellFormed(s.records)
    ensures Unwind(s, None, "") == (s, Ok(()))
  {
  }

  lemma HeavyApplies(u: Chain)
    requires u.snap.core.balances == map[WORKER_POOL := 10, "q" := 5] && u.snap.core.counters == GENESIS.counters
    ensures HashesListed([HEAVY])
    ensures var (t, r) := ApplyBranch(HOST, BOOK, h => 0, u, [HEAVY]);
            && r.Ok? && t.snap.core.balances == map[WORKER_POOL := 5, "q" := 5, "r" := 5]
            && t.snap.core.counters == GENESIS.counters.(height := 1)
  {
    hide Norm, Forward, CommitRow, PrepareUndo, IsReservedSystemWallet;
    Names();
    assert "q" != WORKER_POOL && "r" != WORKER_POOL;
    GoodCommit(u, HEAVY);
    assert [HEAVY][0] == HEAVY && [HEAVY][1..] == [];
    var t := Forward(HOST, BOOK, 0, u, HEAVY).0;
    assert ApplyBranch(HOST, BOOK, h => 0, t, []) == (t, Ok(()));
  }

  lemma TriesHeavy(s: Chain)
    requires OnFirst(s, LostCore(), map["q" := WRONG, "r" := HEAVY])
    ensures Allowed(HOST, BOOK, s, TRY_HEAVY) && Unwinds(HOST, BOOK, s, TRY_HEAVY)
    ensures var (t, f) := Effect(HOST, BOOK, s, TRY_HEAVY);
            && f.None? && t.snap.core.balances == map[WORKER_POOL := 5, "q" := 5, "r" := 5]
            && t.snap.core.counters == GENESIS.counters.(height := 1)
  {
    hide CommonAncestor, BranchTo, Reweighed, ApplyBranch, PrepareUndo, WellFormed, LostCore, Unwind, HashesListed;
    assert s.records == map["p" := FIRST, "q" := WRONG, "r" := HEAVY];
    HeavySearch(s.records);
    assert ReweighedStore(HOST, s, "r") == s;
    UndoesFirst(s);
    HeavyApplies(Unwind(s, Some("p"), "").0);
  }

  lemma Totals()
    ensures SoundCore(GENESIS) && Sum(GENESIS.balances) == 10
    ensures Sum(map[WORKER_POOL := 5, "q" := 5, "r" := 5]) == 15
  {
    hide IsReservedSystemWallet;
    Names();
    assert "q" != WORKER_POOL && "r" != WORKER_POOL;
    var none: map<string, nat> := map[];
    SumUpdate(none, WORKER_POOL, 10);
    SumUpdate(none, WORKER_POOL, 5);
    SumUpdate(map[WORKER_POOL := 5], "q", 5);
    SumUpdate(map[WORKER_POOL := 5, "q" := 5], "r", 5);
  }

  /** So conservation needs its condition: a run of allowed steps, the third of which stops at a root mismatch
      and the fifth of which unwinds and succeeds, takes ten coins in circulation to fifteen. */
  lemma RunMints() returns (states: seq<Chain>, events: seq<Event>)
    ensures IsRun(HOST, BOOK, GENESIS, states, events) && SoundCore(GENESIS)
    ensures |events| == 5 && StopsAtMismatch(HOST, BOOK, states[2], events[2])
    ensures Allowed(HOST, BOOK, states[4], events[4]) && Unwinds(HOST, BOOK, states[4], events[4])
    ensures Effect(HOST, BOOK, states[4], events[4]).1.None?
    ensures Sum(GENESIS.balances) == 10 && GENESIS.counters.burned == 0
    ensures Sum(states[5].snap.core.balances) == 15 && states[5].snap.core.counters.burned == 0
    ensures Sum(states[5].snap.core.balances) > states[5].snap.core.counters.supply
  {
    hide Allowed, Effect, OnFirst, MinedCore, LostCore, Unwinds, StopsAtMismatch;
    var s0 := Start(GENESIS);
    Mines();
    var s1 := Effect(HOST, BOOK, s0, MINE).0;
    Sends(s1, MinedCore(), SEND_WRONG, WRONG, map[]);
    var s2 := Effect(HOST, BOOK, s1, SEND_WRONG).0;
    TriesWrong(s2);
    var s3 := Effect(HOST, BOOK, s2, TRY_WRONG).0;
    Sends(s3, LostCore(), SEND_HEAVY, HEAVY, map["q" := WRONG]);
    var s4 := Effect(HOST, BOOK, s3, SEND_HEAVY).0;
    assert map["q" := WRONG]["r" := HEAVY] == map["q" := WRONG, "r" := HEAVY];
    TriesHeavy(s4);
    var s5 := Effect(HOST, BOOK, s4, TRY_HEAVY).0;
    Totals();
    states, events := [s0, s1, s2, s3, s4, s5], [MINE, SEND_WRONG, TRY_WRONG, SEND_HEAVY, TRY_HEAVY];
  }
}
