/** Coins in circulation or burned, from any state with room for them: exactly which steps and runs keep their
    number. */
module Coins {
  import opened Basics
  import opened Text
  import opened Fees
  import opened Protocol
  import opened Locks
  import opened BlockApply
  import opened BlockLaws
  import opened Conservation
  import opened StalePreview
  import opened Undo
  import opened Consensus
  import opened ChainSteps
  import opened ReorgOutcomes
  import opened ChainRuns

  ghost function CoinsOf(c: Core): nat {
    Sum(c.balances) + c.counters.burned
  }

  // ----- a block

  lemma PaymentBurnIsCounted(host: Host, book: Book, core: Core, now: nat, height: nat, env: Envelope, hash: string,
                             a: Acc)
    requires a.burned <= U64_MAX && ApplyTx(host, book, core, now, height, env, hash, a).Ok?
    requires env.tx.Transfer? || env.tx.FileFee?
    ensures ApplyTx(host, book, core, now, height, env, hash, a).value.burned
            == if Applied(hash) in core.meta then a.burned else SatAdd(a.burned, BurnOf(env.tx))
  {
    hide Norm, Trim, LockedSum, TransferBalances, BpsOf;
  }

  lemma BurnIsCounted(host: Host, book: Book, core: Core, now: nat, height: nat, env: Envelope, hash: string, a: Acc)
    requires a.burned <= U64_MAX && ApplyTx(host, book, core, now, height, env, hash, a).Ok?
    ensures ApplyTx(host, book, core, now, height, env, hash, a).value.burned
            == if Applied(hash) in core.meta then a.burned else SatAdd(a.burned, BurnOf(env.tx))
  {
    hide Norm, Trim, ApplyTransfer, SettleFileFee, ApplyAirdrop, NewTask, NewWorker, WorkerFieldsValid, BpsOf;
    if env.tx.Transfer? || env.tx.FileFee? {
      PaymentBurnIsCounted(host, book, core, now, height, env, hash, a);
    }
  }

  lemma {:induction false} TxsKeepCoins(host: Host, book: Book, core: Core, now: nat, height: nat, txs: seq<Envelope>,
                                        hashes: seq<string>, a: Acc)
    requires |txs| == |hashes| && Sum(a.balances) + a.burned <= U64_MAX
    requires ApplyTxs(host, book, core, now, height, txs, hashes, a).Ok?
    ensures var r := ApplyTxs(host, book, core, now, height, txs, hashes, a).value;
            Sum(r.balances) + r.burned == Sum(a.balances) + a.burned
    decreases |txs|
  {
    hide ApplyTx, Sum, BurnOf;
    if txs != [] {
      ApplyTxBurns(host, book, core, now, height, txs[0], hashes[0], a);
      BurnIsCounted(host, book, core, now, height, txs[0], hashes[0], a);
      var a1 := ApplyTx(host, book, core, now, height, txs[0], hashes[0], a).value;
      TxsKeepCoins(host, book, core, now, height, txs[1..], hashes[1..], a1);
    }
  }

  lemma BlockKeepsCoins(host: Host, book: Book, core: Core, now: nat, height: nat, txs: seq<Envelope>,
                        hashes: seq<string>, producer: string, reward: nat)
    requires CoinsOf(core) <= U64_MAX
    requires ApplyBlock(host, book, core, now, height, txs, hashes, producer, reward).Ok?
    ensures CoinsOf(ApplyBlock(host, book, core, now, height, txs, hashes, producer, reward).value.core)
         == CoinsOf(core)
  {
    hide ApplyTxs, ApplyReward, Sum;
    AppliedBlockIsListed(host, book, core, now, height, txs, hashes, producer, reward);
    TxsKeepCoins(host, book, core, now, height, txs, hashes, InitialAcc(core));
    RewardConserves(ApplyTxs(host, book, core, now, height, txs, hashes, InitialAcc(core)).value.balances, producer,
                    reward);
    StoredBalancesAreTheMap(host, book, core, now, height, txs, hashes, producer, reward);
  }

  // ----- a commit, a branch, a step

  lemma CommitKeepsCoins(host: Host, book: Book, now: nat, s: Chain, b: BlockRecord)
    requires CoinsOf(s.snap.core) <= U64_MAX
    ensures CoinsOf(CommitRow(host, book, now, s, b).0.snap.core) == CoinsOf(s.snap.core)
  {
    hide ApplyBlock, PrepareUndo, CoinsOf, IndexRows;
    if ApplyBlock(host, book, s.snap.core, now, b.height, b.txs, b.hashes, b.producer, b.reward.total).Ok? {
      BlockKeepsCoins(host, book, s.snap.core, now, b.height, b.txs, b.hashes, b.producer, b.reward.total);
    }
  }

  lemma {:induction false} BranchKeepsCoins(host: Host, book: Book, clock: nat -> nat, s: Chain, bs: seq<BlockRecord>)
    requires CoinsOf(s.snap.core) <= U64_MAX && HashesListed(bs)
    ensures CoinsOf(ApplyBranch(host, book, clock, s, bs).0.snap.core) == CoinsOf(s.snap.core)
    decreases |bs|
  {
    hide CommitRow, ZkClaimsOk, RewardForBlock, CoinsOf;
    if bs != [] {
      CommitKeepsCoins(host, book, clock(bs[0].height), s, bs[0]);
      BranchStep(host, book, clock, s, bs);
      if Forward(host, book, clock(bs[0].height), s, bs[0]).1.Ok? {
        BranchKeepsCoins(host, book, clock, Forward(host, book, clock(bs[0].height), s, bs[0]).0, bs[1..]);
      }
    }
  }

  lemma ReorgKeepsCoins(host: Host, book: Book, clock: nat -> nat, s: Chain, newTip: string)
    requires WellFormed(s.records) && CoinsOf(Unwound(s, newTip).snap.core) <= U64_MAX
    ensures CoinsOf(Reorg(host, book, clock, s, newTip).0.snap.core) == CoinsOf(Unwound(s, newTip).snap.core)
  {
    hide Unwind, ApplyBranch, BranchTo, CommonAncestor, Reorg, CoinsOf;
    ReorgPhases(host, book, clock, s, newTip);
    if Begins(s, newTip) && Unwinding(s, newTip).1.Ok? {
      ReorgApplies(host, book, clock, s, newTip);
      BranchKeepsCoins(host, book, clock, Unwinding(s, newTip).0, Branch(s, newTip).value);
    }
  }

  // Only an unwinding can make or lose coins.
  lemma StepKeepsCoins(host: Host, book: Book, s: Chain, e: Event, t: Chain)
    requires Next(host, book, s, e, t) && CoinsOf(UnwoundBy(host, book, s, e).snap.core) <= U64_MAX
    ensures CoinsOf(t.snap.core) == CoinsOf(UnwoundBy(host, book, s, e).snap.core)
  {
    hide WellFormed, CheckRemote, Placeable, Previewed, Reorg, RivalRow, CommonAncestor, BranchTo, Reweighed, ReorgFrom,
         MinedRow, Mine, ExtendRemote, CommitRow, RivalRemote, BackfillReorg, CoinsOf, CumWeight, MinePlan, RemoteRow,
         Unwound;
    if e.Mined? {
      if MinedRow(host, book, s, e).Some? {
        MinedCommits(host, book, s, e);
        CommitKeepsCoins(host, book, e.now, s, MinedRow(host, book, s, e).value);
      } else {
        MinedNothing(host, book, s, e);
      }
    } else if e.Gossip? && e.block.height == s.snap.core.counters.height + 1 {
      NextGossipCommits(host, book, s, e);
      if Previewed(host, book, e.previewAt, s, e.block) {
        var row := RemoteRow(host, s, e.block).value;
        CommitKeepsCoins(host, book, e.clock(row.height), s, row);
      }
    } else if TriesReorg(host, s, e) {
      ReorgFromStore(host, book, s, e);
      TriedReorg(host, book, s, e);
      ReorgKeepsCoins(host, book, e.clock, ReorgFrom(host, s, e), Target(e));
    } else if e.Backfilled? || e.Gossip? {
      Untried(host, book, s, e);
    }
  }

  // ----- runs

  /** The step's unwinding puts back as many coins as it takes. */
  ghost predicate PutsBackWhatItTakes(host: Host, book: Book, s: Chain, e: Event) {
    Allowed(host, book, s, e) ==> CoinsOf(UnwoundBy(host, book, s, e).snap.core) == CoinsOf(s.snap.core)
  }

  ghost predicate HasRoom(host: Host, book: Book, s: Chain, e: Event) {
    Allowed(host, book, s, e) ==> CoinsOf(UnwoundBy(host, book, s, e).snap.core) <= U64_MAX
  }

  ghost predicate AllSteps(host: Host, book: Book, states: seq<Chain>, events: seq<Event>) {
    && |states| == |events| + 1
    && forall i, j :: 0 <= i < |events| && j == i + 1 ==> Next(host, book, states[i], events[i], states[j])
  }

  ghost predicate SameCoins(states: seq<Chain>, n: nat)
    requires n < |states|
  {
    forall j :: 0 <= j <= n ==> CoinsOf(states[j].snap.core) == CoinsOf(states[0].snap.core)
  }

  lemma StepKeepsCoinsIff(host: Host, book: Book, s: Chain, e: Event, t: Chain)
    requires Next(host, book, s, e, t) && HasRoom(host, book, s, e)
    ensures CoinsOf(t.snap.core) == CoinsOf(s.snap.core) <==> PutsBackWhatItTakes(host, book, s, e)
  {
    hide Allowed, Effect, CoinsOf, UnwoundBy;
    StepKeepsCoins(host, book, s, e, t);
  }

  /** Over any sequence of steps, from any state and failed ones included, every state has as many coins as the
      first exactly when each unwinding puts back as many as it takes. */
  lemma {:induction false} CoinsAreKeptIff(host: Host, book: Book, states: seq<Chain>, events: seq<Event>, n: nat)
    requires AllSteps(host, book, states, events) && n <= |events|
    requires forall p :: 0 <= p < n ==> HasRoom(host, book, states[p], events[p])
    ensures SameCoins(states, n) <==> forall p :: 0 <= p < n ==> PutsBackWhatItTakes(host, book, states[p], events[p])
  {
    hide Next, CoinsOf, HasRoom, PutsBackWhatItTakes;
    if n > 0 {
      CoinsAreKeptIff(host, book, states, events, n - 1);
      StepKeepsCoinsIff(host, book, states[n - 1], events[n - 1], states[n]);
    }
  }
}
