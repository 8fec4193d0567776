/** What each transaction of a block, and the block, leaves every wallet, in numbers
    (tet-core/src/ledger.rs:1402-1942). */
module Amounts {
  import opened Basics
  import opened Text
  import opened Fees
  import opened Protocol
  import opened Locks
  import opened BlockApply
  import opened BlockLaws
  import opened Conservation
  import opened StalePreview

  // ----- one transaction

  /** What a transaction pays (or, below zero, takes from) a wallet: nothing when it was settled before. The pool's
      balance and the count of airdrops so far decide an airdrop. One wallet may be several parties. */
  ghost function Paid(host: Host, tx: Tx, settled: bool, pool: int, count: nat, k: string): int {
    if settled then 0
    else
      match tx
      case Transfer(f, t, amount, feeBps) =>
        var fee: int := amount * feeBps / 10_000;
        var net: int := amount - fee;
        (if k == Norm(f) then 0 - amount else 0) + (if k == Norm(t) then net else 0)
        + (if k == WORKER_POOL then fee / 2 else 0)
      case FileFee(f, storage, _, _) =>
        (if k == Norm(f) then -1_000 else 0) + (if host.treasury == Some(k) then 250 else 0)
        + (if Norm(storage) == "" then (if host.treasury == Some(k) then 500 else 0)
           else if k == Norm(storage) then 500 else 0)
      case InitialAirdrop(w) =>
        if count < 10_000 && pool >= 1_000_000_000 then
          (if k == WORKER_POOL then -1_000_000_000 else 0) + (if k == Norm(w) then 1_000_000_000 else 0)
        else 0
      case _ => 0
  }

  lemma FileSplitIs()
    ensures FileFeeSplit(1_000) == FeeSplit(500, 0, 250, 250)
  {
  }


  // A credit that fits in what was debited before.
  lemma CreditIs(bal: map<string, nat>, k: string, v: nat)
    requires Sum(bal) + v <= U64_MAX
    ensures var b := bal[k := SatAdd(Get(bal, k), v)];
            && Sum(b) == Sum(bal) + v
            && forall j :: Get(b, j) == Get(bal, j) + if j == k then v else 0
  {
    SumAtLeast(bal, k);
    SumUpdate(bal, k, Get(bal, k) + v);
  }

  lemma DebitIs(bal: map<string, nat>, k: string, v: nat)
    requires v <= Get(bal, k)
    ensures var b := bal[k := Get(bal, k) - v];
            && Sum(b) == Sum(bal) - v && v <= Sum(bal)
            && forall j :: Get(b, j) == Get(bal, j) - if j == k then v else 0
  {
    Debit(bal, k, v);
  }

  lemma TransferMoves(bal: map<string, nat>, f: string, t: string, amount: nat, split: FeeSplit)
    requires amount <= Get(bal, f) && Sum(bal) <= U64_MAX && split.net + split.pool <= amount
    ensures var b := TransferBalances(bal, f, t, amount, split);
            && b.Keys == bal.Keys + {f, t} + (if split.pool > 0 then {WORKER_POOL} else {})
            && forall k :: Get(b, k) == Get(bal, k) - (if k == f then amount else 0)
                                        + (if k == t then split.net else 0)
                                        + (if k == WORKER_POOL then split.pool else 0)
  {
    hide Sum;
    DebitIs(bal, f, amount);
    var b1 := bal[f := Get(bal, f) - amount];
    CreditIs(b1, t, split.net);
    CreditIs(b1[t := SatAdd(Get(b1, t), split.net)], WORKER_POOL, split.pool);
  }

  lemma FileFeeMoves(host: Host, book: Book, now: nat, bal: map<string, nat>, payer: string, storage: string, fee: nat)
    requires Sum(bal) <= U64_MAX && ApplyFileFee(host, book, now, bal, payer, storage, fee).Ok?
    ensures var e := ApplyFileFee(host, book, now, bal, payer, storage, fee).value;
            && fee == 1_000 && host.treasury.Some? && e.payer == Norm(payer) && e.treasury == host.treasury.value
            && e.storage == (if Norm(storage) == "" then host.treasury.value else Norm(storage))
            && e.split == FeeSplit(500, 0, 250, 250) && e.balances.Keys == bal.Keys + {e.payer, e.treasury, e.storage}
            && forall k :: Get(e.balances, k) == Get(bal, k) - (if k == e.payer then 1_000 else 0)
                                                 + (if k == e.treasury then 250 else 0)
                                                 + (if k == e.storage then 500 else 0)
  {
    hide Sum, Norm, Trim, LockedSum, FileFeeSplit;
    FileSplitIs();
    var e := ApplyFileFee(host, book, now, bal, payer, storage, fee).value;
    DebitIs(bal, e.payer, 1_000);
    var b1 := bal[e.payer := Get(bal, e.payer) - 1_000];
    CreditIs(b1, e.treasury, 250);
    CreditIs(b1[e.treasury := SatAdd(Get(b1, e.treasury), 250)], e.storage, 500);
  }

  lemma AirdropMoves(host: Host, bal: map<string, nat>, claimant: string, count: nat)
    requires Sum(bal) <= U64_MAX && ApplyAirdrop(host, bal, claimant, count).Ok?
    ensures var e := ApplyAirdrop(host, bal, claimant, count).value;
            && e.credited == (count < 10_000 && Get(bal, WORKER_POOL) >= 1_000_000_000)
            && e.count == (if e.credited then count + 1 else count)
            && e.balances.Keys == bal.Keys + (if e.credited then {WORKER_POOL, Norm(claimant)} else {})
            && forall k :: Get(e.balances, k) == Get(bal, k)
                             - (if e.credited && k == WORKER_POOL then 1_000_000_000 else 0)
                             + (if e.credited && k == Norm(claimant) then 1_000_000_000 else 0)
  {
    hide Sum, Norm, IsHex64;
    if ApplyAirdrop(host, bal, claimant, count).value.credited {
      DebitIs(bal, WORKER_POOL, 1_000_000_000);
      CreditIs(bal[WORKER_POOL := Get(bal, WORKER_POOL) - 1_000_000_000], Norm(claimant), 1_000_000_000);
    }
  }

  /** A reward is paid out exactly to a named wallet that is not the system's, from a pool that can pay it. */
  lemma RewardPaidIff(bal: map<string, nat>, producer: string, reward: nat)
    ensures ApplyReward(bal, producer, reward).Ok? <==>
              reward == 0 || (&& Norm(producer) != "" && reward <= Get(bal, WORKER_POOL)
                              && Norm(producer) !in {WORKER_POOL, DEX_TREASURY, PROTOCOL_RESERVE, ECOSYSTEM})
  {
    hide Norm;
  }

  lemma RewardMoves(bal: map<string, nat>, producer: string, reward: nat)
    requires Sum(bal) <= U64_MAX && ApplyReward(bal, producer, reward).Ok?
    ensures var b := ApplyReward(bal, producer, reward).value;
            && b.Keys == bal.Keys + (if reward > 0 then {WORKER_POOL, Norm(producer)} else {})
            && forall k :: Get(b, k) == Get(bal, k) - (if k == WORKER_POOL then reward else 0)
                                        + (if k == Norm(producer) then reward else 0)
  {
    hide Sum, Norm;
    if reward > 0 {
      DebitIs(bal, WORKER_POOL, reward);
      CreditIs(bal[WORKER_POOL := Get(bal, WORKER_POOL) - reward], Norm(producer), reward);
    }
  }

  // Whether an airdrop at this point is granted.
  ghost predicate Grants(tx: Tx, settled: bool, pool: int, count: nat) {
    tx.InitialAirdrop? && !settled && count < 10_000 && pool >= 1_000_000_000
  }

  lemma PreviewTransferPays(host: Host, book: Book, now: nat, env: Envelope, d: Draft)
    requires Sum(d.balances) <= U64_MAX && env.tx.Transfer? && PreviewTx(host, book, now, env, d).Ok?
    ensures var (r, pool) := (PreviewTx(host, book, now, env, d).value, Get(d.balances, WORKER_POOL));
            && (forall k :: Get(r.balances, k) == Get(d.balances, k) + Paid(host, env.tx, false, pool, d.airdrops, k))
            && r.airdrops == d.airdrops
  {
    hide Norm, Trim, LockedSum, Sum, TransferBalances, Charge;
    var tx := env.tx;
    SharesAre(TransferFee(tx.feeBps), tx.amount);
    TransferMoves(d.balances, Norm(tx.fromWallet), Norm(tx.toWallet), tx.amount,
                  Charge(TransferFee(tx.feeBps), tx.amount).value);
  }

  /** A previewed transaction, settled before or not. */
  lemma PreviewTxPays(host: Host, book: Book, now: nat, env: Envelope, d: Draft)
    requires Sum(d.balances) <= U64_MAX && PreviewTx(host, book, now, env, d).Ok?
    ensures var (r, pool) := (PreviewTx(host, book, now, env, d).value, Get(d.balances, WORKER_POOL));
            && (forall k :: Get(r.balances, k) == Get(d.balances, k) + Paid(host, env.tx, false, pool, d.airdrops, k))
            && r.airdrops == d.airdrops + if Grants(env.tx, false, pool, d.airdrops) then 1 else 0
  {
    hide Norm, Trim, LockedSum, Sum, TransferBalances, ApplyFileFee, ApplyAirdrop, WorkerEligible, Charge;
    match env.tx
    case Transfer(_, _, _, _) => PreviewTransferPays(host, book, now, env, d);
    case FileFee(f, storage, _, fee) => FileFeeMoves(host, book, now, d.balances, f, storage, fee);
    case InitialAirdrop(w) => AirdropMoves(host, d.balances, w, d.airdrops);
    case _ =>
  }

  /** An applied transaction: exactly this much to each wallet, nothing for a settled one. */
  lemma AppliedTxPays(host: Host, book: Book, core: Core, now: nat, height: nat, env: Envelope, hash: string, a: Acc)
    requires Sum(a.balances) <= U64_MAX && ApplyTx(host, book, core, now, height, env, hash, a).Ok?
    ensures var r := ApplyTx(host, book, core, now, height, env, hash, a).value;
            var (settled, pool) := (Applied(hash) in core.meta, Get(a.balances, WORKER_POOL));
            && (forall k :: Get(r.balances, k)
                            == Get(a.balances, k) + Paid(host, env.tx, settled, pool, a.airdrops, k))
            && r.airdrops == a.airdrops + if Grants(env.tx, settled, pool, a.airdrops) then 1 else 0
  {
    hide ApplyTx, PreviewTx, Sum, LockedSum;
    if Applied(hash) in core.meta {
      SettledTxMovesNothing(host, book, core, now, height, env, hash, a);
      SettledTxGrantsNothing(host, book, core, now, height, env, hash, a);
    } else {
      AppliedTxPreviews(host, book, now, core, height, env, hash, a);
      assert NoStricter(book, now, book, now);
      PreviewedTxApplies(host, book, now, book, now, core, height, env, hash, a);
      PreviewTxPays(host, book, now, env, DraftOf(a));
    }
  }

  lemma SettledTxGrantsNothing(host: Host, book: Book, core: Core, now: nat, height: nat, env: Envelope, hash: string,
                               a: Acc)
    requires Applied(hash) in core.meta && ApplyTx(host, book, core, now, height, env, hash, a).Ok?
    ensures ApplyTx(host, book, core, now, height, env, hash, a).value.airdrops == a.airdrops
  {
    hide NewTask, NewWorker, Norm, Trim;
  }

  // ----- a block

  /** The statement of account of a list of transactions, in order: the airdrops before them and the pool as they
      find it decide the airdrops among them. */
  ghost function PaidAll(host: Host, meta: map<MetaKey, MetaVal>, txs: seq<Envelope>, hashes: seq<string>, pool: int,
                         count: nat, k: string): int
    requires |txs| == |hashes|
    decreases |txs|
  {
    if txs == [] then 0
    else
      var settled := Applied(hashes[0]) in meta;
      Paid(host, txs[0].tx, settled, pool, count, k)
      + PaidAll(host, meta, txs[1..], hashes[1..], pool + Paid(host, txs[0].tx, settled, pool, count, WORKER_POOL),
                count + (if Grants(txs[0].tx, settled, pool, count) then 1 else 0), k)
  }

  // The block's reward leaves the pool for its producer.
  ghost function Earned(producer: string, reward: nat, k: string): int {
    (if k == WORKER_POOL then 0 - reward else 0) + (if k == Norm(producer) then reward else 0)
  }

  lemma {:induction false} AppliedTxsPay(host: Host, book: Book, core: Core, now: nat, height: nat, txs: seq<Envelope>,
                                         hashes: seq<string>, a: Acc)
    requires |txs| == |hashes| && Sum(a.balances) <= U64_MAX
    requires ApplyTxs(host, book, core, now, height, txs, hashes, a).Ok?
    ensures var r := ApplyTxs(host, book, core, now, height, txs, hashes, a).value;
            forall k :: Get(r.balances, k) == Get(a.balances, k)
              + PaidAll(host, core.meta, txs, hashes, Get(a.balances, WORKER_POOL), a.airdrops, k)
    decreases |txs|
  {
    hide ApplyTx, Sum, Paid, Grants, BurnOf;
    if txs != [] {
      var a1 := ApplyTx(host, book, core, now, height, txs[0], hashes[0], a).value;
      AppliedTxPays(host, book, core, now, height, txs[0], hashes[0], a);
      ApplyTxBurns(host, book, core, now, height, txs[0], hashes[0], a);
      AppliedTxsPay(host, book, core, now, height, txs[1..], hashes[1..], a1);
    }
  }

  /** The stored balances after an accepted block, wallet by wallet. */
  lemma BlockPays(host: Host, book: Book, core: Core, now: nat, height: nat, txs: seq<Envelope>, hashes: seq<string>,
                  producer: string, reward: nat)
    requires |txs| == |hashes| && Sum(core.balances) <= U64_MAX
    requires ApplyBlock(host, book, core, now, height, txs, hashes, producer, reward).Ok?
    ensures var stored := ApplyBlock(host, book, core, now, height, txs, hashes, producer, reward).value.core.balances;
            forall k :: Get(stored, k) == Get(core.balances, k)
              + PaidAll(host, core.meta, txs, hashes, Get(core.balances, WORKER_POOL), core.counters.airdrops, k)
              + Earned(producer, reward, k)
  {
    hide ApplyTxs, ApplyReward, Sum, PaidAll;
    AppliedTxsPay(host, book, core, now, height, txs, hashes, InitialAcc(core));
    AppliedFits(host, book, core, now, height, txs, hashes);
    var a := ApplyTxs(host, book, core, now, height, txs, hashes, InitialAcc(core)).value;
    RewardMoves(a.balances, producer, reward);
    StoredBalancesAreTheMap(host, book, core, now, height, txs, hashes, producer, reward);
  }

  /** How many airdrops a list of transactions is granted. */
  ghost function GrantedAll(host: Host, meta: map<MetaKey, MetaVal>, txs: seq<Envelope>, hashes: seq<string>, pool: int,
                            count: nat): nat
    requires |txs| == |hashes|
    decreases |txs|
  {
    if txs == [] then 0
    else
      var settled := Applied(hashes[0]) in meta;
      var one := if Grants(txs[0].tx, settled, pool, count) then 1 else 0;
      one + GrantedAll(host, meta, txs[1..], hashes[1..],
                       pool + Paid(host, txs[0].tx, settled, pool, count, WORKER_POOL), count + one)
  }

  lemma TxGrants(host: Host, book: Book, core: Core, now: nat, height: nat, env: Envelope, hash: string, a: Acc)
    requires Sum(a.balances) <= U64_MAX && ApplyTx(host, book, core, now, height, env, hash, a).Ok?
    ensures ApplyTx(host, book, core, now, height, env, hash, a).value.credited
         == (a.credited || Grants(env.tx, Applied(hash) in core.meta, Get(a.balances, WORKER_POOL), a.airdrops))
  {
    hide TransferBalances, ApplyFileFee, ApplyAirdrop, Charge, LockedSum, NewTask, NewWorker, WorkerFieldsValid, Norm,
         Trim, Sum;
    if env.tx.InitialAirdrop? && Applied(hash) !in core.meta {
      AirdropMoves(host, a.balances, env.tx.claimant, a.airdrops);
    }
  }

  lemma {:induction false} TxsGrant(host: Host, book: Book, core: Core, now: nat, height: nat, txs: seq<Envelope>,
                                    hashes: seq<string>, a: Acc)
    requires |txs| == |hashes| && Sum(a.balances) <= U64_MAX
    requires ApplyTxs(host, book, core, now, height, txs, hashes, a).Ok?
    ensures var r := ApplyTxs(host, book, core, now, height, txs, hashes, a).value;
            var n := GrantedAll(host, core.meta, txs, hashes, Get(a.balances, WORKER_POOL), a.airdrops);
            r.airdrops == a.airdrops + n && r.credited == (a.credited || n > 0)
    decreases |txs|
  {
    hide ApplyTx, Sum, Paid, Grants, BurnOf;
    if txs != [] {
      var a1 := ApplyTx(host, book, core, now, height, txs[0], hashes[0], a).value;
      AppliedTxPays(host, book, core, now, height, txs[0], hashes[0], a);
      TxGrants(host, book, core, now, height, txs[0], hashes[0], a);
      ApplyTxBurns(host, book, core, now, height, txs[0], hashes[0], a);
      TxsGrant(host, book, core, now, height, txs[1..], hashes[1..], a1);
    }
  }

  /** The height and the airdrop count an accepted block stores. */
  lemma BlockCounts(host: Host, book: Book, core: Core, now: nat, height: nat, txs: seq<Envelope>, hashes: seq<string>,
                    producer: string, reward: nat)
    requires |txs| == |hashes| && Sum(core.balances) <= U64_MAX
    requires ApplyBlock(host, book, core, now, height, txs, hashes, producer, reward).Ok?
    ensures var c := ApplyBlock(host, book, core, now, height, txs, hashes, producer, reward).value.core.counters;
            && c.height == height
            && c.airdrops == core.counters.airdrops
                             + GrantedAll(host, core.meta, txs, hashes, Get(core.balances, WORKER_POOL),
                                          core.counters.airdrops)
  {
    hide ApplyTxs, ApplyReward, Sum, GrantedAll;
    TxsGrant(host, book, core, now, height, txs, hashes, InitialAcc(core));
  }

  lemma {:induction false} PreviewTxsPay(host: Host, book: Book, now: nat, txs: seq<Envelope>, hashes: seq<string>,
                                         d: Draft)
    requires |txs| == |hashes| && Sum(d.balances) <= U64_MAX && PreviewTxs(host, book, now, txs, d).Ok?
    ensures var r := PreviewTxs(host, book, now, txs, d).value;
            forall k :: Get(r.balances, k) == Get(d.balances, k)
              + PaidAll(host, map[], txs, hashes, Get(d.balances, WORKER_POOL), d.airdrops, k)
    decreases |txs|
  {
    hide PreviewTx, Sum, Paid, Grants, BurnOf;
    if txs != [] {
      PreviewTxPays(host, book, now, txs[0], d);
      PreviewTxBurns(host, book, now, txs[0], d);
      PreviewTxsPay(host, book, now, txs[1..], hashes[1..], PreviewTx(host, book, now, txs[0], d).value);
    }
  }

  /** And after a previewed one: the same statement with nothing settled. */
  lemma PreviewPays(host: Host, book: Book, core: Core, now: nat, txs: seq<Envelope>, hashes: seq<string>,
                    producer: string, reward: nat)
    requires |txs| == |hashes| && Sum(core.balances) <= U64_MAX
    requires PreviewBlock(host, book, core, now, txs, producer, reward).Ok?
    ensures var after := PreviewBlock(host, book, core, now, txs, producer, reward).value;
            forall k :: Get(after, k) == Get(core.balances, k)
              + PaidAll(host, map[], txs, hashes, Get(core.balances, WORKER_POOL), core.counters.airdrops, k)
              + Earned(producer, reward, k)
  {
    hide PreviewTxs, ApplyReward, Sum, PaidAll, Burns;
    var d := Draft(core.balances, core.counters.airdrops);
    PreviewTxsPay(host, book, now, txs, hashes, d);
    PreviewTxsBurn(host, book, now, txs, d);
    RewardMoves(PreviewTxs(host, book, now, txs, d).value.balances, producer, reward);
  }

  /** The reading of it for one new transfer between three wallets: numbers only. */
  lemma TransferOfThree(host: Host, book: Book, core: Core, now: nat, height: nat, env: Envelope, hash: string)
    requires Sum(core.balances) <= U64_MAX && env.tx.Transfer? && Applied(hash) !in core.meta
    requires ApplyTx(host, book, core, now, height, env, hash, InitialAcc(core)).Ok?
    requires Norm(env.tx.fromWallet) != Norm(env.tx.toWallet)
    requires WORKER_POOL !in {Norm(env.tx.fromWallet), Norm(env.tx.toWallet)}
    ensures var before := core.balances;
            var after := ApplyTx(host, book, core, now, height, env, hash, InitialAcc(core)).value.balances;
            var (f, t, amount) := (Norm(env.tx.fromWallet), Norm(env.tx.toWallet), env.tx.amount);
            var fee := amount * env.tx.feeBps / 10_000;
            && Get(after, f) == Get(before, f) - amount
            && Get(after, t) == Get(before, t) + amount - fee
            && Get(after, WORKER_POOL) == Get(before, WORKER_POOL) + fee / 2
            && forall k :: k != f && k != t && k != WORKER_POOL ==> Get(after, k) == Get(before, k)
  {
    hide ApplyTx, Sum, Norm;
    AppliedTxPays(host, book, core, now, height, env, hash, InitialAcc(core));
  }
}
