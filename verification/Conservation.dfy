/** Money across one block: nothing is created, nothing saturates, what is burned leaves the supply. */
module Conservation {
  import opened Basics
  import opened Text
  import opened Fees
  import opened Protocol
  import opened BlockApply
  import opened BlockLaws

  /** Room for every saturating operation of a block. The fee total only grows while coins burn, so
      four times the circulating sum bounds all the fees still to come. */
  ghost predicate Sound(bal: map<string, nat>, supply: nat, burned: nat, fees: nat) {
    && Sum(bal) <= supply <= MAX_SUPPLY_MICRO
    && Sum(bal) + burned <= U64_MAX
    && fees + 4 * Sum(bal) <= U64_MAX
  }

  /** `b` follows from `a` by moving and burning coins, with every sum exact. */
  ghost predicate Conserves(a: Acc, b: Acc) {
    && Sum(b.balances) + b.burned == Sum(a.balances) + a.burned
    && b.supply - Sum(b.balances) == a.supply - Sum(a.balances)
    && Sum(b.balances) <= Sum(a.balances)
    && b.fees + 4 * Sum(b.balances) <= a.fees + 4 * Sum(a.balances)
    && Sound(b.balances, b.supply, b.burned, b.fees)
  }

  /** Enough to keep the supply in step with the balances, whatever the counters say. */
  ghost predicate Covered(bal: map<string, nat>, supply: nat) {
    Sum(bal) <= supply <= MAX_SUPPLY_MICRO
  }

  ghost predicate Follows(a: Acc, b: Acc) {
    && b.supply - Sum(b.balances) == a.supply - Sum(a.balances)
    && Sum(b.balances) <= Sum(a.balances)
    && Covered(b.balances, b.supply)
  }

  lemma Debit(m: map<string, nat>, k: string, v: nat)
    requires v <= Get(m, k)
    ensures v <= Sum(m) && Sum(m[k := Get(m, k) - v]) == Sum(m) - v
  {
    SumUpdate(m, k, Get(m, k) - v);
    SumAtLeast(m, k);
  }

  lemma Credit(m: map<string, nat>, k: string, v: nat)
    requires Sum(m) + v <= U64_MAX
    ensures Sum(m[k := SatAdd(Get(m, k), v)]) == Sum(m) + v
  {
    SumUpdate(m, k, SatAdd(Get(m, k), v));
    SumAtLeast(m, k);
  }

  lemma TransferSum(bal: map<string, nat>, f: string, t: string, amount: nat, split: FeeSplit)
    requires amount <= Get(bal, f) && Sum(bal) <= U64_MAX
    requires split.net + split.pool + split.burn == amount
    ensures Sum(TransferBalances(bal, f, t, amount, split)) == Sum(bal) - split.burn
    ensures amount <= Sum(bal)
  {
    Debit(bal, f, amount);
    var b1 := bal[f := Get(bal, f) - amount];
    Credit(b1, t, split.net);
    var b2 := b1[t := SatAdd(Get(b1, t), split.net)];
    Credit(b2, WORKER_POOL, split.pool);
  }

  // What a settled transaction adds to the fee total.
  function FeeOf(core: Core, tx: Tx, hash: string): nat {
    if Applied(hash) in core.meta then 0
    else
      match tx
      case Transfer(_, _, amount, feeBps) => BpsOf(amount, feeBps)
      case FileFee(_, _, _, fee) => fee
      case _ => 0
  }

  lemma TransferConserves(book: Book, core: Core, now: nat, tx: Tx, hash: string, a: Acc)
    requires tx.Transfer? && Covered(a.balances, a.supply)
    requires ApplyTransfer(book, core, now, tx, hash, a).Ok?
    ensures var r := ApplyTransfer(book, core, now, tx, hash, a).value;
            && Follows(a, r)
            && (Sound(a.balances, a.supply, a.burned, a.fees) ==>
                  Conserves(a, r) && r.fees == a.fees + FeeOf(core, tx, hash))
  {
    if Applied(hash) !in core.meta {
      var split := Charge(TransferFee(tx.feeBps), tx.amount).value;
      TransferSum(a.balances, Norm(tx.fromWallet), Norm(tx.toWallet), tx.amount, split);
      assert split.Fee() == BpsOf(tx.amount, tx.feeBps) <= 2 * split.burn;
    }
  }

  lemma FileFeeConserves(host: Host, book: Book, core: Core, now: nat, tx: Tx, hash: string, a: Acc)
    requires tx.FileFee? && Covered(a.balances, a.supply)
    requires SettleFileFee(host, book, core, now, tx, hash, a).Ok?
    ensures var r := SettleFileFee(host, book, core, now, tx, hash, a).value;
            && Follows(a, r)
            && (Sound(a.balances, a.supply, a.burned, a.fees) ==>
                  Conserves(a, r) && r.fees == a.fees + FeeOf(core, tx, hash))
  {
    if Applied(hash) !in core.meta {
      var bal := a.balances;
      var e := ApplyFileFee(host, book, now, bal, tx.payer, tx.storageWallet, tx.fee).value;
      assert e.split == FeeSplit(500, 0, 250, 250);
      Debit(bal, e.payer, tx.fee);
      var b1 := bal[e.payer := Get(bal, e.payer) - tx.fee];
      Credit(b1, e.treasury, e.split.treasury);
      var b2 := b1[e.treasury := SatAdd(Get(b1, e.treasury), e.split.treasury)];
      Credit(b2, e.storage, e.split.net);
    }
  }

  lemma AirdropConserves(host: Host, core: Core, tx: Tx, hash: string, a: Acc)
    requires tx.InitialAirdrop? && Covered(a.balances, a.supply)
    requires ClaimAirdrop(host, core, tx, hash, a).Ok?
    ensures var r := ClaimAirdrop(host, core, tx, hash, a).value;
            && Follows(a, r)
            && (Sound(a.balances, a.supply, a.burned, a.fees) ==>
                  Conserves(a, r) && r.fees == a.fees + FeeOf(core, tx, hash))
  {
    var bal := a.balances;
    if Applied(hash) !in core.meta && ApplyAirdrop(host, bal, tx.claimant, a.airdrops).value.credited {
      Debit(bal, WORKER_POOL, FAUCET_AIRDROP_MICRO);
      Credit(bal[WORKER_POOL := Get(bal, WORKER_POOL) - FAUCET_AIRDROP_MICRO], Norm(tx.claimant), FAUCET_AIRDROP_MICRO);
    }
  }

  lemma OtherTxConserves(host: Host, book: Book, core: Core, now: nat, height: nat, env: Envelope, hash: string, a: Acc)
    requires !env.tx.Transfer? && !env.tx.FileFee? && !env.tx.InitialAirdrop?
    requires ApplyTx(host, book, core, now, height, env, hash, a).Ok?
    ensures var r := ApplyTx(host, book, core, now, height, env, hash, a).value;
            r == a.(meta := r.meta, registry := r.registry)
  {
    hide NewTask, NewWorker, WorkerFieldsValid, WorkerEligible, ApplyTransfer, SettleFileFee, ClaimAirdrop, Norm, Trim;
  }

  lemma TxConserves(host: Host, book: Book, core: Core, now: nat, height: nat, env: Envelope, hash: string, a: Acc)
    requires Covered(a.balances, a.supply)
    requires ApplyTx(host, book, core, now, height, env, hash, a).Ok?
    ensures var r := ApplyTx(host, book, core, now, height, env, hash, a).value;
            && Follows(a, r)
            && (Sound(a.balances, a.supply, a.burned, a.fees) ==>
                  Conserves(a, r) && r.fees == a.fees + FeeOf(core, env.tx, hash))
  {
    hide ApplyTransfer, SettleFileFee, ClaimAirdrop, RegisterWorker, ApplyZkProof;
    match env.tx
    case Transfer(_, _, _, _) => TransferConserves(book, core, now, env.tx, hash, a);
    case FileFee(_, _, _, _) => FileFeeConserves(host, book, core, now, env.tx, hash, a);
    case InitialAirdrop(_) => AirdropConserves(host, core, env.tx, hash, a);
    case _ => OtherTxConserves(host, book, core, now, height, env, hash, a);
  }

  function FeesOf(core: Core, txs: seq<Envelope>, hashes: seq<string>): nat
    requires |txs| == |hashes|
  {
    if txs == [] then 0 else FeeOf(core, txs[0].tx, hashes[0]) + FeesOf(core, txs[1..], hashes[1..])
  }

  lemma {:induction false} TxsConserve(host: Host, book: Book, core: Core, now: nat, height: nat, txs: seq<Envelope>,
                                       hashes: seq<string>, a: Acc)
    requires |txs| == |hashes| && Covered(a.balances, a.supply)
    requires ApplyTxs(host, book, core, now, height, txs, hashes, a).Ok?
    ensures var r := ApplyTxs(host, book, core, now, height, txs, hashes, a).value;
            && Follows(a, r)
            && (Sound(a.balances, a.supply, a.burned, a.fees) ==>
                  Conserves(a, r) && r.fees == a.fees + FeesOf(core, txs, hashes))
  {
    hide ApplyTx, FeeOf;
    if txs != [] {
      TxConserves(host, book, core, now, height, txs[0], hashes[0], a);
      var a1 := ApplyTx(host, book, core, now, height, txs[0], hashes[0], a).value;
      TxsConserve(host, book, core, now, height, txs[1..], hashes[1..], a1);
    }
  }

  lemma RewardConserves(bal: map<string, nat>, producer: string, reward: nat)
    requires Sum(bal) <= U64_MAX && ApplyReward(bal, producer, reward).Ok?
    ensures Sum(ApplyReward(bal, producer, reward).value) == Sum(bal)
  {
    if reward > 0 {
      Debit(bal, WORKER_POOL, reward);
      Credit(bal[WORKER_POOL := Get(bal, WORKER_POOL) - reward], Norm(producer), reward);
    }
  }

  ghost predicate SoundCore(c: Core) {
    Sound(c.balances, c.counters.supply, c.counters.burned, c.counters.fees)
  }

  // Circulation and burning are exact over a block, the supply follows, and the fee total is the
  // true sum of the block's fees: no saturating operation lost anything.
  lemma BlockConserves(host: Host, book: Book, core: Core, now: nat, height: nat, txs: seq<Envelope>,
                       hashes: seq<string>, producer: string, reward: nat)
    requires SoundCore(core)
    requires ApplyBlock(host, book, core, now, height, txs, hashes, producer, reward).Ok?
    ensures var c := ApplyBlock(host, book, core, now, height, txs, hashes, producer, reward).value.core;
            && SoundCore(c)
            && Sum(c.balances) + c.counters.burned == Sum(core.balances) + core.counters.burned
            && c.counters.supply - Sum(c.balances) == core.counters.supply - Sum(core.balances)
            && c.counters.fees == core.counters.fees + FeesOf(core, txs, hashes)
  {
    TxsConserve(host, book, core, now, height, txs, hashes, InitialAcc(core));
    var a := ApplyTxs(host, book, core, now, height, txs, hashes, InitialAcc(core)).value;
    RewardConserves(a.balances, producer, reward);
    StoredBalancesAreTheMap(host, book, core, now, height, txs, hashes, producer, reward);
  }

  // The supply clause alone needs only balances within the supply.
  lemma BlockKeepsSupplyGap(host: Host, book: Book, core: Core, now: nat, height: nat, txs: seq<Envelope>,
                            hashes: seq<string>, producer: string, reward: nat)
    requires Covered(core.balances, core.counters.supply)
    requires ApplyBlock(host, book, core, now, height, txs, hashes, producer, reward).Ok?
    ensures var c := ApplyBlock(host, book, core, now, height, txs, hashes, producer, reward).value.core;
            && Covered(c.balances, c.counters.supply)
            && c.counters.supply - Sum(c.balances) == core.counters.supply - Sum(core.balances)
  {
    hide ApplyTxs, ApplyReward;
    TxsConserve(host, book, core, now, height, txs, hashes, InitialAcc(core));
    var a := ApplyTxs(host, book, core, now, height, txs, hashes, InitialAcc(core)).value;
    RewardConserves(a.balances, producer, reward);
    StoredBalancesAreTheMap(host, book, core, now, height, txs, hashes, producer, reward);
  }
}
