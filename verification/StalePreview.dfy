/** Why a block's transactions must be new to the chain: the preview settles again what the apply skips
    (tet-core/src/ledger.rs:1429-1517, 1689-1898). */
module StalePreview {
  import opened Basics
  import opened Text
  import opened Fees
  import opened Protocol
  import opened Locks
  import opened BlockApply
  import opened BlockLaws
  import opened Conservation

  lemma MovedBack(bal: map<string, nat>, f: string, t: string, amount: nat, split: FeeSplit)
    requires 0 < amount <= Get(bal, f) && Sum(bal) <= U64_MAX && split == FeeSplit(amount, 0, 0, 0)
    ensures TransferBalances(bal, f, t, amount, split) == bal <==> f == t
  {
    SumAtLeast(bal, f);
    if f == t {
      assert TransferBalances(bal, f, t, amount, split) == bal;
    } else {
      assert TransferBalances(bal, f, t, amount, split)[f] == bal[f] - amount;
    }
  }

  /** A settled transfer is skipped by the apply. The preview leaves the balances as they were exactly when it
      is a self-transfer too small to carry a fee. */
  lemma SettledTransferPreviewsUnchangedIff(host: Host, book: Book, core: Core, now: nat, height: nat, env: Envelope,
                                            hash: string)
    requires env.tx.Transfer? && Applied(hash) in core.meta && Sum(core.balances) <= U64_MAX
    requires PreviewTx(host, book, now, env, DraftOf(InitialAcc(core))).Ok?
    ensures ApplyTx(host, book, core, now, height, env, hash, InitialAcc(core)) == Ok(InitialAcc(core))
    ensures PreviewTx(host, book, now, env, DraftOf(InitialAcc(core))).value.balances == core.balances
            <==> BpsOf(env.tx.amount, env.tx.feeBps) == 0 && Norm(env.tx.fromWallet) == Norm(env.tx.toWallet)
  {
    hide Norm, Trim, LockedSum, Sum, TransferBalances, BpsOf;
    var tx := env.tx;
    var f, t, split := Norm(tx.fromWallet), Norm(tx.toWallet), Charge(TransferFee(tx.feeBps), tx.amount).value;
    TransferSum(core.balances, f, t, tx.amount, split);
    if BpsOf(tx.amount, tx.feeBps) == 0 {
      MovedBack(core.balances, f, t, tx.amount, split);
    } else {
      assert split.burn > 0;
    }
  }

  /** A settled airdrop is skipped too. Its preview leaves the balances as they were exactly when the count is at
      the cap or the pool is below the grant. */
  lemma SettledAirdropPreviewsUnchangedIff(host: Host, book: Book, core: Core, now: nat, height: nat, env: Envelope,
                                           hash: string)
    requires env.tx.InitialAirdrop? && Applied(hash) in core.meta
    requires PreviewTx(host, book, now, env, DraftOf(InitialAcc(core))).Ok?
    ensures ApplyTx(host, book, core, now, height, env, hash, InitialAcc(core)) == Ok(InitialAcc(core))
    ensures PreviewTx(host, book, now, env, DraftOf(InitialAcc(core))).value.balances == core.balances
            <==> core.counters.airdrops >= FAUCET_MAX_RECIPIENTS
                 || Get(core.balances, WORKER_POOL) < FAUCET_AIRDROP_MICRO
  {
    hide Norm, IsHex64;
    var w, after := Norm(env.tx.claimant), PreviewTx(host, book, now, env, DraftOf(InitialAcc(core))).value.balances;
    assert w != WORKER_POOL;
    if ApplyAirdrop(host, core.balances, env.tx.claimant, core.counters.airdrops).value.credited {
      assert Get(after, WORKER_POOL) == Get(core.balances, WORKER_POOL) - FAUCET_AIRDROP_MICRO;
    }
  }

  /** And so is a settled file fee, whose preview never leaves the balances as they were. */
  lemma SettledFileFeeNeverPreviewsUnchanged(host: Host, book: Book, core: Core, now: nat, height: nat, env: Envelope,
                                             hash: string)
    requires env.tx.FileFee? && Applied(hash) in core.meta && Sum(core.balances) <= U64_MAX
    requires PreviewTx(host, book, now, env, DraftOf(InitialAcc(core))).Ok?
    ensures ApplyTx(host, book, core, now, height, env, hash, InitialAcc(core)) == Ok(InitialAcc(core))
    ensures PreviewTx(host, book, now, env, DraftOf(InitialAcc(core))).value.balances != core.balances
  {
    hide Norm, Trim, LockedSum, Sum, ApplyFileFee;
    PreviewFileFeeBurns(host, book, now, core.balances, env.tx.payer, env.tx.storageWallet, env.tx.fee);
  }

  // ----- whole blocks

  // What settling a transaction burns.
  function BurnOf(tx: Tx): nat {
    match tx
    case Transfer(_, _, amount, feeBps) => BpsOf(amount, feeBps) - BpsOf(amount, feeBps) / 2
    case FileFee(_, _, _, fee) => FileFeeSplit(fee).burn
    case _ => 0
  }

  function Burns(txs: seq<Envelope>): nat {
    if txs == [] then 0 else BurnOf(txs[0].tx) + Burns(txs[1..])
  }

  // The part of it that the chain had settled before.
  function SettledBurn(core: Core, txs: seq<Envelope>, hashes: seq<string>): nat
    requires |txs| == |hashes|
  {
    if txs == [] then 0
    else (if Applied(hashes[0]) in core.meta then BurnOf(txs[0].tx) else 0) + SettledBurn(core, txs[1..], hashes[1..])
  }

  lemma PreviewFileFeeBurns(host: Host, book: Book, now: nat, bal: map<string, nat>, payer: string, storage: string,
                            fee: nat)
    requires Sum(bal) <= U64_MAX && ApplyFileFee(host, book, now, bal, payer, storage, fee).Ok?
    ensures var e := ApplyFileFee(host, book, now, bal, payer, storage, fee).value;
            Sum(e.balances) == Sum(bal) - e.split.burn && e.split == FileFeeSplit(fee) && e.split.burn > 0
  {
    hide Norm, Trim, LockedSum, Sum;
    var e := ApplyFileFee(host, book, now, bal, payer, storage, fee).value;
    assert e.split == FeeSplit(500, 0, 250, 250);
    Debit(bal, e.payer, fee);
    var b1 := bal[e.payer := Get(bal, e.payer) - fee];
    Credit(b1, e.treasury, e.split.treasury);
    Credit(b1[e.treasury := SatAdd(Get(b1, e.treasury), e.split.treasury)], e.storage, e.split.net);
  }

  lemma PreviewAirdropBurnsNothing(host: Host, bal: map<string, nat>, claimant: string, count: nat)
    requires Sum(bal) <= U64_MAX && ApplyAirdrop(host, bal, claimant, count).Ok?
    ensures Sum(ApplyAirdrop(host, bal, claimant, count).value.balances) == Sum(bal)
  {
    hide Norm, IsHex64, Sum;
    if ApplyAirdrop(host, bal, claimant, count).value.credited {
      Debit(bal, WORKER_POOL, FAUCET_AIRDROP_MICRO);
      Credit(bal[WORKER_POOL := Get(bal, WORKER_POOL) - FAUCET_AIRDROP_MICRO], Norm(claimant), FAUCET_AIRDROP_MICRO);
    }
  }

  lemma PreviewTxBurns(host: Host, book: Book, now: nat, env: Envelope, d: Draft)
    requires Sum(d.balances) <= U64_MAX && PreviewTx(host, book, now, env, d).Ok?
    ensures Sum(PreviewTx(host, book, now, env, d).value.balances) == Sum(d.balances) - BurnOf(env.tx)
  {
    hide Norm, Trim, LockedSum, Sum, TransferBalances, ApplyFileFee, ApplyAirdrop, WorkerEligible, BpsOf, FileFeeSplit;
    var tx := env.tx;
    match tx
    case Transfer(f, t, amount, feeBps) =>
      TransferSum(d.balances, Norm(f), Norm(t), amount, Charge(TransferFee(feeBps), amount).value);
    case FileFee(f, storage, _, fee) => PreviewFileFeeBurns(host, book, now, d.balances, f, storage, fee);
    case InitialAirdrop(w) => PreviewAirdropBurnsNothing(host, d.balances, w, d.airdrops);
    case _ =>
  }

  lemma SettledTxMovesNothing(host: Host, book: Book, core: Core, now: nat, height: nat, env: Envelope, hash: string,
                              a: Acc)
    requires Applied(hash) in core.meta && ApplyTx(host, book, core, now, height, env, hash, a).Ok?
    ensures ApplyTx(host, book, core, now, height, env, hash, a).value.balances == a.balances
  {
    hide NewTask, NewWorker, Norm, Trim;
  }

  lemma ApplyTxBurns(host: Host, book: Book, core: Core, now: nat, height: nat, env: Envelope, hash: string, a: Acc)
    requires Sum(a.balances) <= U64_MAX && ApplyTx(host, book, core, now, height, env, hash, a).Ok?
    ensures Sum(ApplyTx(host, book, core, now, height, env, hash, a).value.balances)
            == Sum(a.balances) - (if Applied(hash) in core.meta then 0 else BurnOf(env.tx))
  {
    hide ApplyTx, PreviewTx, Sum, BurnOf, LockedSum;
    if Applied(hash) in core.meta {
      SettledTxMovesNothing(host, book, core, now, height, env, hash, a);
    } else {
      AppliedTxPreviews(host, book, now, core, height, env, hash, a);
      assert NoStricter(book, now, book, now);
      PreviewedTxApplies(host, book, now, book, now, core, height, env, hash, a);
      PreviewTxBurns(host, book, now, env, DraftOf(a));
    }
  }

  lemma {:induction false} PreviewTxsBurn(host: Host, book: Book, now: nat, txs: seq<Envelope>, d: Draft)
    requires Sum(d.balances) <= U64_MAX && PreviewTxs(host, book, now, txs, d).Ok?
    ensures Sum(PreviewTxs(host, book, now, txs, d).value.balances) == Sum(d.balances) - Burns(txs)
    decreases |txs|
  {
    hide PreviewTx, Sum, BurnOf;
    if txs != [] {
      PreviewTxBurns(host, book, now, txs[0], d);
      PreviewTxsBurn(host, book, now, txs[1..], PreviewTx(host, book, now, txs[0], d).value);
    }
  }

  lemma {:induction false} ApplyTxsBurn(host: Host, book: Book, core: Core, now: nat, height: nat, txs: seq<Envelope>,
                                        hashes: seq<string>, a: Acc)
    requires |txs| == |hashes| && Sum(a.balances) <= U64_MAX
    requires ApplyTxs(host, book, core, now, height, txs, hashes, a).Ok?
    ensures Sum(ApplyTxs(host, book, core, now, height, txs, hashes, a).value.balances)
            == Sum(a.balances) - Burns(txs) + SettledBurn(core, txs, hashes)
    decreases |txs|
  {
    hide ApplyTx, Sum, BurnOf;
    if txs != [] {
      ApplyTxBurns(host, book, core, now, height, txs[0], hashes[0], a);
      var a1 := ApplyTx(host, book, core, now, height, txs[0], hashes[0], a).value;
      ApplyTxsBurn(host, book, core, now, height, txs[1..], hashes[1..], a1);
    }
  }

  /** When a block both previews and applies, the stored balances exceed the previewed ones by exactly what the
      already settled transactions would burn again. */
  lemma PreviewLosesTheSettledBurn(host: Host, book: Book, core: Core, t1: nat, t2: nat, height: nat,
                                   txs: seq<Envelope>, hashes: seq<string>, producer: string, reward: nat)
    requires |txs| == |hashes| && Sum(core.balances) <= U64_MAX
    requires PreviewBlock(host, book, core, t1, txs, producer, reward).Ok?
    requires ApplyBlock(host, book, core, t2, height, txs, hashes, producer, reward).Ok?
    ensures Sum(ApplyBlock(host, book, core, t2, height, txs, hashes, producer, reward).value.core.balances)
            == Sum(PreviewBlock(host, book, core, t1, txs, producer, reward).value) + SettledBurn(core, txs, hashes)
  {
    hide PreviewTxs, ApplyTxs, ApplyReward, Sum, Burns, SettledBurn;
    var d := Draft(core.balances, core.counters.airdrops);
    PreviewTxsBurn(host, book, t1, txs, d);
    RewardConserves(PreviewTxs(host, book, t1, txs, d).value.balances, producer, reward);
    ApplyTxsBurn(host, book, core, t2, height, txs, hashes, InitialAcc(core));
    AppliedFits(host, book, core, t2, height, txs, hashes);
    RewardConserves(ApplyTxs(host, book, core, t2, height, txs, hashes, InitialAcc(core)).value.balances, producer,
                    reward);
    StoredBalancesAreTheMap(host, book, core, t2, height, txs, hashes, producer, reward);
  }

  lemma AppliedFits(host: Host, book: Book, core: Core, now: nat, height: nat, txs: seq<Envelope>, hashes: seq<string>)
    requires |txs| == |hashes| && Sum(core.balances) <= U64_MAX
    requires ApplyTxs(host, book, core, now, height, txs, hashes, InitialAcc(core)).Ok?
    ensures Sum(ApplyTxs(host, book, core, now, height, txs, hashes, InitialAcc(core)).value.balances) <= U64_MAX
  {
    ApplyTxsBurn(host, book, core, now, height, txs, hashes, InitialAcc(core));
    SettledIsPart(core, txs, hashes);
  }

  lemma {:induction false} SettledIsPart(core: Core, txs: seq<Envelope>, hashes: seq<string>)
    requires |txs| == |hashes|
    ensures SettledBurn(core, txs, hashes) <= Burns(txs)
    decreases |txs|
  {
    hide BurnOf;
    if txs != [] {
      SettledIsPart(core, txs[1..], hashes[1..]);
    }
  }

  lemma {:induction false} SettledBurnAtLeast(core: Core, txs: seq<Envelope>, hashes: seq<string>, i: nat)
    requires i < |txs| == |hashes| && Applied(hashes[i]) in core.meta
    ensures SettledBurn(core, txs, hashes) >= BurnOf(txs[i].tx)
    decreases |txs|
  {
    hide BurnOf;
    if i > 0 {
      SettledBurnAtLeast(core, txs[1..], hashes[1..], i - 1);
    }
  }

  predicate CarriesAFee(tx: Tx) {
    tx.FileFee? || (tx.Transfer? && BpsOf(tx.amount, tx.feeBps) > 0)
  }

  lemma {:induction false} PreviewedFeesBurn(host: Host, book: Book, now: nat, txs: seq<Envelope>, d: Draft, i: nat)
    requires i < |txs| && PreviewTxs(host, book, now, txs, d).Ok? && CarriesAFee(txs[i].tx)
    ensures BurnOf(txs[i].tx) > 0
    decreases |txs|
  {
    hide Norm, Trim, LockedSum, ApplyAirdrop, WorkerEligible, TransferBalances;
    if i > 0 {
      PreviewedFeesBurn(host, book, now, txs[1..], PreviewTx(host, book, now, txs[0], d).value, i - 1);
    } else if txs[0].tx.FileFee? {
      assert txs[0].tx.fee == FILE_FEE_MICRO;
      assert FileFeeSplit(FILE_FEE_MICRO) == FeeSplit(500, 0, 250, 250);
    }
  }

  /** A block that previews and applies with a settled file fee, or a settled transfer that carries a fee, in it
      is stored with other balances than previewed. */
  lemma StalePreviewDiffers(host: Host, book: Book, core: Core, t1: nat, t2: nat, height: nat, txs: seq<Envelope>,
                            hashes: seq<string>, producer: string, reward: nat, i: nat)
    requires i < |txs| == |hashes| && Sum(core.balances) <= U64_MAX
    requires Applied(hashes[i]) in core.meta && CarriesAFee(txs[i].tx)
    requires PreviewBlock(host, book, core, t1, txs, producer, reward).Ok?
    requires ApplyBlock(host, book, core, t2, height, txs, hashes, producer, reward).Ok?
    ensures ApplyBlock(host, book, core, t2, height, txs, hashes, producer, reward).value.core.balances
            != PreviewBlock(host, book, core, t1, txs, producer, reward).value
  {
    hide PreviewTxs, ApplyTxs, ApplyReward, Sum, CarriesAFee, BurnOf, SettledBurn;
    PreviewedFeesBurn(host, book, t1, txs, Draft(core.balances, core.counters.airdrops), i);
    SettledBurnAtLeast(core, txs, hashes, i);
    PreviewLosesTheSettledBurn(host, book, core, t1, t2, height, txs, hashes, producer, reward);
  }
}
