/** What preview and apply promise each other, and what a block keeps. */
module BlockLaws {
  import opened Basics
  import opened Text
  import opened Fees
  import opened Protocol
  import opened Locks
  import opened BlockApply

  // ----- looser locks never change a result

  lemma TransferUnderLooserLocks(a: Book, t: nat, b: Book, u: nat, core: Core, tx: Tx, hash: string, acc: Acc)
    requires NoStricter(b, u, a, t) && tx.Transfer? && ApplyTransfer(a, core, t, tx, hash, acc).Ok?
    ensures ApplyTransfer(b, core, u, tx, hash, acc) == ApplyTransfer(a, core, t, tx, hash, acc)
  {
    hide TransferBalances, Charge;
    assert LockedSum(b, Norm(tx.fromWallet), u) <= LockedSum(a, Norm(tx.fromWallet), t);
  }

  lemma FileFeeUnderLooserLocks(host: Host, a: Book, t: nat, b: Book, u: nat, core: Core, tx: Tx, hash: string,
                                acc: Acc)
    requires NoStricter(b, u, a, t) && tx.FileFee? && SettleFileFee(host, a, core, t, tx, hash, acc).Ok?
    ensures SettleFileFee(host, b, core, u, tx, hash, acc) == SettleFileFee(host, a, core, t, tx, hash, acc)
  {
    assert LockedSum(b, Trim(tx.payer), u) <= LockedSum(a, Trim(tx.payer), t);
  }

  lemma TxUnderLooserLocks(host: Host, a: Book, t: nat, b: Book, u: nat, core: Core, height: nat, env: Envelope,
                           hash: string, acc: Acc)
    requires NoStricter(b, u, a, t)
    requires ApplyTx(host, a, core, t, height, env, hash, acc).Ok?
    ensures ApplyTx(host, b, core, u, height, env, hash, acc) == ApplyTx(host, a, core, t, height, env, hash, acc)
  {
    hide ApplyTransfer, SettleFileFee, ClaimAirdrop, ApplyZkProof, NewTask, NewWorker, WorkerFieldsValid;
    match env.tx
    case Transfer(_, _, _, _) => TransferUnderLooserLocks(a, t, b, u, core, env.tx, hash, acc);
    case FileFee(_, _, _, _) => FileFeeUnderLooserLocks(host, a, t, b, u, core, env.tx, hash, acc);
    case _ =>
  }

  lemma {:induction false} TxsUnderLooserLocks(host: Host, a: Book, t: nat, b: Book, u: nat, core: Core, height: nat,
                                               txs: seq<Envelope>, hashes: seq<string>, acc: Acc)
    requires NoStricter(b, u, a, t) && |txs| == |hashes|
    requires ApplyTxs(host, a, core, t, height, txs, hashes, acc).Ok?
    ensures ApplyTxs(host, b, core, u, height, txs, hashes, acc) == ApplyTxs(host, a, core, t, height, txs, hashes, acc)
  {
    hide ApplyTx, NoStricter;
    if txs != [] {
      TxUnderLooserLocks(host, a, t, b, u, core, height, txs[0], hashes[0], acc);
      var acc1 := ApplyTx(host, a, core, t, height, txs[0], hashes[0], acc).value;
      TxsUnderLooserLocks(host, a, t, b, u, core, height, txs[1..], hashes[1..], acc1);
    }
  }

  // A block that applied under some locks applies the same way once locks have run out.
  lemma BlockUnderLooserLocks(host: Host, a: Book, t: nat, b: Book, u: nat, core: Core, height: nat,
                              txs: seq<Envelope>, hashes: seq<string>, producer: string, reward: nat)
    requires NoStricter(b, u, a, t)
    requires ApplyBlock(host, a, core, t, height, txs, hashes, producer, reward).Ok?
    ensures ApplyBlock(host, b, core, u, height, txs, hashes, producer, reward)
         == ApplyBlock(host, a, core, t, height, txs, hashes, producer, reward)
  {
    TxsUnderLooserLocks(host, a, t, b, u, core, height, txs, hashes, InitialAcc(core));
  }

  // ----- preview and apply

  // The checks only the apply makes.
  predicate ExtraChecks(host: Host, core: Core, env: Envelope) {
    match env.tx
    case VerifyZkProof(taskId, imageId, _, _) =>
      && imageId == host.guestImage
      && (Trim(taskId) == "" || (TaskOf(Trim(taskId)) in core.meta && core.meta[TaskOf(Trim(taskId))].TaskRow?))
    case WorkerRegister(_, _, _, _, _) => WorkerFieldsValid(env.tx)
    case _ => true
  }

  ghost predicate AllExtraChecks(host: Host, core: Core, txs: seq<Envelope>) {
    forall i :: 0 <= i < |txs| ==> ExtraChecks(host, core, txs[i])
  }

  // None of the block's transactions was settled before.
  ghost predicate Fresh(core: Core, hashes: seq<string>) {
    forall i :: 0 <= i < |hashes| ==> Applied(hashes[i]) !in core.meta
  }

  function DraftOf(a: Acc): Draft {
    Draft(a.balances, a.airdrops)
  }

  lemma PreviewedTransferApplies(host: Host, a: Book, t: nat, b: Book, u: nat, core: Core, height: nat, env: Envelope,
                                 hash: string, acc: Acc)
    requires NoStricter(b, u, a, t) && Applied(hash) !in core.meta && env.tx.Transfer?
    requires PreviewTx(host, a, t, env, DraftOf(acc)).Ok?
    ensures var r := ApplyTx(host, b, core, u, height, env, hash, acc);
            r.Ok? && DraftOf(r.value) == PreviewTx(host, a, t, env, DraftOf(acc)).value
  {
    assert LockedSum(b, Norm(env.tx.fromWallet), u) <= LockedSum(a, Norm(env.tx.fromWallet), t);
  }

  lemma PreviewedFileFeeApplies(host: Host, a: Book, t: nat, b: Book, u: nat, core: Core, height: nat, env: Envelope,
                                hash: string, acc: Acc)
    requires NoStricter(b, u, a, t) && Applied(hash) !in core.meta && env.tx.FileFee?
    requires PreviewTx(host, a, t, env, DraftOf(acc)).Ok?
    ensures var r := ApplyTx(host, b, core, u, height, env, hash, acc);
            r.Ok? && DraftOf(r.value) == PreviewTx(host, a, t, env, DraftOf(acc)).value
  {
    assert LockedSum(b, Trim(env.tx.payer), u) <= LockedSum(a, Trim(env.tx.payer), t);
  }

  lemma PreviewedOtherApplies(host: Host, a: Book, t: nat, b: Book, u: nat, core: Core, height: nat, env: Envelope,
                              hash: string, acc: Acc)
    requires a.bonds == b.bonds && Applied(hash) !in core.meta && !env.tx.Transfer? && !env.tx.FileFee?
    requires PreviewTx(host, a, t, env, DraftOf(acc)).Ok?
    ensures var r := ApplyTx(host, b, core, u, height, env, hash, acc);
            && r != Err(InsufficientFunds)
            && (r.Ok? <==> ExtraChecks(host, core, env))
            && (r.Ok? ==> DraftOf(r.value) == PreviewTx(host, a, t, env, DraftOf(acc)).value)
  {
    hide NewTask, NewWorker, WorkerFieldsValid, ApplyTransfer, SettleFileFee, Norm, Trim;
  }

  lemma PreviewedTxApplies(host: Host, a: Book, t: nat, b: Book, u: nat, core: Core, height: nat, env: Envelope,
                           hash: string, acc: Acc)
    requires NoStricter(b, u, a, t) && Applied(hash) !in core.meta
    requires PreviewTx(host, a, t, env, DraftOf(acc)).Ok?
    ensures var r := ApplyTx(host, b, core, u, height, env, hash, acc);
            && r != Err(InsufficientFunds)
            && (r.Ok? <==> ExtraChecks(host, core, env))
            && (r.Ok? ==> DraftOf(r.value) == PreviewTx(host, a, t, env, DraftOf(acc)).value)
  {
    hide ApplyTx, PreviewTx, DraftOf;
    if env.tx.Transfer? {
      PreviewedTransferApplies(host, a, t, b, u, core, height, env, hash, acc);
    } else if env.tx.FileFee? {
      PreviewedFileFeeApplies(host, a, t, b, u, core, height, env, hash, acc);
    } else {
      PreviewedOtherApplies(host, a, t, b, u, core, height, env, hash, acc);
    }
  }

  lemma AppliedTxPreviews(host: Host, book: Book, t: nat, core: Core, height: nat, env: Envelope, hash: string,
                          acc: Acc)
    requires Applied(hash) !in core.meta
    requires ApplyTx(host, book, core, t, height, env, hash, acc).Ok?
    ensures PreviewTx(host, book, t, env, DraftOf(acc)).Ok?
  {
  }

  lemma {:induction false} PreviewedTxsApply(host: Host, a: Book, t: nat, b: Book, u: nat, core: Core, height: nat,
                                             txs: seq<Envelope>, hashes: seq<string>, acc: Acc)
    requires NoStricter(b, u, a, t) && |txs| == |hashes| && Fresh(core, hashes)
    requires PreviewTxs(host, a, t, txs, DraftOf(acc)).Ok?
    ensures ApplyTxs(host, b, core, u, height, txs, hashes, acc) != Err(InsufficientFunds)
    ensures ApplyTxs(host, b, core, u, height, txs, hashes, acc).Ok? <==> AllExtraChecks(host, core, txs)
    ensures AllExtraChecks(host, core, txs) ==>
              DraftOf(ApplyTxs(host, b, core, u, height, txs, hashes, acc).value)
              == PreviewTxs(host, a, t, txs, DraftOf(acc)).value
  {
    hide ApplyTx, PreviewTx, ExtraChecks, DraftOf, NoStricter;
    if txs != [] {
      PreviewedTxApplies(host, a, t, b, u, core, height, txs[0], hashes[0], acc);
      assert AllExtraChecks(host, core, txs)
             <==> ExtraChecks(host, core, txs[0]) && AllExtraChecks(host, core, txs[1..]) by {
        assert txs == [txs[0]] + txs[1..];
      }
      if ExtraChecks(host, core, txs[0]) {
        var acc1 := ApplyTx(host, b, core, u, height, txs[0], hashes[0], acc).value;
        PreviewedTxsApply(host, a, t, b, u, core, height, txs[1..], hashes[1..], acc1);
      }
    }
  }

  lemma {:induction false} AppliedTxsPreview(host: Host, book: Book, t: nat, core: Core, height: nat,
                                             txs: seq<Envelope>, hashes: seq<string>, acc: Acc)
    requires |txs| == |hashes| && Fresh(core, hashes)
    requires ApplyTxs(host, book, core, t, height, txs, hashes, acc).Ok?
    ensures PreviewTxs(host, book, t, txs, DraftOf(acc)).Ok?
  {
    hide ApplyTx, PreviewTx, DraftOf;
    if txs != [] {
      AppliedTxPreviews(host, book, t, core, height, txs[0], hashes[0], acc);
      assert NoStricter(book, t, book, t);
      PreviewedTxApplies(host, book, t, book, t, core, height, txs[0], hashes[0], acc);
      var acc1 := ApplyTx(host, book, core, t, height, txs[0], hashes[0], acc).value;
      AppliedTxsPreview(host, book, t, core, height, txs[1..], hashes[1..], acc1);
    }
  }

  // ----- the dirty set is complete

  ghost predicate DirtyComplete(core: Core, bal: map<string, nat>, dirty: set<string>) {
    && core.balances.Keys <= bal.Keys
    && dirty <= bal.Keys
    && forall k :: k in bal && k !in dirty ==> k in core.balances && core.balances[k] == bal[k]
  }

  lemma WriteKeepsDirtyComplete(core: Core, bal: map<string, nat>, dirty: set<string>, k: string, v: nat)
    requires DirtyComplete(core, bal, dirty)
    ensures DirtyComplete(core, bal[k := v], dirty + {k})
  {
  }

  lemma TransferKeepsDirtyComplete(book: Book, core: Core, now: nat, tx: Tx, hash: string, a: Acc)
    requires tx.Transfer? && DirtyComplete(core, a.balances, a.dirty)
    requires ApplyTransfer(book, core, now, tx, hash, a).Ok?
    ensures var r := ApplyTransfer(book, core, now, tx, hash, a).value;
            DirtyComplete(core, r.balances, r.dirty)
  {
    hide Norm, Trim, LockedSum, DirtyComplete;
    if Applied(hash) !in core.meta {
      var bal, dirty, f, t := a.balances, a.dirty, Norm(tx.fromWallet), Norm(tx.toWallet);
      var split := Charge(TransferFee(tx.feeBps), tx.amount).value;
      var b1 := bal[f := Get(bal, f) - tx.amount];
      WriteKeepsDirtyComplete(core, bal, dirty, f, Get(bal, f) - tx.amount);
      var b2 := b1[t := SatAdd(Get(b1, t), split.net)];
      WriteKeepsDirtyComplete(core, b1, dirty + {f}, t, b2[t]);
      assert dirty + {f} + {t} == dirty + {f, t};
      if split.pool > 0 {
        WriteKeepsDirtyComplete(core, b2, dirty + {f, t}, WORKER_POOL, SatAdd(Get(b2, WORKER_POOL), split.pool));
      } else {
        assert dirty + {f, t} + {} == dirty + {f, t};
      }
    }
  }

  lemma FileFeeKeepsDirtyComplete(host: Host, book: Book, core: Core, now: nat, tx: Tx, hash: string, a: Acc)
    requires tx.FileFee? && DirtyComplete(core, a.balances, a.dirty)
    requires SettleFileFee(host, book, core, now, tx, hash, a).Ok?
    ensures var r := SettleFileFee(host, book, core, now, tx, hash, a).value;
            DirtyComplete(core, r.balances, r.dirty)
  {
    hide Norm, Trim, LockedSum, FileFeeSplit, DirtyComplete;
    if Applied(hash) !in core.meta {
      var bal, dirty := a.balances, a.dirty;
      var e := ApplyFileFee(host, book, now, bal, tx.payer, tx.storageWallet, tx.fee).value;
      var b1 := bal[e.payer := Get(bal, e.payer) - tx.fee];
      WriteKeepsDirtyComplete(core, bal, dirty, e.payer, b1[e.payer]);
      var b2 := b1[e.treasury := SatAdd(Get(b1, e.treasury), e.split.treasury)];
      WriteKeepsDirtyComplete(core, b1, dirty + {e.payer}, e.treasury, b2[e.treasury]);
      WriteKeepsDirtyComplete(core, b2, dirty + {e.payer} + {e.treasury}, e.storage, e.balances[e.storage]);
      assert dirty + {e.payer} + {e.treasury} + {e.storage} == dirty + {e.payer, e.treasury, e.storage};
    }
  }

  lemma AirdropKeepsDirtyComplete(host: Host, core: Core, tx: Tx, hash: string, a: Acc)
    requires tx.InitialAirdrop? && DirtyComplete(core, a.balances, a.dirty)
    requires ClaimAirdrop(host, core, tx, hash, a).Ok?
    ensures var r := ClaimAirdrop(host, core, tx, hash, a).value;
            DirtyComplete(core, r.balances, r.dirty)
  {
    if Applied(hash) !in core.meta && ApplyAirdrop(host, a.balances, tx.claimant, a.airdrops).value.credited {
      var bal, dirty, w := a.balances, a.dirty, Norm(tx.claimant);
      var v := Get(bal, WORKER_POOL) - FAUCET_AIRDROP_MICRO;
      var b1 := bal[WORKER_POOL := v];
      WriteKeepsDirtyComplete(core, bal, dirty, WORKER_POOL, v);
      WriteKeepsDirtyComplete(core, b1, dirty + {WORKER_POOL}, w, SatAdd(Get(b1, w), FAUCET_AIRDROP_MICRO));
      assert dirty + {WORKER_POOL} + {w} == dirty + {WORKER_POOL, w};
    }
  }

  lemma RewardKeepsDirtyComplete(core: Core, bal: map<string, nat>, dirty: set<string>, producer: string, reward: nat)
    requires DirtyComplete(core, bal, dirty) && ApplyReward(bal, producer, reward).Ok?
    ensures DirtyComplete(core, ApplyReward(bal, producer, reward).value, dirty + RewardDirty(producer, reward))
  {
    if reward > 0 {
      var v := Get(bal, WORKER_POOL) - reward;
      var b1 := bal[WORKER_POOL := v];
      WriteKeepsDirtyComplete(core, bal, dirty, WORKER_POOL, v);
      WriteKeepsDirtyComplete(core, b1, dirty + {WORKER_POOL}, Norm(producer),
                              SatAdd(Get(bal, Norm(producer)), reward));
      assert dirty + {WORKER_POOL} + {Norm(producer)} == dirty + RewardDirty(producer, reward);
    } else {
      assert dirty + {} == dirty;
    }
  }

  lemma TxKeepsDirtyComplete(host: Host, book: Book, core: Core, now: nat, height: nat, env: Envelope, hash: string,
                             a: Acc)
    requires DirtyComplete(core, a.balances, a.dirty)
    requires ApplyTx(host, book, core, now, height, env, hash, a).Ok?
    ensures var r := ApplyTx(host, book, core, now, height, env, hash, a).value;
            DirtyComplete(core, r.balances, r.dirty)
  {
    hide ApplyTransfer, SettleFileFee, ClaimAirdrop, NewTask, NewWorker, WorkerFieldsValid, DirtyComplete;
    match env.tx
    case Transfer(_, _, _, _) => TransferKeepsDirtyComplete(book, core, now, env.tx, hash, a);
    case FileFee(_, _, _, _) => FileFeeKeepsDirtyComplete(host, book, core, now, env.tx, hash, a);
    case InitialAirdrop(_) => AirdropKeepsDirtyComplete(host, core, env.tx, hash, a);
    case _ =>
  }

  lemma {:induction false} TxsKeepDirtyComplete(host: Host, book: Book, core: Core, now: nat, height: nat,
                                                txs: seq<Envelope>, hashes: seq<string>, a: Acc)
    requires |txs| == |hashes| && DirtyComplete(core, a.balances, a.dirty)
    requires ApplyTxs(host, book, core, now, height, txs, hashes, a).Ok?
    ensures var r := ApplyTxs(host, book, core, now, height, txs, hashes, a).value;
            DirtyComplete(core, r.balances, r.dirty)
  {
    hide ApplyTx, DirtyComplete;
    if txs != [] {
      TxKeepsDirtyComplete(host, book, core, now, height, txs[0], hashes[0], a);
      var a1 := ApplyTx(host, book, core, now, height, txs[0], hashes[0], a).value;
      TxsKeepDirtyComplete(host, book, core, now, height, txs[1..], hashes[1..], a1);
    }
  }

  lemma WriteBackComplete(core: Core, bal: map<string, nat>, dirty: set<string>)
    requires DirtyComplete(core, bal, dirty)
    ensures WriteBack(core.balances, bal, dirty) == bal
  {
    var w := WriteBack(core.balances, bal, dirty);
    forall k ensures k in w <==> k in bal {
    }
    forall k | k in bal ensures w[k] == bal[k] {
    }
  }

  lemma AppliedBlockIsListed(host: Host, book: Book, core: Core, now: nat, height: nat, txs: seq<Envelope>,
                             hashes: seq<string>, producer: string, reward: nat)
    requires ApplyBlock(host, book, core, now, height, txs, hashes, producer, reward).Ok?
    ensures |txs| == |hashes|
  {
  }

  // The stored balances after a block are exactly the in-memory map its root was computed from.
  lemma StoredBalancesAreTheMap(host: Host, book: Book, core: Core, now: nat, height: nat, txs: seq<Envelope>,
                                hashes: seq<string>, producer: string, reward: nat)
    requires ApplyBlock(host, book, core, now, height, txs, hashes, producer, reward).Ok?
    ensures var r := ApplyBlock(host, book, core, now, height, txs, hashes, producer, reward).value;
            r.core.balances == r.balances
  {
    var a := ApplyTxs(host, book, core, now, height, txs, hashes, InitialAcc(core)).value;
    TxsKeepDirtyComplete(host, book, core, now, height, txs, hashes, InitialAcc(core));
    RewardKeepsDirtyComplete(core, a.balances, a.dirty, producer, reward);
    var bal := ApplyReward(a.balances, producer, reward).value;
    WriteBackComplete(core, bal, a.dirty + RewardDirty(producer, reward));
  }

  // Preview at t1, apply at any t2 >= t1: funds never fail, the apply succeeds exactly when its own
  // extra checks pass, and then root and stored balances are the previewed ones.
  lemma PreviewEqualsApply(host: Host, book: Book, core: Core, t1: nat, t2: nat, height: nat, txs: seq<Envelope>,
                           hashes: seq<string>, producer: string, reward: nat)
    requires t1 <= t2 && |txs| == |hashes| && Fresh(core, hashes)
    requires PreviewBlock(host, book, core, t1, txs, producer, reward).Ok?
    ensures var applied := ApplyBlock(host, book, core, t2, height, txs, hashes, producer, reward);
            && applied != Err(InsufficientFunds)
            && (applied.Ok? <==> AllExtraChecks(host, core, txs))
            && (applied.Ok? ==> applied.value.core.balances
                                == PreviewBlock(host, book, core, t1, txs, producer, reward).value)
  {
    LaterIsNoStricter(book, t1, t2);
    PreviewedTxsApply(host, book, t1, book, t2, core, height, txs, hashes, InitialAcc(core));
    if AllExtraChecks(host, core, txs) {
      StoredBalancesAreTheMap(host, book, core, t2, height, txs, hashes, producer, reward);
    }
  }

  // At one instant, apply accepts exactly the previewed blocks that pass the extra checks.
  lemma ApplyAcceptsIff(host: Host, book: Book, core: Core, now: nat, height: nat, txs: seq<Envelope>,
                        hashes: seq<string>, producer: string, reward: nat)
    requires |txs| == |hashes| && Fresh(core, hashes)
    ensures ApplyBlock(host, book, core, now, height, txs, hashes, producer, reward).Ok?
            <==> PreviewBlock(host, book, core, now, txs, producer, reward).Ok? && AllExtraChecks(host, core, txs)
  {
    assert NoStricter(book, now, book, now);
    if ApplyBlock(host, book, core, now, height, txs, hashes, producer, reward).Ok? {
      AppliedTxsPreview(host, book, now, core, height, txs, hashes, InitialAcc(core));
      PreviewedTxsApply(host, book, now, book, now, core, height, txs, hashes, InitialAcc(core));
    }
    if PreviewBlock(host, book, core, now, txs, producer, reward).Ok? {
      PreviewEqualsApply(host, book, core, now, now, height, txs, hashes, producer, reward);
    }
  }
}
