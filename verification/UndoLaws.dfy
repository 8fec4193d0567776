/** Undo inverts apply: the captured keys cover every row a block's transactions write. */
module UndoLaws {
  import opened Basics
  import opened Text
  import opened Fees
  import opened Protocol
  import opened Locks
  import opened BlockApply
  import opened BlockLaws
  import opened Undo

  ghost predicate SameOutside<K(!new), V>(a: map<K, V>, b: map<K, V>, keys: set<K>) {
    forall k :: k !in keys ==> (k in a <==> k in b) && (k in a ==> a[k] == b[k])
  }

  ghost predicate AccFrame(a: Acc, b: Acc, keys: UndoKeys) {
    && SameOutside(a.balances, b.balances, keys.balances)
    && SameOutside(a.meta, b.meta, keys.meta)
    && SameOutside(a.registry, b.registry, keys.registry)
    && (Supply !in keys.counters ==> a.supply == b.supply)
    && (Burned !in keys.counters ==> a.burned == b.burned)
    && (FeeTotal !in keys.counters ==> a.fees == b.fees)
    && (AirdropCount !in keys.counters ==> a.airdrops == b.airdrops && a.credited == b.credited)
  }

  predicate Covers(keys: UndoKeys, part: UndoKeys) {
    && part.balances <= keys.balances && part.counters <= keys.counters && part.meta <= keys.meta
    && part.registry <= keys.registry && part.index <= keys.index
  }

  lemma TransferBalancesFrame(bal: map<string, nat>, f: string, t: string, amount: nat, split: FeeSplit,
                              keys: set<string>)
    requires amount <= Get(bal, f) && {f, t} <= keys && (split.pool > 0 ==> WORKER_POOL in keys)
    ensures SameOutside(bal, TransferBalances(bal, f, t, amount, split), keys)
  {
  }

  lemma TransferFrame(host: Host, book: Book, core: Core, now: nat, env: Envelope, hash: string, a: Acc)
    requires env.tx.Transfer? && ApplyTransfer(book, core, now, env.tx, hash, a).Ok?
    ensures AccFrame(a, ApplyTransfer(book, core, now, env.tx, hash, a).value, TxUndoKeys(host, env, hash))
  {
    hide Norm, Trim, LockedSum, Charge, TransferBalances;
    if Applied(hash) !in core.meta {
      var tx := env.tx;
      TransferBalancesFrame(a.balances, Norm(tx.fromWallet), Norm(tx.toWallet), tx.amount,
                            Charge(TransferFee(tx.feeBps), tx.amount).value, TxUndoKeys(host, env, hash).balances);
    }
  }

  lemma FileFeeFrame(host: Host, book: Book, core: Core, now: nat, env: Envelope, hash: string, a: Acc)
    requires env.tx.FileFee? && SettleFileFee(host, book, core, now, env.tx, hash, a).Ok?
    ensures AccFrame(a, SettleFileFee(host, book, core, now, env.tx, hash, a).value, TxUndoKeys(host, env, hash))
  {
  }

  lemma AirdropFrame(host: Host, core: Core, env: Envelope, hash: string, a: Acc)
    requires env.tx.InitialAirdrop? && ClaimAirdrop(host, core, env.tx, hash, a).Ok?
    ensures AccFrame(a, ClaimAirdrop(host, core, env.tx, hash, a).value, TxUndoKeys(host, env, hash))
  {
  }

  lemma RegisterFrame(host: Host, book: Book, core: Core, height: nat, env: Envelope, hash: string, a: Acc)
    requires env.tx.WorkerRegister? && RegisterWorker(book, core, height, env.tx, hash, a).Ok?
    ensures AccFrame(a, RegisterWorker(book, core, height, env.tx, hash, a).value, TxUndoKeys(host, env, hash))
  {
  }

  lemma WriteInside<K(!new), V>(m: map<K, V>, n: map<K, V>, k: K, v: V, keys: set<K>)
    requires SameOutside(m, n, keys) && k in keys
    ensures SameOutside(m, n[k := v], keys)
  {
  }

  lemma ZkFrame(host: Host, core: Core, env: Envelope, hash: string, a: Acc)
    requires env.tx.VerifyZkProof? && ApplyZkProof(host, core, env, a).Ok?
    ensures AccFrame(a, ApplyZkProof(host, core, env, a).value, TxUndoKeys(host, env, hash))
  {
    var r, keys := ApplyZkProof(host, core, env, a).value, TxUndoKeys(host, env, hash).meta;
    var zkKey, taskKey := ZkVerified(host.sha(env.tx.receipt)), TaskOf(Trim(env.tx.taskId));
    var m1 := if zkKey in core.meta then a.meta
              else a.meta[zkKey := ZkRow(env.tx.imageId, host.sha(env.tx.journal))];
    assert SameOutside(a.meta, m1, keys) by {
      WriteInside(a.meta, a.meta, zkKey, ZkRow(env.tx.imageId, host.sha(env.tx.journal)), keys);
    }
    if r.meta != m1 {
      assert taskKey in keys;
      WriteInside(a.meta, m1, taskKey, r.meta[taskKey], keys);
    }
    assert r == a.(meta := r.meta);
  }

  lemma TxFrame(host: Host, book: Book, core: Core, now: nat, height: nat, env: Envelope, hash: string, a: Acc)
    requires ApplyTx(host, book, core, now, height, env, hash, a).Ok?
    ensures AccFrame(a, ApplyTx(host, book, core, now, height, env, hash, a).value, TxUndoKeys(host, env, hash))
  {
    hide ApplyTransfer, SettleFileFee, ClaimAirdrop, ApplyZkProof, RegisterWorker, NewTask;
    match env.tx
    case Transfer(_, _, _, _) => TransferFrame(host, book, core, now, env, hash, a);
    case FileFee(_, _, _, _) => FileFeeFrame(host, book, core, now, env, hash, a);
    case InitialAirdrop(_) => AirdropFrame(host, core, env, hash, a);
    case WorkerRegister(_, _, _, _, _) => RegisterFrame(host, book, core, height, env, hash, a);
    case VerifyZkProof(_, _, _, _) => ZkFrame(host, core, env, hash, a);
    case EnterpriseInference(_, _, _, _, _, _, _) =>
  }

  lemma {:induction false} TxsFrame(host: Host, book: Book, core: Core, now: nat, height: nat, txs: seq<Envelope>,
                                    hashes: seq<string>, a: Acc, keys: UndoKeys)
    requires |txs| == |hashes| && ApplyTxs(host, book, core, now, height, txs, hashes, a).Ok?
    requires forall i :: 0 <= i < |txs| ==> Covers(keys, TxUndoKeys(host, txs[i], hashes[i]))
    ensures AccFrame(a, ApplyTxs(host, book, core, now, height, txs, hashes, a).value, keys)
  {
    hide ApplyTx, TxUndoKeys;
    if txs != [] {
      TxFrame(host, book, core, now, height, txs[0], hashes[0], a);
      assert Covers(keys, TxUndoKeys(host, txs[0], hashes[0]));
      var a1 := ApplyTx(host, book, core, now, height, txs[0], hashes[0], a).value;
      forall i | 0 <= i < |txs[1..]| ensures Covers(keys, TxUndoKeys(host, txs[1..][i], hashes[1..][i])) {
        assert Covers(keys, TxUndoKeys(host, txs[i + 1], hashes[i + 1]));
      }
      TxsFrame(host, book, core, now, height, txs[1..], hashes[1..], a1, keys);
    }
  }

  lemma PlusCovers(a: UndoKeys, b: UndoKeys)
    ensures Covers(a.Plus(b), a) && Covers(a.Plus(b), b)
  {
  }

  lemma CoversTransitive(a: UndoKeys, b: UndoKeys, c: UndoKeys)
    requires Covers(a, b) && Covers(b, c)
    ensures Covers(a, c)
  {
  }

  lemma {:induction false} AllKeysCover(base: UndoKeys, parts: seq<UndoKeys>, i: nat)
    requires i <= |parts|
    ensures Covers(AllKeys(base, parts), base)
    ensures i < |parts| ==> Covers(AllKeys(base, parts), parts[i])
  {
    if parts != [] {
      var n := |parts| - 1;
      var front := AllKeys(base, parts[..n]);
      PlusCovers(front, parts[n]);
      AllKeysCover(base, parts[..n], if i < n then i else 0);
      CoversTransitive(front.Plus(parts[n]), front, base);
      if i < n {
        assert parts[..n][i] == parts[i];
        CoversTransitive(front.Plus(parts[n]), front, parts[i]);
      }
    }
  }

  // Every transaction's keys, and the block's own, are among the captured ones.
  lemma BlockKeysCover(host: Host, txs: seq<Envelope>, hashes: seq<string>, producer: string, reward: nat, i: nat)
    requires i <= |txs| == |hashes|
    ensures var keys := BlockUndoKeys(host, txs, hashes, producer, reward);
            && Height in keys.counters
            && (reward > 0 ==> {WORKER_POOL, Norm(producer)} <= keys.balances)
            && (i < |txs| ==> Covers(keys, TxUndoKeys(host, txs[i], hashes[i])))
  {
    var base := UndoKeys(if reward > 0 then {WORKER_POOL, Norm(producer)} else {}, {Height}, {}, {}, {});
    hide AllKeys;
    AllKeysCover(base, TxKeyParts(host, txs, hashes), i);
  }

  lemma BlockFrame(host: Host, book: Book, core: Core, now: nat, height: nat, txs: seq<Envelope>,
                   hashes: seq<string>, producer: string, reward: nat)
    requires ApplyBlock(host, book, core, now, height, txs, hashes, producer, reward).Ok?
    ensures AccFrame(InitialAcc(core), ApplyTxs(host, book, core, now, height, txs, hashes, InitialAcc(core)).value,
                     BlockUndoKeys(host, txs, hashes, producer, reward))
  {
    var keys := BlockUndoKeys(host, txs, hashes, producer, reward);
    forall i | 0 <= i < |txs| ensures Covers(keys, TxUndoKeys(host, txs[i], hashes[i])) {
      BlockKeysCover(host, txs, hashes, producer, reward, i);
    }
    TxsFrame(host, book, core, now, height, txs, hashes, InitialAcc(core), keys);
  }

  lemma RewardFrame(bal: map<string, nat>, producer: string, reward: nat, keys: UndoKeys)
    requires ApplyReward(bal, producer, reward).Ok?
    requires reward > 0 ==> {WORKER_POOL, Norm(producer)} <= keys.balances
    ensures SameOutside(bal, ApplyReward(bal, producer, reward).value, keys.balances)
  {
  }

  ghost predicate CoreFrame(before: Core, after: Core, keys: UndoKeys) {
    && SameOutside(before.balances, after.balances, keys.balances)
    && SameOutside(before.meta, after.meta, keys.meta)
    && SameOutside(before.registry, after.registry, keys.registry)
    && forall k :: k !in keys.counters ==> Count(before.counters, k) == Count(after.counters, k)
  }

  lemma CommitFrame(core: Core, height: nat, a: Acc, bal: map<string, nat>, producer: string, reward: nat,
                    keys: UndoKeys)
    requires AccFrame(InitialAcc(core), a, keys) && Height in keys.counters
    requires SameOutside(core.balances, bal, keys.balances)
    requires Commit(core, height, a, bal, producer, reward).balances == bal
    ensures CoreFrame(core, Commit(core, height, a, bal, producer, reward), keys)
  {
  }

  lemma RestoreCore(before: Core, after: Core, keys: UndoKeys)
    requires CoreFrame(before, after, keys)
    ensures Restored(after.balances, Captured(before.balances, keys.balances)) == before.balances
    ensures Restored(after.meta, Captured(before.meta, keys.meta)) == before.meta
    ensures Restored(after.registry, Captured(before.registry, keys.registry)) == before.registry
    ensures RestoredCounters(after.counters, map k | k in keys.counters :: Count(before.counters, k)) == before.counters
  {
    RestoreUndoesWrites(before.balances, after.balances, keys.balances);
    RestoreUndoesWrites(before.meta, after.meta, keys.meta);
    RestoreUndoesWrites(before.registry, after.registry, keys.registry);
    CountersRestored(before.counters, after.counters, keys.counters);
  }

  // Restoring the captured rows over what the block wrote gives back the ledger before the block.
  lemma CoreRestored(host: Host, book: Book, s: Chain, after: Snap, id: string, now: nat, height: nat,
                     txs: seq<Envelope>, hashes: seq<string>, producer: string, reward: nat)
    requires ApplyBlock(host, book, s.snap.core, now, height, txs, hashes, producer, reward).Ok?
    requires after.core == ApplyBlock(host, book, s.snap.core, now, height, txs, hashes, producer, reward).value.core
    ensures RestoreSnap(after, PrepareUndo(host, s, id, height, txs, hashes, producer, reward)).core == s.snap.core
  {
    var core, keys := s.snap.core, BlockUndoKeys(host, txs, hashes, producer, reward);
    var a := ApplyTxs(host, book, core, now, height, txs, hashes, InitialAcc(core)).value;
    var bal := ApplyReward(a.balances, producer, reward).value;
    BlockFrame(host, book, core, now, height, txs, hashes, producer, reward);
    BlockKeysCover(host, txs, hashes, producer, reward, |txs|);
    RewardFrame(a.balances, producer, reward, keys);
    StoredBalancesAreTheMap(host, book, core, now, height, txs, hashes, producer, reward);
    CommitFrame(core, height, a, bal, producer, reward, keys);
    RestoreCore(core, after.core, keys);
  }
}
