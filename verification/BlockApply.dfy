/** One block against the ledger: the in-memory preview, and the batched apply
    (tet-core/src/ledger.rs:1362-1971). */
module BlockApply {
  import opened Basics
  import opened Text
  import opened Fees
  import opened Protocol
  import opened Locks

  const FAUCET_AIRDROP_MICRO: nat := 1_000 * STEVEMON
  const FAUCET_MAX_RECIPIENTS: nat := 10_000
  const MIN_WORKER_STAKE_MICRO: nat := 1_000 * STEVEMON

  // ----- balance effects shared by preview and apply

  function TransferBalances(bal: map<string, nat>, payer: string, payee: string, amount: nat, split: FeeSplit)
    : map<string, nat>
    requires amount <= Get(bal, payer)
  {
    var b1 := bal[payer := Get(bal, payer) - amount];
    var b2 := b1[payee := SatAdd(Get(b1, payee), split.net)];
    if split.pool > 0 then b2[WORKER_POOL := SatAdd(Get(b2, WORKER_POOL), split.pool)] else b2
  }

  datatype FileFeeEffect = FileFeeEffect(
    balances: map<string, nat>, payer: string, treasury: string, storage: string, split: FeeSplit)

  // The sender's lock is looked up under the trimmed, not lower-cased, wallet id.
  function ApplyFileFee(host: Host, book: Book, now: nat, bal: map<string, nat>, payer: string,
                        storageWallet: string, fee: nat): Result<FileFeeEffect, LedgerError>
  {
    if fee != FILE_FEE_MICRO then Err(Invalid("file fee must be exact"))
    else
      var from := Norm(payer);
      if from == "" then Err(Invalid("file fee sender required"))
      else if host.treasury.None? then Err(Invalid("TET_TREASURY_ADDRESS is required"))
      else
        var treasury := host.treasury.value;
        var storage := if Norm(storageWallet) == "" then treasury else Norm(storageWallet);
        var split := FileFeeSplit(fee);
        if SatSub(Get(bal, from), LockedSum(book, Trim(payer), now)) < fee then Err(InsufficientFunds)
        else
          var b1 := bal[from := Get(bal, from) - fee];
          var b2 := b1[treasury := SatAdd(Get(b1, treasury), split.treasury)];
          var b3 := b2[storage := SatAdd(Get(b2, storage), split.net)];
          Ok(FileFeeEffect(b3, from, treasury, storage, split))
  }

  datatype AirdropEffect = AirdropEffect(balances: map<string, nat>, count: nat, credited: bool)

  function ApplyAirdrop(host: Host, bal: map<string, nat>, claimant: string, count: nat)
    : Result<AirdropEffect, LedgerError>
  {
    var w := Norm(claimant);
    if !IsHex64(w) then Err(Invalid("airdrop wallet must be 64 hex chars"))
    else if IsReservedSystemWallet(w) || w == host.burnWallet then
      Err(Invalid("reserved wallet cannot claim initial airdrop"))
    else if count >= FAUCET_MAX_RECIPIENTS || Get(bal, WORKER_POOL) < FAUCET_AIRDROP_MICRO then
      Ok(AirdropEffect(bal, count, false))
    else
      var b1 := bal[WORKER_POOL := Get(bal, WORKER_POOL) - FAUCET_AIRDROP_MICRO];
      Ok(AirdropEffect(b1[w := SatAdd(Get(b1, w), FAUCET_AIRDROP_MICRO)], SatAdd(count, 1), true))
  }

  // Both reads come before both writes; the pool is reserved, so the two keys differ.
  function ApplyReward(bal: map<string, nat>, producer: string, reward: nat): Result<map<string, nat>, LedgerError> {
    if reward == 0 then Ok(bal)
    else
      var p := Norm(producer);
      if p == "" then Err(Invalid("producer_id required"))
      else if IsReservedSystemWallet(p) then
        Result<map<string, nat>, LedgerError>.Err(Invalid("reserved wallet cannot receive block reward"))
      else if Get(bal, WORKER_POOL) < reward then Err(InsufficientFunds)
      else
        var paid: map<string, nat> := bal[WORKER_POOL := Get(bal, WORKER_POOL) - reward];
        Ok(paid[p := SatAdd(Get(bal, p), reward)])
  }

  function WorkerEligible(book: Book, workerId: string): Result<(), LedgerError> {
    var w := Norm(workerId);
    if !IsHex64(w) then Err(Invalid("worker wallet must be 64 hex chars"))
    else if Get(book.bonds, w) < MIN_WORKER_STAKE_MICRO then Err(Invalid("worker bond below minimum"))
    else Ok(())
  }

  predicate WorkerFieldsValid(tx: Tx)
    requires tx.WorkerRegister?
  {
    && IsHex64(Norm(tx.workerId))
    && 0 < |Trim(tx.hardwareId)| <= 128
    && 0 < |Trim(tx.profile)| <= 128
    && |tx.capabilities| <= 16
    && (forall i :: 0 <= i < |tx.capabilities| ==> 0 < |Trim(tx.capabilities[i])| <= 64)
    && tx.tflops.Finite? && tx.tflops.value >= 0.0
  }

  // ----- the preview: balances and the airdrop counter only

  datatype Draft = Draft(balances: map<string, nat>, airdrops: nat)

  function PreviewTx(host: Host, book: Book, now: nat, env: Envelope, d: Draft): Result<Draft, LedgerError> {
    if !SignerActsForItself(env) then Err(Invalid("signer must be the wallet the transaction acts for"))
    else
      match env.tx
      case Transfer(f, t, amount, feeBps) =>
        if Trim(f) == "" || Trim(t) == "" then Err(Invalid("from/to required"))
        else if amount == 0 || amount > MAX_SUPPLY_MICRO then Err(Invalid("amount exceeds hard cap"))
        else
          (match Charge(TransferFee(feeBps), amount)
           case Err(_) => Err(Invalid("fee"))
           case Ok(split) =>
             if SatSub(Get(d.balances, Norm(f)), LockedSum(book, Norm(f), now)) < amount then Err(InsufficientFunds)
             else Ok(d.(balances := TransferBalances(d.balances, Norm(f), Norm(t), amount, split))))
      case VerifyZkProof(_, _, _, _) => Ok(d)
      case EnterpriseInference(_, _, _, _, _, _, _) => Ok(d)
      case InitialAirdrop(w) =>
        var e :- ApplyAirdrop(host, d.balances, w, d.airdrops);
        Ok(Draft(e.balances, e.count))
      case FileFee(f, storage, _, fee) =>
        var e :- ApplyFileFee(host, book, now, d.balances, f, storage, fee);
        Ok(d.(balances := e.balances))
      case WorkerRegister(w, _, _, _, _) =>
        var _ :- WorkerEligible(book, w);
        Ok(d)
      case ControlPlane(_) => Err(Invalid("unsupported tx in remote block"))
  }

  function PreviewTxs(host: Host, book: Book, now: nat, txs: seq<Envelope>, d: Draft): Result<Draft, LedgerError> {
    if txs == [] then Ok(d)
    else
      var d1 :- PreviewTx(host, book, now, txs[0], d);
      PreviewTxs(host, book, now, txs[1..], d1)
  }

  // The balances after the block, reward included.
  function PreviewBlock(host: Host, book: Book, core: Core, now: nat, txs: seq<Envelope>, producer: string,
                        reward: nat): Result<map<string, nat>, LedgerError>
  {
    var d :- PreviewTxs(host, book, now, txs, Draft(core.balances, core.counters.airdrops));
    ApplyReward(d.balances, producer, reward)
  }

  // ----- the apply: a balance map, the set of its dirty keys, counters and write batches

  datatype Acc = Acc(
    balances: map<string, nat>,
    dirty: set<string>,
    supply: nat, burned: nat, fees: nat,
    airdrops: nat, credited: bool,
    meta: map<MetaKey, MetaVal>,
    registry: map<string, WorkerRow>)

  function InitialAcc(core: Core): Acc {
    Acc(core.balances, {}, core.counters.supply, core.counters.burned, core.counters.fees,
        core.counters.airdrops, false, map[], map[])
  }

  function ApplyZkProof(host: Host, core: Core, env: Envelope, a: Acc): Result<Acc, LedgerError>
    requires env.tx.VerifyZkProof?
  {
    if env.tx.imageId != host.guestImage then Err(Invalid("image_id mismatch"))
    else
      var receiptHash := host.sha(env.tx.receipt);
      var zkKey := ZkVerified(receiptHash);
      var a1 := if zkKey in core.meta then a
                else a.(meta := a.meta[zkKey := ZkRow(env.tx.imageId, host.sha(env.tx.journal))]);
      if Trim(env.tx.taskId) == "" then Ok(a1)
      else
        var taskKey := TaskOf(Trim(env.tx.taskId));
        if taskKey !in core.meta then Err(Invalid("ai_workload_task_missing"))
        else if !core.meta[taskKey].TaskRow? then Err(Invalid("ai workload json decode"))
        else
          var task := core.meta[taskKey].task;
          if task.processed then Ok(a1)
          else
            var done := task.(processed := true, processedBy := Some(Norm(env.signer)),
                              receiptHash := Some(receiptHash));
            Ok(a1.(meta := a1.meta[taskKey := TaskRow(done)]))
  }

  function NewTask(tx: Tx, hash: string, height: nat): AiTask
    requires tx.EnterpriseInference?
  {
    AiTask(hash, Norm(tx.enterprise), tx.prompt, Norm(tx.promptSha), Trim(tx.model), tx.price, tx.workloadFlag,
           height, false, None, None)
  }

  // The stored capability tags are sorted and de-duplicated, that is, a set.
  function NewWorker(core: Core, tx: Tx, height: nat): WorkerRow
    requires tx.WorkerRegister?
  {
    var w := Norm(tx.workerId);
    WorkerRow(w, Trim(tx.hardwareId), Trim(tx.profile), set c | c in tx.capabilities :: Norm(c), tx.tflops, height,
              if w in core.registry then core.registry[w].totalRewards else 0)
  }

  function ApplyTransfer(book: Book, core: Core, now: nat, tx: Tx, hash: string, a: Acc): Result<Acc, LedgerError>
    requires tx.Transfer?
  {
    var from, to := Norm(tx.fromWallet), Norm(tx.toWallet);
    if Trim(tx.fromWallet) == "" || Trim(tx.toWallet) == "" then Err(Invalid("from/to required"))
    else if tx.amount == 0 || tx.amount > MAX_SUPPLY_MICRO then Err(Invalid("amount exceeds hard cap"))
    else if Applied(hash) in core.meta then Ok(a)
    else if SatSub(Get(a.balances, from), LockedSum(book, from, now)) < tx.amount then Err(InsufficientFunds)
    else
      match Charge(TransferFee(tx.feeBps), tx.amount)
      case Err(_) => Err(Invalid("fee"))
      case Ok(split) =>
        var paid := a.(balances := TransferBalances(a.balances, from, to, tx.amount, split),
                       dirty := a.dirty + {from, to} + (if split.pool > 0 then {WORKER_POOL} else {}),
                       meta := a.meta[Applied(hash) := Marker]);
        if split.Fee() > 0 then
          Ok(paid.(supply := SatSub(a.supply, split.burn), burned := SatAdd(a.burned, split.burn),
                   fees := SatAdd(a.fees, split.Fee())))
        else Ok(paid)
  }

  function SettleFileFee(host: Host, book: Book, core: Core, now: nat, tx: Tx, hash: string, a: Acc)
    : Result<Acc, LedgerError>
    requires tx.FileFee?
  {
    if Applied(hash) in core.meta then Ok(a)
    else
      var e :- ApplyFileFee(host, book, now, a.balances, tx.payer, tx.storageWallet, tx.fee);
      Ok(a.(balances := e.balances, dirty := a.dirty + {e.payer, e.treasury, e.storage},
            supply := SatSub(a.supply, e.split.burn), burned := SatAdd(a.burned, e.split.burn),
            fees := SatAdd(a.fees, tx.fee), meta := a.meta[Applied(hash) := Marker]))
  }

  function ClaimAirdrop(host: Host, core: Core, tx: Tx, hash: string, a: Acc): Result<Acc, LedgerError>
    requires tx.InitialAirdrop?
  {
    if Applied(hash) in core.meta then Ok(a)
    else
      var e :- ApplyAirdrop(host, a.balances, tx.claimant, a.airdrops);
      if e.credited then
        Ok(a.(balances := e.balances, dirty := a.dirty + {WORKER_POOL, Norm(tx.claimant)}, airdrops := e.count,
              credited := true, meta := a.meta[Applied(hash) := Marker]))
      else Ok(a)
  }

  function RegisterWorker(book: Book, core: Core, height: nat, tx: Tx, hash: string, a: Acc): Result<Acc, LedgerError>
    requires tx.WorkerRegister?
  {
    if Applied(hash) in core.meta then Ok(a)
    else if !WorkerFieldsValid(tx) then Err(Invalid("worker fields"))
    else
      var _ :- WorkerEligible(book, tx.workerId);
      Ok(a.(registry := a.registry[Norm(tx.workerId) := NewWorker(core, tx, height)],
            meta := a.meta[Applied(hash) := Marker]))
  }

  function ApplyTx(host: Host, book: Book, core: Core, now: nat, height: nat, env: Envelope, hash: string, a: Acc)
    : Result<Acc, LedgerError>
  {
    if !SignerActsForItself(env) then Err(Invalid("signer must be the wallet the transaction acts for"))
    else
      match env.tx
      case Transfer(_, _, _, _) => ApplyTransfer(book, core, now, env.tx, hash, a)
      case VerifyZkProof(_, _, _, _) => ApplyZkProof(host, core, env, a)
      case EnterpriseInference(_, _, _, _, _, _, _) =>
        if TaskOf(hash) in core.meta then Ok(a)
        else Ok(a.(meta := a.meta[TaskOf(hash) := TaskRow(NewTask(env.tx, hash, height))]))
      case FileFee(_, _, _, _) => SettleFileFee(host, book, core, now, env.tx, hash, a)
      case WorkerRegister(_, _, _, _, _) => RegisterWorker(book, core, height, env.tx, hash, a)
      case InitialAirdrop(_) => ClaimAirdrop(host, core, env.tx, hash, a)
      case ControlPlane(_) => Err(Invalid("unsupported tx in consensus block"))
  }

  function ApplyTxs(host: Host, book: Book, core: Core, now: nat, height: nat, txs: seq<Envelope>,
                    hashes: seq<string>, a: Acc): Result<Acc, LedgerError>
    requires |txs| == |hashes|
  {
    if txs == [] then Ok(a)
    else
      var a1 :- ApplyTx(host, book, core, now, height, txs[0], hashes[0], a);
      ApplyTxs(host, book, core, now, height, txs[1..], hashes[1..], a1)
  }

  // Only the dirty keys are written back.
  function WriteBack(stored: map<string, nat>, mem: map<string, nat>, dirty: set<string>): map<string, nat> {
    stored + map k | k in dirty :: Get(mem, k)
  }

  function RewardDirty(producer: string, reward: nat): set<string> {
    if reward > 0 then {WORKER_POOL, Norm(producer)} else {}
  }

  function Commit(core: Core, height: nat, a: Acc, bal: map<string, nat>, producer: string, reward: nat): Core {
    Core(WriteBack(core.balances, bal, a.dirty + RewardDirty(producer, reward)),
         Counters(a.supply, a.burned, a.fees, height, if a.credited then a.airdrops else core.counters.airdrops),
         core.meta + a.meta,
         core.registry + a.registry)
  }

  datatype Outcome = Outcome(core: Core, balances: map<string, nat>)

  // The ledger after the block, and the in-memory balances its state root was computed from.
  function ApplyBlock(host: Host, book: Book, core: Core, now: nat, height: nat, txs: seq<Envelope>,
                      hashes: seq<string>, producer: string, reward: nat): Result<Outcome, LedgerError>
  {
    if |txs| != |hashes| then Err(Invalid("txs/tx_hashes length mismatch"))
    else
      var a :- ApplyTxs(host, book, core, now, height, txs, hashes, InitialAcc(core));
      var bal :- ApplyReward(a.balances, producer, reward);
      Ok(Outcome(Commit(core, height, a, bal, producer, reward), bal))
  }
}
