/** Which transactions a block accepts, and the rows besides balances they leave: markers, tasks and the worker
    registry. A transaction pays at most once along a chain (tet-core/src/ledger.rs:1649-1942). */
module Effects {
  import opened Basics
  import opened Text
  import opened Fees
  import opened Protocol
  import opened Locks
  import opened BlockApply
  import opened Amounts
  import opened Undo
  import opened Replay
  import opened ReorgLaws

  // ----- acceptance

  /** What the apply asks of a transaction, kind by kind. */
  ghost predicate MayApply(host: Host, book: Book, core: Core, now: nat, env: Envelope, hash: string, a: Acc) {
    var settled := Applied(hash) in core.meta;
    match env.tx
    case Transfer(f, t, amount, feeBps) =>
      && Norm(f) == Norm(env.signer) && Trim(f) != "" && Trim(t) != "" && 0 < amount <= 10_000_000_000_000_000
      && (settled || (100 <= feeBps <= 1_000 && amount + LockedSum(book, Norm(f), now) <= Get(a.balances, Norm(f))))
    case FileFee(f, _, _, fee) =>
      && Norm(f) == Norm(env.signer)
      && (settled || (&& fee == 1_000 && Norm(f) != "" && host.treasury.Some?
                      && 1_000 + LockedSum(book, Trim(f), now) <= Get(a.balances, Norm(f))))
    case InitialAirdrop(w) =>
      && Norm(w) == Norm(env.signer)
      && (settled || (IsHex64(Norm(w)) && Norm(w) !in {WORKER_POOL, DEX_TREASURY, PROTOCOL_RESERVE, ECOSYSTEM,
                                                       host.burnWallet}))
    case WorkerRegister(w, hardwareId, profile, tags, tflops) =>
      && Norm(w) == Norm(env.signer)
      && (settled || (&& IsHex64(Norm(w)) && 0 < |Trim(hardwareId)| <= 128 && 0 < |Trim(profile)| <= 128
                      && |tags| <= 16 && (forall i :: 0 <= i < |tags| ==> 0 < |Trim(tags[i])| <= 64)
                      && tflops.Finite? && tflops.value >= 0.0 && Get(book.bonds, Norm(w)) >= 1_000_000_000))
    case VerifyZkProof(taskId, imageId, _, _) =>
      && imageId == host.guestImage
      && (Trim(taskId) == "" || (TaskOf(Trim(taskId)) in core.meta && core.meta[TaskOf(Trim(taskId))].TaskRow?))
    case EnterpriseInference(w, _, _, _, _, _, _) => Norm(w) == Norm(env.signer)
    case ControlPlane(_) => false
  }

  lemma PaymentAppliesIff(host: Host, book: Book, core: Core, now: nat, height: nat, env: Envelope, hash: string,
                          a: Acc)
    requires env.tx.Transfer? || env.tx.FileFee?
    ensures ApplyTx(host, book, core, now, height, env, hash, a).Ok? <==> MayApply(host, book, core, now, env, hash, a)
  {
    hide Norm, Trim, LockedSum, TransferBalances, FileFeeSplit;
  }

  lemma AppliesIff(host: Host, book: Book, core: Core, now: nat, height: nat, env: Envelope, hash: string, a: Acc)
    ensures ApplyTx(host, book, core, now, height, env, hash, a).Ok? <==> MayApply(host, book, core, now, env, hash, a)
  {
    hide Norm, Trim, LockedSum, ApplyTransfer, SettleFileFee, NewTask, NewWorker, IsHex64;
    if env.tx.Transfer? || env.tx.FileFee? {
      PaymentAppliesIff(host, book, core, now, height, env, hash, a);
    }
  }

  // ----- the rows a transaction leaves

  /** The stored task of an inference request. */
  ghost predicate IsTaskOf(task: AiTask, tx: Tx, hash: string, height: nat)
    requires tx.EnterpriseInference?
  {
    && task.txHash == hash && task.enterprise == Norm(tx.enterprise) && task.prompt == tx.prompt
    && task.promptSha == Norm(tx.promptSha) && task.model == Trim(tx.model) && task.price == tx.price
    && task.workloadFlag == tx.workloadFlag && task.blockHeight == height
    && !task.processed && task.processedBy == None && task.receiptHash == None
  }

  /** The stored row of a worker: as registered, its rewards carried over. */
  ghost predicate IsWorkerOf(row: WorkerRow, core: Core, tx: Tx, height: nat)
    requires tx.WorkerRegister?
  {
    && row.wallet == Norm(tx.workerId) && row.hardwareId == Trim(tx.hardwareId) && row.profile == Trim(tx.profile)
    && (forall c :: c in row.capabilities <==> exists i :: 0 <= i < |tx.capabilities| && c == Norm(tx.capabilities[i]))
    && row.tflops == tx.tflops && row.height == height
    && row.totalRewards == if row.wallet in core.registry then core.registry[row.wallet].totalRewards else 0
  }

  ghost predicate SameRow(a: map<MetaKey, MetaVal>, b: map<MetaKey, MetaVal>, key: MetaKey) {
    (key in a <==> key in b) && (key in a ==> a[key] == b[key])
  }

  ghost predicate SameBut(a: map<MetaKey, MetaVal>, b: map<MetaKey, MetaVal>, x: MetaKey, y: MetaKey) {
    forall key :: key != x && key != y ==> SameRow(a, b, key)
  }

  /** A proof is noted once by its receipt; a task it names and that is still open is closed by its signer. */
  ghost predicate Proves(host: Host, core: Core, env: Envelope, a: Acc, r: Acc)
    requires env.tx.VerifyZkProof?
  {
    var (proof, task) := (ZkVerified(host.sha(env.tx.receipt)), TaskOf(Trim(env.tx.taskId)));
    && SameBut(a.meta, r.meta, proof, task)
    && (if proof in core.meta then SameRow(a.meta, r.meta, proof)
        else proof in r.meta && r.meta[proof] == ZkRow(env.tx.imageId, host.sha(env.tx.journal)))
    && (if Trim(env.tx.taskId) == "" then SameRow(a.meta, r.meta, task)
        else && task in core.meta && core.meta[task].TaskRow?
             && if core.meta[task].task.processed then SameRow(a.meta, r.meta, task)
                else && task in r.meta && r.meta[task].TaskRow?
                     && Closes(core.meta[task].task, r.meta[task].task, Norm(env.signer), host.sha(env.tx.receipt)))
  }

  ghost predicate Closes(before: AiTask, after: AiTask, signer: string, receiptHash: string) {
    after == before.(processed := true, processedBy := Some(signer), receiptHash := Some(receiptHash))
  }

  /** What a transaction writes besides balances and counters, kind by kind; a settled one writes nothing. */
  ghost predicate Writes(host: Host, core: Core, height: nat, env: Envelope, hash: string, a: Acc, r: Acc) {
    var settled := Applied(hash) in core.meta;
    match env.tx
    case Transfer(_, _, _, _) =>
      r.registry == a.registry && r.meta == if settled then a.meta else a.meta[Applied(hash) := Marker]
    case FileFee(_, _, _, _) =>
      r.registry == a.registry && r.meta == if settled then a.meta else a.meta[Applied(hash) := Marker]
    case InitialAirdrop(_) =>
      && r.registry == a.registry
      && r.meta == if Grants(env.tx, settled, Get(a.balances, WORKER_POOL), a.airdrops)
                   then a.meta[Applied(hash) := Marker] else a.meta
    case WorkerRegister(w, _, _, _, _) =>
      if settled then r.meta == a.meta && r.registry == a.registry
      else && r.meta == a.meta[Applied(hash) := Marker] && Norm(w) in r.registry
           && IsWorkerOf(r.registry[Norm(w)], core, env.tx, height)
           && r.registry == a.registry[Norm(w) := r.registry[Norm(w)]]
    case EnterpriseInference(_, _, _, _, _, _, _) =>
      && r.registry == a.registry
      && if TaskOf(hash) in core.meta then r.meta == a.meta
         else && TaskOf(hash) in r.meta && r.meta[TaskOf(hash)].TaskRow?
              && IsTaskOf(r.meta[TaskOf(hash)].task, env.tx, hash, height)
              && r.meta == a.meta[TaskOf(hash) := r.meta[TaskOf(hash)]]
    case VerifyZkProof(_, _, _, _) => r.registry == a.registry && Proves(host, core, env, a, r)
    case ControlPlane(_) => false
  }

  // The two rows a proof may write, its receipt's and its task's.
  lemma ProofRows(a: map<MetaKey, MetaVal>, proof: MetaKey, x: MetaVal, task: MetaKey, y: MetaVal)
    requires proof != task
    ensures SameBut(a, a[proof := x][task := y], proof, task) && SameBut(a, a[proof := x], proof, task)
    ensures SameBut(a, a[task := y], proof, task) && SameBut(a, a, proof, task)
    ensures SameRow(a, a, proof) && SameRow(a, a, task) && SameRow(a, a[proof := x], task)
    ensures SameRow(a, a[task := y], proof)
  {
  }

  lemma ProofWrites(host: Host, core: Core, env: Envelope, a: Acc)
    requires env.tx.VerifyZkProof? && ApplyZkProof(host, core, env, a).Ok?
    ensures var r := ApplyZkProof(host, core, env, a).value;
            r.registry == a.registry && Proves(host, core, env, a, r)
  {
    hide Norm, Trim, SameRow, SameBut;
    var receiptHash := host.sha(env.tx.receipt);
    var (proof, task) := (ZkVerified(receiptHash), TaskOf(Trim(env.tx.taskId)));
    var x := ZkRow(env.tx.imageId, host.sha(env.tx.journal));
    var y := if task in core.meta && core.meta[task].TaskRow?
             then TaskRow(core.meta[task].task.(processed := true, processedBy := Some(Norm(env.signer)),
                                                receiptHash := Some(receiptHash)))
             else Marker;
    ProofRows(a.meta, proof, x, task, y);
    var r := ApplyZkProof(host, core, env, a).value;
    assert r.meta in {a.meta, a.meta[proof := x], a.meta[task := y], a.meta[proof := x][task := y]};
  }

  lemma WorkerWrites(book: Book, core: Core, height: nat, tx: Tx, hash: string, a: Acc)
    requires tx.WorkerRegister? && Applied(hash) !in core.meta && RegisterWorker(book, core, height, tx, hash, a).Ok?
    ensures var r := RegisterWorker(book, core, height, tx, hash, a).value;
            && r.meta == a.meta[Applied(hash) := Marker] && Norm(tx.workerId) in r.registry
            && IsWorkerOf(r.registry[Norm(tx.workerId)], core, tx, height)
            && r.registry == a.registry[Norm(tx.workerId) := r.registry[Norm(tx.workerId)]]
  {
    hide Norm, Trim, IsHex64, WorkerFieldsValid;
    forall c ensures c in NewWorker(core, tx, height).capabilities
                     <==> exists i :: 0 <= i < |tx.capabilities| && c == Norm(tx.capabilities[i])
    {
    }
  }

  lemma AirdropWrites(host: Host, core: Core, tx: Tx, hash: string, a: Acc)
    requires tx.InitialAirdrop? && ClaimAirdrop(host, core, tx, hash, a).Ok?
    ensures var r := ClaimAirdrop(host, core, tx, hash, a).value;
            && r.registry == a.registry
            && r.meta == if Grants(tx, Applied(hash) in core.meta, Get(a.balances, WORKER_POOL), a.airdrops)
                         then a.meta[Applied(hash) := Marker] else a.meta
  {
    hide Norm, IsHex64;
  }

  lemma AppliedTxWrites(host: Host, book: Book, core: Core, now: nat, height: nat, env: Envelope, hash: string, a: Acc)
    requires ApplyTx(host, book, core, now, height, env, hash, a).Ok?
    ensures Writes(host, core, height, env, hash, a, ApplyTx(host, book, core, now, height, env, hash, a).value)
  {
    hide Norm, Trim, LockedSum, TransferBalances, ApplyFileFee, RegisterWorker, ApplyZkProof, ClaimAirdrop, Charge,
         Proves, IsWorkerOf, Grants;
    match env.tx
    case WorkerRegister(_, _, _, _, _) =>
      if Applied(hash) !in core.meta {
        WorkerWrites(book, core, height, env.tx, hash, a);
      } else {
        assert RegisterWorker(book, core, height, env.tx, hash, a) == Ok(a) by {
          SettledWorker(book, core, height, env.tx, hash, a);
        }
      }
    case VerifyZkProof(_, _, _, _) => ProofWrites(host, core, env, a);
    case InitialAirdrop(_) => AirdropWrites(host, core, env.tx, hash, a);
    case _ =>
  }

  lemma SettledWorker(book: Book, core: Core, height: nat, tx: Tx, hash: string, a: Acc)
    requires tx.WorkerRegister? && Applied(hash) in core.meta
    ensures RegisterWorker(book, core, height, tx, hash, a) == Ok(a)
  {
  }

  // ----- along a chain

  // A transaction that moves or registers something and is marked when it applies.
  predicate IsPayment(tx: Tx) {
    tx.Transfer? || tx.FileFee? || tx.WorkerRegister?
  }

  lemma TxMarks(host: Host, book: Book, core: Core, now: nat, height: nat, env: Envelope, hash: string, a: Acc)
    requires ApplyTx(host, book, core, now, height, env, hash, a).Ok?
    ensures var r := ApplyTx(host, book, core, now, height, env, hash, a).value;
            && a.meta.Keys <= r.meta.Keys
            && (IsPayment(env.tx) && Applied(hash) !in core.meta ==> Applied(hash) in r.meta)
  {
    hide ApplyTx, Norm, Trim, Grants, IsTaskOf, IsWorkerOf, Closes;
    AppliedTxWrites(host, book, core, now, height, env, hash, a);
    var r := ApplyTx(host, book, core, now, height, env, hash, a).value;
    if env.tx.VerifyZkProof? {
      forall key | key in a.meta ensures key in r.meta {
        assert SameRow(a.meta, r.meta, key) || key in r.meta;
      }
    }
  }

  lemma {:induction false} TxsMark(host: Host, book: Book, core: Core, now: nat, height: nat, txs: seq<Envelope>,
                                   hashes: seq<string>, a: Acc)
    requires |txs| == |hashes| && ApplyTxs(host, book, core, now, height, txs, hashes, a).Ok?
    ensures var r := ApplyTxs(host, book, core, now, height, txs, hashes, a).value;
            && a.meta.Keys <= r.meta.Keys
            && forall i :: 0 <= i < |txs| && IsPayment(txs[i].tx) ==>
                 Applied(hashes[i]) in core.meta || Applied(hashes[i]) in r.meta
    decreases |txs|
  {
    hide ApplyTx;
    if txs != [] {
      var a1 := ApplyTx(host, book, core, now, height, txs[0], hashes[0], a).value;
      TxMarks(host, book, core, now, height, txs[0], hashes[0], a);
      TxsMark(host, book, core, now, height, txs[1..], hashes[1..], a1);
      var r := ApplyTxs(host, book, core, now, height, txs, hashes, a).value;
      forall i | 0 <= i < |txs| && IsPayment(txs[i].tx)
        ensures Applied(hashes[i]) in core.meta || Applied(hashes[i]) in r.meta
      {
        if i > 0 {
          assert txs[1..][i - 1] == txs[i] && hashes[1..][i - 1] == hashes[i];
        }
      }
    }
  }

  // A block marks its payments and takes no marker away.
  lemma BlockMarks(host: Host, book: Book, snap: Snap, b: BlockRecord)
    requires ExtendSnap(host, book, snap, b).Ok?
    ensures var t := ExtendSnap(host, book, snap, b).value;
            && |b.txs| == |b.hashes| && snap.core.meta.Keys <= t.core.meta.Keys
            && forall i :: 0 <= i < |b.txs| && IsPayment(b.txs[i].tx) ==> Applied(b.hashes[i]) in t.core.meta
  {
    hide ApplyTxs, ApplyReward;
    TxsMark(host, book.Unlocked(), snap.core, 0, b.height, b.txs, b.hashes, InitialAcc(snap.core));
  }

  lemma {:induction false} ChainMarks(host: Host, book: Book, genesis: Core, blocks: seq<BlockRecord>, i: nat, p: nat)
    requires ReplayBlocks(host, book, genesis, blocks).Ok? && i < |blocks|
    requires p < |blocks[i].txs| == |blocks[i].hashes| && IsPayment(blocks[i].txs[p].tx)
    ensures Applied(blocks[i].hashes[p]) in ReplayBlocks(host, book, genesis, blocks).value.core.meta
  {
    hide ExtendSnap;
    var n := |blocks| - 1;
    BlockMarks(host, book, ReplayBlocks(host, book, genesis, blocks[..n]).value, blocks[n]);
    if i < n {
      ChainMarks(host, book, genesis, blocks[..n], i, p);
    }
  }

  /** Along a chain that replays, a payment's hash pays nobody anything in any later block. */
  lemma PaysOnce(host: Host, book: Book, genesis: Core, blocks: seq<BlockRecord>, i: nat, p: nat, j: nat, q: nat,
                 pool: int, count: nat, k: string)
    requires ReplayBlocks(host, book, genesis, blocks).Ok? && i < j < |blocks|
    requires p < |blocks[i].txs| == |blocks[i].hashes| && q < |blocks[j].txs| == |blocks[j].hashes|
    requires IsPayment(blocks[i].txs[p].tx) && blocks[i].hashes[p] == blocks[j].hashes[q]
    ensures var settled := Applied(blocks[j].hashes[q]) in SnapAt(host, book, genesis, blocks, j).core.meta;
            settled && Paid(host, blocks[j].txs[q].tx, settled, pool, count, k) == 0
  {
    hide ExtendSnap, ReplayBlocks;
    PrefixReplays(host, book, genesis, blocks, j);
    assert blocks[..j][i] == blocks[i];
    ChainMarks(host, book, genesis, blocks[..j], i, p);
  }
}
