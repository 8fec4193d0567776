/** Transactions, the node's surroundings, and the decoded ledger rows (tet-core/src/protocol.rs,
    tet-core/src/ledger.rs). A stored counter that is absent reads as zero, so counters are plain
    numbers here; transaction hashes are the node's own canonical strings. */
module Protocol {
  import opened Basics
  import opened Text

  datatype Tflops = NotFinite | Finite(value: real)

  datatype Tx =
    | Transfer(fromWallet: string, toWallet: string, amount: nat, feeBps: nat)
    | FileFee(payer: string, storageWallet: string, fileId: string, fee: nat)
    | InitialAirdrop(claimant: string)
    | WorkerRegister(workerId: string, hardwareId: string, profile: string,
                     capabilities: seq<string>, tflops: Tflops)
    | EnterpriseInference(enterprise: string, prompt: string, model: string, price: nat, nonce: nat,
                          promptSha: string, workloadFlag: nat)
    | VerifyZkProof(taskId: string, imageId: seq<nat>, journal: string, receipt: string)
    | ControlPlane(actor: string)

  datatype Envelope = Envelope(tx: Tx, signer: string, seal: string)

  function ActingWallet(tx: Tx): Option<string> {
    match tx
    case Transfer(f, _, _, _) => Some(f)
    case FileFee(f, _, _, _) => Some(f)
    case InitialAirdrop(w) => Some(w)
    case WorkerRegister(w, _, _, _, _) => Some(w)
    case EnterpriseInference(w, _, _, _, _, _, _) => Some(w)
    case VerifyZkProof(_, _, _, _) => None
    case ControlPlane(w) => Some(w)
  }

  predicate SignerActsForItself(env: Envelope) {
    match ActingWallet(env.tx)
    case Some(w) => Norm(w) == Norm(env.signer)
    case None => true
  }

  predicate IsAiWorkload(tx: Tx) {
    tx.EnterpriseInference? && tx.workloadFlag == 1
  }

  // What `zk_verifier::verify_tx_receipt_and_journal` says about a receipt.
  datatype ZkVerdict = ZkInvalid | ZkCourt(flops: nat) | ZkOther

  // A worker's attested lane, as `caac_get_worker_record` returns it.
  datatype CaacRecord = CaacRecord(role: string, latencyMs: nat, serverWallMs: nat)

  /** Configuration, hashing and verification the chain code calls out to. */
  datatype Host = Host(
    treasury: Option<string>,
    burnWallet: string,
    guestImage: seq<nat>,
    sha: string -> string,
    root: map<string, nat> -> string,
    txHash: Envelope -> Option<string>,
    blockId: (nat, string, string, seq<string>, string) -> string,
    zk: (seq<nat>, string, string) -> ZkVerdict,
    caac: string -> Option<CaacRecord>,
    leader: nat -> Option<string>,
    baseReward: nat,
    computeReward: nat -> nat)

  datatype VestLock = VestLock(wallet: string, amount: nat, unlockAt: nat)

  /** What block apply reads but never writes: vesting locks, the founder's cliff, worker bonds. */
  datatype Book = Book(
    vests: seq<VestLock>,
    founder: Option<string>,
    founderUnlockAt: nat,
    founderLocked: nat,
    bonds: map<string, nat>)
  {
    function Unlocked(): Book {
      this.(vests := [], founder := None)
    }
  }

  datatype AiTask = AiTask(
    txHash: string, enterprise: string, prompt: string, promptSha: string, model: string, price: nat,
    workloadFlag: nat, blockHeight: nat, processed: bool, processedBy: Option<string>,
    receiptHash: Option<string>)

  datatype MetaKey = Applied(hash: string) | ZkVerified(receiptHash: string) | TaskOf(id: string)

  datatype MetaVal = Marker | ZkRow(image: seq<nat>, journalHash: string) | TaskRow(task: AiTask)

  datatype Counters = Counters(supply: nat, burned: nat, fees: nat, height: nat, airdrops: nat)

  datatype WorkerRow = WorkerRow(
    wallet: string, hardwareId: string, profile: string, capabilities: set<string>, tflops: Tflops,
    height: nat, totalRewards: nat)

  /** The rows a block's transactions change. */
  datatype Core = Core(
    balances: map<string, nat>,
    counters: Counters,
    meta: map<MetaKey, MetaVal>,
    registry: map<string, WorkerRow>)

  datatype LedgerError = InsufficientFunds | Invalid(reason: string)

  // The locked system wallets: 64 hex digits, all zero but the last.
  function SystemWallet(last: char): string {
    seq(63, _ => '0') + [last]
  }

  const WORKER_POOL: string := SystemWallet('1')
  const ECOSYSTEM: string := SystemWallet('2')
  const PROTOCOL_RESERVE: string := SystemWallet('3')
  const DEX_TREASURY: string := "dex:treasury"

  predicate IsReservedSystemWallet(w: string) {
    w == WORKER_POOL || w == DEX_TREASURY || w == PROTOCOL_RESERVE || w == ECOSYSTEM
  }
}
