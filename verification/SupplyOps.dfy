/** The ledger operations that write balances directly, outside block apply
    (tet-core/src/ledger.rs:2782-3056, 3271-3511, 4332-4459, 5323-5984, 6235-6545). Each is one
    storage transaction: it applies in full or not at all. */
module SupplyOps {
  import opened Basics
  import opened Text
  import opened Fees
  import opened Protocol
  import opened Locks
  import opened BlockApply
  import opened Conservation

  const GENESIS_FOUNDER_SHARE_MICRO: nat := 2_500_000_000 * STEVEMON
  const GENESIS_WORKER_POOL_SHARE_MICRO: nat := 5_000_000_000 * STEVEMON
  const GENESIS_TREASURY_SHARE_MICRO: nat := 2_500_000_000 * STEVEMON
  const GENESIS_1K_NUM: nat := 11
  const GENESIS_1K_DEN: nat := 10
  const U64_RANGE: nat := 0x1_0000_0000_0000_0000

  /** Money wherever it can sit, and what the operations check before moving it. */
  datatype Vault = Vault(
    core: Core,
    book: Book,
    stakes: map<string, nat>,
    court: map<string, nat>,
    nonces: map<string, nat>,
    presaleLocks: map<string, nat>)
  {
    function Bonds(): map<string, nat> {
      book.bonds
    }

    function WithBalances(b: map<string, nat>): Vault {
      this.(core := core.(balances := b))
    }

    function Burn(amount: nat): Vault {
      this.(core := core.(counters := core.counters.(supply := SatSub(core.counters.supply, amount),
                                                     burned := SatAdd(core.counters.burned, amount))))
    }

    // The liquid balances and the counters after coins moved, some of them as fees and some burned.
    function Settled(b: map<string, nat>, fees: nat, burn: nat): Vault {
      var c := core.counters;
      this.(core := core.(balances := b,
                          counters := c.(fees := if fees > 0 then SatAdd(c.fees, fees) else c.fees,
                                         supply := if burn > 0 then SatSub(c.supply, burn) else c.supply,
                                         burned := if burn > 0 then SatAdd(c.burned, burn) else c.burned)))
    }
  }

  function Credited(bal: map<string, nat>, k: string, v: nat): map<string, nat> {
    bal[k := SatAdd(Get(bal, k), v)]
  }

  function Debited(bal: map<string, nat>, k: string, v: nat): map<string, nat> {
    bal[k := SatSub(Get(bal, k), v)]
  }

  datatype Op =
    // `treasury` is the configured address, if it is; `pinned` is the founder a mainnet node insists on.
    | Genesis(founder: string, treasury: Option<string>, pinned: Option<string>, now: nat, cliff: nat)
    | Stake(wallet: string, amount: nat, nonce: Option<nat>, now: nat)
    | StakeBond(wallet: string, amount: nat, nonce: Option<nat>, now: nat)
    | UnstakeBond(wallet: string, amount: nat, nonce: Option<nat>)
    | LockCourtBond(inferenceId: string, challenger: string, bond: nat)
    | SettleCourtBond(inferenceId: string, challenger: string, valid: bool)
    | SlashBond(wallet: string)
    | SlashStake(wallet: string, amount: nat)
    | MintReward(peer: string, gross: nat, attested: bool)
    | WorkerReward(worker: string, vault: string, requested: nat, uplift: bool, attested: bool, unlockAt: nat)
    | AiUtilityPayment(payer: string, worker: string, gross: nat)
    | AiInferenceCharge(payer: string, cost: nat)
    | TransferNoFee(src: string, dst: string, amount: nat, now: nat, presaleMs: nat, attested: bool)
    | TransferInternal(src: string, dst: string, amount: nat, feeBps: Option<nat>, nonce: Option<nat>, now: nat,
                       presaleMs: nat, attested: bool)
    | ApplyBlockOp(now: nat, height: nat, txs: seq<Envelope>, hashes: seq<string>, producer: string, reward: nat)

  predicate FreshNonce(v: Vault, wallet: string, nonce: Option<nat>) {
    nonce.Some? ==> nonce.value > Get(v.nonces, Norm(wallet))
  }

  function WithNonce(v: Vault, wallet: string, nonce: Option<nat>): Vault {
    if nonce.Some? then v.(nonces := v.nonces[Norm(wallet) := nonce.value]) else v
  }

  // A wallet inside its pre-sale lock may only pay the burn wallet.
  predicate PresaleAllows(host: Host, v: Vault, src: string, dst: string, now: nat) {
    now >= Get(v.presaleLocks, Norm(src)) || Norm(dst) == host.burnWallet
  }

  function WithPresale(v: Vault, src: string, dst: string, now: nat, presaleMs: nat): Vault {
    if presaleMs > 0 && Norm(src) == DEX_TREASURY then
      v.(presaleLocks := v.presaleLocks[Norm(dst) := if now + presaleMs > U64_MAX then U64_MAX else now + presaleMs])
    else v
  }

  function CourtKey(inferenceId: string, challenger: string): string {
    Trim(inferenceId) + ":" + Norm(challenger)
  }

  // The uplifted gross, cast back to 64 bits as the code does.
  function Uplifted(requested: nat, uplift: bool): nat {
    if uplift then requested * GENESIS_1K_NUM / GENESIS_1K_DEN % U64_RANGE else requested
  }

  // On mainnet the founder must be the one the node was configured with; otherwise the node panics.
  predicate FounderAllowed(o: Op)
    requires o.Genesis?
  {
    o.pinned.Some? ==> Norm(o.pinned.value) != "" && Norm(o.founder) == Norm(o.pinned.value)
  }

  // What is refused before anything is written.
  predicate GenesisRefused(v: Vault, o: Op)
    requires o.Genesis?
  {
    Trim(o.founder) == "" || !FounderAllowed(o) || v.core.counters.supply > 0
  }

  function Cleared(v: Vault): Vault {
    v.WithBalances(map[]).(book := v.book.(bonds := map[]))
  }

  function Minted(v: Vault, o: Op): Vault
    requires o.Genesis? && o.treasury.Some?
  {
    var b1 := Credited(map[], Trim(o.founder), GENESIS_FOUNDER_SHARE_MICRO);
    var b2 := Credited(b1, WORKER_POOL, GENESIS_WORKER_POOL_SHARE_MICRO);
    var b3 := Credited(b2, o.treasury.value, GENESIS_TREASURY_SHARE_MICRO);
    var paid := v.WithBalances(Credited(b3, PROTOCOL_RESERVE, 0));
    paid.(core := paid.core.(counters := v.core.counters.(supply := MAX_SUPPLY_MICRO)),
          book := v.book.(bonds := map[], founder := Some(Trim(o.founder)),
                          founderUnlockAt := if o.now + o.cliff > U64_MAX then U64_MAX else o.now + o.cliff,
                          founderLocked := GENESIS_FOUNDER_SHARE_MICRO))
  }

  function DoGenesis(v: Vault, o: Op): Result<Vault, LedgerError>
    requires o.Genesis?
  {
    if GenesisRefused(v, o) then Err(Invalid("genesis refused"))
    else if o.treasury.None? then Err(Invalid("TET_TREASURY_ADDRESS is required"))
    else Ok(Minted(v, o))
  }

  // The balance and bond trees are cleared before the treasury address is read, so a genesis that then fails
  // leaves them empty.
  function AfterFailedGenesis(v: Vault, o: Op): Vault
    requires o.Genesis?
  {
    if GenesisRefused(v, o) then v else Cleared(v)
  }

  function DoStake(v: Vault, o: Op): Result<Vault, LedgerError>
    requires o.Stake? || o.StakeBond?
  {
    var w := Norm(o.wallet);
    var bal := v.core.balances;
    if w == "" || o.amount == 0 then Err(Invalid("wallet and amount required"))
    else if !FreshNonce(v, w, o.nonce) then Err(Invalid("stale nonce"))
    else if SatSub(Get(bal, w), LockedSum(v.book, w, o.now)) < o.amount then Err(InsufficientFunds)
    else
      var paid := WithNonce(v.WithBalances(Debited(bal, w, o.amount)), w, o.nonce);
      if o.Stake? then Ok(paid.(stakes := Credited(v.stakes, w, o.amount)))
      else Ok(paid.(book := v.book.(bonds := Credited(v.Bonds(), w, o.amount))))
  }

  function DoUnstake(v: Vault, o: Op): Result<Vault, LedgerError>
    requires o.UnstakeBond?
  {
    var w := Norm(o.wallet);
    if w == "" || o.amount == 0 then Err(Invalid("wallet and amount required"))
    else if !FreshNonce(v, w, o.nonce) then Err(Invalid("stale nonce"))
    else if Get(v.Bonds(), w) < o.amount then Err(Invalid("insufficient worker bond"))
    else
      var out := v.(book := v.book.(bonds := Debited(v.Bonds(), w, o.amount)));
      Ok(WithNonce(out.WithBalances(Credited(v.core.balances, w, o.amount)), w, o.nonce))
  }

  function DoLockCourt(v: Vault, o: Op): Result<Vault, LedgerError>
    requires o.LockCourtBond?
  {
    var c, key := Norm(o.challenger), CourtKey(o.inferenceId, o.challenger);
    if c == "" then Err(Invalid("challenger wallet required"))
    else if key in v.court then Err(Invalid("challenger bond already locked"))
    else if Get(v.core.balances, c) < o.bond then Err(InsufficientFunds)
    else Ok(v.WithBalances(Debited(v.core.balances, c, o.bond)).(court := v.court[key := o.bond]))
  }

  function DoSettleCourt(v: Vault, o: Op): Result<Vault, LedgerError>
    requires o.SettleCourtBond?
  {
    var key := CourtKey(o.inferenceId, o.challenger);
    if Get(v.court, key) == 0 then Ok(v)
    else
      var target := if o.valid then Norm(o.challenger) else ECOSYSTEM;
      Ok(v.WithBalances(Credited(v.core.balances, target, Get(v.court, key))).(court := v.court - {key}))
  }

  function DoSlash(v: Vault, o: Op): Result<Vault, LedgerError>
    requires o.SlashBond? || o.SlashStake?
  {
    var w := Norm(o.wallet);
    if w == "" then Err(Invalid("wallet required"))
    else if o.SlashBond? then
      var bond := Get(v.Bonds(), w);
      if bond == 0 then Err(Invalid("no worker bond to slash"))
      else Ok(v.WithBalances(Credited(v.core.balances, ECOSYSTEM, bond)).(book := v.book.(bonds := v.Bonds() - {w})))
    else if o.amount == 0 then Err(Invalid("amount must be > 0"))
    else if Get(v.stakes, w) < o.amount then Err(Invalid("insufficient staked balance"))
    else Ok(v.(stakes := Debited(v.stakes, w, o.amount)).Burn(o.amount))
  }

  function DoMint(v: Vault, o: Op): Result<Vault, LedgerError>
    requires o.MintReward?
  {
    var total := SatAdd(v.core.counters.supply, o.gross);
    if o.gross == 0 then Ok(v)
    else if !o.attested then Err(Invalid("attestation required"))
    else if total > MAX_SUPPLY_MICRO then Err(Invalid("hard cap exceeded"))
    else
      var paid := v.WithBalances(Credited(v.core.balances, Trim(o.peer), o.gross));
      Ok(paid.(core := paid.core.(counters := paid.core.counters.(supply := total))))
  }

  function DoWorkerReward(v: Vault, o: Op): Result<Vault, LedgerError>
    requires o.WorkerReward?
  {
    var gross, bal := Uplifted(o.requested, o.uplift), v.core.balances;
    if o.requested == 0 then Ok(v)
    else if o.worker == o.vault then Err(Invalid("worker wallet must differ from imperial vault"))
    else if !o.attested then Err(Invalid("attestation required"))
    else if Get(bal, WORKER_POOL) < gross then Err(InsufficientFunds)
    else
      var paid := v.WithBalances(Credited(Debited(bal, WORKER_POOL, gross), Trim(o.worker), gross));
      Ok(paid.(book := v.book.(vests := v.book.vests + [VestLock(Trim(o.worker), gross, o.unlockAt)])))
  }

  function UtilityBalances(bal: map<string, nat>, payer: string, worker: string, treasury: string, gross: nat,
                           split: FeeSplit): map<string, nat>
  {
    var b1 := Credited(Debited(bal, payer, gross), worker, split.net);
    if split.treasury > 0 then Credited(b1, treasury, split.treasury) else b1
  }

  // What a utility payment leaves, once it was checked.
  function UtilityPaid(v: Vault, payer: string, worker: string, treasury: string, gross: nat, split: FeeSplit): Vault {
    v.Settled(UtilityBalances(v.core.balances, payer, worker, treasury, gross, split), split.treasury, split.burn)
  }

  function DoAiUtility(host: Host, v: Vault, o: Op): Result<Vault, LedgerError>
    requires o.AiUtilityPayment?
  {
    var payer, worker := Trim(o.payer), Trim(o.worker);
    var charged := Charge(AiUtility, o.gross);
    if payer == "" || worker == "" || o.gross == 0 || payer == worker then Err(Invalid("arguments"))
    else if charged.Err? || host.treasury.None? then Err(Invalid("charge"))
    else if Get(v.core.balances, payer) < o.gross then Err(InsufficientFunds)
    else Ok(UtilityPaid(v, payer, worker, host.treasury.value, o.gross, charged.value))
  }

  function DoAiInference(v: Vault, o: Op): Result<Vault, LedgerError>
    requires o.AiInferenceCharge?
  {
    var payer, bal := Trim(o.payer), v.core.balances;
    var charged := Charge(AiInference, o.cost);
    if payer == "" || o.cost == 0 || charged.Err? then Err(Invalid("arguments"))
    else if Get(bal, payer) < o.cost then Err(InsufficientFunds)
    else
      var paid := v.WithBalances(Credited(Debited(bal, payer, o.cost), WORKER_POOL, charged.value.pool));
      Ok(if charged.value.burn > 0 then paid.Burn(charged.value.burn) else paid)
  }

  // Keys are the wallets as given; `src == dst` was refused on the same spelling.
  function DoTransferNoFee(host: Host, v: Vault, o: Op): Result<Vault, LedgerError>
    requires o.TransferNoFee?
  {
    var bal := v.core.balances;
    if o.src == o.dst || o.amount == 0 then Ok(v)
    else if o.amount > MAX_SUPPLY_MICRO then Err(Invalid("amount exceeds hard cap"))
    else if !o.attested then Err(Invalid("attestation required"))
    else if !PresaleAllows(host, v, o.src, o.dst, o.now) then Err(Invalid("wallet is locked"))
    else if SatSub(Get(bal, o.src), LockedSum(v.book, o.src, o.now)) < o.amount then Err(InsufficientFunds)
    else Ok(WithPresale(v.WithBalances(Credited(Debited(bal, o.src, o.amount), o.dst, o.amount)), o.src, o.dst,
                        o.now, o.presaleMs))
  }

  function TaxedBalances(bal: map<string, nat>, src: string, dst: string, amount: nat, split: FeeSplit): map<string,
      nat> {
    var b1 := Credited(Debited(bal, src, amount), dst, split.net);
    if split.Fee() == 0 then b1 else Credited(b1, WORKER_POOL, split.pool)
  }

  function Taxed(v: Vault, o: Op, split: FeeSplit): Vault
    requires o.TransferInternal?
  {
    WithPresale(WithNonce(v, o.src, o.nonce), o.src, o.dst, o.now, o.presaleMs)
      .Settled(TaxedBalances(v.core.balances, o.src, o.dst, o.amount, split), split.Fee(), split.burn)
  }

  function DoTransferInternal(host: Host, v: Vault, o: Op): Result<Vault, LedgerError>
    requires o.TransferInternal?
  {
    var bal := v.core.balances;
    if o.src == o.dst || o.amount == 0 then Ok(v)
    else if o.amount > MAX_SUPPLY_MICRO then Err(Invalid("amount exceeds hard cap"))
    else if !o.attested then Err(Invalid("attestation required"))
    else
      match Charge(TransferFee(if o.feeBps.Some? then o.feeBps.value else TRANSFER_FEE_BPS_DEFAULT), o.amount)
      case Err(_) => Err(Invalid("fee"))
      case Ok(split) =>
        if !PresaleAllows(host, v, o.src, o.dst, o.now) then Err(Invalid("wallet is locked"))
        else if !FreshNonce(v, o.src, o.nonce) then Err(Invalid("stale or replay nonce"))
        else if SatSub(Get(bal, o.src), LockedSum(v.book, o.src, o.now)) < o.amount then Err(InsufficientFunds)
        else Ok(Taxed(v, o, split))
  }

  function DoBlock(host: Host, v: Vault, o: Op): Result<Vault, LedgerError>
    requires o.ApplyBlockOp?
  {
    match ApplyBlock(host, v.book, v.core, o.now, o.height, o.txs, o.hashes, o.producer, o.reward)
    case Err(e) => Err(e)
    case Ok(r) => Ok(v.(core := r.core))
  }

  function Do(host: Host, v: Vault, o: Op): Result<Vault, LedgerError> {
    match o
    case Genesis(_, _, _, _, _) => DoGenesis(v, o)
    case Stake(_, _, _, _) => DoStake(v, o)
    case StakeBond(_, _, _, _) => DoStake(v, o)
    case UnstakeBond(_, _, _) => DoUnstake(v, o)
    case LockCourtBond(_, _, _) => DoLockCourt(v, o)
    case SettleCourtBond(_, _, _) => DoSettleCourt(v, o)
    case SlashBond(_) => DoSlash(v, o)
    case SlashStake(_, _) => DoSlash(v, o)
    case MintReward(_, _, _) => DoMint(v, o)
    case WorkerReward(_, _, _, _, _, _) => DoWorkerReward(v, o)
    case AiUtilityPayment(_, _, _) => DoAiUtility(host, v, o)
    case AiInferenceCharge(_, _) => DoAiInference(v, o)
    case TransferNoFee(_, _, _, _, _, _) => DoTransferNoFee(host, v, o)
    case TransferInternal(_, _, _, _, _, _, _, _) => DoTransferInternal(host, v, o)
    case ApplyBlockOp(_, _, _, _, _, _) => DoBlock(host, v, o)
  }

  // ----- every unit of supply is somewhere

  ghost function Held(v: Vault): nat {
    Sum(v.core.balances) + Sum(v.stakes) + Sum(v.Bonds()) + Sum(v.court)
  }

  /** Total supply equals liquid balances, stakes, worker bonds and challenger bonds. */
  ghost predicate Accounted(v: Vault) {
    v.core.counters.supply == Held(v) <= MAX_SUPPLY_MICRO
  }

  lemma CreditSum(m: map<string, nat>, k: string, amount: nat)
    requires Sum(m) + amount <= U64_MAX
    ensures Sum(Credited(m, k, amount)) == Sum(m) + amount
  {
    Credit(m, k, amount);
  }

  lemma DebitSum(m: map<string, nat>, k: string, amount: nat)
    requires amount <= Get(m, k)
    ensures Sum(Debited(m, k, amount)) == Sum(m) - amount && amount <= Sum(m)
  {
    Debit(m, k, amount);
  }

  lemma MintedSum(v: Vault, o: Op)
    requires o.Genesis? && o.treasury.Some?
    ensures Sum(Minted(v, o).core.balances) == MAX_SUPPLY_MICRO
  {
    hide Sum, Credited;
    var none: map<string, nat> := map[];
    EmptySum();
    var b1 := Credited(none, Trim(o.founder), GENESIS_FOUNDER_SHARE_MICRO);
    CreditSum(none, Trim(o.founder), GENESIS_FOUNDER_SHARE_MICRO);
    var b2 := Credited(b1, WORKER_POOL, GENESIS_WORKER_POOL_SHARE_MICRO);
    CreditSum(b1, WORKER_POOL, GENESIS_WORKER_POOL_SHARE_MICRO);
    CreditSum(b2, o.treasury.value, GENESIS_TREASURY_SHARE_MICRO);
    CreditSum(Credited(b2, o.treasury.value, GENESIS_TREASURY_SHARE_MICRO), PROTOCOL_RESERVE, 0);
  }

  lemma EmptySum()
    ensures Sum<string>(map[]) == 0
  {
  }

  lemma GenesisAccounts(v: Vault, o: Op)
    requires o.Genesis? && Accounted(v)
    ensures DoGenesis(v, o).Ok? ==> Accounted(DoGenesis(v, o).value)
    ensures Accounted(AfterFailedGenesis(v, o))
  {
    hide Minted, Trim, Norm, Sum;
    EmptySum();
    if DoGenesis(v, o).Ok? {
      MintedSum(v, o);
      MintedElsewhere(v, o);
    }
  }

  lemma MintedElsewhere(v: Vault, o: Op)
    requires o.Genesis? && o.treasury.Some?
    ensures var w := Minted(v, o);
            && w.core.counters == v.core.counters.(supply := MAX_SUPPLY_MICRO)
            && w.stakes == v.stakes && w.court == v.court && w.book.bonds == map[]
  {
  }

  /** The ledger genesis makes from an empty store: all coins in circulation, and room for every operation of
      every block to come. */
  lemma GenesisIsSound(o: Op)
    requires o.Genesis? && DoGenesis(EmptyVault(), o).Ok?
    ensures var c := DoGenesis(EmptyVault(), o).value.core;
            && SoundCore(c) && c.counters.height == 0
            && Sum(c.balances) == c.counters.supply == MAX_SUPPLY_MICRO && c.counters.burned == 0
  {
    hide Minted, Trim, Norm, Sum;
    MintedSum(EmptyVault(), o);
    MintedElsewhere(EmptyVault(), o);
  }

  lemma UnstakeAccounts(v: Vault, o: Op)
    requires o.UnstakeBond? && Accounted(v) && DoUnstake(v, o).Ok?
    ensures Accounted(DoUnstake(v, o).value)
  {
    var w := Norm(o.wallet);
    DebitSum(v.Bonds(), w, o.amount);
    CreditSum(v.core.balances, w, o.amount);
  }

  lemma StakeAccounts(v: Vault, o: Op)
    requires (o.Stake? || o.StakeBond?) && Accounted(v) && DoStake(v, o).Ok?
    ensures Accounted(DoStake(v, o).value)
  {
    hide LockedSum, Norm;
    var w := Norm(o.wallet);
    DebitSum(v.core.balances, w, o.amount);
    if o.Stake? {
      CreditSum(v.stakes, w, o.amount);
    } else {
      CreditSum(v.Bonds(), w, o.amount);
    }
  }

  lemma CourtAccounts(v: Vault, o: Op)
    requires o.LockCourtBond? || o.SettleCourtBond?
    requires Accounted(v)
    ensures o.LockCourtBond? ==> DoLockCourt(v, o).Ok? ==> Accounted(DoLockCourt(v, o).value)
    ensures o.SettleCourtBond? ==> DoSettleCourt(v, o).Ok? ==> Accounted(DoSettleCourt(v, o).value)
  {
    var c, key := Norm(o.challenger), CourtKey(o.inferenceId, o.challenger);
    if o.LockCourtBond? {
      if DoLockCourt(v, o).Ok? {
        DebitSum(v.core.balances, c, o.bond);
        SumUpdate(v.court, key, o.bond);
      }
    } else {
      SumAtLeast(v.court, key);
      SumDrop(v.court, key);
      CreditSum(v.core.balances, if o.valid then c else ECOSYSTEM, Get(v.court, key));
    }
  }

  lemma SlashAccounts(v: Vault, o: Op)
    requires o.SlashBond? || o.SlashStake?
    requires Accounted(v) && DoSlash(v, o).Ok?
    ensures Accounted(DoSlash(v, o).value)
  {
    var w := Norm(o.wallet);
    if o.SlashBond? {
      SumAtLeast(v.Bonds(), w);
      SumDrop(v.Bonds(), w);
      CreditSum(v.core.balances, ECOSYSTEM, Get(v.Bonds(), w));
    } else {
      DebitSum(v.stakes, w, o.amount);
    }
  }

  lemma RewardAccounts(v: Vault, o: Op)
    requires o.MintReward? || o.WorkerReward?
    requires Accounted(v)
    ensures o.MintReward? ==> DoMint(v, o).Ok? ==> Accounted(DoMint(v, o).value)
    ensures o.WorkerReward? ==> DoWorkerReward(v, o).Ok? ==> Accounted(DoWorkerReward(v, o).value)
  {
    if o.MintReward? {
      if DoMint(v, o).Ok? && o.gross > 0 {
        CreditSum(v.core.balances, Trim(o.peer), o.gross);
      }
    } else if DoWorkerReward(v, o).Ok? && o.requested > 0 {
      var gross := Uplifted(o.requested, o.uplift);
      DebitSum(v.core.balances, WORKER_POOL, gross);
      CreditSum(Debited(v.core.balances, WORKER_POOL, gross), Trim(o.worker), gross);
    }
  }

  // Moving liquid coins and burning `burn` of them keeps the account.
  lemma MovedAndBurned(v: Vault, w: Vault, burn: nat)
    requires Accounted(v) && w.stakes == v.stakes && w.court == v.court && w.book.bonds == v.book.bonds
    requires Sum(w.core.balances) + burn == Sum(v.core.balances)
    requires w.core.counters.supply == SatSub(v.core.counters.supply, burn)
    ensures Accounted(w)
  {
  }

  lemma ThreeWaySum(bal: map<string, nat>, payer: string, payee: string, third: string, amount: nat, x: nat, y: nat)
    requires x + y <= amount <= Get(bal, payer) && Sum(bal) <= U64_MAX
    ensures Sum(Credited(Credited(Debited(bal, payer, amount), payee, x), third, y)) == Sum(bal) - amount + x + y
    ensures Sum(Credited(Debited(bal, payer, amount), payee, x)) == Sum(bal) - amount + x
  {
    hide Sum;
    DebitSum(bal, payer, amount);
    CreditSum(Debited(bal, payer, amount), payee, x);
    CreditSum(Credited(Debited(bal, payer, amount), payee, x), third, y);
  }

  lemma ChargeShares(kind: FeeKind, amount: nat)
    requires Charge(kind, amount).Ok?
    ensures kind.AiUtility? ==> Charge(kind, amount).value.pool == 0
    ensures kind.TransferFee? ==> Charge(kind, amount).value.treasury == 0
    ensures kind.AiInference? ==> Charge(kind, amount).value.treasury == 0 && Charge(kind, amount).value.net == 0
  {
    hide BpsOf;
  }

  lemma AccountedFits(v: Vault)
    requires Accounted(v)
    ensures Sum(v.core.balances) <= v.core.counters.supply <= U64_MAX
  {
  }

  lemma SettledKeepsRest(v: Vault, bal: map<string, nat>, fees: nat, burn: nat)
    ensures var w := v.Settled(bal, fees, burn);
            && w.stakes == v.stakes && w.court == v.court && w.book == v.book && w.core.balances == bal
            && w.core.counters.supply == SatSub(v.core.counters.supply, burn)
  {
  }

  lemma UtilityPaidAccounts(v: Vault, payer: string, worker: string, treasury: string, gross: nat, split: FeeSplit)
    requires Accounted(v) && split.pool == 0 && split.net + split.treasury + split.burn == gross
    requires gross <= Get(v.core.balances, payer)
    ensures Accounted(UtilityPaid(v, payer, worker, treasury, gross, split))
  {
    hide Accounted, Sum, Credited, Debited, Get, Vault.Settled;
    AccountedFits(v);
    ThreeWaySum(v.core.balances, payer, worker, treasury, gross, split.net, split.treasury);
    var bal := UtilityBalances(v.core.balances, payer, worker, treasury, gross, split);
    SettledKeepsRest(v, bal, split.treasury, split.burn);
    MovedAndBurned(v, v.Settled(bal, split.treasury, split.burn), split.burn);
  }

  lemma AiUtilityAccounts(host: Host, v: Vault, o: Op)
    requires o.AiUtilityPayment? && Accounted(v) && DoAiUtility(host, v, o).Ok?
    ensures Accounted(DoAiUtility(host, v, o).value)
  {
    hide Charge, Trim, Accounted, UtilityPaid;
    var split := Charge(AiUtility, o.gross).value;
    ChargeShares(AiUtility, o.gross);
    UtilityPaidAccounts(v, Trim(o.payer), Trim(o.worker), host.treasury.value, o.gross, split);
  }

  lemma AiInferenceAccounts(v: Vault, o: Op)
    requires o.AiInferenceCharge? && Accounted(v) && DoAiInference(v, o).Ok?
    ensures Accounted(DoAiInference(v, o).value)
  {
    hide Charge, Trim, Accounted, Sum, Credited, Debited;
    var split := Charge(AiInference, o.cost).value;
    ChargeShares(AiInference, o.cost);
    AccountedFits(v);
    ThreeWaySum(v.core.balances, Trim(o.payer), WORKER_POOL, WORKER_POOL, o.cost, split.pool, 0);
    MovedAndBurned(v, DoAiInference(v, o).value, split.burn);
  }

  lemma TransferNoFeeAccounts(host: Host, v: Vault, o: Op)
    requires o.TransferNoFee? && Accounted(v) && DoTransferNoFee(host, v, o).Ok?
    ensures Accounted(DoTransferNoFee(host, v, o).value)
  {
    hide LockedSum, Norm, PresaleAllows;
    if o.src != o.dst && o.amount != 0 {
      DebitSum(v.core.balances, o.src, o.amount);
      CreditSum(Debited(v.core.balances, o.src, o.amount), o.dst, o.amount);
    }
  }

  lemma MarksKeepMoney(v: Vault, o: Op)
    requires o.TransferInternal?
    ensures var w := WithPresale(WithNonce(v, o.src, o.nonce), o.src, o.dst, o.now, o.presaleMs);
            w.core == v.core && w.stakes == v.stakes && w.court == v.court && w.book == v.book
  {
    hide Norm;
  }

  lemma TaxedAccounts(v: Vault, o: Op, split: FeeSplit)
    requires o.TransferInternal? && Accounted(v) && split.treasury == 0
    requires split.net + split.pool + split.burn == o.amount <= Get(v.core.balances, o.src)
    ensures Accounted(Taxed(v, o, split))
  {
    hide Accounted, Sum, Credited, Debited, Get, WithNonce, WithPresale, Vault.Settled;
    AccountedFits(v);
    ThreeWaySum(v.core.balances, o.src, o.dst, WORKER_POOL, o.amount, split.net, split.pool);
    var bal := TaxedBalances(v.core.balances, o.src, o.dst, o.amount, split);
    var w := WithPresale(WithNonce(v, o.src, o.nonce), o.src, o.dst, o.now, o.presaleMs);
    MarksKeepMoney(v, o);
    SettledKeepsRest(w, bal, split.Fee(), split.burn);
    MovedAndBurned(v, w.Settled(bal, split.Fee(), split.burn), split.burn);
  }

  lemma TransferInternalAccounts(host: Host, v: Vault, o: Op)
    requires o.TransferInternal? && Accounted(v) && DoTransferInternal(host, v, o).Ok?
    ensures Accounted(DoTransferInternal(host, v, o).value)
  {
    hide LockedSum, Norm, PresaleAllows, Charge, Accounted, Taxed;
    if o.src != o.dst && o.amount != 0 {
      var kind := TransferFee(if o.feeBps.Some? then o.feeBps.value else TRANSFER_FEE_BPS_DEFAULT);
      ChargeShares(kind, o.amount);
      TaxedAccounts(v, o, Charge(kind, o.amount).value);
    }
  }

  lemma BlockAccounts(host: Host, v: Vault, o: Op)
    requires o.ApplyBlockOp? && Accounted(v) && DoBlock(host, v, o).Ok?
    ensures Accounted(DoBlock(host, v, o).value)
  {
    hide ApplyBlock;
    BlockKeepsSupplyGap(host, v.book, v.core, o.now, o.height, o.txs, o.hashes, o.producer, o.reward);
  }

  // Every operation keeps the account of the supply.
  lemma DoAccounts(host: Host, v: Vault, o: Op)
    requires Accounted(v) && Do(host, v, o).Ok?
    ensures Accounted(Do(host, v, o).value)
  {
    hide DoGenesis, DoStake, DoUnstake, DoLockCourt, DoSettleCourt, DoSlash, DoMint, DoWorkerReward, DoAiUtility,
         DoAiInference, DoTransferNoFee, DoTransferInternal, DoBlock;
    match o
    case Genesis(_, _, _, _, _) => GenesisAccounts(v, o);
    case Stake(_, _, _, _) => StakeAccounts(v, o);
    case StakeBond(_, _, _, _) => StakeAccounts(v, o);
    case UnstakeBond(_, _, _) => UnstakeAccounts(v, o);
    case LockCourtBond(_, _, _) => CourtAccounts(v, o);
    case SettleCourtBond(_, _, _) => CourtAccounts(v, o);
    case SlashBond(_) => SlashAccounts(v, o);
    case SlashStake(_, _) => SlashAccounts(v, o);
    case MintReward(_, _, _) => RewardAccounts(v, o);
    case WorkerReward(_, _, _, _, _, _) => RewardAccounts(v, o);
    case AiUtilityPayment(_, _, _) => AiUtilityAccounts(host, v, o);
    case AiInferenceCharge(_, _) => AiInferenceAccounts(v, o);
    case TransferNoFee(_, _, _, _, _, _) => TransferNoFeeAccounts(host, v, o);
    case TransferInternal(_, _, _, _, _, _, _, _) => TransferInternalAccounts(host, v, o);
    case ApplyBlockOp(_, _, _, _, _, _) => BlockAccounts(host, v, o);
  }

  // A refused operation changes nothing, but for a genesis that fails after its trees were cleared.
  function DoOrStay(host: Host, v: Vault, o: Op): Vault {
    match Do(host, v, o)
    case Ok(w) => w
    case Err(_) => if o.Genesis? then AfterFailedGenesis(v, o) else v
  }

  function DoAll(host: Host, v: Vault, ops: seq<Op>): Vault
    decreases |ops|
  {
    if ops == [] then v else DoAll(host, DoOrStay(host, v, ops[0]), ops[1..])
  }

  function EmptyVault(): Vault {
    Vault(Core(map[], Counters(0, 0, 0, 0, 0), map[], map[]), Book([], None, 0, 0, map[]),
          map[], map[], map[], map[])
  }

  lemma {:induction false} DoAllAccounts(host: Host, v: Vault, ops: seq<Op>)
    requires Accounted(v)
    ensures Accounted(DoAll(host, v, ops))
    decreases |ops|
  {
    hide Do, Accounted, AfterFailedGenesis;
    if ops != [] {
      if Do(host, v, ops[0]).Ok? {
        DoAccounts(host, v, ops[0]);
      } else if ops[0].Genesis? {
        GenesisAccounts(v, ops[0]);
      }
      DoAllAccounts(host, DoOrStay(host, v, ops[0]), ops[1..]);
    }
  }

  // From an empty store, whatever operations run and in whatever order, supply is accounted for.
  lemma SupplyAlwaysAccounted(host: Host, ops: seq<Op>)
    ensures Accounted(DoAll(host, EmptyVault(), ops))
  {
    DoAllAccounts(host, EmptyVault(), ops);
  }
}
