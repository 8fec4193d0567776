/** What each direct operation asks for and what it leaves, wallet by wallet and in numbers
    (tet-core/src/ledger.rs:2782-3056, 3271-3511, 4332-4459, 5323-5984, 6235-6545). */
module OpAmounts {
  import opened Basics
  import opened Text
  import opened Fees
  import opened Protocol
  import opened Locks
  import opened Conservation
  import opened SupplyOps

  /** Every row of `after` is that of `before` with so much more, or less. */
  ghost predicate Moved(before: map<string, nat>, after: map<string, nat>, change: string -> int) {
    forall k :: Get(after, k) == Get(before, k) + change(k)
  }

  // A single row's change.
  ghost function One(k: string, v: int): string -> int {
    j => if j == k then v else 0
  }

  // Two rows' changes, added when they are one row.
  ghost function Both(a: string -> int, b: string -> int): string -> int {
    j => a(j) + b(j)
  }

  lemma CreditMoves(m: map<string, nat>, k: string, v: nat)
    requires Sum(m) + v <= U64_MAX
    ensures Moved(m, Credited(m, k, v), One(k, v)) && Sum(Credited(m, k, v)) == Sum(m) + v
  {
    SumAtLeast(m, k);
    SumUpdate(m, k, Get(m, k) + v);
  }

  lemma DebitMoves(m: map<string, nat>, k: string, v: nat)
    requires v <= Get(m, k)
    ensures Moved(m, Debited(m, k, v), One(k, 0 - v)) && Sum(Debited(m, k, v)) == Sum(m) - v && v <= Sum(m)
  {
    Debit(m, k, v);
  }

  lemma Passes(m: map<string, nat>, src: string, v: nat, dst: string, w: nat)
    requires w <= v <= Get(m, src) && Sum(m) <= U64_MAX
    ensures var after := Credited(Debited(m, src, v), dst, w);
            Moved(m, after, Both(One(src, 0 - v), One(dst, w))) && Sum(after) == Sum(m) - v + w
  {
    hide Sum, Credited, Debited;
    DebitMoves(m, src, v);
    CreditMoves(Debited(m, src, v), dst, w);
  }

  lemma AccountedHasRoom(v: Vault)
    requires Accounted(v)
    ensures Sum(v.core.balances) + Sum(v.stakes) <= U64_MAX && Sum(v.core.balances) + Sum(v.Bonds()) <= U64_MAX
    ensures Sum(v.core.balances) + Sum(v.court) <= U64_MAX && Sum(v.core.balances) <= v.core.counters.supply
    ensures v.core.counters.supply <= 10_000_000_000_000_000
  {
  }

  /** What an operation may have left alone. */
  ghost predicate SameCounters(v: Vault, w: Vault) {
    w.core == v.core.(balances := w.core.balances)
  }

  ghost predicate NonceTaken(v: Vault, w: Vault, wallet: string, nonce: Option<nat>) {
    w.nonces == if nonce.Some? then v.nonces[wallet := nonce.value] else v.nonces
  }

  // ----- stakes and bonds

  /** Staking and bonding: asked of a named wallet, a positive amount it can spend, and a nonce above its last. */
  lemma StakeIs(v: Vault, o: Op)
    requires (o.Stake? || o.StakeBond?) && Accounted(v)
    ensures var w := Norm(o.wallet);
            DoStake(v, o).Ok? <==>
              && w != "" && o.amount > 0 && (o.nonce.Some? ==> o.nonce.value > Get(v.nonces, Norm(w)))
              && o.amount + LockedSum(v.book, w, o.now) <= Get(v.core.balances, w)
    ensures DoStake(v, o).Ok? ==>
              var (r, w) := (DoStake(v, o).value, Norm(o.wallet));
              && Moved(v.core.balances, r.core.balances, One(w, 0 - o.amount)) && SameCounters(v, r)
              && Moved(if o.Stake? then v.stakes else v.Bonds(), if o.Stake? then r.stakes else r.Bonds(),
                       One(w, o.amount))
              && (o.Stake? ==> r.book == v.book) && (o.StakeBond? ==> r.stakes == v.stakes)
              && r.book == v.book.(bonds := r.Bonds()) && r.court == v.court && r.presaleLocks == v.presaleLocks
              && NonceTaken(v, r, Norm(w), o.nonce)
  {
    hide Norm, LockedSum, Sum, Credited, Debited, Moved, One;
    AccountedHasRoom(v);
    var w := Norm(o.wallet);
    if DoStake(v, o).Ok? {
      DebitMoves(v.core.balances, w, o.amount);
      CreditMoves(if o.Stake? then v.stakes else v.Bonds(), w, o.amount);
    }
  }

  /** Unbonding: the same amount from bond to wallet. */
  lemma UnstakeIs(v: Vault, o: Op)
    requires o.UnstakeBond? && Accounted(v)
    ensures var w := Norm(o.wallet);
            DoUnstake(v, o).Ok? <==>
              && w != "" && o.amount > 0 && (o.nonce.Some? ==> o.nonce.value > Get(v.nonces, Norm(w)))
              && o.amount <= Get(v.Bonds(), w)
    ensures DoUnstake(v, o).Ok? ==>
              var (r, w) := (DoUnstake(v, o).value, Norm(o.wallet));
              && Moved(v.core.balances, r.core.balances, One(w, o.amount)) && SameCounters(v, r)
              && Moved(v.Bonds(), r.Bonds(), One(w, 0 - o.amount))
              && r.book == v.book.(bonds := r.Bonds()) && r.stakes == v.stakes && r.court == v.court
              && r.presaleLocks == v.presaleLocks && NonceTaken(v, r, Norm(w), o.nonce)
  {
    hide Norm, Sum, Credited, Debited, Moved, One;
    AccountedHasRoom(v);
    var w := Norm(o.wallet);
    if DoUnstake(v, o).Ok? {
      DebitMoves(v.Bonds(), w, o.amount);
      CreditMoves(v.core.balances, w, o.amount);
    }
  }

  // ----- the court

  /** A challenger's bond is locked once per case, out of the balance. */
  lemma LockCourtIs(v: Vault, o: Op)
    requires o.LockCourtBond? && Accounted(v)
    ensures var (c, key) := (Norm(o.challenger), Trim(o.inferenceId) + ":" + Norm(o.challenger));
            DoLockCourt(v, o).Ok? <==> c != "" && key !in v.court && o.bond <= Get(v.core.balances, c)
    ensures DoLockCourt(v, o).Ok? ==>
              var r := DoLockCourt(v, o).value;
              && Moved(v.core.balances, r.core.balances, One(Norm(o.challenger), 0 - o.bond)) && SameCounters(v, r)
              && r == v.(core := r.core, court := v.court[Trim(o.inferenceId) + ":" + Norm(o.challenger) := o.bond])
  {
    hide Norm, Trim, Sum, Debited, Moved, One;
    if DoLockCourt(v, o).Ok? {
      DebitMoves(v.core.balances, Norm(o.challenger), o.bond);
    }
  }

  /** A verdict hands the bond back, or to the ecosystem wallet, and closes the case; a case without a bond is
      left as it is. */
  lemma SettleCourtIs(v: Vault, o: Op)
    requires o.SettleCourtBond? && Accounted(v)
    ensures DoSettleCourt(v, o).Ok?
    ensures var (r, key) := (DoSettleCourt(v, o).value, Trim(o.inferenceId) + ":" + Norm(o.challenger));
            if Get(v.court, key) == 0 then r == v
            else && Moved(v.core.balances, r.core.balances,
                          One(if o.valid then Norm(o.challenger) else ECOSYSTEM, v.court[key]))
                 && SameCounters(v, r) && r == v.(core := r.core, court := v.court - {key})
  {
    hide Norm, Trim, Sum, Credited, Moved, One;
    AccountedHasRoom(v);
    var key := CourtKey(o.inferenceId, o.challenger);
    SumAtLeast(v.court, key);
    CreditMoves(v.core.balances, if o.valid then Norm(o.challenger) else ECOSYSTEM, Get(v.court, key));
  }

  /** A slashed bond goes to the ecosystem wallet whole; a slashed stake is burned by the amount. */
  lemma SlashIs(v: Vault, o: Op)
    requires (o.SlashBond? || o.SlashStake?) && Accounted(v)
    ensures var w := Norm(o.wallet);
            DoSlash(v, o).Ok? <==> w != "" && if o.SlashBond? then Get(v.Bonds(), w) > 0
                                              else 0 < o.amount <= Get(v.stakes, w)
    ensures o.SlashBond? && DoSlash(v, o).Ok? ==>
              var (r, w) := (DoSlash(v, o).value, Norm(o.wallet));
              && Moved(v.core.balances, r.core.balances, One(ECOSYSTEM, v.Bonds()[w])) && SameCounters(v, r)
              && r == v.(core := r.core, book := v.book.(bonds := v.Bonds() - {w}))
    ensures o.SlashStake? && DoSlash(v, o).Ok? ==>
              var (r, c) := (DoSlash(v, o).value, v.core.counters);
              && Moved(v.stakes, r.stakes, One(Norm(o.wallet), 0 - o.amount)) && o.amount <= c.supply
              && r == v.(stakes := r.stakes,
                         core := v.core.(counters := c.(supply := c.supply - o.amount,
                                                        burned := SatAdd(c.burned, o.amount))))
  {
    hide Norm, Sum, Credited, Debited, Moved, One;
    AccountedHasRoom(v);
    var w := Norm(o.wallet);
    SumAtLeast(v.Bonds(), w);
    CreditMoves(v.core.balances, ECOSYSTEM, Get(v.Bonds(), w));
    if o.SlashStake? && DoSlash(v, o).Ok? {
      DebitMoves(v.stakes, w, o.amount);
    }
  }

  // ----- rewards

  /** Minting: new coins under the cap, to the peer as trimmed; nothing at all for nothing. */
  lemma MintIs(v: Vault, o: Op)
    requires o.MintReward? && Accounted(v)
    ensures DoMint(v, o).Ok? <==>
              o.gross == 0 || (o.attested && v.core.counters.supply + o.gross <= 10_000_000_000_000_000)
    ensures DoMint(v, o).Ok? ==>
              var (r, c) := (DoMint(v, o).value, v.core.counters);
              if o.gross == 0 then r == v
              else && Moved(v.core.balances, r.core.balances, One(Trim(o.peer), o.gross))
                   && r == v.(core := v.core.(balances := r.core.balances,
                                              counters := c.(supply := c.supply + o.gross)))
  {
    hide Trim, Sum, Credited, Moved, One;
    AccountedHasRoom(v);
    if DoMint(v, o).Ok? {
      CreditMoves(v.core.balances, Trim(o.peer), o.gross);
    }
  }

  /** A worker's reward: out of the pool, one tenth more under the early uplift (which the code casts back to 64
      bits), and locked as one more vesting row of the worker's. */
  lemma WorkerRewardIs(v: Vault, o: Op)
    requires o.WorkerReward? && Accounted(v)
    ensures var gross := if o.uplift then o.requested * 11 / 10 % 0x1_0000_0000_0000_0000 else o.requested;
            && (DoWorkerReward(v, o).Ok? <==>
                  o.requested == 0 || (o.worker != o.vault && o.attested && gross <= Get(v.core.balances, WORKER_POOL)))
            && (DoWorkerReward(v, o).Ok? ==>
                  var r := DoWorkerReward(v, o).value;
                  if o.requested == 0 then r == v
                  else && Moved(v.core.balances, r.core.balances,
                                Both(One(WORKER_POOL, 0 - gross), One(Trim(o.worker), gross)))
                       && SameCounters(v, r)
                       && r == v.(core := r.core,
                                  book := v.book.(vests := v.book.vests
                                                           + [VestLock(Trim(o.worker), gross, o.unlockAt)])))
  {
    hide Trim, Sum, Credited, Debited, Moved, One, Both;
    AccountedHasRoom(v);
    if DoWorkerReward(v, o).Ok? && o.requested > 0 {
      var gross := Uplifted(o.requested, o.uplift);
      Passes(v.core.balances, WORKER_POOL, gross, Trim(o.worker), gross);
    }
  }

  // ----- payments

  /** The counters after fees were taken and coins burned. */
  ghost predicate Charged(c: Counters, r: Counters, fees: nat, burn: nat) {
    burn <= c.supply && r == c.(supply := c.supply - burn, burned := r.burned, fees := r.fees)
    && r.burned == (if burn > 0 then SatAdd(c.burned, burn) else c.burned)
    && r.fees == (if fees > 0 then SatAdd(c.fees, fees) else c.fees)
  }

  lemma SettledIs(v: Vault, bal: map<string, nat>, fees: nat, burn: nat)
    requires burn <= v.core.counters.supply
    ensures var w := v.Settled(bal, fees, burn);
            && w == v.(core := v.core.(balances := bal, counters := w.core.counters))
            && Charged(v.core.counters, w.core.counters, fees, burn)
  {
  }

  lemma UtilityMoves(bal: map<string, nat>, payer: string, worker: string, treasury: string, gross: nat,
                     split: FeeSplit)
    requires split.net + split.treasury <= gross <= Get(bal, payer) && Sum(bal) <= U64_MAX
    ensures Moved(bal, UtilityBalances(bal, payer, worker, treasury, gross, split),
                  Both(Both(One(payer, 0 - gross), One(worker, split.net)), One(treasury, split.treasury)))
  {
    hide Sum, Credited, Debited;
    Passes(bal, payer, gross, worker, split.net);
    CreditMoves(Credited(Debited(bal, payer, gross), worker, split.net), treasury, split.treasury);
  }

  /** A utility payment: the payer less the gross, the worker plus four fifths, the treasury plus three quarters of
      the network fee, the rest burned. */
  lemma UtilityIs(host: Host, v: Vault, o: Op)
    requires o.AiUtilityPayment? && Accounted(v)
    ensures var (payer, worker) := (Trim(o.payer), Trim(o.worker));
            DoAiUtility(host, v, o).Ok? <==>
              && payer != "" && worker != "" && payer != worker && 0 < o.gross <= 10_000_000_000_000_000
              && host.treasury.Some? && o.gross <= Get(v.core.balances, payer)
    ensures DoAiUtility(host, v, o).Ok? ==>
              var (r, fee) := (DoAiUtility(host, v, o).value, o.gross * 2_000 / 10_000);
              var burn := fee * 2_500 / 10_000;
              && Moved(v.core.balances, r.core.balances,
                       Both(Both(One(Trim(o.payer), 0 - o.gross), One(Trim(o.worker), o.gross - fee)),
                            One(host.treasury.value, fee - burn)))
              && Charged(v.core.counters, r.core.counters, fee - burn, burn)
              && r == v.(core := v.core.(balances := r.core.balances, counters := r.core.counters))
  {
    hide Trim, Sum, Charge, UtilityBalances, Vault.Settled, Moved, One, Both, Charged;
    AccountedHasRoom(v);
    if DoAiUtility(host, v, o).Ok? {
      SharesAre(AiUtility, o.gross);
      var split := Charge(AiUtility, o.gross).value;
      SumAtLeast(v.core.balances, Trim(o.payer));
      UtilityMoves(v.core.balances, Trim(o.payer), Trim(o.worker), host.treasury.value, o.gross, split);
      SettledIs(v, UtilityBalances(v.core.balances, Trim(o.payer), Trim(o.worker), host.treasury.value, o.gross, split),
                split.treasury, split.burn);
    }
  }

  /** An inference charge: half to the pool, the other half burned. */
  lemma InferenceIs(v: Vault, o: Op)
    requires o.AiInferenceCharge? && Accounted(v)
    ensures DoAiInference(v, o).Ok? <==>
              && Trim(o.payer) != "" && 0 < o.cost <= 10_000_000_000_000_000
              && o.cost <= Get(v.core.balances, Trim(o.payer))
    ensures DoAiInference(v, o).Ok? ==>
              var (r, pool) := (DoAiInference(v, o).value, o.cost * 5_000 / 10_000);
              && Moved(v.core.balances, r.core.balances,
                       Both(One(Trim(o.payer), 0 - o.cost), One(WORKER_POOL, pool)))
              && Charged(v.core.counters, r.core.counters, 0, o.cost - pool)
              && r == v.(core := v.core.(balances := r.core.balances, counters := r.core.counters))
  {
    hide Trim, Sum, Charge, Credited, Debited, Moved, One, Both;
    AccountedHasRoom(v);
    if DoAiInference(v, o).Ok? {
      SharesAre(AiInference, o.cost);
      SumAtLeast(v.core.balances, Trim(o.payer));
      Passes(v.core.balances, Trim(o.payer), o.cost, WORKER_POOL, o.cost * 5_000 / 10_000);
    }
  }

  // ----- transfers outside a block

  /** What both transfers ask: attested, within the cap, out of any pre-sale lock, spendable. */
  ghost predicate MaySend(host: Host, v: Vault, o: Op)
    requires o.TransferNoFee? || o.TransferInternal?
  {
    && o.amount <= 10_000_000_000_000_000 && o.attested
    && (o.now >= Get(v.presaleLocks, Norm(o.src)) || Norm(o.dst) == host.burnWallet)
    && o.amount + LockedSum(v.book, o.src, o.now) <= Get(v.core.balances, o.src)
  }

  /** A payment out of the exchange's wallet may start a pre-sale lock on the payee. */
  ghost predicate PresaleStarts(v: Vault, r: Vault, o: Op)
    requires o.TransferNoFee? || o.TransferInternal?
  {
    r.presaleLocks ==
    if o.presaleMs > 0 && Norm(o.src) == "dex:treasury" then
      v.presaleLocks[Norm(o.dst) := if o.now + o.presaleMs > U64_MAX then U64_MAX else o.now + o.presaleMs]
    else v.presaleLocks
  }

  lemma NoFeeIs(host: Host, v: Vault, o: Op)
    requires o.TransferNoFee? && Accounted(v)
    ensures DoTransferNoFee(host, v, o).Ok? <==> o.src == o.dst || o.amount == 0 || MaySend(host, v, o)
    ensures DoTransferNoFee(host, v, o).Ok? ==>
              var r := DoTransferNoFee(host, v, o).value;
              if o.src == o.dst || o.amount == 0 then r == v
              else && Moved(v.core.balances, r.core.balances, Both(One(o.src, 0 - o.amount), One(o.dst, o.amount)))
                   && SameCounters(v, r) && PresaleStarts(v, r, o)
                   && r == v.(core := r.core, presaleLocks := r.presaleLocks)
  {
    hide Norm, LockedSum, Sum, Credited, Debited, Moved, One, Both;
    AccountedHasRoom(v);
    if DoTransferNoFee(host, v, o).Ok? && o.src != o.dst && o.amount > 0 {
      Passes(v.core.balances, o.src, o.amount, o.dst, o.amount);
    }
  }

  lemma TaxedMoves(bal: map<string, nat>, src: string, dst: string, amount: nat, split: FeeSplit)
    requires amount <= Get(bal, src) && Sum(bal) <= U64_MAX && split.net + split.pool <= amount
    requires split.pool <= split.burn && split.treasury == 0
    ensures Moved(bal, TaxedBalances(bal, src, dst, amount, split),
                  Both(Both(One(src, 0 - amount), One(dst, split.net)), One(WORKER_POOL, split.pool)))
  {
    hide Sum, Credited, Debited;
    Passes(bal, src, amount, dst, split.net);
    CreditMoves(Credited(Debited(bal, src, amount), dst, split.net), WORKER_POOL, split.pool);
  }

  lemma MarksAre(v: Vault, o: Op)
    requires o.TransferInternal?
    ensures var w := WithPresale(WithNonce(v, o.src, o.nonce), o.src, o.dst, o.now, o.presaleMs);
            && PresaleStarts(v, w, o) && NonceTaken(v, w, Norm(o.src), o.nonce)
            && w == v.(nonces := w.nonces, presaleLocks := w.presaleLocks)
  {
    hide Norm;
  }

  lemma TaxedLeaves(v: Vault, o: Op, split: FeeSplit)
    requires o.TransferInternal? && Accounted(v) && o.amount <= Get(v.core.balances, o.src)
    requires split.net + split.pool + split.burn == o.amount && split.treasury == 0 && split.pool <= split.burn
    ensures var r := Taxed(v, o, split);
            && Moved(v.core.balances, r.core.balances,
                     Both(Both(One(o.src, 0 - o.amount), One(o.dst, split.net)), One(WORKER_POOL, split.pool)))
            && Charged(v.core.counters, r.core.counters, split.pool + split.burn, split.burn)
            && PresaleStarts(v, r, o) && NonceTaken(v, r, Norm(o.src), o.nonce)
            && r == v.(core := v.core.(balances := r.core.balances, counters := r.core.counters),
                       nonces := r.nonces, presaleLocks := r.presaleLocks)
  {
    hide Norm, Sum, Moved, One, Both, Charged, Vault.Settled, TaxedBalances, WithPresale, WithNonce;
    AccountedHasRoom(v);
    SumAtLeast(v.core.balances, o.src);
    TaxedMoves(v.core.balances, o.src, o.dst, o.amount, split);
    MarksAre(v, o);
    SettledIs(WithPresale(WithNonce(v, o.src, o.nonce), o.src, o.dst, o.now, o.presaleMs),
              TaxedBalances(v.core.balances, o.src, o.dst, o.amount, split), split.Fee(), split.burn);
  }

  /** A taxed transfer: the sender less the amount, the recipient plus the rest after the fee, the pool plus half the
      fee rounded down, the other half burned, the fee counted. */
  lemma TaxedIs(host: Host, v: Vault, o: Op)
    requires o.TransferInternal? && Accounted(v)
    ensures var bps := if o.feeBps.Some? then o.feeBps.value else 100;
            DoTransferInternal(host, v, o).Ok? <==>
              || o.src == o.dst || o.amount == 0
              || (&& MaySend(host, v, o) && 100 <= bps <= 1_000
                  && (o.nonce.Some? ==> o.nonce.value > Get(v.nonces, Norm(o.src))))
    ensures DoTransferInternal(host, v, o).Ok? ==>
              var (r, bps) := (DoTransferInternal(host, v, o).value, if o.feeBps.Some? then o.feeBps.value else 100);
              var fee := o.amount * bps / 10_000;
              if o.src == o.dst || o.amount == 0 then r == v
              else && Moved(v.core.balances, r.core.balances,
                            Both(Both(One(o.src, 0 - o.amount), One(o.dst, o.amount - fee)),
                                 One(WORKER_POOL, fee / 2)))
                   && Charged(v.core.counters, r.core.counters, fee, fee - fee / 2)
                   && PresaleStarts(v, r, o) && NonceTaken(v, r, Norm(o.src), o.nonce)
                   && r == v.(core := v.core.(balances := r.core.balances, counters := r.core.counters),
                              nonces := r.nonces, presaleLocks := r.presaleLocks)
  {
    hide Norm, LockedSum, Sum, Charge, Moved, One, Both, Charged, Taxed, PresaleStarts, NonceTaken;
    var bps := if o.feeBps.Some? then o.feeBps.value else 100;
    if DoTransferInternal(host, v, o).Ok? && o.src != o.dst && o.amount > 0 {
      SharesAre(TransferFee(bps), o.amount);
      TaxedLeaves(v, o, Charge(TransferFee(bps), o.amount).value);
    }
  }

  // ----- genesis

  /** The three shares, and a row for the reserve: whatever wallet holds several roles holds their sum. */
  lemma GenesisIs(v: Vault, o: Op)
    requires o.Genesis?
    ensures DoGenesis(v, o).Ok? <==>
              && Trim(o.founder) != "" && v.core.counters.supply == 0 && o.treasury.Some?
              && (o.pinned.Some? ==> Norm(o.pinned.value) != "" && Norm(o.founder) == Norm(o.pinned.value))
    ensures DoGenesis(v, o).Ok? ==>
              var r := DoGenesis(v, o).value;
              && Moved(map[], r.core.balances,
                       Both(Both(One(Trim(o.founder), 2_500_000_000_000_000), One(WORKER_POOL, 5_000_000_000_000_000)),
                            One(o.treasury.value, 2_500_000_000_000_000)))
              && PROTOCOL_RESERVE in r.core.balances
              && r.core.counters == v.core.counters.(supply := 10_000_000_000_000_000)
              && r.core.meta == v.core.meta && r.core.registry == v.core.registry
              && r.book == v.book.(bonds := map[], founder := Some(Trim(o.founder)),
                                   founderLocked := 2_500_000_000_000_000, founderUnlockAt := r.book.founderUnlockAt)
              && r.book.founderUnlockAt == (if o.now + o.cliff > U64_MAX then U64_MAX else o.now + o.cliff)
              && r == v.(core := r.core, book := r.book)
  {
    hide Trim, Norm;
    if DoGenesis(v, o).Ok? {
      GenesisMoves(Trim(o.founder), o.treasury.value);
    }
  }

  lemma GenesisMoves(founder: string, treasury: string)
    ensures var none: map<string, nat> := map[];
            var b := Credited(Credited(Credited(Credited(none, founder, 2_500_000_000_000_000), WORKER_POOL,
                                                5_000_000_000_000_000), treasury, 2_500_000_000_000_000),
                              PROTOCOL_RESERVE, 0);
            && PROTOCOL_RESERVE in b
            && Moved(none, b, Both(Both(One(founder, 2_500_000_000_000_000), One(WORKER_POOL, 5_000_000_000_000_000)),
                                   One(treasury, 2_500_000_000_000_000)))
  {
  }
}
