/** What a wallet's locked sum is, row by row, and what the founder's cliff keeps from being spent
    (tet-core/src/ledger.rs:4621-4648). */
module LockLaws {
  import opened Basics
  import opened Text
  import opened Fees
  import opened Protocol
  import opened Locks
  import opened BlockApply
  import opened SupplyOps

  // ----- the sum, in terms of the rows

  /** The wallet's rows that are still locked, by position, with their amounts. */
  ghost function LockedRows(vests: seq<VestLock>, wallet: string, now: nat): map<nat, nat> {
    map i: nat | i < |vests| && vests[i].wallet == wallet && vests[i].unlockAt > now :: vests[i].amount
  }

  // `u64` sums stop at their ceiling.
  function Capped(n: nat): nat {
    if n > U64_MAX then U64_MAX else n
  }

  lemma LockedRowsLast(vests: seq<VestLock>, wallet: string, now: nat)
    requires vests != []
    ensures var n := |vests| - 1;
            var before := LockedRows(vests[..n], wallet, now);
            && n !in before
            && LockedRows(vests, wallet, now)
               == if vests[n].wallet == wallet && vests[n].unlockAt > now then before[n := vests[n].amount] else before
  {
  }

  lemma {:induction false} VestSumIs(vests: seq<VestLock>, wallet: string, now: nat)
    ensures VestSum(vests, wallet, now) == Capped(Sum(LockedRows(vests, wallet, now)))
  {
    hide Sum, LockedRows;
    if vests == [] {
      NoRows(wallet, now);
    } else {
      var n := |vests| - 1;
      VestSumIs(vests[..n], wallet, now);
      LockedRowsLast(vests, wallet, now);
      SumAdd<nat>(LockedRows(vests[..n], wallet, now), n, vests[n].amount);
    }
  }

  lemma NoRows(wallet: string, now: nat)
    ensures Sum(LockedRows([], wallet, now)) == 0
  {
    assert LockedRows([], wallet, now) == map[];
  }

  /** The locked sum is the wallet's still-locked vesting rows and, exactly for the founder before the cliff, the
      founder's share, together and capped at 64 bits. */
  lemma LockedSumIs(book: Book, wallet: string, now: nat)
    ensures var w := Trim(wallet);
            var cliff := w != "" && book.founder == Some(w) && 0 < book.founderUnlockAt && now < book.founderUnlockAt;
            LockedSum(book, wallet, now)
            == Capped(Sum(LockedRows(book.vests, w, now)) + if cliff then book.founderLocked else 0)
  {
    hide Sum, VestSum;
    VestSumIs(book.vests, Trim(wallet), now);
  }

  /** One more row raises its own wallet's sum by its amount while it is locked, and no other wallet's ever. */
  lemma RowLocksItsWallet(book: Book, row: VestLock, wallet: string, now: nat)
    requires LockedSum(book, wallet, now) + row.amount <= U64_MAX
    ensures LockedSum(book.(vests := book.vests + [row]), wallet, now)
            == LockedSum(book, wallet, now) + if row.wallet == Trim(wallet) && now < row.unlockAt then row.amount else 0
  {
    hide Sum, VestSum, LockedRows, Trim;
    var more, w := book.vests + [row], Trim(wallet);
    LockedSumIs(book, wallet, now);
    LockedSumIs(book.(vests := more), wallet, now);
    LockedRowsLast(more, w, now);
    assert more[..|more| - 1] == book.vests && more[|more| - 1] == row;
    SumAdd<nat>(LockedRows(book.vests, w, now), |book.vests|, row.amount);
  }

  // ----- the founder's cliff

  /** The founder's terms as some genesis set them. */
  ghost predicate FounderTerms(book: Book, o: Op)
    requires o.Genesis?
  {
    && book.founder == Some(Trim(o.founder)) && book.founderLocked == GENESIS_FOUNDER_SHARE_MICRO
    && book.founderUnlockAt == if o.now + o.cliff > U64_MAX then U64_MAX else o.now + o.cliff
  }

  lemma GenesisSetsTerms(v: Vault, o: Op)
    requires o.Genesis? && DoGenesis(v, o).Ok?
    ensures FounderTerms(DoGenesis(v, o).value.book, o) && Trim(o.founder) != ""
  {
  }

  lemma BondsKeepTerms(v: Vault, o: Op)
    ensures o.Stake? || o.StakeBond? ==> DoStake(v, o).Ok? ==> SameTerms(v.book, DoStake(v, o).value.book)
    ensures o.UnstakeBond? ==> DoUnstake(v, o).Ok? ==> SameTerms(v.book, DoUnstake(v, o).value.book)
    ensures o.SlashBond? || o.SlashStake? ==> DoSlash(v, o).Ok? ==> SameTerms(v.book, DoSlash(v, o).value.book)
  {
    hide Norm, LockedSum, FreshNonce;
  }

  lemma PaymentsKeepTerms(host: Host, v: Vault, o: Op)
    ensures o.AiUtilityPayment? ==>
              DoAiUtility(host, v, o).Ok? ==> SameTerms(v.book, DoAiUtility(host, v, o).value.book)
    ensures o.AiInferenceCharge? ==> DoAiInference(v, o).Ok? ==> SameTerms(v.book, DoAiInference(v, o).value.book)
    ensures o.TransferNoFee? ==>
              DoTransferNoFee(host, v, o).Ok? ==> SameTerms(v.book, DoTransferNoFee(host, v, o).value.book)
  {
    hide Norm, Trim, LockedSum, Charge, PresaleAllows, UtilityBalances;
  }

  lemma TaxedKeepsTerms(host: Host, v: Vault, o: Op)
    requires o.TransferInternal? && DoTransferInternal(host, v, o).Ok?
    ensures SameTerms(v.book, DoTransferInternal(host, v, o).value.book)
  {
    hide Norm, LockedSum, Charge, PresaleAllows, FreshNonce, TaxedBalances;
  }

  ghost predicate SameTerms(a: Book, b: Book) {
    a.founder == b.founder && a.founderUnlockAt == b.founderUnlockAt && a.founderLocked == b.founderLocked
  }

  // No later operation changes them; a second genesis is refused while there is any supply.
  lemma TermsStay(host: Host, v: Vault, o: Op)
    requires v.core.counters.supply > 0
    ensures SameTerms(v.book, DoOrStay(host, v, o).book)
  {
    hide Trim, Norm, ApplyBlock, DoStake, DoUnstake, DoSlash, DoAiUtility, DoAiInference, DoTransferNoFee,
         DoTransferInternal;
    BondsKeepTerms(v, o);
    PaymentsKeepTerms(host, v, o);
    if o.TransferInternal? && DoTransferInternal(host, v, o).Ok? {
      TaxedKeepsTerms(host, v, o);
    }
  }

  lemma {:induction false} TrimEndIsTrimmed(s: string)
    ensures TrimEnd(TrimEnd(s)) == TrimEnd(s)
    ensures TrimEnd(s) != "" ==> s != "" && TrimEnd(s)[0] == s[0]
  {
    if s != "" && IsSpace(s[|s| - 1]) {
      TrimEndIsTrimmed(s[..|s| - 1]);
    }
  }

  lemma {:induction false} TrimStartIsTrimmed(s: string)
    ensures TrimStart(s) == "" || !IsSpace(TrimStart(s)[0])
  {
    if s != "" && IsSpace(s[0]) {
      TrimStartIsTrimmed(s[1..]);
    }
  }

  lemma TrimTwice(s: string)
    ensures Trim(Trim(s)) == Trim(s)
  {
    TrimStartIsTrimmed(s);
    TrimEndIsTrimmed(TrimStart(s));
  }

  /** Before the cliff, with no more than the genesis share to its name, nothing of the founder's is spendable. */
  ghost predicate OnTheShare(book: Book, bal: map<string, nat>, o: Op, now: nat)
    requires o.Genesis?
  {
    && FounderTerms(book, o) && now < book.founderUnlockAt && Trim(o.founder) != ""
    && Get(bal, Trim(o.founder)) <= GENESIS_FOUNDER_SHARE_MICRO
  }

  lemma NothingSpendable(book: Book, bal: map<string, nat>, o: Op, wallet: string, now: nat)
    requires o.Genesis? && OnTheShare(book, bal, o, now) && Trim(wallet) == Trim(o.founder)
    ensures SatSub(Get(bal, Trim(o.founder)), LockedSum(book, wallet, now)) == 0
  {
    hide Trim, VestSum;
  }

  /** So no transfer of the founder's, of any size, previews, and none that is new applies. */
  lemma FounderCannotTransfer(host: Host, book: Book, core: Core, o: Op, now: nat, height: nat, env: Envelope,
                              hash: string, a: Acc)
    requires o.Genesis? && OnTheShare(book, a.balances, o, now)
    requires env.tx.Transfer? && Norm(env.tx.fromWallet) == Trim(o.founder)
    ensures PreviewTx(host, book, now, env, Draft(a.balances, a.airdrops)).Err?
    ensures Applied(hash) !in core.meta ==> ApplyTx(host, book, core, now, height, env, hash, a).Err?
  {
    hide Trim, Norm, LockedSum, Charge, TransferBalances;
    TrimTwice(o.founder);
    NothingSpendable(book, a.balances, o, Norm(env.tx.fromWallet), now);
  }

  /** A file fee's lock is looked up under the payer as it was spelled, trimmed: spelled like the founder it is
      refused; in other letter case it is held back by that spelling's vesting rows and not by the cliff. */
  lemma FounderFileFeeIff(host: Host, book: Book, o: Op, now: nat, bal: map<string, nat>, payer: string,
                          storage: string)
    requires o.Genesis? && OnTheShare(book, bal, o, now) && Norm(payer) == Trim(o.founder) && host.treasury.Some?
    ensures ApplyFileFee(host, book, now, bal, payer, storage, 1_000).Ok? <==>
              && Trim(payer) != Trim(o.founder)
              && 1_000 + Sum(LockedRows(book.vests, Trim(payer), now)) <= Get(bal, Trim(o.founder))
  {
    hide Trim, Norm, FileFeeSplit, LockedSum, LockedRows, Sum;
    TrimTwice(payer);
    LockedSumIs(book, Trim(payer), now);
    if Trim(payer) == Trim(o.founder) {
      NothingSpendable(book, bal, o, Trim(payer), now);
    }
  }

  lemma FeeIsRefused(host: Host, book: Book, o: Op, now: nat, bal: map<string, nat>, payer: string, storage: string,
                     fee: nat)
    requires o.Genesis? && OnTheShare(book, bal, o, now) && Norm(payer) == Trim(payer) == Trim(o.founder)
    ensures ApplyFileFee(host, book, now, bal, payer, storage, fee).Err?
  {
    hide Trim, Norm, LockedSum, FileFeeSplit;
    TrimTwice(payer);
    NothingSpendable(book, bal, o, Trim(payer), now);
  }

  lemma FounderCannotPayFileFee(host: Host, book: Book, core: Core, o: Op, now: nat, height: nat, env: Envelope,
                                hash: string, a: Acc)
    requires o.Genesis? && OnTheShare(book, a.balances, o, now)
    requires env.tx.FileFee? && Norm(env.tx.payer) == Trim(env.tx.payer) == Trim(o.founder)
    ensures PreviewTx(host, book, now, env, Draft(a.balances, a.airdrops)).Err?
    ensures Applied(hash) !in core.meta ==> ApplyTx(host, book, core, now, height, env, hash, a).Err?
  {
    hide Trim, Norm, LockedSum, ApplyFileFee;
    FeeIsRefused(host, book, o, now, a.balances, env.tx.payer, env.tx.storageWallet, env.tx.fee);
    assert Applied(hash) !in core.meta ==> SettleFileFee(host, book, core, now, env.tx, hash, a).Err?;
  }

  /** Nor does the founder stake or bond, or transfer outside a block, anything at all. */
  lemma FounderCannotStake(v: Vault, genesis: Op, o: Op)
    requires genesis.Genesis? && (o.Stake? || o.StakeBond?) && OnTheShare(v.book, v.core.balances, genesis, o.now)
    requires Norm(o.wallet) == Trim(genesis.founder)
    ensures DoStake(v, o).Err?
  {
    hide Trim, Norm, LockedSum;
    TrimTwice(genesis.founder);
    NothingSpendable(v.book, v.core.balances, genesis, Norm(o.wallet), o.now);
  }

  lemma FounderCannotSend(host: Host, v: Vault, genesis: Op, o: Op)
    requires genesis.Genesis? && (o.TransferNoFee? || o.TransferInternal?)
    requires OnTheShare(v.book, v.core.balances, genesis, o.now)
    requires o.src == Trim(genesis.founder) && o.src != o.dst && o.amount > 0
    ensures Do(host, v, o).Err?
  {
    hide Trim, Norm, LockedSum, Charge, PresaleAllows, TaxedBalances, WithPresale, WithNonce;
    TrimTwice(genesis.founder);
    NothingSpendable(v.book, v.core.balances, genesis, o.src, o.now);
  }

  /** The ledger a genesis leaves is one of these, until the cliff. */
  lemma GenesisIsOnTheShare(o: Op, now: nat)
    requires o.Genesis? && DoGenesis(EmptyVault(), o).Ok? && now < DoGenesis(EmptyVault(), o).value.book.founderUnlockAt
    requires Trim(o.founder) !in {WORKER_POOL, o.treasury.value, PROTOCOL_RESERVE}
    ensures var v := DoGenesis(EmptyVault(), o).value; OnTheShare(v.book, v.core.balances, o, now)
  {
    hide Trim, Norm;
  }
}
