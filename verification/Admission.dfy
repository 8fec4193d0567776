/** Mempool admission, and why an admitted mempool is minable (tet-core/src/consensus.rs:1464-1511). */
module Admission {
  import opened Basics
  import opened Text
  import opened Fees
  import opened Protocol
  import opened Locks
  import opened BlockApply

  predicate TxAdmissible(env: Envelope) {
    && SignerActsForItself(env)
    && (env.tx.Transfer? ==>
          && Trim(env.tx.fromWallet) != "" && Trim(env.tx.toWallet) != ""
          && 0 < env.tx.amount <= MAX_SUPPLY_MICRO
          && Charge(TransferFee(env.tx.feeBps), env.tx.amount).Ok?)
  }

  // The sender's transfers already waiting, added up with saturation.
  function Waiting(pending: seq<Envelope>, from: string): nat {
    if pending == [] then 0
    else
      var sum := Waiting(pending[..|pending| - 1], from);
      var last := pending[|pending| - 1].tx;
      if last.Transfer? && Norm(last.fromWallet) == from then SatAdd(sum, last.amount) else sum
  }

  predicate TxAffordable(book: Book, core: Core, now: nat, env: Envelope, pending: seq<Envelope>) {
    env.tx.Transfer? ==>
      var from := Norm(env.tx.fromWallet);
      SatSub(Get(core.balances, from), LockedSum(book, from, now)) >= SatAdd(Waiting(pending, from), env.tx.amount)
  }

  // ----- what a wallet's waiting transfers add up to

  function SpendOf(from: string, env: Envelope): nat {
    if env.tx.Transfer? && Norm(env.tx.fromWallet) == from then env.tx.amount else 0
  }

  function SpendSum(from: string, txs: seq<Envelope>): nat {
    if txs == [] then 0 else SpendOf(from, txs[0]) + SpendSum(from, txs[1..])
  }

  lemma {:induction false} SpendSumConcat(from: string, a: seq<Envelope>, b: seq<Envelope>)
    ensures SpendSum(from, a + b) == SpendSum(from, a) + SpendSum(from, b)
  {
    if a == [] {
      assert a + b == b;
    } else {
      assert (a + b)[1..] == a[1..] + b;
      SpendSumConcat(from, a[1..], b);
    }
  }

  lemma {:induction false} WaitingIsCappedSum(pending: seq<Envelope>, from: string)
    ensures Waiting(pending, from) == SatAdd(SpendSum(from, pending), 0)
  {
    if pending != [] {
      var n := |pending| - 1;
      WaitingIsCappedSum(pending[..n], from);
      assert pending == pending[..n] + [pending[n]];
      SpendSumConcat(from, pending[..n], [pending[n]]);
    }
  }

  function Without<T>(s: seq<T>, i: nat): seq<T>
    requires i < |s|
  {
    s[..i] + s[i + 1..]
  }

  lemma WithoutTakesOne<T>(s: seq<T>, i: nat)
    requires i < |s|
    ensures multiset(s) == multiset(Without(s, i)) + multiset{s[i]}
  {
    assert s == s[..i] + ([s[i]] + s[i + 1..]);
  }

  lemma TakeOneFromBoth<T>(xs: seq<T>, ys: seq<T>, j: nat)
    requires xs != [] && multiset(xs) <= multiset(ys) && j < |ys| && ys[j] == xs[0]
    ensures multiset(xs[1..]) <= multiset(Without(ys, j))
  {
    WithoutTakesOne(ys, j);
    WithoutTakesOne(xs, 0);
    assert Without(xs, 0) == xs[1..];
    assert multiset(xs[1..]) == multiset(xs) - multiset{xs[0]};
    assert multiset(Without(ys, j)) == multiset(ys) - multiset{xs[0]};
  }

  // Dropping and reordering never raises a wallet's waiting sum.
  lemma {:induction false} SubmultisetSpendsLess(from: string, xs: seq<Envelope>, ys: seq<Envelope>)
    requires multiset(xs) <= multiset(ys)
    ensures SpendSum(from, xs) <= SpendSum(from, ys)
    decreases |xs|
  {
    if xs != [] {
      assert xs[0] in multiset(xs);
      var j :| 0 <= j < |ys| && ys[j] == xs[0];
      TakeOneFromBoth(xs, ys, j);
      SubmultisetSpendsLess(from, xs[1..], Without(ys, j));
      assert ys == ys[..j] + ([ys[j]] + ys[j + 1..]);
      SpendSumConcat(from, ys[..j], [ys[j]] + ys[j + 1..]);
      SpendSumConcat(from, [ys[j]], ys[j + 1..]);
      SpendSumConcat(from, ys[..j], ys[j + 1..]);
    }
  }

  // ----- the mempool invariant

  /** Transfers only, each admissible, and every wallet's waiting transfers fit its spendable balance. */
  ghost predicate Minable(book: Book, core: Core, now: nat, mempool: seq<Envelope>) {
    && (forall i :: 0 <= i < |mempool| ==> mempool[i].tx.Transfer? && TxAdmissible(mempool[i]))
    && forall w :: SpendSum(w, mempool) <= SatSub(Get(core.balances, w), LockedSum(book, w, now))
  }

  ghost predicate BalancesFit(bal: map<string, nat>) {
    forall w :: Get(bal, w) < U64_MAX
  }

  lemma AdmitKeepsMinable(book: Book, core: Core, t1: nat, t2: nat, mempool: seq<Envelope>, env: Envelope)
    requires t1 <= t2 && BalancesFit(core.balances) && Minable(book, core, t1, mempool)
    requires env.tx.Transfer? && TxAdmissible(env) && TxAffordable(book, core, t2, env, mempool)
    ensures Minable(book, core, t2, mempool + [env])
  {
    forall w ensures SpendSum(w, mempool + [env]) <= SatSub(Get(core.balances, w), LockedSum(book, w, t2)) {
      LockedSumShrinks(book, w, t1, t2);
      SpendSumConcat(w, mempool, [env]);
      WaitingIsCappedSum(mempool, w);
      assert Get(core.balances, w) < U64_MAX;
    }
  }

  lemma SubsetStaysMinable(book: Book, core: Core, t1: nat, t2: nat, mempool: seq<Envelope>, xs: seq<Envelope>)
    requires t1 <= t2 && Minable(book, core, t1, mempool) && multiset(xs) <= multiset(mempool)
    ensures Minable(book, core, t2, xs)
  {
    forall i | 0 <= i < |xs| ensures xs[i].tx.Transfer? && TxAdmissible(xs[i]) {
      assert xs[i] in multiset(xs);
      assert xs[i] in multiset(mempool);
    }
    forall w ensures SpendSum(w, xs) <= SatSub(Get(core.balances, w), LockedSum(book, w, t2)) {
      SubmultisetSpendsLess(w, xs, mempool);
      LockedSumShrinks(book, w, t1, t2);
    }
  }

  // ----- a minable list previews

  // What one transfer leaves every wallet with, at least.
  lemma TransferLeaves(bal: map<string, nat>, f: string, t: string, amount: nat, split: FeeSplit, w: string)
    requires amount <= Get(bal, f) && forall k :: Get(bal, k) <= U64_MAX
    ensures Get(TransferBalances(bal, f, t, amount, split), w) >= Get(bal, w) - (if w == f then amount else 0)
    ensures Get(TransferBalances(bal, f, t, amount, split), w) <= U64_MAX
  {
    var b1 := bal[f := Get(bal, f) - amount];
    assert Get(bal, w) <= U64_MAX && Get(bal, f) <= U64_MAX && Get(bal, t) <= U64_MAX;
    assert Get(bal, WORKER_POOL) <= U64_MAX;
    var b2 := b1[t := SatAdd(Get(b1, t), split.net)];
    assert Get(b1, t) <= U64_MAX && Get(b1, w) <= U64_MAX && Get(b1, WORKER_POOL) <= U64_MAX;
    assert Get(b1, w) <= Get(b2, w) <= U64_MAX && Get(b2, WORKER_POOL) <= U64_MAX;
  }

  lemma {:induction false} MinableTxsPreview(host: Host, book: Book, core: Core, now: nat, txs: seq<Envelope>, d: Draft)
    requires forall i :: 0 <= i < |txs| ==> txs[i].tx.Transfer? && TxAdmissible(txs[i])
    requires forall w :: SpendSum(w, txs) <= SatSub(Get(d.balances, w), LockedSum(book, w, now))
    requires forall w :: Get(d.balances, w) <= U64_MAX
    requires forall i :: 0 <= i < |txs| ==> Norm(txs[i].tx.fromWallet) != WORKER_POOL
    ensures PreviewTxs(host, book, now, txs, d).Ok?
    ensures Get(PreviewTxs(host, book, now, txs, d).value.balances, WORKER_POOL) >= Get(d.balances, WORKER_POOL)
    decreases |txs|
  {
    if txs != [] {
      var tx := txs[0].tx;
      var from := Norm(tx.fromWallet);
      assert SpendSum(from, txs) == tx.amount + SpendSum(from, txs[1..]);
      var split := Charge(TransferFee(tx.feeBps), tx.amount).value;
      var bal1 := TransferBalances(d.balances, from, Norm(tx.toWallet), tx.amount, split);
      var d1 := d.(balances := bal1);
      assert PreviewTx(host, book, now, txs[0], d) == Ok(d1);
      forall w
        ensures SpendSum(w, txs[1..]) <= SatSub(Get(bal1, w), LockedSum(book, w, now)) && Get(bal1, w) <= U64_MAX
      {
        TransferLeaves(d.balances, from, Norm(tx.toWallet), tx.amount, split, w);
        assert SpendSum(w, txs) == SpendOf(w, txs[0]) + SpendSum(w, txs[1..]);
      }
      TransferLeaves(d.balances, from, Norm(tx.toWallet), tx.amount, split, WORKER_POOL);
      forall i | 0 <= i < |txs[1..]|
        ensures txs[1..][i].tx.Transfer? && TxAdmissible(txs[1..][i]) && Norm(txs[1..][i].tx.fromWallet) != WORKER_POOL
      {
        assert txs[1..][i] == txs[i + 1];
      }
      MinableTxsPreview(host, book, core, now, txs[1..], d1);
    }
  }

  ghost predicate NoPoolSender(mempool: seq<Envelope>) {
    forall env :: env in mempool ==> env.tx.Transfer? && Norm(env.tx.fromWallet) != WORKER_POOL
  }

  // Any part of an admitted mempool, in any order, at any later time, is a block the preview accepts.
  lemma AdmittedMempoolPreviews(host: Host, book: Book, core: Core, t1: nat, t2: nat, mempool: seq<Envelope>,
                                xs: seq<Envelope>, producer: string, reward: nat)
    requires t1 <= t2 && BalancesFit(core.balances) && Minable(book, core, t1, mempool)
    requires multiset(xs) <= multiset(mempool)
    requires NoPoolSender(mempool)
    requires Get(core.balances, WORKER_POOL) >= reward
    requires Norm(producer) != "" && !IsReservedSystemWallet(Norm(producer))
    ensures PreviewBlock(host, book, core, t2, xs, producer, reward).Ok?
  {
    hide TxAdmissible, PreviewTxs, PreviewTx, LockedSum, IsReservedSystemWallet, Norm, SpendSum;
    SubsetStaysMinable(book, core, t1, t2, mempool, xs);
    forall i | 0 <= i < |xs| ensures Norm(xs[i].tx.fromWallet) != WORKER_POOL {
      assert xs[i] in multiset(xs);
      assert xs[i] in multiset(mempool);
    }
    MinableTxsPreview(host, book, core, t2, xs, Draft(core.balances, core.counters.airdrops));
  }

  // ----- runs of the mempool against one ledger state

  datatype MempoolEvent = Offer(env: Envelope, now: nat) | Evict(position: nat)

  // `enqueue_without_broadcast`: admitted at the back, or refused.
  function StepMempool(book: Book, core: Core, mempool: seq<Envelope>, e: MempoolEvent): seq<Envelope> {
    match e
    case Offer(env, now) =>
      if TxAdmissible(env) && TxAffordable(book, core, now, env, mempool) then mempool + [env] else mempool
    case Evict(i) => if i < |mempool| then Without(mempool, i) else mempool
  }

  function RunMempool(book: Book, core: Core, events: seq<MempoolEvent>): seq<Envelope> {
    if events == [] then []
    else StepMempool(book, core, RunMempool(book, core, events[..|events| - 1]), events[|events| - 1])
  }

  /** An offered transfer is admitted, to the end of the mempool, exactly when its sender signed it, both wallets are
      named, amount and rate are in range, and with what the sender already has waiting and locked it fits its
      balance; otherwise the mempool stays. */
  lemma AdmittedIff(book: Book, core: Core, mempool: seq<Envelope>, env: Envelope, now: nat)
    requires env.tx.Transfer? && Get(core.balances, Norm(env.tx.fromWallet)) < U64_MAX
    ensures var (from, tx) := (Norm(env.tx.fromWallet), env.tx);
            StepMempool(book, core, mempool, Offer(env, now)) ==
            if && from == Norm(env.signer) && Trim(tx.fromWallet) != "" && Trim(tx.toWallet) != ""
               && 0 < tx.amount <= 10_000_000_000_000_000 && 100 <= tx.feeBps <= 1_000
               && SpendSum(from, mempool) + tx.amount + LockedSum(book, from, now) <= Get(core.balances, from)
            then mempool + [env] else mempool
  {
    hide Norm, Trim, LockedSum, SpendSum;
    WaitingIsCappedSum(mempool, Norm(env.tx.fromWallet));
  }

  ghost predicate TransfersInOrder(events: seq<MempoolEvent>, last: nat) {
    && (forall i :: 0 <= i < |events| && events[i].Offer? ==>
          events[i].env.tx.Transfer? && Norm(events[i].env.tx.fromWallet) != WORKER_POOL && events[i].now <= last)
    && (forall i, j :: 0 <= i < j < |events| && events[i].Offer? && events[j].Offer? ==> events[i].now <= events[j].now)
  }

  lemma OfferKeepsMinable(book: Book, core: Core, last: nat, mempool: seq<Envelope>, env: Envelope, now: nat)
    requires BalancesFit(core.balances) && now <= last && env.tx.Transfer? && Norm(env.tx.fromWallet) != WORKER_POOL
    requires Minable(book, core, now, mempool) && NoPoolSender(mempool)
    ensures var next := StepMempool(book, core, mempool, Offer(env, now));
            Minable(book, core, last, next) && NoPoolSender(next)
  {
    hide Minable, TxAdmissible, TxAffordable, BalancesFit;
    if TxAdmissible(env) && TxAffordable(book, core, now, env, mempool) {
      AdmitKeepsMinable(book, core, now, now, mempool, env);
    }
    var next := StepMempool(book, core, mempool, Offer(env, now));
    SubsetStaysMinable(book, core, now, last, next, next);
  }

  lemma EvictKeepsMinable(book: Book, core: Core, last: nat, mempool: seq<Envelope>, i: nat)
    requires Minable(book, core, last, mempool) && NoPoolSender(mempool)
    ensures var next := StepMempool(book, core, mempool, Evict(i));
            Minable(book, core, last, next) && NoPoolSender(next)
  {
    hide Minable;
    if i < |mempool| {
      WithoutTakesOne(mempool, i);
      SubsetStaysMinable(book, core, last, last, mempool, Without(mempool, i));
    }
  }

  lemma {:induction false} RunKeepsMinable(book: Book, core: Core, events: seq<MempoolEvent>, last: nat)
    requires BalancesFit(core.balances) && TransfersInOrder(events, last)
    ensures var mempool := RunMempool(book, core, events);
            Minable(book, core, last, mempool) && NoPoolSender(mempool)
  {
    if events == [] {
    } else {
      hide Minable, NoPoolSender, StepMempool, BalancesFit;
      var n := |events| - 1;
      var e := events[n];
      var at := if e.Offer? then e.now else last;
      RunKeepsMinable(book, core, events[..n], at);
      match e
      case Offer(env, now) => OfferKeepsMinable(book, core, last, RunMempool(book, core, events[..n]), env, now);
      case Evict(i) => EvictKeepsMinable(book, core, last, RunMempool(book, core, events[..n]), i);
    }
  }

  // Admission makes a mempool minable, over every history of offers and evictions.
  lemma AdmissionMakesMinable(host: Host, book: Book, core: Core, events: seq<MempoolEvent>, last: nat, later: nat,
                              xs: seq<Envelope>, producer: string, reward: nat)
    requires BalancesFit(core.balances) && TransfersInOrder(events, last) && last <= later
    requires multiset(xs) <= multiset(RunMempool(book, core, events))
    requires Get(core.balances, WORKER_POOL) >= reward
    requires Norm(producer) != "" && !IsReservedSystemWallet(Norm(producer))
    ensures PreviewBlock(host, book, core, later, xs, producer, reward).Ok?
  {
    RunKeepsMinable(book, core, events, last);
    AdmittedMempoolPreviews(host, book, core, last, later, RunMempool(book, core, events), xs, producer, reward);
  }
}
