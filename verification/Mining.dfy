/** One mining round over the mempool, and how a backlog drains (tet-core/src/consensus.rs:1340-1454, 1513-1569). */
module Mining {
  import opened Basics
  import opened Protocol
  import opened BlockApply
  import opened Caac
  import opened Consensus

  const SELECT_ONE_BY_ONE_MAX: nat := 256
  const PRE_APPLY_REQUEUE_MAX: nat := 3

  /** The ledger, clock and producer one round runs against. */
  datatype Site = Site(host: Host, book: Book, core: Core, now: nat, producer: string)

  predicate BlockTxsOk(site: Site, txs: seq<Envelope>) {
    var reward := RewardForBlock(site.host, txs);
    && ZkClaimsOk(site.host, site.core, txs, {})
    && reward.Some?
    && PreviewBlock(site.host, site.book, site.core, site.now, txs, site.producer, reward.value.total).Ok?
  }

  predicate Authorised(site: Site, mempool: seq<Envelope>) {
    ContainsAiWorkload(mempool) ==> CanMineAiWorkload(site.host, site.producer)
  }

  predicate Hashable(host: Host, txs: seq<Envelope>) {
    forall i :: 0 <= i < |txs| ==> host.txHash(txs[i]).Some?
  }

  ghost function HashesOf(host: Host, txs: seq<Envelope>): set<Option<string>> {
    set i | 0 <= i < |txs| :: host.txHash(txs[i])
  }

  predicate Settled(site: Site, env: Envelope) {
    var h := site.host.txHash(env);
    h.Some? && Applied(h.value) in site.core.meta
  }

  // ----- order-preserving splits

  /** `a` and `b` are `whole` dealt into two piles, both in the original order. */
  ghost predicate Deals(whole: seq<Envelope>, a: seq<Envelope>, b: seq<Envelope>) {
    if whole == [] then a == [] && b == []
    else
      var n := |whole| - 1;
      || (a != [] && a[|a| - 1] == whole[n] && Deals(whole[..n], a[..|a| - 1], b))
      || (b != [] && b[|b| - 1] == whole[n] && Deals(whole[..n], a, b[..|b| - 1]))
  }

  lemma NothingDealt()
    ensures Deals([], [], [])
  {
  }

  lemma DealA(whole: seq<Envelope>, a: seq<Envelope>, b: seq<Envelope>, x: Envelope)
    requires Deals(whole, a, b)
    ensures Deals(whole + [x], a + [x], b)
  {
    assert (whole + [x])[..|whole|] == whole && (a + [x])[..|a|] == a;
  }

  lemma DealB(whole: seq<Envelope>, a: seq<Envelope>, b: seq<Envelope>, x: Envelope)
    requires Deals(whole, a, b)
    ensures Deals(whole + [x], a, b + [x])
  {
    assert (whole + [x])[..|whole|] == whole && (b + [x])[..|b|] == b;
  }

  lemma {:induction false} DealRest(whole: seq<Envelope>, a: seq<Envelope>, b: seq<Envelope>, rest: seq<Envelope>)
    requires Deals(whole, a, b)
    ensures Deals(whole + rest, a + rest, b)
    decreases |rest|
  {
    if rest == [] {
      assert whole + rest == whole && a + rest == a;
    } else {
      var n := |rest| - 1;
      DealRest(whole, a, b, rest[..n]);
      DealA(whole + rest[..n], a + rest[..n], b, rest[n]);
      assert whole + rest == whole + rest[..n] + [rest[n]];
      assert a + rest == a + rest[..n] + [rest[n]];
    }
  }

  lemma CountLast(a: seq<Envelope>)
    requires a != []
    ensures multiset(a) == multiset(a[..|a| - 1]) + multiset{a[|a| - 1]}
  {
    assert a == a[..|a| - 1] + [a[|a| - 1]];
  }

  lemma {:induction false} DealtPilesAddUp(whole: seq<Envelope>, a: seq<Envelope>, b: seq<Envelope>)
    requires Deals(whole, a, b)
    ensures multiset(whole) == multiset(a) + multiset(b) && |whole| == |a| + |b|
    decreases |whole|
  {
    if whole != [] {
      var n := |whole| - 1;
      CountLast(whole);
      if a != [] && a[|a| - 1] == whole[n] && Deals(whole[..n], a[..|a| - 1], b) {
        DealtPilesAddUp(whole[..n], a[..|a| - 1], b);
        CountLast(a);
      } else {
        DealtPilesAddUp(whole[..n], a, b[..|b| - 1]);
        CountLast(b);
      }
    }
  }

  datatype Piles = Piles(kept: seq<Envelope>, dropped: seq<Envelope>)

  // ----- duplicates and settled transactions

  ghost function Sift(site: Site, txs: seq<Envelope>): Piles {
    if txs == [] then Piles([], [])
    else
      var n := |txs| - 1;
      var before := Sift(site, txs[..n]);
      if site.host.txHash(txs[n]) in HashesOf(site.host, txs[..n]) || Settled(site, txs[n])
      then before.(dropped := before.dropped + [txs[n]])
      else before.(kept := before.kept + [txs[n]])
  }

  ghost predicate DistinctTxs(host: Host, txs: seq<Envelope>) {
    forall i, j :: 0 <= i < j < |txs| ==> host.txHash(txs[i]) != host.txHash(txs[j])
  }

  lemma {:induction false} SiftDeals(site: Site, txs: seq<Envelope>)
    ensures var p := Sift(site, txs); Deals(txs, p.kept, p.dropped)
  {
    if txs != [] {
      var n := |txs| - 1;
      SiftDeals(site, txs[..n]);
      var before := Sift(site, txs[..n]);
      assert txs == txs[..n] + [txs[n]];
      DealA(txs[..n], before.kept, before.dropped, txs[n]);
      DealB(txs[..n], before.kept, before.dropped, txs[n]);
    }
  }

  lemma HashesOfAppend(host: Host, txs: seq<Envelope>, x: Envelope)
    ensures HashesOf(host, txs + [x]) == HashesOf(host, txs) + {host.txHash(x)}
  {
    var all := txs + [x];
    forall h ensures h in HashesOf(host, all) <==> h in HashesOf(host, txs) + {host.txHash(x)} {
      if h in HashesOf(host, txs) {
        var i :| 0 <= i < |txs| && host.txHash(txs[i]) == h;
        assert all[i] == txs[i];
      }
      assert all[|txs|] == x;
    }
  }

  ghost predicate Represented(site: Site, e: Envelope, kept: seq<Envelope>) {
    Settled(site, e) || site.host.txHash(e) in HashesOf(site.host, kept)
  }

  lemma {:induction false} SiftCovers(site: Site, txs: seq<Envelope>)
    ensures forall e :: e in txs ==> Represented(site, e, Sift(site, txs).kept)
  {
    if txs != [] {
      hide HashesOf, Settled;
      var n := |txs| - 1;
      SiftCovers(site, txs[..n]);
      var p, before := Sift(site, txs), Sift(site, txs[..n]);
      HashesOfAppend(site.host, before.kept, txs[n]);
      forall e | e in txs ensures Represented(site, e, p.kept) {
        if e in txs[..n] {
          assert Represented(site, e, before.kept);
        } else if site.host.txHash(txs[n]) in HashesOf(site.host, txs[..n]) {
          CopyIsRepresented(site, txs[..n], before.kept, txs[n]);
        }
      }
    }
  }

  lemma CopyIsRepresented(site: Site, txs: seq<Envelope>, kept: seq<Envelope>, copy: Envelope)
    requires forall e :: e in txs ==> Represented(site, e, kept)
    requires site.host.txHash(copy) in HashesOf(site.host, txs)
    ensures Represented(site, copy, kept)
  {
    var j :| 0 <= j < |txs| && site.host.txHash(txs[j]) == site.host.txHash(copy);
    assert Represented(site, txs[j], kept);
  }

  lemma {:induction false} SiftIsUnique(site: Site, txs: seq<Envelope>)
    ensures var p := Sift(site, txs);
            DistinctTxs(site.host, p.kept) && HashesOf(site.host, p.kept) <= HashesOf(site.host, txs)
  {
    if txs != [] {
      hide Settled;
      var n := |txs| - 1;
      SiftIsUnique(site, txs[..n]);
      assert txs == txs[..n] + [txs[n]];
      HashesOfAppend(site.host, txs[..n], txs[n]);
      HashesOfAppend(site.host, Sift(site, txs[..n]).kept, txs[n]);
      var kept := Sift(site, txs[..n]).kept;
      assert forall i :: 0 <= i < |kept| ==> site.host.txHash(kept[i]) in HashesOf(site.host, kept);
    }
  }

  // What stays is new to the chain and unique; what goes is settled, or a copy of one that stays.
  lemma {:induction false} SiftKeepsOneOfEach(site: Site, txs: seq<Envelope>)
    ensures var p := Sift(site, txs);
            && DistinctTxs(site.host, p.kept)
            && (forall e :: e in p.kept ==> !Settled(site, e))
            && (forall e :: e in txs ==> Represented(site, e, p.kept))
  {
    SiftIsUnique(site, txs);
    SiftCovers(site, txs);
    SiftIsUnsettled(site, txs);
  }

  lemma {:induction false} SiftIsUnsettled(site: Site, txs: seq<Envelope>)
    ensures forall e :: e in Sift(site, txs).kept ==> !Settled(site, e)
  {
    if txs != [] {
      SiftIsUnsettled(site, txs[..|txs| - 1]);
    }
  }

  // ----- selection

  function KeepStep(site: Site, before: Piles, env: Envelope): Piles {
    if BlockTxsOk(site, before.kept + [env]) then Piles(before.kept + [env], before.dropped)
    else Piles(before.kept, before.dropped + [env])
  }

  ghost function KeepOneByOne(site: Site, txs: seq<Envelope>): Piles {
    if txs == [] then Piles([], [])
    else KeepStep(site, KeepOneByOne(site, txs[..|txs| - 1]), txs[|txs| - 1])
  }

  datatype Selection = Selection(kept: seq<Envelope>, later: seq<Envelope>, refused: seq<Envelope>)

  ghost function Select(site: Site, txs: seq<Envelope>): Selection {
    if BlockTxsOk(site, txs) then Selection(txs, [], [])
    else
      var cut := if |txs| > SELECT_ONE_BY_ONE_MAX then SELECT_ONE_BY_ONE_MAX else |txs|;
      var p := KeepOneByOne(site, txs[..cut]);
      Selection(p.kept, txs[cut..], p.dropped)
  }

  // A refused transaction breaks the block that had been kept when it was looked at.
  ghost predicate BreaksSomePrefix(site: Site, kept: seq<Envelope>, bad: Envelope) {
    exists k :: 0 <= k <= |kept| && !BlockTxsOk(site, kept[..k] + [bad])
  }

  lemma BreaksLongerToo(site: Site, kept: seq<Envelope>, x: Envelope, bad: Envelope)
    requires BreaksSomePrefix(site, kept, bad)
    ensures BreaksSomePrefix(site, kept + [x], bad)
  {
    hide BlockTxsOk;
    var k :| 0 <= k <= |kept| && !BlockTxsOk(site, kept[..k] + [bad]);
    assert (kept + [x])[..k] == kept[..k];
  }

  lemma BreaksTheWhole(site: Site, kept: seq<Envelope>, bad: Envelope)
    requires !BlockTxsOk(site, kept + [bad])
    ensures BreaksSomePrefix(site, kept, bad)
  {
    hide BlockTxsOk;
    assert kept[..|kept|] == kept;
  }

  lemma StepDeals(site: Site, txs: seq<Envelope>, before: Piles, env: Envelope)
    requires Deals(txs, before.kept, before.dropped) && (before.kept == [] || BlockTxsOk(site, before.kept))
    ensures var p := KeepStep(site, before, env);
            Deals(txs + [env], p.kept, p.dropped) && (p.kept == [] || BlockTxsOk(site, p.kept))
  {
    hide BlockTxsOk, Deals;
    DealA(txs, before.kept, before.dropped, env);
    DealB(txs, before.kept, before.dropped, env);
  }

  lemma {:induction false} OneByOneDeals(site: Site, txs: seq<Envelope>)
    ensures var p := KeepOneByOne(site, txs);
            Deals(txs, p.kept, p.dropped) && (p.kept == [] || BlockTxsOk(site, p.kept))
  {
    hide BlockTxsOk, Deals, KeepStep;
    if txs == [] {
      NothingDealt();
    } else {
      var n := |txs| - 1;
      OneByOneDeals(site, txs[..n]);
      assert txs == txs[..n] + [txs[n]];
      StepDeals(site, txs[..n], KeepOneByOne(site, txs[..n]), txs[n]);
    }
  }

  ghost predicate AllBreak(site: Site, p: Piles) {
    forall e :: e in p.dropped ==> BreaksSomePrefix(site, p.kept, e)
  }

  lemma StepKeepsAllBreaking(site: Site, before: Piles, env: Envelope)
    requires AllBreak(site, before)
    ensures AllBreak(site, KeepStep(site, before, env))
  {
    hide BlockTxsOk, BreaksSomePrefix;
    var p := KeepStep(site, before, env);
    forall e | e in p.dropped ensures BreaksSomePrefix(site, p.kept, e) {
      if BlockTxsOk(site, before.kept + [env]) {
        BreaksLongerToo(site, before.kept, env, e);
      } else if e !in before.dropped {
        assert e == env;
        BreaksTheWhole(site, before.kept, env);
      }
    }
  }

  lemma {:induction false} RefusedAloneBreaks(site: Site, txs: seq<Envelope>)
    ensures AllBreak(site, KeepOneByOne(site, txs))
  {
    if txs != [] {
      hide AllBreak, KeepStep;
      RefusedAloneBreaks(site, txs[..|txs| - 1]);
      StepKeepsAllBreaking(site, KeepOneByOne(site, txs[..|txs| - 1]), txs[|txs| - 1]);
    }
  }

  /** Selection deals its input into the block with what is left for later, and the refused; the block
      is empty or valid, and each refused transaction makes some kept prefix invalid. */
  lemma SelectionIsValid(site: Site, txs: seq<Envelope>)
    ensures var s := Select(site, txs);
            && Deals(txs, s.kept + s.later, s.refused)
            && (s.kept == [] || BlockTxsOk(site, s.kept))
            && |s.refused| <= SELECT_ONE_BY_ONE_MAX
            && AllBreak(site, Piles(s.kept, s.refused))
  {
    hide BlockTxsOk, BreaksSomePrefix, Deals, KeepOneByOne;
    if BlockTxsOk(site, txs) {
      NothingDealt();
      DealRest([], [], [], txs);
      assert [] + txs == txs && txs + [] == txs;
    } else {
      var cut := if |txs| > SELECT_ONE_BY_ONE_MAX then SELECT_ONE_BY_ONE_MAX else |txs|;
      OneByOneDeals(site, txs[..cut]);
      RefusedAloneBreaks(site, txs[..cut]);
      var p := KeepOneByOne(site, txs[..cut]);
      DealtPilesAddUp(txs[..cut], p.kept, p.dropped);
      DealRest(txs[..cut], p.kept, p.dropped, txs[cut..]);
      assert txs == txs[..cut] + txs[cut..];
    }
  }

  // ----- requeueing

  // What `requeue_txs_front` puts before `mempool`.
  ghost function Front(host: Host, txs: seq<Envelope>, mempool: seq<Envelope>): seq<Envelope> {
    if txs == [] then []
    else
      var n := |txs| - 1;
      var front := Front(host, txs[..n], mempool);
      var h := host.txHash(txs[n]);
      if h.None? || h in HashesOf(host, mempool) || h in HashesOf(host, front) then front else front + [txs[n]]
  }

  /** A valid whole is taken whole; otherwise only what lies past the first 256 is put off, and of those each is taken
      or refused. */
  lemma SelectionIsMaximal(site: Site, txs: seq<Envelope>)
    ensures var s := Select(site, txs);
            if BlockTxsOk(site, txs) then s == Selection(txs, [], [])
            else && (|txs| <= 256 ==> s.later == []) && (|txs| > 256 ==> s.later == txs[256..])
                 && |s.kept| + |s.refused| + |s.later| == |txs|
  {
    hide BlockTxsOk, KeepOneByOne, Deals, AllBreak;
    SelectionIsValid(site, txs);
    DealtPilesAddUp(txs, Select(site, txs).kept + Select(site, txs).later, Select(site, txs).refused);
  }

  // Nothing requeued is lost: it is at the front, or a copy of it was already waiting.
  lemma {:induction false} FrontLosesNothing(host: Host, txs: seq<Envelope>, mempool: seq<Envelope>)
    requires Hashable(host, txs)
    ensures var front := Front(host, txs, mempool);
            && (forall e :: e in front ==> e in txs)
            && HashesOf(host, front) <= HashesOf(host, txs)
            && forall e :: e in txs ==>
                 host.txHash(e) in HashesOf(host, front) || host.txHash(e) in HashesOf(host, mempool)
  {
    if txs != [] {
      var n := |txs| - 1;
      FrontLosesNothing(host, txs[..n], mempool);
      assert txs == txs[..n] + [txs[n]];
      HashesOfAppend(host, txs[..n], txs[n]);
      HashesOfAppend(host, Front(host, txs[..n], mempool), txs[n]);
      assert txs[n] in txs;
    }
  }

  // With no copies about, all of it goes back in order.
  lemma {:induction false} FrontIsEverything(host: Host, txs: seq<Envelope>, mempool: seq<Envelope>)
    requires Hashable(host, txs) && DistinctTxs(host, txs + mempool)
    ensures Front(host, txs, mempool) == txs
  {
    if txs != [] {
      var n := |txs| - 1;
      var all := txs + mempool;
      forall i, j | 0 <= i < j < |txs[..n] + mempool|
        ensures host.txHash((txs[..n] + mempool)[i]) != host.txHash((txs[..n] + mempool)[j])
      {
        var i', j' := if i < n then i else i + 1, if j < n then j else j + 1;
        assert all[i'] == (txs[..n] + mempool)[i] && all[j'] == (txs[..n] + mempool)[j];
      }
      FrontIsEverything(host, txs[..n], mempool);
      assert all[n] == txs[n];
      forall j | 0 <= j < |mempool| ensures host.txHash(mempool[j]) != host.txHash(txs[n]) {
        assert all[|txs| + j] == mempool[j];
      }
      forall j | 0 <= j < n ensures host.txHash(txs[..n][j]) != host.txHash(txs[n]) {
        assert all[j] == txs[..n][j];
      }
      assert txs == txs[..n] + [txs[n]];
    }
  }

  // ----- the round

  datatype AfterFailure = Requeue | Drop

  function FateOf(nothingWritten: bool, failuresInARow: nat, batchLen: nat): AfterFailure {
    if !nothingWritten then Drop
    else if batchLen > 1 || failuresInARow < PRE_APPLY_REQUEUE_MAX then Requeue
    else Drop
  }

  // How building and applying the block went; storage and the clock decide, so any of the three may happen.
  datatype Build = Built | NothingWritten | MaybeWritten

  datatype Plan = Plan(block: seq<Envelope>, later: seq<Envelope>, refused: seq<Envelope>, stale: seq<Envelope>)

  ghost function PlanRound(site: Site, mempool: seq<Envelope>, failures: nat): Plan {
    var clean := Sift(site, mempool);
    var chosen := Select(site, clean.kept);
    if failures > 0 && |chosen.kept| > 1 then
      Plan(chosen.kept[..1], chosen.kept[1..] + chosen.later, chosen.refused, clean.dropped)
    else
      Plan(chosen.kept, chosen.later, chosen.refused, clean.dropped)
  }

  /** Every transaction of the mempool is stale, refused, in the block or waiting, and the block and
      those waiting are together in mempool order. */
  lemma PlanPartitions(site: Site, mempool: seq<Envelope>, failures: nat)
    ensures var p := PlanRound(site, mempool, failures);
            && Deals(mempool, Sift(site, mempool).kept, p.stale)
            && Deals(Sift(site, mempool).kept, p.block + p.later, p.refused)
            && multiset(mempool) == multiset(p.block) + multiset(p.later) + multiset(p.refused) + multiset(p.stale)
            && |mempool| == |p.block| + |p.later| + |p.refused| + |p.stale|
            && (failures > 0 ==> |p.block| <= 1)
            && (failures == 0 ==> p.block == [] || BlockTxsOk(site, p.block))
            && (p.block == [] ==> p.later == Select(site, Sift(site, mempool).kept).later)
  {
    hide BlockTxsOk, Sift, Select, Deals, AllBreak;
    var clean := Sift(site, mempool);
    var chosen := Select(site, clean.kept);
    var p := PlanRound(site, mempool, failures);
    SiftDeals(site, mempool);
    DealtPilesAddUp(mempool, clean.kept, clean.dropped);
    SelectionIsValid(site, clean.kept);
    DealtPilesAddUp(clean.kept, chosen.kept + chosen.later, chosen.refused);
    assert chosen.kept + chosen.later == p.block + p.later;
  }

  // A round never idles: a mempool with only stale transactions or an empty block loses some of them.
  lemma EmptyBlockMeansProgress(site: Site, mempool: seq<Envelope>, failures: nat)
    requires mempool != []
    ensures var p := PlanRound(site, mempool, failures); p.block == [] ==> |p.later| < |mempool|
  {
    hide BlockTxsOk, Sift;
    PlanPartitions(site, mempool, failures);
    SelectionIsValid(site, Sift(site, mempool).kept);
    var clean := Sift(site, mempool).kept;
    if |clean| > 0 && Select(site, clean).kept == [] && !BlockTxsOk(site, clean) {
      var cut := if |clean| > SELECT_ONE_BY_ONE_MAX then SELECT_ONE_BY_ONE_MAX else |clean|;
      assert |Select(site, clean).later| == |clean| - cut;
    }
  }

  // ----- singling out the first of a valid batch

  lemma {:induction false} FlopsOfFirst(host: Host, txs: seq<Envelope>)
    requires txs != [] && FlopsOf(host, txs).Some?
    ensures FlopsOf(host, txs[..1]).Some?
    decreases |txs|
  {
    if |txs| > 1 {
      FlopsOfFirst(host, txs[..|txs| - 1]);
      assert txs[..|txs| - 1][..1] == txs[..1];
    } else {
      assert txs[..1] == txs;
    }
  }

  lemma FirstPreviews(host: Host, book: Book, now: nat, txs: seq<Envelope>, d: Draft)
    requires txs != [] && PreviewTxs(host, book, now, txs, d).Ok?
    ensures PreviewTxs(host, book, now, txs[..1], d) == PreviewTx(host, book, now, txs[0], d)
    ensures PreviewTx(host, book, now, txs[0], d).Ok?
  {
    hide PreviewTx;
    assert txs[..1][1..] == [];
  }

  lemma FirstZkClaimsOk(host: Host, core: Core, txs: seq<Envelope>)
    requires txs != [] && ZkClaimsOk(host, core, txs, {})
    ensures ZkClaimsOk(host, core, txs[..1], {})
  {
    assert txs[..1][0] == txs[0] && txs[..1][1..] == [];
    assert forall seen :: ZkClaimsOk(host, core, [], seen);
  }

  /** The first transaction of a valid batch makes a valid block alone exactly when the balances after it
      can pay that block's reward. */
  lemma FirstAloneIsValidIff(site: Site, txs: seq<Envelope>)
    requires txs != [] && BlockTxsOk(site, txs)
    ensures var first := PreviewTx(site.host, site.book, site.now, txs[0],
                                   Draft(site.core.balances, site.core.counters.airdrops));
            var reward := RewardForBlock(site.host, txs[..1]);
            && first.Ok? && reward.Some?
            && (BlockTxsOk(site, txs[..1])
                <==> ApplyReward(first.value.balances, site.producer, reward.value.total).Ok?)
  {
    hide PreviewTxs, PreviewTx, ZkClaimsOk, FlopsOf, ApplyReward;
    FlopsOfFirst(site.host, txs);
    FirstZkClaimsOk(site.host, site.core, txs);
    FirstPreviews(site.host, site.book, site.now, txs, Draft(site.core.balances, site.core.counters.airdrops));
  }

  datatype MinerState = MinerState(mempool: seq<Envelope>, failures: nat)

  // `early` arrives while the block is selected, `late` while it is built.
  ghost function Round(site: Site, s: MinerState, early: seq<Envelope>, build: Build, late: seq<Envelope>): MinerState {
    if !Authorised(site, s.mempool) then s.(mempool := s.mempool + early + late)
    else if !Hashable(site.host, s.mempool) then s.(mempool := early + late)
    else
      var p := PlanRound(site, s.mempool, s.failures);
      var waiting := Front(site.host, p.later, early) + early + late;
      match build
      case Built => MinerState(waiting, 0)
      case MaybeWritten => MinerState(waiting, 0)
      case NothingWritten =>
        if FateOf(true, s.failures + 1, |p.block|) == Requeue then
          MinerState(Front(site.host, p.block, waiting) + waiting, s.failures + 1)
        else
          MinerState(waiting, 0)
  }

  /** A producer that may not mine what is waiting takes nothing out and counts nothing, however a build would have
      gone: all that waited still waits, in order, before what arrived. */
  lemma BarredRound(site: Site, s: MinerState, early: seq<Envelope>, build: Build, late: seq<Envelope>)
    requires exists i :: 0 <= i < |s.mempool| && IsAiWorkload(s.mempool[i].tx)
    requires !CanMineAiWorkload(site.host, site.producer)
    ensures var t := Round(site, s, early, build, late);
            && |t.mempool| == |s.mempool| + |early| + |late| && t.mempool[..|s.mempool|] == s.mempool
            && t.mempool[|s.mempool|..] == early + late && t.failures == s.failures
  {
    hide PlanRound, Front, CanMineAiWorkload;
    assert !Authorised(site, s.mempool);
    assert s.mempool + early + late == s.mempool + (early + late);
  }

  ghost predicate RoundReady(site: Site, s: MinerState) {
    Authorised(site, s.mempool) && Hashable(site.host, s.mempool) && s.failures < PRE_APPLY_REQUEUE_MAX
  }

  lemma {:induction false} DealtFromDistinct(host: Host, whole: seq<Envelope>, a: seq<Envelope>, b: seq<Envelope>)
    requires Deals(whole, a, b) && DistinctTxs(host, whole)
    ensures DistinctTxs(host, a) && HashesOf(host, a) <= HashesOf(host, whole)
    decreases |whole|
  {
    if whole != [] {
      var n := |whole| - 1;
      HashesOfAppend(host, whole[..n], whole[n]);
      assert whole == whole[..n] + [whole[n]];
      if a != [] && a[|a| - 1] == whole[n] && Deals(whole[..n], a[..|a| - 1], b) {
        var m := |a| - 1;
        DealtFromDistinct(host, whole[..n], a[..m], b);
        HashesOfAppend(host, a[..m], a[m]);
        assert a == a[..m] + [a[m]];
        forall i, j | 0 <= i < j < |a| ensures host.txHash(a[i]) != host.txHash(a[j]) {
          assert a[i] == a[..m][i];
          if j < m {
            assert a[j] == a[..m][j];
          } else {
            assert host.txHash(a[i]) in HashesOf(host, a[..m]);
            var k :| 0 <= k < n && host.txHash(whole[..n][k]) == host.txHash(a[i]);
            assert whole[k] == whole[..n][k];
          }
        }
      } else {
        DealtFromDistinct(host, whole[..n], a, b[..|b| - 1]);
      }
    }
  }

  lemma PlanIsHashable(site: Site, s: MinerState)
    requires RoundReady(site, s)
    ensures var p := PlanRound(site, s.mempool, s.failures);
            Hashable(site.host, p.block + p.later) && DistinctTxs(site.host, p.block + p.later)
  {
    hide BlockTxsOk, PlanRound, Sift, Select, Authorised;
    var p := PlanRound(site, s.mempool, s.failures);
    PlanPartitions(site, s.mempool, s.failures);
    SiftKeepsOneOfEach(site, s.mempool);
    DealtFromDistinct(site.host, Sift(site, s.mempool).kept, p.block + p.later, p.refused);
    var all := p.block + p.later;
    forall i | 0 <= i < |all| ensures site.host.txHash(all[i]).Some? {
      assert all[i] in multiset(all);
      assert multiset(all) == multiset(p.block) + multiset(p.later);
      assert all[i] in multiset(s.mempool);
    }
  }

  /** With nothing arriving, a round leaves exactly what it did not take out, in the original order:
      the whole plan after a failed build that may retry, otherwise what was put off. */
  lemma QuietRound(site: Site, s: MinerState, build: Build)
    requires RoundReady(site, s)
    ensures var p := PlanRound(site, s.mempool, s.failures);
            var retry := build == NothingWritten && (|p.block| > 1 || s.failures + 1 < PRE_APPLY_REQUEUE_MAX);
            Round(site, s, [], build, []) ==
            if retry then MinerState(p.block + p.later, s.failures + 1) else MinerState(p.later, 0)
  {
    hide BlockTxsOk, PlanRound, DistinctTxs, Authorised;
    var p := PlanRound(site, s.mempool, s.failures);
    PlanIsHashable(site, s);
    DistinctTail(site.host, p.block, p.later);
    assert p.later + [] == p.later;
    FrontIsEverything(site.host, p.later, []);
    FrontIsEverything(site.host, p.block, p.later);
    assert Front(site.host, p.later, []) + [] + [] == p.later;
  }

  lemma DistinctTail(host: Host, a: seq<Envelope>, b: seq<Envelope>)
    requires DistinctTxs(host, a + b) && Hashable(host, a + b)
    ensures DistinctTxs(host, b) && Hashable(host, a) && Hashable(host, b)
  {
    forall i | 0 <= i < |b| ensures b[i] == (a + b)[|a| + i] {
    }
    forall i | 0 <= i < |a| ensures a[i] == (a + b)[i] {
    }
    forall i, j | 0 <= i < j < |b| ensures host.txHash(b[i]) != host.txHash(b[j]) {
      assert b[i] == (a + b)[|a| + i] && b[j] == (a + b)[|a| + j];
    }
  }

  /** Whatever arrives meanwhile, a transaction a failed build may retry is still waiting, or a copy of it is. */
  lemma FailedBuildLosesNoBatch(site: Site, s: MinerState, early: seq<Envelope>, late: seq<Envelope>, e: Envelope)
    requires RoundReady(site, s)
    requires var p := PlanRound(site, s.mempool, s.failures);
             e in p.later || (e in p.block && (|p.block| > 1 || s.failures + 1 < PRE_APPLY_REQUEUE_MAX))
    ensures site.host.txHash(e) in HashesOf(site.host, Round(site, s, early, NothingWritten, late).mempool)
  {
    hide BlockTxsOk, PlanRound, DistinctTxs, Authorised;
    var host := site.host;
    var p := PlanRound(site, s.mempool, s.failures);
    PlanIsHashable(site, s);
    DistinctTail(host, p.block, p.later);
    FrontLosesNothing(host, p.later, early);
    var front := Front(host, p.later, early);
    var waiting := front + early + late;
    HashesOfConcat(host, front, early);
    HashesOfConcat(host, front + early, late);
    FrontLosesNothing(host, p.block, waiting);
    HashesOfConcat(host, Front(host, p.block, waiting), waiting);
  }

  lemma HashesOfConcat(host: Host, a: seq<Envelope>, b: seq<Envelope>)
    ensures HashesOf(host, a) <= HashesOf(host, a + b) && HashesOf(host, b) <= HashesOf(host, a + b)
    ensures HashesOf(host, a + b) <= HashesOf(host, a) + HashesOf(host, b)
  {
    forall i | 0 <= i < |a| ensures a[i] == (a + b)[i] {
    }
    forall i | 0 <= i < |b| ensures b[i] == (a + b)[|a| + i] {
    }
  }

  // ----- draining a backlog

  function Backlog(s: MinerState): int {
    3 * |s.mempool| - s.failures
  }

  ghost predicate Below(s: MinerState, t: MinerState) {
    multiset(s.mempool) <= multiset(t.mempool)
  }

  /** Whatever the build does, a quiet round over a non-empty mempool makes progress. */
  lemma QuietRoundProgresses(site: Site, s: MinerState, build: Build)
    requires RoundReady(site, s)
    ensures var t := Round(site, s, [], build, []);
            && t.failures < PRE_APPLY_REQUEUE_MAX
            && Below(t, s)
            && (s.mempool != [] ==> Backlog(t) < Backlog(s))
            && (s.mempool == [] ==> t.mempool == [])
  {
    hide BlockTxsOk, PlanRound, Authorised, Round;
    var p := PlanRound(site, s.mempool, s.failures);
    PlanPartitions(site, s.mempool, s.failures);
    QuietRound(site, s, build);
    if s.mempool != [] {
      EmptyBlockMeansProgress(site, s.mempool, s.failures);
    }
  }

  lemma BelowStaysReady(site: Site, s: MinerState, t: MinerState)
    requires RoundReady(site, t) && Below(s, t) && s.failures < PRE_APPLY_REQUEUE_MAX
    ensures RoundReady(site, s)
  {
    forall e | e in s.mempool ensures e in t.mempool {
      assert e in multiset(s.mempool);
      assert e in multiset(t.mempool);
    }
    forall i | 0 <= i < |s.mempool| ensures site.host.txHash(s.mempool[i]).Some? {
      assert s.mempool[i] in t.mempool;
    }
    if ContainsAiWorkload(s.mempool) {
      var i :| 0 <= i < |s.mempool| && IsAiWorkload(s.mempool[i].tx);
      assert s.mempool[i] in t.mempool;
    }
  }

  ghost function Rounds(sites: seq<Site>, s: MinerState, builds: seq<Build>): MinerState
    requires |sites| == |builds|
  {
    if sites == [] then s
    else Rounds(sites[1..], Round(sites[0], s, [], builds[0], []), builds[1..])
  }

  ghost predicate AllReady(sites: seq<Site>, s: MinerState) {
    forall i :: 0 <= i < |sites| ==> RoundReady(sites[i], s)
  }

  lemma {:induction false} BacklogRunsOut(sites: seq<Site>, s: MinerState, builds: seq<Build>)
    requires |sites| == |builds| && AllReady(sites, s) && s.failures < PRE_APPLY_REQUEUE_MAX
    requires |sites| >= Backlog(s)
    ensures Rounds(sites, s, builds).mempool == []
    decreases |sites|
  {
    hide Round, RoundReady;
    if sites == [] {
      assert s.mempool == [];
    } else {
      var t := Round(sites[0], s, [], builds[0], []);
      QuietRoundProgresses(sites[0], s, builds[0]);
      forall i | 0 <= i < |sites[1..]| ensures RoundReady(sites[1..][i], t) {
        assert RoundReady(sites[i + 1], s);
        BelowStaysReady(sites[i + 1], t, s);
      }
      if s.mempool == [] {
        EmptyStaysEmpty(sites[1..], t, builds[1..]);
      } else {
        BacklogRunsOut(sites[1..], t, builds[1..]);
      }
    }
  }

  lemma {:induction false} EmptyStaysEmpty(sites: seq<Site>, s: MinerState, builds: seq<Build>)
    requires |sites| == |builds| && AllReady(sites, s) && s.failures < PRE_APPLY_REQUEUE_MAX && s.mempool == []
    ensures Rounds(sites, s, builds).mempool == []
    decreases |sites|
  {
    hide Round, RoundReady;
    if sites != [] {
      var t := Round(sites[0], s, [], builds[0], []);
      QuietRoundProgresses(sites[0], s, builds[0]);
      forall i | 0 <= i < |sites[1..]| ensures RoundReady(sites[1..][i], t) {
        assert RoundReady(sites[i + 1], s);
        BelowStaysReady(sites[i + 1], t, s);
      }
      EmptyStaysEmpty(sites[1..], t, builds[1..]);
    }
  }

  /** n transactions are gone within 3n quiet rounds, whatever the ledger does between them and
      whichever builds fail. */
  lemma MempoolDrains(sites: seq<Site>, s: MinerState, builds: seq<Build>)
    requires |sites| == |builds| && AllReady(sites, s) && s.failures < PRE_APPLY_REQUEUE_MAX
    requires |sites| >= 3 * |s.mempool|
    ensures Rounds(sites, s, builds).mempool == []
  {
    BacklogRunsOut(sites, s, builds);
  }

  // ----- three failures in a row

  // A sole transaction is dropped by a build that wrote nothing exactly at the third failure.
  lemma DropsOnlyAtTheThirdFailure(site: Site, s: MinerState)
    requires RoundReady(site, s)
    ensures var p := PlanRound(site, s.mempool, s.failures);
            var t := Round(site, s, [], NothingWritten, []);
            && (t.mempool == p.block + p.later <==> p.block == [] || s.failures + 1 < PRE_APPLY_REQUEUE_MAX)
            && (t.mempool != p.block + p.later ==> |p.block| == 1 && t.mempool == p.later)
  {
    hide BlockTxsOk, PlanRound, Round, Authorised, Hashable;
    PlanPartitions(site, s.mempool, s.failures);
    QuietRound(site, s, NothingWritten);
  }

  datatype Turn = Turn(site: Site, early: seq<Envelope>, build: Build, late: seq<Envelope>)

  ghost function Turns(turns: seq<Turn>, s: MinerState): MinerState {
    if turns == [] then s
    else
      var n := |turns| - 1;
      Round(turns[n].site, Turns(turns[..n], s), turns[n].early, turns[n].build, turns[n].late)
  }

  // Every turn gets as far as building: nothing waiting is unhashable or barred to this producer.
  ghost predicate EveryTurnBuilds(turns: seq<Turn>, s: MinerState) {
    turns != [] ==>
      var n := |turns| - 1;
      var before := Turns(turns[..n], s);
      EveryTurnBuilds(turns[..n], s) && Authorised(turns[n].site, before.mempool)
          && Hashable(turns[n].site.host, before.mempool)
  }

  // How many builds have failed in a row, up to the last.
  function Streak(turns: seq<Turn>): nat {
    if turns == [] || turns[|turns| - 1].build != NothingWritten then 0 else Streak(turns[..|turns| - 1]) + 1
  }

  lemma RoundCountsOne(site: Site, s: MinerState, early: seq<Envelope>, build: Build, late: seq<Envelope>)
    requires RoundReady(site, s)
    ensures Round(site, s, early, build, late).failures
         == if build == NothingWritten then (s.failures + 1) % PRE_APPLY_REQUEUE_MAX else 0
  {
    hide BlockTxsOk, Front, PlanRound, Hashable, Authorised, Deals, Sift, Select;
    PlanPartitions(site, s.mempool, s.failures);
  }

  lemma LastTurn(turns: seq<Turn>, s: MinerState)
    requires turns != [] && EveryTurnBuilds(turns, s)
    ensures var n := |turns| - 1;
            var last, before := turns[n], Turns(turns[..n], s);
            && EveryTurnBuilds(turns[..n], s)
            && Authorised(last.site, before.mempool) && Hashable(last.site.host, before.mempool)
            && Turns(turns, s) == Round(last.site, before, last.early, last.build, last.late)
  {
    hide Round, Hashable, Authorised;
  }

  lemma NoTurns(s: MinerState)
    ensures Turns([], s) == s && Streak([]) == 0
  {
  }

  lemma StreakNext(turns: seq<Turn>)
    requires turns != []
    ensures turns[|turns| - 1].build == NothingWritten ==> Streak(turns) == Streak(turns[..|turns| - 1]) + 1
    ensures turns[|turns| - 1].build != NothingWritten ==> Streak(turns) == 0
  {
  }

  lemma NextModThree(k: nat)
    ensures (k + 1) % 3 == (k % 3 + 1) % 3
  {
  }

  lemma StreakGrows(turns: seq<Turn>)
    requires turns != []
    ensures Streak(turns) % PRE_APPLY_REQUEUE_MAX
         == if turns[|turns| - 1].build == NothingWritten
            then (Streak(turns[..|turns| - 1]) % PRE_APPLY_REQUEUE_MAX + 1) % PRE_APPLY_REQUEUE_MAX else 0
  {
    hide Streak;
    StreakNext(turns);
    NextModThree(Streak(turns[..|turns| - 1]));
  }

  /** The counter is the number of builds that failed in a row, starting again at every third. */
  lemma {:induction false} FailuresCountTheStreak(turns: seq<Turn>, s: MinerState)
    requires s.failures == 0 && EveryTurnBuilds(turns, s)
    ensures Turns(turns, s).failures == Streak(turns) % PRE_APPLY_REQUEUE_MAX
  {
    hide Round, Hashable, Authorised, EveryTurnBuilds, Turns, Streak;
    if turns == [] {
      NoTurns(s);
    } else {
      var n := |turns| - 1;
      LastTurn(turns, s);
      FailuresCountTheStreak(turns[..n], s);
      StreakGrows(turns);
      RoundCountsOne(turns[n].site, Turns(turns[..n], s), turns[n].early, turns[n].build, turns[n].late);
    }
  }

  // ----- dropped after failing alone twice

  lemma SiftKeepsBoth(site: Site, a: Envelope, b: Envelope)
    requires site.host.txHash(a) != site.host.txHash(b) && !Settled(site, a) && !Settled(site, b)
    ensures Sift(site, [a, b]) == Piles([a, b], [])
  {
    hide Settled;
    var both, one := [a, b], [a];
    assert both[..1] == one && one[..0] == [];
    assert HashesOf(site.host, []) == {};
    HashesOfAppend(site.host, [], a);
    assert [] + one == one && one + [b] == both;
    assert Sift(site, []) == Piles([], []);
    assert Sift(site, one) == Piles(one, []);
  }

  lemma ValidPairPlan(site: Site, a: Envelope, b: Envelope, failures: nat)
    requires site.host.txHash(a) != site.host.txHash(b) && !Settled(site, a) && !Settled(site, b)
    requires BlockTxsOk(site, [a, b])
    ensures PlanRound(site, [a, b], failures)
        == if failures > 0 then Plan([a], [b], [], []) else Plan([a, b], [], [], [])
  {
    hide BlockTxsOk, Settled, Sift;
    SiftKeepsBoth(site, a, b);
    assert [a, b][..1] == [a] && [a, b][1..] == [b] && [b] + [] == [b];
  }

  lemma FailedPairRound(site: Site, a: Envelope, b: Envelope, failures: nat)
    requires RoundReady(site, MinerState([a, b], failures))
    requires site.host.txHash(a) != site.host.txHash(b) && !Settled(site, a) && !Settled(site, b)
    requires BlockTxsOk(site, [a, b])
    ensures Round(site, MinerState([a, b], failures), [], NothingWritten, [])
         == if failures < 2 then MinerState([a, b], failures + 1) else MinerState([b], 0)
  {
    hide BlockTxsOk, Settled, PlanRound, Round, Hashable, Authorised;
    ValidPairPlan(site, a, b, failures);
    QuietRound(site, MinerState([a, b], failures), NothingWritten);
    assert [a, b] + [] == [a, b] && [a] + [b] == [a, b];
  }

  /** Two transactions that are a valid block together: when their batch fails to build and then the first,
      alone, fails twice, it is dropped, having failed alone fewer than three times. */
  lemma DroppedAfterTwoAlone(site: Site, a: Envelope, b: Envelope)
    requires RoundReady(site, MinerState([a, b], 0))
    requires site.host.txHash(a) != site.host.txHash(b) && !Settled(site, a) && !Settled(site, b)
    requires BlockTxsOk(site, [a, b])
    ensures PlanRound(site, [a, b], 0).block == [a, b] && PlanRound(site, [a, b], 1).block == [a]
    ensures var failed := Turn(site, [], NothingWritten, []);
            && Turns([failed], MinerState([a, b], 0)) == MinerState([a, b], 1)
            && Turns([failed, failed], MinerState([a, b], 0)) == MinerState([a, b], 2)
            && Turns([failed, failed, failed], MinerState([a, b], 0)) == MinerState([b], 0)
  {
    hide BlockTxsOk, Settled, PlanRound, Round, Hashable, Authorised;
    ValidPairPlan(site, a, b, 0);
    ValidPairPlan(site, a, b, 1);
    var s0, f := MinerState([a, b], 0), Turn(site, [], NothingWritten, []);
    FailedPairRound(site, a, b, 0);
    FailedPairRound(site, a, b, 1);
    FailedPairRound(site, a, b, 2);
    assert [f][..0] == [] && [f, f][..1] == [f] && [f, f, f][..2] == [f, f];
    assert Turns([], s0) == s0;
  }

  // ----- the miner

  predicate Waits(host: Host, txs: seq<Envelope>, h: string) {
    exists i :: 0 <= i < |txs| && host.txHash(txs[i]) == Some(h)
  }

  // None when a transaction cannot be hashed: the drained mempool is then gone.
  method DropStale(site: Site, txs: seq<Envelope>) returns (kept: Option<seq<Envelope>>)
    ensures kept == if Hashable(site.host, txs) then Some(Sift(site, txs).kept) else None
  {
    var seen: set<string>, clean := {}, [];
    for i := 0 to |txs|
      invariant clean == Sift(site, txs[..i]).kept
      invariant Hashable(site.host, txs[..i])
      invariant forall h :: h in seen <==> Some(h) in HashesOf(site.host, txs[..i])
    {
      var h := site.host.txHash(txs[i]);
      if h.None? {
        return None;
      }
      assert txs[..i + 1] == txs[..i] + [txs[i]];
      assert txs[..i + 1][..i] == txs[..i];
      HashesOfAppend(site.host, txs[..i], txs[i]);
      if h.value !in seen && !Settled(site, txs[i]) {
        clean := clean + [txs[i]];
      }
      seen := seen + {h.value};
    }
    assert txs[..|txs|] == txs;
    kept := Some(clean);
  }

  method SelectBlockTxs(site: Site, txs: seq<Envelope>) returns (kept: seq<Envelope>, later: seq<Envelope>)
    ensures var s := Select(site, txs); kept == s.kept && later == s.later
  {
    hide BlockTxsOk;
    if BlockTxsOk(site, txs) {
      return txs, [];
    }
    var cut := if |txs| > SELECT_ONE_BY_ONE_MAX then SELECT_ONE_BY_ONE_MAX else |txs|;
    later, kept := txs[cut..], [];
    var some := txs[..cut];
    for i := 0 to cut
      invariant kept == KeepOneByOne(site, some[..i]).kept
    {
      assert some[..i + 1][..i] == some[..i];
      kept := kept + [some[i]];
      if !BlockTxsOk(site, kept) {
        kept := kept[..|kept| - 1];
      }
    }
    assert some[..cut] == some;
  }

  class Miner {
    var mempool: seq<Envelope>
    var failures: nat

    ghost function State(): MinerState
      reads this
    {
      MinerState(mempool, failures)
    }

    method RequeueTxsFront(host: Host, txs: seq<Envelope>)
      modifies this`mempool
      ensures mempool == Front(host, txs, old(mempool)) + old(mempool)
    {
      var front := [];
      for i := 0 to |txs|
        invariant mempool == old(mempool) && front == Front(host, txs[..i], mempool)
      {
        assert txs[..i + 1][..i] == txs[..i];
        var h := host.txHash(txs[i]);
        if h.Some? && !Waits(host, mempool + front, h.value) {
          WaitsInEither(host, mempool, front, h.value);
          front := front + [txs[i]];
        } else if h.Some? {
          WaitsInEither(host, mempool, front, h.value);
        }
      }
      assert txs[..|txs|] == txs;
      mempool := front + mempool;
    }

    // The build's outcome and the arrivals while the mempool is unlocked are the environment's.
    method MinePendingBlockAs(site: Site, early: seq<Envelope>, build: Build, late: seq<Envelope>)
      modifies this
      ensures State() == Round(site, old(State()), early, build, late)
    {
      hide BlockTxsOk, Front, Sift, Select, Hashable;
      if ContainsAiWorkload(mempool) && !CanMineAiWorkload(site.host, site.producer) {
        mempool := mempool + early + late;
        return;
      }
      var taken := mempool;
      mempool := early;
      var clean := DropStale(site, taken);
      if clean.None? {
        mempool := mempool + late;
        return;
      }
      var txs, later := SelectBlockTxs(site, clean.value);
      if failures > 0 && |txs| > 1 {
        txs, later := txs[..1], txs[1..] + later;
      }
      RequeueTxsFront(site.host, later);
      mempool := mempool + late;
      match build
      case Built => failures := 0;
      case NothingWritten =>
        failures := failures + 1;
        if FateOf(true, failures, |txs|) == Requeue {
          RequeueTxsFront(site.host, txs);
        } else {
          failures := 0;
        }
      case MaybeWritten => failures := 0;
    }
  }

  lemma WaitsInEither(host: Host, a: seq<Envelope>, b: seq<Envelope>, h: string)
    ensures Waits(host, a + b, h) <==> Some(h) in HashesOf(host, a) || Some(h) in HashesOf(host, b)
  {
    HashesOfConcat(host, a, b);
    if Waits(host, a + b, h) {
      assert Some(h) in HashesOf(host, a + b);
    }
    if Some(h) in HashesOf(host, a + b) {
      assert Waits(host, a + b, h);
    }
  }
}
