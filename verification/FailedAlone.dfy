/** The third failure in a row: exactly when the transaction it drops has failed alone three times. */
module FailedAlone {
  import opened Protocol
  import opened Mining

  // The first dealt is the first of its pile.
  lemma {:induction false} DealtFirst(whole: seq<Envelope>, a: seq<Envelope>, b: seq<Envelope>)
    requires Deals(whole, a, b) && whole != []
    ensures (a != [] && a[0] == whole[0]) || (b != [] && b[0] == whole[0])
  {
    var n := |whole| - 1;
    if a != [] && a[|a| - 1] == whole[n] && Deals(whole[..n], a[..|a| - 1], b) {
      if n > 0 {
        DealtFirst(whole[..n], a[..|a| - 1], b);
      } else {
        assert |a[..|a| - 1]| == 0;
      }
    } else {
      assert b != [] && b[|b| - 1] == whole[n] && Deals(whole[..n], a, b[..|b| - 1]);
      if n > 0 {
        DealtFirst(whole[..n], a, b[..|b| - 1]);
      } else {
        assert |b[..|b| - 1]| == 0;
      }
    }
  }

  lemma {:induction false} SiftKeepsTheFirst(site: Site, txs: seq<Envelope>)
    requires txs != [] && !Settled(site, txs[0])
    ensures Sift(site, txs).kept != [] && Sift(site, txs).kept[0] == txs[0]
  {
    hide Settled;
    if |txs| > 1 {
      SiftKeepsTheFirst(site, txs[..|txs| - 1]);
    } else {
      assert txs[..0] == [] && HashesOf(site.host, txs[..0]) == {};
    }
  }

  lemma NoSecondCopy(host: Host, txs: seq<Envelope>, a: seq<Envelope>, b: seq<Envelope>)
    requires DistinctTxs(host, txs) && txs != [] && Deals(txs, a, b) && b != [] && b[0] == txs[0]
    ensures txs[0] !in a
  {
    hide Deals;
    DealtPilesAddUp(txs, a, b);
    assert txs == [txs[0]] + txs[1..];
    forall i | 0 <= i < |txs[1..]| ensures txs[1..][i] != txs[0] {
      assert txs[1..][i] == txs[i + 1];
    }
    assert multiset(txs)[txs[0]] == 1;
    assert b[0] in multiset(b);
  }

  lemma LaterIsNotFirst(host: Host, txs: seq<Envelope>, cut: nat)
    requires DistinctTxs(host, txs) && 0 < cut <= |txs|
    ensures txs[0] !in txs[cut..]
  {
    forall i | 0 <= i < |txs[cut..]| ensures txs[cut..][i] != txs[0] {
      assert txs[cut..][i] == txs[cut + i];
    }
  }

  lemma SelectedFirst(site: Site, txs: seq<Envelope>)
    requires DistinctTxs(site.host, txs) && txs != []
    ensures var c := Select(site, txs);
            txs[0] in c.kept + c.later ==> c.kept != [] && c.kept[0] == txs[0]
  {
    hide BlockTxsOk, Deals, KeepOneByOne, DistinctTxs;
    var c := Select(site, txs);
    SelectionIsValid(site, txs);
    DealtFirst(txs, c.kept + c.later, c.refused);
    if c.refused != [] && c.refused[0] == txs[0] {
      NoSecondCopy(site.host, txs, c.kept + c.later, c.refused);
    } else if !BlockTxsOk(site, txs) {
      LaterIsNotFirst(site.host, txs, if |txs| > SELECT_ONE_BY_ONE_MAX then SELECT_ONE_BY_ONE_MAX else |txs|);
    }
  }

  // After a failure, the first waiting transaction makes the block, unless it is stale or refused.
  lemma FirstMakesTheBlock(site: Site, mempool: seq<Envelope>, failures: nat)
    requires mempool != [] && failures > 0
    ensures var p := PlanRound(site, mempool, failures);
            mempool[0] in p.block + p.later ==> p.block == [mempool[0]]
  {
    hide BlockTxsOk, Sift, Select, Deals, Settled, DistinctTxs;
    var clean := Sift(site, mempool).kept;
    var p := PlanRound(site, mempool, failures);
    SiftIsUnique(site, mempool);
    PlanPartitions(site, mempool, failures);
    DealtPilesAddUp(clean, p.block + p.later, p.refused);
    if mempool[0] in p.block + p.later {
      assert mempool[0] in multiset(p.block + p.later) && mempool[0] in multiset(clean);
      SiftIsUnsettled(site, mempool);
      SiftKeepsTheFirst(site, mempool);
      SelectedFirst(site, clean);
      var c := Select(site, clean);
      assert p.block + p.later == c.kept + c.later;
    }
  }

  // ----- three failures in a row

  lemma {:induction false} FrontIsPart(host: Host, txs: seq<Envelope>, mempool: seq<Envelope>)
    ensures forall e :: e in Front(host, txs, mempool) ==> e in txs
  {
    if txs != [] {
      FrontIsPart(host, txs[..|txs| - 1], mempool);
    }
  }

  /** What a turn builds, and what its failing to leaves. */
  ghost function BlockOf(turn: Turn, s: MinerState): seq<Envelope> {
    PlanRound(turn.site, s.mempool, s.failures).block
  }

  ghost function Failed(turn: Turn, s: MinerState): MinerState {
    Round(turn.site, s, turn.early, NothingWritten, turn.late)
  }

  ghost function WaitingAfter(turn: Turn, s: MinerState): seq<Envelope> {
    Front(turn.site.host, PlanRound(turn.site, s.mempool, s.failures).later, turn.early) + turn.early + turn.late
  }

  lemma FailedIs(turn: Turn, s: MinerState)
    requires RoundReady(turn.site, s)
    ensures var block, waiting := BlockOf(turn, s), WaitingAfter(turn, s);
            Failed(turn, s) == if |block| > 1 || s.failures + 1 < PRE_APPLY_REQUEUE_MAX
                               then MinerState(Front(turn.site.host, block, waiting) + waiting, s.failures + 1)
                               else MinerState(waiting, 0)
  {
    hide PlanRound, Front, Authorised, Hashable;
  }

  lemma WaitingIsOf(turn: Turn, s: MinerState, e: Envelope)
    requires e in WaitingAfter(turn, s)
    ensures e in PlanRound(turn.site, s.mempool, s.failures).later || e in turn.early || e in turn.late
  {
    hide PlanRound, Front;
    FrontIsPart(turn.site.host, PlanRound(turn.site, s.mempool, s.failures).later, turn.early);
  }

  // Of two distinct piles, the hash of one's element is not among the other's.
  lemma NotAmongLater(host: Host, x: Envelope, later: seq<Envelope>, e: Envelope)
    requires DistinctTxs(host, [x] + later) && e in later
    ensures host.txHash(e) != host.txHash(x)
  {
    var i :| 0 <= i < |later| && later[i] == e;
    assert ([x] + later)[0] == x && ([x] + later)[i + 1] == e;
  }

  // No copy of the transaction arrives.
  ghost predicate NoCopy(turn: Turn, x: Envelope) {
    forall e :: e in turn.early + turn.late ==> turn.site.host.txHash(e) != turn.site.host.txHash(x)
  }

  lemma AloneIsNotWaiting(turn: Turn, s: MinerState, x: Envelope)
    requires RoundReady(turn.site, s) && BlockOf(turn, s) == [x] && NoCopy(turn, x)
    ensures turn.site.host.txHash(x).Some?
    ensures forall e :: e in WaitingAfter(turn, s) ==> turn.site.host.txHash(e) != turn.site.host.txHash(x)
  {
    hide PlanRound, Front, Authorised, DistinctTxs, WaitingAfter;
    var p := PlanRound(turn.site, s.mempool, s.failures);
    PlanIsHashable(turn.site, s);
    assert (p.block + p.later)[0] == x;
    forall e | e in WaitingAfter(turn, s) ensures turn.site.host.txHash(e) != turn.site.host.txHash(x) {
      WaitingIsOf(turn, s, e);
      if e in p.later {
        NotAmongLater(turn.site.host, x, p.later, e);
      }
    }
  }

  lemma FrontOfOne(host: Host, x: Envelope, waiting: seq<Envelope>)
    requires host.txHash(x).Some? && forall e :: e in waiting ==> host.txHash(e) != host.txHash(x)
    ensures Front(host, [x], waiting) == [x]
  {
    assert [x][..0] == [] && Front(host, [], waiting) == [];
    assert host.txHash(x) !in HashesOf(host, []);
    forall i | 0 <= i < |waiting| ensures host.txHash(waiting[i]) != host.txHash(x) {
      assert waiting[i] in waiting;
    }
  }

  // Failed alone and requeued, a transaction is first in line.
  lemma RequeuedIsFirst(turn: Turn, s: MinerState, x: Envelope)
    requires RoundReady(turn.site, s) && BlockOf(turn, s) == [x] && NoCopy(turn, x)
    requires s.failures + 1 < PRE_APPLY_REQUEUE_MAX
    ensures Failed(turn, s) == MinerState([x] + WaitingAfter(turn, s), s.failures + 1)
  {
    hide PlanRound, Front, Authorised, Failed, WaitingAfter, BlockOf;
    FailedIs(turn, s);
    AloneIsNotWaiting(turn, s, x);
    FrontOfOne(turn.site.host, x, WaitingAfter(turn, s));
  }

  // What waits after a failure without having arrived was in the plan.
  lemma WaitingWasPlanned(turn: Turn, s: MinerState, x: Envelope)
    requires RoundReady(turn.site, s) && x in Failed(turn, s).mempool && x !in turn.early + turn.late
    ensures var p := PlanRound(turn.site, s.mempool, s.failures); x in p.block + p.later
  {
    hide PlanRound, Front, Authorised, Failed;
    FailedIs(turn, s);
    FrontIsPart(turn.site.host, BlockOf(turn, s), WaitingAfter(turn, s));
    if x in WaitingAfter(turn, s) {
      WaitingIsOf(turn, s, x);
    }
  }

  /** Three builds fail in a row, on whatever ledgers and with whatever else arriving, and the last has a single
      transaction: it is dropped, and all three were that transaction alone exactly when the first was. */
  lemma DroppedAfterThreeAloneIff(a: Turn, b: Turn, c: Turn, s: MinerState, x: Envelope)
    requires s.failures == 0 && NoCopy(a, x) && x !in b.early + b.late && NoCopy(c, x)
    requires RoundReady(a.site, s) && RoundReady(b.site, Failed(a, s)) && RoundReady(c.site, Failed(b, Failed(a, s)))
    requires BlockOf(c, Failed(b, Failed(a, s))) == [x]
    ensures x !in Failed(c, Failed(b, Failed(a, s))).mempool && Failed(c, Failed(b, Failed(a, s))).failures == 0
    ensures BlockOf(a, s) == [x] && BlockOf(b, Failed(a, s)) == [x] <==> BlockOf(a, s) == [x]
  {
    hide PlanRound, Front, Authorised, Failed, WaitingAfter, RoundReady, NoCopy;
    var s1, s2 := Failed(a, s), Failed(b, Failed(a, s));
    FailedIs(a, s);
    FailedIs(b, s1);
    FailedIs(c, s2);
    AloneIsNotWaiting(c, s2, x);
    if BlockOf(a, s) == [x] {
      RequeuedIsFirst(a, s, x);
      assert s1.mempool[0] == x;
      InThePlan(c, s2, x);
      WaitingWasPlanned(b, s1, x);
      FirstMakesTheBlock(b.site, s1.mempool, s1.failures);
    }
  }

  lemma InThePlan(turn: Turn, s: MinerState, x: Envelope)
    requires x in BlockOf(turn, s)
    ensures x in s.mempool
  {
    hide PlanRound;
    var p := PlanRound(turn.site, s.mempool, s.failures);
    PlanPartitions(turn.site, s.mempool, s.failures);
    assert x in multiset(p.block);
    assert x in multiset(s.mempool);
  }
}
