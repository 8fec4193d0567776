/** One reading of the clock against one reading for each transaction (tet-core/src/ledger.rs:1402-1517, 1649-1942):
    the laws of preview and apply hold for readings taken one by one, and no outcome is lost by taking one. */
module Clocks {
  import opened Basics
  import opened Text
  import opened Fees
  import opened Protocol
  import opened Locks
  import opened BlockApply
  import opened BlockLaws

  function PreviewTxsTimed(host: Host, book: Book, times: seq<nat>, txs: seq<Envelope>, d: Draft)
    : Result<Draft, LedgerError>
    requires |times| == |txs|
  {
    if txs == [] then Ok(d)
    else
      var d1 :- PreviewTx(host, book, times[0], txs[0], d);
      PreviewTxsTimed(host, book, times[1..], txs[1..], d1)
  }

  function PreviewBlockTimed(host: Host, book: Book, core: Core, times: seq<nat>, txs: seq<Envelope>, producer: string,
                             reward: nat): Result<map<string, nat>, LedgerError>
    requires |times| == |txs|
  {
    var d :- PreviewTxsTimed(host, book, times, txs, Draft(core.balances, core.counters.airdrops));
    ApplyReward(d.balances, producer, reward)
  }

  function ApplyTxsTimed(host: Host, book: Book, core: Core, times: seq<nat>, height: nat, txs: seq<Envelope>,
                         hashes: seq<string>, a: Acc): Result<Acc, LedgerError>
    requires |times| == |txs| == |hashes|
  {
    if txs == [] then Ok(a)
    else
      var a1 :- ApplyTx(host, book, core, times[0], height, txs[0], hashes[0], a);
      ApplyTxsTimed(host, book, core, times[1..], height, txs[1..], hashes[1..], a1)
  }

  function ApplyBlockTimed(host: Host, book: Book, core: Core, times: seq<nat>, height: nat, txs: seq<Envelope>,
                           hashes: seq<string>, producer: string, reward: nat): Result<Outcome, LedgerError>
    requires |times| == |txs|
  {
    if |txs| != |hashes| then Err(Invalid("txs/tx_hashes length mismatch"))
    else
      var a :- ApplyTxsTimed(host, book, core, times, height, txs, hashes, InitialAcc(core));
      var bal :- ApplyReward(a.balances, producer, reward);
      Ok(Outcome(Commit(core, height, a, bal, producer, reward), bal))
  }

  // ----- one reading for all

  lemma {:induction false} TimedTxsBetween(host: Host, book: Book, core: Core, lo: nat, times: seq<nat>, hi: nat,
                                           height: nat, txs: seq<Envelope>, hashes: seq<string>, a: Acc)
    requires |times| == |txs| == |hashes| && forall i :: 0 <= i < |times| ==> lo <= times[i] <= hi
    ensures var timed := ApplyTxsTimed(host, book, core, times, height, txs, hashes, a);
            && (timed.Ok? ==> ApplyTxs(host, book, core, hi, height, txs, hashes, a) == timed)
            && (ApplyTxs(host, book, core, lo, height, txs, hashes, a).Ok? ==>
                  ApplyTxs(host, book, core, lo, height, txs, hashes, a) == timed)
    decreases |txs|
  {
    hide ApplyTx, NoStricter;
    if txs != [] {
      LaterIsNoStricter(book, times[0], hi);
      LaterIsNoStricter(book, lo, times[0]);
      if ApplyTx(host, book, core, times[0], height, txs[0], hashes[0], a).Ok? {
        TxUnderLooserLocks(host, book, times[0], book, hi, core, height, txs[0], hashes[0], a);
        var a1 := ApplyTx(host, book, core, times[0], height, txs[0], hashes[0], a).value;
        TimedTxsBetween(host, book, core, lo, times[1..], hi, height, txs[1..], hashes[1..], a1);
      }
      if ApplyTx(host, book, core, lo, height, txs[0], hashes[0], a).Ok? {
        TxUnderLooserLocks(host, book, lo, book, times[0], core, height, txs[0], hashes[0], a);
      }
    }
  }

  /** Readings anywhere between two times: what applies under them applies the same at the later time alone, and
      what fails under them fails at the earlier time alone. Every outcome is one of a single reading. */
  lemma OneReadingSuffices(host: Host, book: Book, core: Core, lo: nat, times: seq<nat>, hi: nat, height: nat,
                           txs: seq<Envelope>, hashes: seq<string>, producer: string, reward: nat)
    requires |times| == |txs| && forall i :: 0 <= i < |times| ==> lo <= times[i] <= hi
    ensures var timed := ApplyBlockTimed(host, book, core, times, height, txs, hashes, producer, reward);
            && (timed.Ok? ==> ApplyBlock(host, book, core, hi, height, txs, hashes, producer, reward) == timed)
            && (timed.Err? ==> ApplyBlock(host, book, core, lo, height, txs, hashes, producer, reward).Err?)
  {
    hide ApplyTxs, ApplyTxsTimed, ApplyReward;
    if |txs| == |hashes| {
      TimedTxsBetween(host, book, core, lo, times, hi, height, txs, hashes, InitialAcc(core));
    }
  }

  lemma PreviewTxLater(host: Host, book: Book, t: nat, u: nat, env: Envelope, d: Draft)
    requires t <= u && PreviewTx(host, book, t, env, d).Ok?
    ensures PreviewTx(host, book, u, env, d) == PreviewTx(host, book, t, env, d)
  {
    hide TransferBalances, Charge, Norm, Trim, LockedSum, ApplyAirdrop;
    match env.tx
    case Transfer(f, _, _, _) => LockedSumShrinks(book, Norm(f), t, u);
    case FileFee(f, _, _, _) => LockedSumShrinks(book, Trim(f), t, u);
    case _ =>
  }

  lemma {:induction false} TimedPreviewBetween(host: Host, book: Book, lo: nat, times: seq<nat>, hi: nat,
                                               txs: seq<Envelope>, d: Draft)
    requires |times| == |txs| && forall i :: 0 <= i < |times| ==> lo <= times[i] <= hi
    ensures var timed := PreviewTxsTimed(host, book, times, txs, d);
            && (timed.Ok? ==> PreviewTxs(host, book, hi, txs, d) == timed)
            && (PreviewTxs(host, book, lo, txs, d).Ok? ==> PreviewTxs(host, book, lo, txs, d) == timed)
    decreases |txs|
  {
    hide PreviewTx;
    if txs != [] {
      if PreviewTx(host, book, times[0], txs[0], d).Ok? {
        PreviewTxLater(host, book, times[0], hi, txs[0], d);
        TimedPreviewBetween(host, book, lo, times[1..], hi, txs[1..], PreviewTx(host, book, times[0], txs[0], d).value);
      }
      if PreviewTx(host, book, lo, txs[0], d).Ok? {
        PreviewTxLater(host, book, lo, times[0], txs[0], d);
      }
    }
  }

  /** And every outcome of a preview is one of a single reading. */
  lemma OneReadingPreviews(host: Host, book: Book, core: Core, lo: nat, times: seq<nat>, hi: nat, txs: seq<Envelope>,
                           producer: string, reward: nat)
    requires |times| == |txs| && forall i :: 0 <= i < |times| ==> lo <= times[i] <= hi
    ensures var timed := PreviewBlockTimed(host, book, core, times, txs, producer, reward);
            && (timed.Ok? ==> PreviewBlock(host, book, core, hi, txs, producer, reward) == timed)
            && (timed.Err? ==> PreviewBlock(host, book, core, lo, txs, producer, reward).Err?)
  {
    hide PreviewTxs, PreviewTxsTimed, ApplyReward;
    TimedPreviewBetween(host, book, lo, times, hi, txs, Draft(core.balances, core.counters.airdrops));
  }

  // ----- preview and apply, reading by reading

  lemma {:induction false} TimedTxsApply(host: Host, book: Book, core: Core, ps: seq<nat>, qs: seq<nat>, height: nat,
                                         txs: seq<Envelope>, hashes: seq<string>, acc: Acc)
    requires |ps| == |qs| == |txs| == |hashes| && Fresh(core, hashes)
    requires forall i :: 0 <= i < |ps| ==> ps[i] <= qs[i]
    requires PreviewTxsTimed(host, book, ps, txs, DraftOf(acc)).Ok?
    ensures var applied := ApplyTxsTimed(host, book, core, qs, height, txs, hashes, acc);
            && applied != Err(InsufficientFunds)
            && (applied.Ok? <==> AllExtraChecks(host, core, txs))
            && (applied.Ok? ==> DraftOf(applied.value) == PreviewTxsTimed(host, book, ps, txs, DraftOf(acc)).value)
    decreases |txs|
  {
    hide ApplyTx, PreviewTx, ExtraChecks, DraftOf, NoStricter;
    if txs != [] {
      LaterIsNoStricter(book, ps[0], qs[0]);
      PreviewedTxApplies(host, book, ps[0], book, qs[0], core, height, txs[0], hashes[0], acc);
      assert AllExtraChecks(host, core, txs)
             <==> ExtraChecks(host, core, txs[0]) && AllExtraChecks(host, core, txs[1..]) by {
        assert txs == [txs[0]] + txs[1..];
      }
      if ExtraChecks(host, core, txs[0]) {
        var acc1 := ApplyTx(host, book, core, qs[0], height, txs[0], hashes[0], acc).value;
        TimedTxsApply(host, book, core, ps[1..], qs[1..], height, txs[1..], hashes[1..], acc1);
      }
    }
  }

  /** The law of preview and apply when each transaction's apply reads the clock no earlier than its preview did. */
  lemma TimedPreviewEqualsApply(host: Host, book: Book, core: Core, ps: seq<nat>, qs: seq<nat>, height: nat,
                                txs: seq<Envelope>, hashes: seq<string>, producer: string, reward: nat)
    requires |ps| == |qs| == |txs| == |hashes| && Fresh(core, hashes)
    requires forall i :: 0 <= i < |ps| ==> ps[i] <= qs[i]
    requires PreviewBlockTimed(host, book, core, ps, txs, producer, reward).Ok?
    ensures var applied := ApplyBlockTimed(host, book, core, qs, height, txs, hashes, producer, reward);
            && applied != Err(InsufficientFunds)
            && (applied.Ok? <==> AllExtraChecks(host, core, txs))
            && (applied.Ok? ==> applied.value.core.balances
                                == PreviewBlockTimed(host, book, core, ps, txs, producer, reward).value)
  {
    hide ApplyTxsTimed, PreviewTxsTimed, ApplyReward, Commit;
    TimedTxsApply(host, book, core, ps, qs, height, txs, hashes, InitialAcc(core));
    if ApplyBlockTimed(host, book, core, qs, height, txs, hashes, producer, reward).Ok? {
      TimedStoredBalances(host, book, core, qs, height, txs, hashes, producer, reward);
    }
  }

  lemma TimedStoredBalances(host: Host, book: Book, core: Core, times: seq<nat>, height: nat, txs: seq<Envelope>,
                            hashes: seq<string>, producer: string, reward: nat)
    requires |times| == |txs| && ApplyBlockTimed(host, book, core, times, height, txs, hashes, producer, reward).Ok?
    ensures var r := ApplyBlockTimed(host, book, core, times, height, txs, hashes, producer, reward).value;
            r.core.balances == r.balances
  {
    hide ApplyBlockTimed, ApplyBlock;
    var hi := Latest(times);
    OneReadingSuffices(host, book, core, 0, times, hi, height, txs, hashes, producer, reward);
    StoredBalancesAreTheMap(host, book, core, hi, height, txs, hashes, producer, reward);
  }

  function Latest(times: seq<nat>): (t: nat)
    ensures forall i :: 0 <= i < |times| ==> times[i] <= t
  {
    if times == [] then 0
    else
      var n := |times| - 1;
      assert forall i :: 0 <= i < n ==> times[i] == times[..n][i];
      var below := Latest(times[..n]);
      if times[n] > below then times[n] else below
  }
}
