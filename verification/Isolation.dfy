/** A valid batch whose first transaction makes no block alone: its reward is covered only once the second
    has paid the pool. After a failed build it is singled out, and dropped at the third failure. */
module Isolation {
  import opened Basics
  import opened Text
  import opened Fees
  import opened Protocol
  import opened BlockApply
  import opened Consensus
  import opened Undo
  import opened Mining

  function SealOf(e: Envelope): Option<string> {
    Some(e.seal)
  }

  const HOST: Host := Host(None, "burn", [], s => s, b => "root", SealOf, (h, p, r, t, q) => "id",
                           (i, j, r) => ZkOther, w => None, h => None, 5, f => 0)
  const BOOK: Book := Book([], None, 0, 0, map[])
  const CORE: Core := Core(map["x" := 100_000], Counters(0, 0, 0, 0, 0), map[], map[])
  const SITE: Site := Site(HOST, BOOK, CORE, 0, "p")
  const PROOF: Envelope := Envelope(VerifyZkProof("", [], "j", "r"), "s", "1")
  const TAXED: Envelope := Envelope(Transfer("x", "y", 100_000, TRANSFER_FEE_BPS_MIN), "x", "2")

  lemma Names()
    ensures Norm("x") == "x" && Norm("y") == "y" && Norm("p") == "p"
    ensures Trim("x") == "x" && Trim("y") == "y"
  {
    assert Trim("x") == "x" && Trim("y") == "y" && Trim("p") == "p";
    assert Lower("x") == "x" && Lower("y") == "y" && Lower("p") == "p";
  }

  lemma ProofPreviews(d: Draft)
    ensures PreviewTx(HOST, BOOK, 0, PROOF, d) == Ok(d)
  {
  }

  lemma TaxedPreviews(d: Draft)
    requires d.balances == CORE.balances
    ensures var r := PreviewTx(HOST, BOOK, 0, TAXED, d); r.Ok? && Get(r.value.balances, WORKER_POOL) >= 5
  {
    hide Norm, Trim;
    Names();
    assert |WORKER_POOL| == 64;
  }

  lemma RewardsAre(txs: seq<Envelope>)
    requires txs == [PROOF] || txs == [PROOF, TAXED]
    ensures RewardForBlock(HOST, txs) == Some(Reward(5, 0, 5))
    ensures ZkClaimsOk(HOST, CORE, txs, {})
  {
    assert FlopsOf(HOST, []) == Some(0);
    assert [PROOF, TAXED][..1] == [PROOF] && [PROOF][..0] == [];
    assert FlopsOf(HOST, [PROOF]) == Some(0);
    assert [PROOF][1..] == [] && [PROOF, TAXED][1..] == [TAXED] && [TAXED][1..] == [];
    assert ZkClaimsOk(HOST, CORE, [], {}) && ZkClaimsOk(HOST, CORE, [TAXED], {});
  }

  lemma Previews(d: Draft)
    requires d.balances == CORE.balances
    ensures PreviewTxs(HOST, BOOK, 0, [PROOF], d) == Ok(d)
    ensures PreviewTxs(HOST, BOOK, 0, [PROOF, TAXED], d) == PreviewTx(HOST, BOOK, 0, TAXED, d)
  {
    hide PreviewTx;
    ProofPreviews(d);
    TaxedPreviews(d);
    assert [PROOF][1..] == [] && [PROOF, TAXED][1..] == [TAXED] && [TAXED][1..] == [];
    assert [PROOF][0] == PROOF && [PROOF, TAXED][0] == PROOF && [TAXED][0] == TAXED;
    assert PreviewTxs(HOST, BOOK, 0, [TAXED], d) == PreviewTx(HOST, BOOK, 0, TAXED, d);
  }

  lemma RewardNeedsThePool(bal: map<string, nat>)
    ensures ApplyReward(bal, "p", 5).Ok? <==> Get(bal, WORKER_POOL) >= 5
  {
    hide Norm;
    Names();
    assert |WORKER_POOL| == 64 && |PROTOCOL_RESERVE| == 64 && |ECOSYSTEM| == 64;
  }

  /** Valid together, refused alone. */
  lemma AloneItFails()
    ensures BlockTxsOk(SITE, [PROOF, TAXED]) && !BlockTxsOk(SITE, [PROOF])
  {
    hide PreviewTx, PreviewTxs, RewardForBlock, ZkClaimsOk, ApplyReward;
    var d := Draft(CORE.balances, 0);
    RewardsAre([PROOF]);
    RewardsAre([PROOF, TAXED]);
    Previews(d);
    TaxedPreviews(d);
    RewardNeedsThePool(CORE.balances);
    RewardNeedsThePool(PreviewTx(HOST, BOOK, 0, TAXED, d).value.balances);
    assert |WORKER_POOL| == 64;
  }

  /** And the first of them is dropped after failing alone twice, once their batch has failed to build. */
  lemma DroppedHere()
    ensures var failed := Turn(SITE, [], NothingWritten, []);
            Turns([failed, failed, failed], MinerState([PROOF, TAXED], 0)) == MinerState([TAXED], 0)
  {
    hide BlockTxsOk, Round, Turns, PlanRound;
    AloneItFails();
    assert !ContainsAiWorkload([PROOF, TAXED]);
    DroppedAfterTwoAlone(SITE, PROOF, TAXED);
  }
}
