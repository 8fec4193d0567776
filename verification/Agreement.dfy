/** What one node mines its equal accepts, and the two end in the same state. */
module Agreement {
  import opened Basics
  import opened Text
  import opened Protocol
  import opened Locks
  import opened BlockApply
  import opened BlockLaws
  import opened Caac
  import opened Clocks
  import opened Undo
  import opened Consensus
  import opened ChainRuns
  import opened Vetting

  // The block as it is gossiped.
  function Gossiped(b: BlockRecord): RemoteBlock {
    RemoteBlock(b.height, b.id, b.parent, b.producer, b.reward, b.root, b.txs)
  }

  /** What mining leaves unchecked: the miner leads the height under its own normalised id, nothing in the block was
      settled or is twice there, inference work has an attested miner, and the apply's own checks pass. */
  ghost predicate Honest(host: Host, s: Chain, b: BlockRecord) {
    && Norm(b.producer) == b.producer != "" && host.leader(b.height) == Some(b.producer)
    && Fresh(s.snap.core, b.hashes) && (forall i, j :: 0 <= i < j < |b.hashes| ==> b.hashes[i] != b.hashes[j])
    && (HasAiWorkload(b.txs) ==> IsPoc(host, b.producer))
    && AllExtraChecks(host, s.snap.core, b.txs)
    && (b.parent.Some? ==> Trim(b.parent.value) == b.parent.value != "")
  }

  lemma PreviewLater(host: Host, book: Book, core: Core, t: nat, u: nat, txs: seq<Envelope>, producer: string,
                     reward: nat)
    requires t <= u && PreviewBlock(host, book, core, t, txs, producer, reward).Ok?
    ensures PreviewBlock(host, book, core, u, txs, producer, reward)
         == PreviewBlock(host, book, core, t, txs, producer, reward)
  {
    hide PreviewBlock, PreviewBlockTimed;
    var times := seq(|txs|, _ => t);
    OneReadingPreviews(host, book, core, t, times, t, txs, producer, reward);
    OneReadingPreviews(host, book, core, t, times, u, txs, producer, reward);
  }

  lemma PlanIs(host: Host, book: Book, previewAt: nat, s: Chain, producer: string, txs: seq<Envelope>)
    requires MinePlan(host, book, previewAt, s, producer, txs).Ok?
    ensures var b := MinePlan(host, book, previewAt, s, producer, txs).value;
            && b.height == s.snap.core.counters.height + 1 && b.producer == producer && b.txs == txs && b.canonical
            && ParentIdForHeight(s.snap, b.height) == Ok(b.parent)
            && TxHashes(host, txs) == Some(b.hashes) && RewardForBlock(host, txs) == Some(b.reward)
            && ZkClaimsOk(host, s.snap.core, txs, {})
            && b.id == host.blockId(b.height, if b.parent.Some? then b.parent.value else "", b.root, b.hashes, producer)
            && b.weight == ProducerWeight(host, producer)
            && b.cumWeight == CumWeight(s.records, b.parent, b.weight)
            && var preview := PreviewBlock(host, book, s.snap.core, previewAt, txs, producer, b.reward.total);
               preview.Ok? && b.root == host.root(preview.value)
  {
    hide PreviewBlock, ZkClaimsOk, RewardForBlock, TxHashes, ParentIdForHeight, CumWeight, ProducerWeight;
  }

  lemma PlanIsVetted(host: Host, book: Book, previewAt: nat, s: Chain, producer: string, txs: seq<Envelope>)
    requires MinePlan(host, book, previewAt, s, producer, txs).Ok?
    requires Honest(host, s, MinePlan(host, book, previewAt, s, producer, txs).value)
    ensures var b := MinePlan(host, book, previewAt, s, producer, txs).value;
            Vetted(host, s.snap.core, Gossiped(b), b.parent, b.hashes) && FitsOn(s.snap, Gossiped(b), b.parent)
  {
    hide MinePlan, PreviewBlock, ZkClaimsOk, RewardForBlock, TxHashes, ClaimsAre, Earns, Hashed, Norm, Trim, CumWeight,
         ProducerWeight, HasAiWorkload, IsPoc, Fresh, AllExtraChecks;
    var b := MinePlan(host, book, previewAt, s, producer, txs).value;
    PlanIs(host, book, previewAt, s, producer, txs);
    ZkClaimsIff(host, s.snap.core, txs, {});
    RewardIff(host, txs, b.reward);
    TxHashesIff(host, txs, b.hashes);
  }

  lemma RowIsThePlan(host: Host, book: Book, previewAt: nat, s: Chain, producer: string, txs: seq<Envelope>)
    requires MinePlan(host, book, previewAt, s, producer, txs).Ok?
    requires Honest(host, s, MinePlan(host, book, previewAt, s, producer, txs).value)
    ensures var b := MinePlan(host, book, previewAt, s, producer, txs).value;
            RemoteRow(host, s, Gossiped(b)) == Ok(b)
  {
    hide MinePlan, PreviewBlock, Vetted, Norm, Trim, HasAiWorkload, IsPoc, Fresh, AllExtraChecks, WeightFromRecord,
         RemoteRow, ZkClaimsOk, RewardForBlock, TxHashes, ParentIdForHeight;
    var b := MinePlan(host, book, previewAt, s, producer, txs).value;
    PlanIs(host, book, previewAt, s, producer, txs);
    PlanIsVetted(host, book, previewAt, s, producer, txs);
    NextRowIff(host, s, Gossiped(b));
    var row := RemoteRow(host, s, Gossiped(b)).value;
    FitsOnce(s.snap, Gossiped(b), b.parent, row.parent);
    VettedIsHashed(host, s.snap.core, Gossiped(b), b.parent, b.hashes);
    VettedIsHashed(host, s.snap.core, Gossiped(b), row.parent, row.hashes);
    assert row.hashes == b.hashes;
  }

  lemma FitsOnce(snap: Snap, b: RemoteBlock, p: Option<string>, q: Option<string>)
    requires FitsOn(snap, b, p) && FitsOn(snap, b, q)
    ensures p == q
  {
    hide Trim, ParentIdForHeight;
  }

  /** Once previewed, a fresh block applies the same at any later time. */
  lemma AppliesTheSame(host: Host, book: Book, previewAt: nat, now: nat, later: nat, s: Chain, b: BlockRecord)
    requires previewAt <= now && previewAt <= later && |b.txs| == |b.hashes|
    requires Fresh(s.snap.core, b.hashes) && AllExtraChecks(host, s.snap.core, b.txs)
    requires PreviewBlock(host, book, s.snap.core, previewAt, b.txs, b.producer, b.reward.total).Ok?
    ensures ApplyBlock(host, book, s.snap.core, now, b.height, b.txs, b.hashes, b.producer, b.reward.total)
         == ApplyBlock(host, book, s.snap.core, later, b.height, b.txs, b.hashes, b.producer, b.reward.total)
  {
    hide ApplyBlock, PreviewBlock, NoStricter;
    PreviewEqualsApply(host, book, s.snap.core, previewAt, previewAt, b.height, b.txs, b.hashes, b.producer,
                       b.reward.total);
    LaterIsNoStricter(book, previewAt, now);
    LaterIsNoStricter(book, previewAt, later);
    BlockUnderLooserLocks(host, book, previewAt, book, now, s.snap.core, b.height, b.txs, b.hashes, b.producer,
                          b.reward.total);
    BlockUnderLooserLocks(host, book, previewAt, book, later, s.snap.core, b.height, b.txs, b.hashes, b.producer,
                          b.reward.total);
  }

  lemma CommitsTheSame(host: Host, book: Book, now: nat, later: nat, s: Chain, b: BlockRecord)
    requires ApplyBlock(host, book, s.snap.core, now, b.height, b.txs, b.hashes, b.producer, b.reward.total)
          == ApplyBlock(host, book, s.snap.core, later, b.height, b.txs, b.hashes, b.producer, b.reward.total)
    ensures CommitRow(host, book, now, s, b) == CommitRow(host, book, later, s, b)
  {
    hide ApplyBlock, PrepareUndo, IndexRows;
  }

  lemma MinesThePlan(host: Host, book: Book, previewAt: nat, now: nat, s: Chain, producer: string, txs: seq<Envelope>)
    requires previewAt <= now && MinePlan(host, book, previewAt, s, producer, txs).Ok?
    requires Honest(host, s, MinePlan(host, book, previewAt, s, producer, txs).value)
    ensures var b := MinePlan(host, book, previewAt, s, producer, txs).value;
            && CommitRow(host, book, now, s, b).1.Ok?
            && Mine(host, book, previewAt, now, s, producer, txs) == (CommitRow(host, book, now, s, b).0, Ok(b.id))
  {
    hide MinePlan, PreviewBlock, ApplyBlock, CommitRow, Norm, Trim, HasAiWorkload, IsPoc, ZkClaimsOk, RewardForBlock,
         TxHashes, ParentIdForHeight, CumWeight, ProducerWeight, AllExtraChecks, Fresh;
    var b := MinePlan(host, book, previewAt, s, producer, txs).value;
    PlanIs(host, book, previewAt, s, producer, txs);
    PreviewedBlockCommits(host, book, previewAt, now, s, b);
    PreviewEqualsApply(host, book, s.snap.core, previewAt, now, b.height, b.txs, b.hashes, b.producer, b.reward.total);
    StoredBalancesAreTheMap(host, book, s.snap.core, now, b.height, b.txs, b.hashes, b.producer, b.reward.total);
    var o := ApplyBlock(host, book, s.snap.core, now, b.height, b.txs, b.hashes, b.producer, b.reward.total).value;
    assert b.(root := host.root(o.balances)) == b;
  }

  /** An honestly mined block is accepted by a node in the same state, whatever its later clock reads, and leaves it
      in the miner's state. */
  lemma MinedIsAccepted(host: Host, book: Book, previewAt: nat, now: nat, s: Chain, producer: string,
                        txs: seq<Envelope>, peerPreviewAt: nat, peerNow: nat)
    requires previewAt <= now && previewAt <= peerPreviewAt <= peerNow
    requires MinePlan(host, book, previewAt, s, producer, txs).Ok?
    requires Honest(host, s, MinePlan(host, book, previewAt, s, producer, txs).value)
    ensures var b := MinePlan(host, book, previewAt, s, producer, txs).value;
            var mined := Mine(host, book, previewAt, now, s, producer, txs);
            && mined.1 == Ok(b.id)
            && ExtendRemote(host, book, peerPreviewAt, peerNow, s, Gossiped(b)) == (mined.0, Ok(Extended))
  {
    hide MinePlan, PreviewBlock, CommitRow, Norm, Trim, HasAiWorkload, IsPoc, ZkClaimsOk, RewardForBlock, TxHashes,
         ParentIdForHeight, CumWeight, ProducerWeight, AllExtraChecks, Fresh, Mine, RemoteRow, ApplyBlock;
    var b := MinePlan(host, book, previewAt, s, producer, txs).value;
    PlanIs(host, book, previewAt, s, producer, txs);
    RowIsThePlan(host, book, previewAt, s, producer, txs);
    PreviewLater(host, book, s.snap.core, previewAt, peerPreviewAt, txs, producer, b.reward.total);
    MinesThePlan(host, book, previewAt, now, s, producer, txs);
    AppliesTheSame(host, book, previewAt, now, peerNow, s, b);
    CommitsTheSame(host, book, now, peerNow, s, b);
  }
}
