/** What a block from elsewhere must satisfy to be stored or applied, both ways, and what that makes of every record
    in the store (tet-core/src/consensus.rs:540-700, 940-1049, 1744-2006). */
module Vetting {
  import opened Basics
  import opened Text
  import opened Protocol
  import opened BlockApply
  import opened BlockLaws
  import opened Caac
  import opened Undo
  import opened Consensus
  import opened Replay
  import opened ChainSteps
  import opened ReorgOutcomes
  import opened ChainRuns

  // ----- hashes

  /** Every transaction has a hash, and these are they, in order. */
  ghost predicate Hashed(host: Host, txs: seq<Envelope>, hashes: seq<string>) {
    |hashes| == |txs| && forall i :: 0 <= i < |txs| ==> host.txHash(txs[i]) == Some(hashes[i])
  }

  lemma TxHashesIff(host: Host, txs: seq<Envelope>, hashes: seq<string>)
    ensures TxHashes(host, txs) == Some(hashes) <==> Hashed(host, txs, hashes)
  {
    TxHashesAt(host, txs);
    if Hashed(host, txs, hashes) {
      assert TxHashes(host, txs).Some?;
      assert TxHashes(host, txs).value == hashes;
    }
  }

  // ----- claims of court proofs

  // The task a court proof claims.
  function ClaimOf(host: Host, env: Envelope): Option<string> {
    if env.tx.VerifyZkProof? && host.zk(env.tx.imageId, env.tx.journal, env.tx.receipt).ZkCourt?
    then Some(Trim(env.tx.taskId)) else None
  }

  predicate IsBadProof(host: Host, env: Envelope) {
    env.tx.VerifyZkProof? && host.zk(env.tx.imageId, env.tx.journal, env.tx.receipt).ZkInvalid?
  }

  // A stored task nobody has processed yet.
  predicate IsOpenTask(core: Core, id: string) {
    id != "" && TaskOf(id) in core.meta && core.meta[TaskOf(id)].TaskRow? && !core.meta[TaskOf(id)].task.processed
  }

  /** No proof is invalid, and the court proofs claim different open tasks, none of them seen before. */
  ghost predicate ClaimsAre(host: Host, core: Core, txs: seq<Envelope>, seen: set<string>) {
    && (forall i :: 0 <= i < |txs| ==> !IsBadProof(host, txs[i]))
    && (forall i :: 0 <= i < |txs| && ClaimOf(host, txs[i]).Some? ==>
          IsOpenTask(core, ClaimOf(host, txs[i]).value) && ClaimOf(host, txs[i]).value !in seen)
    && (forall i, j :: 0 <= i < j < |txs| && ClaimOf(host, txs[i]).Some? ==>
          ClaimOf(host, txs[i]) != ClaimOf(host, txs[j]))
  }

  lemma ClaimsOfRest(host: Host, core: Core, txs: seq<Envelope>, seen: set<string>)
    requires txs != []
    ensures var claim := ClaimOf(host, txs[0]);
            ClaimsAre(host, core, txs, seen) <==>
              && !IsBadProof(host, txs[0])
              && (claim.Some? ==> IsOpenTask(core, claim.value) && claim.value !in seen)
              && ClaimsAre(host, core, txs[1..], if claim.Some? then seen + {claim.value} else seen)
  {
    hide IsBadProof, IsOpenTask, ClaimOf;
    var rest, claim := txs[1..], ClaimOf(host, txs[0]);
    assert forall i :: 0 <= i < |rest| ==> rest[i] == txs[i + 1];
    var more := if claim.Some? then seen + {claim.value} else seen;
    if ClaimsAre(host, core, txs, seen) {
      forall i | 0 <= i < |rest| && ClaimOf(host, rest[i]).Some?
        ensures IsOpenTask(core, ClaimOf(host, rest[i]).value) && ClaimOf(host, rest[i]).value !in more
      {
        assert rest[i] == txs[i + 1];
      }
      assert ClaimsAre(host, core, rest, more);
    }
    if !IsBadProof(host, txs[0]) && (claim.Some? ==> IsOpenTask(core, claim.value) && claim.value !in seen)
       && ClaimsAre(host, core, rest, more) {
      forall i | 0 <= i < |txs| ensures i > 0 ==> txs[i] == rest[i - 1] {
      }
      assert ClaimsAre(host, core, txs, seen);
    }
  }

  lemma {:induction false} ZkClaimsIff(host: Host, core: Core, txs: seq<Envelope>, seen: set<string>)
    ensures ZkClaimsOk(host, core, txs, seen) <==> ClaimsAre(host, core, txs, seen)
    decreases |txs|
  {
    hide ClaimsAre, Trim;
    if txs == [] {
      NoClaims(host, core, seen);
    } else {
      ClaimsOfRest(host, core, txs, seen);
      var claim := ClaimOf(host, txs[0]);
      ZkClaimsIff(host, core, txs[1..], if claim.Some? then seen + {claim.value} else seen);
    }
  }

  lemma NoClaims(host: Host, core: Core, seen: set<string>)
    ensures ClaimsAre(host, core, [], seen)
  {
  }

  // ----- rewards

  // The work a court proof was judged to hold.
  function FlopsIn(host: Host, env: Envelope): nat {
    if env.tx.VerifyZkProof? then
      match host.zk(env.tx.imageId, env.tx.journal, env.tx.receipt)
      case ZkCourt(flops) => flops
      case _ => 0
    else 0
  }

  ghost function Work(host: Host, txs: seq<Envelope>): map<nat, nat> {
    map i: nat | i < |txs| :: FlopsIn(host, txs[i])
  }

  /** What a transaction must be for its block to earn anything. */
  ghost predicate Rewardable(host: Host, tx: Tx) {
    match tx
    case VerifyZkProof(_, imageId, journal, receipt) => !host.zk(imageId, journal, receipt).ZkInvalid?
    case EnterpriseInference(enterprise, prompt, _, price, nonce, promptSha, flag) =>
      && IsHex64(Norm(enterprise)) && Trim(prompt) != "" && nonce != 0 && 0 < price <= 10_000_000_000_000_000
      && flag == 1 && host.sha(Trim(prompt)) == Norm(promptSha)
    case ControlPlane(_) => false
    case _ => true
  }

  /** The reward the transactions earn: the base, the court's price for all the work proved, and their capped sum. */
  ghost predicate Earns(host: Host, txs: seq<Envelope>, reward: Reward) {
    && (forall i :: 0 <= i < |txs| ==> Rewardable(host, txs[i].tx))
    && reward.base == host.baseReward
    && reward.compute == (if Sum(Work(host, txs)) == 0 then 0 else host.computeReward(Sum(Work(host, txs))))
    && reward.total == (if reward.base + reward.compute > U64_MAX then U64_MAX else reward.base + reward.compute)
  }

  lemma WorkOfLast(host: Host, txs: seq<Envelope>)
    requires txs != []
    ensures Sum(Work(host, txs)) == Sum(Work(host, txs[..|txs| - 1])) + FlopsIn(host, txs[|txs| - 1])
  {
    hide Sum;
    var n := |txs| - 1;
    assert Work(host, txs) == Work(host, txs[..n])[n := FlopsIn(host, txs[n])];
    SumAdd<nat>(Work(host, txs[..n]), n, FlopsIn(host, txs[n]));
  }

  lemma {:induction false} FlopsAre(host: Host, txs: seq<Envelope>)
    ensures FlopsOf(host, txs).Some? <==> forall i :: 0 <= i < |txs| ==> Rewardable(host, txs[i].tx)
    ensures FlopsOf(host, txs).Some? ==> FlopsOf(host, txs).value == Sum(Work(host, txs))
  {
    hide Sum, Work, Norm, Trim, IsHex64;
    if txs == [] {
      NoWork(host);
    } else {
      var n := |txs| - 1;
      FlopsAre(host, txs[..n]);
      WorkOfLast(host, txs);
      assert forall i :: 0 <= i < n ==> txs[..n][i] == txs[i];
    }
  }

  lemma NoWork(host: Host)
    ensures Sum(Work(host, [])) == 0
  {
    assert Work(host, []) == map[];
  }

  lemma RewardIff(host: Host, txs: seq<Envelope>, reward: Reward)
    ensures RewardForBlock(host, txs) == Some(reward) <==> Earns(host, txs, reward)
  {
    hide Sum, Work, Rewardable;
    FlopsAre(host, txs);
  }

  // ----- the checks on a block from elsewhere

  ghost predicate HasAiWorkload(txs: seq<Envelope>) {
    exists i :: 0 <= i < |txs| && txs[i].tx.EnterpriseInference? && txs[i].tx.workloadFlag == 1
  }

  ghost predicate IsPoc(host: Host, producer: string) {
    host.caac(Norm(producer)).Some? && Norm(host.caac(Norm(producer)).value.role) == "poc"
  }

  /** All that gossip and backfill ask of a block, but its parent and its root. */
  ghost predicate Vetted(host: Host, core: Core, b: RemoteBlock, parent: Option<string>, hashes: seq<string>) {
    var producer := Norm(b.producer);
    && producer != "" && host.leader(b.height) == Some(producer)
    && Hashed(host, b.txs, hashes) && (forall i, j :: 0 <= i < j < |hashes| ==> hashes[i] != hashes[j])
    && b.id == host.blockId(b.height, if parent.Some? then parent.value else "", b.root, hashes, producer)
    && (HasAiWorkload(b.txs) ==> IsPoc(host, producer))
    && ClaimsAre(host, core, b.txs, {})
    && Earns(host, b.txs, b.reward)
  }

  /** The checks pass exactly on a vetted block, and give its hashes. */
  lemma CheckedIff(host: Host, s: Chain, b: RemoteBlock, parent: Option<string>, hashes: seq<string>)
    ensures CheckRemote(host, s, b, parent) == Ok(hashes) <==> Vetted(host, s.snap.core, b, parent, hashes)
  {
    hide ClaimsAre, Earns, Norm, TxHashes, ZkClaimsOk, RewardForBlock, Hashed;
    ZkClaimsIff(host, s.snap.core, b.txs, {});
    RewardIff(host, b.txs, b.reward);
    TxHashesIff(host, b.txs, hashes);
    assert ContainsAiWorkload(b.txs) <==> HasAiWorkload(b.txs);
  }

  lemma CheckedIsVetted(host: Host, s: Chain, b: RemoteBlock, parent: Option<string>)
    requires CheckRemote(host, s, b, parent).Ok?
    ensures Vetted(host, s.snap.core, b, parent, CheckRemote(host, s, b, parent).value)
  {
    hide Vetted, CheckRemote;
    CheckedIff(host, s, b, parent, CheckRemote(host, s, b, parent).value);
  }

  // ----- the row a block is stored as

  /** The parent's stored weight, none for a parent that is not stored. */
  function WeightBelow(records: map<string, BlockRecord>, parent: Option<string>): nat {
    if parent.Some? && parent.value in records then records[parent.value].cumWeight else 0
  }

  /** The record of a block from elsewhere, field by field. */
  ghost predicate RecordOf(host: Host, s: Chain, b: RemoteBlock, parent: Option<string>, hashes: seq<string>,
                           canonical: bool, row: BlockRecord)
  {
    && row.height == b.height && row.id == b.id && row.parent == parent && row.producer == Norm(b.producer)
    && row.hashes == hashes && row.txs == b.txs && row.root == b.root && row.reward == b.reward
    && row.weight == WeightFromRecord(host.caac(Norm(Norm(b.producer))))
    && row.cumWeight == (if WeightBelow(s.records, parent) + row.weight > U128_MAX then U128_MAX
                         else WeightBelow(s.records, parent) + row.weight)
    && row.canonical == canonical
  }

  // The parent a record gets when the block names none.
  function FilledIn(snap: Snap, height: nat, parent: Option<string>): Result<Option<string>, ChainError> {
    if parent.Some? then Ok(parent) else ParentIdForHeight(snap, height)
  }

  lemma RowForIs(host: Host, s: Chain, b: RemoteBlock, parent: Option<string>, hashes: seq<string>, canonical: bool)
    ensures var r := RowFor(host, s, b.height, b.id, parent, Norm(b.producer), hashes, b.txs, b.root, b.reward,
                            canonical);
            && (r.Ok? <==> FilledIn(s.snap, b.height, parent).Ok?)
            && (r.Ok? ==> RecordOf(host, s, b, FilledIn(s.snap, b.height, parent).value, hashes, canonical, r.value))
  {
    hide Norm, WeightFromRecord, ParentIdForHeight;
  }

  /** A backfilled candidate is stored exactly when it is vetted against the parent it names, or against none when
      it names none and one can be filled in; and then as this record. */
  lemma CandidateStoredIff(host: Host, s: Chain, b: RemoteBlock)
    ensures BackfillRow(host, s, b).Ok? <==>
              && (exists hashes :: Vetted(host, s.snap.core, b, b.parent, hashes))
              && FilledIn(s.snap, b.height, b.parent).Ok?
    ensures BackfillRow(host, s, b).Ok? ==>
              var row := BackfillRow(host, s, b).value;
              && Vetted(host, s.snap.core, b, b.parent, row.hashes)
              && RecordOf(host, s, b, FilledIn(s.snap, b.height, b.parent).value, row.hashes, false, row)
  {
    hide Vetted, CheckRemote, RowFor, FilledIn, Norm;
    if exists hashes :: Vetted(host, s.snap.core, b, b.parent, hashes) {
      var hashes :| Vetted(host, s.snap.core, b, b.parent, hashes);
      CheckedIff(host, s, b, b.parent, hashes);
    }
    if CheckRemote(host, s, b, b.parent).Ok? {
      CheckedIsVetted(host, s, b, b.parent);
      RowForIs(host, s, b, b.parent, CheckRemote(host, s, b, b.parent).value, false);
    }
  }

  /** A rival at the local height is stored exactly when it is vetted against its named or expected parent, another
      block holds the height's summary, and a parent can be filled in. */
  lemma RivalStoredIff(host: Host, s: Chain, b: RemoteBlock)
    ensures RivalRow(host, s, b).Some? <==>
              && (exists hashes :: Vetted(host, s.snap.core, b, RivalParent(s.snap, b), hashes))
              && b.height in s.snap.summaries && s.snap.summaries[b.height].blockId != b.id
              && FilledIn(s.snap, b.height, RivalParent(s.snap, b)).Ok?
    ensures RivalRow(host, s, b).Some? ==>
              var row := RivalRow(host, s, b).value;
              && Vetted(host, s.snap.core, b, RivalParent(s.snap, b), row.hashes)
              && RecordOf(host, s, b, FilledIn(s.snap, b.height, RivalParent(s.snap, b)).value, row.hashes, false, row)
  {
    hide Vetted, CheckRemote, RowFor, FilledIn, Norm, RivalParent;
    var parent := RivalParent(s.snap, b);
    if exists hashes :: Vetted(host, s.snap.core, b, parent, hashes) {
      var hashes :| Vetted(host, s.snap.core, b, parent, hashes);
      CheckedIff(host, s, b, parent, hashes);
    }
    if CheckRemote(host, s, b, parent).Ok? {
      CheckedIsVetted(host, s, b, parent);
      RowForIs(host, s, b, parent, CheckRemote(host, s, b, parent).value, false);
    }
  }

  /** The block a block of this height goes on: the canonical one below, or the tip when that sits there and the
      canonical index says nothing. */
  ghost predicate GoesOn(snap: Snap, height: nat, id: string) {
    var below: int := height - 1;
    if below in snap.canonical then snap.canonical[below] == id
    else snap.tip.Some? && snap.tip.value.height == below && snap.tip.value.blockId == id
  }

  /** The parent of a block for the next height: the block it goes on, when it names that or nothing; what it names,
      at height one. */
  ghost predicate FitsOn(snap: Snap, b: RemoteBlock, parent: Option<string>) {
    var named := if b.parent.Some? && Trim(b.parent.value) != "" then Some(Trim(b.parent.value)) else None;
    if b.height <= 1 then parent == named
    else parent.Some? && GoesOn(snap, b.height, parent.value) && (named.None? || named == parent)
  }

  lemma ResolvedIff(snap: Snap, b: RemoteBlock, parent: Option<string>)
    ensures ResolveParent(snap, b.height, b.parent) == Ok(parent) <==> FitsOn(snap, b, parent)
  {
    hide Trim;
  }

  /** A gossiped block for the next height has its row exactly when it fits on the chain and is vetted. */
  lemma NextRowIff(host: Host, s: Chain, b: RemoteBlock)
    ensures RemoteRow(host, s, b).Ok? <==>
              exists parent, hashes :: FitsOn(s.snap, b, parent) && Vetted(host, s.snap.core, b, parent, hashes)
    ensures RemoteRow(host, s, b).Ok? ==>
              var row := RemoteRow(host, s, b).value;
              && FitsOn(s.snap, b, row.parent) && Vetted(host, s.snap.core, b, row.parent, row.hashes)
              && RecordOf(host, s, b, row.parent, row.hashes, true, row)
  {
    hide Vetted, CheckRemote, RowFor, FitsOn, Norm, ResolveParent;
    if exists parent, hashes :: FitsOn(s.snap, b, parent) && Vetted(host, s.snap.core, b, parent, hashes) {
      var parent, hashes :| FitsOn(s.snap, b, parent) && Vetted(host, s.snap.core, b, parent, hashes);
      ResolvedIff(s.snap, b, parent);
      CheckedIff(host, s, b, parent, hashes);
      ResolvedFills(s.snap, b, parent);
      RowForIs(host, s, b, parent, hashes, true);
    }
    var resolved := ResolveParent(s.snap, b.height, b.parent);
    if resolved.Ok? && CheckRemote(host, s, b, resolved.value).Ok? {
      ResolvedIff(s.snap, b, resolved.value);
      ResolvedFills(s.snap, b, resolved.value);
      CheckedIsVetted(host, s, b, resolved.value);
      RowForIs(host, s, b, resolved.value, CheckRemote(host, s, b, resolved.value).value, true);
    }
  }

  lemma ResolvedFills(snap: Snap, b: RemoteBlock, parent: Option<string>)
    requires FitsOn(snap, b, parent)
    ensures FilledIn(snap, b.height, parent) == Ok(parent)
  {
    hide Trim;
  }

  /** New to the chain, a gossiped block for the next height is applied exactly when it fits, is vetted, previews to
      the root it claims, and passes what only the apply checks. */
  lemma ExtendsIff(host: Host, book: Book, previewAt: nat, now: nat, s: Chain, b: RemoteBlock)
    requires previewAt <= now
    requires forall hashes :: Hashed(host, b.txs, hashes) ==> Fresh(s.snap.core, hashes)
    ensures ExtendRemote(host, book, previewAt, now, s, b).1 == Ok(Extended) <==>
              && (exists parent, hashes :: FitsOn(s.snap, b, parent) && Vetted(host, s.snap.core, b, parent, hashes))
              && Confirms(host, book, previewAt, s.snap.core, b)
              && AllExtraChecks(host, s.snap.core, b.txs)
  {
    hide Vetted, CheckRemote, FitsOn, Norm, PreviewBlock, CommitRow, AllExtraChecks, RemoteRow, Fresh, Hashed;
    NextRowIff(host, s, b);
    if RemoteRow(host, s, b).Ok? {
      var row := RemoteRow(host, s, b).value;
      VettedIsHashed(host, s.snap.core, b, row.parent, row.hashes);
      if Confirms(host, book, previewAt, s.snap.core, b) {
        PreviewedBlockCommits(host, book, previewAt, now, s, row);
      }
    }
  }

  // The preview under the producer's name gives the root the block claims.
  ghost predicate Confirms(host: Host, book: Book, previewAt: nat, core: Core, b: RemoteBlock) {
    var preview := PreviewBlock(host, book, core, previewAt, b.txs, Norm(b.producer), b.reward.total);
    preview.Ok? && host.root(preview.value) == b.root
  }

  lemma VettedIsHashed(host: Host, core: Core, b: RemoteBlock, parent: Option<string>, hashes: seq<string>)
    requires Vetted(host, core, b, parent, hashes)
    ensures Hashed(host, b.txs, hashes) && |hashes| == |b.txs|
  {
  }

  // ----- events and runs

  /** What a rival's sender is told, once it is vetted and another block has the height: that the chain moved to it, or
      that it lost to a block with the larger id, or with the smaller. */
  lemma RivalAnswerIs(host: Host, book: Book, clock: nat -> nat, s: Chain, b: RemoteBlock)
    requires b.height == s.snap.core.counters.height && WellFormed(RivalStored(host, s, b).records)
    requires RivalRow(host, s, b).Some?
    ensures var r := Reorg(host, book, clock, RecordBlock(s, RivalRow(host, s, b).value), b.id).1;
            RivalRemote(host, book, clock, s, b).1 ==
            match r
            case Err(e) => Err(e)
            case Ok(true) => Ok(Reorged)
            case Ok(false) => if LessThan(b.id, s.snap.summaries[b.height].blockId) then Ok(ForkLost) else Ok(Skipped)
  {
    hide Reorg, CheckRemote, LessThan, WellFormed;
  }

  /** Whatever a gossiped block or a candidate changes, it was vetted. */
  lemma ChangesAreVetted(host: Host, book: Book, s: Chain, e: Event, t: Chain)
    requires (e.Gossip? || e.Candidate?) && Next(host, book, s, e, t) && t != s
    ensures exists parent, hashes :: Vetted(host, s.snap.core, e.block, parent, hashes)
  {
    hide Vetted, CheckRemote, Placeable, Previewed, RivalRow, CommitRow, RivalRemote, FitsOn, RecordOf, WellFormed,
         RemoteRow, BackfillRow;
    if e.Candidate? {
      CandidateStoredIff(host, s, e.block);
    } else if e.block.height == s.snap.core.counters.height + 1 {
      NextGossipCommits(host, book, s, e);
      NextRowIff(host, s, e.block);
    } else if TriesReorg(host, s, e) {
      CheckedIsVetted(host, s, e.block, RivalParent(s.snap, e.block));
    } else {
      Untried(host, book, s, e);
    }
  }

  /** What a record keeps of the checks: its producer led its height, its id is the hash of its parts (with its
      parent, or with none when that was filled in), its hashes are its transactions' and distinct, an inference
      request is in the block of an attested producer only, and its reward is what its transactions earn. */
  ghost predicate Vouched(host: Host, row: BlockRecord) {
    && row.producer != "" && host.leader(row.height) == Some(row.producer)
    && Hashed(host, row.txs, row.hashes)
    && (forall i, j :: 0 <= i < j < |row.hashes| ==> row.hashes[i] != row.hashes[j])
    && (exists p :: (p == "" || row.parent == Some(p))
                    && row.id == host.blockId(row.height, p, row.root, row.hashes, row.producer))
    && (HasAiWorkload(row.txs) ==> IsPoc(host, row.producer))
    && Earns(host, row.txs, row.reward)
  }

  lemma VettedIsVouched(host: Host, s: Chain, b: RemoteBlock, parent: Option<string>, filled: Option<string>,
                        hashes: seq<string>, canonical: bool, row: BlockRecord)
    requires Vetted(host, s.snap.core, b, parent, hashes) && RecordOf(host, s, b, filled, hashes, canonical, row)
    requires parent.Some? ==> filled == parent
    ensures Vouched(host, row)
  {
    hide Norm, Earns, Hashed, HasAiWorkload, IsPoc, ClaimsAre, WeightFromRecord;
    var p := if parent.Some? then parent.value else "";
    assert row.id == host.blockId(row.height, p, row.root, row.hashes, row.producer);
  }

  lemma SamePlacementVouched(host: Host, a: BlockRecord, b: BlockRecord)
    requires Placement(a) == Placement(b) && Vouched(host, a)
    ensures Vouched(host, b)
  {
    hide Earns, Hashed, HasAiWorkload, IsPoc;
    assert b.height == Placement(b).height == a.height && b.producer == Placement(b).producer == a.producer;
    assert b.txs == Placement(b).txs == a.txs && b.hashes == Placement(b).hashes == a.hashes;
    assert b.id == Placement(b).id == a.id && b.parent == Placement(b).parent == a.parent;
    assert b.root == Placement(b).root == a.root && b.reward == Placement(b).reward == a.reward;
    var p :| (p == "" || a.parent == Some(p)) && a.id == host.blockId(a.height, p, a.root, a.hashes, a.producer);
    assert b.id == host.blockId(b.height, p, b.root, b.hashes, b.producer);
  }

  lemma SameStrippedPlacement(a: BlockRecord, b: BlockRecord)
    requires Strip(a) == Strip(b)
    ensures Placement(a) == Placement(b)
  {
    assert Placement(Strip(a)) == Placement(a) && Placement(Strip(b)) == Placement(b);
  }

  /** Every record was vouched for, but those with a listed id. */
  ghost predicate StoreVouched(host: Host, records: map<string, BlockRecord>, mined: set<string>) {
    forall id :: id in records && id !in mined ==> Vouched(host, records[id])
  }

  lemma RowKeepsVouched(host: Host, records: map<string, BlockRecord>, mined: set<string>, row: BlockRecord)
    requires StoreVouched(host, records, mined) && (row.id in mined || Vouched(host, row))
    ensures StoreVouched(host, records[row.id := row], mined)
  {
    hide Vouched;
  }

  lemma PlacementKeepsVouched(host: Host, a: map<string, BlockRecord>, b: map<string, BlockRecord>, mined: set<string>)
    requires StoreVouched(host, a, mined) && a.Keys == b.Keys
    requires forall id :: id in a ==> Placement(a[id]) == Placement(b[id])
    ensures StoreVouched(host, b, mined)
  {
    hide Vouched, Placement;
    forall id | id in b && id !in mined ensures Vouched(host, b[id]) {
      SamePlacementVouched(host, a[id], b[id]);
    }
  }

  lemma FlagsKeepVouched(host: Host, a: map<string, BlockRecord>, b: map<string, BlockRecord>, mined: set<string>)
    requires StoreVouched(host, a, mined) && SameButFlags(a, b)
    ensures StoreVouched(host, b, mined)
  {
    hide Vouched, Placement, Strip;
    forall id | id in a ensures Placement(a[id]) == Placement(b[id]) {
      SameStrippedPlacement(a[id], b[id]);
    }
    PlacementKeepsVouched(host, a, b, mined);
  }

  lemma CommitKeepsVouched(host: Host, book: Book, now: nat, s: Chain, row: BlockRecord, mined: set<string>)
    requires StoreVouched(host, s.records, mined) && (row.id in mined || Vouched(host, row))
    requires |row.hashes| == |row.txs|
    ensures StoreVouched(host, CommitRow(host, book, now, s, row).0.records, mined)
  {
    hide CommitRow, Vouched, Placement, StoreVouched, ExtendSnap, RestoreSnap;
    RowKeepsVouched(host, s.records, mined, row);
    if CommitRow(host, book, now, s, row).1.Ok? {
      CommitExtends(host, book, now, s, row);
      FlagsKeepVouched(host, s.records[row.id := row], s.records[row.id := Strip(row)], mined);
    } else {
      FailedCommit(host, book, now, s, row);
    }
  }

  lemma ReorgFromKeepsVouched(host: Host, book: Book, s: Chain, e: Event, mined: set<string>)
    requires Allowed(host, book, s, e) && TriesReorg(host, s, e) && StoreVouched(host, s.records, mined)
    ensures StoreVouched(host, ReorgFrom(host, s, e).records, mined)
  {
    hide Vouched, Placement, Vetted, CheckRemote, RivalRow, Placeable, Previewed, BranchTo, CommonAncestor, Reweighed,
         RecordOf, WellFormed, RivalParent;
    if e.Gossip? {
      if RivalRow(host, s, e.block).Some? {
        var row := RivalRow(host, s, e.block).value;
        RivalStoredIff(host, s, e.block);
        RivalIsVouched(host, s, e.block);
        RowKeepsVouched(host, s.records, mined, row);
      }
    } else {
      BranchRowsOk(s.records, Ancestor(s, e.newTip), Some(e.newTip));
      BranchIsPlaced(s, e.newTip);
      ReweighedKeeps(host, s.records, Branch(s, e.newTip).value);
      PlacementKeepsVouched(host, s.records, ReorgFrom(host, s, e).records, mined);
    }
  }

  lemma BranchIsPlaced(s: Chain, newTip: string)
    requires WellFormed(s.records) && s.snap.tip.Some? && Branch(s, newTip).Ok?
    ensures PlacedAs(s.records, Branch(s, newTip).value)
  {
    hide WellFormed, BranchTo, CommonAncestor;
    BranchRowsOk(s.records, Ancestor(s, newTip), Some(newTip));
  }

  lemma RivalIsVouched(host: Host, s: Chain, b: RemoteBlock)
    requires RivalRow(host, s, b).Some?
    ensures Vouched(host, RivalRow(host, s, b).value) && RivalRow(host, s, b).value.id == b.id
  {
    hide Vouched, Vetted, CheckRemote, RivalRow, RivalParent, ParentIdForHeight;
    RivalStoredIff(host, s, b);
    var (row, parent) := (RivalRow(host, s, b).value, RivalParent(s.snap, b));
    VettedIsVouched(host, s, b, parent, FilledIn(s.snap, b.height, parent).value, row.hashes, false, row);
  }

  lemma CandidateIsVouched(host: Host, s: Chain, b: RemoteBlock)
    requires BackfillRow(host, s, b).Ok?
    ensures Vouched(host, BackfillRow(host, s, b).value) && BackfillRow(host, s, b).value.id == b.id
  {
    hide Vouched, Vetted, CheckRemote, BackfillRow, ParentIdForHeight;
    CandidateStoredIff(host, s, b);
    var row := BackfillRow(host, s, b).value;
    VettedIsVouched(host, s, b, b.parent, FilledIn(s.snap, b.height, b.parent).value, row.hashes, false, row);
  }

  lemma NextIsVouched(host: Host, s: Chain, b: RemoteBlock)
    requires RemoteRow(host, s, b).Ok?
    ensures Vouched(host, RemoteRow(host, s, b).value)
  {
    hide Vouched, Vetted, RemoteRow, FitsOn;
    NextRowIff(host, s, b);
    var row := RemoteRow(host, s, b).value;
    VettedIsVouched(host, s, b, row.parent, row.parent, row.hashes, true, row);
  }

  // The ids this node mined along a run.
  ghost function MinedIds(host: Host, book: Book, states: seq<Chain>, events: seq<Event>, n: nat): set<string>
    requires n <= |events| <= |states|
  {
    if n == 0 then {}
    else MinedIds(host, book, states, events, n - 1) + MinedBy(host, book, states[n - 1], events[n - 1])
  }

  ghost function MinedBy(host: Host, book: Book, s: Chain, e: Event): set<string> {
    if e.Mined? && MinedRow(host, book, s, e).Some? then {MinedRow(host, book, s, e).value.id} else {}
  }

  lemma MoreMined(host: Host, records: map<string, BlockRecord>, mined: set<string>, more: set<string>)
    requires StoreVouched(host, records, mined)
    ensures StoreVouched(host, records, mined + more)
  {
    hide Vouched;
  }

  lemma StepKeepsVouched(host: Host, book: Book, s: Chain, e: Event, t: Chain, mined: set<string>)
    requires Next(host, book, s, e, t) && StoreVouched(host, s.records, mined) && MinedBy(host, book, s, e) <= mined
    ensures StoreVouched(host, t.records, mined)
  {
    hide Vouched, Placement, WellFormed, CheckRemote, Placeable, Previewed, Reorg, RivalRow, CommonAncestor, BranchTo,
         Reweighed, ReorgFrom, MinedRow, Mine, ExtendRemote, CommitRow, RivalRemote, BackfillReorg, SameButFlags,
         CumWeight, MinePlan, RemoteRow, BackfillRow, StoreVouched;
    if e.Mined? {
      if MinedRow(host, book, s, e).Some? {
        MinedCommits(host, book, s, e);
        PlacedRowLists(s, MinedRow(host, book, s, e).value);
        CommitKeepsVouched(host, book, e.now, s, MinedRow(host, book, s, e).value, mined);
      } else {
        MinedNothing(host, book, s, e);
      }
    } else if e.Gossip? && e.block.height == s.snap.core.counters.height + 1 {
      NextGossipCommits(host, book, s, e);
      if Previewed(host, book, e.previewAt, s, e.block) {
        NextIsVouched(host, s, e.block);
        var row := RemoteRow(host, s, e.block).value;
        PlacedRowLists(s, row);
        CommitKeepsVouched(host, book, e.clock(row.height), s, row, mined);
      }
    } else if TriesReorg(host, s, e) {
      ReorgFromStore(host, book, s, e);
      ReorgFromKeepsVouched(host, book, s, e, mined);
      TriedReorg(host, book, s, e);
      ReorgKeepsFlags(host, book, e.clock, ReorgFrom(host, s, e), Target(e));
      FlagsKeepVouched(host, ReorgFrom(host, s, e).records, t.records, mined);
    } else if e.Candidate? {
      if BackfillRow(host, s, e.block).Ok? {
        CandidateIsVouched(host, s, e.block);
        RowKeepsVouched(host, s.records, mined, BackfillRow(host, s, e.block).value);
      }
    } else if !e.Prune? {
      Untried(host, book, s, e);
    }
  }

  /** Over every run, failed steps included: each stored record that was not mined here was produced by the leader of
      its height, and is otherwise what the checks ask. */
  lemma {:induction false} RecordsAreVouched(host: Host, book: Book, genesis: Core, states: seq<Chain>,
                                             events: seq<Event>, i: nat)
    requires IsRun(host, book, genesis, states, events) && i < |states|
    ensures StoreVouched(host, states[i].records, MinedIds(host, book, states, events, i))
  {
    hide Next, Vouched, MinedBy;
    if i > 0 {
      RecordsAreVouched(host, book, genesis, states, events, i - 1);
      var mined, more := MinedIds(host, book, states, events, i - 1), MinedBy(host, book, states[i - 1], events[i - 1]);
      MoreMined(host, states[i - 1].records, mined, more);
      StepKeepsVouched(host, book, states[i - 1], events[i - 1], states[i], mined + more);
    }
  }
}
