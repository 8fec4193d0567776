/** Block records, fork choice, reorganisation, mining and remote apply
    (tet-core/src/consensus.rs:832-1237, 1559-2006). */
module Consensus {
  import opened Basics
  import opened Text
  import opened Fees
  import opened Protocol
  import opened BlockApply
  import opened Caac
  import opened Undo

  const U128_MAX: nat := 0xFFFF_FFFF_FFFF_FFFF_FFFF_FFFF_FFFF_FFFF

  // ----- checks on a block's transactions

  function ZkClaimsOk(host: Host, core: Core, txs: seq<Envelope>, seen: set<string>): bool {
    if txs == [] then true
    else
      match txs[0].tx
      case VerifyZkProof(taskId, imageId, journal, receipt) =>
        (match host.zk(imageId, journal, receipt)
         case ZkInvalid => false
         case ZkOther => ZkClaimsOk(host, core, txs[1..], seen)
         case ZkCourt(_) =>
           var id := Trim(taskId);
           && id != "" && id !in seen
           && TaskOf(id) in core.meta && core.meta[TaskOf(id)].TaskRow? && !core.meta[TaskOf(id)].task.processed
           && ZkClaimsOk(host, core, txs[1..], seen + {id}))
      case _ => ZkClaimsOk(host, core, txs[1..], seen)
  }

  predicate EnterpriseValid(host: Host, tx: Tx)
    requires tx.EnterpriseInference?
  {
    && IsHex64(Norm(tx.enterprise))
    && Trim(tx.prompt) != ""
    && tx.nonce != 0
    && 0 < tx.price <= MAX_SUPPLY_MICRO
    && tx.workloadFlag == 1
    && host.sha(Trim(tx.prompt)) == Norm(tx.promptSha)
  }

  function FlopsOf(host: Host, txs: seq<Envelope>): Option<nat> {
    if txs == [] then Some(0)
    else
      match FlopsOf(host, txs[..|txs| - 1])
      case None => None
      case Some(sum) =>
        var tx := txs[|txs| - 1].tx;
        match tx
        case VerifyZkProof(_, imageId, journal, receipt) =>
          (match host.zk(imageId, journal, receipt)
           case ZkInvalid => None
           case ZkOther => Some(sum)
           case ZkCourt(flops) => Some(sum + flops))
        case EnterpriseInference(_, _, _, _, _, _, _) => if EnterpriseValid(host, tx) then Some(sum) else None
        case ControlPlane(_) => None
        case _ => Some(sum)
  }

  function RewardForBlock(host: Host, txs: seq<Envelope>): Option<Reward> {
    match FlopsOf(host, txs)
    case None => None
    case Some(flops) =>
      var compute := if flops == 0 then 0 else host.computeReward(flops);
      Some(Reward(host.baseReward, compute, SatAdd(host.baseReward, compute)))
  }

  predicate ContainsAiWorkload(txs: seq<Envelope>) {
    exists i :: 0 <= i < |txs| && IsAiWorkload(txs[i].tx)
  }

  function TxHashes(host: Host, txs: seq<Envelope>): Option<seq<string>> {
    if txs == [] then Some([])
    else
      match (TxHashes(host, txs[..|txs| - 1]), host.txHash(txs[|txs| - 1]))
      case (Some(hashes), Some(h)) => Some(hashes + [h])
      case _ => None
  }

  lemma {:induction false} TxHashesAt(host: Host, txs: seq<Envelope>)
    ensures TxHashes(host, txs).Some? <==> forall i :: 0 <= i < |txs| ==> host.txHash(txs[i]).Some?
    ensures TxHashes(host, txs).Some? ==> |TxHashes(host, txs).value| == |txs|
    ensures TxHashes(host, txs).Some? ==>
              forall i :: 0 <= i < |txs| ==> host.txHash(txs[i]) == Some(TxHashes(host, txs).value[i])
  {
    if txs != [] {
      var front := txs[..|txs| - 1];
      TxHashesAt(host, front);
      assert forall i :: 0 <= i < |front| ==> front[i] == txs[i];
    }
  }

  predicate Distinct(hashes: seq<string>) {
    forall i, j :: 0 <= i < j < |hashes| ==> hashes[i] != hashes[j]
  }

  // ----- parents and weights

  function ParentIdForHeight(snap: Snap, height: nat): Result<Option<string>, ChainError> {
    if height <= 1 then Ok(None)
    else if height - 1 in snap.canonical then Ok(Some(snap.canonical[height - 1]))
    else if snap.tip.Some? && snap.tip.value.height == height - 1 then Ok(Some(snap.tip.value.blockId))
    else Err(Rejected("missing canonical parent"))
  }

  // At height 1 nothing is expected, so an explicit parent is taken as it is.
  function ResolveParent(snap: Snap, height: nat, given: Option<string>): Result<Option<string>, ChainError> {
    var explicit := if given.Some? && Trim(given.value) != "" then Some(Trim(given.value)) else None;
    var expected :- ParentIdForHeight(snap, height);
    match (explicit, expected)
    case (Some(got), Some(exp)) => if got == exp then Ok(Some(got)) else Err(Rejected("parent_block_id mismatch"))
    case (Some(got), None) => Ok(Some(got))
    case (None, _) => Ok(expected)
  }

  function CumWeight(records: map<string, BlockRecord>, parent: Option<string>, weight: nat): nat {
    var base := if parent.Some? && parent.value in records then records[parent.value].cumWeight else 0;
    if base + weight > U128_MAX then U128_MAX else base + weight
  }

  function ProducerWeight(host: Host, producer: string): nat {
    WeightFromRecord(host.caac(Norm(producer)))
  }

  // `record_block_record`: parent and weights are filled in here.
  function RowFor(host: Host, s: Chain, height: nat, id: string, parent: Option<string>, producer: string,
                  hashes: seq<string>, txs: seq<Envelope>, root: string, reward: Reward, canonical: bool)
    : Result<BlockRecord, ChainError>
  {
    var up :- if parent.Some? then Ok(parent) else ParentIdForHeight(s.snap, height);
    var weight := ProducerWeight(host, producer);
    Ok(BlockRecord(height, id, up, producer, hashes, txs, root, reward, weight, CumWeight(s.records, up, weight),
                   canonical))
  }

  // ----- writing one block's rows

  function IndexRows(height: nat, hashes: seq<string>, txs: seq<Envelope>, canonical: bool): map<string, TxRow>
    requires |hashes| == |txs|
  {
    if txs == [] then map[]
    else
      var n := |txs| - 1;
      IndexRows(height, hashes[..n], txs[..n], canonical)
        [hashes[n] := TxRow(hashes[n], height, n, canonical, txs[n])]
  }

  function RecordTxIndexes(s: Chain, b: BlockRecord, canonical: bool): Chain
    requires |b.hashes| == |b.txs|
  {
    s.(index := s.index + IndexRows(b.height, b.hashes, b.txs, canonical))
  }

  function RecordSummary(s: Chain, b: BlockRecord): Chain {
    s.(snap := s.snap.(summaries := s.snap.summaries[b.height := Summary(b.height, b.id, b.root, |b.txs|)]))
  }

  function RecordBlock(s: Chain, row: BlockRecord): Chain {
    var s1 := s.(records := s.records[row.id := row]);
    if !row.canonical then s1
    else s1.(snap := s1.snap.(canonical := s1.snap.canonical[row.height := row.id],
                              tip := Some(Tip(row.height, row.id, row.cumWeight, row.root))))
  }

  function SetCanonicalFlag(s: Chain, id: string, flag: bool): Chain {
    if id in s.records then s.(records := s.records[id := s.records[id].(canonical := flag)]) else s
  }

  // Capture, store the undo row, apply, check the root, write the records. A failure leaves what was
  // already written.
  function CommitRow(host: Host, book: Book, now: nat, s: Chain, b: BlockRecord): (Chain, Result<(), ChainError>)
  {
    var u := PrepareUndo(host, s, b.id, b.height, b.txs, b.hashes, b.producer, b.reward.total);
    var s1 := s.(undo := s.undo[b.id := u]);
    match ApplyBlock(host, book, s.snap.core, now, b.height, b.txs, b.hashes, b.producer, b.reward.total)
    case Err(_) => (s1, Err(Rejected("apply")))
    case Ok(o) =>
      var s2 := s1.(snap := s1.snap.(core := o.core));
      if host.root(o.balances) != b.root then (s2, Err(RootMismatch))
      else (RecordTxIndexes(RecordBlock(RecordSummary(s2, b), b.(canonical := true)), b, true), Ok(()))
  }

  // `apply_block_record_forward`
  function Forward(host: Host, book: Book, now: nat, s: Chain, b: BlockRecord): (Chain, Result<(), ChainError>)
  {
    if !ZkClaimsOk(host, s.snap.core, b.txs, {}) then (s, Err(Rejected("zk")))
    else if RewardForBlock(host, b.txs) != Some(b.reward) then (s, Err(Rejected("reorg reward mismatch")))
    else CommitRow(host, book, now, s, b)
  }

  // ----- the block store as a forest

  /** Stored blocks sit one above their parent, and height-1 blocks name none. */
  ghost predicate Placed(records: map<string, BlockRecord>, id: string)
    requires id in records
  {
    var r := records[id];
    && r.id == id && id != "" && r.height >= 1
    && |r.hashes| == |r.txs|
    && (r.parent.None? <==> r.height == 1)
    && r.parent != Some("")
    && (r.parent.Some? && r.parent.value in records ==> records[r.parent.value].height == r.height - 1)
  }

  // No producer weighs more than 1,100, so no chain of u64 height reaches the u128 ceiling.
  ghost predicate RowOk(records: map<string, BlockRecord>, id: string)
    requires id in records
  {
    Placed(records, id) && records[id].height <= U64_MAX && records[id].cumWeight <= records[id].height * 1_100
  }

  ghost predicate WellFormed(records: map<string, BlockRecord>) {
    forall id :: id in records ==> RowOk(records, id)
  }

  function Rank(records: map<string, BlockRecord>, cur: Option<string>): nat {
    if cur.None? then 0 else if cur.value in records then 1 + records[cur.value].height else 1
  }

  function Parent(records: map<string, BlockRecord>, id: string): Option<string> {
    if id in records then records[id].parent else None
  }

  lemma ParentRanksLower(records: map<string, BlockRecord>, id: string)
    requires WellFormed(records)
    ensures Rank(records, Parent(records, id)) < Rank(records, Some(id))
  {
    if id in records {
      assert RowOk(records, id);
    }
  }

  ghost function AncestorIds(records: map<string, BlockRecord>, cur: Option<string>): set<string>
    requires WellFormed(records)
    decreases Rank(records, cur)
  {
    if cur.None? then {}
    else
      ParentRanksLower(records, cur.value);
      {cur.value} + AncestorIds(records, Parent(records, cur.value))
  }

  // The first block on the new branch that the current chain also contains; "" stands for genesis.
  ghost function ClimbTo(records: map<string, BlockRecord>, stop: set<string>, cur: Option<string>): string
    requires WellFormed(records)
    decreases Rank(records, cur)
  {
    if cur.None? then ""
    else if cur.value in stop then cur.value
    else
      ParentRanksLower(records, cur.value);
      ClimbTo(records, stop, Parent(records, cur.value))
  }

  ghost function CommonAncestor(records: map<string, BlockRecord>, tipId: string, newTip: string): string
    requires WellFormed(records)
  {
    ClimbTo(records, AncestorIds(records, Some(tipId)), Some(newTip))
  }

  // The blocks above `ancestor` on the way to `cur`, lowest first.
  ghost function BranchTo(records: map<string, BlockRecord>, ancestor: string, cur: Option<string>)
    : Result<seq<BlockRecord>, ChainError>
    requires WellFormed(records)
    decreases Rank(records, cur)
  {
    if cur.None? || cur.value == ancestor then Ok([])
    else if cur.value !in records then Err(Rejected("unknown block in branch"))
    else
      ParentRanksLower(records, cur.value);
      var below :- BranchTo(records, ancestor, Parent(records, cur.value));
      Ok(below + [records[cur.value]])
  }

  // ----- reorganisation

  ghost predicate SameButFlags(a: map<string, BlockRecord>, b: map<string, BlockRecord>) {
    && a.Keys == b.Keys
    && forall id :: id in a ==> Strip(a[id]) == Strip(b[id])
  }

  // A record with its canonical flag set aside.
  function Strip(b: BlockRecord): BlockRecord {
    b.(canonical := true)
  }

  lemma FlagsCompose(a: map<string, BlockRecord>, b: map<string, BlockRecord>, c: map<string, BlockRecord>)
    requires SameButFlags(a, b) && SameButFlags(b, c)
    ensures SameButFlags(a, c)
  {
    forall id | id in a ensures Strip(a[id]) == Strip(c[id]) {
      assert Strip(a[id]) == Strip(b[id]);
    }
  }

  lemma FlagsKeepWellFormed(a: map<string, BlockRecord>, b: map<string, BlockRecord>)
    requires WellFormed(a) && SameButFlags(a, b)
    ensures WellFormed(b)
    ensures forall cur :: Rank(a, cur) == Rank(b, cur)
  {
    forall id | id in b ensures RowOk(b, id) {
      assert RowOk(a, id) && Strip(a[id]) == Strip(b[id]);
      if b[id].parent.Some? && b[id].parent.value in b {
        assert Strip(a[b[id].parent.value]) == Strip(b[b[id].parent.value]);
      }
    }
    forall cur ensures Rank(a, cur) == Rank(b, cur) {
      if cur.Some? && cur.value in a {
        assert Strip(a[cur.value]) == Strip(b[cur.value]);
      }
    }
  }

  // Undo one canonical block and mark its record and index rows.
  function UnwindOne(s: Chain, id: string): (Chain, Result<Option<string>, ChainError>) {
    if id !in s.records || |s.records[id].hashes| != |s.records[id].txs| then
      (s, Err(Rejected("missing canonical block during unwind")))
    else
      var b := s.records[id];
      match ApplyUndo(s, id)
      case Err(e) => (s, Err(e))
      case Ok(s1) => (RecordTxIndexes(SetCanonicalFlag(s1, id, false), b, false), Ok(b.parent))
  }

  lemma UnwindOneFlags(s: Chain, id: string)
    ensures SameButFlags(s.records, UnwindOne(s, id).0.records)
    ensures UnwindOne(s, id).0.undo == s.undo
    ensures UnwindOne(s, id).1.Ok? ==>
              && id in s.records && id in s.undo && UnwindOne(s, id).1.value == s.records[id].parent
              && UnwindOne(s, id).0.snap == RestoreSnap(s.snap, s.undo[id])
  {
    hide RestoreSnap;
  }

  ghost function Unwind(s: Chain, cur: Option<string>, ancestor: string): (Chain, Result<(), ChainError>)
    requires WellFormed(s.records)
    decreases Rank(s.records, cur)
  {
    if cur.None? || cur.value == ancestor then (s, Ok(()))
    else
      var (s1, r) := UnwindOne(s, cur.value);
      match r
      case Err(e) => (s1, Err(e))
      case Ok(parent) =>
        UnwindOneFlags(s, cur.value);
        FlagsKeepWellFormed(s.records, s1.records);
        ParentRanksLower(s.records, cur.value);
        Unwind(s1, parent, ancestor)
  }

  ghost function ApplyBranch(host: Host, book: Book, clock: nat -> nat, s: Chain, blocks: seq<BlockRecord>)
    : (Chain, Result<(), ChainError>)
    requires HashesListed(blocks)
    decreases |blocks|
  {
    if blocks == [] then (s, Ok(()))
    else
      var step := Forward(host, book, clock(blocks[0].height), s, blocks[0]);
      if step.1.Err? then step else ApplyBranch(host, book, clock, step.0, blocks[1..])
  }

  ghost predicate HashesListed(blocks: seq<BlockRecord>) {
    forall i :: 0 <= i < |blocks| ==> |blocks[i].hashes| == |blocks[i].txs|
  }

  lemma {:induction false} BranchRowsOk(records: map<string, BlockRecord>, ancestor: string, cur: Option<string>)
    requires WellFormed(records) && BranchTo(records, ancestor, cur).Ok?
    ensures var bs := BranchTo(records, ancestor, cur).value;
            forall i :: 0 <= i < |bs| ==> bs[i].id in records && records[bs[i].id] == bs[i] && RowOk(records, bs[i].id)
    decreases Rank(records, cur)
  {
    if cur.Some? && cur.value != ancestor {
      ParentRanksLower(records, cur.value);
      BranchRowsOk(records, ancestor, Parent(records, cur.value));
      assert RowOk(records, cur.value);
    }
  }

  // `reorg_to_branch`. The clock gives the time each height is applied at.
  ghost function Reorg(host: Host, book: Book, clock: nat -> nat, s: Chain, newTip: string)
    : (Chain, Result<bool, ChainError>)
    requires WellFormed(s.records)
  {
    if s.snap.tip.None? then (s, Ok(false))
    else if newTip !in s.records then (s, Err(Rejected("unknown new tip")))
    else if s.records[newTip].cumWeight <= s.snap.tip.value.cumWeight then (s, Ok(false))
    else
      var tipId := s.snap.tip.value.blockId;
      var ancestor := CommonAncestor(s.records, tipId, newTip);
      match BranchTo(s.records, ancestor, Some(newTip))
      case Err(e) => (s, Err(e))
      case Ok(blocks) =>
        BranchRowsOk(s.records, ancestor, Some(newTip));
        var (s1, unwound) := Unwind(s, Some(tipId), ancestor);
        if unwound.Err? then (s1, Err(unwound.error))
        else
          var (s2, applied) := ApplyBranch(host, book, clock, s1, blocks);
          if applied.Err? then (s2, Err(applied.error)) else (s2, Ok(true))
  }

  // ----- mining and remote blocks

  // `prepare_block`: the block to be built on the tip, with the previewed root.
  function MinePlan(host: Host, book: Book, previewAt: nat, s: Chain, producer: string, txs: seq<Envelope>)
    : (r: Result<BlockRecord, ChainError>)
    ensures r.Ok? ==> |r.value.hashes| == |r.value.txs|
  {
    var height := s.snap.core.counters.height + 1;
    match (TxHashes(host, txs), ParentIdForHeight(s.snap, height), RewardForBlock(host, txs))
    case (Some(hashes), Ok(parent), Some(reward)) =>
      if !ZkClaimsOk(host, s.snap.core, txs, {}) then Err(Rejected("zk"))
      else
        (match PreviewBlock(host, book, s.snap.core, previewAt, txs, producer, reward.total)
         case Err(_) => Err(Rejected("preview"))
         case Ok(preview) =>
           TxHashesAt(host, txs);
           var root := host.root(preview);
           var id := host.blockId(height, if parent.Some? then parent.value else "", root, hashes, producer);
           var weight := ProducerWeight(host, producer);
           Ok(BlockRecord(height, id, parent, producer, hashes, txs, root, reward, weight,
                          CumWeight(s.records, parent, weight), true)))
    case _ => Err(Rejected("block"))
  }

  // `prepare_block`, apply, `finish_block` (and `mine_coinbase_only_block_as`, with no transactions).
  // The recorded root is the one the apply returned.
  function Mine(host: Host, book: Book, previewAt: nat, now: nat, s: Chain, producer: string, txs: seq<Envelope>)
    : (Chain, Result<string, ChainError>)
  {
    match MinePlan(host, book, previewAt, s, producer, txs)
    case Err(e) => (s, Err(e))
    case Ok(b) =>
      match ApplyBlock(host, book, s.snap.core, now, b.height, b.txs, b.hashes, producer, b.reward.total)
      case Err(_) =>
        (s.(undo := s.undo[b.id := PrepareUndo(host, s, b.id, b.height, b.txs, b.hashes, producer, b.reward.total)]),
         Err(Rejected("apply")))
      case Ok(o) => (CommitRow(host, book, now, s, b.(root := host.root(o.balances))).0, Ok(b.id))
  }

  datatype RemoteBlock = RemoteBlock(height: nat, id: string, parent: Option<string>, producer: string,
                                     reward: Reward, root: string, txs: seq<Envelope>)

  datatype RemoteOutcome = Skipped | ForkLost | Extended | Reorged

  // What gossip and backfill both check before they look at the ledger's height.
  function CheckRemote(host: Host, s: Chain, b: RemoteBlock, parent: Option<string>): Result<seq<string>, ChainError> {
    var producer := Norm(b.producer);
    if producer == "" then Err(Rejected("producer_id required"))
    else if host.leader(b.height) != Some(producer) then Err(Rejected("invalid leader"))
    else
      match TxHashes(host, b.txs)
      case None => Err(Rejected("tx hash"))
      case Some(hashes) =>
        if !Distinct(hashes) then Err(Rejected("duplicate tx in block"))
        else if host.blockId(b.height, if parent.Some? then parent.value else "", b.root, hashes, producer) != b.id then
          Err(Rejected("block_id mismatch"))
        else if ContainsAiWorkload(b.txs) && !CanMineAiWorkload(host, producer) then Err(Rejected("not POC"))
        else if !ZkClaimsOk(host, s.snap.core, b.txs, {}) then Err(Rejected("zk"))
        else if RewardForBlock(host, b.txs) != Some(b.reward) then Err(Rejected("block reward mismatch"))
        else Ok(hashes)
  }

  function Trimmed(parent: Option<string>): Option<string> {
    if parent.Some? && Trim(parent.value) != "" then Some(Trim(parent.value)) else None
  }

  // Parent of a competing block at the local height.
  function RivalParent(snap: Snap, b: RemoteBlock): Option<string> {
    if Trimmed(b.parent).Some? then Trimmed(b.parent)
    else match ParentIdForHeight(snap, b.height)
         case Ok(p) => p
         case Err(_) => None
  }

  // A gossiped block for the next height, checked and given its row.
  function RemoteRow(host: Host, s: Chain, b: RemoteBlock): (r: Result<BlockRecord, ChainError>)
    ensures r.Ok? ==> |r.value.hashes| == |r.value.txs|
  {
    var parent :- ResolveParent(s.snap, b.height, b.parent);
    var hashes :- CheckRemote(host, s, b, parent);
    TxHashesAt(host, b.txs);
    RowFor(host, s, b.height, b.id, parent, Norm(b.producer), hashes, b.txs, b.root, b.reward, true)
  }

  // `apply_remote_block_from_gossip_sync` on the next height.
  function ExtendRemote(host: Host, book: Book, previewAt: nat, now: nat, s: Chain, b: RemoteBlock)
    : (Chain, Result<RemoteOutcome, ChainError>)
  {
    match RemoteRow(host, s, b)
    case Err(e) => (s, Err(e))
    case Ok(row) =>
      var preview := PreviewBlock(host, book, s.snap.core, previewAt, b.txs, row.producer, b.reward.total);
      if preview.Err? || host.root(preview.value) != b.root then (s, Err(Rejected("state_root mismatch")))
      else
        var (s1, r) := CommitRow(host, book, now, s, row);
        if r.Err? then (s1, Err(r.error)) else (s1, Ok(Extended))
  }

  // `validate_and_record_backfill_candidate`: checked against the parent it names, stored off-chain.
  function BackfillRow(host: Host, s: Chain, b: RemoteBlock): Result<BlockRecord, ChainError> {
    var hashes :- CheckRemote(host, s, b, b.parent);
    RowFor(host, s, b.height, b.id, b.parent, Norm(b.producer), hashes, b.txs, b.root, b.reward, false)
  }

  // A competing block at the local height is stored as a candidate and fork choice decides.
  ghost function RivalRemote(host: Host, book: Book, clock: nat -> nat, s: Chain, b: RemoteBlock)
    : (Chain, Result<RemoteOutcome, ChainError>)
    requires b.height == s.snap.core.counters.height
    requires WellFormed(RivalStored(host, s, b).records)
  {
    match CheckRemote(host, s, b, RivalParent(s.snap, b))
    case Err(e) => (s, Err(e))
    case Ok(hashes) =>
      if b.height !in s.snap.summaries || s.snap.summaries[b.height].blockId == b.id then (s, Ok(Skipped))
      else
        var s1 := RivalStored(host, s, b);
        var (s2, r) := Reorg(host, book, clock, s1, b.id);
        match r
        case Err(e) => (s2, Err(e))
        case Ok(true) => (s2, Ok(Reorged))
        case Ok(false) =>
          (s2, Ok(if LessThan(b.id, s.snap.summaries[b.height].blockId) then ForkLost else Skipped))
  }

  // The candidate row a competing block leaves behind, if any.
  function RivalRow(host: Host, s: Chain, b: RemoteBlock): Option<BlockRecord> {
    match CheckRemote(host, s, b, RivalParent(s.snap, b))
    case Err(_) => None
    case Ok(hashes) =>
      if b.height !in s.snap.summaries || s.snap.summaries[b.height].blockId == b.id then None
      else
        match RowFor(host, s, b.height, b.id, RivalParent(s.snap, b), Norm(b.producer), hashes, b.txs, b.root,
                     b.reward, false)
        case Err(_) => None
        case Ok(row) => Some(row)
  }

  function RivalStored(host: Host, s: Chain, b: RemoteBlock): Chain {
    match RivalRow(host, s, b)
    case None => s
    case Some(row) => RecordBlock(s, row)
  }

  // `try_reorg_backfilled_branch`: weights along the branch are recomputed first, lowest block first.
  function Reweighed(host: Host, records: map<string, BlockRecord>, blocks: seq<BlockRecord>): map<string, BlockRecord>
    decreases |blocks|
  {
    if blocks == [] then records
    else
      var b := blocks[0];
      var weight := ProducerWeight(host, b.producer);
      var row := b.(weight := weight, cumWeight := CumWeight(records, b.parent, weight), canonical := false);
      Reweighed(host, records[b.id := row], blocks[1..])
  }

  ghost function BackfillReorg(host: Host, book: Book, clock: nat -> nat, s: Chain, newTip: string)
    : (Chain, Result<bool, ChainError>)
    requires WellFormed(s.records)
    requires WellFormed(ReweighedStore(host, s, newTip).records)
  {
    if newTip !in s.records || s.snap.tip.None? then (s, Ok(false))
    else
      match BranchTo(s.records, CommonAncestor(s.records, s.snap.tip.value.blockId, newTip), Some(newTip))
      case Err(e) => (s, Err(e))
      case Ok(_) => Reorg(host, book, clock, ReweighedStore(host, s, newTip), newTip)
  }

  ghost function ReweighedStore(host: Host, s: Chain, newTip: string): Chain
    requires WellFormed(s.records)
  {
    if newTip !in s.records || s.snap.tip.None? then s
    else
      match BranchTo(s.records, CommonAncestor(s.records, s.snap.tip.value.blockId, newTip), Some(newTip))
      case Err(_) => s
      case Ok(blocks) => s.(records := Reweighed(host, s.records, blocks))
  }
}
