/** Whole runs of the chain: mining, gossip, backfill, reorganisation and pruning, failed steps included. */
module ChainRuns {
  import opened Basics
  import opened Protocol
  import opened BlockApply
  import opened BlockLaws
  import opened Conservation
  import opened Undo
  import opened Consensus
  import opened Replay
  import opened ReorgLaws
  import opened ForkChoiceLaws
  import opened ChainSteps
  import opened ReorgOutcomes

  // ----- steps

  datatype Event =
    | Mined(previewAt: nat, now: nat, producer: string, txs: seq<Envelope>)
    | Gossip(previewAt: nat, clock: nat -> nat, block: RemoteBlock)
    | Candidate(block: RemoteBlock)
    | Backfilled(clock: nat -> nat, newTip: string)
    | Prune(depth: nat)

  function Fault<T>(r: Result<T, ChainError>): Option<ChainError> {
    if r.Ok? then None else Some(r.error)
  }

  /** The block of a gossip for the next height whose root the preview confirms is about to be committed. */
  predicate Previewed(host: Host, book: Book, previewAt: nat, s: Chain, b: RemoteBlock) {
    && RemoteRow(host, s, b).Ok?
    && var preview := PreviewBlock(host, book, s.snap.core, previewAt, b.txs, RemoteRow(host, s, b).value.producer,
                                   b.reward.total);
       preview.Ok? && host.root(preview.value) == b.root
  }

  // Rows are written where their heights and parents belong.
  ghost predicate Allowed(host: Host, book: Book, s: Chain, e: Event) {
    && WellFormed(s.records)
    && match e
       case Mined(previewAt, _, producer, txs) =>
         var plan := MinePlan(host, book, previewAt, s, producer, txs);
         plan.Ok? ==> Placeable(s, plan.value)
       case Gossip(previewAt, _, b) =>
         && (b.height == s.snap.core.counters.height + 1 && Previewed(host, book, previewAt, s, b) ==>
               Placeable(s, RemoteRow(host, s, b).value))
         && (b.height == s.snap.core.counters.height && RivalRow(host, s, b).Some? ==>
               Placeable(s, RivalRow(host, s, b).value))
       case Candidate(b) => BackfillRow(host, s, b).Ok? ==> Placeable(s, BackfillRow(host, s, b).value)
       case Backfilled(_, _) => true
       case Prune(_) => true
  }

  /** The state a step leaves, with its error when it fails: what was written stays written. */
  ghost function Effect(host: Host, book: Book, s: Chain, e: Event): (Chain, Option<ChainError>)
    requires Allowed(host, book, s, e)
  {
    match e
    case Mined(previewAt, now, producer, txs) =>
      var (t, r) := Mine(host, book, previewAt, now, s, producer, txs);
      (t, Fault(r))
    case Gossip(previewAt, clock, b) =>
      var n := s.snap.core.counters.height;
      if b.height == n + 1 then
        var (t, r) := ExtendRemote(host, book, previewAt, clock(b.height), s, b);
        (t, Fault(r))
      else if b.height == n then
        RivalStoreWellFormed(host, s, b);
        var (t, r) := RivalRemote(host, book, clock, s, b);
        (t, Fault(r))
      else (s, None)
    case Candidate(b) =>
      var row := BackfillRow(host, s, b);
      if row.Ok? then (RecordBlock(s, row.value), None) else (s, Some(row.error))
    case Backfilled(clock, newTip) =>
      ReweighedWellFormed(host, s, newTip);
      var (t, r) := BackfillReorg(host, book, clock, s, newTip);
      (t, Fault(r))
    case Prune(depth) => (s.(undo := Pruned(s.undo, s.snap.core.counters.height, depth)), None)
  }

  ghost predicate Next(host: Host, book: Book, s: Chain, e: Event, t: Chain) {
    Allowed(host, book, s, e) && t == Effect(host, book, s, e).0
  }

  lemma RivalStoreWellFormed(host: Host, s: Chain, b: RemoteBlock)
    requires WellFormed(s.records)
    requires RivalRow(host, s, b).Some? ==> Placeable(s, RivalRow(host, s, b).value)
    ensures WellFormed(RivalStored(host, s, b).records)
  {
    hide WellFormed, CheckRemote, Placeable;
    if RivalRow(host, s, b).Some? {
      var row := RivalRow(host, s, b).value;
      PlacedRowWeighs(s, row, ProducerWeight(host, row.producer));
    }
  }

  lemma ReweighedWellFormed(host: Host, s: Chain, newTip: string)
    requires WellFormed(s.records)
    ensures WellFormed(ReweighedStore(host, s, newTip).records)
  {
    hide WellFormed, Reweighed, BranchTo, CommonAncestor;
    if newTip in s.records && s.snap.tip.Some? && Branch(s, newTip).Ok? {
      BranchRowsOk(s.records, Ancestor(s, newTip), Some(newTip));
      ReweighedKeeps(host, s.records, Branch(s, newTip).value);
    }
  }

  // ----- the reorganisation a step tries

  ghost predicate TriesReorg(host: Host, s: Chain, e: Event)
    requires WellFormed(s.records)
  {
    match e
    case Gossip(_, _, b) =>
      && b.height == s.snap.core.counters.height && CheckRemote(host, s, b, RivalParent(s.snap, b)).Ok?
      && b.height in s.snap.summaries && s.snap.summaries[b.height].blockId != b.id
    case Backfilled(_, newTip) => newTip in s.records && s.snap.tip.Some? && Branch(s, newTip).Ok?
    case _ => false
  }

  function Target(e: Event): string {
    match e
    case Gossip(_, _, b) => b.id
    case Backfilled(_, newTip) => newTip
    case _ => ""
  }

  // The state it starts from: the rival stored, or the branch weighed again.
  ghost function ReorgFrom(host: Host, s: Chain, e: Event): Chain
    requires WellFormed(s.records)
  {
    match e
    case Gossip(_, _, b) => RivalStored(host, s, b)
    case Backfilled(_, newTip) => ReweighedStore(host, s, newTip)
    case _ => s
  }

  lemma ReorgFromStore(host: Host, book: Book, s: Chain, e: Event)
    requires Allowed(host, book, s, e) && TriesReorg(host, s, e)
    ensures WellFormed(ReorgFrom(host, s, e).records)
    ensures ReorgFrom(host, s, e) == s.(records := ReorgFrom(host, s, e).records)
  {
    hide WellFormed, CheckRemote, Placeable, ReweighedStore, Previewed;
    match e
    case Gossip(_, _, b) => RivalStoreWellFormed(host, s, b);
    case Backfilled(_, newTip) =>
      ReweighedWellFormed(host, s, newTip);
      ReweighedRecordsOnly(host, s, newTip);
  }

  lemma ReweighedRecordsOnly(host: Host, s: Chain, newTip: string)
    requires WellFormed(s.records)
    ensures ReweighedStore(host, s, newTip) == s.(records := ReweighedStore(host, s, newTip).records)
  {
    hide WellFormed, BranchTo, CommonAncestor, Reweighed;
  }

  lemma TriedReorg(host: Host, book: Book, s: Chain, e: Event)
    requires Allowed(host, book, s, e) && TriesReorg(host, s, e) && WellFormed(ReorgFrom(host, s, e).records)
    ensures var (t, f) := Effect(host, book, s, e);
            var (u, r) := Reorg(host, book, e.clock, ReorgFrom(host, s, e), Target(e));
            t == u && f == Fault(r)
  {
    hide WellFormed, CheckRemote, Placeable, Previewed, Reorg, RivalRow, CommonAncestor, BranchTo, Reweighed;
  }

  // A step that tries no reorganisation.
  lemma Untried(host: Host, book: Book, s: Chain, e: Event)
    requires Allowed(host, book, s, e) && !TriesReorg(host, s, e)
    requires e.Backfilled? || (e.Gossip? && e.block.height != s.snap.core.counters.height + 1)
    ensures Effect(host, book, s, e).0 == s && Effect(host, book, s, e).1 != Some(RootMismatch)
  {
    hide WellFormed, CheckRemote, Placeable, Previewed, Reorg, CommonAncestor, BranchTo, Reweighed, RivalStored;
    if e.Backfilled? {
      if e.newTip in s.records && s.snap.tip.Some? {
        BranchFault(s.records, Ancestor(s, e.newTip), Some(e.newTip));
      }
    } else if e.block.height == s.snap.core.counters.height {
      CheckFault(host, s, e.block, RivalParent(s.snap, e.block));
    }
  }

  lemma CheckFault(host: Host, s: Chain, b: RemoteBlock, parent: Option<string>)
    ensures CheckRemote(host, s, b, parent) != Err(RootMismatch)
  {
    hide TxHashes, Distinct, ContainsAiWorkload, ZkClaimsOk, RewardForBlock;
  }

  // ----- a step from a replayed state

  /** The replayed state is left alone or its tip is heavier. */
  ghost predicate Progress(s: Chain, t: Chain) {
    t.snap == s.snap || TipWeight(t) > TipWeight(s)
  }

  lemma NewBlockProgress(host: Host, book: Book, genesis: Core, now: nat, s: Chain, row: BlockRecord, weight: nat)
    requires Inv(host, book, genesis, s) && Placeable(s, row) && 1 <= weight <= 1_100
    requires row.height == s.snap.core.counters.height + 1
    requires row.height > 1 ==> row.height - 1 in s.snap.canonical
                                && row.parent == Some(s.snap.canonical[row.height - 1])
    requires row.cumWeight == CumWeight(s.records, row.parent, weight)
    ensures var (t, r) := CommitRow(host, book, now, s, row);
            && (Inv(host, book, genesis, t) <==> r != Err(RootMismatch))
            && (r.Ok? ==> TipWeight(t) > TipWeight(s))
            && (r.Err? ==> t.snap.tip == s.snap.tip && (r.error != RootMismatch ==> t.snap == s.snap))
            && (r == Err(RootMismatch) ==> Overrun(t))
  {
    hide ExtendSnap, RestoreSnap, ReplayBlocks, RowRestores, WellFormed, Linked, UndoRowsOk, CommitRow, Placeable;
    InvParts(host, book, genesis, s);
    PlacedRowWeighs(s, row, weight);
    PlaceableRow(s, row);
    CommitFromInv(host, book, genesis, now, s, row);
    if CommitRow(host, book, now, s, row).1.Ok? {
      var t := CommitRow(host, book, now, s, row).0;
      TipRow(host, book, genesis, t);
      if row.height > 1 {
        TipRow(host, book, genesis, s);
        CanonicalRow(s, row.height - 1);
        StoredRowOk(s.records, s.snap.canonical[row.height - 1]);
      } else {
        InvShape(host, book, genesis, s);
      }
    }
  }

  lemma PlaceableRow(s: Chain, row: BlockRecord)
    requires Placeable(s, row)
    ensures row.height <= U64_MAX && (row.parent.None? <==> row.height == 1) && row.id !in s.snap.canonical.Values
  {
    assert Placed(s.records[row.id := row], row.id);
  }

  lemma OffChainKeepsInv(host: Host, book: Book, genesis: Core, s: Chain, row: BlockRecord, weight: nat)
    requires Inv(host, book, genesis, s) && Placeable(s, row) && weight <= 1_100 && !row.canonical
    requires row.cumWeight == CumWeight(s.records, row.parent, weight)
    ensures Inv(host, book, genesis, RecordBlock(s, row)) && RecordBlock(s, row).snap == s.snap
    ensures CanonicalBlocks(RecordBlock(s, row)) == CanonicalBlocks(s)
  {
    hide ExtendSnap, RestoreSnap, ReplayBlocks, RowRestores, WellFormed, Linked, UndoRowsOk;
    PlacedRowWeighs(s, row, weight);
    OffChainRowKeepsCanonical(s, row);
    OtherRecordsKeepInv(host, book, genesis, s, s.records[row.id := row]);
  }

  // The parent a node names for its next block is its top canonical block.
  lemma ParentIsTop(host: Host, book: Book, genesis: Core, s: Chain)
    requires Inv(host, book, genesis, s)
    ensures var n := s.snap.core.counters.height;
            && (n > 0 ==> n in s.snap.canonical)
            && ParentIdForHeight(s.snap, n + 1) == Ok(if n == 0 then None else Some(s.snap.canonical[n]))
  {
    hide ExtendSnap, RestoreSnap, ReplayBlocks, UndoRowsOk;
  }

  // The row a mining step commits: its plan, under the root the apply returned.
  function MinedRow(host: Host, book: Book, s: Chain, e: Event): Option<BlockRecord>
    requires e.Mined?
  {
    match MinePlan(host, book, e.previewAt, s, e.producer, e.txs)
    case Err(_) => None
    case Ok(b) =>
      (match ApplyBlock(host, book, s.snap.core, e.now, b.height, b.txs, b.hashes, e.producer, b.reward.total)
       case Err(_) => None
       case Ok(o) => Some(b.(root := host.root(o.balances))))
  }

  lemma MinedCommits(host: Host, book: Book, s: Chain, e: Event)
    requires e.Mined? && Allowed(host, book, s, e) && MinedRow(host, book, s, e).Some?
    ensures var row := MinedRow(host, book, s, e).value;
            && Effect(host, book, s, e).0 == CommitRow(host, book, e.now, s, row).0
            && Effect(host, book, s, e).1.None? && CommitRow(host, book, e.now, s, row).1.Ok?
            && Placeable(s, row) && row.height == s.snap.core.counters.height + 1
            && ParentIdForHeight(s.snap, row.height) == Ok(row.parent)
            && row.cumWeight == CumWeight(s.records, row.parent, ProducerWeight(host, e.producer))
  {
    hide WellFormed, Placed, ApplyBlock, CommitRow, MinePlan, ParentIdForHeight, CumWeight;
    var b := MinePlan(host, book, e.previewAt, s, e.producer, e.txs).value;
    MinedPlan(host, book, e.previewAt, s, e.producer, e.txs);
    RootIsFree(s, b, MinedRow(host, book, s, e).value.root);
    RowUnderItsRoot(host, book, e.now, s, b);
  }

  // A mining step that commits nothing leaves at most an undo row for a block that is not canonical.
  lemma MinedNothing(host: Host, book: Book, s: Chain, e: Event)
    requires e.Mined? && Allowed(host, book, s, e) && MinedRow(host, book, s, e).None?
    ensures var (t, f) := Effect(host, book, s, e);
            && f.Some? && f.value != RootMismatch && t == s.(undo := t.undo)
            && (t == s || var plan := MinePlan(host, book, e.previewAt, s, e.producer, e.txs);
                          && plan.Ok? && plan.value.id !in s.snap.canonical.Values && plan.value.id in t.undo
                          && t.undo == s.undo[plan.value.id := t.undo[plan.value.id]])
  {
    hide WellFormed, Placed, ApplyBlock, PrepareUndo, MinePlan, CommitRow;
    PlanFault(host, book, e.previewAt, s, e.producer, e.txs);
    if MinePlan(host, book, e.previewAt, s, e.producer, e.txs).Ok? {
      var b := MinePlan(host, book, e.previewAt, s, e.producer, e.txs).value;
      MinedPlan(host, book, e.previewAt, s, e.producer, e.txs);
      PlaceableRow(s, b);
    }
  }

  // So its root never mismatches.
  lemma MinedStep(host: Host, book: Book, genesis: Core, s: Chain, e: Event)
    requires e.Mined? && Inv(host, book, genesis, s) && Allowed(host, book, s, e)
    ensures var (t, f) := Effect(host, book, s, e);
            && Inv(host, book, genesis, t) && f != Some(RootMismatch)
            && (if f.None? then TipWeight(t) > TipWeight(s) else t.snap == s.snap)
  {
    hide Inv, Placeable, Effect, MinedRow, Allowed, CommitRow, ParentIdForHeight, CumWeight, TipWeight, WellFormed;
    if MinedRow(host, book, s, e).Some? {
      var row := MinedRow(host, book, s, e).value;
      MinedCommits(host, book, s, e);
      ParentIsTop(host, book, genesis, s);
      NewBlockProgress(host, book, genesis, e.now, s, row, ProducerWeight(host, e.producer));
    } else {
      MinedNothing(host, book, s, e);
      var t := Effect(host, book, s, e).0;
      if t != s {
        var id := MinePlan(host, book, e.previewAt, s, e.producer, e.txs).value.id;
        StrayUndoKeepsInv(host, book, genesis, s, id, t.undo[id]);
      }
    }
  }

  lemma MinedPlan(host: Host, book: Book, previewAt: nat, s: Chain, producer: string, txs: seq<Envelope>)
    requires MinePlan(host, book, previewAt, s, producer, txs).Ok?
    ensures var b := MinePlan(host, book, previewAt, s, producer, txs).value;
            && b.height == s.snap.core.counters.height + 1 && b.producer == producer
            && ParentIdForHeight(s.snap, b.height) == Ok(b.parent)
            && b.cumWeight == CumWeight(s.records, b.parent, ProducerWeight(host, producer))
  {
    hide PreviewBlock, ZkClaimsOk, RewardForBlock, TxHashes, ParentIdForHeight, CumWeight, ProducerWeight;
  }

  lemma PlanFault(host: Host, book: Book, previewAt: nat, s: Chain, producer: string, txs: seq<Envelope>)
    ensures MinePlan(host, book, previewAt, s, producer, txs) != Err(RootMismatch)
  {
    hide PreviewBlock, ZkClaimsOk, RewardForBlock, TxHashes, ParentIdForHeight, CumWeight, ProducerWeight;
  }

  lemma RowUnderItsRoot(host: Host, book: Book, now: nat, s: Chain, b: BlockRecord)
    requires ApplyBlock(host, book, s.snap.core, now, b.height, b.txs, b.hashes, b.producer, b.reward.total).Ok?
    ensures var o := ApplyBlock(host, book, s.snap.core, now, b.height, b.txs, b.hashes, b.producer, b.reward.total);
            CommitRow(host, book, now, s, b.(root := host.root(o.value.balances))).1.Ok?
  {
    hide ApplyBlock, PrepareUndo, IndexRows;
    AppliedBlockIsListed(host, book, s.snap.core, now, b.height, b.txs, b.hashes, b.producer, b.reward.total);
  }

  lemma RootIsFree(s: Chain, b: BlockRecord, root: string)
    requires Placeable(s, b)
    ensures Placeable(s, b.(root := root))
  {
    var row := b.(root := root);
    var next := s.records[row.id := row];
    forall id | id in next ensures Placed(next, id) {
      assert Placed(s.records[b.id := b], id);
    }
  }

  // Gossip for the next height commits its row exactly when the preview confirms its root.
  lemma NextGossipCommits(host: Host, book: Book, s: Chain, e: Event)
    requires e.Gossip? && Allowed(host, book, s, e) && e.block.height == s.snap.core.counters.height + 1
    ensures var (t, f) := Effect(host, book, s, e);
            if Previewed(host, book, e.previewAt, s, e.block) then
              && RemoteRow(host, s, e.block).Ok?
              && var row := RemoteRow(host, s, e.block).value;
              && var (u, r) := CommitRow(host, book, e.clock(row.height), s, row);
              && t == u && (if r.Ok? then f.None? else f.Some? && f.value == r.error)
              && Placeable(s, row) && row.height == e.block.height
              && row.cumWeight == CumWeight(s.records, row.parent, ProducerWeight(host, row.producer))
            else t == s && f.Some? && f.value != RootMismatch
  {
    hide WellFormed, PreviewBlock, CommitRow, CheckRemote, RivalRow, RivalRemote, RivalStored, Placeable;
    if !Previewed(host, book, e.previewAt, s, e.block) {
      RemoteFault(host, s, e.block);
    } else {
      var row := RemoteRow(host, s, e.block).value;
      var x := ExtendRemote(host, book, e.previewAt, e.clock(row.height), s, e.block);
      assert x.1.Ok? <==> CommitRow(host, book, e.clock(row.height), s, row).1.Ok?;
      assert Effect(host, book, s, e).1 == Fault(x.1);
    }
  }

  lemma NextGossipStep(host: Host, book: Book, genesis: Core, s: Chain, e: Event)
    requires e.Gossip? && Inv(host, book, genesis, s) && Allowed(host, book, s, e)
    requires e.block.height == s.snap.core.counters.height + 1
    ensures var (t, f) := Effect(host, book, s, e);
            && (Inv(host, book, genesis, t) <==> f != Some(RootMismatch))
            && (f.None? ==> TipWeight(t) > TipWeight(s))
            && (f.Some? ==> t.snap.tip == s.snap.tip && (f.value != RootMismatch ==> t.snap == s.snap))
            && (f == Some(RootMismatch) ==> Overrun(t))
  {
    hide WellFormed, PreviewBlock, CommitRow, CheckRemote, Inv, Placeable, TipWeight, Effect, Allowed, Previewed;
    var b := e.block;
    ParentIsTop(host, book, genesis, s);
    NextGossipCommits(host, book, s, e);
    if Previewed(host, book, e.previewAt, s, b) {
      var row := RemoteRow(host, s, b).value;
      PlaceableRow(s, row);
      NewBlockProgress(host, book, genesis, e.clock(b.height), s, row, ProducerWeight(host, row.producer));
    }
  }

  lemma RemoteFault(host: Host, s: Chain, b: RemoteBlock)
    ensures RemoteRow(host, s, b) != Err(RootMismatch)
  {
    hide CheckRemote;
    var parent := ResolveParent(s.snap, b.height, b.parent);
    if parent.Ok? {
      CheckFault(host, s, b, parent.value);
    }
  }

  // A reorganisation starts from a replayed state with the same chain and ledger.
  lemma ReorgFromKeepsInv(host: Host, book: Book, genesis: Core, s: Chain, e: Event)
    requires Inv(host, book, genesis, s) && Allowed(host, book, s, e) && TriesReorg(host, s, e)
    ensures Inv(host, book, genesis, ReorgFrom(host, s, e)) && ReorgFrom(host, s, e).snap == s.snap
    ensures CanonicalBlocks(ReorgFrom(host, s, e)) == CanonicalBlocks(s)
  {
    hide ExtendSnap, RestoreSnap, ReplayBlocks, WellFormed, Linked, UndoRowsOk, CheckRemote, Inv, Placeable,
         ReweighedStore, Previewed;
    match e
    case Gossip(_, _, b) =>
      if RivalRow(host, s, b).Some? {
        var row := RivalRow(host, s, b).value;
        OffChainKeepsInv(host, book, genesis, s, row, ProducerWeight(host, row.producer));
      }
    case Backfilled(_, newTip) => ReweighedStoreKeepsInv(host, book, genesis, s, newTip);
  }

  lemma ReorgProgress(host: Host, book: Book, clock: nat -> nat, genesis: Core, s: Chain, newTip: string)
    requires Inv(host, book, genesis, s) && Reorg(host, book, clock, s, newTip).1.Ok?
    ensures Progress(s, Reorg(host, book, clock, s, newTip).0)
  {
    hide ExtendSnap, RestoreSnap, ReplayBlocks, RowRestores, WellFormed, Linked, UndoRowsOk, ApplyBranch, Unwind;
    if Reorg(host, book, clock, s, newTip).1.value {
      ReorgEqualsReplay(host, book, clock, genesis, s, newTip);
    }
  }

  // The chain a step's reorganisation stops on.
  ghost function Stopped(host: Host, book: Book, s: Chain, e: Event): seq<BlockRecord>
    requires WellFormed(s.records) && TriesReorg(host, s, e)
    requires WellFormed(ReorgFrom(host, s, e).records) && Linked(ReorgFrom(host, s, e))
  {
    StopChain(host, book, e.clock, ReorgFrom(host, s, e), Target(e))
  }

  lemma ReorgStep(host: Host, book: Book, genesis: Core, s: Chain, e: Event)
    requires Inv(host, book, genesis, s) && Allowed(host, book, s, e) && TriesReorg(host, s, e)
    ensures Inv(host, book, genesis, ReorgFrom(host, s, e))
    ensures var (t, f) := Effect(host, book, s, e);
            && (Inv(host, book, genesis, t) <==> f != Some(RootMismatch))
            && (Inv(host, book, genesis, t) ==> CanonicalBlocks(t) == Stopped(host, book, s, e))
            && TipWeight(t) == TopWeight(Stopped(host, book, s, e))
            && (f.None? ==> Progress(s, t)) && (f == Some(RootMismatch) ==> Overrun(t))
  {
    hide ExtendSnap, RestoreSnap, ReplayBlocks, WellFormed, Linked, UndoRowsOk, Inv, Reorg, Effect, ReorgFrom,
         CheckRemote, RivalRow, Placeable, Previewed, TopWeight, CanonicalBlocks, StopChain;
    ReorgFromKeepsInv(host, book, genesis, s, e);
    var u := ReorgFrom(host, s, e);
    InvParts(host, book, genesis, u);
    TriedReorg(host, book, s, e);
    ReorgFromInv(host, book, e.clock, genesis, u, Target(e));
    if Reorg(host, book, e.clock, u, Target(e)).1.Ok? {
      ReorgProgress(host, book, e.clock, genesis, u, Target(e));
    }
  }

  // Candidates, pruning, and gossip or backfill that tries no reorganisation leave the replayed state alone.
  lemma QuietStep(host: Host, book: Book, genesis: Core, s: Chain, e: Event)
    requires Inv(host, book, genesis, s) && Allowed(host, book, s, e) && !TriesReorg(host, s, e) && !e.Mined?
    requires e.Gossip? ==> e.block.height != s.snap.core.counters.height + 1
    ensures var (t, f) := Effect(host, book, s, e);
            Inv(host, book, genesis, t) && t.snap == s.snap && f != Some(RootMismatch)
  {
    hide ExtendSnap, RestoreSnap, ReplayBlocks, WellFormed, Linked, UndoRowsOk, Inv, CheckRemote, RivalRow, Placeable,
         Previewed, ReweighedStore, RivalRemote, BackfillReorg;
    match e
    case Gossip(_, _, _) => Untried(host, book, s, e);
    case Backfilled(_, _) => Untried(host, book, s, e);
    case Candidate(b) =>
      CheckFault(host, s, b, b.parent);
      if BackfillRow(host, s, b).Ok? {
        var row := BackfillRow(host, s, b).value;
        OffChainKeepsInv(host, book, genesis, s, row, ProducerWeight(host, row.producer));
      }
    case Prune(depth) => PruneKeepsInv(host, book, genesis, s, depth);
  }

  /** The step fails on the root of a block it has already applied. */
  ghost predicate StopsAtMismatch(host: Host, book: Book, s: Chain, e: Event) {
    Allowed(host, book, s, e) && Effect(host, book, s, e).1 == Some(RootMismatch)
  }

  /** The step fails with blocks undone or applied. */
  ghost predicate StopsHalfway(host: Host, book: Book, s: Chain, e: Event) {
    && Allowed(host, book, s, e)
    && var (t, f) := Effect(host, book, s, e);
       f.Some? && (f.value == RootMismatch || t.snap != s.snap)
  }

  // All a step can do to a replayed state.
  lemma StepFromInv(host: Host, book: Book, genesis: Core, s: Chain, e: Event)
    requires Inv(host, book, genesis, s) && Allowed(host, book, s, e)
    ensures TriesReorg(host, s, e) ==> Inv(host, book, genesis, ReorgFrom(host, s, e))
    ensures var (t, f) := Effect(host, book, s, e);
            && (Inv(host, book, genesis, t) <==> f != Some(RootMismatch))
            && (f.None? ==> Progress(s, t)) && (f == Some(RootMismatch) ==> Overrun(t))
            && (TriesReorg(host, s, e) ==> TipWeight(t) == TopWeight(Stopped(host, book, s, e)))
            && (!TriesReorg(host, s, e) && f.Some? ==> t.snap.tip == s.snap.tip
                                                       && (f.value != RootMismatch ==> t.snap == s.snap))
  {
    hide ExtendSnap, RestoreSnap, ReplayBlocks, WellFormed, Linked, UndoRowsOk, Inv, CheckRemote, RivalRow, Placeable,
         Previewed, ReorgFrom, RivalRemote, BackfillReorg, TipWeight, TopWeight, Effect, Stopped;
    if e.Mined? {
      MinedStep(host, book, genesis, s, e);
    } else if e.Gossip? && e.block.height == s.snap.core.counters.height + 1 {
      NextGossipStep(host, book, genesis, s, e);
    } else if TriesReorg(host, s, e) {
      ReorgStep(host, book, genesis, s, e);
    } else {
      QuietStep(host, book, genesis, s, e);
    }
  }

  /** A step keeps the invariant exactly when it does not stop at a root mismatch after an apply. */
  lemma StepKeepsInvIff(host: Host, book: Book, genesis: Core, s: Chain, e: Event, t: Chain)
    requires Inv(host, book, genesis, s) && Next(host, book, s, e, t)
    ensures Inv(host, book, genesis, t) <==> !StopsAtMismatch(host, book, s, e)
  {
    hide Inv, Allowed, Effect, TriesReorg, ReorgFrom, Stopped;
    StepFromInv(host, book, genesis, s, e);
  }

  lemma NoParentPastTheChain(snap: Snap, height: nat)
    requires height > 1 && height - 1 !in snap.canonical && (snap.tip.Some? ==> snap.tip.value.height != height - 1)
    ensures ParentIdForHeight(snap, height).Err?
  {
  }

  /** After a step that stops at a root mismatch the node neither mines nor takes gossip for its next height: there is
      no parent to put a block on. */
  lemma StuckAfterMismatch(host: Host, book: Book, genesis: Core, s: Chain, e: Event, t: Chain, next: Event)
    requires Inv(host, book, genesis, s) && Next(host, book, s, e, t) && StopsAtMismatch(host, book, s, e)
    requires Allowed(host, book, t, next)
    requires next.Mined? || (next.Gossip? && next.block.height == t.snap.core.counters.height + 1)
    ensures Effect(host, book, t, next).0 == t && Effect(host, book, t, next).1.Some?
  {
    hide Inv, Allowed, Effect, TriesReorg, ReorgFrom, Stopped;
    StepFromInv(host, book, genesis, s, e);
    if next.Mined? {
      OverrunMinesNothing(host, book, t, next);
    } else {
      OverrunTakesNothing(host, book, t, next);
    }
  }

  lemma OverrunMinesNothing(host: Host, book: Book, s: Chain, e: Event)
    requires Overrun(s) && Allowed(host, book, s, e) && e.Mined?
    ensures Effect(host, book, s, e).0 == s && Effect(host, book, s, e).1.Some?
  {
    hide WellFormed, PreviewBlock, CommitRow, TxHashes, RewardForBlock, ZkClaimsOk, ParentIdForHeight, Placeable,
         ApplyBlock;
    NoParentPastTheChain(s.snap, s.snap.core.counters.height + 1);
  }

  lemma OverrunTakesNothing(host: Host, book: Book, s: Chain, e: Event)
    requires Overrun(s) && Allowed(host, book, s, e)
    requires e.Gossip? && e.block.height == s.snap.core.counters.height + 1
    ensures Effect(host, book, s, e).0 == s && Effect(host, book, s, e).1.Some?
  {
    hide WellFormed, PreviewBlock, CommitRow, CheckRemote, RivalRemote, RivalRow, ParentIdForHeight, Placeable;
    NoParentPastTheChain(s.snap, s.snap.core.counters.height + 1);
  }

  // A step that does not stop halfway leaves the replayed state alone or makes the tip heavier.
  lemma StepProgress(host: Host, book: Book, genesis: Core, s: Chain, e: Event, t: Chain)
    requires Inv(host, book, genesis, s) && Next(host, book, s, e, t) && !StopsHalfway(host, book, s, e)
    ensures Inv(host, book, genesis, t) && Progress(s, t)
  {
    hide Inv, Allowed, Effect, TriesReorg, ReorgFrom, Stopped;
    StepFromInv(host, book, genesis, s, e);
  }

  // A rival sits at the tip's own height, so its branch leaves the chain below the tip.
  lemma RivalLeavesBelow(host: Host, book: Book, genesis: Core, s: Chain, e: Event)
    requires e.Gossip? && Inv(host, book, genesis, s) && Allowed(host, book, s, e) && TriesReorg(host, s, e)
    requires Inv(host, book, genesis, ReorgFrom(host, s, e)) && Begins(ReorgFrom(host, s, e), Target(e))
    ensures AncestorHeight(ReorgFrom(host, s, e), Target(e)) < s.snap.core.counters.height
  {
    hide ExtendSnap, RestoreSnap, ReplayBlocks, WellFormed, Linked, UndoRowsOk, Inv, CheckRemote, Placeable, Previewed,
         AncestorHeight, BranchTo, CommonAncestor;
    var u, b := ReorgFrom(host, s, e), e.block;
    ParentIsTop(host, book, genesis, s);
    BelowTopIsKnown(host, book, genesis, s);
    assert RivalRow(host, s, b).Some?;
    assert u.records[b.id].height == b.height;
    InvParts(host, book, genesis, u);
    BeginsPlan(host, book, genesis, u, b.id);
    TipRowStored(host, book, genesis, u);
  }

  lemma BelowTopIsKnown(host: Host, book: Book, genesis: Core, s: Chain)
    requires Inv(host, book, genesis, s)
    ensures ParentIdForHeight(s.snap, s.snap.core.counters.height).Ok?
  {
    hide ExtendSnap, RestoreSnap, ReplayBlocks, UndoRowsOk;
  }

  lemma TipRowStored(host: Host, book: Book, genesis: Core, s: Chain)
    requires Inv(host, book, genesis, s) && s.snap.tip.Some?
    ensures var n := s.snap.core.counters.height;
            && n in s.snap.canonical && s.snap.canonical[n] == s.snap.tip.value.blockId
            && s.snap.canonical[n] in s.records
            && s.records[s.snap.canonical[n]].cumWeight == s.snap.tip.value.cumWeight
  {
    hide ExtendSnap, RestoreSnap, ReplayBlocks, UndoRowsOk, WellFormed;
    InvShape(host, book, genesis, s);
  }

  // A backfilled branch was weighed again, so its blocks outweigh their parents.
  lemma BackfillOutweighs(host: Host, s: Chain, newTip: string)
    requires WellFormed(s.records) && Linked(s) && newTip in s.records && s.snap.tip.Some? && Branch(s, newTip).Ok?
    requires s.snap.core.counters.height in s.snap.canonical
    requires s.snap.tip.value.blockId == s.snap.canonical[s.snap.core.counters.height]
    requires WellFormed(ReweighedStore(host, s, newTip).records) && Begins(ReweighedStore(host, s, newTip), newTip)
    ensures BranchOutweighs(ReweighedStore(host, s, newTip), newTip)
  {
    hide WellFormed, Linked, Reweighed, CommonAncestor, BranchTo, Plan, Rising, PlacedAs, Outweighs, Placement, Ids;
    var u, tipId, bs := ReweighedStore(host, s, newTip), s.snap.tip.value.blockId, Branch(s, newTip).value;
    assert 1 <= s.snap.core.counters.height by {
      CanonicalIsNumbered(s, s.snap.core.counters.height);
    }
    var k := PlanExists(s, tipId, newTip);
    PlanIsOffChain(s, newTip, k, bs);
    ReweighedKeeps(host, s.records, bs);
    ReweighedOutweighs(host, s.records, bs);
    SameWalks(s.records, u.records, {}, Some(tipId));
    SameWalks(s.records, u.records, AncestorIds(s.records, Some(tipId)), Some(newTip));
    assert Ancestor(u, newTip) == Ancestor(s, newTip) by {
      SameAncestors(s.records, u.records, tipId, newTip);
    }
    SameBranch(s.records, u.records, Ancestor(s, newTip), Some(newTip));
  }

  lemma SameAncestors(a: map<string, BlockRecord>, b: map<string, BlockRecord>, tipId: string, newTip: string)
    requires SameForest(a, b)
    ensures CommonAncestor(a, tipId, newTip) == CommonAncestor(b, tipId, newTip)
  {
    hide WellFormed;
    SameWalks(a, b, {}, Some(tipId));
    SameWalks(a, b, AncestorIds(a, Some(tipId)), Some(newTip));
  }

  // A step's reorganisation stops on a lighter chain only if it undid the tip.
  lemma LighterStep(host: Host, book: Book, genesis: Core, s: Chain, e: Event)
    requires Inv(host, book, genesis, s) && Allowed(host, book, s, e) && TriesReorg(host, s, e)
    requires Inv(host, book, genesis, ReorgFrom(host, s, e))
    requires TopWeight(Stopped(host, book, s, e)) < TipWeight(s)
    ensures Unwinds(host, book, s, e)
  {
    hide ExtendSnap, RestoreSnap, ReplayBlocks, WellFormed, Linked, UndoRowsOk, Inv, CheckRemote, Placeable, Previewed,
         AncestorHeight, StopChain, TopWeight, TipWeight, RivalRow, ReweighedStore, BranchTo, CommonAncestor,
         BranchOutweighs;
    var u := ReorgFrom(host, s, e);
    ReorgFromKeepsInv(host, book, genesis, s, e);
    InvParts(host, book, genesis, s);
    InvParts(host, book, genesis, u);
    if Begins(u, Target(e)) {
      if e.Gossip? {
        RivalLeavesBelow(host, book, genesis, s, e);
      } else {
        TipRowStored(host, book, genesis, s);
        BackfillOutweighs(host, s, e.newTip);
      }
    }
    SameTipWeight(s, u);
    LighterIsUnwound(host, book, e.clock, genesis, u, Target(e));
  }

  /** The tip loses weight exactly when a reorganisation stops on a chain whose top weighs less; only one
      that undid the tip and then failed does. */
  lemma TipDropsIff(host: Host, book: Book, genesis: Core, s: Chain, e: Event, t: Chain)
    requires Inv(host, book, genesis, s) && Next(host, book, s, e, t)
    ensures TriesReorg(host, s, e) ==> Inv(host, book, genesis, ReorgFrom(host, s, e))
    ensures TipWeight(t) < TipWeight(s)
            <==> TriesReorg(host, s, e) && TopWeight(Stopped(host, book, s, e)) < TipWeight(s)
    ensures TipWeight(t) < TipWeight(s) ==> Unwinds(host, book, s, e) && Effect(host, book, s, e).1.Some?
  {
    hide Inv, Allowed, Effect, TriesReorg, ReorgFrom, Stopped, Unwinds;
    StepFromInv(host, book, genesis, s, e);
    if TipWeight(t) < TipWeight(s) {
      LighterStep(host, book, genesis, s, e);
    }
  }

  // ----- the store and the money of a step, from any state

  lemma CommitKeepsStore(host: Host, book: Book, now: nat, s: Chain, row: BlockRecord, weight: nat)
    requires WellFormed(s.records) && Placeable(s, row) && weight <= 1_100
    requires row.cumWeight == CumWeight(s.records, row.parent, weight)
    ensures WellFormed(CommitRow(host, book, now, s, row).0.records)
  {
    hide WellFormed, CommitRow, Placeable, CumWeight;
    PlacedRowWeighs(s, row, weight);
    if CommitRow(host, book, now, s, row).1.Ok? {
      PlacedRowLists(s, row);
      CommitExtends(host, book, now, s, row);
      FlagsKeepWellFormed(s.records[row.id := row], s.records[row.id := Strip(row)]);
    } else {
      FailedCommit(host, book, now, s, row);
    }
  }

  lemma PlacedRowLists(s: Chain, row: BlockRecord)
    requires Placeable(s, row)
    ensures |row.hashes| == |row.txs|
  {
    assert Placed(s.records[row.id := row], row.id);
  }

  // Every step keeps the block store well formed.
  lemma StepKeepsStore(host: Host, book: Book, s: Chain, e: Event, t: Chain)
    requires Next(host, book, s, e, t)
    ensures WellFormed(t.records)
  {
    hide WellFormed, CheckRemote, Placeable, Previewed, Reorg, RivalRow, CommonAncestor, BranchTo, Reweighed, ReorgFrom,
         MinedRow, Mine, ExtendRemote, CommitRow, RivalRemote, BackfillReorg, SameButFlags, CumWeight, MinePlan,
         RemoteRow;
    if e.Mined? {
      if MinedRow(host, book, s, e).Some? {
        MinedCommits(host, book, s, e);
        CommitKeepsStore(host, book, e.now, s, MinedRow(host, book, s, e).value, ProducerWeight(host, e.producer));
      } else {
        MinedNothing(host, book, s, e);
      }
    } else if e.Gossip? && e.block.height == s.snap.core.counters.height + 1 {
      NextGossipCommits(host, book, s, e);
      if Previewed(host, book, e.previewAt, s, e.block) {
        var row := RemoteRow(host, s, e.block).value;
        CommitKeepsStore(host, book, e.clock(row.height), s, row, ProducerWeight(host, row.producer));
      }
    } else if TriesReorg(host, s, e) {
      ReorgFromStore(host, book, s, e);
      TriedReorg(host, book, s, e);
      ReorgKeepsFlags(host, book, e.clock, ReorgFrom(host, s, e), Target(e));
      FlagsKeepWellFormed(ReorgFrom(host, s, e).records, t.records);
    } else if e.Candidate? {
      if BackfillRow(host, s, e.block).Ok? {
        var row := BackfillRow(host, s, e.block).value;
        PlacedRowWeighs(s, row, ProducerWeight(host, row.producer));
      }
    } else if !e.Prune? {
      Untried(host, book, s, e);
    }
  }

  /** The state a step's unwinding leaves; the state itself when it unwinds nothing. */
  ghost function UnwoundBy(host: Host, book: Book, s: Chain, e: Event): Chain
    requires Allowed(host, book, s, e)
  {
    if !TriesReorg(host, s, e) then s
    else
      ReorgFromStore(host, book, s, e);
      Unwound(ReorgFrom(host, s, e), Target(e))
  }

  /** The step undoes its tip: a reorganisation begins, from below the tip, with the tip's undo row present. */
  ghost predicate Unwinds(host: Host, book: Book, s: Chain, e: Event)
    requires Allowed(host, book, s, e)
  {
    && TriesReorg(host, s, e)
    && (ReorgFromStore(host, book, s, e); Begins(ReorgFrom(host, s, e), Target(e)))
    && var u := ReorgFrom(host, s, e);
       Ancestor(u, Target(e)) != u.snap.tip.value.blockId && u.snap.tip.value.blockId in u.undo
  }

  lemma NothingUnwound(host: Host, book: Book, s: Chain, e: Event)
    requires Allowed(host, book, s, e) && !Unwinds(host, book, s, e)
    ensures UnwoundBy(host, book, s, e).snap == s.snap
  {
    hide WellFormed, CheckRemote, Placeable, Previewed, RivalRow, CommonAncestor, BranchTo, Reweighed, ReorgFrom,
         UnwindOne;
    if TriesReorg(host, s, e) {
      ReorgFromStore(host, book, s, e);
      var u := ReorgFrom(host, s, e);
      if Begins(u, Target(e)) && Ancestor(u, Target(e)) != u.snap.tip.value.blockId {
        UnwindStep(u, u.snap.tip.value.blockId, Ancestor(u, Target(e)));
        NoRowNoUndo(u, u.snap.tip.value.blockId);
      }
    }
  }

  lemma NoRowNoUndo(s: Chain, id: string)
    requires id !in s.undo
    ensures UnwindOne(s, id).1.Err? && UnwindOne(s, id).0 == s
  {
  }

  lemma UnwoundByKeepsInv(host: Host, book: Book, genesis: Core, s: Chain, e: Event)
    requires Inv(host, book, genesis, s) && Allowed(host, book, s, e)
    ensures Inv(host, book, genesis, UnwoundBy(host, book, s, e))
  {
    hide Inv, CheckRemote, Placeable, Previewed, RivalRow, CommonAncestor, BranchTo, Reweighed, ReorgFrom, WellFormed,
         Unwound;
    if TriesReorg(host, s, e) {
      ReorgFromKeepsInv(host, book, genesis, s, e);
      ReorgFromInv(host, book, e.clock, genesis, ReorgFrom(host, s, e), Target(e));
    }
  }

  // Past its unwinding every step conserves, from any state and however it ends.
  lemma StepConserves(host: Host, book: Book, s: Chain, e: Event, t: Chain)
    requires Next(host, book, s, e, t) && SoundCore(UnwoundBy(host, book, s, e).snap.core)
    ensures SameMoney(UnwoundBy(host, book, s, e).snap.core, t.snap.core)
  {
    hide WellFormed, CheckRemote, Placeable, Previewed, Reorg, RivalRow, CommonAncestor, BranchTo, Reweighed, ReorgFrom,
         MinedRow, Mine, ExtendRemote, CommitRow, RivalRemote, BackfillReorg, SoundCore, CumWeight, MinePlan,
         RemoteRow, Unwound, Sum;
    if e.Mined? {
      if MinedRow(host, book, s, e).Some? {
        MinedCommits(host, book, s, e);
        CommitConserves(host, book, e.now, s, MinedRow(host, book, s, e).value);
      } else {
        MinedNothing(host, book, s, e);
      }
    } else if e.Gossip? && e.block.height == s.snap.core.counters.height + 1 {
      NextGossipCommits(host, book, s, e);
      if Previewed(host, book, e.previewAt, s, e.block) {
        var row := RemoteRow(host, s, e.block).value;
        CommitConserves(host, book, e.clock(row.height), s, row);
      }
    } else if TriesReorg(host, s, e) {
      ReorgFromStore(host, book, s, e);
      TriedReorg(host, book, s, e);
      ReorgConserves(host, book, e.clock, ReorgFrom(host, s, e), Target(e));
    } else if e.Backfilled? || e.Gossip? {
      Untried(host, book, s, e);
    }
  }

  // ----- runs

  function Start(genesis: Core): Chain {
    Chain(Snap(genesis, map[], None, map[]), map[], map[], map[])
  }

  ghost predicate IsRun(host: Host, book: Book, genesis: Core, states: seq<Chain>, events: seq<Event>) {
    && genesis.counters.height == 0
    && |states| == |events| + 1
    && states[0] == Start(genesis)
    && forall i, j :: 0 <= i < |events| && j == i + 1 ==> Next(host, book, states[i], events[i], states[j])
  }

  ghost predicate NoMismatch(host: Host, book: Book, states: seq<Chain>, events: seq<Event>, n: nat)
    requires n <= |events| <= |states|
  {
    forall p :: 0 <= p < n ==> !StopsAtMismatch(host, book, states[p], events[p])
  }

  // Until a step stops at a root mismatch, the ledger is the replay of its canonical chain.
  lemma {:induction false} RunKeepsInv(host: Host, book: Book, genesis: Core, states: seq<Chain>, events: seq<Event>,
                                       i: nat)
    requires IsRun(host, book, genesis, states, events) && i < |states| && NoMismatch(host, book, states, events, i)
    ensures Inv(host, book, genesis, states[i])
  {
    hide Next, Inv, StopsAtMismatch;
    if i == 0 {
      GenesisInv(host, book, genesis);
    } else {
      RunKeepsInv(host, book, genesis, states, events, i - 1);
      StepKeepsInvIff(host, book, genesis, states[i - 1], events[i - 1], states[i]);
    }
  }

  /** Along a run every state up to the i-th is the replay of its chain exactly when no step before it
      stopped at a root mismatch. */
  lemma RunKeepsInvIff(host: Host, book: Book, genesis: Core, states: seq<Chain>, events: seq<Event>, i: nat)
    requires IsRun(host, book, genesis, states, events) && i < |states|
    ensures (forall j :: 0 <= j <= i ==> Inv(host, book, genesis, states[j]))
            <==> NoMismatch(host, book, states, events, i)
  {
    hide Next, Inv, StopsAtMismatch;
    if NoMismatch(host, book, states, events, i) {
      forall j | 0 <= j <= i ensures Inv(host, book, genesis, states[j]) {
        RunKeepsInv(host, book, genesis, states, events, j);
      }
    } else {
      var p :| 0 <= p < i && StopsAtMismatch(host, book, states[p], events[p]);
      if Inv(host, book, genesis, states[p]) {
        StepKeepsInvIff(host, book, genesis, states[p], events[p], states[p + 1]);
      }
    }
  }

  // Along a run the tip's weight only drops where a step stops halfway, and otherwise every change of
  // the replayed state raises it.
  lemma {:induction false} RunGainsWeight(host: Host, book: Book, genesis: Core, states: seq<Chain>, events: seq<Event>,
                                          i: nat, j: nat)
    requires IsRun(host, book, genesis, states, events) && i <= j < |states|
    requires NoMismatch(host, book, states, events, i)
    requires forall p :: i <= p < j ==> !StopsHalfway(host, book, states[p], events[p])
    ensures NoMismatch(host, book, states, events, j)
    ensures states[i].snap == states[j].snap || TipWeight(states[j]) > TipWeight(states[i])
  {
    hide Next, Inv, Allowed, Effect;
    if i < j {
      RunGainsWeight(host, book, genesis, states, events, i, j - 1);
      RunKeepsInv(host, book, genesis, states, events, j - 1);
      StepProgress(host, book, genesis, states[j - 1], events[j - 1], states[j]);
    }
  }

  // Between steps that stop halfway, no run comes back to a tip it has left.
  lemma NoReturnToATip(host: Host, book: Book, genesis: Core, states: seq<Chain>, events: seq<Event>, i: nat, m: nat,
                       j: nat)
    requires IsRun(host, book, genesis, states, events) && i <= m <= j < |states|
    requires NoMismatch(host, book, states, events, i)
    requires forall p :: i <= p < j ==> !StopsHalfway(host, book, states[p], events[p])
    requires states[i].snap.tip == states[j].snap.tip
    ensures states[m].snap == states[i].snap
  {
    hide StopsHalfway, StopsAtMismatch;
    RunGainsWeight(host, book, genesis, states, events, i, m);
    RunGainsWeight(host, book, genesis, states, events, m, j);
  }

  /** No reorganisation undoes its tip once a block has been applied and not recorded. */
  ghost predicate UnwindsReplays(host: Host, book: Book, states: seq<Chain>, events: seq<Event>, n: nat)
    requires n <= |events| <= |states|
  {
    forall p :: 0 <= p < n && Allowed(host, book, states[p], events[p]) && Unwinds(host, book, states[p], events[p])
      ==> NoMismatch(host, book, states, events, p)
  }

  // Across mining, gossip, backfill, undo and reorganisation, failed steps included: circulation plus burned
  // is constant, the supply exceeds circulation by a constant, and it never passes the cap.
  lemma {:induction false} RunConserves(host: Host, book: Book, genesis: Core, states: seq<Chain>, events: seq<Event>,
                                        i: nat)
    requires IsRun(host, book, genesis, states, events) && i < |states| && SoundCore(genesis)
    requires UnwindsReplays(host, book, states, events, i)
    ensures SameMoney(genesis, states[i].snap.core)
  {
    hide Inv, Allowed, Effect, Unwinds, SoundCore, Sum, UnwoundBy, StopsAtMismatch;
    if i > 0 {
      var s, e := states[i - 1], events[i - 1];
      RunConserves(host, book, genesis, states, events, i - 1);
      if Unwinds(host, book, s, e) {
        RunKeepsInv(host, book, genesis, states, events, i - 1);
        UnwoundByKeepsInv(host, book, genesis, s, e);
        InvConserves(host, book, genesis, UnwoundBy(host, book, s, e));
      } else {
        NothingUnwound(host, book, s, e);
      }
      StepConserves(host, book, s, e, states[i]);
      MoneyCompose(genesis, UnwoundBy(host, book, s, e).snap.core, states[i].snap.core);
    }
  }

  // ----- edges the run leaves to its guard

  // With fresh hashes a block whose root was previewed commits exactly when it passes the apply's
  // extra checks: the mismatch branch after the apply is never taken.
  lemma PreviewedBlockCommits(host: Host, book: Book, previewAt: nat, now: nat, s: Chain, row: BlockRecord)
    requires |row.hashes| == |row.txs| && previewAt <= now && Fresh(s.snap.core, row.hashes)
    requires PreviewBlock(host, book, s.snap.core, previewAt, row.txs, row.producer, row.reward.total).Ok?
    requires host.root(PreviewBlock(host, book, s.snap.core, previewAt, row.txs, row.producer, row.reward.total).value)
             == row.root
    ensures CommitRow(host, book, now, s, row).1.Ok? <==> AllExtraChecks(host, s.snap.core, row.txs)
  {
    hide PrepareUndo, PreviewBlock;
    PreviewEqualsApply(host, book, s.snap.core, previewAt, now, row.height, row.txs, row.hashes, row.producer,
                       row.reward.total);
    if AllExtraChecks(host, s.snap.core, row.txs) {
      StoredBalancesAreTheMap(host, book, s.snap.core, now, row.height, row.txs, row.hashes, row.producer,
                              row.reward.total);
    }
  }

  // A height-1 block that names a parent is not refused; once committed, the store is no longer one
  // where height-1 blocks name none, and with it goes the invariant.
  lemma NamedParentBreaksStore(host: Host, book: Book, genesis: Core, previewAt: nat, now: nat, s: Chain,
                               b: RemoteBlock)
    requires b.height == 1 && Trimmed(b.parent).Some? && ExtendRemote(host, book, previewAt, now, s, b).1.Ok?
    ensures var t := ExtendRemote(host, book, previewAt, now, s, b).0;
            !WellFormed(t.records) && !Inv(host, book, genesis, t)
  {
    hide CheckRemote, PreviewBlock, CommitRow, Linked, ReplayBlocks, UndoRowsOk, WellFormed;
    var row := RemoteRow(host, s, b).value;
    CommitExtends(host, book, now, s, row);
    var records := ExtendRemote(host, book, previewAt, now, s, b).0.records;
    assert records[row.id].parent.Some? && records[row.id].height == 1;
    if WellFormed(records) {
      StoredRowOk(records, row.id);
    }
  }
}
