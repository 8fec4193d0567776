/** The chain's rows and the undo record of one block (tet-core/src/ledger.rs:621-936). */
module Undo {
  import opened Basics
  import opened Text
  import opened Fees
  import opened Protocol

  datatype Reward = Reward(base: nat, compute: nat, total: nat)

  datatype BlockRecord = BlockRecord(
    height: nat, id: string, parent: Option<string>, producer: string, hashes: seq<string>, txs: seq<Envelope>,
    root: string, reward: Reward, weight: nat, cumWeight: nat, canonical: bool)

  datatype Tip = Tip(height: nat, blockId: string, cumWeight: nat, root: string)

  datatype Summary = Summary(height: nat, blockId: string, root: string, txCount: nat)

  datatype TxRow = TxRow(hash: string, height: nat, position: nat, canonical: bool, env: Envelope)

  datatype CounterKey = Supply | Burned | FeeTotal | Height | AirdropCount

  /** Old values of the rows a block may write; `None` means the row did not exist. */
  datatype BlockUndo = BlockUndo(
    id: string, height: nat,
    balances: map<string, Option<nat>>,
    counters: map<CounterKey, nat>,
    meta: map<MetaKey, Option<MetaVal>>,
    registry: map<string, Option<WorkerRow>>,
    index: map<string, Option<TxRow>>,
    canonical: map<nat, Option<string>>,
    tip: Option<Tip>,
    summaries: map<nat, Option<Summary>>)

  /** The part of the chain state that replaying blocks determines. */
  datatype Snap = Snap(core: Core, canonical: map<nat, string>, tip: Option<Tip>, summaries: map<nat, Summary>)

  datatype Chain = Chain(snap: Snap, index: map<string, TxRow>, records: map<string, BlockRecord>,
                         undo: map<string, BlockUndo>)

  // ----- capture and restore of one tree

  function Captured<K(==), V>(tree: map<K, V>, keys: set<K>): map<K, Option<V>> {
    map k | k in keys :: if k in tree then Some(tree[k]) else None
  }

  function Restored<K(==), V>(tree: map<K, V>, kvs: map<K, Option<V>>): map<K, V> {
    map k | k in tree.Keys + kvs.Keys && (k in kvs ==> kvs[k].Some?) :: if k in kvs then kvs[k].value else tree[k]
  }

  lemma RestoreUndoesWrites<K, V>(before: map<K, V>, after: map<K, V>, keys: set<K>)
    requires forall k :: k !in keys ==> (k in before <==> k in after) && (k in before ==> before[k] == after[k])
    ensures Restored(after, Captured(before, keys)) == before
  {
    var r := Restored(after, Captured(before, keys));
    forall k ensures k in r <==> k in before {
    }
    forall k | k in before ensures r[k] == before[k] {
    }
  }

  function Count(c: Counters, k: CounterKey): nat {
    match k
    case Supply => c.supply
    case Burned => c.burned
    case FeeTotal => c.fees
    case Height => c.height
    case AirdropCount => c.airdrops
  }

  function RestoredCounters(c: Counters, kvs: map<CounterKey, nat>): Counters {
    Counters(if Supply in kvs then kvs[Supply] else c.supply,
             if Burned in kvs then kvs[Burned] else c.burned,
             if FeeTotal in kvs then kvs[FeeTotal] else c.fees,
             if Height in kvs then kvs[Height] else c.height,
             if AirdropCount in kvs then kvs[AirdropCount] else c.airdrops)
  }

  lemma CountersRestored(before: Counters, after: Counters, keys: set<CounterKey>)
    requires forall k :: k !in keys ==> Count(before, k) == Count(after, k)
    ensures RestoredCounters(after, map k | k in keys :: Count(before, k)) == before
  {
    assert forall k :: k in keys || Count(before, k) == Count(after, k);
    assert Count(before, Supply) == before.supply && Count(after, Supply) == after.supply;
    assert Count(before, Burned) == before.burned && Count(after, Burned) == after.burned;
    assert Count(before, FeeTotal) == before.fees && Count(after, FeeTotal) == after.fees;
    assert Count(before, Height) == before.height && Count(after, Height) == after.height;
    assert Count(before, AirdropCount) == before.airdrops && Count(after, AirdropCount) == after.airdrops;
  }

  // ----- which keys a block's undo record captures

  datatype UndoKeys = UndoKeys(balances: set<string>, counters: set<CounterKey>, meta: set<MetaKey>,
                               registry: set<string>, index: set<string>)
  {
    function Plus(o: UndoKeys): UndoKeys {
      UndoKeys(balances + o.balances, counters + o.counters, meta + o.meta, registry + o.registry, index + o.index)
    }
  }

  function TxUndoKeys(host: Host, env: Envelope, hash: string): UndoKeys {
    match env.tx
    case Transfer(f, t, amount, feeBps) =>
      var charged := Charge(TransferFee(feeBps), amount);
      var taxed := charged.Ok? && charged.value.Fee() > 0;
      UndoKeys({Norm(f), Norm(t)} + (if taxed then {WORKER_POOL} else {}),
               if taxed then {Supply, Burned, FeeTotal} else {}, {Applied(hash)}, {}, {hash})
    case EnterpriseInference(_, _, _, _, _, _, _) => UndoKeys({}, {}, {TaskOf(hash)}, {}, {hash})
    case VerifyZkProof(taskId, _, _, receipt) =>
      UndoKeys({}, {}, {ZkVerified(host.sha(receipt))} + (if Trim(taskId) == "" then {} else {TaskOf(Trim(taskId))}),
               {}, {hash})
    case InitialAirdrop(w) => UndoKeys({WORKER_POOL, Norm(w)}, {AirdropCount}, {Applied(hash)}, {}, {hash})
    case FileFee(f, storage, _, _) =>
      UndoKeys({Norm(f)} + (if host.treasury.Some? then {host.treasury.value} else {})
               + (if Norm(storage) == "" then {} else {Norm(storage)}),
               {Supply, Burned, FeeTotal}, {Applied(hash)}, {}, {hash})
    case WorkerRegister(w, _, _, _, _) => UndoKeys({}, {}, {Applied(hash)}, {Norm(w)}, {hash})
    case ControlPlane(_) => UndoKeys({}, {}, {}, {}, {hash})
  }

  function AllKeys(base: UndoKeys, parts: seq<UndoKeys>): UndoKeys {
    if parts == [] then base else AllKeys(base, parts[..|parts| - 1]).Plus(parts[|parts| - 1])
  }

  // Transactions are paired with hashes as far as both lists go.
  function Pairs(txs: seq<Envelope>, hashes: seq<string>): (n: nat)
    ensures n <= |txs| && n <= |hashes|
  {
    if |txs| <= |hashes| then |txs| else |hashes|
  }

  function TxKeyParts(host: Host, txs: seq<Envelope>, hashes: seq<string>): (parts: seq<UndoKeys>)
    ensures |parts| == Pairs(txs, hashes)
    ensures forall i :: 0 <= i < |parts| ==> parts[i] == TxUndoKeys(host, txs[i], hashes[i])
  {
    seq(Pairs(txs, hashes), i requires 0 <= i < Pairs(txs, hashes) => TxUndoKeys(host, txs[i], hashes[i]))
  }

  function BlockUndoKeys(host: Host, txs: seq<Envelope>, hashes: seq<string>, producer: string, reward: nat): UndoKeys {
    AllKeys(UndoKeys(if reward > 0 then {WORKER_POOL, Norm(producer)} else {}, {Height}, {}, {}, {}),
            TxKeyParts(host, txs, hashes))
  }

  function PrepareUndo(host: Host, s: Chain, id: string, height: nat, txs: seq<Envelope>, hashes: seq<string>,
                       producer: string, reward: nat): BlockUndo
  {
    var keys := BlockUndoKeys(host, txs, hashes, producer, reward);
    var core := s.snap.core;
    BlockUndo(id, height,
              Captured(core.balances, keys.balances),
              map k | k in keys.counters :: Count(core.counters, k),
              Captured(core.meta, keys.meta),
              Captured(core.registry, keys.registry),
              Captured(s.index, keys.index),
              Captured(s.snap.canonical, {height}),
              s.snap.tip,
              Captured(s.snap.summaries, {height}))
  }

  function RestoreSnap(snap: Snap, u: BlockUndo): Snap {
    Snap(Core(Restored(snap.core.balances, u.balances), RestoredCounters(snap.core.counters, u.counters),
              Restored(snap.core.meta, u.meta), Restored(snap.core.registry, u.registry)),
         Restored(snap.canonical, u.canonical), u.tip, Restored(snap.summaries, u.summaries))
  }

  // `RootMismatch` is the one error found after a block has been applied.
  datatype ChainError = MissingUndo | RootMismatch | Rejected(reason: string)

  // `apply_block_undo`: every captured tree goes back; records and undo rows stay.
  function ApplyUndo(s: Chain, id: string): Result<Chain, ChainError> {
    if id !in s.undo then Err(MissingUndo)
    else
      var u := s.undo[id];
      Ok(s.(snap := RestoreSnap(s.snap, u), index := Restored(s.index, u.index)))
  }

  // ----- pruning

  function Pruned(undo: map<string, BlockUndo>, height: nat, depth: nat): map<string, BlockUndo> {
    map id | id in undo && undo[id].height >= SatSub(height, depth) :: undo[id]
  }
}
