/** The public signature registry: one record tree, four ordered indexes and a byte counter
    (tet-core/src/sigs.rs:273-393). A record's SHA-256 is the number its 64 hex digits spell, so that
    key order is number order; an ordered tree scanned by a fixed-width prefix is a sorted list per prefix. */
module Sigs {
  import opened Basics

  const MAX_RECORDS_PER_SIGNER: nat := 1_000
  const SEARCH_MAX: nat := 50
  const SEARCH_SCAN_MAX: nat := 500
  // 64 + 10 + 64 for the record and its proof code, then 64 + 8 + 64 for file and signer, 8 + 64 for time.
  const INDEX_BYTES: nat := 64 + 10 + 64 + 64 + 64 + 8 + 64 + 8 + 64

  type Millis = t: nat | t <= U64_MAX

  datatype Anchor = Anchor(txHash: string, height: nat)

  datatype StoredRecord = StoredRecord(
    bytes: string, hash: nat, file: string, signer: string, publishedAt: Millis, anchor: Option<Anchor>)

  datatype SigsError = BadRecord | BadConsent | SignerFull | StoreFull | UnknownRecord

  /** Signature checking, hashing and encoding; `verify` gives the file and the signer of a good record. */
  datatype Checker = Checker(
    verify: string -> Option<(string, string)>,
    consents: (string, string) -> bool,
    sha: string -> nat,
    encodedLen: StoredRecord -> nat)

  // ----- ordered index entries

  datatype Stamp = Stamp(at: nat, hash: nat)

  predicate Before(a: Stamp, b: Stamp) {
    a.at < b.at || (a.at == b.at && a.hash < b.hash)
  }

  ghost predicate Ascending(s: seq<Stamp>) {
    forall i, j :: 0 <= i < j < |s| ==> Before(s[i], s[j])
  }

  function Insert(s: seq<Stamp>, x: Stamp): seq<Stamp> {
    if s == [] then [x]
    else
      var n := |s| - 1;
      if s[n] == x then s
      else if Before(s[n], x) then s + [x]
      else Insert(s[..n], x) + [s[n]]
  }

  lemma BeforeIsAnOrder(a: Stamp, b: Stamp, c: Stamp)
    ensures a == b || Before(a, b) || Before(b, a)
    ensures Before(a, b) && Before(b, c) ==> Before(a, c)
  {
  }

  lemma {:induction false} InsertKeepsOrder(s: seq<Stamp>, x: Stamp)
    requires Ascending(s)
    ensures Ascending(Insert(s, x))
    ensures forall y :: y in Insert(s, x) <==> y in s || y == x
  {
    hide Before;
    if s != [] {
      var n := |s| - 1;
      assert s == s[..n] + [s[n]];
      BeforeIsAnOrder(s[n], x, x);
      if s[n] == x {
      } else if Before(s[n], x) {
        forall i | 0 <= i < |s| ensures Before(s[i], x) {
          BeforeIsAnOrder(s[i], s[n], x);
        }
      } else {
        InsertKeepsOrder(s[..n], x);
        var r := Insert(s[..n], x);
        forall i | 0 <= i < |r| ensures Before(r[i], s[n]) {
          assert r[i] in r;
          if r[i] in s[..n] {
            var j :| 0 <= j < n && s[..n][j] == r[i];
            assert Before(s[j], s[n]);
          }
        }
      }
    }
  }

  function Scan<K(==)>(index: map<K, seq<Stamp>>, k: K): seq<Stamp> {
    if k in index then index[k] else []
  }

  function Add<K(==)>(index: map<K, seq<Stamp>>, entry: (K, Stamp)): map<K, seq<Stamp>> {
    index[entry.0 := Insert(Scan(index, entry.0), entry.1)]
  }

  // The 40 leading bits of the record's SHA-256.
  function ProofCode(hash: nat): nat {
    hash / 0x1_000000_000000_000000_000000_000000_000000_000000_000000_000000
  }

  function CodeKey(r: StoredRecord): (nat, Stamp) {
    (ProofCode(r.hash), Stamp(0, r.hash))
  }

  function FileKey(r: StoredRecord): (string, Stamp) {
    (r.file, Stamp(r.publishedAt, r.hash))
  }

  function SignerKey(r: StoredRecord): (string, Stamp) {
    (r.signer, Stamp(r.publishedAt, r.hash))
  }

  function TimeKey(r: StoredRecord): ((), Stamp) {
    ((), Stamp(r.publishedAt, r.hash))
  }

  /** An index holds exactly its records' entries, in order. */
  ghost predicate Indexes<K(!new)>(index: map<K, seq<Stamp>>, records: map<nat, StoredRecord>,
                                   key: StoredRecord -> (K, Stamp)) {
    forall k :: Ascending(Scan(index, k)) && ListsExactly(Scan(index, k), records, key, k)
  }

  ghost predicate ListsExactly<K(!new)>(s: seq<Stamp>, records: map<nat, StoredRecord>,
                                        key: StoredRecord -> (K, Stamp), k: K) {
    forall st :: st in s <==> st.hash in records && key(records[st.hash]) == (k, st)
  }

  ghost predicate NamesItsRecord<K(!new)>(key: StoredRecord -> (K, Stamp)) {
    forall r :: key(r).1.hash == r.hash
  }

  lemma AddKeepsIndex<K(!new)>(index: map<K, seq<Stamp>>, records: map<nat, StoredRecord>,
                               key: StoredRecord -> (K, Stamp),
                         r: StoredRecord)
    requires Indexes(index, records, key) && NamesItsRecord(key) && r.hash !in records
    ensures Indexes(Add(index, key(r)), records[r.hash := r], key)
  {
    var grown, more := Add(index, key(r)), records[r.hash := r];
    forall k ensures Ascending(Scan(grown, k)) && ListsExactly(Scan(grown, k), more, key, k) {
      assert Ascending(Scan(index, k)) && ListsExactly(Scan(index, k), records, key, k);
      var old_ := Scan(index, k);
      if k == key(r).0 {
        InsertKeepsOrder(old_, key(r).1);
      }
      forall st ensures st in Scan(grown, k) <==> st.hash in more && key(more[st.hash]) == (k, st) {
        assert st in old_ <==> st.hash in records && key(records[st.hash]) == (k, st);
      }
    }
  }

  // Replacing a record by one with the same key leaves the index right.
  lemma RewriteKeepsIndex<K(!new)>(index: map<K, seq<Stamp>>, records: map<nat, StoredRecord>,
                                   key: StoredRecord -> (K, Stamp),
                             h: nat, r: StoredRecord)
    requires Indexes(index, records, key) && h in records && key(r) == key(records[h])
    ensures Indexes(index, records[h := r], key)
  {
    forall k ensures Ascending(Scan(index, k)) && ListsExactly(Scan(index, k), records[h := r], key, k) {
      assert Ascending(Scan(index, k)) && ListsExactly(Scan(index, k), records, key, k);
    }
  }

  // ----- the registry

  datatype Store = Store(
    records: map<nat, StoredRecord>,
    byCode: map<nat, seq<Stamp>>, byFile: map<string, seq<Stamp>>, bySigner: map<string, seq<Stamp>>,
    byTime: map<(), seq<Stamp>>, bytes: nat)

  const EMPTY_STORE: Store := Store(map[], map[], map[], map[], map[], 0)

  function CostOf(c: Checker, r: StoredRecord): nat {
    c.encodedLen(r.(anchor := None)) + INDEX_BYTES
  }

  function Filed(c: Checker, s: Store, r: StoredRecord): Store {
    Store(s.records[r.hash := r], Add(s.byCode, CodeKey(r)), Add(s.byFile, FileKey(r)), Add(s.bySigner, SignerKey(r)),
          Add(s.byTime, TimeKey(r)), s.bytes + CostOf(c, r))
  }

  function NewRecord(c: Checker, bytes: string, now: Millis): StoredRecord
    requires c.verify(bytes).Some?
  {
    StoredRecord(bytes, c.sha(bytes), c.verify(bytes).value.0, c.verify(bytes).value.1, now, None)
  }

  function Published(c: Checker, cap: nat, s: Store, bytes: string, consent: string, now: Millis)
    : (Store, Result<(StoredRecord, bool), SigsError>)
  {
    if c.verify(bytes).None? then (s, Err(BadRecord))
    else if !c.consents(bytes, consent) then (s, Err(BadConsent))
    else
      var r := NewRecord(c, bytes, now);
      if r.hash in s.records then (s, Ok((s.records[r.hash], false)))
      else if |Scan(s.bySigner, r.signer)| >= MAX_RECORDS_PER_SIGNER then (s, Err(SignerFull))
      else if s.bytes + CostOf(c, r) > cap then (s, Err(StoreFull))
      else (Filed(c, s, r), Ok((r, true)))
  }

  function Anchored(s: Store, hash: nat, anchor: Anchor): (Store, Result<StoredRecord, SigsError>) {
    if hash !in s.records then (s, Err(UnknownRecord))
    else
      var r := s.records[hash];
      if r.anchor.Some? && r.anchor.value.height <= anchor.height then (s, Ok(r))
      else
        var moved := r.(anchor := Some(anchor));
        (s.(records := s.records[hash := moved]), Ok(moved))
  }

  // ----- the invariant

  ghost predicate FourIndexesAgree(s: Store) {
    && Indexes(s.byCode, s.records, CodeKey)
    && Indexes(s.byFile, s.records, FileKey)
    && Indexes(s.bySigner, s.records, SignerKey)
    && Indexes(s.byTime, s.records, TimeKey)
  }

  ghost function Costs(c: Checker, records: map<nat, StoredRecord>): map<nat, nat> {
    map h | h in records :: CostOf(c, records[h])
  }

  ghost predicate Bounded(c: Checker, cap: nat, s: Store) {
    && s.bytes == Sum(Costs(c, s.records)) <= cap
    && forall w :: |Scan(s.bySigner, w)| <= MAX_RECORDS_PER_SIGNER
  }

  ghost predicate Inv(c: Checker, cap: nat, s: Store) {
    && (forall h :: h in s.records ==> s.records[h].hash == h)
    && FourIndexesAgree(s)
    && Bounded(c, cap, s)
  }

  lemma FilingKeepsIndexes(c: Checker, s: Store, r: StoredRecord)
    requires FourIndexesAgree(s) && r.hash !in s.records
    ensures FourIndexesAgree(Filed(c, s, r))
  {
    hide Indexes, Add, ProofCode;
    AddKeepsIndex(s.byCode, s.records, CodeKey, r);
    AddKeepsIndex(s.byFile, s.records, FileKey, r);
    AddKeepsIndex(s.bySigner, s.records, SignerKey, r);
    AddKeepsIndex(s.byTime, s.records, TimeKey, r);
  }

  lemma AnchoringKeepsIndexes(s: Store, h: nat, a: Anchor)
    requires FourIndexesAgree(s) && h in s.records
    ensures FourIndexesAgree(s.(records := s.records[h := s.records[h].(anchor := Some(a))]))
  {
    hide Indexes, ProofCode;
    var r := s.records[h].(anchor := Some(a));
    RewriteKeepsIndex(s.byCode, s.records, CodeKey, h, r);
    RewriteKeepsIndex(s.byFile, s.records, FileKey, h, r);
    RewriteKeepsIndex(s.bySigner, s.records, SignerKey, h, r);
    RewriteKeepsIndex(s.byTime, s.records, TimeKey, h, r);
  }

  lemma {:induction false} InsertGrowsByOne(s: seq<Stamp>, x: Stamp)
    ensures |Insert(s, x)| <= |s| + 1
  {
    if s != [] {
      InsertGrowsByOne(s[..|s| - 1], x);
    }
  }

  lemma FilingKeepsBounds(c: Checker, cap: nat, s: Store, r: StoredRecord)
    requires Bounded(c, cap, s) && r.hash !in s.records
    requires |Scan(s.bySigner, r.signer)| < MAX_RECORDS_PER_SIGNER && s.bytes + CostOf(c, r) <= cap
    ensures Bounded(c, cap, Filed(c, s, r))
  {
    hide Insert, CostOf;
    var t := Filed(c, s, r);
    assert Costs(c, t.records) == Costs(c, s.records)[r.hash := CostOf(c, r)];
    SumUpdate(Costs(c, s.records), r.hash, CostOf(c, r));
    InsertGrowsByOne(Scan(s.bySigner, r.signer), SignerKey(r).1);
    forall w ensures |Scan(t.bySigner, w)| <= MAX_RECORDS_PER_SIGNER {
      assert |Scan(s.bySigner, w)| <= MAX_RECORDS_PER_SIGNER;
    }
  }

  lemma PublishKeepsInv(c: Checker, cap: nat, s: Store, bytes: string, consent: string, now: Millis)
    requires Inv(c, cap, s)
    ensures Inv(c, cap, Published(c, cap, s, bytes, consent, now).0)
  {
    var t := Published(c, cap, s, bytes, consent, now).0;
    if t != s {
      hide FourIndexesAgree, Bounded, Add, CostOf;
      FilingKeepsIndexes(c, s, NewRecord(c, bytes, now));
      FilingKeepsBounds(c, cap, s, NewRecord(c, bytes, now));
    }
  }

  lemma {:induction false} HashesCounted(s: seq<Stamp>)
    requires forall i, j :: 0 <= i < j < |s| ==> s[i].hash != s[j].hash
    ensures |set i | 0 <= i < |s| :: s[i].hash| == |s|
  {
    if s != [] {
      var n := |s| - 1;
      HashesCounted(s[..n]);
      var before := set i | 0 <= i < n :: s[..n][i].hash;
      assert forall i :: 0 <= i < n ==> s[..n][i] == s[i];
      assert (set i | 0 <= i < |s| :: s[i].hash) == before + {s[n].hash};
    }
  }

  // A signer's entries are as many as its records.
  lemma SignerCount(s: Store, signer: string)
    requires Indexes(s.bySigner, s.records, SignerKey) && forall h :: h in s.records ==> s.records[h].hash == h
    ensures |Scan(s.bySigner, signer)| == |set h | h in s.records && s.records[h].signer == signer|
  {
    var all := Scan(s.bySigner, signer);
    assert Ascending(all) && ListsExactly(all, s.records, SignerKey, signer);
    forall i, j | 0 <= i < j < |all| ensures all[i].hash != all[j].hash {
      assert all[i] in all && all[j] in all && Before(all[i], all[j]);
    }
    HashesCounted(all);
    var hashes := set i | 0 <= i < |all| :: all[i].hash;
    forall h ensures h in hashes <==> h in s.records && s.records[h].signer == signer {
      if h in hashes {
        var i :| 0 <= i < |all| && all[i].hash == h;
        assert all[i] in all;
      }
      if h in s.records && s.records[h].signer == signer {
        assert Stamp(s.records[h].publishedAt, h) in all;
      }
    }
    assert hashes == set h | h in s.records && s.records[h].signer == signer;
  }

  /** After any run a publish is taken, as exactly this record, exactly when it verifies, its consent does, its hash is
      new, its signer has fewer than a thousand records and its cost fits the cap. */
  lemma TakenIff(c: Checker, cap: nat, ops: seq<Op>, bytes: string, consent: string, now: Millis)
    ensures var s := Run(c, cap, ops);
            var (t, r) := Published(c, cap, s, bytes, consent, now);
            var good := c.verify(bytes).Some? && c.consents(bytes, consent);
            && (t != s <==>
                  && good && c.sha(bytes) !in s.records
                  && |set h | h in s.records && s.records[h].signer == c.verify(bytes).value.1| < 1_000
                  && s.bytes + c.encodedLen(NewRecord(c, bytes, now)) + 410 <= cap)
            && (t != s ==>
                  && r == Ok((NewRecord(c, bytes, now), true))
                  && t.records == s.records[c.sha(bytes) := StoredRecord(bytes, c.sha(bytes), c.verify(bytes).value.0,
                                                                         c.verify(bytes).value.1, now, None)])
            && (good && c.sha(bytes) in s.records ==> r == Ok((s.records[c.sha(bytes)], false)))
  {
    hide Run, Add, Bounded, Indexes;
    var s := Run(c, cap, ops);
    RunKeepsInv(c, cap, ops);
    if c.verify(bytes).Some? {
      SignerCount(s, c.verify(bytes).value.1);
    }
  }

  lemma AnchorKeepsInv(c: Checker, cap: nat, s: Store, h: nat, a: Anchor)
    requires Inv(c, cap, s)
    ensures Inv(c, cap, Anchored(s, h, a).0)
  {
    var t := Anchored(s, h, a).0;
    if t != s {
      hide FourIndexesAgree;
      AnchoringKeepsIndexes(s, h, a);
      assert Costs(c, t.records) == Costs(c, s.records);
    }
  }

  // ----- runs

  datatype Op = Publish(bytes: string, consent: string, now: Millis) | SetAnchor(hash: nat, anchor: Anchor)

  function Do(c: Checker, cap: nat, s: Store, op: Op): Store {
    match op
    case Publish(bytes, consent, now) => Published(c, cap, s, bytes, consent, now).0
    case SetAnchor(h, a) => Anchored(s, h, a).0
  }

  function Run(c: Checker, cap: nat, ops: seq<Op>): Store {
    if ops == [] then EMPTY_STORE else Do(c, cap, Run(c, cap, ops[..|ops| - 1]), ops[|ops| - 1])
  }

  /** After any publishes and anchorings the four indexes agree with the record tree, the byte counter is the
      sum of what each record cost when published and within the cap, and no signer is over quota. */
  lemma {:induction false} RunKeepsInv(c: Checker, cap: nat, ops: seq<Op>)
    ensures Inv(c, cap, Run(c, cap, ops))
  {
    if ops == [] {
      assert Costs(c, map[]) == map[];
    } else {
      hide Inv, Published, Anchored;
      var s, op := Run(c, cap, ops[..|ops| - 1]), ops[|ops| - 1];
      RunKeepsInv(c, cap, ops[..|ops| - 1]);
      match op
      case Publish(bytes, consent, now) => PublishKeepsInv(c, cap, s, bytes, consent, now);
      case SetAnchor(h, a) => AnchorKeepsInv(c, cap, s, h, a);
    }
  }

  // The anchors offered for a record while it was stored.
  function Offered(c: Checker, cap: nat, ops: seq<Op>, h: nat): seq<Anchor> {
    if ops == [] then []
    else
      var before := ops[..|ops| - 1];
      var op := ops[|ops| - 1];
      if op.SetAnchor? && op.hash == h && h in Run(c, cap, before).records
      then Offered(c, cap, before, h) + [op.anchor] else Offered(c, cap, before, h)
  }

  /** The first offer at the lowest height. */
  ghost predicate FirstLowest(offers: seq<Anchor>, a: Option<Anchor>) {
    if offers == [] then a == None
    else exists i :: 0 <= i < |offers| && a == Some(offers[i])
                     && (forall j :: 0 <= j < |offers| ==> offers[i].height <= offers[j].height)
                     && (forall j :: 0 <= j < i ==> offers[i].height < offers[j].height)
  }

  lemma OneMoreOffer(offers: seq<Anchor>, kept: Option<Anchor>, a: Anchor)
    requires FirstLowest(offers, kept)
    ensures FirstLowest(offers + [a], if kept.Some? && kept.value.height <= a.height then kept else Some(a))
  {
    var more, n := offers + [a], |offers|;
    if offers != [] {
      var i :| 0 <= i < n && kept == Some(offers[i])
               && (forall j :: 0 <= j < n ==> offers[i].height <= offers[j].height)
               && (forall j :: 0 <= j < i ==> offers[i].height < offers[j].height);
      assert more[i] == offers[i];
      if offers[i].height > a.height {
        assert more[n] == a;
      }
    } else {
      assert more[n] == a;
    }
  }

  lemma PublishAnchorsNothing(c: Checker, cap: nat, s: Store, bytes: string, consent: string, now: Millis, h: nat)
    ensures var t := Published(c, cap, s, bytes, consent, now).0;
            if h in s.records then h in t.records && t.records[h] == s.records[h]
            else h in t.records ==> t.records[h].anchor == None
  {
    hide Add, Scan, CostOf;
  }

  lemma AnchoringOneRecord(s: Store, g: nat, a: Anchor, h: nat)
    ensures var t := Anchored(s, g, a).0;
            && (h in t.records <==> h in s.records)
            && (h in s.records ==>
                  var kept := s.records[h].anchor;
                  t.records[h].anchor
                  == if g != h || (kept.Some? && kept.value.height <= a.height) then kept else Some(a))
  {
  }

  /** A record's anchor is the first offer at the lowest height, over every run. */
  lemma {:induction false} AnchorIsTheLowestOffered(c: Checker, cap: nat, ops: seq<Op>, h: nat)
    ensures var s := Run(c, cap, ops);
            if h in s.records then FirstLowest(Offered(c, cap, ops, h), s.records[h].anchor)
            else Offered(c, cap, ops, h) == []
  {
    if ops != [] {
      hide FirstLowest, Published, Anchored;
      var before, op := ops[..|ops| - 1], ops[|ops| - 1];
      AnchorIsTheLowestOffered(c, cap, before, h);
      var s := Run(c, cap, before);
      NothingOffered();
      match op
      case Publish(bytes, consent, now) => PublishAnchorsNothing(c, cap, s, bytes, consent, now, h);
      case SetAnchor(g, a) =>
        AnchoringOneRecord(s, g, a, h);
        if g == h && h in s.records {
          OneMoreOffer(Offered(c, cap, before, h), s.records[h].anchor, a);
        }
    }
  }

  lemma NothingOffered()
    ensures FirstLowest([], None)
  {
  }

  // ----- search

  datatype SigQuery = SigQuery(
    code: Option<nat>, file: Option<string>, signer: Option<string>, fromMs: Option<Millis>, toMs: Option<Millis>)

  predicate Matches(q: SigQuery, r: StoredRecord) {
    && (q.file.Some? ==> r.file == q.file.value)
    && (q.signer.Some? ==> r.signer == q.signer.value)
    && (q.fromMs.Some? ==> r.publishedAt >= q.fromMs.value)
    && (q.toMs.Some? ==> r.publishedAt <= q.toMs.value)
  }

  function First<T>(s: seq<T>, n: nat): seq<T> {
    if |s| <= n then s else s[..n]
  }

  function Reverse(s: seq<Stamp>): (r: seq<Stamp>)
    ensures |r| == |s|
    ensures forall i :: 0 <= i < |s| ==> r[i] == s[|s| - 1 - i]
  {
    if s == [] then [] else [s[|s| - 1]] + Reverse(s[..|s| - 1])
  }

  function Between(s: seq<Stamp>, lo: nat, hi: nat): seq<Stamp> {
    if s == [] then []
    else
      var rest := Between(s[..|s| - 1], lo, hi);
      if lo <= s[|s| - 1].at <= hi then rest + [s[|s| - 1]] else rest
  }

  function Candidates(s: Store, q: SigQuery): seq<Stamp> {
    if q.code.Some? then First(Scan(s.byCode, q.code.value), SEARCH_SCAN_MAX)
    else if q.file.Some? then First(Scan(s.byFile, q.file.value), SEARCH_SCAN_MAX)
    else if q.signer.Some? then First(Reverse(Scan(s.bySigner, q.signer.value)), SEARCH_SCAN_MAX)
    else
      var lo := if q.fromMs.Some? then q.fromMs.value else 0;
      var hi := if q.toMs.Some? then q.toMs.value else U64_MAX;
      First(Reverse(Between(Scan(s.byTime, ()), lo, hi)), SEARCH_MAX)
  }

  function Loaded(s: Store, q: SigQuery, stamps: seq<Stamp>): seq<StoredRecord> {
    if stamps == [] then []
    else
      var rest := Loaded(s, q, stamps[..|stamps| - 1]);
      var h := stamps[|stamps| - 1].hash;
      if h in s.records && Matches(q, s.records[h]) then rest + [s.records[h]] else rest
  }

  predicate MayPrecede(newestFirst: bool, a: StoredRecord, b: StoredRecord) {
    if newestFirst then a.publishedAt >= b.publishedAt else a.publishedAt <= b.publishedAt
  }

  function Place(newestFirst: bool, s: seq<StoredRecord>, r: StoredRecord): seq<StoredRecord> {
    if s == [] then [r]
    else
      var n := |s| - 1;
      if MayPrecede(newestFirst, s[n], r) then s + [r] else Place(newestFirst, s[..n], r) + [s[n]]
  }

  // The stable sort by publish time.
  function SortByTime(newestFirst: bool, s: seq<StoredRecord>): seq<StoredRecord> {
    if s == [] then [] else Place(newestFirst, SortByTime(newestFirst, s[..|s| - 1]), s[|s| - 1])
  }

  function Found(s: Store, q: SigQuery): seq<StoredRecord> {
    First(SortByTime(q.file.None?, Loaded(s, q, Candidates(s, q))), SEARCH_MAX)
  }

  ghost predicate InTimeOrder(newestFirst: bool, s: seq<StoredRecord>) {
    forall i, j :: 0 <= i < j < |s| ==> MayPrecede(newestFirst, s[i], s[j])
  }

  lemma {:induction false} PlaceAddsOne(newestFirst: bool, s: seq<StoredRecord>, r: StoredRecord)
    ensures multiset(Place(newestFirst, s, r)) == multiset(s) + multiset{r}
  {
    if s != [] {
      hide MayPrecede;
      var n := |s| - 1;
      assert s == s[..n] + [s[n]];
      PlaceAddsOne(newestFirst, s[..n], r);
    }
  }

  lemma {:induction false} PlaceKeepsOrder(newestFirst: bool, s: seq<StoredRecord>, r: StoredRecord)
    requires InTimeOrder(newestFirst, s)
    ensures InTimeOrder(newestFirst, Place(newestFirst, s, r))
  {
    if s != [] {
      var n := |s| - 1;
      if !MayPrecede(newestFirst, s[n], r) {
        PlaceKeepsOrder(newestFirst, s[..n], r);
        PlaceAddsOne(newestFirst, s[..n], r);
        var p := Place(newestFirst, s[..n], r);
        forall i | 0 <= i < |p| ensures MayPrecede(newestFirst, p[i], s[n]) {
          assert p[i] in multiset(p);
          if p[i] != r {
            assert p[i] in multiset(s[..n]);
          }
        }
      } else {
        forall i | 0 <= i < |s| ensures MayPrecede(newestFirst, s[i], r) {
        }
      }
    }
  }

  lemma {:induction false} SortIsOrdered(newestFirst: bool, s: seq<StoredRecord>)
    ensures InTimeOrder(newestFirst, SortByTime(newestFirst, s))
    ensures multiset(SortByTime(newestFirst, s)) == multiset(s)
  {
    if s != [] {
      var n := |s| - 1;
      assert s == s[..n] + [s[n]];
      SortIsOrdered(newestFirst, s[..n]);
      PlaceKeepsOrder(newestFirst, SortByTime(newestFirst, s[..n]), s[n]);
      PlaceAddsOne(newestFirst, SortByTime(newestFirst, s[..n]), s[n]);
    }
  }

  lemma {:induction false} SortedStaysPut(newestFirst: bool, s: seq<StoredRecord>)
    requires InTimeOrder(newestFirst, s)
    ensures SortByTime(newestFirst, s) == s
  {
    if s != [] {
      var n := |s| - 1;
      SortedStaysPut(newestFirst, s[..n]);
      assert s == s[..n] + [s[n]];
      if n > 0 {
        assert MayPrecede(newestFirst, s[n - 1], s[n]);
      }
    }
  }

  lemma {:induction false} LoadedIsSound(s: Store, q: SigQuery, stamps: seq<Stamp>)
    ensures forall r :: r in Loaded(s, q, stamps) ==> r in s.records.Values && Matches(q, r)
  {
    if stamps != [] {
      LoadedIsSound(s, q, stamps[..|stamps| - 1]);
    }
  }

  /** Every search returns stored records that meet every criterion, in time order, at most fifty. */
  lemma SearchIsSound(s: Store, q: SigQuery)
    ensures var out := Found(s, q);
            && |out| <= SEARCH_MAX
            && InTimeOrder(q.file.None?, out)
            && forall r :: r in out ==> r in s.records.Values && Matches(q, r)
  {
    var loaded := Loaded(s, q, Candidates(s, q));
    var sorted := SortByTime(q.file.None?, loaded);
    LoadedIsSound(s, q, Candidates(s, q));
    SortIsOrdered(q.file.None?, loaded);
    forall r | r in Found(s, q) ensures r in loaded {
      assert r in sorted;
      assert r in multiset(sorted);
    }
  }

  // ----- completeness

  predicate Comes(newestFirst: bool, a: Stamp, b: Stamp) {
    if newestFirst then Before(b, a) else Before(a, b)
  }

  ghost predicate StampsInOrder(newestFirst: bool, s: seq<Stamp>) {
    forall i, j :: 0 <= i < j < |s| ==> Comes(newestFirst, s[i], s[j])
  }

  function StampOf(r: StoredRecord): Stamp {
    Stamp(r.publishedAt, r.hash)
  }

  ghost predicate RecordsInOrder(newestFirst: bool, s: seq<StoredRecord>) {
    forall i, j :: 0 <= i < j < |s| ==> Comes(newestFirst, StampOf(s[i]), StampOf(s[j]))
  }

  ghost predicate Stored(s: Store, r: StoredRecord) {
    r.hash in s.records && s.records[r.hash] == r
  }

  /** `stamps` are entries of stored records, under their own publish times. */
  ghost predicate Truthful(s: Store, stamps: seq<Stamp>) {
    forall st :: st in stamps ==> st.hash in s.records && StampOf(s.records[st.hash]) == st
  }

  /** The answer is the first fifty of everything that matches: earliest first for a file, else newest
      first, equal times by hash. */
  ghost predicate TopMatches(s: Store, q: SigQuery, out: seq<StoredRecord>) {
    && |out| <= SEARCH_MAX
    && RecordsInOrder(q.file.None?, out)
    && (forall r :: r in out ==> Stored(s, r) && Matches(q, r))
    && forall r :: Stored(s, r) && Matches(q, r) && r !in out ==> |out| == SEARCH_MAX && AllBefore(q.file.None?, out, r)
  }

  ghost predicate AllBefore(newestFirst: bool, out: seq<StoredRecord>, late: StoredRecord) {
    forall r :: r in out ==> Comes(newestFirst, StampOf(r), StampOf(late))
  }

  lemma {:induction false} LoadedHas(s: Store, q: SigQuery, stamps: seq<Stamp>, r: StoredRecord)
    requires Truthful(s, stamps)
    ensures r in Loaded(s, q, stamps) <==> Stored(s, r) && Matches(q, r) && StampOf(r) in stamps
  {
    hide Matches;
    if stamps != [] {
      var n := |stamps| - 1;
      assert stamps == stamps[..n] + [stamps[n]];
      LoadedHas(s, q, stamps[..n], r);
    }
  }

  lemma OrderOneMore(newestFirst: bool, s: seq<StoredRecord>, r: StoredRecord)
    requires RecordsInOrder(newestFirst, s)
    requires forall i :: 0 <= i < |s| ==> Comes(newestFirst, StampOf(s[i]), StampOf(r))
    ensures RecordsInOrder(newestFirst, s + [r])
  {
    hide Comes;
  }

  lemma LoadedNext(s: Store, q: SigQuery, stamps: seq<Stamp>)
    requires Truthful(s, stamps) && stamps != []
    ensures var (rest, last) := (Loaded(s, q, stamps[..|stamps| - 1]), stamps[|stamps| - 1]);
            && last.hash in s.records && StampOf(s.records[last.hash]) == last
            && (Loaded(s, q, stamps) == rest || Loaded(s, q, stamps) == rest + [s.records[last.hash]])
            && Truthful(s, stamps[..|stamps| - 1])
  {
    hide Matches;
    assert stamps[|stamps| - 1] in stamps;
  }

  lemma StampsBefore(newestFirst: bool, stamps: seq<Stamp>, st: Stamp)
    requires StampsInOrder(newestFirst, stamps) && stamps != [] && st in stamps[..|stamps| - 1]
    ensures Comes(newestFirst, st, stamps[|stamps| - 1])
    ensures StampsInOrder(newestFirst, stamps[..|stamps| - 1])
  {
    hide Comes;
    var n := |stamps| - 1;
    var j :| 0 <= j < n && stamps[..n][j] == st;
    assert stamps[j] == st;
  }

  lemma {:induction false} LoadedInOrder(s: Store, q: SigQuery, newestFirst: bool, stamps: seq<Stamp>)
    requires Truthful(s, stamps) && StampsInOrder(newestFirst, stamps)
    ensures RecordsInOrder(newestFirst, Loaded(s, q, stamps))
  {
    if stamps != [] {
      hide Matches, Comes, Loaded, Truthful, RecordsInOrder, Stored;
      var n := |stamps| - 1;
      LoadedNext(s, q, stamps);
      LoadedInOrder(s, q, newestFirst, stamps[..n]);
      var rest := Loaded(s, q, stamps[..n]);
      forall i | 0 <= i < |rest| ensures Comes(newestFirst, StampOf(rest[i]), stamps[n]) {
        LoadedHas(s, q, stamps[..n], rest[i]);
        StampsBefore(newestFirst, stamps, StampOf(rest[i]));
      }
      OrderOneMore(newestFirst, rest, s.records[stamps[n].hash]);
    }
  }

  lemma LoadedKeepsOrder(s: Store, q: SigQuery, newestFirst: bool, stamps: seq<Stamp>)
    requires Truthful(s, stamps) && StampsInOrder(newestFirst, stamps)
    ensures RecordsInOrder(newestFirst, Loaded(s, q, stamps))
    ensures forall r :: r in Loaded(s, q, stamps) <==> Stored(s, r) && Matches(q, r) && StampOf(r) in stamps
  {
    hide Matches, Loaded, Truthful, StampsInOrder, RecordsInOrder, Stored;
    LoadedInOrder(s, q, newestFirst, stamps);
    forall r ensures r in Loaded(s, q, stamps) <==> Stored(s, r) && Matches(q, r) && StampOf(r) in stamps {
      LoadedHas(s, q, stamps, r);
    }
  }

  lemma {:induction false} AllMatchingAllLoad(s: Store, q: SigQuery, stamps: seq<Stamp>)
    requires forall st :: st in stamps ==> st.hash in s.records && Matches(q, s.records[st.hash])
    ensures |Loaded(s, q, stamps)| == |stamps|
  {
    if stamps != [] {
      assert stamps[|stamps| - 1] in stamps;
      AllMatchingAllLoad(s, q, stamps[..|stamps| - 1]);
    }
  }

  lemma TimeOrdered(newestFirst: bool, s: seq<StoredRecord>)
    requires RecordsInOrder(newestFirst, s)
    ensures InTimeOrder(newestFirst, s)
  {
    forall i, j | 0 <= i < j < |s| ensures MayPrecede(newestFirst, s[i], s[j]) {
      assert Comes(newestFirst, StampOf(s[i]), StampOf(s[j]));
    }
  }

  /** `all` lists every matching entry in the answer's order. */
  ghost predicate ListsMatches(s: Store, q: SigQuery, all: seq<Stamp>) {
    && Truthful(s, all) && StampsInOrder(q.file.None?, all)
    && forall r :: Stored(s, r) && Matches(q, r) ==> StampOf(r) in all
  }

  ghost predicate AllMatch(s: Store, q: SigQuery, all: seq<Stamp>) {
    forall st :: st in all ==> st.hash in s.records && Matches(q, s.records[st.hash])
  }

  lemma FirstKeepsOrder(newestFirst: bool, s: seq<StoredRecord>, n: nat)
    requires RecordsInOrder(newestFirst, s)
    ensures RecordsInOrder(newestFirst, First(s, n))
    ensures forall r :: r in First(s, n) ==> r in s
  {
  }

  lemma FirstStampsInOrder(s: Store, q: SigQuery, all: seq<Stamp>, n: nat)
    requires Truthful(s, all) && StampsInOrder(q.file.None?, all)
    ensures Truthful(s, First(all, n)) && StampsInOrder(q.file.None?, First(all, n))
    ensures AllMatch(s, q, all) ==> AllMatch(s, q, First(all, n))
  {
  }

  // Reading the first `limit` entries is enough when that is all of them, or when every entry matches.
  lemma FirstEntriesSuffice(s: Store, q: SigQuery, all: seq<Stamp>, limit: nat)
    requires ListsMatches(s, q, all) && Candidates(s, q) == First(all, limit)
    requires |all| <= limit || (SEARCH_MAX <= limit && AllMatch(s, q, all))
    ensures TopMatches(s, q, Found(s, q))
  {
    hide Candidates, Matches, Stored, StampsInOrder, RecordsInOrder, InTimeOrder, Truthful, Loaded, SortByTime,
        AllBefore;
    var newestFirst := q.file.None?;
    var some := First(all, limit);
    var loaded := Loaded(s, q, some);
    FirstStampsInOrder(s, q, all, limit);
    LoadedKeepsOrder(s, q, newestFirst, some);
    TimeOrdered(newestFirst, loaded);
    SortedStaysPut(newestFirst, loaded);
    var out := Found(s, q);
    assert out == First(loaded, SEARCH_MAX);
    FirstKeepsOrder(newestFirst, loaded, SEARCH_MAX);
    if |all| > limit {
      AllMatchingAllLoad(s, q, some);
    }
    forall r | Stored(s, r) && Matches(q, r) && r !in out
      ensures |out| == SEARCH_MAX && AllBefore(newestFirst, out, r)
    {
      MissedComesLater(s, q, all, limit, loaded, out, r);
    }
  }

  lemma FirstHolds<T>(all: seq<T>, limit: nat, k: nat)
    requires k < |all|
    ensures k < limit ==> all[k] in First(all, limit)
  {
    if k < limit {
      assert First(all, limit)[k] == all[k];
    }
  }

  lemma MissedComesLater(s: Store, q: SigQuery, all: seq<Stamp>, limit: nat, loaded: seq<StoredRecord>,
                         out: seq<StoredRecord>, r: StoredRecord)
    requires StampsInOrder(q.file.None?, all) && StampOf(r) in all && Stored(s, r) && Matches(q, r)
    requires RecordsInOrder(q.file.None?, loaded) && out == First(loaded, SEARCH_MAX) && r !in out
    requires forall x :: x in loaded <==> Stored(s, x) && Matches(q, x) && StampOf(x) in First(all, limit)
    requires |all| <= limit || (SEARCH_MAX <= limit && |loaded| == limit)
    ensures |out| == SEARCH_MAX && AllBefore(q.file.None?, out, r)
  {
    hide Matches;
    var k :| 0 <= k < |all| && all[k] == StampOf(r);
    if r in loaded {
      var i :| 0 <= i < |loaded| && loaded[i] == r;
      assert i >= SEARCH_MAX;
      forall x | x in out ensures Comes(q.file.None?, StampOf(x), StampOf(r)) {
        var j :| 0 <= j < |out| && out[j] == x;
        assert loaded[j] == x;
      }
    } else {
      FirstHolds(all, limit, k);
      assert k >= limit;
      forall x | x in out ensures Comes(q.file.None?, StampOf(x), StampOf(r)) {
        assert x in loaded;
        var j :| 0 <= j < |First(all, limit)| && First(all, limit)[j] == StampOf(x);
        assert all[j] == StampOf(x);
      }
    }
  }

  lemma ReversedIsDescending(s: seq<Stamp>)
    requires Ascending(s)
    ensures StampsInOrder(true, Reverse(s))
    ensures forall st :: st in Reverse(s) <==> st in s
  {
    forall st | st in s ensures st in Reverse(s) {
      var i :| 0 <= i < |s| && s[i] == st;
      assert Reverse(s)[|s| - 1 - i] == st;
    }
  }

  lemma {:induction false} BetweenSelects(s: seq<Stamp>, lo: nat, hi: nat)
    requires Ascending(s)
    ensures Ascending(Between(s, lo, hi))
    ensures forall st :: st in Between(s, lo, hi) <==> st in s && lo <= st.at <= hi
  {
    if s != [] {
      var n := |s| - 1;
      assert s == s[..n] + [s[n]];
      BetweenSelects(s[..n], lo, hi);
      var rest := Between(s[..n], lo, hi);
      forall i | 0 <= i < |rest| ensures Before(rest[i], s[n]) {
        assert rest[i] in rest;
        var j :| 0 <= j < n && s[..n][j] == rest[i];
        assert s[j] == rest[i];
      }
    }
  }

  // One criterion besides the proof code: a file, a signer, or a range of dates.
  predicate SingleCriterion(q: SigQuery) {
    && !(q.file.Some? && q.signer.Some?)
    && (q.file.Some? || q.signer.Some? ==> q.fromMs.None? && q.toMs.None?)
  }

  lemma FileSearchIsComplete(s: Store, q: SigQuery)
    requires FourIndexesAgree(s) && q.code.None? && q.file.Some?
    requires SingleCriterion(q) || |Scan(s.byFile, q.file.value)| <= SEARCH_SCAN_MAX
    ensures TopMatches(s, q, Found(s, q))
  {
    hide Found, TopMatches;
    var all := Scan(s.byFile, q.file.value);
    assert Ascending(all) && ListsExactly(all, s.records, FileKey, q.file.value);
    FirstEntriesSuffice(s, q, all, SEARCH_SCAN_MAX);
  }

  lemma SignerSearchIsComplete(s: Store, q: SigQuery)
    requires FourIndexesAgree(s) && q.code.None? && q.file.None? && q.signer.Some?
    requires SingleCriterion(q) || |Scan(s.bySigner, q.signer.value)| <= SEARCH_SCAN_MAX
    ensures TopMatches(s, q, Found(s, q))
  {
    hide Found, TopMatches;
    var all := Scan(s.bySigner, q.signer.value);
    assert Ascending(all) && ListsExactly(all, s.records, SignerKey, q.signer.value);
    ReversedIsDescending(all);
    FirstEntriesSuffice(s, q, Reverse(all), SEARCH_SCAN_MAX);
  }

  lemma DatesListed(s: Store, q: SigQuery, lo: nat, hi: nat)
    requires Indexes(s.byTime, s.records, TimeKey) && q.file.None? && q.signer.None?
    requires lo == (if q.fromMs.Some? then q.fromMs.value else 0)
    requires hi == (if q.toMs.Some? then q.toMs.value else U64_MAX)
    ensures ListsMatches(s, q, Reverse(Between(Scan(s.byTime, ()), lo, hi)))
  {
    hide Reverse, Between, Ascending;
    var stamps := Scan(s.byTime, ());
    assert Ascending(stamps) && ListsExactly(stamps, s.records, TimeKey, ());
    BetweenSelects(stamps, lo, hi);
    ReversedIsDescending(Between(stamps, lo, hi));
  }

  lemma DateSearchIsComplete(s: Store, q: SigQuery)
    requires FourIndexesAgree(s) && q.code.None? && q.file.None? && q.signer.None?
    ensures TopMatches(s, q, Found(s, q))
  {
    hide Found, TopMatches, Indexes, ListsMatches, Between, Reverse, First;
    var lo := if q.fromMs.Some? then q.fromMs.value else 0;
    var hi := if q.toMs.Some? then q.toMs.value else U64_MAX;
    DatesListed(s, q, lo, hi);
    assert AllMatch(s, q, Reverse(Between(Scan(s.byTime, ()), lo, hi))) by {
      DatesMatch(s, q, lo, hi);
    }
    FirstEntriesSuffice(s, q, Reverse(Between(Scan(s.byTime, ()), lo, hi)), SEARCH_MAX);
  }

  lemma DatesMatch(s: Store, q: SigQuery, lo: nat, hi: nat)
    requires Indexes(s.byTime, s.records, TimeKey) && q.file.None? && q.signer.None?
    requires lo == (if q.fromMs.Some? then q.fromMs.value else 0)
    requires hi == (if q.toMs.Some? then q.toMs.value else U64_MAX)
    ensures AllMatch(s, q, Reverse(Between(Scan(s.byTime, ()), lo, hi)))
  {
    hide Reverse, Between, Ascending;
    var stamps := Scan(s.byTime, ());
    assert Ascending(stamps) && ListsExactly(stamps, s.records, TimeKey, ());
    BetweenSelects(stamps, lo, hi);
    ReversedIsDescending(Between(stamps, lo, hi));
  }

  /** After any run, a search by one criterion finds exactly the first fifty of all the records that meet
      it, however many there are: a file's earliest markings cannot be pushed out. */
  lemma SearchIsComplete(c: Checker, cap: nat, ops: seq<Op>, q: SigQuery)
    requires q.code.None? && SingleCriterion(q)
    ensures TopMatches(Run(c, cap, ops), q, Found(Run(c, cap, ops), q))
  {
    hide FourIndexesAgree, TopMatches, Found, Bounded;
    var s := Run(c, cap, ops);
    RunKeepsInv(c, cap, ops);
    if q.file.Some? {
      FileSearchIsComplete(s, q);
    } else if q.signer.Some? {
      SignerSearchIsComplete(s, q);
    } else {
      DateSearchIsComplete(s, q);
    }
  }

  // ----- searches by proof code

  /** Meets every criterion, the proof code among them. */
  predicate MeetsAll(q: SigQuery, r: StoredRecord) {
    Matches(q, r) && (q.code.Some? ==> ProofCode(r.hash) == q.code.value)
  }

  ghost predicate ComesFrom(s: Store, stamps: seq<Stamp>, r: StoredRecord) {
    exists i :: 0 <= i < |stamps| && stamps[i].hash in s.records && s.records[stamps[i].hash] == r
  }

  lemma {:induction false} LoadedComesFrom(s: Store, q: SigQuery, stamps: seq<Stamp>)
    ensures forall r :: r in Loaded(s, q, stamps) <==> ComesFrom(s, stamps, r) && Matches(q, r)
  {
    if stamps != [] {
      hide Matches;
      var n := |stamps| - 1;
      LoadedComesFrom(s, q, stamps[..n]);
      forall r ensures ComesFrom(s, stamps, r) <==>
                       ComesFrom(s, stamps[..n], r) || (stamps[n].hash in s.records && s.records[stamps[n].hash] == r)
      {
        if ComesFrom(s, stamps[..n], r) {
          var i :| 0 <= i < n && stamps[..n][i].hash in s.records && s.records[stamps[..n][i].hash] == r;
          assert stamps[..n][i] == stamps[i];
        }
        if ComesFrom(s, stamps, r) {
          var i :| 0 <= i <= n && stamps[i].hash in s.records && s.records[stamps[i].hash] == r;
          assert i == n || stamps[..n][i] == stamps[i];
        }
      }
    }
  }

  lemma FoundComesFrom(s: Store, q: SigQuery, r: StoredRecord)
    requires r in Found(s, q)
    ensures ComesFrom(s, Candidates(s, q), r) && Matches(q, r)
  {
    hide Candidates, Matches, ComesFrom;
    var loaded := Loaded(s, q, Candidates(s, q));
    var sorted := SortByTime(q.file.None?, loaded);
    SortIsOrdered(q.file.None?, loaded);
    LoadedComesFrom(s, q, Candidates(s, q));
    assert r in sorted;
    assert r in multiset(sorted);
  }

  lemma CodeCandidates(s: Store, code: nat, r: StoredRecord)
    requires Indexes(s.byCode, s.records, CodeKey)
    ensures ComesFrom(s, Scan(s.byCode, code), r) <==> Stored(s, r) && ProofCode(r.hash) == code
    ensures ComesFrom(s, First(Scan(s.byCode, code), SEARCH_SCAN_MAX), r) ==> ComesFrom(s, Scan(s.byCode, code), r)
  {
    hide ProofCode;
    var all := Scan(s.byCode, code);
    assert ListsExactly(all, s.records, CodeKey, code);
    if ComesFrom(s, all, r) {
      var i :| 0 <= i < |all| && all[i].hash in s.records && s.records[all[i].hash] == r;
      assert all[i] in all;
    }
    if Stored(s, r) && ProofCode(r.hash) == code {
      assert Stamp(0, r.hash) in all;
    }
  }

  /** After any run every search returns stored records that meet every criterion, the proof code included, in
      time order, at most fifty. */
  lemma SearchMeetsEverything(c: Checker, cap: nat, ops: seq<Op>, q: SigQuery)
    ensures var s := Run(c, cap, ops);
            var out := Found(s, q);
            && |out| <= SEARCH_MAX
            && InTimeOrder(q.file.None?, out)
            && forall r :: r in out ==> Stored(s, r) && MeetsAll(q, r)
  {
    hide Indexes, Bounded, Found, Run, ProofCode, Matches, ComesFrom;
    var s := Run(c, cap, ops);
    RunKeepsInv(c, cap, ops);
    SearchIsSound(s, q);
    forall r | r in Found(s, q) ensures Stored(s, r) && MeetsAll(q, r) {
      FoundComesFrom(s, q, r);
      FromIsStored(s, Candidates(s, q), r);
      if q.code.Some? {
        CodeCandidates(s, q.code.value, r);
      }
    }
  }

  lemma FromIsStored(s: Store, stamps: seq<Stamp>, r: StoredRecord)
    requires ComesFrom(s, stamps, r) && forall h :: h in s.records ==> s.records[h].hash == h
    ensures Stored(s, r)
  {
  }

  /** The first fifty by publish time of everything that meets the query. */
  ghost predicate FirstByTime(s: Store, q: SigQuery, out: seq<StoredRecord>) {
    && |out| <= SEARCH_MAX
    && InTimeOrder(q.file.None?, out)
    && (forall r :: r in out ==> Stored(s, r) && MeetsAll(q, r))
    && forall r :: Stored(s, r) && MeetsAll(q, r) && r !in out ==>
         |out| == SEARCH_MAX && AllNoLater(q.file.None?, out, r)
  }

  ghost predicate AllNoLater(newestFirst: bool, out: seq<StoredRecord>, late: StoredRecord) {
    forall r :: r in out ==> MayPrecede(newestFirst, r, late)
  }

  lemma CutFromOrder(newestFirst: bool, sorted: seq<StoredRecord>, r: StoredRecord)
    requires InTimeOrder(newestFirst, sorted) && r in sorted && r !in First(sorted, SEARCH_MAX)
    ensures |First(sorted, SEARCH_MAX)| == SEARCH_MAX && AllNoLater(newestFirst, First(sorted, SEARCH_MAX), r)
  {
    var k :| 0 <= k < |sorted| && sorted[k] == r;
    FirstHolds(sorted, SEARCH_MAX, k);
  }

  /** A search by proof code, with whatever other criteria, misses nothing while at most 500 records share the code. */
  lemma CodeSearchIsComplete(c: Checker, cap: nat, ops: seq<Op>, q: SigQuery)
    requires q.code.Some? && |Scan(Run(c, cap, ops).byCode, q.code.value)| <= SEARCH_SCAN_MAX
    ensures FirstByTime(Run(c, cap, ops), q, Found(Run(c, cap, ops), q))
  {
    hide Indexes, Bounded, Run, ProofCode, Matches, ComesFrom, Loaded, SortByTime, Stored, AllNoLater;
    var s := Run(c, cap, ops);
    RunKeepsInv(c, cap, ops);
    SearchMeetsEverything(c, cap, ops, q);
    var all := Scan(s.byCode, q.code.value);
    assert Candidates(s, q) == all;
    var loaded := Loaded(s, q, all);
    var sorted := SortByTime(q.file.None?, loaded);
    SortIsOrdered(q.file.None?, loaded);
    LoadedComesFrom(s, q, all);
    forall r | Stored(s, r) && MeetsAll(q, r) && r !in Found(s, q)
      ensures |Found(s, q)| == SEARCH_MAX && AllNoLater(q.file.None?, Found(s, q), r)
    {
      CodeCandidates(s, q.code.value, r);
      assert r in multiset(loaded);
      assert r in multiset(sorted);
      CutFromOrder(q.file.None?, sorted, r);
    }
  }

  // ----- the store

  class SigStore {
    const checker: Checker
    const totalCap: nat
    var records: map<nat, StoredRecord>
    var byCode: map<nat, seq<Stamp>>
    var byFile: map<string, seq<Stamp>>
    var bySigner: map<string, seq<Stamp>>
    var byTime: map<(), seq<Stamp>>
    var totalBytes: nat

    ghost function State(): Store
      reads this
    {
      Store(records, byCode, byFile, bySigner, byTime, totalBytes)
    }

    ghost predicate Valid()
      reads this
    {
      Inv(checker, totalCap, State())
    }

    constructor (checker: Checker, totalCap: nat)
      ensures Valid() && State() == EMPTY_STORE && this.checker == checker && this.totalCap == totalCap
    {
      this.checker, this.totalCap := checker, totalCap;
      records, byCode, byFile, bySigner, byTime, totalBytes := map[], map[], map[], map[], map[], 0;
      new;
      RunKeepsInv(checker, totalCap, []);
    }

    method Publish(bytes: string, consent: string, now: Millis) returns (r: Result<(StoredRecord, bool), SigsError>)
      requires Valid()
      modifies this
      ensures Valid()
      ensures (State(), r) == Published(checker, totalCap, old(State()), bytes, consent, now)
    {
      PublishKeepsInv(checker, totalCap, State(), bytes, consent, now);
      hide Inv, Filed, Scan;
      if checker.verify(bytes).None? {
        return Err(BadRecord);
      }
      if !checker.consents(bytes, consent) {
        return Err(BadConsent);
      }
      var rec := NewRecord(checker, bytes, now);
      if rec.hash in records {
        return Ok((records[rec.hash], false));
      }
      if |Scan(bySigner, rec.signer)| >= MAX_RECORDS_PER_SIGNER {
        return Err(SignerFull);
      }
      var cost := checker.encodedLen(rec) + INDEX_BYTES;
      assert rec.(anchor := None) == rec;
      if totalBytes + cost > totalCap {
        return Err(StoreFull);
      }
      FileRecord(rec);
      r := Ok((rec, true));
    }

    method FileRecord(rec: StoredRecord)
      requires rec.anchor.None?
      modifies this
      ensures State() == Filed(checker, old(State()), rec)
    {
      hide Add, ProofCode;
      var cost := checker.encodedLen(rec) + INDEX_BYTES;
      assert rec.(anchor := None) == rec;
      records := records[rec.hash := rec];
      byCode := Add(byCode, CodeKey(rec));
      byFile := Add(byFile, FileKey(rec));
      bySigner := Add(bySigner, SignerKey(rec));
      byTime := Add(byTime, TimeKey(rec));
      totalBytes := totalBytes + cost;
    }

    method SetAnchor(hash: nat, anchor: Anchor) returns (r: Result<StoredRecord, SigsError>)
      requires Valid()
      modifies this`records
      ensures Valid()
      ensures (State(), r) == Anchored(old(State()), hash, anchor)
    {
      AnchorKeepsInv(checker, totalCap, State(), hash, anchor);
      hide Inv;
      if hash !in records {
        return Err(UnknownRecord);
      }
      var rec := records[hash];
      if rec.anchor.Some? && rec.anchor.value.height <= anchor.height {
        return Ok(rec);
      }
      rec := rec.(anchor := Some(anchor));
      records := records[hash := rec];
      r := Ok(rec);
    }

    method Search(q: SigQuery) returns (out: seq<StoredRecord>)
      ensures out == Found(State(), q)
    {
      var stamps := Candidates(Store(records, byCode, byFile, bySigner, byTime, totalBytes), q);
      out := [];
      for i := 0 to |stamps|
        invariant out == Loaded(State(), q, stamps[..i])
      {
        assert stamps[..i + 1][..i] == stamps[..i];
        var h := stamps[i].hash;
        if h in records && Matches(q, records[h]) {
          out := out + [records[h]];
        }
      }
      assert stamps[..|stamps|] == stamps;
      out := First(SortByTime(q.file.None?, out), SEARCH_MAX);
    }
  }
}
