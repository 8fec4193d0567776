/** Searches that read only the first 500 index entries: exactly when their answer is still the first fifty of
    everything that matches, and a run after which it is not. */
module ScanLimit {
  import opened Basics
  import opened Sigs

  // The entries a search by file or by signer reads, in its order.
  function Listed(s: Store, q: SigQuery): seq<Stamp> {
    if q.file.Some? then Scan(s.byFile, q.file.value)
    else if q.signer.Some? then Reverse(Scan(s.bySigner, q.signer.value))
    else []
  }

  /** No entry past the first 500 is a match. */
  ghost predicate NoneBeyond(s: Store, q: SigQuery, all: seq<Stamp>) {
    forall k :: SEARCH_SCAN_MAX <= k < |all| && all[k].hash in s.records ==> !Matches(q, s.records[all[k].hash])
  }

  lemma LoadedWithin(s: Store, q: SigQuery, all: seq<Stamp>)
    requires ListsMatches(s, q, all)
    ensures RecordsInOrder(q.file.None?, Loaded(s, q, First(all, SEARCH_SCAN_MAX)))
    ensures forall r :: r in Loaded(s, q, First(all, SEARCH_SCAN_MAX))
              <==> Stored(s, r) && Matches(q, r) && StampOf(r) in First(all, SEARCH_SCAN_MAX)
    ensures Candidates(s, q) == First(all, SEARCH_SCAN_MAX) ==>
              Found(s, q) == First(Loaded(s, q, First(all, SEARCH_SCAN_MAX)), SEARCH_MAX)
  {
    hide Matches, Candidates, Loaded, Comes, SortByTime, MayPrecede;
    FirstStampsInOrder(s, q, all, SEARCH_SCAN_MAX);
    LoadedKeepsOrder(s, q, q.file.None?, First(all, SEARCH_SCAN_MAX));
    TimeOrdered(q.file.None?, Loaded(s, q, First(all, SEARCH_SCAN_MAX)));
    SortedStaysPut(q.file.None?, Loaded(s, q, First(all, SEARCH_SCAN_MAX)));
  }

  // What is not loaded lies past the limit, behind everything that is.
  lemma BeyondComesLater(s: Store, q: SigQuery, all: seq<Stamp>, r: StoredRecord)
    requires ListsMatches(s, q, all) && Stored(s, r) && Matches(q, r)
    requires StampOf(r) !in First(all, SEARCH_SCAN_MAX)
    ensures exists k :: SEARCH_SCAN_MAX <= k < |all| && all[k] == StampOf(r)
    ensures forall st :: st in First(all, SEARCH_SCAN_MAX) ==> Comes(q.file.None?, st, StampOf(r))
  {
    hide Matches, Comes;
    var k :| 0 <= k < |all| && all[k] == StampOf(r);
    FirstHolds(all, SEARCH_SCAN_MAX, k);
    forall st | st in First(all, SEARCH_SCAN_MAX) ensures Comes(q.file.None?, st, StampOf(r)) {
      var j :| 0 <= j < |First(all, SEARCH_SCAN_MAX)| && First(all, SEARCH_SCAN_MAX)[j] == st;
      assert all[j] == st;
    }
  }

  lemma InFirstOrLater(newestFirst: bool, loaded: seq<StoredRecord>, r: StoredRecord)
    requires RecordsInOrder(newestFirst, loaded) && r in loaded && r !in First(loaded, SEARCH_MAX)
    ensures |First(loaded, SEARCH_MAX)| == SEARCH_MAX && AllBefore(newestFirst, First(loaded, SEARCH_MAX), r)
  {
    hide Comes;
    var i :| 0 <= i < |loaded| && loaded[i] == r;
    FirstHolds(loaded, SEARCH_MAX, i);
    forall x | x in First(loaded, SEARCH_MAX) ensures Comes(newestFirst, StampOf(x), StampOf(r)) {
      var j :| 0 <= j < |First(loaded, SEARCH_MAX)| && First(loaded, SEARCH_MAX)[j] == x;
      assert loaded[j] == x;
    }
  }

  lemma FiftyOrNoneBeyond(s: Store, q: SigQuery, all: seq<Stamp>)
    requires ListsMatches(s, q, all) && Candidates(s, q) == First(all, SEARCH_SCAN_MAX)
    requires |Found(s, q)| == SEARCH_MAX || NoneBeyond(s, q, all)
    ensures TopMatches(s, q, Found(s, q))
  {
    hide Matches, Candidates, Loaded, Found, Comes, StampsInOrder, AllBefore;
    LoadedWithin(s, q, all);
    var some, out := First(all, SEARCH_SCAN_MAX), Found(s, q);
    var loaded := Loaded(s, q, some);
    assert RecordsInOrder(q.file.None?, out) && forall r :: r in out ==> r in loaded by {
      FirstKeepsOrder(q.file.None?, loaded, SEARCH_MAX);
    }
    forall r | Stored(s, r) && Matches(q, r) && r !in out
      ensures |out| == SEARCH_MAX && AllBefore(q.file.None?, out, r)
    {
      if StampOf(r) in some {
        InFirstOrLater(q.file.None?, loaded, r);
      } else {
        BeyondComesLater(s, q, all, r);
        LaterThanAll(q.file.None?, some, out, r);
      }
    }
  }

  lemma LaterThanAll(newestFirst: bool, some: seq<Stamp>, out: seq<StoredRecord>, r: StoredRecord)
    requires forall x :: x in out ==> StampOf(x) in some
    requires forall st :: st in some ==> Comes(newestFirst, st, StampOf(r))
    ensures AllBefore(newestFirst, out, r)
  {
  }

  // A match past the limit is not found, so fewer than fifty means it was missed.
  lemma CompleteOnlyIf(s: Store, q: SigQuery, all: seq<Stamp>)
    requires ListsMatches(s, q, all) && Candidates(s, q) == First(all, SEARCH_SCAN_MAX)
    requires TopMatches(s, q, Found(s, q)) && |Found(s, q)| != SEARCH_MAX
    ensures NoneBeyond(s, q, all)
  {
    hide Matches, Candidates, Loaded, Found, Comes, AllBefore;
    LoadedWithin(s, q, all);
    forall k | SEARCH_SCAN_MAX <= k < |all| && all[k].hash in s.records ensures !Matches(q, s.records[all[k].hash]) {
      var r := s.records[all[k].hash];
      assert all[k] in all && StampOf(r) == all[k] && Stored(s, r);
      NotInFirst(q.file.None?, all, k);
      assert r !in Found(s, q);
    }
  }

  lemma NotInFirst(newestFirst: bool, all: seq<Stamp>, k: nat)
    requires StampsInOrder(newestFirst, all) && SEARCH_SCAN_MAX <= k < |all|
    ensures all[k] !in First(all, SEARCH_SCAN_MAX)
  {
    forall j | 0 <= j < SEARCH_SCAN_MAX ensures First(all, SEARCH_SCAN_MAX)[j] != all[k] {
      assert Comes(newestFirst, all[j], all[k]);
    }
  }

  /** After any run, a search by file or by signer, with whatever other criteria, answers with the first fifty
      of everything that matches exactly when it finds fifty or nothing past the first 500 entries matches. */
  lemma ScanIsCompleteIff(c: Checker, cap: nat, ops: seq<Op>, q: SigQuery)
    requires q.code.None? && (q.file.Some? || q.signer.Some?)
    ensures var s := Run(c, cap, ops);
            TopMatches(s, q, Found(s, q)) <==> |Found(s, q)| == SEARCH_MAX || NoneBeyond(s, q, Listed(s, q))
  {
    hide TopMatches, Found, Bounded, NoneBeyond, Ascending, ListsExactly, ListsMatches;
    var s := Run(c, cap, ops);
    RunKeepsInv(c, cap, ops);
    ListedMatches(s, q);
    if TopMatches(s, q, Found(s, q)) && |Found(s, q)| != SEARCH_MAX {
      CompleteOnlyIf(s, q, Listed(s, q));
    }
    if |Found(s, q)| == SEARCH_MAX || NoneBeyond(s, q, Listed(s, q)) {
      FiftyOrNoneBeyond(s, q, Listed(s, q));
    }
  }

  lemma ListedMatches(s: Store, q: SigQuery)
    requires FourIndexesAgree(s) && q.code.None? && (q.file.Some? || q.signer.Some?)
    ensures ListsMatches(s, q, Listed(s, q)) && Candidates(s, q) == First(Listed(s, q), SEARCH_SCAN_MAX)
  {
    if q.file.Some? {
      assert Ascending(Scan(s.byFile, q.file.value))
             && ListsExactly(Scan(s.byFile, q.file.value), s.records, FileKey, q.file.value);
    } else {
      var all := Scan(s.bySigner, q.signer.value);
      assert Ascending(all) && ListsExactly(all, s.records, SignerKey, q.signer.value);
      ReversedIsDescending(all);
    }
  }

  // ----- by proof code

  /** Every match past the first 500 entries under the code has the answer, fifty strong, before it. */
  ghost predicate BeyondAreLater(s: Store, q: SigQuery, all: seq<Stamp>) {
    forall k :: SEARCH_SCAN_MAX <= k < |all| && all[k].hash in s.records && MeetsAll(q, s.records[all[k].hash]) ==>
      |Found(s, q)| == SEARCH_MAX && AllNoLater(q.file.None?, Found(s, q), s.records[all[k].hash])
  }

  lemma CodeEntry(s: Store, code: nat, k: nat)
    requires Indexes(s.byCode, s.records, CodeKey) && k < |Scan(s.byCode, code)|
    ensures var st := Scan(s.byCode, code)[k];
            st.hash in s.records && st == Stamp(0, s.records[st.hash].hash)
  {
    hide ProofCode;
    assert ListsExactly(Scan(s.byCode, code), s.records, CodeKey, code);
    assert Scan(s.byCode, code)[k] in Scan(s.byCode, code);
  }

  lemma BeyondIsNotFound(s: Store, q: SigQuery, k: nat)
    requires Indexes(s.byCode, s.records, CodeKey) && q.code.Some?
    requires SEARCH_SCAN_MAX <= k < |Scan(s.byCode, q.code.value)|
    requires Scan(s.byCode, q.code.value)[k].hash in s.records
    ensures s.records[Scan(s.byCode, q.code.value)[k].hash] !in Found(s, q)
  {
    hide ProofCode, Matches, Found;
    var all := Scan(s.byCode, q.code.value);
    var r := s.records[all[k].hash];
    assert Ascending(all) && ListsExactly(all, s.records, CodeKey, q.code.value);
    CodeEntry(s, q.code.value, k);
    forall i | 0 <= i < SEARCH_SCAN_MAX ensures all[i].hash in s.records && s.records[all[i].hash] != r {
      CodeEntry(s, q.code.value, i);
      assert Before(all[i], all[k]);
    }
    if r in Found(s, q) {
      FoundComesFrom(s, q, r);
      NoneOfFirst(s, all, r);
    }
  }

  lemma NoneOfFirst(s: Store, all: seq<Stamp>, r: StoredRecord)
    requires |all| >= SEARCH_SCAN_MAX
    requires forall i :: 0 <= i < SEARCH_SCAN_MAX ==> all[i].hash in s.records && s.records[all[i].hash] != r
    ensures !ComesFrom(s, First(all, SEARCH_SCAN_MAX), r)
  {
    forall i | 0 <= i < |First(all, SEARCH_SCAN_MAX)| ensures s.records[First(all, SEARCH_SCAN_MAX)[i].hash] != r {
      assert First(all, SEARCH_SCAN_MAX)[i] == all[i];
    }
  }

  /** After any run, a search by proof code, with whatever other criteria, answers with the first fifty by
      publish time exactly when every match past the first 500 entries under the code comes after them. */
  lemma CodeScanIsCompleteIff(c: Checker, cap: nat, ops: seq<Op>, q: SigQuery)
    requires q.code.Some?
    ensures var s := Run(c, cap, ops);
            FirstByTime(s, q, Found(s, q)) <==> BeyondAreLater(s, q, Scan(s.byCode, q.code.value))
  {
    hide Indexes, Bounded, Run, ProofCode, Matches, ComesFrom, Found, AllNoLater, Scan;
    var s := Run(c, cap, ops);
    RunKeepsInv(c, cap, ops);
    SearchMeetsEverything(c, cap, ops, q);
    var all := Scan(s.byCode, q.code.value);
    if FirstByTime(s, q, Found(s, q)) {
      forall k | SEARCH_SCAN_MAX <= k < |all| && all[k].hash in s.records && MeetsAll(q, s.records[all[k].hash])
        ensures |Found(s, q)| == SEARCH_MAX && AllNoLater(q.file.None?, Found(s, q), s.records[all[k].hash])
      {
        BeyondIsNotFound(s, q, k);
        assert Stored(s, s.records[all[k].hash]);
      }
    }
    if BeyondAreLater(s, q, all) {
      forall r | Stored(s, r) && MeetsAll(q, r) && r !in Found(s, q)
        ensures |Found(s, q)| == SEARCH_MAX && AllNoLater(q.file.None?, Found(s, q), r)
      {
        CodeCandidates(s, q.code.value, r);
        UnfoundComesLater(s, q, r);
      }
    }
  }

  lemma UnfoundComesLater(s: Store, q: SigQuery, r: StoredRecord)
    requires q.code.Some? && ComesFrom(s, Scan(s.byCode, q.code.value), r) && MeetsAll(q, r) && r !in Found(s, q)
    requires BeyondAreLater(s, q, Scan(s.byCode, q.code.value))
    ensures |Found(s, q)| == SEARCH_MAX && AllNoLater(q.file.None?, Found(s, q), r)
  {
    hide ProofCode, Matches, Loaded, SortByTime, AllNoLater;
    var all, some := Scan(s.byCode, q.code.value), Candidates(s, q);
    var i :| 0 <= i < |all| && all[i].hash in s.records && s.records[all[i].hash] == r;
    if i < SEARCH_SCAN_MAX {
      assert some[i] == all[i] && ComesFrom(s, some, r);
      var sorted := SortByTime(q.file.None?, Loaded(s, q, some));
      LoadedComesFrom(s, q, some);
      SortIsOrdered(q.file.None?, Loaded(s, q, some));
      assert r in multiset(Loaded(s, q, some));
      assert r in multiset(sorted);
      CutFromOrder(q.file.None?, sorted, r);
    }
  }

  // ----- a run whose last record both searches miss

  function Word(n: nat): string {
    seq(n, _ => 'x')
  }

  function Signer(n: nat): string {
    if n == SEARCH_SCAN_MAX then "b" else "a"
  }

  function Verdict(bytes: string): Option<(string, string)> {
    Some(("f", Signer(|bytes|)))
  }

  function Length(bytes: string): nat {
    |bytes|
  }

  const CHECKER: Checker := Checker(Verdict, (bytes, consent) => true, Length, r => 0)
  const CAP: nat := 1_000_000

  function Publishes(n: nat): seq<Op>
    requires n <= U64_MAX
  {
    seq(n, i requires 0 <= i < n => Publish(Word(i), "", i))
  }

  function Record(n: nat): StoredRecord
    requires n <= U64_MAX
  {
    StoredRecord(Word(n), n, "f", Signer(n), n, None)
  }

  function Timed(n: nat): seq<Stamp> {
    seq(n, i requires 0 <= i => Stamp(i, i))
  }

  function Untimed(n: nat): seq<Stamp> {
    seq(n, i requires 0 <= i => Stamp(0, i))
  }

  // One file, one proof code, and a last signer of its own.
  ghost predicate Filled(s: Store, n: nat)
    requires n <= SEARCH_SCAN_MAX + 1
  {
    && s.bytes == n * INDEX_BYTES
    && (forall h: nat :: h in s.records <==> h < n)
    && (forall h :: h in s.records ==> s.records[h] == Record(h))
    && Scan(s.byFile, "f") == Timed(n) && Scan(s.byCode, 0) == Untimed(n)
    && |Scan(s.bySigner, "a")| <= n && (n <= SEARCH_SCAN_MAX ==> Scan(s.bySigner, "b") == [])
  }

  lemma SmallHashCode(n: nat)
    requires n <= SEARCH_SCAN_MAX
    ensures ProofCode(n) == 0
  {
  }

  lemma OneMorePublished(s: Store, n: nat)
    requires n <= SEARCH_SCAN_MAX && Filled(s, n)
    ensures var r := Published(CHECKER, CAP, s, Word(n), "", n);
            r.0 == Filed(CHECKER, s, Record(n))
  {
    hide ProofCode;
    assert |Word(n)| == n;
    assert CostOf(CHECKER, Record(n)) == INDEX_BYTES;
    assert n * INDEX_BYTES + INDEX_BYTES <= CAP;
  }

  lemma OneMoreStamp(n: nat)
    ensures Insert(Timed(n), Stamp(n, n)) == Timed(n + 1)
    ensures Insert(Untimed(n), Stamp(0, n)) == Untimed(n + 1)
  {
  }

  lemma OneMoreFiled(s: Store, n: nat)
    requires n <= SEARCH_SCAN_MAX && Filled(s, n)
    ensures Filled(Filed(CHECKER, s, Record(n)), n + 1)
  {
    hide ProofCode, Insert, Word, Timed, Untimed;
    SmallHashCode(n);
    OneMoreStamp(n);
    InsertGrowsByOne(Scan(s.bySigner, "a"), Stamp(n, n));
    var t := Filed(CHECKER, s, Record(n));
    assert CostOf(CHECKER, Record(n)) == INDEX_BYTES;
    assert Scan(t.bySigner, "a") == (if n < SEARCH_SCAN_MAX then Insert(Scan(s.bySigner, "a"), Stamp(n, n))
                                     else Scan(s.bySigner, "a"));
  }

  lemma {:induction false} RunFills(n: nat)
    requires n <= SEARCH_SCAN_MAX + 1
    ensures Filled(Run(CHECKER, CAP, Publishes(n)), n)
  {
    hide Published, Filed;
    if n > 0 {
      var ops := Publishes(n);
      RunFills(n - 1);
      assert ops[..|ops| - 1] == Publishes(n - 1) && ops[|ops| - 1] == Publish(Word(n - 1), "", n - 1);
      var s := Run(CHECKER, CAP, Publishes(n - 1));
      OneMorePublished(s, n - 1);
      OneMoreFiled(s, n - 1);
    } else {
      assert Publishes(0) == [];
      NothingFilled();
    }
  }

  lemma NothingFilled()
    ensures Filled(EMPTY_STORE, 0)
  {
    assert Timed(0) == [] && Untimed(0) == [];
  }

  lemma {:induction false} NothingLoads(s: Store, q: SigQuery, stamps: seq<Stamp>)
    requires forall st :: st in stamps && st.hash in s.records ==> !Matches(q, s.records[st.hash])
    ensures Loaded(s, q, stamps) == []
  {
    if stamps != [] {
      assert stamps[|stamps| - 1] in stamps;
      NothingLoads(s, q, stamps[..|stamps| - 1]);
    }
  }

  /** Five hundred records of one file by one signer, then one by another: after that run a search for the
      file, or the proof code, and the second signer finds nothing, though its record is there. */
  lemma LastRecordIsMissed(q: SigQuery)
    requires q == SigQuery(None, Some("f"), Some("b"), None, None)
             || q == SigQuery(Some(0), None, Some("b"), None, None)
    ensures var s := Run(CHECKER, CAP, Publishes(SEARCH_SCAN_MAX + 1));
            && Found(s, q) == []
            && Stored(s, Record(SEARCH_SCAN_MAX)) && MeetsAll(q, Record(SEARCH_SCAN_MAX))
            && !TopMatches(s, q, Found(s, q)) && !FirstByTime(s, q, Found(s, q))
  {
    hide Run, ProofCode, Loaded, TopMatches, FirstByTime;
    var n := SEARCH_SCAN_MAX;
    var s := Run(CHECKER, CAP, Publishes(n + 1));
    RunFills(n + 1);
    SmallHashCode(n);
    NothingLoads(s, q, Candidates(s, q));
    NothingIsIncomplete(s, q, Record(n));
  }

  lemma NothingIsIncomplete(s: Store, q: SigQuery, r: StoredRecord)
    requires Stored(s, r) && MeetsAll(q, r)
    ensures !TopMatches(s, q, []) && !FirstByTime(s, q, [])
  {
    hide Matches, ProofCode;
  }
}
