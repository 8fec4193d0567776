/** Validator sets and leader election (tet-core/src/consensus.rs:92-181, 246-295). */
module Leader {
  import opened Basics
  import opened Text
  import opened Caac

  // ----- the validator set

  function Identity(id: string): Option<string> {
    if Norm(id) == "" then None else Some(Norm(id))
  }

  function Identities(ids: seq<string>): seq<string> {
    if ids == [] then []
    else
      var rest := Identities(ids[..|ids| - 1]);
      match Identity(ids[|ids| - 1])
      case None => rest
      case Some(v) => rest + [v]
  }

  function Place(s: seq<string>, x: string): seq<string> {
    if s == [] || !LessThan(x, s[|s| - 1]) then s + [x] else Place(s[..|s| - 1], x) + [s[|s| - 1]]
  }

  function Sorted(s: seq<string>): seq<string> {
    if s == [] then [] else Place(Sorted(s[..|s| - 1]), s[|s| - 1])
  }

  // `Vec::dedup_by`: drops an element equal to the one before it.
  function Dedup(s: seq<string>): (r: seq<string>)
    ensures s != [] ==> r != [] && r[|r| - 1] == s[|s| - 1]
  {
    if |s| <= 1 then s
    else
      var rest := Dedup(s[..|s| - 1]);
      if s[|s| - 1] == rest[|rest| - 1] then rest else rest + [s[|s| - 1]]
  }

  function Validators(ids: seq<string>): seq<string> {
    Dedup(Sorted(Identities(ids)))
  }

  // The normalised, non-blank ids.
  ghost function IdSet(ids: seq<string>): set<string> {
    set i | 0 <= i < |ids| && Norm(ids[i]) != "" :: Norm(ids[i])
  }

  ghost predicate NoneOutOfOrder(s: seq<string>) {
    forall i, j :: 0 <= i < j < |s| ==> !LessThan(s[j], s[i])
  }

  ghost predicate Ascending(s: seq<string>) {
    forall i, j :: 0 <= i < j < |s| ==> LessThan(s[i], s[j])
  }

  lemma NotLessChains(a: string, b: string, c: string)
    requires !LessThan(b, a) && !LessThan(c, b)
    ensures !LessThan(c, a)
  {
    LessThanIsTotal(a, b);
    LessThanIsTotal(b, c);
    if a != b && b != c {
      LessThanIsTransitive(a, b, c);
      LessThanIsTotal(a, c);
    }
  }

  lemma {:induction false} PlaceKeepsOrder(s: seq<string>, x: string)
    requires NoneOutOfOrder(s)
    ensures NoneOutOfOrder(Place(s, x))
    ensures forall y :: y in Place(s, x) <==> y in s || y == x
  {
    hide LessThan;
    if s != [] {
      var n := |s| - 1;
      assert s == s[..n] + [s[n]];
      LessThanIsTotal(x, s[n]);
      if LessThan(x, s[n]) {
        PlaceKeepsOrder(s[..n], x);
        var p := Place(s[..n], x);
        forall i | 0 <= i < |p| ensures !LessThan(s[n], p[i]) {
          assert p[i] in p;
          if p[i] in s[..n] {
            var j :| 0 <= j < n && s[..n][j] == p[i];
            assert s[j] == p[i];
          }
        }
      } else {
        forall i | 0 <= i < |s| ensures !LessThan(x, s[i]) {
          if i < n {
            NotLessChains(s[i], s[n], x);
          }
        }
      }
    }
  }

  lemma {:induction false} SortedIsOrdered(s: seq<string>)
    ensures NoneOutOfOrder(Sorted(s))
    ensures forall y :: y in Sorted(s) <==> y in s
  {
    if s != [] {
      var n := |s| - 1;
      assert s == s[..n] + [s[n]];
      SortedIsOrdered(s[..n]);
      PlaceKeepsOrder(Sorted(s[..n]), s[n]);
    }
  }

  lemma {:induction false} DedupAscends(s: seq<string>)
    requires NoneOutOfOrder(s)
    ensures Ascending(Dedup(s))
    ensures forall y :: y in Dedup(s) <==> y in s
  {
    hide LessThan;
    if |s| > 1 {
      var n := |s| - 1;
      assert s == s[..n] + [s[n]];
      DedupAscends(s[..n]);
      var rest := Dedup(s[..n]);
      var m := |rest| - 1;
      if s[n] != rest[m] {
        assert rest[m] == s[n - 1];
        LessThanIsTotal(s[n], rest[m]);
        forall i | 0 <= i < |rest| ensures LessThan(rest[i], s[n]) {
          if i < m {
            LessThanIsTransitive(rest[i], rest[m], s[n]);
          }
        }
      }
    }
  }

  lemma {:induction false} IdentitiesAreTheSet(ids: seq<string>)
    ensures forall v :: v in Identities(ids) <==> v in IdSet(ids)
  {
    if ids != [] {
      hide Norm;
      var n := |ids| - 1;
      IdentitiesAreTheSet(ids[..n]);
      assert forall i :: 0 <= i < n ==> ids[..n][i] == ids[i];
      forall v ensures v in IdSet(ids) <==> v in IdSet(ids[..n]) || (Norm(ids[n]) != "" && v == Norm(ids[n])) {
        if v in IdSet(ids[..n]) {
          var i :| 0 <= i < n && Norm(ids[..n][i]) != "" && Norm(ids[..n][i]) == v;
          assert ids[..n][i] == ids[i];
        }
      }
    }
  }

  lemma ValidatorsAreTheSet(ids: seq<string>)
    ensures Ascending(Validators(ids))
    ensures forall v :: v in Validators(ids) <==> v in IdSet(ids)
  {
    hide LessThan, IdSet;
    IdentitiesAreTheSet(ids);
    SortedIsOrdered(Identities(ids));
    DedupAscends(Sorted(Identities(ids)));
  }

  ghost predicate SameMembers(a: seq<string>, b: seq<string>) {
    forall v :: v in a <==> v in b
  }

  lemma NoMembers(a: seq<string>, b: seq<string>)
    requires SameMembers(a, b)
    ensures a == [] <==> b == []
  {
    assert a == [] || a[0] in a;
    assert b == [] || b[0] in b;
  }

  lemma LastIsLargest(a: seq<string>, v: string)
    requires Ascending(a) && v in a
    ensures v == a[|a| - 1] || LessThan(v, a[|a| - 1])
  {
    var i :| 0 <= i < |a| && a[i] == v;
  }

  lemma SameLast(a: seq<string>, b: seq<string>)
    requires Ascending(a) && Ascending(b) && SameMembers(a, b) && a != [] && b != []
    ensures a[|a| - 1] == b[|b| - 1]
    ensures SameMembers(a[..|a| - 1], b[..|b| - 1])
  {
    hide LessThan;
    var x, y := a[|a| - 1], b[|b| - 1];
    assert x in a && y in b;
    hide Ascending;
    LastIsLargest(a, y);
    LastIsLargest(b, x);
    LessThanIsTotal(x, y);
    var a0, b0 := a[..|a| - 1], b[..|b| - 1];
    forall v ensures v in a0 <==> v in b0 {
      InitMembers(a, v);
      InitMembers(b, v);
    }
  }

  lemma {:induction false} AscendingIsUnique(a: seq<string>, b: seq<string>)
    requires Ascending(a) && Ascending(b) && SameMembers(a, b)
    ensures a == b
    decreases |a|
  {
    hide LessThan, SameMembers;
    NoMembers(a, b);
    if a != [] {
      SameLast(a, b);
      AscendingIsUnique(a[..|a| - 1], b[..|b| - 1]);
      assert a == a[..|a| - 1] + [a[|a| - 1]] && b == b[..|b| - 1] + [b[|b| - 1]];
    }
  }

  lemma InitMembers(a: seq<string>, v: string)
    requires Ascending(a) && a != []
    ensures v in a[..|a| - 1] <==> v in a && v != a[|a| - 1]
  {
    hide LessThan;
    var n := |a| - 1;
    LessThanIsTotal(a[n], a[n]);
    assert a == a[..n] + [a[n]];
    if v in a[..n] {
      var i :| 0 <= i < n && a[..n][i] == v;
      assert LessThan(a[i], a[n]);
    }
  }

  /** The same validators in another order, repeated, re-cased or padded, are the same set. */
  lemma SameIdsSameValidators(a: seq<string>, b: seq<string>)
    requires IdSet(a) == IdSet(b)
    ensures Validators(a) == Validators(b)
  {
    hide IdSet, Validators, Ascending;
    ValidatorsAreTheSet(a);
    ValidatorsAreTheSet(b);
    AscendingIsUnique(Validators(a), Validators(b));
  }

  // ----- the leader

  datatype Mode = HashMode | CaacMode

  /** `score` is the 256-bit hash of a height and an id; `weight` what attestation gives an id. */
  datatype Election = Election(mode: Mode, score: (nat, string) -> nat, weight: string -> nat)

  const TWO_192: nat := 0x1_0000_0000_0000_0000_0000_0000_0000_0000_0000_0000_0000_0000

  function Value(e: Election, height: nat, id: string): nat {
    match e.mode
    case HashMode => e.score(height, id)
    case CaacMode => (e.score(height, id) / TWO_192) / (if e.weight(id) == 0 then 1 else e.weight(id))
  }

  // The comparison each mode gives `min_by`; only the weighted one breaks ties by id.
  predicate Less(e: Election, height: nat, a: string, b: string) {
    Value(e, height, a) < Value(e, height, b)
    || (e.mode.CaacMode? && Value(e, height, a) == Value(e, height, b) && LessThan(a, b))
  }

  function FirstLeast(e: Election, height: nat, ids: seq<string>): Option<string> {
    if ids == [] then None
    else
      var best := FirstLeast(e, height, ids[..|ids| - 1]);
      if best.None? || Less(e, height, ids[|ids| - 1], best.value) then Some(ids[|ids| - 1]) else best
  }

  method LeaderForHeight(e: Election, height: nat, ids: seq<string>) returns (leader: Option<string>)
    ensures leader == FirstLeast(e, height, Validators(ids))
  {
    var all := Validators(ids);
    leader := None;
    for i := 0 to |all|
      invariant leader == FirstLeast(e, height, all[..i])
    {
      assert all[..i + 1][..i] == all[..i];
      if leader.None? || Less(e, height, all[i], leader.value) {
        leader := Some(all[i]);
      }
    }
    assert all[..|all|] == all;
  }

  /** `a` leads `b`: a smaller value, or the same and the smaller id. */
  predicate Leads(e: Election, height: nat, a: string, b: string) {
    Value(e, height, a) < Value(e, height, b) || (Value(e, height, a) == Value(e, height, b) && LessThan(a, b))
  }

  ghost predicate LeadsAll(e: Election, height: nat, leader: string, ids: set<string>) {
    leader in ids && forall v :: v in ids && v != leader ==> Leads(e, height, leader, v)
  }

  lemma {:induction false} FirstLeastLeads(e: Election, height: nat, ids: seq<string>)
    requires Ascending(ids) && ids != []
    ensures var l := FirstLeast(e, height, ids);
            l.Some? && l.value in ids && forall v :: v in ids && v != l.value ==> Leads(e, height, l.value, v)
  {
    hide LessThan, Value;
    var n := |ids| - 1;
    assert ids == ids[..n] + [ids[n]];
    if n > 0 {
      FirstLeastLeads(e, height, ids[..n]);
      var best := FirstLeast(e, height, ids[..n]).value;
      var i :| 0 <= i < n && ids[..n][i] == best;
      assert LessThan(ids[i], ids[n]);
      LessThanIsTotal(best, ids[n]);
    }
  }

  lemma OnlyOneLeads(e: Election, height: nat, a: string, b: string, ids: set<string>)
    requires LeadsAll(e, height, a, ids) && LeadsAll(e, height, b, ids)
    ensures a == b
  {
    LessThanIsTotal(a, b);
  }

  /** What is compared, in products: the whole score, or the whole part of its leading 64 bits over the weight, a weight
      of nothing counting as one. */
  lemma ValueIs(e: Election, height: nat, id: string)
    ensures e.mode.HashMode? ==> Value(e, height, id) == e.score(height, id)
    ensures e.mode.CaacMode? ==>
              exists leading: nat {:trigger LeadingBits(e.score(height, id), leading)} ::
                && LeadingBits(e.score(height, id), leading)
                && var w := if e.weight(id) == 0 then 1 else e.weight(id);
                   Value(e, height, id) * w <= leading < Value(e, height, id) * w + w
  {
    if e.mode.CaacMode? {
      var leading, w := e.score(height, id) / TWO_192, if e.weight(id) == 0 then 1 else e.weight(id);
      assert LeadingBits(e.score(height, id), leading);
      assert leading == leading / w * w + leading % w;
    }
  }

  ghost predicate LeadingBits(score: nat, leading: nat) {
    leading * TWO_192 <= score < leading * TWO_192 + TWO_192
  }

  /** In both modes the leader is the one validator that leads all others; there is one exactly when some
      configured id is not blank. */
  lemma LeaderLeadsTheSet(e: Election, height: nat, ids: seq<string>)
    ensures var l := FirstLeast(e, height, Validators(ids));
            && (l.Some? <==> IdSet(ids) != {})
            && (l.Some? ==> LeadsAll(e, height, l.value, IdSet(ids)))
  {
    hide IdSet, Validators, Leads, Ascending;
    ValidatorsAreTheSet(ids);
    var all := Validators(ids);
    if all != [] {
      assert all[0] in all;
      FirstLeastLeads(e, height, all);
    } else {
      assert forall v :: v !in IdSet(ids);
      assert IdSet(ids) == {};
    }
  }

  /** The leader depends on the set of ids alone. */
  lemma LeaderIsOfTheSet(e: Election, height: nat, a: seq<string>, b: seq<string>)
    requires IdSet(a) == IdSet(b)
    ensures FirstLeast(e, height, Validators(a)) == FirstLeast(e, height, Validators(b))
  {
    SameIdsSameValidators(a, b);
  }

  // What keeps an id the same validator.
  lemma PaddingAndCaseKeepTheLeader(e: Election, height: nat, before: seq<string>, a: string, s: string, b: string,
                                    t: string,
                                    after: seq<string>)
    requires Blank(a) && Blank(b) && Lower(s) == Lower(t)
    ensures FirstLeast(e, height, Validators(before + [t] + after))
        == FirstLeast(e, height, Validators(before + [a + s + b] + after))
  {
    NormIgnoresPaddingAndCase(a, s, b, t);
    var x, y := before + [t] + after, before + [a + s + b] + after;
    assert Norm(t) == Norm(a + s + b);
    assert forall i :: 0 <= i < |x| ==> Norm(x[i]) == Norm(y[i]);
    assert IdSet(x) == IdSet(y);
    LeaderIsOfTheSet(e, height, x, y);
  }

  /** More weight never costs a validator a height it already won. */
  lemma MoreWeightKeepsTheLead(light: Election, heavy: Election, height: nat, ids: seq<string>, v: string)
    requires light.mode == heavy.mode && light.score == heavy.score
    requires light.weight(v) <= heavy.weight(v)
    requires forall u :: u != v ==> light.weight(u) == heavy.weight(u)
    requires FirstLeast(light, height, Validators(ids)) == Some(v)
    ensures FirstLeast(heavy, height, Validators(ids)) == Some(v)
  {
    LeaderLeadsTheSet(light, height, ids);
    LeaderLeadsTheSet(heavy, height, ids);
    ValueFalls(light, heavy, height, v);
    hide Validators, FirstLeast, IdSet;
    forall u | u in IdSet(ids) && u != v ensures Leads(heavy, height, v, u) {
      assert Leads(light, height, v, u);
      assert Value(light, height, u) == Value(heavy, height, u);
    }
    OnlyOneLeads(heavy, height, v, FirstLeast(heavy, height, Validators(ids)).value, IdSet(ids));
  }

  lemma ValueFalls(light: Election, heavy: Election, height: nat, v: string)
    requires light.mode == heavy.mode && light.score == heavy.score && light.weight(v) <= heavy.weight(v)
    ensures Value(heavy, height, v) <= Value(light, height, v)
  {
    if light.mode.CaacMode? {
      DivAntitone(light.score(height, v) / TWO_192, if light.weight(v) == 0 then 1 else light.weight(v),
                  if heavy.weight(v) == 0 then 1 else heavy.weight(v));
    }
  }
}
