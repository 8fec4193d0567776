/** Producer weights from attested CAAC records (tet-core/src/consensus.rs:266-281). */
module Caac {
  import opened Basics
  import opened Text
  import opened Protocol

  const CAAC_POC_BASE_WEIGHT: nat := 100
  const CAAC_POR_BASE_WEIGHT: nat := 25
  const CAAC_UNREGISTERED_WEIGHT: nat := 10

  predicate RoleIs(rec: CaacRecord, lower: string) {
    Norm(rec.role) == lower
  }

  function LatencyScore(latencyMs: nat): nat {
    var q := 1000 / (if latencyMs == 0 then 1 else latencyMs);
    if q < 1 then 1 else if q > 1000 then 1000 else q
  }

  function WeightFromRecord(rec: Option<CaacRecord>): (w: nat)
    ensures 1 <= w <= 1_100
  {
    match rec
    case None => CAAC_UNREGISTERED_WEIGHT
    case Some(r) =>
      var base := if RoleIs(r, "poc") then CAAC_POC_BASE_WEIGHT
                  else if RoleIs(r, "por") then CAAC_POR_BASE_WEIGHT
                  else CAAC_UNREGISTERED_WEIGHT;
      base + LatencyScore(r.latencyMs) / (if r.serverWallMs > 1000 then 2 else 1)
  }

  lemma MulMonotone(k: nat, a: nat, b: nat)
    requires a <= b
    ensures k * a <= k * b
  {
  }

  lemma DivAntitone(n: nat, a: nat, b: nat)
    requires 0 < a <= b
    ensures n / b <= n / a
  {
    var q, p := n / b, n / a;
    assert q * b <= n < a * (p + 1);
    MulMonotone(q, a, b);
    if p + 1 <= q {
      MulMonotone(a, p + 1, q);
    }
  }

  // A faster answer never weighs less, other things equal.
  lemma FasterNeverWeighsLess(role: string, fast: nat, slow: nat, wall: nat)
    requires fast <= slow
    ensures WeightFromRecord(Some(CaacRecord(role, slow, wall))) <= WeightFromRecord(Some(CaacRecord(role, fast, wall)))
  {
    DivAntitone(1000, if fast == 0 then 1 else fast, if slow == 0 then 1 else slow);
    assert LatencyScore(slow) <= LatencyScore(fast);
  }

  /** The weight in numbers: 100 for a POC, 25 for a POR, 10 for anyone else, plus the whole part of a thousand over
      the latency in milliseconds, kept between 1 and 1,000 and halved for a slow server. */
  lemma WeightIs(r: CaacRecord)
    ensures exists score: nat {:trigger LatencyIs(r.latencyMs, score)} ::
              && LatencyIs(r.latencyMs, score)
              && WeightFromRecord(Some(r)) == (if Norm(r.role) == "poc" then 100 else if Norm(r.role) == "por" then 25
                                               else 10) + if r.serverWallMs > 1_000 then score / 2 else score
    ensures WeightFromRecord(None) == 10
  {
    hide Norm;
    ScoreIs(r.latencyMs);
  }

  ghost predicate LatencyIs(latencyMs: nat, score: nat) {
    && 1 <= score <= 1_000 && (latencyMs <= 1 ==> score == 1_000) && (latencyMs > 1_000 ==> score == 1)
    && (1 <= latencyMs <= 1_000 ==> score * latencyMs <= 1_000 < score * latencyMs + latencyMs)
  }

  lemma ScoreIs(latencyMs: nat)
    ensures LatencyIs(latencyMs, LatencyScore(latencyMs))
  {
    var d := if latencyMs == 0 then 1 else latencyMs;
    var q := 1000 / d;
    assert q * d <= 1_000 < q * d + d;
    if q == 0 {
      assert 1_000 < d;
    } else {
      MulMonotone(d, 1, q);
      assert d * q == q * d;
    }
  }

  predicate CanMineAiWorkload(host: Host, producer: string) {
    var rec := host.caac(Norm(producer));
    rec.Some? && RoleIs(rec.value, "poc")
  }
}
