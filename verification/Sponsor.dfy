/** The demo node's file-fee sponsor: what it decides, what it commits, and its daily caps over whole
    runs with restarts (tet-core/src/demo_sponsor.rs:150-322). */
module Sponsor {
  import opened Basics
  import opened Text
  import opened Fees

  const DAY_MS: nat := 86_400_000
  const REQUEST_SKEW_MS: nat := 300_000
  const U32_MAX: nat := 0xFFFF_FFFF

  type Count32 = n: nat | n <= U32_MAX

  datatype Caps = Caps(perClient: Count32, perWallet: Count32, global: Count32, floor: nat)

  /** Configuration, and the UUID and SHA-256 functions. */
  datatype Desk = Desk(caps: Caps, isUuid: string -> bool, sha: (nat, string) -> string)

  // The rows of `counts`: one per client hash, per wallet, and for everyone, each under its UTC day.
  datatype Key = Client(day: nat, hash: string) | Wallet(day: nat, wallet: string) | Global(day: nat)

  datatype Request = Request(fileId: string, sender: string, requestedAt: nat, signed: bool)

  datatype Refusal = BadRequest | BadSignature | StaleRequest | NotSponsorable
                   | DailyCapIp | DailyCapWallet | DailyCapGlobal | SponsorLow

  datatype Commitment = Commitment(fileId: string, client: Key, wallet: Key, global: Key)

  /** The three trees, and the salt kept only in memory. */
  datatype State = State(
    uploaded: map<string, string>, sponsored: set<string>, counts: map<Key, Count32>, saltDay: nat, salt: nat)

  predicate ClockApart(a: nat, b: nat) {
    (if a < b then b - a else a - b) > REQUEST_SKEW_MS
  }

  function CountOf(counts: map<Key, Count32>, k: Key): Count32 {
    if k in counts then counts[k] else 0
  }

  function Bumped(counts: map<Key, Count32>, k: Key): map<Key, Count32> {
    counts[k := if CountOf(counts, k) == U32_MAX then U32_MAX else CountOf(counts, k) + 1]
  }

  function Kept(counts: map<Key, Count32>, day: nat): map<Key, Count32> {
    map k | k in counts && k.day == day :: counts[k]
  }

  // `client_hash` first renews the salt, and drops other days' counters, when the day has changed.
  function Salted(s: State, day: nat, seed: nat): State {
    if s.saltDay == day then s else s.(saltDay := day, salt := seed, counts := Kept(s.counts, day))
  }

  function Decided(desk: Desk, s: State, req: Request, client: string, now: nat, spendable: nat,
                   fileSender: Option<string>, seed: nat): (State, Result<Commitment, Refusal>)
  {
    var file, sender := Trim(req.fileId), Norm(req.sender);
    if !desk.isUuid(file) || !IsHex64(sender) then (s, Err(BadRequest))
    else if !req.signed then (s, Err(BadSignature))
    else if ClockApart(now, req.requestedAt) then (s, Err(StaleRequest))
    else if !(file in s.uploaded && s.uploaded[file] == sender && fileSender.Some? && Norm(fileSender.value) == sender)
            || file in s.sponsored then (s, Err(NotSponsorable))
    else
      var day := now / DAY_MS;
      var t := Salted(s, day, seed);
      var c := Commitment(file, Client(day, desk.sha(t.salt, client)), Wallet(day, sender), Global(day));
      if CountOf(t.counts, c.client) >= desk.caps.perClient then (t, Err(DailyCapIp))
      else if CountOf(t.counts, c.wallet) >= desk.caps.perWallet then (t, Err(DailyCapWallet))
      else if CountOf(t.counts, c.global) >= desk.caps.global then (t, Err(DailyCapGlobal))
      else if spendable < SatAdd(desk.caps.floor, FILE_FEE_MICRO) then (t, Err(SponsorLow))
      else (t, Ok(c))
  }

  function Committed(s: State, c: Commitment): State {
    s.(sponsored := s.sponsored + {c.fileId}, counts := Bumped(Bumped(Bumped(s.counts, c.client), c.wallet), c.global))
  }

  // ----- runs

  /** One thing that happens to the sponsor. An `Ask` is a decision and, when the fee transaction reached
      the mempool, its commit, under the decision lock; `wait` is the time since the last one. */
  datatype Event =
    | Upload(fileId: string, sender: string)
    | Ask(req: Request, client: string, wait: nat, spendable: nat, fileSender: Option<string>, seed: nat,
          accepted: bool)
    | Restart(seed: nat)

  datatype Paid = Paid(file: string, day: nat, wallet: string, client: string, epoch: nat)

  /** The sponsor with the history of what it paid; `epoch` counts restarts. */
  datatype World = World(s: State, paid: seq<Paid>, epoch: nat, clock: nat)

  function Answer(desk: Desk, w: World, e: Event): World
    requires e.Ask?
  {
    var now := w.clock + e.wait;
    var (t, r) := Decided(desk, w.s, e.req, e.client, now, e.spendable, e.fileSender, e.seed);
    if r.Ok? && e.accepted then
      World(Committed(t, r.value),
            w.paid + [Paid(Trim(e.req.fileId), now / DAY_MS, Norm(e.req.sender), e.client, w.epoch)], w.epoch, now)
    else w.(s := t, clock := now)
  }

  function Next(desk: Desk, w: World, e: Event): World {
    match e
    case Upload(file, sender) => w.(s := w.s.(uploaded := w.s.uploaded[Trim(file) := Norm(sender)]))
    case Ask(_, _, _, _, _, _, _) => Answer(desk, w, e)
    case Restart(seed) => w.(s := w.s.(saltDay := 0, salt := seed), epoch := w.epoch + 1)
  }

  function Start(seed: nat): World {
    World(State(map[], {}, map[], 0, seed), [], 0, 0)
  }

  function Run(desk: Desk, seed: nat, events: seq<Event>): World {
    if events == [] then Start(seed)
    else Next(desk, Run(desk, seed, events[..|events| - 1]), events[|events| - 1])
  }

  // ----- counting what was paid

  datatype Tally = OfClient(day: nat, client: string, epoch: nat) | OfWallet(day: nat, wallet: string) | OfAll(day: nat)

  predicate Hits(t: Tally, p: Paid) {
    match t
    case OfClient(day, client, epoch) => p.day == day && p.client == client && p.epoch == epoch
    case OfWallet(day, wallet) => p.day == day && p.wallet == wallet
    case OfAll(day) => p.day == day
  }

  function Tallied(paid: seq<Paid>, t: Tally): nat {
    if paid == [] then 0
    else Tallied(paid[..|paid| - 1], t) + (if Hits(t, paid[|paid| - 1]) then 1 else 0)
  }

  lemma TalliedSnoc(paid: seq<Paid>, p: Paid, t: Tally)
    ensures Tallied(paid + [p], t) == Tallied(paid, t) + (if Hits(t, p) then 1 else 0)
  {
    assert (paid + [p])[..|paid|] == paid;
  }

  lemma {:induction false} NoneTallied(paid: seq<Paid>, t: Tally)
    requires forall p :: p in paid ==> !Hits(t, p)
    ensures Tallied(paid, t) == 0
  {
    if paid != [] {
      assert paid[|paid| - 1] in paid;
      NoneTallied(paid[..|paid| - 1], t);
    }
  }

  // ----- the invariant

  function Today(w: World): nat {
    w.clock / DAY_MS
  }

  ghost predicate FilesOnce(w: World) {
    && (forall i, j :: 0 <= i < j < |w.paid| ==> w.paid[i].file != w.paid[j].file)
    && (forall p :: p in w.paid ==> p.file in w.s.sponsored)
  }

  ghost predicate HistoryInPast(w: World) {
    forall p :: p in w.paid ==> p.day <= Today(w) && p.epoch <= w.epoch
  }

  ghost predicate SaltInPast(w: World) {
    w.s.saltDay <= Today(w)
    && forall p :: p in w.paid && p.epoch == w.epoch ==> p.day <= w.s.saltDay
  }

  // From today on, the stored counters are the history.
  ghost predicate CountersExact(w: World) {
    forall d :: d >= Today(w) ==>
      && CountOf(w.s.counts, Global(d)) == Tallied(w.paid, OfAll(d))
      && forall u :: CountOf(w.s.counts, Wallet(d, u)) == Tallied(w.paid, OfWallet(d, u))
  }

  // Under the salt's own day a client's counter covers what this process paid for it.
  ghost predicate ClientsCovered(desk: Desk, w: World) {
    w.s.saltDay == Today(w) ==>
      forall c :: Tallied(w.paid, OfClient(w.s.saltDay, c, w.epoch))
                  <= CountOf(w.s.counts, Client(w.s.saltDay, desk.sha(w.s.salt, c)))
  }

  function CapOf(caps: Caps, t: Tally): nat {
    match t
    case OfClient(_, _, _) => caps.perClient
    case OfWallet(_, _) => caps.perWallet
    case OfAll(_) => caps.global
  }

  ghost predicate WithinCaps(desk: Desk, w: World) {
    forall t :: Tallied(w.paid, t) <= CapOf(desk.caps, t)
  }

  ghost predicate Inv(desk: Desk, w: World) {
    FilesOnce(w) && HistoryInPast(w) && SaltInPast(w) && CountersExact(w) && ClientsCovered(desk, w)
        && WithinCaps(desk, w)
  }

  // Time passes and the salt is renewed if the day is new.
  function Opened(w: World, now: nat, seed: nat): World {
    w.(s := Salted(w.s, now / DAY_MS, seed), clock := now)
  }

  lemma DaysPass(a: nat, b: nat)
    requires a <= b
    ensures a / DAY_MS <= b / DAY_MS
  {
  }

  lemma FutureIsEmpty(w: World, d: nat, t: Tally)
    requires HistoryInPast(w) && d > Today(w) && t.day == d
    ensures Tallied(w.paid, t) == 0
  {
    forall p | p in w.paid ensures !Hits(t, p) {
    }
    NoneTallied(w.paid, t);
  }

  lemma LaterKeepsInv(desk: Desk, w: World, now: nat)
    requires Inv(desk, w) && w.clock <= now
    ensures Inv(desk, w.(clock := now))
  {
    DaysPass(w.clock, now);
    hide Tallied, CapOf, CountOf;
  }

  lemma OpeningKeepsCounters(desk: Desk, w: World, now: nat, seed: nat)
    requires Inv(desk, w) && w.clock <= now
    ensures CountersExact(Opened(w, now, seed))
  {
    hide Tallied, WithinCaps, FilesOnce, ClientsCovered;
    DaysPass(w.clock, now);
    var v, day := Opened(w, now, seed), now / DAY_MS;
    forall d | d >= day
      ensures CountOf(v.s.counts, Global(d)) == Tallied(v.paid, OfAll(d))
      ensures forall u :: CountOf(v.s.counts, Wallet(d, u)) == Tallied(v.paid, OfWallet(d, u))
    {
      if d > day {
        FutureIsEmpty(w, d, OfAll(d));
        forall u ensures Tallied(w.paid, OfWallet(d, u)) == 0 {
          FutureIsEmpty(w, d, OfWallet(d, u));
        }
      }
    }
  }

  lemma OpeningKeepsClients(desk: Desk, w: World, now: nat, seed: nat)
    requires Inv(desk, w) && w.clock <= now
    ensures ClientsCovered(desk, Opened(w, now, seed)) && SaltInPast(Opened(w, now, seed))
  {
    hide Tallied, WithinCaps, FilesOnce, CountersExact;
    DaysPass(w.clock, now);
    var v, day := Opened(w, now, seed), now / DAY_MS;
    if w.s.saltDay != day {
      forall c ensures Tallied(w.paid, OfClient(day, c, w.epoch)) == 0 {
        forall p | p in w.paid ensures !Hits(OfClient(day, c, w.epoch), p) {
        }
        NoneTallied(w.paid, OfClient(day, c, w.epoch));
      }
    }
  }

  lemma OpeningKeepsInv(desk: Desk, w: World, now: nat, seed: nat)
    requires Inv(desk, w) && w.clock <= now
    ensures Inv(desk, Opened(w, now, seed))
  {
    hide CountersExact, ClientsCovered, SaltInPast, Tallied;
    DaysPass(w.clock, now);
    OpeningKeepsCounters(desk, w, now, seed);
    OpeningKeepsClients(desk, w, now, seed);
  }

  // One more payment, its three counters below their caps and its file new.
  ghost predicate Payable(desk: Desk, w: World, p: Paid, c: Commitment) {
    && w.s.saltDay == Today(w) == p.day && p.epoch == w.epoch && p.file !in w.s.sponsored
    && c == Commitment(p.file, Client(p.day, desk.sha(w.s.salt, p.client)), Wallet(p.day, p.wallet), Global(p.day))
    && CountOf(w.s.counts, c.client) < desk.caps.perClient
    && CountOf(w.s.counts, c.wallet) < desk.caps.perWallet
    && CountOf(w.s.counts, c.global) < desk.caps.global
  }

  function PaidOnce(w: World, p: Paid, c: Commitment): World {
    w.(s := Committed(w.s, c), paid := w.paid + [p])
  }

  lemma CommitCounts(counts: map<Key, Count32>, c: Commitment, k: Key)
    requires c.client.Client? && c.wallet.Wallet? && c.global.Global?
    requires CountOf(counts, c.client) < U32_MAX && CountOf(counts, c.wallet) < U32_MAX
        && CountOf(counts, c.global) < U32_MAX
    ensures CountOf(Bumped(Bumped(Bumped(counts, c.client), c.wallet), c.global), k)
         == CountOf(counts, k) + (if k == c.client || k == c.wallet || k == c.global then 1 else 0)
  {
  }

  lemma PayingKeepsCaps(desk: Desk, w: World, p: Paid, c: Commitment)
    requires CountersExact(w) && ClientsCovered(desk, w) && WithinCaps(desk, w) && Payable(desk, w, p, c)
    ensures WithinCaps(desk, PaidOnce(w, p, c))
  {
    hide Tallied, Committed, CountOf;
    forall t ensures Tallied(w.paid + [p], t) <= CapOf(desk.caps, t) {
      TalliedSnoc(w.paid, p, t);
      assert Tallied(w.paid, t) <= CapOf(desk.caps, t);
    }
  }

  lemma PayingKeepsCounters(desk: Desk, w: World, p: Paid, c: Commitment)
    requires CountersExact(w) && ClientsCovered(desk, w) && Payable(desk, w, p, c)
    ensures CountersExact(PaidOnce(w, p, c)) && ClientsCovered(desk, PaidOnce(w, p, c))
  {
    hide Tallied, CountOf, Bumped;
    var v := PaidOnce(w, p, c);
    forall d | d >= Today(v)
      ensures CountOf(v.s.counts, Global(d)) == Tallied(v.paid, OfAll(d))
      ensures forall u :: CountOf(v.s.counts, Wallet(d, u)) == Tallied(v.paid, OfWallet(d, u))
    {
      CommitCounts(w.s.counts, c, Global(d));
      TalliedSnoc(w.paid, p, OfAll(d));
      forall u ensures CountOf(v.s.counts, Wallet(d, u)) == Tallied(v.paid, OfWallet(d, u)) {
        CommitCounts(w.s.counts, c, Wallet(d, u));
        TalliedSnoc(w.paid, p, OfWallet(d, u));
      }
    }
    forall x ensures Tallied(v.paid, OfClient(v.s.saltDay, x, v.epoch))
                  <= CountOf(v.s.counts, Client(v.s.saltDay, desk.sha(v.s.salt, x)))
    {
      CommitCounts(w.s.counts, c, Client(v.s.saltDay, desk.sha(v.s.salt, x)));
      TalliedSnoc(w.paid, p, OfClient(v.s.saltDay, x, v.epoch));
    }
  }

  lemma PayingKeepsInv(desk: Desk, w: World, p: Paid, c: Commitment)
    requires Inv(desk, w) && Payable(desk, w, p, c)
    ensures Inv(desk, PaidOnce(w, p, c))
  {
    PayingKeepsCaps(desk, w, p, c);
    PayingKeepsCounters(desk, w, p, c);
    hide Tallied, CountOf, Bumped, CountersExact, ClientsCovered, WithinCaps;
  }

  lemma AnswerKeepsInv(desk: Desk, w: World, e: Event)
    requires Inv(desk, w) && e.Ask?
    ensures Inv(desk, Answer(desk, w, e))
  {
    hide Inv, CountOf, Bumped, Salted, Trim, Norm, IsHex64;
    var now := w.clock + e.wait;
    var (t, r) := Decided(desk, w.s, e.req, e.client, now, e.spendable, e.fileSender, e.seed);
    LaterKeepsInv(desk, w, now);
    OpeningKeepsInv(desk, w, now, e.seed);
    if r.Ok? && e.accepted {
      var p := Paid(Trim(e.req.fileId), now / DAY_MS, Norm(e.req.sender), e.client, w.epoch);
      SaltedKeeps(w.s, now / DAY_MS, e.seed);
      PayingKeepsInv(desk, Opened(w, now, e.seed), p, r.value);
    }
  }

  lemma SaltedKeeps(s: State, day: nat, seed: nat)
    ensures var t := Salted(s, day, seed); t.sponsored == s.sponsored && t.uploaded == s.uploaded && t.saltDay == day
  {
  }

  lemma RestartKeepsInv(desk: Desk, w: World, seed: nat)
    requires Inv(desk, w)
    ensures Inv(desk, Next(desk, w, Restart(seed)))
  {
    hide Tallied, CountOf;
    var v := Next(desk, w, Restart(seed));
    forall c ensures Tallied(v.paid, OfClient(v.s.saltDay, c, v.epoch)) == 0 {
      forall p | p in v.paid ensures !Hits(OfClient(v.s.saltDay, c, v.epoch), p) {
      }
      NoneTallied(v.paid, OfClient(v.s.saltDay, c, v.epoch));
    }
  }

  lemma {:induction false} RunKeepsInv(desk: Desk, seed: nat, events: seq<Event>)
    ensures Inv(desk, Run(desk, seed, events))
  {
    if events != [] {
      hide Answer, Tallied, CountOf;
      var w, e := Run(desk, seed, events[..|events| - 1]), events[|events| - 1];
      RunKeepsInv(desk, seed, events[..|events| - 1]);
      match e
      case Upload(_, _) =>
      case Ask(_, _, _, _, _, _, _) => AnswerKeepsInv(desk, w, e);
      case Restart(s) => RestartKeepsInv(desk, w, s);
    }
  }

  /** Over every run, restarts included: no file is sponsored twice, and no wallet nor everyone together
      passes its daily cap; a client keeps to its own within each process. */
  lemma CapsHoldForever(desk: Desk, seed: nat, events: seq<Event>)
    ensures var paid := Run(desk, seed, events).paid;
            && (forall i, j :: 0 <= i < j < |paid| ==> paid[i].file != paid[j].file)
            && (forall day, wallet :: Tallied(paid, OfWallet(day, wallet)) <= desk.caps.perWallet)
            && (forall day :: Tallied(paid, OfAll(day)) <= desk.caps.global)
            && (forall day, client, epoch :: Tallied(paid, OfClient(day, client, epoch)) <= desk.caps.perClient)
  {
    RunKeepsInv(desk, seed, events);
    hide Run, Tallied, CountersExact, ClientsCovered;
    var w := Run(desk, seed, events);
    forall day, wallet ensures Tallied(w.paid, OfWallet(day, wallet)) <= desk.caps.perWallet {
      assert Tallied(w.paid, OfWallet(day, wallet)) <= CapOf(desk.caps, OfWallet(day, wallet));
    }
    forall day ensures Tallied(w.paid, OfAll(day)) <= desk.caps.global {
      assert Tallied(w.paid, OfAll(day)) <= CapOf(desk.caps, OfAll(day));
    }
    forall day, client, epoch ensures Tallied(w.paid, OfClient(day, client, epoch)) <= desk.caps.perClient {
      assert Tallied(w.paid, OfClient(day, client, epoch)) <= CapOf(desk.caps, OfClient(day, client, epoch));
    }
  }

  // ----- the sponsor itself

  class DemoSponsor {
    const desk: Desk
    var uploaded: map<string, string>
    var sponsored: set<string>
    var counts: map<Key, Count32>
    var saltDay: nat
    var salt: nat

    ghost function View(): State
      reads this
    {
      State(uploaded, sponsored, counts, saltDay, salt)
    }

    constructor (desk: Desk, seed: nat)
      ensures View() == Start(seed).s && this.desk == desk
    {
      this.desk := desk;
      uploaded, sponsored, counts, saltDay, salt := map[], {}, map[], 0, seed;
    }

    method RecordUpload(fileId: string, sender: string)
      modifies this`uploaded
      ensures uploaded == old(uploaded)[Trim(fileId) := Norm(sender)]
    {
      uploaded := uploaded[Trim(fileId) := Norm(sender)];
    }

    method PruneBefore(day: nat)
      modifies this`counts
      ensures counts == Kept(old(counts), day)
    {
      var left := counts.Keys;
      while left != {}
        invariant left <= old(counts).Keys
        invariant counts.Keys == left + Kept(old(counts), day).Keys
        invariant forall k :: k in counts ==> counts[k] == old(counts)[k]
        decreases left
      {
        var k :| k in left;
        left := left - {k};
        if k.day != day {
          counts := counts - {k};
        }
      }
    }

    method ClientHash(day: nat, client: string, seed: nat) returns (hash: string)
      modifies this
      ensures View() == Salted(old(View()), day, seed)
      ensures hash == desk.sha(salt, client)
    {
      if saltDay != day {
        saltDay, salt := day, seed;
        PruneBefore(day);
      }
      hash := desk.sha(salt, client);
    }

    method Decide(req: Request, client: string, now: nat, spendable: nat, fileSender: Option<string>, seed: nat)
      returns (r: Result<Commitment, Refusal>)
      modifies this
      ensures (View(), r) == Decided(desk, old(View()), req, client, now, spendable, fileSender, seed)
    {
      hide Trim, Norm, IsHex64, Kept;
      var file, sender := Trim(req.fileId), Norm(req.sender);
      if !desk.isUuid(file) || !IsHex64(sender) {
        return Err(BadRequest);
      }
      if !req.signed {
        return Err(BadSignature);
      }
      if ClockApart(now, req.requestedAt) {
        return Err(StaleRequest);
      }
      if !(file in uploaded && uploaded[file] == sender && fileSender.Some? && Norm(fileSender.value) == sender)
         || file in sponsored {
        return Err(NotSponsorable);
      }
      var day := now / DAY_MS;
      var hash := ClientHash(day, client, seed);
      var c := Commitment(file, Client(day, hash), Wallet(day, sender), Global(day));
      if CountOf(counts, c.client) >= desk.caps.perClient {
        return Err(DailyCapIp);
      }
      if CountOf(counts, c.wallet) >= desk.caps.perWallet {
        return Err(DailyCapWallet);
      }
      if CountOf(counts, c.global) >= desk.caps.global {
        return Err(DailyCapGlobal);
      }
      if spendable < SatAdd(desk.caps.floor, FILE_FEE_MICRO) {
        return Err(SponsorLow);
      }
      r := Ok(c);
    }

    method Bump(k: Key)
      modifies this`counts
      ensures counts == Bumped(old(counts), k)
    {
      counts := Bumped(counts, k);
    }

    method Commit(c: Commitment)
      modifies this
      ensures View() == Committed(old(View()), c)
    {
      sponsored := sponsored + {c.fileId};
      Bump(c.client);
      Bump(c.wallet);
      Bump(c.global);
    }
  }
}
