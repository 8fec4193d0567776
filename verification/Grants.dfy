/** The welcome grant: policy, record keeping, and what every run of claims keeps
    (tet-core/src/grants.rs:207-317). */
module Grants {
  import opened Basics
  import opened Text

  const WELCOME_CAP: nat := 1_000
  const PAYER_FLOOR_MICRO: nat := 10_000_000
  const CLAIM_SKEW_MS: nat := 600_000

  /** A claim whose receipt verified: what the proof's journal says, and what the claim says around it.
      `sealed` is the claim signature's verdict, `rootKnown` the store's on the journal's root. */
  datatype Claim = Claim(
    payout: string, signer: string, claimedAt: nat, sealed: bool,
    ephemeral: string, receiver: string, bucket: nat, rootKnown: bool, nullifier: string)

  datatype GrantRefusal = BadRequest | BadSignature | Stale | NotThisGrant | RootUnknown
                        | AlreadyClaimed | WalletAlreadyGranted | CapReached | PayerLow

  datatype Commitment = Commitment(nullifier: string, payout: string, at: nat)

  datatype Claimed = Claimed(payout: string, at: nat)

  /** This payer's wallet, the grant's receiver id, and the amount its transfer sends. */
  datatype Payer = Payer(wallet: string, receiver: string, transfer: nat)

  datatype State = State(claims: map<string, Claimed>, paid: map<string, string>, granted: nat)

  function DecideJournal(p: Payer, s: State, c: Claim, payout: string, now: nat, spendable: nat)
    : Result<Commitment, GrantRefusal>
  {
    if c.ephemeral != Norm(c.signer) then Err(BadSignature)
    else if c.receiver != p.receiver || c.bucket != 0 then Err(NotThisGrant)
    else if !c.rootKnown then Err(RootUnknown)
    else if c.nullifier in s.claims then Err(AlreadyClaimed)
    else if payout in s.paid then Err(WalletAlreadyGranted)
    else if s.granted >= WELCOME_CAP then Err(CapReached)
    else if spendable < SatAdd(PAYER_FLOOR_MICRO, p.transfer) then Err(PayerLow)
    else Ok(Commitment(c.nullifier, payout, now))
  }

  predicate ClockApart(a: nat, b: nat) {
    (if a < b then b - a else a - b) > CLAIM_SKEW_MS
  }

  function Decide(p: Payer, s: State, c: Claim, now: nat, spendable: nat): Result<Commitment, GrantRefusal> {
    var payout := Norm(c.payout);
    if !IsHex64(payout) || payout == p.wallet then Err(BadRequest)
    else if !c.sealed then Err(BadSignature)
    else if ClockApart(now, c.claimedAt) then Err(Stale)
    else DecideJournal(p, s, c, payout, now, spendable)
  }

  function Committed(s: State, c: Commitment): State {
    State(s.claims[c.nullifier := Claimed(c.payout, c.at)], s.paid[c.payout := c.nullifier], SatAdd(s.granted, 1))
  }

  /** A claim at some time, with the payer's spendable balance then, and whether its transfer reached
      the mempool. */
  datatype Event = Event(claim: Claim, now: nat, spendable: nat, accepted: bool)

  function Next(p: Payer, s: State, e: Event): State {
    var r := Decide(p, s, e.claim, e.now, e.spendable);
    if r.Ok? && e.accepted then Committed(s, r.value) else s
  }

  function Run(p: Payer, events: seq<Event>): State {
    if events == [] then State(map[], map[], 0) else Next(p, Run(p, events[..|events| - 1]), events[|events| - 1])
  }

  /** Nullifiers and payout wallets pair off, and the counter is how many there are. */
  ghost predicate OneGrantEach(s: State) {
    Paired(s) && s.granted == |s.claims| == |s.paid| <= WELCOME_CAP
  }

  ghost predicate Paired(s: State) {
    && (forall n :: n in s.claims ==> s.claims[n].payout in s.paid && s.paid[s.claims[n].payout] == n)
    && (forall w :: w in s.paid ==> s.paid[w] in s.claims && s.claims[s.paid[w]].payout == w)
  }

  lemma CommitKeepsPairing(s: State, c: Commitment)
    requires OneGrantEach(s) && c.nullifier !in s.claims && c.payout !in s.paid && s.granted < WELCOME_CAP
    ensures OneGrantEach(Committed(s, c))
  {
    hide Paired;
    CommitPairs(s, c);
    var t := Committed(s, c);
    assert t.claims.Keys == s.claims.Keys + {c.nullifier};
    assert t.paid.Keys == s.paid.Keys + {c.payout};
  }

  lemma CommitPairs(s: State, c: Commitment)
    requires Paired(s) && c.nullifier !in s.claims && c.payout !in s.paid
    ensures Paired(Committed(s, c))
  {
  }

  lemma GrantKeepsPairing(p: Payer, s: State, e: Event)
    requires OneGrantEach(s)
    ensures OneGrantEach(Next(p, s, e))
  {
    hide Norm, IsHex64, Committed;
    var r := Decide(p, s, e.claim, e.now, e.spendable);
    if r.Ok? && e.accepted {
      assert r == DecideJournal(p, s, e.claim, Norm(e.claim.payout), e.now, e.spendable);
      CommitKeepsPairing(s, r.value);
    }
  }

  /** Over every run: one grant per nullifier, one per wallet, never more than the cap, never to itself. */
  lemma {:induction false} GrantsPairOff(p: Payer, events: seq<Event>)
    ensures var s := Run(p, events); OneGrantEach(s) && p.wallet !in s.paid
  {
    if events != [] {
      GrantsPairOff(p, events[..|events| - 1]);
      GrantKeepsPairing(p, Run(p, events[..|events| - 1]), events[|events| - 1]);
    }
  }

  /** Grants stand: no continuation of a run changes who was paid under a nullifier, nor which nullifier a wallet
      was paid for. */
  lemma {:induction false} GrantsAreKept(p: Payer, events: seq<Event>, more: seq<Event>, n: string)
    requires n in Run(p, events).claims
    ensures var s, t := Run(p, events), Run(p, events + more);
            && n in t.claims && t.claims[n] == s.claims[n]
            && s.claims[n].payout in t.paid && t.paid[s.claims[n].payout] == n
    decreases |more|
  {
    hide Decide;
    GrantsPairOff(p, events);
    GrantsPairOff(p, events + more);
    if more == [] {
      assert events + more == events;
    } else {
      var k := |more| - 1;
      GrantsAreKept(p, events, more[..k], n);
      assert (events + more)[..|events| + k] == events + more[..k];
      DecidedIsNew(p, Run(p, events + more[..k]), more[k]);
    }
  }

  lemma DecidedIsNew(p: Payer, s: State, e: Event)
    ensures var r := Decide(p, s, e.claim, e.now, e.spendable);
            r.Ok? ==> r.value.nullifier !in s.claims && r.value.payout !in s.paid
  {
    hide Norm, IsHex64;
  }

  /** A well-formed claim is paid exactly when its nullifier and wallet are new, the cap has room and the
      payer can keep its floor. */
  lemma PaidExactlyWhen(p: Payer, events: seq<Event>, e: Event)
    requires var c := e.claim;
             && IsHex64(Norm(c.payout)) && Norm(c.payout) != p.wallet && c.sealed && !ClockApart(e.now, c.claimedAt)
             && c.ephemeral == Norm(c.signer) && c.receiver == p.receiver && c.bucket == 0 && c.rootKnown
    requires e.accepted
    ensures var s, t := Run(p, events), Run(p, events + [e]);
            |t.claims| == |s.claims| + 1 <==>
            && e.claim.nullifier !in s.claims && Norm(e.claim.payout) !in s.paid
            && |s.claims| < WELCOME_CAP && e.spendable >= SatAdd(PAYER_FLOOR_MICRO, p.transfer)
  {
    hide IsHex64, Norm;
    assert (events + [e])[..|events|] == events;
    GrantsPairOff(p, events);
    var s := Run(p, events);
    var t := Next(p, s, e);
    if t != s {
      assert t.claims.Keys == s.claims.Keys + {e.claim.nullifier};
    }
  }

  class GrantPayer {
    const payer: Payer
    var claims: map<string, Claimed>
    var paid: map<string, string>
    var granted: nat

    ghost function View(): State
      reads this
    {
      State(claims, paid, granted)
    }

    constructor (payer: Payer)
      ensures View() == Run(payer, []) && this.payer == payer
    {
      this.payer := payer;
      claims, paid, granted := map[], map[], 0;
    }

    method Commit(c: Commitment)
      modifies this
      ensures View() == Committed(old(View()), c)
    {
      claims := claims[c.nullifier := Claimed(c.payout, c.at)];
      paid := paid[c.payout := c.nullifier];
      granted := SatAdd(granted, 1);
    }

    // Check, submit and record, under the decision lock.
    method Serve(c: Claim, now: nat, spendable: nat, accepted: bool) returns (r: Result<Commitment, GrantRefusal>)
      requires OneGrantEach(View())
      modifies this
      ensures r == Decide(payer, old(View()), c, now, spendable)
      ensures View() == Next(payer, old(View()), Event(c, now, spendable, accepted)) && OneGrantEach(View())
    {
      GrantKeepsPairing(payer, View(), Event(c, now, spendable, accepted));
      r := Decide(payer, State(claims, paid, granted), c, now, spendable);
      if r.Ok? && accepted {
        Commit(r.value);
      }
    }
  }
}
