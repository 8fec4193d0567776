/** Vesting locks on a wallet's spendable balance (tet-core/src/ledger.rs:4621-4648). */
module Locks {
  import opened Basics
  import opened Text
  import opened Protocol

  function VestSum(vests: seq<VestLock>, peer: string, now: nat): (sum: nat)
    ensures sum <= U64_MAX
  {
    if vests == [] then 0
    else
      var rest := VestSum(vests[..|vests| - 1], peer, now);
      var row := vests[|vests| - 1];
      if row.wallet == peer && row.unlockAt > now then SatAdd(rest, row.amount) else rest
  }

  function LockedSum(book: Book, wallet: string, now: nat): nat {
    var peer := Trim(wallet);
    var vested := VestSum(book.vests, peer, now);
    if peer != "" && book.founder == Some(peer) && book.founderUnlockAt > 0 && now < book.founderUnlockAt
    then SatAdd(vested, book.founderLocked)
    else vested
  }

  lemma {:induction false} VestSumShrinks(vests: seq<VestLock>, peer: string, t1: nat, t2: nat)
    requires t1 <= t2
    ensures VestSum(vests, peer, t2) <= VestSum(vests, peer, t1)
  {
    if vests != [] {
      VestSumShrinks(vests[..|vests| - 1], peer, t1, t2);
    }
  }

  // Locks only ever run out.
  lemma LockedSumShrinks(book: Book, wallet: string, t1: nat, t2: nat)
    requires t1 <= t2
    ensures LockedSum(book, wallet, t2) <= LockedSum(book, wallet, t1)
  {
    VestSumShrinks(book.vests, Trim(wallet), t1, t2);
  }

  /** Everything `a` lets a wallet spend at time `t`, `b` lets it spend at time `u`. */
  ghost predicate NoStricter(b: Book, u: nat, a: Book, t: nat) {
    b.bonds == a.bonds && forall w :: LockedSum(b, w, u) <= LockedSum(a, w, t)
  }

  lemma LaterIsNoStricter(book: Book, t1: nat, t2: nat)
    requires t1 <= t2
    ensures NoStricter(book, t2, book, t1)
  {
    forall w ensures LockedSum(book, w, t2) <= LockedSum(book, w, t1) {
      LockedSumShrinks(book, w, t1, t2);
    }
  }

  lemma UnlockedIsNoStricter(book: Book, u: nat, t: nat)
    ensures NoStricter(book.Unlocked(), u, book, t)
  {
    assert forall w :: LockedSum(book.Unlocked(), w, u) == 0;
  }
}
