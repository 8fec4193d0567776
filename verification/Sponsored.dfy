/** Exactly when the sponsor pays, over every run with restarts (tet-core/src/demo_sponsor.rs:256-322). */
module Sponsored {
  import opened Basics
  import opened Text
  import opened Sponsor

  // What is marked sponsored was paid.
  ghost predicate MarkedArePaid(w: World) {
    forall f :: f in w.s.sponsored ==> exists i :: 0 <= i < |w.paid| && w.paid[i].file == f
  }

  lemma StepMarksPaid(desk: Desk, w: World, e: Event)
    requires MarkedArePaid(w)
    ensures MarkedArePaid(Next(desk, w, e))
  {
    hide Trim, Norm, ClockApart, Kept;
    var v := Next(desk, w, e);
    forall f | f in v.s.sponsored ensures exists i :: 0 <= i < |v.paid| && v.paid[i].file == f {
      if f in w.s.sponsored {
        var i :| 0 <= i < |w.paid| && w.paid[i].file == f;
        assert v.paid[i] == w.paid[i];
      } else {
        assert v.paid[|v.paid| - 1].file == f;
      }
    }
  }

  lemma {:induction false} RunMarksPaid(desk: Desk, seed: nat, events: seq<Event>)
    ensures MarkedArePaid(Run(desk, seed, events))
  {
    hide Next, MarkedArePaid;
    if events == [] {
      NothingMarked(seed);
    } else {
      RunMarksPaid(desk, seed, events[..|events| - 1]);
      StepMarksPaid(desk, Run(desk, seed, events[..|events| - 1]), events[|events| - 1]);
    }
  }

  lemma NothingMarked(seed: nat)
    ensures MarkedArePaid(Start(seed))
  {
  }

  ghost predicate WasPaid(paid: seq<Paid>, file: string) {
    exists i :: 0 <= i < |paid| && paid[i].file == file
  }

  /** What a request must be, apart from the caps: well formed, signed, within five minutes of the clock, for a file its
      sender uploaded and pays for. */
  ghost predicate WellMade(desk: Desk, s: State, req: Request, now: nat, fileSender: Option<string>) {
    var (file, sender) := (Trim(req.fileId), Norm(req.sender));
    && desk.isUuid(file) && IsHex64(sender) && req.signed
    && now <= req.requestedAt + 300_000 && req.requestedAt <= now + 300_000
    && file in s.uploaded && s.uploaded[file] == sender && fileSender.Some? && Norm(fileSender.value) == sender
  }

  // In terms of the stored marks and counters.
  lemma DecidedIff(desk: Desk, s: State, req: Request, client: string, now: nat, spendable: nat,
                   fileSender: Option<string>, newSalt: nat)
    ensures var (day, t) := (now / 86_400_000, Salted(s, now / 86_400_000, newSalt));
            Decided(desk, s, req, client, now, spendable, fileSender, newSalt).1.Ok? <==>
              && WellMade(desk, s, req, now, fileSender) && Trim(req.fileId) !in s.sponsored
              && CountOf(t.counts, Client(day, desk.sha(t.salt, client))) < desk.caps.perClient
              && CountOf(t.counts, Wallet(day, Norm(req.sender))) < desk.caps.perWallet
              && CountOf(t.counts, Global(day)) < desk.caps.global
              && (if desk.caps.floor + 1_000 > U64_MAX then U64_MAX else desk.caps.floor + 1_000) <= spendable
  {
    hide Trim, Norm, IsHex64, CountOf, Salted;
  }

  // From the opening of a day its counters are what was paid in it.
  lemma CountersAreTallies(desk: Desk, w: World, now: nat, newSalt: nat, wallet: string)
    requires Inv(desk, w) && w.clock <= now
    ensures var (day, t) := (now / 86_400_000, Salted(w.s, now / 86_400_000, newSalt));
            && CountOf(t.counts, Wallet(day, wallet)) == Tallied(w.paid, OfWallet(day, wallet))
            && CountOf(t.counts, Global(day)) == Tallied(w.paid, OfAll(day))
  {
    hide Tallied, Salted, CountOf, FilesOnce, ClientsCovered, WithinCaps;
    OpeningKeepsCounters(desk, w, now, newSalt);
    CountersAt(Opened(w, now, newSalt), now / 86_400_000, wallet);
  }

  lemma CountersAt(w: World, day: nat, wallet: string)
    requires CountersExact(w) && day >= Today(w)
    ensures CountOf(w.s.counts, Wallet(day, wallet)) == Tallied(w.paid, OfWallet(day, wallet))
    ensures CountOf(w.s.counts, Global(day)) == Tallied(w.paid, OfAll(day))
  {
    hide Tallied, CountOf, Today;
  }

  /** A well-made request is granted exactly when its file was never paid for, the wallet and everyone together are
      below their caps in what was paid today, the client's counter of this process is below its, and the sponsor
      keeps its floor. */
  lemma GrantedExactlyWhen(desk: Desk, seed: nat, events: seq<Event>, req: Request, client: string, wait: nat,
                           spendable: nat, fileSender: Option<string>, newSalt: nat)
    ensures var w := Run(desk, seed, events);
            var now := w.clock + wait;
            var (day, t) := (now / 86_400_000, Salted(w.s, now / 86_400_000, newSalt));
            Decided(desk, w.s, req, client, now, spendable, fileSender, newSalt).1.Ok? <==>
              && WellMade(desk, w.s, req, now, fileSender)
              && !WasPaid(w.paid, Trim(req.fileId))
              && CountOf(t.counts, Client(day, desk.sha(t.salt, client))) < desk.caps.perClient
              && Tallied(w.paid, OfWallet(day, Norm(req.sender))) < desk.caps.perWallet
              && Tallied(w.paid, OfAll(day)) < desk.caps.global
              && (if desk.caps.floor + 1_000 > U64_MAX then U64_MAX else desk.caps.floor + 1_000) <= spendable
  {
    hide Run, Inv, Decided, MarkedArePaid, WellMade, Trim, Norm, Tallied, CountOf, Salted, WasPaid;
    var w := Run(desk, seed, events);
    RunKeepsInv(desk, seed, events);
    RunMarksPaid(desk, seed, events);
    DecidedIff(desk, w.s, req, client, w.clock + wait, spendable, fileSender, newSalt);
    CountersAreTallies(desk, w, w.clock + wait, newSalt, Norm(req.sender));
    PaidIffMarked(desk, w, Trim(req.fileId));
  }

  lemma PaidIffMarked(desk: Desk, w: World, file: string)
    requires Inv(desk, w) && MarkedArePaid(w)
    ensures file in w.s.sponsored <==> WasPaid(w.paid, file)
  {
    hide Tallied, CountersExact, ClientsCovered, WithinCaps;
    if WasPaid(w.paid, file) {
      var i :| 0 <= i < |w.paid| && w.paid[i].file == file;
      assert w.paid[i] in w.paid;
    }
  }
}
