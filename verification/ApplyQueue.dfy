/** The bounded apply queue, as interleaved atomic steps of any number of offering threads and one
    worker (tet-core/src/apply_worker.rs:74-120, 163-189). */
module ApplyQueue {
  const RESERVED_FOR_CATCH_UP: nat := 2

  datatype Job = Droppable(id: nat) | CatchUp(id: nat)

  datatype Worker = Idle | Running(job: Job) | Reporting(job: Job) | Stopped

  /** `winners` hold a reservation and have yet to send; `losers` have yet to give one back.
      `accepted` and `finished` are histories; `stranded` is what a stopped worker left in the channel. */
  datatype Queue = Queue(
    cap: nat, depth: int, channel: seq<Job>, worker: Worker,
    winners: map<nat, Job>, losers: set<nat>,
    accepted: seq<Job>, finished: seq<Job>, stranded: seq<Job>)

  datatype Step =
    | Reserve(thread: nat, job: Job)   // depth.fetch_add, and the comparison with the limit
    | TrySend(thread: nat)
    | RollBack(thread: nat)            // depth.fetch_sub of a failed offer
    | Receive
    | Finish                           // depth.fetch_sub of a finished job
    | Report
    | Stop                             // the results' receiver is gone

  function Limit(cap: nat, job: Job): int {
    if job.Droppable? then cap - RESERVED_FOR_CATCH_UP else cap
  }

  // A step that is not enabled changes nothing, so every sequence of steps is a run.
  function Reserved(q: Queue, t: nat, job: Job): Queue {
    if t in q.winners || t in q.losers then q
    else if q.depth < Limit(q.cap, job) then q.(depth := q.depth + 1, winners := q.winners[t := job])
    else q.(depth := q.depth + 1, losers := q.losers + {t})
  }

  function Sent(q: Queue, t: nat): Queue {
    if t !in q.winners then q
    else if q.worker.Stopped? || |q.channel| >= q.cap then
      q.(winners := q.winners - {t}, losers := q.losers + {t})
    else
      q.(winners := q.winners - {t}, channel := q.channel + [q.winners[t]], accepted := q.accepted + [q.winners[t]])
  }

  function RolledBack(q: Queue, t: nat): Queue {
    if t !in q.losers then q else q.(depth := q.depth - 1, losers := q.losers - {t})
  }

  function Received(q: Queue): Queue {
    if !q.worker.Idle? || q.channel == [] then q
    else q.(worker := Running(q.channel[0]), channel := q.channel[1..])
  }

  function Finished(q: Queue): Queue {
    if !q.worker.Running? then q
    else q.(depth := q.depth - 1, worker := Reporting(q.worker.job), finished := q.finished + [q.worker.job])
  }

  function StoppedNow(q: Queue): Queue {
    if !q.worker.Reporting? then q else q.(worker := Stopped, stranded := q.channel, channel := [])
  }

  function Next(q: Queue, step: Step): Queue {
    match step
    case Reserve(t, job) => Reserved(q, t, job)
    case TrySend(t) => Sent(q, t)
    case RollBack(t) => RolledBack(q, t)
    case Receive => Received(q)
    case Finish => Finished(q)
    case Report => if q.worker.Reporting? then q.(worker := Idle) else q
    case Stop => StoppedNow(q)
  }

  function Start(cap: nat): Queue {
    Queue(cap, 0, [], Idle, map[], {}, [], [], [])
  }

  function Run(cap: nat, steps: seq<Step>): Queue {
    if steps == [] then Start(cap) else Next(Run(cap, steps[..|steps| - 1]), steps[|steps| - 1])
  }

  // ----- what is occupied

  function InProgress(q: Queue): seq<Job> {
    if q.worker.Running? then [q.worker.job] else []
  }

  function DroppablesIn(jobs: seq<Job>): nat {
    if jobs == [] then 0 else DroppablesIn(jobs[..|jobs| - 1]) + (if jobs[|jobs| - 1].Droppable? then 1 else 0)
  }

  ghost function DroppableWinners(winners: map<nat, Job>): set<nat> {
    set t | t in winners && winners[t].Droppable?
  }

  ghost function DroppablesHeld(q: Queue): nat {
    DroppablesIn(InProgress(q) + q.channel) + |DroppableWinners(q.winners)|
  }

  lemma {:induction false} DroppablesConcat(a: seq<Job>, b: seq<Job>)
    ensures DroppablesIn(a + b) == DroppablesIn(a) + DroppablesIn(b)
  {
    if b == [] {
      assert a + b == a;
    } else {
      var n := |b| - 1;
      assert (a + b)[..|a + b| - 1] == a + b[..n];
      DroppablesConcat(a, b[..n]);
    }
  }

  lemma {:induction false} DroppablesAtMost(jobs: seq<Job>)
    ensures DroppablesIn(jobs) <= |jobs|
    ensures (forall j :: j in jobs ==> j.Droppable?) ==> DroppablesIn(jobs) == |jobs|
  {
    if jobs != [] {
      assert jobs[|jobs| - 1] in jobs;
      DroppablesAtMost(jobs[..|jobs| - 1]);
    }
  }

  lemma WinnerAdded(winners: map<nat, Job>, t: nat, job: Job)
    requires t !in winners
    ensures |DroppableWinners(winners[t := job])| == |DroppableWinners(winners)| + (if job.Droppable? then 1 else 0)
    ensures |winners[t := job]| == |winners| + 1
  {
    if job.Droppable? {
      assert DroppableWinners(winners[t := job]) == DroppableWinners(winners) + {t};
    } else {
      assert DroppableWinners(winners[t := job]) == DroppableWinners(winners);
    }
  }

  lemma WinnerRemoved(winners: map<nat, Job>, t: nat)
    requires t in winners
    ensures |DroppableWinners(winners - {t})| == |DroppableWinners(winners)| - (if winners[t].Droppable? then 1 else 0)
    ensures |winners - {t}| == |winners| - 1
  {
    assert (winners - {t})[t := winners[t]] == winners;
    WinnerAdded(winners - {t}, t, winners[t]);
  }

  lemma WinnersAtMost(winners: map<nat, Job>)
    ensures |DroppableWinners(winners)| <= |winners|
    ensures (forall t :: t in winners ==> winners[t].Droppable?) ==> |DroppableWinners(winners)| == |winners|
  {
    assert DroppableWinners(winners) <= winners.Keys;
    SubsetCardinality(DroppableWinners(winners), winners.Keys);
    if forall t :: t in winners ==> winners[t].Droppable? {
      assert DroppableWinners(winners) == winners.Keys;
    }
  }

  lemma {:induction false} SubsetCardinality(a: set<nat>, b: set<nat>)
    requires a <= b
    ensures |a| <= |b|
    decreases a
  {
    if a != {} {
      var x :| x in a;
      SubsetCardinality(a - {x}, b - {x});
    }
  }

  // ----- the invariant

  ghost predicate Counted(q: Queue) {
    && (q.winners.Keys !! q.losers)
    && q.depth == |InProgress(q)| + |q.channel| + |q.winners| + |q.losers| + |q.stranded|
    && |InProgress(q)| + |q.channel| + |q.winners| + |q.stranded| <= q.cap
    && (q.worker.Stopped? ==> q.channel == [])
    && (q.stranded != [] ==> q.worker.Stopped?)
  }

  ghost predicate WithinReserve(q: Queue) {
    DroppablesHeld(q) == 0 || DroppablesHeld(q) <= q.cap - RESERVED_FOR_CATCH_UP
  }

  ghost predicate Ordered(q: Queue) {
    q.accepted == q.finished + (InProgress(q) + (q.channel + q.stranded))
  }

  ghost predicate Inv(q: Queue) {
    Counted(q) && WithinReserve(q) && Ordered(q)
  }

  lemma ReserveKeepsCount(q: Queue, t: nat, job: Job)
    requires Counted(q)
    ensures Counted(Reserved(q, t, job))
  {
    if t !in q.winners && t !in q.losers && q.depth < Limit(q.cap, job) {
      WinnerAdded(q.winners, t, job);
      assert Reserved(q, t, job).winners.Keys == q.winners.Keys + {t};
    }
  }

  lemma ReserveKeepsReserve(q: Queue, t: nat, job: Job)
    requires Inv(q)
    ensures WithinReserve(Reserved(q, t, job)) && Ordered(Reserved(q, t, job))
  {
    hide DroppablesIn, DroppableWinners;
    if t !in q.winners && t !in q.losers && q.depth < Limit(q.cap, job) {
      WinnerAdded(q.winners, t, job);
      WinnersAtMost(q.winners);
      DroppablesAtMost(InProgress(q) + q.channel);
    }
  }

  lemma OneMoreDroppable(jobs: seq<Job>, job: Job)
    ensures DroppablesIn(jobs + [job]) == DroppablesIn(jobs) + (if job.Droppable? then 1 else 0)
  {
    assert (jobs + [job])[..|jobs|] == jobs;
  }

  lemma SendKeepsCount(q: Queue, t: nat)
    requires Counted(q)
    ensures Counted(Sent(q, t))
  {
    if t in q.winners {
      WinnerRemoved(q.winners, t);
    }
  }

  lemma SendKeepsReserve(q: Queue, t: nat)
    requires Counted(q) && WithinReserve(q)
    ensures WithinReserve(Sent(q, t))
  {
    hide DroppablesIn, DroppableWinners, Counted;
    if t in q.winners {
      WinnerRemoved(q.winners, t);
      var held := InProgress(q) + q.channel;
      OneMoreDroppable(held, q.winners[t]);
      assert InProgress(q) + (q.channel + [q.winners[t]]) == held + [q.winners[t]];
    }
  }

  lemma SendKeepsOrder(q: Queue, t: nat)
    requires Counted(q) && Ordered(q)
    ensures Ordered(Sent(q, t))
  {
    if t in q.winners && !q.worker.Stopped? && |q.channel| < q.cap {
      var job := q.winners[t];
      assert q.stranded == [];
      assert q.accepted + [job] == q.finished + (InProgress(q) + (q.channel + [job] + []));
    }
  }

  lemma ReceiveKeepsInv(q: Queue)
    requires Inv(q)
    ensures Inv(Received(q))
  {
    if q.worker.Idle? && q.channel != [] {
      assert [q.channel[0]] + q.channel[1..] == [] + q.channel;
      assert [q.channel[0]] + (q.channel[1..] + q.stranded) == [] + (q.channel + q.stranded);
    }
  }

  lemma FinishKeepsInv(q: Queue)
    requires Inv(q)
    ensures Inv(Finished(q))
  {
    if q.worker.Running? {
      DroppablesConcat([q.worker.job], q.channel);
      assert [] + q.channel == q.channel;
      var rest := q.channel + q.stranded;
      assert q.finished + [q.worker.job] + ([] + rest) == q.finished + ([q.worker.job] + rest);
    }
  }

  lemma StopKeepsInv(q: Queue)
    requires Inv(q)
    ensures Inv(StoppedNow(q))
  {
    if q.worker.Reporting? {
      DroppablesConcat([], q.channel);
      assert [] + q.channel == q.channel && [] + [] == q.channel[..0];
      assert [] + q.channel == q.channel + [];
      assert DroppablesIn(q.channel[..0]) == 0;
    }
  }

  lemma RollBackAndReportKeepInv(q: Queue, t: nat)
    requires Inv(q)
    ensures Inv(RolledBack(q, t)) && Inv(Next(q, Report))
  {
  }

  lemma OfferKeepsInv(q: Queue, t: nat, job: Job)
    requires Inv(q)
    ensures Inv(Reserved(q, t, job)) && Inv(Sent(q, t))
  {
    hide Reserved, Sent, Counted, WithinReserve, Ordered;
    ReserveKeepsCount(q, t, job);
    ReserveKeepsReserve(q, t, job);
    SendKeepsCount(q, t);
    SendKeepsReserve(q, t);
    SendKeepsOrder(q, t);
  }

  lemma StepKeepsInv(q: Queue, step: Step)
    requires Inv(q)
    ensures Inv(Next(q, step))
  {
    hide Inv, Reserved, Sent, RolledBack, Received, Finished, StoppedNow;
    match step
    case Reserve(t, job) => OfferKeepsInv(q, t, job);
    case TrySend(t) => OfferKeepsInv(q, t, Droppable(0));
    case RollBack(t) => RollBackAndReportKeepInv(q, t);
    case Receive => ReceiveKeepsInv(q);
    case Finish => FinishKeepsInv(q);
    case Report => RollBackAndReportKeepInv(q, 0);
    case Stop => StopKeepsInv(q);
  }

  lemma {:induction false} RunKeepsCap(cap: nat, steps: seq<Step>)
    ensures Run(cap, steps).cap == cap
  {
    if steps != [] {
      RunKeepsCap(cap, steps[..|steps| - 1]);
    }
  }

  lemma StartInv(cap: nat)
    ensures Inv(Start(cap))
  {
    assert DroppableWinners(map[]) == {};
    assert DroppablesIn([] + []) == 0;
    assert Start(cap).finished + (InProgress(Start(cap)) + ([] + [])) == [];
  }

  lemma {:induction false} RunKeepsInv(cap: nat, steps: seq<Step>)
    ensures Inv(Run(cap, steps)) && Run(cap, steps).cap == cap
  {
    hide Inv, Next;
    RunKeepsCap(cap, steps);
    if steps == [] {
      StartInv(cap);
    } else {
      RunKeepsInv(cap, steps[..|steps| - 1]);
      StepKeepsInv(Run(cap, steps[..|steps| - 1]), steps[|steps| - 1]);
    }
  }

  lemma RunSnoc(cap: nat, steps: seq<Step>, step: Step)
    ensures Run(cap, steps + [step]) == Next(Run(cap, steps), step)
  {
    assert (steps + [step])[..|steps|] == steps;
  }

  // ----- what every interleaving guarantees

  /** The counter is exactly what is queued, in progress, undecided, or stranded by a stopped worker;
      it never wraps, and with nobody about it is back to zero. */
  lemma DepthCounts(cap: nat, steps: seq<Step>)
    ensures var q := Run(cap, steps);
            && q.depth == |InProgress(q)| + |q.channel| + |q.winners| + |q.losers| + |q.stranded|
            && q.depth >= 0
            && (q.winners == map[] && q.losers == {} && q.worker.Idle? && q.channel == [] ==> q.depth == 0)
  {
    RunKeepsInv(cap, steps);
  }

  /** A thread that won its reservation never finds the channel full while the worker lives. */
  lemma ReservationIsHonoured(cap: nat, steps: seq<Step>, t: nat)
    requires var q := Run(cap, steps); t in q.winners && !q.worker.Stopped?
    ensures var q := Run(cap, steps); Next(q, TrySend(t)).accepted == q.accepted + [q.winners[t]]
  {
    var q := Run(cap, steps);
    RunKeepsInv(cap, steps);
    WinnerRemoved(q.winners, t);
  }

  /** Droppable jobs never hold the slots kept for catch-up. */
  lemma DroppablesStayBelow(cap: nat, steps: seq<Step>)
    requires cap > RESERVED_FOR_CATCH_UP
    ensures DroppablesHeld(Run(cap, steps)) <= cap - RESERVED_FOR_CATCH_UP
  {
    RunKeepsInv(cap, steps);
  }

  /** Jobs finish in the order they were accepted. */
  lemma FinishesInOrder(cap: nat, steps: seq<Step>)
    ensures var q := Run(cap, steps); q.finished <= q.accepted
  {
    hide Run, Counted, WithinReserve;
    RunKeepsInv(cap, steps);
  }

  // What a thread's offer comes to when nobody acts between its reservation and its send.
  function Offered(q: Queue, t: nat, job: Job): Queue {
    Next(Next(q, Reserve(t, job)), TrySend(t))
  }

  /** An offer is accepted exactly when fewer slots than its limit are queued, in progress or undecided;
      otherwise nothing is queued. */
  lemma OfferAcceptedIff(cap: nat, steps: seq<Step>, t: nat, job: Job)
    requires var q := Run(cap, steps); !q.worker.Stopped? && t !in q.winners && t !in q.losers
    ensures var q := Run(cap, steps);
            var room := |InProgress(q)| + |q.channel| + |q.winners| + |q.losers| < Limit(cap, job);
            && (room ==> Offered(q, t, job).accepted == q.accepted + [job])
            && (!room ==> Offered(q, t, job).accepted == q.accepted)
  {
    var q := Run(cap, steps);
    RunKeepsInv(cap, steps);
    RunSnoc(cap, steps, Reserve(t, job));
    if q.depth < Limit(cap, job) {
      ReservationIsHonoured(cap, steps + [Reserve(t, job)], t);
    }
  }

  /** The catch-up case of that condition, with no other assumption about what is queued. */
  lemma CatchUpAcceptedIff(cap: nat, steps: seq<Step>, t: nat, id: nat)
    requires var q := Run(cap, steps); !q.worker.Stopped? && t !in q.winners && t !in q.losers
    ensures var q := Run(cap, steps);
            Offered(q, t, CatchUp(id)).accepted == q.accepted + [CatchUp(id)]
            <==> |InProgress(q)| + |q.channel| + |q.winners| + |q.losers| < cap
  {
    hide Offered, Run, InProgress;
    OfferAcceptedIff(cap, steps, t, CatchUp(id));
    var q := Run(cap, steps);
    assert |q.accepted + [CatchUp(id)]| == |q.accepted| + 1;
  }

  ghost predicate NoCatchUp(q: Queue) {
    && (forall j :: j in InProgress(q) + q.channel ==> j.Droppable?)
    && (forall t :: t in q.winners ==> q.winners[t].Droppable?)
  }

  /** So a catch-up batch with no other about is accepted whenever at most one failed offer has yet to give
      its slot back, however many other offers are under way. */
  lemma CatchUpFits(cap: nat, steps: seq<Step>, t: nat, id: nat)
    requires cap > RESERVED_FOR_CATCH_UP
    requires var q := Run(cap, steps);
             && NoCatchUp(q) && !q.worker.Stopped? && t !in q.winners && t !in q.losers
             && |q.losers| <= 1
    ensures var q := Run(cap, steps); Offered(q, t, CatchUp(id)).accepted == q.accepted + [CatchUp(id)]
  {
    hide Offered, Run;
    var q := Run(cap, steps);
    RunKeepsInv(cap, steps);
    DroppablesAtMost(InProgress(q) + q.channel);
    WinnersAtMost(q.winners);
    CatchUpAcceptedIff(cap, steps, t, id);
  }

  /** Every offer of the run is made by one thread, as the node's one loop makes them. */
  predicate OnlyOfferer(steps: seq<Step>, t: nat) {
    forall i :: 0 <= i < |steps| && steps[i].Reserve? ==> steps[i].thread == t
  }

  lemma {:induction false} OthersHoldNothing(cap: nat, steps: seq<Step>, t: nat)
    requires OnlyOfferer(steps, t)
    ensures var q := Run(cap, steps); forall u :: u in q.winners || u in q.losers ==> u == t
  {
    if steps == [] {
      EmptyRun(cap);
    } else {
      var n := |steps| - 1;
      OthersHoldNothing(cap, steps[..n], t);
      var q, step := Run(cap, steps[..n]), steps[n];
      RunSnoc(cap, steps[..n], step);
      assert steps == steps[..n] + [step];
      assert step.Reserve? ==> step.thread == t;
    }
  }

  /** With one offering thread a catch-up batch always fits when no other is queued or in progress. */
  lemma OneOffererAlwaysFits(cap: nat, steps: seq<Step>, t: nat, id: nat)
    requires cap > RESERVED_FOR_CATCH_UP && OnlyOfferer(steps, t)
    requires var q := Run(cap, steps);
             && !q.worker.Stopped? && t !in q.winners && t !in q.losers
             && forall j :: j in InProgress(q) + q.channel ==> j.Droppable?
    ensures var q := Run(cap, steps); Offered(q, t, CatchUp(id)).accepted == q.accepted + [CatchUp(id)]
  {
    hide Offered, Run, InProgress;
    var q := Run(cap, steps);
    OthersHoldNothing(cap, steps, t);
    assert forall u :: u !in q.winners && u !in q.losers;
    assert q.losers == {};
    CatchUpFits(cap, steps, t, id);
  }

  lemma OneJobQueued()
    ensures Run(3, [Reserve(0, Droppable(0)), TrySend(0)])
         == Start(3).(depth := 1, channel := [Droppable(0)], accepted := [Droppable(0)])
  {
    hide Run;
    EmptyRun(3);
    var steps := [];
    RunSnoc(3, steps, Reserve(0, Droppable(0)));
    RunSnoc(3, steps + [Reserve(0, Droppable(0))], TrySend(0));
    var q := Reserved(Start(3), 0, Droppable(0));
    assert q.winners == map[0 := Droppable(0)] && q.winners - {0} == map[];
    assert steps + [Reserve(0, Droppable(0))] + [TrySend(0)] == [Reserve(0, Droppable(0)), TrySend(0)];
  }

  lemma EmptyRun(cap: nat)
    ensures Run(cap, []) == Start(cap)
  {
  }

  // One droppable job queued in three slots, and two droppable offers turned away but not yet rolled back.
  const CROWD: seq<Step> :=
    [Reserve(0, Droppable(0)), TrySend(0)] + [Reserve(1, Droppable(1))] + [Reserve(2, Droppable(2))]

  /** Two failed offers still holding their slots can turn a lone catch-up batch away. */
  lemma CatchUpCanBeRefused()
    ensures var q := Run(3, CROWD);
            && NoCatchUp(q) && |q.channel| == 1 && q.losers == {1, 2}
            && Next(q, Reserve(9, CatchUp(0))).losers == q.losers + {9}
  {
    hide Run;
    OneJobQueued();
    var steps := [Reserve(0, Droppable(0)), TrySend(0)];
    RunSnoc(3, steps, Reserve(1, Droppable(1)));
    RunSnoc(3, steps + [Reserve(1, Droppable(1))], Reserve(2, Droppable(2)));
  }
}
