/** The scheduler never gets stuck: as long as a process is up, a task is unfinished and every row in flight
    is held by somebody, either some goroutine can make an effective step now, or the next tick that finds
    no lock in its way claims a task.  With the bound on effective steps, every task can finish; and a row
    whose holder crashed is all that can keep one from it, until the next start. */
module SchedulerProgress {
  import opened Options
  import opened Tasks
  import opened Scheduler
  import opened TallyLaws
  import opened Simulation
  import opened SchedulerSteps
  import opened SchedulerTheorems
  import opened SchedulerTermination
  import RA = RetryAutomaton

  predicate Terminal(st: Status) {
    st == Completed || st == Failed
  }

  predicate Unfinished(s: Sys, id: string) {
    id in s.tasks && !Terminal(s.tasks[id].status)
  }

  /** Every process has workers and a channel, and process `j` is up. */
  predicate Staffed(s: Sys, j: nat) {
    && j < |s.replicas| && !s.replicas[j].ticker.Down?
    && forall k :: 0 <= k < |s.replicas| ==> s.replicas[k].capacity > 0 && s.replicas[k].workers != []
  }

  /** What tickers, workers and the clock do by themselves. */
  predicate Inner(e: Event) {
    e.Advance? || e.Tick? || e.Claim? || e.Enqueue? || e.Dequeue? || ByWorker(e)
  }

  predicate AllInner(es: seq<Event>) {
    forall n :: 0 <= n < |es| ==> Inner(es[n])
  }

  // ---- some goroutine is busy ----

  function NextOf(w: Work, j: nat, i: nat): Event {
    match w
    case Idle => Dequeue(j, i)
    case Dequeued(_) => Mark(j, i)
    case Marked(_) => Invalidate(j, i)
    case Calling(_) => Return(j, i, true)
    case Returned(_, _) => Record(j, i)
    case Completing(_) => Invalidate(j, i)
    case Failing(_, _) => Invalidate(j, i)
    case Checking(_, _) => Inspect(j, i)
    case Archiving(_, _, _) => Archive(j, i)
  }

  /** A worker that holds a record is never blocked. */
  lemma WorkerCanStep(s: Sys, j: nat, i: nat)
    requires HasWorker(s, j, i) && !WorkerAt(s, j, i).Idle?
    ensures var e := NextOf(WorkerAt(s, j, i), j, i);
      Enabled(s, e) && ByWorker(e)
  {
  }

  /** A process that holds anything can make an effective step. */
  lemma BusyCanStep(s: Sys, j: nat) returns (e: Event)
    requires Consistent(s) && j < |s.replicas| && s.replicas[j].workers != [] && !Quiet(s.replicas[j])
    ensures Inner(e) && Enabled(s, e) && Effective(s, e)
  {
    var r := s.replicas[j];
    if Batch(r.ticker) != [] {
      e := Enqueue(j);
    } else if i :| 0 <= i < |r.workers| && r.workers[i] != Idle {
      e := NextOf(r.workers[i], j, i);
      WorkerCanStep(s, j, i);
    } else {
      e := Dequeue(j, 0);
    }
    GoroutinesAreEffective(s, e);
  }

  // ---- nobody is busy: a claim ----

  lemma {:induction false} EarliestOf(tasks: map<string, Task>, ready: set<string>) returns (first: string)
    requires ready != {} && ready <= tasks.Keys
    ensures first in ready && forall id :: id in ready ==> tasks[first].executeAt <= tasks[id].executeAt
    decreases |ready|
  {
    var k :| k in ready;
    first := k;
    if ready != {k} {
      assert ready - {k} != {};
      var other := EarliestOf(tasks, ready - {k});
      first := if tasks[other].executeAt < tasks[k].executeAt then other else k;
    }
  }

  lemma {:induction false} SelectionExists(tasks: map<string, Task>, limit: nat, ready: set<string>)
    returns (chosen: seq<string>)
    requires ready <= tasks.Keys
    ensures |chosen| <= limit && (forall m, n :: 0 <= m < n < |chosen| ==> chosen[m] != chosen[n])
    ensures forall id :: id in chosen ==> id in ready
    ensures forall id :: id in ready && id !in chosen ==>
      |chosen| == limit && forall c :: c in chosen ==> tasks[c].executeAt <= tasks[id].executeAt
    decreases limit
  {
    if limit == 0 || ready == {} {
      chosen := [];
    } else {
      var first := EarliestOf(tasks, ready);
      var rest := SelectionExists(tasks, limit - 1, ready - {first});
      chosen := [first] + rest;
    }
  }

  /** A claim with nothing locked can always be made. */
  lemma ClaimExists(tasks: map<string, Task>, now: int, limit: nat) returns (chosen: seq<string>)
    ensures ClaimSelects(tasks, now, limit, {}, chosen)
  {
    chosen := SelectionExists(tasks, limit, set id | id in tasks && Ready(tasks, id, now));
  }

  /** And whatever it selects, it selects something if a row is ready and there is room. */
  lemma ClaimTakes(tasks: map<string, Task>, now: int, limit: nat, chosen: seq<string>, id: string)
    requires ClaimSelects(tasks, now, limit, {}, chosen) && limit > 0 && Ready(tasks, id, now)
    ensures chosen != []
  {
  }

  /** The ticker gets to where it reads the room. */
  lemma TickerRests(s: Sys, j: nat) returns (es: seq<Event>)
    requires j < |s.replicas| && Quiet(s.replicas[j]) && !s.replicas[j].ticker.Down?
    ensures AllInner(es)
    ensures var s' := Run(s, es);
      && s'.tasks == s.tasks && s'.now == s.now && |s'.replicas| == |s.replicas|
      && s'.replicas[j].capacity == s.replicas[j].capacity && s'.replicas[j].channel == []
      && (s'.replicas[j].ticker == Resting || s'.replicas[j].ticker == Sending([]))
  {
    if s.replicas[j].ticker.Room? {
      es := [Claim(j, s.tasks.Keys, [])];
      RunOne(s, es[0]);
      assert MarkQueued(s.tasks, []) == s.tasks;
    } else {
      es := [];
    }
  }

  lemma AdvanceStep(s: Sys, nanos: nat)
    ensures Step(s, Advance(nanos)) == s.(now := s.now + nanos)
  {
  }

  lemma TickReads(s: Sys, j: nat)
    requires j < |s.replicas| && (s.replicas[j].ticker == Resting || s.replicas[j].ticker == Sending([]))
    requires s.replicas[j].channel == [] && s.replicas[j].capacity > 0
    ensures Step(s, Tick(j)) == SetReplica(s, j, s.replicas[j].(ticker := Room(s.replicas[j].capacity)))
  {
  }

  /** Time passes until the task is due, and a tick claims. */
  lemma TickClaims(s: Sys, j: nat, id: string) returns (es: seq<Event>, e: Event)
    requires j < |s.replicas| && (s.replicas[j].ticker == Resting || s.replicas[j].ticker == Sending([]))
    requires s.replicas[j].channel == [] && s.replicas[j].capacity > 0 && id in s.tasks && s.tasks[id].status == Pending
    ensures AllInner(es) && e.Claim? && e.chosen != [] && Enabled(Run(s, es), e)
  {
    var due := s.tasks[id].executeAt;
    var nanos: nat := if due > s.now then due - s.now else 0;
    es := [Advance(nanos), Tick(j)];
    RunTwo(s, Advance(nanos), Tick(j));
    AdvanceStep(s, nanos);
    var s1 := s.(now := s.now + nanos);
    TickReads(s1, j);
    var chosen := ClaimExists(s.tasks, s1.now, s.replicas[j].capacity);
    ClaimTakes(s.tasks, s1.now, s.replicas[j].capacity, chosen, id);
    e := Claim(j, {}, chosen);
  }

  // ---- what inner steps keep ----

  predicate SameStaff(s: Sys, s': Sys) {
    && |s'.replicas| == |s.replicas|
    && forall k :: 0 <= k < |s.replicas| ==>
         && s'.replicas[k].capacity == s.replicas[k].capacity && |s'.replicas[k].workers| == |s.replicas[k].workers|
         && (s'.replicas[k].ticker.Down? <==> s.replicas[k].ticker.Down?)
  }

  /** One replica is exchanged for one with the same staff. */
  lemma ReplicaKeepsStaff(s: Sys, s': Sys, j: nat, r: Replica)
    requires j < |s.replicas| && s'.replicas == s.replicas[j := r] && r.capacity == s.replicas[j].capacity
    requires |r.workers| == |s.replicas[j].workers| && (r.ticker.Down? <==> s.replicas[j].ticker.Down?)
    ensures SameStaff(s, s')
  {
  }

  lemma WorkerKeepsStaff(s: Sys, s': Sys, j: nat, i: nat, w: Work)
    requires HasWorker(s, j, i) && s'.replicas == SetWorker(s, j, i, w).replicas
    ensures SameStaff(s, s')
  {
    ReplicaKeepsStaff(s, s', j, s.replicas[j].(workers := s.replicas[j].workers[i := w]));
  }

  lemma MarkKeepsStaff(s: Sys, j: nat, i: nat)
    requires HasWorker(s, j, i) && WorkerAt(s, j, i).Dequeued?
    ensures SameStaff(s, DoMark(s, j, i))
  {
    WorkerKeepsStaff(s, DoMark(s, j, i), j, i, DoMark(s, j, i).replicas[j].workers[i]);
  }

  lemma CompleteKeepsStaff(s: Sys, j: nat, i: nat)
    requires HasWorker(s, j, i) && WorkerAt(s, j, i).Returned?
    ensures SameStaff(s, DoComplete(s, j, i))
  {
    WorkerKeepsStaff(s, DoComplete(s, j, i), j, i, DoComplete(s, j, i).replicas[j].workers[i]);
  }

  lemma FailKeepsStaff(s: Sys, j: nat, i: nat, delay: int)
    requires HasWorker(s, j, i) && WorkerAt(s, j, i).Returned?
    ensures SameStaff(s, DoFail(s, j, i, delay))
  {
    var s' := DoFail(s, j, i, delay);
    WorkerKeepsStaff(s, s', j, i, s'.replicas[j].workers[i]);
  }

  lemma UpdatesKeepStaff(s: Sys, e: Event)
    requires (e.Mark? || e.Record?) && Enabled(s, e)
    ensures SameStaff(s, Step(s, e))
  {
    if e.Mark? {
      MarkKeepsStaff(s, e.j, e.i);
    } else if WorkerAt(s, e.j, e.i).ok {
      CompleteKeepsStaff(s, e.j, e.i);
    } else {
      FailKeepsStaff(s, e.j, e.i, NextDelay(s, WorkerAt(s, e.j, e.i).t.id));
    }
  }

  lemma WorkersKeepStaff(s: Sys, e: Event)
    requires ByWorker(e) && !e.Mark? && !e.Record? && Enabled(s, e)
    ensures SameStaff(s, Step(s, e))
  {
    match e
    case Invalidate(j, i) => WorkerKeepsStaff(s, Step(s, e), j, i, AfterDel(WorkerAt(s, j, i)));
    case Return(j, i, ok) => WorkerKeepsStaff(s, Step(s, e), j, i, Returned(WorkerAt(s, j, i).t, ok));
    case Inspect(j, i) =>
      WorkerKeepsStaff(s, Step(s, e), j, i, AfterGet(WorkerAt(s, j, i), Lookup(s, WorkerAt(s, j, i).t.id)));
    case Archive(j, i) => WorkerKeepsStaff(s, Step(s, e), j, i, Idle);
  }

  lemma TickKeepsStaff(s: Sys, j: nat)
    requires j < |s.replicas|
    ensures SameStaff(s, DoTick(s, j))
  {
    ReplicaKeepsStaff(s, DoTick(s, j), j, DoTick(s, j).replicas[j]);
  }

  lemma QueuesKeepStaff(s: Sys, e: Event)
    requires (e.Claim? || e.Enqueue? || e.Dequeue?) && Enabled(s, e)
    ensures SameStaff(s, Step(s, e))
  {
    match e
    case Claim(j, _, chosen) =>
      ReplicaKeepsStaff(s, Step(s, e), j, s.replicas[j].(ticker := Sending(Claimed(s.tasks, chosen))));
    case Enqueue(j) => ReplicaKeepsStaff(s, Step(s, e), j, DoEnqueue(s, j).replicas[j]);
    case Dequeue(j, i) => ReplicaKeepsStaff(s, Step(s, e), j, Received(s.replicas[j], i));
  }

  lemma InnerKeepsStaff(s: Sys, e: Event)
    requires Inner(e)
    ensures SameStaff(s, Step(s, e))
  {
    if !Enabled(s, e) || e.Advance? {
    } else if e.Mark? || e.Record? {
      UpdatesKeepStaff(s, e);
    } else if ByWorker(e) {
      WorkersKeepStaff(s, e);
    } else if e.Tick? {
      TickKeepsStaff(s, e.j);
    } else {
      QueuesKeepStaff(s, e);
    }
  }

  /** A process is up, and every row in flight is held. */
  ghost predicate Good(s: Sys, j: nat) {
    && Consistent(s) && Staffed(s, j)
    && forall id :: RA.Untouched(ViewOf(s, id)) && RA.Attended(ViewOf(s, id))
  }

  lemma InnerLabel(s: Sys, e: Event, id: string)
    requires Inner(e)
    ensures var l := LabelOf(s, e, id); !l.Die? && !l.Revert? && !l.Change? && !l.Insertion?
  {
    LabelShape(s, e, id);
  }

  lemma InnerKeepsAttended(s: Sys, e: Event, id: string)
    requires Consistent(s) && RA.Untouched(ViewOf(s, id)) && RA.Attended(ViewOf(s, id)) && Inner(e)
    ensures RA.Untouched(ViewOf(Step(s, e), id)) && RA.Attended(ViewOf(Step(s, e), id))
  {
    var v, l := ViewOf(s, id), LabelOf(s, e, id);
    StepSimulates(s, e, id);
    InnerLabel(s, e, id);
    RA.NextAttends(v, l);
    if v.row.Some? {
      MoveKeepsLimit(v, l);
    } else {
      NoneStays(v, l);
    }
  }

  lemma InnerKeepsGood(s: Sys, e: Event, j: nat)
    requires Good(s, j) && Inner(e)
    ensures Good(Step(s, e), j)
  {
    StepConsistent(s, e);
    InnerKeepsStaff(s, e);
    forall id ensures RA.Untouched(ViewOf(Step(s, e), id)) && RA.Attended(ViewOf(Step(s, e), id)) {
      InnerKeepsAttended(s, e, id);
    }
  }

  lemma {:induction false} InnerRunGood(s: Sys, es: seq<Event>, j: nat)
    requires Good(s, j) && AllInner(es)
    ensures Good(Run(s, es), j)
  {
    if es != [] {
      InnerRunGood(s, es[..|es| - 1], j);
      InnerKeepsGood(Run(s, es[..|es| - 1]), es[|es| - 1], j);
    }
  }

  // ---- progress ----

  lemma NobodyBusy(s: Sys, id: string)
    requires RA.Attended(ViewOf(s, id)) && Unfinished(s, id)
    requires forall k :: 0 <= k < |s.replicas| ==> Quiet(s.replicas[k])
    ensures s.tasks[id].status == Pending
  {
    QuietTotal(s.replicas, id);
  }

  /** With a task unfinished, a process up and every row in flight held, the goroutines and the clock can
      always bring about one more effective step: at once if anybody holds a record, else by waiting, a
      tick and a claim. */
  lemma Progress(s: Sys, j: nat, id: string) returns (es: seq<Event>, e: Event)
    requires Good(s, j) && Unfinished(s, id)
    ensures AllInner(es) && Inner(e) && Effective(Run(s, es), e)
  {
    if k :| 0 <= k < |s.replicas| && !Quiet(s.replicas[k]) {
      es := [];
      e := BusyCanStep(s, k);
    } else {
      NobodyBusy(s, id);
      es, e := ClaimFollows(s, j, id);
    }
  }

  lemma ClaimFollows(s: Sys, j: nat, id: string) returns (es: seq<Event>, e: Event)
    requires Good(s, j) && id in s.tasks && s.tasks[id].status == Pending && Quiet(s.replicas[j])
    ensures AllInner(es) && Inner(e) && Effective(Run(s, es), e)
  {
    var a := TickerRests(s, j);
    var s1 := Run(s, a);
    InnerRunGood(s, a, j);
    var b: seq<Event>;
    b, e := TickClaims(s1, j, id);
    InnerRunGood(s1, b, j);
    GoroutinesAreEffective(Run(s1, b), e);
    RunAppend(s, a, b);
    es := a + b;
  }

  // ---- everything finishes ----

  ghost predicate Finished(s: Sys) {
    forall id :: !Unfinished(s, id)
  }

  lemma InnerSettles(es: seq<Event>)
    requires AllInner(es)
    ensures AllSettling(es)
  {
  }

  /** One round of progress uses up some of the system's measure. */
  lemma Round(s: Sys, j: nat, id: string) returns (es: seq<Event>)
    requires Good(s, j) && Unfinished(s, id)
    ensures AllInner(es) && Good(Run(s, es), j)
    ensures Run(s, es).tasks.Keys == s.tasks.Keys
    ensures SumLeft(Run(s, es), s.tasks.Keys) < SumLeft(s, s.tasks.Keys)
  {
    var before, e := Progress(s, j, id);
    es := before + [e];
    assert es[..|es| - 1] == before;
    InnerRunGood(s, es, j);
    InnerSettles(es);
    assert Listed(s, s.tasks.Keys);
    SystemRunUses(s, es, s.tasks.Keys);
  }

  /** A run of the goroutines and the clock that finishes everything. */
  ghost predicate Finishes(s: Sys, es: seq<Event>) {
    AllInner(es) && Finished(Run(s, es)) && Run(s, es).tasks.Keys == s.tasks.Keys
  }

  lemma {:induction false} FinishFrom(s: Sys, j: nat) returns (es: seq<Event>)
    requires Good(s, j)
    ensures Finishes(s, es)
    decreases SumLeft(s, s.tasks.Keys)
  {
    if id :| Unfinished(s, id) {
      var a := Round(s, j, id);
      var b := FinishFrom(Run(s, a), j);
      RunAppend(s, a, b);
      es := a + b;
    } else {
      es := [];
    }
  }

  lemma HeldAttended(s: Sys, id: string)
    ensures RA.Attended(ViewOf(s, id)) <==> (id in s.tasks && InFlight(s.tasks[id].status) ==> Held(s, id))
    ensures RA.Abandoned(ViewOf(s, id)) <==> id in s.tasks && InFlight(s.tasks[id].status) && !Held(s, id)
  {
  }

  lemma HeldIsGood(s: Sys, j: nat)
    requires Reachable(s) && AllHeld(s) && Staffed(s, j)
    ensures Good(s, j)
  {
    ReachableInvariant(s, "");
    forall id ensures RA.Untouched(ViewOf(s, id)) && RA.Attended(ViewOf(s, id)) {
      ReachableInvariant(s, id);
      HeldAttended(s, id);
    }
  }

  /** A row in flight that nobody holds is not finished by any number of goroutines. */
  lemma {:induction false} AbandonedForNow(s: Sys, es: seq<Event>, id: string)
    requires Consistent(s) && RA.Abandoned(ViewOf(s, id)) && AllInner(es)
    ensures Consistent(Run(s, es)) && RA.Abandoned(ViewOf(Run(s, es), id))
  {
    if es != [] {
      var before, e := es[..|es| - 1], es[|es| - 1];
      AbandonedForNow(s, before, id);
      StepConsistent(Run(s, before), e);
      StepSimulates(Run(s, before), e, id);
      InnerLabel(Run(s, before), e, id);
      RA.AbandonedStays(ViewOf(Run(s, before), id), LabelOf(Run(s, before), e, id));
    }
  }

  lemma NobodyFinishes(s: Sys, es: seq<Event>, id: string)
    requires Reachable(s) && id in s.tasks && InFlight(s.tasks[id].status) && !Held(s, id)
    ensures !Finishes(s, es)
  {
    if AllInner(es) {
      ReachableInvariant(s, id);
      HeldAttended(s, id);
      AbandonedForNow(s, es, id);
      HeldAttended(Run(s, es), id);
      assert Unfinished(Run(s, es), id);
    }
  }

  /** In every reachable state with a process up, whatever was rescheduled, recovered and crashed before:
      tickers, workers and the clock alone can bring every task to COMPLETED or FAILED if and only if every
      row in flight is held by somebody, as it is when nothing has crashed since the last start. */
  lemma EverythingCanFinish(s: Sys, j: nat)
    requires Reachable(s) && Staffed(s, j)
    ensures (exists es :: Finishes(s, es)) <==> AllHeld(s)
    ensures Recovered(s) || s.crashes == 0 ==> AllHeld(s)
  {
    if AllHeld(s) {
      HeldIsGood(s, j);
      var es := FinishFrom(s, j);
    } else {
      var id :| id in s.tasks && InFlight(s.tasks[id].status) && !Held(s, id);
      forall es ensures !Finishes(s, es) {
        NobodyFinishes(s, es, id);
      }
    }
    if Recovered(s) || s.crashes == 0 {
      RecoveredAllHeld(s);
    }
  }
}
