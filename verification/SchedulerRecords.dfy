/** What the cache and the dead-letter table hold of a task is that task: its id, endpoint, payload, retry
    limit and creation time, as they are in its row, in every run with any number of replicas, edits,
    reschedules, crashes and recoveries. */
module SchedulerRecords {
  import opened Options
  import opened Tasks
  import opened Scheduler
  import opened Simulation
  import opened SchedulerTheorems
  import opened SchedulerRequests
  import SchedulerSteps
  import RA = RetryAutomaton

  /** A dead-letter entry of this row. */
  predicate EntryOf(rec: Task, row: Task) {
    SameJob(rec, row) && rec.status == Failed
  }

  predicate RecordsOk(v: RA.View) {
    v.row.Some? ==>
      && (v.cached.Some? ==> SameJob(v.cached.value, v.row.value))
      && forall sec :: sec in v.entries ==> EntryOf(v.entries[sec], v.row.value)
  }

  lemma AttemptKeepsRecords(v: RA.View, l: RA.Label)
    requires v.row.Some? && RA.ByAttempt(l)
    ensures RA.Next(v, l).cached == v.cached && RA.Next(v, l).entries == v.entries
  {
    match l
    case Take => assert RA.Taken(v).entries == v.entries;
    case Begin => BeginKeepsRecords(v);
    case Success => SuccessKeepsRecords(v);
    case Failure(delay) => FailureKeepsRecords(v, delay);
    case _ =>
  }

  lemma BeginKeepsRecords(v: RA.View)
    ensures RA.Begun(v).cached == v.cached && RA.Begun(v).entries == v.entries
  {
  }

  lemma SuccessKeepsRecords(v: RA.View)
    ensures RA.Succeeded(v).cached == v.cached && RA.Succeeded(v).entries == v.entries
  {
  }

  lemma FailureKeepsRecords(v: RA.View, delay: int)
    ensures RA.FailedOnce(v, delay).cached == v.cached && RA.FailedOnce(v, delay).entries == v.entries
  {
  }

  lemma ClientKeepsEntries(v: RA.View, l: RA.Label)
    requires v.row.Some? && RA.ByClients(l)
    ensures RA.Next(v, l).entries == v.entries
    ensures RA.Next(v, l).cached in {None, v.cached, v.row}
  {
  }

  lemma CleanUpKeepsRecords(v: RA.View, l: RA.Label)
    requires v.row.Some? && (l.Flush? || l.Look? || l.Bury?)
    ensures RA.Next(v, l).row == v.row && RA.Next(v, l).cached in {None, v.cached, v.row}
    ensures l.Bury? ==> forall sec :: sec in RA.Next(v, l).entries ==>
      RA.Next(v, l).entries[sec] == (if sec in v.entries then v.entries[sec] else l.rec)
    ensures !l.Bury? ==> RA.Next(v, l).entries == v.entries
  {
  }

  lemma MoveKeepsRecords(v: RA.View, l: RA.Label)
    requires v.row.Some? && RecordsOk(v) && (l.Bury? ==> EntryOf(l.rec, v.row.value))
    ensures RecordsOk(RA.Next(v, l))
  {
    MoveKeepsJob(v, l);
    if RA.ByAttempt(l) {
      AttemptKeepsRecords(v, l);
    } else if RA.ByClients(l) {
      ClientKeepsEntries(v, l);
    } else {
      CleanUpKeepsRecords(v, l);
    }
  }

  lemma NewKeepsRecords(v: RA.View, l: RA.Label)
    requires RA.Untouched(v) && v.row.None? && RA.Allowed(v, l)
    ensures RecordsOk(RA.Next(v, l))
  {
    if l.Insertion? {
      assert RA.Next(v, l).entries == map[] && RA.Next(v, l).cached.None?;
    } else {
      NothingAppears(v, l);
    }
  }

  lemma NothingAppears(v: RA.View, l: RA.Label)
    requires RA.Untouched(v) && v.row.None? && RA.Allowed(v, l) && !l.Insertion?
    ensures RA.Next(v, l).row.None?
  {
  }

  // ---- the record that a worker carries to the dead-letter table ----

  predicate RecOk(tasks: map<string, Task>, w: Work) {
    w.Archiving? ==> w.t.id in tasks && EntryOf(w.rec, tasks[w.t.id])
  }

  ghost predicate AllRecs(s: Sys) {
    forall j, i :: HasWorker(s, j, i) ==> RecOk(s.tasks, WorkerAt(s, j, i))
  }

  /** Where a worker can get its record from: it had it before, or its `Get` has just returned it. */
  ghost predicate RecFrom(s: Sys, e: Event, j: nat, i: nat, w: Work) {
    w.Archiving? ==>
      HasWorker(s, j, i) &&
      (WorkerAt(s, j, i) == w
       || (e == Inspect(j, i) && Enabled(s, e) && WorkerAt(s, j, i).t == w.t && Lookup(s, w.t.id) == Some(w.rec)
           && w.rec.status == Failed))
  }

  lemma ReplicaRecs(s: Sys, s': Sys, e: Event, k: nat, r: Replica, j: nat, i: nat)
    requires k < |s.replicas| && s'.replicas == s.replicas[k := r] && |r.workers| == |s.replicas[k].workers|
    requires forall l :: 0 <= l < |r.workers| ==> r.workers[l] == s.replicas[k].workers[l] || !r.workers[l].Archiving?
    requires HasWorker(s', j, i)
    ensures RecFrom(s, e, j, i, WorkerAt(s', j, i))
  {
  }

  lemma OneWorkerRecs(s: Sys, s': Sys, e: Event, k: nat, l: nat, w: Work, j: nat, i: nat)
    requires HasWorker(s, k, l) && !w.Archiving? && s'.replicas == SetWorker(s, k, l, w).replicas
    requires HasWorker(s', j, i)
    ensures RecFrom(s, e, j, i, WorkerAt(s', j, i))
  {
    ReplicaRecs(s, s', e, k, s.replicas[k].(workers := s.replicas[k].workers[l := w]), j, i);
  }

  lemma MarkRecs(s: Sys, e: Event, k: nat, l: nat, j: nat, i: nat)
    requires HasWorker(s, k, l) && WorkerAt(s, k, l).Dequeued? && HasWorker(DoMark(s, k, l), j, i)
    ensures RecFrom(s, e, j, i, WorkerAt(DoMark(s, k, l), j, i))
  {
    OneWorkerRecs(s, DoMark(s, k, l), e, k, l, DoMark(s, k, l).replicas[k].workers[l], j, i);
  }

  lemma CompleteRecs(s: Sys, e: Event, k: nat, l: nat, j: nat, i: nat)
    requires HasWorker(s, k, l) && WorkerAt(s, k, l).Returned? && HasWorker(DoComplete(s, k, l), j, i)
    ensures RecFrom(s, e, j, i, WorkerAt(DoComplete(s, k, l), j, i))
  {
    OneWorkerRecs(s, DoComplete(s, k, l), e, k, l, DoComplete(s, k, l).replicas[k].workers[l], j, i);
  }

  lemma FailRecs(s: Sys, e: Event, k: nat, l: nat, delay: int, j: nat, i: nat)
    requires HasWorker(s, k, l) && WorkerAt(s, k, l).Returned? && HasWorker(DoFail(s, k, l, delay), j, i)
    ensures RecFrom(s, e, j, i, WorkerAt(DoFail(s, k, l, delay), j, i))
  {
    OneWorkerRecs(s, DoFail(s, k, l, delay), e, k, l, DoFail(s, k, l, delay).replicas[k].workers[l], j, i);
  }

  lemma UpdateRecs(s: Sys, e: Event, j: nat, i: nat)
    requires (e.Mark? || e.Record?) && Enabled(s, e) && HasWorker(Step(s, e), j, i)
    ensures RecFrom(s, e, j, i, WorkerAt(Step(s, e), j, i))
  {
    if e.Mark? {
      MarkRecs(s, e, e.j, e.i, j, i);
    } else if WorkerAt(s, e.j, e.i).ok {
      CompleteRecs(s, e, e.j, e.i, j, i);
    } else {
      FailRecs(s, e, e.j, e.i, NextDelay(s, WorkerAt(s, e.j, e.i).t.id), j, i);
    }
  }

  lemma InspectRecs(s: Sys, k: nat, l: nat, j: nat, i: nat)
    requires Enabled(s, Inspect(k, l)) && HasWorker(DoInspect(s, k, l), j, i)
    ensures RecFrom(s, Inspect(k, l), j, i, WorkerAt(DoInspect(s, k, l), j, i))
  {
  }

  lemma WorkerRecs(s: Sys, e: Event, j: nat, i: nat)
    requires ByWorker(e) && !e.Mark? && !e.Record? && Enabled(s, e) && HasWorker(Step(s, e), j, i)
    ensures RecFrom(s, e, j, i, WorkerAt(Step(s, e), j, i))
  {
    match e
    case Invalidate(k, l) => OneWorkerRecs(s, Step(s, e), e, k, l, AfterDel(WorkerAt(s, k, l)), j, i);
    case Return(k, l, ok) => OneWorkerRecs(s, Step(s, e), e, k, l, Returned(WorkerAt(s, k, l).t, ok), j, i);
    case Inspect(k, l) => InspectRecs(s, k, l, j, i);
    case Archive(k, l) => OneWorkerRecs(s, Step(s, e), e, k, l, Idle, j, i);
  }

  lemma TickRecs(s: Sys, e: Event, k: nat, j: nat, i: nat)
    requires k < |s.replicas| && HasWorker(DoTick(s, k), j, i)
    ensures RecFrom(s, e, j, i, WorkerAt(DoTick(s, k), j, i))
  {
    ReplicaRecs(s, DoTick(s, k), e, k, DoTick(s, k).replicas[k], j, i);
  }

  lemma ClaimRecs(s: Sys, e: Event, j: nat, i: nat)
    requires e.Claim? && Enabled(s, e) && HasWorker(Step(s, e), j, i)
    ensures RecFrom(s, e, j, i, WorkerAt(Step(s, e), j, i))
  {
    assert Step(s, e) == DoClaim(s, e.j, e.chosen);
    ReplicaRecs(s, DoClaim(s, e.j, e.chosen), e, e.j, DoClaim(s, e.j, e.chosen).replicas[e.j], j, i);
  }

  lemma EnqueueRecs(s: Sys, e: Event, j: nat, i: nat)
    requires e.Enqueue? && Enabled(s, e) && HasWorker(Step(s, e), j, i)
    ensures RecFrom(s, e, j, i, WorkerAt(Step(s, e), j, i))
  {
    ReplicaRecs(s, DoEnqueue(s, e.j), e, e.j, DoEnqueue(s, e.j).replicas[e.j], j, i);
  }

  lemma DequeueRecs(s: Sys, e: Event, j: nat, i: nat)
    requires e.Dequeue? && Enabled(s, e) && HasWorker(Step(s, e), j, i)
    ensures RecFrom(s, e, j, i, WorkerAt(Step(s, e), j, i))
  {
    ReplicaRecs(s, DoDequeue(s, e.j, e.i), e, e.j, DoDequeue(s, e.j, e.i).replicas[e.j], j, i);
  }

  lemma CrashRecs(s: Sys, e: Event, j: nat, i: nat)
    requires e.Crash? && Enabled(s, e) && HasWorker(Step(s, e), j, i)
    ensures RecFrom(s, e, j, i, WorkerAt(Step(s, e), j, i))
  {
    SchedulerSteps.CrashStep(s, e.j);
    ReplicaRecs(s, DoCrash(s, e.j), e, e.j, Downed(s.replicas[e.j]), j, i);
  }

  lemma RecoverRecs(s: Sys, e: Event, j: nat, i: nat)
    requires e.Recover? && Enabled(s, e) && HasWorker(Step(s, e), j, i)
    ensures RecFrom(s, e, j, i, WorkerAt(Step(s, e), j, i))
  {
    SchedulerSteps.RecoverStep(s, e.j);
    ReplicaRecs(s, DoRecover(s, e.j), e, e.j, s.replicas[e.j].(ticker := Resting), j, i);
  }

  lemma OtherRecs(s: Sys, e: Event, j: nat, i: nat)
    requires !ByWorker(e) && Enabled(s, e) && HasWorker(Step(s, e), j, i)
    ensures RecFrom(s, e, j, i, WorkerAt(Step(s, e), j, i))
  {
    if e.Tick? {
      TickRecs(s, e, e.j, j, i);
    } else if e.Claim? {
      ClaimRecs(s, e, j, i);
    } else if e.Enqueue? {
      EnqueueRecs(s, e, j, i);
    } else if e.Dequeue? {
      DequeueRecs(s, e, j, i);
    } else if e.Crash? {
      CrashRecs(s, e, j, i);
    } else if e.Recover? {
      RecoverRecs(s, e, j, i);
    } else {
      TablesRecs(s, e, j, i);
    }
  }

  lemma TablesRecs(s: Sys, e: Event, j: nat, i: nat)
    requires e.Advance? || e.Create? || e.Read? || e.DropKey? || e.Edit?
    requires HasWorker(Step(s, e), j, i)
    ensures RecFrom(s, e, j, i, WorkerAt(Step(s, e), j, i))
  {
    assert Step(s, e).replicas == s.replicas;
  }

  lemma StepRecs(s: Sys, e: Event, j: nat, i: nat)
    requires HasWorker(Step(s, e), j, i)
    ensures RecFrom(s, e, j, i, WorkerAt(Step(s, e), j, i))
  {
    if !Enabled(s, e) {
    } else if e.Mark? || e.Record? {
      UpdateRecs(s, e, j, i);
    } else if ByWorker(e) {
      WorkerRecs(s, e, j, i);
    } else {
      OtherRecs(s, e, j, i);
    }
  }

  // ---- every run ----

  ghost predicate Recorded(s: Sys) {
    Consistent(s) && AllRecs(s) && forall id :: RA.Untouched(ViewOf(s, id)) && RecordsOk(ViewOf(s, id))
  }

  lemma LookupOk(s: Sys, id: string)
    requires RecordsOk(ViewOf(s, id)) && id in s.tasks
    ensures Lookup(s, id).Some? && SameJob(Lookup(s, id).value, s.tasks[id])
  {
  }

  lemma RecStaysOk(s: Sys, e: Event, j: nat, i: nat)
    requires Recorded(s) && HasWorker(Step(s, e), j, i)
    ensures RecOk(Step(s, e).tasks, WorkerAt(Step(s, e), j, i))
  {
    var w := WorkerAt(Step(s, e), j, i);
    StepRecs(s, e, j, i);
    if w.Archiving? {
      assert ReplicaOk(s.tasks, s.replicas[j]) && WorkCurrent(s.tasks, WorkerAt(s, j, i));
      assert RecOk(s.tasks, WorkerAt(s, j, i));
      StepKeepsJob(s, e, w.t.id);
      LookupOk(s, w.t.id);
    }
  }

  lemma BuryLabel(s: Sys, e: Event, id: string)
    requires AllRecs(s) && LabelOf(s, e, id).Bury? && id in s.tasks
    ensures EntryOf(LabelOf(s, e, id).rec, s.tasks[id])
  {
    assert RecOk(s.tasks, WorkerAt(s, e.j, e.i));
  }

  lemma StepRecorded(s: Sys, e: Event, id: string)
    requires Recorded(s) && RA.Invariant(ViewOf(s, id))
    ensures RecordsOk(ViewOf(Step(s, e), id))
  {
    var v, l := ViewOf(s, id), LabelOf(s, e, id);
    StepSimulates(s, e, id);
    if v.row.None? {
      NewKeepsRecords(v, l);
    } else {
      if l.Bury? {
        BuryLabel(s, e, id);
      }
      MoveKeepsRecords(v, l);
    }
  }

  lemma {:induction false} RunRecorded(s0: Sys, es: seq<Event>)
    requires Initial(s0)
    ensures Recorded(Run(s0, es))
  {
    forall id ensures RA.Untouched(ViewOf(Run(s0, es), id)) {
      RunInvariant(s0, es, id);
    }
    RunInvariant(s0, es, "");
    if es != [] {
      var before, e := es[..|es| - 1], es[|es| - 1];
      var s := Run(s0, before);
      RunRecorded(s0, before);
      forall id ensures RecordsOk(ViewOf(Step(s, e), id)) {
        RunInvariant(s0, before, id);
        StepRecorded(s, e, id);
      }
      forall j, i | HasWorker(Step(s, e), j, i) ensures RecOk(Step(s, e).tasks, WorkerAt(Step(s, e), j, i)) {
        RecStaysOk(s, e, j, i);
      }
    }
  }

  lemma InEntries(s: Sys, id: string)
    requires RecordsOk(ViewOf(s, id)) && id in s.tasks
    ensures forall sec :: sec in Entries(s.dlq, id) ==> EntryOf(Entries(s.dlq, id)[sec], s.tasks[id])
    ensures id in s.cache ==> SameJob(s.cache[id], s.tasks[id])
  {
  }

  /** In every reachable state, each dead-letter entry is FAILED and has the id, URL, payload, retry limit and
      creation time of its task; and so has whatever is cached for it.  No id without a task has either. */
  lemma ArchivedIsTheTask(s: Sys, id: string)
    requires Reachable(s)
    ensures id !in s.tasks ==> id !in s.cache && Entries(s.dlq, id) == map[]
    ensures id in s.tasks ==>
      && (forall sec :: sec in Entries(s.dlq, id) ==> EntryOf(Entries(s.dlq, id)[sec], s.tasks[id]))
      && (id in s.cache ==> SameJob(s.cache[id], s.tasks[id]))
  {
    var s0, es :| Initial(s0) && s == Run(s0, es);
    RunRecorded(s0, es);
    assert RA.Untouched(ViewOf(s, id)) && RecordsOk(ViewOf(s, id));
    if id in s.tasks {
      InEntries(s, id);
    }
  }

  /** So a task whose request is known is archived with the URL and payload of that request. */
  lemma ArchivedAsRequested(s: Sys, q: TaskRequest, generated: string, es: seq<Event>)
    requires Reachable(s) && IdOf(q, generated) !in s.tasks
    ensures var s', id := Run(Step(s, Create(q, generated)), es), IdOf(q, generated);
      forall sec :: sec in Entries(s'.dlq, id) ==> AsRequested(Entries(s'.dlq, id)[sec], id, q, s.now)
  {
    var s', id := Run(Step(s, Create(q, generated)), es), IdOf(q, generated);
    RequestKept(s, q, generated, es);
    ReachableOn(s, Create(q, generated), es);
    ArchivedIsTheTask(s', id);
  }

  lemma ReachableOn(s: Sys, e: Event, es: seq<Event>)
    requires Reachable(s)
    ensures Reachable(Run(Step(s, e), es))
  {
    var s0, before :| Initial(s0) && s == Run(s0, before);
    SchedulerSteps.RunCons(s, e, es);
    SchedulerSteps.RunAppend(s0, before, [e] + es);
    assert Run(s0, before + ([e] + es)) == Run(Step(s, e), es);
  }
}
