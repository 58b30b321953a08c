/** What clients asked for is what happens: a task keeps the endpoint, payload and retry limit of its
    request for good, and no callback of it starts before the time that was last asked for, be it by its
    creation, by a reschedule, or by the backoff after a failure. */
module SchedulerRequests {
  import opened Options
  import opened Tasks
  import opened Scheduler
  import opened Simulation
  import opened SchedulerSteps
  import opened SchedulerTheorems
  import RA = RetryAutomaton

  // ---- what was requested stays ----

  lemma AttemptKeepsJob(v: RA.View, l: RA.Label)
    requires v.row.Some? && RA.ByAttempt(l)
    ensures RA.Next(v, l).row.Some? && SameJob(RA.Next(v, l).row.value, v.row.value)
  {
    if l.Failure? {
      FailureKeepsJob(v, l.delay);
    }
  }

  lemma FailureKeepsJob(v: RA.View, delay: int)
    requires v.row.Some?
    ensures RA.FailedOnce(v, delay).row.Some? && SameJob(RA.FailedOnce(v, delay).row.value, v.row.value)
  {
  }

  /** No move touches id, URL, payload, retry limit or creation time. */
  lemma MoveKeepsJob(v: RA.View, l: RA.Label)
    requires v.row.Some?
    ensures RA.Next(v, l).row.Some? && SameJob(RA.Next(v, l).row.value, v.row.value)
  {
    if RA.ByAttempt(l) {
      AttemptKeepsJob(v, l);
    }
  }

  lemma RowIs(s: Sys, id: string, v: RA.View)
    requires ViewOf(s, id) == v && v.row.Some?
    ensures id in s.tasks && s.tasks[id] == v.row.value
  {
  }

  lemma StepKeepsJob(s: Sys, e: Event, id: string)
    requires Consistent(s) && id in s.tasks
    ensures id in Step(s, e).tasks && SameJob(Step(s, e).tasks[id], s.tasks[id])
  {
    var v, l := ViewOf(s, id), LabelOf(s, e, id);
    StepSimulates(s, e, id);
    MoveKeepsJob(v, l);
    RowIs(Step(s, e), id, RA.Next(v, l));
  }

  lemma {:induction false} RunKeepsJob(s: Sys, es: seq<Event>, id: string)
    requires Consistent(s) && id in s.tasks
    ensures Consistent(Run(s, es)) && id in Run(s, es).tasks && SameJob(Run(s, es).tasks[id], s.tasks[id])
  {
    if es != [] {
      var before, e := es[..|es| - 1], es[|es| - 1];
      RunKeepsJob(s, before, id);
      StepConsistent(Run(s, before), e);
      StepKeepsJob(Run(s, before), e, id);
    }
  }

  /** The job that a request asks for; a limit that is not positive means three retries. */
  predicate AsRequested(t: Task, id: string, q: TaskRequest, at: int) {
    && t.id == id && t.callbackUrl == q.callbackUrl && t.payload == q.payload && t.createdAt == at
    && t.maxRetries == if q.maxRetries <= 0 then 3 else q.maxRetries
  }

  function IdOf(q: TaskRequest, generated: string): string {
    if q.id == "" then generated else q.id
  }

  lemma CreateStep(s: Sys, q: TaskRequest, generated: string)
    requires IdOf(q, generated) !in s.tasks
    ensures var s', id := Step(s, Create(q, generated)), IdOf(q, generated);
      && s'.tasks.Keys == s.tasks.Keys + {id} && AsRequested(s'.tasks[id], id, q, s.now) && s'.now == s.now
      && s'.tasks[id].status == Pending && s'.replicas == s.replicas && History(s', id) == NEW_LOG
      && s'.tasks[id].executeAt == if q.executeAt.Some? then q.executeAt.value else s.now
  {
    assert Step(s, Create(q, generated)) == DoCreate(s, q, generated);
  }

  lemma HoldersAsRequested(s: Sys, id: string, q: TaskRequest, at: int, j: nat, t: Task)
    requires Consistent(s) && id in s.tasks && AsRequested(s.tasks[id], id, q, at)
    requires j < |s.replicas| && Holding(s.replicas[j], t) && t.id == id
    ensures AsRequested(t, id, q, at)
  {
    var r := s.replicas[j];
    assert ReplicaOk(s.tasks, r);
    if i :| 0 <= i < |r.workers| && !r.workers[i].Idle? && r.workers[i].t == t {
      assert WorkCurrent(s.tasks, r.workers[i]);
    }
  }

  /** From its creation on, in every run with any number of edits, retries, crashes and recoveries: the row
      of a task, and every record of it in a batch, a channel or a worker's hands, has the id, URL, payload
      and retry limit of the request. */
  lemma RequestKept(s: Sys, q: TaskRequest, generated: string, es: seq<Event>)
    requires Reachable(s) && IdOf(q, generated) !in s.tasks
    ensures var s', id := Run(Step(s, Create(q, generated)), es), IdOf(q, generated);
      && id in s'.tasks && AsRequested(s'.tasks[id], id, q, s.now)
      && forall j, t :: 0 <= j < |s'.replicas| && Holding(s'.replicas[j], t) && t.id == id ==>
           AsRequested(t, id, q, s.now)
  {
    var s1, id := Step(s, Create(q, generated)), IdOf(q, generated);
    var s' := Run(s1, es);
    ReachableInvariant(s, id);
    CreateStep(s, q, generated);
    StepConsistent(s, Create(q, generated));
    RunKeepsJob(s1, es, id);
    forall j, t | 0 <= j < |s'.replicas| && Holding(s'.replicas[j], t) && t.id == id
      ensures AsRequested(t, id, q, s.now)
    {
      HoldersAsRequested(s', id, q, s.now, j, t);
    }
  }

  // ---- not before its time, and from then on ----

  /** The row waits for this time, and nobody may start or record a callback of it. */
  predicate Awaits(v: RA.View, t: int) {
    && v.row.Some? && v.row.value.status == Pending && v.row.value.executeAt == t
    && Executable(v.copies) == 0
  }

  /** It still waits, and nothing has been started. */
  predicate StillAwaits(v: RA.View, w: RA.View, t: int) {
    Awaits(v, t) && Awaits(w, t) && w.log.starts == v.log.starts && w.row.value.retryCount == v.row.value.retryCount
  }

  lemma AwaitingRests(v: RA.View, l: RA.Label, t: int)
    requires Awaits(v, t) && RA.Allowed(v, l)
    ensures RA.ByAttempt(l) ==> l.Take? && t <= v.now
  {
  }

  lemma ClientsLetWait(v: RA.View, l: RA.Label, t: int)
    requires Awaits(v, t) && RA.Allowed(v, l) && RA.ByClients(l) && !(l.Change? && l.patch.executeAt.Some?)
    ensures StillAwaits(v, RA.Next(v, l), t)
  {
  }

  lemma SameWorkAwaits(v: RA.View, w: RA.View, t: int)
    requires Awaits(v, t) && RA.SameWork(v, w)
    ensures StillAwaits(v, w, t)
  {
  }

  lemma CleanUpLetsWait(v: RA.View, l: RA.Label, t: int)
    requires Awaits(v, t) && RA.Allowed(v, l) && (l.Flush? || l.Look? || l.Bury?)
    ensures StillAwaits(v, RA.Next(v, l), t)
  {
    match l
    case Flush(kind) => RA.FlushSame(v, kind); SameWorkAwaits(v, RA.Flushed(v, kind), t);
    case Look(final) =>
      RA.LookSame(RA.Cache(v), final);
      SameWorkAwaits(RA.Cache(v), RA.Looked(RA.Cache(v), final), t);
    case Bury(rec, final, second) =>
      RA.BurySame(v, rec, final, second);
      SameWorkAwaits(v, RA.Buried(v, rec, final, second), t);
  }

  lemma MoveLetsWait(v: RA.View, l: RA.Label, t: int)
    requires Awaits(v, t) && RA.Allowed(v, l) && !(l.Change? && l.patch.executeAt.Some?)
    ensures StillAwaits(v, RA.Next(v, l), t) || (l.Take? && t <= v.now)
  {
    AwaitingRests(v, l, t);
    if RA.ByClients(l) {
      ClientsLetWait(v, l, t);
    } else if !RA.ByAttempt(l) {
      CleanUpLetsWait(v, l, t);
    }
  }

  predicate Unrescheduled(es: seq<Event>, id: string) {
    forall n :: 0 <= n < |es| ==> !(es[n].Edit? && es[n].id == id && es[n].patch.executeAt.Some?)
  }

  predicate Unclaimed(es: seq<Event>, id: string) {
    forall n :: 0 <= n < |es| && es[n].Claim? ==> id !in es[n].chosen
  }

  /** A PENDING row with this time of which nobody has a copy that could still be executed. */
  predicate Waiting(s: Sys, id: string, t: int) {
    && id in s.tasks && s.tasks[id].status == Pending && s.tasks[id].executeAt == t
    && Executable(Total(s.replicas, id)) == 0
  }

  lemma WaitingView(s: Sys, id: string, t: int)
    ensures Waiting(s, id, t) <==> Awaits(ViewOf(s, id), t)
  {
  }

  /** Nothing has happened to the task since `s`, apart from time. */
  predicate Untried(s: Sys, s': Sys, id: string, t: int) {
    && Waiting(s, id, t) && Waiting(s', id, t)
    && History(s', id).starts == History(s, id).starts && s'.tasks[id].retryCount == s.tasks[id].retryCount
  }

  lemma TakeLabel(s: Sys, e: Event, id: string)
    requires LabelOf(s, e, id).Take?
    ensures e.Claim? && id in e.chosen
  {
  }

  lemma UntriedStep(s: Sys, s': Sys, e: Event, id: string, t: int)
    requires Consistent(s') && Untried(s, s', id, t) && !(e.Edit? && e.id == id && e.patch.executeAt.Some?)
    requires s'.now < t || !(e.Claim? && id in e.chosen)
    ensures Untried(s, Step(s', e), id, t)
  {
    var v, l := ViewOf(s', id), LabelOf(s', e, id);
    StepSimulates(s', e, id);
    LabelShape(s', e, id);
    WaitingView(s', id, t);
    MoveLetsWait(v, l, t);
    if l.Take? {
      TakeLabel(s', e, id);
    }
    WaitingView(Step(s', e), id, t);
    RowIs(Step(s', e), id, RA.Next(v, l));
  }

  lemma LaterNow(v: RA.View, l: RA.Label)
    ensures RA.Next(v, l).now >= v.now
  {
    if RA.ByAttempt(l) {
      AttemptsNow(v, l);
    }
  }

  lemma AttemptsNow(v: RA.View, l: RA.Label)
    requires RA.ByAttempt(l)
    ensures RA.Next(v, l).now == v.now
  {
  }

  lemma NowGrows(s: Sys, e: Event)
    requires Consistent(s)
    ensures Step(s, e).now >= s.now
  {
    StepSimulates(s, e, "");
    LaterNow(ViewOf(s, ""), LabelOf(s, e, ""));
  }

  lemma {:induction false} UntriedRun(s: Sys, es: seq<Event>, id: string, t: int)
    requires Consistent(s) && Waiting(s, id, t) && Unrescheduled(es, id)
    ensures Consistent(Run(s, es)) && (Run(s, es).now < t || Unclaimed(es, id) ==> Untried(s, Run(s, es), id, t))
  {
    if es != [] {
      var before, e := es[..|es| - 1], es[|es| - 1];
      UntriedRun(s, before, id, t);
      StepConsistent(Run(s, before), e);
      NowGrows(Run(s, before), e);
      if Run(s, es).now < t || Unclaimed(es, id) {
        UntriedStep(s, Run(s, before), e, id, t);
      }
    }
  }

  /** Before its time nothing is done with the task; and until somebody claims it, it can be claimed exactly
      from that time on. */
  ghost predicate OnTime(s: Sys, es: seq<Event>, id: string, t: int) {
    var s' := Run(s, es);
    && (s'.now < t ==> Untried(s, s', id, t))
    && (Unclaimed(es, id) ==> Untried(s, s', id, t) && (Ready(s'.tasks, id, s'.now) <==> t <= s'.now))
  }

  lemma WaitingIsOnTime(s: Sys, es: seq<Event>, id: string, t: int)
    requires Consistent(s) && Waiting(s, id, t) && Unrescheduled(es, id)
    ensures OnTime(s, es, id, t)
  {
    UntriedRun(s, es, id, t);
  }

  /** A new task, in every run without a reschedule of it: no claim and no callback before the time of its
      request, or before its creation if it asks for none, and from then on it is ready. */
  lemma CreatedOnTime(s: Sys, q: TaskRequest, generated: string, es: seq<Event>)
    requires Reachable(s) && IdOf(q, generated) !in s.tasks && Unrescheduled(es, IdOf(q, generated))
    ensures var s', id := Step(s, Create(q, generated)), IdOf(q, generated);
      && OnTime(s', es, id, if q.executeAt.Some? then q.executeAt.value else s.now) && History(s', id).starts == 0
  {
    var id := IdOf(q, generated);
    ReachableInvariant(s, id);
    CreateStep(s, q, generated);
    StepConsistent(s, Create(q, generated));
    assert RA.Untouched(ViewOf(s, id));
    WaitingIsOnTime(Step(s, Create(q, generated)), es, id, if q.executeAt.Some? then q.executeAt.value else s.now);
  }

  lemma EditStep(s: Sys, id: string, p: Patch)
    requires Consistent(s) && id in s.tasks
    ensures var s', t := Step(s, Edit(id, p)), s.tasks[id];
      && s'.tasks.Keys == s.tasks.Keys && s'.replicas == s.replicas && s'.now == s.now
      && (forall k :: k in s.tasks && k != id ==> s'.tasks[k] == s.tasks[k])
      && (p.executeAt.None? ==>
            s'.tasks[id] == t.(title := s'.tasks[id].title, description := s'.tasks[id].description))
      && (p.executeAt.Some? ==>
            && s'.tasks[id].status == Pending && s'.tasks[id].executeAt == p.executeAt.value
            && s'.tasks[id].retryCount == 0)
  {
    EditTable(s, id, p);
    EditedRow(s.tasks[id], p);
  }

  lemma EditTable(s: Sys, id: string, p: Patch)
    requires Consistent(s) && id in s.tasks
    ensures var s' := Step(s, Edit(id, p));
      s'.tasks == s.tasks[id := EditRow(s.tasks[id], p)] && s'.replicas == s.replicas && s'.now == s.now
  {
    assert Step(s, Edit(id, p)) == DoEdit(s, id, p);
  }

  lemma EditedRow(t: Task, p: Patch)
    ensures var u := EditRow(t, p);
      && (p.executeAt.None? ==> u == t.(title := u.title, description := u.description))
      && (p.executeAt.Some? ==> u.status == Pending && u.executeAt == p.executeAt.value && u.retryCount == 0)
  {
  }

  /** A reschedule of a task that nobody works on, in every run without another one: no claim and no callback
      before the time that it asks for, from then on it is ready, and it has all its retries again.  An edit
      that asks for no time changes neither time, status nor retries, and no edit touches another task. */
  lemma RescheduledOnTime(s: Sys, id: string, p: Patch, es: seq<Event>)
    requires Reachable(s) && id in s.tasks
    ensures var s', t := Step(s, Edit(id, p)), s.tasks[id];
      && (forall k :: k in s.tasks && k != id ==> k in s'.tasks && s'.tasks[k] == s.tasks[k])
      && (p.executeAt.Some? && Executable(Total(s.replicas, id)) == 0 && Unrescheduled(es, id) ==>
            && OnTime(s', es, id, p.executeAt.value) && id in s'.tasks && s'.tasks[id].retryCount == 0)
      && (p.executeAt.None? ==>
            && id in s'.tasks && s'.tasks[id].executeAt == t.executeAt && s'.tasks[id].status == t.status
            && s'.tasks[id].retryCount == t.retryCount)
  {
    ReachableInvariant(s, id);
    EditStep(s, id, p);
    StepConsistent(s, Edit(id, p));
    if p.executeAt.Some? && Executable(Total(s.replicas, id)) == 0 && Unrescheduled(es, id) {
      WaitingIsOnTime(Step(s, Edit(id, p)), es, id, p.executeAt.value);
    }
  }

  lemma FailedView(v: RA.View, w: RA.View, delay: int)
    requires v.row.Some? && v.copies[Lost] > 0 && Executable(v.copies) == 1 && w == RA.FailedOnce(v, delay)
    requires v.row.value.retryCount + 1 <= v.row.value.maxRetries
    ensures Awaits(w, v.now + delay) && w.row.value.retryCount == v.row.value.retryCount + 1
  {
    assert w.copies == RA.Move(v.copies, Lost, multiset{Lagging(false)});
    RA.Moved(v.copies, Lost, Lagging(false));
  }

  /** What a worker's failed attempt is for its task. */
  predicate FailsAs(s: Sys, s': Sys, id: string, delay: int) {
    id in s.tasks && Total(s.replicas, id)[Lost] > 0 && ViewOf(s', id) == RA.FailedOnce(ViewOf(s, id), delay)
  }

  lemma FailureLabel(s: Sys, j: nat, i: nat)
    requires Enabled(s, Record(j, i)) && !WorkerAt(s, j, i).ok
    ensures var id := WorkerAt(s, j, i).t.id; LabelOf(s, Record(j, i), id) == RA.Failure(NextDelay(s, id))
  {
  }

  lemma RecordFails(s: Sys, j: nat, i: nat)
    requires Consistent(s) && Enabled(s, Record(j, i)) && !WorkerAt(s, j, i).ok
    ensures var id := WorkerAt(s, j, i).t.id; FailsAs(s, Step(s, Record(j, i)), id, NextDelay(s, id))
  {
    HeldRow(s, j, i);
    FailureLabel(s, j, i);
    StepSimulates(s, Record(j, i), WorkerAt(s, j, i).t.id);
  }

  /** After this failure nothing more is done with the task until the delay is over. */
  ghost predicate Retried(s: Sys, s': Sys, id: string, delay: int, es: seq<Event>) {
    && id in s.tasks && id in s'.tasks && s'.tasks[id].retryCount == s.tasks[id].retryCount + 1
    && OnTime(s', es, id, s.now + delay)
  }

  lemma FailedIsRetried(s: Sys, s': Sys, id: string, delay: int, es: seq<Event>)
    requires FailsAs(s, s', id, delay) && Consistent(s') && Unrescheduled(es, id)
    requires s.tasks[id].retryCount + 1 <= s.tasks[id].maxRetries && Executable(Total(s.replicas, id)) == 1
    ensures Retried(s, s', id, delay, es)
  {
    FailedView(ViewOf(s, id), ViewOf(s', id), delay);
    RetryWaits(s', ViewOf(s', id), id, s.now + delay, es);
  }

  /** The delay that the source's arithmetic gives, and what it comes to. */
  lemma DelayIs(s: Sys, id: string)
    requires id in s.tasks
    ensures var n := s.tasks[id].retryCount + 1;
      NextDelay(s, id) == BackoffNanos(n) && (n <= 32 ==> NextDelay(s, id) == Pow2(n + 1) * SECOND)
  {
    BackoffExactness(s.tasks[id].retryCount + 1);
  }

  /** The backoff, in every run without a reschedule: when a worker records a failure at a time when nobody
      else may execute the task, and retries are left, no further callback starts before the delay is over,
      2^(n+1) seconds after failure number n (up to the 32 that int64 allows), and from then on the task is
      ready. */
  lemma RetriedOnTime(s: Sys, j: nat, i: nat, id: string, delay: int, es: seq<Event>)
    requires Reachable(s) && Enabled(s, Record(j, i)) && !WorkerAt(s, j, i).ok && WorkerAt(s, j, i).t.id == id
    requires id in s.tasks && s.tasks[id].retryCount + 1 <= s.tasks[id].maxRetries
    requires Executable(Total(s.replicas, id)) == 1 && Unrescheduled(es, id)
    requires var n := s.tasks[id].retryCount + 1; delay == if n <= 32 then Pow2(n + 1) * SECOND else BackoffNanos(n)
    ensures Retried(s, Step(s, Record(j, i)), id, delay, es)
  {
    ReachableInvariant(s, id);
    StepConsistent(s, Record(j, i));
    RecordFails(s, j, i);
    DelayIs(s, id);
    FailedIsRetried(s, Step(s, Record(j, i)), id, delay, es);
  }

  lemma RetryWaits(s: Sys, v: RA.View, id: string, t: int, es: seq<Event>)
    requires Consistent(s) && Unrescheduled(es, id) && ViewOf(s, id) == v && Awaits(v, t)
    ensures OnTime(s, es, id, t) && id in s.tasks && s.tasks[id].retryCount == v.row.value.retryCount
  {
    AwaitsIsWaiting(s, v, id, t);
    WaitingIsOnTime(s, es, id, t);
  }

  lemma AwaitsIsWaiting(s: Sys, v: RA.View, id: string, t: int)
    requires ViewOf(s, id) == v && Awaits(v, t)
    ensures Waiting(s, id, t) && s.tasks[id].retryCount == v.row.value.retryCount
  {
  }

  // ---- the history of a task is what happened ----

  /** What a move adds to the callbacks started, their outcomes and the first failure. */
  predicate Counts(v: RA.View, l: RA.Label, w: RA.View) {
    && w.log.starts == v.log.starts + (if l.Begin? then 1 else 0)
    && w.log.outcomes == v.log.outcomes + (if l.Outcome? then [l.ok] else [])
    && w.log.firstFailure == if l.Failure? && v.row.Some? && v.row.value.retryCount == 0 then Some(v.now)
                             else v.log.firstFailure
  }

  lemma BeginCounts(v: RA.View)
    requires v.row.Some?
    ensures Counts(v, RA.Begin, RA.Begun(v))
  {
  }

  lemma FailureCounts(v: RA.View, delay: int)
    requires v.row.Some?
    ensures Counts(v, RA.Failure(delay), RA.FailedOnce(v, delay))
  {
  }

  lemma AttemptCounts(v: RA.View, l: RA.Label)
    requires v.row.Some? && RA.ByAttempt(l)
    ensures Counts(v, l, RA.Next(v, l))
  {
    if l.Begin? {
      BeginCounts(v);
    } else if l.Failure? {
      FailureCounts(v, l.delay);
    }
  }

  lemma ClientCounts(v: RA.View, l: RA.Label)
    requires v.row.Some? && RA.ByClients(l) && !(l.Change? && l.patch.executeAt.Some?)
    ensures Counts(v, l, RA.Next(v, l))
  {
  }

  lemma MoveCounts(v: RA.View, l: RA.Label)
    requires v.row.Some? && !(l.Change? && l.patch.executeAt.Some?)
    ensures Counts(v, l, RA.Next(v, l))
  {
    if RA.ByAttempt(l) {
      AttemptCounts(v, l);
    } else if RA.ByClients(l) {
      ClientCounts(v, l);
    } else {
      assert RA.Cache(v).log == v.log;
    }
  }

  /** The event is this worker's, and this is its task. */
  ghost predicate OfTask(s: Sys, e: Event, id: string) {
    ByWorker(e) && Enabled(s, e) && WorkerAt(s, e.j, e.i).t.id == id
  }

  lemma HistoryLabel(s: Sys, e: Event, id: string)
    ensures var l := LabelOf(s, e, id);
      && (l.Begin? <==> e.Mark? && OfTask(s, e, id))
      && (l.Outcome? <==> e.Return? && OfTask(s, e, id)) && (l.Outcome? ==> l.ok == e.success)
      && (l.Failure? <==> e.Record? && OfTask(s, e, id) && !WorkerAt(s, e.j, e.i).ok)
  {
  }

  /** The bookkeeping of a task follows the machine: in every step but a reschedule of it, the callbacks started
      are counted at the marks, their outcomes are recorded as they return, and the first failure has the time
      at which a worker recorded it for a row that had none. */
  lemma HistoryIsTrue(s: Sys, e: Event, id: string)
    requires Reachable(s) && id in s.tasks && !(e.Edit? && e.id == id && e.patch.executeAt.Some?)
    ensures var g, g', mine := History(s, id), History(Step(s, e), id), OfTask(s, e, id);
      && g'.starts == g.starts + (if e.Mark? && mine then 1 else 0)
      && g'.outcomes == g.outcomes + (if e.Return? && mine then [e.success] else [])
      && g'.firstFailure == if e.Record? && mine && !WorkerAt(s, e.j, e.i).ok && s.tasks[id].retryCount == 0
                            then Some(s.now) else g.firstFailure
  {
    ReachableInvariant(s, id);
    StepSimulates(s, e, id);
    LabelShape(s, e, id);
    HistoryLabel(s, e, id);
    MoveCounts(ViewOf(s, id), LabelOf(s, e, id));
  }

  // ---- what a claim takes ----

  /** A PENDING row that is due and not locked. */
  predicate Claimable(s: Sys, id: string, locked: set<string>) {
    id in s.tasks && s.tasks[id].status == Pending && s.tasks[id].executeAt <= s.now && id !in locked
  }

  /** A claim takes nothing but PENDING rows that are due and not locked, none of them twice; and it leaves
      such a row behind only when the free slots that the tick has read are used up, by rows due no later. */
  lemma ClaimsInOrder(s: Sys, j: nat, locked: set<string>, chosen: seq<string>)
    requires Enabled(s, Claim(j, locked, chosen))
    ensures |chosen| <= s.replicas[j].ticker.limit
    ensures forall m, n :: 0 <= m < n < |chosen| ==> chosen[m] != chosen[n]
    ensures forall c :: c in chosen ==> Claimable(s, c, locked)
    ensures forall k :: Claimable(s, k, locked) && k !in chosen ==>
      && |chosen| == s.replicas[j].ticker.limit
      && forall c :: c in chosen ==> s.tasks[c].executeAt <= s.tasks[k].executeAt
    ensures var s' := Step(s, Claim(j, locked, chosen));
      && s'.tasks.Keys == s.tasks.Keys
      && forall k :: k in s.tasks ==> s'.tasks[k] == if k in chosen then s.tasks[k].(status := Queued) else s.tasks[k]
  {
    assert Step(s, Claim(j, locked, chosen)) == DoClaim(s, j, chosen);
    forall k | Claimable(s, k, locked) ensures Ready(s.tasks, k, s.now) {
    }
  }
}
