/** Runs that show where the scheduler's guarantees end. */
module SchedulerWitnesses {
  import opened Options
  import opened Tasks
  import opened Scheduler
  import opened Simulation
  import opened SchedulerSteps
  import DeadLetters

  /** The only task of the system has this row, and worker i of replica j is doing `w`. */
  predicate Stage(s: Sys, j: nat, i: nat, row: Task, w: Work) {
    && s.tasks == map[row.id := row] && s.logs.Keys == {row.id} && Named(s.cache)
    && HasWorker(s, j, i) && WorkerAt(s, j, i) == w
    && s.replicas[j].channel == [] && s.replicas[j].capacity > 0
  }

  predicate Rested(s: Sys, j: nat) {
    j < |s.replicas| && (s.replicas[j].ticker == Resting || s.replicas[j].ticker == Sending([]))
  }

  /** Nothing happened to other replicas, other workers, the clock and the dead-letter table. */
  predicate Elsewhere(s: Sys, s': Sys, j: nat, i: nat) {
    && |s'.replicas| == |s.replicas| && s'.now == s.now && s'.dlq == s.dlq
    && (forall k :: 0 <= k < |s.replicas| && k != j ==> s'.replicas[k] == s.replicas[k])
    && (j < |s.replicas| ==>
          && |s'.replicas[j].workers| == |s.replicas[j].workers|
          && forall l :: 0 <= l < |s.replicas[j].workers| && l != i ==>
               s'.replicas[j].workers[l] == s.replicas[j].workers[l])
  }

  function Attempt(j: nat, i: nat, id: string): seq<Event> {
    [Tick(j), Claim(j, {}, [id])] + [Enqueue(j), Dequeue(j, i)] + [Mark(j, i), Invalidate(j, i)]
  }

  lemma TickStep(s: Sys, j: nat, i: nat, row: Task)
    requires Stage(s, j, i, row, Idle) && Rested(s, j)
    ensures Step(s, Tick(j)) == SetReplica(s, j, s.replicas[j].(ticker := Room(s.replicas[j].capacity)))
  {
  }

  lemma ClaimStep(s: Sys, j: nat, i: nat, row: Task)
    requires Stage(s, j, i, row, Idle) && s.replicas[j].ticker == Room(s.replicas[j].capacity)
    requires row.status == Pending && row.executeAt <= s.now
    ensures Step(s, Claim(j, {}, [row.id])) == DoClaim(s, j, [row.id])
  {
    assert ClaimSelects(s.tasks, s.now, s.replicas[j].capacity, {}, [row.id]);
  }

  lemma AttemptClaims(s: Sys, j: nat, i: nat, row: Task)
    requires Stage(s, j, i, row, Idle) && Rested(s, j) && row.status == Pending && row.executeAt <= s.now
    ensures var s' := Run(s, [Tick(j), Claim(j, {}, [row.id])]);
      && Stage(s', j, i, ClaimRow(row), Idle) && Elsewhere(s, s', j, i)
      && s'.replicas[j].ticker == Sending([ClaimRow(row)])
  {
    var s1 := SetReplica(s, j, s.replicas[j].(ticker := Room(s.replicas[j].capacity)));
    RunTwo(s, Tick(j), Claim(j, {}, [row.id]));
    TickStep(s, j, i, row);
    ClaimStep(s1, j, i, row);
    assert Claimed(s.tasks, [row.id]) == [ClaimRow(row)];
    assert MarkQueued(s.tasks, [row.id]) == map[row.id := ClaimRow(row)];
  }

  lemma EnqueueStep(s: Sys, j: nat, i: nat, row: Task)
    requires Stage(s, j, i, row, Idle) && s.replicas[j].ticker == Sending([row])
    ensures Step(s, Enqueue(j)) == SetReplica(s, j, s.replicas[j].(ticker := Sending([]), channel := [row]))
  {
    assert Step(s, Enqueue(j)) == DoEnqueue(s, j);
    assert [row][1..] == [] && [] + [row] == [row];
  }

  lemma DequeueStep(s: Sys, j: nat, i: nat, t: Task)
    requires HasWorker(s, j, i) && WorkerAt(s, j, i).Idle? && s.replicas[j].channel == [t]
    ensures Step(s, Dequeue(j, i)) ==
      SetReplica(s, j, s.replicas[j].(channel := [], workers := s.replicas[j].workers[i := Dequeued(t)]))
  {
    assert Step(s, Dequeue(j, i)) == DoDequeue(s, j, i);
    assert [t][1..] == [];
  }

  lemma AttemptHands(s: Sys, j: nat, i: nat, row: Task)
    requires Stage(s, j, i, row, Idle) && s.replicas[j].ticker == Sending([row])
    ensures var s' := Run(s, [Enqueue(j), Dequeue(j, i)]);
      Stage(s', j, i, row, Dequeued(row)) && Elsewhere(s, s', j, i) && Rested(s', j)
  {
    RunTwo(s, Enqueue(j), Dequeue(j, i));
    EnqueueStep(s, j, i, row);
    DequeueStep(Step(s, Enqueue(j)), j, i, row);
  }

  lemma MarkStage(s: Sys, j: nat, i: nat, row: Task, t: Task)
    requires Stage(s, j, i, row, Dequeued(t)) && t.id == row.id && Rested(s, j)
    ensures Step(s, Mark(j, i)) == DoMark(s, j, i)
    ensures var s' := DoMark(s, j, i);
      Stage(s', j, i, MarkRow(row), Marked(t)) && Elsewhere(s, s', j, i) && Rested(s', j)
  {
  }

  lemma AttemptStarts(s: Sys, j: nat, i: nat, row: Task, t: Task)
    requires Stage(s, j, i, row, Dequeued(t)) && t.id == row.id && Rested(s, j)
    ensures var s' := Run(s, [Mark(j, i), Invalidate(j, i)]);
      Stage(s', j, i, MarkRow(row), Calling(t)) && Elsewhere(s, s', j, i) && Rested(s', j)
  {
    var s1 := DoMark(s, j, i);
    RunTwo(s, Mark(j, i), Invalidate(j, i));
    MarkStage(s, j, i, row, t);
    assert Step(s1, Invalidate(j, i)) == DoInvalidate(s1, j, i);
  }

  /** The six steps that bring the task from the table to a running callback. */
  lemma AttemptRuns(s: Sys, j: nat, i: nat, row: Task)
    requires Stage(s, j, i, row, Idle) && Rested(s, j) && row.status == Pending && row.executeAt <= s.now
    ensures var s' := Run(s, Attempt(j, i, row.id));
      && Stage(s', j, i, MarkRow(row), Calling(ClaimRow(row))) && Elsewhere(s, s', j, i) && Rested(s', j)
  {
    var a, b, c := [Tick(j), Claim(j, {}, [row.id])], [Enqueue(j), Dequeue(j, i)], [Mark(j, i), Invalidate(j, i)];
    var t := ClaimRow(row);
    var s1 := Run(s, a);
    var s2 := Run(s1, b);
    AttemptClaims(s, j, i, row);
    AttemptHands(s1, j, i, t);
    AttemptStarts(s2, j, i, t, t);
    RunAppend(s, a, b);
    RunAppend(s, a + b, c);
    ElsewhereStill(s, s1, s2, j, i);
    ElsewhereStill(s, s2, Run(s2, c), j, i);
  }

  lemma ElsewhereStill(s: Sys, s': Sys, s'': Sys, j: nat, i: nat)
    requires Elsewhere(s, s', j, i) && Elsewhere(s', s'', j, i)
    ensures Elsewhere(s, s'', j, i)
  {
  }

  lemma FirstCreate(s0: Sys, q: TaskRequest, j: nat, i: nat)
    requires Initial(s0) && q.id != "" && q.executeAt == None
    requires HasWorker(s0, j, i) && s0.replicas[j].capacity > 0
    ensures var row := NewRow(q, "", s0.now);
      var s := Run(s0, [Create(q, "")]);
      row.id == q.id && Stage(s, j, i, row, Idle) && s.replicas == s0.replicas && s.now == s0.now && s.dlq == s0.dlq
  {
    RunOne(s0, Create(q, ""));
  }

  lemma RecoverOnly(row: Task)
    requires InFlight(row.status)
    ensures RecoverTable(map[row.id := row]) == map[row.id := row.(status := Pending)]
  {
  }

  lemma RecoverTables(s: Sys, row: Task, j: nat)
    requires s.tasks == map[row.id := row] && s.logs.Keys == {row.id} && j < |s.replicas| && InFlight(row.status)
    ensures DoRecover(s, j).tasks == map[row.id := row.(status := Pending)]
    ensures DoRecover(s, j).logs.Keys == {row.id}
  {
    RecoverOnly(row);
    assert DoRecover(s, j).tasks == RecoverTable(s.tasks);
    assert DoRecover(s, j).logs.Keys == s.logs.Keys;
  }

  lemma StartBeside(s: Sys, row: Task, w: Work, k: nat)
    requires Stage(s, 0, 0, row, w) && row.status == Processing && Works(s, 1, k, Idle)
    requires s.replicas[1].ticker == Down && s.replicas[1].capacity > 0 && s.replicas[1].channel == []
    ensures var s' := Run(s, [Recover(1)]);
      && Stage(s', 1, k, row.(status := Pending), Idle) && Rested(s', 1)
      && |s'.replicas| == |s.replicas| && s'.replicas[0] == s.replicas[0] && s'.now == s.now
  {
    RunOne(s, Recover(1));
    RecoverStep(s, 1);
    RecoverTables(s, row, 1);
  }

  predicate Works(s: Sys, j: nat, i: nat, w: Work) {
    HasWorker(s, j, i) && WorkerAt(s, j, i) == w
  }

  /** Two processes, of which the first runs already and the second has not been started. */
  predicate RollingStart(s0: Sys) {
    && Initial(s0) && |s0.replicas| == 2 && s0.replicas[0].ticker == Resting && s0.replicas[1].ticker == Down
    && forall j :: 0 <= j < 2 ==> s0.replicas[j].capacity > 0 && s0.replicas[j].workers != []
  }

  /** Recovery is not safe beside a live replica: with one task, no reschedule, no failure and no crash,
      starting a second process while the first is inside the callback makes both run it at once. */
  lemma RecoveryDuplicates(s0: Sys, q: TaskRequest) returns (es: seq<Event>)
    requires RollingStart(s0) && q.id != "" && q.executeAt == None
    ensures CrashFree(es)
    ensures var s := Run(s0, es);
      && HasWorker(s, 0, 0) && HasWorker(s, 1, 0) && WorkerAt(s, 0, 0).Calling? && WorkerAt(s, 1, 0).Calling?
      && WorkerAt(s, 0, 0).t.id == WorkerAt(s, 1, 0).t.id == q.id
  {
    var a, b := [Create(q, "")] + Attempt(0, 0, q.id), [Recover(1)] + Attempt(1, 0, q.id);
    FirstStarts(s0, q);
    SecondStarts(Run(s0, a), NewRow(q, "", s0.now));
    RunAppend(s0, a, b);
    es := a + b;
    AttemptCrashFree(Create(q, ""), 0, 0, q.id);
    AttemptCrashFree(Recover(1), 1, 0, q.id);
    BothCrashFree(a, b);
  }

  predicate CrashFree(es: seq<Event>) {
    forall n :: 0 <= n < |es| ==> !es[n].Edit? && !es[n].Crash?
  }

  lemma AttemptCrashFree(e: Event, j: nat, i: nat, id: string)
    requires !e.Edit? && !e.Crash?
    ensures CrashFree([e] + Attempt(j, i, id))
  {
  }

  lemma BothCrashFree(a: seq<Event>, b: seq<Event>)
    requires CrashFree(a) && CrashFree(b)
    ensures CrashFree(a + b)
  {
  }

  /** The second process recovers the table, claims the task again and runs its callback. */
  lemma SecondStarts(s: Sys, row: Task)
    requires Stage(s, 0, 0, MarkRow(row), Calling(ClaimRow(row))) && row.status == Pending && row.executeAt <= s.now
    requires Works(s, 1, 0, Idle) && s.replicas[1].ticker == Down && s.replicas[1].capacity > 0
    requires s.replicas[1].channel == []
    ensures var s' := Run(s, [Recover(1)] + Attempt(1, 0, row.id));
      Works(s', 0, 0, Calling(ClaimRow(row))) && Works(s', 1, 0, Calling(ClaimRow(row)))
  {
    StartBeside(s, MarkRow(row), Calling(ClaimRow(row)), 0);
    AttemptRuns(Run(s, [Recover(1)]), 1, 0, row);
    RunAppend(s, [Recover(1)], Attempt(1, 0, row.id));
  }

  lemma FirstStarts(s0: Sys, q: TaskRequest)
    requires RollingStart(s0) && q.id != "" && q.executeAt == None
    ensures var row := NewRow(q, "", s0.now);
      var s := Run(s0, [Create(q, "")] + Attempt(0, 0, q.id));
      && Stage(s, 0, 0, MarkRow(row), Calling(ClaimRow(row))) && |s.replicas| == 2 && s.replicas[1] == s0.replicas[1]
      && s.now == s0.now
  {
    FirstCreate(s0, q, 0, 0);
    AttemptRuns(Run(s0, [Create(q, "")]), 0, 0, NewRow(q, "", s0.now));
    RunAppend(s0, [Create(q, "")], Attempt(0, 0, q.id));
  }

  // ---- a worker that lags between its update and its `Get` ----

  /** A failed callback recorded, and the cache key deleted. */
  lemma FailureRecorded(s: Sys, j: nat, i: nat, row: Task, t: Task, delay: int)
    requires Stage(s, j, i, row, Calling(t)) && t.id == row.id && t.callbackUrl != "" && Rested(s, j)
    requires delay == BackoffNanos(row.retryCount + 1)
    ensures var upd := FailRow(row, s.now, delay);
      var s' := Run(s, [Return(j, i, false), Record(j, i)] + [Invalidate(j, i)]);
      && Stage(s', j, i, upd, Checking(t, upd)) && Elsewhere(s, s', j, i) && Rested(s', j) && row.id !in s'.cache
  {
    var upd := FailRow(row, s.now, delay);
    var a := [Return(j, i, false), Record(j, i)];
    var s2 := DoFail(DoReturn(s, j, i, false), j, i, delay);
    ReturnAndRecord(s, j, i, row, t, delay);
    RunOne(s2, Invalidate(j, i));
    InvalidateStep(s2, j, i, upd, t, upd);
    RunAppend(s, a, [Invalidate(j, i)]);
  }

  lemma ReturnAndRecord(s: Sys, j: nat, i: nat, row: Task, t: Task, delay: int)
    requires Stage(s, j, i, row, Calling(t)) && t.id == row.id && t.callbackUrl != "" && Rested(s, j)
    requires delay == BackoffNanos(row.retryCount + 1)
    ensures var upd := FailRow(row, s.now, delay);
      var s' := DoFail(DoReturn(s, j, i, false), j, i, delay);
      && Run(s, [Return(j, i, false), Record(j, i)]) == s'
      && Stage(s', j, i, upd, Failing(t, upd)) && Elsewhere(s, s', j, i) && Rested(s', j)
  {
    var s1 := DoReturn(s, j, i, false);
    RunTwo(s, Return(j, i, false), Record(j, i));
    ReturnStep(s, j, i, row, t);
    RecordStep(s1, j, i);
    FailStage(s1, j, i, row, t, delay);
  }

  lemma ReturnStep(s: Sys, j: nat, i: nat, row: Task, t: Task)
    requires Stage(s, j, i, row, Calling(t)) && t.id == row.id && t.callbackUrl != ""
    ensures var s' := DoReturn(s, j, i, false);
      Step(s, Return(j, i, false)) == s' && Stage(s', j, i, row, Returned(t, false)) && Elsewhere(s, s', j, i)
      && (Rested(s, j) ==> Rested(s', j))
  {
  }

  lemma WorkerElsewhere(s: Sys, s': Sys, j: nat, i: nat, w: Work)
    requires HasWorker(s, j, i) && s'.replicas == SetWorker(s, j, i, w).replicas && s'.now == s.now && s'.dlq == s.dlq
    ensures Elsewhere(s, s', j, i) && WorkerAt(s', j, i) == w && (Rested(s, j) ==> Rested(s', j))
    ensures s'.replicas[j].channel == s.replicas[j].channel && s'.replicas[j].capacity == s.replicas[j].capacity
  {
  }

  lemma FailStage(s: Sys, j: nat, i: nat, row: Task, t: Task, delay: int)
    requires Stage(s, j, i, row, Returned(t, false)) && t.id == row.id
    ensures var upd := FailRow(row, s.now, delay);
      var s' := DoFail(s, j, i, delay);
      Stage(s', j, i, upd, Failing(t, upd)) && Elsewhere(s, s', j, i) && (Rested(s, j) ==> Rested(s', j))
  {
    var upd := FailRow(row, s.now, delay);
    FailTables(s, j, i, row, t, delay);
    WorkerElsewhere(s, DoFail(s, j, i, delay), j, i, Failing(t, upd));
  }

  lemma CommitTables(s: Sys, row: Task, upd: Task, g: Log)
    requires s.tasks == map[row.id := row] && s.logs.Keys == {row.id} && upd.id == row.id
    ensures Commit(s, row.id, upd, g).tasks == map[row.id := upd] && Commit(s, row.id, upd, g).logs.Keys == {row.id}
  {
  }

  lemma FailTables(s: Sys, j: nat, i: nat, row: Task, t: Task, delay: int)
    requires Stage(s, j, i, row, Returned(t, false)) && t.id == row.id
    ensures var upd := FailRow(row, s.now, delay);
      var s' := DoFail(s, j, i, delay);
      && s'.tasks == map[row.id := upd] && s'.logs.Keys == {row.id} && s'.cache == s.cache && s'.now == s.now
      && s'.dlq == s.dlq
      && s'.replicas == SetWorker(s, j, i, Failing(t, upd)).replicas
  {
    var upd := FailRow(row, s.now, delay);
    var g := LogFail(s.logs[t.id], row, s.now, delay, Lags(Total(s.replicas, t.id)));
    CommitTables(s, row, upd, g);
    assert DoFail(s, j, i, delay) == SetWorker(Commit(s, t.id, upd, g), j, i, Failing(t, upd));
  }

  lemma InvalidateStep(s: Sys, j: nat, i: nat, row: Task, t: Task, upd: Task)
    requires Stage(s, j, i, row, Failing(t, upd)) && t.id == row.id
    ensures var s' := DoInvalidate(s, j, i);
      Step(s, Invalidate(j, i)) == s' && Stage(s', j, i, row, Checking(t, upd)) && Elsewhere(s, s', j, i)
      && (Rested(s, j) ==> Rested(s', j)) && row.id !in s'.cache
  {
  }

  lemma Pauses(s: Sys, nanos: nat)
    ensures Run(s, [Advance(nanos)]) == s.(now := s.now + nanos)
  {
    RunOne(s, Advance(nanos));
  }

  lemma FirstDelay()
    ensures BackoffNanos(1) == 4 * SECOND
  {
    BackoffExactness(1);
    assert Pow2(2) == 4;
  }

  lemma FirstAttempt(s0: Sys, q: TaskRequest, row: Task) returns (es: seq<Event>)
    requires Initial(s0) && q.id != "" && q.executeAt == None && row == NewRow(q, "", s0.now)
    requires HasWorker(s0, 0, 0) && HasWorker(s0, 0, 1) && s0.replicas[0].capacity > 0
    requires s0.replicas[0].ticker == Resting
    ensures forall n :: 0 <= n < |es| ==> !es[n].Edit? && !es[n].Crash? && !es[n].Recover?
    ensures var s := Run(s0, es);
      && Stage(s, 0, 0, MarkRow(row), Calling(ClaimRow(row))) && Stage(s, 0, 1, MarkRow(row), Idle) && Rested(s, 0)
      && s.dlq == map[] && s.now == s0.now
  {
    var a, b := [Create(q, "")], Attempt(0, 0, q.id);
    FirstCreate(s0, q, 0, 0);
    var s1 := Run(s0, a);
    assert WorkerAt(s1, 0, 1) == Idle;
    AttemptRuns(s1, 0, 0, row);
    RunAppend(s0, a, b);
    es := a + b;
  }

  /** The first attempt fails, its worker stalls before its `Get`, and the retry falls due. */
  lemma FirstAttemptStalls(s0: Sys, q: TaskRequest) returns (es: seq<Event>, t: Task, retry: Task)
    requires Initial(s0) && q.id != "" && q.executeAt == None && q.callbackUrl != "" && q.maxRetries == 1
    requires HasWorker(s0, 0, 0) && HasWorker(s0, 0, 1) && s0.replicas[0].capacity > 0
    requires s0.replicas[0].ticker == Resting
    ensures forall n :: 0 <= n < |es| ==> !es[n].Edit? && !es[n].Crash? && !es[n].Recover?
    ensures var s := Run(s0, es);
      && Stage(s, 0, 0, retry, Checking(t, retry)) && Stage(s, 0, 1, retry, Idle) && Rested(s, 0) && s.dlq == map[]
      && t.id == retry.id == q.id && retry.callbackUrl != "" && retry.status == Pending && retry.executeAt <= s.now
      && retry.retryCount == retry.maxRetries
  {
    var row := NewRow(q, "", s0.now);
    var a := FirstAttempt(s0, q, row);
    t, retry := ClaimRow(row), FailRow(MarkRow(row), s0.now, 4 * SECOND);
    Stall(Run(s0, a), MarkRow(row), t, retry);
    RunAppend(s0, a, Stalling());
    es := a + Stalling();
  }

  function Stalling(): seq<Event> {
    ([Return(0, 0, false), Record(0, 0)] + [Invalidate(0, 0)]) + [Advance(4 * SECOND)]
  }

  lemma Stall(s: Sys, row: Task, t: Task, retry: Task)
    requires Stage(s, 0, 0, row, Calling(t)) && Stage(s, 0, 1, row, Idle) && Rested(s, 0) && t.id == row.id
    requires t.callbackUrl != ""
    requires row.retryCount == 0 && retry == FailRow(row, s.now, 4 * SECOND)
    ensures var s' := Run(s, Stalling());
      && Stage(s', 0, 0, retry, Checking(t, retry)) && Stage(s', 0, 1, retry, Idle) && Rested(s', 0)
      && s'.dlq == s.dlq && s'.now == s.now + 4 * SECOND
  {
    var b := [Return(0, 0, false), Record(0, 0)] + [Invalidate(0, 0)];
    FirstDelay();
    FailureRecorded(s, 0, 0, row, t, 4 * SECOND);
    var s' := Run(s, b);
    assert WorkerAt(s', 0, 1) == WorkerAt(s, 0, 1);
    Pauses(s', 4 * SECOND);
    RunAppend(s, b, [Advance(4 * SECOND)]);
  }

  /** Such a run exists from the start, with one replica, two workers and one retry: the first worker
      stalls for four seconds after recording the first failure. */
  lemma DeadLetterTwice(s0: Sys, q: TaskRequest) returns (es: seq<Event>)
    requires Initial(s0) && q.id != "" && q.executeAt == None && q.callbackUrl != "" && q.maxRetries == 1
    requires HasWorker(s0, 0, 0) && HasWorker(s0, 0, 1) && s0.replicas[0].capacity > 0
    requires s0.replicas[0].ticker == Resting
    ensures forall n :: 0 <= n < |es| ==> !es[n].Edit? && !es[n].Crash? && !es[n].Recover?
    ensures |Entries(Run(s0, es).dlq, q.id)| == 2
  {
    var a, t, retry := FirstAttemptStalls(s0, q);
    var b := Attempt(0, 1, q.id);
    var s := Run(s0, a);
    AttemptRuns(s, 0, 1, retry);
    var s' := Run(s, b);
    assert WorkerAt(s', 0, 0) == WorkerAt(s, 0, 0);
    var w, z := Calling(ClaimRow(retry)), Checking(t, retry);
    var c := DeadLetters.LaggardDuplicates(s', MarkRow(retry), 0, 1, w, 0, 0, z);
    RunAppend(s0, a, b);
    RunAppend(s0, a + b, c);
    es := a + b + c;
  }
}
