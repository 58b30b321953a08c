/** One scheduler process as the program has it: a repository object, a bounded channel, the ticker's
    loop body, the worker's loop and the HTTP handlers.  Its ghost trace is a run of the state machine
    in `Scheduler`, and `Valid` says that the objects are in the state which that run reaches, so that
    everything proved about runs holds of the objects.  A method runs its goroutine's steps without
    interference; interleavings are what the state machine is for. */
module TaskSchedulers {
  import opened Options
  import opened Tasks
  import opened Scheduler
  import opened Simulation
  import opened SchedulerSteps
  import opened PostgresRepo
  import Theorems = SchedulerTheorems
  import Records = SchedulerRecords

  const DEFAULT_WORKERS: nat := 5
  const DEFAULT_CAPACITY: nat := 10

  /** What the steps of the one replica leave alone. */
  predicate SameRest(s: Sys, s': Sys) {
    s'.now == s.now && s'.caching == s.caching
  }

  predicate Alone(s: Sys, r: Replica) {
    s.replicas == [r]
  }

  lemma MarkEffect(s: Sys, r: Replica, i: nat, t: Task)
    requires Alone(s, r) && i < |r.workers| && r.workers[i] == Dequeued(t) && t.id in s.tasks && t.id in s.logs
    ensures var s' := Run(s, [Mark(0, i), Invalidate(0, i)]);
      && Alone(s', r.(workers := r.workers[i := Calling(t)])) && SameRest(s, s') && s'.dlq == s.dlq
      && s'.tasks == s.tasks[t.id := MarkRow(s.tasks[t.id])] && s'.cache == s.cache - {t.id}
  {
    RunTwo(s, Mark(0, i), Invalidate(0, i));
    var s1 := DoMark(s, 0, i);
    assert Step(s, Mark(0, i)) == s1;
    ThenDel(s1, r, i, Marked(t), Calling(t));
  }

  lemma ReturnEffect(s: Sys, r: Replica, i: nat, t: Task, ok: bool)
    requires Alone(s, r) && i < |r.workers| && r.workers[i] == Calling(t) && (t.callbackUrl == "" ==> ok)
    ensures var s' := Run(s, [Return(0, i, ok)]);
      && Alone(s', r.(workers := r.workers[i := Returned(t, ok)])) && SameRest(s, s') && s'.dlq == s.dlq
      && s'.tasks == s.tasks && s'.cache == s.cache
  {
    RunOne(s, Return(0, i, ok));
    assert Step(s, Return(0, i, ok)) == DoReturn(s, 0, i, ok);
  }

  lemma CompleteEffect(s: Sys, r: Replica, i: nat, t: Task)
    requires Alone(s, r) && i < |r.workers| && r.workers[i] == Returned(t, true) && t.id in s.tasks && t.id in s.logs
    ensures var s' := Run(s, [Record(0, i), Invalidate(0, i)]);
      && Alone(s', r.(workers := r.workers[i := Idle])) && SameRest(s, s') && s'.dlq == s.dlq
      && s'.tasks == s.tasks[t.id := CompleteRow(s.tasks[t.id])] && s'.cache == s.cache - {t.id}
  {
    RunTwo(s, Record(0, i), Invalidate(0, i));
    CompleteCells(s, r, i, t);
    ThenDel(DoComplete(s, 0, i), r, i, Completing(t), Idle);
  }

  lemma CompleteCells(s: Sys, r: Replica, i: nat, t: Task)
    requires Alone(s, r) && i < |r.workers| && r.workers[i] == Returned(t, true) && t.id in s.tasks && t.id in s.logs
    ensures var s' := DoComplete(s, 0, i);
      && Step(s, Record(0, i)) == s' && Alone(s', r.(workers := r.workers[i := Completing(t)]))
      && SameRest(s, s') && s'.dlq == s.dlq
      && s'.tasks == s.tasks[t.id := CompleteRow(s.tasks[t.id])] && s'.cache == s.cache
  {
    assert Step(s, Record(0, i)) == DoRecord(s, 0, i);
  }

  lemma FailEffect(s: Sys, r: Replica, i: nat, t: Task, delay: int)
    requires Alone(s, r) && i < |r.workers| && r.workers[i] == Returned(t, false) && t.id in s.tasks && t.id in s.logs
    requires delay == BackoffNanos(s.tasks[t.id].retryCount + 1)
    ensures var s' := Run(s, [Record(0, i), Invalidate(0, i)]);
      var upd := FailRow(s.tasks[t.id], s.now, delay);
      && Alone(s', r.(workers := r.workers[i := Checking(t, upd)])) && SameRest(s, s') && s'.dlq == s.dlq
      && s'.tasks == s.tasks[t.id := upd] && s'.cache == s.cache - {t.id}
  {
    RunTwo(s, Record(0, i), Invalidate(0, i));
    var upd := FailRow(s.tasks[t.id], s.now, delay);
    FailStep(s, r, i, t, delay);
    FailCells(s, r, i, t, delay);
    ThenDel(DoFail(s, 0, i, delay), r, i, Failing(t, upd), Checking(t, upd));
  }

  lemma FailStep(s: Sys, r: Replica, i: nat, t: Task, delay: int)
    requires Alone(s, r) && i < |r.workers| && r.workers[i] == Returned(t, false) && t.id in s.tasks
    requires delay == BackoffNanos(s.tasks[t.id].retryCount + 1)
    ensures Step(s, Record(0, i)) == DoFail(s, 0, i, delay)
  {
    RecordStep(s, 0, i);
  }

  lemma FailCells(s: Sys, r: Replica, i: nat, t: Task, delay: int)
    requires Alone(s, r) && i < |r.workers| && r.workers[i] == Returned(t, false) && t.id in s.tasks && t.id in s.logs
    ensures var s' := DoFail(s, 0, i, delay);
      var upd := FailRow(s.tasks[t.id], s.now, delay);
      && Alone(s', r.(workers := r.workers[i := Failing(t, upd)])) && SameRest(s, s') && s'.dlq == s.dlq
      && s'.tasks == s.tasks[t.id := upd] && s'.cache == s.cache
  {
  }

  /** The cache key is deleted after a commit. */
  lemma DelEffect(s: Sys, r: Replica, i: nat)
    requires Alone(s, r) && i < |r.workers|
    requires r.workers[i].Marked? || r.workers[i].Completing? || r.workers[i].Failing?
    ensures var s' := Step(s, Invalidate(0, i));
      && Alone(s', r.(workers := r.workers[i := AfterDel(r.workers[i])])) && SameRest(s, s') && s'.dlq == s.dlq
      && s'.tasks == s.tasks && s'.cache == s.cache - {r.workers[i].t.id}
  {
    assert Step(s, Invalidate(0, i)) == DoInvalidate(s, 0, i);
  }

  /** The worker has just come to `w`. */
  lemma ThenDel(s: Sys, r: Replica, i: nat, w: Work, w': Work)
    requires i < |r.workers| && Alone(s, r.(workers := r.workers[i := w]))
    requires (w.Marked? || w.Completing? || w.Failing?) && w' == AfterDel(w)
    ensures var s' := Step(s, Invalidate(0, i));
      && Alone(s', r.(workers := r.workers[i := w'])) && SameRest(s, s') && s'.dlq == s.dlq
      && s'.tasks == s.tasks && s'.cache == s.cache - {w.t.id}
  {
    DelEffect(s, r.(workers := r.workers[i := w]), i);
    assert r.workers[i := w][i := w'] == r.workers[i := w'];
  }

  lemma InspectEffect(s: Sys, r: Replica, i: nat, t: Task, upd: Task)
    requires Alone(s, r) && i < |r.workers| && r.workers[i] == Checking(t, upd)
    ensures var s' := Run(s, [Inspect(0, i)]);
      && Alone(s', r.(workers := r.workers[i := AfterGet(r.workers[i], Lookup(s, t.id))])) && SameRest(s, s')
      && s'.dlq == s.dlq && s'.tasks == s.tasks && s'.cache == Fill(s, t.id).cache
  {
    RunOne(s, Inspect(0, i));
    InspectStep(s, 0, i);
  }

  lemma ArchiveEffect(s: Sys, r: Replica, i: nat, t: Task, upd: Task, rec: Task)
    requires Alone(s, r) && i < |r.workers| && r.workers[i] == Archiving(t, upd, rec)
    ensures var s' := Run(s, [Archive(0, i)]);
      && Alone(s', r.(workers := r.workers[i := Idle])) && SameRest(s, s') && s'.tasks == s.tasks && s'.cache == s.cache
      && s'.dlq == s.dlq[t.id := Insert(Entries(s.dlq, t.id), s.now / SECOND, rec)]
  {
    RunOne(s, Archive(0, i));
    ArchiveStep(s, 0, i);
  }

  lemma DequeueEffect(s: Sys, r: Replica, i: nat)
    requires Alone(s, r) && i < |r.workers| && r.workers[i] == Idle && r.channel != []
    ensures var s' := Run(s, [Dequeue(0, i)]);
      && Alone(s', r.(channel := r.channel[1..], workers := r.workers[i := Dequeued(r.channel[0])])) && SameRest(s, s')
      && s'.dlq == s.dlq && s'.tasks == s.tasks && s'.cache == s.cache
  {
    RunOne(s, Dequeue(0, i));
    assert Step(s, Dequeue(0, i)) == DoDequeue(s, 0, i);
  }

  lemma TickEffect(s: Sys, r: Replica)
    requires Alone(s, r) && (r.ticker == Resting || r.ticker == Sending([]))
    ensures var s' := Run(s, [Tick(0)]);
      var room := r.capacity - |r.channel|;
      && Alone(s', r.(ticker := if room <= 0 then Resting else Room(room))) && SameRest(s, s')
      && s'.dlq == s.dlq && s'.tasks == s.tasks && s'.cache == s.cache
  {
    RunOne(s, Tick(0));
    assert Step(s, Tick(0)) == DoTick(s, 0);
  }

  lemma ClaimEffect(s: Sys, r: Replica, limit: nat, locked: set<string>, chosen: seq<string>)
    requires Alone(s, r) && r.ticker == Room(limit) && ClaimSelects(s.tasks, s.now, limit, locked, chosen)
    ensures var s' := Run(s, [Claim(0, locked, chosen)]);
      && Alone(s', r.(ticker := Sending(Claimed(s.tasks, chosen)))) && SameRest(s, s')
      && s'.dlq == s.dlq && s'.tasks == MarkQueued(s.tasks, chosen) && s'.cache == s.cache
  {
    RunOne(s, Claim(0, locked, chosen));
    assert Step(s, Claim(0, locked, chosen)) == DoClaim(s, 0, chosen);
  }

  lemma EnqueueEffect(s: Sys, r: Replica)
    requires Alone(s, r) && r.ticker.Sending? && r.ticker.batch != []
    ensures var s' := Run(s, [Enqueue(0)]);
      && Alone(s', r.(ticker := Sending(r.ticker.batch[1..]),
                      channel := if |r.channel| < r.capacity then r.channel + [r.ticker.batch[0]] else r.channel))
      && SameRest(s, s') && s'.dlq == s.dlq && s'.tasks == s.tasks && s'.cache == s.cache
  {
    RunOne(s, Enqueue(0));
    assert Step(s, Enqueue(0)) == DoEnqueue(s, 0);
  }

  lemma RebootEffect(s: Sys, r: Replica)
    requires Alone(s, r) && !r.ticker.Down?
    ensures var s' := Run(s, [Crash(0), Recover(0)]);
      && Alone(s', Downed(r).(ticker := Resting)) && SameRest(s, s') && s'.dlq == s.dlq
      && s'.tasks == RecoverTable(s.tasks) && s'.cache == s.cache
  {
    RunTwo(s, Crash(0), Recover(0));
    CrashStep(s, 0);
    RecoverStep(DoCrash(s, 0), 0);
  }

  lemma CreateEffect(s: Sys, r: Replica, q: TaskRequest, generated: string)
    requires Alone(s, r)
    ensures var s' := Run(s, [Create(q, generated)]);
      var row := NewRow(q, generated, s.now);
      && Alone(s', r) && SameRest(s, s') && s'.dlq == s.dlq
      && s'.tasks == (if row.id in s.tasks then s.tasks else s.tasks[row.id := row])
      && s'.cache == (if row.id in s.tasks then Fill(s, row.id).cache else s.cache)
  {
    RunOne(s, Create(q, generated));
  }

  lemma ReadEffect(s: Sys, r: Replica, id: string)
    requires Alone(s, r)
    ensures Run(s, [Read(id)]) == Fill(s, id)
  {
    RunOne(s, Read(id));
  }

  lemma EditEffect(s: Sys, r: Replica, id: string, p: Patch)
    requires Alone(s, r) && id in s.tasks && id in s.logs
    ensures var s' := Run(s, [Edit(id, p), DropKey(id)]);
      && Alone(s', r) && SameRest(s, s') && s'.dlq == s.dlq
      && s'.tasks == s.tasks[id := EditRow(s.tasks[id], p)] && s'.cache == s.cache - {id}
  {
    RunTwo(s, Edit(id, p), DropKey(id));
    EditCells(s, id, p);
    var s1 := DoEdit(s, id, p);
    assert Step(s1, DropKey(id)) == Drop(s1, id);
  }

  lemma EditCells(s: Sys, id: string, p: Patch)
    requires id in s.tasks && id in s.logs
    ensures var s' := DoEdit(s, id, p);
      && Step(s, Edit(id, p)) == s' && s'.replicas == s.replicas && SameRest(s, s') && s'.dlq == s.dlq
      && s'.tasks == s.tasks[id := EditRow(s.tasks[id], p)] && s'.cache == s.cache
  {
    assert Step(s, Edit(id, p)) == DoEdit(s, id, p);
  }

  class TaskScheduler {
    const repo: TaskRepo
    const workerCount: nat
    const queueCapacity: nat
    var taskChannel: seq<Task>
    var dlq: map<string, map<int, Task>>
    var clock: int
    ghost const start: Sys
    ghost var trace: seq<Event>
    ghost var ticker: Ticker
    ghost var workers: seq<Work>

    /** The state that the trace reaches. */
    ghost function Model(): Sys
      reads this
    {
      Run(start, trace)
    }

    ghost predicate Shows(s: Sys)
      reads this, repo
    {
      && s.tasks == repo.tasks && s.cache == repo.cache && s.caching == repo.caching && s.dlq == dlq && s.now == clock
      && Alone(s, Replica(queueCapacity, taskChannel, ticker, workers))
    }

    ghost predicate Valid()
      reads this, repo
    {
      Initial(start) && |workers| == workerCount > 0 && Shows(Model())
    }

    /** Between two method calls every goroutine of this process is at the top of its loop. */
    ghost predicate AtRest()
      reads this
    {
      (ticker == Resting || ticker == Sending([])) && forall i :: 0 <= i < |workers| ==> workers[i] == Idle
    }

    /** A worker or queue capacity that is not positive is replaced by the default. */
    constructor (workerCount: int, queueCapacity: int, caching: bool, now: int)
      ensures Valid() && AtRest() && trace == [] && fresh(repo)
      ensures this.workerCount == (if workerCount <= 0 then DEFAULT_WORKERS else workerCount)
      ensures this.queueCapacity == (if queueCapacity <= 0 then DEFAULT_CAPACITY else queueCapacity)
    {
      var r := new TaskRepo(caching);
      var w := if workerCount <= 0 then DEFAULT_WORKERS else workerCount;
      var c := if queueCapacity <= 0 then DEFAULT_CAPACITY else queueCapacity;
      this.repo, this.workerCount, this.queueCapacity := r, w, c;
      taskChannel, dlq, clock := [], map[], now;
      ticker, workers, trace := Resting, seq(w, _ => Idle), [];
      start := Sys(now, caching, map[], map[], {}, map[], [Replica(c, [], Resting, seq(w, _ => Idle))], 0, 0, map[]);
    }

    /** Bookkeeping for a completed group of steps. */
    ghost method Extend(es: seq<Event>)
      requires Initial(start) && |workers| == workerCount > 0 && Shows(Run(Model(), es))
      modifies this`trace
      ensures Valid() && trace == old(trace) + es
    {
      RunAppend(start, trace, es);
      trace := trace + es;
    }

    /** Time passes. */
    method PassTime(nanos: nat)
      requires Valid()
      modifies this`clock, this`trace
      ensures Valid() && clock == old(clock) + nanos && trace == old(trace) + [Advance(nanos)]
    {
      RunOne(Model(), Advance(nanos));
      clock := clock + nanos;
      Extend([Advance(nanos)]);
    }

    lemma TaskKnown(i: nat)
      requires Valid() && i < |workers| && !workers[i].Idle?
      ensures workers[i].t.id in Model().tasks && workers[i].t.id in Model().logs
    {
      Theorems.RunInvariant(start, trace, "");
      HeldRow(Model(), 0, i);
    }

    /** The HTTP callback: an empty URL is skipped as a success, else `answer` is what the endpoint says. */
    method ExecuteCallback(ghost i: nat, t: Task, answer: bool) returns (success: bool)
      requires Valid() && i < |workers| && workers[i] == Calling(t)
      modifies this`trace, this`workers
      ensures Valid() && trace == old(trace) + [Return(0, i, success)]
      ensures workers == old(workers)[i := Returned(t, success)] && success == (t.callbackUrl == "" || answer)
    {
      success := t.callbackUrl == "" || answer;
      ReturnEffect(Model(), Replica(queueCapacity, taskChannel, ticker, workers), i, t, success);
      workers := workers[i := Returned(t, success)];
      Extend([Return(0, i, success)]);
    }

    ghost function Me(): Replica
      reads this
    {
      Replica(queueCapacity, taskChannel, ticker, workers)
    }

    /** Marks the task PROCESSING. */
    method MarkProcessing(ghost i: nat, t: Task)
      requires Valid() && i < |workers| && workers[i] == Dequeued(t)
      modifies this`trace, this`workers, repo
      ensures Valid() && trace == old(trace) + [Mark(0, i), Invalidate(0, i)]
      ensures workers == old(workers)[i := Calling(t)] && t.id in old(repo.tasks)
      ensures repo.tasks == old(repo.tasks)[t.id := MarkRow(old(repo.tasks)[t.id])]
    {
      TaskKnown(i);
      MarkEffect(Model(), Me(), i, t);
      var r := repo.Update(t.id, (task: Task) => MarkRow(task));
      workers := workers[i := Calling(t)];
      Extend([Mark(0, i), Invalidate(0, i)]);
    }

    method MarkCompleted(ghost i: nat, t: Task)
      requires Valid() && i < |workers| && workers[i] == Returned(t, true)
      modifies this`trace, this`workers, repo
      ensures Valid() && trace == old(trace) + [Record(0, i), Invalidate(0, i)]
      ensures workers == old(workers)[i := Idle] && t.id in old(repo.tasks)
      ensures repo.tasks == old(repo.tasks)[t.id := CompleteRow(old(repo.tasks)[t.id])]
    {
      TaskKnown(i);
      CompleteEffect(Model(), Me(), i, t);
      var r := repo.Update(t.id, (task: Task) => CompleteRow(task));
      workers := workers[i := Idle];
      Extend([Record(0, i), Invalidate(0, i)]);
    }

    method RecordFailure(ghost i: nat, t: Task) returns (upd: Task)
      requires Valid() && i < |workers| && workers[i] == Returned(t, false)
      modifies this`trace, this`workers, repo
      ensures Valid() && trace == old(trace) + [Record(0, i), Invalidate(0, i)]
      ensures workers == old(workers)[i := Checking(t, upd)] && t.id in old(repo.tasks)
      ensures upd == FailRow(old(repo.tasks)[t.id], clock, BackoffNanos(old(repo.tasks)[t.id].retryCount + 1))
      ensures repo.tasks == old(repo.tasks)[t.id := upd] && t.id !in repo.cache
    {
      TaskKnown(i);
      FailEffect(Model(), Me(), i, t, BackoffNanos(repo.tasks[t.id].retryCount + 1));
      var now := clock;
      var r := repo.Update(t.id, (task: Task) => FailRow(task, now, BackoffNanos(task.retryCount + 1)));
      upd := r.value;
      workers := workers[i := Checking(t, upd)];
      Extend([Record(0, i), Invalidate(0, i)]);
    }

    /** The dead-letter insert; a second entry of the task in the same second is rejected. */
    method ArchiveTask(ghost i: nat, ghost t: Task, ghost upd: Task, rec: Task)
      requires Valid() && i < |workers| && workers[i] == Archiving(t, upd, rec) && rec.id == t.id
      modifies this`trace, this`workers, this`dlq
      ensures Valid() && trace == old(trace) + [Archive(0, i)] && workers == old(workers)[i := Idle]
      ensures dlq == old(dlq)[rec.id := Insert(Entries(old(dlq), rec.id), clock / SECOND, rec)]
    {
      ArchiveEffect(Model(), Me(), i, t, upd, rec);
      var entries := if rec.id in dlq then dlq[rec.id] else map[];
      if clock / SECOND !in entries {
        entries := entries[clock / SECOND := rec];
      }
      dlq := dlq[rec.id := entries];
      workers := workers[i := Idle];
      Extend([Archive(0, i)]);
    }

    /** The failure path: count it, look at the record, archive it if it is FAILED. */
    method HandleFailure(ghost i: nat, t: Task)
      requires Valid() && i < |workers| && workers[i] == Returned(t, false)
      modifies this`trace, this`workers, this`dlq, repo
      ensures Valid() && old(trace) <= trace && workers == old(workers)[i := Idle] && t.id in old(repo.tasks)
      ensures var upd := FailRow(old(repo.tasks)[t.id], clock, BackoffNanos(old(repo.tasks)[t.id].retryCount + 1));
        && repo.tasks == old(repo.tasks)[t.id := upd]
        && dlq == Archived(old(dlq), t.id, upd)
      ensures var row, n := old(repo.tasks)[t.id], old(repo.tasks)[t.id].retryCount + 1;
        repo.tasks[t.id] == if n > row.maxRetries then row.(status := Failed, retryCount := n)
          else row.(status := Pending, retryCount := n, executeAt := clock + BackoffNanos(n))
      ensures repo.tasks[t.id].status != Failed ==> dlq == old(dlq)
      ensures repo.tasks[t.id].status == Failed ==>
        var before, sec := Entries(old(dlq), t.id), clock / SECOND;
        && t.id in dlq && dlq[t.id].Keys == before.Keys + {sec}
        && (sec !in before ==> dlq[t.id][sec] == repo.tasks[t.id])
        && (forall k :: k in before ==> dlq[t.id][k] == before[k])
        && forall id :: id != t.id && id in old(dlq) ==> id in dlq && dlq[id] == old(dlq)[id]
    {
      var upd := RecordFailure(i, t);
      Examine(i, t, upd);
      ArchivedMeans(old(dlq), t.id, upd);
      assert workers == old(workers)[i := Idle];
    }

    lemma ArchivedMeans(before: map<string, map<int, Task>>, id: string, row: Task)
      ensures var after, sec := Archived(before, id, row), clock / SECOND;
        && (row.status != Failed ==> after == before)
        && (row.status == Failed ==>
              && id in after && after[id].Keys == Entries(before, id).Keys + {sec}
              && (sec !in Entries(before, id) ==> after[id][sec] == row)
              && (forall k :: k in Entries(before, id) ==> after[id][k] == Entries(before, id)[k])
              && forall k :: k != id && k in before ==> k in after && after[k] == before[k])
    {
    }

    /** Looks at the record, and archives it if it is FAILED. */
    method Examine(ghost i: nat, t: Task, ghost upd: Task)
      requires Valid() && i < |workers| && workers[i] == Checking(t, upd)
      requires t.id in repo.tasks && t.id !in repo.cache && repo.tasks[t.id] == upd
      modifies this`trace, this`workers, this`dlq, repo`cache
      ensures Valid() && old(trace) <= trace && workers == old(workers)[i := Idle]
      ensures dlq == Archived(old(dlq), t.id, upd)
    {
      var found := FetchUpdated(i, t, upd);
      if found.status == Failed {
        ArchiveTask(i, t, upd, found);
      }
      assert workers == old(workers)[i := Idle];
    }

    /** Reads the record back; nothing is cached under the key that was just deleted. */
    method FetchUpdated(ghost i: nat, t: Task, ghost upd: Task) returns (found: Task)
      requires Valid() && i < |workers| && workers[i] == Checking(t, upd)
      requires t.id in repo.tasks && t.id !in repo.cache && repo.tasks[t.id] == upd
      modifies this`trace, this`workers, repo`cache
      ensures Valid() && trace == old(trace) + [Inspect(0, i)] && found == upd && found.id == t.id
      ensures workers == old(workers)[i := if upd.status == Failed then Archiving(t, upd, upd) else Idle]
    {
      InspectEffect(Model(), Me(), i, t, upd);
      RowNamed(t.id);
      var got := repo.Get(t.id);
      found := got.value;
      workers := workers[i := AfterGet(workers[i], got)];
      Extend([Inspect(0, i)]);
    }

    lemma RowNamed(id: string)
      requires Valid() && id in repo.tasks
      ensures repo.tasks[id].id == id && id in Model().logs
    {
      Theorems.RunInvariant(start, trace, id);
    }

    /** Takes the head of the channel. */
    method Receive(ghost i: nat) returns (t: Task)
      requires Valid() && i < |workers| && workers[i] == Idle && taskChannel != []
      modifies this`trace, this`workers, this`taskChannel
      ensures Valid() && trace == old(trace) + [Dequeue(0, i)]
      ensures t == old(taskChannel)[0] && taskChannel == old(taskChannel)[1..]
      ensures workers == old(workers)[i := Dequeued(t)]
    {
      t := taskChannel[0];
      DequeueEffect(Model(), Me(), i);
      taskChannel := taskChannel[1..];
      workers := workers[i := Dequeued(t)];
      Extend([Dequeue(0, i)]);
    }

    /** The dead-letter table after an attempt that left this row. */
    ghost function Archived(dlq: map<string, map<int, Task>>, id: string, row: Task): map<string, map<int, Task>>
      reads this`clock
    {
      if row.status == Failed then dlq[id := Insert(Entries(dlq, id), clock / SECOND, row)] else dlq
    }

    /** The row that an outcome leaves behind. */
    ghost function Settled(row: Task, success: bool): Task
      reads this`clock
    {
      if success then CompleteRow(row) else FailRow(row, clock, BackoffNanos(row.retryCount + 1))
    }

    method Conclude(ghost i: nat, t: Task, success: bool)
      requires Valid() && i < |workers| && workers[i] == Returned(t, success)
      modifies this`trace, this`workers, this`dlq, repo
      ensures Valid() && workers == old(workers)[i := Idle] && old(trace) <= trace && t.id in old(repo.tasks)
      ensures var row := Settled(old(repo.tasks)[t.id], success);
        repo.tasks == old(repo.tasks)[t.id := row] && dlq == Archived(old(dlq), t.id, row)
    {
      if success {
        MarkCompleted(i, t);
      } else {
        HandleFailure(i, t);
      }
    }

    /** Its first half: mark and call. */
    method Begin(ghost i: nat, t: Task, answer: bool) returns (success: bool)
      requires Valid() && i < |workers| && workers[i] == Dequeued(t)
      modifies this`trace, this`workers, repo
      ensures Valid() && workers == old(workers)[i := Returned(t, success)] && old(trace) <= trace
      ensures t.id in old(repo.tasks)
      ensures success == (t.callbackUrl == "" || answer)
      ensures repo.tasks == old(repo.tasks)[t.id := MarkRow(old(repo.tasks)[t.id])]
    {
      MarkProcessing(i, t);
      success := ExecuteCallback(i, t, answer);
      assert workers == old(workers)[i := Returned(t, success)];
    }

    /** The worker loop's body for one task. */
    method Execute(ghost i: nat, t: Task, answer: bool)
      requires Valid() && i < |workers| && workers[i] == Dequeued(t)
      modifies this`trace, this`workers, this`dlq, repo
      ensures Valid() && workers == old(workers)[i := Idle] && old(trace) <= trace && t.id in old(repo.tasks)
      ensures var row := Settled(MarkRow(old(repo.tasks)[t.id]), t.callbackUrl == "" || answer);
        repo.tasks == old(repo.tasks)[t.id := row] && dlq == Archived(old(dlq), t.id, row)
    {
      var success := Begin(i, t, answer);
      Conclude(i, t, success);
      assert workers == old(workers)[i := Idle];
    }

    /** One turn of the worker's loop: the head of the channel is executed and its outcome recorded. */
    method Process(ghost i: nat, answer: bool)
      requires Valid() && AtRest() && i < |workers| && taskChannel != []
      modifies this`trace, this`workers, this`dlq, this`taskChannel, repo
      ensures Valid() && AtRest() && old(trace) <= trace
      ensures taskChannel == old(taskChannel)[1..] && old(taskChannel)[0].id in old(repo.tasks)
      ensures var t := old(taskChannel)[0];
        var row := Settled(MarkRow(old(repo.tasks)[t.id]), t.callbackUrl == "" || answer);
        repo.tasks == old(repo.tasks)[t.id := row] && dlq == Archived(old(dlq), t.id, row)
      ensures var t := old(taskChannel)[0];
        var row, n := old(repo.tasks)[t.id], old(repo.tasks)[t.id].retryCount + 1;
        repo.tasks[t.id] ==
          if t.callbackUrl == "" || answer then row.(status := Completed)
          else if n > row.maxRetries then row.(status := Failed, retryCount := n)
          else row.(status := Pending, retryCount := n, executeAt := clock + BackoffNanos(n))
    {
      var t := Receive(i);
      Execute(i, t, answer);
    }

    lemma DrainedNow(id: string)
      requires Valid() && AtRest() && taskChannel == [] && id in repo.tasks
      ensures !InFlight(repo.tasks[id].status)
    {
      Theorems.ReplicaCount(start, trace);
      Theorems.UpIsSteady(start, trace);
      Theorems.Drained(Model(), id);
    }

    /** Closing the channel and waiting for the workers: everything queued is executed, and no row at all
        is left QUEUED or PROCESSING. */
    method Stop()
      requires Valid() && AtRest()
      modifies this`trace, this`workers, this`dlq, this`taskChannel, repo
      ensures Valid() && AtRest() && taskChannel == [] && old(trace) <= trace
      ensures forall id :: id in repo.tasks ==> !InFlight(repo.tasks[id].status)
    {
      while taskChannel != []
        invariant Valid() && AtRest() && old(trace) <= trace
        decreases |taskChannel|
      {
        var answer: bool := *;
        Process(0, answer);
      }
      forall id | id in repo.tasks ensures !InFlight(repo.tasks[id].status) {
        DrainedNow(id);
      }
    }

    lemma RoomForBatch()
      requires Valid()
      ensures |taskChannel| + |Batch(ticker)| <= queueCapacity
    {
      Theorems.RunInvariant(start, trace, "");
      assert ReplicaOk(Model().tasks, Model().replicas[0]);
    }

    /** The select statement: send if the channel has a free slot, otherwise bypass the task. */
    method Offer(t: Task)
      requires Valid() && ticker.Sending? && ticker.batch != [] && ticker.batch[0] == t
      modifies this`trace, this`ticker, this`taskChannel
      ensures Valid() && trace == old(trace) + [Enqueue(0)] && ticker == Sending(old(ticker).batch[1..])
      ensures taskChannel == old(taskChannel) + [t]
    {
      RoomForBatch();
      EnqueueEffect(Model(), Me());
      ticker := Sending(ticker.batch[1..]);
      if |taskChannel| < queueCapacity {
        taskChannel := taskChannel + [t];
      }
      Extend([Enqueue(0)]);
    }

    /** Offers every claimed task to the channel; none is bypassed. */
    method EnqueueAll(claimed: seq<Task>)
      requires Valid() && ticker == Sending(claimed)
      modifies this`trace, this`ticker, this`taskChannel
      ensures Valid() && old(trace) <= trace && ticker == Sending([]) && taskChannel == old(taskChannel) + claimed
    {
      for k := 0 to |claimed|
        invariant Valid() && old(trace) <= trace && ticker == Sending(claimed[k..])
        invariant taskChannel == old(taskChannel) + claimed[..k]
      {
        Offer(claimed[k]);
      }
    }

    method ClaimReady(locked: set<string>, limit: nat) returns (claimed: seq<Task>, chosen: seq<string>)
      requires Valid() && ticker == Room(limit)
      modifies this`trace, this`ticker, repo`tasks
      ensures Valid() && old(trace) <= trace && ticker == Sending(claimed)
      ensures ClaimSelects(old(repo.tasks), clock, limit, locked, chosen)
      ensures claimed == Claimed(old(repo.tasks), chosen) && repo.tasks == MarkQueued(old(repo.tasks), chosen)
    {
      ghost var before, me := Model(), Me();
      claimed, chosen := repo.ClaimReadyTasks(clock, limit, locked);
      ClaimEffect(before, me, limit, locked, chosen);
      ticker := Sending(claimed);
      Extend([Claim(0, locked, chosen)]);
    }

    /** The backpressure check at the start of a tick. */
    method ReadRoom() returns (remainingCap: int)
      requires Valid() && (ticker == Resting || ticker == Sending([]))
      modifies this`trace, this`ticker
      ensures Valid() && trace == old(trace) + [Tick(0)]
      ensures remainingCap == queueCapacity - |taskChannel|
      ensures ticker == if remainingCap <= 0 then Resting else Room(remainingCap)
    {
      remainingCap := queueCapacity - |taskChannel|;
      TickEffect(Model(), Me());
      ticker := if remainingCap <= 0 then Resting else Room(remainingCap);
      Extend([Tick(0)]);
    }

    /** One tick: claim as many ready tasks as the channel has room for and enqueue them all. */
    method TickOnce(locked: set<string>) returns (chosen: seq<string>)
      requires Valid() && AtRest()
      modifies this`trace, this`ticker, this`taskChannel, repo`tasks
      ensures Valid() && AtRest() && old(trace) <= trace
      ensures |old(taskChannel)| >= queueCapacity ==>
        chosen == [] && taskChannel == old(taskChannel) && repo.tasks == old(repo.tasks)
      ensures |old(taskChannel)| < queueCapacity ==>
        && ClaimSelects(old(repo.tasks), clock, queueCapacity - |old(taskChannel)|, locked, chosen)
        && taskChannel == old(taskChannel) + Claimed(old(repo.tasks), chosen)
        && repo.tasks == MarkQueued(old(repo.tasks), chosen)
      ensures |taskChannel| == |old(taskChannel)| + |chosen| && |chosen| <= queueCapacity
      ensures forall k :: 0 <= k < |chosen| ==>
        && chosen[k] in old(repo.tasks) && Due(old(repo.tasks)[chosen[k]], clock) && chosen[k] !in locked
        && taskChannel[|old(taskChannel)| + k] == old(repo.tasks)[chosen[k]].(status := Queued)
      ensures forall id :: id in old(repo.tasks) && id !in chosen && id !in locked
                           && Due(old(repo.tasks)[id], clock) ==>
        && |taskChannel| >= queueCapacity
        && forall c :: c in chosen ==> old(repo.tasks)[c].executeAt <= old(repo.tasks)[id].executeAt
    {
      var remainingCap := ReadRoom();
      if remainingCap <= 0 {
        return [];
      }
      var claimed: seq<Task>;
      claimed, chosen := ClaimReady(locked, remainingCap);
      EnqueueAll(claimed);
      ClaimMeans(old(repo.tasks), clock, remainingCap, locked, chosen);
    }

    /** The process dies and `Start` runs: channel and workers are gone, recovery repairs the table. */
    method Reboot()
      requires Valid() && !ticker.Down?
      modifies this`trace, this`workers, this`ticker, this`taskChannel, repo`tasks
      ensures Valid() && AtRest() && taskChannel == [] && trace == old(trace) + [Crash(0), Recover(0)]
      ensures repo.tasks == RecoverTable(old(repo.tasks)) && repo.tasks.Keys == old(repo.tasks).Keys
      ensures forall id :: id in repo.tasks ==>
        var t := old(repo.tasks)[id];
        repo.tasks[id] == if t.status == Queued || t.status == Processing then t.(status := Pending) else t
    {
      RebootEffect(Model(), Me());
      taskChannel, ticker, workers := [], Resting, seq(|workers|, _ => Idle);
      repo.RecoverTasks();
      Extend([Crash(0), Recover(0)]);
    }

    // ---- the HTTP handlers ----

    /** POST /tasks: a new PENDING row, or for a known id the task that is already there. */
    method CreateTask(q: TaskRequest, generated: string) returns (created: bool, answer: Task)
      requires Valid()
      modifies this`trace, repo
      ensures Valid() && trace == old(trace) + [Create(q, generated)]
      ensures var row := NewRow(q, generated, clock);
        && created == (row.id !in old(repo.tasks))
        && (created ==> answer == row && repo.tasks == old(repo.tasks)[row.id := row])
        && (!created ==> repo.tasks == old(repo.tasks) && answer == Lookup(old(Model()), row.id).value)
      ensures answer.id == if q.id == "" then generated else q.id
      ensures answer.id in repo.tasks && SameJob(answer, repo.tasks[answer.id])
      ensures created ==>
        && answer.title == q.title && answer.description == q.description && answer.callbackUrl == q.callbackUrl
        && answer.payload == q.payload && answer.status == Pending && answer.retryCount == 0
        && answer.maxRetries == (if q.maxRetries <= 0 then 3 else q.maxRetries) && answer.createdAt == clock
        && answer.executeAt == if q.executeAt.Some? then q.executeAt.value else clock
    {
      var row := NewRow(q, generated, clock);
      CreateEffect(Model(), Me(), q, generated);
      if row.id in repo.tasks {
        StoredIsTheTask(row.id);
      }
      created := repo.Create(row);
      answer := row;
      if !created {
        var existing := repo.Get(row.id);
        answer := existing.value;
      }
      Extend([Create(q, generated)]);
    }

    lemma StoredIsTheTask(id: string)
      requires Valid() && id in repo.tasks
      ensures Lookup(Model(), id).Some? && Lookup(Model(), id).value.id == id
      ensures SameJob(Lookup(Model(), id).value, repo.tasks[id])
    {
      RowNamed(id);
      Records.ArchivedIsTheTask(Model(), id);
    }

    /** GET /tasks/:id. */
    method GetTask(id: string) returns (r: Option<Task>)
      requires Valid()
      modifies this`trace, repo`cache
      ensures Valid() && trace == old(trace) + [Read(id)] && r == Lookup(old(Model()), id)
    {
      ReadEffect(Model(), Me(), id);
      r := repo.Get(id);
      Extend([Read(id)]);
    }

    /** PUT /tasks/:id. */
    method UpdateTask(id: string, p: Patch) returns (r: Option<Task>)
      requires Valid()
      modifies this`trace, repo
      ensures Valid() && (r.Some? <==> id in old(repo.tasks))
      ensures r.Some? ==> r.value == EditRow(old(repo.tasks)[id], p) && repo.tasks == old(repo.tasks)[id := r.value]
                          && trace == old(trace) + [Edit(id, p), DropKey(id)]
      ensures r.Some? ==>
        var t := old(repo.tasks)[id];
        && r.value.title == (if p.title.Some? then p.title.value else t.title)
        && r.value.description == (if p.description.Some? then p.description.value else t.description)
        && (if p.executeAt.Some?
            then r.value.executeAt == p.executeAt.value && r.value.status == Pending && r.value.retryCount == 0
            else r.value.executeAt == t.executeAt && r.value.status == t.status && r.value.retryCount == t.retryCount)
      ensures r.None? ==> repo.tasks == old(repo.tasks) && trace == old(trace)
    {
      if id in repo.tasks {
        RowNamed(id);
        EditEffect(Model(), Me(), id, p);
      }
      r := repo.Update(id, (task: Task) => EditRow(task, p));
      if r.Some? {
        Extend([Edit(id, p), DropKey(id)]);
      }
    }
  }
}
