/** Every task of the concurrent scheduler runs its own `RetryAutomaton`: one machine step is, for
    each task, one move of that automaton, whatever the other tasks, workers and replicas do. */
module Simulation {
  import opened Options
  import opened Tasks
  import opened Scheduler
  import opened TallyLaws
  import RA = RetryAutomaton

  function Row(s: Sys, id: string): Option<Task> {
    if id in s.tasks then Some(s.tasks[id]) else None
  }

  function ViewOf(s: Sys, id: string): RA.View {
    RA.View(s.now, s.caching, Row(s, id), if id in s.cache then Some(s.cache[id]) else None, id in s.dirty,
            Entries(s.dlq, id), Total(s.replicas, id), s.crashes, s.recoveries, History(s, id))
  }

  // ---- what holds of the machine as a whole ----

  /** A record outside the table belongs to a row, and is that row in every immutable field. */
  predicate Current(tasks: map<string, Task>, t: Task) {
    t.id in tasks && SameJob(t, tasks[t.id])
  }

  predicate WorkCurrent(tasks: map<string, Task>, w: Work) {
    w.Idle? || (Current(tasks, w.t) && (w.Archiving? ==> w.rec.id == w.t.id))
  }

  /** Slots of the channel that the ticker has already spoken for. */
  function Promised(k: Ticker): nat {
    match k
    case Down => 0
    case Resting => 0
    case Room(limit) => limit
    case Sending(batch) => |batch|
  }

  predicate Backpressure(r: Replica) {
    |r.channel| + Promised(r.ticker) <= r.capacity
  }

  /** A process that is not running holds nothing. */
  predicate Vacant(r: Replica) {
    r.ticker.Down? ==> r.channel == [] && forall i :: 0 <= i < |r.workers| ==> r.workers[i] == Idle
  }

  predicate ReplicaOk(tasks: map<string, Task>, r: Replica) {
    && Backpressure(r) && Vacant(r)
    && (forall k :: 0 <= k < |Batch(r.ticker)| ==> Current(tasks, Batch(r.ticker)[k]))
    && (forall k :: 0 <= k < |r.channel| ==> Current(tasks, r.channel[k]))
    && (forall i :: 0 <= i < |r.workers| ==> WorkCurrent(tasks, r.workers[i]))
  }

  predicate ReplicasOk(tasks: map<string, Task>, rs: seq<Replica>) {
    forall j :: 0 <= j < |rs| ==> ReplicaOk(tasks, rs[j])
  }

  predicate Named(m: map<string, Task>) {
    forall id :: id in m ==> m[id].id == id
  }

  predicate TablesOk(s: Sys) {
    s.logs.Keys == s.tasks.Keys && Named(s.tasks) && Named(s.cache)
  }

  predicate Consistent(s: Sys) {
    TablesOk(s) && ReplicasOk(s.tasks, s.replicas)
  }

  /** Tables may grow and rows may change, but not in the immutable fields. */
  predicate Extends(tasks: map<string, Task>, tasks': map<string, Task>) {
    forall id :: id in tasks ==> id in tasks' && SameJob(tasks[id], tasks'[id])
  }

  lemma ReplicaOkMonotone(tasks: map<string, Task>, tasks': map<string, Task>, r: Replica)
    requires ReplicaOk(tasks, r) && Extends(tasks, tasks')
    ensures ReplicaOk(tasks', r)
  {
  }

  lemma ReplaceReplica(tasks: map<string, Task>, tasks': map<string, Task>, rs: seq<Replica>, j: nat, r: Replica)
    requires ReplicasOk(tasks, rs) && Extends(tasks, tasks') && j < |rs| && ReplicaOk(tasks', r)
    ensures ReplicasOk(tasks', rs[j := r])
  {
    var rs' := rs[j := r];
    forall k | 0 <= k < |rs'| ensures ReplicaOk(tasks', rs'[k]) {
      if k != j {
        ReplicaOkMonotone(tasks, tasks', rs[k]);
      }
    }
  }

  lemma ReplaceWorker(tasks: map<string, Task>, tasks': map<string, Task>, rs: seq<Replica>, j: nat, i: nat, w: Work)
    requires ReplicasOk(tasks, rs) && Extends(tasks, tasks') && j < |rs| && i < |rs[j].workers|
    requires WorkCurrent(tasks, rs[j].workers[i]) ==> WorkCurrent(tasks', w)
    requires rs[j].workers[i] != Idle || w == Idle
    ensures ReplicasOk(tasks', rs[j := rs[j].(workers := rs[j].workers[i := w])])
  {
    ReplicaOkMonotone(tasks, tasks', rs[j]);
    ReplaceReplica(tasks, tasks', rs, j, rs[j].(workers := rs[j].workers[i := w]));
  }

  lemma TableStep(tasks: map<string, Task>, tasks': map<string, Task>, rs: seq<Replica>)
    requires ReplicasOk(tasks, rs) && Extends(tasks, tasks')
    ensures ReplicasOk(tasks', rs)
  {
    forall k | 0 <= k < |rs| ensures ReplicaOk(tasks', rs[k]) {
      ReplicaOkMonotone(tasks, tasks', rs[k]);
    }
  }

  lemma {:induction false} ClaimedCurrent(tasks: map<string, Task>, chosen: seq<string>)
    requires Named(tasks) && forall c :: c in chosen ==> c in tasks
    ensures var q := Claimed(tasks, chosen);
      |q| == |chosen| && forall k :: 0 <= k < |q| ==> Current(MarkQueued(tasks, chosen), q[k]) && Current(tasks, q[k])
  {
    if chosen != [] {
      ClaimedCurrent(tasks, chosen[1..]);
      var q := Claimed(tasks, chosen);
      forall k | 0 <= k < |q| ensures Current(tasks, q[k]) {
        if k > 0 {
          assert q[k] == Claimed(tasks, chosen[1..])[k - 1];
        }
      }
    }
  }

  lemma TickConsistent(s: Sys, j: nat)
    requires Consistent(s) && j < |s.replicas|
    ensures Consistent(DoTick(s, j))
  {
    var r := s.replicas[j];
    var room := r.capacity - |r.channel|;
    assert ReplicaOk(s.tasks, r.(ticker := Resting));
    ReplaceReplica(s.tasks, s.tasks, s.replicas, j, r.(ticker := if room <= 0 then Resting else Room(room)));
  }

  lemma ClaimConsistent(s: Sys, j: nat, locked: set<string>, chosen: seq<string>)
    requires Consistent(s) && Enabled(s, Claim(j, locked, chosen))
    ensures Consistent(DoClaim(s, j, chosen))
  {
    var tasks' := MarkQueued(s.tasks, chosen);
    ClaimedCurrent(s.tasks, chosen);
    ReplicaOkMonotone(s.tasks, tasks', s.replicas[j]);
    ReplaceReplica(s.tasks, tasks', s.replicas, j, s.replicas[j].(ticker := Sending(Claimed(s.tasks, chosen))));
  }

  lemma EnqueueConsistent(s: Sys, j: nat)
    requires Consistent(s) && Enabled(s, Enqueue(j))
    ensures Consistent(DoEnqueue(s, j))
  {
    var r := s.replicas[j];
    var r' := DoEnqueue(s, j).replicas[j];
    assert ReplicaOk(s.tasks, r);
    forall k | 0 <= k < |Batch(r'.ticker)| ensures Current(s.tasks, Batch(r'.ticker)[k]) {
      assert Batch(r'.ticker)[k] == Batch(r.ticker)[k + 1];
    }
    forall k | 0 <= k < |r'.channel| ensures Current(s.tasks, r'.channel[k]) {
      assert r'.channel[k] == if k < |r.channel| then r.channel[k] else Batch(r.ticker)[0];
    }
    ReplaceReplica(s.tasks, s.tasks, s.replicas, j, r');
  }

  lemma DequeueConsistent(s: Sys, j: nat, i: nat)
    requires Consistent(s) && Enabled(s, Dequeue(j, i))
    ensures Consistent(DoDequeue(s, j, i))
  {
    assert ReplicaOk(s.tasks, s.replicas[j]);
    ReplaceReplica(s.tasks, s.tasks, s.replicas, j, DoDequeue(s, j, i).replicas[j]);
  }

  /** A worker commits a row that keeps its immutable fields, and goes on with the same record. */
  lemma CommitConsistent(s: Sys, j: nat, i: nat, row: Task, g: Log, w: Work)
    requires Consistent(s) && HasWorker(s, j, i) && !WorkerAt(s, j, i).Idle?
    requires var t := WorkerAt(s, j, i).t; t.id in s.tasks && SameJob(s.tasks[t.id], row)
    requires !w.Idle? && !w.Archiving? && w.t == WorkerAt(s, j, i).t
    ensures Consistent(SetWorker(Commit(s, w.t.id, row, g), j, i, w))
  {
    ReplaceWorker(s.tasks, s.tasks[w.t.id := row], s.replicas, j, i, w);
  }

  lemma MarkConsistent(s: Sys, j: nat, i: nat)
    requires Consistent(s) && HasWorker(s, j, i) && WorkerAt(s, j, i).Dequeued?
    ensures Consistent(DoMark(s, j, i))
  {
    HeldRow(s, j, i);
    var t := WorkerAt(s, j, i).t;
    CommitConsistent(s, j, i, MarkRow(s.tasks[t.id]), LogMark(s.logs[t.id], s.tasks[t.id]), Marked(t));
  }

  lemma InvalidateConsistent(s: Sys, j: nat, i: nat)
    requires Consistent(s) && Enabled(s, Invalidate(j, i))
    ensures Consistent(DoInvalidate(s, j, i))
  {
    ReplaceWorker(s.tasks, s.tasks, s.replicas, j, i, AfterDel(WorkerAt(s, j, i)));
  }

  lemma ReturnConsistent(s: Sys, j: nat, i: nat, success: bool)
    requires Consistent(s) && Enabled(s, Return(j, i, success))
    ensures Consistent(DoReturn(s, j, i, success))
  {
    ReplaceWorker(s.tasks, s.tasks, s.replicas, j, i, Returned(WorkerAt(s, j, i).t, success));
  }

  lemma CompleteConsistent(s: Sys, j: nat, i: nat)
    requires Consistent(s) && HasWorker(s, j, i) && WorkerAt(s, j, i).Returned?
    ensures Consistent(DoComplete(s, j, i))
  {
    HeldRow(s, j, i);
    var t := WorkerAt(s, j, i).t;
    var row := s.tasks[t.id];
    CommitConsistent(s, j, i, CompleteRow(row), CountChange(s.logs[t.id], row, CompleteRow(row)), Completing(t));
  }

  lemma FailConsistent(s: Sys, j: nat, i: nat, delay: int)
    requires Consistent(s) && HasWorker(s, j, i) && WorkerAt(s, j, i).Returned?
    ensures Consistent(DoFail(s, j, i, delay))
  {
    HeldRow(s, j, i);
    var t := WorkerAt(s, j, i).t;
    var upd := FailRow(s.tasks[t.id], s.now, delay);
    var g := LogFail(s.logs[t.id], s.tasks[t.id], s.now, delay, Lags(Total(s.replicas, t.id)));
    CommitConsistent(s, j, i, upd, g, Failing(t, upd));
  }

  lemma InspectConsistent(s: Sys, j: nat, i: nat)
    requires Consistent(s) && Enabled(s, Inspect(j, i))
    ensures Consistent(DoInspect(s, j, i))
  {
    ReplaceWorker(s.tasks, s.tasks, s.replicas, j, i, WorkerAt(DoInspect(s, j, i), j, i));
  }

  lemma ArchiveConsistent(s: Sys, j: nat, i: nat)
    requires Consistent(s) && Enabled(s, Archive(j, i))
    ensures Consistent(DoArchive(s, j, i))
  {
    ReplaceWorker(s.tasks, s.tasks, s.replicas, j, i, Idle);
  }

  lemma CrashConsistent(s: Sys, j: nat)
    requires Consistent(s) && j < |s.replicas|
    ensures Consistent(DoCrash(s, j))
  {
    ReplaceReplica(s.tasks, s.tasks, s.replicas, j, Downed(s.replicas[j]));
  }

  lemma RecoverConsistent(s: Sys, j: nat)
    requires Consistent(s) && Enabled(s, Recover(j))
    ensures Consistent(DoRecover(s, j))
  {
    var r := s.replicas[j];
    ReplicaOkMonotone(s.tasks, RecoverTable(s.tasks), r);
    ReplaceReplica(s.tasks, RecoverTable(s.tasks), s.replicas, j, r.(ticker := Resting));
  }

  lemma WorkerStepConsistent(s: Sys, e: Event)
    requires Consistent(s) && Enabled(s, e) && ByWorker(e)
    ensures Consistent(Step(s, e))
  {
    match e
    case Mark(j, i) => MarkConsistent(s, j, i);
    case Invalidate(j, i) => InvalidateConsistent(s, j, i);
    case Return(j, i, success) => ReturnConsistent(s, j, i, success);
    case Record(j, i) =>
      CompleteConsistent(s, j, i);
      FailConsistent(s, j, i, NextDelay(s, WorkerAt(s, j, i).t.id));
    case Inspect(j, i) => InspectConsistent(s, j, i);
    case Archive(j, i) => ArchiveConsistent(s, j, i);
  }

  lemma CreateConsistent(s: Sys, request: TaskRequest, generated: string)
    requires Consistent(s)
    ensures Consistent(DoCreate(s, request, generated))
  {
    var row := NewRow(request, generated, s.now);
    if row.id !in s.tasks {
      TableStep(s.tasks, s.tasks[row.id := row], s.replicas);
    }
  }

  lemma RowChanged(tasks: map<string, Task>, rs: seq<Replica>, id: string, row: Task)
    requires Named(tasks) && ReplicasOk(tasks, rs) && id in tasks && SameJob(tasks[id], row)
    ensures Named(tasks[id := row]) && ReplicasOk(tasks[id := row], rs)
  {
    TableStep(tasks, tasks[id := row], rs);
  }

  lemma EditSameJob(t: Task, p: Patch)
    ensures SameJob(t, EditRow(t, p))
  {
  }

  lemma UpdateConsistent(s: Sys, id: string, row: Task, g: Log)
    requires Consistent(s) && id in s.tasks && SameJob(s.tasks[id], row)
    ensures Consistent(Commit(s, id, row, g))
  {
    RowChanged(s.tasks, s.replicas, id, row);
  }

  lemma EditConsistent(s: Sys, id: string, patch: Patch)
    requires Consistent(s)
    ensures Consistent(DoEdit(s, id, patch))
  {
    if id in s.tasks {
      var row := s.tasks[id];
      EditSameJob(row, patch);
      UpdateConsistent(s, id, EditRow(row, patch), LogEdit(s.logs[id], row, patch, Total(s.replicas, id)));
    }
  }

  lemma StepConsistent(s: Sys, e: Event)
    requires Consistent(s)
    ensures Consistent(Step(s, e))
  {
    if !Enabled(s, e) {
    } else if ByWorker(e) {
      WorkerStepConsistent(s, e);
    } else {
      match e
      case Advance(nanos) =>
      case Create(request, generated) => CreateConsistent(s, request, generated);
      case Read(id) =>
      case DropKey(id) =>
      case Edit(id, patch) => EditConsistent(s, id, patch);
      case Tick(j) => TickConsistent(s, j);
      case Claim(j, locked, chosen) => ClaimConsistent(s, j, locked, chosen);
      case Enqueue(j) => EnqueueConsistent(s, j);
      case Dequeue(j, i) => DequeueConsistent(s, j, i);
      case Crash(j) => CrashConsistent(s, j);
      case Recover(j) => RecoverConsistent(s, j);
    }
  }

  // ---- one machine step is one move of every task's automaton ----

  ghost function LabelOf(s: Sys, e: Event, id: string): RA.Label {
    if !Enabled(s, e) then RA.Skip else
    match e
    case Advance(nanos) => RA.Later(nanos)
    case Create(request, generated) =>
      var row := NewRow(request, generated, s.now);
      if row.id == id then RA.Insertion(row) else RA.Skip
    case Read(k) => if k == id then RA.Fetch else RA.Skip
    case DropKey(k) => if k == id then RA.Forget else RA.Skip
    case Edit(k, patch) => if k == id then RA.Change(patch) else RA.Skip
    case Tick(_) => RA.Skip
    case Claim(_, _, chosen) => if id in chosen then RA.Take else RA.Skip
    case Enqueue(j) => if Batch(s.replicas[j].ticker)[0].id == id then RA.Pass(InBatch) else RA.Skip
    case Dequeue(j, _) => if s.replicas[j].channel[0].id == id then RA.Pass(InChannel) else RA.Skip
    case Crash(j) => RA.Die(Tally(s.replicas[j], id))
    case Recover(_) => RA.Revert
    case _ => if WorkerAt(s, e.j, e.i).t.id == id then WorkLabel(s, e) else RA.Skip
  }

  ghost function WorkLabel(s: Sys, e: Event): RA.Label
    requires ByWorker(e) && Enabled(s, e)
  {
    var w := WorkerAt(s, e.j, e.i);
    match e
    case Mark(_, _) => RA.Begin
    case Invalidate(_, _) => RA.Flush(KindOf(w))
    case Return(_, _, success) => RA.Outcome(success)
    case Record(_, _) => if w.ok then RA.Success else RA.Failure(NextDelay(s, w.t.id))
    case Inspect(_, _) => RA.Look(w.upd.status == Failed)
    case Archive(_, _) => RA.Bury(w.rec, w.upd.status == Failed, s.now / SECOND)
  }

  lemma ViewSetWorker(s: Sys, j: nat, i: nat, w: Work, id: string, o: multiset<Kind>, n: multiset<Kind>)
    requires HasWorker(s, j, i) && One(WorkerAt(s, j, i), id) == o && One(w, id) == n
    ensures o <= Total(s.replicas, id)
    ensures ViewOf(SetWorker(s, j, i, w), id) == ViewOf(s, id).(copies := Total(s.replicas, id) - o + n)
  {
    SetWorkerTotal(s, j, i, w, id);
  }

  /** A change of a worker that leaves what it counts for is invisible to the task. */
  lemma ViewSameKind(s: Sys, j: nat, i: nat, w: Work, id: string)
    requires HasWorker(s, j, i) && One(WorkerAt(s, j, i), id) == One(w, id)
    ensures ViewOf(SetWorker(s, j, i, w), id) == ViewOf(s, id)
  {
    SetWorkerTotal(s, j, i, w, id);
    PutBack(Total(s.replicas, id), One(w, id));
  }

  lemma PutBack<T>(c: multiset<T>, o: multiset<T>)
    requires o <= c
    ensures c - o + o == c
  {
  }

  lemma ViewSetReplica(s: Sys, j: nat, r: Replica, id: string)
    requires j < |s.replicas| && Tally(r, id) == Tally(s.replicas[j], id)
    ensures ViewOf(SetReplica(s, j, r), id) == ViewOf(s, id)
  {
    ExchangeInReplica(s.replicas, j, r, id, multiset{}, multiset{});
  }

  lemma ViewExchange(s: Sys, j: nat, r: Replica, id: string, o: multiset<Kind>, n: multiset<Kind>)
    requires j < |s.replicas| && o <= Tally(s.replicas[j], id) && Tally(r, id) == Tally(s.replicas[j], id) - o + n
    ensures o <= Total(s.replicas, id)
    ensures ViewOf(SetReplica(s, j, r), id) == ViewOf(s, id).(copies := Total(s.replicas, id) - o + n)
  {
    ExchangeInReplica(s.replicas, j, r, id, o, n);
  }

  lemma ViewCommit(s: Sys, k: string, row: Task, g: Log, id: string)
    ensures ViewOf(Commit(s, k, row, g), id) == if k == id then RA.Write(ViewOf(s, id), row, g) else ViewOf(s, id)
  {
  }

  lemma ViewDrop(s: Sys, k: string, id: string)
    ensures ViewOf(Drop(s, k), id) == if k == id then RA.Uncache(ViewOf(s, id)) else ViewOf(s, id)
  {
  }

  lemma ViewFill(s: Sys, k: string, id: string)
    ensures ViewOf(Fill(s, k), id) == if k == id then RA.Cache(ViewOf(s, id)) else ViewOf(s, id)
  {
  }

  lemma ViewAfterCreate(s: Sys, request: TaskRequest, generated: string, id: string)
    ensures var row := NewRow(request, generated, s.now);
      ViewOf(DoCreate(s, request, generated), id) ==
        if row.id == id then RA.Insert(ViewOf(s, id), row) else ViewOf(s, id)
  {
    ViewFill(s, NewRow(request, generated, s.now).id, id);
  }

  lemma ViewAfterEdit(s: Sys, k: string, patch: Patch, id: string)
    requires TablesOk(s)
    ensures ViewOf(DoEdit(s, k, patch), id) == if k == id then RA.Edited(ViewOf(s, id), patch) else ViewOf(s, id)
  {
    if k in s.tasks {
      ViewCommit(s, k, EditRow(s.tasks[k], patch), LogEdit(s.logs[k], s.tasks[k], patch, Total(s.replicas, k)), id);
    }
  }

  lemma ViewAfterClaim(s: Sys, j: nat, chosen: seq<string>, id: string)
    requires j < |s.replicas| && Batch(s.replicas[j].ticker) == [] && (id in s.tasks <==> id in s.logs)
    requires forall c :: c in chosen ==> c in s.tasks && s.tasks[c].id == c
    requires forall m, n :: 0 <= m < n < |chosen| ==> chosen[m] != chosen[n]
    ensures ViewOf(DoClaim(s, j, chosen), id) == if id in chosen then RA.Taken(ViewOf(s, id)) else ViewOf(s, id)
  {
    ClaimTotal(s.tasks, s.replicas, j, chosen, id);
    ClaimCells(s, j, chosen, id);
  }

  lemma ClaimCells(s: Sys, j: nat, chosen: seq<string>, id: string)
    requires j < |s.replicas| && (forall c :: c in chosen ==> c in s.tasks) && (id in s.tasks <==> id in s.logs)
    ensures var s' := DoClaim(s, j, chosen);
      && s'.replicas == s.replicas[j := s.replicas[j].(ticker := Sending(Claimed(s.tasks, chosen)))]
      && s'.now == s.now && s'.caching == s.caching && s'.cache == s.cache && s'.dirty == s.dirty && s'.dlq == s.dlq
      && s'.crashes == s.crashes && s'.recoveries == s.recoveries
      && if id in chosen
         then Row(s', id) == Some(ClaimRow(s.tasks[id])) && History(s', id) == CountClaim(History(s, id))
         else Row(s', id) == Row(s, id) && History(s', id) == History(s, id)
  {
  }

  lemma ClaimTotal(tasks: map<string, Task>, rs: seq<Replica>, j: nat, chosen: seq<string>, id: string)
    requires j < |rs| && Batch(rs[j].ticker) == []
    requires forall c :: c in chosen ==> c in tasks && tasks[c].id == c
    requires forall m, n :: 0 <= m < n < |chosen| ==> chosen[m] != chosen[n]
    ensures Total(rs[j := rs[j].(ticker := Sending(Claimed(tasks, chosen)))], id) ==
      if id in chosen then Total(rs, id) + multiset{Waiting(InBatch)} else Total(rs, id)
  {
    var batch := Claimed(tasks, chosen);
    TallyClaimed(tasks, chosen, id);
    BatchTally(rs[j], batch, id);
    ExchangeInReplica(rs, j, rs[j].(ticker := Sending(batch)), id, multiset{}, TallyQueue(batch, id, InBatch));
  }

  lemma BatchTally(r: Replica, batch: seq<Task>, id: string)
    requires Batch(r.ticker) == []
    ensures Tally(r.(ticker := Sending(batch)), id) == Tally(r, id) - multiset{} + TallyQueue(batch, id, InBatch)
  {
  }

  lemma TickerTally(r: Replica, k: Ticker, id: string)
    requires Batch(k) == Batch(r.ticker)
    ensures Tally(r.(ticker := k), id) == Tally(r, id)
  {
  }

  lemma ViewAfterTick(s: Sys, j: nat, id: string)
    requires j < |s.replicas|
    ensures ViewOf(DoTick(s, j), id) == ViewOf(s, id)
  {
    var r := s.replicas[j];
    if r.ticker == Resting || r.ticker == Sending([]) {
      TickerTally(r, TickedTo(r), id);
      ViewSetReplica(s, j, r.(ticker := TickedTo(r)), id);
    }
  }

  /** What a queue's head counts for. */
  lemma TallyHead(q: seq<Task>, id: string, at: Place)
    requires q != []
    ensures OneTask(q[0], id, at) <= TallyQueue(q, id, at)
    ensures TallyQueue(q[1..], id, at) == TallyQueue(q, id, at) - OneTask(q[0], id, at)
  {
  }

  /** A copy of the task, or none, goes from one place to another. */
  lemma Shifted(v: RA.View, w: RA.View, from: Place, t: Task, id: string)
    requires w == v.(copies := v.copies - OneTask(t, id, from) + OneTask(t, id, RA.NextPlace(from)))
    ensures w == if t.id == id then RA.Passed(v, from) else v
  {
    if t.id != id {
      assert v.copies - multiset{} + multiset{} == v.copies;
    }
  }

  function Enqueued(r: Replica): Replica
    requires r.ticker.Sending? && r.ticker.batch != []
  {
    r.(ticker := Sending(r.ticker.batch[1..]), channel := r.channel + [r.ticker.batch[0]])
  }

  lemma EnqueuedTally(r: Replica, id: string)
    requires r.ticker.Sending? && r.ticker.batch != []
    ensures var o, n := OneTask(r.ticker.batch[0], id, InBatch), OneTask(r.ticker.batch[0], id, InChannel);
      o <= Tally(r, id) && Tally(Enqueued(r), id) == Tally(r, id) - o + n
  {
    TallyHead(r.ticker.batch, id, InBatch);
    TallyAppend(r.channel, r.ticker.batch[0], id, InChannel);
  }

  function Received(r: Replica, i: nat): Replica
    requires i < |r.workers| && r.channel != []
  {
    r.(channel := r.channel[1..], workers := r.workers[i := Dequeued(r.channel[0])])
  }

  lemma ReceivedTally(r: Replica, i: nat, id: string)
    requires i < |r.workers| && r.workers[i].Idle? && r.channel != []
    ensures var o, n := OneTask(r.channel[0], id, InChannel), OneTask(r.channel[0], id, InHand);
      o <= Tally(r, id) && Tally(Received(r, i), id) == Tally(r, id) - o + n
  {
    TallyHead(r.channel, id, InChannel);
    TallyReplaceWorker(r.workers, i, Dequeued(r.channel[0]), id);
  }

  lemma EnqueueRoom(s: Sys, j: nat)
    requires j < |s.replicas| && Backpressure(s.replicas[j])
    requires s.replicas[j].ticker.Sending? && s.replicas[j].ticker.batch != []
    ensures DoEnqueue(s, j) == SetReplica(s, j, Enqueued(s.replicas[j]))
  {
  }

  /** The channel has room for everything claimed, so no copy is lost. */
  lemma ViewAfterEnqueue(s: Sys, j: nat, id: string)
    requires j < |s.replicas| && Backpressure(s.replicas[j])
    requires s.replicas[j].ticker.Sending? && s.replicas[j].ticker.batch != []
    ensures var t := s.replicas[j].ticker.batch[0];
      && OneTask(t, id, InBatch) <= Total(s.replicas, id)
      && ViewOf(DoEnqueue(s, j), id) == if t.id == id then RA.Passed(ViewOf(s, id), InBatch) else ViewOf(s, id)
  {
    var r := s.replicas[j];
    var t := r.ticker.batch[0];
    EnqueuedTally(r, id);
    ViewExchange(s, j, Enqueued(r), id, OneTask(t, id, InBatch), OneTask(t, id, InChannel));
    EnqueueRoom(s, j);
    Shifted(ViewOf(s, id), ViewOf(DoEnqueue(s, j), id), InBatch, t, id);
  }

  lemma ViewAfterDequeue(s: Sys, j: nat, i: nat, id: string)
    requires HasWorker(s, j, i) && WorkerAt(s, j, i).Idle? && s.replicas[j].channel != []
    ensures var t := s.replicas[j].channel[0];
      && OneTask(t, id, InChannel) <= Total(s.replicas, id)
      && ViewOf(DoDequeue(s, j, i), id) == if t.id == id then RA.Passed(ViewOf(s, id), InChannel) else ViewOf(s, id)
  {
    var r := s.replicas[j];
    var t := r.channel[0];
    ReceivedTally(r, i, id);
    ViewExchange(s, j, Received(r, i), id, OneTask(t, id, InChannel), OneTask(t, id, InHand));
    assert DoDequeue(s, j, i) == SetReplica(s, j, Received(r, i));
    Shifted(ViewOf(s, id), ViewOf(DoDequeue(s, j, i), id), InChannel, t, id);
  }

  lemma CrashCells(s: Sys, j: nat, id: string)
    requires j < |s.replicas| && (id in s.tasks <==> id in s.logs)
    ensures var s' := DoCrash(s, j);
      && s'.replicas == s.replicas[j := Downed(s.replicas[j])]
      && s'.crashes == s.crashes + 1 && s'.recoveries == s.recoveries && Row(s', id) == Row(s, id)
      && s'.now == s.now && s'.caching == s.caching && s'.cache == s.cache && s'.dirty == s.dirty && s'.dlq == s.dlq
      && History(s', id) == if id in s.tasks then LogCrash(History(s, id), Tally(s.replicas[j], id)) else History(s, id)
  {
  }

  lemma ViewAfterCrash(s: Sys, j: nat, id: string)
    requires j < |s.replicas| && (id in s.tasks <==> id in s.logs)
    ensures ViewOf(DoCrash(s, j), id) == RA.Died(ViewOf(s, id), Tally(s.replicas[j], id))
    ensures Tally(s.replicas[j], id) <= Total(s.replicas, id)
  {
    CrashTotal(s.replicas, j, id);
    CrashCells(s, j, id);
  }

  lemma CrashTotal(rs: seq<Replica>, j: nat, id: string)
    requires j < |rs|
    ensures Total(rs[j := Downed(rs[j])], id) == Total(rs, id) - Tally(rs[j], id)
    ensures Tally(rs[j], id) <= Total(rs, id)
  {
    var r' := Downed(rs[j]);
    TallyIdle(r'.workers, id);
    assert Tally(r', id) == multiset{};
    SetReplicaTotal(rs, j, r', id);
  }

  lemma RecoverCells(s: Sys, j: nat, id: string)
    requires j < |s.replicas| && (id in s.tasks <==> id in s.logs)
    ensures var s' := DoRecover(s, j);
      && s'.replicas == s.replicas[j := s.replicas[j].(ticker := Resting)]
      && s'.crashes == s.crashes && s'.recoveries == s.recoveries + 1
      && s'.now == s.now && s'.caching == s.caching && s'.cache == s.cache && s'.dirty == s.dirty && s'.dlq == s.dlq
      && Row(s', id) == (if id in s.tasks then Some(RecoverRow(s.tasks[id])) else None)
      && History(s', id) == (if id in s.tasks then LogRecover(History(s, id), s.tasks[id], Total(s.replicas, id))
                             else History(s, id))
  {
  }

  lemma StartTotal(rs: seq<Replica>, j: nat, id: string)
    requires j < |rs| && rs[j].ticker.Down?
    ensures Total(rs[j := rs[j].(ticker := Resting)], id) == Total(rs, id)
  {
    assert Tally(rs[j].(ticker := Resting), id) == Tally(rs[j], id);
    ExchangeInReplica(rs, j, rs[j].(ticker := Resting), id, multiset{}, multiset{});
  }

  lemma ViewAfterRecover(s: Sys, j: nat, id: string)
    requires j < |s.replicas| && s.replicas[j].ticker.Down? && (id in s.tasks <==> id in s.logs)
    ensures ViewOf(DoRecover(s, j), id) == RA.Reverted(ViewOf(s, id))
  {
    StartTotal(s.replicas, j, id);
    RecoverCells(s, j, id);
  }

  /** The record a worker holds belongs to a row. */
  predicate Holds(s: Sys, j: nat, i: nat) {
    && HasWorker(s, j, i) && !WorkerAt(s, j, i).Idle?
    && WorkerAt(s, j, i).t.id in s.tasks && WorkerAt(s, j, i).t.id in s.logs
  }

  lemma HeldRow(s: Sys, j: nat, i: nat)
    requires Consistent(s) && HasWorker(s, j, i) && !WorkerAt(s, j, i).Idle?
    ensures Holds(s, j, i)
  {
    assert ReplicaOk(s.tasks, s.replicas[j]) && WorkCurrent(s.tasks, WorkerAt(s, j, i));
  }

  // A worker's step as seen by its own task, and by any other task.

  /** A worker that commits a row of its task and goes on. */
  lemma CommitsAndMoves(s: Sys, j: nat, i: nat, row: Task, g: Log, w: Work, id: string, from: Kind, to: Kind)
    requires HasWorker(s, j, i) && !WorkerAt(s, j, i).Idle? && !w.Idle? && WorkerAt(s, j, i).t.id == w.t.id == id
    requires KindOf(WorkerAt(s, j, i)) == from && KindOf(w) == to
    ensures Total(s.replicas, id)[from] > 0
    ensures var v := ViewOf(s, id);
      ViewOf(SetWorker(Commit(s, id, row, g), j, i, w), id) ==
        RA.Write(v, row, g).(copies := RA.Move(v.copies, from, multiset{to}))
  {
    ViewCommit(s, id, row, g, id);
    ViewSetWorker(Commit(s, id, row, g), j, i, w, id, One(WorkerAt(s, j, i), id), One(w, id));
  }

  lemma ViewAfterMark(s: Sys, j: nat, i: nat, id: string)
    requires Holds(s, j, i) && WorkerAt(s, j, i).t.id == id && WorkerAt(s, j, i).Dequeued?
    ensures ViewOf(DoMark(s, j, i), id) == RA.Begun(ViewOf(s, id))
    ensures Total(s.replicas, id)[Waiting(InHand)] > 0
  {
    var t := WorkerAt(s, j, i).t;
    var row, g := MarkRow(s.tasks[t.id]), LogMark(s.logs[t.id], s.tasks[t.id]);
    var s' := Commit(s, t.id, row, g);
    CommitsAndMoves(s, j, i, row, g, Marked(t), id, Waiting(InHand), Running(false));
    assert DoMark(s, j, i) == SetWorker(s', j, i, Marked(t));
  }

  lemma OthersMark(s: Sys, j: nat, i: nat, id: string)
    requires Holds(s, j, i) && WorkerAt(s, j, i).t.id != id && WorkerAt(s, j, i).Dequeued?
    ensures ViewOf(DoMark(s, j, i), id) == ViewOf(s, id)
  {
    var t := WorkerAt(s, j, i).t;
    var row, g := MarkRow(s.tasks[t.id]), LogMark(s.logs[t.id], s.tasks[t.id]);
    ViewCommit(s, t.id, row, g, id);
    var s' := Commit(s, t.id, row, g);
    ViewSameKind(s', j, i, Marked(t), id);
    assert DoMark(s, j, i) == SetWorker(s', j, i, Marked(t));
  }

  /** What a worker counts for after its `Del`. */
  lemma AfterDelCounts(w: Work)
    requires w.Marked? || w.Completing? || w.Failing?
    ensures RA.Flushes(KindOf(w)) && One(AfterDel(w), w.t.id) == RA.AfterFlush(KindOf(w))
  {
  }

  lemma ViewAfterInvalidate(s: Sys, j: nat, i: nat, id: string)
    requires HasWorker(s, j, i)
    requires WorkerAt(s, j, i).Marked? || WorkerAt(s, j, i).Completing? || WorkerAt(s, j, i).Failing?
    requires WorkerAt(s, j, i).t.id == id
    ensures var k := KindOf(WorkerAt(s, j, i));
      RA.Allowed(ViewOf(s, id), RA.Flush(k)) && ViewOf(DoInvalidate(s, j, i), id) == RA.Flushed(ViewOf(s, id), k)
  {
    var w := WorkerAt(s, j, i);
    var s' := Drop(s, id);
    AfterDelCounts(w);
    ViewDrop(s, id, id);
    ViewSetWorker(s', j, i, AfterDel(w), id, multiset{KindOf(w)}, RA.AfterFlush(KindOf(w)));
    assert DoInvalidate(s, j, i) == SetWorker(s', j, i, AfterDel(w));
  }

  lemma OthersInvalidate(s: Sys, j: nat, i: nat, id: string)
    requires HasWorker(s, j, i) && !WorkerAt(s, j, i).Idle? && WorkerAt(s, j, i).t.id != id
    ensures ViewOf(DoInvalidate(s, j, i), id) == ViewOf(s, id)
  {
    var w := WorkerAt(s, j, i);
    ViewDrop(s, w.t.id, id);
    ViewSameKind(Drop(s, w.t.id), j, i, AfterDel(w), id);
  }

  /** The automaton's move, in terms of the row it finds. */
  lemma SucceedsWith(v: RA.View, w: RA.View, t: Task, row: Task, g: Log)
    requires v.row == Some(t) && row == CompleteRow(t) && g == CountChange(v.log, t, row)
    requires w == RA.Write(v, row, g).(copies := RA.Move(v.copies, Won, multiset{Finishing}))
    ensures w == RA.Succeeded(v)
  {
  }

  lemma ViewAfterComplete(s: Sys, j: nat, i: nat, id: string)
    requires Holds(s, j, i) && WorkerAt(s, j, i).t.id == id && WorkerAt(s, j, i).Returned? && WorkerAt(s, j, i).ok
    ensures ViewOf(DoComplete(s, j, i), id) == RA.Succeeded(ViewOf(s, id))
    ensures Total(s.replicas, id)[Won] > 0
  {
    var t := s.tasks[id];
    var row := CompleteRow(t);
    var g := CountChange(s.logs[id], t, row);
    var w := Completing(WorkerAt(s, j, i).t);
    CommitsAndMoves(s, j, i, row, g, w, id, Won, Finishing);
    var s' := SetWorker(Commit(s, id, row, g), j, i, w);
    SucceedsWith(ViewOf(s, id), ViewOf(s', id), t, row, g);
    assert DoComplete(s, j, i) == s';
  }

  lemma OthersComplete(s: Sys, j: nat, i: nat, id: string)
    requires Holds(s, j, i) && WorkerAt(s, j, i).t.id != id && WorkerAt(s, j, i).Returned? && WorkerAt(s, j, i).ok
    ensures ViewOf(DoComplete(s, j, i), id) == ViewOf(s, id)
  {
    var t := WorkerAt(s, j, i).t;
    var row := CompleteRow(s.tasks[t.id]);
    var g := CountChange(s.logs[t.id], s.tasks[t.id], row);
    ViewCommit(s, t.id, row, g, id);
    var s' := Commit(s, t.id, row, g);
    ViewSameKind(s', j, i, Completing(t), id);
    assert DoComplete(s, j, i) == SetWorker(s', j, i, Completing(t));
  }

  lemma FailsWith(v: RA.View, w: RA.View, t: Task, delay: int, upd: Task, g: Log, to: Kind)
    requires v.row == Some(t) && upd == FailRow(t, v.now, delay) && g == LogFail(v.log, t, v.now, delay, Lags(v.copies))
    requires to == if upd.status == Failed then FinalDel else Lagging(false)
    requires w == RA.Write(v, upd, g).(copies := RA.Move(v.copies, Lost, multiset{to}))
    ensures w == RA.FailedOnce(v, delay)
  {
  }

  lemma ViewAfterFail(s: Sys, j: nat, i: nat, delay: int, id: string)
    requires Holds(s, j, i) && WorkerAt(s, j, i).t.id == id && WorkerAt(s, j, i).Returned? && !WorkerAt(s, j, i).ok
    ensures ViewOf(DoFail(s, j, i, delay), id) == RA.FailedOnce(ViewOf(s, id), delay)
    ensures Total(s.replicas, id)[Lost] > 0
  {
    var t := s.tasks[id];
    var upd := FailRow(t, s.now, delay);
    var g := LogFail(s.logs[id], t, s.now, delay, Lags(Total(s.replicas, id)));
    var w := Failing(WorkerAt(s, j, i).t, upd);
    var to := if upd.status == Failed then FinalDel else Lagging(false);
    CommitsAndMoves(s, j, i, upd, g, w, id, Lost, to);
    var s' := SetWorker(Commit(s, id, upd, g), j, i, w);
    FailsWith(ViewOf(s, id), ViewOf(s', id), t, delay, upd, g, to);
    assert DoFail(s, j, i, delay) == s';
  }

  lemma OthersFail(s: Sys, j: nat, i: nat, delay: int, id: string)
    requires Holds(s, j, i) && WorkerAt(s, j, i).t.id != id && WorkerAt(s, j, i).Returned? && !WorkerAt(s, j, i).ok
    ensures ViewOf(DoFail(s, j, i, delay), id) == ViewOf(s, id)
  {
    var t := WorkerAt(s, j, i).t;
    var upd := FailRow(s.tasks[t.id], s.now, delay);
    var g := LogFail(s.logs[t.id], s.tasks[t.id], s.now, delay, Lags(Total(s.replicas, t.id)));
    ViewCommit(s, t.id, upd, g, id);
    var s' := Commit(s, t.id, upd, g);
    ViewSameKind(s', j, i, Failing(t, upd), id);
    assert DoFail(s, j, i, delay) == SetWorker(s', j, i, Failing(t, upd));
  }

  lemma ViewAfterReturn(s: Sys, j: nat, i: nat, success: bool, id: string)
    requires Holds(s, j, i) && WorkerAt(s, j, i).t.id == id && WorkerAt(s, j, i).Calling?
    ensures ViewOf(DoReturn(s, j, i, success), id) == RA.Answered(ViewOf(s, id), success)
    ensures Total(s.replicas, id)[Running(true)] > 0
  {
    var w := Returned(WorkerAt(s, j, i).t, success);
    ViewSetWorker(s, j, i, w, id, multiset{Running(true)}, multiset{if success then Won else Lost});
  }

  lemma OthersReturn(s: Sys, j: nat, i: nat, success: bool, id: string)
    requires Holds(s, j, i) && WorkerAt(s, j, i).t.id != id && WorkerAt(s, j, i).Calling?
    ensures ViewOf(DoReturn(s, j, i, success), id) == ViewOf(s, id)
  {
    ViewSameKind(s, j, i, Returned(WorkerAt(s, j, i).t, success), id);
  }

  lemma SeenIsLookup(s: Sys, id: string)
    ensures RA.Seen(ViewOf(Fill(s, id), id)) == Lookup(s, id)
  {
  }

  lemma AfterGetCounts(w: Work, found: Option<Task>, final: bool)
    requires w.Checking? && final == (w.upd.status == Failed)
    ensures One(w, w.t.id) == multiset{RA.Looker(final)}
    ensures One(AfterGet(w, found), w.t.id) == RA.Grave(final, found)
  {
  }

  lemma ViewAfterInspect(s: Sys, j: nat, i: nat, final: bool, id: string)
    requires HasWorker(s, j, i) && WorkerAt(s, j, i).Checking? && WorkerAt(s, j, i).t.id == id
    requires final == (WorkerAt(s, j, i).upd.status == Failed)
    ensures ViewOf(DoInspect(s, j, i), id) == RA.Looked(RA.Cache(ViewOf(s, id)), final)
    ensures Total(s.replicas, id)[RA.Looker(final)] > 0
  {
    var w := WorkerAt(s, j, i);
    var found := Lookup(s, id);
    ViewFill(s, id, id);
    SeenIsLookup(s, id);
    AfterGetCounts(w, found, final);
    ViewSetWorker(Fill(s, id), j, i, AfterGet(w, found), id, One(w, id), RA.Grave(final, found));
  }

  lemma OthersInspect(s: Sys, j: nat, i: nat, final: bool, id: string)
    requires Holds(s, j, i) && WorkerAt(s, j, i).t.id != id && WorkerAt(s, j, i).Checking?
    requires final == (WorkerAt(s, j, i).upd.status == Failed)
    ensures ViewOf(DoInspect(s, j, i), id) == ViewOf(s, id)
  {
    var w := WorkerAt(s, j, i);
    var w' := AfterGet(w, Lookup(s, w.t.id));
    ViewFill(s, w.t.id, id);
    var s' := Fill(s, w.t.id);
    ViewSameKind(s', j, i, w', id);
    assert DoInspect(s, j, i) == SetWorker(s', j, i, w');
  }

  lemma ViewAfterArchive(s: Sys, j: nat, i: nat, final: bool, id: string)
    requires Holds(s, j, i) && WorkerAt(s, j, i).t.id == id && WorkerAt(s, j, i).Archiving?
    requires final == (WorkerAt(s, j, i).upd.status == Failed)
    ensures ViewOf(DoArchive(s, j, i), id) == RA.Buried(ViewOf(s, id), WorkerAt(s, j, i).rec, final, s.now / SECOND)
    ensures Total(s.replicas, id)[AtDlq(final, Exhausted(WorkerAt(s, j, i).rec))] > 0
  {
    ViewSetWorker(s, j, i, Idle, id, multiset{AtDlq(final, Exhausted(WorkerAt(s, j, i).rec))}, multiset{});
  }

  lemma OthersArchive(s: Sys, j: nat, i: nat, id: string)
    requires Holds(s, j, i) && WorkerAt(s, j, i).t.id != id && WorkerAt(s, j, i).Archiving?
    ensures ViewOf(DoArchive(s, j, i), id) == ViewOf(s, id)
  {
    ViewSameKind(s, j, i, Idle, id);
  }

  lemma CacheStepSimulates(s: Sys, e: Event, id: string)
    requires (e.Invalidate? || e.Inspect?) && Enabled(s, e) && Holds(s, e.j, e.i) && WorkerAt(s, e.j, e.i).t.id == id
    ensures RA.Allowed(ViewOf(s, id), WorkLabel(s, e))
    ensures ViewOf(Step(s, e), id) == RA.Next(ViewOf(s, id), WorkLabel(s, e))
  {
    var w := WorkerAt(s, e.j, e.i);
    match e
    case Invalidate(j, i) => ViewAfterInvalidate(s, j, i, id);
    case Inspect(j, i) => ViewAfterInspect(s, j, i, w.upd.status == Failed, id);
  }

  lemma WorkerStepSimulates(s: Sys, e: Event, id: string)
    requires (e.Mark? || e.Return? || e.Record? || e.Archive?) && Enabled(s, e)
    requires Holds(s, e.j, e.i) && WorkerAt(s, e.j, e.i).t.id == id
    ensures RA.Allowed(ViewOf(s, id), WorkLabel(s, e))
    ensures ViewOf(Step(s, e), id) == RA.Next(ViewOf(s, id), WorkLabel(s, e))
  {
    match e
    case Mark(j, i) => ViewAfterMark(s, j, i, id);
    case Return(j, i, success) => ViewAfterReturn(s, j, i, success, id);
    case Record(_, _) => RecordSimulates(s, e, id);
    case Archive(j, i) => ViewAfterArchive(s, j, i, WorkerAt(s, j, i).upd.status == Failed, id);
  }

  lemma RecordSimulates(s: Sys, e: Event, id: string)
    requires e.Record? && Enabled(s, e) && Holds(s, e.j, e.i) && WorkerAt(s, e.j, e.i).t.id == id
    ensures RA.Allowed(ViewOf(s, id), WorkLabel(s, e))
    ensures ViewOf(Step(s, e), id) == RA.Next(ViewOf(s, id), WorkLabel(s, e))
  {
    if WorkerAt(s, e.j, e.i).ok {
      ViewAfterComplete(s, e.j, e.i, id);
    } else {
      ViewAfterFail(s, e.j, e.i, NextDelay(s, id), id);
    }
  }

  lemma OtherTasksUnaffected(s: Sys, e: Event, id: string)
    requires ByWorker(e) && Enabled(s, e) && Holds(s, e.j, e.i) && WorkerAt(s, e.j, e.i).t.id != id
    ensures ViewOf(Step(s, e), id) == ViewOf(s, id)
  {
    var w := WorkerAt(s, e.j, e.i);
    match e
    case Mark(j, i) => OthersMark(s, j, i, id);
    case Invalidate(j, i) => OthersInvalidate(s, j, i, id);
    case Return(j, i, success) => OthersReturn(s, j, i, success, id);
    case Record(j, i) =>
      if w.ok {
        OthersComplete(s, j, i, id);
      } else {
        OthersFail(s, j, i, NextDelay(s, w.t.id), id);
      }
    case Inspect(j, i) => OthersInspect(s, j, i, w.upd.status == Failed, id);
    case Archive(j, i) => OthersArchive(s, j, i, id);
  }

  predicate ByReplica(e: Event) {
    e.Tick? || e.Claim? || e.Enqueue? || e.Dequeue? || e.Crash? || e.Recover?
  }

  lemma ClientStepSimulates(s: Sys, e: Event, id: string)
    requires Enabled(s, e) && !ByWorker(e) && !ByReplica(e) && TablesOk(s)
    ensures RA.Allowed(ViewOf(s, id), LabelOf(s, e, id))
    ensures ViewOf(Step(s, e), id) == RA.Next(ViewOf(s, id), LabelOf(s, e, id))
  {
    match e
    case Advance(_) =>
    case Create(request, generated) => ViewAfterCreate(s, request, generated, id);
    case Read(k) => ViewFill(s, k, id);
    case DropKey(k) => ViewDrop(s, k, id);
    case Edit(k, patch) => ViewAfterEdit(s, k, patch, id);
  }

  lemma ReplicaStepSimulates(s: Sys, e: Event, id: string)
    requires Enabled(s, e) && ByReplica(e) && TablesOk(s)
    requires e.Enqueue? ==> Backpressure(s.replicas[e.j])
    ensures RA.Allowed(ViewOf(s, id), LabelOf(s, e, id))
    ensures ViewOf(Step(s, e), id) == RA.Next(ViewOf(s, id), LabelOf(s, e, id))
  {
    match e
    case Tick(j) => ViewAfterTick(s, j, id);
    case Claim(j, locked, chosen) => ViewAfterClaim(s, j, chosen, id);
    case Enqueue(j) => ViewAfterEnqueue(s, j, id);
    case Dequeue(j, i) => ViewAfterDequeue(s, j, i, id);
    case Crash(j) => ViewAfterCrash(s, j, id);
    case Recover(j) => ViewAfterRecover(s, j, id);
  }

  /** The simulation: what a step does to any one task is an allowed move of its automaton. */
  lemma StepSimulates(s: Sys, e: Event, id: string)
    requires Consistent(s)
    ensures RA.Allowed(ViewOf(s, id), LabelOf(s, e, id))
    ensures ViewOf(Step(s, e), id) == RA.Next(ViewOf(s, id), LabelOf(s, e, id))
  {
    if !Enabled(s, e) {
    } else if ByReplica(e) {
      if e.Enqueue? {
        assert ReplicaOk(s.tasks, s.replicas[e.j]);
      }
      ReplicaStepSimulates(s, e, id);
    } else if !ByWorker(e) {
      ClientStepSimulates(s, e, id);
    } else {
      HeldRow(s, e.j, e.i);
      if WorkerAt(s, e.j, e.i).t.id == id {
        if e.Invalidate? || e.Inspect? {
          CacheStepSimulates(s, e, id);
        } else {
          WorkerStepSimulates(s, e, id);
        }
      } else {
        OtherTasksUnaffected(s, e, id);
      }
    }
  }
}
