/** The task scheduler as a state machine: one shared table, cache and dead-letter table, and any
    number of replicas, each with a bounded channel, one ticker and a pool of workers.  Every event
    is one atomic step of the program: one committed transaction, one Redis command, one channel
    operation, one callback, the death of a process, or a start with its recovery of the table.  An
    event that does not apply leaves the state as it is. */
module Scheduler {
  import opened Options
  import opened Tasks

  // ---- state ----

  /** Where the one ticker goroutine of a replica is in `tickLoop`. */
  datatype Ticker =
    | Down                           // the process is not running: not started yet, or crashed
    | Resting
    | Room(limit: nat)               // free channel slots read, claim not yet made
    | Sending(batch: seq<Task>)      // claimed, not all offered to the channel yet

  /** Where a worker goroutine is in `Worker`; `t` is the record it took off the channel. */
  datatype Work =
    | Idle
    | Dequeued(t: Task)
    | Marked(t: Task)                          // PROCESSING committed, cache key not yet deleted
    | Calling(t: Task)                         // the HTTP callback is running
    | Returned(t: Task, ok: bool)              // its outcome is known, nothing recorded yet
    | Completing(t: Task)                      // COMPLETED committed, cache key not yet deleted
    | Failing(t: Task, upd: Task)              // failure committed as `upd`, cache key not yet deleted
    | Checking(t: Task, upd: Task)             // about to `Get` the record it just updated
    | Archiving(t: Task, upd: Task, rec: Task) // `Get` said FAILED: `rec` goes to the dead-letter table

  datatype Replica = Replica(capacity: nat, channel: seq<Task>, ticker: Ticker, workers: seq<Work>)

  /** What happened to one task, for stating properties of whole runs.  The fields up to `changes`
      restart when a task that no worker can execute any more is rescheduled. */
  datatype Log = Log(
    starts: nat,             // callbacks started
    outcomes: seq<bool>,     // callback outcomes in order
    aborted: nat,            // callbacks whose outcome a crash kept from being recorded
    firstFailure: Option<int>, // when the first failure was recorded
    changes: nat,            // status changes made by claims and workers
    reschedules: nat,        // PUT requests with an execute_at
    revived: nat,            // times a row in flight went back to PENDING while an executable copy was left
    laggards: nat,           // other workers between update and `Get` when the row became FAILED
    saves: nat,              // dead-letter inserts attempted by the worker that made the row FAILED
    extraSaves: nat)         // and by any other worker

  const NEW_LOG := Log(0, [], 0, None, 0, 0, 0, 0, 0, 0)

  /** `dlq[id]` holds the dead-letter entries of a task by the second in their key; `dirty` holds the
      ids whose row was committed after their cache key was last removed. */
  datatype Sys = Sys(now: int, caching: bool, tasks: map<string, Task>, cache: map<string, Task>, dirty: set<string>,
                     dlq: map<string, map<int, Task>>, replicas: seq<Replica>, crashes: nat, recoveries: nat,
                     logs: map<string, Log>)

  datatype Event =
    | Advance(nanos: nat)
    | Create(request: TaskRequest, generated: string)
    | Read(id: string)
    | DropKey(id: string)            // the key's TTL passed, or a handler's `Del` after its commit
    | Edit(id: string, patch: Patch)
    | Tick(j: nat)
    | Claim(j: nat, locked: set<string>, chosen: seq<string>)
    | Enqueue(j: nat)
    | Dequeue(j: nat, i: nat)
    | Mark(j: nat, i: nat)
    | Invalidate(j: nat, i: nat)
    | Return(j: nat, i: nat, success: bool)
    | Record(j: nat, i: nat)
    | Inspect(j: nat, i: nat)
    | Archive(j: nat, i: nat)
    | Crash(j: nat)                  // the process dies
    | Recover(j: nat)                // `Start`: recovery of the table, then workers and ticker

  predicate Initial(s: Sys) {
    && s.tasks == map[] && s.cache == map[] && s.dirty == {} && s.dlq == map[] && s.logs == map[]
    && s.crashes == 0 && s.recoveries == 0
    && forall j :: 0 <= j < |s.replicas| ==> Fresh(s.replicas[j])
  }

  predicate Fresh(r: Replica) {
    && r.channel == [] && (r.ticker == Down || r.ticker == Resting)
    && forall i :: 0 <= i < |r.workers| ==> r.workers[i] == Idle
  }

  // ---- which copies exist ----

  /** Where a claimed record waits for a worker. */
  datatype Place = InBatch | InChannel | InHand

  /** What a record outside the table is still going to do. */
  datatype Kind =
    | Waiting(at: Place) | Running(called: bool) | Won | Lost
    | Finishing | FinalDel | FinalChk | Lagging(flushed: bool) | AtDlq(final: bool, good: bool)

  function KindOf(w: Work): Kind
    requires !w.Idle?
  {
    match w
    case Dequeued(_) => Waiting(InHand)
    case Marked(_) => Running(false)
    case Calling(_) => Running(true)
    case Returned(_, ok) => if ok then Won else Lost
    case Completing(_) => Finishing
    case Failing(_, upd) => if upd.status == Failed then FinalDel else Lagging(false)
    case Checking(_, upd) => if upd.status == Failed then FinalChk else Lagging(true)
    case Archiving(_, upd, rec) => AtDlq(upd.status == Failed, Exhausted(rec))
  }

  function One(w: Work, id: string): multiset<Kind> {
    if w.Idle? || w.t.id != id then multiset{} else multiset{KindOf(w)}
  }

  function OneTask(t: Task, id: string, at: Place): multiset<Kind> {
    if t.id == id then multiset{Waiting(at)} else multiset{}
  }

  function TallyWorkers(ws: seq<Work>, id: string): multiset<Kind> {
    if ws == [] then multiset{} else One(ws[0], id) + TallyWorkers(ws[1..], id)
  }

  function TallyQueue(q: seq<Task>, id: string, at: Place): multiset<Kind> {
    if q == [] then multiset{} else OneTask(q[0], id, at) + TallyQueue(q[1..], id, at)
  }

  function Batch(k: Ticker): seq<Task> {
    if k.Sending? then k.batch else []
  }

  function Tally(r: Replica, id: string): multiset<Kind> {
    TallyQueue(Batch(r.ticker), id, InBatch) + TallyQueue(r.channel, id, InChannel) + TallyWorkers(r.workers, id)
  }

  function Total(rs: seq<Replica>, id: string): multiset<Kind> {
    if rs == [] then multiset{} else Tally(rs[0], id) + Total(rs[1..], id)
  }

  /** Claimed records that no worker has marked yet. */
  function Waits(c: multiset<Kind>): nat {
    c[Waiting(InBatch)] + c[Waiting(InChannel)] + c[Waiting(InHand)]
  }

  function Runs(c: multiset<Kind>): nat {
    c[Running(false)] + c[Running(true)]
  }

  /** Workers between the mark and the record of the outcome. */
  function Owners(c: multiset<Kind>): nat {
    Runs(c) + c[Won] + c[Lost]
  }

  /** Workers between recording a failure that can be retried and the `Get` after it. */
  function Lags(c: multiset<Kind>): nat {
    c[Lagging(false)] + c[Lagging(true)]
  }

  /** The copies that may still start or record a callback. */
  function Executable(c: multiset<Kind>): nat {
    Waits(c) + Owners(c)
  }

  // ---- bookkeeping shared by the machine and its per-task view ----

  function CountChange(g: Log, before: Task, after: Task): Log {
    if before.status == after.status then g else g.(changes := g.changes + 1)
  }

  function LogMark(g: Log, row: Task): Log {
    CountChange(g, row, MarkRow(row)).(starts := g.starts + 1)
  }

  function LogFail(g: Log, row: Task, now: int, delay: int, lagging: nat): Log {
    var upd := FailRow(row, now, delay);
    CountChange(g, row, upd).(
      firstFailure := if row.retryCount == 0 then Some(now) else g.firstFailure,
      laggards := if upd.status == Failed then lagging else g.laggards)
  }

  /** A reschedule; `copies` are all copies of the task. */
  function LogEdit(g: Log, row: Task, p: Patch, copies: multiset<Kind>): Log {
    if p.executeAt.None? then g
    else if Executable(copies) > 0 && InFlight(row.status)
    then g.(reschedules := g.reschedules + 1, revived := g.revived + 1)
    else Log(0, [], 0, None, 0, g.reschedules + 1, g.revived, g.laggards, g.saves, g.extraSaves)
  }

  /** `lost` are the copies that die with the process. */
  function LogCrash(g: Log, lost: multiset<Kind>): Log {
    g.(aborted := g.aborted + Owners(lost))
  }

  function LogRecover(g: Log, row: Task, copies: multiset<Kind>): Log {
    if InFlight(row.status) && Executable(copies) > 0 then g.(revived := g.revived + 1) else g
  }

  function LogSave(g: Log, final: bool): Log {
    if final then g.(saves := g.saves + 1) else g.(extraSaves := g.extraSaves + 1)
  }

  function History(s: Sys, id: string): Log {
    if id in s.logs then s.logs[id] else NEW_LOG
  }

  // ---- steps of the table and its cache ----

  function Commit(s: Sys, id: string, row: Task, g: Log): Sys {
    s.(tasks := s.tasks[id := row], dirty := s.dirty + {id}, logs := s.logs[id := g])
  }

  function Drop(s: Sys, id: string): Sys {
    s.(cache := s.cache - {id}, dirty := s.dirty - {id})
  }

  /** What `Get` returns, and the cache after it. */
  function Lookup(s: Sys, id: string): Option<Task> {
    if id in s.cache then Some(s.cache[id]) else if id in s.tasks then Some(s.tasks[id]) else None
  }

  function Fill(s: Sys, id: string): Sys {
    if s.caching && id !in s.cache && id in s.tasks then s.(cache := s.cache[id := s.tasks[id]]) else s
  }

  function DoCreate(s: Sys, r: TaskRequest, generated: string): Sys {
    var row := NewRow(r, generated, s.now);
    if row.id in s.tasks then Fill(s, row.id)   // 23505: answer with the stored task
    else s.(tasks := s.tasks[row.id := row], logs := s.logs[row.id := NEW_LOG])
  }

  function DoEdit(s: Sys, id: string, p: Patch): Sys {
    if id !in s.tasks || id !in s.logs then s
    else Commit(s, id, EditRow(s.tasks[id], p), LogEdit(s.logs[id], s.tasks[id], p, Total(s.replicas, id)))
  }

  predicate Ready(tasks: map<string, Task>, id: string, now: int) {
    id in tasks && tasks[id].status == Pending && tasks[id].executeAt <= now
  }

  /** `chosen` are the earliest ready rows among those nobody has locked, up to the limit. */
  ghost predicate ClaimSelects(tasks: map<string, Task>, now: int, limit: nat, locked: set<string>,
                               chosen: seq<string>) {
    && |chosen| <= limit
    && (forall m, n :: 0 <= m < n < |chosen| ==> chosen[m] != chosen[n])
    && (forall id :: id in chosen ==> Ready(tasks, id, now) && id !in locked)
    && (forall id :: id in tasks && Ready(tasks, id, now) && id !in locked && id !in chosen ==>
          |chosen| == limit && forall c :: c in chosen ==> tasks[c].executeAt <= tasks[id].executeAt)
  }

  function MarkQueued(tasks: map<string, Task>, chosen: seq<string>): map<string, Task> {
    map id | id in tasks :: if id in chosen then ClaimRow(tasks[id]) else tasks[id]
  }

  function CountClaim(g: Log): Log {
    g.(changes := g.changes + 1)
  }

  function CountClaims(logs: map<string, Log>, chosen: seq<string>): map<string, Log> {
    map id | id in logs :: if id in chosen then CountClaim(logs[id]) else logs[id]
  }

  function Claimed(tasks: map<string, Task>, chosen: seq<string>): (q: seq<Task>)
    requires forall id :: id in chosen ==> id in tasks
  {
    if chosen == [] then [] else [ClaimRow(tasks[chosen[0]])] + Claimed(tasks, chosen[1..])
  }

  function RecoverTable(tasks: map<string, Task>): map<string, Task> {
    map id | id in tasks :: RecoverRow(tasks[id])
  }

  // ---- steps of one replica ----

  function SetReplica(s: Sys, j: nat, r: Replica): Sys
    requires j < |s.replicas|
  {
    s.(replicas := s.replicas[j := r])
  }

  predicate HasWorker(s: Sys, j: nat, i: nat) {
    j < |s.replicas| && i < |s.replicas[j].workers|
  }

  function WorkerAt(s: Sys, j: nat, i: nat): Work
    requires HasWorker(s, j, i)
  {
    s.replicas[j].workers[i]
  }

  function SetWorker(s: Sys, j: nat, i: nat, w: Work): Sys
    requires HasWorker(s, j, i)
  {
    SetReplica(s, j, s.replicas[j].(workers := s.replicas[j].workers[i := w]))
  }

  function DoTick(s: Sys, j: nat): Sys
    requires j < |s.replicas|
  {
    var r := s.replicas[j];
    if r.ticker != Resting && r.ticker != Sending([]) then s else SetReplica(s, j, r.(ticker := TickedTo(r)))
  }

  /** A tick reads the free slots; with none it is over. */
  function TickedTo(r: Replica): Ticker {
    if r.capacity <= |r.channel| then Resting else Room(r.capacity - |r.channel|)
  }

  function DoClaim(s: Sys, j: nat, chosen: seq<string>): Sys
    requires j < |s.replicas| && forall id :: id in chosen ==> id in s.tasks
  {
    SetReplica(s, j, s.replicas[j].(ticker := Sending(Claimed(s.tasks, chosen))))
      .(tasks := MarkQueued(s.tasks, chosen), logs := CountClaims(s.logs, chosen))
  }

  function DoEnqueue(s: Sys, j: nat): Sys
    requires j < |s.replicas| && s.replicas[j].ticker.Sending? && s.replicas[j].ticker.batch != []
  {
    var r := s.replicas[j];
    var rest := Sending(r.ticker.batch[1..]);
    if |r.channel| < r.capacity
    then SetReplica(s, j, r.(ticker := rest, channel := r.channel + [r.ticker.batch[0]]))
    else SetReplica(s, j, r.(ticker := rest))   // saturated: the task is bypassed
  }

  function DoDequeue(s: Sys, j: nat, i: nat): Sys
    requires HasWorker(s, j, i) && s.replicas[j].channel != []
  {
    var r := s.replicas[j];
    SetReplica(s, j, r.(channel := r.channel[1..], workers := r.workers[i := Dequeued(r.channel[0])]))
  }

  function DoMark(s: Sys, j: nat, i: nat): Sys
    requires HasWorker(s, j, i) && WorkerAt(s, j, i).Dequeued?
  {
    var t := WorkerAt(s, j, i).t;
    if t.id !in s.tasks || t.id !in s.logs then SetWorker(s, j, i, Idle)
    else
      var row := s.tasks[t.id];
      SetWorker(Commit(s, t.id, MarkRow(row), LogMark(s.logs[t.id], row)), j, i, Marked(t))
  }

  function AfterDel(w: Work): Work {
    match w
    case Marked(t) => Calling(t)
    case Completing(t) => Idle
    case Failing(t, upd) => Checking(t, upd)
    case _ => w
  }

  function DoInvalidate(s: Sys, j: nat, i: nat): Sys
    requires HasWorker(s, j, i) && !WorkerAt(s, j, i).Idle?
  {
    var w := WorkerAt(s, j, i);
    SetWorker(Drop(s, w.t.id), j, i, AfterDel(w))
  }

  function DoReturn(s: Sys, j: nat, i: nat, ok: bool): Sys
    requires HasWorker(s, j, i) && WorkerAt(s, j, i).Calling?
  {
    var t := WorkerAt(s, j, i).t;
    var s' := SetWorker(s, j, i, Returned(t, ok));
    if t.id in s.logs
    then s'.(logs := s.logs[t.id := s.logs[t.id].(outcomes := s.logs[t.id].outcomes + [ok])])
    else s'
  }

  function DoComplete(s: Sys, j: nat, i: nat): Sys
    requires HasWorker(s, j, i) && WorkerAt(s, j, i).Returned?
  {
    var t := WorkerAt(s, j, i).t;
    if t.id !in s.tasks || t.id !in s.logs then SetWorker(s, j, i, Idle)
    else
      var row := s.tasks[t.id];
      var g := CountChange(s.logs[t.id], row, CompleteRow(row));
      SetWorker(Commit(s, t.id, CompleteRow(row), g), j, i, Completing(t))
  }

  function DoFail(s: Sys, j: nat, i: nat, delay: int): Sys
    requires HasWorker(s, j, i) && WorkerAt(s, j, i).Returned?
  {
    var t := WorkerAt(s, j, i).t;
    if t.id !in s.tasks || t.id !in s.logs then SetWorker(s, j, i, Idle)
    else
      var row := s.tasks[t.id];
      var upd := FailRow(row, s.now, delay);
      var g := LogFail(s.logs[t.id], row, s.now, delay, Lags(Total(s.replicas, t.id)));
      SetWorker(Commit(s, t.id, upd, g), j, i, Failing(t, upd))
  }

  /** The delay that the next recorded failure of a task will impose. */
  function NextDelay(s: Sys, id: string): int {
    if id in s.tasks then BackoffNanos(s.tasks[id].retryCount + 1) else 0
  }

  function DoRecord(s: Sys, j: nat, i: nat): Sys
    requires HasWorker(s, j, i) && WorkerAt(s, j, i).Returned?
  {
    if WorkerAt(s, j, i).ok then DoComplete(s, j, i) else DoFail(s, j, i, NextDelay(s, WorkerAt(s, j, i).t.id))
  }

  function AfterGet(w: Work, found: Option<Task>): Work
    requires w.Checking?
  {
    if found.Some? && found.value.status == Failed then Archiving(w.t, w.upd, found.value) else Idle
  }

  function DoInspect(s: Sys, j: nat, i: nat): Sys
    requires HasWorker(s, j, i) && WorkerAt(s, j, i).Checking?
  {
    var w := WorkerAt(s, j, i);
    SetWorker(Fill(s, w.t.id), j, i, AfterGet(w, Lookup(s, w.t.id)))
  }

  function Entries(dlq: map<string, map<int, Task>>, id: string): map<int, Task> {
    if id in dlq then dlq[id] else map[]
  }

  /** The insert: an entry with the same id and second is a primary-key conflict and is only logged. */
  function Insert(entries: map<int, Task>, second: int, rec: Task): map<int, Task> {
    if second in entries then entries else entries[second := rec]
  }

  function DoArchive(s: Sys, j: nat, i: nat): Sys
    requires HasWorker(s, j, i) && WorkerAt(s, j, i).Archiving?
  {
    var w := WorkerAt(s, j, i);
    var s' := SetWorker(s, j, i, Idle);
    var s' := s'.(dlq := s.dlq[w.t.id := Insert(Entries(s.dlq, w.t.id), s.now / SECOND, w.rec)]);
    if w.t.id in s.logs then s'.(logs := s.logs[w.t.id := LogSave(s.logs[w.t.id], w.upd.status == Failed)]) else s'
  }

  /** The crash loses channel, batch and workers; nothing in the table, cache or dead-letter table. */
  function Downed(r: Replica): Replica {
    Replica(r.capacity, [], Down, seq(|r.workers|, _ => Idle))
  }

  function DoCrash(s: Sys, j: nat): Sys
    requires j < |s.replicas|
  {
    SetReplica(s, j, Downed(s.replicas[j])).(crashes := s.crashes + 1,
      logs := map id | id in s.logs :: LogCrash(s.logs[id], Tally(s.replicas[j], id)))
  }

  function DoRecover(s: Sys, j: nat): Sys
    requires j < |s.replicas|
  {
    SetReplica(s, j, s.replicas[j].(ticker := Resting)).(tasks := RecoverTable(s.tasks), recoveries := s.recoveries + 1,
      logs := map id | id in s.logs ::
        if id in s.tasks then LogRecover(s.logs[id], s.tasks[id], Total(s.replicas, id)) else s.logs[id])
  }

  // ---- the machine ----

  ghost predicate Enabled(s: Sys, e: Event) {
    match e
    case Tick(j) => j < |s.replicas|
    case Claim(j, locked, chosen) =>
      && j < |s.replicas| && s.replicas[j].ticker.Room?
      && ClaimSelects(s.tasks, s.now, s.replicas[j].ticker.limit, locked, chosen)
    case Enqueue(j) => j < |s.replicas| && s.replicas[j].ticker.Sending? && s.replicas[j].ticker.batch != []
    case Dequeue(j, i) => HasWorker(s, j, i) && WorkerAt(s, j, i).Idle? && s.replicas[j].channel != []
    case Mark(j, i) => HasWorker(s, j, i) && WorkerAt(s, j, i).Dequeued?
    case Invalidate(j, i) =>
      HasWorker(s, j, i) && (var w := WorkerAt(s, j, i); w.Marked? || w.Completing? || w.Failing?)
    case Return(j, i, success) =>
      // an empty callback URL is skipped as a success
      HasWorker(s, j, i) && WorkerAt(s, j, i).Calling? && (WorkerAt(s, j, i).t.callbackUrl == "" ==> success)
    case Record(j, i) => HasWorker(s, j, i) && WorkerAt(s, j, i).Returned?
    case Inspect(j, i) => HasWorker(s, j, i) && WorkerAt(s, j, i).Checking?
    case Archive(j, i) => HasWorker(s, j, i) && WorkerAt(s, j, i).Archiving?
    case Crash(j) => j < |s.replicas| && !s.replicas[j].ticker.Down?
    case Recover(j) => j < |s.replicas| && s.replicas[j].ticker.Down?
    case _ => true
  }

  predicate ByWorker(e: Event) {
    e.Mark? || e.Invalidate? || e.Return? || e.Record? || e.Inspect? || e.Archive?
  }

  ghost function WorkerStep(s: Sys, e: Event): (s': Sys)
    requires ByWorker(e) && Enabled(s, e)
    ensures |s'.replicas| == |s.replicas|
  {
    match e
    case Mark(j, i) => DoMark(s, j, i)
    case Invalidate(j, i) => DoInvalidate(s, j, i)
    case Return(j, i, success) => DoReturn(s, j, i, success)
    case Record(j, i) => DoRecord(s, j, i)
    case Inspect(j, i) => DoInspect(s, j, i)
    case Archive(j, i) => DoArchive(s, j, i)
  }

  ghost function Step(s: Sys, e: Event): (s': Sys)
    ensures |s'.replicas| == |s.replicas|
  {
    if !Enabled(s, e) then s else
    match e
    case Advance(nanos) => s.(now := s.now + nanos)
    case Create(request, generated) => DoCreate(s, request, generated)
    case Read(id) => Fill(s, id)
    case DropKey(id) => Drop(s, id)
    case Edit(id, patch) => DoEdit(s, id, patch)
    case Tick(j) => DoTick(s, j)
    case Claim(j, _, chosen) => DoClaim(s, j, chosen)
    case Enqueue(j) => DoEnqueue(s, j)
    case Dequeue(j, i) => DoDequeue(s, j, i)
    case Crash(j) => DoCrash(s, j)
    case Recover(j) => DoRecover(s, j)
    case _ => WorkerStep(s, e)
  }

  ghost function Run(s: Sys, es: seq<Event>): Sys {
    if es == [] then s else Step(Run(s, es[..|es| - 1]), es[|es| - 1])
  }

  ghost predicate Reachable(s: Sys) {
    exists s0, es :: Initial(s0) && s == Run(s0, es)
  }
}
