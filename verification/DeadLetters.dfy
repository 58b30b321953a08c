/** When a task can be archived twice.  The worker that records the last failure archives the task once;
    a worker that still has to look at the record of an earlier failure archives it again.  From the last
    attempt on, that is the only way. */
module DeadLetters {
  import opened Options
  import opened Tasks
  import opened Scheduler
  import opened TallyLaws
  import opened Simulation
  import opened SchedulerSteps
  import opened SchedulerTheorems
  import Termination = SchedulerTermination
  import RA = RetryAutomaton

  // ---- two workers that hold the same task, among whatever else there is ----

  predicate Cell(s: Sys, row: Task) {
    row.id in s.tasks && s.tasks[row.id] == row && row.id in s.logs
  }

  predicate Works(s: Sys, j: nat, i: nat, w: Work, id: string) {
    HasWorker(s, j, i) && WorkerAt(s, j, i) == w && (w.Idle? || w.t.id == id)
  }

  /** The row, the worker that moves next and the other worker. */
  predicate Scene(s: Sys, row: Task, j: nat, i: nat, w: Work, k: nat, l: nat, z: Work) {
    Cell(s, row) && Works(s, j, i, w, row.id) && Works(s, k, l, z, row.id) && (j, i) != (k, l)
  }

  /** What no step but an insert, or the clock, changes. */
  predicate SameBooks(s: Sys, s': Sys, id: string) {
    s'.now == s.now && Entries(s'.dlq, id) == Entries(s.dlq, id)
  }

  /** A `Get` would return the row. */
  predicate ReadsRow(s: Sys, row: Task) {
    row.id in s.cache ==> s.cache[row.id] == row
  }

  lemma Deletes(s: Sys, row: Task, j: nat, i: nat, w: Work, k: nat, l: nat, z: Work)
    requires Scene(s, row, j, i, w, k, l, z) && (w.Marked? || w.Failing?)
    ensures var s' := Step(s, Invalidate(j, i));
      Scene(s', row, j, i, AfterDel(w), k, l, z) && SameBooks(s, s', row.id) && row.id !in s'.cache
  {
    assert Step(s, Invalidate(j, i)) == DoInvalidate(s, j, i);
  }

  lemma Returns(s: Sys, row: Task, j: nat, i: nat, t: Task, k: nat, l: nat, z: Work)
    requires Scene(s, row, j, i, Calling(t), k, l, z) && t.callbackUrl != ""
    ensures var s' := Step(s, Return(j, i, false));
      Scene(s', row, j, i, Returned(t, false), k, l, z) && SameBooks(s, s', row.id)
  {
    assert Step(s, Return(j, i, false)) == DoReturn(s, j, i, false);
  }

  function LastRow(row: Task): Task {
    row.(retryCount := row.retryCount + 1, status := Failed)
  }

  lemma Records(s: Sys, row: Task, j: nat, i: nat, t: Task, k: nat, l: nat, z: Work)
    requires Scene(s, row, j, i, Returned(t, false), k, l, z) && row.retryCount == row.maxRetries
    ensures var s' := Step(s, Record(j, i));
      Scene(s', LastRow(row), j, i, Failing(t, LastRow(row)), k, l, z) && SameBooks(s, s', row.id)
  {
    var delay := NextDelay(s, t.id);
    RecordStep(s, j, i);
    assert FailRow(row, s.now, delay) == LastRow(row);
  }

  lemma Inspects(s: Sys, row: Task, j: nat, i: nat, t: Task, upd: Task, k: nat, l: nat, z: Work)
    requires Scene(s, row, j, i, Checking(t, upd), k, l, z) && row.status == Failed && ReadsRow(s, row)
    ensures var s' := Step(s, Inspect(j, i));
      Scene(s', row, j, i, Archiving(t, upd, row), k, l, z) && SameBooks(s, s', row.id) && ReadsRow(s', row)
  {
    InspectStep(s, j, i);
    assert Lookup(s, row.id) == Some(row);
  }

  lemma Inserts(s: Sys, row: Task, j: nat, i: nat, t: Task, upd: Task, k: nat, l: nat, z: Work)
    requires Scene(s, row, j, i, Archiving(t, upd, row), k, l, z) && ReadsRow(s, row)
    ensures var s' := Step(s, Archive(j, i));
      && Scene(s', row, j, i, Idle, k, l, z) && ReadsRow(s', row) && s'.now == s.now
      && Entries(s'.dlq, row.id) == Insert(Entries(s.dlq, row.id), s.now / SECOND, row)
  {
    ArchiveStep(s, j, i);
  }

  /** A worker that looks at a FAILED record archives it. */
  lemma Archives(s: Sys, row: Task, j: nat, i: nat, t: Task, upd: Task, k: nat, l: nat, z: Work)
    returns (es: seq<Event>)
    requires Scene(s, row, j, i, Checking(t, upd), k, l, z) && row.status == Failed && ReadsRow(s, row)
    ensures es == [Inspect(j, i), Archive(j, i)]
    ensures var s' := Run(s, es);
      && Scene(s', row, j, i, Idle, k, l, z) && ReadsRow(s', row) && s'.now == s.now
      && Entries(s'.dlq, row.id) == Insert(Entries(s.dlq, row.id), s.now / SECOND, row)
  {
    es := [Inspect(j, i), Archive(j, i)];
    RunTwo(s, Inspect(j, i), Archive(j, i));
    Inspects(s, row, j, i, t, upd, k, l, z);
    Inserts(Step(s, Inspect(j, i)), row, j, i, t, upd, k, l, z);
  }

  // ---- the last attempt fails ----

  predicate Quietly(es: seq<Event>) {
    forall n :: 0 <= n < |es| ==> !es[n].Edit? && !es[n].Crash? && !es[n].Recover?
  }

  lemma ReturnedFails(s: Sys, row: Task, j: nat, i: nat, t: Task, k: nat, l: nat, z: Work) returns (es: seq<Event>)
    requires Scene(s, row, j, i, Returned(t, false), k, l, z) && row.retryCount == row.maxRetries
    ensures Quietly(es)
    ensures var s' := Run(s, es);
      && Scene(s', LastRow(row), j, i, Checking(t, LastRow(row)), k, l, z) && SameBooks(s, s', row.id)
      && row.id !in s'.cache
  {
    es := [Record(j, i), Invalidate(j, i)];
    RunTwo(s, Record(j, i), Invalidate(j, i));
    Records(s, row, j, i, t, k, l, z);
    Deletes(Step(s, Record(j, i)), LastRow(row), j, i, Failing(t, LastRow(row)), k, l, z);
  }

  lemma CallFails(s: Sys, row: Task, j: nat, i: nat, t: Task, k: nat, l: nat, z: Work) returns (es: seq<Event>)
    requires Scene(s, row, j, i, Calling(t), k, l, z) && row.retryCount == row.maxRetries && t.callbackUrl != ""
    ensures Quietly(es)
    ensures var s' := Run(s, es);
      && Scene(s', LastRow(row), j, i, Checking(t, LastRow(row)), k, l, z) && SameBooks(s, s', row.id)
      && row.id !in s'.cache
  {
    var e := Return(j, i, false);
    Returns(s, row, j, i, t, k, l, z);
    var rest := ReturnedFails(Step(s, e), row, j, i, t, k, l, z);
    RunCons(s, e, rest);
    es := [e] + rest;
  }

  lemma AttemptFails(s: Sys, row: Task, j: nat, i: nat, w: Work, k: nat, l: nat, z: Work) returns (es: seq<Event>)
    requires Scene(s, row, j, i, w, k, l, z) && row.retryCount == row.maxRetries
    requires w.Marked? || w.Calling? || (w.Returned? && !w.ok)
    requires w.t.callbackUrl != ""
    ensures Quietly(es)
    ensures var s' := Run(s, es);
      && Scene(s', LastRow(row), j, i, Checking(w.t, LastRow(row)), k, l, z) && SameBooks(s, s', row.id)
      && row.id !in s'.cache
  {
    match w
    case Returned(t, _) => es := ReturnedFails(s, row, j, i, t, k, l, z);
    case Calling(t) => es := CallFails(s, row, j, i, t, k, l, z);
    case Marked(t) =>
      var e := Invalidate(j, i);
      Deletes(s, row, j, i, w, k, l, z);
      var rest := CallFails(Step(s, e), row, j, i, t, k, l, z);
      RunCons(s, e, rest);
      es := [e] + rest;
  }

  // ---- the laggard looks ----

  predicate Laggard(z: Work) {
    (z.Failing? || z.Checking?) && z.upd.status != Failed
  }

  lemma LaggardLooks(s: Sys, row: Task, k: nat, l: nat, z: Work, j: nat, i: nat) returns (es: seq<Event>)
    requires Scene(s, row, k, l, z, j, i, Idle) && Laggard(z) && row.status == Failed && ReadsRow(s, row)
    ensures Quietly(es)
    ensures Entries(Run(s, es).dlq, row.id) == Insert(Entries(s.dlq, row.id), s.now / SECOND, row)
  {
    if z.Failing? {
      var e := Invalidate(k, l);
      Deletes(s, row, k, l, z, j, i, Idle);
      var rest := Archives(Step(s, e), row, k, l, z.t, z.upd, j, i, Idle);
      RunCons(s, e, rest);
      es := [e] + rest;
    } else {
      es := Archives(s, row, k, l, z.t, z.upd, j, i, Idle);
    }
  }

  lemma Later(s: Sys, row: Task, j: nat, i: nat, w: Work, k: nat, l: nat, z: Work)
    requires Scene(s, row, j, i, w, k, l, z) && ReadsRow(s, row)
    ensures var s' := Step(s, Advance(SECOND));
      && Scene(s', row, j, i, w, k, l, z) && ReadsRow(s', row) && s'.now == s.now + SECOND && s'.dlq == s.dlq
  {
  }

  lemma TwoEntries(now: int, rec: Task, later: Task)
    ensures |Insert(Insert(map[], now / SECOND, rec), (now + SECOND) / SECOND, later)| == 2
  {
    assert (now + SECOND) / SECOND == now / SECOND + 1;
  }

  /** The owner archives the FAILED task, a second passes, and the laggard archives it again. */
  lemma BothArchive(s: Sys, row: Task, j: nat, i: nat, t: Task, upd: Task, k: nat, l: nat, z: Work)
    returns (es: seq<Event>)
    requires Scene(s, row, j, i, Checking(t, upd), k, l, z) && Laggard(z) && row.status == Failed
    requires row.id !in s.cache && Entries(s.dlq, row.id) == map[]
    ensures Quietly(es) && |Entries(Run(s, es).dlq, row.id)| == 2
  {
    var a := Archives(s, row, j, i, t, upd, k, l, z);
    var s1 := Run(s, a);
    Later(s1, row, j, i, Idle, k, l, z);
    var s2 := Step(s1, Advance(SECOND));
    var b := LaggardLooks(s2, row, k, l, z, j, i);
    RunCons(s1, Advance(SECOND), b);
    RunAppend(s, a, [Advance(SECOND)] + b);
    TwoEntries(s.now, row, row);
    es := a + ([Advance(SECOND)] + b);
  }

  /** Whatever the other tasks, workers, channels and replicas are doing: if the last attempt of a task is
      under way while another worker lags, the task can be archived twice. */
  lemma LaggardDuplicates(s: Sys, row: Task, j: nat, i: nat, w: Work, k: nat, l: nat, z: Work) returns (es: seq<Event>)
    requires Scene(s, row, j, i, w, k, l, z) && Laggard(z) && row.retryCount == row.maxRetries
    requires w.Marked? || w.Calling? || (w.Returned? && !w.ok)
    requires w.t.callbackUrl != "" && Entries(s.dlq, row.id) == map[]
    ensures Quietly(es) && |Entries(Run(s, es).dlq, row.id)| == 2
  {
    var a := AttemptFails(s, row, j, i, w, k, l, z);
    var b := BothArchive(Run(s, a), LastRow(row), j, i, w.t, LastRow(row), k, l, z);
    RunAppend(s, a, b);
    es := a + b;
  }

  // ---- finding the workers ----

  lemma {:induction false} QueuesOnlyWait(q: seq<Task>, id: string, at: Place, kind: Kind)
    requires !kind.Waiting?
    ensures TallyQueue(q, id, at)[kind] == 0
  {
    if q != [] {
      QueuesOnlyWait(q[1..], id, at, kind);
    }
  }

  lemma {:induction false} FindAmong(ws: seq<Work>, id: string, kind: Kind) returns (i: nat)
    requires TallyWorkers(ws, id)[kind] > 0
    ensures i < |ws| && !ws[i].Idle? && ws[i].t.id == id && KindOf(ws[i]) == kind
  {
    if One(ws[0], id)[kind] > 0 {
      i := 0;
    } else {
      var n := FindAmong(ws[1..], id, kind);
      i := n + 1;
    }
  }

  lemma {:induction false} FindIn(rs: seq<Replica>, id: string, kind: Kind) returns (j: nat)
    requires Total(rs, id)[kind] > 0
    ensures j < |rs| && Tally(rs[j], id)[kind] > 0
  {
    if Tally(rs[0], id)[kind] > 0 {
      j := 0;
    } else {
      var n := FindIn(rs[1..], id, kind);
      j := n + 1;
    }
  }

  /** A copy that is past the queues is a worker's. */
  lemma FindWorker(s: Sys, id: string, kind: Kind) returns (j: nat, i: nat)
    requires Total(s.replicas, id)[kind] > 0 && !kind.Waiting?
    ensures HasWorker(s, j, i) && !WorkerAt(s, j, i).Idle? && WorkerAt(s, j, i).t.id == id
    ensures KindOf(WorkerAt(s, j, i)) == kind
  {
    j := FindIn(s.replicas, id, kind);
    var r := s.replicas[j];
    QueuesOnlyWait(Batch(r.ticker), id, InBatch, kind);
    QueuesOnlyWait(r.channel, id, InChannel, kind);
    i := FindAmong(r.workers, id, kind);
  }

  // ---- and without a laggard ----

  /** The last attempt or its outcome, with nobody lagging. */
  ghost predicate Clear(v: RA.View) {
    && RA.Invariant(v) && RA.Calm(v) && v.row.Some? && Lags(v.copies) == 0
    && var t := v.row.value;
       (t.status == Processing && t.retryCount == t.maxRetries) || t.status == Completed
       || (t.status == Failed && v.log.laggards == 0)
  }

  lemma ClearHoldsOne(v: RA.View)
    requires Clear(v)
    ensures |v.entries| <= 1
  {
    assert RA.Archived(v) && RA.Counts(v);
  }

  lemma ClearOwners(v: RA.View)
    requires Clear(v)
    ensures Waits(v.copies) == 0 && (v.row.value.status != Processing ==> Owners(v.copies) == 0)
  {
    assert RA.Owned(v);
  }

  lemma OutcomeKeepsClear(v: RA.View, ok: bool)
    requires v.row.Some? && Lags(v.copies) == 0
    ensures var w := RA.Answered(v, ok);
      w.row == v.row && Lags(w.copies) == 0 && w.crashes == v.crashes && w.log == v.log.(outcomes := w.log.outcomes)
  {
  }

  lemma SuccessKeepsClear(v: RA.View)
    requires v.row.Some? && Lags(v.copies) == 0
    ensures var w := RA.Succeeded(v);
      && w.row.Some? && w.row.value.status == Completed && Lags(w.copies) == 0
      && w.crashes == v.crashes && w.log == v.log.(changes := w.log.changes)
  {
  }

  lemma FailureKeepsClear(v: RA.View, delay: int)
    requires v.row.Some? && Lags(v.copies) == 0 && v.row.value.retryCount == v.row.value.maxRetries
    ensures var w := RA.FailedOnce(v, delay);
      && w.row.Some? && w.row.value.status == Failed && Lags(w.copies) == 0 && w.crashes == v.crashes
      && w.log.laggards == 0 && w.log.reschedules == v.log.reschedules && w.log.revived == v.log.revived
  {
    var w := RA.FailedOnce(v, delay);
    assert w.copies == v.copies - multiset{Lost} + multiset{FinalDel};
  }

  lemma AttemptKeepsClear(v: RA.View, l: RA.Label)
    requires Clear(v) && RA.Allowed(v, l) && RA.ByAttempt(l) && RA.Invariant(RA.Next(v, l))
    requires Waits(v.copies) == 0 && (v.row.value.status != Processing ==> Owners(v.copies) == 0)
    ensures Clear(RA.Next(v, l))
  {
    match l
    case Take =>
    case Pass(_) =>
    case Begin =>
    case Outcome(ok) => OutcomeKeepsClear(v, ok);
    case Success => SuccessKeepsClear(v);
    case Failure(delay) => FailureKeepsClear(v, delay);
  }

  lemma FlushKeepsClear(v: RA.View, kind: Kind)
    requires v.row.Some? && Lags(v.copies) == 0 && RA.Allowed(v, RA.Flush(kind))
    ensures Lags(RA.Flushed(v, kind).copies) == 0
  {
    RA.FlushSame(v, kind);
  }

  lemma LookKeepsClear(v: RA.View)
    requires Lags(v.copies) == 0
    ensures Lags(RA.Looked(v, true).copies) == 0
  {
  }

  lemma BuryKeepsClear(v: RA.View, rec: Task, final: bool, second: int)
    requires Lags(v.copies) == 0
    ensures Lags(RA.Buried(v, rec, final, second).copies) == 0
  {
  }

  lemma CleanUpKeepsClear(v: RA.View, l: RA.Label)
    requires Clear(v) && RA.Allowed(v, l) && (l.Flush? || l.Look? || l.Bury?) && RA.Invariant(RA.Next(v, l))
    ensures Clear(RA.Next(v, l))
  {
    match l
    case Flush(kind) => FlushKeepsClear(v, kind);
    case Look(final) => LookKeepsClear(RA.Cache(v));
    case Bury(rec, final, second) => BuryKeepsClear(v, rec, final, second);
  }

  lemma ClientKeepsClear(v: RA.View, l: RA.Label)
    requires v.row.Some? && Lags(v.copies) == 0 && RA.ByClients(l) && !l.Die? && !Termination.Renews(l)
    ensures var w := RA.Next(v, l);
      && w.row.Some? && w.row.value == v.row.value.(title := w.row.value.title, description := w.row.value.description)
      && Lags(w.copies) == 0 && w.crashes == v.crashes && w.log == v.log
  {
  }

  lemma MoveKeepsClear(v: RA.View, l: RA.Label)
    requires Clear(v) && RA.Allowed(v, l) && !l.Die? && !Termination.Renews(l)
    ensures Clear(RA.Next(v, l))
  {
    RA.NextKeeps(v, l);
    ClearOwners(v);
    if RA.ByAttempt(l) {
      AttemptKeepsClear(v, l);
    } else if RA.ByClients(l) {
      ClientKeepsClear(v, l);
    } else {
      CleanUpKeepsClear(v, l);
    }
  }

  /** No crash, no recovery, and no reschedule of the task. */
  predicate Orderly(es: seq<Event>, id: string) {
    Termination.Undisturbed(es, id) && forall n :: 0 <= n < |es| ==> !es[n].Crash?
  }

  lemma StepKeepsClear(s: Sys, e: Event, id: string)
    requires Consistent(s) && Clear(ViewOf(s, id)) && Termination.Spares(e, id) && !e.Crash?
    ensures Clear(ViewOf(Step(s, e), id))
  {
    StepSimulates(s, e, id);
    LabelShape(s, e, id);
    MoveKeepsClear(ViewOf(s, id), LabelOf(s, e, id));
  }

  lemma {:induction false} StaysClear(s: Sys, es: seq<Event>, id: string)
    requires Consistent(s) && Clear(ViewOf(s, id)) && Orderly(es, id)
    ensures Consistent(Run(s, es)) && Clear(ViewOf(Run(s, es), id))
  {
    if es != [] {
      var before, e := es[..|es| - 1], es[|es| - 1];
      StaysClear(s, before, id);
      StepConsistent(Run(s, before), e);
      assert Termination.Spares(es[|es| - 1], id);
      StepKeepsClear(Run(s, before), e, id);
    }
  }

  // ---- the exact condition ----

  ghost predicate ArchivedTwice(s: Sys, es: seq<Event>, id: string) {
    Orderly(es, id) && |Entries(Run(s, es).dlq, id)| > 1
  }

  /** The last attempt of a task whose callback can still fail, in a run so far without reschedule of
      the task, crash, or recovery that reverted it. */
  ghost predicate LastAttempt(s: Sys, id: string) {
    && Reachable(s) && id in s.tasks
    && History(s, id).reschedules == 0 && History(s, id).revived == 0 && s.crashes == 0
    && s.tasks[id].status == Processing && s.tasks[id].retryCount == s.tasks[id].maxRetries
    && s.tasks[id].callbackUrl != "" && Total(s.replicas, id)[Won] == 0
  }

  lemma QuietIsOrderly(es: seq<Event>, id: string)
    requires Quietly(es)
    ensures Orderly(es, id)
  {
  }

  lemma OwnerOf(s: Sys, id: string) returns (j: nat, i: nat)
    requires LastAttempt(s, id)
    ensures HasWorker(s, j, i) && !WorkerAt(s, j, i).Idle? && WorkerAt(s, j, i).t.id == id && s.tasks[id].id == id
    ensures id in s.logs
    ensures var w := WorkerAt(s, j, i);
      (w.Marked? || w.Calling? || (w.Returned? && !w.ok)) && w.t.callbackUrl != ""
    ensures Entries(s.dlq, id) == map[]
  {
    ReachableInvariant(s, id);
    var kind := OwnerKind(s, id);
    j, i := FindWorker(s, id, kind);
    OwnerWork(WorkerAt(s, j, i), kind);
    JobsAreCurrent(s, j, WorkerAt(s, j, i).t);
  }

  lemma OwnerKind(s: Sys, id: string) returns (kind: Kind)
    requires LastAttempt(s, id)
    ensures kind in {Lost, Running(false), Running(true)} && Total(s.replicas, id)[kind] > 0
    ensures Entries(s.dlq, id) == map[]
  {
    ReachableInvariant(s, id);
    LastView(ViewOf(s, id));
    var c := Total(s.replicas, id);
    kind := if c[Lost] > 0 then Lost else if c[Running(false)] > 0 then Running(false) else Running(true);
  }

  lemma OwnerWork(w: Work, kind: Kind)
    requires !w.Idle? && KindOf(w) == kind && kind in {Lost, Running(false), Running(true)}
    ensures w.Marked? || w.Calling? || (w.Returned? && !w.ok)
  {
  }

  lemma LastView(v: RA.View)
    requires RA.Invariant(v) && RA.Calm(v) && v.row.Some? && v.row.value.status == Processing && v.copies[Won] == 0
    ensures v.copies[Lost] > 0 || v.copies[Running(false)] > 0 || v.copies[Running(true)] > 0
    ensures v.entries == map[]
  {
    assert RA.Owned(v) && RA.Archived(v) && RA.Counts(v);
  }

  lemma LaggardOf(s: Sys, id: string) returns (k: nat, l: nat)
    requires Lags(Total(s.replicas, id)) > 0
    ensures HasWorker(s, k, l) && Laggard(WorkerAt(s, k, l)) && WorkerAt(s, k, l).t.id == id
  {
    var c := Total(s.replicas, id);
    var kind := if c[Lagging(false)] > 0 then Lagging(false) else Lagging(true);
    k, l := FindWorker(s, id, kind);
    LaggardWork(WorkerAt(s, k, l), kind);
  }

  lemma LaggardWork(w: Work, kind: Kind)
    requires !w.Idle? && KindOf(w) == kind && kind.Lagging?
    ensures Laggard(w)
  {
  }

  lemma WithLaggard(s: Sys, id: string) returns (es: seq<Event>)
    requires LastAttempt(s, id) && Lags(Total(s.replicas, id)) > 0
    ensures ArchivedTwice(s, es, id)
  {
    var j, i := OwnerOf(s, id);
    var k, l := LaggardOf(s, id);
    es := LaggardDuplicates(s, s.tasks[id], j, i, WorkerAt(s, j, i), k, l, WorkerAt(s, k, l));
    QuietIsOrderly(es, id);
  }

  lemma WithoutLaggard(s: Sys, es: seq<Event>, id: string)
    requires LastAttempt(s, id) && Lags(Total(s.replicas, id)) == 0
    ensures !ArchivedTwice(s, es, id)
  {
    if Orderly(es, id) {
      ReachableInvariant(s, id);
      StaysClear(s, es, id);
      ClearHoldsOne(ViewOf(Run(s, es), id));
    }
  }

  /** The exact reach of the dead-letter guarantee, in every reachable state: once the last attempt of a
      task is under way, some continuation without crash, recovery and reschedule archives the task twice
      if and only if some worker, of whatever replica, still lags behind an earlier failure of it. */
  lemma TwiceIffLaggard(s: Sys, id: string)
    requires LastAttempt(s, id)
    ensures (exists es :: ArchivedTwice(s, es, id)) <==> Lags(Total(s.replicas, id)) > 0
  {
    if Lags(Total(s.replicas, id)) > 0 {
      var es := WithLaggard(s, id);
    } else {
      forall es ensures !ArchivedTwice(s, es, id) {
        WithoutLaggard(s, es, id);
      }
    }
  }
}
