/** What holds of every run of the task scheduler: any interleaving of clients, tickers, workers,
    crashes and starts of processes, with any number of replicas and any outcome of every callback. */
module SchedulerTheorems {
  import opened Options
  import opened Tasks
  import opened Scheduler
  import opened TallyLaws
  import opened Simulation
  import opened SchedulerSteps
  import RA = RetryAutomaton

  lemma {:induction false} RunInvariant(s0: Sys, es: seq<Event>, id: string)
    requires Initial(s0)
    ensures Consistent(Run(s0, es)) && RA.Invariant(ViewOf(Run(s0, es), id))
  {
    if es == [] {
      InitialInvariant(s0, id);
    } else {
      var before, e := es[..|es| - 1], es[|es| - 1];
      var s := Run(s0, before);
      RunInvariant(s0, before, id);
      StepConsistent(s, e);
      StepSimulates(s, e, id);
      RA.NextKeeps(ViewOf(s, id), LabelOf(s, e, id));
    }
  }

  lemma FreshTotal(rs: seq<Replica>, id: string)
    requires forall j :: 0 <= j < |rs| ==> Scheduler.Fresh(rs[j])
    ensures Total(rs, id) == multiset{}
  {
    forall j | 0 <= j < |rs| ensures Tallies(rs, id)[j] == multiset{} {
      TallyIdle(rs[j].workers, id);
    }
    SumNothing(Tallies(rs, id));
    TotalIsSum(rs, id);
  }

  lemma InitialInvariant(s: Sys, id: string)
    requires Initial(s)
    ensures Consistent(s) && RA.Invariant(ViewOf(s, id))
  {
    FreshTotal(s.replicas, id);
    assert ReplicasOk(s.tasks, s.replicas);
  }

  lemma ReachableInvariant(s: Sys, id: string)
    requires Reachable(s)
    ensures Consistent(s) && RA.Invariant(ViewOf(s, id))
  {
    var s0, es :| Initial(s0) && s == Run(s0, es);
    RunInvariant(s0, es, id);
  }

  // ---- exclusive ownership ----

  /** A QUEUED row has at most one copy waiting for a worker, a PROCESSING row at most one worker, and
      no other row any copy that could still run or record a callback. */
  predicate Exclusive(s: Sys, id: string) {
    id in s.tasks ==>
      var c := Total(s.replicas, id);
      var st := s.tasks[id].status;
      && Waits(c) <= (if st == Queued then 1 else 0)
      && Owners(c) <= (if st == Processing then 1 else 0)
  }

  /** And whatever is claimed has its owner. */
  predicate Exact(s: Sys, id: string) {
    id in s.tasks ==>
      var c := Total(s.replicas, id);
      var st := s.tasks[id].status;
      && Waits(c) == (if st == Queued then 1 else 0)
      && Owners(c) == (if st == Processing then 1 else 0)
  }

  ghost predicate AllExclusive(s: Sys) {
    forall id :: Exclusive(s, id)
  }

  ghost predicate AllExact(s: Sys) {
    forall id :: Exact(s, id)
  }

  /** Somebody, in whatever process, may still run or record a callback of this row in flight. */
  predicate Held(s: Sys, id: string) {
    id in s.tasks && InFlight(s.tasks[id].status) && Executable(Total(s.replicas, id)) > 0
  }

  /** Neither a reschedule of a row that somebody holds, nor a start whose recovery meets one. */
  ghost predicate Safe(s: Sys, e: Event) {
    match e
    case Edit(id, patch) => patch.executeAt.Some? ==> !Held(s, id)
    case Recover(j) => Enabled(s, e) ==> forall id :: !Held(s, id)
    case _ => true
  }

  /** Nor a crash of a process that holds claimed work. */
  ghost predicate Gentle(s: Sys, e: Event) {
    Safe(s, e) && (e.Crash? && Enabled(s, e) ==> forall id :: Executable(Tally(s.replicas[e.j], id)) == 0)
  }

  ghost predicate AllSafe(s0: Sys, es: seq<Event>) {
    forall n :: 0 <= n < |es| ==> Safe(Run(s0, es[..n]), es[n])
  }

  ghost predicate AllGentle(s0: Sys, es: seq<Event>) {
    forall n :: 0 <= n < |es| ==> Gentle(Run(s0, es[..n]), es[n])
  }

  /** Every task's automaton is in a state where it was never revived. */
  ghost predicate Sober(s: Sys) {
    Consistent(s) && forall id :: RA.Invariant(ViewOf(s, id)) && History(s, id).revived == 0
  }

  lemma LabelShape(s: Sys, e: Event, id: string)
    ensures var l := LabelOf(s, e, id);
      && (l.Change? <==> e.Edit? && e.id == id) && (l.Change? ==> l.patch == e.patch)
      && (l.Revert? <==> e.Recover? && Enabled(s, e))
      && (l.Die? <==> e.Crash? && Enabled(s, e)) && (l.Die? ==> l.lost == Tally(s.replicas[e.j], id))
  {
  }

  lemma SafeForOne(s: Sys, e: Event, id: string)
    ensures RA.Revives(ViewOf(s, id), LabelOf(s, e, id)) <==>
      Held(s, id) && ((e.Recover? && Enabled(s, e)) || (e.Edit? && e.id == id && e.patch.executeAt.Some?))
  {
    LabelShape(s, e, id);
  }

  lemma SafeIs(s: Sys, e: Event)
    ensures Safe(s, e) <==> forall id :: !RA.Revives(ViewOf(s, id), LabelOf(s, e, id))
  {
    forall id ensures RA.Revives(ViewOf(s, id), LabelOf(s, e, id)) <==>
      Held(s, id) && ((e.Recover? && Enabled(s, e)) || (e.Edit? && e.id == id && e.patch.executeAt.Some?))
    {
      SafeForOne(s, e, id);
    }
    if !Safe(s, e) {
      var id :| Held(s, id) && (e.Recover? || e.id == id);
      assert RA.Revives(ViewOf(s, id), LabelOf(s, e, id));
    }
  }

  lemma GentleIs(s: Sys, e: Event)
    ensures Gentle(s, e) <==>
      forall id :: !RA.Revives(ViewOf(s, id), LabelOf(s, e, id)) && !RA.Strands(LabelOf(s, e, id))
  {
    SafeIs(s, e);
    forall id ensures RA.Strands(LabelOf(s, e, id)) <==>
      e.Crash? && Enabled(s, e) && Executable(Tally(s.replicas[e.j], id)) > 0
    {
      LabelShape(s, e, id);
    }
  }

  lemma ExclusiveView(s: Sys, id: string)
    ensures Exclusive(s, id) <==> RA.AtMostOne(ViewOf(s, id))
    ensures Exact(s, id) <==> RA.ExactlyOne(ViewOf(s, id))
  {
  }

  lemma ExclusiveForOne(s: Sys, e: Event, id: string)
    requires Sober(s)
    ensures Exclusive(Step(s, e), id) <==> !RA.Revives(ViewOf(s, id), LabelOf(s, e, id))
    ensures History(Step(s, e), id).revived == 0 <==> !RA.Revives(ViewOf(s, id), LabelOf(s, e, id))
    ensures RA.Invariant(ViewOf(Step(s, e), id))
  {
    StepSimulates(s, e, id);
    RA.ExclusiveIff(ViewOf(s, id), LabelOf(s, e, id));
    RA.NextKeeps(ViewOf(s, id), LabelOf(s, e, id));
    ExclusiveView(Step(s, e), id);
  }

  /** One owner at most after a step exactly when the step was safe: crashes, restarts of processes that
      are alone, edits of title or description, and every step of tickers and workers are. */
  lemma ExclusiveIffSafe(s: Sys, e: Event)
    requires Sober(s)
    ensures Safe(s, e) <==> AllExclusive(Step(s, e))
    ensures Safe(s, e) <==> Sober(Step(s, e))
  {
    StepConsistent(s, e);
    SafeIs(s, e);
    forall id ensures Exclusive(Step(s, e), id) <==> !RA.Revives(ViewOf(s, id), LabelOf(s, e, id))
              ensures History(Step(s, e), id).revived == 0 <==> !RA.Revives(ViewOf(s, id), LabelOf(s, e, id))
              ensures RA.Invariant(ViewOf(Step(s, e), id))
    {
      ExclusiveForOne(s, e, id);
    }
  }

  /** Exactly one owner after a step exactly when the step was also no crash that took one away. */
  lemma ExactIffGentle(s: Sys, e: Event)
    requires Sober(s) && AllExact(s)
    ensures Gentle(s, e) <==> AllExact(Step(s, e))
  {
    GentleIs(s, e);
    forall id ensures Exact(Step(s, e), id) <==>
      !RA.Revives(ViewOf(s, id), LabelOf(s, e, id)) && !RA.Strands(LabelOf(s, e, id))
    {
      StepSimulates(s, e, id);
      ExclusiveView(s, id);
      RA.ExactIff(ViewOf(s, id), LabelOf(s, e, id));
      ExclusiveView(Step(s, e), id);
    }
  }

  lemma InitialSober(s: Sys)
    requires Initial(s)
    ensures Sober(s) && AllExact(s)
  {
    forall id ensures RA.Invariant(ViewOf(s, id)) {
      InitialInvariant(s, id);
    }
    InitialInvariant(s, "");
  }

  lemma {:induction false} SafeRun(s0: Sys, es: seq<Event>)
    requires Initial(s0) && AllSafe(s0, es)
    ensures Sober(Run(s0, es))
  {
    if es == [] {
      InitialSober(s0);
    } else {
      var before, e := es[..|es| - 1], es[|es| - 1];
      assert forall n :: 0 <= n <= |before| ==> es[..n] == before[..n];
      assert before[..|before|] == before;
      SafeRun(s0, before);
      ExclusiveIffSafe(Run(s0, before), e);
    }
  }

  lemma SoberIsExclusive(s: Sys)
    requires Sober(s)
    ensures AllExclusive(s)
  {
    forall id ensures Exclusive(s, id) {
      ExclusiveView(s, id);
      assert RA.Owned(ViewOf(s, id));
    }
  }

  /** SKIP LOCKED claiming, the channel and the worker loop together give every task one owner at most,
      over every run whose reschedules and starts are safe, however often processes crash; and the first
      step that is not safe gives some task a second one. */
  lemma ExclusiveOwnership(s0: Sys, es: seq<Event>, e: Event)
    requires Initial(s0) && AllSafe(s0, es)
    ensures AllExclusive(Run(s0, es))
    ensures Safe(Run(s0, es), e) <==> AllExclusive(Step(Run(s0, es), e))
  {
    SafeRun(s0, es);
    SoberIsExclusive(Run(s0, es));
    ExclusiveIffSafe(Run(s0, es), e);
  }

  lemma {:induction false} GentleRun(s0: Sys, es: seq<Event>)
    requires Initial(s0) && AllGentle(s0, es)
    ensures Sober(Run(s0, es)) && AllExact(Run(s0, es))
  {
    if es == [] {
      InitialSober(s0);
    } else {
      var before, e := es[..|es| - 1], es[|es| - 1];
      assert forall n :: 0 <= n <= |before| ==> es[..n] == before[..n];
      assert before[..|before|] == before;
      GentleRun(s0, before);
      ExclusiveIffSafe(Run(s0, before), e);
      ExactIffGentle(Run(s0, before), e);
    }
  }

  /** The bijection: QUEUED rows are the waiting copies and PROCESSING rows the busy workers, over every
      gentle run; and the first step that is not gentle, such as the crash of a process with work in
      hand, breaks it. */
  lemma ExactOwnership(s0: Sys, es: seq<Event>, e: Event)
    requires Initial(s0) && AllGentle(s0, es)
    ensures AllExact(Run(s0, es))
    ensures Gentle(Run(s0, es), e) <==> AllExact(Step(Run(s0, es), e))
  {
    GentleRun(s0, es);
    ExactIffGentle(Run(s0, es), e);
  }

  lemma RecoverOne(s: Sys, j: nat, id: string)
    requires Consistent(s) && RA.Invariant(ViewOf(s, id)) && History(s, id).revived == 0
    requires Enabled(s, Recover(j)) && !Held(s, id)
    ensures Exact(Step(s, Recover(j)), id)
  {
    RecoverStep(s, j);
    ViewAfterRecover(s, j, id);
    RA.RevertRestores(ViewOf(s, id));
    ExclusiveView(DoRecover(s, j), id);
  }

  /** Crash recovery: however many processes crashed with work in hand, a safe start brings the bijection
      back.  No row is lost, terminal rows are as they were, and every stranded row can be claimed again. */
  lemma RecoveryRestores(s0: Sys, es: seq<Event>, j: nat)
    requires Initial(s0) && AllSafe(s0, es)
    requires Enabled(Run(s0, es), Recover(j)) && Safe(Run(s0, es), Recover(j))
    ensures var s := Run(s0, es);
      var s' := Step(s, Recover(j));
      && AllExact(s') && s'.tasks.Keys == s.tasks.Keys
      && forall id :: id in s.tasks ==>
        s'.tasks[id] == if InFlight(s.tasks[id].status) then s.tasks[id].(status := Pending) else s.tasks[id]
  {
    var s := Run(s0, es);
    SafeRun(s0, es);
    forall id ensures Exact(Step(s, Recover(j)), id) {
      RecoverOne(s, j, id);
    }
    assert Step(s, Recover(j)).tasks == RecoverTable(s.tasks);
  }

  lemma {:induction false} ReplicaCount(s0: Sys, es: seq<Event>)
    ensures |Run(s0, es).replicas| == |s0.replicas|
  {
    if es != [] {
      ReplicaCount(s0, es[..|es| - 1]);
    }
  }

  lemma DownIsEmpty(s: Sys, id: string)
    requires Consistent(s) && forall j :: 0 <= j < |s.replicas| ==> s.replicas[j].ticker.Down?
    ensures Total(s.replicas, id) == multiset{}
  {
    forall j | 0 <= j < |s.replicas| ensures Quiet(s.replicas[j]) {
      assert ReplicaOk(s.tasks, s.replicas[j]);
    }
    QuietTotal(s.replicas, id);
  }

  lemma AloneNeverRevives(s: Sys, j: nat, id: string)
    requires Consistent(s) && |s.replicas| == 1 && Enabled(s, Recover(j))
    ensures !Held(s, id)
  {
    DownIsEmpty(s, id);
  }

  lemma NobodyWorks(s: Sys, e: Event)
    requires ByWorker(e) && |s.replicas| == 1 && s.replicas[0].ticker.Down? && Vacant(s.replicas[0])
    ensures Step(s, e) == s
  {
  }

  lemma OthersKeepTicker(s: Sys, e: Event)
    requires !ByWorker(e) && !e.Recover? && |s.replicas| == 1 && s.replicas[0].ticker.Down?
    ensures Step(s, e).replicas[0].ticker.Down?
  {
  }

  lemma StillUp(s: Sys, e: Event)
    requires |s.replicas| == 1 && ReplicaOk(s.tasks, s.replicas[0]) && !Step(s, e).replicas[0].ticker.Down?
    ensures s.replicas[0].ticker.Down? ==> e == Recover(0)
    ensures !e.Crash? || !Enabled(s, e)
  {
    if s.replicas[0].ticker.Down? {
      if ByWorker(e) {
        NobodyWorks(s, e);
      } else if !e.Recover? {
        OthersKeepTicker(s, e);
      }
    }
  }

  /** One process: whatever the crashes, restarts and edits, a task is revived by nothing but reschedules;
      until then it has one owner at most, and exactly one for every claim whenever the process is up. */
  lemma {:induction false} SingleProcessOwnership(s0: Sys, es: seq<Event>, id: string)
    requires Initial(s0) && |s0.replicas| == 1
    ensures var s := Run(s0, es);
      && History(s, id).revived <= History(s, id).reschedules
      && (History(s, id).revived == 0 ==> Exclusive(s, id))
      && (History(s, id).revived == 0 && |s.replicas| == 1 && !s.replicas[0].ticker.Down? ==> Exact(s, id))
  {
    RunInvariant(s0, es, id);
    ExclusiveView(Run(s0, es), id);
    if es == [] {
      InitialSober(s0);
    } else {
      var before, e := es[..|es| - 1], es[|es| - 1];
      ReplicaCount(s0, before);
      RunInvariant(s0, before, id);
      SingleProcessOwnership(s0, before, id);
      assert Run(s0, es) == Step(Run(s0, before), e);
      SingleStep(Run(s0, before), e, id);
    }
  }

  lemma SingleStep(s: Sys, e: Event, id: string)
    requires Consistent(s) && RA.Invariant(ViewOf(s, id)) && |s.replicas| == 1
    requires History(s, id).revived <= History(s, id).reschedules
    requires History(s, id).revived == 0 && !s.replicas[0].ticker.Down? ==> Exact(s, id)
    ensures var s' := Step(s, e);
      && History(s', id).revived <= History(s', id).reschedules
      && (History(s', id).revived == 0 && !s'.replicas[0].ticker.Down? ==> Exact(s', id))
  {
    var v, l := ViewOf(s, id), LabelOf(s, e, id);
    StepSimulates(s, e, id);
    LabelShape(s, e, id);
    if e.Recover? && Enabled(s, e) {
      AloneNeverRevives(s, e.j, id);
    }
    RA.RevivedGrows(v, l);
    ReschedulesCount(v, l);
    if History(Step(s, e), id).revived == 0 && !Step(s, e).replicas[0].ticker.Down? {
      SingleStepExact(s, e, id);
    }
  }

  lemma ReschedulesCount(v: RA.View, l: RA.Label)
    requires RA.Untouched(v) && !(l.Revert? && RA.Revives(v, l)) && v.log.revived <= v.log.reschedules
    ensures RA.Next(v, l).log.revived <= RA.Next(v, l).log.reschedules
  {
    if !l.Change? && !l.Revert? {
      RA.OthersDoNotRevive(v, l);
    }
  }

  lemma SingleStepExact(s: Sys, e: Event, id: string)
    requires Consistent(s) && RA.Invariant(ViewOf(s, id)) && |s.replicas| == 1
    requires History(s, id).revived == 0 && History(Step(s, e), id).revived == 0 && !Step(s, e).replicas[0].ticker.Down?
    requires !s.replicas[0].ticker.Down? ==> Exact(s, id)
    ensures Exact(Step(s, e), id)
  {
    var v, l := ViewOf(s, id), LabelOf(s, e, id);
    StepSimulates(s, e, id);
    LabelShape(s, e, id);
    StillUp(s, e);
    RA.ExclusiveIff(v, l);
    ExclusiveView(s, id);
    ExclusiveView(Step(s, e), id);
    if s.replicas[0].ticker.Down? {
      RA.RevertRestores(v);
    } else {
      RA.ExactIff(v, l);
    }
  }

  /** In every run whatever: executable copies, plus one if the row may be claimed, never exceed one
      plus the number of times the row was revived, and each revival was a reschedule or a recovery. */
  lemma CopiesBounded(s: Sys, id: string)
    requires Reachable(s) && id in s.tasks
    ensures var claimable := if s.tasks[id].status == Pending then 1 else 0;
      && Executable(Total(s.replicas, id)) + claimable <= 1 + History(s, id).revived
      && History(s, id).revived <= History(s, id).reschedules + s.recoveries
  {
    ReachableInvariant(s, id);
    assert RA.Tokens(ViewOf(s, id));
  }

  // ---- retries ----

  /** While a task was never revived its callbacks are a run of the retry automaton: F^k or F^k S,
      and status and retry count are read off that history. */
  lemma RetryHistory(s: Sys, id: string)
    requires Reachable(s) && id in s.tasks && History(s, id).revived == 0
    requires History(s, id).aborted == 0
    ensures var t, h, c := s.tasks[id], History(s, id).outcomes, Total(s.replicas, id);
      && |h| <= t.maxRetries + 1
      && (forall n :: 0 <= n < |h| && h[n] ==> n == |h| - 1)
      && (t.status == Completed <==> |h| > 0 && h[|h| - 1] && c[Won] == 0)
      && (t.status == Failed <==> |h| == t.maxRetries + 1 && (forall n :: 0 <= n < |h| ==> !h[n]) && c[Lost] == 0)
      && t.retryCount == |h| - (if |h| > 0 && h[|h| - 1] then 1 else 0) - c[Lost]
  {
    ReachableInvariant(s, id);
    ViewHistory(ViewOf(s, id));
  }

  lemma ViewHistory(v: RA.View)
    requires RA.Counted(v) && RA.Owned(v) && RA.Limits(v) && v.row.Some? && v.log.revived == 0 && v.log.aborted == 0
    ensures var t, h := v.row.value, v.log.outcomes;
      && |h| <= t.maxRetries + 1
      && (forall n :: 0 <= n < |h| && h[n] ==> n == |h| - 1)
      && (t.status == Completed <==> |h| > 0 && h[|h| - 1] && v.copies[Won] == 0)
      && (t.status == Failed <==>
            |h| == t.maxRetries + 1 && (forall n :: 0 <= n < |h| ==> !h[n]) && v.copies[Lost] == 0)
      && t.retryCount == |h| - (if |h| > 0 && h[|h| - 1] then 1 else 0) - v.copies[Lost]
  {
  }

  /** Crashes repeat at most one callback each: a task starts at most maxRetries + 1 + crashes of them. */
  lemma CallbacksBounded(s: Sys, id: string)
    requires Reachable(s) && id in s.tasks && History(s, id).revived == 0
    ensures History(s, id).starts <= s.tasks[id].maxRetries + 1 + s.crashes
  {
    ReachableInvariant(s, id);
    var v := ViewOf(s, id);
    assert RA.Counted(v) && RA.Owned(v) && RA.Limits(v);
  }

  /** Without crashes the number of status changes is a function of the row, at most three a try. */
  lemma StatusChanges(s: Sys, id: string)
    requires Reachable(s) && id in s.tasks && History(s, id).revived == 0 && s.crashes == 0
    ensures var t := s.tasks[id];
      && History(s, id).changes <= 3 * (t.maxRetries + 1)
      && (History(s, id).changes == 3 * (t.maxRetries + 1) ==> t.status == Completed || t.status == Failed)
      && History(s, id).changes / 3 == t.retryCount + (if t.status == Completed then 1 else 0)
  {
    ReachableInvariant(s, id);
    var v := ViewOf(s, id);
    assert RA.Counted(v) && RA.Owned(v) && RA.Limits(v);
  }

  /** Backoff over a whole run: a callback that starts after k recorded failures starts at least
      4 + 8 + ... + 2^(k+1) seconds after the first of them, up to the 32 retries that int64 allows. */
  lemma BackoffRespected(s: Sys, id: string)
    requires Reachable(s) && id in s.tasks && History(s, id).revived == 0
    requires s.tasks[id].status == Processing && 1 <= s.tasks[id].retryCount <= 32
    ensures History(s, id).firstFailure.Some? &&
      s.now >= History(s, id).firstFailure.value + (Pow2(s.tasks[id].retryCount + 2) - 4) * SECOND
  {
    ReachableInvariant(s, id);
    var v := ViewOf(s, id);
    assert RA.Spaced(v);
  }

  // ---- cache ----

  /** An id whose key was removed since the last commit is never misread: a terminal status is read
      exactly when it is there, and an unfinished record differs at most in which unfinished status. */
  lemma CacheStaleness(s: Sys, id: string)
    requires Reachable(s) && id in s.tasks && id !in s.dirty
    ensures var got := Lookup(s, id);
      && got.Some? && got.value == s.tasks[id].(status := got.value.status)
      && (got.value.status in {Completed, Failed} || s.tasks[id].status in {Completed, Failed} ==>
            got.value == s.tasks[id])
  {
    ReachableInvariant(s, id);
    assert RA.Fresh(ViewOf(s, id));
  }

  // ---- dead-letter table ----

  /** Whatever crashed and was rescheduled at rest: every dead-letter entry of a task that was never revived
      records exactly maxRetries + 1 failures.  Without reschedules of the task and without crashes it has
      entries only if its row is FAILED, and there is never more than one besides one for every laggard at
      the final failure; and a FAILED task has an entry as soon as no worker is any more between recording
      the final failure and archiving it. */
  lemma DeadLetters(s: Sys, id: string)
    requires Reachable(s) && id in s.tasks && History(s, id).revived == 0
    ensures var entries, g, c := Entries(s.dlq, id), History(s, id), Total(s.replicas, id);
      && (forall sec :: sec in entries ==> Exhausted(entries[sec]))
      && (g.reschedules == 0 && s.crashes == 0 ==>
            && (entries != map[] ==> s.tasks[id].status == Failed)
            && |entries| <= 1 + g.laggards
            && (s.tasks[id].status == Failed && c[FinalDel] + c[FinalChk] + c[AtDlq(true, true)] == 0 ==>
                  entries != map[]))
  {
    ReachableInvariant(s, id);
    var v := ViewOf(s, id);
    assert RA.Archived(v) && RA.GoodRecords(v) && RA.Counts(v) && RA.Tokens(v);
  }

  // ---- the channel ----

  /** The ticker never claims more than the channel can take, so the bypass branch is dead code. */
  lemma NeverSaturated(s: Sys, j: nat)
    requires Reachable(s) && Enabled(s, Enqueue(j))
    ensures var r := s.replicas[j];
      |r.channel| + |Batch(r.ticker)| <= r.capacity && |r.channel| < r.capacity
  {
    ReachableInvariant(s, "");
    assert ReplicaOk(s.tasks, s.replicas[j]);
  }

  /** The records that a replica holds outside the table. */
  ghost predicate Holding(r: Replica, t: Task) {
    || t in Batch(r.ticker)
    || t in r.channel
    || exists i :: 0 <= i < |r.workers| && !r.workers[i].Idle? && r.workers[i].t == t
  }

  /** In every run, with reschedules and crashes: every claimed record, in the batch, in the channel or
      with a worker, is the current row in URL, payload, retry limit and creation time. */
  lemma JobsAreCurrent(s: Sys, j: nat, t: Task)
    requires Reachable(s) && j < |s.replicas| && Holding(s.replicas[j], t)
    ensures t.id in s.tasks && SameJob(t, s.tasks[t.id])
  {
    ReachableInvariant(s, "");
    var r := s.replicas[j];
    assert ReplicaOk(s.tasks, r);
    if i :| 0 <= i < |r.workers| && !r.workers[i].Idle? && r.workers[i].t == t {
      assert WorkCurrent(s.tasks, r.workers[i]);
    }
  }

  // ---- draining ----

  predicate Quiet(r: Replica) {
    r.channel == [] && Batch(r.ticker) == [] && forall i :: 0 <= i < |r.workers| ==> r.workers[i] == Idle
  }

  lemma QuietTotal(rs: seq<Replica>, id: string)
    requires forall j :: 0 <= j < |rs| ==> Quiet(rs[j])
    ensures Total(rs, id) == multiset{}
  {
    forall j | 0 <= j < |rs| ensures Tallies(rs, id)[j] == multiset{} {
      TallyIdle(rs[j].workers, id);
    }
    SumNothing(Tallies(rs, id));
    TotalIsSum(rs, id);
  }

  /** No process has crashed since the last start of one. */
  ghost predicate Steady(s0: Sys, es: seq<Event>) {
    es == [] ||
    var before, e := es[..|es| - 1], es[|es| - 1];
    (Enabled(Run(s0, before), e) && e.Recover?) || (Steady(s0, before) && !(Enabled(Run(s0, before), e) && e.Crash?))
  }

  /** The states that such runs reach: whatever was rescheduled, recovered, or crashed before that. */
  ghost predicate Recovered(s: Sys) {
    exists s0, es :: Initial(s0) && s == Run(s0, es) && Steady(s0, es)
  }

  lemma {:induction false} UncrashedSteady(s0: Sys, es: seq<Event>)
    requires Initial(s0) && Run(s0, es).crashes == 0
    ensures Steady(s0, es)
  {
    if es != [] {
      var before, e := es[..|es| - 1], es[|es| - 1];
      var s := Run(s0, before);
      RunInvariant(s0, before, "");
      StepSimulates(s, e, "");
      LabelShape(s, e, "");
      RA.CrashesCount(ViewOf(s, ""), LabelOf(s, e, ""));
      UncrashedSteady(s0, before);
    }
  }

  /** In particular every reachable state in which nothing has crashed. */
  lemma UncrashedRecovered(s: Sys)
    requires Reachable(s) && s.crashes == 0
    ensures Recovered(s)
  {
    var s0, es :| Initial(s0) && s == Run(s0, es);
    UncrashedSteady(s0, es);
  }

  lemma {:induction false} SteadyAttended(s0: Sys, es: seq<Event>, id: string)
    requires Initial(s0) && Steady(s0, es)
    ensures RA.Attended(ViewOf(Run(s0, es), id))
  {
    if es != [] {
      var before, e := es[..|es| - 1], es[|es| - 1];
      var s := Run(s0, before);
      RunInvariant(s0, before, id);
      StepSimulates(s, e, id);
      LabelShape(s, e, id);
      if !(Enabled(s, e) && e.Recover?) {
        SteadyAttended(s0, before, id);
      }
      RA.NextAttends(ViewOf(s, id), LabelOf(s, e, id));
    }
  }

  lemma RecoveredHeld(s: Sys, id: string)
    requires Recovered(s) && id in s.tasks && InFlight(s.tasks[id].status)
    ensures Held(s, id)
  {
    var s0, es :| Initial(s0) && s == Run(s0, es) && Steady(s0, es);
    SteadyAttended(s0, es, id);
  }

  /** Every row in flight is held by somebody. */
  ghost predicate AllHeld(s: Sys) {
    forall id :: id in s.tasks && InFlight(s.tasks[id].status) ==> Held(s, id)
  }

  /** So it is whenever nothing has crashed since the last start, and as long as nothing has crashed. */
  lemma RecoveredAllHeld(s: Sys)
    requires Recovered(s) || (Reachable(s) && s.crashes == 0)
    ensures AllHeld(s)
  {
    if !Recovered(s) {
      UncrashedRecovered(s);
    }
    forall id | id in s.tasks && InFlight(s.tasks[id].status) ensures Held(s, id) {
      RecoveredHeld(s, id);
    }
  }

  /** Draining: if nothing has crashed since the last start, then once every channel is empty and every
      worker idle no row is left QUEUED or PROCESSING, whatever was rescheduled or recovered on the way. */
  lemma Drained(s: Sys, id: string)
    requires Recovered(s) && id in s.tasks && forall j :: 0 <= j < |s.replicas| ==> Quiet(s.replicas[j])
    ensures !InFlight(s.tasks[id].status)
  {
    QuietTotal(s.replicas, id);
    if InFlight(s.tasks[id].status) {
      RecoveredHeld(s, id);
    }
  }

  /** One process has not crashed since its last start whenever it is up. */
  lemma {:induction false} UpIsSteady(s0: Sys, es: seq<Event>)
    requires Initial(s0) && |s0.replicas| == |Run(s0, es).replicas| == 1 && !Run(s0, es).replicas[0].ticker.Down?
    ensures Steady(s0, es)
  {
    if es != [] {
      var before, e := es[..|es| - 1], es[|es| - 1];
      var s := Run(s0, before);
      ReplicaCount(s0, before);
      RunInvariant(s0, before, "");
      assert ReplicaOk(s.tasks, s.replicas[0]);
      StillUp(s, e);
      if s.replicas[0].ticker.Down? {
        assert Enabled(s, e);
      } else {
        UpIsSteady(s0, before);
      }
    }
  }

  // ---- how much is in flight ----

  function Slots(rs: seq<Replica>): nat {
    if rs == [] then 0 else rs[0].capacity + |rs[0].workers| + Slots(rs[1..])
  }

  function QueueIds(q: seq<Task>): set<string> {
    set t | t in q :: t.id
  }

  function WorkerIds(ws: seq<Work>): set<string> {
    set w | w in ws && !w.Idle? :: w.t.id
  }

  function ReplicaIds(r: Replica): set<string> {
    QueueIds(Batch(r.ticker)) + QueueIds(r.channel) + WorkerIds(r.workers)
  }

  function AllIds(rs: seq<Replica>): set<string> {
    if rs == [] then {} else ReplicaIds(rs[0]) + AllIds(rs[1..])
  }

  lemma {:induction false} QueueIdsBound(q: seq<Task>)
    ensures |QueueIds(q)| <= |q|
    ensures forall id, at :: TallyQueue(q, id, at) != multiset{} ==> id in QueueIds(q)
  {
    if q != [] {
      QueueIdsBound(q[1..]);
      assert QueueIds(q) == {q[0].id} + QueueIds(q[1..]);
    }
  }

  lemma {:induction false} WorkerIdsBound(ws: seq<Work>)
    ensures |WorkerIds(ws)| <= |ws|
    ensures forall id :: TallyWorkers(ws, id) != multiset{} ==> id in WorkerIds(ws)
  {
    if ws != [] {
      WorkerIdsBound(ws[1..]);
      assert WorkerIds(ws) == (if ws[0].Idle? then {} else {ws[0].t.id}) + WorkerIds(ws[1..]);
    }
  }

  lemma ReplicaIdsBound(r: Replica)
    requires Backpressure(r)
    ensures |ReplicaIds(r)| <= r.capacity + |r.workers|
    ensures forall id :: Tally(r, id) != multiset{} ==> id in ReplicaIds(r)
  {
    QueueIdsBound(Batch(r.ticker));
    QueueIdsBound(r.channel);
    WorkerIdsBound(r.workers);
  }

  lemma {:induction false} AllIdsBound(rs: seq<Replica>)
    requires forall j :: 0 <= j < |rs| ==> Backpressure(rs[j])
    ensures |AllIds(rs)| <= Slots(rs)
    ensures forall id :: Total(rs, id) != multiset{} ==> id in AllIds(rs)
  {
    if rs != [] {
      AllIdsBound(rs[1..]);
      ReplicaIdsBound(rs[0]);
    }
  }

  lemma HeldBounded(s: Sys)
    requires Reachable(s)
    ensures |set id | id in s.tasks && Held(s, id)| <= Slots(s.replicas)
  {
    var held := set id | id in s.tasks && Held(s, id);
    ReachableInvariant(s, "");
    forall j | 0 <= j < |s.replicas| ensures Backpressure(s.replicas[j]) {
      assert ReplicaOk(s.tasks, s.replicas[j]);
    }
    AllIdsBound(s.replicas);
    SubsetCard(held, AllIds(s.replicas));
  }

  /** Backpressure bounds the work in flight: in every run whatever, at most one task per channel slot and
      per worker is held; and so many rows at most are QUEUED or PROCESSING if nothing has crashed since the
      last start, whatever was rescheduled or recovered, or if every claim has its one owner. */
  lemma InFlightBounded(s: Sys)
    requires Reachable(s)
    ensures |set id | id in s.tasks && Held(s, id)| <= Slots(s.replicas)
    ensures Recovered(s) || AllExact(s) ==>
      |set id | id in s.tasks && InFlight(s.tasks[id].status)| <= Slots(s.replicas)
  {
    HeldBounded(s);
    if Recovered(s) || AllExact(s) {
      forall id | id in s.tasks ensures Held(s, id) <==> InFlight(s.tasks[id].status) {
        if InFlight(s.tasks[id].status) && Recovered(s) {
          RecoveredHeld(s, id);
        }
        assert AllExact(s) ==> Exact(s, id);
      }
      assert (set id | id in s.tasks && InFlight(s.tasks[id].status)) == (set id | id in s.tasks && Held(s, id));
    }
  }

  lemma {:induction false} SubsetCard<T>(a: set<T>, b: set<T>)
    requires a <= b
    ensures |a| <= |b|
  {
    assert b == a + (b - a);
  }
}
