/** What was asked for is what is sent, and when: a notification keeps the recipient, template, variables
    and kind of its request for good, wherever it is; a scheduled one keeps its time; and a retry waits for
    its backoff. */
module NotificationRequests {
  import opened Options
  import opened Notifications
  import opened NotificationBounds
  import opened NotificationTheorems
  import opened NotificationLosses
  import opened NotificationWitnesses

  // ---- what was requested stays ----

  /** A copy or row of the notification that this request created at this time.  One that belongs to no user
      in particular may still lack its owner. */
  predicate Matches(m: Note, n: Note, at: int) {
    && m.id == n.id && m.recipient == n.recipient && m.template == n.template && m.variables == n.variables
    && m.kind == n.kind && m.createdAt == at
    && (if m.userId == "" then "global" else m.userId) == (if n.userId == "" then "global" else n.userId)
  }

  predicate QueueMatches(q: seq<Note>, n: Note, at: int) {
    forall k :: 0 <= k < |q| && q[k].id == n.id ==> Matches(q[k], n, at)
  }

  predicate WorkMatches(w: Work, n: Note, at: int) {
    !w.Idle? && w.n.id == n.id ==> Matches(w.n, n, at)
  }

  predicate WorkersMatch(ws: seq<Work>, n: Note, at: int) {
    forall i :: 0 <= i < |ws| ==> WorkMatches(ws[i], n, at)
  }

  /** The row and every copy of it, with goroutines, on the channel, with workers, and in the dead-letter
      table. */
  predicate AllMatch(s: Sys, n: Note, at: int) {
    && n.id in s.rows && Matches(s.rows[n.id], n, at)
    && QueueMatches(s.held, n, at) && QueueMatches(s.channel, n, at)
    && QueueMatches(s.scheduling, n, at) && QueueMatches(s.dispatching, n, at)
    && WorkersMatch(s.workers, n, at) && (n.id in s.dlq ==> Matches(s.dlq[n.id], n, at))
  }

  /** A row that is still SCHEDULED has the time of the request. */
  predicate InTime(s: Sys, id: string, executeAt: Option<int>) {
    id in s.rows && s.rows[id].status == Scheduled ==> executeAt.Some? && s.rows[id].nextRetryAt == executeAt.value
  }

  lemma WriteMatches(rows: map<string, Note>, m: Note, stored: bool, n: Note, at: int)
    requires n.id in rows && Matches(rows[n.id], n, at) && (m.id == n.id ==> Matches(m, n, at))
    ensures n.id in WriteIf(rows, m, stored) && Matches(WriteIf(rows, m, stored)[n.id], n, at)
  {
  }

  lemma OutcomeMatches(m: Note, failure: Option<string>, maxRetry: nat, now: int, n: Note, at: int)
    requires Matches(m, n, at)
    ensures Matches(Outcome(m, failure, maxRetry, now), n, at)
  {
  }

  lemma TakeMatches(s: Sys, i: nat, n: Note, at: int)
    requires AllMatch(s, n, at) && Enabled(s, Take(i))
    ensures AllMatch(DoTake(s, i), n, at)
  {
  }

  lemma BeginMatches(s: Sys, i: nat, stored: bool, n: Note, at: int)
    requires AllMatch(s, n, at) && Enabled(s, Begin(i, stored))
    ensures AllMatch(DoBegin(s, i, stored), n, at)
  {
    var p := s.workers[i].n.(status := Processing);
    assert WorkMatches(s.workers[i], n, at) && (p.id == n.id ==> Matches(p, n, at));
    WriteMatches(s.rows, p, stored, n, at);
  }

  lemma SendMatches(s: Sys, i: nat, called: bool, failure: Option<string>, n: Note, at: int)
    requires AllMatch(s, n, at) && Enabled(s, Send(i, called, failure))
    ensures AllMatch(DoSend(s, i, called, failure), n, at)
  {
    assert WorkMatches(s.workers[i], n, at);
  }

  lemma FinishMatches(s: Sys, i: nat, stored: bool, n: Note, at: int)
    requires AllMatch(s, n, at) && Enabled(s, Finish(i, stored))
    ensures AllMatch(DoFinish(s, i, stored), n, at)
  {
    var m := s.workers[i].n;
    assert WorkMatches(s.workers[i], n, at);
    OutcomeShape(m, s.workers[i].failure, s.maxRetry, s.now);
    if m.id == n.id {
      OutcomeMatches(m, s.workers[i].failure, s.maxRetry, s.now, n, at);
    }
    WriteMatches(s.rows, Outcome(m, s.workers[i].failure, s.maxRetry, s.now), stored, n, at);
  }

  lemma BuryMatches(s: Sys, i: nat, stored: bool, n: Note, at: int)
    requires AllMatch(s, n, at) && Enabled(s, Bury(i, stored))
    ensures AllMatch(DoBury(s, i, stored), n, at)
  {
    assert WorkMatches(s.workers[i], n, at);
  }

  lemma WorkerMatches(s: Sys, e: Event, n: Note, at: int)
    requires AllMatch(s, n, at) && ByWorker(e) && Enabled(s, e)
    ensures AllMatch(Step(s, e), n, at)
  {
    match e
    case Take(i) => TakeMatches(s, i, n, at);
    case Begin(i, stored) => BeginMatches(s, i, stored, n, at);
    case Send(i, called, failure) => SendMatches(s, i, called, failure, n, at);
    case Finish(i, stored) => FinishMatches(s, i, stored, n, at);
    case Bury(i, stored) => BuryMatches(s, i, stored, n, at);
    case Panic(i) =>
  }

  lemma SaveMatches(s: Sys, m: Note, executeAt: Option<int>, n: Note, at: int)
    requires AllMatch(s, n, at) && Enabled(s, Save(m, executeAt))
    ensures AllMatch(DoSave(s, m, executeAt), n, at)
  {
  }

  lemma CleanUpMatches(s: Sys, h: nat, stored: bool, reason: string, n: Note, at: int)
    requires AllMatch(s, n, at) && h < |s.scheduling|
    ensures AllMatch(DoCleanUp(s, h, stored, reason), n, at)
    ensures QueueMatches(Without(s.scheduling, h), n, at)
  {
    WriteMatches(s.rows, s.scheduling[h].(status := Dlq, errorMessage := reason), stored, n, at);
  }

  lemma PushMatches(s: Sys, h: nat, n: Note, at: int)
    requires AllMatch(s, n, at) && h < |s.held|
    ensures AllMatch(DoPush(s, h), n, at) && AllMatch(DoDiscard(s, h), n, at)
  {
  }

  lemma {:induction false} ClaimedMatches(rows: map<string, Note>, chosen: seq<string>, n: Note, at: int)
    requires forall c :: c in chosen ==> c in rows && rows[c].id == c
    requires n.id in rows && Matches(rows[n.id], n, at)
    ensures QueueMatches(Claimed(rows, chosen), n, at)
  {
    if chosen != [] {
      ClaimedMatches(rows, chosen[1..], n, at);
      var q := Claimed(rows, chosen);
      forall k | 0 <= k < |q| && q[k].id == n.id ensures Matches(q[k], n, at) {
        if k > 0 {
          assert q[k] == Claimed(rows, chosen[1..])[k - 1];
        }
      }
    }
  }

  lemma PollMatches(s: Sys, chosen: seq<string>, n: Note, at: int)
    requires Sound(s) && AllMatch(s, n, at) && forall c :: c in chosen ==> c in s.rows
    ensures AllMatch(DoPoll(s, chosen), n, at)
  {
    ClaimedMatches(s.rows, chosen, n, at);
  }

  lemma CheckMatches(s: Sys, k: string, n: Note, at: int)
    requires Sound(s) && AllMatch(s, n, at) && k in s.rows
    ensures AllMatch(DoDispatchCheck(s, k), n, at)
  {
    assert s.rows[k].id == k;
  }

  lemma DispatchMatches(s: Sys, h: nat, stored: bool, n: Note, at: int)
    requires AllMatch(s, n, at) && h < |s.dispatching|
    ensures AllMatch(DoDispatchWrite(s, h, stored), n, at)
  {
    WriteMatches(s.rows, s.dispatching[h].(status := Pending, nextRetryAt := s.now), stored, n, at);
  }

  lemma HandlerMatches(s: Sys, e: Event, n: Note, at: int)
    requires Sound(s) && AllMatch(s, n, at) && Enabled(s, e)
    requires e.Save? || e.CleanUp? || e.Delegated? || e.DispatchCheck? || e.DispatchWrite?
    ensures AllMatch(Step(s, e), n, at)
  {
    match e
    case Save(m, executeAt) => SaveMatches(s, m, executeAt, n, at);
    case CleanUp(h, stored, reason) => CleanUpMatches(s, h, stored, reason, n, at);
    case Delegated(h) => CleanUpMatches(s, h, false, "", n, at);
    case DispatchCheck(k) => CheckMatches(s, k, n, at);
    case DispatchWrite(h, stored) => DispatchMatches(s, h, stored, n, at);
  }

  lemma StepMatches(s: Sys, e: Event, n: Note, at: int)
    requires Sound(s) && AllMatch(s, n, at)
    ensures AllMatch(Step(s, e), n, at)
  {
    if !Enabled(s, e) || e.Advance? || e.Admit? || e.Abandon? || e.Halt? {
    } else if ByWorker(e) {
      WorkerMatches(s, e, n, at);
    } else if e.Push? || e.Discard? {
      PushMatches(s, e.h, n, at);
    } else if e.Poll? {
      PollMatches(s, e.chosen, n, at);
    } else {
      HandlerMatches(s, e, n, at);
    }
  }

  // ---- a SCHEDULED row is as it was saved ----

  lemma WriteInTime(rows: map<string, Note>, m: Note, stored: bool, id: string)
    requires m.status != Scheduled
    ensures id in WriteIf(rows, m, stored) && WriteIf(rows, m, stored)[id].status == Scheduled ==>
      id in rows && WriteIf(rows, m, stored)[id] == rows[id]
  {
  }

  /** No step makes a row SCHEDULED but its creation. */
  lemma StepInTime(s: Sys, e: Event, id: string, executeAt: Option<int>)
    requires InTime(s, id, executeAt) && id in s.rows
    ensures InTime(Step(s, e), id, executeAt)
  {
    if !Enabled(s, e) {
    } else if e.Begin? {
      WriteInTime(s.rows, s.workers[e.i].n.(status := Processing), e.stored, id);
    } else if e.Finish? {
      var n := s.workers[e.i].n;
      OutcomeShape(n, s.workers[e.i].failure, s.maxRetry, s.now);
      WriteInTime(s.rows, Outcome(n, s.workers[e.i].failure, s.maxRetry, s.now), e.stored, id);
    } else if e.CleanUp? {
      WriteInTime(s.rows, s.scheduling[e.h].(status := Dlq, errorMessage := e.reason), e.stored, id);
    } else if e.DispatchWrite? {
      WriteInTime(s.rows, s.dispatching[e.h].(status := Pending, nextRetryAt := s.now), e.stored, id);
    } else {
      RowLeftInTime(s, e, id);
    }
  }

  lemma RowLeftInTime(s: Sys, e: Event, id: string)
    requires id in s.rows && Enabled(s, e) && !e.Begin? && !e.Finish? && !e.CleanUp? && !e.DispatchWrite?
    ensures id in Step(s, e).rows
    ensures Step(s, e).rows[id].status == Scheduled ==> Step(s, e).rows[id] == s.rows[id]
  {
  }

  // ---- every run ----

  lemma NewMatches(s: Sys, n: Note, executeAt: Option<int>)
    requires Sound(s) && Enabled(s, Save(n, executeAt))
    ensures var s' := DoSave(s, n, executeAt);
      && AllMatch(s', n, s.now) && InTime(s', n.id, executeAt)
      && s'.rows[n.id].status == (if executeAt.Some? then Scheduled else Pending)
      && s'.rows[n.id].retryCount == 0 && s'.rows[n.id].errorMessage == ""
      && (executeAt.None? ==> Ready(s'.rows, n.id, s'.now) && s'.held != [] && s'.held[|s'.held| - 1].id == n.id)
  {
    assert forall k :: 0 <= k < |s.held| ==> NoteOk(s.rows.Keys, s.held[k], s.maxRetry);
    assert forall k :: 0 <= k < |s.channel| ==> NoteOk(s.rows.Keys, s.channel[k], s.maxRetry);
    assert forall k :: 0 <= k < |s.scheduling| ==> NoteOk(s.rows.Keys, s.scheduling[k], 0);
    assert forall k :: 0 <= k < |s.dispatching| ==> NoteOk(s.rows.Keys, s.dispatching[k], 0);
    assert forall i :: 0 <= i < |s.workers| ==> WorkOk(s.rows.Keys, s.workers[i], s.maxRetry);
  }

  lemma {:induction false} RunMatches(s: Sys, es: seq<Event>, n: Note, executeAt: Option<int>, at: int)
    requires Sound(s) && AllMatch(s, n, at) && InTime(s, n.id, executeAt)
    ensures Sound(Run(s, es)) && AllMatch(Run(s, es), n, at) && InTime(Run(s, es), n.id, executeAt)
  {
    if es != [] {
      var before, e := es[..|es| - 1], es[|es| - 1];
      RunMatches(s, before, n, executeAt, at);
      StepSound(Run(s, before), e);
      StepMatches(Run(s, before), e, n, at);
      StepInTime(Run(s, before), e, n.id, executeAt);
    }
  }

  /** From the save on, in every run with any number of retries, dispatches, failed statements, panics and
      restarts: the row of a notification and every copy of it, on the channel, with goroutines and workers
      and in the dead-letter table, has the recipient, template, variables, kind and owner of the request and
      the time of the save; and as long as it is SCHEDULED, the row has the time that was asked for. */
  lemma NotificationKept(s: Sys, n: Note, executeAt: Option<int>, es: seq<Event>)
    requires Reachable(s) && Enabled(s, Save(n, executeAt))
    ensures var s' := Run(Step(s, Save(n, executeAt)), es);
      AllMatch(s', n, s.now) && InTime(s', n.id, executeAt)
  {
    var s0, before :| Initial(s0) && s == Run(s0, before);
    RunBudgeted(s0, before, n.id);
    NewMatches(s, n, executeAt);
    StepSound(s, Save(n, executeAt));
    assert Step(s, Save(n, executeAt)) == DoSave(s, n, executeAt);
    RunMatches(Step(s, Save(n, executeAt)), es, n, executeAt, s.now);
  }

  // ---- a retry waits for its backoff ----

  predicate Unpolled(es: seq<Event>, id: string) {
    forall k :: 0 <= k < |es| && es[k].Poll? ==> id !in es[k].chosen
  }

  lemma NowGrows(s: Sys, e: Event)
    ensures Step(s, e).now >= s.now
  {
  }

  /** A PENDING row that nobody holds is left alone before its time, and until somebody claims it. */
  lemma {:induction false} RestsUntil(s: Sys, es: seq<Event>, id: string)
    requires Sound(s) && Alone(s, id) && s.rows[id].status == Pending
    ensures Sound(Run(s, es))
    ensures Run(s, es).now < s.rows[id].nextRetryAt || Unpolled(es, id) ==> Same(s, Run(s, es), id)
  {
    if es != [] {
      var before, e := es[..|es| - 1], es[|es| - 1];
      RestsUntil(s, before, id);
      StepSound(Run(s, before), e);
      NowGrows(Run(s, before), e);
      if Run(s, es).now < s.rows[id].nextRetryAt || Unpolled(es, id) {
        EarlyStep(s, Run(s, before), e, id);
      }
    }
  }

  lemma EarlyStep(s: Sys, s': Sys, e: Event, id: string)
    requires Sound(s') && Same(s, s', id) && s.rows[id].status == Pending
    requires s'.now < s.rows[id].nextRetryAt || !(e.Poll? && id in e.chosen)
    ensures Same(s, Step(s', e), id)
  {
    TooEarly(s', e, id);
    StepLeaves(s', e, id);
  }

  lemma TooEarly(s: Sys, e: Event, id: string)
    requires id in s.rows && (s.now < s.rows[id].nextRetryAt || !(e.Poll? && id in e.chosen))
    ensures !(e.Poll? && id in e.chosen && Enabled(s, e))
  {
  }

  /** The failed attempt that is about to be recorded is the only thing that goes on with its notification. */
  predicate LastCopy(s: Sys, i: nat) {
    && i < |s.workers| && s.workers[i].Returned?
    && var id := s.workers[i].n.id;
       && Copies(s, id) == 1 && Reading(s, id) == 0
       && forall h :: 0 <= h < |s.scheduling| ==> s.scheduling[h].id != id
  }

  lemma FailureRests(s: Sys, i: nat)
    requires Sound(s) && LastCopy(s, i) && s.workers[i].failure.Some?
    requires s.workers[i].n.retryCount + 1 <= s.maxRetry
    ensures var s', n, r := DoFinish(s, i, true), s.workers[i].n, s.workers[i].n.retryCount + 1;
      && Alone(s', n.id) && s'.rows[n.id].status == Pending && s'.rows[n.id].retryCount == r
      && s'.rows[n.id].errorMessage == s.workers[i].failure.value
      && s'.rows[n.id].nextRetryAt == s.now + Pow2(r) * SECOND && s'.sends == s.sends
  {
    assert WorkOk(s.rows.Keys, s.workers[i], s.maxRetry);
    WorkerReplaced(s.workers, i, Idle, s.workers[i].n.id, s.maxRetry);
  }

  /** Nothing is sent or claimed before this time, and until it is claimed it can be claimed from then on. */
  ghost predicate WaitsFor(s: Sys, es: seq<Event>, id: string, t: int) {
    var s' := Run(s, es);
    && (s'.now < t ==> Same(s, s', id))
    && (Unpolled(es, id) ==> Same(s, s', id) && (Ready(s'.rows, id, s'.now) <==> t <= s'.now))
  }

  /** PENDING with one retry more and the reason of the failure, and left alone until this time. */
  ghost predicate RetriedAt(s: Sys, es: seq<Event>, n: Note, reason: string, t: int) {
    && WaitsFor(s, es, n.id, t) && n.id in s.rows && s.rows[n.id].status == Pending
    && s.rows[n.id].retryCount == n.retryCount + 1 && s.rows[n.id].errorMessage == reason
  }

  lemma RestedIsRetried(s: Sys, es: seq<Event>, n: Note, reason: string, t: int)
    requires Sound(s) && Alone(s, n.id) && s.rows[n.id].status == Pending && s.rows[n.id].nextRetryAt == t
    requires s.rows[n.id].retryCount == n.retryCount + 1 && s.rows[n.id].errorMessage == reason
    ensures RetriedAt(s, es, n, reason, t)
  {
    RestIsOnTime(s, es, n.id, t);
  }

  /** The backoff of the notification engine, in every run: after a recorded failure of the last copy, with
      retries left, the notification is PENDING with one retry more, and it is neither claimed nor sent
      before 2^n seconds after its failure number n; from then on the poller can claim it. */
  lemma RetryRespected(s: Sys, i: nat, es: seq<Event>, t: int)
    requires Reachable(s) && LastCopy(s, i) && s.workers[i].failure.Some?
    requires s.workers[i].n.retryCount + 1 <= s.maxRetry
    requires t == s.now + Pow2(s.workers[i].n.retryCount + 1) * SECOND
    ensures RetriedAt(Step(s, Finish(i, true)), es, s.workers[i].n, s.workers[i].failure.value, t)
  {
    var s0, before :| Initial(s0) && s == Run(s0, before);
    RunBudgeted(s0, before, s.workers[i].n.id);
    FinishStep(s, i);
    FinishIsRetried(s, i, es, t);
  }

  lemma FinishIsRetried(s: Sys, i: nat, es: seq<Event>, t: int)
    requires Sound(s) && LastCopy(s, i) && s.workers[i].failure.Some? && Sound(DoFinish(s, i, true))
    requires s.workers[i].n.retryCount + 1 <= s.maxRetry
    requires t == s.now + Pow2(s.workers[i].n.retryCount + 1) * SECOND
    ensures RetriedAt(DoFinish(s, i, true), es, s.workers[i].n, s.workers[i].failure.value, t)
  {
    FailureRests(s, i);
    RestedIsRetried(DoFinish(s, i, true), es, s.workers[i].n, s.workers[i].failure.value, t);
  }

  lemma FinishStep(s: Sys, i: nat)
    requires Sound(s) && i < |s.workers| && s.workers[i].Returned?
    ensures Step(s, Finish(i, true)) == DoFinish(s, i, true) && Sound(DoFinish(s, i, true))
  {
    FinishSound(s, i, true);
  }

  lemma RestIsOnTime(s: Sys, es: seq<Event>, id: string, t: int)
    requires Sound(s) && Alone(s, id) && s.rows[id].status == Pending && s.rows[id].nextRetryAt == t
    ensures WaitsFor(s, es, id, t)
  {
    RestsUntil(s, es, id);
  }
}
