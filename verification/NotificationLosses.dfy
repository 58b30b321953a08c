/** When a notification is lost.  The engine has no recovery: a PROCESSING row that nobody holds a copy of
    stays as it is.  What keeps that from happening, exactly, and what a failed statement and the end of
    the process do. */
module NotificationLosses {
  import opened Options
  import opened Notifications
  import opened NotificationBounds
  import opened NotificationWitnesses

  // ---- a notification that is not finished is being looked after ----

  /** Somebody holds a copy of an unfinished notification, or the poller can still claim its row. */
  predicate Served(s: Sys, id: string) {
    id in s.rows && s.rows[id].status in {Pending, Processing} ==> Copies(s, id) + RowToken(s, id) >= 1
  }

  /** The event takes the last copy of a PROCESSING row: its goroutine gives up, its worker panics, the
      write of its outcome fails, or the process ends, which takes however many copies there are. */
  ghost predicate Strands(s: Sys, e: Event, id: string) {
    && Enabled(s, e) && id in s.rows && s.rows[id].status == Processing
    && match e
       case Discard(h) => Copies(s, id) == 1 && s.held[h].id == id
       case Panic(i) => Copies(s, id) == 1 && CopyAt(s.workers[i], id) == 1
       case Finish(i, stored) => Copies(s, id) == 1 && !stored && s.workers[i].n.id == id
       case Halt => Copies(s, id) >= 1
       case _ => false
  }

  lemma OthersServe(s: Sys, e: Event, id: string)
    requires Served(s, id)
    requires !Enabled(s, e) || e.Advance? || e.Admit? || e.Abandon? || e.Delegated? || e.DispatchCheck?
    ensures Served(Step(s, e), id)
  {
  }

  lemma SaveServes(s: Sys, n: Note, executeAt: Option<int>, id: string)
    requires Served(s, id) && Enabled(s, Save(n, executeAt))
    ensures Served(DoSave(s, n, executeAt), id)
  {
    if n.id != id {
      SaveOfOther(s, n, executeAt, id);
    }
  }

  lemma CleanUpServes(s: Sys, h: nat, stored: bool, reason: string, id: string)
    requires Served(s, id) && h < |s.scheduling|
    ensures Served(DoCleanUp(s, h, stored, reason), id)
  {
    var n := s.scheduling[h].(status := Dlq, errorMessage := reason);
    RowAfterWrite(s, DoCleanUp(s, h, stored, reason), n, stored, id);
  }

  lemma PushServes(s: Sys, h: nat, id: string)
    requires Served(s, id) && h < |s.held|
    ensures Served(DoPush(s, h), id)
  {
    QueueWithout(s.held, h, id, s.maxRetry);
    QueueAppend(s.channel, s.held[h], id, s.maxRetry);
  }

  lemma DiscardServes(s: Sys, h: nat, id: string)
    requires Served(s, id) && h < |s.held|
    ensures Served(DoDiscard(s, h), id) <==> !Strands(s, Discard(h), id)
  {
    QueueWithout(s.held, h, id, s.maxRetry);
  }

  lemma PollServes(s: Sys, chosen: seq<string>, id: string)
    requires Sound(s) && Served(s, id) && forall c :: c in chosen ==> c in s.rows
    requires forall m, n :: 0 <= m < n < |chosen| ==> chosen[m] != chosen[n]
    ensures Served(DoPoll(s, chosen), id)
  {
    ClaimedLoad(s.rows, chosen, id, s.maxRetry);
    QueueConcat(s.held, Claimed(s.rows, chosen), id, s.maxRetry);
  }

  lemma DispatchServes(s: Sys, h: nat, stored: bool, id: string)
    requires Sound(s) && Served(s, id) && h < |s.dispatching|
    ensures Served(DoDispatchWrite(s, h, stored), id)
  {
    var n := s.dispatching[h].(status := Pending, nextRetryAt := s.now);
    QueueAppend(s.held, n, id, s.maxRetry);
    RowAfterWrite(s, DoDispatchWrite(s, h, stored), n, stored, id);
  }

  lemma TakeServes(s: Sys, i: nat, id: string)
    requires Served(s, id) && Enabled(s, Take(i))
    ensures Served(DoTake(s, i), id)
  {
    TakeMoves(s, i, id);
  }

  lemma BeginServes(s: Sys, i: nat, stored: bool, id: string)
    requires Served(s, id) && Enabled(s, Begin(i, stored))
    ensures Served(DoBegin(s, i, stored), id)
  {
    var n := s.workers[i].n.(status := Processing);
    WorkerReplaced(s.workers, i, Sending(n), id, s.maxRetry);
    RowAfterWrite(s, DoBegin(s, i, stored), n, stored, id);
  }

  lemma SendServes(s: Sys, i: nat, called: bool, failure: Option<string>, id: string)
    requires Served(s, id) && Enabled(s, Send(i, called, failure))
    ensures Served(DoSend(s, i, called, failure), id)
  {
    WorkerReplaced(s.workers, i, Returned(s.workers[i].n, failure), id, s.maxRetry);
  }

  lemma FinishServes(s: Sys, i: nat, stored: bool, id: string)
    requires Sound(s) && Served(s, id) && Enabled(s, Finish(i, stored))
    ensures Served(DoFinish(s, i, stored), id) <==> !Strands(s, Finish(i, stored), id)
  {
    var s', n := DoFinish(s, i, stored), s.workers[i].n;
    WorkerReplaced(s.workers, i, s'.workers[i], id, s.maxRetry);
    OutcomeShape(n, s.workers[i].failure, s.maxRetry, s.now);
    RowAfterWrite(s, s', Outcome(n, s.workers[i].failure, s.maxRetry, s.now), stored, id);
  }

  lemma BuryServes(s: Sys, i: nat, stored: bool, id: string)
    requires Served(s, id) && Enabled(s, Bury(i, stored))
    ensures Served(DoBury(s, i, stored), id)
  {
    WorkerReplaced(s.workers, i, Idle, id, s.maxRetry);
  }

  lemma PanicServes(s: Sys, i: nat, id: string)
    requires Served(s, id) && i < |s.workers|
    ensures Served(SetWorker(s, i, Idle), id) <==> !Strands(s, Panic(i), id)
  {
    WorkerReplaced(s.workers, i, Idle, id, s.maxRetry);
  }

  lemma HaltServes(s: Sys, id: string)
    requires Served(s, id)
    ensures Served(DoHalt(s), id) <==> !Strands(s, Halt, id)
  {
    HaltEmpties(s, id);
  }

  lemma WorkerServes(s: Sys, e: Event, id: string)
    requires Sound(s) && Served(s, id) && ByWorker(e) && Enabled(s, e)
    ensures Served(Step(s, e), id) <==> !Strands(s, e, id)
  {
    match e
    case Take(i) => TakeServes(s, i, id);
    case Begin(i, stored) => BeginServes(s, i, stored, id);
    case Send(i, called, failure) => SendServes(s, i, called, failure, id);
    case Finish(i, stored) => FinishServes(s, i, stored, id);
    case Bury(i, stored) => BuryServes(s, i, stored, id);
    case Panic(i) => PanicServes(s, i, id);
  }

  lemma QueueServes(s: Sys, e: Event, id: string)
    requires Sound(s) && Served(s, id) && Enabled(s, e)
    requires e.Save? || e.CleanUp? || e.Push? || e.Discard? || e.Poll? || e.DispatchWrite?
    ensures Served(Step(s, e), id) <==> !Strands(s, e, id)
  {
    match e
    case Save(n, executeAt) => SaveServes(s, n, executeAt, id);
    case CleanUp(h, stored, reason) => CleanUpServes(s, h, stored, reason, id);
    case Push(h) => PushServes(s, h, id);
    case Discard(h) => DiscardServes(s, h, id);
    case Poll(_, chosen) => PollServes(s, chosen, id);
    case DispatchWrite(h, stored) => DispatchServes(s, h, stored, id);
  }

  /** One step leaves an unfinished notification to nobody exactly when it strands it. */
  lemma StepServed(s: Sys, e: Event, id: string)
    requires Sound(s) && Served(s, id)
    ensures Served(Step(s, e), id) <==> !Strands(s, e, id)
  {
    if !Enabled(s, e) || e.Advance? || e.Admit? || e.Abandon? || e.Delegated? || e.DispatchCheck? {
      OthersServe(s, e, id);
    } else if ByWorker(e) {
      WorkerServes(s, e, id);
    } else if e.Halt? {
      HaltServes(s, id);
    } else {
      QueueServes(s, e, id);
    }
  }

  // ---- runs ----

  ghost predicate NothingStranded(s0: Sys, es: seq<Event>, id: string) {
    forall k :: 0 <= k < |es| ==> !Strands(Run(s0, es[..k]), es[k], id)
  }

  ghost predicate AlwaysServed(s0: Sys, es: seq<Event>, id: string) {
    forall k :: 0 <= k <= |es| ==> Served(Run(s0, es[..k]), id)
  }

  lemma StrandedSnoc(s0: Sys, es: seq<Event>, e: Event, id: string)
    ensures NothingStranded(s0, es + [e], id) <==> NothingStranded(s0, es, id) && !Strands(Run(s0, es), e, id)
  {
    var fs := es + [e];
    assert fs[..|es|] == es && fs[|es|] == e;
    assert forall k :: 0 <= k < |es| ==> fs[..k] == es[..k] && fs[k] == es[k];
  }

  lemma ServedSnoc(s0: Sys, es: seq<Event>, e: Event, id: string)
    ensures AlwaysServed(s0, es + [e], id) <==> AlwaysServed(s0, es, id) && Served(Run(s0, es + [e]), id)
  {
    var fs := es + [e];
    assert fs[..|fs|] == fs;
    assert forall k :: 0 <= k <= |es| ==> fs[..k] == es[..k];
  }

  /** No notification that is PENDING or PROCESSING is ever left to nobody, in any run with any number of
      shutdowns and crashes, if and only if no step of the run takes the last copy of a PROCESSING row. */
  lemma {:induction false} AlwaysServedIff(s0: Sys, es: seq<Event>, id: string)
    requires Initial(s0)
    ensures AlwaysServed(s0, es, id) <==> NothingStranded(s0, es, id)
  {
    if es == [] {
      InitialBudgeted(s0, id);
    } else {
      var before, e := es[..|es| - 1], es[|es| - 1];
      assert es == before + [e];
      AlwaysServedIff(s0, before, id);
      StrandedSnoc(s0, before, e, id);
      ServedSnoc(s0, before, e, id);
      if AlwaysServed(s0, before, id) {
        assert before[..|before|] == before;
        RunBudgeted(s0, before, id);
        StepServed(Run(s0, before), e, id);
        RunSnoc(s0, before, e);
      }
    }
  }

  // ---- and one that is left to nobody stays so ----

  /** Nobody holds anything that could write the row or send it. */
  predicate Alone(s: Sys, id: string) {
    && id in s.rows && s.rows[id].status != Scheduled && Copies(s, id) == 0 && Reading(s, id) == 0
    && forall h :: 0 <= h < |s.scheduling| ==> s.scheduling[h].id != id
  }

  predicate Stranded(s: Sys, id: string) {
    Alone(s, id) && s.rows[id].status == Processing
  }

  /** Nothing has happened to the notification. */
  predicate Same(s: Sys, s': Sys, id: string) {
    Alone(s, id) && Alone(s', id) && s'.rows[id] == s.rows[id] && Count(s'.sends, id) == Count(s.sends, id)
  }

  lemma OthersLeave(s: Sys, e: Event, id: string)
    requires Alone(s, id) && (!Enabled(s, e) || e.Advance? || e.Admit? || e.Abandon? || e.Delegated?)
    ensures Same(s, Step(s, e), id)
  {
  }

  lemma WorkerLeaves(s: Sys, e: Event, id: string)
    requires Alone(s, id) && ByWorker(e) && !e.Take? && Enabled(s, e)
    ensures Same(s, Step(s, e), id)
  {
    var s' := Step(s, e);
    WorkerReplaced(s.workers, e.i, s'.workers[e.i], id, s.maxRetry);
    assert s'.workers == s.workers[e.i := s'.workers[e.i]];
    assert CopyAt(s.workers[e.i], id) == 0;
    WorkerRowLeft(s, e, id);
  }

  lemma WorkerRowLeft(s: Sys, e: Event, id: string)
    requires ByWorker(e) && !e.Take? && Enabled(s, e) && CopyAt(s.workers[e.i], id) == 0 && id in s.rows
    ensures var s' := Step(s, e);
      id in s'.rows && s'.rows[id] == s.rows[id] && Count(s'.sends, id) == Count(s.sends, id)
  {
    if e.Begin? {
      RowOfOther(s, Step(s, e), s.workers[e.i].n.(status := Processing), e.stored, id);
    } else if e.Finish? {
      var n := Outcome(s.workers[e.i].n, s.workers[e.i].failure, s.maxRetry, s.now);
      RowOfOther(s, Step(s, e), n, e.stored, id);
    }
  }

  lemma TakeLeaves(s: Sys, i: nat, id: string)
    requires Alone(s, id) && Enabled(s, Take(i))
    ensures Same(s, DoTake(s, i), id)
  {
    TakeMoves(s, i, id);
  }

  lemma SaveLeaves(s: Sys, n: Note, executeAt: Option<int>, id: string)
    requires Alone(s, id) && Enabled(s, Save(n, executeAt))
    ensures Same(s, DoSave(s, n, executeAt), id)
  {
    SaveOfOther(s, n, executeAt, id);
  }

  lemma CleanUpLeaves(s: Sys, h: nat, stored: bool, reason: string, id: string)
    requires Alone(s, id) && h < |s.scheduling|
    ensures Same(s, DoCleanUp(s, h, stored, reason), id)
  {
    RowOfOther(s, DoCleanUp(s, h, stored, reason), s.scheduling[h].(status := Dlq, errorMessage := reason), stored, id);
  }

  lemma HeldLeaves(s: Sys, h: nat, id: string)
    requires Alone(s, id) && h < |s.held|
    ensures Same(s, DoPush(s, h), id) && Same(s, DoDiscard(s, h), id)
  {
    QueueWithout(s.held, h, id, s.maxRetry);
    QueueAppend(s.channel, s.held[h], id, s.maxRetry);
  }

  lemma PollLeaves(s: Sys, locked: set<string>, chosen: seq<string>, id: string)
    requires Sound(s) && Alone(s, id) && Enabled(s, Poll(locked, chosen)) && id !in chosen
    ensures Same(s, DoPoll(s, chosen), id)
  {
    ClaimedLoad(s.rows, chosen, id, s.maxRetry);
    QueueConcat(s.held, Claimed(s.rows, chosen), id, s.maxRetry);
  }

  lemma CheckLeaves(s: Sys, k: string, id: string)
    requires Sound(s) && Alone(s, id) && Enabled(s, DispatchCheck(k))
    ensures Same(s, DoDispatchCheck(s, k), id)
  {
    QueueAppend(s.dispatching, s.rows[k], id, s.maxRetry);
  }

  lemma DispatchLeaves(s: Sys, h: nat, stored: bool, id: string)
    requires Alone(s, id) && h < |s.dispatching|
    ensures Same(s, DoDispatchWrite(s, h, stored), id)
  {
    var s' := DoDispatchWrite(s, h, stored);
    SumWithout(CopiesOf(s.dispatching, id), h);
    HeldOfOther(s, h, stored, id);
    RowOfOther(s, s', s.dispatching[h].(status := Pending, nextRetryAt := s.now), stored, id);
    QueueWithout(s.dispatching, h, id, s.maxRetry);
  }

  lemma HaltLeaves(s: Sys, id: string)
    requires Alone(s, id)
    ensures Same(s, DoHalt(s), id)
  {
    HaltEmpties(s, id);
  }

  /** The end of a process strands every row that is PROCESSING, however many copies of it there were. */
  lemma HaltStrands(s: Sys, id: string)
    requires id in s.rows && s.rows[id].status == Processing
    ensures Stranded(DoHalt(s), id)
  {
    HaltEmpties(s, id);
  }

  /** Only a claim does anything with a notification that nobody holds. */
  lemma StepLeaves(s: Sys, e: Event, id: string)
    requires Sound(s) && Alone(s, id) && !(e.Poll? && id in e.chosen && Enabled(s, e))
    ensures Same(s, Step(s, e), id)
  {
    if !Enabled(s, e) || e.Advance? || e.Admit? || e.Abandon? || e.Delegated? {
      OthersLeave(s, e, id);
    } else if e.Take? {
      TakeLeaves(s, e.i, id);
    } else if ByWorker(e) {
      WorkerLeaves(s, e, id);
    } else if e.Halt? {
      HaltLeaves(s, id);
    } else if e.Push? || e.Discard? || e.Poll? {
      QueueLeaves(s, e, id);
    } else {
      HandlerLeaves(s, e, id);
    }
  }

  lemma QueueLeaves(s: Sys, e: Event, id: string)
    requires Sound(s) && Alone(s, id) && Enabled(s, e) && (e.Push? || e.Discard? || e.Poll?)
    requires e.Poll? ==> id !in e.chosen
    ensures Same(s, Step(s, e), id)
  {
    match e
    case Push(h) => HeldLeaves(s, h, id);
    case Discard(h) => HeldLeaves(s, h, id);
    case Poll(locked, chosen) => PollLeaves(s, locked, chosen, id);
  }

  lemma HandlerLeaves(s: Sys, e: Event, id: string)
    requires Sound(s) && Alone(s, id) && Enabled(s, e)
    requires e.Save? || e.CleanUp? || e.DispatchCheck? || e.DispatchWrite?
    ensures Same(s, Step(s, e), id)
  {
    match e
    case Save(n, executeAt) => SaveLeaves(s, n, executeAt, id);
    case CleanUp(h, stored, reason) => CleanUpLeaves(s, h, stored, reason, id);
    case DispatchCheck(k) => CheckLeaves(s, k, id);
    case DispatchWrite(h, stored) => DispatchLeaves(s, h, stored, id);
  }

  /** Nothing ever happens to a stranded notification again: in every further run, also of new processes,
      its row stays PROCESSING as it is, and it is never sent, retried or archived. */
  lemma {:induction false} StrandedForGood(s: Sys, es: seq<Event>, id: string)
    requires Sound(s) && Stranded(s, id)
    ensures Sound(Run(s, es)) && Stranded(Run(s, es), id) && Same(s, Run(s, es), id)
  {
    if es != [] {
      var before, e := es[..|es| - 1], es[|es| - 1];
      StrandedForGood(s, before, id);
      StepSound(Run(s, before), e);
      StepLeaves(Run(s, before), e, id);
    }
  }

  // ---- it happens ----

  /** A copy given up between claim and channel, as after a failed scan of the claimed rows. */
  lemma GivesUp(s: Sys, x: Note)
    requires s.held == [x] && x.id == NAME && s.channel == [] && s.workers == [Idle] && s.dispatching == []
    requires s.scheduling == [] && NAME in s.rows && s.rows[NAME].status == Processing
    ensures Stranded(Run(s, [Discard(0)]), NAME) && Run(s, [Discard(0)]).sends == s.sends
  {
    RunOne(s, Discard(0));
    assert Step(s, Discard(0)) == DoDiscard(s, 0);
    var s' := DoDiscard(s, 0);
    assert s'.held == [];
    SumZero(CopiesAt(s'.workers, NAME));
  }

  /** Created, sent without success, due again after this time, claimed, and lost in the scan; every write
      succeeds and nothing panics. */
  function LostInScan(nanos: nat): seq<Event> {
    [Admit, Save(Sample(), None)] + FailedSend() + [Advance(nanos), Poll({}, [NAME])] + [Discard(0)]
  }

  /** A failed scan strands a notification: its first send fails, the poller claims the row when the retry
      is due, and loses what it claimed.  Its other retries, however many, are never made. */
  lemma FailedScanStrands(maxRetry: nat) returns (nanos: nat)
    requires maxRetry > 0
    ensures var s := Run(Start(maxRetry), LostInScan(nanos)); Stranded(s, NAME) && Count(s.sends, NAME) == 1
  {
    var s0 := Start(maxRetry);
    var a := FirstLevel(maxRetry);
    var s1 := Run(s0, a);
    Attempt(s1, s1.held[0], []);
    var s2 := Run(s1, FailedSend());
    nanos := Wait(s2);
    Claiming(s2);
    var s3 := Run(s2, WaitAndPoll(s2));
    GivesUp(s3, ClaimNote(s2.rows[NAME]));
    RunAppend(s0, a, FailedSend());
    RunAppend(s0, a + FailedSend(), WaitAndPoll(s2));
    RunAppend(s0, a + FailedSend() + WaitAndPoll(s2), [Discard(0)]);
  }

  lemma Accepts(s: Sys, x: Note)
    requires s.workers == [Taken(x)] && x.id == NAME && NAME in s.rows
    ensures var s' := Run(s, [Begin(0, true), Send(0, true, None)]);
      && s'.workers == [Returned(x.(status := Processing), None)]
      && NAME in s'.rows && s'.rows[NAME].status == Processing
      && Count(s'.sends, NAME) == Count(s.sends, NAME) + 1
      && s'.(workers := s.workers, rows := s.rows, sends := s.sends) == s
  {
    var s1 := DoBegin(s, 0, true);
    RunOne(s, Begin(0, true));
    RunSnoc(s, [Begin(0, true)], Send(0, true, None));
    assert [Begin(0, true)] + [Send(0, true, None)] == [Begin(0, true), Send(0, true, None)];
    assert Step(s, Begin(0, true)) == s1;
    assert Step(s1, Send(0, true, None)) == DoSend(s1, 0, true, None);
  }

  /** The provider accepts, and the write of the outcome fails. */
  lemma Unrecorded(s: Sys, x: Note)
    requires s.workers == [Taken(x)] && x.id == NAME && NAME in s.rows
    ensures var s' := Run(s, [Begin(0, true), Send(0, true, None)] + [Finish(0, false)]);
      && s'.workers == [Idle] && NAME in s'.rows && s'.rows[NAME].status == Processing
      && Count(s'.sends, NAME) == Count(s.sends, NAME) + 1
      && s'.(workers := s.workers, rows := s.rows, sends := s.sends) == s
  {
    Accepts(s, x);
    var s1 := Run(s, [Begin(0, true), Send(0, true, None)]);
    RunSnoc(s, [Begin(0, true), Send(0, true, None)], Finish(0, false));
    assert Step(s1, Finish(0, false)) == DoFinish(s1, 0, false);
  }

  /** Created, taken and sent with success; every write but the last succeeds. */
  function Unwritten(): seq<Event> {
    [Admit, Save(Sample(), None)] + [Push(0), Take(0)] + ([Begin(0, true), Send(0, true, None)] + [Finish(0, false)])
  }

  /** So does a failed write: a notification that was sent is PROCESSING for good. */
  lemma FailedWriteStrands(maxRetry: nat)
    ensures var s := Run(Start(maxRetry), Unwritten()); Stranded(s, NAME) && Count(s.sends, NAME) == 1
  {
    var s0 := Start(maxRetry);
    var a := FirstLevel(maxRetry);
    var b, c := [Push(0), Take(0)], [Begin(0, true), Send(0, true, None)] + [Finish(0, false)];
    var s1 := Run(s0, a);
    Fetch(s1, s1.held[0], []);
    var s2 := Run(s1, b);
    Unrecorded(s2, s1.held[0]);
    var s3 := Run(s2, c);
    RunAppend(s0, a, b);
    RunAppend(s0, a + b, c);
    SumZero(CopiesAt(s3.workers, NAME));
  }

  /** Created, put on the channel, claimed by the poller as well, and the process ends. */
  function Unsent(): seq<Event> {
    [Admit, Save(Sample(), None)] + [Push(0), Poll({}, [NAME])] + [Halt]
  }

  lemma ClaimedTwice(s: Sys, x: Note)
    requires s.held == [x] && s.channel == [] && s.capacity == 1
    requires s.rows.Keys == {NAME} && s.rows[NAME].status == Pending && s.rows[NAME].nextRetryAt <= s.now
    ensures var s' := Run(s, [Push(0), Poll({}, [NAME])]);
      && NAME in s'.rows && s'.rows[NAME].status == Processing && s'.channel == [x]
      && s'.held == [ClaimNote(s.rows[NAME])] && s'.sends == s.sends
  {
    var s1 := DoPush(s, 0);
    RunOne(s, Push(0));
    assert Step(s, Push(0)) == s1 && s1.held == [];
    RunSnoc(s, [Push(0)], Poll({}, [NAME]));
    assert [Push(0)] + [Poll({}, [NAME])] == [Push(0), Poll({}, [NAME])];
    PollOnly(s1);
  }

  /** A shutdown strands a notification that has two copies and was never sent; every statement succeeds
      and nobody gives up a copy before. */
  lemma ShutdownStrands(maxRetry: nat)
    ensures var s := Run(Start(maxRetry), Unsent()); Stranded(s, NAME) && Count(s.sends, NAME) == 0
  {
    var s0 := Start(maxRetry);
    var a, b := [Admit, Save(Sample(), None)], [Push(0), Poll({}, [NAME])];
    var a' := FirstLevel(maxRetry);
    var s1 := Run(s0, a);
    ClaimedTwice(s1, s1.held[0]);
    var s2 := Run(s1, b);
    RunAppend(s0, a, b);
    RunSnoc(s0, a + b, Halt);
    HaltStrands(s2, NAME);
    assert Step(s2, Halt) == DoHalt(s2);
  }
}
