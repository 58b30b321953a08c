/** Runs of the notification engine that meet its bounds exactly. */
module NotificationWitnesses {
  import opened Options
  import opened Notifications
  import opened NotificationBounds
  import opened NotificationTheorems

  lemma {:induction false} RunAppend(s: Sys, es: seq<Event>, fs: seq<Event>)
    ensures Run(s, es + fs) == Run(Run(s, es), fs)
  {
    if fs == [] {
      assert es + fs == es;
    } else {
      assert (es + fs)[..|es + fs| - 1] == es + fs[..|fs| - 1];
      RunAppend(s, es, fs[..|fs| - 1]);
    }
  }

  lemma RunOne(s: Sys, e: Event)
    ensures Run(s, [e]) == Step(s, e)
  {
    assert [e][..0] == [];
    assert Run(s, []) == s;
  }

  lemma RunSnoc(s: Sys, es: seq<Event>, e: Event)
    ensures Run(s, es + [e]) == Step(Run(s, es), e)
  {
    assert (es + [e])[..|es|] == es;
  }

  const NAME: string := "n"

  function Start(maxRetry: nat): (s: Sys) {
    Sys(0, maxRetry, 1, map[], map[], [], [], [], [], 0, [Idle], map[], map[])
  }

  // ---- sends: every retry of both tokens can happen ----

  /** Both tokens of the notification have failed r times: its row waits, and one copy is held. */
  predicate Level(s: Sys, r: nat) {
    && s.capacity == 1 && s.workers == [Idle] && s.channel == [] && |s.held| == 1
    && s.held[0].id == NAME && s.held[0].retryCount == r
    && NAME in s.rows && s.rows.Keys == {NAME}
    && s.rows[NAME].id == NAME && s.rows[NAME].status == Pending && s.rows[NAME].retryCount == r
    && Count(s.sends, NAME) == 2 * r && s.dispatching == [] && s.written == map[]
  }

  function FailedSend(): (es: seq<Event>) {
    [Push(0), Take(0)] + ([Begin(0, true), Refusal()] + [Finish(0, true)])
  }

  /** The one worker takes the first held copy. */
  lemma Fetch(s: Sys, x: Note, rest: seq<Note>)
    requires s.held == [x] + rest && s.channel == [] && s.workers == [Idle] && s.capacity == 1
    ensures Run(s, [Push(0), Take(0)]) == s.(held := rest, workers := [Taken(x)])
  {
    RunOne(s, Push(0));
    RunSnoc(s, [Push(0)], Take(0));
    var s1 := DoPush(s, 0);
    assert Step(s, Push(0)) == s1 && s1.held == rest && s1.channel == [x];
    assert Step(s1, Take(0)) == DoTake(s1, 0);
    assert [Push(0)] + [Take(0)] == [Push(0), Take(0)];
  }

  function Refusal(): (e: Event) {
    Send(0, true, Some("refused"))
  }

  lemma Contact(s: Sys, x: Note)
    requires s.workers == [Taken(x)] && x.id == NAME && s.rows.Keys == {NAME}
    ensures var s' := Run(s, [Begin(0, true), Refusal()]);
      var p := x.(status := Processing);
      && s'.workers == [Returned(p, Some("refused"))] && s'.rows == Write(s.rows, p) && s'.rows.Keys == {NAME}
      && Count(s'.sends, NAME) == Count(s.sends, NAME) + 1
      && s'.(workers := s.workers, rows := s.rows, sends := s.sends) == s
  {
    RunOne(s, Begin(0, true));
    RunSnoc(s, [Begin(0, true)], Refusal());
    var s1 := DoBegin(s, 0, true);
    assert Step(s, Begin(0, true)) == s1;
    assert Step(s1, Refusal()) == DoSend(s1, 0, true, Some("refused"));
    assert [Begin(0, true)] + [Refusal()] == [Begin(0, true), Refusal()];
  }

  lemma Conclude(s: Sys, p: Note)
    requires s.workers == [Returned(p, Some("refused"))] && p.id == NAME && s.rows.Keys == {NAME}
    ensures var s' := Run(s, [Finish(0, true)]);
      var o := Outcome(p, Some("refused"), s.maxRetry, s.now);
      && s'.workers == [if o.status == Dlq then Burying(o) else Idle] && s'.rows == Write(s.rows, o)
      && s'.(workers := s.workers, rows := s.rows) == s
  {
    RunOne(s, Finish(0, true));
    assert Step(s, Finish(0, true)) == DoFinish(s, 0, true);
  }

  /** It sends the copy and the send fails. */
  lemma Refused(s: Sys, x: Note)
    requires s.workers == [Taken(x)] && x.id == NAME && s.rows.Keys == {NAME}
    ensures var s' := Run(s, [Begin(0, true), Refusal()] + [Finish(0, true)]);
      var o := Outcome(x.(status := Processing), Some("refused"), s.maxRetry, s.now);
      && s'.workers == [if o.status == Dlq then Burying(o) else Idle] && s'.rows.Keys == {NAME}
      && s'.rows[NAME] == o.(userId := s.rows[NAME].userId) && Count(s'.sends, NAME) == Count(s.sends, NAME) + 1
      && s'.(workers := s.workers, rows := s.rows, sends := s.sends) == s
  {
    Contact(s, x);
    Conclude(Run(s, [Begin(0, true), Refusal()]), x.(status := Processing));
    RunAppend(s, [Begin(0, true), Refusal()], [Finish(0, true)]);
  }

  lemma Attempt(s: Sys, x: Note, rest: seq<Note>)
    requires s.held == [x] + rest && s.channel == [] && s.workers == [Idle] && s.capacity == 1
    requires x.id == NAME && s.rows.Keys == {NAME}
    ensures var s' := Run(s, FailedSend());
      var o := Outcome(x.(status := Processing), Some("refused"), s.maxRetry, s.now);
      && s'.held == rest && s'.channel == [] && s'.workers == [if o.status == Dlq then Burying(o) else Idle]
      && s'.capacity == 1 && s'.maxRetry == s.maxRetry && s'.rows.Keys == {NAME} && s'.now == s.now
      && s'.rows[NAME] == o.(userId := s.rows[NAME].userId)
      && Count(s'.sends, NAME) == Count(s.sends, NAME) + 1
      && s'.dispatching == s.dispatching && s'.written == s.written && s'.scheduling == s.scheduling
  {
    Fetch(s, x, rest);
    Refused(Run(s, [Push(0), Take(0)]), x);
    RunAppend(s, [Push(0), Take(0)], [Begin(0, true), Refusal()] + [Finish(0, true)]);
  }

  function Wait(s: Sys): (nanos: nat)
    requires NAME in s.rows
  {
    if s.rows[NAME].nextRetryAt <= s.now then 0 else s.rows[NAME].nextRetryAt - s.now
  }

  function WaitAndPoll(s: Sys): (es: seq<Event>)
    requires NAME in s.rows
  {
    [Advance(Wait(s)), Poll({}, [NAME])]
  }

  /** The poller waits until the row is due and claims it. */
  lemma Claiming(s: Sys)
    requires s.rows.Keys == {NAME} && s.rows[NAME].status == Pending
    ensures var s' := Run(s, WaitAndPoll(s));
      && s'.held == s.held + [ClaimNote(s.rows[NAME])] && s'.rows.Keys == {NAME}
      && s'.rows[NAME] == ClaimNote(s.rows[NAME]) && s'.channel == s.channel && s'.workers == s.workers
      && s'.capacity == s.capacity && s'.maxRetry == s.maxRetry && s'.sends == s.sends
      && s'.dispatching == s.dispatching && s'.written == s.written && s'.scheduling == s.scheduling
  {
    RunOne(s, Advance(Wait(s)));
    RunSnoc(s, [Advance(Wait(s))], Poll({}, [NAME]));
    assert [Advance(Wait(s))] + [Poll({}, [NAME])] == WaitAndPoll(s);
    var s1 := s.(now := s.now + Wait(s));
    assert Step(s, Advance(Wait(s))) == s1;
    PollOnly(s1);
  }

  lemma PollOnly(s: Sys)
    requires s.rows.Keys == {NAME} && s.rows[NAME].status == Pending && s.rows[NAME].nextRetryAt <= s.now
    ensures Step(s, Poll({}, [NAME])) ==
      s.(rows := map[NAME := ClaimNote(s.rows[NAME])], held := s.held + [ClaimNote(s.rows[NAME])])
  {
    assert Ready(s.rows, NAME, s.now);
    assert forall id :: id in s.rows ==> id == NAME;
    assert PollSelects(s.rows, s.now, {}, [NAME]);
    assert Step(s, Poll({}, [NAME])) == DoPoll(s, [NAME]);
    assert MarkClaimed(s.rows, [NAME]) == map[NAME := ClaimNote(s.rows[NAME])];
    assert Claimed(s.rows, [NAME]) == [ClaimNote(s.rows[NAME])] + Claimed(s.rows, [NAME][1..]);
  }

  /** Claim the row, fail the first copy, claim the row again, fail the second copy. */
  lemma NextLevel(s: Sys, r: nat) returns (es: seq<Event>)
    requires Level(s, r) && r < s.maxRetry
    ensures Level(Run(s, es), r + 1) && Run(s, es).maxRetry == s.maxRetry
  {
    var s1 := Run(s, WaitAndPoll(s));
    Claiming(s);
    var s2 := Run(s1, FailedSend());
    Attempt(s1, s.held[0], [ClaimNote(s.rows[NAME])]);
    var s3 := Run(s2, WaitAndPoll(s2));
    Claiming(s2);
    Attempt(s3, ClaimNote(s.rows[NAME]), [ClaimNote(s2.rows[NAME])]);
    es := WaitAndPoll(s) + FailedSend() + WaitAndPoll(s2) + FailedSend();
    RunAppend(s, WaitAndPoll(s), FailedSend());
    RunAppend(s, WaitAndPoll(s) + FailedSend(), WaitAndPoll(s2));
    RunAppend(s, WaitAndPoll(s) + FailedSend() + WaitAndPoll(s2), FailedSend());
  }

  lemma Buries(s: Sys)
    requires |s.workers| == 1 && s.workers[0].Burying?
    ensures var s' := Run(s, [Bury(0, true)]);
      s'.workers == [Idle] && s'.(workers := s.workers, dlq := s.dlq) == s
  {
    RunOne(s, Bury(0, true));
    assert Step(s, Bury(0, true)) == DoBury(s, 0, true);
  }

  lemma LastLevel(s: Sys) returns (es: seq<Event>)
    requires Level(s, s.maxRetry)
    ensures var s' := Run(s, es);
      && Count(s'.sends, NAME) == 2 * (s.maxRetry + 1) && s'.maxRetry == s.maxRetry
      && s'.dispatching == [] && s'.written == map[]
  {
    var s1 := Run(s, WaitAndPoll(s));
    Claiming(s);
    var s2 := Run(s1, FailedSend());
    Attempt(s1, s.held[0], [ClaimNote(s.rows[NAME])]);
    var s3 := Run(s2, [Bury(0, true)]);
    Buries(s2);
    Attempt(s3, ClaimNote(s.rows[NAME]), []);
    es := WaitAndPoll(s) + FailedSend() + [Bury(0, true)] + FailedSend();
    RunAppend(s, WaitAndPoll(s), FailedSend());
    RunAppend(s, WaitAndPoll(s) + FailedSend(), [Bury(0, true)]);
    RunAppend(s, WaitAndPoll(s) + FailedSend() + [Bury(0, true)], FailedSend());
  }

  function Sample(): (n: Note) {
    Note(NAME, "a@example.com", "WELCOME", map[], "EMAIL", "u", Pending, 0, 0, 0, "")
  }

  lemma FirstLevel(maxRetry: nat) returns (es: seq<Event>)
    ensures Level(Run(Start(maxRetry), es), 0) && Run(Start(maxRetry), es).maxRetry == maxRetry
    ensures Run(Start(maxRetry), es).scheduling == [] && es == [Admit, Save(Sample(), None)]
    ensures var s := Run(Start(maxRetry), es); NAME in s.rows && s.rows[NAME].nextRetryAt <= s.now
  {
    var s := Start(maxRetry);
    es := [Admit, Save(Sample(), None)];
    RunSnoc(s, [], Admit);
    RunSnoc(s, [Admit], Save(Sample(), None));
    assert Run(s, []) == s && [] + [Admit] == [Admit];
    var s1 := s.(admitted := 1);
    assert Step(s, Admit) == s1;
    assert Step(s1, Save(Sample(), None)) == DoSave(s1, Sample(), None);
  }

  lemma {:induction false} Climb(maxRetry: nat, r: nat) returns (es: seq<Event>)
    requires r <= maxRetry
    ensures Level(Run(Start(maxRetry), es), r) && Run(Start(maxRetry), es).maxRetry == maxRetry
    decreases r
  {
    if r == 0 {
      es := FirstLevel(maxRetry);
    } else {
      var fs := Climb(maxRetry, r - 1);
      var gs := NextLevel(Run(Start(maxRetry), fs), r - 1);
      es := fs + gs;
      RunAppend(Start(maxRetry), fs, gs);
    }
  }

  /** An immediate notification can be sent 2 * (maxRetry + 1) times, whatever the retry limit. */
  lemma SendsBoundIsTight(maxRetry: nat)
    ensures exists s :: Reachable(s) && s.maxRetry == maxRetry
                        && Dispatches(s, NAME) == 0 && Count(s.sends, NAME) == 2 * (maxRetry + 1)
  {
    var s0 := Start(maxRetry);
    var fs := Climb(maxRetry, maxRetry);
    var gs := LastLevel(Run(s0, fs));
    RunAppend(s0, fs, gs);
    var s := Run(s0, fs + gs);
    assert Initial(s0);
    assert Dispatches(s, NAME) == 0;
  }

  // ---- tokens: overlapping dispatches multiply them ----

  predicate AllNamed(q: seq<Note>) {
    forall k :: 0 <= k < |q| ==> q[k].id == NAME
  }

  /** The row is still SCHEDULED and d callbacks have seen that; or, once some of them have written it,
      PROCESSING. */
  predicate Waiting(s: Sys, d: nat, held: nat, written: nat, status: Status) {
    && s.rows.Keys == {NAME} && s.rows[NAME].id == NAME && s.rows[NAME].status == status
    && |s.dispatching| == d && AllNamed(s.dispatching) && |s.held| == held && AllNamed(s.held)
    && s.channel == [] && s.workers == [Idle] && Count(s.written, NAME) == written
  }

  lemma {:induction false} PileUp(d: nat) returns (es: seq<Event>)
    ensures Waiting(Run(Start(0), es), d, 0, 0, Scheduled)
  {
    var s := Start(0);
    if d == 0 {
      es := Scheduling();
    } else {
      var fs := PileUp(d - 1);
      es := fs + [DispatchCheck(NAME)];
      RunSnoc(s, fs, DispatchCheck(NAME));
      OneMoreCheck(Run(s, fs), d - 1);
    }
  }

  /** A scheduled notification, delegated. */
  lemma Scheduling() returns (es: seq<Event>)
    ensures Waiting(Run(Start(0), es), 0, 0, 0, Scheduled)
  {
    var s := Start(0);
    var s1, s2 := s.(admitted := 1), Saved();
    es := [Admit, Save(Sample(), Some(0)), Delegated(0)];
    RunSnoc(s, [], Admit);
    RunSnoc(s, [Admit], Save(Sample(), Some(0)));
    RunSnoc(s, [Admit, Save(Sample(), Some(0))], Delegated(0));
    assert Run(s, []) == s && [] + [Admit] == [Admit];
    assert Step(s, Admit) == s1;
    SavedFirst();
    assert Step(s2, Delegated(0)) == s2.(scheduling := Without(s2.scheduling, 0));
  }

  function Saved(): (s: Sys) {
    var row := NewNote(Sample(), Some(0), 0);
    Start(0).(rows := map[NAME := row], scheduling := [row])
  }

  lemma SavedFirst()
    ensures Step(Start(0).(admitted := 1), Save(Sample(), Some(0))) == Saved()
  {
    var s := Start(0).(admitted := 1);
    assert Step(s, Save(Sample(), Some(0))) == DoSave(s, Sample(), Some(0));
  }

  lemma OneMoreCheck(s: Sys, d: nat)
    requires Waiting(s, d, 0, 0, Scheduled)
    ensures Waiting(Step(s, DispatchCheck(NAME)), d + 1, 0, 0, Scheduled)
  {
    assert Step(s, DispatchCheck(NAME)) == DoDispatchCheck(s, NAME);
  }

  /** One more callback writes its stale copy, and the poller claims the row again. */
  lemma DispatchAndPoll(s: Sys, d: nat, held: nat, written: nat, status: Status) returns (es: seq<Event>)
    requires Waiting(s, d + 1, held, written, status)
    ensures Waiting(Run(s, es), d, held + 2, written + 1, Processing)
  {
    var s1 := DoDispatchWrite(s, 0, true);
    es := [DispatchWrite(0, true)] + WaitAndPoll(s1);
    RunOne(s, DispatchWrite(0, true));
    assert Step(s, DispatchWrite(0, true)) == s1;
    Claiming(s1);
    RunAppend(s, [DispatchWrite(0, true)], WaitAndPoll(s1));
  }

  lemma {:induction false} Flush(s: Sys, d: nat, held: nat, written: nat, status: Status) returns (es: seq<Event>)
    requires Waiting(s, d, held, written, status) && d > 0
    ensures Waiting(Run(s, es), 0, held + 2 * d, written + d, Processing)
    decreases d
  {
    es := DispatchAndPoll(s, d - 1, held, written, status);
    if d > 1 {
      var fs := Flush(Run(s, es), d - 1, held + 2, written + 1, Processing);
      RunAppend(s, es, fs);
      es := es + fs;
    }
  }

  lemma {:induction false} AllCount(q: seq<Note>)
    requires AllNamed(q)
    ensures Sum(CopiesOf(q, NAME)) == |q|
  {
    if q != [] {
      var init := q[..|q| - 1];
      AllCount(init);
      assert q == init + [q[|q| - 1]];
      QueueAppend(init, q[|q| - 1], NAME, 0);
    }
  }

  lemma AllHeld(s: Sys, held: nat, written: nat)
    requires Waiting(s, 0, held, written, Processing)
    ensures Copies(s, NAME) == held && Dispatches(s, NAME) == written
  {
    AllCount(s.held);
    SumZero(CopiesAt(s.workers, NAME));
  }

  /** For any number of dispatches the two tokens of each can be in circulation at once. */
  lemma TokensBoundIsTight(d: nat)
    requires d > 0
    ensures exists s :: Reachable(s) && Dispatches(s, NAME) == d && Copies(s, NAME) == 2 * d
  {
    var s0 := Start(0);
    var fs := PileUp(d);
    var gs := Flush(Run(s0, fs), d, 0, 0, Scheduled);
    RunAppend(s0, fs, gs);
    var s := Run(s0, fs + gs);
    AllHeld(s, 2 * d, d);
    assert Initial(s0) && Reachable(s);
  }

  // ---- the limit: k simultaneous creators overshoot it by k - 1 ----

  function Name(i: nat): (id: string) {
    seq(i, _ => 'n')
  }

  lemma NamesDiffer(i: nat, j: nat)
    ensures Name(i) == Name(j) <==> i == j
  {
    assert |Name(i)| == i && |Name(j)| == j;
  }

  function Creation(i: nat): (e: Event) {
    Save(Sample().(id := Name(i)), None)
  }

  ghost predicate Filled(s: Sys, rows: nat, admitted: nat) {
    && |s.rows| == rows && s.admitted == admitted
    && forall i :: i >= rows ==> Name(i) !in s.rows
  }

  /** The run so far, one event longer. */
  lemma AdmittedSnoc(s0: Sys, es: seq<Event>, e: Event, k: nat)
    requires AdmittedAtMost(s0, es, k) && Step(Run(s0, es), e).admitted <= k
    ensures AdmittedAtMost(s0, es + [e], k) && Run(s0, es + [e]) == Step(Run(s0, es), e)
  {
    RunSnoc(s0, es, e);
    var fs := es + [e];
    forall i | 0 <= i <= |fs| ensures Run(s0, fs[..i]).admitted <= k {
      if i <= |es| {
        assert fs[..i] == es[..i];
      } else {
        assert fs[..i] == fs;
      }
    }
  }

  lemma AdmitOne(s0: Sys, es: seq<Event>, k: nat, rows: nat, admitted: nat)
    requires AdmittedAtMost(s0, es, k) && Filled(Run(s0, es), rows, admitted) && rows < SYSTEM_LIMIT && admitted < k
    ensures AdmittedAtMost(s0, es + [Admit], k) && Filled(Run(s0, es + [Admit]), rows, admitted + 1)
  {
    AdmittedSnoc(s0, es, Admit, k);
  }

  lemma SaveOne(s0: Sys, es: seq<Event>, k: nat, rows: nat, admitted: nat)
    requires AdmittedAtMost(s0, es, k) && Filled(Run(s0, es), rows, admitted + 1)
    ensures var fs := es + [Creation(rows)];
      AdmittedAtMost(s0, fs, k) && Filled(Run(s0, fs), rows + 1, admitted)
  {
    var n := Sample().(id := Name(rows));
    var s := Run(s0, es);
    assert s.admitted <= k by { assert es[..|es|] == es; }
    assert Step(s, Save(n, None)) == DoSave(s, n, None);
    AdmittedSnoc(s0, es, Save(n, None), k);
    forall i: nat | i >= rows + 1 ensures Name(i) !in DoSave(s, n, None).rows {
      NamesDiffer(i, rows);
    }
  }

  /** One creator after another. */
  lemma {:induction false} Fill(s0: Sys, rows: nat, k: nat) returns (es: seq<Event>)
    requires Initial(s0) && rows <= SYSTEM_LIMIT - 1 && k >= 1
    ensures AdmittedAtMost(s0, es, k) && Filled(Run(s0, es), rows, 0)
    decreases rows
  {
    if rows == 0 {
      es := [];
    } else {
      es := Fill(s0, rows - 1, k);
      AdmitOne(s0, es, k, rows - 1, 0);
      es := es + [Admit];
      SaveOne(s0, es, k, rows - 1, 0);
      es := es + [Creation(rows - 1)];
    }
  }

  lemma {:induction false} AdmitAll(s0: Sys, k: nat, a: nat) returns (es: seq<Event>)
    requires Initial(s0) && a <= k && k >= 1
    ensures AdmittedAtMost(s0, es, k) && Filled(Run(s0, es), SYSTEM_LIMIT - 1, a)
    decreases a
  {
    if a == 0 {
      es := Fill(s0, SYSTEM_LIMIT - 1, k);
    } else {
      es := AdmitAll(s0, k, a - 1);
      AdmitOne(s0, es, k, SYSTEM_LIMIT - 1, a - 1);
      es := es + [Admit];
    }
  }

  lemma {:induction false} SaveAll(s0: Sys, k: nat, saved: nat) returns (es: seq<Event>)
    requires Initial(s0) && saved <= k && k >= 1
    ensures AdmittedAtMost(s0, es, k) && Filled(Run(s0, es), SYSTEM_LIMIT - 1 + saved, k - saved)
    decreases saved
  {
    if saved == 0 {
      es := AdmitAll(s0, k, k);
    } else {
      es := SaveAll(s0, k, saved - 1);
      var rows: nat, admitted: nat := SYSTEM_LIMIT - 1 + (saved - 1), k - saved;
      assert Filled(Run(s0, es), rows, admitted + 1);
      SaveOne(s0, es, k, rows, admitted);
      es := es + [Creation(rows)];
    }
  }

  /** The cap of TableCapped is reached for every number of simultaneous creators. */
  lemma CapIsTight(k: nat) returns (s0: Sys, es: seq<Event>)
    requires k >= 1
    ensures Initial(s0) && AdmittedAtMost(s0, es, k) && |Run(s0, es).rows| == SYSTEM_LIMIT - 1 + k
  {
    s0 := Start(0);
    es := SaveAll(s0, k, k);
  }
}
