/** The notification engine as the program has it: two repositories, a bounded channel, the shutdown
    flag, and the bodies of the worker, poller, creator and callback.  The ghost `model` is the state of
    the machine in `Notifications` that `trace` reaches, and `Valid` says the objects show that state;
    so the bounds proved about runs hold of the objects.  Methods run without interference. */
module NotificationSystems {
  import opened Options
  import opened Notifications
  import opened Rendering
  import opened Templates
  import Bounds = NotificationBounds
  import Theorems = NotificationTheorems
  import Losses = NotificationLosses

  class NotificationRepo {
    var rows: map<string, Note>

    constructor ()
      ensures rows == map[]
    {
      rows := map[];
    }

    /** INSERT, with an owner for a notification that has none; a known id or a database error (`ok` is
        false) leaves the table as it was. */
    method Save(n: Note, ok: bool) returns (stored: bool)
      modifies this
      ensures stored == (ok && n.id !in old(rows))
      ensures rows == if stored then old(rows)[n.id := Stored(n)] else old(rows)
    {
      stored := ok && n.id !in rows;
      if stored {
        var owner := n.userId;
        if owner == "" {
          owner := GLOBAL;
        }
        rows := rows[n.id := n.(userId := owner)];
      }
    }

    /** Whole-row UPDATE; with a database error it changes nothing. */
    method Update(n: Note, ok: bool)
      modifies this
      ensures rows == WriteIf(old(rows), n, ok)
    {
      if ok && n.id in rows {
        rows := rows[n.id := n.(userId := rows[n.id].userId)];
      }
    }

    /** The query by id and user; a database error answers like a missing row. */
    method Get(id: string, userId: string, ok: bool) returns (r: Option<Note>)
      ensures r == if ok then Lookup(rows, id, userId) else None
    {
      r := None;
      if ok && id in rows {
        var row := rows[id];
        if userId == SYSTEM || row.userId == userId || row.userId == GLOBAL {
          r := Some(row);
        }
      }
    }

    method GetTotalCount(ok: bool) returns (count: Option<nat>)
      ensures count == if ok then Some(|rows|) else None
    {
      count := if ok then Some(|rows|) else None;
    }

    /** A candidate created no later than any other. */
    method Oldest(candidates: set<string>) returns (first: string)
      requires candidates != {} && candidates <= rows.Keys
      ensures first in candidates && forall id :: id in candidates ==> rows[first].createdAt <= rows[id].createdAt
    {
      first :| first in candidates;
      var rest := candidates - {first};
      while rest != {}
        invariant first in candidates && rest <= candidates
        invariant forall id :: id in candidates - rest ==> rows[first].createdAt <= rows[id].createdAt
        decreases rest
      {
        var id :| id in rest;
        if rows[id].createdAt < rows[first].createdAt {
          first := id;
        }
        rest := rest - {id};
      }
    }

    /** The atomic claim, then the scan over the rows it returned.  A failed statement claims nothing;
        after a failed scan the rows stay claimed, but the caller gets none of them. */
    method GetReadyJobs(now: int, locked: set<string>, fetch: Fetch) returns (jobs: seq<Note>, chosen: seq<string>)
      modifies this
      ensures if fetch.StatementFails? then chosen == [] else PollSelects(old(rows), now, locked, chosen)
      ensures (forall id :: id in chosen ==> id in old(rows)) && rows == MarkClaimed(old(rows), chosen)
      ensures jobs == if fetch.Scanned? then Claimed(old(rows), chosen) else []
      ensures ClaimedInOrder(old(rows), now, locked, fetch, chosen, jobs) && ClaimedOnly(old(rows), rows, chosen)
    {
      jobs, chosen := [], [];
      if fetch.StatementFails? {
        assert rows == MarkClaimed(rows, []);
        return;
      }
      chosen := Select(now, locked);
      ClaimMeans(rows, now, locked, chosen);
      ghost var before := rows;
      rows := MarkClaimed(rows, chosen);
      if fetch.Scanned? {
        jobs := Scan(before, chosen);
      }
    }

    /** Reads the claimed rows in the order in which the statement returns them. */
    method Scan(ghost before: map<string, Note>, chosen: seq<string>) returns (jobs: seq<Note>)
      requires rows == MarkClaimed(before, chosen) && forall id :: id in chosen ==> id in before
      ensures jobs == Claimed(before, chosen)
    {
      jobs := [];
      for k := 0 to |chosen|
        invariant jobs == Claimed(before, chosen[..k])
      {
        assert chosen[..k + 1] == chosen[..k] + [chosen[k]];
        ClaimedAppend(before, chosen[..k], chosen[k]);
        jobs := jobs + [rows[chosen[k]]];
      }
      assert chosen[..|chosen|] == chosen;
    }

    /** The subquery: the oldest ready rows that nobody has locked, fifty at most. */
    method Select(now: int, locked: set<string>) returns (chosen: seq<string>)
      ensures PollSelects(rows, now, locked, chosen)
    {
      var candidates := set id | id in rows && Ready(rows, id, now) && id !in locked;
      ghost var ready := candidates;
      chosen := [];
      while |chosen| < POLL_LIMIT && candidates != {}
        invariant |chosen| <= POLL_LIMIT && candidates <= ready <= rows.Keys
        invariant forall id :: id in ready <==> id in candidates || id in chosen
        invariant forall id :: id in chosen ==> id !in candidates
        invariant forall m, n :: 0 <= m < n < |chosen| ==> chosen[m] != chosen[n]
        invariant forall c, id :: c in chosen && id in candidates ==> rows[c].createdAt <= rows[id].createdAt
        decreases POLL_LIMIT - |chosen|
      {
        var first := Oldest(candidates);
        chosen := chosen + [first];
        candidates := candidates - {first};
      }
    }
  }

  /** PENDING, and its time has come. */
  predicate Due(n: Note, now: int) {
    n.status == Pending && n.nextRetryAt <= now
  }

  /** Fifty rows at most, due and not locked, each once; what is left behind is younger, and only if there were
      fifty.  The jobs are those rows, PROCESSING, unless statement or scan failed. */
  predicate ClaimedInOrder(rows: map<string, Note>, now: int, locked: set<string>, fetch: Fetch, chosen: seq<string>,
                           jobs: seq<Note>) {
    && |chosen| <= 50 && (forall m, n :: 0 <= m < n < |chosen| ==> chosen[m] != chosen[n])
    && (forall c :: c in chosen ==> c in rows && Due(rows[c], now) && c !in locked)
    && (fetch.StatementFails? ==> chosen == [])
    && (!fetch.StatementFails? ==>
          forall id :: id in rows && id !in chosen && id !in locked && Due(rows[id], now) ==>
            |chosen| == 50 && forall c :: c in chosen ==> rows[c].createdAt <= rows[id].createdAt)
    && (if fetch.Scanned?
        then |jobs| == |chosen| && forall k :: 0 <= k < |chosen| ==> jobs[k] == rows[chosen[k]].(status := Processing)
        else jobs == [])
  }

  predicate ClaimedOnly(before: map<string, Note>, after: map<string, Note>, chosen: seq<string>) {
    && after.Keys == before.Keys
    && forall id :: id in before ==> after[id] == if id in chosen then before[id].(status := Processing) else before[id]
  }

  /** What a claim does, row by row. */
  lemma ClaimMeans(rows: map<string, Note>, now: int, locked: set<string>, chosen: seq<string>)
    requires PollSelects(rows, now, locked, chosen)
    ensures forall fetch: Fetch :: !fetch.StatementFails? ==>
      ClaimedInOrder(rows, now, locked, fetch, chosen, if fetch.Scanned? then Claimed(rows, chosen) else [])
    ensures ClaimedOnly(rows, MarkClaimed(rows, chosen), chosen)
  {
    ClaimedAt(rows, chosen);
    assert forall id :: id in rows && Due(rows[id], now) ==> Ready(rows, id, now);
  }

  lemma {:induction false} ClaimedAt(rows: map<string, Note>, chosen: seq<string>)
    requires forall c :: c in chosen ==> c in rows
    ensures |Claimed(rows, chosen)| == |chosen|
    ensures forall k :: 0 <= k < |chosen| ==> Claimed(rows, chosen)[k] == rows[chosen[k]].(status := Processing)
  {
    if chosen != [] {
      ClaimedAt(rows, chosen[1..]);
      forall k | 0 <= k < |chosen| ensures Claimed(rows, chosen)[k] == rows[chosen[k]].(status := Processing) {
        if k > 0 {
          assert Claimed(rows, chosen)[k] == Claimed(rows, chosen[1..])[k - 1];
        }
      }
    }
  }

  lemma {:induction false} ClaimedAppend(rows: map<string, Note>, chosen: seq<string>, id: string)
    requires id in rows && forall c :: c in chosen ==> c in rows
    ensures Claimed(rows, chosen + [id]) == Claimed(rows, chosen) + [ClaimNote(rows[id])]
  {
    if chosen == [] {
      assert chosen + [id] == [id];
    } else {
      assert (chosen + [id])[1..] == chosen[1..] + [id];
      ClaimedAppend(rows, chosen[1..], id);
    }
  }

  /** A new notification with the contents of its request. */
  predicate AsRequested(m: Note, n: Note, executeAt: Option<int>, now: int) {
    && m.id == n.id && m.recipient == n.recipient && m.template == n.template && m.variables == n.variables
    && m.kind == n.kind && m.userId == n.userId && m.retryCount == 0 && m.errorMessage == "" && m.createdAt == now
    && m.status == (if executeAt.Some? then Scheduled else Pending)
    && m.nextRetryAt == if executeAt.Some? then executeAt.value else now
  }

  /** The row of a new notification: what was asked for, with an owner, and SCHEDULED or PENDING; or DLQ with the
      reason, if its delegation failed and the clean-up did not. */
  predicate AsCreated(m: Note, n: Note, executeAt: Option<int>, now: int, delegation: Option<string>, cleans: bool) {
    && m.id == n.id && m.recipient == n.recipient && m.template == n.template && m.variables == n.variables
    && m.kind == n.kind && m.createdAt == now && m.retryCount == 0
    && m.userId == (if n.userId == "" then "global" else n.userId)
    && m.nextRetryAt == (if executeAt.Some? then executeAt.value else now)
    && (if executeAt.Some? && delegation.Some? && cleans
        then m.status == Dlq && m.errorMessage == "failed to schedule task: " + delegation.value
        else m.status == (if executeAt.Some? then Scheduled else Pending) && m.errorMessage == "")
  }

  lemma RequestMeans(n: Note, executeAt: Option<int>, now: int)
    ensures AsRequested(NewNote(n, executeAt, now), n, executeAt, now)
    ensures Stored(NewNote(n, executeAt, now)) ==
      NewNote(n, executeAt, now).(userId := if n.userId == "" then "global" else n.userId)
  {
  }

  const UNSCHEDULED: string := "failed to schedule task: "

  /** A notification that the task scheduler did not take. */
  function Unscheduled(n: Note, reason: string): Note {
    n.(status := Dlq, errorMessage := UNSCHEDULED + reason)
  }

  datatype Created =
    | Accepted(n: Note)
    | Waiting(n: Note)          // saved; its goroutine still waits for a slot in the channel
    | Refused(reason: string)

  /** How the poller's query ends. */
  datatype Fetch = Scanned | ScanFails | StatementFails

  datatype Answer = Dispatched | Deferred | NotFound | NotScheduled(status: Status) | WriteFailed

  /** What the table shows of an attempt whose outcome is stored: SENT exactly after a success of the
      provider that was asked; else one retry more, the provider's own reason, and PENDING after the backoff
      or, with the retries used up, DLQ.  What was to be sent, and every other row, is untouched. */
  predicate Recorded(before: map<string, Note>, after: map<string, Note>, n: Note, asked: bool, answer: Option<string>,
                     stores: bool, maxRetry: nat, now: int) {
    && after.Keys == before.Keys && (forall id :: id in before && id != n.id ==> after[id] == before[id])
    && (stores && n.id in before ==>
          var row := after[n.id];
          && (row.status == Sent <==> asked && answer.None?)
          && (row.status == Sent ==> row.retryCount == n.retryCount && row.errorMessage == "")
          && (row.status != Sent ==>
                && row.retryCount == n.retryCount + 1 && (asked ==> answer == Some(row.errorMessage))
                && (if n.retryCount < maxRetry
                    then row.status == Pending && row.nextRetryAt == now + Pow2(n.retryCount + 1) * SECOND
                    else row.status == Dlq))
          && row.recipient == n.recipient && row.template == n.template && row.variables == n.variables
          && row.kind == n.kind && row.createdAt == n.createdAt && row.userId == before[n.id].userId)
  }

  /** A failure with the retries used up is archived, once for an id, with what was to be sent. */
  predicate Archived(before: map<string, Note>, after: map<string, Note>, n: Note, asked: bool, answer: Option<string>,
                     buries: bool, maxRetry: nat) {
    && (forall id :: id in before ==> id in after && after[id] == before[id])
    && (forall id :: id in after && id !in before ==> id == n.id)
    && (n.id !in before ==>
          (n.id in after <==> buries && !(asked && answer.None?) && n.retryCount >= maxRetry))
    && (n.id in after && n.id !in before ==>
          var entry := after[n.id];
          && entry.status == Dlq && entry.retryCount == n.retryCount + 1
          && (asked ==> answer == Some(entry.errorMessage))
          && entry.recipient == n.recipient && entry.template == n.template && entry.variables == n.variables
          && entry.kind == n.kind && entry.userId == if n.userId == "" then "global" else n.userId)
  }

  lemma RecordedMeans(before: map<string, Note>, n: Note, asked: bool, answer: Option<string>, failure: Option<string>,
                      marks: bool, stores: bool, maxRetry: nat, now: int)
    requires if asked then failure == answer else failure.Some?
    ensures var p := n.(status := Processing);
      var after := WriteIf(WriteIf(before, p, marks), Outcome(p, failure, maxRetry, now), stores);
      Recorded(before, after, n, asked, answer, stores, maxRetry, now)
  {
  }

  lemma ArchivedMeans(before: map<string, Note>, n: Note, asked: bool, answer: Option<string>, failure: Option<string>,
                      buries: bool, maxRetry: nat, now: int)
    requires if asked then failure == answer else failure.Some?
    ensures var o := Outcome(n.(status := Processing), failure, maxRetry, now);
      var after := if o.status == Dlq && buries && n.id !in before then before[n.id := Stored(o)] else before;
      Archived(before, after, n, asked, answer, buries, maxRetry)
  {
  }

  class NotificationSystem {
    const repo: NotificationRepo
    const workerCount: nat
    const maxRetryCount: nat
    const queueSize: nat
    const strategies: set<string>          // the kinds that have a sender
    const templateRepo: TemplateRepository
    var dlq: map<string, Note>
    var channel: seq<Note>
    var shuttingDown: bool
    var clock: int
    ghost const start: Sys
    ghost var trace: seq<Event>
    ghost var model: Sys

    ghost predicate Valid()
      reads this, repo, templateRepo
    {
      && templateRepo.Valid() && Initial(start) && model == Run(start, trace)
      && |model.workers| == workerCount && model.maxRetry == maxRetryCount
      && model.capacity == queueSize && model.now == clock
      && model.rows == repo.rows && model.dlq == dlq && model.channel == channel
    }

    constructor (workerCount: nat, maxRetryCount: nat, queueSize: nat, strategies: set<string>,
                 templateRepo: TemplateRepository, now: int)
      requires templateRepo.Valid()
      ensures Valid() && trace == [] && fresh(repo) && model.workers == seq(workerCount, _ => Idle)
      ensures this.maxRetryCount == maxRetryCount && this.queueSize == queueSize && !shuttingDown
      ensures this.strategies == strategies && this.templateRepo == templateRepo
    {
      repo := new NotificationRepo();
      this.workerCount, this.maxRetryCount, this.queueSize := workerCount, maxRetryCount, queueSize;
      this.strategies, this.templateRepo := strategies, templateRepo;
      dlq, channel, shuttingDown, clock, trace := map[], [], false, now, [];
      var w := seq(workerCount, _ => Idle);
      var s := Sys(now, maxRetryCount, queueSize, map[], map[], [], [], [], [], 0, w, map[], map[]);
      start, model := s, s;
    }

    /** One more step of the machine. */
    ghost method Log(e: Event)
      requires Initial(start) && model == Run(start, trace)
      modifies this`trace, this`model
      ensures model == Run(start, trace) && trace == old(trace) + [e] && model == Step(old(model), e)
    {
      assert (trace + [e])[..|trace|] == trace;
      trace := trace + [e];
      model := Step(model, e);
    }

    /** Time passes. */
    method PassTime(nanos: nat)
      requires Valid()
      modifies this`clock, this`trace, this`model
      ensures Valid() && clock == old(clock) + nanos && trace == old(trace) + [Advance(nanos)]
    {
      Log(Advance(nanos));
      clock := clock + nanos;
    }

    // ---- worker ----

    /** Takes the head of the channel. */
    method Receive(ghost i: nat) returns (n: Note)
      requires Valid() && i < |model.workers| && model.workers[i].Idle? && channel != []
      modifies this`channel, this`trace, this`model
      ensures Valid() && trace == old(trace) + [Take(i)] && model.workers == old(model).workers[i := Taken(n)]
      ensures n == old(channel)[0] && channel == old(channel)[1..]
    {
      n := channel[0];
      Log(Take(i));
      channel := channel[1..];
    }

    method MarkProcessing(ghost i: nat, n: Note, ok: bool)
      requires Valid() && i < |model.workers| && model.workers[i] == Taken(n)
      modifies this`trace, this`model, repo
      ensures Valid() && trace == old(trace) + [Begin(i, ok)] && model.sends == old(model).sends
      ensures model.workers == old(model).workers[i := Sending(n.(status := Processing))]
      ensures repo.rows == WriteIf(old(repo.rows), n.(status := Processing), ok)
    {
      repo.Update(n.(status := Processing), ok);
      Log(Begin(i, ok));
    }

    /** What the e-mail sender makes of a notification when its provider gives `answer`: one fixed
        recipient, and templates that do not resolve for the owner or cannot be read, are refused
        without asking it. */
    function EmailFailure(n: Note, loads: bool, answer: Option<string>): Option<string>
      requires templateRepo.Valid()
      reads templateRepo
    {
      if n.recipient == "fail@example.com" then Some("permanent email sending failure for testing")
      else if !loads || n.template !in View(templateRepo.rows, n.userId) then Some("load template")
      else answer
    }

    function Failure(n: Note, loads: bool, answer: Option<string>): Option<string>
      requires templateRepo.Valid()
      reads templateRepo
    {
      if n.kind !in strategies then Some("strategy sender not found for type: " + n.kind)
      else if n.kind == "EMAIL" then EmailFailure(n, loads, answer)
      else answer
    }

    /** The e-mail sender; `body` is what it hands to the provider, `loads` says whether the template can
        be read. */
    method SendEmail(n: Note, loads: bool, answer: Option<string>) returns (failure: Option<string>, body: string)
      requires Valid()
      ensures failure == EmailFailure(n, loads, answer)
      ensures failure.None? <==>
        n.recipient != "fail@example.com" && loads && n.template in View(templateRepo.rows, n.userId) && answer.None?
      ensures n.recipient != "fail@example.com" && loads && n.template in View(templateRepo.rows, n.userId) ==>
        failure == answer
      ensures n.recipient == "fail@example.com" ==>
        failure == Some("permanent email sending failure for testing") && body == ""
      ensures n.recipient != "fail@example.com" && !(loads && n.template in View(templateRepo.rows, n.userId)) ==>
        failure == Some("load template") && body == ""
      ensures n.recipient != "fail@example.com" && loads && n.template in View(templateRepo.rows, n.userId) ==>
        && (exists order :: Enumerates(order, n.variables.Keys)
                            && body == RenderIn(View(templateRepo.rows, n.userId)[n.template], order, n.variables))
        && (Separate(n.variables) ==>
              forall parts :: Readable(parts, n.variables.Keys)
                              && Print(parts) == View(templateRepo.rows, n.userId)[n.template] ==>
                body == Print(Substitute(parts, n.variables)))
    {
      body := "";
      if n.recipient == "fail@example.com" {
        return Some("permanent email sending failure for testing"), body;
      }
      var template := templateRepo.Get(n.template, n.userId, loads);
      if template.None? {
        return Some("load template"), body;
      }
      ghost var order;
      body, order := Render(template.value, n.variables);
      failure := answer;
    }

    /** The sender of the notification's kind; without one nothing is called. */
    method Deliver(n: Note, loads: bool, answer: Option<string>) returns (called: bool, failure: Option<string>)
      requires Valid()
      ensures called == (n.kind in strategies) && failure == Failure(n, loads, answer)
    {
      called, failure := n.kind in strategies, answer;
      if !called {
        failure := Some("strategy sender not found for type: " + n.kind);
      } else if n.kind == "EMAIL" {
        var body;
        failure, body := SendEmail(n, loads, answer);
      }
    }

    method Job(ghost i: nat, n: Note, loads: bool, answer: Option<string>) returns (failure: Option<string>)
      requires Valid() && i < |model.workers| && model.workers[i] == Sending(n)
      modifies this`trace, this`model
      ensures Valid() && trace == old(trace) + [Send(i, n.kind in strategies, failure)]
      ensures failure == Failure(n, loads, answer)
      ensures model.workers == old(model).workers[i := Returned(n, failure)]
      ensures model.sends == if n.kind in strategies then old(model).sends[n.id := Count(old(model).sends, n.id) + 1]
                             else old(model).sends
    {
      var called;
      called, failure := Deliver(n, loads, answer);
      NoteSend(i, n, called, failure);
    }

    ghost method NoteSend(i: nat, n: Note, called: bool, failure: Option<string>)
      requires Valid() && i < |model.workers| && model.workers[i] == Sending(n) && (!called ==> failure.Some?)
      modifies this`trace, this`model
      ensures Valid() && trace == old(trace) + [Send(i, called, failure)]
      ensures model.workers == old(model).workers[i := Returned(n, failure)]
      ensures model.sends == if called then old(model).sends[n.id := Count(old(model).sends, n.id) + 1]
        else old(model).sends
    {
      assert Step(model, Send(i, called, failure)) == DoSend(model, i, called, failure);
      Log(Send(i, called, failure));
    }

    /** What becomes of the copy after the sender has returned. */
    method Settle(n: Note, failure: Option<string>) returns (o: Note)
      ensures o == Outcome(n, failure, maxRetryCount, clock)
    {
      o := n;
      if failure.Some? {
        o := o.(retryCount := o.retryCount + 1, errorMessage := failure.value);
        if o.retryCount > maxRetryCount {
          o := o.(status := Dlq);
        } else {
          o := o.(nextRetryAt := clock + Pow2(o.retryCount) * SECOND, status := Pending);
        }
      } else {
        o := o.(status := Sent, errorMessage := "");
      }
    }

    /** The outcome, written over the whole row. */
    method Conclude(ghost i: nat, n: Note, failure: Option<string>, ok: bool) returns (o: Note)
      requires Valid() && i < |model.workers| && model.workers[i] == Returned(n, failure)
      modifies this`trace, this`model, repo
      ensures Valid() && trace == old(trace) + [Finish(i, ok)] && model.sends == old(model).sends
      ensures o == Outcome(n, failure, maxRetryCount, clock) && repo.rows == WriteIf(old(repo.rows), o, ok)
      ensures model.workers == old(model).workers[i := if o.status == Dlq then Burying(o) else Idle]
    {
      o := Settle(n, failure);
      repo.Update(o, ok);
      Log(Finish(i, ok));
    }

    /** The dead-letter insert; the primary key refuses a second entry for the id. */
    method SaveDlq(ghost i: nat, n: Note, ok: bool)
      requires Valid() && i < |model.workers| && model.workers[i] == Burying(n)
      modifies this`dlq, this`trace, this`model
      ensures Valid() && trace == old(trace) + [Bury(i, ok)] && model.sends == old(model).sends
      ensures model.workers == old(model).workers[i := Idle]
      ensures dlq == if ok && n.id !in old(dlq) then old(dlq)[n.id := Stored(n)] else old(dlq)
    {
      Log(Bury(i, ok));
      if ok && n.id !in dlq {
        dlq := dlq[n.id := if n.userId == "" then n.(userId := GLOBAL) else n];
      }
    }

    /** The first half of the worker's loop body: mark and send. */
    method Attempt(ghost i: nat, n: Note, loads: bool, answer: Option<string>, marks: bool)
      returns (p: Note, failure: Option<string>)
      requires Valid() && i < |model.workers| && model.workers[i] == Taken(n)
      modifies this`trace, this`model, repo
      ensures Valid() && old(trace) <= trace && p == n.(status := Processing) && failure == Failure(p, loads, answer)
      ensures model.workers == old(model).workers[i := Returned(p, failure)]
      ensures repo.rows == WriteIf(old(repo.rows), p, marks)
      ensures Count(model.sends, n.id) == Count(old(model).sends, n.id) + if n.kind in strategies then 1 else 0
    {
      MarkProcessing(i, n, marks);
      p := n.(status := Processing);
      failure := Job(i, p, loads, answer);
    }

    /** The body of the worker's loop for one notification.  `answer` is the provider's, the flags say
        which of the worker's and the sender's database statements succeed. */
    method Process(ghost i: nat, n: Note, answer: Option<string>, marks: bool, loads: bool, stores: bool, buries: bool)
      requires Valid() && i < |model.workers| && model.workers[i] == Taken(n)
      modifies this`trace, this`model, this`dlq, repo
      ensures Valid() && model.workers == old(model).workers[i := Idle] && old(trace) <= trace
      ensures var p := n.(status := Processing);
        var o := Outcome(p, Failure(p, loads, answer), maxRetryCount, clock);
        && repo.rows == WriteIf(WriteIf(old(repo.rows), p, marks), o, stores)
        && dlq == if o.status == Dlq && buries && n.id !in old(dlq) then old(dlq)[n.id := Stored(o)] else old(dlq)
      ensures Count(model.sends, n.id) == Count(old(model).sends, n.id) + if n.kind in strategies then 1 else 0
      ensures var asked := n.kind in strategies &&
          (n.kind == "EMAIL" ==>
             n.recipient != "fail@example.com" && loads && n.template in View(templateRepo.rows, n.userId));
        && Recorded(old(repo.rows), repo.rows, n, asked, answer, stores, maxRetryCount, clock)
        && Archived(old(dlq), dlq, n, asked, answer, buries, maxRetryCount)
    {
      Turn(i, n, answer, marks, loads, stores, buries);
      ghost var failure := Failure(n.(status := Processing), loads, answer);
      ghost var asked := FailureMeans(n, loads, answer);
      RecordedMeans(old(repo.rows), n, asked, answer, failure, marks, stores, maxRetryCount, clock);
      ArchivedMeans(old(dlq), n, asked, answer, failure, buries, maxRetryCount, clock);
    }

    lemma FailureMeans(n: Note, loads: bool, answer: Option<string>) returns (asked: bool)
      requires templateRepo.Valid()
      ensures asked == (n.kind in strategies &&
        (n.kind == "EMAIL" ==>
           n.recipient != "fail@example.com" && loads && n.template in View(templateRepo.rows, n.userId)))
      ensures var failure := Failure(n.(status := Processing), loads, answer);
        if asked then failure == answer else failure.Some?
    {
      asked := n.kind in strategies &&
        (n.kind == "EMAIL" ==>
           n.recipient != "fail@example.com" && loads && n.template in View(templateRepo.rows, n.userId));
    }

    /** The same, in terms of what a failure makes of the copy. */
    method Turn(ghost i: nat, n: Note, answer: Option<string>, marks: bool, loads: bool, stores: bool, buries: bool)
      requires Valid() && i < |model.workers| && model.workers[i] == Taken(n)
      modifies this`trace, this`model, this`dlq, repo
      ensures Valid() && model.workers == old(model).workers[i := Idle] && old(trace) <= trace
      ensures var p := n.(status := Processing);
        var o := Outcome(p, Failure(p, loads, answer), maxRetryCount, clock);
        && repo.rows == WriteIf(WriteIf(old(repo.rows), p, marks), o, stores)
        && dlq == if o.status == Dlq && buries && n.id !in old(dlq) then old(dlq)[n.id := Stored(o)] else old(dlq)
      ensures Count(model.sends, n.id) == Count(old(model).sends, n.id) + if n.kind in strategies then 1 else 0
    {
      var p, failure := Attempt(i, n, loads, answer, marks);
      Finalize(i, p, failure, stores, buries);
      assert model.workers == old(model).workers[i := Idle];
    }

    /** The second half: record the outcome, and archive a notification whose retries are used up. */
    method Finalize(ghost i: nat, p: Note, failure: Option<string>, stores: bool, buries: bool)
      requires Valid() && i < |model.workers| && model.workers[i] == Returned(p, failure)
      modifies this`trace, this`model, this`dlq, repo
      ensures Valid() && old(trace) <= trace && model.workers == old(model).workers[i := Idle]
      ensures model.sends == old(model).sends
      ensures var o := Outcome(p, failure, maxRetryCount, clock);
        && repo.rows == WriteIf(old(repo.rows), o, stores)
        && dlq == if o.status == Dlq && buries && o.id !in old(dlq) then old(dlq)[o.id := Stored(o)] else old(dlq)
    {
      var o := Conclude(i, p, failure, stores);
      if o.status == Dlq {
        SaveDlq(i, o, buries);
      }
      assert model.workers == old(model).workers[i := Idle];
    }

    // ---- goroutines that hold a copy ----

    /** A held copy goes on the channel. */
    method Enqueue(ghost h: nat, n: Note)
      requires Valid() && h < |model.held| && model.held[h] == n && |channel| < queueSize
      modifies this`channel, this`trace, this`model
      ensures Valid() && trace == old(trace) + [Push(h)] && model.held == Without(old(model).held, h)
      ensures channel == old(channel) + [n]
    {
      Log(Push(h));
      channel := channel + [n];
    }

    /** The poller's query.  Jobs that are claimed but cannot be scanned are lost to it. */
    method Claim(locked: set<string>, fetch: Fetch) returns (jobs: seq<Note>, chosen: seq<string>)
      requires Valid()
      modifies this`trace, this`model, repo
      ensures Valid() && old(trace) <= trace && model.held == old(model).held + jobs
      ensures if fetch.StatementFails? then chosen == [] else PollSelects(old(repo.rows), clock, locked, chosen)
      ensures (forall id :: id in chosen ==> id in old(repo.rows)) && repo.rows == MarkClaimed(old(repo.rows), chosen)
      ensures jobs == if fetch.Scanned? then Claimed(old(repo.rows), chosen) else []
      ensures ClaimedInOrder(old(repo.rows), clock, locked, fetch, chosen, jobs)
      ensures ClaimedOnly(old(repo.rows), repo.rows, chosen)
    {
      ghost var held, before := model.held, repo.rows;
      if fetch.StatementFails? {
        jobs, chosen := repo.GetReadyJobs(clock, locked, fetch);
        assert MarkClaimed(before, []) == before;
        return;
      }
      jobs, chosen := ClaimRows(locked, fetch);
      ClaimMeans(before, clock, locked, chosen);
      if fetch.ScanFails? {
        DropAll(held, Claimed(before, chosen));
      }
    }

    /** The statement succeeds. */
    method ClaimRows(locked: set<string>, fetch: Fetch) returns (jobs: seq<Note>, chosen: seq<string>)
      requires Valid() && !fetch.StatementFails?
      modifies this`trace, this`model, repo
      ensures Valid() && trace == old(trace) + [Poll(locked, chosen)]
      ensures PollSelects(old(repo.rows), clock, locked, chosen) && repo.rows == MarkClaimed(old(repo.rows), chosen)
      ensures model.held == old(model).held + Claimed(old(repo.rows), chosen)
      ensures jobs == if fetch.Scanned? then Claimed(old(repo.rows), chosen) else []
    {
      jobs, chosen := repo.GetReadyJobs(clock, locked, fetch);
      PollStep(model, locked, chosen);
      Log(Poll(locked, chosen));
    }

    lemma PollStep(s: Sys, locked: set<string>, chosen: seq<string>)
      requires PollSelects(s.rows, s.now, locked, chosen)
      ensures Step(s, Poll(locked, chosen)) == DoPoll(s, chosen)
    {
    }

    ghost method DropAll(held: seq<Note>, jobs: seq<Note>)
      requires Valid() && model.held == held + jobs
      modifies this`trace, this`model
      ensures Valid() && old(trace) <= trace && model.held == held
    {
      for k := 0 to |jobs|
        invariant Valid() && old(trace) <= trace && model.held == held + jobs[k..]
      {
        OneMore(held, jobs, k);
        Drop(|held|);
      }
    }

    lemma OneMore(held: seq<Note>, jobs: seq<Note>, k: nat)
      requires k < |jobs|
      ensures (held + jobs[k..])[|held|] == jobs[k] && Without(held + jobs[k..], |held|) == held + jobs[k + 1..]
      ensures jobs[..k] + [jobs[k]] == jobs[..k + 1]
    {
    }

    /** How many of the jobs go on a channel of this length before the poller stops or has to wait. */
    function Room(jobs: nat, queued: nat): nat
      reads this`shuttingDown
    {
      if shuttingDown || queued >= queueSize then 0 else if jobs <= queueSize - queued then jobs else queueSize - queued
    }

    /** Sends on the channel in order, until the system shuts down or there is no free slot. */
    method Forward(ghost held: seq<Note>, jobs: seq<Note>) returns (sent: nat)
      requires Valid() && model.held == held + jobs
      modifies this`channel, this`trace, this`model
      ensures Valid() && old(trace) <= trace
      ensures sent == Room(|jobs|, |old(channel)|) && channel == old(channel) + jobs[..sent]
    {
      sent := 0;
      while sent < |jobs| && !shuttingDown && |channel| < queueSize
        invariant Valid() && old(trace) <= trace && sent <= |jobs|
        invariant model.held == held + jobs[sent..] && channel == old(channel) + jobs[..sent]
        invariant sent <= Room(|jobs|, |old(channel)|)
      {
        OneMore(held, jobs, sent);
        Enqueue(|held|, jobs[sent]);
        sent := sent + 1;
      }
    }

    /** One turn of the retry poller: what it claims goes on the channel, as far as that goes. */
    method PollOnce(locked: set<string>, fetch: Fetch) returns (jobs: seq<Note>, chosen: seq<string>, sent: nat)
      requires Valid()
      modifies this`channel, this`trace, this`model, repo
      ensures Valid() && old(trace) <= trace
      ensures if fetch.StatementFails? then chosen == [] else PollSelects(old(repo.rows), clock, locked, chosen)
      ensures (forall id :: id in chosen ==> id in old(repo.rows)) && repo.rows == MarkClaimed(old(repo.rows), chosen)
      ensures jobs == if fetch.Scanned? then Claimed(old(repo.rows), chosen) else []
      ensures sent == Room(|jobs|, |old(channel)|) && channel == old(channel) + jobs[..sent]
      ensures ClaimedInOrder(old(repo.rows), clock, locked, fetch, chosen, jobs)
      ensures ClaimedOnly(old(repo.rows), repo.rows, chosen)
      ensures (shuttingDown ==> sent == 0) && (!shuttingDown && sent < |jobs| ==> |channel| >= queueSize)
      ensures sent > 0 ==> |channel| <= queueSize
    {
      ghost var held := model.held;
      jobs, chosen := Claim(locked, fetch);
      sent := Forward(held, jobs);
    }

    /** The limit check; without an answer of the database nobody is admitted. */
    method Admission(counts: bool) returns (ok: bool)
      requires Valid()
      modifies this`trace, this`model
      ensures Valid() && ok == (counts && |repo.rows| < SYSTEM_LIMIT)
      ensures trace == (if ok then old(trace) + [Admit] else old(trace)) && (ok ==> model.admitted > 0)
    {
      var totalCount := repo.GetTotalCount(counts);
      ok := totalCount.Some? && totalCount.value < SYSTEM_LIMIT;
      if ok {
        Log(Admit);
      }
    }

    ghost method GiveUp()
      requires Valid() && model.admitted > 0
      modifies this`trace, this`model
      ensures Valid() && trace == old(trace) + [Abandon]
    {
      Log(Abandon);
    }

    /** The insert. */
    method SaveRow(n: Note, executeAt: Option<int>, ok: bool) returns (row: Note)
      requires Valid() && n.id !in repo.rows && model.admitted > 0
      modifies this`trace, this`model, repo
      ensures Valid() && trace == old(trace) + [if ok then Save(n, executeAt) else Abandon]
      ensures row == NewNote(n, executeAt, clock)
      ensures repo.rows == if ok then old(repo.rows)[n.id := Stored(row)] else old(repo.rows)
      ensures ok && executeAt.Some? ==> model.scheduling == old(model).scheduling + [row]
      ensures ok && executeAt.None? ==> model.held == old(model).held + [row]
    {
      row := NewNote(n, executeAt, clock);
      var stored := repo.Save(row, ok);
      Log(if ok then Save(n, executeAt) else Abandon);
    }

    predicate Admissible(n: Note)
      requires templateRepo.Valid()
      reads this`shuttingDown, repo, templateRepo
    {
      !shuttingDown && |repo.rows| < SYSTEM_LIMIT && n.template in View(templateRepo.rows, n.userId)
    }

    /** The creator's checks: shutdown, the limit, the template; the two queries may fail. */
    method Guard(n: Note, counts: bool, loads: bool) returns (refusal: Option<string>)
      requires Valid()
      modifies this`trace, this`model
      ensures Valid() && old(trace) <= trace && (refusal.None? ==> model.admitted > 0)
      ensures refusal.None? <==> old(Admissible(n)) && counts && loads
    {
      if shuttingDown {
        return Some("notification system is shutting down");
      }
      var admitted := Admission(counts);
      if !admitted {
        return Some("system threshold exceeded");
      }
      var template := templateRepo.Get(n.template, n.userId, loads);
      if template.None? {
        GiveUp();
        return Some("invalid template name");
      }
      refusal := None;
    }

    /** Where a saved notification ends up: an immediate one on the channel, if it has a free slot. */
    function Placed(row: Note, executeAt: Option<int>, queued: nat): Created {
      if executeAt.Some? || queued < queueSize then Accepted(row) else Waiting(row)
    }

    /** What the creator does once it is past its checks. */
    method Submit(n: Note, executeAt: Option<int>, ok: bool) returns (r: Created)
      requires Valid() && n.id !in repo.rows && model.admitted > 0
      modifies this`channel, this`trace, this`model, repo
      ensures Valid() && old(trace) <= trace
      ensures !ok ==> r.Refused? && repo.rows == old(repo.rows) && channel == old(channel)
      ensures ok ==>
        && r == Placed(NewNote(n, executeAt, clock), executeAt, |old(channel)|)
        && repo.rows == old(repo.rows)[n.id := Stored(r.n)]
      ensures ok ==> channel == old(channel) + if r.Accepted? && executeAt.None? then [r.n] else []
      ensures ok && executeAt.Some? ==> model.scheduling != [] && model.scheduling[|model.scheduling| - 1] == r.n
    {
      var row := SaveRow(n, executeAt, ok);
      if !ok {
        return Refused("save notification");
      }
      if executeAt.Some? {
        return Accepted(row);
      }
      if |channel| >= queueSize {
        return Waiting(row);
      }
      Enqueue(|model.held| - 1, row);
      r := Accepted(row);
    }

    /** Checks the limit and the template, saves the row, and hands an immediate notification over.
        `counts`, `loads` and `ok` say which of the three statements succeed. */
    method CreateNotification(n: Note, executeAt: Option<int>, counts: bool, loads: bool, ok: bool) returns (r: Created)
      requires Valid() && n.id !in repo.rows    // a fresh UUID
      modifies this`channel, this`trace, this`model, repo
      ensures Valid() && old(trace) <= trace
      ensures r.Refused? <==> !(counts && loads && ok && !shuttingDown && |old(repo.rows)| < 100
                                && n.template in View(templateRepo.rows, n.userId))
      ensures r.Refused? ==> repo.rows == old(repo.rows) && channel == old(channel)
      ensures !r.Refused? ==>
        && AsRequested(r.n, n, executeAt, clock) && (r.Accepted? <==> executeAt.Some? || |old(channel)| < queueSize)
        && repo.rows == old(repo.rows)[n.id := r.n.(userId := if n.userId == "" then "global" else n.userId)]
        && channel == old(channel) + if r.Accepted? && executeAt.None? then [r.n] else []
      ensures !r.Refused? && executeAt.Some? ==>
        model.scheduling != [] && model.scheduling[|model.scheduling| - 1] == r.n
    {
      AdmissibleMeans(n);
      RequestMeans(n, executeAt, clock);
      r := Register(n, executeAt, counts, loads, ok);
    }

    lemma AdmissibleMeans(n: Note)
      requires templateRepo.Valid()
      ensures Admissible(n) <==>
        !shuttingDown && |repo.rows| < 100 && n.template in View(templateRepo.rows, n.userId)
    {
    }

    /** The same, in terms of the functions for the new row and its place. */
    method Register(n: Note, executeAt: Option<int>, counts: bool, loads: bool, ok: bool) returns (r: Created)
      requires Valid() && n.id !in repo.rows
      modifies this`channel, this`trace, this`model, repo
      ensures Valid() && old(trace) <= trace
      ensures if old(Admissible(n)) && counts && loads && ok
        then && r == Placed(NewNote(n, executeAt, clock), executeAt, |old(channel)|)
             && repo.rows == old(repo.rows)[n.id := Stored(r.n)]
             && channel == old(channel) + if r.Accepted? && executeAt.None? then [r.n] else []
        else r.Refused? && repo.rows == old(repo.rows) && channel == old(channel)
      ensures !r.Refused? && executeAt.Some? ==>
        model.scheduling != [] && model.scheduling[|model.scheduling| - 1] == r.n
    {
      ghost var admitted := Admissible(n) && counts && loads;
      var refusal := Guard(n, counts, loads);
      if refusal.Some? {
        return Refused(refusal.value);
      }
      assert admitted;
      r := Submit(n, executeAt, ok);
    }

    // ---- shutdown ----

    /** A last turn of a worker: whatever the sender and the statements answer, only rows of this
        notification change. */
    method LastTurn(ghost i: nat) returns (n: Note)
      requires Valid() && i < |model.workers| && model.workers[i].Idle? && channel != []
      modifies this`trace, this`model, this`dlq, this`channel, repo
      ensures Valid() && old(trace) <= trace && model.workers == old(model).workers
      ensures n == old(channel)[0] && channel == old(channel)[1..] && repo.rows.Keys == old(repo.rows).Keys
      ensures forall id :: id in old(repo.rows) && id != n.id ==> repo.rows[id] == old(repo.rows)[id]
    {
      n := Receive(i);
      var answer: Option<string>, marks: bool, loads: bool, stores: bool, buries: bool := *, *, *, *, *;
      ghost var rows := repo.rows;
      Process(i, n, answer, marks, loads, stores, buries);
      var p := n.(status := Processing);
      OnlyItsRow(rows, p, marks, Outcome(p, Failure(p, loads, answer), maxRetryCount, clock), stores);
      assert model.workers == old(model).workers;
    }

    lemma OnlyItsRow(rows: map<string, Note>, p: Note, marks: bool, o: Note, stores: bool)
      requires o.id == p.id
      ensures var rows' := WriteIf(WriteIf(rows, p, marks), o, stores);
        rows'.Keys == rows.Keys && forall id :: id in rows && id != p.id ==> rows'[id] == rows[id]
    {
    }

    /** Stops the engine: creators are refused from now on, a worker takes an arbitrary number of further
        jobs before it notices, and every goroutine that waits for a slot in the channel gives up its copy.
        The rest of the channel goes with the process, and every notification that is PROCESSING then is
        lost.  A second call would close the channel twice. */
    method Shutdown() returns (taken: nat)
      requires Valid() && !shuttingDown && forall i :: 0 <= i < |model.workers| ==> model.workers[i].Idle?
      modifies this`shuttingDown, this`trace, this`model, this`dlq, this`channel, repo
      ensures Valid() && old(trace) <= trace && shuttingDown && channel == [] && taken <= |old(channel)|
      ensures repo.rows.Keys == old(repo.rows).Keys
      ensures forall id :: id in old(repo.rows) && (forall k :: 0 <= k < taken ==> old(channel)[k].id != id) ==>
        repo.rows[id] == old(repo.rows)[id]
      ensures forall id :: id in repo.rows && repo.rows[id].status == Processing ==> Losses.Stranded(model, id)
      ensures forall n :: !Admissible(n)
      ensures forall jobs, queued :: Room(jobs, queued) == 0
    {
      shuttingDown := true;
      taken := LastTurns();
      EndProcess();
    }

    /** What the workers still do; the loop ends when they notice. */
    method LastTurns() returns (taken: nat)
      requires Valid() && shuttingDown && forall i :: 0 <= i < |model.workers| ==> model.workers[i].Idle?
      modifies this`trace, this`model, this`dlq, this`channel, repo
      ensures Valid() && old(trace) <= trace
      ensures taken <= |old(channel)| && channel == old(channel)[taken..] && repo.rows.Keys == old(repo.rows).Keys
      ensures forall id :: id in old(repo.rows) && (forall k :: 0 <= k < taken ==> old(channel)[k].id != id) ==>
        repo.rows[id] == old(repo.rows)[id]
    {
      taken := 0;
      var notices: bool := *;
      while channel != [] && workerCount > 0 && !notices
        invariant Valid() && old(trace) <= trace && model.workers == old(model).workers
        invariant taken <= |old(channel)| && channel == old(channel)[taken..] && repo.rows.Keys == old(repo.rows).Keys
        invariant forall id :: id in old(repo.rows) && (forall k :: 0 <= k < taken ==> old(channel)[k].id != id) ==>
          repo.rows[id] == old(repo.rows)[id]
        decreases |channel|
      {
        var n := LastTurn(0);
        taken := taken + 1;
        notices := *;
      }
    }

    /** The channel is closed with what is on it, and every goroutine ends. */
    method EndProcess()
      requires Valid()
      modifies this`trace, this`model, this`channel
      ensures Valid() && trace == old(trace) + [Halt] && channel == []
      ensures forall id :: id in repo.rows && repo.rows[id].status == Processing ==> Losses.Stranded(model, id)
    {
      forall id | id in repo.rows && repo.rows[id].status == Processing
        ensures Losses.Stranded(DoHalt(model), id)
      {
        Losses.HaltStrands(model, id);
      }
      assert Step(model, Halt) == DoHalt(model);
      Log(Halt);
      channel := [];
    }

    // ---- the HTTP handlers ----

    /** The clean-up after a failed delegation. */
    method MarkUnscheduled(n: Note, reason: string, ok: bool)
      requires Valid() && model.scheduling != [] && model.scheduling[|model.scheduling| - 1] == n
      modifies this`trace, this`model, repo
      ensures Valid() && trace == old(trace) + [CleanUp(|old(model).scheduling| - 1, ok, reason)]
      ensures repo.rows == WriteIf(old(repo.rows), n.(status := Dlq, errorMessage := reason), ok)
    {
      repo.Update(n.(status := Dlq, errorMessage := reason), ok);
      Log(CleanUp(|model.scheduling| - 1, ok, reason));
    }

    ghost method Handed()
      requires Valid() && model.scheduling != []
      modifies this`trace, this`model
      ensures Valid() && trace == old(trace) + [Delegated(|old(model).scheduling| - 1)]
    {
      Log(Delegated(|model.scheduling| - 1));
    }

    /** POST /notifications: a scheduled one is delegated to the task scheduler, and marked DLQ if that
        fails.  `delegation` is the failure that the task scheduler answers with, if any; the flags say
        which of the four statements succeed. */
    method Create(n: Note, executeAt: Option<int>, counts: bool, loads: bool, ok: bool,
                  delegation: Option<string>, cleans: bool) returns (r: Created)
      requires Valid() && n.id !in repo.rows
      modifies this`channel, this`trace, this`model, repo
      ensures Valid() && old(trace) <= trace
      ensures var admitted := counts && loads && ok && !shuttingDown && |old(repo.rows)| < 100
                              && n.template in View(templateRepo.rows, n.userId);
        && (r.Refused? <==> !admitted || (executeAt.Some? && delegation.Some?))
        && (!admitted ==> repo.rows == old(repo.rows))
        && (admitted ==>
              && n.id in repo.rows && repo.rows == old(repo.rows)[n.id := repo.rows[n.id]]
              && AsCreated(repo.rows[n.id], n, executeAt, clock, delegation, cleans))
    {
      r := CreateNotification(n, executeAt, counts, loads, ok);
      if !r.Refused? && executeAt.Some? {
        var row := r.n;
        assert model.scheduling != [] && model.scheduling[|model.scheduling| - 1] == row;
        r := Delegate(row, delegation, cleans);
        CleanedUp(old(repo.rows), row, delegation, cleans);
      }
    }

    /** Hands a saved notification to the task scheduler, and cleans up if that fails. */
    method Delegate(n: Note, delegation: Option<string>, cleans: bool) returns (r: Created)
      requires Valid() && model.scheduling != [] && model.scheduling[|model.scheduling| - 1] == n
      modifies this`trace, this`model, repo
      ensures Valid() && old(trace) <= trace
      ensures r == if delegation.Some? then Refused(delegation.value) else Accepted(n)
      ensures repo.rows == if delegation.None? then old(repo.rows)
        else WriteIf(old(repo.rows), Unscheduled(n, delegation.value), cleans)
    {
      if delegation.Some? {
        MarkUnscheduled(n, UNSCHEDULED + delegation.value, cleans);
        r := Refused(delegation.value);
      } else {
        Handed();
        r := Accepted(n);
      }
    }

    /** The table after a save and the clean-up of the same notification. */
    lemma CleanedUp(rows: map<string, Note>, n: Note, delegation: Option<string>, cleans: bool)
      ensures delegation.Some? ==>
        WriteIf(rows[n.id := Stored(n)], Unscheduled(n, delegation.value), cleans)
        == rows[n.id := if cleans then Unscheduled(Stored(n), delegation.value) else Stored(n)]
    {
    }

    /** The callback's first query. */
    method Check(id: string, finds: bool) returns (found: Option<Note>)
      requires Valid()
      modifies this`trace, this`model
      ensures Valid() && found == if finds && id in repo.rows then Some(repo.rows[id]) else None
      ensures found.Some? && found.value.status == Scheduled ==>
        trace == old(trace) + [DispatchCheck(id)] && model.dispatching == old(model).dispatching + [found.value]
      ensures found.None? || found.value.status != Scheduled ==> trace == old(trace) && model == old(model)
    {
      found := repo.Get(id, SYSTEM, finds);
      if found.Some? && found.value.status == Scheduled {
        Log(DispatchCheck(id));
      }
    }

    /** The callback's write. */
    method Release(found: Note, ok: bool) returns (n: Note)
      requires Valid() && model.dispatching != [] && model.dispatching[|model.dispatching| - 1] == found
      modifies this`trace, this`model, repo
      ensures Valid() && trace == old(trace) + [DispatchWrite(|old(model).dispatching| - 1, ok)]
      ensures n == found.(status := Pending, nextRetryAt := clock) && repo.rows == WriteIf(old(repo.rows), n, ok)
      ensures ok ==> model.held == old(model).held + [n]
    {
      n := found.(status := Pending, nextRetryAt := clock);
      repo.Update(n, ok);
      Log(DispatchWrite(|model.dispatching| - 1, ok));
    }

    ghost method Drop(h: nat)
      requires Valid() && h < |model.held|
      modifies this`trace, this`model
      ensures Valid() && trace == old(trace) + [Discard(h)] && model.held == Without(old(model).held, h)
    {
      Log(Discard(h));
    }

    predicate Dispatchable(id: string)
      reads this, repo
    {
      id in repo.rows && repo.rows[id].status == Scheduled
    }

    /** The task scheduler's callback: a SCHEDULED row becomes PENDING and goes straight on the channel
        if there is a slot; otherwise the poller will find it.  `finds` and `ok` say whether the query and
        the write succeed. */
    method DispatchCallback(id: string, finds: bool, ok: bool) returns (r: Answer)
      requires Valid()
      modifies this`channel, this`trace, this`model, repo
      ensures Valid() && old(trace) <= trace
      ensures r == if !finds || id !in old(repo.rows) then NotFound
                   else if old(repo.rows)[id].status != Scheduled then NotScheduled(old(repo.rows)[id].status)
                   else if !ok then WriteFailed
                   else if |old(channel)| < queueSize then Dispatched else Deferred
      ensures repo.rows == if finds && old(Dispatchable(id)) && ok
                           then old(repo.rows)[id := old(repo.rows)[id].(status := Pending, nextRetryAt := clock)]
                           else old(repo.rows)
      ensures channel == if r.Dispatched? then old(channel) + [repo.rows[id]] else old(channel)
    {
      var found := Check(id, finds);
      if found.None? {
        return NotFound;
      }
      if found.value.status != Scheduled {
        return NotScheduled(found.value.status);
      }
      RowNamed(id);
      var n := Release(found.value, ok);
      if !ok {
        return WriteFailed;
      }
      if |channel| < queueSize {
        Enqueue(|model.held| - 1, n);
        return Dispatched;
      }
      Drop(|model.held| - 1);
      r := Deferred;
    }

    /** The bound holds of the objects: the copies of one notification that are on the channel, with a
        worker, or with a goroutine on its way to the channel, and a PENDING row in the table. */
    lemma TokensHold(id: string)
      requires Valid()
      ensures Bounds.Sum(Bounds.CopiesOf(model.held, id)) + Bounds.Sum(Bounds.CopiesOf(channel, id))
           + Bounds.Sum(Bounds.CopiesAt(model.workers, id))
           + (if id in repo.rows && repo.rows[id].status == Pending then 1 else 0)
           <= 2 * Theorems.AtLeastOne(Bounds.Dispatches(model, id))
    {
      Theorems.TokensBounded(model, id);
    }

    lemma RowNamed(id: string)
      requires Valid() && id in repo.rows
      ensures repo.rows[id].id == id
    {
      Bounds.RunBudgeted(start, trace, id);
    }
  }
}
