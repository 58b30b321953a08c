/** How often one notification can be in circulation and how often it can be sent.  A freshly created
    row is both claimable and on the channel, so "once" is false; what holds is a budget: two tokens
    (a copy, or a PENDING row) per dispatch, and maxRetry + 1 sends per token. */
module NotificationBounds {
  import opened Options
  import opened Notifications

  // ---- what one notification has in circulation ----

  /** Sends that a fresh copy with this retry count can still cause. */
  function Weight(retryCount: nat, maxRetry: nat): nat {
    if retryCount <= maxRetry then maxRetry + 1 - retryCount else 0
  }

  function CopyIn(n: Note, id: string): nat {
    if n.id == id then 1 else 0
  }

  function WeightIn(n: Note, id: string, maxRetry: nat): nat {
    if n.id == id then Weight(n.retryCount, maxRetry) else 0
  }

  function CopyAt(w: Work, id: string): nat {
    match w
    case Idle => 0
    case Taken(n) => CopyIn(n, id)
    case Sending(n) => CopyIn(n, id)
    case Returned(n, _) => CopyIn(n, id)
    case Burying(_) => 0
  }

  /** A copy that has been sent may still cause the sends of its retries. */
  function WeightAt(w: Work, id: string, maxRetry: nat): nat {
    match w
    case Idle => 0
    case Taken(n) => WeightIn(n, id, maxRetry)
    case Sending(n) => WeightIn(n, id, maxRetry)
    case Returned(n, _) => if n.id == id then Weight(n.retryCount + 1, maxRetry) else 0
    case Burying(_) => 0
  }

  function Sum(ms: seq<nat>): nat {
    if ms == [] then 0 else ms[0] + Sum(ms[1..])
  }

  function CopiesOf(q: seq<Note>, id: string): seq<nat> {
    seq(|q|, k requires 0 <= k < |q| => CopyIn(q[k], id))
  }

  function WeightsOf(q: seq<Note>, id: string, maxRetry: nat): seq<nat> {
    seq(|q|, k requires 0 <= k < |q| => WeightIn(q[k], id, maxRetry))
  }

  function CopiesAt(ws: seq<Work>, id: string): seq<nat> {
    seq(|ws|, i requires 0 <= i < |ws| => CopyAt(ws[i], id))
  }

  function WeightsAt(ws: seq<Work>, id: string, maxRetry: nat): seq<nat> {
    seq(|ws|, i requires 0 <= i < |ws| => WeightAt(ws[i], id, maxRetry))
  }

  /** Live copies of a notification. */
  function Copies(s: Sys, id: string): nat {
    Sum(CopiesOf(s.held, id)) + Sum(CopiesOf(s.channel, id)) + Sum(CopiesAt(s.workers, id))
  }

  /** Sends those copies can still cause. */
  function Potential(s: Sys, id: string): nat {
    Sum(WeightsOf(s.held, id, s.maxRetry)) + Sum(WeightsOf(s.channel, id, s.maxRetry))
    + Sum(WeightsAt(s.workers, id, s.maxRetry))
  }

  /** Callbacks that found the row SCHEDULED and have not written it yet. */
  function Reading(s: Sys, id: string): nat {
    Sum(CopiesOf(s.dispatching, id))
  }

  /** Dispatches that got past the SCHEDULED check and did not fail. */
  function Dispatches(s: Sys, id: string): nat {
    Reading(s, id) + Count(s.written, id)
  }

  function RowToken(s: Sys, id: string): nat {
    if id in s.rows && s.rows[id].status == Pending then 1 else 0
  }

  function RowPotential(s: Sys, id: string): nat {
    if id in s.rows && s.rows[id].status == Pending then Weight(s.rows[id].retryCount, s.maxRetry) else 0
  }

  // ---- sums ----

  lemma {:induction false} SumReplace(ms: seq<nat>, i: nat, m: nat)
    requires i < |ms|
    ensures ms[i] <= Sum(ms)
    ensures Sum(ms[i := m]) == Sum(ms) - ms[i] + m
  {
    if i == 0 {
      assert ms[i := m][1..] == ms[1..];
    } else {
      SumReplace(ms[1..], i - 1, m);
      assert ms[i := m][1..] == ms[1..][i - 1 := m];
    }
  }

  lemma {:induction false} SumAppend(a: seq<nat>, b: seq<nat>)
    ensures Sum(a + b) == Sum(a) + Sum(b)
  {
    if a == [] {
      assert a + b == b;
    } else {
      SumAppend(a[1..], b);
      assert (a + b)[1..] == a[1..] + b;
    }
  }

  lemma SumWithout(ms: seq<nat>, h: nat)
    requires h < |ms|
    ensures Sum(Without(ms, h)) == Sum(ms) - ms[h]
    ensures ms[h] <= Sum(ms)
  {
    SumAppend(ms[..h], ms[h + 1..]);
    SumAppend(ms[..h], ms[h..]);
    assert ms == ms[..h] + ms[h..];
    assert ms[h..][1..] == ms[h + 1..];
  }

  lemma {:induction false} SumZero(ms: seq<nat>)
    requires forall i :: 0 <= i < |ms| ==> ms[i] == 0
    ensures Sum(ms) == 0
  {
    if ms != [] {
      SumZero(ms[1..]);
    }
  }

  lemma QueueAppend(q: seq<Note>, n: Note, id: string, maxRetry: nat)
    ensures Sum(CopiesOf(q + [n], id)) == Sum(CopiesOf(q, id)) + CopyIn(n, id)
    ensures Sum(WeightsOf(q + [n], id, maxRetry)) == Sum(WeightsOf(q, id, maxRetry)) + WeightIn(n, id, maxRetry)
  {
    assert CopiesOf(q + [n], id) == CopiesOf(q, id) + [CopyIn(n, id)];
    assert WeightsOf(q + [n], id, maxRetry) == WeightsOf(q, id, maxRetry) + [WeightIn(n, id, maxRetry)];
    SumAppend(CopiesOf(q, id), [CopyIn(n, id)]);
    SumAppend(WeightsOf(q, id, maxRetry), [WeightIn(n, id, maxRetry)]);
    assert Sum([CopyIn(n, id)]) == CopyIn(n, id);
    assert Sum([WeightIn(n, id, maxRetry)]) == WeightIn(n, id, maxRetry);
  }

  lemma QueueWithout(q: seq<Note>, h: nat, id: string, maxRetry: nat)
    requires h < |q|
    ensures Sum(CopiesOf(Without(q, h), id)) == Sum(CopiesOf(q, id)) - CopyIn(q[h], id)
    ensures Sum(WeightsOf(Without(q, h), id, maxRetry)) ==
      Sum(WeightsOf(q, id, maxRetry)) - WeightIn(q[h], id, maxRetry)
  {
    assert CopiesOf(Without(q, h), id) == Without(CopiesOf(q, id), h);
    assert WeightsOf(Without(q, h), id, maxRetry) == Without(WeightsOf(q, id, maxRetry), h);
    SumWithout(CopiesOf(q, id), h);
    SumWithout(WeightsOf(q, id, maxRetry), h);
  }

  lemma QueueConcat(q: seq<Note>, r: seq<Note>, id: string, maxRetry: nat)
    ensures Sum(CopiesOf(q + r, id)) == Sum(CopiesOf(q, id)) + Sum(CopiesOf(r, id))
    ensures Sum(WeightsOf(q + r, id, maxRetry)) == Sum(WeightsOf(q, id, maxRetry)) + Sum(WeightsOf(r, id, maxRetry))
  {
    assert CopiesOf(q + r, id) == CopiesOf(q, id) + CopiesOf(r, id);
    assert WeightsOf(q + r, id, maxRetry) == WeightsOf(q, id, maxRetry) + WeightsOf(r, id, maxRetry);
    SumAppend(CopiesOf(q, id), CopiesOf(r, id));
    SumAppend(WeightsOf(q, id, maxRetry), WeightsOf(r, id, maxRetry));
  }

  lemma WorkerReplaced(ws: seq<Work>, i: nat, w: Work, id: string, maxRetry: nat)
    requires i < |ws|
    ensures CopyAt(ws[i], id) <= Sum(CopiesAt(ws, id))
    ensures WeightAt(ws[i], id, maxRetry) <= Sum(WeightsAt(ws, id, maxRetry))
    ensures Sum(CopiesAt(ws[i := w], id)) == Sum(CopiesAt(ws, id)) - CopyAt(ws[i], id) + CopyAt(w, id)
    ensures Sum(WeightsAt(ws[i := w], id, maxRetry)) ==
      Sum(WeightsAt(ws, id, maxRetry)) - WeightAt(ws[i], id, maxRetry) + WeightAt(w, id, maxRetry)
  {
    assert CopiesAt(ws[i := w], id) == CopiesAt(ws, id)[i := CopyAt(w, id)];
    assert WeightsAt(ws[i := w], id, maxRetry) == WeightsAt(ws, id, maxRetry)[i := WeightAt(w, id, maxRetry)];
    SumReplace(CopiesAt(ws, id), i, CopyAt(w, id));
    SumReplace(WeightsAt(ws, id, maxRetry), i, WeightAt(w, id, maxRetry));
  }

  lemma {:induction false} ClaimedLoad(rows: map<string, Note>, chosen: seq<string>, id: string, maxRetry: nat)
    requires forall c :: c in chosen ==> c in rows && rows[c].id == c
    requires forall m, n :: 0 <= m < n < |chosen| ==> chosen[m] != chosen[n]
    ensures Sum(CopiesOf(Claimed(rows, chosen), id)) == if id in chosen then 1 else 0
    ensures Sum(WeightsOf(Claimed(rows, chosen), id, maxRetry)) ==
      if id in chosen then Weight(rows[id].retryCount, maxRetry) else 0
  {
    if chosen != [] {
      var c, rest := chosen[0], chosen[1..];
      assert id in chosen <==> id == c || id in rest;
      assert c !in rest;
      ClaimedLoad(rows, rest, id, maxRetry);
      QueueConcat([ClaimNote(rows[c])], Claimed(rows, rest), id, maxRetry);
      QueueAppend([], ClaimNote(rows[c]), id, maxRetry);
      assert [] + [ClaimNote(rows[c])] == [ClaimNote(rows[c])];
    }
  }

  // ---- every copy belongs to a row and has retries left ----

  predicate NoteOk(ids: set<string>, n: Note, limit: nat) {
    n.id in ids && n.retryCount <= limit
  }

  predicate QueueOk(ids: set<string>, q: seq<Note>, limit: nat) {
    forall k :: 0 <= k < |q| ==> NoteOk(ids, q[k], limit)
  }

  predicate WorkOk(ids: set<string>, w: Work, maxRetry: nat) {
    match w
    case Idle => true
    case Burying(n) => n.id in ids
    case _ => NoteOk(ids, w.n, maxRetry)
  }

  predicate WorkersOk(ids: set<string>, ws: seq<Work>, maxRetry: nat) {
    forall i :: 0 <= i < |ws| ==> WorkOk(ids, ws[i], maxRetry)
  }

  predicate RowOk(n: Note, maxRetry: nat) {
    (n.status == Pending ==> n.retryCount <= maxRetry) && (n.status == Scheduled ==> n.retryCount == 0)
  }

  predicate RowsOk(rows: map<string, Note>, maxRetry: nat) {
    forall id :: id in rows ==> rows[id].id == id && RowOk(rows[id], maxRetry)
  }

  predicate Sound(s: Sys) {
    && RowsOk(s.rows, s.maxRetry)
    && QueueOk(s.rows.Keys, s.held, s.maxRetry) && QueueOk(s.rows.Keys, s.channel, s.maxRetry)
    && QueueOk(s.rows.Keys, s.scheduling, 0) && QueueOk(s.rows.Keys, s.dispatching, 0)
    && WorkersOk(s.rows.Keys, s.workers, s.maxRetry)
    && s.sends.Keys <= s.rows.Keys && s.written.Keys <= s.rows.Keys && s.dlq.Keys <= s.rows.Keys
  }

  lemma WriteOk(rows: map<string, Note>, n: Note, stored: bool, maxRetry: nat)
    requires RowsOk(rows, maxRetry) && RowOk(n, maxRetry)
    ensures RowsOk(WriteIf(rows, n, stored), maxRetry) && WriteIf(rows, n, stored).Keys == rows.Keys
  {
  }

  lemma {:induction false} ClaimedOk(rows: map<string, Note>, chosen: seq<string>, now: int, maxRetry: nat)
    requires RowsOk(rows, maxRetry) && forall c :: c in chosen ==> Ready(rows, c, now)
    ensures (forall c :: c in chosen ==> c in rows) && QueueOk(rows.Keys, Claimed(rows, chosen), maxRetry)
  {
    if chosen != [] {
      ClaimedOk(rows, chosen[1..], now, maxRetry);
      var q := Claimed(rows, chosen);
      assert forall c :: c in chosen ==> Ready(rows, c, now);
      forall k | 0 <= k < |q| ensures NoteOk(rows.Keys, q[k], maxRetry) {
        if k == 0 {
          assert chosen[0] in chosen && q[0] == ClaimNote(rows[chosen[0]]);
        } else {
          assert q[k] == Claimed(rows, chosen[1..])[k - 1];
        }
      }
    }
  }

  lemma TakeSound(s: Sys, i: nat)
    requires Sound(s) && i < |s.workers| && s.channel != []
    ensures Sound(DoTake(s, i))
  {
  }

  lemma BeginSound(s: Sys, i: nat, stored: bool)
    requires Sound(s) && i < |s.workers| && s.workers[i].Taken?
    ensures Sound(DoBegin(s, i, stored))
  {
    WriteOk(s.rows, s.workers[i].n.(status := Processing), stored, s.maxRetry);
  }

  lemma SendSound(s: Sys, i: nat, called: bool, failure: Option<string>)
    requires Sound(s) && i < |s.workers| && s.workers[i].Sending?
    ensures Sound(DoSend(s, i, called, failure))
  {
    assert WorkOk(s.rows.Keys, s.workers[i], s.maxRetry);
  }

  lemma FinishSound(s: Sys, i: nat, stored: bool)
    requires Sound(s) && i < |s.workers| && s.workers[i].Returned?
    ensures Sound(DoFinish(s, i, stored))
  {
    var n := s.workers[i].n;
    OutcomeShape(n, s.workers[i].failure, s.maxRetry, s.now);
    WriteOk(s.rows, Outcome(n, s.workers[i].failure, s.maxRetry, s.now), stored, s.maxRetry);
  }

  lemma BurySound(s: Sys, i: nat, stored: bool)
    requires Sound(s) && i < |s.workers| && s.workers[i].Burying?
    ensures Sound(DoBury(s, i, stored))
  {
    assert WorkOk(s.rows.Keys, s.workers[i], s.maxRetry);
  }

  lemma WorkerStepSound(s: Sys, e: Event)
    requires Sound(s) && ByWorker(e) && Enabled(s, e)
    ensures Sound(Step(s, e)) && Step(s, e).maxRetry == s.maxRetry
  {
    match e
    case Take(i) => TakeSound(s, i);
    case Begin(i, stored) => BeginSound(s, i, stored);
    case Send(i, called, failure) => SendSound(s, i, called, failure);
    case Finish(i, stored) => FinishSound(s, i, stored);
    case Bury(i, stored) => BurySound(s, i, stored);
    case Panic(i) =>
  }

  predicate ByWorker(e: Event) {
    e.Take? || e.Begin? || e.Send? || e.Finish? || e.Bury? || e.Panic?
  }

  lemma PushSound(s: Sys, h: nat)
    requires Sound(s) && h < |s.held|
    ensures Sound(DoPush(s, h)) && Sound(DoDiscard(s, h))
  {
  }

  lemma CleanUpSound(s: Sys, h: nat, stored: bool, reason: string)
    requires Sound(s) && h < |s.scheduling|
    ensures Sound(DoCleanUp(s, h, stored, reason)) && Sound(s.(scheduling := Without(s.scheduling, h)))
  {
    WriteOk(s.rows, s.scheduling[h].(status := Dlq, errorMessage := reason), stored, s.maxRetry);
  }

  lemma PollSound(s: Sys, chosen: seq<string>)
    requires Sound(s) && forall c :: c in chosen ==> c in s.rows && Ready(s.rows, c, s.now)
    ensures Sound(DoPoll(s, chosen))
  {
    ClaimedOk(s.rows, chosen, s.now, s.maxRetry);
  }

  lemma CheckSound(s: Sys, id: string)
    requires Sound(s) && id in s.rows && s.rows[id].status == Scheduled
    ensures Sound(DoDispatchCheck(s, id))
  {
  }

  lemma HaltSound(s: Sys)
    requires Sound(s)
    ensures Sound(DoHalt(s))
  {
  }

  lemma StepSound(s: Sys, e: Event)
    requires Sound(s)
    ensures Sound(Step(s, e)) && Step(s, e).maxRetry == s.maxRetry
  {
    if !Enabled(s, e) {
    } else if ByWorker(e) {
      WorkerStepSound(s, e);
    } else {
      match e
      case Advance(_) =>
      case Admit =>
      case Abandon =>
      case Save(n, executeAt) => SaveSound(s, n, executeAt);
      case Delegated(h) => CleanUpSound(s, h, false, "");
      case CleanUp(h, stored, reason) => CleanUpSound(s, h, stored, reason);
      case Push(h) => PushSound(s, h);
      case Discard(h) => PushSound(s, h);
      case Poll(_, chosen) => PollSound(s, chosen);
      case DispatchCheck(id) => CheckSound(s, id);
      case DispatchWrite(h, stored) => DispatchWriteSound(s, h, stored);
      case Halt => HaltSound(s);
    }
  }

  lemma SaveSound(s: Sys, n: Note, executeAt: Option<int>)
    requires Sound(s) && s.admitted > 0
    ensures Sound(DoSave(s, n, executeAt))
  {
  }

  lemma DispatchWriteSound(s: Sys, h: nat, stored: bool)
    requires Sound(s) && h < |s.dispatching|
    ensures Sound(DoDispatchWrite(s, h, stored))
  {
    WriteOk(s.rows, s.dispatching[h].(status := Pending, nextRetryAt := s.now), stored, s.maxRetry);
  }

  // ---- the budget ----

  datatype View = View(known: bool, scheduled: bool, token: nat, rowWeight: nat, copies: nat, weight: nat, reading: nat,
                       written: nat, sends: nat, maxRetry: nat)

  function ViewOf(s: Sys, id: string): View {
    View(id in s.rows, id in s.rows && s.rows[id].status == Scheduled, RowToken(s, id), RowPotential(s, id),
         Copies(s, id), Potential(s, id), Reading(s, id), Count(s.written, id), Count(s.sends, id), s.maxRetry)
  }

  /** Dispatches that have already spent their share; an immediate notification has one share, a
      scheduled one gets it from its first dispatch. */
  function Quota(v: View): int {
    var d := v.reading + v.written;
    (if d == 0 then 1 else d) - v.reading - (if v.scheduled && d == 0 then 1 else 0)
  }

  predicate Budgeted(v: View) {
    && v.token <= 1 && v.rowWeight <= (v.maxRetry + 1) * v.token && (v.scheduled ==> v.token == 0 && v.written == 0)
    && (!v.known ==> v.copies == 0 && v.weight == 0 && v.token == 0 && v.reading == 0 && v.written == 0 && v.sends == 0)
    && v.copies + v.token <= 2 * Quota(v)
    && v.sends + v.weight + v.rowWeight <= 2 * (v.maxRetry + 1) * Quota(v)
  }

  /** Steps that only use up tokens. */
  predicate Spends(v: View, w: View) {
    && w.known == v.known && w.maxRetry == v.maxRetry && (w.scheduled ==> v.scheduled)
    && w.reading == v.reading && w.written == v.written
    && w.token <= 1 && w.rowWeight <= (w.maxRetry + 1) * w.token && (w.scheduled ==> w.token == 0)
    && w.copies + w.token <= v.copies + v.token
    && w.sends + w.weight + w.rowWeight <= v.sends + v.weight + v.rowWeight
    && (!v.known ==> w.sends == 0)
  }

  lemma SpendingKeeps(v: View, w: View)
    requires Budgeted(v) && Spends(v, w)
    ensures Budgeted(w)
  {
    assert Quota(v) <= Quota(w);
    MulMonotone(2 * (v.maxRetry + 1), Quota(v), Quota(w));
  }

  lemma MulMonotone(b: nat, x: int, y: int)
    requires x <= y
    ensures b * x <= b * y
  {
  }

  /** The row part of a view after a whole-row write that does not make it SCHEDULED. */
  lemma RowAfterWrite(s: Sys, s': Sys, n: Note, stored: bool, id: string)
    requires s'.rows == WriteIf(s.rows, n, stored) && s'.maxRetry == s.maxRetry && n.status != Scheduled
    ensures id in s'.rows <==> id in s.rows
    ensures if stored && n.id == id && id in s.rows
      then s'.rows[id].status == n.status && s'.rows[id].retryCount == n.retryCount
      else id in s.rows ==> s'.rows[id] == s.rows[id]
  {
  }

  lemma PushBudgeted(s: Sys, h: nat, id: string)
    requires Sound(s) && h < |s.held|
    requires Budgeted(ViewOf(s, id))
    ensures Budgeted(ViewOf(DoPush(s, h), id))
  {
    QueueWithout(s.held, h, id, s.maxRetry);
    QueueAppend(s.channel, s.held[h], id, s.maxRetry);
    assert ViewOf(DoPush(s, h), id) == ViewOf(s, id);
  }

  lemma TakeMoves(s: Sys, i: nat, id: string)
    requires i < |s.workers| && s.workers[i].Idle? && s.channel != []
    ensures Copies(DoTake(s, i), id) == Copies(s, id) && Potential(DoTake(s, i), id) == Potential(s, id)
  {
    QueueWithout(s.channel, 0, id, s.maxRetry);
    assert Without(s.channel, 0) == s.channel[1..];
    WorkerReplaced(s.workers, i, Taken(s.channel[0]), id, s.maxRetry);
  }

  lemma TakeBudgeted(s: Sys, i: nat, id: string)
    requires i < |s.workers| && s.workers[i].Idle? && s.channel != [] && Budgeted(ViewOf(s, id))
    ensures Budgeted(ViewOf(DoTake(s, i), id))
  {
    TakeMoves(s, i, id);
    assert ViewOf(DoTake(s, i), id) == ViewOf(s, id);
  }

  lemma BeginBudgeted(s: Sys, i: nat, stored: bool, id: string)
    requires Sound(s) && i < |s.workers| && s.workers[i].Taken?
    requires Budgeted(ViewOf(s, id))
    ensures Budgeted(ViewOf(DoBegin(s, i, stored), id))
  {
    var n := s.workers[i].n.(status := Processing);
    WorkerReplaced(s.workers, i, Sending(n), id, s.maxRetry);
    RowAfterWrite(s, DoBegin(s, i, stored), n, stored, id);
    SpendingKeeps(ViewOf(s, id), ViewOf(DoBegin(s, i, stored), id));
  }

  lemma SendBudgeted(s: Sys, i: nat, called: bool, failure: Option<string>, id: string)
    requires Sound(s) && i < |s.workers| && s.workers[i].Sending?
    requires Budgeted(ViewOf(s, id))
    ensures Budgeted(ViewOf(DoSend(s, i, called, failure), id))
  {
    assert WorkOk(s.rows.Keys, s.workers[i], s.maxRetry);
    WorkerReplaced(s.workers, i, Returned(s.workers[i].n, failure), id, s.maxRetry);
    SpendingKeeps(ViewOf(s, id), ViewOf(DoSend(s, i, called, failure), id));
  }

  lemma FinishBudgeted(s: Sys, i: nat, stored: bool, id: string)
    requires Sound(s) && i < |s.workers| && s.workers[i].Returned?
    requires Budgeted(ViewOf(s, id))
    ensures Budgeted(ViewOf(DoFinish(s, i, stored), id))
  {
    var s' := DoFinish(s, i, stored);
    WorkerReplaced(s.workers, i, s'.workers[i], id, s.maxRetry);
    OutcomeShape(s.workers[i].n, s.workers[i].failure, s.maxRetry, s.now);
    RowAfterWrite(s, s', Outcome(s.workers[i].n, s.workers[i].failure, s.maxRetry, s.now), stored, id);
    SpendingKeeps(ViewOf(s, id), ViewOf(DoFinish(s, i, stored), id));
  }

  lemma OutcomeShape(n: Note, failure: Option<string>, maxRetry: nat, now: int)
    ensures var o := Outcome(n, failure, maxRetry, now);
      && o.id == n.id && o.status in {Sent, Dlq, Pending}
      && (o.status == Pending ==> o.retryCount == n.retryCount + 1 <= maxRetry)
  {
  }

  /** A worker that stops, for whatever reason, gives up its copy. */
  lemma StopBudgeted(s: Sys, i: nat, id: string)
    requires i < |s.workers|
    requires Budgeted(ViewOf(s, id))
    ensures Budgeted(ViewOf(SetWorker(s, i, Idle), id))
  {
    WorkerReplaced(s.workers, i, Idle, id, s.maxRetry);
    SpendingKeeps(ViewOf(s, id), ViewOf(SetWorker(s, i, Idle), id));
  }

  lemma DiscardBudgeted(s: Sys, h: nat, id: string)
    requires h < |s.held|
    requires Budgeted(ViewOf(s, id))
    ensures Budgeted(ViewOf(DoDiscard(s, h), id))
  {
    QueueWithout(s.held, h, id, s.maxRetry);
    SpendingKeeps(ViewOf(s, id), ViewOf(DoDiscard(s, h), id));
  }

  lemma CleanUpBudgeted(s: Sys, h: nat, stored: bool, reason: string, id: string)
    requires h < |s.scheduling|
    requires Budgeted(ViewOf(s, id))
    ensures Budgeted(ViewOf(DoCleanUp(s, h, stored, reason), id))
  {
    var n := s.scheduling[h].(status := Dlq, errorMessage := reason);
    RowAfterWrite(s, DoCleanUp(s, h, stored, reason), n, stored, id);
    SpendingKeeps(ViewOf(s, id), ViewOf(DoCleanUp(s, h, stored, reason), id));
  }

  lemma PollBudgeted(s: Sys, chosen: seq<string>, id: string)
    requires Sound(s) && forall c :: c in chosen ==> c in s.rows && Ready(s.rows, c, s.now)
    requires forall m, n :: 0 <= m < n < |chosen| ==> chosen[m] != chosen[n]
    requires Budgeted(ViewOf(s, id))
    ensures Budgeted(ViewOf(DoPoll(s, chosen), id))
  {
    ClaimedLoad(s.rows, chosen, id, s.maxRetry);
    QueueConcat(s.held, Claimed(s.rows, chosen), id, s.maxRetry);
    SpendingKeeps(ViewOf(s, id), ViewOf(DoPoll(s, chosen), id));
  }

  // ---- the three events that create or release a budget ----

  lemma SaveOfOther(s: Sys, n: Note, executeAt: Option<int>, id: string)
    requires s.admitted > 0 && n.id != id
    ensures ViewOf(DoSave(s, n, executeAt), id) == ViewOf(s, id)
  {
    QueueAppend(s.held, NewNote(n, executeAt, s.now), id, s.maxRetry);
  }

  lemma SaveOfOwn(s: Sys, n: Note, executeAt: Option<int>)
    requires s.admitted > 0 && n.id !in s.rows && Budgeted(ViewOf(s, n.id))
    ensures Budgeted(ViewOf(DoSave(s, n, executeAt), n.id))
  {
    QueueAppend(s.held, NewNote(n, executeAt, s.now), n.id, s.maxRetry);
  }

  lemma SaveBudgeted(s: Sys, n: Note, executeAt: Option<int>, id: string)
    requires Sound(s) && s.admitted > 0 && n.id !in s.rows && Budgeted(ViewOf(s, id))
    ensures Budgeted(ViewOf(DoSave(s, n, executeAt), id))
  {
    if n.id == id {
      SaveOfOwn(s, n, executeAt);
    } else {
      SaveOfOther(s, n, executeAt, id);
    }
  }

  lemma CheckBudgeted(s: Sys, k: string, id: string)
    requires Sound(s) && k in s.rows && s.rows[k].status == Scheduled && Budgeted(ViewOf(s, id))
    ensures Budgeted(ViewOf(DoDispatchCheck(s, k), id))
  {
    QueueAppend(s.dispatching, s.rows[k], id, s.maxRetry);
    var v, w := ViewOf(s, id), ViewOf(DoDispatchCheck(s, k), id);
    assert Quota(w) == Quota(v);
  }

  /** What a dispatch that writes the row does to its notification. */
  predicate Spawns(v: View, w: View) {
    && v.known && w.known && w.maxRetry == v.maxRetry && !w.scheduled && w.sends == v.sends
    && w.reading == v.reading - 1 && w.written == v.written + 1
    && w.token == 1 && w.rowWeight == w.maxRetry + 1
    && w.copies == v.copies + 1 && w.weight == v.weight + w.maxRetry + 1
  }

  lemma SpawningKeeps(v: View, w: View)
    requires Budgeted(v) && Spawns(v, w)
    ensures Budgeted(w)
  {
    assert Quota(w) >= Quota(v) + 1;
    MulMonotone(2 * (v.maxRetry + 1), Quota(v) + 1, Quota(w));
  }

  /** A dispatch whose write fails. */
  lemma GivingUpKeeps(v: View, w: View)
    requires Budgeted(v) && v.reading > 0 && v.known && w == v.(reading := v.reading - 1)
    ensures Budgeted(w)
  {
    assert Quota(w) >= Quota(v);
    MulMonotone(2 * (v.maxRetry + 1), Quota(v), Quota(w));
  }

  lemma DispatchSpawns(s: Sys, h: nat, id: string)
    requires h < |s.dispatching| && NoteOk(s.rows.Keys, s.dispatching[h], 0) && s.dispatching[h].id == id
    ensures Spawns(ViewOf(s, id), ViewOf(DoDispatchWrite(s, h, true), id))
  {
    var n := s.dispatching[h].(status := Pending, nextRetryAt := s.now);
    QueueWithout(s.dispatching, h, id, s.maxRetry);
    QueueAppend(s.held, n, id, s.maxRetry);
    RowAfterWrite(s, DoDispatchWrite(s, h, true), n, true, id);
  }

  lemma DispatchFails(s: Sys, h: nat, id: string)
    requires h < |s.dispatching|
    ensures var n := CopyIn(s.dispatching[h], id);
      && n <= Reading(s, id)
      && ViewOf(DoDispatchWrite(s, h, false), id) == ViewOf(s, id).(reading := Reading(s, id) - n)
  {
    SumWithout(CopiesOf(s.dispatching, id), h);
    QueueWithout(s.dispatching, h, id, s.maxRetry);
  }

  lemma DispatchOfOther(s: Sys, h: nat, stored: bool, id: string)
    requires h < |s.dispatching| && s.dispatching[h].id != id
    ensures ViewOf(DoDispatchWrite(s, h, stored), id) == ViewOf(s, id)
  {
    var n := s.dispatching[h].(status := Pending, nextRetryAt := s.now);
    var s' := DoDispatchWrite(s, h, stored);
    HeldOfOther(s, h, stored, id);
    RowOfOther(s, s', n, stored, id);
    QueueWithout(s.dispatching, h, id, s.maxRetry);
  }

  lemma HeldOfOther(s: Sys, h: nat, stored: bool, id: string)
    requires h < |s.dispatching| && s.dispatching[h].id != id
    ensures var s' := DoDispatchWrite(s, h, stored);
      Copies(s', id) == Copies(s, id) && Potential(s', id) == Potential(s, id)
  {
    QueueAppend(s.held, s.dispatching[h].(status := Pending, nextRetryAt := s.now), id, s.maxRetry);
  }

  lemma RowOfOther(s: Sys, s': Sys, n: Note, stored: bool, id: string)
    requires s'.rows == WriteIf(s.rows, n, stored) && s'.maxRetry == s.maxRetry && n.id != id
    ensures id in s'.rows <==> id in s.rows
    ensures RowToken(s', id) == RowToken(s, id) && RowPotential(s', id) == RowPotential(s, id)
    ensures id in s.rows ==> s'.rows[id] == s.rows[id]
  {
  }

  lemma DispatchBudgeted(s: Sys, h: nat, stored: bool, id: string)
    requires Sound(s) && h < |s.dispatching| && Budgeted(ViewOf(s, id))
    ensures Budgeted(ViewOf(DoDispatchWrite(s, h, stored), id))
  {
    var v, w := ViewOf(s, id), ViewOf(DoDispatchWrite(s, h, stored), id);
    assert NoteOk(s.rows.Keys, s.dispatching[h], 0);
    if s.dispatching[h].id != id {
      DispatchOfOther(s, h, stored, id);
    } else if stored {
      DispatchSpawns(s, h, id);
      SpawningKeeps(v, w);
    } else {
      DispatchFails(s, h, id);
      GivingUpKeeps(v, w);
    }
  }

  lemma HaltEmpties(s: Sys, id: string)
    ensures var s' := DoHalt(s);
      && Copies(s', id) == 0 && Potential(s', id) == 0 && Reading(s', id) == 0
      && RowToken(s', id) == RowToken(s, id) && RowPotential(s', id) == RowPotential(s, id)
  {
    SumZero(CopiesAt(DoHalt(s).workers, id));
    SumZero(WeightsAt(DoHalt(s).workers, id, s.maxRetry));
  }

  /** The end of a process gives up all copies and all callbacks that have not written yet. */
  lemma HaltBudgeted(s: Sys, id: string)
    requires Budgeted(ViewOf(s, id))
    ensures Budgeted(ViewOf(DoHalt(s), id))
  {
    HaltEmpties(s, id);
    var v := ViewOf(s, id);
    assert ViewOf(DoHalt(s), id) == v.(copies := 0, weight := 0, reading := 0);
    EmptiedKeeps(v);
  }

  lemma EmptiedKeeps(v: View)
    requires Budgeted(v)
    ensures Budgeted(v.(copies := 0, weight := 0, reading := 0))
  {
    var w := v.(copies := 0, weight := 0, reading := 0);
    assert Quota(w) >= Quota(v);
    MulMonotone(2 * (v.maxRetry + 1), Quota(v), Quota(w));
  }

  // ---- every step, every run ----

  lemma BuryBudgeted(s: Sys, i: nat, stored: bool, id: string)
    requires i < |s.workers| && s.workers[i].Burying? && Budgeted(ViewOf(s, id))
    ensures Budgeted(ViewOf(DoBury(s, i, stored), id))
  {
    StopBudgeted(s, i, id);
    assert ViewOf(DoBury(s, i, stored), id) == ViewOf(SetWorker(s, i, Idle), id);
  }

  lemma ProcessStepBudgeted(s: Sys, e: Event, id: string)
    requires Sound(s) && (e.Begin? || e.Send? || e.Finish?) && Enabled(s, e) && Budgeted(ViewOf(s, id))
    ensures Budgeted(ViewOf(Step(s, e), id))
  {
    match e
    case Begin(i, stored) => BeginBudgeted(s, i, stored, id);
    case Send(i, called, failure) => SendBudgeted(s, i, called, failure, id);
    case Finish(i, stored) => FinishBudgeted(s, i, stored, id);
  }

  lemma WorkerStepBudgeted(s: Sys, e: Event, id: string)
    requires Sound(s) && (e.Take? || e.Bury? || e.Panic?) && Enabled(s, e) && Budgeted(ViewOf(s, id))
    ensures Budgeted(ViewOf(Step(s, e), id))
  {
    match e
    case Take(i) => TakeBudgeted(s, i, id);
    case Bury(i, stored) => BuryBudgeted(s, i, stored, id);
    case Panic(i) => StopBudgeted(s, i, id);
  }

  lemma DispatchStepBudgeted(s: Sys, e: Event, id: string)
    requires Sound(s) && (e.Save? || e.DispatchCheck? || e.DispatchWrite? || e.CleanUp?) && Enabled(s, e)
    requires Budgeted(ViewOf(s, id))
    ensures Budgeted(ViewOf(Step(s, e), id))
  {
    match e
    case Save(n, executeAt) => SaveBudgeted(s, n, executeAt, id);
    case CleanUp(h, stored, reason) => CleanUpBudgeted(s, h, stored, reason, id);
    case DispatchCheck(k) => CheckBudgeted(s, k, id);
    case DispatchWrite(h, stored) => DispatchBudgeted(s, h, stored, id);
  }

  lemma QueueStepBudgeted(s: Sys, e: Event, id: string)
    requires Sound(s) && (e.Push? || e.Discard? || e.Poll?) && Enabled(s, e) && Budgeted(ViewOf(s, id))
    ensures Budgeted(ViewOf(Step(s, e), id))
  {
    match e
    case Push(h) => PushBudgeted(s, h, id);
    case Discard(h) => DiscardBudgeted(s, h, id);
    case Poll(_, chosen) => PollBudgeted(s, chosen, id);
  }

  lemma UnrelatedStep(s: Sys, e: Event, id: string)
    requires !Enabled(s, e) || e.Advance? || e.Admit? || e.Abandon? || e.Delegated?
    ensures ViewOf(Step(s, e), id) == ViewOf(s, id)
  {
  }

  lemma StepBudgeted(s: Sys, e: Event, id: string)
    requires Sound(s) && Budgeted(ViewOf(s, id))
    ensures Budgeted(ViewOf(Step(s, e), id))
  {
    if !Enabled(s, e) || e.Advance? || e.Admit? || e.Abandon? || e.Delegated? {
      UnrelatedStep(s, e, id);
    } else if e.Begin? || e.Send? || e.Finish? {
      ProcessStepBudgeted(s, e, id);
    } else if e.Take? || e.Bury? || e.Panic? {
      WorkerStepBudgeted(s, e, id);
    } else if e.Push? || e.Discard? || e.Poll? {
      QueueStepBudgeted(s, e, id);
    } else if e.Halt? {
      HaltBudgeted(s, id);
    } else {
      DispatchStepBudgeted(s, e, id);
    }
  }

  lemma InitialBudgeted(s: Sys, id: string)
    requires Initial(s)
    ensures Sound(s) && Budgeted(ViewOf(s, id))
  {
    SumZero(CopiesAt(s.workers, id));
    SumZero(WeightsAt(s.workers, id, s.maxRetry));
  }

  lemma {:induction false} RunBudgeted(s0: Sys, es: seq<Event>, id: string)
    requires Initial(s0)
    ensures Sound(Run(s0, es)) && Budgeted(ViewOf(Run(s0, es), id))
  {
    if es == [] {
      InitialBudgeted(s0, id);
    } else {
      var before := es[..|es| - 1];
      RunBudgeted(s0, before, id);
      StepSound(Run(s0, before), es[|es| - 1]);
      StepBudgeted(Run(s0, before), es[|es| - 1], id);
    }
  }
}
