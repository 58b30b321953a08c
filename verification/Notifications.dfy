/** The notification engine as a state machine: the `notifications` table, the job channel, and the
    goroutines that hold copies of a notification: creators, pollers, dispatch callbacks, workers.
    Workers write whole rows from their own copy, and every write may fail. */
module Notifications {
  import opened Options

  const SECOND: int := 1_000_000_000
  const SYSTEM_LIMIT: nat := 100
  const POLL_LIMIT: nat := 50
  const SYSTEM: string := "system"

  datatype Status = Pending | Processing | Sent | Dlq | Scheduled

  datatype Note = Note(id: string, recipient: string, template: string, variables: map<string, string>, kind: string,
                       userId: string, status: Status, retryCount: nat, createdAt: int, nextRetryAt: int,
                       errorMessage: string)

  /** Where a worker is in `Process`; the copy it holds is `n`. */
  datatype Work =
    | Idle
    | Taken(n: Note)
    | Sending(n: Note)                 // PROCESSING written, or that write failed
    | Returned(n: Note, failure: Option<string>)
    | Burying(n: Note)                 // DLQ written to the row, dead-letter insert outstanding

  /** `held` are the copies of goroutines waiting to put them on the channel, `scheduling` those being
      delegated to the task scheduler, `dispatching` those of callbacks that found the row SCHEDULED and
      have not written it yet.  `admitted` creators have passed the limit check but not saved. */
  datatype Sys = Sys(now: int, maxRetry: nat, capacity: nat, rows: map<string, Note>, dlq: map<string, Note>,
                     channel: seq<Note>, held: seq<Note>, scheduling: seq<Note>, dispatching: seq<Note>, admitted: nat,
                     workers: seq<Work>, sends: map<string, nat>, written: map<string, nat>)

  datatype Event =
    | Advance(nanos: nat)
    | Admit
    | Abandon                              // invalid template, or the insert failed
    | Save(n: Note, executeAt: Option<int>)
    | Delegated(h: nat)
    | CleanUp(h: nat, stored: bool, reason: string)
    | Push(h: nat)
    | Discard(h: nat)                      // shutdown, or a callback that found the channel full
    | Poll(locked: set<string>, chosen: seq<string>)
    | DispatchCheck(id: string)
    | DispatchWrite(h: nat, stored: bool)
    | Take(i: nat)
    | Begin(i: nat, stored: bool)
    | Send(i: nat, called: bool, failure: Option<string>)
    | Finish(i: nat, stored: bool)
    | Bury(i: nat, stored: bool)           // a failed insert is only logged
    | Panic(i: nat)
    | Halt                                 // the process ends, by shutdown or crash, and a new one starts

  predicate Initial(s: Sys) {
    && s.rows == map[] && s.dlq == map[] && s.channel == [] && s.held == [] && s.scheduling == [] && s.dispatching == []
    && s.admitted == 0 && s.sends == map[] && s.written == map[]
    && forall i :: 0 <= i < |s.workers| ==> s.workers[i] == Idle
  }

  // ---- statements of the repository ----

  /** UPDATE ... WHERE id: every column but the owner; an unknown id changes nothing. */
  function Write(rows: map<string, Note>, n: Note): map<string, Note> {
    if n.id in rows then rows[n.id := n.(userId := rows[n.id].userId)] else rows
  }

  function WriteIf(rows: map<string, Note>, n: Note, stored: bool): map<string, Note> {
    if stored then Write(rows, n) else rows
  }

  /** INSERT: the row gets an owner. */
  function Stored(n: Note): Note {
    if n.userId == "" then n.(userId := GLOBAL) else n
  }

  /** SELECT ... WHERE id: a row of the user's, a global one, or any for the system itself. */
  function Lookup(rows: map<string, Note>, id: string, userId: string): Option<Note> {
    if id in rows && (userId == SYSTEM || rows[id].userId == userId || rows[id].userId == GLOBAL)
    then Some(rows[id]) else None
  }

  /** The notification that a creator saves. */
  function NewNote(n: Note, executeAt: Option<int>, now: int): Note {
    n.(retryCount := 0, errorMessage := "", createdAt := now,
       status := if executeAt.Some? then Scheduled else Pending,
       nextRetryAt := if executeAt.Some? then executeAt.value else now)
  }

  predicate Ready(rows: map<string, Note>, id: string, now: int) {
    id in rows && rows[id].status == Pending && rows[id].nextRetryAt <= now
  }

  /** The oldest ready unlocked rows, fifty at most. */
  ghost predicate PollSelects(rows: map<string, Note>, now: int, locked: set<string>, chosen: seq<string>) {
    && |chosen| <= POLL_LIMIT
    && (forall m, n :: 0 <= m < n < |chosen| ==> chosen[m] != chosen[n])
    && (forall id :: id in chosen ==> Ready(rows, id, now) && id !in locked)
    && (forall id :: id in rows && Ready(rows, id, now) && id !in locked && id !in chosen ==>
          |chosen| == POLL_LIMIT && forall c :: c in chosen ==> rows[c].createdAt <= rows[id].createdAt)
  }

  function ClaimNote(n: Note): Note {
    n.(status := Processing)
  }

  function MarkClaimed(rows: map<string, Note>, chosen: seq<string>): map<string, Note> {
    map id | id in rows :: if id in chosen then ClaimNote(rows[id]) else rows[id]
  }

  function Claimed(rows: map<string, Note>, chosen: seq<string>): seq<Note>
    requires forall id :: id in chosen ==> id in rows
  {
    if chosen == [] then [] else [ClaimNote(rows[chosen[0]])] + Claimed(rows, chosen[1..])
  }

  function Pow2(n: nat): nat {
    if n == 0 then 1 else 2 * Pow2(n - 1)
  }

  /** The copy a worker writes at the end of `Process`. */
  function Outcome(n: Note, failure: Option<string>, maxRetry: nat, now: int): Note {
    if failure.None? then n.(status := Sent, errorMessage := "")
    else if n.retryCount + 1 > maxRetry
    then n.(retryCount := n.retryCount + 1, errorMessage := failure.value, status := Dlq)
    else n.(retryCount := n.retryCount + 1, errorMessage := failure.value, status := Pending,
            nextRetryAt := now + Pow2(n.retryCount + 1) * SECOND)
  }

  // ---- steps ----

  function Without<T>(q: seq<T>, h: nat): seq<T>
    requires h < |q|
  {
    q[..h] + q[h + 1..]
  }

  function Count(m: map<string, nat>, id: string): nat {
    if id in m then m[id] else 0
  }

  function SetWorker(s: Sys, i: nat, w: Work): Sys
    requires i < |s.workers|
  {
    s.(workers := s.workers[i := w])
  }

  function DoSave(s: Sys, n: Note, executeAt: Option<int>): Sys
    requires s.admitted > 0
  {
    var row := NewNote(n, executeAt, s.now);
    var s' := s.(rows := s.rows[row.id := Stored(row)], admitted := s.admitted - 1);
    if executeAt.Some? then s'.(scheduling := s.scheduling + [row]) else s'.(held := s.held + [row])
  }

  function DoCleanUp(s: Sys, h: nat, stored: bool, reason: string): Sys
    requires h < |s.scheduling|
  {
    var n := s.scheduling[h].(status := Dlq, errorMessage := reason);
    s.(scheduling := Without(s.scheduling, h), rows := WriteIf(s.rows, n, stored))
  }

  function DoPush(s: Sys, h: nat): Sys
    requires h < |s.held|
  {
    s.(channel := s.channel + [s.held[h]], held := Without(s.held, h))
  }

  function DoDiscard(s: Sys, h: nat): Sys
    requires h < |s.held|
  {
    s.(held := Without(s.held, h))
  }

  function DoDispatchCheck(s: Sys, id: string): Sys
    requires id in s.rows
  {
    s.(dispatching := s.dispatching + [s.rows[id]])
  }

  function DoTake(s: Sys, i: nat): Sys
    requires i < |s.workers| && s.channel != []
  {
    SetWorker(s, i, Taken(s.channel[0])).(channel := s.channel[1..])
  }

  function DoPoll(s: Sys, chosen: seq<string>): Sys
    requires forall id :: id in chosen ==> id in s.rows
  {
    s.(rows := MarkClaimed(s.rows, chosen), held := s.held + Claimed(s.rows, chosen))
  }

  function DoDispatchWrite(s: Sys, h: nat, stored: bool): Sys
    requires h < |s.dispatching|
  {
    var n := s.dispatching[h].(status := Pending, nextRetryAt := s.now);
    var s' := s.(dispatching := Without(s.dispatching, h));
    if stored
    then s'.(rows := Write(s.rows, n), held := s.held + [n], written := s.written[n.id := Count(s.written, n.id) + 1])
    else s'
  }

  function DoBegin(s: Sys, i: nat, stored: bool): Sys
    requires i < |s.workers| && s.workers[i].Taken?
  {
    var n := s.workers[i].n.(status := Processing);
    SetWorker(s, i, Sending(n)).(rows := WriteIf(s.rows, n, stored))
  }

  function DoSend(s: Sys, i: nat, called: bool, failure: Option<string>): Sys
    requires i < |s.workers| && s.workers[i].Sending?
  {
    var n := s.workers[i].n;
    var sends := if called then s.sends[n.id := Count(s.sends, n.id) + 1] else s.sends;
    SetWorker(s, i, Returned(n, failure)).(sends := sends)
  }

  function DoFinish(s: Sys, i: nat, stored: bool): Sys
    requires i < |s.workers| && s.workers[i].Returned?
  {
    var n := Outcome(s.workers[i].n, s.workers[i].failure, s.maxRetry, s.now);
    SetWorker(s, i, if n.status == Dlq then Burying(n) else Idle).(rows := WriteIf(s.rows, n, stored))
  }

  function DoBury(s: Sys, i: nat, stored: bool): Sys
    requires i < |s.workers| && s.workers[i].Burying?
  {
    var n := s.workers[i].n;
    SetWorker(s, i, Idle).(dlq := if stored && n.id !in s.dlq then s.dlq[n.id := Stored(n)] else s.dlq)
  }

  /** Only the tables outlive a process. */
  function DoHalt(s: Sys): Sys {
    s.(channel := [], held := [], scheduling := [], dispatching := [], admitted := 0,
       workers := seq(|s.workers|, _ => Idle))
  }

  ghost predicate Enabled(s: Sys, e: Event) {
    match e
    case Advance(_) => true
    case Admit => |s.rows| < SYSTEM_LIMIT
    case Abandon => s.admitted > 0
    case Save(n, _) => s.admitted > 0 && n.id !in s.rows     // ids are fresh UUIDs
    case Delegated(h) => h < |s.scheduling|
    case CleanUp(h, _, _) => h < |s.scheduling|
    case Push(h) => h < |s.held| && |s.channel| < s.capacity
    case Discard(h) => h < |s.held|
    case Poll(locked, chosen) => PollSelects(s.rows, s.now, locked, chosen)
    case DispatchCheck(id) => id in s.rows && s.rows[id].status == Scheduled
    case DispatchWrite(h, _) => h < |s.dispatching|
    case Take(i) => i < |s.workers| && s.workers[i].Idle? && s.channel != []
    case Begin(i, _) => i < |s.workers| && s.workers[i].Taken?
    case Send(i, called, failure) => i < |s.workers| && s.workers[i].Sending? && (!called ==> failure.Some?)
    case Finish(i, _) => i < |s.workers| && s.workers[i].Returned?
    case Bury(i, _) => i < |s.workers| && s.workers[i].Burying?
    case Panic(i) => i < |s.workers|
    case Halt => true
  }

  ghost function Step(s: Sys, e: Event): Sys {
    if !Enabled(s, e) then s else
    match e
    case Advance(nanos) => s.(now := s.now + nanos)
    case Admit => s.(admitted := s.admitted + 1)
    case Abandon => s.(admitted := s.admitted - 1)
    case Save(n, executeAt) => DoSave(s, n, executeAt)
    case Delegated(h) => s.(scheduling := Without(s.scheduling, h))
    case CleanUp(h, stored, reason) => DoCleanUp(s, h, stored, reason)
    case Push(h) => DoPush(s, h)
    case Discard(h) => DoDiscard(s, h)
    case Poll(_, chosen) => DoPoll(s, chosen)
    case DispatchCheck(id) => DoDispatchCheck(s, id)
    case DispatchWrite(h, stored) => DoDispatchWrite(s, h, stored)
    case Take(i) => DoTake(s, i)
    case Begin(i, stored) => DoBegin(s, i, stored)
    case Send(i, called, failure) => DoSend(s, i, called, failure)
    case Finish(i, stored) => DoFinish(s, i, stored)
    case Bury(i, stored) => DoBury(s, i, stored)
    case Panic(i) => SetWorker(s, i, Idle)
    case Halt => DoHalt(s)
  }

  ghost function Run(s: Sys, es: seq<Event>): Sys {
    if es == [] then s else Step(Run(s, es[..|es| - 1]), es[|es| - 1])
  }

  ghost predicate Reachable(s: Sys) {
    exists s0, es :: Initial(s0) && s == Run(s0, es)
  }
}
