/** One task as seen by itself: its row, its cache entry, its dead-letter entries, the copies of it
    that goroutines hold, and what has happened to it.  The invariants of the scheduler are facts
    about this automaton; `Simulation` shows that the whole machine runs one of them per task. */
module RetryAutomaton {
  import opened Options
  import opened Tasks
  import opened Scheduler

  datatype View = View(now: int, caching: bool, row: Option<Task>, cached: Option<Task>, dirty: bool,
                       entries: map<int, Task>, copies: multiset<Kind>, crashes: nat, recoveries: nat, log: Log)

  datatype Label =
    | Skip
    | Later(nanos: nat)
    | Insertion(row: Task)
    | Fetch
    | Forget
    | Change(patch: Patch)
    | Take
    | Pass(from: Place)            // a waiting copy goes from the batch to the channel, or to a worker
    | Begin
    | Outcome(ok: bool)
    | Success
    | Failure(delay: int)
    | Flush(kind: Kind)            // a worker's `Del` after its commit
    | Look(final: bool)            // the `Get` after a failure; `final` if it was the one that made the row FAILED
    | Bury(rec: Task, final: bool, second: int) // a worker's dead-letter insert
    | Die(lost: multiset<Kind>)    // a process crashes and these copies with it
    | Revert                       // a process starts and recovers the table

  // ---- the automaton ----

  function Move(c: multiset<Kind>, from: Kind, to: multiset<Kind>): multiset<Kind> {
    c - multiset{from} + to
  }

  function Write(v: View, row: Task, g: Log): View {
    v.(row := Some(row), dirty := true, log := g)
  }

  function Uncache(v: View): View {
    v.(cached := None, dirty := false)
  }

  function Cache(v: View): View {
    if v.caching && v.cached.None? then v.(cached := v.row) else v
  }

  function Seen(v: View): Option<Task> {
    if v.cached.Some? then v.cached else v.row
  }

  function Insert(v: View, row: Task): View {
    if v.row.None? then v.(row := Some(row), log := NEW_LOG) else Cache(v)
  }

  function Edited(v: View, p: Patch): View {
    if v.row.None? then v else Write(v, EditRow(v.row.value, p), LogEdit(v.log, v.row.value, p, v.copies))
  }

  function Taken(v: View): View {
    if v.row.None? then v
    else v.(row := Some(ClaimRow(v.row.value)), log := CountClaim(v.log),
            copies := v.copies + multiset{Waiting(InBatch)})
  }

  function NextPlace(p: Place): Place {
    if p == InBatch then InChannel else InHand
  }

  function Passed(v: View, from: Place): View {
    v.(copies := Move(v.copies, Waiting(from), multiset{Waiting(NextPlace(from))}))
  }

  function Begun(v: View): View {
    if v.row.None? then v
    else Write(v, MarkRow(v.row.value), LogMark(v.log, v.row.value))
           .(copies := Move(v.copies, Waiting(InHand), multiset{Running(false)}))
  }

  function Answered(v: View, ok: bool): View {
    v.(copies := Move(v.copies, Running(true), multiset{if ok then Won else Lost}),
       log := v.log.(outcomes := v.log.outcomes + [ok]))
  }

  function Succeeded(v: View): View {
    if v.row.None? then v
    else Write(v, CompleteRow(v.row.value), CountChange(v.log, v.row.value, CompleteRow(v.row.value)))
           .(copies := Move(v.copies, Won, multiset{Finishing}))
  }

  function FailedOnce(v: View, delay: int): View {
    if v.row.None? then v
    else
      var upd := FailRow(v.row.value, v.now, delay);
      Write(v, upd, LogFail(v.log, v.row.value, v.now, delay, Lags(v.copies)))
        .(copies := Move(v.copies, Lost, multiset{if upd.status == Failed then FinalDel else Lagging(false)}))
  }

  /** The copies that are followed by a `Del`. */
  predicate Flushes(k: Kind) {
    k == Running(false) || k == Finishing || k == FinalDel || k == Lagging(false)
  }

  function AfterFlush(k: Kind): multiset<Kind> {
    match k
    case Running(_) => multiset{Running(true)}
    case FinalDel => multiset{FinalChk}
    case Lagging(_) => multiset{Lagging(true)}
    case _ => multiset{}
  }

  function Flushed(v: View, kind: Kind): View {
    Uncache(v).(copies := Move(v.copies, kind, AfterFlush(kind)))
  }

  function Grave(final: bool, found: Option<Task>): multiset<Kind> {
    if found.Some? && found.value.status == Failed then multiset{AtDlq(final, Exhausted(found.value))} else multiset{}
  }

  function Looker(final: bool): Kind {
    if final then FinalChk else Lagging(true)
  }

  function Looked(v: View, final: bool): View {
    v.(copies := Move(v.copies, Looker(final), Grave(final, Seen(v))))
  }

  function Buried(v: View, rec: Task, final: bool, second: int): View {
    v.(copies := Move(v.copies, AtDlq(final, Exhausted(rec)), multiset{}),
       entries := Scheduler.Insert(v.entries, second, rec), log := LogSave(v.log, final))
  }

  function Died(v: View, lost: multiset<Kind>): View {
    v.(crashes := v.crashes + 1, copies := v.copies - lost, log := if v.row.None? then v.log else LogCrash(v.log, lost))
  }

  function Reverted(v: View): View {
    if v.row.None? then v.(recoveries := v.recoveries + 1)
    else v.(recoveries := v.recoveries + 1, row := Some(RecoverRow(v.row.value)),
            log := LogRecover(v.log, v.row.value, v.copies))
  }

  function Next(v: View, l: Label): View {
    match l
    case Skip => v
    case Later(nanos) => v.(now := v.now + nanos)
    case Insertion(row) => Insert(v, row)
    case Fetch => Cache(v)
    case Forget => Uncache(v)
    case Change(p) => Edited(v, p)
    case Take => Taken(v)
    case Pass(from) => Passed(v, from)
    case Begin => Begun(v)
    case Outcome(ok) => Answered(v, ok)
    case Success => Succeeded(v)
    case Failure(delay) => FailedOnce(v, delay)
    case Flush(kind) => Flushed(v, kind)
    case Look(final) => Looked(Cache(v), final)
    case Bury(rec, final, second) => Buried(v, rec, final, second)
    case Die(lost) => Died(v, lost)
    case Revert => Reverted(v)
  }

  /** The circumstances in which the machine makes each move. */
  predicate Allowed(v: View, l: Label) {
    match l
    case Insertion(row) => row.status == Pending && row.retryCount == 0 && row.maxRetries >= 1
    case Take => v.row.Some? && v.row.value.status == Pending && v.row.value.executeAt <= v.now
    case Pass(from) => from != InHand && v.copies[Waiting(from)] > 0
    case Begin => v.copies[Waiting(InHand)] > 0
    case Outcome(ok) => v.copies[Running(true)] > 0
    case Success => v.copies[Won] > 0
    case Failure(delay) =>
      v.copies[Lost] > 0 && (v.row.Some? ==> delay == BackoffNanos(v.row.value.retryCount + 1))
    case Flush(kind) => Flushes(kind) && v.copies[kind] > 0
    case Look(final) => v.copies[Looker(final)] > 0
    case Bury(rec, final, second) => v.copies[AtDlq(final, Exhausted(rec))] > 0
    case Die(lost) => lost <= v.copies
    case _ => true
  }

  // ---- invariants ----

  predicate Settled(v: View) {
    v.row.Some? && !InFlight(v.row.value.status)
  }

  predicate Untouched(v: View) {
    v.row.None? ==> v.copies == multiset{} && v.cached.None? && !v.dirty && v.entries == map[] && v.log == NEW_LOG
  }

  /** Never more executable copies, counting a row that may be claimed, than one plus the revivals. */
  predicate Tokens(v: View) {
    && v.log.revived <= v.log.reschedules + v.recoveries
    && (v.row.Some? ==> Executable(v.copies) + (if Settled(v) then 1 else 0) <= 1 + v.log.revived)
  }

  /** A QUEUED row has at most one waiting copy, a PROCESSING row at most one worker, others none. */
  predicate AtMostOne(v: View) {
    v.row.Some? ==>
      var st := v.row.value.status;
      && Waits(v.copies) <= (if st == Queued then 1 else 0)
      && Owners(v.copies) <= (if st == Processing then 1 else 0)
  }

  /** A QUEUED row has exactly one waiting copy, a PROCESSING row exactly one worker, others none. */
  predicate ExactlyOne(v: View) {
    v.row.Some? ==>
      var st := v.row.value.status;
      && Waits(v.copies) == (if st == Queued then 1 else 0)
      && Owners(v.copies) == (if st == Processing then 1 else 0)
  }

  /** A task that was never revived has one owner at most, and one exactly as long as nothing crashed. */
  predicate Owned(v: View) {
    v.log.revived == 0 ==> AtMostOne(v) && (v.crashes == 0 ==> ExactlyOne(v))
  }

  function Failures(n: nat): (s: seq<bool>)
    ensures |s| == n && forall i :: 0 <= i < n ==> !s[i]
  {
    seq(n, _ => false)
  }

  /** The outcomes recorded so far, and the one that a worker is about to record. */
  function Expected(t: Task, c: multiset<Kind>): seq<bool> {
    Failures(t.retryCount) +
      (if t.status == Completed || c[Won] > 0 then [true] else if c[Lost] > 0 then [false] else [])
  }

  function StageOf(st: Status): nat {
    match st case Pending => 0 case Queued => 1 case Processing => 2 case Completed => 3 case Failed => 0
  }

  predicate Limits(v: View) {
    v.row.Some? && v.log.revived == 0 ==>
      var t := v.row.value;
      && t.maxRetries >= 1
      && (if t.status == Failed then t.retryCount == t.maxRetries + 1 else t.retryCount <= t.maxRetries)
  }

  /** Retry counting: the outcome history is F^k or F^k S, and row and copies are functions of it. */
  predicate Counted(v: View) {
    v.row.Some? && v.log.revived == 0 ==>
      var t := v.row.value;
      var g := v.log;
      && g.aborted <= v.crashes
      && g.starts == t.retryCount + g.aborted + Owners(v.copies) + (if t.status == Completed then 1 else 0)
      && (g.aborted == 0 ==> g.outcomes == Expected(t, v.copies))
      && (v.crashes == 0 ==> g.changes == 3 * t.retryCount + StageOf(t.status))
  }

  /** Equal on every field but the status, and the statuses differ only inside the unfinished ones. */
  predicate Coherent(cached: Task, row: Task) {
    && cached == row.(status := cached.status)
    && (cached.status == row.status ||
        (cached.status in {Pending, Queued, Processing} && row.status in {Pending, Queued, Processing}))
  }

  predicate Fresh(v: View) {
    v.cached.Some? ==> v.row.Some? && (!v.dirty ==> Coherent(v.cached.value, v.row.value))
  }

  /** The total backoff after k failures, 4 + 8 + ... + 2^(k+1) seconds. */
  function TotalBackoff(k: nat): int {
    (Pow2(k + 2) - 4) * SECOND
  }

  predicate Spaced(v: View) {
    v.row.Some? && v.log.revived == 0 ==>
      var t := v.row.value;
      && (InFlight(t.status) ==> t.executeAt <= v.now)
      && (v.log.firstFailure.Some? <==> t.retryCount > 0)
      && (1 <= t.retryCount <= 32 && t.status != Failed ==>
            t.executeAt >= v.log.firstFailure.value + TotalBackoff(t.retryCount))
  }

  /** A terminal record never goes bad: whatever is cached, on its way to or in the dead-letter table
      as FAILED has used exactly its retries. */
  predicate GoodRecords(v: View) {
    v.log.revived == 0 ==>
      && (v.cached.Some? && v.cached.value.status == Failed ==> Exhausted(v.cached.value))
      && v.copies[AtDlq(true, false)] == 0 && v.copies[AtDlq(false, false)] == 0
      && (forall sec :: sec in v.entries ==> Exhausted(v.entries[sec]))
  }

  predicate Counts(v: View) {
    && |v.entries| <= v.log.saves + v.log.extraSaves
    && (v.log.saves + v.log.extraSaves > 0 ==> v.entries != map[])
  }

  /** No reschedule and no crash so far, and no recovery reverted the row. */
  predicate Calm(v: View) {
    v.log.reschedules == 0 && v.crashes == 0 && v.log.revived == 0
  }

  function FinalPath(v: View): nat {
    v.copies[FinalDel] + v.copies[FinalChk] + v.copies[AtDlq(true, true)]
  }

  /** Archiving: the worker that made the row FAILED saves it once; nobody else does unless some
      worker was still between update and `Get` at that moment. */
  predicate Archived(v: View) {
    Calm(v) && v.row.Some? ==>
      var failed := v.row.value.status == Failed;
      && FinalPath(v) + v.log.saves == (if failed then 1 else 0)
      && (!failed ==> v.copies[AtDlq(false, true)] == 0 && v.log.extraSaves == 0 &&
                      (v.cached.Some? ==> v.cached.value.status != Failed))
      && (failed ==> Lags(v.copies) + v.copies[AtDlq(false, true)] + v.log.extraSaves <= v.log.laggards)
      && (v.copies[FinalChk] > 0 && v.cached.Some? ==> v.cached.value.status == Failed)
  }

  predicate Ownership(v: View) {
    Untouched(v) && Tokens(v) && Owned(v) && Limits(v)
  }

  predicate Books(v: View) {
    Counted(v) && Spaced(v)
  }

  predicate Records(v: View) {
    Fresh(v) && GoodRecords(v) && Counts(v) && Archived(v)
  }

  predicate Invariant(v: View) {
    Ownership(v) && Books(v) && Records(v)
  }

  // ---- preservation, one lemma per move and part of the invariant ----

  lemma TimeKeeps(v: View, nanos: nat)
    requires Invariant(v)
    ensures Invariant(v.(now := v.now + nanos))
  {
  }

  lemma CacheKeeps(v: View)
    requires Invariant(v)
    ensures Invariant(Cache(v))
  {
  }

  lemma UncacheKeeps(v: View)
    requires Invariant(v)
    ensures Invariant(Uncache(v))
  {
  }

  /** A row that nothing has happened to. */
  lemma NewKeepsOwnership(v: View, row: Task)
    requires Untouched(v) && v.row.None? && Allowed(v, Insertion(row))
    ensures Ownership(Insert(v, row))
  {
  }

  lemma NewKeepsBooks(v: View, row: Task)
    requires Untouched(v) && v.row.None? && Allowed(v, Insertion(row))
    ensures Books(Insert(v, row))
  {
  }

  lemma NewKeepsRecords(v: View, row: Task)
    requires Untouched(v) && v.row.None? && Allowed(v, Insertion(row))
    ensures Records(Insert(v, row))
  {
  }

  lemma InsertKeeps(v: View, row: Task)
    requires Invariant(v) && Allowed(v, Insertion(row))
    ensures Invariant(Insert(v, row))
  {
    if v.row.None? {
      NewKeepsOwnership(v, row);
      NewKeepsBooks(v, row);
      NewKeepsRecords(v, row);
    } else {
      CacheKeeps(v);
    }
  }

  lemma DieKeeps(v: View, lost: multiset<Kind>)
    requires Invariant(v) && lost <= v.copies
    ensures Invariant(Died(v, lost))
  {
  }

  lemma EditKeepsOwnership(v: View, p: Patch)
    requires Ownership(v)
    ensures Ownership(Edited(v, p))
  {
  }

  lemma EditKeepsBooks(v: View, p: Patch)
    requires Ownership(v) && Books(v)
    ensures Books(Edited(v, p))
  {
  }

  lemma EditKeepsRecords(v: View, p: Patch)
    requires Ownership(v) && Records(v)
    ensures Records(Edited(v, p))
  {
  }

  lemma TakeKeepsOwnership(v: View)
    requires Ownership(v) && Allowed(v, Take)
    ensures Ownership(Taken(v))
  {
  }

  lemma TakeKeepsBooks(v: View)
    requires Ownership(v) && Books(v) && Allowed(v, Take)
    ensures Books(Taken(v))
  {
  }

  lemma TakeKeepsRecords(v: View)
    requires Ownership(v) && Records(v) && Allowed(v, Take)
    ensures Records(Taken(v))
  {
  }

  lemma BeginKeepsTokens(v: View)
    requires Untouched(v) && Tokens(v) && Allowed(v, Begin)
    ensures Untouched(Begun(v)) && Tokens(Begun(v))
  {
  }

  lemma BeginKeepsOwner(v: View)
    requires Untouched(v) && Owned(v) && Limits(v) && Allowed(v, Begin)
    ensures Owned(Begun(v)) && Limits(Begun(v))
  {
  }

  lemma BeginKeepsBooks(v: View)
    requires Ownership(v) && Books(v) && Allowed(v, Begin)
    ensures Books(Begun(v))
  {
  }

  lemma BeginKeepsRecords(v: View)
    requires Ownership(v) && Records(v) && Allowed(v, Begin)
    ensures Records(Begun(v))
  {
  }

  lemma OutcomeKeepsOwnership(v: View, ok: bool)
    requires Ownership(v) && v.copies[Running(true)] > 0
    ensures Ownership(Answered(v, ok))
  {
  }

  lemma OutcomeKeepsBooks(v: View, ok: bool)
    requires Ownership(v) && Books(v) && v.copies[Running(true)] > 0
    ensures Books(Answered(v, ok))
  {
  }

  lemma OutcomeKeepsRecords(v: View, ok: bool)
    requires Ownership(v) && Records(v) && v.copies[Running(true)] > 0
    ensures Records(Answered(v, ok))
  {
  }

  lemma SuccessKeepsOwnership(v: View)
    requires Ownership(v) && v.copies[Won] > 0
    ensures Ownership(Succeeded(v))
  {
  }

  lemma SuccessKeepsBooks(v: View)
    requires Ownership(v) && Books(v) && v.copies[Won] > 0
    ensures Books(Succeeded(v))
  {
  }

  lemma SuccessKeepsRecords(v: View)
    requires Ownership(v) && Records(v) && v.copies[Won] > 0
    ensures Records(Succeeded(v))
  {
  }

  lemma RevertKeepsOwnership(v: View)
    requires Ownership(v)
    ensures Ownership(Reverted(v))
  {
  }

  lemma RevertKeepsBooks(v: View)
    requires Ownership(v) && Books(v)
    ensures Books(Reverted(v))
  {
  }

  lemma RevertKeepsArchive(v: View)
    requires Ownership(v) && Records(v)
    ensures Archived(Reverted(v))
  {
  }

  lemma RevertKeepsRecords(v: View)
    requires Ownership(v) && Records(v)
    ensures Records(Reverted(v))
  {
    RevertKeepsArchive(v);
    assert Fresh(Reverted(v)) && GoodRecords(Reverted(v)) && Counts(Reverted(v));
  }

  lemma FailureKeepsTokens(v: View, delay: int)
    requires Untouched(v) && Tokens(v) && v.copies[Lost] > 0
    ensures Untouched(FailedOnce(v, delay)) && Tokens(FailedOnce(v, delay))
  {
  }

  lemma FailureKeepsOwner(v: View, delay: int)
    requires Untouched(v) && Owned(v) && v.copies[Lost] > 0
    ensures Owned(FailedOnce(v, delay))
  {
  }

  lemma FailureKeepsLimits(v: View, delay: int)
    requires Untouched(v) && Owned(v) && Limits(v) && v.copies[Lost] > 0
    ensures Limits(FailedOnce(v, delay))
  {
  }

  lemma FailureKeepsOwnership(v: View, delay: int)
    requires Ownership(v) && v.copies[Lost] > 0
    ensures Ownership(FailedOnce(v, delay))
  {
    FailureKeepsTokens(v, delay);
    FailureKeepsOwner(v, delay);
    FailureKeepsLimits(v, delay);
  }

  lemma FailureKeepsCount(v: View, delay: int)
    requires Ownership(v) && Counted(v) && v.copies[Lost] > 0
    ensures Counted(FailedOnce(v, delay))
  {
  }

  /** The delays add up: each new one is as long as all earlier ones and four seconds more. */
  lemma FailureKeepsSpacing(v: View, delay: int)
    requires Ownership(v) && Spaced(v) && Allowed(v, Failure(delay))
    ensures Spaced(FailedOnce(v, delay))
  {
    if v.row.Some? {
      BackoffExactness(v.row.value.retryCount + 1);
    }
  }

  lemma FailureKeepsRecords(v: View, delay: int)
    requires Ownership(v) && Records(v) && v.copies[Lost] > 0
    ensures var w := FailedOnce(v, delay);
      Fresh(w) && GoodRecords(w) && Counts(w)
  {
  }

  lemma FailureKeepsArchive(v: View, delay: int)
    requires Ownership(v) && Records(v) && v.copies[Lost] > 0
    ensures Archived(FailedOnce(v, delay))
  {
  }

  /** Nothing that a worker will still do with the row has changed. */
  predicate SameWork(v: View, w: View) {
    && v.row.Some? && w.row == v.row && w.now == v.now && w.crashes == v.crashes && w.recoveries == v.recoveries
    && w.log == v.log.(saves := w.log.saves, extraSaves := w.log.extraSaves)
    && Waits(w.copies) == Waits(v.copies) && Owners(w.copies) == Owners(v.copies)
    && w.copies[Won] == v.copies[Won] && w.copies[Lost] == v.copies[Lost]
  }

  lemma SameWorkKeeps(v: View, w: View)
    requires Ownership(v) && Books(v) && SameWork(v, w)
    ensures Ownership(w) && Books(w)
  {
  }

  /** Nothing that is recorded of the task, or about to be, has changed. */
  predicate SameRecords(v: View, w: View) {
    && v.row.Some? && w.row == v.row && w.entries == v.entries && w.crashes == v.crashes && w.log == v.log
    && (w.cached.None? || (w.cached == v.cached && w.dirty == v.dirty))
    && Lags(w.copies) == Lags(v.copies) && FinalPath(w) == FinalPath(v)
    && w.copies[AtDlq(true, false)] == v.copies[AtDlq(true, false)]
    && w.copies[AtDlq(false, false)] == v.copies[AtDlq(false, false)]
    && w.copies[AtDlq(false, true)] == v.copies[AtDlq(false, true)]
    && (w.copies[FinalChk] > 0 ==> v.copies[FinalChk] > 0 || w.cached.None?)
  }

  lemma SameRecordsKeeps(v: View, w: View)
    requires Records(v) && SameRecords(v, w)
    ensures Records(w)
  {
  }

  lemma Gone(c: multiset<Kind>, from: Kind)
    requires c[from] > 0
    ensures forall k :: Move(c, from, multiset{})[k] == c[k] - (if k == from then 1 else 0)
  {
  }

  lemma Moved(c: multiset<Kind>, from: Kind, to: Kind)
    requires c[from] > 0 && from != to
    ensures var d := Move(c, from, multiset{to});
      forall k :: d[k] == c[k] - (if k == from then 1 else 0) + (if k == to then 1 else 0)
  {
  }

  /** A task cannot tell from its copies which of the two it is. */
  predicate SameCounts(c: multiset<Kind>, d: multiset<Kind>) {
    && Waits(d) == Waits(c) && Owners(d) == Owners(c) && Lags(d) == Lags(c) && d[Won] == c[Won] && d[Lost] == c[Lost]
    && d[FinalDel] == c[FinalDel] && d[FinalChk] == c[FinalChk]
    && forall final, good :: d[AtDlq(final, good)] == c[AtDlq(final, good)]
  }

  lemma SameCountsSame(v: View, w: View)
    requires v.row.Some? && SameCounts(v.copies, w.copies) && w == v.(copies := w.copies)
    ensures SameWork(v, w) && SameRecords(v, w)
  {
  }

  lemma EnqueuedCounts(c: multiset<Kind>)
    requires c[Waiting(InBatch)] > 0
    ensures SameCounts(c, Move(c, Waiting(InBatch), multiset{Waiting(InChannel)}))
  {
    Moved(c, Waiting(InBatch), Waiting(InChannel));
  }

  lemma DequeuedCounts(c: multiset<Kind>)
    requires c[Waiting(InChannel)] > 0
    ensures SameCounts(c, Move(c, Waiting(InChannel), multiset{Waiting(InHand)}))
  {
    Moved(c, Waiting(InChannel), Waiting(InHand));
  }

  lemma CalledCounts(c: multiset<Kind>)
    requires c[Running(false)] > 0
    ensures SameCounts(c, Move(c, Running(false), multiset{Running(true)}))
  {
    Moved(c, Running(false), Running(true));
  }

  lemma LateCounts(c: multiset<Kind>)
    requires c[Lagging(false)] > 0
    ensures SameCounts(c, Move(c, Lagging(false), multiset{Lagging(true)}))
  {
    Moved(c, Lagging(false), Lagging(true));
  }

  lemma PassSame(v: View, from: Place)
    requires v.row.Some? && Allowed(v, Pass(from))
    ensures SameWork(v, Passed(v, from)) && SameRecords(v, Passed(v, from))
  {
    if from == InBatch {
      EnqueuedCounts(v.copies);
    } else {
      DequeuedCounts(v.copies);
    }
    SameCountsSame(v, Passed(v, from));
  }

  lemma PassKeeps(v: View, from: Place)
    requires Invariant(v) && Allowed(v, Pass(from))
    ensures Invariant(Passed(v, from))
  {
    PassSame(v, from);
    SameWorkKeeps(v, Passed(v, from));
    SameRecordsKeeps(v, Passed(v, from));
  }

  lemma FlushCalledSame(v: View)
    requires v.row.Some? && v.copies[Running(false)] > 0
    ensures SameWork(v, Flushed(v, Running(false))) && SameRecords(v, Flushed(v, Running(false)))
  {
    CalledCounts(v.copies);
    SameCountsSame(Uncache(v), Flushed(v, Running(false)));
  }

  lemma FinalMoves(c: multiset<Kind>, d: multiset<Kind>)
    requires c[FinalDel] > 0 && d == Move(c, FinalDel, multiset{FinalChk})
    ensures Waits(d) == Waits(c) && Owners(d) == Owners(c) && Lags(d) == Lags(c)
    ensures d[FinalDel] + d[FinalChk] == c[FinalDel] + c[FinalChk] && d[Won] == c[Won] && d[Lost] == c[Lost]
    ensures forall final, good :: d[AtDlq(final, good)] == c[AtDlq(final, good)]
  {
    Moved(c, FinalDel, FinalChk);
  }

  lemma FlushFinalSame(v: View)
    requires v.row.Some? && v.copies[FinalDel] > 0
    ensures SameWork(v, Flushed(v, FinalDel)) && SameRecords(v, Flushed(v, FinalDel))
  {
    FinalMoves(v.copies, Flushed(v, FinalDel).copies);
  }

  lemma FlushLateSame(v: View)
    requires v.row.Some? && v.copies[Lagging(false)] > 0
    ensures SameWork(v, Flushed(v, Lagging(false))) && SameRecords(v, Flushed(v, Lagging(false)))
  {
    LateCounts(v.copies);
    SameCountsSame(Uncache(v), Flushed(v, Lagging(false)));
  }

  lemma FlushDoneSame(v: View)
    requires v.row.Some? && v.copies[Finishing] > 0
    ensures SameWork(v, Flushed(v, Finishing)) && SameRecords(v, Flushed(v, Finishing))
  {
    Gone(v.copies, Finishing);
  }

  lemma FlushSame(v: View, kind: Kind)
    requires v.row.Some? && Allowed(v, Flush(kind))
    ensures SameWork(v, Flushed(v, kind)) && SameRecords(v, Flushed(v, kind))
  {
    if kind == Running(false) {
      FlushCalledSame(v);
    } else if kind == FinalDel {
      FlushFinalSame(v);
    } else if kind == Lagging(false) {
      FlushLateSame(v);
    } else {
      FlushDoneSame(v);
    }
  }

  lemma FlushKeeps(v: View, kind: Kind)
    requires Invariant(v) && Allowed(v, Flush(kind))
    ensures Invariant(Flushed(v, kind))
  {
    FlushSame(v, kind);
    SameWorkKeeps(v, Flushed(v, kind));
    SameRecordsKeeps(v, Flushed(v, kind));
  }

  lemma LookSame(v: View, final: bool)
    requires v.row.Some? && v.copies[Looker(final)] > 0
    ensures SameWork(v, Looked(v, final))
  {
    assert Looked(v, final).copies == v.copies - multiset{Looker(final)} + Grave(final, Seen(v));
  }

  lemma LookKeepsRecords(v: View)
    requires v.row.Some? && Ownership(v) && Records(v) && v.copies[FinalChk] > 0
    ensures Records(Looked(v, true))
  {
  }

  lemma LateFinds(v: View, found: Task)
    requires v.row.Some? && Ownership(v) && Records(v) && v.copies[Lagging(true)] > 0 && Seen(v) == Some(found)
    requires found.status == Failed
    ensures Records(Looked(v, false))
  {
    var w := Looked(v, false);
    assert w.copies == v.copies - multiset{Lagging(true)} + multiset{AtDlq(false, Exhausted(found))};
    assert GoodRecords(w);
  }

  lemma LateFindsNothing(v: View)
    requires v.row.Some? && Ownership(v) && Records(v) && v.copies[Lagging(true)] > 0
    requires Seen(v).Some? ==> Seen(v).value.status != Failed
    ensures Records(Looked(v, false))
  {
    var w := Looked(v, false);
    assert w.copies == v.copies - multiset{Lagging(true)};
    assert Fresh(w) && Counts(w) && GoodRecords(w);
  }

  lemma LateLookKeepsRecords(v: View)
    requires v.row.Some? && Ownership(v) && Records(v) && v.copies[Lagging(true)] > 0
    ensures Records(Looked(v, false))
  {
    var found := Seen(v);
    if found.Some? && found.value.status == Failed {
      LateFinds(v, found.value);
    } else {
      LateFindsNothing(v);
    }
  }

  lemma BurySame(v: View, rec: Task, final: bool, second: int)
    requires v.row.Some? && v.copies[AtDlq(final, Exhausted(rec))] > 0
    ensures SameWork(v, Buried(v, rec, final, second))
  {
    Gone(v.copies, AtDlq(final, Exhausted(rec)));
  }

  lemma BuryKeepsGood(v: View, rec: Task, final: bool, second: int)
    requires GoodRecords(v) && Counts(v) && v.copies[AtDlq(final, Exhausted(rec))] > 0
    ensures GoodRecords(Buried(v, rec, final, second)) && Counts(Buried(v, rec, final, second))
  {
  }

  lemma BuriedCounts(v: View, rec: Task, final: bool, second: int)
    requires v.copies[AtDlq(final, Exhausted(rec))] > 0
    ensures var c, d := v.copies, Buried(v, rec, final, second).copies;
      && Lags(d) == Lags(c) && d[FinalDel] == c[FinalDel] && d[FinalChk] == c[FinalChk]
      && forall f, g :: d[AtDlq(f, g)] == c[AtDlq(f, g)] - if f == final && g == Exhausted(rec) then 1 else 0
  {
    Gone(v.copies, AtDlq(final, Exhausted(rec)));
  }

  lemma BuryKeepsArchive(v: View, rec: Task, final: bool, second: int)
    requires GoodRecords(v) && Archived(v) && v.row.Some? && v.copies[AtDlq(final, Exhausted(rec))] > 0
    ensures Archived(Buried(v, rec, final, second))
  {
    BuriedCounts(v, rec, final, second);
  }

  lemma BuryKeepsRecords(v: View, rec: Task, final: bool, second: int)
    requires Invariant(v) && v.row.Some? && v.copies[AtDlq(final, Exhausted(rec))] > 0
    ensures Records(Buried(v, rec, final, second))
  {
    BuryKeepsGood(v, rec, final, second);
    BuryKeepsArchive(v, rec, final, second);
    assert Fresh(Buried(v, rec, final, second));
  }

  lemma BuryKeeps(v: View, rec: Task, final: bool, second: int)
    requires Invariant(v) && Allowed(v, Bury(rec, final, second))
    ensures Invariant(Buried(v, rec, final, second))
  {
    BurySame(v, rec, final, second);
    SameWorkKeeps(v, Buried(v, rec, final, second));
    BuryKeepsRecords(v, rec, final, second);
  }

  predicate ByClients(l: Label) {
    l.Skip? || l.Later? || l.Insertion? || l.Fetch? || l.Forget? || l.Change? || l.Die? || l.Revert?
  }

  predicate ByAttempt(l: Label) {
    l.Take? || l.Pass? || l.Begin? || l.Outcome? || l.Success? || l.Failure?
  }

  lemma ClientMoveKeeps(v: View, l: Label)
    requires Invariant(v) && Allowed(v, l) && ByClients(l)
    ensures Invariant(Next(v, l))
  {
    match l
    case Skip =>
    case Later(nanos) => TimeKeeps(v, nanos);
    case Insertion(row) => InsertKeeps(v, row);
    case Fetch => CacheKeeps(v);
    case Forget => UncacheKeeps(v);
    case Change(p) => EditKeepsOwnership(v, p); EditKeepsBooks(v, p); EditKeepsRecords(v, p);
    case Die(lost) => DieKeeps(v, lost);
    case Revert => RevertKeepsOwnership(v); RevertKeepsBooks(v); RevertKeepsRecords(v);
  }

  lemma FailureKeeps(v: View, delay: int)
    requires Invariant(v) && Allowed(v, Failure(delay))
    ensures Invariant(FailedOnce(v, delay))
  {
    FailureKeepsOwnership(v, delay);
    FailureKeepsCount(v, delay);
    FailureKeepsSpacing(v, delay);
    FailureKeepsRecords(v, delay);
    FailureKeepsArchive(v, delay);
  }

  lemma AttemptMoveKeeps(v: View, l: Label)
    requires Invariant(v) && Allowed(v, l) && ByAttempt(l)
    ensures Invariant(Next(v, l))
  {
    match l
    case Take => TakeKeepsOwnership(v); TakeKeepsBooks(v); TakeKeepsRecords(v);
    case Pass(from) => PassKeeps(v, from);
    case Begin => BeginKeepsTokens(v); BeginKeepsOwner(v); BeginKeepsBooks(v); BeginKeepsRecords(v);
    case Outcome(ok) => OutcomeKeepsOwnership(v, ok); OutcomeKeepsBooks(v, ok); OutcomeKeepsRecords(v, ok);
    case Success => SuccessKeepsOwnership(v); SuccessKeepsBooks(v); SuccessKeepsRecords(v);
    case Failure(delay) => FailureKeeps(v, delay);
  }

  lemma LookKeeps(v: View, final: bool)
    requires Invariant(v) && Allowed(v, Look(final))
    ensures Invariant(Looked(v, final))
  {
    LookSame(v, final);
    SameWorkKeeps(v, Looked(v, final));
    if final { LookKeepsRecords(v); } else { LateLookKeepsRecords(v); }
  }

  /** Every move keeps the whole invariant. */
  lemma NextKeeps(v: View, l: Label)
    requires Invariant(v) && Allowed(v, l)
    ensures Invariant(Next(v, l))
  {
    if ByClients(l) {
      ClientMoveKeeps(v, l);
    } else if ByAttempt(l) {
      AttemptMoveKeeps(v, l);
    } else {
      match l
      case Flush(kind) => FlushKeeps(v, kind);
      case Look(final) => CacheKeeps(v); LookKeeps(Cache(v), final);
      case Bury(rec, final, second) => BuryKeeps(v, rec, final, second);
    }
  }

  // ---- which moves cost exclusive ownership ----

  /** Only a reschedule or a recovery while somebody still holds a copy of a row in flight revives a task. */
  predicate Revives(v: View, l: Label) {
    && v.row.Some? && InFlight(v.row.value.status) && Executable(v.copies) > 0
    && (l.Revert? || (l.Change? && l.patch.executeAt.Some?))
  }

  lemma RevivedCount(v: View, l: Label)
    requires l.Change? || l.Revert?
    ensures Next(v, l).log.revived == v.log.revived + (if Revives(v, l) then 1 else 0)
  {
  }

  lemma OthersDoNotRevive(v: View, l: Label)
    requires Untouched(v) && !l.Change? && !l.Revert?
    ensures Next(v, l).log.revived == v.log.revived && Next(v, l).log.reschedules == v.log.reschedules
  {
    if ByAttempt(l) {
      AttemptsDoNotRevive(v, l);
    } else if ByClients(l) {
      ClientsDoNotRevive(v, l);
    } else {
      assert Cache(v).log == v.log;
    }
  }

  lemma FailureDoesNotRevive(v: View, delay: int)
    ensures FailedOnce(v, delay).log.revived == v.log.revived
    ensures FailedOnce(v, delay).log.reschedules == v.log.reschedules
  {
  }

  lemma MarkDoesNotRevive(v: View)
    ensures Begun(v).log.revived == v.log.revived && Begun(v).log.reschedules == v.log.reschedules
  {
  }

  lemma AttemptsDoNotRevive(v: View, l: Label)
    requires ByAttempt(l)
    ensures Next(v, l).log.revived == v.log.revived && Next(v, l).log.reschedules == v.log.reschedules
  {
    if l.Failure? {
      FailureDoesNotRevive(v, l.delay);
    } else if l.Begin? {
      MarkDoesNotRevive(v);
    }
  }

  lemma ClientsDoNotRevive(v: View, l: Label)
    requires Untouched(v) && ByClients(l) && !l.Change? && !l.Revert?
    ensures Next(v, l).log.revived == v.log.revived && Next(v, l).log.reschedules == v.log.reschedules
  {
  }

  lemma RevivedGrows(v: View, l: Label)
    requires Untouched(v)
    ensures Next(v, l).log.revived >= v.log.revived
  {
    if l.Change? || l.Revert? {
      RevivedCount(v, l);
    } else {
      OthersDoNotRevive(v, l);
    }
  }

  /** While a task has one owner at most, exactly the reviving moves give it a second one. */
  lemma ExclusiveIff(v: View, l: Label)
    requires Invariant(v) && v.log.revived == 0 && Allowed(v, l)
    ensures AtMostOne(Next(v, l)) <==> !Revives(v, l)
    ensures Next(v, l).log.revived == 0 <==> !Revives(v, l)
  {
    NextKeeps(v, l);
    if l.Change? || l.Revert? {
      RevivedCount(v, l);
    } else {
      OthersDoNotRevive(v, l);
    }
  }

  /** The crash takes the task's only owner. */
  predicate Strands(l: Label) {
    l.Die? && Executable(l.lost) > 0
  }

  lemma SameWorkSameOwner(v: View, w: View)
    requires SameWork(v, w)
    ensures ExactlyOne(w) <==> ExactlyOne(v)
  {
  }

  lemma CopiesOnly(v: View, l: Label)
    requires Untouched(v) && ExactlyOne(v) && Allowed(v, l) && (l.Pass? || l.Flush? || l.Look? || l.Bury?)
    ensures ExactlyOne(Next(v, l))
  {
    match l
    case Pass(from) => PassSame(v, from); SameWorkSameOwner(v, Passed(v, from));
    case Flush(kind) => FlushSame(v, kind); SameWorkSameOwner(v, Flushed(v, kind));
    case Look(final) => LookSame(Cache(v), final); SameWorkSameOwner(Cache(v), Looked(Cache(v), final));
    case Bury(rec, final, second) =>
      BurySame(v, rec, final, second);
      SameWorkSameOwner(v, Buried(v, rec, final, second));
  }

  lemma DieExact(v: View, lost: multiset<Kind>)
    requires Untouched(v) && ExactlyOne(v) && lost <= v.copies
    ensures ExactlyOne(Died(v, lost)) <==> Executable(lost) == 0
  {
  }

  lemma EditExact(v: View, p: Patch)
    requires ExactlyOne(v)
    ensures ExactlyOne(Edited(v, p)) <==> !Revives(v, Change(p))
  {
  }

  lemma RevertExact(v: View)
    requires ExactlyOne(v)
    ensures ExactlyOne(Reverted(v)) <==> !Revives(v, Revert)
  {
  }

  lemma InsertExact(v: View, row: Task)
    requires Untouched(v) && ExactlyOne(v) && Allowed(v, Insertion(row))
    ensures ExactlyOne(Insert(v, row))
  {
  }

  lemma TakeExact(v: View)
    requires ExactlyOne(v) && Allowed(v, Take)
    ensures ExactlyOne(Taken(v))
  {
  }

  lemma BeginExact(v: View)
    requires ExactlyOne(v) && Allowed(v, Begin)
    ensures ExactlyOne(Begun(v))
  {
  }

  lemma OutcomeExact(v: View, ok: bool)
    requires ExactlyOne(v) && v.copies[Running(true)] > 0
    ensures ExactlyOne(Answered(v, ok))
  {
  }

  lemma SuccessExact(v: View)
    requires ExactlyOne(v) && v.copies[Won] > 0
    ensures ExactlyOne(Succeeded(v))
  {
  }

  lemma FailureExact(v: View, delay: int)
    requires ExactlyOne(v) && v.copies[Lost] > 0
    ensures ExactlyOne(FailedOnce(v, delay))
  {
  }

  lemma ClientsToo(v: View, l: Label)
    requires Untouched(v) && ExactlyOne(v) && Allowed(v, l) && ByClients(l)
    ensures ExactlyOne(Next(v, l)) <==> !Revives(v, l) && !Strands(l)
  {
    match l
    case Insertion(row) => InsertExact(v, row);
    case Change(p) => EditExact(v, p);
    case Die(lost) => DieExact(v, lost);
    case Revert => RevertExact(v);
    case _ =>
  }

  lemma AttemptsToo(v: View, l: Label)
    requires ExactlyOne(v) && Allowed(v, l) && ByAttempt(l) && !l.Pass?
    ensures ExactlyOne(Next(v, l))
  {
    match l
    case Take => TakeExact(v);
    case Begin => BeginExact(v);
    case Outcome(ok) => OutcomeExact(v, ok);
    case Success => SuccessExact(v);
    case Failure(delay) => FailureExact(v, delay);
  }

  /** While a claimed task has exactly one owner, this is lost exactly when the task is revived, or
      stranded by a crash. */
  lemma ExactIff(v: View, l: Label)
    requires Invariant(v) && ExactlyOne(v) && Allowed(v, l)
    ensures ExactlyOne(Next(v, l)) <==> !Revives(v, l) && !Strands(l)
  {
    if l.Pass? || l.Flush? || l.Look? || l.Bury? {
      CopiesOnly(v, l);
    } else if ByClients(l) {
      ClientsToo(v, l);
    } else {
      AttemptsToo(v, l);
    }
  }

  // ---- whatever is claimed is being worked on ----

  lemma CrashesCount(v: View, l: Label)
    ensures Next(v, l).crashes == v.crashes + if l.Die? then 1 else 0
  {
    if ByAttempt(l) {
      AttemptsDoNotCrash(v, l);
    }
  }

  lemma AttemptsDoNotCrash(v: View, l: Label)
    requires ByAttempt(l)
    ensures Next(v, l).crashes == v.crashes
  {
  }

  /** Somebody may still run or record a callback of a row in flight; unlike ownership this survives
      reschedules and recoveries that revive the task. */
  predicate Attended(v: View) {
    v.row.Some? && InFlight(v.row.value.status) ==> Executable(v.copies) > 0
  }

  lemma SameWorkAttended(v: View, w: View)
    requires SameWork(v, w)
    ensures Attended(w) <==> Attended(v)
  {
  }

  lemma ClientsAttend(v: View, l: Label)
    requires Untouched(v) && Attended(v) && Allowed(v, l) && ByClients(l) && !l.Die?
    ensures Attended(Next(v, l))
  {
  }

  lemma RowsAttend(v: View, l: Label)
    requires Attended(v) && Allowed(v, l) && (l.Take? || l.Begin?)
    ensures Attended(Next(v, l))
  {
    match l
    case Take => assert v.row.Some? ==> Waiting(InBatch) in Taken(v).copies;
    case Begin => assert v.row.Some? ==> Running(false) in Begun(v).copies;
  }

  lemma OutcomeAttends(v: View, ok: bool)
    requires Untouched(v) && Attended(v) && v.copies[Running(true)] > 0
    ensures Attended(Answered(v, ok))
  {
    var to := if ok then Won else Lost;
    assert to in Answered(v, ok).copies;
  }

  lemma RecordsAttend(v: View, l: Label)
    requires Untouched(v) && Allowed(v, l) && (l.Success? || l.Failure?)
    ensures Attended(Next(v, l))
  {
  }

  lemma CleanUpAttends(v: View, l: Label)
    requires Untouched(v) && Attended(v) && Allowed(v, l) && (l.Pass? || l.Flush? || l.Look? || l.Bury?)
    ensures Attended(Next(v, l))
  {
    match l
    case Pass(from) => PassSame(v, from); SameWorkAttended(v, Passed(v, from));
    case Flush(kind) => FlushSame(v, kind); SameWorkAttended(v, Flushed(v, kind));
    case Look(final) => LookSame(Cache(v), final); SameWorkAttended(Cache(v), Looked(Cache(v), final));
    case Bury(rec, final, second) =>
      BurySame(v, rec, final, second);
      SameWorkAttended(v, Buried(v, rec, final, second));
  }

  /** Every move but a crash keeps a row in flight attended, and a recovery makes it so again. */
  lemma NextAttends(v: View, l: Label)
    requires Untouched(v) && Allowed(v, l) && !l.Die? && (l.Revert? || Attended(v))
    ensures Attended(Next(v, l))
  {
    if l.Revert? {
    } else if l.Pass? || l.Flush? || l.Look? || l.Bury? {
      CleanUpAttends(v, l);
    } else if ByClients(l) {
      ClientsAttend(v, l);
    } else {
      match l
      case Outcome(ok) => OutcomeAttends(v, ok);
      case Success => RecordsAttend(v, l);
      case Failure(_) => RecordsAttend(v, l);
      case _ => RowsAttend(v, l);
    }
  }

  /** A row in flight that nobody works on stays as it is until a recovery or a reschedule. */
  predicate Abandoned(v: View) {
    v.row.Some? && InFlight(v.row.value.status) && Executable(v.copies) == 0
  }

  lemma AbandonedRests(v: View, l: Label)
    requires Abandoned(v) && Allowed(v, l)
    ensures !ByAttempt(l)
  {
  }

  lemma ClientsLeaveAbandoned(v: View, l: Label)
    requires Abandoned(v) && Allowed(v, l) && ByClients(l) && !l.Revert? && !(l.Change? && l.patch.executeAt.Some?)
    ensures Abandoned(Next(v, l))
  {
  }

  lemma SameWorkAbandoned(v: View, w: View)
    requires SameWork(v, w)
    ensures Abandoned(w) <==> Abandoned(v)
  {
  }

  lemma CleanUpLeavesAbandoned(v: View, l: Label)
    requires Abandoned(v) && Allowed(v, l) && (l.Flush? || l.Look? || l.Bury?)
    ensures Abandoned(Next(v, l))
  {
    match l
    case Flush(kind) => FlushSame(v, kind); SameWorkAbandoned(v, Flushed(v, kind));
    case Look(final) => LookSame(Cache(v), final); SameWorkAbandoned(Cache(v), Looked(Cache(v), final));
    case Bury(rec, final, second) =>
      BurySame(v, rec, final, second);
      SameWorkAbandoned(v, Buried(v, rec, final, second));
  }

  lemma AbandonedStays(v: View, l: Label)
    requires Abandoned(v) && Allowed(v, l) && !l.Revert? && !(l.Change? && l.patch.executeAt.Some?)
    ensures Abandoned(Next(v, l))
  {
    AbandonedRests(v, l);
    if ByClients(l) {
      ClientsLeaveAbandoned(v, l);
    } else {
      CleanUpLeavesAbandoned(v, l);
    }
  }

  /** A recovery that finds no owner of the row left makes ownership exact again. */
  lemma RevertRestores(v: View)
    requires Invariant(v) && v.log.revived == 0 && !Revives(v, Revert)
    ensures ExactlyOne(Reverted(v))
    ensures v.row.Some? ==> !InFlight(v.row.value.status) || Reverted(v).row.value.status == Pending
  {
  }
}
