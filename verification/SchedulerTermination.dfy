/** Every task's work is finite: each step that moves its row or one of its copies, from the claim to
    the dead-letter table, uses up some of a measure that nothing but a reschedule or a recovery adds to,
    and each of those adds a bounded amount; and so is the work of the whole system.  This holds from
    every reachable state, however many copies of one task reschedules and recoveries have left. */
module SchedulerTermination {
  import opened Options
  import opened Tasks
  import opened Scheduler
  import opened Simulation
  import opened SchedulerTheorems
  import RA = RetryAutomaton

  // ---- the measure of one task ----

  /** Ten steps a try: claim, enqueue, dequeue, mark, `Del`, outcome, record, `Del`, `Get`, archive. */
  const TRY: nat := 10

  function AtLeastZero(n: int): nat {
    if n < 0 then 0 else n
  }

  /** What the row alone still promises: the retries it has left, and the claim that is due. */
  function RowLeft(t: Task): nat {
    TRY * AtLeastZero(t.maxRetries - t.retryCount) + if t.status == Pending then TRY else 0
  }

  /** The steps that remain to be made with one copy, apart from what it does to the row. */
  function KindLeft(k: Kind): nat {
    match k
    case Waiting(at) => (match at case InBatch => 9 case InChannel => 8 case InHand => 7)
    case Running(called) => if called then 5 else 6
    case Won => 4
    case Lost => 4
    case Finishing => 1
    case FinalDel => 3
    case FinalChk => 2
    case Lagging(flushed) => if flushed then 2 else 3
    case AtDlq(_, _) => 1
  }

  ghost function AnyKind(c: multiset<Kind>): (k: Kind)
    requires c != multiset{}
    ensures k in c
  {
    var k :| k in c;
    k
  }

  ghost function CopiesLeft(c: multiset<Kind>): nat {
    if c == multiset{} then 0 else KindLeft(AnyKind(c)) + CopiesLeft(c - multiset{AnyKind(c)})
  }

  ghost function ViewLeft(v: RA.View): nat {
    if v.row.None? then 0 else RowLeft(v.row.value) + CopiesLeft(v.copies)
  }

  /** Moves of the task's row or of one of its copies. */
  predicate Working(l: RA.Label) {
    l.Take? || l.Pass? || l.Begin? || l.Outcome? || l.Success? || l.Failure? || l.Flush? || l.Look? || l.Bury?
  }

  /** Moves that give a task work to do. */
  predicate Renews(l: RA.Label) {
    l.Revert? || (l.Change? && l.patch.executeAt.Some?)
  }

  /** What a move can add: a reschedule gives all tries back, a recovery the one that was interrupted. */
  function Renewal(v: RA.View, l: RA.Label): nat {
    if v.row.None? || !Renews(l) then 0
    else if l.Revert? then TRY
    else TRY * (AtLeastZero(v.row.value.maxRetries) + 1)
  }

  // ---- what a copy takes with it ----

  lemma {:induction false} Released(c: multiset<Kind>, k: Kind)
    requires k in c
    ensures CopiesLeft(c) == KindLeft(k) + CopiesLeft(c - multiset{k})
    decreases |c|
  {
    var p := AnyKind(c);
    if p != k {
      Released(c - multiset{p}, k);
      Released(c - multiset{k}, p);
      assert c - multiset{p} - multiset{k} == c - multiset{k} - multiset{p};
    }
  }

  lemma Acquired(c: multiset<Kind>, k: Kind)
    ensures CopiesLeft(c + multiset{k}) == CopiesLeft(c) + KindLeft(k)
  {
    Released(c + multiset{k}, k);
    assert c + multiset{k} - multiset{k} == c;
  }

  lemma Moved(c: multiset<Kind>, from: Kind, to: Kind)
    requires c[from] > 0
    ensures CopiesLeft(RA.Move(c, from, multiset{to})) == CopiesLeft(c) - KindLeft(from) + KindLeft(to)
  {
    Released(c, from);
    Acquired(c - multiset{from}, to);
  }

  lemma Retired(c: multiset<Kind>, from: Kind)
    requires c[from] > 0
    ensures CopiesLeft(RA.Move(c, from, multiset{})) == CopiesLeft(c) - KindLeft(from)
  {
    Released(c, from);
    assert RA.Move(c, from, multiset{}) == c - multiset{from};
  }

  lemma {:induction false} Perished(c: multiset<Kind>, lost: multiset<Kind>)
    requires lost <= c
    ensures CopiesLeft(c - lost) <= CopiesLeft(c)
    decreases |lost|
  {
    if lost == multiset{} {
      assert c - lost == c;
    } else {
      var k := AnyKind(lost);
      Perished(c - multiset{k}, lost - multiset{k});
      Released(c, k);
      assert c - multiset{k} - (lost - multiset{k}) == c - lost;
    }
  }

  // ---- every move ----

  lemma TakeUses(v: RA.View)
    requires v.row.Some? && v.row.value.status == Pending
    ensures ViewLeft(RA.Taken(v)) < ViewLeft(v)
  {
    Acquired(v.copies, Waiting(InBatch));
  }

  lemma PassUses(v: RA.View, from: Place)
    requires v.row.Some? && RA.Allowed(v, RA.Pass(from))
    ensures ViewLeft(RA.Passed(v, from)) < ViewLeft(v)
  {
    Moved(v.copies, Waiting(from), Waiting(RA.NextPlace(from)));
  }

  lemma BeginUses(v: RA.View)
    requires v.row.Some? && v.copies[Waiting(InHand)] > 0
    ensures ViewLeft(RA.Begun(v)) < ViewLeft(v)
  {
    Moved(v.copies, Waiting(InHand), Running(false));
  }

  lemma OutcomeUses(v: RA.View, ok: bool)
    requires v.row.Some? && v.copies[Running(true)] > 0
    ensures ViewLeft(RA.Answered(v, ok)) < ViewLeft(v)
  {
    Moved(v.copies, Running(true), if ok then Won else Lost);
  }

  lemma SuccessUses(v: RA.View)
    requires v.row.Some? && v.copies[Won] > 0
    ensures ViewLeft(RA.Succeeded(v)) < ViewLeft(v)
  {
    Moved(v.copies, Won, Finishing);
  }

  /** A failure that makes the row PENDING again pays for that with one of its retries. */
  lemma FailedRowLeft(t: Task, now: int, delay: int)
    ensures RowLeft(FailRow(t, now, delay)) <= RowLeft(t)
  {
  }

  lemma FailureUses(v: RA.View, delay: int)
    requires v.row.Some? && v.copies[Lost] > 0
    ensures ViewLeft(RA.FailedOnce(v, delay)) < ViewLeft(v)
  {
    var upd := FailRow(v.row.value, v.now, delay);
    var to := if upd.status == Failed then FinalDel else Lagging(false);
    FailedRowLeft(v.row.value, v.now, delay);
    Moved(v.copies, Lost, to);
    var w := RA.FailedOnce(v, delay);
    assert w.row == Some(upd) && w.copies == RA.Move(v.copies, Lost, multiset{to});
    LessLeft(v, w);
  }

  lemma LessLeft(v: RA.View, w: RA.View)
    requires v.row.Some? && w.row.Some?
    requires RowLeft(w.row.value) <= RowLeft(v.row.value) && CopiesLeft(w.copies) < CopiesLeft(v.copies)
    ensures ViewLeft(w) < ViewLeft(v)
  {
  }

  /** A copy that becomes one with less to do, or goes away. */
  lemma Exchanged(c: multiset<Kind>, from: Kind, to: multiset<Kind>)
    requires c[from] > 0 && (to == multiset{} || exists k :: to == multiset{k} && KindLeft(k) < KindLeft(from))
    requires KindLeft(from) > 0
    ensures CopiesLeft(RA.Move(c, from, to)) < CopiesLeft(c)
  {
    if to == multiset{} {
      Retired(c, from);
    } else {
      var k :| to == multiset{k} && KindLeft(k) < KindLeft(from);
      Moved(c, from, k);
    }
  }

  lemma FlushMoves(kind: Kind)
    requires RA.Flushes(kind)
    ensures var to := RA.AfterFlush(kind);
      to == multiset{} || exists k :: to == multiset{k} && KindLeft(k) < KindLeft(kind)
  {
    if kind.Running? {
      assert RA.AfterFlush(kind) == multiset{Running(true)} && KindLeft(Running(true)) < KindLeft(kind);
    } else if kind == FinalDel {
      assert RA.AfterFlush(kind) == multiset{FinalChk} && KindLeft(FinalChk) < KindLeft(kind);
    } else if kind.Lagging? {
      assert RA.AfterFlush(kind) == multiset{Lagging(true)} && KindLeft(Lagging(true)) < KindLeft(kind);
    }
  }

  lemma FlushUses(v: RA.View, kind: Kind)
    requires v.row.Some? && RA.Allowed(v, RA.Flush(kind))
    ensures ViewLeft(RA.Flushed(v, kind)) < ViewLeft(v)
  {
    FlushMoves(kind);
    Exchanged(v.copies, kind, RA.AfterFlush(kind));
  }

  lemma GraveMoves(final: bool, found: Option<Task>)
    ensures var to := RA.Grave(final, found);
      to == multiset{} || exists k :: to == multiset{k} && KindLeft(k) < KindLeft(RA.Looker(final))
  {
    if found.Some? && found.value.status == Failed {
      var k := AtDlq(final, Exhausted(found.value));
      assert RA.Grave(final, found) == multiset{k} && KindLeft(k) < KindLeft(RA.Looker(final));
    }
  }

  lemma LookUses(v: RA.View, final: bool)
    requires v.row.Some? && v.copies[RA.Looker(final)] > 0
    ensures ViewLeft(RA.Looked(v, final)) < ViewLeft(v)
  {
    GraveMoves(final, RA.Seen(v));
    Exchanged(v.copies, RA.Looker(final), RA.Grave(final, RA.Seen(v)));
  }

  lemma BuryUses(v: RA.View, rec: Task, final: bool, second: int)
    requires v.row.Some? && v.copies[AtDlq(final, Exhausted(rec))] > 0
    ensures ViewLeft(RA.Buried(v, rec, final, second)) < ViewLeft(v)
  {
    Retired(v.copies, AtDlq(final, Exhausted(rec)));
  }

  lemma AttemptUses(v: RA.View, l: RA.Label)
    requires v.row.Some? && RA.Allowed(v, l) && RA.ByAttempt(l)
    ensures ViewLeft(RA.Next(v, l)) < ViewLeft(v)
  {
    match l
    case Take => TakeUses(v);
    case Pass(from) => PassUses(v, from);
    case Begin => BeginUses(v);
    case Outcome(ok) => OutcomeUses(v, ok);
    case Success => SuccessUses(v);
    case Failure(delay) => FailureUses(v, delay);
  }

  lemma CleanUpUses(v: RA.View, l: RA.Label)
    requires v.row.Some? && RA.Allowed(v, l) && (l.Flush? || l.Look? || l.Bury?)
    ensures ViewLeft(RA.Next(v, l)) < ViewLeft(v)
  {
    match l
    case Flush(kind) => FlushUses(v, kind);
    case Look(final) => LookUses(RA.Cache(v), final);
    case Bury(rec, final, second) => BuryUses(v, rec, final, second);
  }

  lemma OthersKeep(v: RA.View, l: RA.Label)
    requires v.row.Some? && RA.Allowed(v, l) && !Working(l) && !Renews(l)
    ensures ViewLeft(RA.Next(v, l)) <= ViewLeft(v)
  {
    if l.Die? {
      Perished(v.copies, l.lost);
    }
  }

  lemma RenewalAdds(v: RA.View, l: RA.Label)
    requires v.row.Some? && Renews(l)
    ensures ViewLeft(RA.Next(v, l)) <= ViewLeft(v) + Renewal(v, l)
  {
  }

  /** Each move of the row or of a copy strictly decreases the measure, whatever state the task is in and
      however many copies of it there are; no other move increases it, but a reschedule or a recovery, and
      those by no more than the tries they give back. */
  lemma MoveUses(v: RA.View, l: RA.Label)
    requires v.row.Some? && RA.Allowed(v, l)
    ensures ViewLeft(RA.Next(v, l)) + (if Working(l) then 1 else 0) <= ViewLeft(v) + Renewal(v, l)
  {
    if Renews(l) {
      RenewalAdds(v, l);
    } else if RA.ByAttempt(l) {
      AttemptUses(v, l);
    } else if Working(l) {
      CleanUpUses(v, l);
    } else {
      OthersKeep(v, l);
    }
  }

  /** No move touches the retry limit. */
  lemma AttemptKeepsLimit(v: RA.View, l: RA.Label)
    requires v.row.Some? && RA.ByAttempt(l)
    ensures RA.Next(v, l).row.Some? && RA.Next(v, l).row.value.maxRetries == v.row.value.maxRetries
  {
  }

  lemma MoveKeepsLimit(v: RA.View, l: RA.Label)
    requires v.row.Some?
    ensures RA.Next(v, l).row.Some? && RA.Next(v, l).row.value.maxRetries == v.row.value.maxRetries
  {
    if RA.ByAttempt(l) {
      AttemptKeepsLimit(v, l);
    }
  }

  // ---- runs, as one task sees them ----

  ghost function WorkLeft(s: Sys, id: string): nat {
    ViewLeft(ViewOf(s, id))
  }

  /** The event moves the task's row or one of its copies. */
  ghost predicate Moves(s: Sys, e: Event, id: string) {
    Working(LabelOf(s, e, id))
  }

  ghost function WorkDone(s: Sys, es: seq<Event>, id: string): nat {
    if es == [] then 0 else
      var before := es[..|es| - 1];
      WorkDone(s, before, id) + if Moves(Run(s, before), es[|es| - 1], id) then 1 else 0
  }

  /** No recovery, and no reschedule of the task; processes may crash. */
  predicate Spares(e: Event, id: string) {
    !e.Recover? && !(e.Edit? && e.id == id && e.patch.executeAt.Some?)
  }

  predicate Undisturbed(es: seq<Event>, id: string) {
    forall n :: 0 <= n < |es| ==> Spares(es[n], id)
  }

  /** What an event can give back to a task with this retry limit. */
  function Gives(e: Event, id: string, maxRetries: int): nat {
    if Spares(e, id) then 0 else if e.Recover? then TRY else TRY * (AtLeastZero(maxRetries) + 1)
  }

  function Renewed(es: seq<Event>, id: string, maxRetries: int): nat {
    if es == [] then 0 else Renewed(es[..|es| - 1], id, maxRetries) + Gives(es[|es| - 1], id, maxRetries)
  }

  lemma RenewalGiven(s: Sys, e: Event, id: string)
    requires id in s.tasks
    ensures Renewal(ViewOf(s, id), LabelOf(s, e, id)) <= Gives(e, id, s.tasks[id].maxRetries)
  {
    LabelShape(s, e, id);
  }

  lemma {:induction false} UndisturbedRenewsNothing(es: seq<Event>, id: string, maxRetries: int)
    requires Undisturbed(es, id)
    ensures Renewed(es, id, maxRetries) == 0
  {
    if es != [] {
      UndisturbedRenewsNothing(es[..|es| - 1], id, maxRetries);
    }
  }

  lemma StepUses(s: Sys, e: Event, id: string)
    requires Consistent(s) && id in s.tasks
    ensures id in Step(s, e).tasks && Step(s, e).tasks[id].maxRetries == s.tasks[id].maxRetries
    ensures WorkLeft(Step(s, e), id) + (if Moves(s, e, id) then 1 else 0)
         <= WorkLeft(s, id) + Gives(e, id, s.tasks[id].maxRetries)
  {
    var v, l := ViewOf(s, id), LabelOf(s, e, id);
    StepSimulates(s, e, id);
    RenewalGiven(s, e, id);
    MoveUses(v, l);
    MoveKeepsLimit(v, l);
    RowKept(Step(s, e), id, RA.Next(v, l));
  }

  lemma RowKept(s: Sys, id: string, w: RA.View)
    requires ViewOf(s, id) == w && w.row.Some?
    ensures id in s.tasks && s.tasks[id] == w.row.value
  {
  }

  lemma {:induction false} RunUses(s: Sys, es: seq<Event>, id: string)
    requires Consistent(s) && id in s.tasks
    ensures var s' := Run(s, es);
      && Consistent(s') && id in s'.tasks && s'.tasks[id].maxRetries == s.tasks[id].maxRetries
      && WorkDone(s, es, id) + WorkLeft(s', id) <= WorkLeft(s, id) + Renewed(es, id, s.tasks[id].maxRetries)
  {
    if es != [] {
      var before, e := es[..|es| - 1], es[|es| - 1];
      RunUses(s, before, id);
      StepConsistent(Run(s, before), e);
      StepUses(Run(s, before), e, id);
    }
  }

  /** From any reachable state, in any run whatever that follows: the steps that move the task's row or
      copies are at most WorkLeft, ten for each later recovery, and ten for each try that a later reschedule
      of the task gives back; so at most WorkLeft if the run does not disturb it. */
  lemma WorkIsFinite(s: Sys, es: seq<Event>, id: string)
    requires Reachable(s) && id in s.tasks
    ensures WorkDone(s, es, id) <= WorkLeft(s, id) + Renewed(es, id, s.tasks[id].maxRetries)
    ensures Undisturbed(es, id) ==> WorkDone(s, es, id) <= WorkLeft(s, id)
  {
    ReachableInvariant(s, id);
    RunUses(s, es, id);
    if Undisturbed(es, id) {
      UndisturbedRenewsNothing(es, id, s.tasks[id].maxRetries);
    }
  }

  /** A task that was just created takes at most ten steps for each of its tries. */
  lemma NewTaskWork(s: Sys, q: TaskRequest, generated: string, es: seq<Event>)
    requires Reachable(s)
    requires var id := NewRow(q, generated, s.now).id; id !in s.tasks && Undisturbed(es, id)
    ensures var row := NewRow(q, generated, s.now);
      WorkDone(Step(s, Create(q, generated)), es, row.id) <= TRY * (row.maxRetries + 1)
  {
    var e := Create(q, generated);
    var row := NewRow(q, generated, s.now);
    ReachableInvariant(s, row.id);
    StepConsistent(s, e);
    StepSimulates(s, e, row.id);
    NewView(ViewOf(s, row.id), row);
    RowKept(Step(s, e), row.id, RA.Insert(ViewOf(s, row.id), row));
    RunUses(Step(s, e), es, row.id);
    UndisturbedRenewsNothing(es, row.id, row.maxRetries);
  }

  lemma NewView(v: RA.View, row: Task)
    requires RA.Untouched(v) && v.row.None? && RA.Allowed(v, RA.Insertion(row))
    ensures RA.Insert(v, row).row == Some(row) && ViewLeft(RA.Insert(v, row)) == TRY * (row.maxRetries + 1)
  {
  }

  // ---- runs of the whole system ----

  /** Somebody's row or copy moves. */
  ghost predicate Effective(s: Sys, e: Event) {
    exists id :: Moves(s, e, id)
  }

  ghost function EffectiveSteps(s: Sys, es: seq<Event>): nat {
    if es == [] then 0 else
      var before := es[..|es| - 1];
      EffectiveSteps(s, before) + if Effective(Run(s, before), es[|es| - 1]) then 1 else 0
  }

  /** No new task, no reschedule, no recovery. */
  predicate Settling(e: Event) {
    !e.Create? && !e.Recover? && !(e.Edit? && e.patch.executeAt.Some?)
  }

  predicate AllSettling(es: seq<Event>) {
    forall n :: 0 <= n < |es| ==> Settling(es[n])
  }

  ghost function Pick(ids: set<string>): (id: string)
    requires ids != {}
    ensures id in ids
  {
    var id :| id in ids;
    id
  }

  ghost function SumLeft(s: Sys, ids: set<string>): nat {
    if ids == {} then 0 else WorkLeft(s, Pick(ids)) + SumLeft(s, ids - {Pick(ids)})
  }

  lemma {:induction false} SumsCompare(s: Sys, s': Sys, ids: set<string>)
    requires forall id :: id in ids ==> WorkLeft(s', id) <= WorkLeft(s, id)
    ensures SumLeft(s', ids) <= SumLeft(s, ids)
    ensures (exists id :: id in ids && WorkLeft(s', id) < WorkLeft(s, id)) ==> SumLeft(s', ids) < SumLeft(s, ids)
  {
    if ids != {} {
      SumsCompare(s, s', ids - {Pick(ids)});
      if id :| id in ids && WorkLeft(s', id) < WorkLeft(s, id) {
        assert id == Pick(ids) || id in ids - {Pick(ids)};
      }
    }
  }

  /** These are all the tasks there are, and the others have left no trace. */
  ghost predicate Listed(s: Sys, ids: set<string>) {
    Consistent(s) && s.tasks.Keys == ids && forall id :: RA.Untouched(ViewOf(s, id))
  }

  lemma NoneStays(v: RA.View, l: RA.Label)
    requires RA.Untouched(v) && v.row.None? && RA.Allowed(v, l) && !l.Insertion?
    ensures RA.Next(v, l).row.None? && !Working(l) && RA.Untouched(RA.Next(v, l))
  {
  }

  lemma SettlingSpares(s: Sys, e: Event, id: string)
    requires Settling(e)
    ensures Spares(e, id) && !LabelOf(s, e, id).Insertion?
  {
  }

  lemma NoRowNoMove(s: Sys, e: Event, id: string)
    requires Consistent(s) && RA.Untouched(ViewOf(s, id)) && id !in s.tasks && Settling(e)
    ensures !Moves(s, e, id) && id !in Step(s, e).tasks && RA.Untouched(ViewOf(Step(s, e), id))
  {
    StepSimulates(s, e, id);
    SettlingSpares(s, e, id);
    NoneStays(ViewOf(s, id), LabelOf(s, e, id));
  }

  /** What a step does to every task, as the two lemmas above and `StepUses` say. */
  ghost predicate Settles(s: Sys, e: Event, s': Sys, ids: set<string>) {
    && (forall id :: id in ids ==>
          id in s'.tasks && WorkLeft(s', id) + (if Moves(s, e, id) then 1 else 0) <= WorkLeft(s, id))
    && (forall id :: id !in ids ==> !Moves(s, e, id) && id !in s'.tasks && RA.Untouched(ViewOf(s', id)))
  }

  lemma SpareStepUses(s: Sys, e: Event, id: string)
    requires Consistent(s) && id in s.tasks && Settling(e)
    ensures id in Step(s, e).tasks
    ensures WorkLeft(Step(s, e), id) + (if Moves(s, e, id) then 1 else 0) <= WorkLeft(s, id)
  {
    SettlingSpares(s, e, id);
    StepUses(s, e, id);
  }

  lemma StepSettles(s: Sys, e: Event, ids: set<string>)
    requires Listed(s, ids) && Settling(e)
    ensures Settles(s, e, Step(s, e), ids)
  {
    forall id | id in ids
      ensures id in Step(s, e).tasks
      ensures WorkLeft(Step(s, e), id) + (if Moves(s, e, id) then 1 else 0) <= WorkLeft(s, id)
    {
      SpareStepUses(s, e, id);
    }
    forall id | id !in ids
      ensures !Moves(s, e, id) && id !in Step(s, e).tasks && RA.Untouched(ViewOf(Step(s, e), id))
    {
      NoRowNoMove(s, e, id);
    }
  }

  lemma SettledSum(s: Sys, e: Event, s': Sys, ids: set<string>)
    requires Settles(s, e, s', ids)
    ensures SumLeft(s', ids) + (if Effective(s, e) then 1 else 0) <= SumLeft(s, ids)
  {
    SumsCompare(s, s', ids);
    if Effective(s, e) {
      var id :| Moves(s, e, id);
      assert id in ids;
    }
  }

  lemma SystemStepUses(s: Sys, e: Event, ids: set<string>)
    requires Listed(s, ids) && Settling(e)
    ensures Listed(Step(s, e), ids)
    ensures SumLeft(Step(s, e), ids) + (if Effective(s, e) then 1 else 0) <= SumLeft(s, ids)
  {
    StepConsistent(s, e);
    StepSettles(s, e, ids);
    SettledSum(s, e, Step(s, e), ids);
    ListedAgain(Step(s, e), ids);
  }

  lemma ListedAgain(s: Sys, ids: set<string>)
    requires Consistent(s) && forall id :: id in ids ==> id in s.tasks
    requires forall id :: id !in ids ==> id !in s.tasks && RA.Untouched(ViewOf(s, id))
    ensures Listed(s, ids)
  {
    forall id ensures RA.Untouched(ViewOf(s, id)) {
      if id in ids {
        assert id in s.tasks;
      }
    }
    assert forall id :: id in s.tasks <==> id in ids;
  }

  lemma {:induction false} SystemRunUses(s: Sys, es: seq<Event>, ids: set<string>)
    requires Listed(s, ids) && AllSettling(es)
    ensures Listed(Run(s, es), ids)
    ensures EffectiveSteps(s, es) + SumLeft(Run(s, es), ids) <= SumLeft(s, ids)
  {
    if es != [] {
      SystemRunUses(s, es[..|es| - 1], ids);
      SystemStepUses(Run(s, es[..|es| - 1]), es[|es| - 1], ids);
    }
  }

  lemma ReachableListed(s: Sys)
    requires Reachable(s)
    ensures Listed(s, s.tasks.Keys)
  {
    ReachableInvariant(s, "");
    forall id ensures RA.Untouched(ViewOf(s, id)) {
      ReachableInvariant(s, id);
    }
  }

  /** From any reachable state, whatever was rescheduled, recovered or crashed before: a run without new
      tasks, reschedules and recoveries makes at most as many effective steps as the measures of all tasks
      add up to, with any number of replicas and of crashes. */
  lemma RunsAreFinite(s: Sys, es: seq<Event>)
    requires Reachable(s) && AllSettling(es)
    ensures EffectiveSteps(s, es) <= SumLeft(s, s.tasks.Keys)
  {
    ReachableListed(s);
    SystemRunUses(s, es, s.tasks.Keys);
  }

  /** The count leaves out nothing that a goroutine does with a record: a claim that takes rows, and every
      step of channel and workers, is effective. */
  lemma GoroutinesAreEffective(s: Sys, e: Event)
    requires Consistent(s) && Enabled(s, e)
    requires ByWorker(e) || e.Enqueue? || e.Dequeue? || (e.Claim? && e.chosen != [])
    ensures Effective(s, e)
  {
    if ByWorker(e) {
      assert Moves(s, e, WorkerAt(s, e.j, e.i).t.id);
    } else if e.Enqueue? {
      assert Moves(s, e, s.replicas[e.j].ticker.batch[0].id);
    } else if e.Dequeue? {
      assert Moves(s, e, s.replicas[e.j].channel[0].id);
    } else {
      assert Moves(s, e, e.chosen[0]);
    }
  }
}
