/** No edit is lost.  PUT requests, workers, claims and recoveries all write the same rows; since every
    one of them is a locked read-modify-write of its own columns, a row's text is what its clients made
    it, over every run and whatever happens in between. */
module SchedulerEdits {
  import opened Options
  import opened Tasks
  import opened Scheduler
  import opened Simulation
  import opened SchedulerTheorems
  import RA = RetryAutomaton

  datatype Text = Text(title: string, description: string)

  function TextOf(s: Sys, id: string): Option<Text> {
    if id in s.tasks then Some(Text(s.tasks[id].title, s.tasks[id].description)) else None
  }

  function Patched(x: Text, p: Patch): Text {
    Text(if p.title.Some? then p.title.value else x.title,
         if p.description.Some? then p.description.value else x.description)
  }

  /** What one event means to the text of a task: only its first creation and its edits count. */
  function NextText(x: Option<Text>, e: Event, id: string): Option<Text> {
    match e
    case Create(q, generated) =>
      if x.None? && (if q.id == "" then generated else q.id) == id then Some(Text(q.title, q.description)) else x
    case Edit(k, p) => if k == id && x.Some? then Some(Patched(x.value, p)) else x
    case _ => x
  }

  /** The text that the clients' requests alone, in their order, give a task. */
  function TextAfter(es: seq<Event>, id: string): Option<Text> {
    if es == [] then None else NextText(TextAfter(es[..|es| - 1], id), es[|es| - 1], id)
  }

  function ViewText(v: RA.View): Option<Text> {
    if v.row.Some? then Some(Text(v.row.value.title, v.row.value.description)) else None
  }

  /** What one move of its automaton does to the text of a task. */
  function LabelText(x: Option<Text>, l: RA.Label): Option<Text> {
    match l
    case Insertion(row) => if x.None? then Some(Text(row.title, row.description)) else x
    case Change(p) => if x.Some? then Some(Patched(x.value, p)) else x
    case _ => x
  }

  lemma AttemptKeepsText(v: RA.View, l: RA.Label)
    requires RA.ByAttempt(l)
    ensures ViewText(RA.Next(v, l)) == ViewText(v)
  {
  }

  lemma ClientMoveText(v: RA.View, l: RA.Label)
    requires RA.ByClients(l)
    ensures ViewText(RA.Next(v, l)) == LabelText(ViewText(v), l)
  {
  }

  lemma LateMoveKeepsText(v: RA.View, l: RA.Label)
    requires l.Flush? || l.Look? || l.Bury?
    ensures ViewText(RA.Next(v, l)) == ViewText(v)
  {
    assert RA.Cache(v).row == v.row;
  }

  lemma MoveText(v: RA.View, l: RA.Label)
    ensures ViewText(RA.Next(v, l)) == LabelText(ViewText(v), l)
  {
    if RA.ByAttempt(l) {
      AttemptKeepsText(v, l);
    } else if RA.ByClients(l) {
      ClientMoveText(v, l);
    } else {
      LateMoveKeepsText(v, l);
    }
  }

  lemma TextIsViewText(s: Sys, id: string)
    ensures TextOf(s, id) == ViewText(ViewOf(s, id))
  {
  }

  lemma EventText(s: Sys, e: Event, id: string, x: Option<Text>)
    ensures LabelText(x, LabelOf(s, e, id)) == NextText(x, e, id)
  {
    TextLabel(s, e, id);
  }

  lemma TextLabel(s: Sys, e: Event, id: string)
    ensures var l := LabelOf(s, e, id);
      && (l.Insertion? <==> e.Create? && NewRow(e.request, e.generated, s.now).id == id)
      && (l.Insertion? ==> l.row == NewRow(e.request, e.generated, s.now))
      && (l.Change? <==> e.Edit? && e.id == id) && (l.Change? ==> l.patch == e.patch)
  {
  }

  lemma StepText(s: Sys, e: Event, id: string)
    requires Consistent(s)
    ensures TextOf(Step(s, e), id) == NextText(TextOf(s, id), e, id)
  {
    var v, l := ViewOf(s, id), LabelOf(s, e, id);
    StepSimulates(s, e, id);
    TextIsViewText(s, id);
    TextIsViewText(Step(s, e), id);
    MoveText(v, l);
    EventText(s, e, id, ViewText(v));
  }

  /** In every run, with any number of replicas, crashes, recoveries and retries: title and description of
      every row are those of its creation with all its edits applied in the order they were committed. */
  lemma {:induction false} NoEditIsLost(s0: Sys, es: seq<Event>, id: string)
    requires Initial(s0)
    ensures TextOf(Run(s0, es), id) == TextAfter(es, id)
  {
    if es != [] {
      var before := es[..|es| - 1];
      NoEditIsLost(s0, before, id);
      RunInvariant(s0, before, id);
      StepText(Run(s0, before), es[|es| - 1], id);
    }
  }

  // ---- the time that was asked for last ----

  /** The clock after some events. */
  function Clock(now: int, es: seq<Event>): int {
    if es == [] then now else
      var e := es[|es| - 1];
      Clock(now, es[..|es| - 1]) + if e.Advance? then e.nanos else 0
  }

  /** What one event at this moment means to the time that the clients want for a task. */
  function NextTime(x: Option<int>, e: Event, id: string, now: int): Option<int> {
    match e
    case Create(q, generated) =>
      if x.None? && (if q.id == "" then generated else q.id) == id
      then Some(if q.executeAt.Some? then q.executeAt.value else now) else x
    case Edit(k, p) => if k == id && x.Some? && p.executeAt.Some? then p.executeAt else x
    case _ => x
  }

  /** The time that the clients' requests alone, in their order, ask for. */
  function TimeAfter(now: int, es: seq<Event>, id: string): Option<int> {
    if es == [] then None else
      NextTime(TimeAfter(now, es[..|es| - 1], id), es[|es| - 1], id, Clock(now, es[..|es| - 1]))
  }

  /** A task that has not failed since it was created or rescheduled is due when its clients want it. */
  predicate Timed(v: RA.View, x: Option<int>) {
    (v.row.Some? <==> x.Some?) && (v.row.Some? && v.row.value.retryCount == 0 ==> v.row.value.executeAt == x.value)
  }

  /** What one move of its automaton does to that time. */
  function LabelTime(x: Option<int>, l: RA.Label): Option<int> {
    match l
    case Insertion(row) => if x.None? then Some(row.executeAt) else x
    case Change(p) => if x.Some? && p.executeAt.Some? then p.executeAt else x
    case _ => x
  }

  lemma AttemptKeepsTime(v: RA.View, l: RA.Label, x: Option<int>)
    requires RA.ByAttempt(l) && Timed(v, x)
    ensures Timed(RA.Next(v, l), x)
  {
  }

  lemma ClientMoveTimed(v: RA.View, l: RA.Label, x: Option<int>)
    requires RA.ByClients(l) && Timed(v, x)
    ensures Timed(RA.Next(v, l), LabelTime(x, l))
  {
  }

  lemma MoveTimed(v: RA.View, l: RA.Label, x: Option<int>)
    requires Timed(v, x)
    ensures Timed(RA.Next(v, l), LabelTime(x, l))
  {
    if RA.ByAttempt(l) {
      AttemptKeepsTime(v, l, x);
    } else if RA.ByClients(l) {
      ClientMoveTimed(v, l, x);
    } else {
      assert RA.Cache(v).row == v.row;
    }
  }

  lemma EventTime(s: Sys, e: Event, id: string, x: Option<int>)
    ensures LabelTime(x, LabelOf(s, e, id)) == NextTime(x, e, id, s.now)
  {
    TextLabel(s, e, id);
  }

  lemma AttemptKeepsClock(v: RA.View, l: RA.Label)
    requires RA.ByAttempt(l)
    ensures RA.Next(v, l).now == v.now
  {
  }

  lemma MoveClock(v: RA.View, l: RA.Label)
    ensures RA.Next(v, l).now == v.now + if l.Later? then l.nanos else 0
  {
    if RA.ByAttempt(l) {
      AttemptKeepsClock(v, l);
    }
  }

  lemma StepClock(s: Sys, e: Event)
    requires Consistent(s)
    ensures Step(s, e).now == s.now + if e.Advance? then e.nanos else 0
  {
    StepSimulates(s, e, "");
    MoveClock(ViewOf(s, ""), LabelOf(s, e, ""));
    ClockLabel(s, e, "");
  }

  lemma ClockLabel(s: Sys, e: Event, id: string)
    ensures LabelOf(s, e, id).Later? <==> e.Advance?
    ensures e.Advance? ==> LabelOf(s, e, id).nanos == e.nanos
  {
  }

  lemma {:induction false} RunTimed(s0: Sys, es: seq<Event>, id: string)
    requires Initial(s0)
    ensures Run(s0, es).now == Clock(s0.now, es) && Timed(ViewOf(Run(s0, es), id), TimeAfter(s0.now, es, id))
  {
    if es != [] {
      var before, e := es[..|es| - 1], es[|es| - 1];
      var s := Run(s0, before);
      RunTimed(s0, before, id);
      RunInvariant(s0, before, id);
      StepClock(s, e);
      StepSimulates(s, e, id);
      MoveTimed(ViewOf(s, id), LabelOf(s, e, id), TimeAfter(s0.now, before, id));
      EventTime(s, e, id, TimeAfter(s0.now, before, id));
    }
  }

  /** In every run, whatever claims, workers, crashes and recoveries do in between: a task exists if and only
      if it was created, and as long as it has not failed since, it is due at the time that its creation or
      the last of its reschedules asked for. */
  lemma NoRescheduleIsLost(s0: Sys, es: seq<Event>, id: string)
    requires Initial(s0)
    ensures var s, x := Run(s0, es), TimeAfter(s0.now, es, id);
      && (id in s.tasks <==> x.Some?)
      && (id in s.tasks && s.tasks[id].retryCount == 0 ==> s.tasks[id].executeAt == x.value)
  {
    RunTimed(s0, es, id);
  }

  // ---- the order of an edit and another step ----

  /** An edit of the text alone. */
  predicate Retitles(p: Patch) {
    p.executeAt.None?
  }

  lemma RetitleCells(s: Sys, id: string, p: Patch)
    requires TablesOk(s) && id in s.tasks && Retitles(p)
    ensures var s' := Step(s, Edit(id, p));
      && s'.tasks == s.tasks[id := EditRow(s.tasks[id], p)] && s'.replicas == s.replicas && s'.now == s.now
      && s'.logs.Keys == s.logs.Keys
  {
    assert Step(s, Edit(id, p)) == DoEdit(s, id, p);
  }

  lemma RetitledClaims(tasks: map<string, Task>, id: string, p: Patch, now: int, limit: nat, locked: set<string>,
                       chosen: seq<string>)
    requires id in tasks && Retitles(p)
    ensures ClaimSelects(tasks[id := EditRow(tasks[id], p)], now, limit, locked, chosen)
       <==> ClaimSelects(tasks, now, limit, locked, chosen)
  {
    var tasks' := tasks[id := EditRow(tasks[id], p)];
    assert forall k :: k in tasks ==>
      tasks'[k].executeAt == tasks[k].executeAt && (Ready(tasks', k, now) <==> Ready(tasks, k, now));
  }

  lemma RetitledEnabled(s: Sys, s': Sys, id: string, p: Patch, e: Event)
    requires id in s.tasks && Retitles(p)
    requires s'.tasks == s.tasks[id := EditRow(s.tasks[id], p)] && s'.replicas == s.replicas && s'.now == s.now
    ensures Enabled(s', e) <==> Enabled(s, e)
  {
    if e.Claim? && e.j < |s.replicas| && s.replicas[e.j].ticker.Room? {
      RetitledClaims(s.tasks, id, p, s.now, s.replicas[e.j].ticker.limit, e.locked, e.chosen);
    }
  }

  /** The retitled machine makes the same moves. */
  lemma SameMove(s: Sys, s': Sys, id: string, p: Patch, e: Event, k: string)
    requires id in s.tasks && Retitles(p)
    requires s'.tasks == s.tasks[id := EditRow(s.tasks[id], p)] && s'.replicas == s.replicas && s'.now == s.now
    ensures LabelOf(s', e, k) == LabelOf(s, e, k)
  {
    RetitledEnabled(s, s', id, p, e);
    if Enabled(s, e) {
      if ByWorker(e) {
        SameWorkMove(s, s', id, p, e);
      } else {
        SameOtherMove(s, s', e, k);
      }
    }
  }

  lemma SameOtherMove(s: Sys, s': Sys, e: Event, k: string)
    requires s'.replicas == s.replicas && s'.now == s.now && !ByWorker(e) && Enabled(s, e) && Enabled(s', e)
    ensures LabelOf(s', e, k) == LabelOf(s, e, k)
  {
  }

  lemma SameWorkMove(s: Sys, s': Sys, id: string, p: Patch, e: Event)
    requires id in s.tasks && Retitles(p) && ByWorker(e) && Enabled(s, e) && Enabled(s', e)
    requires s'.tasks == s.tasks[id := EditRow(s.tasks[id], p)] && s'.replicas == s.replicas && s'.now == s.now
    ensures WorkLabel(s', e) == WorkLabel(s, e)
  {
  }

  /** What a move makes of the row. */
  function NextRow(row: Option<Task>, now: int, l: RA.Label): Option<Task> {
    if row.None? then (if l.Insertion? then Some(l.row) else None)
    else
      match l
      case Change(p) => Some(EditRow(row.value, p))
      case Take => Some(ClaimRow(row.value))
      case Begin => Some(MarkRow(row.value))
      case Success => Some(CompleteRow(row.value))
      case Failure(delay) => Some(FailRow(row.value, now, delay))
      case Revert => Some(RecoverRow(row.value))
      case _ => row
  }

  lemma AttemptRow(v: RA.View, l: RA.Label)
    requires RA.ByAttempt(l)
    ensures RA.Next(v, l).row == NextRow(v.row, v.now, l)
  {
  }

  lemma MoveRow(v: RA.View, l: RA.Label)
    ensures RA.Next(v, l).row == NextRow(v.row, v.now, l)
  {
    if RA.ByAttempt(l) {
      AttemptRow(v, l);
    }
  }

  lemma StepRow(s: Sys, e: Event, id: string)
    requires Consistent(s)
    ensures Row(Step(s, e), id) == NextRow(Row(s, id), s.now, LabelOf(s, e, id))
  {
    StepSimulates(s, e, id);
    MoveRow(ViewOf(s, id), LabelOf(s, e, id));
  }

  lemma RowsCommute(row: Task, now: int, p: Patch, l: RA.Label)
    requires Retitles(p) && !l.Change?
    ensures NextRow(Some(EditRow(row, p)), now, l) == Some(EditRow(NextRow(Some(row), now, l).value, p))
  {
  }

  lemma RetitledRow(s: Sys, id: string, p: Patch, k: string)
    requires Consistent(s) && id in s.tasks && Retitles(p)
    ensures Row(Step(s, Edit(id, p)), k) == if k == id then Some(EditRow(s.tasks[id], p)) else Row(s, k)
  {
    RetitleCells(s, id, p);
  }

  lemma EditFirst(s: Sys, id: string, p: Patch, e: Event, k: string)
    requires Consistent(s) && id in s.tasks && Retitles(p)
    ensures Row(Step(Step(s, Edit(id, p)), e), k) ==
      NextRow(if k == id then Some(EditRow(s.tasks[id], p)) else Row(s, k), s.now, LabelOf(s, e, k))
  {
    StepConsistent(s, Edit(id, p));
    RetitleCells(s, id, p);
    RetitledRow(s, id, p, k);
    SameMove(s, Step(s, Edit(id, p)), id, p, e, k);
    StepRow(Step(s, Edit(id, p)), e, k);
  }

  lemma EditLast(s: Sys, id: string, p: Patch, e: Event, k: string)
    requires Consistent(s) && id in s.tasks && Retitles(p)
    ensures id in Step(s, e).tasks
    ensures Row(Step(Step(s, e), Edit(id, p)), k) ==
      if k == id then Some(EditRow(Step(s, e).tasks[id], p)) else NextRow(Row(s, k), s.now, LabelOf(s, e, k))
  {
    StepConsistent(s, e);
    RowStays(s, e, id);
    StepRow(s, e, k);
    RetitledRow(Step(s, e), id, p, k);
  }

  lemma RowStays(s: Sys, e: Event, id: string)
    requires Consistent(s) && id in s.tasks
    ensures id in Step(s, e).tasks
  {
    StepRow(s, e, id);
    NextRowStays(s.tasks[id], s.now, LabelOf(s, e, id));
    RowInTable(Step(s, e), id);
  }

  lemma NextRowStays(row: Task, now: int, l: RA.Label)
    ensures NextRow(Some(row), now, l).Some?
  {
  }

  lemma RowInTable(s: Sys, id: string)
    ensures Row(s, id).Some? <==> id in s.tasks
  {
  }

  lemma RowCommutes(s: Sys, id: string, p: Patch, e: Event, k: string)
    requires Consistent(s) && id in s.tasks && Retitles(p) && !(e.Edit? && e.id == id)
    ensures Row(Step(Step(s, Edit(id, p)), e), k) == Row(Step(Step(s, e), Edit(id, p)), k)
  {
    EditFirst(s, id, p, e, k);
    EditLast(s, id, p, e, k);
    StepRow(s, e, id);
    TextLabel(s, e, id);
    RowsCommute(s.tasks[id], s.now, p, LabelOf(s, e, id));
  }

  /** An edit of title or description commutes with every other step of the machine, except an edit of the
      same task: the table is the same whichever of the two commits first. */
  lemma EditsCommute(s: Sys, id: string, p: Patch, e: Event)
    requires Reachable(s) && id in s.tasks && p.executeAt.None? && !(e.Edit? && e.id == id)
    ensures Step(Step(s, Edit(id, p)), e).tasks == Step(Step(s, e), Edit(id, p)).tasks
  {
    ReachableInvariant(s, id);
    var a, b := Step(Step(s, Edit(id, p)), e), Step(Step(s, e), Edit(id, p));
    forall k ensures Row(a, k) == Row(b, k) {
      RowCommutes(s, id, p, e, k);
    }
    SameRows(a.tasks, b.tasks, a, b);
  }

  lemma SameRows(x: map<string, Task>, y: map<string, Task>, a: Sys, b: Sys)
    requires x == a.tasks && y == b.tasks && forall k :: Row(a, k) == Row(b, k)
    ensures x == y
  {
    forall k ensures k in x <==> k in y {
      assert Row(a, k) == Row(b, k);
    }
    forall k | k in x ensures x[k] == y[k] {
      assert Row(a, k) == Row(b, k);
    }
  }
}
