/** What holds of every run of the notification engine, and how far each bound is met. */
module NotificationTheorems {
  import opened Options
  import opened Notifications
  import opened NotificationBounds

  // ---- circulation and sends ----

  function AtLeastOne(n: nat): nat {
    if n == 0 then 1 else n
  }

  lemma ReachableBudgeted(s: Sys, id: string)
    requires Reachable(s)
    ensures Budgeted(ViewOf(s, id)) && Quota(ViewOf(s, id)) <= AtLeastOne(Dispatches(s, id))
  {
    var s0, es :| Initial(s0) && s == Run(s0, es);
    RunBudgeted(s0, es, id);
  }

  /** Two tokens for each dispatch, and never fewer than two. */
  lemma TokensBounded(s: Sys, id: string)
    requires Reachable(s)
    ensures Copies(s, id) + RowToken(s, id) <= 2 * AtLeastOne(Dispatches(s, id))
  {
    ReachableBudgeted(s, id);
  }

  /** Sends already made, plus all that the copies and the row can still cause. */
  lemma SendsBounded(s: Sys, id: string)
    requires Reachable(s)
    ensures Count(s.sends, id) + Potential(s, id) + RowPotential(s, id)
         <= 2 * (s.maxRetry + 1) * AtLeastOne(Dispatches(s, id))
  {
    ReachableBudgeted(s, id);
    MulMonotone(2 * (s.maxRetry + 1), Quota(ViewOf(s, id)), AtLeastOne(Dispatches(s, id)));
  }

  /** No dispatch callback of the notification passes the SCHEDULED check while another is between its
      check and its write. */
  ghost predicate Serial(s0: Sys, es: seq<Event>, id: string) {
    forall k :: 0 <= k < |es| && es[k] == DispatchCheck(id) && Enabled(Run(s0, es[..k]), es[k]) ==>
      Reading(Run(s0, es[..k]), id) == 0
  }

  ghost predicate AtMostOneDispatch(s0: Sys, es: seq<Event>, id: string) {
    forall k :: 0 <= k <= |es| ==> Dispatches(Run(s0, es[..k]), id) <= 1
  }

  lemma OtherDispatches(s: Sys, e: Event, id: string)
    requires !e.DispatchCheck? && !e.DispatchWrite? && !e.Halt?
    ensures Dispatches(Step(s, e), id) == Dispatches(s, id)
  {
  }

  lemma CheckDispatches(s: Sys, k: string, id: string)
    requires Sound(s) && Enabled(s, DispatchCheck(k))
    ensures Dispatches(Step(s, DispatchCheck(k)), id) == Dispatches(s, id) + if k == id then 1 else 0
  {
    QueueAppend(s.dispatching, s.rows[k], id, s.maxRetry);
  }

  lemma WriteDispatches(s: Sys, h: nat, stored: bool, id: string)
    requires Sound(s) && Enabled(s, DispatchWrite(h, stored))
    ensures Dispatches(Step(s, DispatchWrite(h, stored)), id) <= Dispatches(s, id)
  {
    SumWithout(CopiesOf(s.dispatching, id), h);
    QueueWithout(s.dispatching, h, id, s.maxRetry);
  }

  ghost predicate Overlaps(s: Sys, e: Event, id: string) {
    e == DispatchCheck(id) && Enabled(s, e) && Reading(s, id) > 0
  }

  lemma StepDispatches(s: Sys, e: Event, id: string)
    requires Sound(s) && Budgeted(ViewOf(s, id)) && Dispatches(s, id) <= 1
    ensures Dispatches(Step(s, e), id) <= 1 <==> !Overlaps(s, e, id)
  {
    if !Enabled(s, e) {
    } else if e.DispatchCheck? {
      CheckDispatches(s, e.id, id);
    } else if e.DispatchWrite? {
      WriteDispatches(s, e.h, e.stored, id);
    } else if e.Halt? {
      HaltEmpties(s, id);
    } else {
      OtherDispatches(s, e, id);
    }
  }

  lemma SerialSnoc(s0: Sys, es: seq<Event>, id: string)
    requires es != []
    ensures var before := es[..|es| - 1];
      Serial(s0, es, id) <==> Serial(s0, before, id) && !Overlaps(Run(s0, before), es[|es| - 1], id)
  {
    PrefixOf(es);
    var before := es[..|es| - 1];
    assert es[..|before|] == before;
    assert forall k :: 0 <= k < |before| ==> before[k] == es[k];
  }

  lemma DispatchesSnoc(s0: Sys, es: seq<Event>, id: string)
    requires es != []
    ensures var before := es[..|es| - 1];
      AtMostOneDispatch(s0, es, id) <==> AtMostOneDispatch(s0, before, id) && Dispatches(Run(s0, es), id) <= 1
  {
    PrefixOf(es);
    var before := es[..|es| - 1];
    assert es[..|before|] == before == before[..|before|] && es[..|es|] == es;
    assert forall k :: 0 <= k <= |es| ==> es[..k] == if k < |es| then before[..k] else es;
    assert forall k :: 0 <= k <= |before| ==> before[..k] == es[..k];
  }

  /** A notification has at most one dispatch exactly when its dispatches do not overlap. */
  lemma {:induction false} SerialIffOneDispatch(s0: Sys, es: seq<Event>, id: string)
    requires Initial(s0)
    ensures Serial(s0, es, id) <==> AtMostOneDispatch(s0, es, id)
  {
    if es == [] {
      InitialBudgeted(s0, id);
    } else {
      var before := es[..|es| - 1];
      RunBudgeted(s0, before, id);
      SerialIffOneDispatch(s0, before, id);
      SerialSnoc(s0, es, id);
      DispatchesSnoc(s0, es, id);
      assert before[..|before|] == before;
      if AtMostOneDispatch(s0, before, id) {
        StepDispatches(Run(s0, before), es[|es| - 1], id);
      }
    }
  }

  lemma PrefixOf(es: seq<Event>)
    requires es != []
    ensures forall k :: 0 <= k < |es| ==> es[..|es| - 1][..k] == es[..k]
  {
  }

  /** Without overlapping dispatches, two tokens and 2 * (maxRetry + 1) sends are the most there ever are. */
  lemma SerialBounds(s0: Sys, es: seq<Event>, id: string)
    requires Initial(s0) && Serial(s0, es, id)
    ensures var s := Run(s0, es);
      && Copies(s, id) + RowToken(s, id) <= 2
      && Count(s.sends, id) + Potential(s, id) + RowPotential(s, id) <= 2 * (s.maxRetry + 1)
  {
    SerialIffOneDispatch(s0, es, id);
    assert es[..|es|] == es;
    TokensBounded(Run(s0, es), id);
    SendsBounded(Run(s0, es), id);
  }

  // ---- the limit on the table ----

  /** Creators between the check and the save. */
  ghost predicate AdmittedAtMost(s0: Sys, es: seq<Event>, k: nat) {
    forall i :: 0 <= i <= |es| ==> Run(s0, es[..i]).admitted <= k
  }

  lemma RowsKept(s: Sys, e: Event)
    requires !e.Save? && !e.Admit? && !e.Abandon?
    ensures Step(s, e).rows.Keys == s.rows.Keys && Step(s, e).admitted <= s.admitted
  {
  }

  lemma StepCapped(s: Sys, e: Event, k: nat)
    requires |s.rows| + s.admitted <= SYSTEM_LIMIT - 1 + k && Step(s, e).admitted <= k
    ensures |Step(s, e).rows| + Step(s, e).admitted <= SYSTEM_LIMIT - 1 + k
  {
    if e.Save? || e.Admit? || e.Abandon? {
    } else {
      RowsKept(s, e);
      assert |s.rows.Keys| == |Step(s, e).rows.Keys|;
    }
  }

  /** With at most k creators between check and save at any moment, the table overshoots its limit by
      at most k - 1; a single creator at a time respects it. */
  lemma {:induction false} TableCapped(s0: Sys, es: seq<Event>, k: nat)
    requires |s0.rows| + s0.admitted <= SYSTEM_LIMIT - 1 + k && AdmittedAtMost(s0, es, k)
    ensures |Run(s0, es).rows| + Run(s0, es).admitted <= SYSTEM_LIMIT - 1 + k
  {
    if es != [] {
      var before := es[..|es| - 1];
      PrefixOf(es);
      assert es[..|es|] == es && es[..|before|] == before;
      forall i | 0 <= i <= |before| ensures Run(s0, before[..i]).admitted <= k {
        assert before[..i] == es[..i];
      }
      TableCapped(s0, before, k);
      StepCapped(Run(s0, before), es[|es| - 1], k);
    }
  }

  // ---- who can read a notification ----

  /** A row that exists keeps its owner: workers, pollers, callbacks and the clean-up write whole rows
      from copies of any age, but never the owner. */
  ghost predicate OwnersKept(s: Sys, s': Sys) {
    forall id :: id in s.rows ==> id in s'.rows && s'.rows[id].userId == s.rows[id].userId
  }

  lemma WriteKeepsOwners(rows: map<string, Note>, n: Note, stored: bool)
    ensures var rows' := WriteIf(rows, n, stored);
      rows'.Keys == rows.Keys && forall id :: id in rows ==> rows'[id].userId == rows[id].userId
  {
  }

  lemma WorkersKeepOwners(s: Sys, e: Event)
    requires Enabled(s, e) && (e.Begin? || e.Finish?)
    ensures OwnersKept(s, Step(s, e))
  {
    match e
    case Begin(i, stored) => WriteKeepsOwners(s.rows, s.workers[i].n.(status := Processing), stored);
    case Finish(i, stored) =>
      WriteKeepsOwners(s.rows, Outcome(s.workers[i].n, s.workers[i].failure, s.maxRetry, s.now), stored);
  }

  lemma DispatchKeepsOwners(s: Sys, e: Event)
    requires Enabled(s, e) && (e.CleanUp? || e.DispatchWrite?)
    ensures OwnersKept(s, Step(s, e))
  {
    match e
    case CleanUp(h, stored, reason) =>
      WriteKeepsOwners(s.rows, s.scheduling[h].(status := Dlq, errorMessage := reason), stored);
    case DispatchWrite(h, stored) =>
      WriteKeepsOwners(s.rows, s.dispatching[h].(status := Pending, nextRetryAt := s.now), stored);
  }

  lemma OthersKeepOwners(s: Sys, e: Event)
    requires Enabled(s, e) && !e.Begin? && !e.Finish? && !e.CleanUp? && !e.DispatchWrite?
    ensures OwnersKept(s, Step(s, e))
  {
  }

  lemma StepKeepsOwners(s: Sys, e: Event)
    ensures OwnersKept(s, Step(s, e))
  {
    if !Enabled(s, e) {
    } else if e.Begin? || e.Finish? {
      WorkersKeepOwners(s, e);
    } else if e.CleanUp? || e.DispatchWrite? {
      DispatchKeepsOwners(s, e);
    } else {
      OthersKeepOwners(s, e);
    }
  }

  lemma {:induction false} RunKeepsOwners(s: Sys, es: seq<Event>)
    ensures OwnersKept(s, Run(s, es))
  {
    if es != [] {
      RunKeepsOwners(s, es[..|es| - 1]);
      StepKeepsOwners(Run(s, es[..|es| - 1]), es[|es| - 1]);
    }
  }

  /** Who can read a notification is settled when it is saved: a user can read it at any later time, in
      any run, if and only if the user created it, or nobody in particular did; only the system itself
      reads all.  No write by a worker, a poller or a callback changes that. */
  lemma VisibilityFixed(s: Sys, n: Note, executeAt: Option<int>, es: seq<Event>, user: string)
    requires Enabled(s, Save(n, executeAt))
    ensures var s' := Run(Step(s, Save(n, executeAt)), es);
      Lookup(s'.rows, n.id, user).Some? <==> user == SYSTEM || user == n.userId || n.userId == "" || n.userId == GLOBAL
  {
    var saved := Step(s, Save(n, executeAt));
    RunKeepsOwners(saved, es);
    assert n.id in saved.rows && saved.rows[n.id].userId == Stored(n).userId;
  }
}
