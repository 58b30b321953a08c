/** Runs taken apart: what short sequences of events do. */
module SchedulerSteps {
  import opened Tasks
  import opened Scheduler

  lemma {:induction false} RunAppend(s: Sys, a: seq<Event>, b: seq<Event>)
    ensures Run(s, a + b) == Run(Run(s, a), b)
  {
    if b == [] {
      assert a + b == a;
    } else {
      var c := a + b;
      assert c[..|c| - 1] == a + b[..|b| - 1];
      RunAppend(s, a, b[..|b| - 1]);
    }
  }

  lemma RunCons(s: Sys, e: Event, rest: seq<Event>)
    ensures Run(s, [e] + rest) == Run(Step(s, e), rest)
  {
    RunOne(s, e);
    RunAppend(s, [e], rest);
  }

  lemma RunOne(s: Sys, e: Event)
    ensures Run(s, [e]) == Step(s, e)
  {
    assert [e][..0] == [];
    assert Run(s, [][..0]) == s;
  }

  lemma RunTwo(s: Sys, e: Event, f: Event)
    ensures Run(s, [e, f]) == Step(Step(s, e), f)
  {
    RunOne(s, e);
    assert [e, f][..1] == [e];
  }

  lemma CrashStep(s: Sys, j: nat)
    requires j < |s.replicas| && !s.replicas[j].ticker.Down?
    ensures Step(s, Crash(j)) == DoCrash(s, j)
  {
  }

  lemma RecoverStep(s: Sys, j: nat)
    requires j < |s.replicas| && s.replicas[j].ticker.Down?
    ensures Step(s, Recover(j)) == DoRecover(s, j)
  {
  }

  lemma RecordStep(s: Sys, j: nat, i: nat)
    requires HasWorker(s, j, i) && WorkerAt(s, j, i).Returned? && !WorkerAt(s, j, i).ok
    ensures Step(s, Record(j, i)) == DoFail(s, j, i, NextDelay(s, WorkerAt(s, j, i).t.id))
  {
    assert Step(s, Record(j, i)) == DoRecord(s, j, i);
  }

  lemma InspectStep(s: Sys, j: nat, i: nat)
    requires HasWorker(s, j, i) && WorkerAt(s, j, i).Checking?
    ensures Step(s, Inspect(j, i)) == DoInspect(s, j, i)
  {
  }

  lemma ArchiveStep(s: Sys, j: nat, i: nat)
    requires HasWorker(s, j, i) && WorkerAt(s, j, i).Archiving?
    ensures Step(s, Archive(j, i)) == DoArchive(s, j, i)
  {
  }
}
