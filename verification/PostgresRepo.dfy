/** The task repository: rows and cache entries updated in place.  A transaction that locks a row is
    one atomic call here; `locked` stands for the rows other transactions hold during a claim. */
module PostgresRepo {
  import opened Options
  import opened Tasks
  import opened Scheduler

  class TaskRepo {
    var tasks: map<string, Task>
    var cache: map<string, Task>
    const caching: bool

    constructor (caching: bool)
      ensures tasks == map[] && cache == map[] && this.caching == caching
    {
      tasks, cache := map[], map[];
      this.caching := caching;
    }

    /** Inserts a row; false is the unique-violation error. */
    method Create(t: Task) returns (ok: bool)
      modifies this`tasks
      ensures ok == (t.id !in old(tasks))
      ensures tasks == if ok then old(tasks)[t.id := t] else old(tasks)
    {
      ok := t.id !in tasks;
      if ok {
        tasks := tasks[t.id := t];
      }
    }

    /** Cache-aside read: the cached record if there is one, else the row, which is then cached. */
    method Get(id: string) returns (r: Option<Task>)
      modifies this`cache
      ensures r == if id in old(cache) then Some(old(cache)[id]) else if id in tasks then Some(tasks[id]) else None
      ensures cache == if caching && id !in old(cache) && id in tasks then old(cache)[id := tasks[id]] else old(cache)
    {
      if id in cache {
        return Some(cache[id]);
      }
      if id !in tasks {
        return None;
      }
      r := Some(tasks[id]);
      if caching {
        cache := cache[id := tasks[id]];
      }
    }

    /** Locks the row, applies the closure, commits, then deletes the cache key. */
    method Update(id: string, updateFn: Task -> Task) returns (r: Option<Task>)
      modifies this
      ensures r.Some? <==> id in old(tasks)
      ensures r.Some? ==>
        && r.value == updateFn(old(tasks)[id]) && tasks == old(tasks)[id := r.value]
        && cache == old(cache) - {id}
      ensures r.None? ==> tasks == old(tasks) && cache == old(cache)
    {
      if id !in tasks {
        return None;
      }
      var t := updateFn(tasks[id]);
      tasks := tasks[id := t];
      cache := cache - {id};
      r := Some(t);
    }

    /** A ready id whose row is due no later than any other of the candidates. */
    method Earliest(candidates: set<string>) returns (first: string)
      requires candidates != {} && candidates <= tasks.Keys
      ensures first in candidates && forall id :: id in candidates ==> tasks[first].executeAt <= tasks[id].executeAt
    {
      first :| first in candidates;
      var rest := candidates - {first};
      while rest != {}
        invariant first in candidates && rest <= candidates
        invariant forall id :: id in candidates - rest ==> tasks[first].executeAt <= tasks[id].executeAt
        decreases rest
      {
        var id :| id in rest;
        if tasks[id].executeAt < tasks[first].executeAt {
          first := id;
        }
        rest := rest - {id};
      }
    }

    /** The subquery: the earliest ready rows that nobody has locked, up to the limit. */
    method Select(now: int, limit: nat, locked: set<string>) returns (chosen: seq<string>)
      ensures ClaimSelects(tasks, now, limit, locked, chosen)
    {
      var candidates := set id | id in tasks && Ready(tasks, id, now) && id !in locked;
      ghost var ready := candidates;
      chosen := [];
      while |chosen| < limit && candidates != {}
        invariant |chosen| <= limit && candidates <= ready <= tasks.Keys
        invariant forall id :: id in ready <==> id in candidates || id in chosen
        invariant forall id :: id in chosen ==> id !in candidates
        invariant forall m, n :: 0 <= m < n < |chosen| ==> chosen[m] != chosen[n]
        invariant forall c, id :: c in chosen && id in candidates ==> tasks[c].executeAt <= tasks[id].executeAt
        decreases limit - |chosen|
      {
        var first := Earliest(candidates);
        chosen := chosen + [first];
        candidates := candidates - {first};
      }
    }

    /** The claim: marks the selected rows QUEUED, then scans them out. */
    method ClaimReadyTasks(now: int, limit: nat, locked: set<string>) returns (claimed: seq<Task>, chosen: seq<string>)
      modifies this`tasks
      ensures ClaimSelects(old(tasks), now, limit, locked, chosen)
      ensures claimed == Claimed(old(tasks), chosen) && tasks == MarkQueued(old(tasks), chosen)
      ensures |claimed| == |chosen| <= limit && forall c :: c in chosen ==> c in old(tasks)
      ensures forall k :: 0 <= k < |chosen| ==>
        claimed[k] == old(tasks)[chosen[k]].(status := Queued) && tasks[chosen[k]] == claimed[k]
      ensures forall c :: c in chosen ==> Due(old(tasks)[c], now) && c !in locked
      ensures forall id :: id in old(tasks) && id !in chosen ==> id in tasks && tasks[id] == old(tasks)[id]
      ensures forall id :: id in old(tasks) && id !in chosen && id !in locked && Due(old(tasks)[id], now) ==>
        |chosen| == limit && forall c :: c in chosen ==> old(tasks)[c].executeAt <= old(tasks)[id].executeAt
    {
      chosen := Select(now, limit, locked);
      ClaimMeans(tasks, now, limit, locked, chosen);
      ghost var before := tasks;
      tasks := MarkQueued(tasks, chosen);
      claimed := Scan(before, chosen);
    }

    method Scan(ghost before: map<string, Task>, chosen: seq<string>) returns (claimed: seq<Task>)
      requires (forall id :: id in chosen ==> id in before) && tasks == MarkQueued(before, chosen)
      ensures claimed == Claimed(before, chosen)
    {
      claimed := [];
      for k := 0 to |chosen|
        invariant claimed == Claimed(before, chosen[..k])
      {
        assert chosen[..k + 1] == chosen[..k] + [chosen[k]];
        ClaimedAppend(before, chosen[..k], chosen[k]);
        claimed := claimed + [tasks[chosen[k]]];
      }
      assert chosen[..|chosen|] == chosen;
    }

    /** Startup recovery. */
    method RecoverTasks()
      modifies this`tasks
      ensures tasks == RecoverTable(old(tasks)) && tasks.Keys == old(tasks).Keys
      ensures forall id :: id in tasks ==>
        var t := old(tasks)[id];
        tasks[id] == if t.status == Queued || t.status == Processing then t.(status := Pending) else t
    {
      tasks := map id | id in tasks :: if InFlight(tasks[id].status) then tasks[id].(status := Pending) else tasks[id];
    }
  }

  /** PENDING, and its time has come. */
  predicate Due(t: Task, now: int) {
    t.status == Pending && t.executeAt <= now
  }

  /** What a claim does, row by row. */
  lemma ClaimMeans(tasks: map<string, Task>, now: int, limit: nat, locked: set<string>, chosen: seq<string>)
    requires ClaimSelects(tasks, now, limit, locked, chosen)
    ensures |chosen| <= limit && |Claimed(tasks, chosen)| == |chosen|
    ensures forall c :: c in chosen ==> c in tasks && Due(tasks[c], now) && c !in locked
    ensures forall k :: 0 <= k < |chosen| ==>
      && Claimed(tasks, chosen)[k] == tasks[chosen[k]].(status := Queued)
      && MarkQueued(tasks, chosen)[chosen[k]] == tasks[chosen[k]].(status := Queued)
    ensures forall id :: id in tasks && id !in chosen ==> MarkQueued(tasks, chosen)[id] == tasks[id]
    ensures forall id :: id in tasks && id !in chosen && id !in locked && Due(tasks[id], now) ==>
      |chosen| == limit && forall c :: c in chosen ==> tasks[c].executeAt <= tasks[id].executeAt
  {
    ClaimedAt(tasks, chosen);
    assert forall id :: id in tasks && Due(tasks[id], now) ==> Ready(tasks, id, now);
  }

  lemma {:induction false} ClaimedAt(tasks: map<string, Task>, chosen: seq<string>)
    requires forall c :: c in chosen ==> c in tasks
    ensures |Claimed(tasks, chosen)| == |chosen|
    ensures forall k :: 0 <= k < |chosen| ==> Claimed(tasks, chosen)[k] == tasks[chosen[k]].(status := Queued)
  {
    if chosen != [] {
      ClaimedAt(tasks, chosen[1..]);
      forall k | 0 <= k < |chosen| ensures Claimed(tasks, chosen)[k] == tasks[chosen[k]].(status := Queued) {
        if k > 0 {
          assert Claimed(tasks, chosen)[k] == Claimed(tasks, chosen[1..])[k - 1];
        }
      }
    }
  }

  lemma {:induction false} ClaimedAppend(tasks: map<string, Task>, chosen: seq<string>, id: string)
    requires id in tasks && forall c :: c in chosen ==> c in tasks
    ensures Claimed(tasks, chosen + [id]) == Claimed(tasks, chosen) + [ClaimRow(tasks[id])]
  {
    if chosen == [] {
      assert chosen + [id] == [id];
    } else {
      assert (chosen + [id])[1..] == chosen[1..] + [id];
      ClaimedAppend(tasks, chosen[1..], id);
    }
  }
}
