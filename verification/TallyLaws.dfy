/** How the copies of one task change when a queue, a worker or a replica changes. */
module TallyLaws {
  import opened Tasks
  import opened Scheduler

  // ---- tallies are sums ----

  function Sum(ms: seq<multiset<Kind>>): multiset<Kind> {
    if ms == [] then multiset{} else ms[0] + Sum(ms[1..])
  }

  function WorkerTallies(ws: seq<Work>, id: string): seq<multiset<Kind>> {
    seq(|ws|, i requires 0 <= i < |ws| => One(ws[i], id))
  }

  function TaskTallies(q: seq<Task>, id: string, at: Place): seq<multiset<Kind>> {
    seq(|q|, k requires 0 <= k < |q| => OneTask(q[k], id, at))
  }

  function Tallies(rs: seq<Replica>, id: string): seq<multiset<Kind>> {
    seq(|rs|, j requires 0 <= j < |rs| => Tally(rs[j], id))
  }

  lemma {:induction false} WorkersAreSum(ws: seq<Work>, id: string)
    ensures TallyWorkers(ws, id) == Sum(WorkerTallies(ws, id))
  {
    if ws != [] {
      WorkersAreSum(ws[1..], id);
      assert WorkerTallies(ws, id)[1..] == WorkerTallies(ws[1..], id);
    }
  }

  lemma {:induction false} QueueIsSum(q: seq<Task>, id: string, at: Place)
    ensures TallyQueue(q, id, at) == Sum(TaskTallies(q, id, at))
  {
    if q != [] {
      QueueIsSum(q[1..], id, at);
      assert TaskTallies(q, id, at)[1..] == TaskTallies(q[1..], id, at);
    }
  }

  lemma {:induction false} TotalIsSum(rs: seq<Replica>, id: string)
    ensures Total(rs, id) == Sum(Tallies(rs, id))
  {
    if rs != [] {
      TotalIsSum(rs[1..], id);
      assert Tallies(rs, id)[1..] == Tallies(rs[1..], id);
      assert Tallies(rs, id)[0] == Tally(rs[0], id);
    }
  }


  lemma {:induction false} SumReplace(ms: seq<multiset<Kind>>, i: nat, m: multiset<Kind>)
    requires i < |ms|
    ensures ms[i] <= Sum(ms)
    ensures Sum(ms[i := m]) == Sum(ms) - ms[i] + m
  {
    if i == 0 {
      assert ms[i := m][1..] == ms[1..];
    } else {
      SumReplace(ms[1..], i - 1, m);
      assert ms[i := m][1..] == ms[1..][i - 1 := m];
      assert ms[0] + (Sum(ms[1..]) - ms[i] + m) == (ms[0] + Sum(ms[1..])) - ms[i] + m;
    }
  }

  lemma {:induction false} SumAppend(ms: seq<multiset<Kind>>, m: multiset<Kind>)
    ensures Sum(ms + [m]) == Sum(ms) + m
  {
    if ms == [] {
      assert ms + [m] == [m];
    } else {
      SumAppend(ms[1..], m);
      assert (ms + [m])[1..] == ms[1..] + [m];
    }
  }

  lemma {:induction false} SumNothing(ms: seq<multiset<Kind>>)
    requires forall i :: 0 <= i < |ms| ==> ms[i] == multiset{}
    ensures Sum(ms) == multiset{}
  {
    if ms != [] {
      SumNothing(ms[1..]);
    }
  }

  /** An exchange inside a part is an exchange of the whole. */
  lemma Trade(whole: multiset<Kind>, part: multiset<Kind>, o: multiset<Kind>, n: multiset<Kind>)
    requires o <= part <= whole
    ensures whole - part + (part - o + n) == whole - o + n
  {
  }

  // ---- queues, workers, replicas ----

  lemma TallyAppend(q: seq<Task>, t: Task, id: string, at: Place)
    ensures TallyQueue(q + [t], id, at) == TallyQueue(q, id, at) + OneTask(t, id, at)
  {
    assert TaskTallies(q + [t], id, at) == TaskTallies(q, id, at) + [OneTask(t, id, at)];
    SumAppend(TaskTallies(q, id, at), OneTask(t, id, at));
    QueueIsSum(q, id, at);
    QueueIsSum(q + [t], id, at);
  }

  lemma {:induction false} TallyClaimed(tasks: map<string, Task>, chosen: seq<string>, id: string)
    requires forall c :: c in chosen ==> c in tasks && tasks[c].id == c
    requires forall m, n :: 0 <= m < n < |chosen| ==> chosen[m] != chosen[n]
    ensures TallyQueue(Claimed(tasks, chosen), id, InBatch) ==
      if id in chosen then multiset{Waiting(InBatch)} else multiset{}
  {
    if chosen != [] {
      var c, rest := chosen[0], chosen[1..];
      assert id in chosen <==> id == c || id in rest;
      assert c !in rest;
      TallyClaimed(tasks, rest, id);
      var q := Claimed(tasks, chosen);
      assert q[0] == ClaimRow(tasks[c]) && q[1..] == Claimed(tasks, rest);
      assert TallyQueue(q, id, InBatch) == OneTask(q[0], id, InBatch) + TallyQueue(q[1..], id, InBatch);
    }
  }

  lemma TallyReplaceWorker(ws: seq<Work>, i: nat, w: Work, id: string)
    requires i < |ws|
    ensures One(ws[i], id) <= TallyWorkers(ws, id)
    ensures TallyWorkers(ws[i := w], id) == TallyWorkers(ws, id) - One(ws[i], id) + One(w, id)
  {
    assert WorkerTallies(ws[i := w], id) == WorkerTallies(ws, id)[i := One(w, id)];
    SumReplace(WorkerTallies(ws, id), i, One(w, id));
    WorkersAreSum(ws, id);
    WorkersAreSum(ws[i := w], id);
  }

  lemma TallyIdle(ws: seq<Work>, id: string)
    requires forall i :: 0 <= i < |ws| ==> ws[i] == Idle
    ensures TallyWorkers(ws, id) == multiset{}
  {
    SumNothing(WorkerTallies(ws, id));
    WorkersAreSum(ws, id);
  }

  /** Replacing one replica exchanges what that replica counted for. */
  lemma SetReplicaTotal(rs: seq<Replica>, j: nat, r: Replica, id: string)
    requires j < |rs|
    ensures Tally(rs[j], id) <= Total(rs, id)
    ensures Total(rs[j := r], id) == Total(rs, id) - Tally(rs[j], id) + Tally(r, id)
  {
    assert Tallies(rs[j := r], id) == Tallies(rs, id)[j := Tally(r, id)];
    SumReplace(Tallies(rs, id), j, Tally(r, id));
    TotalIsSum(rs, id);
    TotalIsSum(rs[j := r], id);
  }

  lemma ExchangeInReplica(rs: seq<Replica>, j: nat, r: Replica, id: string, o: multiset<Kind>, n: multiset<Kind>)
    requires j < |rs| && o <= Tally(rs[j], id) && Tally(r, id) == Tally(rs[j], id) - o + n
    ensures o <= Total(rs, id)
    ensures Total(rs[j := r], id) == Total(rs, id) - o + n
  {
    SetReplicaTotal(rs, j, r, id);
    Trade(Total(rs, id), Tally(rs[j], id), o, n);
  }

  /** Replacing one worker's state exchanges what that worker counted for. */
  lemma SetWorkerTotal(s: Sys, j: nat, i: nat, w: Work, id: string)
    requires HasWorker(s, j, i)
    ensures var o := One(WorkerAt(s, j, i), id);
      o <= Total(s.replicas, id) && Total(SetWorker(s, j, i, w).replicas, id) == Total(s.replicas, id) - o + One(w, id)
  {
    var r := s.replicas[j];
    var o := One(r.workers[i], id);
    TallyReplaceWorker(r.workers, i, w, id);
    var rest := TallyQueue(Batch(r.ticker), id, InBatch) + TallyQueue(r.channel, id, InChannel);
    assert rest + (TallyWorkers(r.workers, id) - o + One(w, id)) ==
      (rest + TallyWorkers(r.workers, id)) - o + One(w, id);
    ExchangeInReplica(s.replicas, j, r.(workers := r.workers[i := w]), id, o, One(w, id));
  }
}
