/** The rows of the `tasks` table and the closures that the worker and the HTTP handler pass to
    the repository's `Update`.  Times are nanoseconds on one clock. */
module Tasks {
  import opened Options

  const SECOND: int := 1_000_000_000
  const TWO_TO_63: int := 0x8000_0000_0000_0000
  const TWO_TO_64: int := 0x1_0000_0000_0000_0000
  const DEFAULT_MAX_RETRIES: int := 3

  datatype Status = Pending | Queued | Processing | Completed | Failed

  datatype Task = Task(id: string, title: string, description: string, callbackUrl: string, payload: string,
                       status: Status, retryCount: nat, maxRetries: int, executeAt: int, createdAt: int)

  /** The JSON body of POST /tasks; an absent `execute_at` is the zero time. */
  datatype TaskRequest = TaskRequest(id: string, title: string, description: string, callbackUrl: string,
                                     payload: string, maxRetries: int, executeAt: Option<int>)

  /** The JSON body of PUT /tasks/:id. */
  datatype Patch = Patch(title: Option<string>, description: Option<string>, executeAt: Option<int>)

  /** The two statuses in which some worker pool is supposed to own the row. */
  predicate InFlight(s: Status) {
    s == Queued || s == Processing
  }

  /** A record that has used up its retries. */
  predicate Exhausted(t: Task) {
    t.status == Failed && t.retryCount == t.maxRetries + 1
  }

  /** Two records agree on everything no update closure ever changes. */
  predicate SameJob(a: Task, b: Task) {
    && a.id == b.id && a.callbackUrl == b.callbackUrl && a.payload == b.payload
    && a.maxRetries == b.maxRetries && a.createdAt == b.createdAt
  }

  // ---- the closures ----

  function NewRow(r: TaskRequest, generated: string, now: int): Task {
    Task(if r.id == "" then generated else r.id, r.title, r.description, r.callbackUrl, r.payload, Pending, 0,
         if r.maxRetries <= 0 then DEFAULT_MAX_RETRIES else r.maxRetries,
         if r.executeAt.Some? then r.executeAt.value else now, now)
  }

  function MarkRow(t: Task): Task {
    t.(status := Processing)
  }

  function CompleteRow(t: Task): Task {
    t.(status := Completed)
  }

  function FailRow(t: Task, now: int, delay: int): Task {
    if t.retryCount + 1 > t.maxRetries then
      t.(retryCount := t.retryCount + 1, status := Failed)
    else
      t.(retryCount := t.retryCount + 1, status := Pending, executeAt := now + delay)
  }

  function EditRow(t: Task, p: Patch): Task {
    var t := if p.title.Some? then t.(title := p.title.value) else t;
    var t := if p.description.Some? then t.(description := p.description.value) else t;
    if p.executeAt.Some? then t.(executeAt := p.executeAt.value, status := Pending, retryCount := 0) else t
  }

  function ClaimRow(t: Task): Task {
    t.(status := Queued)
  }

  function RecoverRow(t: Task): Task {
    if InFlight(t.status) then t.(status := Pending) else t
  }

  // ---- backoff arithmetic ----

  function Pow2(n: nat): nat {
    if n == 0 then 1 else 2 * Pow2(n - 1)
  }

  /** The int64 value whose bit pattern is that of `x`. */
  function Wrap64(x: int): int {
    var m := x % TWO_TO_64;
    if m >= TWO_TO_63 then m - TWO_TO_64 else m
  }

  /** `int(f)` for a float holding a non-negative integer; out of range it is what amd64 yields. */
  function FloatToInt(x: nat): int {
    if x < TWO_TO_63 then x else -TWO_TO_63
  }

  /** The delay before retry number `retryCount`, in the source's int64 arithmetic. */
  function BackoffNanos(retryCount: nat): int {
    Wrap64(Wrap64(FloatToInt(Pow2(retryCount)) * 2) * SECOND)
  }

  lemma {:induction false} Pow2Monotone(m: nat, n: nat)
    requires m <= n
    ensures Pow2(m) <= Pow2(n)
    decreases n - m
  {
    if m < n {
      Pow2Monotone(m, n - 1);
    }
  }

  lemma Pow2At33()
    ensures Pow2(33) == 0x2_0000_0000 && Pow2(34) == 0x4_0000_0000
  {
    assert Pow2(8) == 0x100;
    assert Pow2(16) == 0x1_0000;
    assert Pow2(24) == 0x100_0000;
    assert Pow2(32) == 0x1_0000_0000;
  }

  /** The documented delay of 2^retryCount * 2 seconds is what the int64 arithmetic produces exactly
      for the first 32 retries; from retry 33 on the product no longer fits. */
  lemma BackoffExactness(retryCount: nat)
    ensures BackoffNanos(retryCount) == Pow2(retryCount + 1) * SECOND <==> retryCount <= 32
  {
    Pow2At33();
    if retryCount <= 32 {
      Pow2Monotone(retryCount + 1, 33);
    } else {
      Pow2Monotone(34, retryCount + 1);
    }
  }

  /** The first delay past the bound is negative, so the retry is due at once. */
  lemma BackoffOverflows()
    ensures BackoffNanos(33) < 0
  {
    Pow2At33();
  }
}
