/** The fixed-window counter, as a function of the times of its calls, and the rate it enforces. */
module FixedWindows {
  datatype Config = Config(maxTokens: int, duration: int)

  datatype Window = Window(start: int, remaining: int)

  function Opened(c: Config, now: int): Window {
    Window(now, c.maxTokens)
  }

  /** The window in which a call at `now` is decided. */
  function Current(c: Config, w: Window, now: int): Window {
    if now - w.start >= c.duration then Opened(c, now) else w
  }

  function Granted(c: Config, w: Window, now: int): bool {
    Current(c, w, now).remaining > 0
  }

  function After(c: Config, w: Window, now: int): Window {
    var v := Current(c, w, now);
    if v.remaining > 0 then v.(remaining := v.remaining - 1) else v
  }

  /** The state after calls at these times, in the order of the lock. */
  function Final(c: Config, w: Window, times: seq<int>): Window {
    if times == [] then w else After(c, Final(c, w, times[..|times| - 1]), times[|times| - 1])
  }

  function Verdicts(c: Config, w: Window, times: seq<int>): (r: seq<bool>)
    ensures |r| == |times|
  {
    seq(|times|, i requires 0 <= i < |times| => Granted(c, Final(c, w, times[..i]), times[i]))
  }

  // ---- counting grants ----

  function Positive(n: int): nat {
    if n > 0 then n else 0
  }

  /** Calls granted with a time in [a, b). */
  function Grants(c: Config, w: Window, times: seq<int>, a: int, b: int): nat
    decreases |times|
  {
    if times == [] then 0 else
      (if a <= times[0] < b && Granted(c, w, times[0]) then 1 else 0)
        + Grants(c, After(c, w, times[0]), times[1..], a, b)
  }

  /** No call carries a time more than `skew` before an earlier one's, or before the window was opened:
      callers read the clock before they take the lock. */
  predicate Ordered(start: int, times: seq<int>, skew: nat) {
    && (forall i :: 0 <= i < |times| ==> times[i] >= start - skew)
    && forall i, j :: 0 <= i < j < |times| ==> times[j] >= times[i] - skew
  }

  lemma {:induction false} NoneAfter(c: Config, w: Window, times: seq<int>, a: int, b: int)
    requires forall i :: 0 <= i < |times| ==> times[i] >= b
    ensures Grants(c, w, times, a, b) == 0
    decreases |times|
  {
    if times != [] {
      NoneAfter(c, After(c, w, times[0]), times[1..], a, b);
    }
  }

  lemma OrderedTail(start: int, times: seq<int>, skew: nat)
    requires Ordered(start, times, skew) && times != []
    ensures Ordered(start, times[1..], skew) && Ordered(times[0], times[1..], skew)
  {
    assert forall i :: 0 <= i < |times[1..]| ==> times[1..][i] == times[i + 1];
  }

  /** Before the end of the n-th window after the current one, at most what the current window has left
      and n full windows are granted. */
  lemma {:induction false} GrantsAhead(c: Config, w: Window, times: seq<int>, a: int, b: int, skew: nat, n: nat)
    requires c.duration > 0 && Ordered(w.start, times, skew) && b + skew <= w.start + (n + 1) * c.duration
    ensures Grants(c, w, times, a, b) <= Positive(w.remaining) + n * Positive(c.maxTokens)
    decreases |times|
  {
    if times != [] {
      var t, rest := times[0], times[1..];
      OrderedTail(w.start, times, skew);
      if t - w.start >= c.duration {
        if n == 0 {
          assert forall i :: 0 <= i < |rest| ==> rest[i] >= t - skew;
          NoneAfter(c, After(c, w, t), rest, a, b);
        } else {
          assert (n + 1) * c.duration == n * c.duration + c.duration;
          GrantsAhead(c, After(c, w, t), rest, a, b, skew, n - 1);
          assert n * Positive(c.maxTokens) == (n - 1) * Positive(c.maxTokens) + Positive(c.maxTokens);
        }
      } else {
        GrantsAhead(c, After(c, w, t), rest, a, b, skew, n);
      }
    }
  }

  /** The rate: any span whose length, with the skew, is k durations sees at most k + 1 windows' worth of
      grants. */
  lemma {:induction false} WindowRate(c: Config, w: Window, times: seq<int>, a: int, b: int, skew: nat, k: nat)
    requires c.duration > 0 && Positive(w.remaining) <= Positive(c.maxTokens) && Ordered(w.start, times, skew)
    requires k >= 1 && b + skew - a <= k * c.duration
    ensures Grants(c, w, times, a, b) <= (k + 1) * Positive(c.maxTokens)
    decreases |times|
  {
    if w.start > a - c.duration {
      assert (k + 1) * c.duration == k * c.duration + c.duration;
      GrantsAhead(c, w, times, a, b, skew, k);
      assert (k + 1) * Positive(c.maxTokens) == k * Positive(c.maxTokens) + Positive(c.maxTokens);
    } else if times != [] {
      var t, rest := times[0], times[1..];
      OrderedTail(w.start, times, skew);
      var w' := After(c, w, t);
      if a <= t {
        assert (k - 1 + 1) * c.duration == k * c.duration;
        GrantsAhead(c, w', rest, a, b, skew, k - 1);
        assert (k + 1) * Positive(c.maxTokens) == (k - 1) * Positive(c.maxTokens) + 2 * Positive(c.maxTokens);
      } else {
        WindowRate(c, w', rest, a, b, skew, k);
      }
    }
  }

  // ---- the rate is reached ----

  function Burst(t: int, n: nat): seq<int> {
    seq(n, _ => t)
  }

  lemma {:induction false} BurstGranted(c: Config, w: Window, t: int, n: nat, rest: seq<int>, a: int, b: int)
    requires c.duration > 0 && w.start <= t < w.start + c.duration && n <= w.remaining && a <= t < b
    ensures Grants(c, w, Burst(t, n) + rest, a, b) == n + Grants(c, w.(remaining := w.remaining - n), rest, a, b)
    decreases n
  {
    var times := Burst(t, n) + rest;
    if n == 0 {
      assert times == rest;
    } else {
      assert times[0] == t && times[1..] == Burst(t, n - 1) + rest;
      BurstGranted(c, After(c, w, t), t, n - 1, rest, a, b);
    }
  }

  /** A burst at each of k successive window starts. */
  function Bursts(c: Config, t: int, k: nat): seq<int>
    requires c.maxTokens >= 0
    decreases k
  {
    if k == 0 then [] else Burst(t, c.maxTokens) + Bursts(c, t + c.duration, k - 1)
  }

  lemma {:induction false} BurstsGranted(c: Config, w: Window, t: int, k: nat, a: int, b: int)
    requires c.duration > 0 && c.maxTokens > 0 && w.start + c.duration <= t && a <= t
    requires t + k * c.duration < b + c.duration
    ensures Grants(c, w, Bursts(c, t, k), a, b) == k * c.maxTokens
    decreases k
  {
    if k > 0 {
      var next := Bursts(c, t + c.duration, k - 1);
      var times := Burst(t, c.maxTokens) + next;
      var v := Opened(c, t);
      assert (k - 1) * c.duration == k * c.duration - c.duration;
      assert (k - 1) * c.duration >= 0;
      assert times[0] == t;
      assert Grants(c, w, times, a, b) == Grants(c, v, times, a, b);
      BurstGranted(c, v, t, c.maxTokens, next, a, b);
      BurstsGranted(c, v.(remaining := 0), t + c.duration, k - 1, a, b);
      assert k * c.maxTokens == (k - 1) * c.maxTokens + c.maxTokens;
    }
  }

  /** Calls at the very end of the first window, then at the start of each later one. */
  function WorstCase(c: Config, k: nat): seq<int>
    requires c.maxTokens >= 0
  {
    Burst(c.duration - 1, c.maxTokens) + Bursts(c, c.duration, k)
  }

  lemma {:induction false} BurstsOrdered(c: Config, t: int, k: nat)
    requires c.duration > 0 && c.maxTokens >= 0
    ensures Ordered(t, Bursts(c, t, k), 0)
    decreases k
  {
    if k > 0 {
      BurstsOrdered(c, t + c.duration, k - 1);
    }
  }

  /** From a fresh window, a span of k durations can see all (k + 1) * maxTokens grants. */
  lemma WindowRateIsTight(c: Config, k: nat)
    requires c.duration > 1 && c.maxTokens > 0 && k >= 1
    ensures var times, a := WorstCase(c, k), c.duration - 1;
      Ordered(0, times, 0) && Grants(c, Opened(c, 0), times, a, a + k * c.duration) == (k + 1) * c.maxTokens
  {
    var a := c.duration - 1;
    var b := a + k * c.duration;
    BurstsOrdered(c, c.duration, k);
    assert k * c.duration >= c.duration;
    BurstGranted(c, Opened(c, 0), a, c.maxTokens, Bursts(c, c.duration, k), a, b);
    BurstsGranted(c, Window(0, 0), c.duration, k, a, b);
    assert (k + 1) * c.maxTokens == k * c.maxTokens + c.maxTokens;
  }

  // ---- each verdict ----

  /** Grants among the first n calls from the i-th on. */
  function Trues(vs: seq<bool>, i: nat, n: nat): nat
    requires n <= |vs|
  {
    if n <= i then 0 else Trues(vs, i, n - 1) + if vs[n - 1] then 1 else 0
  }

  /** The first call decided in the window that is open after these calls. */
  function Since(c: Config, w: Window, times: seq<int>): (i: nat)
    ensures i <= |times|
  {
    if times == [] then 0 else
      var n := |times| - 1;
      if times[n] - Final(c, w, times[..n]).start >= c.duration then n else Since(c, w, times[..n])
  }

  lemma {:induction false} TruesPrefix(c: Config, w: Window, times: seq<int>, i: nat, n: nat)
    requires times != [] && n < |times|
    ensures Trues(Verdicts(c, w, times), i, n) == Trues(Verdicts(c, w, times[..|times| - 1]), i, n)
    decreases n
  {
    if n > i {
      TruesPrefix(c, w, times, i, n - 1);
      assert times[..|times| - 1][..n - 1] == times[..n - 1];
    }
  }

  /** The open window began with the call that `Since` names, or it is the first one. */
  predicate BeganAt(c: Config, w: Window, times: seq<int>, i: nat) {
    (i < |times| && Final(c, w, times).start == times[i]) || (i == 0 && Final(c, w, times).start == w.start)
  }

  /** The counter is what the limit leaves after the grants of the open window. */
  lemma {:induction false} CounterExact(c: Config, w: Window, times: seq<int>)
    requires w.remaining == c.maxTokens
    ensures var i := Since(c, w, times);
      && Final(c, w, times).remaining == c.maxTokens - Trues(Verdicts(c, w, times), i, |times|)
      && BeganAt(c, w, times, i) && (c.maxTokens >= 0 ==> Final(c, w, times).remaining >= 0)
  {
    if times != [] {
      var n := |times| - 1;
      var before := times[..n];
      CounterExact(c, w, before);
      TruesPrefix(c, w, times, Since(c, w, before), n);
      assert Verdicts(c, w, times)[n] == Granted(c, Final(c, w, before), times[n]);
    }
  }

  /** A call is granted exactly when fewer than maxTokens calls have been granted since its window began,
      and that window began less than a duration before it. */
  lemma VerdictExact(c: Config, w: Window, times: seq<int>)
    requires w.remaining == c.maxTokens && c.duration > 0 && times != []
    ensures var n, i, vs := |times| - 1, Since(c, w, times), Verdicts(c, w, times);
      && i <= n && (vs[n] <==> Trues(vs, i, n) < c.maxTokens) && Trues(vs, i, n) <= Positive(c.maxTokens)
      && BeganAt(c, w, times, i) && times[n] - Final(c, w, times).start < c.duration
  {
    var n := |times| - 1;
    var before := times[..n];
    CounterExact(c, w, before);
    CounterExact(c, w, times);
    if times[n] - Final(c, w, before).start < c.duration {
      TruesPrefix(c, w, times, Since(c, w, before), n);
    }
    assert Verdicts(c, w, times)[n] == Granted(c, Final(c, w, before), times[n]);
  }

  // ---- a call more ----

  lemma VerdictsSnoc(c: Config, w: Window, times: seq<int>, t: int)
    ensures Final(c, w, times + [t]) == After(c, Final(c, w, times), t)
    ensures Verdicts(c, w, times + [t]) == Verdicts(c, w, times) + [Granted(c, Final(c, w, times), t)]
  {
    assert (times + [t])[..|times|] == times;
    assert forall i :: 0 <= i < |times| ==> (times + [t])[..i] == times[..i];
  }

  lemma {:induction false} FinalCons(c: Config, w: Window, times: seq<int>)
    requires times != []
    ensures Final(c, w, times) == Final(c, After(c, w, times[0]), times[1..])
  {
    var n := |times| - 1;
    if n == 0 {
      assert times[..0] == [] && times[1..] == [];
    } else {
      FinalCons(c, w, times[..n]);
      assert times[..n][1..] == times[1..][..n - 1];
    }
  }

  lemma {:induction false} GrantsSnoc(c: Config, w: Window, times: seq<int>, t: int, a: int, b: int)
    ensures Grants(c, w, times + [t], a, b) ==
      Grants(c, w, times, a, b) + if a <= t < b && Granted(c, Final(c, w, times), t) then 1 else 0
    decreases |times|
  {
    if times == [] {
      assert times + [t] == [t] && [t][1..] == [];
    } else {
      FinalCons(c, w, times);
      GrantsSnoc(c, After(c, w, times[0]), times[1..], t, a, b);
      assert (times + [t])[1..] == times[1..] + [t];
    }
  }
}
