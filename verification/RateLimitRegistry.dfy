/** The per-key registry of the rate limiter under concurrent callers: lookup under the read lock, a
    second lookup and creation under the write lock, the clock read, and the window's own lock. */
module RateLimitRegistry {
  import opened FixedWindows

  datatype Thread =
    | Idle
    | Missed(key: string)
    | Found(key: string, window: nat)
    | Stamped(key: string, window: nat, time: int)

  datatype Call = Call(key: string, time: int, granted: bool)

  /** `heap` holds every window ever allocated and `births` when; `log` lists the decided calls in the
      order of their locks. */
  datatype Sys = Sys(config: Config, now: int, heap: seq<Window>, births: seq<int>, windows: map<string, nat>,
                     threads: seq<Thread>, log: seq<Call>)

  datatype Event =
    | Advance(nanos: nat)
    | Lookup(i: nat, key: string)
    | Create(i: nat)
    | Stamp(i: nat)
    | Decide(i: nat)

  predicate Initial(s: Sys) {
    && s.heap == [] && s.births == [] && s.windows == map[] && s.log == []
    && forall i :: 0 <= i < |s.threads| ==> s.threads[i] == Idle
  }

  predicate Enabled(s: Sys, e: Event) {
    match e
    case Advance(_) => true
    case Lookup(i, _) => i < |s.threads| && s.threads[i].Idle?
    case Create(i) => i < |s.threads| && s.threads[i].Missed?
    case Stamp(i) => i < |s.threads| && s.threads[i].Found?
    case Decide(i) => i < |s.threads| && s.threads[i].Stamped? && s.threads[i].window < |s.heap|
  }

  function Find(s: Sys, i: nat, key: string): Sys
    requires i < |s.threads| && key in s.windows
  {
    s.(threads := s.threads[i := Found(key, s.windows[key])])
  }

  function Allocate(s: Sys, key: string): Sys {
    s.(heap := s.heap + [Opened(s.config, s.now)], births := s.births + [s.now], windows := s.windows[key := |s.heap|])
  }

  /** The call that a thread decides. */
  function Decision(s: Sys, i: nat): Call
    requires Enabled(s, Decide(i))
  {
    Call(s.threads[i].key, s.threads[i].time, Granted(s.config, s.heap[s.threads[i].window], s.threads[i].time))
  }

  function DoDecide(s: Sys, i: nat): Sys
    requires Enabled(s, Decide(i))
  {
    var t := s.threads[i];
    s.(heap := s.heap[t.window := After(s.config, s.heap[t.window], t.time)], threads := s.threads[i := Idle],
       log := s.log + [Decision(s, i)])
  }

  function Step(s: Sys, e: Event): Sys {
    if !Enabled(s, e) then s else
    match e
    case Advance(nanos) => s.(now := s.now + nanos)
    case Lookup(i, key) => if key in s.windows then Find(s, i, key) else s.(threads := s.threads[i := Missed(key)])
    case Create(i) =>
      var key := s.threads[i].key;
      Find(if key in s.windows then s else Allocate(s, key), i, key)
    case Stamp(i) =>
      s.(threads := s.threads[i := Stamped(s.threads[i].key, s.threads[i].window, s.now)])
    case Decide(i) => DoDecide(s, i)
  }

  function Run(s: Sys, es: seq<Event>): Sys {
    if es == [] then s else Step(Run(s, es[..|es| - 1]), es[|es| - 1])
  }

  // ---- one key's calls ----

  function Times(log: seq<Call>, key: string): seq<int> {
    if log == [] then [] else
      var before := Times(log[..|log| - 1], key);
      if log[|log| - 1].key == key then before + [log[|log| - 1].time] else before
  }

  function Answers(log: seq<Call>, key: string): (r: seq<bool>)
    ensures |r| == |Times(log, key)|
  {
    if log == [] then [] else
      var before := Answers(log[..|log| - 1], key);
      if log[|log| - 1].key == key then before + [log[|log| - 1].granted] else before
  }

  /** Calls of the key that were granted with a time in [a, b). */
  function GrantedIn(log: seq<Call>, key: string, a: int, b: int): nat {
    if log == [] then 0 else
      var c := log[|log| - 1];
      GrantedIn(log[..|log| - 1], key, a, b) + if c.key == key && c.granted && a <= c.time < b then 1 else 0
  }

  // ---- one window per key ----

  predicate ThreadOk(windows: map<string, nat>, births: seq<int>, now: int, t: Thread) {
    match t
    case Idle => true
    case Missed(_) => true
    case Found(key, window) => key in windows && windows[key] == window
    case Stamped(key, window, time) =>
      key in windows && windows[key] == window && (window < |births| ==> births[window] <= time) && time <= now
  }

  /** Every window belongs to one key, and was opened no later than now. */
  predicate TableOk(windows: map<string, nat>, births: seq<int>, now: int) {
    && (forall k :: k in windows ==> windows[k] < |births| && births[windows[k]] <= now)
    && forall j, k :: j in windows && k in windows && windows[j] == windows[k] ==> j == k
  }

  predicate ThreadsOk(windows: map<string, nat>, births: seq<int>, now: int, threads: seq<Thread>) {
    forall i :: 0 <= i < |threads| ==> ThreadOk(windows, births, now, threads[i])
  }

  predicate Registered(s: Sys) {
    && |s.births| == |s.heap| == |s.windows|
    && TableOk(s.windows, s.births, s.now) && ThreadsOk(s.windows, s.births, s.now, s.threads)
  }

  lemma FindRegistered(s: Sys, i: nat, key: string)
    requires Registered(s) && i < |s.threads| && key in s.windows
    ensures Registered(Find(s, i, key))
  {
  }

  lemma AllocatedTable(windows: map<string, nat>, births: seq<int>, now: int, key: string)
    requires TableOk(windows, births, now) && key !in windows
    ensures TableOk(windows[key := |births|], births + [now], now) && |windows[key := |births|]| == |windows| + 1
  {
    assert windows[key := |births|].Keys == windows.Keys + {key};
    assert |windows[key := |births|].Keys| == |windows.Keys| + 1;
  }

  lemma AllocatedThreads(windows: map<string, nat>, births: seq<int>, now: int, key: string, threads: seq<Thread>)
    requires TableOk(windows, births, now) && ThreadsOk(windows, births, now, threads) && key !in windows
    ensures ThreadsOk(windows[key := |births|], births + [now], now, threads)
  {
    forall i | 0 <= i < |threads| ensures ThreadOk(windows[key := |births|], births + [now], now, threads[i]) {
      assert ThreadOk(windows, births, now, threads[i]);
    }
  }

  lemma AllocateRegistered(s: Sys, key: string)
    requires Registered(s) && key !in s.windows
    ensures Registered(Allocate(s, key)) && Extends(s, Allocate(s, key))
  {
    AllocatedTable(s.windows, s.births, s.now, key);
    AllocatedThreads(s.windows, s.births, s.now, key, s.threads);
  }

  lemma StampRegistered(s: Sys, i: nat)
    requires Registered(s) && Enabled(s, Stamp(i))
    ensures Registered(Step(s, Stamp(i)))
  {
    assert ThreadOk(s.windows, s.births, s.now, s.threads[i]);
  }

  lemma DecideRegistered(s: Sys, i: nat)
    requires Registered(s) && Enabled(s, Decide(i))
    ensures Registered(DoDecide(s, i))
  {
  }

  predicate Extends(s: Sys, s': Sys) {
    && s'.config == s.config && s.births <= s'.births
    && forall k :: k in s.windows ==> k in s'.windows && s'.windows[k] == s.windows[k]
  }

  lemma CreateRegistered(s: Sys, i: nat)
    requires Registered(s) && Enabled(s, Create(i))
    ensures Registered(Step(s, Create(i))) && Extends(s, Step(s, Create(i)))
  {
    var key := s.threads[i].key;
    if key !in s.windows {
      AllocateRegistered(s, key);
      FindRegistered(Allocate(s, key), i, key);
    } else {
      FindRegistered(s, i, key);
    }
  }

  lemma LookupRegistered(s: Sys, i: nat, key: string)
    requires Registered(s) && i < |s.threads|
    ensures Registered(Step(s, Lookup(i, key)))
  {
    if key in s.windows {
      FindRegistered(s, i, key);
    }
  }

  lemma AdvanceRegistered(s: Sys, nanos: nat)
    requires Registered(s)
    ensures Registered(s.(now := s.now + nanos))
  {
    forall i | 0 <= i < |s.threads| ensures ThreadOk(s.windows, s.births, s.now + nanos, s.threads[i]) {
      assert ThreadOk(s.windows, s.births, s.now, s.threads[i]);
    }
  }

  lemma StepRegistered(s: Sys, e: Event)
    requires Registered(s)
    ensures Registered(Step(s, e)) && Extends(s, Step(s, e))
  {
    if Enabled(s, e) {
      match e
      case Advance(nanos) => AdvanceRegistered(s, nanos);
      case Lookup(i, key) => LookupRegistered(s, i, key);
      case Create(i) => CreateRegistered(s, i);
      case Stamp(i) => StampRegistered(s, i);
      case Decide(i) => DecideRegistered(s, i);
    }
  }

  /** From any reachable state on, a key keeps its window; and there are no windows but those of keys. */
  lemma {:induction false} WindowsKept(s: Sys, es: seq<Event>)
    requires Registered(s)
    ensures Registered(Run(s, es)) && Extends(s, Run(s, es))
  {
    if es != [] {
      WindowsKept(s, es[..|es| - 1]);
      StepRegistered(Run(s, es[..|es| - 1]), es[|es| - 1]);
    }
  }

  // ---- the refinement to one limiter per key ----

  /** The limiter that the key would have on its own. */
  function FirstWindow(s: Sys, key: string): Window
    requires Registered(s) && key in s.windows
  {
    Opened(s.config, s.births[s.windows[key]])
  }

  /** What has been decided for the key, and the window it left, are those of a limiter of its own. */
  predicate Agrees(c: Config, first: Window, current: Window, log: seq<Call>, key: string) {
    current == Final(c, first, Times(log, key)) && Answers(log, key) == Verdicts(c, first, Times(log, key))
  }

  predicate KeyOk(s: Sys, key: string)
    requires Registered(s)
  {
    if key in s.windows then Agrees(s.config, FirstWindow(s, key), s.heap[s.windows[key]], s.log, key)
    else Times(s.log, key) == []
  }

  lemma LogSnoc(log: seq<Call>, c: Call, key: string)
    ensures Times(log + [c], key) == if c.key == key then Times(log, key) + [c.time] else Times(log, key)
    ensures Answers(log + [c], key) == if c.key == key then Answers(log, key) + [c.granted] else Answers(log, key)
  {
    assert (log + [c])[..|log|] == log;
  }

  lemma AgreesSnoc(c: Config, first: Window, current: Window, log: seq<Call>, call: Call, key: string)
    requires Agrees(c, first, current, log, key) && (call.key == key ==> call.granted == Granted(c, current, call.time))
    ensures Agrees(c, first, if call.key == key then After(c, current, call.time) else current, log + [call], key)
  {
    LogSnoc(log, call, key);
    VerdictsSnoc(c, first, Times(log, key), call.time);
  }

  lemma DecideOwnKey(s: Sys, i: nat)
    requires Registered(s) && Enabled(s, Decide(i)) && KeyOk(s, s.threads[i].key)
    ensures Registered(DoDecide(s, i)) && KeyOk(DoDecide(s, i), s.threads[i].key)
  {
    DecideRegistered(s, i);
    var key := s.threads[i].key;
    assert ThreadOk(s.windows, s.births, s.now, s.threads[i]);
    AgreesSnoc(s.config, FirstWindow(s, key), s.heap[s.windows[key]], s.log, Decision(s, i), key);
  }

  lemma DecideOtherKey(s: Sys, i: nat, key: string)
    requires Registered(s) && Enabled(s, Decide(i)) && KeyOk(s, key) && key != s.threads[i].key
    ensures Registered(DoDecide(s, i)) && KeyOk(DoDecide(s, i), key)
  {
    DecideRegistered(s, i);
    assert ThreadOk(s.windows, s.births, s.now, s.threads[i]);
    if key in s.windows {
      assert DoDecide(s, i).heap[s.windows[key]] == s.heap[s.windows[key]];
      AgreesSnoc(s.config, FirstWindow(s, key), s.heap[s.windows[key]], s.log, Decision(s, i), key);
    } else {
      LogSnoc(s.log, Decision(s, i), key);
    }
  }

  lemma StepKeyOk(s: Sys, e: Event, key: string)
    requires Registered(s) && KeyOk(s, key)
    ensures Registered(Step(s, e)) && KeyOk(Step(s, e), key)
  {
    StepRegistered(s, e);
    if e.Decide? && Enabled(s, e) {
      if key == s.threads[e.i].key {
        DecideOwnKey(s, e.i);
      } else {
        DecideOtherKey(s, e.i, key);
      }
    }
  }

  /** Over every interleaving, the verdicts of a key, in the order of its lock, are those that one fixed
      window of its own gives to its calls. */
  lemma {:induction false} PerKeyLimiter(s0: Sys, es: seq<Event>, key: string)
    requires Initial(s0)
    ensures var s := Run(s0, es);
      && Registered(s)
      && (if key in s.windows
          then Answers(s.log, key) == Verdicts(s.config, FirstWindow(s, key), Times(s.log, key))
          else Answers(s.log, key) == [])
      && KeyOk(s, key)
  {
    if es != [] {
      PerKeyLimiter(s0, es[..|es| - 1], key);
      StepKeyOk(Run(s0, es[..|es| - 1]), es[|es| - 1], key);
    }
  }

  // ---- the rate, with the clock read outside the lock ----

  /** Every call is decided at most `latency` after it read the clock. */
  predicate Prompt(s0: Sys, es: seq<Event>, latency: nat) {
    forall k :: 0 <= k < |es| && es[k].Decide? ==>
      var s := Run(s0, es[..k]);
      Enabled(s, es[k]) ==> s.now - s.threads[es[k].i].time <= latency
  }

  predicate TimesOk(s: Sys, key: string, latency: nat)
    requires Registered(s)
  {
    var times := Times(s.log, key);
    && (forall i :: 0 <= i < |times| ==> times[i] <= s.now)
    && (key in s.windows ==> Ordered(s.births[s.windows[key]], times, latency))
    && (key !in s.windows ==> times == [])
  }

  lemma OrderedSnoc(start: int, times: seq<int>, latency: nat, now: int, t: int)
    requires Ordered(start, times, latency) && start <= t <= now <= t + latency
    requires forall i :: 0 <= i < |times| ==> times[i] <= now
    ensures Ordered(start, times + [t], latency) && forall i :: 0 <= i < |times + [t]| ==> (times + [t])[i] <= now
  {
  }

  lemma DecideTimesOk(s: Sys, i: nat, key: string, latency: nat)
    requires Registered(s) && TimesOk(s, key, latency) && Enabled(s, Decide(i)) && s.now - s.threads[i].time <= latency
    ensures Registered(DoDecide(s, i)) && TimesOk(DoDecide(s, i), key, latency)
  {
    DecideRegistered(s, i);
    LogSnoc(s.log, Decision(s, i), key);
    assert ThreadOk(s.windows, s.births, s.now, s.threads[i]);
    if key == s.threads[i].key {
      OrderedSnoc(s.births[s.windows[key]], Times(s.log, key), latency, s.now, s.threads[i].time);
    }
  }

  lemma StepTimesOk(s: Sys, e: Event, key: string, latency: nat)
    requires Registered(s) && TimesOk(s, key, latency)
    requires e.Decide? && Enabled(s, e) ==> s.now - s.threads[e.i].time <= latency
    ensures Registered(Step(s, e)) && TimesOk(Step(s, e), key, latency)
  {
    StepRegistered(s, e);
    if e.Decide? && Enabled(s, e) {
      DecideTimesOk(s, e.i, key, latency);
    }
  }

  lemma {:induction false} RunTimesOk(s0: Sys, es: seq<Event>, key: string, latency: nat)
    requires Initial(s0) && Prompt(s0, es, latency)
    ensures Registered(Run(s0, es)) && TimesOk(Run(s0, es), key, latency)
  {
    if es != [] {
      var before := es[..|es| - 1];
      assert forall k :: 0 <= k < |before| ==> before[..k] == es[..k] && before[k] == es[k];
      RunTimesOk(s0, before, key, latency);
      StepTimesOk(Run(s0, before), es[|es| - 1], key, latency);
    }
  }

  lemma SameLast<T>(xs: seq<T>, x: T, ys: seq<T>, y: T)
    requires |xs| == |ys| && xs + [x] == ys + [y]
    ensures xs == ys && x == y
  {
    assert xs == (xs + [x])[..|xs|] && ys == (ys + [y])[..|ys|];
    assert (xs + [x])[|xs|] == x && (ys + [y])[|ys|] == y;
  }

  lemma {:induction false} GrantedAreGrants(c: Config, w: Window, log: seq<Call>, key: string, a: int, b: int)
    requires Answers(log, key) == Verdicts(c, w, Times(log, key))
    ensures GrantedIn(log, key, a, b) == Grants(c, w, Times(log, key), a, b)
  {
    if log != [] {
      var before, call := log[..|log| - 1], log[|log| - 1];
      assert log == before + [call];
      LogSnoc(before, call, key);
      if call.key == key {
        var times := Times(before, key);
        VerdictsSnoc(c, w, times, call.time);
        SameLast(Answers(before, key), call.granted, Verdicts(c, w, times), Granted(c, Final(c, w, times), call.time));
        GrantsSnoc(c, w, times, call.time, a, b);
      }
      GrantedAreGrants(c, w, before, key, a, b);
    }
  }

  lemma RateOfWindow(s: Sys, key: string, latency: nat, a: int, b: int, k: nat)
    requires Registered(s) && TimesOk(s, key, latency) && s.config.duration > 0
    requires if key in s.windows
      then Answers(s.log, key) == Verdicts(s.config, FirstWindow(s, key), Times(s.log, key))
      else Answers(s.log, key) == []
    requires k >= 1 && b + latency - a <= k * s.config.duration
    ensures GrantedIn(s.log, key, a, b) <= (k + 1) * Positive(s.config.maxTokens)
  {
    if key in s.windows {
      GrantedAreGrants(s.config, FirstWindow(s, key), s.log, key, a, b);
      WindowRate(s.config, FirstWindow(s, key), Times(s.log, key), a, b, latency, k);
    } else {
      GrantedAreGrants(s.config, Window(0, 0), s.log, key, a, b);
    }
  }

  /** The rate each key gets, over every interleaving of callers that decide within `latency`. */
  lemma KeyRate(s0: Sys, es: seq<Event>, key: string, latency: nat, a: int, b: int, k: nat)
    requires Initial(s0) && Prompt(s0, es, latency) && s0.config.duration > 0
    requires k >= 1 && b + latency - a <= k * s0.config.duration
    ensures GrantedIn(Run(s0, es).log, key, a, b) <= (k + 1) * Positive(s0.config.maxTokens)
  {
    PerKeyLimiter(s0, es, key);
    RunTimesOk(s0, es, key, latency);
    WindowsKept(s0, es);
    RateOfWindow(Run(s0, es), key, latency, a, b, k);
  }
}
