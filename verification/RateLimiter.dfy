/** The rate limiter's objects: windows updated in place, the map that is filled lazily, and the check.
    The ghost `model` is the state that `trace` reaches in the machine of `RateLimitRegistry`, with one
    caller; `Valid` says that the objects show it. */
module RateLimiter {
  import opened FixedWindows
  import opened RateLimitRegistry

  class FixedWindow {
    const config: Config
    var tokensRemaining: int
    var windowStart: int

    function Value(): Window
      reads this
    {
      Window(windowStart, tokensRemaining)
    }

    constructor (config: Config, now: int)
      ensures this.config == config && Value() == Opened(config, now)
    {
      this.config, tokensRemaining, windowStart := config, config.maxTokens, now;
    }

    method Allow(now: int) returns (ok: bool)
      modifies this
      ensures ok == Granted(config, old(Value()), now) && Value() == After(config, old(Value()), now)
    {
      if now - windowStart >= config.duration {
        windowStart := now;
        tokensRemaining := config.maxTokens;
      }
      if tokensRemaining <= 0 {
        return false;
      }
      tokensRemaining := tokensRemaining - 1;
      ok := true;
    }
  }

  // ---- what the machine's steps do to the windows ----

  function Contents(s: Sys): map<string, Window> {
    map k | k in s.windows && s.windows[k] < |s.heap| :: s.heap[s.windows[k]]
  }

  lemma LookupEffect(s: Sys, key: string)
    requires |s.threads| == 1 && s.threads[0].Idle?
    ensures var s' := Step(s, Lookup(0, key));
      && Contents(s') == Contents(s) && s'.log == s.log
      && s'.threads == [if key in s.windows then Found(key, s.windows[key]) else Missed(key)]
  {
  }

  lemma ContentsCreated(s: Sys, key: string)
    requires |s.births| == |s.heap| && TableOk(s.windows, s.births, s.now) && s.threads == [Missed(key)]
    requires key !in s.windows
    ensures var s' := Step(s, Create(0));
      && Contents(s') == Contents(s)[key := Opened(s.config, s.now)] && s'.log == s.log
      && s'.windows.Keys == s.windows.Keys + {key} && s'.threads == [Found(key, s'.windows[key])]
  {
  }

  lemma CreateEffect(s0: Sys, es: seq<Event>, key: string)
    requires Initial(s0) && Run(s0, es).threads == [Missed(key)] && key !in Run(s0, es).windows
    ensures var s, s' := Run(s0, es), Step(Run(s0, es), Create(0));
      && Contents(s') == Contents(s)[key := Opened(s.config, s.now)] && s'.log == s.log
      && s'.windows.Keys == s.windows.Keys + {key} && s'.threads == [Found(key, s'.windows[key])]
  {
    WindowsKept(s0, es);
    ContentsCreated(Run(s0, es), key);
  }

  lemma StampEffect(s: Sys, key: string, window: nat)
    requires s.threads == [Found(key, window)]
    ensures Step(s, Stamp(0)) == s.(threads := [Stamped(key, window, s.now)])
  {
  }

  lemma ContentsDecided(s: Sys, key: string)
    requires |s.births| == |s.heap| && TableOk(s.windows, s.births, s.now)
    requires key in s.windows && s.threads == [Stamped(key, s.windows[key], s.now)]
    ensures var s' := Step(s, Decide(0));
      && key in Contents(s) && Contents(s') == Contents(s)[key := After(s.config, Contents(s)[key], s.now)]
      && s'.log == s.log + [Call(key, s.now, Granted(s.config, Contents(s)[key], s.now))]
      && s'.threads == [Idle] && s'.windows == s.windows
  {
  }

  lemma DecideEffect(s0: Sys, es: seq<Event>, key: string)
    requires Initial(s0) && key in Run(s0, es).windows
    requires Run(s0, es).threads == [Stamped(key, Run(s0, es).windows[key], Run(s0, es).now)]
    ensures var s, s' := Run(s0, es), Step(Run(s0, es), Decide(0));
      && key in Contents(s) && Contents(s') == Contents(s)[key := After(s.config, Contents(s)[key], s.now)]
      && s'.log == s.log + [Call(key, s.now, Granted(s.config, Contents(s)[key], s.now))]
      && s'.threads == [Idle] && s'.windows == s.windows
  {
    WindowsKept(s0, es);
    ContentsDecided(Run(s0, es), key);
  }

  class RateLimitSystem {
    const config: Config
    var windows: map<string, FixedWindow>
    var clock: int
    ghost const start: Sys
    ghost var trace: seq<Event>
    ghost var model: Sys

    ghost function Repr(): set<object>
      reads this
    {
      set k | k in windows :: windows[k] as object
    }

    /** No window serves two keys. */
    ghost predicate Separate()
      reads this
    {
      forall j, k :: j in windows && k in windows && windows[j] == windows[k] ==> j == k
    }

    ghost function Values(): map<string, Window>
      reads this, Repr()
    {
      map k | k in windows :: windows[k].Value()
    }

    ghost predicate Traced()
      reads this
    {
      && Initial(start) && model == Run(start, trace)
      && model.config == config && model.now == clock && |model.threads| == 1
    }

    ghost predicate Shows()
      reads this, Repr()
    {
      && Separate() && windows.Keys == model.windows.Keys && Values() == Contents(model)
      && forall k :: k in windows ==> windows[k].config == config
    }

    ghost predicate Valid()
      reads this, Repr()
    {
      Traced() && Shows() && model.threads[0].Idle?
    }

    constructor (config: Config, now: int)
      ensures Valid() && windows == map[] && trace == [] && this.config == config && clock == now
    {
      this.config, windows, clock, trace := config, map[], now, [];
      var s := Sys(config, now, [], [], map[], [Idle], []);
      start, model := s, s;
    }

    /** Time passes. */
    method PassTime(nanos: nat)
      requires Valid()
      modifies this`clock, this`trace, this`model
      ensures Valid() && clock == old(clock) + nanos && trace == old(trace) + [Advance(nanos)]
    {
      assert (trace + [Advance(nanos)])[..|trace|] == trace;
      trace := trace + [Advance(nanos)];
      model := Step(model, Advance(nanos));
      clock := clock + nanos;
    }

    ghost method Log(e: Event)
      requires Traced() && !e.Advance?
      modifies this`trace, this`model
      ensures Traced() && trace == old(trace) + [e] && model == Step(old(model), e)
    {
      assert (trace + [e])[..|trace|] == trace;
      trace := trace + [e];
      model := Step(model, e);
    }

    /** A new window goes into the map. */
    method Insert(key: string) returns (w: FixedWindow)
      requires Separate() && key !in windows
      modifies this`windows
      ensures Separate() && fresh(w) && w.config == config && windows == old(windows)[key := w]
      ensures Values() == old(Values())[key := Opened(config, clock)] && w.Value() == Opened(config, clock)
    {
      w := new FixedWindow(config, clock);
      windows := windows[key := w];
    }

    /** The write-locked half: creation, once a second lookup has missed again. */
    method Create(key: string) returns (w: FixedWindow)
      requires Traced() && Shows() && model.threads == [Missed(key)] && key !in windows
      modifies this`windows, this`trace, this`model
      ensures Traced() && Shows() && trace == old(trace) + [RateLimitRegistry.Create(0)]
      ensures fresh(w) && windows == old(windows)[key := w] && w.Value() == Opened(config, clock)
      ensures Values() == old(Values())[key := Opened(config, clock)]
      ensures model.threads == [Found(key, model.windows[key])] && model.log == old(model).log
    {
      CreateEffect(start, trace, key);
      w := Insert(key);
      Log(RateLimitRegistry.Create(0));
    }

    /** The key's window: created on first use and never replaced. */
    method GetOrCreate(key: string) returns (w: FixedWindow)
      requires Valid()
      modifies this`windows, this`trace, this`model
      ensures Traced() && Shows() && old(trace) <= trace
      ensures key in old(windows) ==> w == old(windows)[key] && windows == old(windows)
      ensures key !in old(windows) ==>
        fresh(w) && windows == old(windows)[key := w] && w.Value() == Opened(config, clock)
      ensures Values() == old(Values())[key := Serving(old(Values()), key, clock)]
      ensures forall k :: k in old(windows) ==> k in windows && windows[k] == old(windows)[k]
      ensures w.Value() == Serving(old(Values()), key, clock) && (w in old(Repr()) || fresh(w))
      ensures key in windows && model.threads == [Found(key, model.windows[key])] && model.log == old(model).log
    {
      LookupEffect(model, key);
      Log(Lookup(0, key));
      if key in windows {
        return windows[key];
      }
      w := Create(key);
    }

    /** The clock is read, then the window's own lock is taken and the call decided. */
    method Decide(key: string, w: FixedWindow) returns (ok: bool)
      requires Traced() && Shows() && key in windows && windows[key] == w
      requires model.threads == [Found(key, model.windows[key])]
      modifies this`trace, this`model, w
      ensures Valid() && trace == old(trace) + [Stamp(0)] + [RateLimitRegistry.Decide(0)]
      ensures ok == Granted(config, old(w.Value()), clock)
      ensures Values() == old(Values())[key := After(config, old(w.Value()), clock)]
      ensures model.log == old(model).log + [Call(key, clock, ok)]
    {
      ReadClock(key);
      DecideEffect(start, trace, key);
      ok := Consult(key, w);
      Log(RateLimitRegistry.Decide(0));
    }

    ghost method ReadClock(key: string)
      requires Traced() && Shows() && key in model.windows && model.threads == [Found(key, model.windows[key])]
      modifies this`trace, this`model
      ensures Traced() && Shows() && trace == old(trace) + [Stamp(0)]
      ensures model == old(model).(threads := [Stamped(key, old(model).windows[key], clock)])
    {
      StampEffect(model, key, model.windows[key]);
      Log(Stamp(0));
    }

    method Consult(key: string, w: FixedWindow) returns (ok: bool)
      requires Separate() && key in windows && windows[key] == w && w.config == config
      modifies w
      ensures ok == Granted(config, old(w.Value()), clock)
      ensures Values() == old(Values())[key := After(config, old(w.Value()), clock)]
    {
      ok := w.Allow(clock);
    }

    /** The window that decides a key's call. */
    function Serving(values: map<string, Window>, key: string, now: int): Window {
      if key in values then values[key] else Opened(config, now)
    }

    /** The windows after a call of the key. */
    function Served(values: map<string, Window>, key: string, now: int): map<string, Window> {
      values[key := After(config, Serving(values, key, now), now)]
    }

    lemma ServedOnce(values: map<string, Window>, key: string, now: int)
      ensures var w := Serving(values, key, now);
        values[key := w][key := After(config, w, now)] == Served(values, key, now)
    {
    }

    /** One call of one key: its window decides, and no other key's window changes. */
    method Allow(key: string) returns (ok: bool)
      requires Valid()
      modifies this, Repr()
      ensures Valid() && old(trace) <= trace && model.log == old(model).log + [Call(key, clock, ok)]
      ensures clock == old(clock)
      ensures ok == Granted(config, Serving(old(Values()), key, clock), clock)
      ensures Values() == Served(old(Values()), key, clock)
      ensures key in windows && forall k :: k in old(windows) ==> k in windows && windows[k] == old(windows)[k]
    {
      ServedOnce(Values(), key, clock);
      var strategy := GetOrCreate(key);
      ok := Decide(key, strategy);
    }
  }
}
