/** A fixed-window rate limiter with periodic cleanup. Times are seconds on a monotonic clock. */
module RateLimit {

  datatype Verdict = Verdict(allowed: bool, limit: int, remaining: int, retryAfter: int)

  // ----- the limiter on values --------------------------------------------------------------

  /** A window as a value: its first request, and how many it has seen. */
  datatype Span = Span(startedAt: real, requests: nat)

  datatype State = State(spans: map<string, Span>, sinceCleanup: nat)

  const CLEANUP_EVERY := 1000

  function Ceil(x: real): int {
    -((-x).Floor)
  }

  /** The windows that started less than `window` seconds ago. */
  function Recent(window: int, spans: map<string, Span>, now: real): map<string, Span> {
    map k | k in spans && spans[k].startedAt > now - window as real :: spans[k]
  }

  /** The window a request falls into. */
  function Current(window: int, spans: map<string, Span>, key: string, now: real): Span {
    if key in spans && now - spans[key].startedAt < window as real then spans[key] else Span(now, 0)
  }

  function Counted(s: Span): Span {
    s.(requests := s.requests + 1)
  }

  function Judge(window: int, s: Span, limit: int, now: real): Verdict {
    var wait := Ceil(window as real - (now - s.startedAt));
    Verdict(s.requests <= limit, limit,
            if limit > s.requests then limit - s.requests else 0,
            if wait > 1 then wait else 1)
  }

  /** A limiter that never forgets a window. */
  function Plain(window: int, spans: map<string, Span>, key: string, limit: int, now: real): (map<string, Span>,
                 Verdict) {
    var s := Counted(Current(window, spans, key, now));
    (spans[key := s], Judge(window, s, limit, now))
  }

  /** Every thousandth request forgets the windows that have run out. */
  function Tidied(window: int, s: State, now: real): State {
    if s.sinceCleanup + 1 >= CLEANUP_EVERY then State(Recent(window, s.spans, now), 0)
    else s.(sinceCleanup := s.sinceCleanup + 1)
  }

  function Consumed(window: int, s: State, key: string, limit: int, now: real): (State, Verdict) {
    var tidy := Tidied(window, s, now);
    var (spans, verdict) := Plain(window, tidy.spans, key, limit, now);
    (tidy.(spans := spans), verdict)
  }

  // ----- the limiter as it runs -------------------------------------------------------------

  class Window {
    const startedAt: real
    var requests: nat

    constructor (startedAt: real)
      ensures this.startedAt == startedAt && requests == 0
    {
      this.startedAt := startedAt;
      requests := 0;
    }

    ghost function Value(): Span
      reads this
    {
      Span(startedAt, requests)
    }
  }

  class FixedWindowRateLimiter {
    const windowSeconds: int
    var windows: map<string, Window>
    var requestsSinceCleanup: nat

    /** Every key has a window of its own. */
    ghost predicate Valid()
      reads this
    {
      forall j, k :: j in windows && k in windows && j != k ==> windows[j] != windows[k]
    }

    ghost function Value(): State
      reads this, windows.Values
    {
      State(map k | k in windows :: windows[k].Value(), requestsSinceCleanup)
    }

    constructor (windowSeconds: int)
      ensures Valid() && this.windowSeconds == windowSeconds
      ensures Value() == State(map[], 0)
    {
      this.windowSeconds := windowSeconds;
      windows := map[];
      requestsSinceCleanup := 0;
    }

    /** Count the request; every thousandth drops the windows that have run out. */
    method Tidy(now: real)
      requires Valid()
      modifies this`windows, this`requestsSinceCleanup
      ensures Valid() && windows.Values <= old(windows.Values)
      ensures Value() == Tidied(windowSeconds, old(Value()), now)
    {
      requestsSinceCleanup := requestsSinceCleanup + 1;
      if requestsSinceCleanup >= CLEANUP_EVERY {
        var cutoff := now - windowSeconds as real;
        windows := map k | k in windows && windows[k].startedAt > cutoff :: windows[k];
        requestsSinceCleanup := 0;
      }
    }

    /** The window of a key, opened now if there is none or it has run out. */
    method WindowFor(key: string, now: real) returns (window: Window)
      requires Valid()
      modifies this`windows
      ensures Valid() && key in windows && windows[key] == window
      ensures window.Value() == Current(windowSeconds, old(Value()).spans, key, now)
      ensures Value() == old(Value()).(spans := old(Value()).spans[key := window.Value()])
      ensures fresh(windows.Values - old(windows.Values))
    {
      if key !in windows || now - windows[key].startedAt >= windowSeconds as real {
        window := new Window(now);
        windows := windows[key := window];
      } else {
        window := windows[key];
      }
    }

    /** One more request in the window of a key, which no other key shares. */
    method Count(key: string)
      requires Valid() && key in windows
      modifies windows[key]
      ensures windows[key].Value() == Counted(old(windows[key].Value()))
      ensures Value() == old(Value()).(spans := old(Value()).spans[key := windows[key].Value()])
    {
      assert windows[key] in windows.Values;
      windows[key].requests := windows[key].requests + 1;
    }

    method Consume(key: string, limit: int, now: real) returns (verdict: Verdict)
      requires Valid()
      modifies this`windows, this`requestsSinceCleanup, windows.Values
      ensures Valid() && fresh(windows.Values - old(windows.Values))
      ensures (Value(), verdict) == Consumed(windowSeconds, old(Value()), key, limit, now)
    {
      hide Valid, Value, Tidied, Current, Ceil;
      Tidy(now);
      ghost var tidy := Value();
      var window := WindowFor(key, now);
      ghost var found := window.Value();
      assert window in windows.Values;
      Count(key);
      Rewritten(tidy.spans, key, found, window.Value());
      var remaining := if limit > window.requests then limit - window.requests else 0;
      var wait := Ceil(windowSeconds as real - (now - window.startedAt));
      verdict := Verdict(window.requests <= limit, limit, remaining, if wait > 1 then wait else 1);
    }
  }

  lemma Rewritten(spans: map<string, Span>, key: string, s: Span, t: Span)
    ensures spans[key := s][key := t] == spans[key := t]
  {
  }
}
