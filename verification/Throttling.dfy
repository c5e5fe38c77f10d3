/** What the rate limiter promises over whole traces of requests. */
module Throttling {
  import opened Results
  import opened RateLimit

  datatype Call = Call(key: string, limit: int, now: real)

  /** The clock is monotonic. */
  predicate Ordered(trace: seq<Call>) {
    forall i, j | 0 <= i < j < |trace| :: trace[i].now <= trace[j].now
  }

  /** A prefix of an ordered trace is ordered, and what follows comes later. */
  lemma Split(a: seq<Call>, b: seq<Call>)
    requires Ordered(a + b)
    ensures Ordered(a) && (a != [] && b != [] ==> Clock(a) <= b[0].now)
  {
    forall i, j | 0 <= i < j < |a|
      ensures a[i].now <= a[j].now
    {
      assert (a + b)[i] == a[i] && (a + b)[j] == a[j];
    }
    if a != [] && b != [] {
      assert (a + b)[|a| - 1] == a[|a| - 1] && (a + b)[|a|] == b[0];
    }
  }

  function Clock(trace: seq<Call>): real {
    if trace == [] then 0.0 else trace[|trace| - 1].now
  }

  function After(window: int, trace: seq<Call>): State {
    if trace == [] then State(map[], 0)
    else
      var c := trace[|trace| - 1];
      Consumed(window, After(window, trace[..|trace| - 1]), c.key, c.limit, c.now).0
  }

  function Verdicts(window: int, trace: seq<Call>): (r: seq<Verdict>)
    ensures |r| == |trace|
  {
    if trace == [] then []
    else
      var before, c := trace[..|trace| - 1], trace[|trace| - 1];
      Verdicts(window, before) + [Consumed(window, After(window, before), c.key, c.limit, c.now).1]
  }

  function PlainAfter(window: int, trace: seq<Call>): map<string, Span> {
    if trace == [] then map[]
    else
      var c := trace[|trace| - 1];
      Plain(window, PlainAfter(window, trace[..|trace| - 1]), c.key, c.limit, c.now).0
  }

  function PlainVerdicts(window: int, trace: seq<Call>): (r: seq<Verdict>)
    ensures |r| == |trace|
  {
    if trace == [] then []
    else
      var before, c := trace[..|trace| - 1], trace[|trace| - 1];
      PlainVerdicts(window, before) + [Plain(window, PlainAfter(window, before), c.key, c.limit, c.now).1]
  }

  // ----- cleanup ----------------------------------------------------------------------------

  /** `spans` is `plain` without some windows that have run out by time `t`. */
  ghost predicate Forgets(window: int, spans: map<string, Span>, plain: map<string, Span>, t: real) {
    && (forall k :: k in spans ==> k in plain && plain[k] == spans[k])
    && (forall k :: k in plain && k !in spans ==> t - plain[k].startedAt >= window as real)
  }

  lemma TidyForgets(window: int, s: State, plain: map<string, Span>, t: real, now: real)
    requires Forgets(window, s.spans, plain, t) && t <= now
    ensures Forgets(window, Tidied(window, s, now).spans, plain, now)
  {
  }

  lemma PlainForgets(window: int, spans: map<string, Span>, plain: map<string, Span>, key: string, limit: int,
                     now: real)
    requires Forgets(window, spans, plain, now)
    ensures Plain(window, spans, key, limit, now).1 == Plain(window, plain, key, limit, now).1
    ensures Forgets(window, Plain(window, spans, key, limit, now).0, Plain(window, plain, key, limit, now).0, now)
  {
    assert Current(window, spans, key, now) == Current(window, plain, key, now);
    hide Ceil;
  }

  /** Call by call, the limiter answers as if it never forgot anything. */
  lemma {:induction false} CleanupIsInvisible(window: int, trace: seq<Call>)
    requires Ordered(trace)
    ensures Verdicts(window, trace) == PlainVerdicts(window, trace)
    ensures Forgets(window, After(window, trace).spans, PlainAfter(window, trace), Clock(trace))
  {
    if trace != [] {
      var before, c := trace[..|trace| - 1], trace[|trace| - 1];
      assert before + [c] == trace;
      Split(before, [c]);
      hide Ordered;
      CleanupIsInvisible(window, before);
      var s, plain := After(window, before), PlainAfter(window, before);
      hide Forgets, Plain, Tidied;
      if before == [] {
        NothingToForget(window, c.now);
        TidyForgets(window, s, plain, c.now, c.now);
      } else {
        TidyForgets(window, s, plain, Clock(before), c.now);
      }
      PlainForgets(window, Tidied(window, s, c.now).spans, plain, c.key, c.limit, c.now);
    } else {
      NothingToForget(window, 0.0);
    }
  }

  lemma NothingToForget(window: int, t: real)
    ensures Forgets(window, map[], map[], t)
  {
  }

  /** How many windows survived the last cleanup: all of them less than a window old. */
  function KeptByCleanup(window: int, trace: seq<Call>): nat {
    if trace == [] then 0
    else
      var before, c := trace[..|trace| - 1], trace[|trace| - 1];
      var s := After(window, before);
      if s.sinceCleanup + 1 >= CLEANUP_EVERY then |Recent(window, s.spans, c.now)| else KeptByCleanup(window, before)
  }

  lemma OneKeyMore(spans: map<string, Span>, key: string, s: Span)
    ensures |spans[key := s]| <= |spans| + 1
  {
    assert spans[key := s].Keys == spans.Keys + {key};
  }

  /** The table never holds more than what the last cleanup kept and a thousand windows more. */
  lemma {:induction false} TableIsSmall(window: int, trace: seq<Call>)
    ensures |After(window, trace).spans| <= KeptByCleanup(window, trace) + After(window, trace).sinceCleanup + 1
    ensures |After(window, trace).spans| <= KeptByCleanup(window, trace) + CLEANUP_EVERY
  {
    if trace != [] {
      var before, c := trace[..|trace| - 1], trace[|trace| - 1];
      TableIsSmall(window, before);
      CounterIsSmall(window, before);
      var s := After(window, before);
      var tidy := Tidied(window, s, c.now);
      OneKeyMore(tidy.spans, c.key, Counted(Current(window, tidy.spans, c.key, c.now)));
    }
  }

  lemma {:induction false} CounterIsSmall(window: int, trace: seq<Call>)
    ensures After(window, trace).sinceCleanup < CLEANUP_EVERY
  {
    if trace != [] {
      CounterIsSmall(window, trace[..|trace| - 1]);
    }
  }

  // ----- what is let through ----------------------------------------------------------------

  /** The times at which requests of a key were allowed. */
  function AllowedTimes(window: int, trace: seq<Call>, key: string): seq<real> {
    if trace == [] then []
    else
      var before, c := trace[..|trace| - 1], trace[|trace| - 1];
      AllowedTimes(window, before, key) +
      if c.key == key && Verdicts(window, trace)[|before|].allowed then [c.now] else []
  }

  /** How many of the times lie in the half-open interval from `x` to `y`. */
  function Within(times: seq<real>, x: real, y: real): nat {
    if times == [] then 0
    else
      var last := times[|times| - 1];
      Within(times[..|times| - 1], x, y) + if x <= last < y then 1 else 0
  }

  lemma WithinMore(times: seq<real>, t: real, x: real, y: real)
    ensures Within(times + [t], x, y) == Within(times, x, y) + if x <= t < y then 1 else 0
  {
    assert (times + [t])[..|times|] == times;
  }

  predicate SameLimit(trace: seq<Call>, key: string, limit: int) {
    forall i | 0 <= i < |trace| && trace[i].key == key :: trace[i].limit == limit
  }

  function Min(a: int, b: int): int {
    if a < b then a else b
  }

  /** How the window of a key relates to the `n` requests of it allowed between `x` and `x + window`:
      a window opened before `x` spent its first request there; one opened inside comes after at most
      one other; one opened later adds nothing. */
  ghost predicate Anchored(window: int, spans: map<string, Span>, key: string, limit: int, x: real, n: int,
                           last: real) {
    if key !in spans then n == 0
    else
      var a, r := spans[key].startedAt, spans[key].requests;
      && r >= 1 && a <= last && (n > 0 ==> x <= last)
      && n <= (if a < x then Min(r, limit) - 1
               else if a < x + window as real then limit - 1 + Min(r, limit)
               else 2 * limit - 1)
  }

  lemma AnchoredStep(window: int, spans: map<string, Span>, key: string, limit: int, x: real, n: int, last: real,
                     now: real)
    requires window >= 1 && limit >= 1 && Anchored(window, spans, key, limit, x, n, last) &&
             (key in spans ==> last <= now)
    ensures var (after, verdict) := Plain(window, spans, key, limit, now);
            Anchored(window, after, key, limit, x,
                     n + (if verdict.allowed && x <= now < x + window as real then 1 else 0), now)
  {
    hide Ceil;
  }

  lemma AnchoredElsewhere(window: int, spans: map<string, Span>, key: string, limit: int, x: real, n: int, last: real,
                          c: Call)
    requires c.key != key && Anchored(window, spans, key, limit, x, n, last) && (key in spans ==> last <= c.now)
    ensures Anchored(window, Plain(window, spans, c.key, c.limit, c.now).0, key, limit, x, n, c.now)
  {
    hide Ceil;
  }

  lemma {:induction false} Anchors(window: int, trace: seq<Call>, key: string, limit: int, x: real)
    requires Ordered(trace) && window >= 1 && limit >= 1 && SameLimit(trace, key, limit)
    ensures Anchored(window, PlainAfter(window, trace), key, limit, x,
                     Within(AllowedTimes(window, trace, key), x, x + window as real), Clock(trace))
  {
    if trace != [] {
      var before, c := trace[..|trace| - 1], trace[|trace| - 1];
      assert before + [c] == trace;
      Split(before, [c]);
      hide Ordered;
      Anchors(window, before, key, limit, x);
      CleanupIsInvisible(window, trace);
      assert Verdicts(window, trace)[|before|] == PlainVerdicts(window, trace)[|before|];
      var times, plain := AllowedTimes(window, before, key), PlainAfter(window, before);
      var n := Within(times, x, x + window as real);
      WithinMore(times, c.now, x, x + window as real);
      assert times + [] == times;
      assert key in plain ==> Clock(before) <= c.now;
      hide Anchored, Plain, Within, Forgets, After, Verdicts;
      if c.key == key {
        AnchoredStep(window, plain, key, limit, x, n, Clock(before), c.now);
      } else {
        AnchoredElsewhere(window, plain, key, limit, x, n, Clock(before), c);
      }
    }
  }

  /** No half-open interval as long as a window sees more than 2 * limit - 1 allowed requests of a key. */
  lemma SlidingBound(window: int, trace: seq<Call>, key: string, limit: int, x: real)
    requires Ordered(trace) && window >= 1 && limit >= 1 && SameLimit(trace, key, limit)
    ensures Within(AllowedTimes(window, trace, key), x, x + window as real) <= 2 * limit - 1
  {
    Anchors(window, trace, key, limit, x);
    hide AllowedTimes, Within, PlainAfter;
  }

  // ----- the bound is reached ---------------------------------------------------------------

  function Repeat(n: nat, c: Call): (r: seq<Call>)
    ensures |r| == n && forall i :: 0 <= i < n ==> r[i] == c
  {
    if n == 0 then [] else Repeat(n - 1, c) + [c]
  }

  /** A burst after a trace, one call at a time. */
  lemma LastOfBurst(trace: seq<Call>, n: nat, c: Call)
    requires n > 0
    ensures trace + Repeat(n, c) == (trace + Repeat(n - 1, c)) + [c]
  {
  }

  lemma NoBurst(trace: seq<Call>, c: Call)
    ensures trace + Repeat(0, c) == trace
  {
  }

  lemma LastOf(trace: seq<Call>)
    requires trace != []
    ensures trace == trace[..|trace| - 1] + [trace[|trace| - 1]]
  {
  }

  lemma OneMore(window: int, trace: seq<Call>, c: Call, key: string)
    requires Ordered(trace + [c])
    ensures PlainAfter(window, trace + [c]) == Plain(window, PlainAfter(window, trace), c.key, c.limit, c.now).0
    ensures Verdicts(window, trace + [c])[|trace|] == Plain(window, PlainAfter(window, trace), c.key, c.limit, c.now).1
    ensures AllowedTimes(window, trace + [c], key) ==
            AllowedTimes(window, trace, key) +
            if c.key == key && Plain(window, PlainAfter(window, trace), c.key, c.limit, c.now).1.allowed
              then [c.now] else []
  {
    assert (trace + [c])[..|trace|] == trace;
    CleanupIsInvisible(window, trace + [c]);
    hide Plain, Consumed, Forgets;
  }

  lemma FitsIn(window: int, plain: map<string, Span>, c: Call, s: Span)
    requires c.key in plain && plain[c.key] == s && c.now - s.startedAt < window as real && s.requests + 1 <= c.limit
    ensures var (after, verdict) := Plain(window, plain, c.key, c.limit, c.now);
            c.key in after && after[c.key] == Counted(s) && verdict.allowed
  {
    hide Ceil;
  }

  /** Requests that fit into the open window are all allowed. */
  lemma {:induction false} Burst(window: int, trace: seq<Call>, c: Call, n: nat, s: Span, x: real, y: real)
    requires Ordered(trace + Repeat(n, c)) && x <= c.now < y
    requires c.key in PlainAfter(window, trace) && PlainAfter(window, trace)[c.key] == s
    requires c.now - s.startedAt < window as real && s.requests + n <= c.limit
    ensures var more := trace + Repeat(n, c);
            && c.key in PlainAfter(window, more) && PlainAfter(window, more)[c.key] == s.(requests := s.requests + n)
            && Within(AllowedTimes(window, more, c.key), x, y) == Within(AllowedTimes(window, trace, c.key), x, y) + n
  {
    hide *;
    if n == 0 {
      NoBurst(trace, c);
    } else {
      var more := trace + Repeat(n - 1, c);
      LastOfBurst(trace, n, c);
      Split(more, [c]);
      Burst(window, trace, c, n - 1, s, x, y);
      OneMore(window, more, c, c.key);
      FitsIn(window, PlainAfter(window, more), c, s.(requests := s.requests + (n - 1)));
      CountedAgain(s, n);
      WithinMore(AllowedTimes(window, more, c.key), c.now, x, y);
    }
  }

  lemma CountedAgain(s: Span, n: nat)
    requires n > 0
    ensures Counted(s.(requests := s.requests + (n - 1))) == s.(requests := s.requests + n)
  {
  }

  predicate Extends(trace: seq<Call>, c: Call) {
    trace == [] || Clock(trace) <= c.now
  }

  lemma OrderedMore(trace: seq<Call>, n: nat, c: Call)
    requires Ordered(trace) && Extends(trace, c)
    ensures Ordered(trace + Repeat(n, c)) && Extends(trace + Repeat(n, c), c)
    ensures SameLimit(trace, c.key, c.limit) ==> SameLimit(trace + Repeat(n, c), c.key, c.limit)
  {
  }

  lemma OrderedOne(trace: seq<Call>, c: Call)
    requires Ordered(trace) && Extends(trace, c)
    ensures Ordered(trace + [c]) && Clock(trace + [c]) == c.now
    ensures SameLimit(trace, c.key, c.limit) ==> SameLimit(trace + [c], c.key, c.limit)
  {
  }

  /** What one call does to the window of a key. */
  lemma OneWindow(window: int, trace: seq<Call>, c: Call, key: string)
    requires Ordered(trace + [c])
    ensures var before, after := PlainAfter(window, trace), PlainAfter(window, trace + [c]);
            && (key in before ==> key in after)
            && (key in after ==>
                  if key in before && after[key].startedAt == before[key].startedAt then true
                  else c.key == key && after[key] == Span(c.now, 1)
                       && (key in before ==> after[key].startedAt >= before[key].startedAt + window as real))
  {
    hide PlainAfter, AllowedTimes, Verdicts, Ceil;
    OneMore(window, trace, c, key);
  }

  lemma {:induction false} PlainApart(window: int, trace: seq<Call>, i: nat, key: string)
    requires Ordered(trace) && window >= 0 && i <= |trace| && key in PlainAfter(window, trace[..i])
    ensures key in PlainAfter(window, trace)
    ensures var a, b := PlainAfter(window, trace[..i])[key].startedAt, PlainAfter(window, trace)[key].startedAt;
            a == b || b >= a + window as real
  {
    hide PlainAfter;
    if i == |trace| {
      assert trace[..i] == trace;
    } else {
      var before, c := trace[..|trace| - 1], trace[|trace| - 1];
      LastOf(trace);
      Split(before, [c]);
      assert before[..i] == trace[..i];
      PlainApart(window, before, i, key);
      OneWindow(window, before, c, key);
    }
  }

  /** The call that opened the window a key has now. */
  lemma {:induction false} PlainOpened(window: int, trace: seq<Call>, key: string) returns (k: nat)
    requires Ordered(trace) && key in PlainAfter(window, trace)
    ensures k < |trace| && trace[k].key == key && trace[k].now == PlainAfter(window, trace)[key].startedAt
    ensures key in PlainAfter(window, trace[..k + 1])
    ensures PlainAfter(window, trace[..k + 1])[key] == Span(trace[k].now, 1)
  {
    hide *;
    if trace == [] {
      Opening(window, Call(key, 1, 0.0));
      assert false;
    } else {
      var before, c := trace[..|trace| - 1], trace[|trace| - 1];
      LastOf(trace);
      Split(before, [c]);
      OneWindow(window, before, c, key);
      if key in PlainAfter(window, before) &&
         PlainAfter(window, trace)[key].startedAt == PlainAfter(window, before)[key].startedAt {
        k := PlainOpened(window, before, key);
        assert before[..k + 1] == trace[..k + 1];
      } else {
        k := |before|;
        assert trace[..k + 1] == trace;
      }
    }
  }

  /** Cleanup included, a window of a key opens with one of its own requests, and two different windows
      of a key, at any two moments of a trace, start at least a window's length apart. */
  lemma WindowsAreApart(window: int, trace: seq<Call>, i: nat, j: nat, key: string) returns (k: nat)
    requires Ordered(trace) && window >= 1 && i <= j <= |trace|
    requires key in After(window, trace[..i]).spans && key in After(window, trace[..j]).spans
    ensures var a, b := After(window, trace[..i]).spans[key].startedAt, After(window, trace[..j]).spans[key].startedAt;
            && (a == b || b >= a + window as real)
            && k < j && trace[k].key == key && trace[k].now == b
    ensures key in After(window, trace[..k + 1]).spans &&
            After(window, trace[..k + 1]).spans[key] == Span(trace[k].now, 1)
  {
    hide After, PlainAfter, Verdicts, PlainVerdicts;
    var late := trace[..j];
    assert late[..i] == trace[..i];
    CleanupIsInvisible(window, trace[..i]);
    CleanupIsInvisible(window, late);
    PlainApart(window, late, i, key);
    k := PlainOpened(window, late, key);
    assert late[..k + 1] == trace[..k + 1];
    CleanupIsInvisible(window, trace[..k + 1]);
    JustOpened(window, trace[..k + 1], key);
  }

  /** A window that was just opened is not forgotten. */
  lemma JustOpened(window: int, trace: seq<Call>, key: string)
    requires window >= 1 && trace != [] &&
             Forgets(window, After(window, trace).spans, PlainAfter(window, trace), Clock(trace))
    requires key in PlainAfter(window, trace) && PlainAfter(window, trace)[key].startedAt == Clock(trace)
    ensures key in After(window, trace).spans && After(window, trace).spans[key] == PlainAfter(window, trace)[key]
  {
    hide After, PlainAfter;
  }

  /** The first of a burst opens a window. */
  lemma OpeningBurst(window: int, trace: seq<Call>, c: Call, n: nat, x: real, y: real)
    requires window >= 1 && Ordered(trace) && Extends(trace, c) && c.limit >= n + 1
    requires c.key in PlainAfter(window, trace) ==> c.now - PlainAfter(window, trace)[c.key].startedAt >= window as real
    ensures var more := trace + [c] + Repeat(n, c);
            && Ordered(more) && Extends(more, c)
            && (SameLimit(trace, c.key, c.limit) ==> SameLimit(more, c.key, c.limit))
            && c.key in PlainAfter(window, more) && PlainAfter(window, more)[c.key] == Span(c.now, n + 1)
            && Within(AllowedTimes(window, more, c.key), x, y) ==
               Within(AllowedTimes(window, trace, c.key), x, y) + (if x <= c.now < y then n + 1 else 0)
    decreases n
  {
    OrderedOne(trace, c);
    OneMore(window, trace, c, c.key);
    WithinMore(AllowedTimes(window, trace, c.key), c.now, x, y);
    hide PlainAfter, AllowedTimes, Within, Ceil, Verdicts, Ordered, SameLimit;
    OrderedMore(trace + [c], n, c);
    if x <= c.now < y {
      Burst(window, trace + [c], c, n, Span(c.now, 1), x, y);
    } else {
      Burst(window, trace + [c], c, n, Span(c.now, 1), c.now, c.now + 1.0);
      Outside(window, trace + [c], c, n, x, y);
    }
  }

  lemma {:induction false} Outside(window: int, trace: seq<Call>, c: Call, n: nat, x: real, y: real)
    requires Ordered(trace + Repeat(n, c)) && !(x <= c.now < y)
    ensures Within(AllowedTimes(window, trace + Repeat(n, c), c.key), x, y) ==
            Within(AllowedTimes(window, trace, c.key), x, y)
  {
    hide *;
    if n == 0 {
      NoBurst(trace, c);
    } else {
      var more := trace + Repeat(n - 1, c);
      LastOfBurst(trace, n, c);
      Split(more, [c]);
      Outside(window, trace, c, n - 1, x, y);
      OneMore(window, more, c, c.key);
      WithinMore(AllowedTimes(window, more, c.key), c.now, x, y);
      assert AllowedTimes(window, more, c.key) + [] == AllowedTimes(window, more, c.key);
    }
  }

  /** Three bursts around a window's length. */
  lemma ThreeBursts(window: int, key: string, limit: int, x: real, w: real, y: real) returns (trace: seq<Call>)
    requires window >= 1 && limit >= 1 && w == window as real && 0.0 < x < w < y
    ensures Ordered(trace) && SameLimit(trace, key, limit)
    ensures Within(AllowedTimes(window, trace, key), x, y) == 2 * limit - 1
  {
    var first, middle, last := Call(key, limit, 0.0), Call(key, limit, x), Call(key, limit, w);
    Opening(window, first);
    hide PlainAfter, AllowedTimes, Within, Ceil, Verdicts, Repeat;
    OpeningBurst(window, [], first, 0, x, y);
    var t1 := [] + [first] + Repeat(0, first);
    ClockOf(t1, first, middle);
    OrderedMore(t1, limit - 1, middle);
    hide Ordered, SameLimit, Clock;
    Burst(window, t1, middle, limit - 1, Span(0.0, 1), x, y);
    var t2 := t1 + Repeat(limit - 1, middle);
    ClockOf(t2, middle, last);
    OpeningBurst(window, t2, last, limit - 1, x, y);
    trace := t2 + [last] + Repeat(limit - 1, last);
  }

  lemma ClockOf(trace: seq<Call>, c: Call, d: Call)
    requires Extends(trace, c) && c.now <= d.now
    ensures Extends(trace, d)
  {
  }

  /** One request at the start of a window, the rest of its allowance halfway through it, and a full
      allowance as soon as it has run out: 2 * limit - 1 requests within one window's length. */
  lemma BoundIsReached(window: int, key: string, limit: int) returns (trace: seq<Call>, x: real)
    requires window >= 1 && limit >= 1
    ensures Ordered(trace) && SameLimit(trace, key, limit)
    ensures Within(AllowedTimes(window, trace, key), x, x + window as real) == 2 * limit - 1
  {
    x := window as real / 2.0;
    trace := ThreeBursts(window, key, limit, x, window as real, x + window as real);
  }

  lemma Opening(window: int, c: Call)
    ensures PlainAfter(window, []) == map[] && AllowedTimes(window, [], c.key) == []
    ensures forall x, y :: Within([], x, y) == 0
    ensures Ordered([]) && SameLimit([], c.key, c.limit)
  {
  }

  // ----- denials ----------------------------------------------------------------------------

  function LaterThan(times: seq<real>, x: real): nat {
    if times == [] then 0
    else
      var last := times[|times| - 1];
      LaterThan(times[..|times| - 1], x) + if last > x then 1 else 0
  }

  lemma LaterMore(times: seq<real>, t: real, x: real)
    ensures LaterThan(times + [t], x) == LaterThan(times, x) + if t > x then 1 else 0
  {
    assert (times + [t])[..|times|] == times;
  }

  lemma {:induction false} OpenedBefore(window: int, trace: seq<Call>, key: string)
    requires Ordered(trace)
    ensures key in PlainAfter(window, trace) ==>
              trace != [] && PlainAfter(window, trace)[key].startedAt <= Clock(trace) &&
              PlainAfter(window, trace)[key].requests >= 1
  {
    if trace != [] {
      OpenedBefore(window, trace[..|trace| - 1], key);
    }
  }

  lemma SpentStep(window: int, plain: map<string, Span>, key: string, limit: int, x: real, n: int, c: Call)
    requires limit >= 1 && (c.key == key ==> c.limit == limit)
    requires key in plain ==>
               plain[key].startedAt <= c.now && (plain[key].startedAt > x ==> n >= Min(plain[key].requests, limit))
    requires n >= 0
    ensures var (after, verdict) := Plain(window, plain, c.key, c.limit, c.now);
            key in after && after[key].startedAt > x ==>
              n + (if c.key == key && verdict.allowed && c.now > x then 1 else 0) >= Min(after[key].requests, limit)
  {
    hide Ceil;
  }

  /** A window that has seen r requests has let min(r, limit) of them through since it opened. */
  lemma {:induction false} Spent(window: int, trace: seq<Call>, key: string, limit: int, x: real)
    requires Ordered(trace) && window >= 1 && limit >= 1 && SameLimit(trace, key, limit)
    ensures key in PlainAfter(window, trace) && PlainAfter(window, trace)[key].startedAt > x ==>
              LaterThan(AllowedTimes(window, trace, key), x) >= Min(PlainAfter(window, trace)[key].requests, limit)
  {
    hide *;
    if trace == [] {
      Opening(window, Call(key, limit, x));
    } else {
      var before, c := trace[..|trace| - 1], trace[|trace| - 1];
      LastOf(trace);
      Split(before, [c]);
      SplitLimit(before, c, key, limit);
      Spent(window, before, key, limit, x);
      OpenedBefore(window, before, key);
      OneMore(window, before, c, key);
      var times := AllowedTimes(window, before, key);
      LaterMore(times, c.now, x);
      assert times + [] == times;
      SpentStep(window, PlainAfter(window, before), key, limit, x, LaterThan(times, x), c);
    }
  }

  lemma SplitLimit(trace: seq<Call>, c: Call, key: string, limit: int)
    requires SameLimit(trace + [c], key, limit)
    ensures SameLimit(trace, key, limit) && (c.key == key ==> c.limit == limit)
  {
    assert (trace + [c])[|trace|] == c;
    forall i | 0 <= i < |trace| && trace[i].key == key
      ensures trace[i].limit == limit
    {
      assert (trace + [c])[i] == trace[i];
    }
  }

  /** A request is denied only when at least `limit` requests of its key were allowed less than a
      window ago. */
  lemma DeniedOnlyWhenSpent(window: int, trace: seq<Call>, key: string, limit: int)
    requires Ordered(trace) && window >= 1 && limit >= 1 && SameLimit(trace, key, limit)
    requires trace != [] && trace[|trace| - 1].key == key && !Verdicts(window, trace)[|trace| - 1].allowed
    ensures LaterThan(AllowedTimes(window, trace[..|trace| - 1], key), Clock(trace) - window as real) >= limit
  {
    var before, c := trace[..|trace| - 1], trace[|trace| - 1];
    assert before + [c] == trace;
    Split(before, [c]);
    hide Ordered;
    OneMore(window, before, c, key);
    Spent(window, before, key, limit, c.now - window as real);
    hide PlainAfter, AllowedTimes, LaterThan, Ceil, Verdicts;
  }

  lemma CeilBounds(x: real, n: int)
    ensures Ceil(x) as real >= x && Ceil(x) as real < x + 1.0
    ensures x <= n as real ==> Ceil(x) <= n
    ensures x > n as real ==> Ceil(x) > n
  {
  }

  /** The announced wait is at least a second and at most a window. */
  lemma WaitIsSane(window: int, trace: seq<Call>)
    requires Ordered(trace) && window >= 1 && trace != []
    ensures 1 <= Verdicts(window, trace)[|trace| - 1].retryAfter <= window
  {
    var before, c := trace[..|trace| - 1], trace[|trace| - 1];
    assert before + [c] == trace;
    OneMore(window, before, c, c.key);
    OpenedBefore(window, trace, c.key);
    var s := Counted(Current(window, PlainAfter(window, before), c.key, c.now));
    CeilBounds(window as real - (c.now - s.startedAt), window);
    hide Ceil, Verdicts;
  }

  /** Other keys leave a window alone. */
  lemma {:induction false} OthersDoNotMatter(window: int, trace: seq<Call>, rest: seq<Call>, key: string)
    requires Ordered(trace + rest) && forall i | 0 <= i < |rest| :: rest[i].key != key
    ensures key in PlainAfter(window, trace + rest) <==> key in PlainAfter(window, trace)
    ensures key in PlainAfter(window, trace) ==> PlainAfter(window, trace + rest)[key] == PlainAfter(window, trace)[key]
  {
    if rest == [] {
      assert trace + rest == trace;
    } else {
      var init, c := rest[..|rest| - 1], rest[|rest| - 1];
      var most := trace + init;
      assert trace + rest == most + [c];
      Split(most, [c]);
      hide Ordered;
      OthersDoNotMatter(window, trace, init, key);
      OneMore(window, most, c, key);
      hide PlainAfter, AllowedTimes, Ceil, Verdicts;
    }
  }

  /** A key that keeps silent for the announced wait is admitted next. */
  lemma SilenceIsRewarded(window: int, before: seq<Call>, denied: Call, between: seq<Call>, next: Call)
    requires Ordered(before + [denied] + between + [next])
    requires next.key == denied.key && next.limit >= 1 && forall i | 0 <= i < |between| :: between[i].key != denied.key
    requires next.now >= denied.now + Verdicts(window, before + [denied])[|before|].retryAfter as real
    ensures Verdicts(window, before + [denied] + between + [next])[|before| + 1 + |between|].allowed
  {
    hide *;
    var first := before + [denied];
    Split(first + between, [next]);
    Split(first, between);
    Admitted(window, before, denied, between, next);
    assert |first + between| == |before| + 1 + |between|;
  }

  lemma Admitted(window: int, before: seq<Call>, denied: Call, between: seq<Call>, next: Call)
    requires Ordered(before + [denied]) && Ordered(before + [denied] + between)
    requires Ordered(before + [denied] + between + [next])
    requires next.key == denied.key && next.limit >= 1 && forall i | 0 <= i < |between| :: between[i].key != denied.key
    requires next.now >= denied.now + Verdicts(window, before + [denied])[|before|].retryAfter as real
    ensures Verdicts(window, before + [denied] + between + [next])[|before + [denied] + between|].allowed
  {
    hide PlainAfter, AllowedTimes, Verdicts, Plain, Ordered, Ceil;
    var first := before + [denied];
    var most := first + between;
    OneMore(window, before, denied, denied.key);
    OthersDoNotMatter(window, first, between, denied.key);
    OneMore(window, most, next, next.key);
    WaitIsLongEnough(window, PlainAfter(window, before), denied);
    FreshWindow(window, PlainAfter(window, most), next);
  }

  lemma WaitIsLongEnough(window: int, plain: map<string, Span>, c: Call)
    ensures var (after, verdict) := Plain(window, plain, c.key, c.limit, c.now);
            c.key in after && after[c.key].startedAt + window as real <= c.now + verdict.retryAfter as real
  {
    var s := Counted(Current(window, plain, c.key, c.now));
    CeilBounds(window as real - (c.now - s.startedAt), window);
    hide Ceil;
  }

  lemma FreshWindow(window: int, plain: map<string, Span>, c: Call)
    requires c.limit >= 1 && c.key in plain && plain[c.key].startedAt + window as real <= c.now
    ensures Plain(window, plain, c.key, c.limit, c.now).1.allowed
  {
    hide Ceil;
  }

  // ----- the verdict, from the calls alone --------------------------------------------------

  /** How many calls of a key there are. */
  function Calls(trace: seq<Call>, key: string): nat {
    if trace == [] then 0
    else Calls(trace[..|trace| - 1], key) + if trace[|trace| - 1].key == key then 1 else 0
  }

  lemma CallsMore(trace: seq<Call>, c: Call, key: string)
    ensures Calls(trace + [c], key) == Calls(trace, key) + if c.key == key then 1 else 0
  {
    assert (trace + [c])[..|trace|] == trace;
  }

  lemma {:induction false} CallsAdd(a: seq<Call>, b: seq<Call>, key: string)
    ensures Calls(a + b, key) == Calls(a, key) + Calls(b, key)
  {
    if b == [] {
      assert a + b == a;
    } else {
      var init, c := b[..|b| - 1], b[|b| - 1];
      assert a + b == (a + init) + [c] && b == init + [c];
      CallsAdd(a, init, key);
      CallsMore(a + init, c, key);
      CallsMore(init, c, key);
    }
  }

  /** Which call of a key opened the window it is in: a call opens a window when the one before it was
      opened at least `window` seconds ago, or there is none. */
  function Opener(window: int, trace: seq<Call>, key: string): (k: Option<nat>)
    ensures k.Some? ==> k.value < |trace| && trace[k.value].key == key
  {
    if trace == [] then None
    else
      var before, c := trace[..|trace| - 1], trace[|trace| - 1];
      var k := Opener(window, before, key);
      if c.key != key then k
      else if k.Some? && c.now - trace[k.value].now < window as real then k
      else Some(|before|)
  }

  lemma OpenerMore(window: int, trace: seq<Call>, c: Call, key: string)
    ensures Opener(window, trace + [c], key) ==
            var k := Opener(window, trace, key);
            if c.key != key then k
            else if k.Some? && c.now - trace[k.value].now < window as real then k
            else Some(|trace|)
  {
    assert (trace + [c])[..|trace|] == trace;
  }

  /** The window a key has: opened by its opener, and counting its calls since then. */
  ghost predicate Mirrors(window: int, plain: map<string, Span>, trace: seq<Call>, key: string) {
    match Opener(window, trace, key)
    case None => key !in plain
    case Some(k) => key in plain && plain[key] == Span(trace[k].now, Calls(trace[k..], key))
  }

  lemma CallsSince(trace: seq<Call>, c: Call, k: nat, key: string)
    requires k <= |trace|
    ensures Calls((trace + [c])[k..], key) == Calls(trace[k..], key) + if c.key == key then 1 else 0
  {
    assert (trace + [c])[k..] == trace[k..] + [c];
    CallsMore(trace[k..], c, key);
    hide Calls;
  }

  lemma MirrorsStep(window: int, plain: map<string, Span>, trace: seq<Call>, c: Call, key: string)
    requires Mirrors(window, plain, trace, key)
    ensures Mirrors(window, Plain(window, plain, c.key, c.limit, c.now).0, trace + [c], key)
  {
    hide Calls, Opener, Ceil;
    OpenerMore(window, trace, c, key);
    CallsSince(trace, c, |trace|, key);
    NoCalls(trace, key);
    var k := Opener(window, trace, key);
    if k.Some? {
      CallsSince(trace, c, k.value, key);
    }
  }

  lemma NoCalls(trace: seq<Call>, key: string)
    ensures Calls(trace[|trace|..], key) == 0
  {
  }

  lemma {:induction false} Mirrored(window: int, trace: seq<Call>, key: string)
    requires Ordered(trace)
    ensures Mirrors(window, PlainAfter(window, trace), trace, key)
  {
    if trace != [] {
      var before, c := trace[..|trace| - 1], trace[|trace| - 1];
      LastOf(trace);
      Split(before, [c]);
      Mirrored(window, before, key);
      OneMore(window, before, c, key);
      hide Mirrors, PlainAfter, Ordered;
      MirrorsStep(window, PlainAfter(window, before), before, c, key);
    }
  }

  /** Cleanup included, every verdict is read off the calls alone: the call falls into the window of an
      opener less than a window ago; it is allowed when the calls of its key since then, itself
      included, are within its limit; what remains is the rest of the limit; and the wait is the least
      whole number of seconds after which the window has run out. */
  lemma VerdictCountsCalls(window: int, trace: seq<Call>, c: Call) returns (k: nat)
    requires Ordered(trace + [c]) && window >= 1
    ensures Opener(window, trace + [c], c.key) == Some(k) && c.now - (trace + [c])[k].now < window as real
    ensures var n, verdict := Calls((trace + [c])[k..], c.key), Verdicts(window, trace + [c])[|trace|];
            && (verdict.allowed <==> n <= c.limit) && verdict.limit == c.limit
            && verdict.remaining >= 0 && (verdict.allowed ==> verdict.remaining == c.limit - n)
            && (!verdict.allowed ==> verdict.remaining == 0)
    ensures var runsOut := (trace + [c])[k].now + window as real;
            var wait := Verdicts(window, trace + [c])[|trace|].retryAfter;
            c.now + wait as real >= runsOut && c.now + (wait - 1) as real < runsOut
  {
    hide Opener, Calls, PlainAfter, Verdicts, AllowedTimes, Ordered, Ceil;
    Split(trace, [c]);
    OneMore(window, trace, c, c.key);
    Mirrored(window, trace + [c], c.key);
    OpenerMore(window, trace, c, c.key);
    k := Opener(window, trace + [c], c.key).value;
    var s := Counted(Current(window, PlainAfter(window, trace), c.key, c.now));
    CeilBounds(window as real - (c.now - s.startedAt), 0);
  }

  /** Later calls come in the same window until it runs out. */
  lemma {:induction false} OpenerLasts(window: int, trace: seq<Call>, rest: seq<Call>, key: string)
    requires Ordered(trace + rest) && Opener(window, trace, key).Some?
    requires forall i | 0 <= i < |rest| ::
               rest[i].now - trace[Opener(window, trace, key).value].now < window as real
    ensures Opener(window, trace + rest, key) == Opener(window, trace, key)
  {
    if rest == [] {
      assert trace + rest == trace;
    } else {
      var init, c := rest[..|rest| - 1], rest[|rest| - 1];
      assert trace + rest == (trace + init) + [c];
      Split(trace + init, [c]);
      hide Ordered, Opener;
      OpenerLasts(window, trace, init, key);
      OpenerMore(window, trace + init, c, key);
    }
  }

  /** What remains is exactly how many more calls are allowed: as long as the window lasts, a later call
      of the key with the same limit is allowed if and only if fewer of its calls came in between. */
  lemma RemainingIsWhatIsLeft(window: int, before: seq<Call>, first: Call, between: seq<Call>, next: Call)
    requires Ordered(before + [first] + between + [next]) && window >= 1
    requires next.key == first.key && next.limit == first.limit
    requires Opener(window, before + [first] + between + [next], first.key) ==
             Opener(window, before + [first], first.key)
    ensures Verdicts(window, before + [first] + between + [next])[|before| + 1 + |between|].allowed <==>
            Calls(between, first.key) < Verdicts(window, before + [first])[|before|].remaining
  {
    hide Opener, Calls, Verdicts, Ordered;
    var head := before + [first];
    var most := head + between;
    Split(most, [next]);
    Split(head, between);
    var j := VerdictCountsCalls(window, before, first);
    var k := VerdictCountsCalls(window, most, next);
    assert |most| == |before| + 1 + |between|;
    CallsSince(most, next, k, first.key);
    assert most[k..] == head[k..] + between;
    CallsAdd(head[k..], between, first.key);
  }

  /** The announced wait is the least one: a denied key that calls again with the same limit a second or
      more before it has passed is denied again, whoever calls in between. */
  lemma WaitIsLeast(window: int, before: seq<Call>, denied: Call, between: seq<Call>, next: Call)
    requires Ordered(before + [denied] + between + [next]) && window >= 1
    requires next.key == denied.key && next.limit == denied.limit
    requires !Verdicts(window, before + [denied])[|before|].allowed
    requires next.now <= denied.now + (Verdicts(window, before + [denied])[|before|].retryAfter - 1) as real
    ensures !Verdicts(window, before + [denied] + between + [next])[|before| + 1 + |between|].allowed
  {
    hide *;
    var head := before + [denied];
    Split(head + between, [next]);
    Split(head, between);
    assert head + (between + [next]) == head + between + [next];
    NotLater(head, between, next);
    var k := VerdictCountsCalls(window, before, denied);
    OpenerLasts(window, head, between + [next], denied.key);
    RemainingIsWhatIsLeft(window, before, denied, between, next);
  }

  lemma NotLater(head: seq<Call>, between: seq<Call>, next: Call)
    requires Ordered(head + between + [next])
    ensures forall i | 0 <= i < |between + [next]| :: (between + [next])[i].now <= next.now
  {
    var all := head + between + [next];
    forall i | 0 <= i < |between + [next]|
      ensures (between + [next])[i].now <= next.now
    {
      assert all[|head| + i] == (between + [next])[i] && all[|all| - 1] == next;
    }
  }

  // ----- when cleanup happens ---------------------------------------------------------------

  lemma {:induction false} CleanupCounter(window: int, trace: seq<Call>)
    ensures After(window, trace).sinceCleanup == |trace| % 1000
  {
    if trace != [] {
      CleanupCounter(window, trace[..|trace| - 1]);
      hide Recent, Current, Ceil;
    }
  }

  /** Exactly every thousandth call forgets, and it forgets exactly the windows of other keys that have
      run out. */
  lemma CleanupIsPeriodic(window: int, trace: seq<Call>, c: Call)
    ensures var before, after := After(window, trace).spans, After(window, trace + [c]).spans;
            forall key | key != c.key ::
              && (key in after <==>
                    key in before && (|trace| % 1000 == 999 ==> c.now - before[key].startedAt < window as real))
              && (key in after ==> after[key] == before[key])
  {
    CleanupCounter(window, trace);
    assert (trace + [c])[..|trace|] == trace;
    var s := After(window, trace);
    assert After(window, trace + [c]) == Consumed(window, s, c.key, c.limit, c.now).0;
    hide After, Ceil, Current;
  }
}
