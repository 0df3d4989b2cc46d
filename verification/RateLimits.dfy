/** The process-wide fixed-window rate limiter, over whole traces of timed calls. */
module RateLimits {

  // Instants and durations in nanoseconds.
  const SECOND: nat := 1_000_000_000
  const WINDOW: nat := 60 * SECOND

  datatype Decision = Allowed | Limited(retryAfter: nat)

  datatype Window = Window(startedAt: nat, count: nat)

  /** Whole seconds to the end of the window, rounded down, but at least one. */
  function RetryAfter(elapsed: nat): (seconds: nat)
    requires elapsed < WINDOW
    ensures 1 <= seconds <= 60
  {
    if (WINDOW - elapsed) / SECOND >= 1 then (WINDOW - elapsed) / SECOND else 1
  }

  /** A window at least sixty seconds old is replaced by an empty one. */
  function Rolled(w: Window, now: nat): Window
    requires w.startedAt <= now
  {
    if now - w.startedAt >= WINDOW then Window(now, 0) else w
  }

  function CheckAt(limit: nat, w: Window, now: nat): (Window, Decision)
    requires w.startedAt <= now
  {
    if limit == 0 then (w, Allowed)
    else
      var current := Rolled(w, now);
      if current.count >= limit then (current, Limited(RetryAfter(now - current.startedAt)))
      else (current.(count := current.count + 1), Allowed)
  }

  class RateLimiter {
    const limit: nat
    var startedAt: nat
    var count: nat

    constructor (limit: nat, now: nat)
      ensures this.limit == limit && State() == Window(now, 0)
    {
      this.limit := limit;
      startedAt, count := now, 0;
    }

    function State(): Window
      reads this
    {
      Window(startedAt, count)
    }

    /** Clock readings never go back, as the monotonic clock guarantees. */
    method Check(now: nat) returns (decision: Decision)
      requires startedAt <= now
      modifies this
      ensures (State(), decision) == CheckAt(limit, old(State()), now)
    {
      if limit == 0 {
        return Allowed;
      }
      var elapsed := now - startedAt;
      if elapsed >= WINDOW {
        startedAt := now;
        count := 0;
      }
      if count >= limit {
        var remaining := WINDOW - (now - startedAt);
        var seconds := remaining / SECOND;
        return Limited(if seconds >= 1 then seconds else 1);
      }
      count := count + 1;
      decision := Allowed;
    }
  }

  // ----- traces -----

  predicate Ordered(created: nat, times: seq<nat>) {
    && (forall i :: 0 <= i < |times| ==> created <= times[i])
    && (forall i, j :: 0 <= i < j < |times| ==> times[i] <= times[j])
  }

  /** The window after a series of calls, and the instants of the calls it admitted. */
  function After(limit: nat, created: nat, times: seq<nat>): (state: (Window, seq<nat>))
    requires Ordered(created, times)
    ensures state.0.startedAt <= (if times == [] then created else times[|times| - 1])
  {
    if times == [] then (Window(created, 0), [])
    else
      var n := |times| - 1;
      var (w, admitted) := After(limit, created, times[..n]);
      var (w', decision) := CheckAt(limit, w, times[n]);
      (w', if decision.Allowed? then admitted + [times[n]] else admitted)
  }

  function AtLeast(admitted: seq<nat>, from: nat): nat {
    if admitted == [] then 0
    else AtLeast(admitted[..|admitted| - 1], from) + (if admitted[|admitted| - 1] >= from then 1 else 0)
  }

  /** How many admitted calls fall in `[from, to)`. */
  function AdmittedIn(admitted: seq<nat>, from: nat, to: nat): nat {
    if admitted == [] then 0
    else
      AdmittedIn(admitted[..|admitted| - 1], from, to)
      + (if from <= admitted[|admitted| - 1] < to then 1 else 0)
  }

  lemma {:induction false} AdmittedInDifference(admitted: seq<nat>, from: nat, to: nat)
    requires from <= to
    ensures AdmittedIn(admitted, from, to) == AtLeast(admitted, from) - AtLeast(admitted, to)
  {
    if admitted != [] {
      AdmittedInDifference(admitted[..|admitted| - 1], from, to);
    }
  }

  lemma {:induction false} AtLeastMonotone(admitted: seq<nat>, from: nat, to: nat)
    requires from <= to
    ensures AtLeast(admitted, to) <= AtLeast(admitted, from)
  {
    if admitted != [] {
      AtLeastMonotone(admitted[..|admitted| - 1], from, to);
    }
  }

  lemma {:induction false} AtLeastNone(admitted: seq<nat>, from: nat)
    requires forall i :: 0 <= i < |admitted| ==> admitted[i] < from
    ensures AtLeast(admitted, from) == 0
  {
    if admitted != [] {
      AtLeastNone(admitted[..|admitted| - 1], from);
    }
  }

  lemma AtLeastSnoc(admitted: seq<nat>, t: nat, from: nat)
    ensures AtLeast(admitted + [t], from) == AtLeast(admitted, from) + (if t >= from then 1 else 0)
  {
    assert (admitted + [t])[..|admitted|] == admitted;
  }

  /** What the limiter's two fields mean for the calls admitted so far. */
  ghost predicate WindowInv(limit: nat, w: Window, admitted: seq<nat>) {
    && w.count <= limit
    // The count is exactly the admissions since the window opened.
    && AtLeast(admitted, w.startedAt) == w.count
    && (forall i :: 0 <= i < |admitted| ==> admitted[i] < w.startedAt + WINDOW)
    // The sixty seconds before the window opened saw at most one window's worth.
    && (forall from: nat :: from <= w.startedAt <= from + WINDOW ==>
          AtLeast(admitted, from) - AtLeast(admitted, w.startedAt) <= limit)
    && (forall from: nat :: AtLeast(admitted, from) - AtLeast(admitted, from + WINDOW) <= 2 * limit)
  }

  /** Opening a new window with its first call. */
  lemma NewWindowKeepsInv(limit: nat, w: Window, admitted: seq<nat>, now: nat)
    requires limit > 0 && WindowInv(limit, w, admitted) && now >= w.startedAt + WINDOW
    ensures WindowInv(limit, Window(now, 1), admitted + [now])
  {
    var longer := admitted + [now];
    AtLeastNone(admitted, now);
    AtLeastSnoc(admitted, now, now);
    forall from: nat | from <= now <= from + WINDOW
      ensures AtLeast(longer, from) - AtLeast(longer, now) <= limit
    {
      AtLeastSnoc(admitted, now, from);
      AtLeastMonotone(admitted, w.startedAt, from);
    }
    forall from: nat
      ensures AtLeast(longer, from) - AtLeast(longer, from + WINDOW) <= 2 * limit
    {
      AtLeastSnoc(admitted, now, from);
      AtLeastSnoc(admitted, now, from + WINDOW);
      if from <= now < from + WINDOW {
        AtLeastMonotone(admitted, w.startedAt, from);
      } else {
        assert AtLeast(admitted, from) - AtLeast(admitted, from + WINDOW) <= 2 * limit;
      }
    }
  }

  /** One more call in the current window. */
  lemma SameWindowKeepsInv(limit: nat, w: Window, admitted: seq<nat>, now: nat)
    requires WindowInv(limit, w, admitted) && w.startedAt <= now < w.startedAt + WINDOW && w.count < limit
    ensures WindowInv(limit, w.(count := w.count + 1), admitted + [now])
  {
    var longer := admitted + [now];
    var s := w.startedAt;
    AtLeastSnoc(admitted, now, s);
    forall from: nat | from <= s <= from + WINDOW
      ensures AtLeast(longer, from) - AtLeast(longer, s) <= limit
    {
      AtLeastSnoc(admitted, now, from);
      assert AtLeast(admitted, from) - AtLeast(admitted, s) <= limit;
    }
    forall from: nat
      ensures AtLeast(longer, from) - AtLeast(longer, from + WINDOW) <= 2 * limit
    {
      AtLeastSnoc(admitted, now, from);
      AtLeastSnoc(admitted, now, from + WINDOW);
      assert AtLeast(admitted, from) - AtLeast(admitted, from + WINDOW) <= 2 * limit;
      if from <= now < from + WINDOW {
        if from >= s {
          AtLeastMonotone(admitted, s, from);
        } else {
          assert AtLeast(admitted, from) - AtLeast(admitted, s) <= limit;
        }
      }
    }
  }

  lemma EmptyWindowInv(limit: nat, created: nat)
    ensures WindowInv(limit, Window(created, 0), [])
  {
  }

  lemma CheckCases(limit: nat, w: Window, now: nat)
    requires limit > 0 && w.startedAt <= now
    ensures now >= w.startedAt + WINDOW ==> CheckAt(limit, w, now) == (Window(now, 1), Allowed)
    ensures now < w.startedAt + WINDOW && w.count < limit ==>
              CheckAt(limit, w, now) == (w.(count := w.count + 1), Allowed)
    ensures now < w.startedAt + WINDOW && w.count >= limit ==>
              CheckAt(limit, w, now).0 == w && CheckAt(limit, w, now).1.Limited?
  {
  }

  /** A refused call changes nothing that matters. */
  lemma CheckKeepsInv(limit: nat, w: Window, admitted: seq<nat>, now: nat)
    requires limit > 0 && WindowInv(limit, w, admitted) && w.startedAt <= now
    ensures CheckAt(limit, w, now).1.Allowed? ==> WindowInv(limit, CheckAt(limit, w, now).0, admitted + [now])
    ensures CheckAt(limit, w, now).1.Limited? ==> WindowInv(limit, CheckAt(limit, w, now).0, admitted)
  {
    CheckCases(limit, w, now);
    if now >= w.startedAt + WINDOW {
      NewWindowKeepsInv(limit, w, admitted, now);
    } else if w.count < limit {
      SameWindowKeepsInv(limit, w, admitted, now);
    }
  }

  lemma {:induction false} TraceInv(limit: nat, created: nat, times: seq<nat>)
    requires limit > 0 && Ordered(created, times)
    ensures WindowInv(limit, After(limit, created, times).0, After(limit, created, times).1)
  {
    if times == [] {
      EmptyWindowInv(limit, created);
    } else {
      var n := |times| - 1;
      TraceInv(limit, created, times[..n]);
      var (w, admitted) := After(limit, created, times[..n]);
      CheckKeepsInv(limit, w, admitted, times[n]);
    }
  }

  /** Over any trace, no sixty-second interval sees more than twice the limit. */
  lemma AtMostTwiceTheLimit(limit: nat, created: nat, times: seq<nat>, from: nat)
    requires limit > 0 && Ordered(created, times)
    ensures AdmittedIn(After(limit, created, times).1, from, from + WINDOW) <= 2 * limit
  {
    TraceInv(limit, created, times);
    AdmittedInDifference(After(limit, created, times).1, from, from + WINDOW);
  }

  /** The current window has admitted exactly `count` calls, never more than the limit. */
  lemma WindowCount(limit: nat, created: nat, times: seq<nat>)
    requires limit > 0 && Ordered(created, times)
    ensures var (w, admitted) := After(limit, created, times);
            AdmittedIn(admitted, w.startedAt, w.startedAt + WINDOW) == w.count <= limit
  {
    TraceInv(limit, created, times);
    var (w, admitted) := After(limit, created, times);
    AdmittedInDifference(admitted, w.startedAt, w.startedAt + WINDOW);
    AtLeastNone(admitted, w.startedAt + WINDOW);
  }

  /** The window open before call `k`, or after the last call. */
  function OpenAt(limit: nat, created: nat, times: seq<nat>, k: nat): nat
    requires Ordered(created, times) && k <= |times|
  {
    After(limit, created, times[..k]).0.startedAt
  }

  /** An interval inside which no window opens admits at most the limit. */
  lemma {:induction false} NoOpeningInside(limit: nat, created: nat, times: seq<nat>, from: nat)
    requires limit > 0 && Ordered(created, times)
    requires forall k :: 0 <= k <= |times| ==>
               OpenAt(limit, created, times, k) <= from || from + WINDOW <= OpenAt(limit, created, times, k)
    ensures AdmittedIn(After(limit, created, times).1, from, from + WINDOW) <= limit
  {
    var (w, admitted) := After(limit, created, times);
    assert times[..|times|] == times;
    assert OpenAt(limit, created, times, |times|) == w.startedAt;
    if w.startedAt <= from {
      TraceInv(limit, created, times);
      AdmittedInDifference(admitted, from, from + WINDOW);
      AtLeastMonotone(admitted, w.startedAt, from);
    } else if times != [] {
      var n := |times| - 1;
      var front := times[..n];
      forall k | 0 <= k <= n
        ensures OpenAt(limit, created, front, k) == OpenAt(limit, created, times, k)
      {
        assert front[..k] == times[..k];
      }
      NoOpeningInside(limit, created, front, from);
    }
  }

  /** A call is refused exactly when the current window is still open and has admitted its full limit. */
  lemma LimitedExactly(limit: nat, created: nat, times: seq<nat>, now: nat)
    requires limit > 0 && Ordered(created, times + [now])
    ensures Ordered(created, times)
    ensures var (w, admitted) := After(limit, created, times);
            && w.startedAt <= now
            && (CheckAt(limit, w, now).1.Limited? <==>
                  now < w.startedAt + WINDOW && AdmittedIn(admitted, w.startedAt, w.startedAt + WINDOW) == limit)
  {
    var longer := times + [now];
    assert forall i :: 0 <= i < |times| ==> longer[i] == times[i];
    assert longer[|times|] == now;
    WindowCount(limit, created, times);
  }

  // ----- the bound is tight -----

  function Repeat(t: nat, n: nat): seq<nat> {
    seq(n, _ => t)
  }

  lemma RepeatSnoc(t: nat, n: nat)
    requires n > 0
    ensures Repeat(t, n)[..n - 1] == Repeat(t, n - 1) && Repeat(t, n)[n - 1] == t
  {
  }

  lemma {:induction false} AtLeastRepeat(t: nat, n: nat, from: nat)
    ensures AtLeast(Repeat(t, n), from) == if t >= from then n else 0
  {
    if n > 0 {
      RepeatSnoc(t, n);
      AtLeastRepeat(t, n - 1, from);
    }
  }

  /** One more call on a trace whose window is known. */
  lemma AfterSnoc(limit: nat, created: nat, times: seq<nat>, now: nat)
    requires Ordered(created, times) && Ordered(created, times + [now])
    ensures var (w, admitted) := After(limit, created, times);
            && w.startedAt <= now
            && var (w', decision) := CheckAt(limit, w, now);
               After(limit, created, times + [now]) == (w', if decision.Allowed? then admitted + [now] else admitted)
  {
    var longer := times + [now];
    assert longer[..|longer| - 1] == times && longer[|times|] == now;
    assert times != [] ==> longer[|times| - 1] == times[|times| - 1];
  }

  lemma {:induction false} FirstBurst(limit: nat, n: nat)
    requires 0 < limit && n <= limit
    ensures Ordered(0, Repeat(WINDOW - 1, n))
    ensures After(limit, 0, Repeat(WINDOW - 1, n)) == (Window(0, n), Repeat(WINDOW - 1, n))
  {
    if n > 0 {
      FirstBurst(limit, n - 1);
      assert Repeat(WINDOW - 1, n - 1) + [WINDOW - 1] == Repeat(WINDOW - 1, n);
      AfterSnoc(limit, 0, Repeat(WINDOW - 1, n - 1), WINDOW - 1);
    }
  }

  /** `limit` calls in the last nanosecond of a window, and `n` at the opening of the next. */
  function TwoBursts(limit: nat, n: nat): (times: seq<nat>)
    ensures Ordered(0, times)
  {
    Repeat(WINDOW - 1, limit) + Repeat(WINDOW, n)
  }

  function SecondBurstWindow(limit: nat, n: nat): Window {
    if n == 0 then Window(0, limit) else Window(WINDOW, n)
  }

  lemma SecondBurstCall(limit: nat, n: nat)
    requires n < limit
    ensures CheckAt(limit, SecondBurstWindow(limit, n), WINDOW) == (SecondBurstWindow(limit, n + 1), Allowed)
  {
  }

  lemma TwoBurstsSnoc(limit: nat, n: nat)
    ensures TwoBursts(limit, n + 1) == TwoBursts(limit, n) + [WINDOW]
  {
    assert Repeat(WINDOW, n + 1) == Repeat(WINDOW, n) + [WINDOW];
  }

  lemma {:induction false} SecondBurst(limit: nat, n: nat)
    requires 0 < limit && n <= limit
    ensures After(limit, 0, TwoBursts(limit, n)) == (SecondBurstWindow(limit, n), TwoBursts(limit, n))
  {
    if n == 0 {
      FirstBurst(limit, limit);
      assert TwoBursts(limit, 0) == Repeat(WINDOW - 1, limit);
    } else {
      SecondBurst(limit, n - 1);
      TwoBurstsSnoc(limit, n - 1);
      SecondBurstCall(limit, n - 1);
      AfterSnoc(limit, 0, TwoBursts(limit, n - 1), WINDOW);
    }
  }

  lemma {:induction false} AtLeastConcat(a: seq<nat>, b: seq<nat>, from: nat)
    ensures AtLeast(a + b, from) == AtLeast(a, from) + AtLeast(b, from)
  {
    if b == [] {
      assert a + b == a;
    } else {
      assert (a + b)[..|a + b| - 1] == a + b[..|b| - 1];
      AtLeastConcat(a, b[..|b| - 1], from);
    }
  }

  /** For every limit some trace admits twice the limit within sixty seconds. */
  lemma TwiceTheLimitReached(limit: nat)
    requires limit > 0
    ensures Ordered(0, TwoBursts(limit, limit))
    ensures AdmittedIn(After(limit, 0, TwoBursts(limit, limit)).1, WINDOW - 1, WINDOW - 1 + WINDOW) == 2 * limit
  {
    SecondBurst(limit, limit);
    var times := TwoBursts(limit, limit);
    AdmittedInDifference(times, WINDOW - 1, WINDOW - 1 + WINDOW);
    AtLeastConcat(Repeat(WINDOW - 1, limit), Repeat(WINDOW, limit), WINDOW - 1);
    AtLeastConcat(Repeat(WINDOW - 1, limit), Repeat(WINDOW, limit), WINDOW - 1 + WINDOW);
    AtLeastRepeat(WINDOW - 1, limit, WINDOW - 1);
    AtLeastRepeat(WINDOW, limit, WINDOW - 1);
    AtLeastRepeat(WINDOW - 1, limit, WINDOW - 1 + WINDOW);
    AtLeastRepeat(WINDOW, limit, WINDOW - 1 + WINDOW);
  }

  // ----- waiting as told -----

  /**
   * The advertised wait is rounded down, so waiting exactly that long helps if and
   * only if the rest of the window is a whole number of seconds or under one second.
   */
  lemma RetryAfterSufficesIff(limit: nat, w: Window, now: nat)
    requires limit > 0 && w.startedAt <= now && CheckAt(limit, w, now).1.Limited?
    ensures var (w', decision) := CheckAt(limit, w, now);
            var rest := w'.startedAt + WINDOW - now;
            CheckAt(limit, w', now + decision.retryAfter * SECOND).1.Allowed?
            <==> rest % SECOND == 0 || rest < SECOND
  {
  }

  /**
   * A wait that is too short: with a limit of one, a call half a second into the window
   * is told to wait 59 seconds, and refused again half a second before the window ends.
   */
  lemma RetryAfterTooShort()
    ensures Ordered(0, [0]) && After(1, 0, [0]).0 == Window(0, 1)
    ensures CheckAt(1, Window(0, 1), SECOND / 2).1 == Limited(59)
    ensures CheckAt(1, Window(0, 1), SECOND / 2 + 59 * SECOND).1.Limited?
  {
    assert [0][..0] == [];
  }

  /** One second more always helps, if nobody else calls meanwhile. */
  lemma OneSecondMoreSuffices(limit: nat, w: Window, now: nat)
    requires limit > 0 && w.startedAt <= now && CheckAt(limit, w, now).1.Limited?
    ensures var (w', decision) := CheckAt(limit, w, now);
            CheckAt(limit, w', now + (decision.retryAfter + 1) * SECOND).1.Allowed?
  {
  }

  /** The advertised wait: the whole seconds left, but at least one. */
  lemma RetryAfterMeaning(limit: nat, w: Window, now: nat)
    requires limit > 0 && w.startedAt <= now && CheckAt(limit, w, now).1.Limited?
    ensures var (w', decision) := CheckAt(limit, w, now);
            var rest := w'.startedAt + WINDOW - now;
            && 0 < rest <= WINDOW
            && (rest >= SECOND ==> decision.retryAfter * SECOND <= rest < (decision.retryAfter + 1) * SECOND)
            && (rest < SECOND ==> decision.retryAfter == 1)
  {
  }

  /** A limit of zero switches the limiter off: every call of every trace is admitted. */
  lemma {:induction false} ZeroLimitAdmitsAll(created: nat, times: seq<nat>)
    requires Ordered(created, times)
    ensures After(0, created, times).1 == times
  {
    if times != [] {
      var n := |times| - 1;
      ZeroLimitAdmitsAll(created, times[..n]);
      assert times == times[..n] + [times[n]];
    }
  }
}
