/**
 The request counter of app/services/rate_limit.py: a Redis key incremented on every
 call, with an expiry set by the call that creates it.
 */
module RateLimit {
  import opened Wrappers

  /** Calls arrive, and Redis expires keys, at a grain of milliseconds. */
  const TICKS_PER_SECOND := 1000

  function Window(windowSeconds: int): int {
    windowSeconds * TICKS_PER_SECOND
  }

  /** A stored counter; without an expiry it lives for ever. */
  datatype Counter = Counter(value: nat, expiry: Option<int>)

  type Key = Option<Counter>

  predicate Alive(key: Key, now: int) {
    key.Some? && (key.value.expiry.Some? ==> now < key.value.expiry.value)
  }

  /** INCR, then EXPIRE when the counter is new.  `expires` says whether the expiry
      takes effect: it does not on the in-memory fallback, nor when the process
      stops between the two commands. */
  function Incremented(key: Key, now: int, window: int, expires: bool): Counter {
    var counter := if Alive(key, now) then key.value else Counter(0, None);
    var value := counter.value + 1;
    Counter(value, if value == 1 && expires then Some(now + window) else counter.expiry)
  }

  class RateLimiter {
    var key: Key
    const honoursExpire: bool

    constructor (honoursExpire: bool)
      ensures key == None && this.honoursExpire == honoursExpire
    {
      key := None;
      this.honoursExpire := honoursExpire;
    }

    /** False is the "too many requests" exception. */
    method Check(up: bool, now: int, maxAttempts: int, windowSeconds: int) returns (pass: bool)
      modifies this
      ensures !up ==> pass && key == old(key)
      ensures up ==> key == Some(Incremented(old(key), now, Window(windowSeconds), honoursExpire))
      ensures up ==> (pass <==> key.value.value <= maxAttempts)
    {
      if !up {
        return true;
      }
      if !Alive(key, now) {
        key := Some(Counter(0, None));
      }
      var current := key.value.value + 1;
      key := Some(key.value.(value := current));
      if current == 1 && honoursExpire {
        key := Some(key.value.(expiry := Some(now + Window(windowSeconds))));
      }
      return current <= maxAttempts;
    }
  }

  // ---- Runs with a working expiry ----------------------------------------

  /** The counter after the calls at these times, on a key that starts absent. */
  function After(times: seq<int>, window: int): Key {
    if times == [] then None
    else Some(Incremented(After(times[..|times| - 1], window), times[|times| - 1], window, true))
  }

  ghost predicate Sorted(times: seq<int>) {
    forall i, j | 0 <= i < j < |times| :: times[i] <= times[j]
  }

  /** The counter value call i sees. */
  function Ordinal(times: seq<int>, window: int, i: nat): nat
    requires i < |times|
  {
    After(times[..i + 1], window).value.value
  }

  /** The time at which the counter of call i was created. */
  function Opened(times: seq<int>, window: int, i: nat): int
    requires i < |times|
  {
    match After(times[..i + 1], window).value.expiry
    case Some(e) => e - window
    case None => times[i]
  }

  lemma StepFacts(times: seq<int>, window: int, i: nat)
    requires window > 0 && Sorted(times) && i < |times|
    ensures After(times[..i + 1], window).value.expiry == Some(Opened(times, window, i) + window)
    ensures Opened(times, window, i) <= times[i] < Opened(times, window, i) + window
    ensures Ordinal(times, window, i) >= 1
    ensures Ordinal(times, window, i) == 1 ==> Opened(times, window, i) == times[i]
    ensures i > 0 ==>
      if times[i] < Opened(times, window, i - 1) + window
      then Opened(times, window, i) == Opened(times, window, i - 1)
           && Ordinal(times, window, i) == Ordinal(times, window, i - 1) + 1
      else Opened(times, window, i) == times[i] && Ordinal(times, window, i) == 1
    decreases i
  {
    assert times[..i + 1][..i] == times[..i];
    if i > 0 {
      StepFacts(times, window, i - 1);
    }
  }

  /** Two calls share a counter, and the later sees a larger value, or their counters
      were created at least a window apart. */
  lemma {:induction false} WindowsAreApart(times: seq<int>, window: int, i: nat, j: nat)
    requires window > 0 && Sorted(times) && i < j < |times|
    ensures
      || (Opened(times, window, i) == Opened(times, window, j) && Ordinal(times, window, i) < Ordinal(times, window, j))
      || Opened(times, window, i) + window <= Opened(times, window, j)
    decreases j
  {
    StepFacts(times, window, j);
    StepFacts(times, window, j - 1);
    if i < j - 1 {
      WindowsAreApart(times, window, i, j - 1);
    }
  }

  function Passed(times: seq<int>, window: int, maxAttempts: int, a: int): set<nat> {
    set i: nat | i < |times| && a <= times[i] < a + window && Ordinal(times, window, i) <= maxAttempts
  }

  lemma {:induction false} PigeonHole(s: set<nat>, code: map<nat, nat>, n: nat)
    requires s <= code.Keys
    requires forall i | i in s :: code[i] < n
    requires forall i, j | i in s && j in s && i != j :: code[i] != code[j]
    ensures |s| <= n
    decreases n
  {
    if n == 0 {
      assert s == {};
    } else if i :| i in s && code[i] == n - 1 {
      PigeonHole(s - {i}, code, n - 1);
    } else {
      PigeonHole(s, code, n - 1);
    }
  }

  /** Calls of the counter that was open before the interval come first; they lack
      the call that created it. */
  function Code(times: seq<int>, window: int, maxAttempts: int, a: int, i: nat): int
    requires i < |times|
  {
    if Opened(times, window, i) < a then Ordinal(times, window, i) - 2
    else maxAttempts - 2 + Ordinal(times, window, i)
  }

  lemma CodesDiffer(times: seq<int>, window: int, maxAttempts: int, a: int, i: nat, j: nat)
    requires window > 0 && Sorted(times) && i < j < |times|
    requires i in Passed(times, window, maxAttempts, a) && j in Passed(times, window, maxAttempts, a)
    ensures Code(times, window, maxAttempts, a, i) != Code(times, window, maxAttempts, a, j)
  {
    StepFacts(times, window, i);
    StepFacts(times, window, j);
    WindowsAreApart(times, window, i, j);
  }

  lemma CodeRange(times: seq<int>, window: int, maxAttempts: int, a: int, i: nat)
    requires window > 0 && Sorted(times) && i in Passed(times, window, maxAttempts, a)
    ensures 0 <= Code(times, window, maxAttempts, a, i) < 2 * maxAttempts - 1
  {
    StepFacts(times, window, i);
  }

  /** Any half-open interval of one window's length sees at most 2 * max - 1 calls pass. */
  lemma AtMostTwiceLessOne(times: seq<int>, window: int, maxAttempts: nat, a: int)
    requires window > 0 && Sorted(times) && maxAttempts >= 1
    ensures |Passed(times, window, maxAttempts, a)| <= 2 * maxAttempts - 1
  {
    var s := Passed(times, window, maxAttempts, a);
    forall i | i in s ensures 0 <= Code(times, window, maxAttempts, a, i) < 2 * maxAttempts - 1 {
      CodeRange(times, window, maxAttempts, a, i);
    }
    var code: map<nat, nat> := map i | i in s :: Code(times, window, maxAttempts, a, i);
    forall i, j | i in s && j in s && i != j ensures code[i] != code[j] {
      if i < j {
        CodesDiffer(times, window, maxAttempts, a, i, j);
      } else {
        CodesDiffer(times, window, maxAttempts, a, j, i);
      }
    }
    PigeonHole(s, code, 2 * maxAttempts - 1);
  }

  /** The calls that share call i's counter, up to i. */
  function SameWindow(times: seq<int>, window: int, i: nat): set<nat>
    requires i < |times|
  {
    set j: nat | j <= i && Opened(times, window, j) == Opened(times, window, i)
  }

  /** A counter numbers its calls 1, 2, 3, ... so it passes exactly its first max. */
  lemma {:induction false} OrdinalIsRank(times: seq<int>, window: int, i: nat)
    requires window > 0 && Sorted(times) && i < |times|
    ensures Ordinal(times, window, i) == |SameWindow(times, window, i)|
    decreases i
  {
    StepFacts(times, window, i);
    if i == 0 || Opened(times, window, i) != Opened(times, window, i - 1) {
      FirstOfWindow(times, window, i);
    } else {
      WindowsAreApart(times, window, i - 1, i);
      StepFacts(times, window, i - 1);
      OrdinalIsRank(times, window, i - 1);
      NextOfWindow(times, window, i);
    }
  }

  lemma FirstOfWindow(times: seq<int>, window: int, i: nat)
    requires window > 0 && Sorted(times) && i < |times|
    requires i == 0 || Opened(times, window, i) != Opened(times, window, i - 1)
    ensures Ordinal(times, window, i) == 1 && SameWindow(times, window, i) == {i}
  {
    StepFacts(times, window, i);
    forall j: nat | j < i ensures Opened(times, window, j) != Opened(times, window, i) {
      WindowsAreApart(times, window, i - 1, i);
      if j < i - 1 {
        WindowsAreApart(times, window, j, i - 1);
      }
    }
    if i == 0 {
      assert times[..1][..0] == [];
    }
  }

  lemma NextOfWindow(times: seq<int>, window: int, i: nat)
    requires window > 0 && Sorted(times) && 0 < i < |times|
    requires Opened(times, window, i) == Opened(times, window, i - 1)
    ensures |SameWindow(times, window, i)| == |SameWindow(times, window, i - 1)| + 1
  {
    var s, t := SameWindow(times, window, i - 1), SameWindow(times, window, i);
    forall j: nat ensures j in t <==> j in s || j == i {
    }
    assert t == s + {i} && i !in s;
  }

  // ---- The bound is reached ----------------------------------------------

  /** One call at 0, the rest of the first counter's calls at the end of its window,
      and a full counter right after. */
  function Burst(maxAttempts: nat, window: int): seq<int>
    requires maxAttempts >= 1
  {
    seq(2 * maxAttempts, (i: nat) => if i == 0 then 0 else if i < maxAttempts then window - 1 else window)
  }

  lemma {:induction false} BurstCounts(maxAttempts: nat, window: int, i: nat)
    requires maxAttempts >= 1 && window >= 2 && i < 2 * maxAttempts
    ensures Sorted(Burst(maxAttempts, window))
    ensures Ordinal(Burst(maxAttempts, window), window, i) == if i < maxAttempts then i + 1 else i + 1 - maxAttempts
    ensures Opened(Burst(maxAttempts, window), window, i) == if i < maxAttempts then 0 else window
    decreases i
  {
    var times := Burst(maxAttempts, window);
    StepFacts(times, window, i);
    if i > 0 {
      BurstCounts(maxAttempts, window, i - 1);
    } else {
      assert times[..1][..0] == [];
    }
  }

  lemma {:induction false} CountUp(n: nat, s: set<nat>)
    requires forall i: nat :: i in s <==> 1 <= i < n
    ensures n >= 1 ==> |s| == n - 1
    decreases n
  {
    if n <= 1 {
      assert s == {};
    } else {
      CountUp(n - 1, s - {n - 1});
    }
  }

  lemma TwiceLessOneIsReached(maxAttempts: nat, window: int)
    requires maxAttempts >= 1 && window >= 2
    ensures Sorted(Burst(maxAttempts, window))
    ensures |Passed(Burst(maxAttempts, window), window, maxAttempts, 1)| == 2 * maxAttempts - 1
  {
    var times := Burst(maxAttempts, window);
    BurstCounts(maxAttempts, window, 0);
    forall i: nat ensures i in Passed(times, window, maxAttempts, 1) <==> 1 <= i < 2 * maxAttempts {
      if i < 2 * maxAttempts {
        BurstCounts(maxAttempts, window, i);
      }
    }
    CountUp(2 * maxAttempts, Passed(times, window, maxAttempts, 1));
  }

  /** The module calls itself a sliding window.  It limits every interval of a
      window's length to max calls exactly when max is 1. */
  lemma SlidingIff(maxAttempts: nat, windowSeconds: int)
    requires maxAttempts >= 1 && windowSeconds >= 1
    ensures (forall times, a | Sorted(times) :: |Passed(times, Window(windowSeconds), maxAttempts, a)| <= maxAttempts)
      <==> maxAttempts == 1
  {
    var window := Window(windowSeconds);
    if maxAttempts == 1 {
      forall times, a | Sorted(times) ensures |Passed(times, window, maxAttempts, a)| <= maxAttempts {
        AtMostTwiceLessOne(times, window, maxAttempts, a);
      }
    } else {
      TwiceLessOneIsReached(maxAttempts, window);
    }
  }

  // ---- A counter without an expiry ---------------------------------------

  function Later(key: Key, times: seq<int>, window: int, expires: bool): Key {
    if times == [] then key
    else Some(Incremented(Later(key, times[..|times| - 1], window, expires), times[|times| - 1], window, expires))
  }

  /** If the expiry of a new counter is lost, the counter never goes: the k-th later
      call sees the value k higher, however late it comes, so past the limit no call
      ever passes again. */
  lemma {:induction false} LostExpiryIsForever(value: nat, times: seq<int>, window: int, expires: bool)
    requires value >= 1
    ensures Later(Some(Counter(value, None)), times, window, expires) == Some(Counter(value + |times|, None))
  {
    if times != [] {
      LostExpiryIsForever(value, times[..|times| - 1], window, expires);
    }
  }

  lemma FallbackCountsAll(times: seq<int>, window: int)
    requires times != []
    ensures Later(None, times, window, false) == Some(Counter(|times|, None))
  {
    var first, rest := times[0], times[1..];
    assert times == [first] + rest;
    LaterAppend(None, [first], rest, window, false);
    assert [first][..0] == [];
    LostExpiryIsForever(1, rest, window, false);
  }

  /** The in-memory fallback ignores EXPIRE, so there max is a limit for all time:
      exactly the first max calls ever pass. */
  lemma FallbackNeverResets(times: seq<int>, window: int, maxAttempts: nat, i: nat)
    requires i < |times|
    ensures var key := Later(None, times[..i + 1], window, false);
      key.Some? && (key.value.value <= maxAttempts <==> i < maxAttempts)
  {
    FallbackCountsAll(times[..i + 1], window);
  }

  lemma {:induction false} LaterAppend(key: Key, a: seq<int>, b: seq<int>, window: int, expires: bool)
    ensures Later(key, a + b, window, expires) == Later(Later(key, a, window, expires), b, window, expires)
  {
    if b == [] {
      assert a + b == a;
    } else {
      assert (a + b)[..|a + b| - 1] == a + b[..|b| - 1];
      LaterAppend(key, a, b[..|b| - 1], window, expires);
    }
  }

  /** A counter lives for the window's seconds to the millisecond: a second call is
      counted with the first exactly when it comes before they have passed. */
  lemma WindowIsSeconds(first: int, second: int, windowSeconds: int)
    requires first <= second && windowSeconds >= 1
    ensures Ordinal([first, second], Window(windowSeconds), 0) == 1
    ensures Ordinal([first, second], Window(windowSeconds), 1) == if second - first < 1000 * windowSeconds then 2 else 1
  {
    var times := [first, second];
    StepFacts(times, Window(windowSeconds), 0);
    StepFacts(times, Window(windowSeconds), 1);
    assert times[..1][..0] == [];
  }
}
