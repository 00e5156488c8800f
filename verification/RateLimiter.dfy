/** The gateway's limit on subscribe calls: at most five in any three seconds of one connection. */
module RateLimiter {
  import opened Wrappers

  const WindowMs := 3000
  const MaxCalls := 5

  type Times = seq<int>

  function InWindow(calls: Times, now: int): (r: Times)
    ensures |r| <= |calls|
  {
    if calls == [] then [] else
    InWindow(calls[..|calls| - 1], now)
    + if now - calls[|calls| - 1] < WindowMs then [calls[|calls| - 1]] else []
  }

  predicate NonDecreasing(calls: Times) {
    forall i, j :: 0 <= i < j < |calls| ==> calls[i] <= calls[j]
  }

  // ---- counting over the whole history --------------------------------------------------------

  /** How many of the accepted calls lie in the window of three seconds that begins at `t`. */
  function CountFrom(history: Times, t: int): nat {
    if history == [] then 0 else
    CountFrom(history[..|history| - 1], t)
    + if t <= history[|history| - 1] < t + 3000 then 1 else 0
  }

  /** The decision that remembers everything: fewer than five accepted within the last three seconds. */
  predicate Allowed(history: Times, now: int) {
    |InWindow(history, now)| < MaxCalls
  }

  /** Pruning twice is pruning once, at the later time. */
  lemma {:induction false} PruneAgain(history: Times, earlier: int, now: int)
    requires earlier <= now
    ensures InWindow(InWindow(history, earlier), now) == InWindow(history, now)
  {
    if history != [] {
      var front, last := history[..|history| - 1], history[|history| - 1];
      PruneAgain(front, earlier, now);
      if earlier - last < WindowMs {
        var pruned := InWindow(front, earlier);
        assert (pruned + [last])[..|pruned + [last]| - 1] == pruned;
      } else {
        assert InWindow(front, earlier) + [] == InWindow(front, earlier);
      }
    }
  }

  lemma PruneGrown(history: Times, call: int, now: int)
    ensures InWindow(history + [call], now) == InWindow(history, now) + if now - call < WindowMs then [call] else []
  {
    assert (history + [call])[..|history + [call]| - 1] == history;
  }

  lemma {:induction false} CountWithin(history: Times, t: int, now: int)
    requires NonDecreasing(history) && (history != [] ==> history[|history| - 1] <= now)
    requires now < t + WindowMs
    ensures CountFrom(history, t) <= |InWindow(history, now)|
  {
    if history != [] {
      CountWithin(history[..|history| - 1], t, now);
    }
  }

  /** Every accepted call was allowed by all that had been accepted before it. */
  predicate AllAllowed(history: Times) {
    history == []
    || (AllAllowed(history[..|history| - 1]) && Allowed(history[..|history| - 1], history[|history| - 1]))
  }

  /** So no window of three seconds, wherever it begins, holds more than five. */
  lemma {:induction false} EveryWindowIsWithinLimit(history: Times, t: int)
    requires NonDecreasing(history) && AllAllowed(history)
    ensures CountFrom(history, t) <= 5
  {
    if history != [] {
      var front, last := history[..|history| - 1], history[|history| - 1];
      EveryWindowIsWithinLimit(front, t);
      if t <= last < t + WindowMs {
        CountWithin(front, t, last);
      }
    }
  }

  /** A call is refused exactly when five accepted ones lie in the three seconds that end with it. */
  lemma {:induction false} InWindowCounts(history: Times, now: int)
    requires NonDecreasing(history) && (history != [] ==> history[|history| - 1] <= now)
    ensures |InWindow(history, now)| == CountFrom(history, now - 3000 + 1)
  {
    if history != [] {
      InWindowCounts(history[..|history| - 1], now);
    }
  }

  lemma {:induction false} InWindowIsTail(history: Times, now: int, n: nat)
    requires NonDecreasing(history) && n < |history|
    ensures |InWindow(history, now)| > n <==> now - history[|history| - 1 - n] < 3000
    decreases |history|
  {
    var front, last := history[..|history| - 1], history[|history| - 1];
    if now - last < 3000 {
      if n > 0 {
        InWindowIsTail(front, now, n - 1);
      }
    } else {
      assert forall i :: 0 <= i < |history| ==> history[i] <= last;
      NothingInWindow(front, now);
    }
  }

  lemma {:induction false} NothingInWindow(history: Times, now: int)
    requires forall i :: 0 <= i < |history| ==> now - history[i] >= WindowMs
    ensures InWindow(history, now) == []
  {
    if history != [] {
      NothingInWindow(history[..|history| - 1], now);
    }
  }

  /** A call is refused exactly when the fifth last accepted one was less than 3000 ms ago. */
  predicate RefusedAt(history: Times, now: int) {
    |history| >= 5 && now - history[|history| - 5] < 3000
  }

  lemma AllowedInFull(history: Times, now: int)
    requires NonDecreasing(history)
    ensures Allowed(history, now) <==> !RefusedAt(history, now)
  {
    if |history| >= 5 {
      InWindowIsTail(history, now, 4);
    }
  }

  /** The pruned list stands for the full history. */
  predicate Stands(history: Times, calls: Times, clock: int) {
    && NonDecreasing(history) && (history != [] ==> history[|history| - 1] <= clock)
    && AllAllowed(history) && InWindow(calls, clock) == InWindow(history, clock)
  }

  lemma StillStands(history: Times, calls: Times, clock: int, now: int)
    requires Stands(history, calls, clock) && clock <= now
    ensures InWindow(calls, now) == InWindow(history, now)
    ensures Stands(history, InWindow(calls, now), now)
  {
    PruneAgain(history, clock, now);
    PruneAgain(calls, clock, now);
    PruneAgain(calls, now, now);
  }

  lemma StandsWithOneMore(history: Times, calls: Times, now: int)
    requires Stands(history, calls, now) && Allowed(history, now)
    ensures Stands(history + [now], calls + [now], now)
  {
    PruneGrown(history, now, now);
    PruneGrown(calls, now, now);
    assert (history + [now])[..|history + [now]| - 1] == history;
  }

  // ---- the gateway ----------------------------------------------------------------------------

  /** What the gateway keeps with one connection. `history` is every call accepted since it was set up. */
  class RealtimeClientData {
    var subscribeCalls: Option<Times>

    ghost var history: Times
    ghost var clock: int

    constructor (now: int)
      ensures Valid() && history == [] && clock == now && subscribeCalls == None
    {
      subscribeCalls, history, clock := None, [], now;
    }

    function Calls(): Times
      reads this
    {
      if subscribeCalls.Some? then subscribeCalls.value else []
    }

    ghost predicate Valid()
      reads this
    {
      Stands(history, Calls(), clock)
    }

    /** A verified connection starts with no calls. */
    method HandleConnection(now: int)
      requires clock <= now
      modifies this
      ensures Valid() && history == [] && clock == now && subscribeCalls == Some([])
    {
      subscribeCalls, history, clock := Some([]), [], now;
    }

    method HandleDisconnect(now: int)
      requires clock <= now
      modifies this
      ensures Valid() && history == [] && clock == now && Calls() == []
    {
      if subscribeCalls.Some? {
        subscribeCalls := Some([]);
      }
      history, clock := [], now;
    }

    /** Accepts a call exactly when counting over the full history would. */
    method AssertRateLimit(now: int) returns (accepted: bool)
      requires Valid() && clock <= now
      modifies this
      ensures Valid() && clock == now
      ensures accepted <==> Allowed(old(history), now)
      ensures accepted <==> !RefusedAt(old(history), now)
      ensures history == old(history) + if accepted then [now] else []
      ensures Calls() == InWindow(old(Calls()), now) + if accepted then [now] else []
    {
      StillStands(history, Calls(), clock, now);
      AllowedInFull(history, now);
      var calls := InWindow(Calls(), now);
      clock, subscribeCalls := now, Some(calls);
      if |calls| >= MaxCalls {
        return false;
      }
      StandsWithOneMore(history, calls, now);
      history, subscribeCalls := history + [now], Some(calls + [now]);
      return true;
    }
  }
}
