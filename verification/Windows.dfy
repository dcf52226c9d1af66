/** Counting moments in a closed window. */
module Windows {

  predicate Inside(at: int, from: int, width: int) {
    from <= at <= from + width
  }

  function InWindow(times: seq<int>, from: int, width: int): nat {
    if times == [] then 0
    else
      InWindow(times[..|times| - 1], from, width) + if Inside(times[|times| - 1], from, width) then 1 else 0
  }

  /** No window of this width holds more than `limit` of the moments. */
  ghost predicate Bounded(times: seq<int>, width: int, limit: int) {
    forall from :: InWindow(times, from, width) <= limit
  }

  /** What pruning leaves. */
  function Since(times: seq<int>, from: int): seq<int> {
    if times == [] then []
    else
      var last := times[|times| - 1];
      Since(times[..|times| - 1], from) + if last >= from then [last] else []
  }

  predicate NoLater(times: seq<int>, now: int) {
    forall k | 0 <= k < |times| :: times[k] <= now
  }

  lemma {:induction false} Push(times: seq<int>, at: int, from: int, width: int)
    ensures InWindow(times + [at], from, width) ==
            InWindow(times, from, width) + if Inside(at, from, width) then 1 else 0
  {
    assert (times + [at])[..|times|] == times;
  }

  lemma {:induction false} SincePush(times: seq<int>, at: int, from: int)
    ensures Since(times + [at], from) == Since(times, from) + if at >= from then [at] else []
  {
    assert (times + [at])[..|times|] == times;
  }

  /** Counting what is left is counting the window. */
  lemma {:induction false} SinceCounts(times: seq<int>, from: int, width: int)
    requires NoLater(times, from + width)
    ensures |Since(times, from)| == InWindow(times, from, width)
  {
    if times != [] {
      SinceCounts(times[..|times| - 1], from, width);
    }
  }

  lemma {:induction false} SinceTwice(times: seq<int>, from: int, later: int)
    requires from <= later
    ensures Since(Since(times, from), later) == Since(times, later)
  {
    if times != [] {
      var rest, last := times[..|times| - 1], times[|times| - 1];
      SinceTwice(rest, from, later);

      if last >= from {
        SincePush(Since(rest, from), last, later);
      } else {
        assert Since(rest, from) + [] == Since(rest, from);
      }
    }
  }

  /** A window that starts later holds no more of the moments up to now. */
  lemma {:induction false} LaterWindow(times: seq<int>, from: int, later: int, width: int)
    requires from <= later && NoLater(times, from + width)
    ensures InWindow(times, later, width) <= InWindow(times, from, width)
  {
    if times != [] {
      LaterWindow(times[..|times| - 1], from, later, width);
    }
  }

  /** One more moment, when the window that ends with it has room, overfills no window. */
  lemma {:induction false} PushBounded(times: seq<int>, now: int, width: int, limit: int)
    requires Bounded(times, width, limit) && NoLater(times, now) && InWindow(times, now - width, width) < limit
    ensures Bounded(times + [now], width, limit)
  {
    forall from ensures InWindow(times + [now], from, width) <= limit {
      Push(times, now, from, width);

      if Inside(now, from, width) {
        LaterWindow(times, now - width, from, width);
      } else {
        assert InWindow(times, from, width) <= limit;
      }
    }
  }
}
