/** The limiter in memory as an object. */
module RateLimiters {
  import opened SlidingWindow

  class RateLimiter {
    var requestHistory: History

    constructor ()
      ensures requestHistory == map[]
    {
      requestHistory := map[];
    }

    static method Filter(timestamps: seq<int>, now: int, window: int) returns (valid: seq<int>)
      ensures valid == Live(timestamps, now, window)
    {
      valid := [];
      for i := 0 to |timestamps|
        invariant valid == Live(timestamps[..i], now, window)
      {
        assert timestamps[..i + 1] == timestamps[..i] + [timestamps[i]];
        LiveAppend(timestamps[..i], [timestamps[i]], now, window);
        if now - timestamps[i] < window {
          valid := valid + [timestamps[i]];
        }
      }
      assert timestamps[..|timestamps|] == timestamps;
    }

    method PruneStaleEntries(now: int, window: int)
      modifies this
      ensures requestHistory == Prune(old(requestHistory), now, window)
    {
      if |requestHistory| > MAX_MAP_ENTRIES {
        hide PrunedExcept, Live, Prune;
        ghost var was := requestHistory;
        PruneAll(was, now, window, was.Keys, {});
        var left := requestHistory.Keys;
        while left != {}
          invariant left <= was.Keys
          invariant requestHistory == PrunedExcept(was, now, window, left)
          decreases left
        {
          var key :| key in left;
          PruneOne(was, now, window, left, key);
          var valid := Filter(requestHistory[key], now, window * 2);
          if valid == [] {
            requestHistory := requestHistory - {key};
          } else {
            requestHistory := requestHistory[key := valid];
          }
          left := left - {key};
        }
      }
    }

    method CheckInMemoryFallback(key: Key, now: int, window: int, max: int) returns (answer: Answer)
      modifies this
      ensures (requestHistory, answer) == InMemory(old(requestHistory), key, now, window, max)
    {
      PruneStaleEntries(now, window);
      var timestamps := if key in requestHistory then requestHistory[key] else [];
      timestamps := Filter(timestamps, now, window);
      if |timestamps| >= max {
        var retryAfter := if timestamps == [] then NotANumber else Seconds(Max(1, CeilSeconds(timestamps[0] + window - now)));
        return Answer(false, 0, retryAfter);
      }
      timestamps := timestamps + [now];
      requestHistory := requestHistory[key := timestamps];
      answer := Answer(true, max - |timestamps|, Seconds(0));
    }
  }
}
