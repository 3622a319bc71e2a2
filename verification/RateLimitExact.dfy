/** The limit itself: which calls get through when nothing is lost, and by the window when something is. */
module RateLimitExact {
  import opened Prelude
  import opened RateLimit
  import opened RateLimitBounds

  /** The counter after calls at these times, all of them working. */
  function CounterOf(l: Limit, ts: seq<Time>): Option<Counter> {
    if ts == [] then None
    else CounterAfter(l, CounterOf(l, ts[..|ts| - 1]), Last(ts), false, Works, Works)
  }

  /** The counter counts the calls of its life, which ends one window length after the first. */
  lemma {:induction false} CounterCountsCalls(l: Limit, ts: seq<Time>)
    requires ts != []
    ensures CounterOf(l, ts) == Some(Counter(|ts|, Some(ts[0] + l.seconds)))
  {
    var front := ts[..|ts| - 1];
    if front == [] {
      assert ts[0] == Last(ts);
    } else {
      CounterCountsCalls(l, front);
    }
  }

  /** While the counter lives and nothing is lost, exactly the first `times` calls get through. */
  lemma FirstCallsGetThrough(l: Limit, ts: seq<Time>, bucket: seq<Time>, at: Time)
    ensures Allows(l, CounterOf(l, ts), bucket, at, false, Works, Works) <==> |ts| + 1 <= l.times
  {
    if ts != [] {
      CounterCountsCalls(l, ts);
    }
  }

  /** A call that finds the counter gone starts a new life as its first call. */
  lemma NewLifeStartsOver(l: Limit, c: Option<Counter>, bucket: seq<Time>, at: Time)
    ensures Allows(l, c, bucket, at, true, Works, Works) <==> 1 <= l.times
    ensures CounterAfter(l, c, at, true, Works, Works) == CounterOf(l, [at])
  {
    CounterCountsCalls(l, [at]);
  }

  /** The calls of a process inside the window that ends at `at`. */
  ghost function Recent(asked: seq<Time>, at: Time, seconds: Time): set<nat> {
    set j: nat | j < |asked| && asked[j] > at - seconds
  }

  lemma OneMoreRecent(asked: seq<Time>, at: Time, seconds: Time)
    requires asked != []
    ensures |Recent(asked, at, seconds)| ==
            |Recent(asked[..|asked| - 1], at, seconds)| + if Last(asked) > at - seconds then 1 else 0
  {
    var n, front := |asked| - 1, Recent(asked[..|asked| - 1], at, seconds);
    assert Recent(asked, at, seconds) == if Last(asked) > at - seconds then front + {n} else front;
  }

  lemma {:induction false} AfterCounts(asked: seq<Time>, at: Time, seconds: Time)
    ensures |After(asked, at - seconds)| == |Recent(asked, at, seconds)|
  {
    if asked == [] {
      assert Recent(asked, at, seconds) == {};
    } else {
      AfterCounts(asked[..|asked| - 1], at, seconds);
      OneMoreRecent(asked, at, seconds);
    }
  }

  /** Whenever a call on the counter raises, the call gets through exactly if fewer than `times` are recent. */
  lemma FallbackAllowsIffFewRecent(
    l: Limit, c: Option<Counter>, bucket: seq<Time>, at: Time, vanished: bool, incr: Fate, expire: Fate)
    requires incr.Raises? || (expire.Raises? && (c.None? || vanished))
    ensures Allows(l, c, bucket, at, vanished, incr, expire) <==> |Recent(bucket, at, l.seconds)| < l.times
  {
    AfterCounts(bucket, at, l.seconds);
  }

  /** The admission a step makes, if any. */
  function Admitted(ok: bool, at: Time, via: Via): seq<Admission> {
    if ok then [Admission(at, via)] else []
  }

  /** A bucket that prunes to the recent calls lets one more through exactly if fewer than `times` are recent. */
  lemma FallbackAdmits(l: Limit, s: State, p: ProcessId, at: Time, asked: seq<Time>)
    requires After(Bucket(s.memory, p), at - l.seconds) == After(asked, at - l.seconds)
    ensures Fallback(l, s, p, at).admitted ==
            s.admitted + Admitted(|Recent(asked, at, l.seconds)| < l.times, at, Local(p))
  {
    AfterCounts(asked, at, l.seconds);
  }

  /**
   In every reachable state, over all the calls it was ever asked, a process falling
   back lets a call through exactly if fewer than `times` of them are recent.
   */
  lemma FallbackStepDecides(l: Limit, workers: nat, t: Trace, i: nat)
    requires l.seconds > 0.0 && ValidTrace(l, workers, t) && i < |t.steps| && t.steps[i].FallBack?
    ensures t.steps[i].call < |t.states[i].failing|
    ensures var s, at := t.states[i], t.steps[i].at;
            var p := s.failing[t.steps[i].call];
            t.states[i + 1].admitted ==
            s.admitted + Admitted(|Recent(Bucket(s.asked, p), at, l.seconds)| < l.times, at, Local(p))
  {
    assert Possible(workers, t.states[i], t.steps[i]);
    var s, at := t.states[i], t.steps[i].at;
    var p := s.failing[t.steps[i].call];
    TraceInv(l, workers, t, i);
    assert LocalInvFor(l, s, p);
    PrunedAgain(l, Bucket(s.asked, p), Bucket(s.memory, p), at - l.seconds);
    var lost := s.(now := at, failing := Without(s.failing, t.steps[i].call));
    FallbackAdmits(l, lost, p, at, Bucket(s.asked, p));
    assert t.states[i + 1] == Fallback(l, lost, p, at);
  }

  /** The counter lets a call through exactly if it is at most the `times`-th of its life. */
  lemma CounterStepDecides(l: Limit, s: State, st: Step)
    requires Enabled(s, st) && (st.Incr? || st.ExpireDone?)
    ensures st.Incr? && s.counter.Some? && !st.vanished && s.counter.value.count >= 1 ==>
              Next(l, s, st).admitted ==
              s.admitted + Admitted(s.counter.value.count + 1 <= l.times, st.at, Shared(s.generation, false)) &&
              Next(l, s, st).counter == Some(s.counter.value.(count := s.counter.value.count + 1))
    ensures st.Incr? && (s.counter.None? || st.vanished) ==>
              Next(l, s, st).admitted == s.admitted && Next(l, s, st).awaiting == s.awaiting + [st.process] &&
              Next(l, s, st).counter == Some(Counter(1, None))
    ensures st.ExpireDone? ==>
              Next(l, s, st).admitted == s.admitted + Admitted(1 <= l.times, st.at, Shared(s.generation, true)) &&
              (s.counter.Some? ==> Next(l, s, st).counter.Some? &&
                                   Next(l, s, st).counter.value.expiresAt == Some(st.at + l.seconds))
  {
  }
}
