/** How many calls the limiter lets through in any window, over every interleaving and failure pattern. */
module RateLimitBounds {
  import opened Prelude
  import opened RateLimit

  // ---------------------------------------------------------------- counting

  function CountIf(xs: seq<Admission>, f: Admission -> bool): nat {
    if xs == [] then 0 else CountIf(xs[..|xs| - 1], f) + (if f(Last(xs)) then 1 else 0)
  }

  lemma CountAppend(xs: seq<Admission>, x: Admission, f: Admission -> bool)
    ensures CountIf(xs + [x], f) == CountIf(xs, f) + (if f(x) then 1 else 0)
  {
    assert (xs + [x])[..|xs|] == xs;
  }

  lemma {:induction false} CountCovered(
    xs: seq<Admission>, f: Admission -> bool, g: Admission -> bool, h: Admission -> bool)
    requires forall x :: x in xs && f(x) ==> g(x) || h(x)
    ensures CountIf(xs, f) <= CountIf(xs, g) + CountIf(xs, h)
  {
    if xs == [] {
    } else {
      assert Last(xs) in xs;
      CountCovered(xs[..|xs| - 1], f, g, h);
    }
  }

  lemma {:induction false} CountNone(xs: seq<Admission>, f: Admission -> bool)
    requires forall x :: x in xs ==> !f(x)
    ensures CountIf(xs, f) == 0
  {
    if xs == [] {
    } else {
      assert Last(xs) in xs;
      CountNone(xs[..|xs| - 1], f);
    }
  }

  lemma CountWeaker(xs: seq<Admission>, f: Admission -> bool, g: Admission -> bool)
    requires forall x :: x in xs && f(x) ==> g(x)
    ensures CountIf(xs, f) <= CountIf(xs, g)
  {
    var never := (x: Admission) => false;
    CountCovered(xs, f, g, never);
    CountNone(xs, never);
  }

  function FirstOf(g: nat): Admission -> bool { (a: Admission) => a.via == Shared(g, true) }
  function LaterOf(g: nat): Admission -> bool { (a: Admission) => a.via == Shared(g, false) }
  function LocalAfter(p: ProcessId, cutoff: Time): Admission -> bool {
    (a: Admission) => a.via == Local(p) && a.at > cutoff
  }

  /** The half-open window of the limiter's own length that starts just after `w`. */
  predicate Within(l: Limit, w: Time, a: Admission) { w < a.at <= w + l.seconds }

  function InWindow(l: Limit, w: Time): Admission -> bool { a => Within(l, w, a) }
  function LocalIn(l: Limit, w: Time, p: ProcessId): Admission -> bool { a => Within(l, w, a) && a.via == Local(p) }
  function SharedIn(l: Limit, w: Time): Admission -> bool { a => Within(l, w, a) && a.via.Shared? }

  // ---------------------------------------------------------------- the shared counter

  /** Each life of the counter admits at most one first call and `times - 1` later ones. */
  ghost predicate LivesInv(l: Limit, s: State) {
    (s.generation == 0 <==> s.counter.None?) &&
    (s.counter.Some? ==> s.counter.value.count >= 1) &&
    |s.awaiting| <= 1 &&
    (s.awaiting != [] ==> s.counter.Some? && s.counter.value.expiresAt.None?) &&
    (forall a :: a in s.admitted && a.via.Shared? ==> 1 <= a.via.generation <= s.generation) &&
    (forall g :: CountIf(s.admitted, FirstOf(g)) <= 1) &&
    (forall g :: CountIf(s.admitted, LaterOf(g)) <= if l.times >= 1 then l.times - 1 else 0) &&
    CountIf(s.admitted, FirstOf(s.generation)) + |s.awaiting| <= 1 &&
    CountIf(s.admitted, LaterOf(s.generation)) <= (if s.counter.Some? then s.counter.value.count - 1 else 0)
  }

  ghost predicate Older(a: Admission, generation: nat) {
    a.via.Shared? && (a.via.generation + 2 <= generation || (a.via.first && a.via.generation < generation))
  }

  /** Two lives apart, or after a life's first admission, at least one window length has passed. */
  ghost predicate TimesInv(l: Limit, s: State) {
    (forall a :: a in s.admitted ==> a.at <= s.now) &&
    (s.counter.Some? && s.counter.value.expiresAt.Some? ==>
      forall a :: a in s.admitted && a.via.Shared? && (a.via.first || a.via.generation < s.generation) ==>
        a.at + l.seconds <= s.counter.value.expiresAt.value) &&
    (forall a :: a in s.admitted && Older(a, s.generation) ==> a.at + l.seconds <= s.now) &&
    (forall a, b :: a in s.admitted && b in s.admitted && b.via.Shared? && Older(a, b.via.generation) ==>
      a.at + l.seconds <= b.at)
  }

  lemma AdmittedOneMore(l: Limit, s: State, s': State, x: Admission)
    requires s'.admitted == s.admitted + [x]
    ensures forall g :: CountIf(s'.admitted, FirstOf(g)) ==
                        CountIf(s.admitted, FirstOf(g)) + (if x.via == Shared(g, true) then 1 else 0)
    ensures forall g :: CountIf(s'.admitted, LaterOf(g)) ==
                        CountIf(s.admitted, LaterOf(g)) + (if x.via == Shared(g, false) then 1 else 0)
  {
    forall g { CountAppend(s.admitted, x, FirstOf(g)); }
    forall g { CountAppend(s.admitted, x, LaterOf(g)); }
  }

  lemma FreshLifeIsUnused(l: Limit, s: State)
    requires LivesInv(l, s)
    ensures CountIf(s.admitted, FirstOf(s.generation + 1)) == 0 && CountIf(s.admitted, LaterOf(s.generation + 1)) == 0
  {
    CountNone(s.admitted, FirstOf(s.generation + 1));
    CountNone(s.admitted, LaterOf(s.generation + 1));
  }

  /** Counting a call, with or without starting a new life, keeps the lives in order. */
  lemma LivesCount(l: Limit, s: State, vanished: bool)
    requires LivesInv(l, s)
    requires vanished ==> s.counter.Some? && s.counter.value.expiresAt.Some?
    ensures LivesInv(l, Count(s, vanished))
    ensures Count(s, vanished).counter.value.count == 1 ==>
              s.awaiting == [] && CountIf(s.admitted, FirstOf(s.generation + 1)) == 0
  {
    FreshLifeIsUnused(l, s);
  }

  lemma LivesLocal(l: Limit, s: State, p: ProcessId, at: Time)
    requires LivesInv(l, s)
    ensures LivesInv(l, Fallback(l, s, p, at))
  {
    var s' := Fallback(l, s, p, at);
    if s'.admitted != s.admitted {
      AdmittedOneMore(l, s, s', Last(s'.admitted));
    }
  }

  lemma LivesIncr(l: Limit, s: State, st: Step)
    requires LivesInv(l, s) && Enabled(s, st) && st.Incr?
    ensures LivesInv(l, Next(l, s, st))
  {
    LivesCount(l, s.(now := st.at), st.vanished);
    var counted, s' := Count(s.(now := st.at), st.vanished), Next(l, s, st);
    if s'.admitted != counted.admitted {
      AdmittedOneMore(l, counted, s', Last(s'.admitted));
    }
  }

  lemma LivesExpire(l: Limit, s: State, st: Step)
    requires LivesInv(l, s) && Enabled(s, st) && st.ExpireDone?
    ensures LivesInv(l, Next(l, s, st))
  {
    var s' := Next(l, s, st);
    assert Without(s.awaiting, st.call) == [];
    if s'.admitted != s.admitted {
      AdmittedOneMore(l, s, s', Last(s'.admitted));
    }
  }

  lemma LivesStep(l: Limit, s: State, st: Step)
    requires LivesInv(l, s) && Enabled(s, st)
    ensures LivesInv(l, Next(l, s, st))
  {
    var s1 := s.(now := st.at);
    match st
    case Incr(_, _, _) => LivesIncr(l, s, st);
    case IncrLost(_, _, vanished, _) => LivesCount(l, s1, vanished);
    case ExpireDone(_, _) => LivesExpire(l, s, st);
    case ExpireLost(k, _, _) => assert Without(s.awaiting, k) == [];
    case FallBack(k, at) => LivesLocal(l, s1.(failing := Without(s.failing, k)), s.failing[k], at);
  }

  lemma TimesCount(l: Limit, s: State, vanished: bool)
    requires LivesInv(l, s) && TimesInv(l, s)
    requires vanished ==> s.counter.Some? && s.counter.value.expiresAt.Some? && s.now >= s.counter.value.expiresAt.value
    ensures TimesInv(l, Count(s, vanished))
  {
  }

  /** Letting a call through now, locally or in the counter's current life. */
  lemma TimesAdmit(l: Limit, s: State, x: Admission)
    requires TimesInv(l, s) && x.at == s.now
    requires forall a :: a in s.admitted && a.via.Shared? ==> a.via.generation <= s.generation
    requires x.via.Shared? ==> x.via.generation == s.generation
    requires x.via.Shared? && x.via.first && s.counter.Some? && s.counter.value.expiresAt.Some? ==>
               x.at + l.seconds <= s.counter.value.expiresAt.value
    ensures TimesInv(l, s.(admitted := s.admitted + [x]))
  {
    var s' := s.(admitted := s.admitted + [x]);
    forall a, b | a in s'.admitted && b in s'.admitted && b.via.Shared? && Older(a, b.via.generation)
      ensures a.at + l.seconds <= b.at
    {
      assert a != x;
      assert b == x ==> Older(a, s.generation);
    }
  }

  lemma TimesFallback(l: Limit, s: State, p: ProcessId, at: Time)
    requires LivesInv(l, s) && TimesInv(l, s) && at == s.now
    ensures TimesInv(l, Fallback(l, s, p, at))
  {
    TimesAdmit(l, s, Admission(at, Local(p)));
  }

  lemma TimesExpiring(l: Limit, s: State)
    requires TimesInv(l, s)
    ensures TimesInv(l, s.(counter := Expiring(s.counter, s.now + l.seconds)))
  {
  }

  lemma TimesIncr(l: Limit, s: State, p: ProcessId, at: Time, vanished: bool)
    requires LivesInv(l, s) && TimesInv(l, s) && Enabled(s, Incr(p, at, vanished))
    ensures TimesInv(l, Next(l, s, Incr(p, at, vanished)))
  {
    var s1 := s.(now := at);
    var counted := Count(s1, vanished);
    TimesCount(l, s1, vanished);
    LivesCount(l, s1, vanished);
    TimesAdmit(l, counted, Admission(at, Shared(counted.generation, false)));
  }

  lemma TimesExpireDone(l: Limit, s: State, k: nat, at: Time)
    requires LivesInv(l, s) && TimesInv(l, s) && Enabled(s, ExpireDone(k, at))
    ensures TimesInv(l, Next(l, s, ExpireDone(k, at)))
  {
    TimesExpiring(l, s.(now := at));
    var expiring := s.(now := at, counter := Expiring(s.counter, at + l.seconds), awaiting := Without(s.awaiting, k));
    TimesAdmit(l, expiring, Admission(at, Shared(s.generation, true)));
  }

  lemma TimesStep(l: Limit, s: State, st: Step)
    requires LivesInv(l, s) && TimesInv(l, s) && Enabled(s, st)
    ensures TimesInv(l, Next(l, s, st))
  {
    var s1 := s.(now := st.at);
    match st
    case Incr(p, at, vanished) => TimesIncr(l, s, p, at, vanished);
    case IncrLost(_, _, vanished, _) => TimesCount(l, s1, vanished);
    case ExpireDone(k, at) => TimesExpireDone(l, s, k, at);
    case ExpireLost(_, _, _) => TimesExpiring(l, s1);
    case FallBack(k, at) => TimesFallback(l, s1.(failing := Without(s.failing, k)), s.failing[k], at);
  }

  // ---------------------------------------------------------------- the in-process windows

  lemma AfterAppend(ts: seq<Time>, t: Time, cutoff: Time)
    ensures After(ts + [t], cutoff) == After(ts, cutoff) + (if t > cutoff then [t] else [])
  {
    assert (ts + [t])[..|ts|] == ts;
  }

  lemma {:induction false} AfterTwice(ts: seq<Time>, early: Time, late: Time)
    requires early <= late
    ensures After(After(ts, early), late) == After(ts, late)
  {
    if ts == [] {
    } else {
      var front := ts[..|ts| - 1];
      AfterTwice(front, early, late);
      if Last(ts) > early {
        AfterAppend(After(front, early), Last(ts), late);
      } else {
        assert After(ts, early) == After(front, early);
        assert After(ts, late) == After(front, late);
      }
    }
  }

  /** The bucket the code keeps is the history of the process, cut at the last call's window. */
  ghost predicate BucketMatches(l: Limit, bucket: seq<Time>, asked: seq<Time>) {
    bucket == if asked == [] then [] else After(asked, Last(asked) - l.seconds)
  }

  function Positive(n: int): nat {
    if n > 0 then n else 0
  }

  /** After any moment, a process let through no more than it was asked. */
  ghost predicate LocallyAsked(xs: seq<Admission>, asked: seq<Time>, p: ProcessId) {
    forall c :: CountIf(xs, LocalAfter(p, c)) <= |After(asked, c)|
  }

  ghost predicate LocallyBounded(l: Limit, xs: seq<Admission>, p: ProcessId) {
    forall w :: CountIf(xs, LocalIn(l, w, p)) <= Positive(l.times)
  }

  ghost predicate LocalInvFor(l: Limit, s: State, p: ProcessId) {
    BucketMatches(l, Bucket(s.memory, p), Bucket(s.asked, p)) &&
    (Bucket(s.asked, p) != [] ==> Last(Bucket(s.asked, p)) <= s.now) &&
    LocallyAsked(s.admitted, Bucket(s.asked, p), p) && LocallyBounded(l, s.admitted, p)
  }

  ghost predicate LocalInv(l: Limit, s: State) {
    forall p :: LocalInvFor(l, s, p)
  }

  lemma {:induction false} PrunedAgain(l: Limit, asked: seq<Time>, bucket: seq<Time>, cutoff: Time)
    requires BucketMatches(l, bucket, asked) && (asked != [] ==> Last(asked) - l.seconds <= cutoff)
    ensures After(bucket, cutoff) == After(asked, cutoff)
  {
    if asked != [] {
      AfterTwice(asked, Last(asked) - l.seconds, cutoff);
    }
  }

  /** A pruned bucket is the whole history filtered to the window, after any non-decreasing calls. */
  lemma {:induction false} BucketIsFilteredHistory(l: Limit, asked: seq<Time>, bucket: seq<Time>, at: Time)
    requires l.seconds > 0.0 && BucketMatches(l, bucket, asked) && (asked != [] ==> Last(asked) <= at)
    ensures Slide(bucket, at, l.seconds) == After(asked + [at], at - l.seconds)
  {
    PrunedAgain(l, asked, bucket, at - l.seconds);
    AfterAppend(asked, at, at - l.seconds);
  }

  /** Local calls of other processes, and shared admissions, do not matter to `p`. */
  lemma LocalUnaffected(l: Limit, s: State, s': State, p: ProcessId)
    requires LocalInvFor(l, s, p) && s'.now >= s.now
    requires Bucket(s'.memory, p) == Bucket(s.memory, p) && Bucket(s'.asked, p) == Bucket(s.asked, p)
    requires s'.admitted == s.admitted ||
             (s'.admitted != [] && s'.admitted == s.admitted + [Last(s'.admitted)] && Last(s'.admitted).via != Local(p))
    ensures LocalInvFor(l, s', p)
  {
    if s'.admitted != s.admitted {
      var x := Last(s'.admitted);
      forall c ensures CountIf(s'.admitted, LocalAfter(p, c)) == CountIf(s.admitted, LocalAfter(p, c)) {
        CountAppend(s.admitted, x, LocalAfter(p, c));
      }
      forall w ensures CountIf(s'.admitted, LocalIn(l, w, p)) == CountIf(s.admitted, LocalIn(l, w, p)) {
        CountAppend(s.admitted, x, LocalIn(l, w, p));
      }
    }
  }

  /** One more local call at `at` is one more in the history, and at most one more let through. */
  lemma AskedOnceMore(xs: seq<Admission>, asked: seq<Time>, p: ProcessId, at: Time)
    requires LocallyAsked(xs, asked, p)
    ensures LocallyAsked(xs, asked + [at], p) && LocallyAsked(xs + [Admission(at, Local(p))], asked + [at], p)
  {
    forall c
      ensures CountIf(xs, LocalAfter(p, c)) <= |After(asked + [at], c)|
      ensures CountIf(xs + [Admission(at, Local(p))], LocalAfter(p, c)) <= |After(asked + [at], c)|
    {
      CountAppend(xs, Admission(at, Local(p)), LocalAfter(p, c));
      AfterAppend(asked, at, c);
    }
  }

  /** A window that a local call at `at` falls in looks back no further than that call's own window. */
  lemma LetThroughOnceMore(l: Limit, xs: seq<Admission>, asked: seq<Time>, p: ProcessId, at: Time)
    requires LocallyAsked(xs, asked, p) && LocallyBounded(l, xs, p) && l.seconds > 0.0
    requires |After(asked + [at], at - l.seconds)| <= l.times
    ensures LocallyBounded(l, xs + [Admission(at, Local(p))], p)
  {
    var x := Admission(at, Local(p));
    AfterAppend(asked, at, at - l.seconds);
    forall w ensures CountIf(xs + [x], LocalIn(l, w, p)) <= Positive(l.times) {
      CountAppend(xs, x, LocalIn(l, w, p));
      if Within(l, w, x) {
        CountWeaker(xs, LocalIn(l, w, p), LocalAfter(p, at - l.seconds));
      }
    }
  }

  lemma BucketStillMatches(l: Limit, asked: seq<Time>, bucket: seq<Time>, at: Time)
    requires l.seconds > 0.0 && BucketMatches(l, bucket, asked) && (asked != [] ==> Last(asked) <= at)
    ensures BucketMatches(l, Slide(bucket, at, l.seconds), asked + [at])
  {
    BucketIsFilteredHistory(l, asked, bucket, at);
    assert Last(asked + [at]) == at;
  }

  /** What the fallback does to its own process, on the parts it reads. */
  lemma CallKeepsParts(
    l: Limit, xs: seq<Admission>, asked: seq<Time>, bucket: seq<Time>, p: ProcessId, at: Time)
    requires l.seconds > 0.0 && BucketMatches(l, bucket, asked) && (asked != [] ==> Last(asked) <= at)
    requires LocallyAsked(xs, asked, p) && LocallyBounded(l, xs, p)
    ensures var ok := |Slide(bucket, at, l.seconds)| <= l.times;
            var xs' := if ok then xs + [Admission(at, Local(p))] else xs;
            LocallyAsked(xs', asked + [at], p) && LocallyBounded(l, xs', p)
  {
    BucketIsFilteredHistory(l, asked, bucket, at);
    AskedOnceMore(xs, asked, p, at);
    if |After(asked + [at], at - l.seconds)| <= l.times {
      LetThroughOnceMore(l, xs, asked, p, at);
    }
  }

  lemma LocalFallback(l: Limit, s: State, p: ProcessId, at: Time)
    requires l.seconds > 0.0 && LocalInvFor(l, s, p) && at == s.now
    ensures LocalInvFor(l, Fallback(l, s, p, at), p)
  {
    BucketStillMatches(l, Bucket(s.asked, p), Bucket(s.memory, p), at);
    CallKeepsParts(l, s.admitted, Bucket(s.asked, p), Bucket(s.memory, p), p, at);
  }

  lemma LocalAfterFallback(l: Limit, s: State, b: State, q: ProcessId, at: Time, p: ProcessId)
    requires l.seconds > 0.0 && LocalInvFor(l, s, p) && s.now <= at == b.now
    requires b.memory == s.memory && b.asked == s.asked && b.admitted == s.admitted
    ensures LocalInvFor(l, Fallback(l, b, q, at), p)
  {
    LocalUnaffected(l, s, b, p);
    if q == p {
      LocalFallback(l, b, p, at);
    } else {
      LocalUnaffected(l, b, Fallback(l, b, q, at), p);
    }
  }

  lemma LocalStep(l: Limit, s: State, st: Step)
    requires l.seconds > 0.0 && LocalInv(l, s) && Enabled(s, st)
    ensures LocalInv(l, Next(l, s, st))
  {
    var s' := Next(l, s, st);
    forall p ensures LocalInvFor(l, s', p) {
      assert LocalInvFor(l, s, p);
      match st
      case FallBack(k, at) =>
        LocalAfterFallback(l, s, s.(now := at, failing := Without(s.failing, k)), s.failing[k], at, p);
      case _ => LocalUnaffected(l, s, s', p);
    }
  }

  // ---------------------------------------------------------------- whole runs

  datatype Trace = Trace(states: seq<State>, steps: seq<Step>)

  ghost predicate Possible(workers: nat, s: State, st: Step) {
    Enabled(s, st) && (st.Incr? || st.IncrLost? ==> st.process < workers)
  }

  /** Any interleaving of calls of processes 0 to `workers - 1` from `s`, with any pattern of failing counter calls. */
  ghost predicate Continues(l: Limit, workers: nat, s: State, t: Trace) {
    |t.states| == |t.steps| + 1 && t.states[0] == s &&
    forall i :: 0 <= i < |t.steps| ==>
      Possible(workers, t.states[i], t.steps[i]) && t.states[i + 1] == Next(l, t.states[i], t.steps[i])
  }

  ghost predicate ValidTrace(l: Limit, workers: nat, t: Trace) {
    t.states != [] && Continues(l, workers, Initial(t.states[0].now), t)
  }

  ghost predicate KnownProcesses(workers: nat, s: State) {
    (forall k :: 0 <= k < |s.awaiting| ==> s.awaiting[k] < workers) &&
    (forall k :: 0 <= k < |s.failing| ==> s.failing[k] < workers) &&
    (forall a :: a in s.admitted && a.via.Local? ==> a.via.process < workers)
  }

  lemma KnownStep(l: Limit, workers: nat, s: State, st: Step)
    requires KnownProcesses(workers, s) && Possible(workers, s, st)
    ensures KnownProcesses(workers, Next(l, s, st))
  {
  }

  lemma InitialInv(l: Limit, now: Time)
    ensures LivesInv(l, Initial(now)) && TimesInv(l, Initial(now)) && LocalInv(l, Initial(now))
  {
    forall p ensures LocalInvFor(l, Initial(now), p) {}
  }

  lemma {:induction false} TraceInv(l: Limit, workers: nat, t: Trace, i: nat)
    requires l.seconds > 0.0 && ValidTrace(l, workers, t) && i < |t.states|
    ensures LivesInv(l, t.states[i]) && TimesInv(l, t.states[i]) && LocalInv(l, t.states[i])
    ensures KnownProcesses(workers, t.states[i])
  {
    if i == 0 {
      InitialInv(l, t.states[0].now);
    } else {
      TraceInv(l, workers, t, i - 1);
      KnownStep(l, workers, t.states[i - 1], t.steps[i - 1]);
      LivesStep(l, t.states[i - 1], t.steps[i - 1]);
      TimesStep(l, t.states[i - 1], t.steps[i - 1]);
      LocalStep(l, t.states[i - 1], t.steps[i - 1]);
    }
  }

  /** In every reachable state each process's bucket is its full call history filtered to the last window. */
  lemma BucketsAreFilteredHistories(l: Limit, workers: nat, t: Trace, i: nat, p: ProcessId)
    requires l.seconds > 0.0 && ValidTrace(l, workers, t) && i < |t.states|
    ensures BucketMatches(l, Bucket(t.states[i].memory, p), Bucket(t.states[i].asked, p))
  {
    TraceInv(l, workers, t, i);
    assert LocalInvFor(l, t.states[i], p);
  }

  /** Among the admissions satisfying `f`, one of the least generation. */
  lemma OldestIn(
    xs: seq<Admission>, f: Admission -> bool, some: Admission) returns (oldest: Admission)
    requires some in xs && f(some) && forall x :: x in xs && f(x) ==> x.via.Shared?
    ensures oldest in xs && f(oldest)
    ensures forall x :: x in xs && f(x) ==> oldest.via.generation <= x.via.generation
  {
    oldest := some;
    for i := 0 to |xs|
      invariant oldest in xs && f(oldest)
      invariant forall k :: 0 <= k < i && f(xs[k]) ==> oldest.via.generation <= xs[k].via.generation
    {
      if f(xs[i]) && xs[i].via.generation < oldest.via.generation {
        oldest := xs[i];
      }
    }
  }

  /** One window meets at most two lives, and if two then not the first admission of the older one. */
  lemma SharedWindowBound(l: Limit, s: State, w: Time)
    requires LivesInv(l, s) && TimesInv(l, s) && l.times >= 1
    ensures CountIf(s.admitted, SharedIn(l, w)) <= 2 * l.times - 1
  {
    var inWindow := SharedIn(l, w);
    if a :| a in s.admitted && inWindow(a) {
      var oldest := OldestIn(s.admitted, inWindow, a);
      var g := oldest.via.generation;
      var later: Admission -> bool := x => LaterOf(g)(x) || FirstOf(g)(x);
      var newer: Admission -> bool := x => LaterOf(g + 1)(x) || FirstOf(g + 1)(x);
      forall x | x in s.admitted && inWindow(x) ensures later(x) || newer(x) {
        assert g <= x.via.generation;
        assert !Older(oldest, x.via.generation);
      }
      CountCovered(s.admitted, inWindow, later, newer);
      CountCovered(s.admitted, later, LaterOf(g), FirstOf(g));
      CountCovered(s.admitted, newer, LaterOf(g + 1), FirstOf(g + 1));
      if b :| b in s.admitted && inWindow(b) && b.via.generation == g + 1 {
        forall x | x in s.admitted && inWindow(x) ensures LaterOf(g)(x) || newer(x) {
          assert !Older(x, b.via.generation);
        }
        CountCovered(s.admitted, inWindow, LaterOf(g), newer);
      } else {
        CountWeaker(s.admitted, inWindow, later);
      }
    } else {
      CountNone(s.admitted, inWindow);
    }
  }

  function SharedOrBelow(l: Limit, w: Time, n: nat): Admission -> bool {
    a => Within(l, w, a) && (a.via.Shared? || a.via.process < n)
  }

  lemma {:induction false} WorkersAddUp(l: Limit, s: State, w: Time, n: nat)
    requires LivesInv(l, s) && TimesInv(l, s) && LocalInv(l, s) && l.times >= 1
    ensures CountIf(s.admitted, SharedOrBelow(l, w, n)) <= (n + 2) * l.times - 1
  {
    if n == 0 {
      SharedWindowBound(l, s, w);
      CountWeaker(s.admitted, SharedOrBelow(l, w, 0), SharedIn(l, w));
    } else {
      WorkersAddUp(l, s, w, n - 1);
      CountCovered(s.admitted, SharedOrBelow(l, w, n), SharedOrBelow(l, w, n - 1), LocalIn(l, w, n - 1));
      assert LocalInvFor(l, s, n - 1);
      assert (n + 2) * l.times == (n - 1 + 2) * l.times + l.times;
    }
  }

  lemma {:induction false} NothingAdmitted(l: Limit, workers: nat, t: Trace, i: nat)
    requires l.times <= 0 && ValidTrace(l, workers, t) && i < |t.states|
    ensures t.states[i].admitted == []
  {
    if i == 0 {
    } else {
      NothingAdmitted(l, workers, t, i - 1);
    }
  }

  /**
   With W workers, any window of the limiter's length admits at most
   (W + 2) * times - 1 calls per key, and none when `times` is not positive.
   */
  lemma WindowBound(l: Limit, workers: nat, t: Trace, i: nat, w: Time)
    requires l.seconds > 0.0 && ValidTrace(l, workers, t) && i < |t.states|
    ensures CountIf(t.states[i].admitted, InWindow(l, w)) <= if l.times >= 1 then (workers + 2) * l.times - 1 else 0
  {
    if l.times >= 1 {
      TraceInv(l, workers, t, i);
      WorkersAddUp(l, t.states[i], w, workers);
      CountWeaker(t.states[i].admitted, InWindow(l, w), SharedOrBelow(l, w, workers));
    } else {
      NothingAdmitted(l, workers, t, i);
    }
  }

  // ---------------------------------------------------------------- the bound is reached

  /** A trace of legal steps from `s`, built up by appending. */
  lemma Extend(l: Limit, workers: nat, s: State, t: Trace, st: Step) returns (t': Trace)
    requires Continues(l, workers, s, t) && Possible(workers, Last(t.states), st)
    ensures Continues(l, workers, s, t') && Last(t'.states) == Next(l, Last(t.states), st)
  {
    t' := Trace(t.states + [Next(l, Last(t.states), st)], t.steps + [st]);
  }

  /** `xs'` counts `n` more admissions than `xs` in the windows that `at` lies in, and as many in the others. */
  ghost predicate MoreAt(l: Limit, xs: seq<Admission>, xs': seq<Admission>, at: Time, n: nat) {
    forall w :: CountIf(xs', InWindow(l, w)) == CountIf(xs, InWindow(l, w)) + (if w < at <= w + l.seconds then n else 0)
  }

  ghost predicate MoreShared(l: Limit, s: State, s': State, at: Time, n: nat) {
    s'.now == at && s'.awaiting == [] && s'.failing == s.failing && s'.memory == s.memory &&
    MoreAt(l, s.admitted, s'.admitted, at, n)
  }

  lemma OneMoreAdmitted(l: Limit, xs: seq<Admission>, x: Admission)
    ensures MoreAt(l, xs, xs + [x], x.at, 1)
  {
    forall w { CountAppend(xs, x, InWindow(l, w)); }
  }

  /** A new life of the counter, with its first call let through. */
  lemma StartLife(l: Limit, workers: nat, s: State, t: Trace, at: Time, vanished: bool)
    returns (t': Trace)
    requires Continues(l, workers, s, t) && Last(t.states).awaiting == [] && workers >= 1 && l.times >= 1
    requires at >= Last(t.states).now && (!vanished ==> Last(t.states).counter.None?)
    requires vanished ==> Enabled(Last(t.states), Incr(0, at, true))
    ensures Continues(l, workers, s, t') && MoreShared(l, Last(t.states), Last(t'.states), at, 1)
    ensures Last(t'.states).counter == Some(Counter(1, Some(at + l.seconds)))
  {
    var before := Last(t.states);
    t' := Extend(l, workers, s, t, Incr(0, at, vanished));
    assert Last(t'.states).awaiting == [0] && Without([0], 0) == [];
    t' := Extend(l, workers, s, t', ExpireDone(0, at));
    OneMoreAdmitted(l, before.admitted, Last(Last(t'.states).admitted));
  }

  /** `n` more calls let through by the counter's current life. */
  lemma {:induction false} FillLife(l: Limit, workers: nat, s: State, t: Trace, at: Time, n: nat) returns (t': Trace)
    requires Continues(l, workers, s, t) && Last(t.states).awaiting == [] && workers >= 1
    requires at >= Last(t.states).now && Last(t.states).counter.Some?
    requires 1 <= Last(t.states).counter.value.count && Last(t.states).counter.value.count + n <= l.times
    ensures Continues(l, workers, s, t') && (n > 0 ==> MoreShared(l, Last(t.states), Last(t'.states), at, n))
    ensures Last(t'.states).counter ==
            Some(Last(t.states).counter.value.(count := Last(t.states).counter.value.count + n))
    ensures n == 0 ==> t' == t
  {
    if n == 0 {
      t' := t;
    } else {
      t' := FillLife(l, workers, s, t, at, n - 1);
      var before := Last(t'.states);
      t' := Extend(l, workers, s, t', Incr(0, at, false));
      OneMoreAdmitted(l, before.admitted, Last(Last(t'.states).admitted));
    }
  }

  /** A window of calls at one moment. */
  ghost predicate AllAt(ts: seq<Time>, at: Time) {
    forall i :: 0 <= i < |ts| ==> ts[i] == at
  }

  lemma {:induction false} AllStay(ts: seq<Time>, at: Time, cutoff: Time)
    requires AllAt(ts, at) && cutoff < at
    ensures After(ts, cutoff) == ts
  {
    if ts == [] {
    } else {
      AllStay(ts[..|ts| - 1], at, cutoff);
    }
  }

  lemma OneLost(l: Limit, workers: nat, s: State, t: Trace, p: ProcessId, at: Time)
    returns (t': Trace)
    requires Continues(l, workers, s, t) && Last(t.states).now == at && p < workers && l.seconds > 0.0
    requires AllAt(Bucket(Last(t.states).memory, p), at) && |Bucket(Last(t.states).memory, p)| < l.times
    ensures Continues(l, workers, s, t') && Last(t'.states).now == at
    ensures Bucket(Last(t'.states).memory, p) == Bucket(Last(t.states).memory, p) + [at]
    ensures forall q :: q != p ==> Bucket(Last(t'.states).memory, q) == Bucket(Last(t.states).memory, q)
    ensures MoreAt(l, Last(t.states).admitted, Last(t'.states).admitted, at, 1)
  {
    var before := Last(t.states);
    AllStay(Bucket(before.memory, p), at, at - l.seconds);
    t' := Extend(l, workers, s, t, IncrLost(p, at, false, false));
    t' := Extend(l, workers, s, t', FallBack(|before.failing|, at));
    assert Last(t'.states).admitted == before.admitted + [Admission(at, Local(p))];
    OneMoreAdmitted(l, before.admitted, Admission(at, Local(p)));
  }

  /** `n` lost calls of one process, let through by its own window. */
  lemma {:induction false} FillWindow(l: Limit, workers: nat, s: State, t: Trace, p: ProcessId, at: Time, n: nat)
    returns (t': Trace)
    requires Continues(l, workers, s, t) && Last(t.states).now == at && p < workers && l.seconds > 0.0
    requires Bucket(Last(t.states).memory, p) == [] && n <= l.times
    ensures Continues(l, workers, s, t') && Last(t'.states).now == at
    ensures |Bucket(Last(t'.states).memory, p)| == n && AllAt(Bucket(Last(t'.states).memory, p), at)
    ensures forall q :: q != p ==> Bucket(Last(t'.states).memory, q) == Bucket(Last(t.states).memory, q)
    ensures MoreAt(l, Last(t.states).admitted, Last(t'.states).admitted, at, n)
  {
    if n == 0 {
      t' := t;
    } else {
      t' := FillWindow(l, workers, s, t, p, at, n - 1);
      t' := OneLost(l, workers, s, t', p, at);
    }
  }

  /** Lost calls of the first `n` processes fill their windows. */
  lemma {:induction false} FillWindows(l: Limit, workers: nat, s: State, t: Trace, at: Time, n: nat)
    returns (t': Trace)
    requires Continues(l, workers, s, t) && Last(t.states).now == at && n <= workers && l.seconds > 0.0 && l.times >= 0
    requires Last(t.states).memory == map[]
    ensures Continues(l, workers, s, t') && Last(t'.states).now == at
    ensures forall q :: q >= n ==> Bucket(Last(t'.states).memory, q) == []
    ensures MoreAt(l, Last(t.states).admitted, Last(t'.states).admitted, at, n * l.times)
  {
    if n == 0 {
      t' := t;
    } else {
      t' := FillWindows(l, workers, s, t, at, n - 1);
      t' := FillWindow(l, workers, s, t', n - 1, at, l.times);
      assert n * l.times == (n - 1) * l.times + l.times;
    }
  }

  /** Two lives of the counter inside one window: the first without its first call, the second whole. */
  lemma TwoLives(l: Limit, workers: nat) returns (t: Trace)
    requires l.seconds > 0.0 && l.times >= 1 && workers >= 1
    ensures Continues(l, workers, Initial(0.0), t)
    ensures Last(t.states).memory == map[] && Last(t.states).now == l.seconds
    ensures CountIf(Last(t.states).admitted, InWindow(l, 0.0)) == 2 * l.times - 1
  {
    var s, half, f := Initial(0.0), l.seconds / 2.0, InWindow(l, 0.0);
    t := StartLife(l, workers, s, Trace([s], []), 0.0, false);
    assert CountIf(Last(t.states).admitted, f) == 0;
    t := FillLife(l, workers, s, t, half, l.times - 1);
    assert CountIf(Last(t.states).admitted, f) == l.times - 1;
    t := StartLife(l, workers, s, t, l.seconds, true);
    assert CountIf(Last(t.states).admitted, f) == l.times;
    t := FillLife(l, workers, s, t, l.seconds, l.times - 1);
  }

  /** The bound is exact for every limit and any number of workers: some run fills a window up to it. */
  lemma BoundIsReached(l: Limit, workers: nat) returns (t: Trace, w: Time)
    requires l.seconds > 0.0 && l.times >= 1 && workers >= 1
    ensures ValidTrace(l, workers, t)
    ensures CountIf(Last(t.states).admitted, InWindow(l, w)) == (workers + 2) * l.times - 1
  {
    w := 0.0;
    t := TwoLives(l, workers);
    t := FillWindows(l, workers, Initial(0.0), t, l.seconds, workers);
  }

  lemma NoWorkersNoSteps(l: Limit, t: Trace)
    requires ValidTrace(l, 0, t)
    ensures t.steps == []
  {
    assert 0 < |t.steps| ==> Possible(0, t.states[0], t.steps[0]);
  }

  /** What the limiter's name promises: no window ever holds more than `times` calls. */
  ghost predicate NeverExceeds(l: Limit, workers: nat) {
    forall t, i, w :: ValidTrace(l, workers, t) && 0 <= i < |t.states| ==>
      CountIf(t.states[i].admitted, InWindow(l, w)) <= Positive(l.times)
  }

  lemma AboveLimit(times: int, workers: nat)
    requires times >= 1 && workers >= 1
    ensures (workers + 2) * times - 1 > times
  {
    assert (workers + 2) * times == (workers - 1) * times + 3 * times;
    assert (workers - 1) * times >= 0;
  }

  /** It is kept exactly when there is nobody to let through, or nothing may be let through. */
  lemma ExceedsIffAnyone(l: Limit, workers: nat)
    requires l.seconds > 0.0
    ensures NeverExceeds(l, workers) <==> workers == 0 || l.times <= 0
  {
    if workers == 0 || l.times <= 0 {
      forall t, i, w | ValidTrace(l, workers, t) && 0 <= i < |t.states|
        ensures CountIf(t.states[i].admitted, InWindow(l, w)) <= Positive(l.times)
      {
        if workers == 0 {
          NoWorkersNoSteps(l, t);
        } else {
          WindowBound(l, workers, t, i, w);
        }
      }
    } else {
      var t, w := BoundIsReached(l, workers);
      assert t.states[|t.states| - 1] == Last(t.states);
      assert (workers + 2) * l.times - 1 > l.times by { AboveLimit(l.times, workers); }
    }
  }

  // ---------------------------------------------------------------- a key can be locked out

  /** The counter exists, has no expiry time, and no call is about to set one. */
  predicate Orphaned(s: State) {
    s.counter.Some? && s.counter.value.expiresAt.None? && s.awaiting == []
  }

  /** `later` continues `earlier` by local admissions only. */
  ghost predicate OnlyLocalSince(earlier: seq<Admission>, later: seq<Admission>) {
    earlier <= later && forall j :: |earlier| <= j < |later| ==> later[j].via.Local?
  }

  lemma OrphanedStep(l: Limit, s: State, st: Step)
    requires Enabled(s, st) && Orphaned(s) && s.counter.value.count >= l.times && s.counter.value.count >= 1
    ensures Orphaned(Next(l, s, st)) && Next(l, s, st).counter.value.count >= s.counter.value.count
    ensures OnlyLocalSince(s.admitted, Next(l, s, st).admitted)
  {
  }

  /**
   When the EXPIRE of a life's first call is lost, the counter never expires:
   once it has reached the limit, it lets nothing through for the rest of the run.
   */
  lemma {:induction false} OrphanedKeyIsLockedOut(l: Limit, workers: nat, s: State, t: Trace, k: nat)
    requires Continues(l, workers, s, t) && k < |t.states|
    requires Orphaned(s) && s.counter.value.count >= l.times && s.counter.value.count >= 1
    ensures Orphaned(t.states[k]) && t.states[k].counter.value.count >= s.counter.value.count
    ensures OnlyLocalSince(s.admitted, t.states[k].admitted)
  {
    if k == 0 {
    } else {
      OrphanedKeyIsLockedOut(l, workers, s, t, k - 1);
      OrphanedStep(l, t.states[k - 1], t.steps[k - 1]);
    }
  }

  lemma OneStepAdmits(l: Limit, workers: nat, s: State, st: Step)
    requires Possible(workers, s, st) && ((workers == 0 && s.awaiting == []) || l.times <= 0)
    ensures OnlyLocalSince(s.admitted, Next(l, s, st).admitted)
  {
  }

  lemma {:induction false} NothingLeftToAdmit(l: Limit, workers: nat, s: State, t: Trace, k: nat)
    requires Continues(l, workers, s, t) && k < |t.states|
    requires (workers == 0 && s.awaiting == []) || l.times <= 0
    ensures OnlyLocalSince(s.admitted, t.states[k].admitted)
    ensures workers == 0 && s.awaiting == [] ==> t.states[k].awaiting == []
  {
    if k == 0 {
    } else {
      NothingLeftToAdmit(l, workers, s, t, k - 1);
      assert Possible(workers, t.states[k - 1], t.steps[k - 1]);
      OneStepAdmits(l, workers, t.states[k - 1], t.steps[k - 1]);
    }
  }

  /** From `s` on, whatever happens, the counter lets nothing through any more. */
  ghost predicate NeverAgain(l: Limit, workers: nat, s: State) {
    forall t :: Continues(l, workers, s, t) ==> OnlyLocalSince(s.admitted, Last(t.states).admitted)
  }

  ghost predicate LockedOut(l: Limit, workers: nat, s: State) {
    workers == 0 || l.times <= 0 || (Orphaned(s) && s.counter.value.count >= l.times)
  }

  /** From a reachable state that is not locked out some continuation is let through by the counter. */
  lemma SomeoneGetsThrough(l: Limit, workers: nat, s: State) returns (t: Trace)
    requires LivesInv(l, s) && !LockedOut(l, workers, s)
    ensures Continues(l, workers, s, t) && !OnlyLocalSince(s.admitted, Last(t.states).admitted)
  {
    t := Trace([s], []);
    if s.awaiting != [] {
      t := Extend(l, workers, s, t, ExpireDone(0, s.now));
    } else if s.counter.Some? && s.counter.value.expiresAt.None? {
      t := Extend(l, workers, s, t, Incr(0, s.now, false));
    } else {
      var vanished := s.counter.Some?;
      var at := if vanished && s.counter.value.expiresAt.value > s.now then s.counter.value.expiresAt.value else s.now;
      t := Extend(l, workers, s, t, Incr(0, at, vanished));
      t := Extend(l, workers, s, t, ExpireDone(0, at));
    }
    var later := Last(t.states).admitted;
    assert later == s.admitted + [Last(later)] && Last(later).via.Shared?;
    assert later[|s.admitted|].via.Shared?;
  }

  /** A limited key recovers, except for a full counter that was left without an expiry time. */
  lemma LockedOutIff(l: Limit, workers: nat, t: Trace, i: nat)
    requires l.seconds > 0.0 && ValidTrace(l, workers, t) && i < |t.states|
    ensures NeverAgain(l, workers, t.states[i]) <==> LockedOut(l, workers, t.states[i])
  {
    var s := t.states[i];
    TraceInv(l, workers, t, i);
    if LockedOut(l, workers, s) {
      forall c | Continues(l, workers, s, c) ensures OnlyLocalSince(s.admitted, Last(c.states).admitted) {
        if workers > 0 && l.times > 0 {
          OrphanedKeyIsLockedOut(l, workers, s, c, |c.states| - 1);
        } else {
          assert workers == 0 ==> s.awaiting == [] by {
            if workers == 0 { NoWorkersNoSteps(l, t); }
          }
          NothingLeftToAdmit(l, workers, s, c, |c.states| - 1);
        }
      }
    } else {
      var c := SomeoneGetsThrough(l, workers, s);
    }
  }

  lemma {:induction false} FillOrphan(l: Limit, workers: nat, s: State, t: Trace, n: nat) returns (t': Trace)
    requires Continues(l, workers, s, t) && Orphaned(Last(t.states)) && workers >= 1
    requires Last(t.states).counter.value.count >= 1
    ensures Continues(l, workers, s, t') && Orphaned(Last(t'.states))
    ensures Last(t'.states).counter.value.count == Last(t.states).counter.value.count + n
  {
    if n == 0 {
      t' := t;
    } else {
      t' := FillOrphan(l, workers, s, t, n - 1);
      t' := Extend(l, workers, s, t', Incr(0, Last(t'.states).now, false));
    }
  }

  /** A locked-out key is reached by losing one EXPIRE and counting up to the limit. */
  lemma LockOutIsReached(l: Limit, workers: nat) returns (t: Trace)
    requires workers >= 1
    ensures ValidTrace(l, workers, t) && Orphaned(Last(t.states)) && Last(t.states).counter.value.count >= l.times
  {
    var s := Initial(0.0);
    t := Extend(l, workers, s, Trace([s], []), Incr(0, 0.0, false));
    assert Last(t.states).awaiting == [0] && Without([0], 0) == [];
    t := Extend(l, workers, s, t, ExpireLost(0, 0.0, false));
    if l.times > 1 {
      t := FillOrphan(l, workers, s, t, l.times - 1);
    }
  }
}
