/**
 The rate limiter for one key: a counter shared by all worker processes, and in
 each process a sliding window used whenever a call on the counter fails.
 */
module RateLimit {
  import opened Prelude

  type Time = real
  type ProcessId = nat

  datatype Limit = Limit(times: int, seconds: Time)

  /** A shared counter; without an expiry time it lives for ever. */
  datatype Counter = Counter(count: nat, expiresAt: Option<Time>)

  // ---------------------------------------------------------------- the two windows

  /** INCR: a vanished or absent counter starts again at one. */
  function Incremented(c: Option<Counter>, vanished: bool): Counter {
    if c.None? || vanished then Counter(1, None) else c.value.(count := c.value.count + 1)
  }

  /** EXPIRE: has no effect on an absent key. */
  function Expiring(c: Option<Counter>, at: Time): Option<Counter> {
    if c.None? then None else Some(c.value.(expiresAt := Some(at)))
  }

  function After(ts: seq<Time>, cutoff: Time): (kept: seq<Time>)
    ensures |kept| <= |ts|
  {
    if ts == [] then []
    else After(ts[..|ts| - 1], cutoff) + (if Last(ts) > cutoff then [Last(ts)] else [])
  }

  /** The in-process bucket after a call at `now`. */
  function Slide(bucket: seq<Time>, now: Time, seconds: Time): seq<Time> {
    After(bucket, now - seconds) + [now]
  }

  // ---------------------------------------------------------------- interleaved calls

  /**
   How a call was let through: by the counter's `generation`-th life, as its first
   call or a later one, or by one process's own window.
   */
  datatype Via = Shared(generation: nat, first: bool) | Local(process: ProcessId)

  datatype Admission = Admission(at: Time, via: Via)

  /**
   `awaiting` are calls that got count one and have not run EXPIRE yet, `failing`
   calls whose exception has not reached them yet; `asked` is every local call ever.
   */
  datatype State = State(
    counter: Option<Counter>, generation: nat, awaiting: seq<ProcessId>, failing: seq<ProcessId>,
    memory: map<ProcessId, seq<Time>>, asked: map<ProcessId, seq<Time>>,
    admitted: seq<Admission>, now: Time)

  function Initial(now: Time): State {
    State(None, 0, [], [], map[], map[], [], now)
  }

  /**
   A lost call raises at some later moment, if ever; `applied` tells whether the
   counter was changed all the same.
   */
  datatype Step =
    | Incr(process: ProcessId, at: Time, vanished: bool)
    | IncrLost(process: ProcessId, at: Time, vanished: bool, applied: bool)
    | ExpireDone(call: nat, at: Time)
    | ExpireLost(call: nat, at: Time, applied: bool)
    | FallBack(call: nat, at: Time)

  /** Time does not run backwards, and a key vanishes only at or after its expiry time. */
  predicate Enabled(s: State, st: Step) {
    st.at >= s.now &&
    (st.Incr? || st.IncrLost? ==>
      st.vanished ==> s.counter.Some? && s.counter.value.expiresAt.Some? && st.at >= s.counter.value.expiresAt.value) &&
    (st.ExpireDone? || st.ExpireLost? ==> st.call < |s.awaiting|) &&
    (st.FallBack? ==> st.call < |s.failing|)
  }

  function Admit(s: State, ok: bool, at: Time, via: Via): State {
    s.(admitted := if ok then s.admitted + [Admission(at, via)] else s.admitted)
  }

  function Bucket(m: map<ProcessId, seq<Time>>, p: ProcessId): seq<Time> {
    if p in m then m[p] else []
  }

  /** The fallback: decide with the process's own window. */
  function Fallback(l: Limit, s: State, p: ProcessId, at: Time): State {
    var bucket := Slide(Bucket(s.memory, p), at, l.seconds);
    Admit(s.(memory := s.memory[p := bucket], asked := s.asked[p := Bucket(s.asked, p) + [at]]),
          |bucket| <= l.times, at, Local(p))
  }

  function Count(s: State, vanished: bool): State {
    var c := Incremented(s.counter, vanished);
    s.(counter := Some(c), generation := if c.count == 1 then s.generation + 1 else s.generation)
  }

  function Without(calls: seq<ProcessId>, k: nat): seq<ProcessId>
    requires k < |calls|
  {
    calls[..k] + calls[k + 1..]
  }

  function Next(l: Limit, s: State, st: Step): State
    requires Enabled(s, st)
  {
    var s := s.(now := st.at);
    match st
    case Incr(p, at, vanished) =>
      var counted := Count(s, vanished);
      var c := counted.counter.value.count;
      if c == 1 then counted.(awaiting := s.awaiting + [p])
      else Admit(counted, c <= l.times, at, Shared(counted.generation, false))
    case IncrLost(p, at, vanished, applied) =>
      (if applied then Count(s, vanished) else s).(failing := s.failing + [p])
    case ExpireDone(k, at) =>
      Admit(s.(counter := Expiring(s.counter, at + l.seconds), awaiting := Without(s.awaiting, k)),
            1 <= l.times, at, Shared(s.generation, true))
    case ExpireLost(k, at, applied) =>
      s.(counter := if applied then Expiring(s.counter, at + l.seconds) else s.counter,
         awaiting := Without(s.awaiting, k), failing := s.failing + [s.awaiting[k]])
    case FallBack(k, at) =>
      Fallback(l, s.(failing := Without(s.failing, k)), s.failing[k], at)
  }

  // ---------------------------------------------------------------- one call, undisturbed

  /** How a call on the shared store goes: it works, or it raises with or without having taken effect. */
  datatype Fate = Works | Raises(applied: bool)

  /** Whether the decision falls to the process's own window. */
  predicate FallsBack(c: Option<Counter>, vanished: bool, incr: Fate, expire: Fate) {
    incr.Raises? || (Incremented(c, vanished).count == 1 && expire.Raises?)
  }

  function CounterAfter(
    l: Limit, c: Option<Counter>, at: Time, vanished: bool, incr: Fate, expire: Fate): Option<Counter>
  {
    var counted := Some(Incremented(c, vanished));
    if incr == Raises(false) then c
    else if incr.Raises? || counted.value.count != 1 || expire == Raises(false) then counted
    else Expiring(counted, at + l.seconds)
  }

  /** The decision: by the counter, or by the process's own window. */
  predicate Allows(
    l: Limit, c: Option<Counter>, bucket: seq<Time>, at: Time, vanished: bool, incr: Fate, expire: Fate)
  {
    if FallsBack(c, vanished, incr, expire) then |Slide(bucket, at, l.seconds)| <= l.times
    else Incremented(c, vanished).count <= l.times
  }

  /** The latest lost call falls back at once. */
  function Raised(l: Limit, s: State, at: Time): State
    requires s.failing != [] && at >= s.now
  {
    Next(l, s, FallBack(|s.failing| - 1, at))
  }

  /** The steps of one call of process `p` with no other call in between. */
  function Served(l: Limit, s: State, p: ProcessId, at: Time, vanished: bool, incr: Fate, expire: Fate): State
    requires Enabled(s, Incr(p, at, vanished)) && s.awaiting == []
  {
    match incr
    case Raises(applied) => Raised(l, Next(l, s, IncrLost(p, at, vanished, applied)), at)
    case Works =>
      var counted := Next(l, s, Incr(p, at, vanished));
      if counted.awaiting == [] then counted
      else
        match expire
        case Works => Next(l, counted, ExpireDone(0, at))
        case Raises(applied) => Raised(l, Next(l, counted, ExpireLost(0, at, applied)), at)
  }

  /** The counter, the window of `p` and the admissions of `s'` are those of one call on `s`. */
  ghost predicate CallDone(
    l: Limit, s: State, s': State, p: ProcessId, at: Time, vanished: bool, incr: Fate, expire: Fate)
  {
    var bucket := Bucket(s.memory, p);
    s'.awaiting == [] && s'.failing == s.failing && s'.now == at &&
    s'.counter == CounterAfter(l, s.counter, at, vanished, incr, expire) &&
    Bucket(s'.memory, p) ==
      (if FallsBack(s.counter, vanished, incr, expire) then Slide(bucket, at, l.seconds) else bucket) &&
    if Allows(l, s.counter, bucket, at, vanished, incr, expire)
    then s'.admitted != [] && s'.admitted == s.admitted + [Last(s'.admitted)] && Last(s'.admitted).at == at
    else s'.admitted == s.admitted
  }

  lemma RaisedCall(l: Limit, s: State, lost: State, p: ProcessId, at: Time)
    requires lost.now == at && lost.failing == s.failing + [p]
    ensures var s' := Raised(l, lost, at);
            s'.failing == s.failing && s' == Fallback(l, lost.(failing := s.failing), p, at)
  {
    assert Without(lost.failing, |s.failing|) == s.failing;
  }

  /** A fallback after the counter's part of the call has been done. */
  lemma FallbackDone(
    l: Limit, s: State, b: State, p: ProcessId, at: Time, vanished: bool, incr: Fate, expire: Fate)
    requires FallsBack(s.counter, vanished, incr, expire) && s.awaiting == []
    requires b == s.(counter := CounterAfter(l, s.counter, at, vanished, incr, expire), generation := b.generation,
                     now := at)
    ensures CallDone(l, s, Fallback(l, b, p, at), p, at, vanished, incr, expire)
  {
  }

  /** The first call of a life, when its EXPIRE works and when it does not. */
  lemma FirstCallDone(l: Limit, s: State, p: ProcessId, at: Time, vanished: bool)
    requires Enabled(s, Incr(p, at, vanished)) && s.awaiting == [] && Incremented(s.counter, vanished).count == 1
    ensures CallDone(l, s, Served(l, s, p, at, vanished, Works, Works), p, at, vanished, Works, Works)
  {
    var counted := Next(l, s, Incr(p, at, vanished));
    assert counted.awaiting == [p] && Without(counted.awaiting, 0) == [];
  }

  lemma FirstCallRaised(
    l: Limit, s: State, p: ProcessId, at: Time, vanished: bool, applied: bool)
    requires Enabled(s, Incr(p, at, vanished)) && s.awaiting == [] && Incremented(s.counter, vanished).count == 1
    ensures CallDone(
              l, s, Served(l, s, p, at, vanished, Works, Raises(applied)), p, at, vanished, Works, Raises(applied))
  {
    var counted := Next(l, s, Incr(p, at, vanished));
    assert counted.awaiting == [p] && Without(counted.awaiting, 0) == [];
    var lost := Next(l, counted, ExpireLost(0, at, applied));
    assert lost == counted.(failing := s.failing + [p], awaiting := [],
                            counter := CounterAfter(l, s.counter, at, vanished, Works, Raises(applied)));
    RaisedCall(l, s, lost, p, at);
    FallbackDone(l, s, lost.(failing := s.failing), p, at, vanished, Works, Raises(applied));
  }

  lemma LaterCall(l: Limit, s: State, p: ProcessId, at: Time, vanished: bool, expire: Fate)
    requires Enabled(s, Incr(p, at, vanished)) && s.awaiting == [] && Incremented(s.counter, vanished).count != 1
    ensures CallDone(l, s, Served(l, s, p, at, vanished, Works, expire), p, at, vanished, Works, expire)
  {
  }

  /** The steps of an undisturbed call do to the counter and the window, and admit, just what the call itself does. */
  lemma CallIsItsSteps(
    l: Limit, s: State, p: ProcessId, at: Time, vanished: bool, incr: Fate, expire: Fate)
    requires Enabled(s, Incr(p, at, vanished)) && s.awaiting == []
    ensures CallDone(l, s, Served(l, s, p, at, vanished, incr, expire), p, at, vanished, incr, expire)
  {
    if incr.Works? {
      if Incremented(s.counter, vanished).count == 1 {
        match expire
        case Works => FirstCallDone(l, s, p, at, vanished);
        case Raises(applied) => FirstCallRaised(l, s, p, at, vanished, applied);
      } else {
        LaterCall(l, s, p, at, vanished, expire);
      }
    } else {
      var lost := Next(l, s, IncrLost(p, at, vanished, incr.applied));
      RaisedCall(l, s, lost, p, at);
      FallbackDone(l, s, lost.(failing := s.failing), p, at, vanished, incr, expire);
    }
  }
}
