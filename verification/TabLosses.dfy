/** A tab on any network: exactly which runs end in the reuse branch. */
module TabLosses {
  import opened Prelude
  import opened RefreshTokens
  import opened RefreshTokenRuns
  import opened BrowserTab
  import opened TabSession

  /** Any interleaving with any losses. */
  ghost predicate AnyTrace(t: Trace) {
    |t.worlds| == |t.steps| + 1 && Opened(t.worlds[0]) &&
    forall i :: 0 <= i < |t.steps| ==>
      Enabled(t.worlds[i], t.steps[i]) && t.worlds[i + 1] == Next(t.worlds[i], t.steps[i])
  }

  /** The step loses an answer with a successor for this token. */
  function Lost(w: World, s: Step): set<Jwt> {
    if s.LoseAnswer? && s.flight in w.flights && w.flights[s.flight].Answered? && w.flights[s.flight].answer.Some?
    then {w.flights[s.flight].token} else {}
  }

  function LostBefore(t: Trace, i: nat): set<Jwt>
    requires i <= |t.steps| < |t.worlds|
  {
    if i == 0 then {} else LostBefore(t, i - 1) + Lost(t.worlds[i - 1], t.steps[i - 1])
  }

  /** A refresh of the tab is taken for a replay. */
  predicate Replays(w: World, s: Step) {
    s.ServeFlight? && Serve(w.server, s.event).reply == Refused(ReuseDetected)
  }

  /** Step `i` serves a refresh with an unexpired token whose successor was lost before. */
  predicate ServesLost(t: Trace, i: nat)
    requires i < |t.steps| < |t.worlds|
  {
    t.steps[i].ServeFlight? && t.steps[i].flight in t.worlds[i].flights &&
    var jwt := t.worlds[i].flights[t.steps[i].flight].token;
    jwt in LostBefore(t, i) && t.steps[i].event.now < jwt.exp
  }

  ghost predicate AllSpent(s: Server, tokens: set<Jwt>) {
    forall jwt :: jwt in tokens ==> jwt in s.signed && jwt.jti in s.table && s.table[jwt.jti].revokedAt.Some?
  }

  ghost predicate LossyInv(w: World, lost: set<Jwt>) {
    WorldInv(true, lost, w) && AllSpent(w.server, lost)
  }

  lemma MoreStale(stale: set<Jwt>, more: set<Jwt>, w: World)
    requires WorldInv(true, stale, w) && stale <= more
    ensures WorldInv(true, more, w)
  {
  }

  /** An answer with a successor that gets lost leaves its token spent. */
  lemma LostAnswerKeepsInv(w: World, f: FlightId, lost: set<Jwt>)
    requires LossyInv(w, lost) && Enabled(w, LoseAnswer(f)) && w.flights[f].answer.Some?
    ensures LossyInv(Next(w, LoseAnswer(f)), lost + {w.flights[f].token})
  {
    var spent := w.flights[f].token;
    if LiveToken(w.server, spent) {
      OneLiveToken(w.server, spent, w.flights[f].answer.value);
    }
    MoreStale(lost, lost + {spent}, w);
    var w' := Next(w, LoseAnswer(f));
    assert w'.flights.Keys == w.flights.Keys == {f};
    assert w'.flights[f].Answered? && w'.flights[f].token == spent;
  }

  lemma SpentStays(s: Server, e: Event, lost: set<Jwt>)
    requires Legal(s, e) && AllSpent(s, lost)
    ensures AllSpent(Serve(s, e).server, lost)
  {
    var s' := Serve(s, e).server;
    forall jwt | jwt in lost ensures jwt.jti in s'.table && s'.table[jwt.jti] == s.table[jwt.jti] {
      RevokedRowStays(s, e, jwt.jti);
    }
  }

  lemma LossyStep(w: World, s: Step, lost: set<Jwt>)
    requires LossyInv(w, lost) && Enabled(w, s) && !Replays(w, s)
    ensures LossyInv(Next(w, s), lost + Lost(w, s))
  {
    if Lost(w, s) != {} {
      LostAnswerKeepsInv(w, s.flight, lost);
    } else {
      assert lost + Lost(w, s) == lost;
      if s.ServeFlight? && w.flights[s.flight].token in lost && s.event.now < w.flights[s.flight].token.exp {
        ExchangedTokenReused(w.server, s.event, w.flights[s.flight].token);
      }
      StepKeepsInv(true, lost, w, s);
      if s.ServeFlight? || s.ServeSignIn? || s.Elsewhere? {
        SpentStays(w.server, s.event, lost);
      }
    }
  }

  lemma {:induction false} LossyTraceKeepsInv(t: Trace, i: nat)
    requires AnyTrace(t) && i < |t.worlds| && forall j :: 0 <= j < i ==> !Replays(t.worlds[j], t.steps[j])
    ensures LossyInv(t.worlds[i], LostBefore(t, i))
  {
    if i == 0 {
    } else {
      LossyTraceKeepsInv(t, i - 1);
      LossyStep(t.worlds[i - 1], t.steps[i - 1], LostBefore(t, i - 1));
    }
  }

  /** The first replay is the first refresh with an unexpired token whose successor was lost. */
  lemma FirstReplayIff(t: Trace, i: nat)
    requires AnyTrace(t) && i < |t.steps| && forall j :: 0 <= j < i ==> !Replays(t.worlds[j], t.steps[j])
    ensures Replays(t.worlds[i], t.steps[i]) <==> ServesLost(t, i)
  {
    LossyTraceKeepsInv(t, i);
    var w, s := t.worlds[i], t.steps[i];
    if s.ServeFlight? {
      var jwt := w.flights[s.flight].token;
      if jwt in LostBefore(t, i) && s.event.now < jwt.exp {
        ExchangedTokenReused(w.server, s.event, jwt);
      } else {
        ServeFlightKeepsInv(true, LostBefore(t, i), w, s.flight, s.event);
      }
    }
  }

  lemma {:induction false} SomeFirstReplay(t: Trace, i: nat) returns (first: nat)
    requires |t.steps| < |t.worlds| && i < |t.steps| && Replays(t.worlds[i], t.steps[i])
    ensures first <= i && Replays(t.worlds[first], t.steps[first])
    ensures forall j :: 0 <= j < first ==> !Replays(t.worlds[j], t.steps[j])
  {
    if j: nat :| j < i && Replays(t.worlds[j], t.steps[j]) {
      first := SomeFirstReplay(t, j);
    } else {
      first := i;
    }
  }

  /**
   On any network, a run reaches the reuse branch if and only if some refresh of it
   is served with an unexpired token whose answer with a successor was lost before.
   */
  lemma ReplayedIffLostIsServed(t: Trace)
    requires AnyTrace(t)
    ensures (exists i: nat :: i < |t.steps| && Replays(t.worlds[i], t.steps[i])) <==>
            (exists i: nat :: i < |t.steps| && ServesLost(t, i))
  {
    if i: nat :| i < |t.steps| && Replays(t.worlds[i], t.steps[i]) {
      var first := SomeFirstReplay(t, i);
      FirstReplayIff(t, first);
    } else if i: nat :| i < |t.steps| && ServesLost(t, i) {
      FirstReplayIff(t, i);
    }
  }
}
