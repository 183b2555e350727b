/**
 The reload that waits for open turns (`pendingReload`).  A reload asked for while a turn is open is deferred; each
 `agent_end` handler closes its turn, talks to the worker, and then flushes: with no turn open it starts the reload.

 A step is a stretch of code between awaits.  Only the number of open turns matters here.
 */
module DeferredReload {
  import opened Prelude

  /** `reloadPromise`: none, one that is about to answer "deferred", or one that swaps the worker. */
  datatype Promise = Idle | Deferring | Swapping

  datatype State = State(
    turns: nat,       // activeTurns.size
    pending: bool,    // pendingReload is set
    closing: nat,     // agent_end handlers that have closed their turn and not yet flushed
    promise: Promise)

  const START := State(0, false, 0, Idle)

  datatype Event =
    | TurnOpens
    | OpenFails             // the open request fails and its turn is removed
    | AgentEnds(open: bool) // with a turn of its session, or without one
    | Flush
    | Request(stale: nat)   // a reload is asked for, and finds this many turns past their age limit
    | Settles

  predicate Possible(s: State, e: Event) {
    match e
    case OpenFails => s.turns > 0
    case AgentEnds(open) => open ==> s.turns > 0
    case Flush => s.closing > 0
    case Request(stale) => stale <= s.turns
    case Settles => !s.promise.Idle?
    case _ => true
  }

  /** `reload`: join the one in flight; else forget stale turns, and be deferred while one is open. */
  function Reload(s: State, stale: nat): State
    requires stale <= s.turns
  {
    if !s.promise.Idle? then s
    else s.(turns := s.turns - stale, promise := if s.turns > stale then Deferring else Swapping)
  }

  function Step(s: State, e: Event): State
    requires Possible(s, e)
  {
    match e
    case TurnOpens => s.(turns := s.turns + 1)
    case OpenFails => s.(turns := s.turns - 1)
    case AgentEnds(open) => s.(turns := if open then s.turns - 1 else s.turns, closing := s.closing + 1)
    case Flush =>
      var t := s.(closing := s.closing - 1);
      if s.pending && s.turns == 0 then Reload(t.(pending := false), 0) else t
    case Request(stale) => Reload(s, stale)
    case Settles => s.(pending := s.pending || s.promise.Deferring?, promise := Idle)
  }

  /** A reload is asked for while none is in flight, or a handler flushes one that waits. */
  predicate Asks(s: State, e: Event) {
    s.promise.Idle? && (e.Request? || (e.Flush? && s.pending && s.turns == 0))
  }

  /** A swap begins exactly when one is asked for and no turn is open that is not stale; otherwise it is deferred. */
  lemma SwapBeginsIff(s: State, e: Event)
    requires Possible(s, e)
    ensures var t := Step(s, e);
            && (t.promise.Swapping? && !s.promise.Swapping? <==> Asks(s, e) && t.turns == 0)
            && (t.promise.Deferring? && !s.promise.Deferring? <==> Asks(s, e) && t.turns > 0)
            && (t.promise.Idle? && !s.promise.Idle? <==> e.Settles?)
  {
  }

  /** By how much an event changes the number of open turns. */
  function Change(s: State, e: Event): int {
    match e
    case TurnOpens => 1
    case OpenFails => -1
    case AgentEnds(open) => if open then -1 else 0
    case Request(stale) => if s.promise.Idle? then 0 - stale else 0
    case _ => 0
  }

  /** It waits from the answer "deferred" until a handler flushes it with no turn open; only these change that. */
  lemma WaitsFromTo(s: State, e: Event)
    requires Possible(s, e)
    ensures Step(s, e).pending <==> (s.pending && !(e.Flush? && s.turns == 0)) || (e.Settles? && s.promise.Deferring?)
    ensures Step(s, e).turns == s.turns + Change(s, e)
    ensures Step(s, e).closing == s.closing + if e.AgentEnds? then 1 else if e.Flush? then -1 else 0
  {
  }

  function Ran(s: State, events: seq<Event>): Option<State> {
    if events == [] then Some(s)
    else
      var before, last := Ran(s, events[..|events| - 1]), events[|events| - 1];
      if before.Some? && Possible(before.value, last) then Some(Step(before.value, last)) else None
  }

  /** The reload is still wanted, and nobody on the way will start it. */
  predicate Stranded(s: State) { s.pending && s.turns == 0 && s.closing == 0 }

  /**
   The last open turn leaves without an `agent_end` -- its open request fails, or another reload finds it stale -- or
   the "deferred" answer comes when the last turn has already ended.
   */
  predicate Strands(s: State, e: Event) {
    s.closing == 0 &&
    match e
    case OpenFails => s.pending && s.turns == 1
    case Request(stale) => s.pending && s.promise.Idle? && stale == s.turns > 0
    case Settles => !s.pending && s.promise.Deferring? && s.turns == 0
    case _ => false
  }

  predicate Relieves(e: Event) { e.TurnOpens? || e.AgentEnds? }

  lemma StepStrandsIff(s: State, e: Event)
    requires Possible(s, e)
    ensures Stranded(Step(s, e)) <==> Strands(s, e) || (Stranded(s) && !Relieves(e))
  {
  }

  /** At event k the reload was stranded, and nothing relieved it since. */
  predicate StrandedAt(events: seq<Event>, k: nat)
    requires Ran(START, events).Some?
  {
    && k < |events| && Ran(START, events[..k]).Some?
    && Strands(Ran(START, events[..k]).value, events[k])
    && forall i | k < i < |events| :: !Relieves(events[i])
  }

  lemma StrandedAtFront(events: seq<Event>, k: nat)
    requires Ran(START, events).Some? && k < |events| - 1
    ensures StrandedAt(events, k) <==> StrandedAt(events[..|events| - 1], k) && !Relieves(events[|events| - 1])
  {
    var n := |events| - 1;
    assert events[..n][..k] == events[..k];
    assert forall i | 0 <= i < n :: events[..n][i] == events[i];
  }

  /**
   In every run a deferred reload is left behind exactly when at some event the last turn left it so, and no turn
   opened and no agent ended since.
   */
  lemma {:induction false} StrandedIff(events: seq<Event>)
    requires Ran(START, events).Some?
    ensures Stranded(Ran(START, events).value) <==> exists k :: StrandedAt(events, k)
  {
    if events != [] {
      var n := |events| - 1;
      StrandedIff(events[..n]);
      StepStrandsIff(Ran(START, events[..n]).value, events[n]);
      forall k: nat | k < n ensures StrandedAt(events, k) <==> StrandedAt(events[..n], k) && !Relieves(events[n]) {
        StrandedAtFront(events, k);
      }
      assert StrandedAt(events, n) <==> Strands(Ran(START, events[..n]).value, events[n]);
    }
  }

  /** Every open turn ends, and one handler flushes. */
  function EndAll(turns: nat): seq<Event> {
    if turns == 0 then [Flush] else [AgentEnds(true)] + EndAll(turns - 1)
  }

  lemma {:induction false} RanConcat(s: State, a: seq<Event>, b: seq<Event>)
    requires Ran(s, a).Some?
    ensures Ran(s, a + b) == Ran(Ran(s, a).value, b)
  {
    if b == [] {
      assert a + b == a;
    } else {
      var n := |b| - 1;
      assert (a + b)[..|a + b| - 1] == a + b[..n];
      RanConcat(s, a, b[..n]);
    }
  }

  /** A deferred reload that is not left behind starts, or joins one in flight, once the open turns have ended. */
  lemma {:induction false} EndsStartReload(s: State)
    requires s.pending && !Stranded(s)
    ensures var end := Ran(s, EndAll(s.turns)); end.Some? && !end.value.pending && !end.value.promise.Idle?
    decreases s.turns
  {
    if s.turns == 0 {
      assert [Flush][..0] == [] && Ran(s, []) == Some(s);
    } else {
      var first: seq<Event> := [AgentEnds(true)];
      assert first[..0] == [] && Ran(s, []) == Some(s);
      EndsStartReload(Step(s, first[0]));
      RanConcat(s, first, EndAll(s.turns - 1));
    }
  }

  lemma RanThen(events: seq<Event>, s: State, e: Event)
    requires Ran(START, events) == Some(s) && Possible(s, e)
    ensures Ran(START, events + [e]) == Some(Step(s, e))
  {
    assert (events + [e])[..|events|] == events;
  }

  /** A turn opens, a reload is asked for and deferred, and the turn's open request fails. */
  lemma FailedOpenStrands()
    ensures Ran(START, [TurnOpens] + [Request(0)] + [Settles] + [OpenFails]) == Some(State(0, true, 0, Idle))
  {
    assert [] + [TurnOpens] == [TurnOpens];
    RanThen([], START, TurnOpens);
    RanThen([TurnOpens], State(1, false, 0, Idle), Request(0));
    RanThen([TurnOpens] + [Request(0)], State(1, false, 0, Deferring), Settles);
    RanThen([TurnOpens] + [Request(0)] + [Settles], State(1, true, 0, Idle), OpenFails);
  }
}
