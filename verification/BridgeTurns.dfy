/**
 The z0int bridge's open turns: at most one per session, each leaving `activeTurns` exactly once, and
 the token usage a close reports.  Traces are numbered in the order they are opened.
 */
module BridgeTurns {
  import opened Prelude
  import opened Occurrences

  /** Provider usage of one message, rounded and clamped at zero. */
  datatype Usage = Usage(input: nat, output: nat)

  datatype Turn = Turn(trace: nat, openedAt: int, seen: nat, withUsage: nat, input: nat, output: nat)

  datatype Way = Replaced | OpenFailed | Stale | Closed
  datatype Exit = Exit(trace: nat, way: Way)

  datatype Measurement = Complete | Partial
  /** What a close reports; a turn without any turn_end falls back to an estimate. */
  datatype Report =
    | Measured(trace: nat, input: nat, output: nat, state: Measurement)
    | Estimated(trace: nat)

  datatype State = State(
    active: map<string, Turn>,
    // History.
    opens: nat,
    left: seq<Exit>,
    reports: seq<Report>)

  const EMPTY: State := State(map[], 0, [], [])

  datatype Event =
    | Open(session: string, now: int)
    | OpenFails(session: string, trace: nat)
    | TurnEnd(session: string, usage: Option<Usage>)
    | AgentEnd(session: string)
    | Evict(now: int, ttl: int)

  // ------------------------------------------------------------------ steps

  function Leave(s: State, session: string, way: Way): State
    requires session in s.active
  {
    s.(active := s.active - {session}, left := s.left + [Exit(s.active[session].trace, way)])
  }

  /** before_agent_start: a session's unclosed turn is counted, then the new one is stored. */
  function OpenTurn(s: State, session: string, now: int): State {
    var t := if session in s.active then Leave(s, session, Replaced) else s;
    t.(active := t.active[session := Turn(s.opens, now, 0, 0, 0, 0)], opens := s.opens + 1)
  }

  /** The open request failed: forget the turn unless another one took its place. */
  function OpenTurnFails(s: State, session: string, trace: nat): State {
    if session in s.active && s.active[session].trace == trace then Leave(s, session, OpenFailed) else s
  }

  function Accumulate(turn: Turn, usage: Option<Usage>): Turn {
    match usage
    case None => turn.(seen := turn.seen + 1)
    case Some(u) =>
      turn.(seen := turn.seen + 1, withUsage := turn.withUsage + 1,
            input := turn.input + u.input, output := turn.output + u.output)
  }

  function EndMessage(s: State, session: string, usage: Option<Usage>): State {
    if session !in s.active then s
    else s.(active := s.active[session := Accumulate(s.active[session], usage)])
  }

  function ReportOf(turn: Turn): Report {
    if turn.seen == 0 then Estimated(turn.trace)
    else Measured(turn.trace, turn.input, turn.output, if turn.withUsage == turn.seen then Complete else Partial)
  }

  function CloseTurn(s: State, session: string): State {
    if session !in s.active then s
    else Leave(s, session, Closed).(reports := s.reports + [ReportOf(s.active[session])])
  }

  predicate IsStale(turn: Turn, now: int, ttl: int) { now - turn.openedAt > ttl }

  /** evictStaleTurns visits the sessions in some order; `left` gains the stale ones in that order. */
  ghost predicate Evicts(s: State, t: State, now: int, ttl: int) {
    && t.active == (map session | session in s.active && !IsStale(s.active[session], now, ttl) :: s.active[session])
    && s.left <= t.left
    && (forall x :: Times(t.left, x) ==
                    Times(s.left, x) + if x.way.Stale? && StaleTrace(s, x.trace, now, ttl) then 1 else 0)
    && t.opens == s.opens && t.reports == s.reports
  }

  ghost predicate StaleTrace(s: State, trace: nat, now: int, ttl: int) {
    exists session :: session in s.active && s.active[session].trace == trace && IsStale(s.active[session], now, ttl)
  }

  ghost predicate Next(s: State, event: Event, t: State) {
    match event
    case Open(session, now) => t == OpenTurn(s, session, now)
    case OpenFails(session, trace) => t == OpenTurnFails(s, session, trace)
    case TurnEnd(session, usage) => t == EndMessage(s, session, usage)
    case AgentEnd(session) => t == CloseTurn(s, session)
    case Evict(now, ttl) => Evicts(s, t, now, ttl)
  }

  // ------------------------------------------------------------------ accounting

  ghost function InputOf(messages: seq<Option<Usage>>): nat {
    if messages == [] then 0
    else
      var last := messages[|messages| - 1];
      InputOf(messages[..|messages| - 1]) + match last case None => 0 case Some(u) => u.input
  }

  ghost function OutputOf(messages: seq<Option<Usage>>): nat {
    if messages == [] then 0
    else
      var last := messages[|messages| - 1];
      OutputOf(messages[..|messages| - 1]) + match last case None => 0 case Some(u) => u.output
  }

  ghost function Carrying(messages: seq<Option<Usage>>): nat {
    if messages == [] then 0
    else Carrying(messages[..|messages| - 1]) + if messages[|messages| - 1].Some? then 1 else 0
  }

  lemma {:induction false} CarryingAll(messages: seq<Option<Usage>>)
    ensures Carrying(messages) <= |messages|
    ensures Carrying(messages) == |messages| <==> (forall i | 0 <= i < |messages| :: messages[i].Some?)
  {
    if messages != [] {
      var front := messages[..|messages| - 1];
      CarryingAll(front);
      assert messages == front + [messages[|messages| - 1]];
    }
  }

  ghost predicate ActiveOk(s: State) {
    && (forall session | session in s.active :: s.active[session].trace < s.opens)
    && (forall a, b | a in s.active && b in s.active && a != b :: s.active[a].trace != s.active[b].trace)
  }

  ghost predicate IsOpen(s: State, trace: nat) {
    exists session :: session in s.active && s.active[session].trace == trace
  }

  /** How often a trace left, over all the ways of leaving. */
  ghost function Departures(left: seq<Exit>, trace: nat): nat {
    Times(left, Exit(trace, Replaced)) + Times(left, Exit(trace, OpenFailed))
    + Times(left, Exit(trace, Stale)) + Times(left, Exit(trace, Closed))
  }

  /** Each opened trace is open or has left, once, in one way. */
  ghost predicate LeftOnce(s: State) {
    forall trace: nat :: Departures(s.left, trace) + (if IsOpen(s, trace) then 1 else 0)
                    == if trace < s.opens then 1 else 0
  }

  ghost predicate Inv(s: State) {
    ActiveOk(s) && LeftOnce(s)
  }

  lemma DeparturesAppend(left: seq<Exit>, e: Exit, trace: nat)
    ensures Departures(left + [e], trace) == Departures(left, trace) + if e.trace == trace then 1 else 0
  {
    assert e.way == Replaced || e.way == OpenFailed || e.way == Stale || e.way == Closed;
    assert e == Exit(e.trace, e.way);
  }

  lemma LeaveKeepsInv(s: State, session: string, way: Way)
    requires Inv(s) && session in s.active
    ensures Inv(Leave(s, session, way))
    ensures !IsOpen(Leave(s, session, way), s.active[session].trace)
  {
    var t, gone := Leave(s, session, way), s.active[session].trace;
    forall trace: nat ensures Departures(t.left, trace) + (if IsOpen(t, trace) then 1 else 0)
                         == if trace < t.opens then 1 else 0
    {
      DeparturesAppend(s.left, Exit(gone, way), trace);
      if trace != gone {
        assert IsOpen(s, trace) <==> IsOpen(t, trace) by {
          if IsOpen(s, trace) {
            var other :| other in s.active && s.active[other].trace == trace;
            assert other in t.active;
          }
        }
      } else {
        assert IsOpen(s, trace);
      }
    }
  }

  lemma AddKeepsInv(s: State, session: string, now: int)
    requires Inv(s) && session !in s.active
    ensures Inv(OpenTurn(s, session, now))
  {
    var t := OpenTurn(s, session, now);
    forall trace ensures IsOpen(t, trace) <==> IsOpen(s, trace) || trace == s.opens {
      if IsOpen(s, trace) {
        var other :| other in s.active && s.active[other].trace == trace;
        assert other in t.active && t.active[other] == s.active[other];
      }
      if trace == s.opens { assert session in t.active && t.active[session].trace == trace; }
    }
  }

  lemma MessageKeepsInv(s: State, session: string, usage: Option<Usage>)
    requires Inv(s)
    ensures Inv(EndMessage(s, session, usage))
  {
    var t := EndMessage(s, session, usage);
    if session in s.active {
      forall trace ensures IsOpen(t, trace) <==> IsOpen(s, trace) {
        if IsOpen(s, trace) {
          var other :| other in s.active && s.active[other].trace == trace;
          assert other in t.active && t.active[other].trace == trace;
        }
      }
    }
  }

  lemma EvictKeepsInv(s: State, t: State, now: int, ttl: int)
    requires Inv(s) && Evicts(s, t, now, ttl)
    ensures Inv(t)
  {
    forall trace: nat ensures Departures(t.left, trace) + (if IsOpen(t, trace) then 1 else 0)
                         == if trace < t.opens then 1 else 0
    {
      assert Departures(t.left, trace) == Departures(s.left, trace) + if StaleTrace(s, trace, now, ttl) then 1 else 0;
      if IsOpen(s, trace) {
        var session :| session in s.active && s.active[session].trace == trace;
        if !IsStale(s.active[session], now, ttl) { assert session in t.active; }
      }
    }
  }

  lemma StepKeepsInv(s: State, event: Event, t: State)
    requires Inv(s) && Next(s, event, t)
    ensures Inv(t)
  {
    match event
    case Open(session, now) =>
      if session in s.active {
        LeaveKeepsInv(s, session, Replaced);
        AddKeepsInv(Leave(s, session, Replaced), session, now);
      } else {
        AddKeepsInv(s, session, now);
      }
    case OpenFails(session, trace) =>
      if session in s.active { LeaveKeepsInv(s, session, OpenFailed); }
    case TurnEnd(session, usage) => MessageKeepsInv(s, session, usage);
    case AgentEnd(session) =>
      if session in s.active { LeaveKeepsInv(s, session, Closed); }
    case Evict(now, ttl) => EvictKeepsInv(s, t, now, ttl);
  }

  // ------------------------------------------------------------------ runs

  /** `states` is a run over `events` from the empty map. */
  ghost predicate IsRun(states: seq<State>, events: seq<Event>) {
    && |states| == |events| + 1 && states[0] == EMPTY
    && forall i | 0 <= i < |events| :: Next(states[i], events[i], states[i + 1])
  }

  lemma {:induction false} RunKeepsInv(states: seq<State>, events: seq<Event>)
    requires IsRun(states, events)
    ensures forall n | 0 <= n < |states| :: Inv(states[n])
  {
    if events != [] {
      var m := |events| - 1;
      RunKeepsInv(states[..m + 1], events[..m]);
      assert forall n | 0 <= n <= m :: states[n] == states[..m + 1][n];
      StepKeepsInv(states[m], events[m], states[m + 1]);
    }
  }

  /**
   Every turn that was put into the map is in it, or left it exactly once: closed, replaced, evicted
   as stale, or dropped because its open request failed.
   */
  lemma EveryTurnLeavesOnce(states: seq<State>, events: seq<Event>, n: nat, trace: nat)
    requires IsRun(states, events) && n < |states| && trace < states[n].opens
    ensures Departures(states[n].left, trace) == if IsOpen(states[n], trace) then 0 else 1
  {
    RunKeepsInv(states, events);
  }

  /** No two sessions share a turn, so a subagent's close never closes its parent's turn. */
  lemma SessionsAreApart(states: seq<State>, events: seq<Event>, n: nat, session: string, other: string)
    requires IsRun(states, events) && n < |events| && session != other
    requires events[n] == AgentEnd(session) && other in states[n].active
    ensures other in states[n + 1].active && states[n + 1].active[other] == states[n].active[other]
    ensures session in states[n].active ==> states[n].active[session].trace != states[n].active[other].trace
  {
    RunKeepsInv(states, events);
  }

  // ------------------------------------------------------------------ what the events alone say

  ghost function OpensIn(events: seq<Event>): nat {
    if events == [] then 0
    else OpensIn(events[..|events| - 1]) + if events[|events| - 1].Open? then 1 else 0
  }

  /** The number and the time of the session's last open. */
  ghost function LastOpen(events: seq<Event>, session: string): Option<(nat, int)> {
    if events == [] then None
    else
      var front, last := events[..|events| - 1], events[|events| - 1];
      if last.Open? && last.session == session then Some((OpensIn(front), last.now)) else LastOpen(front, session)
  }

  /** The usage of each turn_end of the session since its last open. */
  ghost function Messages(events: seq<Event>, session: string): seq<Option<Usage>> {
    if events == [] then []
    else
      var front, last := events[..|events| - 1], events[|events| - 1];
      if last.Open? && last.session == session then []
      else if last.TurnEnd? && last.session == session then Messages(front, session) + [last.usage]
      else Messages(front, session)
  }

  /** Since its last open the session had no agent_end, that open did not fail, and no eviction found it too old. */
  ghost predicate StillOpen(events: seq<Event>, session: string) {
    if events == [] then false
    else
      var front, last := events[..|events| - 1], events[|events| - 1];
      match last
      case Open(mine, _) => mine == session || StillOpen(front, session)
      case OpenFails(failed, trace) =>
        StillOpen(front, session)
        && !(failed == session && LastOpen(front, session).Some? && LastOpen(front, session).value.0 == trace)
      case TurnEnd(_, _) => StillOpen(front, session)
      case AgentEnd(ended) => ended != session && StillOpen(front, session)
      case Evict(now, ttl) =>
        StillOpen(front, session)
        && (LastOpen(front, session).Some? ==> now - LastOpen(front, session).value.1 <= ttl)
  }

  /** The turn that these events say is open. */
  ghost predicate IsTurn(turn: Turn, events: seq<Event>, session: string) {
    LastOpen(events, session).Some? &&
    var m := Messages(events, session);
    turn == Turn(LastOpen(events, session).value.0, LastOpen(events, session).value.1,
                 |m|, Carrying(m), InputOf(m), OutputOf(m))
  }

  ghost predicate Follows(s: State, events: seq<Event>) {
    && s.opens == OpensIn(events)
    && forall session :: (session in s.active <==> StillOpen(events, session))
                         && (session in s.active ==> IsTurn(s.active[session], events, session))
  }

  lemma StepFollows(s: State, events: seq<Event>, t: State)
    requires events != [] && Follows(s, events[..|events| - 1]) && Next(s, events[|events| - 1], t)
    ensures Follows(t, events)
  {
    forall session ensures (session in t.active <==> StillOpen(events, session))
                           && (session in t.active ==> IsTurn(t.active[session], events, session))
    {
      SessionFollows(s, events, t, session);
    }
  }

  lemma SessionFollows(s: State, events: seq<Event>, t: State, session: string)
    requires events != [] && Follows(s, events[..|events| - 1]) && Next(s, events[|events| - 1], t)
    ensures session in t.active <==> StillOpen(events, session)
    ensures session in t.active ==> IsTurn(t.active[session], events, session)
  {
    var front, last := events[..|events| - 1], events[|events| - 1];
    assert session in s.active <==> StillOpen(front, session);
    if last.TurnEnd? && last.session == session {
      var m := Messages(front, session);
      assert (m + [last.usage])[..|m|] == m;
    }
  }

  lemma {:induction false} RunFollows(states: seq<State>, events: seq<Event>, n: nat)
    requires IsRun(states, events) && n <= |events|
    ensures Follows(states[n], events[..n])
  {
    if n > 0 {
      RunFollows(states, events, n - 1);
      assert events[..n][..n - 1] == events[..n - 1];
      StepFollows(states[n - 1], events[..n], states[n]);
    }
  }

  /**
   In every run a session has an open turn exactly when its last open was neither closed, nor failed, nor evicted; the
   turn then holds the number and time of that open and the sums over the turn_end messages since.
   */
  lemma OpenTurnsAre(states: seq<State>, events: seq<Event>, n: nat, session: string)
    requires IsRun(states, events) && n <= |events|
    ensures session in states[n].active <==> StillOpen(events[..n], session)
    ensures session in states[n].active ==> IsTurn(states[n].active[session], events[..n], session)
  {
    RunFollows(states, events, n);
  }

  /**
   A close reports the sums over exactly the turn_end messages since its turn was opened; it is complete exactly when
   there was one and all carried provider usage, and falls back to an estimate only without any.
   */
  lemma CloseReportsItsMessages(states: seq<State>, events: seq<Event>, n: nat, session: string)
    requires IsRun(states, events) && n < |events|
    requires events[n] == AgentEnd(session) && session in states[n].active
    ensures LastOpen(events[..n], session).Some?
    ensures var m, trace := Messages(events[..n], session), LastOpen(events[..n], session).value.0;
            states[n + 1].reports == states[n].reports +
              [if m == [] then Estimated(trace)
               else Measured(trace, InputOf(m), OutputOf(m),
                             if forall i | 0 <= i < |m| :: m[i].Some? then Complete else Partial)]
  {
    OpenTurnsAre(states, events, n, session);
    CarryingAll(Messages(events[..n], session));
  }

  /** No other event reports anything. */
  lemma OnlyClosesReport(s: State, event: Event, t: State)
    requires Next(s, event, t) && (event.AgentEnd? ==> event.session !in s.active)
    ensures t.reports == s.reports
  {
  }

  // ------------------------------------------------------------------ the module's state

  class Bridge {
    var active: map<string, Turn>
    var opens: nat
    var reports: seq<Report>
    var replaced: nat          // counters["unclosed_turn"]
    var stale: nat             // counters["stale_turn"]
    ghost var left: seq<Exit>

    ghost function View(): State
      reads this
    {
      State(active, opens, left, reports)
    }

    constructor ()
      ensures View() == EMPTY && replaced == 0 && stale == 0
    {
      active, opens, reports, replaced, stale := map[], 0, [], 0, 0;
      left := [];
    }

    /** before_agent_start, up to the open request. */
    method Start(session: string, now: int) returns (trace: nat)
      modifies this
      ensures View() == OpenTurn(old(View()), session, now) && trace == old(opens)
      ensures active == old(active)[session := Turn(trace, now, 0, 0, 0, 0)] && opens == trace + 1
      ensures left == old(left) + if session in old(active) then [Exit(old(active)[session].trace, Replaced)] else []
      ensures replaced == old(replaced) + (if session in old(active) then 1 else 0) && stale == old(stale)
    {
      if session in active {
        replaced := replaced + 1;
        left := left + [Exit(active[session].trace, Replaced)];
      }
      trace := opens;
      active := active[session := Turn(trace, now, 0, 0, 0, 0)];
      opens := opens + 1;
      assert active == (old(active) - {session})[session := Turn(trace, now, 0, 0, 0, 0)];
    }

    /** The open request was rejected. */
    method StartFailed(session: string, trace: nat)
      modifies this
      ensures View() == OpenTurnFails(old(View()), session, trace)
      ensures var mine := session in old(active) && old(active)[session].trace == trace;
              && active == (if mine then old(active) - {session} else old(active))
              && left == old(left) + if mine then [Exit(trace, OpenFailed)] else []
    {
      if session in active && active[session].trace == trace {
        active := active - {session};
        left := left + [Exit(trace, OpenFailed)];
      }
    }

    /** turn_end. */
    method OnTurnEnd(session: string, usage: Option<Usage>)
      modifies this
      ensures View() == EndMessage(old(View()), session, usage)
    {
      if session !in active { return; }
      var turn := active[session];
      turn := turn.(seen := turn.seen + 1);
      if usage.Some? {
        turn := turn.(withUsage := turn.withUsage + 1);
        turn := turn.(input := turn.input + usage.value.input);
        turn := turn.(output := turn.output + usage.value.output);
      }
      active := active[session := turn];
    }

    /** closeActive. */
    method Close(session: string)
      modifies this
      ensures View() == CloseTurn(old(View()), session)
      ensures active == old(active) - {session}
      ensures left == old(left) + if session in old(active) then [Exit(old(active)[session].trace, Closed)] else []
    {
      if session !in active { return; }
      var turn := active[session];
      active := active - {session};
      left := left + [Exit(turn.trace, Closed)];
      if turn.seen > 0 {
        var state := if turn.withUsage == turn.seen then Complete else Partial;
        reports := reports + [Measured(turn.trace, turn.input, turn.output, state)];
      } else {
        reports := reports + [Estimated(turn.trace)];
      }
    }

    /** One round of evictStaleTurns. */
    method EvictIfStale(session: string, now: int, ttl: int, ghost s: State, ghost todo: set<string>)
      requires ActiveOk(s) && session in todo
      requires Evicting(s.active, active, s.left, left, todo, now, ttl)
      modifies `active, `left, `stale
      ensures Evicting(s.active, active, s.left, left, todo - {session}, now, ttl)
      ensures stale - old(stale) == |old(active)| - |active|
    {
      if now - active[session].openedAt <= ttl {
        EvictingSkips(s.active, active, s.left, left, todo, session, now, ttl);
      } else {
        GoneNext(s.active, active, s.left, left, todo, session, now, ttl);
        left := left + [Exit(active[session].trace, Stale)];
        active := active - {session};
        stale := stale + 1;
      }
    }

    /** evictStaleTurns. */
    method EvictStale(now: int, ttl: int)
      requires ActiveOk(View())
      modifies `active, `left, `stale
      ensures Evicts(old(View()), View(), now, ttl)
      ensures stale - old(stale) == |old(active)| - |active|
    {
      ghost var s := View();
      var todo := active.Keys;
      EvictingStarts(active, left, now, ttl);
      while todo != {}
        invariant Evicting(s.active, active, s.left, left, todo, now, ttl)
        invariant stale - old(stale) == |s.active| - |active|
        decreases todo
      {
        var session :| session in todo;
        EvictIfStale(session, now, ttl, s, todo);
        todo := todo - {session};
      }
      EvictingDone(s, View(), now, ttl);
    }
  }

  /** A trace that was in the map and is there no more. */
  ghost predicate GoneAt(was: map<string, Turn>, active: map<string, Turn>, trace: nat) {
    exists session :: session in was && session !in active && was[session].trace == trace
  }

  /** The loop of evictStaleTurns with the sessions `todo` still to visit. */
  ghost predicate Evicting(was: map<string, Turn>, active: map<string, Turn>, first: seq<Exit>, left: seq<Exit>,
                           todo: set<string>, now: int, ttl: int)
  {
    && todo <= active.Keys <= was.Keys
    && (forall k | k in active :: active[k] == was[k])
    && (forall k | k in was && k !in todo :: k in active <==> !IsStale(was[k], now, ttl))
    && first <= left
    && (forall x :: Times(left, x) == Times(first, x) + if x.way.Stale? && GoneAt(was, active, x.trace) then 1 else 0)
  }

  lemma EvictingStarts(active: map<string, Turn>, left: seq<Exit>, now: int, ttl: int)
    ensures Evicting(active, active, left, left, active.Keys, now, ttl)
  {
  }

  lemma EvictingSkips(was: map<string, Turn>, active: map<string, Turn>, first: seq<Exit>, left: seq<Exit>,
                      todo: set<string>, session: string, now: int, ttl: int)
    requires Evicting(was, active, first, left, todo, now, ttl) && session in todo
    requires !IsStale(was[session], now, ttl)
    ensures Evicting(was, active, first, left, todo - {session}, now, ttl)
  {
  }

  lemma EvictingDone(s: State, t: State, now: int, ttl: int)
    requires Evicting(s.active, t.active, s.left, t.left, {}, now, ttl)
    requires t.opens == s.opens && t.reports == s.reports
    ensures Evicts(s, t, now, ttl)
  {
    forall trace ensures GoneAt(s.active, t.active, trace) <==> StaleTrace(s, trace, now, ttl) {
    }
  }

  lemma GoneNext(was: map<string, Turn>, active: map<string, Turn>, first: seq<Exit>, left: seq<Exit>,
                 todo: set<string>, session: string, now: int, ttl: int)
    requires Evicting(was, active, first, left, todo, now, ttl) && session in todo
    requires IsStale(was[session], now, ttl)
    requires forall a, b | a in was && b in was && a != b :: was[a].trace != was[b].trace
    ensures Evicting(was, active - {session}, first, left + [Exit(was[session].trace, Stale)], todo - {session},
                     now, ttl)
    ensures |active - {session}| == |active| - 1
  {
    var after, e := active - {session}, Exit(was[session].trace, Stale);
    assert after.Keys == active.Keys - {session};
    forall trace ensures GoneAt(was, after, trace) <==> GoneAt(was, active, trace) || trace == e.trace {
      if GoneAt(was, active, trace) {
        var k :| k in was && k !in active && was[k].trace == trace;
        assert k !in after;
      }
      assert session in was && session !in after;
    }
    assert !GoneAt(was, active, e.trace);
    forall x ensures Times(left + [e], x) ==
                     Times(first, x) + if x.way.Stale? && GoneAt(was, after, x.trace) then 1 else 0 { }
  }
}
