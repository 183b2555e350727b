/**
 Which reply settles which RPC call, over child restarts.  Calls, chunks of output, child events, timers and disposal
 come in any order.  JSON is a parameter: the id a line carries, or nothing when the line is not a JSON row.
 */
module RpcClient {
  import opened Prelude
  import opened LineFraming

  type Id = string
  type Proc = nat

  /** How a promise was resolved: with a line of some child's output, or with an error row. */
  datatype Outcome = Answer(from: Proc, line: string) | Failed

  /**
   A spawned child: `exited` once it has an exit code or signal, `gone` once its exit or error event was handled,
   `buffer` its partial line, `output` everything it wrote while it was the current child.
   */
  datatype Child = Child(exited: bool, killed: bool, gone: bool, buffer: string, output: string)

  const SPAWNED := Child(false, false, false, "", "")

  datatype State = State(
    child: Option<Proc>,
    procs: seq<Child>,
    pending: map<Id, Proc>,
    fault: bool,
    disposed: bool,
    issued: map<Id, Option<Proc>>,
    settled: map<Id, Outcome>)

  const START := State(None, [], map[], false, false, map[], map[])

  datatype Event =
    | Call(id: Id, broken: bool)
    | Data(proc: Proc, chunk: string)
    | Exited(proc: Proc)
    | ExitEvent(proc: Proc)
    | ErrorEvent(proc: Proc)
    | StdinError(proc: Proc)
    | Timeout(id: Id)
    | Dispose

  // ------------------------------------------------------------------ the handlers

  function On(pending: map<Id, Proc>, proc: Proc): (ids: set<Id>)
    ensures forall id :: id in ids <==> id in pending && pending[id] == proc
  {
    set id | id in pending && pending[id] == proc
  }

  function AllFailed(ids: set<Id>): map<Id, Outcome> {
    map id | id in ids :: Failed
  }

  /** `#fail`: every call that waits on this child is settled with an error. */
  function Fail(s: State, proc: Proc): State {
    s.(fault := s.fault || s.child == Some(proc),
       pending := s.pending - On(s.pending, proc),
       settled := s.settled + AllFailed(On(s.pending, proc)))
  }

  function Kill(s: State, proc: Proc): State
    requires proc < |s.procs|
  {
    s.(procs := s.procs[proc := s.procs[proc].(killed := true)])
  }

  predicate Running(s: State) {
    s.child.Some? && s.child.value < |s.procs| && !s.procs[s.child.value].exited
  }

  /** `#ensure` refuses: disposed, or a child that is faulty or being stopped. */
  predicate Refuses(s: State) {
    s.disposed || (Running(s) && (s.fault || s.procs[s.child.value].killed))
  }

  /** `#ensure`: the running child, or a new one. */
  function Ensure(s: State): State {
    if Running(s) then s
    else s.(child := Some(|s.procs|), procs := s.procs + [SPAWNED], fault := false)
  }

  /** `call`; `broken` when writing the request throws. */
  function CallOn(s: State, id: Id, broken: bool): State {
    if Refuses(s) then s.(issued := s.issued[id := None], settled := s.settled[id := Failed])
    else
      var e := Ensure(s);
      var sent := Send(e, id);
      if broken then Kill(Fail(sent, sent.child.value), sent.child.value) else sent
  }

  function Send(s: State, id: Id): State
    requires s.child.Some?
  {
    s.(issued := s.issued[id := s.child], pending := s.pending[id := s.child.value])
  }

  /** One line of output settles the call whose id it carries, if that call went to this child. */
  function HandleLine(idOf: string -> Option<Id>, s: State, proc: Proc, line: string): State {
    match idOf(line)
    case None => s
    case Some(id) =>
      if id in s.pending && s.pending[id] == proc
      then s.(pending := s.pending - {id}, settled := s.settled[id := Answer(proc, line)])
      else s
  }

  function HandleLines(idOf: string -> Option<Id>, s: State, proc: Proc, lines: seq<string>): State {
    if lines == [] then s
    else HandleLine(idOf, HandleLines(idOf, s, proc, lines[..|lines| - 1]), proc, lines[|lines| - 1])
  }

  function Receive(s: State, proc: Proc, chunk: string): State
    requires proc < |s.procs|
  {
    var c := s.procs[proc];
    s.(procs := s.procs[proc := c.(buffer := Rest(c.buffer + chunk), output := c.output + chunk)])
  }

  /** The stdout handler: output of a child that is no longer the current one is ignored. */
  function OnData(idOf: string -> Option<Id>, s: State, proc: Proc, chunk: string): State
    requires proc < |s.procs|
  {
    if s.child != Some(proc) then s
    else HandleLines(idOf, Receive(s, proc, chunk), proc, Lines(s.procs[proc].buffer + chunk))
  }

  /** The `exit` and `error` handlers. */
  function OnGone(s: State, proc: Proc): State
    requires proc < |s.procs|
  {
    var f := Fail(s, proc);
    f.(child := if s.child == Some(proc) then None else s.child,
       procs := s.procs[proc := s.procs[proc].(gone := true, buffer := "")])
  }

  function OnTimeout(s: State, id: Id): State {
    s.(pending := s.pending - {id}, settled := s.settled[id := Failed])
  }

  function OnDispose(s: State): State {
    var d := s.(disposed := true);
    if d.child.Some? && d.child.value < |d.procs| then Kill(Fail(d, d.child.value), d.child.value) else d
  }

  predicate Possible(s: State, e: Event) {
    match e
    case Call(id, _) => id !in s.issued
    case Timeout(id) => id in s.pending
    case Dispose => true
    case _ => e.proc < |s.procs|
  }

  function Step(idOf: string -> Option<Id>, s: State, e: Event): State
    requires Possible(s, e)
  {
    match e
    case Call(id, broken) => CallOn(s, id, broken)
    case Data(proc, chunk) => OnData(idOf, s, proc, chunk)
    case Exited(proc) => s.(procs := s.procs[proc := s.procs[proc].(exited := true)])
    case ExitEvent(proc) => OnGone(s, proc)
    case ErrorEvent(proc) => OnGone(s, proc)
    case StdinError(proc) => Kill(Fail(s, proc), proc)
    case Timeout(id) => OnTimeout(s, id)
    case Dispose => OnDispose(s)
  }

  /** The state after these events, if each could happen. */
  function Ran(idOf: string -> Option<Id>, events: seq<Event>): Option<State> {
    if events == [] then Some(START)
    else
      var before, last := Ran(idOf, events[..|events| - 1]), events[|events| - 1];
      if before.Some? && Possible(before.value, last) then Some(Step(idOf, before.value, last)) else None
  }

  // ------------------------------------------------------------------ invariants

  /** Every call waits or is settled, never both. */
  ghost predicate EachOnce(s: State) {
    && s.pending.Keys + s.settled.Keys == s.issued.Keys
    && s.pending.Keys !! s.settled.Keys
  }

  /** A call waits on the child it was sent to, whose exit is still to be handled. */
  ghost predicate WaitsWhereSent(s: State) {
    forall id | id in s.pending ::
      id in s.issued && s.issued[id] == Some(s.pending[id]) && s.pending[id] < |s.procs| && !s.procs[s.pending[id]].gone
  }

  /** The current child is the last one spawned, and its buffer is the partial line of its own output. */
  ghost predicate FreshBuffer(s: State) {
    s.child.Some? ==>
      && s.child.value == |s.procs| - 1
      && s.procs[s.child.value].buffer == Rest(s.procs[s.child.value].output)
      && !s.procs[s.child.value].gone
  }

  /** After a fault nothing waits on the current child. */
  ghost predicate FaultClears(s: State) {
    s.fault && s.child.Some? ==> forall id | id in s.pending :: s.pending[id] != s.child.value
  }

  /** An answer is a line of the child the call was sent to, and carries the call's id. */
  ghost predicate AnswersMatch(idOf: string -> Option<Id>, s: State) {
    forall id | id in s.settled && s.settled[id].Answer? :: AnswerMatches(idOf, s.issued, s.procs, id, s.settled[id])
  }

  ghost predicate AnswerMatches(idOf: string -> Option<Id>, issued: map<Id, Option<Proc>>, procs: seq<Child>,
                                id: Id, o: Outcome)
    requires o.Answer?
  {
    && id in issued && issued[id] == Some(o.from)
    && idOf(o.line) == Some(id)
    && o.from < |procs| && o.line in Lines(procs[o.from].output)
  }

  ghost predicate Inv(idOf: string -> Option<Id>, s: State) {
    EachOnce(s) && WaitsWhereSent(s) && FreshBuffer(s) && FaultClears(s) && AnswersMatch(idOf, s)
  }

  /** What was settled stays settled the same way. */
  ghost predicate Keeps(s: State, t: State) {
    && (forall id | id in s.settled :: id in t.settled && t.settled[id] == s.settled[id])
    && (forall id | id in s.issued :: id in t.issued && t.issued[id] == s.issued[id])
  }

  /** Outputs only grow. */
  ghost predicate Grows(a: seq<Child>, b: seq<Child>) {
    |a| <= |b| && forall p | 0 <= p < |a| :: a[p].output <= b[p].output
  }

  lemma LinesGrow(a: string, b: string, line: string)
    requires a <= b && line in Lines(a)
    ensures line in Lines(b)
  {
    assert b == a + b[|a|..];
    SplitChunk(a, b[|a|..]);
  }

  lemma AnswersSurvive(idOf: string -> Option<Id>, s: State, t: State)
    requires AnswersMatch(idOf, s) && Keeps(s, t) && Grows(s.procs, t.procs)
    requires forall id | id in t.settled && t.settled[id].Answer? :: id in s.settled
    ensures AnswersMatch(idOf, t)
  {
    forall id | id in t.settled && t.settled[id].Answer?
      ensures AnswerMatches(idOf, t.issued, t.procs, id, t.settled[id])
    {
      var o := s.settled[id];
      assert AnswerMatches(idOf, s.issued, s.procs, id, o);
      LinesGrow(s.procs[o.from].output, t.procs[o.from].output, o.line);
    }
  }

  // ------------------------------------------------------------------ steps keep them

  lemma FailSettles(s: State, proc: Proc)
    requires EachOnce(s)
    ensures EachOnce(Fail(s, proc)) && Keeps(s, Fail(s, proc))
    ensures forall id | id in Fail(s, proc).pending ::
              id in s.pending && s.pending[id] == Fail(s, proc).pending[id] != proc
  {
    var t := Fail(s, proc);
    assert t.pending.Keys == s.pending.Keys - On(s.pending, proc);
    assert t.settled.Keys == s.settled.Keys + On(s.pending, proc);
  }

  lemma FailKeeps(idOf: string -> Option<Id>, s: State, proc: Proc)
    requires Inv(idOf, s)
    ensures Inv(idOf, Fail(s, proc)) && Keeps(s, Fail(s, proc))
    ensures forall id | id in Fail(s, proc).pending :: s.pending[id] != proc
  {
    FailSettles(s, proc);
    AnswersSurvive(idOf, s, Fail(s, proc));
  }

  lemma KillKeeps(idOf: string -> Option<Id>, s: State, proc: Proc)
    requires Inv(idOf, s) && proc < |s.procs|
    ensures Inv(idOf, Kill(s, proc)) && Keeps(s, Kill(s, proc))
  {
    AnswersSurvive(idOf, s, Kill(s, proc));
  }

  lemma EnsureKeeps(idOf: string -> Option<Id>, s: State)
    requires Inv(idOf, s) && !Refuses(s)
    ensures Inv(idOf, Ensure(s)) && Keeps(s, Ensure(s))
    ensures Ensure(s).child.Some? && !Ensure(s).fault
  {
    AnswersSurvive(idOf, s, Ensure(s));
    assert Rest("") == "";
  }

  lemma SendKeeps(idOf: string -> Option<Id>, s: State, id: Id)
    requires Inv(idOf, s) && s.child.Some? && !s.fault && id !in s.issued
    ensures Inv(idOf, Send(s, id)) && Keeps(s, Send(s, id))
  {
    var t := Send(s, id);
    assert id !in s.pending.Keys + s.settled.Keys;
    assert t.pending.Keys == s.pending.Keys + {id} && t.issued.Keys == s.issued.Keys + {id};
    AnswersSurvive(idOf, s, t);
  }

  lemma CallKeeps(idOf: string -> Option<Id>, s: State, id: Id, broken: bool)
    requires Inv(idOf, s) && id !in s.issued
    ensures Inv(idOf, CallOn(s, id, broken)) && Keeps(s, CallOn(s, id, broken))
  {
    if Refuses(s) {
      RefusedKeeps(idOf, s, id);
    } else {
      EnsureKeeps(idOf, s);
      var e := Ensure(s);
      SendKeeps(idOf, e, id);
      var sent := Send(e, id);
      if broken {
        FailKeeps(idOf, sent, sent.child.value);
        KillKeeps(idOf, Fail(sent, sent.child.value), sent.child.value);
      }
    }
  }

  lemma RefusedKeeps(idOf: string -> Option<Id>, s: State, id: Id)
    requires Inv(idOf, s) && id !in s.issued
    ensures var t := s.(issued := s.issued[id := None], settled := s.settled[id := Failed]); Inv(idOf, t) && Keeps(s, t)
  {
    var t := s.(issued := s.issued[id := None], settled := s.settled[id := Failed]);
    assert id !in s.pending.Keys + s.settled.Keys;
    assert t.settled.Keys == s.settled.Keys + {id} && t.issued.Keys == s.issued.Keys + {id};
    AnswersSurvive(idOf, s, t);
  }

  lemma SettleKeeps(idOf: string -> Option<Id>, s: State, id: Id, o: Outcome)
    requires Inv(idOf, s) && id in s.pending
    requires o.Answer? ==> AnswerMatches(idOf, s.issued, s.procs, id, o)
    ensures var t := s.(pending := s.pending - {id}, settled := s.settled[id := o]); Inv(idOf, t) && Keeps(s, t)
  {
    var t := s.(pending := s.pending - {id}, settled := s.settled[id := o]);
    assert id in s.issued.Keys;
    assert t.pending.Keys == s.pending.Keys - {id} && t.settled.Keys == s.settled.Keys + {id};
    forall other | other in t.settled && t.settled[other].Answer?
      ensures AnswerMatches(idOf, t.issued, t.procs, other, t.settled[other])
    {
      if other != id { assert AnswerMatches(idOf, s.issued, s.procs, other, s.settled[other]); }
    }
  }

  lemma {:induction false} LinesKeep(idOf: string -> Option<Id>, s: State, proc: Proc, lines: seq<string>)
    requires Inv(idOf, s) && proc < |s.procs| && forall line | line in lines :: line in Lines(s.procs[proc].output)
    ensures var t := HandleLines(idOf, s, proc, lines);
            Inv(idOf, t) && Keeps(s, t) && t.procs == s.procs && t.issued == s.issued
  {
    if lines != [] {
      var front, line := lines[..|lines| - 1], lines[|lines| - 1];
      assert line in lines;
      LinesKeep(idOf, s, proc, front);
      var t := HandleLines(idOf, s, proc, front);
      if idOf(line).Some? && idOf(line).value in t.pending && t.pending[idOf(line).value] == proc {
        SettleKeeps(idOf, t, idOf(line).value, Answer(proc, line));
      }
    }
  }

  lemma ReceiveKeeps(idOf: string -> Option<Id>, s: State, proc: Proc, chunk: string)
    requires Inv(idOf, s) && s.child == Some(proc)
    ensures var t := Receive(s, proc, chunk);
            && Inv(idOf, t) && Keeps(s, t)
            && forall line | line in Lines(s.procs[proc].buffer + chunk) :: line in Lines(t.procs[proc].output)
  {
    SplitChunk(s.procs[proc].output, chunk);
    AnswersSurvive(idOf, s, Receive(s, proc, chunk));
  }

  lemma GoneKeeps(idOf: string -> Option<Id>, s: State, proc: Proc)
    requires Inv(idOf, s) && proc < |s.procs|
    ensures Inv(idOf, OnGone(s, proc)) && Keeps(s, OnGone(s, proc))
  {
    FailKeeps(idOf, s, proc);
    AnswersSurvive(idOf, Fail(s, proc), OnGone(s, proc));
  }

  lemma StepKeeps(idOf: string -> Option<Id>, s: State, e: Event)
    requires Inv(idOf, s) && Possible(s, e)
    ensures Inv(idOf, Step(idOf, s, e)) && Keeps(s, Step(idOf, s, e))
  {
    match e {
      case Call(id, broken) => CallKeeps(idOf, s, id, broken);
      case Data(proc, chunk) =>
        if s.child == Some(proc) {
          ReceiveKeeps(idOf, s, proc, chunk);
          LinesKeep(idOf, Receive(s, proc, chunk), proc, Lines(s.procs[proc].buffer + chunk));
        }
      case Exited(proc) => AnswersSurvive(idOf, s, Step(idOf, s, e));
      case ExitEvent(proc) => GoneKeeps(idOf, s, proc);
      case ErrorEvent(proc) => GoneKeeps(idOf, s, proc);
      case StdinError(proc) =>
        FailKeeps(idOf, s, proc);
        KillKeeps(idOf, Fail(s, proc), proc);
      case Timeout(id) => SettleKeeps(idOf, s, id, Failed);
      case Dispose => DisposeKeeps(idOf, s);
    }
  }

  lemma DisposeKeeps(idOf: string -> Option<Id>, s: State)
    requires Inv(idOf, s)
    ensures Inv(idOf, OnDispose(s)) && Keeps(s, OnDispose(s))
  {
    var d := s.(disposed := true);
    AnswersSurvive(idOf, s, d);
    if d.child.Some? && d.child.value < |d.procs| {
      FailKeeps(idOf, d, d.child.value);
      KillKeeps(idOf, Fail(d, d.child.value), d.child.value);
    }
  }

  // ------------------------------------------------------------------ over whole runs

  lemma {:induction false} RunKeeps(idOf: string -> Option<Id>, events: seq<Event>)
    requires Ran(idOf, events).Some?
    ensures Inv(idOf, Ran(idOf, events).value)
  {
    if events != [] {
      var front := events[..|events| - 1];
      RunKeeps(idOf, front);
      StepKeeps(idOf, Ran(idOf, front).value, events[|events| - 1]);
    }
  }

  /**
   In every run each call is settled at most once and for good; until then it waits on the child it was sent to, and
   that child's exit settles it.
   */
  lemma CallsSettleOnce(idOf: string -> Option<Id>, events: seq<Event>, s: State, id: Id)
    requires Ran(idOf, events) == Some(s) && id in s.issued
    ensures id in s.settled <==> id !in s.pending
    ensures forall e | Possible(s, e) && id in s.settled ::
              id in Step(idOf, s, e).settled && Step(idOf, s, e).settled[id] == s.settled[id]
    ensures id in s.pending ==>
              && s.issued[id] == Some(s.pending[id]) && s.pending[id] < |s.procs| && !s.procs[s.pending[id]].gone
              && id in OnGone(s, s.pending[id]).settled
  {
    RunKeeps(idOf, events);
    assert id in s.pending.Keys + s.settled.Keys;
    forall e | Possible(s, e) && id in s.settled
      ensures id in Step(idOf, s, e).settled && Step(idOf, s, e).settled[id] == s.settled[id]
    {
      StepKeeps(idOf, s, e);
    }
  }

  /** A row settles only the call whose id it carries, sent to the child that wrote it, whatever was restarted. */
  lemma AnswersComeFromTheirChild(idOf: string -> Option<Id>, events: seq<Event>, s: State)
    requires Ran(idOf, events) == Some(s)
    ensures forall id | id in s.settled && s.settled[id].Answer? ::
              var o := s.settled[id];
              && id in s.issued && s.issued[id] == Some(o.from)
              && idOf(o.line) == Some(id)
              && o.from < |s.procs| && o.line in Lines(s.procs[o.from].output)
  {
    RunKeeps(idOf, events);
  }

  /** A restarted child starts with an empty buffer and never sees what another child wrote. */
  lemma BufferIsOwnOutput(idOf: string -> Option<Id>, events: seq<Event>, s: State)
    requires Ran(idOf, events) == Some(s) && s.child.Some?
    ensures s.child.value < |s.procs|
    ensures s.procs[s.child.value].buffer == Rest(s.procs[s.child.value].output)
  {
    RunKeeps(idOf, events);
  }

  // ------------------------------------------------------------------ which events do what

  /** The call is refused: the client is disposed, or its running child is faulty or told to stop. */
  predicate Turned(s: State) {
    s.disposed || (s.child.Some? && s.child.value < |s.procs| && !s.procs[s.child.value].exited
                   && (s.fault || s.procs[s.child.value].killed))
  }

  /** The child that a call is sent to: the running one, or the next one. */
  function Target(s: State): Proc {
    if s.child.Some? && s.child.value < |s.procs| && !s.procs[s.child.value].exited then s.child.value else |s.procs|
  }

  /** Its time is up, its child is gone or cannot be written to, or the client is disposed. */
  predicate FailsNow(s: State, e: Event, id: Id)
    requires id in s.pending
  {
    match e
    case Timeout(other) => other == id
    case Exited(_) => false
    case Data(_, _) => false
    case Dispose => s.child == Some(s.pending[id])
    case Call(_, broken) => broken && !Turned(s) && Target(s) == s.pending[id]
    case _ => e.proc == s.pending[id]
  }

  lemma {:induction false} LinesNeverFail(idOf: string -> Option<Id>, s: State, proc: Proc, lines: seq<string>, id: Id)
    requires EachOnce(s) && id in s.pending
    ensures var t := HandleLines(idOf, s, proc, lines);
            EachOnce(t) && t.issued == s.issued && (id in t.settled ==> t.settled[id].Answer?)
  {
    if lines == [] {
      assert id !in s.settled.Keys;
    } else {
      var n := |lines| - 1;
      LinesNeverFail(idOf, s, proc, lines[..n], id);
      LineKeepsEachOnce(idOf, HandleLines(idOf, s, proc, lines[..n]), proc, lines[n]);
    }
  }

  lemma LineKeepsEachOnce(idOf: string -> Option<Id>, s: State, proc: Proc, line: string)
    requires EachOnce(s)
    ensures EachOnce(HandleLine(idOf, s, proc, line)) && HandleLine(idOf, s, proc, line).issued == s.issued
  {
    var t := HandleLine(idOf, s, proc, line);
    if t != s {
      var id := idOf(line).value;
      assert t.pending.Keys == s.pending.Keys - {id} && t.settled.Keys == s.settled.Keys + {id};
    }
  }

  /** A waiting call fails exactly then. */
  lemma CallFailsIff(idOf: string -> Option<Id>, s: State, e: Event, id: Id)
    requires Inv(idOf, s) && Possible(s, e) && id in s.pending
    ensures var t := Step(idOf, s, e); id in t.settled && t.settled[id].Failed? <==> FailsNow(s, e, id)
  {
    assert id !in s.settled.Keys;
    if e.Data? {
      if s.child == Some(e.proc) {
        LinesNeverFail(idOf, Receive(s, e.proc, e.chunk), e.proc, Lines(s.procs[e.proc].buffer + e.chunk), id);
      }
    } else if e.Call? {
      BrokenCallFails(s, e.id, e.broken, id);
    }
  }

  lemma BrokenCallFails(s: State, other: Id, broken: bool, id: Id)
    requires id in s.pending && id !in s.settled && other != id
    ensures var t := CallOn(s, other, broken);
            id in t.settled <==> broken && !Turned(s) && Target(s) == s.pending[id]
    ensures var t := CallOn(s, other, broken); id in t.settled ==> t.settled[id].Failed?
  {
  }

  /** A new call is refused, or sent to the running child or a new one; there it waits unless the write throws. */
  lemma CallGoesTo(s: State, id: Id, broken: bool)
    requires id !in s.issued && id !in s.pending && id !in s.settled
    ensures var t := CallOn(s, id, broken);
            if Turned(s) then t.issued[id] == None && id !in t.pending && t.settled[id] == Failed
            else && t.issued[id] == Some(Target(s)) && t.child == Some(Target(s))
                 && |t.procs| == (if Target(s) < |s.procs| then |s.procs| else |s.procs| + 1)
                 && if broken then id !in t.pending && t.settled[id] == Failed
                    else id in t.pending && t.pending[id] == Target(s) && id !in t.settled
  {
  }

  /** Only these mark the current child as faulty; the next child starts without fault. */
  lemma FaultIff(idOf: string -> Option<Id>, s: State, e: Event)
    requires Possible(s, e) && (s.child.Some? ==> s.child.value < |s.procs|)
    ensures Step(idOf, s, e).fault <==>
            match e
            case Call(_, broken) => if Turned(s) then s.fault else broken || (s.fault && Target(s) < |s.procs|)
            case ExitEvent(proc) => s.fault || s.child == Some(proc)
            case ErrorEvent(proc) => s.fault || s.child == Some(proc)
            case StdinError(proc) => s.fault || s.child == Some(proc)
            case Dispose => s.fault || s.child.Some?
            case _ => s.fault
  {
    if e.Data? && s.child == Some(e.proc) {
      LinesOnlySettle(idOf, Receive(s, e.proc, e.chunk), e.proc, Lines(s.procs[e.proc].buffer + e.chunk));
    }
  }

  /** Exactly when a child has exited, is told to stop, or the client is disposed. */
  lemma ChildrenFareSo(idOf: string -> Option<Id>, s: State, e: Event, proc: Proc)
    requires Possible(s, e) && proc < |s.procs| && (s.child.Some? ==> s.child.value < |s.procs|)
    ensures var t := Step(idOf, s, e);
            && proc < |t.procs| && (t.disposed <==> s.disposed || e.Dispose?)
            && (t.procs[proc].exited <==> s.procs[proc].exited || e == Exited(proc))
            && (t.procs[proc].killed <==>
                  || s.procs[proc].killed || e == StdinError(proc) || (e.Dispose? && s.child == Some(proc))
                  || (e.Call? && e.broken && !Turned(s) && Target(s) == proc))
  {
    if e.Data? {
      if s.child == Some(e.proc) {
        LinesOnlySettle(idOf, Receive(s, e.proc, e.chunk), e.proc, Lines(s.procs[e.proc].buffer + e.chunk));
      }
    } else if e.Call? {
      CallFaresSo(s, e.id, e.broken, proc);
    }
  }

  lemma CallFaresSo(s: State, id: Id, broken: bool, proc: Proc)
    requires proc < |s.procs|
    ensures var t := CallOn(s, id, broken);
            && proc < |t.procs| && t.disposed == s.disposed && t.procs[proc].exited == s.procs[proc].exited
            && (t.procs[proc].killed <==> s.procs[proc].killed || (broken && !Turned(s) && Target(s) == proc))
  {
  }

  // ------------------------------------------------------------------ the client object

  lemma {:induction false} LinesOnlySettle(idOf: string -> Option<Id>, s: State, proc: Proc, lines: seq<string>)
    ensures var t := HandleLines(idOf, s, proc, lines); t == s.(pending := t.pending, settled := t.settled)
  {
    if lines != [] { LinesOnlySettle(idOf, s, proc, lines[..|lines| - 1]); }
  }

  lemma {:induction false} LinesIgnoreProcs(
      idOf: string -> Option<Id>, s: State, procs: seq<Child>, proc: Proc, lines: seq<string>)
    ensures HandleLines(idOf, s.(procs := procs), proc, lines) == HandleLines(idOf, s, proc, lines).(procs := procs)
  {
    if lines != [] { LinesIgnoreProcs(idOf, s, procs, proc, lines[..|lines| - 1]); }
  }

  /** The loop of `#fail` with these entries still to look at. */
  ghost predicate Failing(
      first: map<Id, Proc>, pending: map<Id, Proc>, was: map<Id, Outcome>, settled: map<Id, Outcome>,
      proc: Proc, todo: set<Id>)
  {
    && todo <= first.Keys
    && pending == first - (On(first, proc) - todo)
    && settled == was + AllFailed(On(first, proc) - todo)
  }

  lemma FailingNext(first: map<Id, Proc>, pending: map<Id, Proc>, was: map<Id, Outcome>, settled: map<Id, Outcome>,
                    proc: Proc, todo: set<Id>, id: Id)
    requires Failing(first, pending, was, settled, proc, todo) && id in todo
    ensures id in pending
    ensures pending[id] == proc ==> Failing(first, pending - {id}, was, settled[id := Failed], proc, todo - {id})
    ensures pending[id] != proc ==> Failing(first, pending, was, settled, proc, todo - {id})
  {
    var waiting := On(first, proc);
    if id in waiting {
      assert waiting - (todo - {id}) == (waiting - todo) + {id};
    } else {
      assert waiting - (todo - {id}) == waiting - todo;
    }
  }

  lemma FailingDone(first: map<Id, Proc>, pending: map<Id, Proc>, was: map<Id, Outcome>, settled: map<Id, Outcome>,
                    proc: Proc)
    requires Failing(first, pending, was, settled, proc, {})
    ensures pending == first - On(first, proc) && settled == was + AllFailed(On(first, proc))
  {
    assert On(first, proc) - {} == On(first, proc);
  }

  class Client {
    const idOf: string -> Option<Id>
    var child: Option<Proc>
    var procs: seq<Child>
    var pending: map<Id, Proc>
    var fault: bool
    var disposed: bool
    var settled: map<Id, Outcome>
    ghost var issued: map<Id, Option<Proc>>

    ghost function View(): State
      reads this
    {
      State(child, procs, pending, fault, disposed, issued, settled)
    }

    constructor (idOf: string -> Option<Id>)
      ensures this.idOf == idOf && View() == START
    {
      this.idOf := idOf;
      child, procs, pending, fault, disposed, settled := None, [], map[], false, false, map[];
      issued := map[];
    }

    method FailAll(proc: Proc)
      modifies `pending, `fault, `settled
      ensures View() == Fail(old(View()), proc)
      ensures forall id :: id in pending <==> id in old(pending) && old(pending)[id] != proc
      ensures forall id | id in old(pending) && old(pending)[id] == proc :: id in settled && settled[id] == Failed
    {
      if child == Some(proc) { fault := true; }
      var todo := pending.Keys;
      while todo != {}
        invariant fault == (old(fault) || child == Some(proc))
        invariant Failing(old(pending), pending, old(settled), settled, proc, todo)
        decreases todo
      {
        var id :| id in todo;
        FailingNext(old(pending), pending, old(settled), settled, proc, todo, id);
        if pending[id] == proc {
          pending := pending - {id};
          settled := settled[id := Failed];
        }
        todo := todo - {id};
      }
      FailingDone(old(pending), pending, old(settled), settled, proc);
    }

    method KillChild(proc: Proc)
      requires proc < |procs|
      modifies `procs
      ensures View() == Kill(old(View()), proc)
    {
      procs := procs[proc := procs[proc].(killed := true)];
    }

    /** `call`. */
    method Call(id: Id, broken: bool)
      requires child.Some? ==> child.value < |procs|
      modifies this
      ensures View() == CallOn(old(View()), id, broken)
    {
      var running := child.Some? && !procs[child.value].exited;
      if disposed || (running && (fault || procs[child.value].killed)) {
        issued, settled := issued[id := None], settled[id := Failed];
        return;
      }
      if !running {
        child, procs, fault := Some(|procs|), procs + [SPAWNED], false;
      }
      issued, pending := issued[id := child], pending[id := child.value];
      if broken {
        FailAll(child.value);
        KillChild(child.value);
      }
    }

    /** The loop of the stdout handler over the complete lines; what remains is the new partial line. */
    method HandleBuffer(proc: Proc, received: string) returns (buffer: string)
      modifies `pending, `settled
      ensures View() == HandleLines(idOf, old(View()), proc, Lines(received)) && buffer == Rest(received)
    {
      buffer := received;
      ghost var start, lines := View(), [];
      var found, line, rest := LineFraming.NextLine(buffer);
      while found
        invariant found ==> NoNewline(line) && buffer == Glue(line, rest)
        invariant !found ==> NoNewline(buffer)
        invariant Split(received, lines, buffer)
        invariant View() == HandleLines(idOf, start, proc, lines)
        decreases |buffer|
      {
        HandleRow(proc, line);
        OneMoreLine(received, lines, buffer, line, rest);
        lines, buffer := lines + [line], rest;
        found, line, rest := LineFraming.NextLine(buffer);
      }
      AllSplit(received, lines, buffer);
    }

    /** One line of output. */
    method HandleRow(proc: Proc, line: string)
      modifies `pending, `settled
      ensures View() == HandleLine(idOf, old(View()), proc, line)
    {
      match idOf(line) {
        case Some(id) =>
          if id in pending && pending[id] == proc {
            pending, settled := pending - {id}, settled[id := Answer(proc, line)];
          }
        case None =>
      }
    }

    /** The stdout handler of one child. */
    method HandleData(proc: Proc, chunk: string)
      requires proc < |procs|
      modifies `procs, `pending, `settled
      ensures View() == OnData(idOf, old(View()), proc, chunk)
    {
      if child != Some(proc) { return; }
      var received := procs[proc].buffer + chunk;
      LinesIgnoreProcs(idOf, View(), Receive(View(), proc, chunk).procs, proc, Lines(received));
      LinesOnlySettle(idOf, View(), proc, Lines(received));
      var buffer := HandleBuffer(proc, received);
      procs := procs[proc := procs[proc].(buffer := buffer, output := procs[proc].output + chunk)];
    }

    /** The `exit` and `error` handlers. */
    method HandleGone(proc: Proc)
      requires proc < |procs|
      modifies this
      ensures View() == OnGone(old(View()), proc)
      ensures child == if old(child) == Some(proc) then None else old(child)
      ensures |procs| == |old(procs)| && procs[proc].gone && procs[proc].buffer == ""
      ensures forall id | id in pending :: pending[id] != proc
    {
      procs := procs[proc := procs[proc].(gone := true, buffer := "")];
      FailAll(proc);
      if child == Some(proc) { child := None; }
    }

    /** An error event of the child's input. */
    method HandleStdinError(proc: Proc)
      requires proc < |procs|
      modifies this
      ensures View() == Kill(Fail(old(View()), proc), proc)
      ensures procs[proc].killed && forall id | id in pending :: pending[id] != proc
    {
      FailAll(proc);
      KillChild(proc);
    }

    method HandleTimeout(id: Id)
      modifies `pending, `settled
      ensures View() == OnTimeout(old(View()), id)
      ensures pending == old(pending) - {id} && id in settled && settled[id] == Failed
    {
      pending, settled := pending - {id}, settled[id := Failed];
    }

    method DisposeClient()
      requires child.Some? ==> child.value < |procs|
      modifies this
      ensures View() == OnDispose(old(View()))
      ensures disposed && (child.Some? ==> procs[child.value].killed)
      ensures child.Some? ==> forall id | id in pending :: pending[id] != child.value
    {
      disposed := true;
      if child.None? { return; }
      FailAll(child.value);
      KillChild(child.value);
    }
  }
}
