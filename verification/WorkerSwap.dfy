/**
 Starting, swapping and stopping the resident bridge worker.  `ensureWorker` and `reload` are single-flight each, but
 not against one another; both wait for the new worker's hello and self check, and anything can happen meanwhile.
 A worker is taken to report the generation it was started with.
 */
module WorkerSwap {
  import opened Prelude

  type Handle = nat

  /** Up: running and nobody has told it to stop. */
  datatype Life = Up | Stopping | Gone

  datatype Worker = Worker(generation: nat, life: Life)

  /** The worker a start or a reload waits for, and whether its hello has come. */
  datatype Flight = Flight(handle: Handle, greeted: bool)

  datatype State = State(
    current: Option<Handle>,
    starting: Option<Flight>,
    reloading: Option<Flight>,
    generation: nat,
    workers: seq<Worker>,
    turns: nat)

  const START := State(None, None, None, 0, [], 0)

  /** Which of the two flights an event belongs to. */
  datatype Which = Starting | Reloading

  /** What a wait for the new worker can end with. */
  datatype Answer = Fine | Refused | Killed | Raised

  datatype Event =
    | EnsureWorker
    | Reload
    | Hello(which: Which, answer: Answer)
    | SelfCheck(which: Which, answer: Answer)
    | Exit(handle: Handle)
    | StopWorker
    | TurnOpens
    | TurnCloses

  // ------------------------------------------------------------------ the handlers

  predicate IsUp(s: State, h: Handle) { h < |s.workers| && s.workers[h].life.Up? }

  function SetLife(s: State, h: Handle, life: Life): State {
    if h < |s.workers| then s.(workers := s.workers[h := s.workers[h].(life := life)]) else s
  }

  function StopOne(s: State, h: Handle): State { if IsUp(s, h) then SetLife(s, h, Stopping) else s }

  function Spawn(s: State): (Handle, State) {
    (|s.workers|, s.(workers := s.workers + [Worker(s.generation + 1, Up)]))
  }

  /** `ensureWorker`: the current worker, the start in flight, or a new start. */
  function Ensure(s: State): State {
    if s.current.Some? && s.current.value < |s.workers| && !s.workers[s.current.value].life.Gone? then s
    else if s.starting.Some? then s
    else
      var (h, t) := Spawn(s);
      t.(starting := Some(Flight(h, false)))
  }

  /** `reload`: the reload in flight, deferred while a turn is open, or a new one. */
  function BeginReload(s: State): State {
    if s.reloading.Some? || s.turns > 0 then s
    else
      var (h, t) := Spawn(s);
      t.(reloading := Some(Flight(h, false)))
  }

  function FlightOf(s: State, which: Which): Option<Flight> {
    if which.Starting? then s.starting else s.reloading
  }

  function WithFlight(s: State, which: Which, f: Option<Flight>): State {
    if which.Starting? then s.(starting := f) else s.(reloading := f)
  }

  /** The hello: a refused one leaves the worker running, a timeout or a wrong protocol kills it. */
  function OnHello(s: State, which: Which, h: Handle, answer: Answer): State {
    match answer
    case Fine => WithFlight(s, which, Some(Flight(h, true)))
    case Killed => WithFlight(StopOne(s, h), which, None)
    case _ => WithFlight(s, which, None)
  }

  /** The self check: a failed one stops the worker, one that raises does not. */
  function OnSelfCheck(s: State, which: Which, h: Handle, answer: Answer): State
    requires h < |s.workers|
  {
    match answer
    case Fine => Install(WithFlight(s, which, None), which, h)
    case Refused => WithFlight(StopOne(s, h), which, None)
    case _ => WithFlight(s, which, None)
  }

  /** A reload stops the worker it replaces; a start does not look. */
  function Install(s: State, which: Which, h: Handle): State
    requires h < |s.workers|
  {
    var previous := s.current;
    var t := s.(current := Some(h), generation := s.workers[h].generation);
    if which.Reloading? && previous.Some? then StopOne(t, previous.value) else t
  }

  predicate Possible(s: State, e: Event) {
    match e
    case Hello(which, _) => FlightOf(s, which).Some? && !FlightOf(s, which).value.greeted
    case SelfCheck(which, _) =>
      FlightOf(s, which).Some? && FlightOf(s, which).value.greeted && FlightOf(s, which).value.handle < |s.workers|
    case Exit(h) => h < |s.workers|
    case TurnCloses => s.turns > 0
    case _ => true
  }

  function Step(s: State, e: Event): State
    requires Possible(s, e)
  {
    match e
    case EnsureWorker => Ensure(s)
    case Reload => BeginReload(s)
    case Hello(which, answer) => OnHello(s, which, FlightOf(s, which).value.handle, answer)
    case SelfCheck(which, answer) => OnSelfCheck(s, which, FlightOf(s, which).value.handle, answer)
    case Exit(h) => var t := SetLife(s, h, Gone); if s.current == Some(h) then t.(current := None) else t
    case StopWorker => if s.current.Some? then StopOne(s.(current := None), s.current.value) else s
    case TurnOpens => s.(turns := s.turns + 1)
    case TurnCloses => s.(turns := s.turns - 1)
  }

  // ------------------------------------------------------------------ who accounts for a worker

  predicate Waited(f: Option<Flight>, h: Handle) { f.Some? && f.value.handle == h }

  /** Somebody still knows the worker: it is current, or a start or a reload waits for it. */
  predicate Known(s: State, h: Handle) {
    s.current == Some(h) || Waited(s.starting, h) || Waited(s.reloading, h)
  }

  /** Running for good: nobody uses it and nobody will stop it. */
  predicate Orphan(s: State, h: Handle) { IsUp(s, h) && !Known(s, h) }

  /** The three roles are played by different workers that were spawned. */
  predicate Apart(s: State) {
    && (s.current.Some? ==> s.current.value < |s.workers|)
    && (s.starting.Some? ==> s.starting.value.handle < |s.workers|)
    && (s.reloading.Some? ==> s.reloading.value.handle < |s.workers|)
    && (s.current.Some? ==> !Waited(s.starting, s.current.value) && !Waited(s.reloading, s.current.value))
    && (s.starting.Some? ==> !Waited(s.reloading, s.starting.value.handle))
  }

  lemma HelloKeepsApart(s: State, e: Event)
    requires Apart(s) && Possible(s, e) && e.Hello?
    ensures Apart(Step(s, e))
  {
  }

  lemma CheckKeepsApart(s: State, e: Event)
    requires Apart(s) && Possible(s, e) && e.SelfCheck?
    ensures Apart(Step(s, e))
  {
  }

  lemma StepKeepsApart(s: State, e: Event)
    requires Apart(s) && Possible(s, e)
    ensures Apart(Step(s, e))
  {
    if e.Hello? {
      HelloKeepsApart(s, e);
    } else if e.SelfCheck? {
      CheckKeepsApart(s, e);
    }
  }

  /** The worker that a flight waits for is let go while it runs. */
  predicate LetsGo(s: State, e: Event) {
    && (e.Hello? || e.SelfCheck?)
    && FlightOf(s, e.which).Some? && IsUp(s, FlightOf(s, e.which).value.handle)
    && (if e.Hello? then e.answer.Refused? || e.answer.Raised? else e.answer.Killed? || e.answer.Raised?)
  }

  /** A start installs its worker over one that a reload installed meanwhile. */
  predicate Overwrites(s: State, e: Event) {
    e.SelfCheck? && e.which.Starting? && e.answer.Fine? && s.current.Some? && IsUp(s, s.current.value)
  }

  /** The orphans after a step: those before it that did not exit, and the worker that was let go or overwritten. */
  predicate Orphaned(s: State, e: Event, h: Handle) {
    || (Orphan(s, h) && e != Exit(h))
    || (LetsGo(s, e) && h == FlightOf(s, e.which).value.handle)
    || (Overwrites(s, e) && h == s.current.value)
  }

  lemma HelloOrphans(s: State, e: Event, h: Handle)
    requires Apart(s) && Possible(s, e) && e.Hello?
    ensures Orphan(Step(s, e), h) <==> Orphaned(s, e, h)
  {
    var f := FlightOf(s, e.which).value.handle;
    assert IsUp(Step(s, e), h) <==> IsUp(s, h) && !(e.answer.Killed? && h == f);
    if !e.answer.Fine? {
      assert Known(Step(s, e), h) <==> Known(s, h) && h != f;
    }
  }

  lemma CheckOrphans(s: State, e: Event, h: Handle)
    requires Apart(s) && Possible(s, e) && e.SelfCheck? && !e.answer.Fine?
    ensures Orphan(Step(s, e), h) <==> Orphaned(s, e, h)
  {
    var f := FlightOf(s, e.which).value.handle;
    assert IsUp(Step(s, e), h) <==> IsUp(s, h) && !(e.answer.Refused? && h == f);
    assert Known(Step(s, e), h) <==> Known(s, h) && h != f;
  }

  lemma InstallOrphans(s: State, e: Event, h: Handle)
    requires Apart(s) && Possible(s, e) && e.SelfCheck? && e.answer.Fine?
    ensures Orphan(Step(s, e), h) <==> Orphaned(s, e, h)
  {
    var stopped := e.which.Reloading? && s.current == Some(h);
    assert IsUp(Step(s, e), h) <==> IsUp(s, h) && !stopped;
    assert Known(Step(s, e), h) <==> Known(s, h) && s.current != Some(h);
  }

  lemma SpawnOrphans(s: State, e: Event, h: Handle)
    requires Apart(s) && (e.EnsureWorker? || e.Reload?)
    ensures Orphan(Step(s, e), h) <==> Orphaned(s, e, h)
  {
  }

  lemma StopOrphans(s: State, e: Event, h: Handle)
    requires Apart(s) && Possible(s, e) && (e.Exit? || e.StopWorker?)
    ensures Orphan(Step(s, e), h) <==> Orphaned(s, e, h)
  {
  }

  /** Exactly these two kinds of events orphan a worker, and an orphan stays one until it exits. */
  lemma OrphansComeFrom(s: State, e: Event, h: Handle)
    requires Apart(s) && Possible(s, e)
    ensures Orphan(Step(s, e), h) <==> Orphaned(s, e, h)
  {
    match e {
      case Hello(_, _) => HelloOrphans(s, e, h);
      case SelfCheck(_, answer) => if answer.Fine? { InstallOrphans(s, e, h); } else { CheckOrphans(s, e, h); }
      case EnsureWorker => SpawnOrphans(s, e, h);
      case Reload => SpawnOrphans(s, e, h);
      case Exit(_) => StopOrphans(s, e, h);
      case StopWorker => StopOrphans(s, e, h);
      case _ =>
    }
  }

  // ------------------------------------------------------------------ which events do what

  /** A start without a live worker or a start in flight; a reload without one in flight and without an open turn. */
  predicate Spawns(s: State, e: Event) {
    || (e.EnsureWorker? && s.starting.None?
        && (s.current.Some? && s.current.value < |s.workers| ==> s.workers[s.current.value].life.Gone?))
    || (e.Reload? && s.reloading.None? && s.turns == 0)
  }

  /** Its hello failed for good, its self check failed, a reload replaced it, or the host stops it. */
  predicate Stops(s: State, e: Event, h: Handle) {
    match e
    case Hello(which, answer) => answer.Killed? && Waited(FlightOf(s, which), h)
    case SelfCheck(which, answer) =>
      (answer.Refused? && Waited(FlightOf(s, which), h)) || (answer.Fine? && which.Reloading? && s.current == Some(h))
    case StopWorker => s.current == Some(h)
    case _ => false
  }

  /** Exactly these events spawn a worker, stop one, and change which one is current. */
  lemma StepDoes(s: State, e: Event, h: Handle)
    requires Apart(s) && Possible(s, e) && h < |s.workers|
    ensures var t := Step(s, e);
            && |t.workers| == |s.workers| + (if Spawns(s, e) then 1 else 0)
            && (Spawns(s, e) ==> t.workers[|s.workers|] == Worker(s.generation + 1, Up))
            && t.workers[h].life == if e == Exit(h) then Gone
                                    else if IsUp(s, h) && Stops(s, e, h) then Stopping
                                    else s.workers[h].life
    ensures Step(s, e).current == if Installs(e) then Some(FlightOf(s, e.which).value.handle)
                                  else if e.StopWorker? || (e.Exit? && s.current == Some(e.handle)) then None
                                  else s.current
  {
    if e.SelfCheck? {
      CheckDoes(s, e, h);
    } else if e.Hello? {
      HelloDoes(s, e, h);
    }
  }

  lemma HelloDoes(s: State, e: Event, h: Handle)
    requires Apart(s) && Possible(s, e) && h < |s.workers| && e.Hello?
    ensures var t := Step(s, e);
            && |t.workers| == |s.workers| && t.current == s.current
            && t.workers[h].life == if IsUp(s, h) && Stops(s, e, h) then Stopping else s.workers[h].life
  {
  }

  lemma CheckDoes(s: State, e: Event, h: Handle)
    requires Apart(s) && Possible(s, e) && h < |s.workers| && e.SelfCheck?
    ensures var t := Step(s, e);
            && |t.workers| == |s.workers|
            && t.workers[h].life == if IsUp(s, h) && Stops(s, e, h) then Stopping else s.workers[h].life
  {
  }

  // ------------------------------------------------------------------ runs

  /** The state after these events from s, if each could happen. */
  function Ran(s: State, events: seq<Event>): Option<State> {
    if events == [] then Some(s)
    else
      var before, last := Ran(s, events[..|events| - 1]), events[|events| - 1];
      if before.Some? && Possible(before.value, last) then Some(Step(before.value, last)) else None
  }

  lemma {:induction false} RunKeepsApart(events: seq<Event>)
    requires Ran(START, events).Some?
    ensures Apart(Ran(START, events).value)
  {
    if events != [] {
      var front := events[..|events| - 1];
      RunKeepsApart(front);
      StepKeepsApart(Ran(START, front).value, events[|events| - 1]);
    }
  }

  // ------------------------------------------------------------------ when every worker stays known

  ghost predicate NoOrphans(s: State) {
    forall h: Handle :: !Orphan(s, h)
  }

  /** A step keeps everybody known exactly when it neither lets go of a running worker nor overwrites one. */
  lemma StepKeepsKnownIff(s: State, e: Event)
    requires Apart(s) && NoOrphans(s) && Possible(s, e)
    ensures NoOrphans(Step(s, e)) <==> !LetsGo(s, e) && !Overwrites(s, e)
  {
    forall h: Handle ensures Orphan(Step(s, e), h) <==> Orphaned(s, e, h) {
      OrphansComeFrom(s, e, h);
    }
    if LetsGo(s, e) { assert Orphaned(s, e, FlightOf(s, e.which).value.handle); }
    if Overwrites(s, e) { assert Orphaned(s, e, s.current.value); }
  }

  /** At no step of the run a running worker is let go or overwritten. */
  predicate KeepsTrack(events: seq<Event>)
    requires Ran(START, events).Some?
  {
    events == []
    || var front, last := events[..|events| - 1], events[|events| - 1];
       KeepsTrack(front) && !LetsGo(Ran(START, front).value, last) && !Overwrites(Ran(START, front).value, last)
  }

  /** Every running worker is known, now and after each earlier event. */
  ghost predicate AlwaysKnown(events: seq<Event>)
    requires Ran(START, events).Some?
  {
    NoOrphans(Ran(START, events).value) && (events == [] || AlwaysKnown(events[..|events| - 1]))
  }

  /**
   Whatever overlaps, every running worker is current or waited for all along a run exactly when no step lets one go
   or overwrites one.
   */
  lemma {:induction false} AlwaysKnownIff(events: seq<Event>)
    requires Ran(START, events).Some?
    ensures AlwaysKnown(events) <==> KeepsTrack(events)
  {
    if events != [] {
      var front := events[..|events| - 1];
      AlwaysKnownIff(front);
      RunKeepsApart(front);
      if AlwaysKnown(front) { StepKeepsKnownIff(Ran(START, front).value, events[|events| - 1]); }
    }
  }

  /** Then, once nothing is waited for, only the current worker runs. */
  lemma OneWorkerAtRest(events: seq<Event>, s: State)
    requires Ran(START, events) == Some(s) && KeepsTrack(events) && s.starting.None? && s.reloading.None?
    ensures forall h: Handle | IsUp(s, h) :: s.current == Some(h)
  {
    AlwaysKnownIff(events);
    forall h: Handle | IsUp(s, h) ensures Known(s, h) { assert !Orphan(s, h); }
  }

  // ------------------------------------------------------------------ generations

  predicate Installs(e: Event) { e.SelfCheck? && e.answer.Fine? }

  /** The length of the run before the flight that is waited for was begun. */
  function Since(events: seq<Event>, which: Which): nat
    requires Ran(START, events).Some? && FlightOf(Ran(START, events).value, which).Some?
  {
    var front := events[..|events| - 1];
    if FlightOf(Ran(START, front).value, which).Some? then Since(front, which) else |front|
  }

  /** What the state was when a flight that is waited for was begun. */
  ghost predicate BegunAt(b: State, s: State, which: Which) {
    && FlightOf(s, which).Some? && FlightOf(s, which).value.handle < |s.workers|
    && s.workers[FlightOf(s, which).value.handle].generation == b.generation + 1
    && FlightOf(b, which).None?
    && (which.Reloading? ==> b.turns == 0)
  }

  lemma SpawnBegins(s: State, e: Event, which: Which)
    requires Apart(s) && Possible(s, e) && FlightOf(s, which).None? && FlightOf(Step(s, e), which).Some?
    ensures BegunAt(s, Step(s, e), which)
  {
  }

  /** No step changes the generation a worker was started with, or forgets a worker. */
  lemma StepKeepsWorkers(s: State, e: Event, h: Handle)
    requires Apart(s) && Possible(s, e) && h < |s.workers|
    ensures h < |Step(s, e).workers| && Step(s, e).workers[h].generation == s.workers[h].generation
  {
  }

  lemma StepKeepsBegun(b: State, s: State, e: Event, which: Which)
    requires Apart(s) && BegunAt(b, s, which) && Possible(s, e) && FlightOf(Step(s, e), which).Some?
    ensures BegunAt(b, Step(s, e), which)
  {
    StepKeepsWorkers(s, e, FlightOf(s, which).value.handle);
    assert FlightOf(Step(s, e), which).value.handle == FlightOf(s, which).value.handle;
  }

  lemma {:induction false} FlightBegan(events: seq<Event>, which: Which)
    requires Ran(START, events).Some? && FlightOf(Ran(START, events).value, which).Some?
    ensures var k := Since(events, which);
            k < |events| && Ran(START, events[..k]).Some?
            && BegunAt(Ran(START, events[..k]).value, Ran(START, events).value, which)
  {
    var m := |events| - 1;
    var front := events[..m];
    RunKeepsApart(front);
    if FlightOf(Ran(START, front).value, which).Some? {
      FlightBegan(front, which);
      var k := Since(front, which);
      assert front[..k] == events[..k];
      StepKeepsBegun(Ran(START, events[..k]).value, Ran(START, front).value, events[m], which);
    } else {
      SpawnBegins(Ran(START, front).value, events[m], which);
    }
  }

  /** A step sets the generation back exactly when it installs a worker of a lower one. */
  lemma GoesBackIff(s: State, e: Event)
    requires Apart(s) && Possible(s, e)
    ensures Step(s, e).generation < s.generation
            <==> Installs(e) && s.workers[FlightOf(s, e.which).value.handle].generation < s.generation
    ensures !Installs(e) ==> Step(s, e).generation == s.generation
  {
  }

  /**
   In every run an install gives the generation that stood when its start or reload began, plus one.  So it raises the
   generation by one exactly when that generation still stands, keeps it exactly when it has risen by one since, and
   sets it back exactly when it has risen by two or more since.
   */
  lemma InstallsCompareWithBegin(events: seq<Event>, s: State, e: Event)
    requires Ran(START, events) == Some(s) && Possible(s, e) && Installs(e)
    ensures var k := Since(events, e.which);
            k < |events| && Ran(START, events[..k]).Some? &&
            var begun, t := Ran(START, events[..k]).value, Step(s, e);
            && t.generation == begun.generation + 1
            && (t.generation == s.generation + 1 <==> s.generation == begun.generation)
            && (t.generation == s.generation <==> s.generation == begun.generation + 1)
            && (t.generation < s.generation <==> s.generation >= begun.generation + 2)
  {
    FlightBegan(events, e.which);
  }

  /** A start and a reload are not in flight together: neither begins while the other is. */
  predicate Alone(s: State, e: Event) {
    && (e.EnsureWorker? && Ensure(s) != s ==> s.reloading.None?)
    && (e.Reload? && BeginReload(s) != s ==> s.starting.None?)
  }

  predicate NeverOverlaps(events: seq<Event>)
    requires Ran(START, events).Some?
  {
    events == []
    || var front, last := events[..|events| - 1], events[|events| - 1];
       NeverOverlaps(front) && Alone(Ran(START, front).value, last)
  }

  /** What such runs keep. */
  predicate OneFlight(s: State) {
    && Apart(s)
    && (s.starting.None? || s.reloading.None?)
    && (s.starting.Some? && s.current.Some? ==> !IsUp(s, s.current.value))
    && (s.starting.Some? ==> s.workers[s.starting.value.handle].generation == s.generation + 1)
    && (s.reloading.Some? ==> s.workers[s.reloading.value.handle].generation == s.generation + 1)
  }

  lemma CheckKeepsOneFlight(s: State, e: Event)
    requires OneFlight(s) && Possible(s, e) && e.SelfCheck?
    ensures OneFlight(Step(s, e))
  {
    StepKeepsApart(s, e);
  }

  lemma StepKeepsOneFlight(s: State, e: Event)
    requires OneFlight(s) && Possible(s, e) && Alone(s, e)
    ensures OneFlight(Step(s, e))
  {
    if e.SelfCheck? {
      CheckKeepsOneFlight(s, e);
    } else {
      StepKeepsApart(s, e);
    }
  }

  lemma {:induction false} RunKeepsOneFlight(events: seq<Event>)
    requires Ran(START, events).Some? && NeverOverlaps(events)
    ensures OneFlight(Ran(START, events).value)
  {
    if events != [] {
      var front := events[..|events| - 1];
      RunKeepsOneFlight(front);
      StepKeepsOneFlight(Ran(START, front).value, events[|events| - 1]);
    }
  }

  /**
   While starts and reloads do not overlap, every install raises the generation by one, nothing else changes it, and
   no start overwrites a running worker.
   */
  lemma GenerationsAscend(events: seq<Event>, s: State, e: Event)
    requires Ran(START, events) == Some(s) && NeverOverlaps(events) && Possible(s, e)
    ensures Step(s, e).generation == s.generation + if Installs(e) then 1 else 0
    ensures !Overwrites(s, e)
  {
    RunKeepsOneFlight(events);
  }

  // ------------------------------------------------------------------ turns under a swap

  /** How many more turns opened than closed. */
  function Balance(events: seq<Event>): int {
    if events == [] then 0
    else
      var last := events[|events| - 1];
      Balance(events[..|events| - 1]) + (if last.TurnOpens? then 1 else if last.TurnCloses? then -1 else 0)
  }

  lemma {:induction false} TurnsBalance(events: seq<Event>, k: nat)
    requires Ran(START, events).Some? && k <= |events|
    ensures Ran(START, events[..k]).Some?
    ensures Ran(START, events).value.turns == Ran(START, events[..k]).value.turns + Balance(events[k..])
  {
    var m := |events| - 1;
    if k == |events| {
      assert events[..k] == events && events[k..] == [];
    } else {
      TurnsBalance(events[..m], k);
      assert events[..m][..k] == events[..k];
      assert events[k..][..m - k] == events[..m][k..];
      StepBalances(Ran(START, events[..m]).value, events[m]);
    }
  }

  lemma StepBalances(s: State, e: Event)
    requires Possible(s, e)
    ensures Step(s, e).turns == s.turns + (if e.TurnOpens? then 1 else if e.TurnCloses? then -1 else 0)
  {
  }

  /**
   In every run a reload begins with no turn open, and swaps the worker under an open turn exactly when more turns
   opened than closed since it began.
   */
  lemma SwapsUnderTurnIff(events: seq<Event>, s: State)
    requires Ran(START, events) == Some(s) && Possible(s, SelfCheck(Reloading, Fine))
    ensures var k, t := Since(events, Reloading), Step(s, SelfCheck(Reloading, Fine));
            && k < |events| && Ran(START, events[..k]).Some? && Ran(START, events[..k]).value.turns == 0
            && t.current == Some(s.reloading.value.handle) && t.current != s.current
            && (t.turns > 0 <==> Balance(events[k..]) > 0)
  {
    FlightBegan(events, Reloading);
    RunKeepsApart(events);
    TurnsBalance(events, Since(events, Reloading));
  }

  // ------------------------------------------------------------------ what overlap does

  const STARTED := [EnsureWorker, Hello(Starting, Fine)]
  const RESTARTED := STARTED + [SelfCheck(Starting, Fine)]
  const RELOADING := [Reload, Hello(Reloading, Fine)]
  const RELOADED := RELOADING + [SelfCheck(Reloading, Fine)]

  lemma RanThen(s: State, events: seq<Event>, e: Event)
    requires Ran(s, events).Some? && Possible(Ran(s, events).value, e)
    ensures Ran(s, events + [e]) == Some(Step(Ran(s, events).value, e))
  {
    assert (events + [e])[..|events|] == events;
  }

  /** The state while a start waits for the self check of its worker. */
  function Starts(s: State): State {
    s.(workers := s.workers + [Worker(s.generation + 1, Up)], starting := Some(Flight(|s.workers|, true)))
  }

  lemma AfterStarted(s: State, events: seq<Event>)
    requires Ran(START, events) == Some(s) && s.starting.None? && s.current.None?
    ensures Ran(START, events + STARTED) == Some(Starts(s))
  {
    RanThen(START, events, EnsureWorker);
    RanThen(START, events + [EnsureWorker], Hello(Starting, Fine));
    assert events + [EnsureWorker] + [Hello(Starting, Fine)] == events + STARTED;
  }

  /** The state once a whole reload went through. */
  function Swapped(s: State): State {
    var t := s.(workers := s.workers + [Worker(s.generation + 1, Up)],
                current := Some(|s.workers|), generation := s.generation + 1);
    if s.current.Some? then StopOne(t, s.current.value) else t
  }

  /** The state while a reload waits for the self check of its worker. */
  function Waiting(s: State): State {
    s.(workers := s.workers + [Worker(s.generation + 1, Up)], reloading := Some(Flight(|s.workers|, true)))
  }

  lemma AfterReloading(s: State, events: seq<Event>)
    requires Ran(START, events) == Some(s) && s.reloading.None? && s.turns == 0
    ensures Ran(START, events + RELOADING) == Some(Waiting(s))
  {
    RanThen(START, events, Reload);
    RanThen(START, events + [Reload], Hello(Reloading, Fine));
    assert events + [Reload] + [Hello(Reloading, Fine)] == events + RELOADING;
  }

  lemma AfterReloaded(s: State, events: seq<Event>)
    requires Ran(START, events) == Some(s) && s.reloading.None? && s.turns == 0
    requires s.current.Some? ==> s.current.value < |s.workers|
    ensures Ran(START, events + RELOADED) == Some(Swapped(s))
  {
    AfterReloading(s, events);
    RanThen(START, events + RELOADING, SelfCheck(Reloading, Fine));
    assert events + RELOADING + [SelfCheck(Reloading, Fine)] == events + RELOADED;
  }

  /** The orphans after a run from START. */
  function OrphansAfter(events: seq<Event>): set<Handle> {
    var end := Ran(START, events);
    if end.Some? then set h | 0 <= h < |end.value.workers| && Orphan(end.value, h) else {}
  }

  /** A reload that finishes while a start is in flight: the start then orphans the worker the reload installed. */
  lemma OverlapOrphans()
    ensures 1 in OrphansAfter(STARTED + RELOADED + [SelfCheck(Starting, Fine)])
  {
    assert [] + STARTED == STARTED;
    AfterStarted(START, []);
    var s := Starts(START);
    AfterReloaded(s, STARTED);
    RanThen(START, STARTED + RELOADED, SelfCheck(Starting, Fine));
  }

  /** The generation after a run from START, if the run can happen. */
  function GenerationAfter(events: seq<Event>): Option<nat> {
    var end := Ran(START, events);
    if end.Some? then Some(end.value.generation) else None
  }

  /** A start that outlives two reloads sets the generation back from 2 to 1. */
  lemma StartTurnsGenerationBack()
    ensures GenerationAfter(STARTED + RELOADED + RELOADED) == Some(2)
    ensures GenerationAfter(STARTED + RELOADED + RELOADED + [SelfCheck(Starting, Fine)]) == Some(1)
  {
    assert [] + STARTED == STARTED;
    AfterStarted(START, []);
    var s := Starts(START);
    AfterReloaded(s, STARTED);
    AfterReloaded(Swapped(s), STARTED + RELOADED);
    RanThen(START, STARTED + RELOADED + RELOADED, SelfCheck(Starting, Fine));
  }

  /** The state once a whole start went through. */
  function Started(s: State): State {
    s.(workers := s.workers + [Worker(s.generation + 1, Up)],
       current := Some(|s.workers|), generation := s.generation + 1)
  }

  lemma AfterRestarted(s: State, events: seq<Event>)
    requires Ran(START, events) == Some(s) && s.starting.None? && s.current.None?
    ensures Ran(START, events + RESTARTED) == Some(Started(s))
  {
    AfterStarted(s, events);
    RanThen(START, events + STARTED, SelfCheck(Starting, Fine));
    assert events + STARTED + [SelfCheck(Starting, Fine)] == events + RESTARTED;
  }

  /** So does a reload that outlives two starts, the first of whose workers exited; no turn is open. */
  lemma ReloadTurnsGenerationBack()
    ensures GenerationAfter(RELOADING + RESTARTED + [Exit(1)] + RESTARTED) == Some(2)
    ensures Ran(START, RELOADING + RESTARTED + [Exit(1)] + RESTARTED).value.turns == 0
    ensures GenerationAfter(RELOADING + RESTARTED + [Exit(1)] + RESTARTED + [SelfCheck(Reloading, Fine)]) == Some(1)
  {
    assert [] + RELOADING == RELOADING;
    AfterReloading(START, []);
    var waiting := Waiting(START);
    AfterRestarted(waiting, RELOADING);
    var exited := Started(waiting).(workers := Started(waiting).workers[1 := Worker(1, Gone)], current := None);
    RanThen(START, RELOADING + RESTARTED, Exit(1));
    AfterRestarted(exited, RELOADING + RESTARTED + [Exit(1)]);
    RanThen(START, RELOADING + RESTARTED + [Exit(1)] + RESTARTED, SelfCheck(Reloading, Fine));
  }

  const SERVING := [Worker(1, Up), Worker(2, Up)]
  const SWAPPED := [Worker(1, Stopping), Worker(2, Up)]

  lemma SwapStopsServingWorker()
    ensures Step(State(Some(0), None, Some(Flight(1, true)), 1, SERVING, 1), SelfCheck(Reloading, Fine))
            == State(Some(1), None, None, 2, SWAPPED, 1)
  {
    assert SERVING[0 := Worker(1, Stopping)] == SWAPPED;
  }

  /** A turn that opens on the current worker while a reload waits has that worker swapped and stopped. */
  lemma ReloadSwapsUnderTurn()
    ensures Ran(START, RESTARTED + RELOADING + [TurnOpens] + [SelfCheck(Reloading, Fine)])
            == Some(State(Some(1), None, None, 2, SWAPPED, 1))
  {
    assert [] + RESTARTED == RESTARTED;
    AfterRestarted(START, []);
    var serving := State(Some(0), None, None, 1, [Worker(1, Up)], 0);
    assert [] + [Worker(1, Up)] == [Worker(1, Up)] && [Worker(1, Up)] + [Worker(2, Up)] == SERVING;
    AfterReloading(serving, RESTARTED);
    RanThen(START, RESTARTED + RELOADING, TurnOpens);
    RanThen(START, RESTARTED + RELOADING + [TurnOpens], SelfCheck(Reloading, Fine));
    SwapStopsServingWorker();
  }

  // ------------------------------------------------------------------ the module's variables

  class Bridge {
    var current: Option<Handle>
    var starting: Option<Flight>
    var reloading: Option<Flight>
    var generation: nat
    var workers: seq<Worker>
    var turns: nat

    ghost function View(): State
      reads this
    {
      State(current, starting, reloading, generation, workers, turns)
    }

    constructor ()
      ensures View() == START
    {
      current, starting, reloading, generation, workers, turns := None, None, None, 0, [], 0;
    }

    method EnsureWorkerUp()
      modifies `starting, `workers
      ensures View() == Ensure(old(View()))
      ensures var alive := current.Some? && current.value < |old(workers)| && !old(workers)[current.value].life.Gone?;
              if alive || old(starting).Some? then starting == old(starting) && workers == old(workers)
              else starting == Some(Flight(|old(workers)|, false))
                   && workers == old(workers) + [Worker(generation + 1, Up)]
    {
      if current.Some? && current.value < |workers| && !workers[current.value].life.Gone? { return; }
      if starting.Some? { return; }
      starting := Some(Flight(|workers|, false));
      workers := workers + [Worker(generation + 1, Up)];
    }

    method ReloadWorker() returns (deferred: bool)
      modifies `reloading, `workers
      ensures View() == BeginReload(old(View()))
      ensures if old(reloading).Some? || turns > 0 then reloading == old(reloading) && workers == old(workers)
              else reloading == Some(Flight(|old(workers)|, false))
                   && workers == old(workers) + [Worker(generation + 1, Up)]
      ensures deferred <==> old(reloading).None? && turns > 0
    {
      if reloading.Some? { return false; }
      if turns > 0 { return true; }
      reloading := Some(Flight(|workers|, false));
      workers := workers + [Worker(generation + 1, Up)];
      return false;
    }

    /** The self check of a start came back fine. */
    method FinishStart()
      requires starting.Some? && starting.value.handle < |workers|
      modifies `current, `starting, `generation
      ensures View() == OnSelfCheck(old(View()), Starting, old(starting).value.handle, Fine)
      ensures current == Some(old(starting).value.handle) && starting == None
              && generation == workers[old(starting).value.handle].generation
    {
      current := Some(starting.value.handle);
      generation := workers[starting.value.handle].generation;
      starting := None;
    }

    /** The self check of a reload came back fine: the worker it replaces is drained and stopped. */
    method FinishReload()
      requires reloading.Some? && reloading.value.handle < |workers|
      modifies `current, `reloading, `generation, `workers
      ensures View() == OnSelfCheck(old(View()), Reloading, old(reloading).value.handle, Fine)
      ensures current == Some(old(reloading).value.handle) && reloading == None
              && generation == old(workers)[old(reloading).value.handle].generation
      ensures workers == if old(current).Some? && old(current).value < |old(workers)|
                            && old(workers)[old(current).value].life.Up?
                         then old(workers)[old(current).value := old(workers)[old(current).value].(life := Stopping)]
                         else old(workers)
    {
      var previous := current;
      current := Some(reloading.value.handle);
      generation := workers[reloading.value.handle].generation;
      reloading := None;
      if previous.Some? && previous.value < |workers| && workers[previous.value].life.Up? {
        workers := workers[previous.value := workers[previous.value].(life := Stopping)];
      }
    }

    /** A start or a reload fails: the worker it waits for is stopped, or left as it is. */
    method FlightFails(which: Which, stop: bool)
      requires if which.Starting? then starting.Some? else reloading.Some?
      modifies `starting, `reloading, `workers
      ensures var h := (if which.Starting? then old(starting) else old(reloading)).value.handle;
              View() == OnHello(old(View()), which, h, if stop then Killed else Raised)
      ensures if which.Starting? then starting == None && reloading == old(reloading)
              else reloading == None && starting == old(starting)
      ensures !stop ==> workers == old(workers)
    {
      var h := if which.Starting? then starting.value.handle else reloading.value.handle;
      if stop && h < |workers| && workers[h].life.Up? {
        workers := workers[h := workers[h].(life := Stopping)];
      }
      if which.Starting? { starting := None; } else { reloading := None; }
    }

    /** `stopWorker`. */
    method StopCurrent()
      modifies `current, `workers
      ensures View() == Step(old(View()), StopWorker)
      ensures current == None
    {
      if current.None? { return; }
      var h := current.value;
      current := None;
      if h < |workers| && workers[h].life.Up? { workers := workers[h := workers[h].(life := Stopping)]; }
    }

    method OnExit(h: Handle)
      requires h < |workers|
      modifies `current, `workers
      ensures View() == Step(old(View()), Exit(h))
      ensures workers == old(workers)[h := old(workers)[h].(life := Gone)]
      ensures current == if old(current) == Some(h) then None else old(current)
    {
      workers := workers[h := workers[h].(life := Gone)];
      if current == Some(h) { current := None; }
    }
  }
}
