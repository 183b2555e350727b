/**
 All inputs of one RPC client (`runTurn`, `cancelTurn`, the `owners` map): any number of inputs arrive,
 start a drain, join a running one, wait for a closing one, or cancel one of another session.

 A step is one stretch of code between awaits, the server's handling of one request, or a promise
 settling, so a run is any interleaving of them; it starts with an empty queue and an empty log.
 */
module OptChatTurn {
  import opened Prelude
  import opened Occurrences
  import opened OptChatOwner

  datatype At = Looping | Submitting(owner: nat) | Awaiting(owner: nat, last: bool) | Returned | Failed
  datatype Caller = Caller(session: nat, at: At)

  datatype World = World(
    server: Server,
    slot: Option<nat>,              // owners.get(call)
    running: map<nat, Owner>,       // drains that have not reached the end of their finally block
    callers: map<Id, Caller>,       // runTurn calls
    // History.
    ended: map<nat, bool>,          // finished drains: did `done` resolve?
    nextOwner: nat,
    submitted: seq<Id>,             // texts whose submit the server accepted
    stranded: seq<Id>,              // texts an owner still held when its abort was refused
    leftBehind: bool)               // the last finished drain's abort was refused

  const EMPTY: World := World(Server(true, false, [], []), None, map[], map[], map[], 0, [], [], false)

  /** A server starts with an empty queue and log, on, off or in shadow mode; no input has arrived. */
  predicate Initial(s: World) {
    s == EMPTY.(server := Server(s.server.on, s.server.shadow, [], []))
  }

  datatype Step =
    | Arrive(id: Id, session: nat)
    | Enter(id: Id)
    | Wake(id: Id)
    | Cancel(shut: bool)
    | HandleSubmit(owner: nat, id: Id, fate: Fate)
    | Settle(owner: nat, id: Id)
    | HandleCall(owner: nat, refuse: bool, ready: bool)
    | Advance(owner: nat, choice: Choice)
    | Retire(owner: nat)
    | LeaveUnanswered
    | Switch(on: bool)

  function MovedTo(s: World, id: Id, at: At): World
    requires id in s.callers
  {
    s.(callers := s.callers[id := s.callers[id].(at := at)])
  }

  /** One pass of runTurn's loop up to its await. */
  function EnterTurn(s: World, id: Id): World
    requires id in s.callers && s.callers[id].at.Looping?
    requires s.slot.Some? ==> s.slot.value in s.running
  {
    var session := s.callers[id].session;
    match s.slot
    case None =>
      var owner := Owner(id, session, false, false, false, map[id := Issued], [], OwnSubmit);
      MovedTo(s, id, Awaiting(s.nextOwner, true)).(
        slot := Some(s.nextOwner), running := s.running[s.nextOwner := owner], nextOwner := s.nextOwner + 1)
    case Some(o) =>
      var w := s.running[o];
      if w.session != session then
        MovedTo(s, id, Awaiting(o, false)).(running := s.running[o := Cancelled(w).(closing := true)])
      else if w.closing || w.aborted then MovedTo(s, id, Awaiting(o, false))
      else MovedTo(s, id, Submitting(o)).(running := s.running[o := w.(subs := w.subs[id := Issued])])
  }

  /** `owner.done` settled. */
  function WakeUp(s: World, id: Id): World
    requires id in s.callers && s.callers[id].at.Awaiting? && s.callers[id].at.owner in s.ended
  {
    var at := s.callers[id].at;
    MovedTo(s, id, if !s.ended[at.owner] then Failed else if at.last then Returned else Looping)
  }

  /** A joined input's submission settles for the input and for its owner. */
  function SettleFor(s: World, o: nat, id: Id): World
    requires o in s.running && id in s.running[o].subs && !s.running[o].subs[id].Issued? && id in s.callers
  {
    var accepted := s.running[o].subs[id].Applied?;
    var t := s.(running := s.running[o := SettleSubmit(s.running[o], id)]);
    if s.callers[id].at == Submitting(o) then MovedTo(t, id, if accepted then Awaiting(o, true) else Failed) else t
  }

  /** End of drain's finally block; `done` resolves or rejects. */
  function RetireOwner(s: World, o: nat): World
    requires o in s.running && s.running[o].pc.Ended?
  {
    var w := s.running[o];
    s.(slot := if s.slot == Some(o) then None else s.slot,
       running := s.running - {o},
       ended := s.ended[o := w.pc.ok],
       stranded := s.stranded + w.unlogged,
       leftBehind := w.pc.abortRefused)
  }

  function Leave(srv: Server): Server {
    srv.(log := srv.log + srv.pending, pending := [])
  }

  /** The `enabled` request; switched off, the server logs what is queued. */
  function Switched(srv: Server, on: bool): Server {
    if on then srv.(on := true, shadow := false) else Leave(srv).(on := false, shadow := false)
  }

  predicate Enabled(s: World, step: Step) {
    (s.slot.Some? ==> s.slot.value in s.running) &&
    match step
    case Arrive(id, _) => id !in s.callers
    case Enter(id) => id in s.callers && s.callers[id].at.Looping?
    case Wake(id) => id in s.callers && s.callers[id].at.Awaiting? && s.callers[id].at.owner in s.ended
    case Cancel(_) => s.slot.Some?
    case HandleSubmit(o, id, _) => o in s.running && id in s.running[o].subs && s.running[o].subs[id].Issued?
    case Settle(o, id) =>
      o in s.running && id in s.running[o].subs && !s.running[o].subs[id].Issued? && id in s.callers
    case HandleCall(o, _, _) => o in s.running && s.running[o].pc.Sent?
    case Advance(o, _) => o in s.running && CanContinue(s.running[o])
    case Retire(o) => o in s.running && s.running[o].pc.Ended?
    case LeaveUnanswered => true
    case Switch(_) => true
  }

  function Apply(s: World, step: Step): World
    requires Enabled(s, step)
  {
    match step
    case Arrive(id, session) => s.(callers := s.callers[id := Caller(session, Looping)])
    case Enter(id) => EnterTurn(s, id)
    case Wake(id) => WakeUp(s, id)
    case Cancel(shut) =>
      var o, w := s.slot.value, s.running[s.slot.value];
      s.(running := s.running[o := Cancelled(w).(closing := w.closing || shut)])
    case HandleSubmit(o, id, fate) =>
      var d := ServeSubmit(Duo(s.server, s.running[o]), id, fate);
      s.(server := d.server, running := s.running[o := d.owner],
         submitted := if Enqueues(s.server, fate) then s.submitted + [id] else s.submitted)
    case Settle(o, id) => SettleFor(s, o, id)
    case HandleCall(o, refuse, ready) =>
      var d := Serve(Duo(s.server, s.running[o]), refuse, ready);
      s.(server := d.server, running := s.running[o := d.owner])
    case Advance(o, choice) => s.(running := s.running[o := Continue(s.running[o], choice)])
    case Retire(o) => RetireOwner(s, o)
    case LeaveUnanswered => s.(server := Leave(s.server))
    case Switch(on) => s.(server := Switched(s.server, on))
  }

  ghost predicate Feasible(s: World, run: seq<Step>)
    decreases |run|
  {
    run == [] || (Enabled(s, run[0]) && Feasible(Apply(s, run[0]), run[1..]))
  }

  ghost function Exec(s: World, run: seq<Step>): World
    requires Feasible(s, run)
    decreases |run|
  {
    if run == [] then s else Exec(Apply(s, run[0]), run[1..])
  }

  // ------------------------------------------------------------------ invariant

  /** The running drains are exactly the one in the slot. */
  ghost predicate OneDrain(s: World) {
    && s.running.Keys == (match s.slot case None => {} case Some(o) => {o})
    && (forall o | o in s.running :: o < s.nextOwner && o !in s.ended)
    && (forall o | o in s.ended :: o < s.nextOwner)
  }

  ghost predicate OwnersOk(s: World) {
    forall o | o in s.running :: OwnerInv(Duo(s.server, s.running[o]))
  }

  /** Whoever waits, waits for a running or a finished drain, and the submissions name their inputs. */
  ghost predicate CallersOk(s: World) {
    && (forall id | id in s.callers && s.callers[id].at.Submitting? ::
          s.callers[id].at.owner in s.running && id in s.running[s.callers[id].at.owner].subs)
    && (forall id | id in s.callers && s.callers[id].at.Awaiting? ::
          s.callers[id].at.owner in s.running || s.callers[id].at.owner in s.ended)
    && (forall o, id | o in s.running && id in s.running[o].subs ::
          id in s.callers &&
          (s.callers[id].at == Submitting(o) || (id == s.running[o].first && s.callers[id].at == Awaiting(o, true))))
  }

  /** No text is submitted twice. */
  ghost predicate SubmitsOk(s: World) {
    && (forall id | id in s.submitted ::
          id in s.callers && !s.callers[id].at.Looping? && (s.callers[id].at.Awaiting? ==> s.callers[id].at.last))
    && (forall o, id | o in s.running && id in s.running[o].subs && s.running[o].subs[id].Issued? :: id !in s.submitted)
    && (forall id :: Times(s.submitted, id) <= 1)
  }

  function HeldBySlot(s: World): seq<Id> {
    if s.slot.Some? && s.slot.value in s.running then Held(s.running[s.slot.value]) else []
  }

  /** In how many places a text is, over the whole client. */
  ghost function AllPlaces(s: World, x: Id): nat {
    Times(s.server.pending, x) + Times(HeldBySlot(s), x) + Times(s.server.log, x) + Times(s.stranded, x)
  }

  ghost predicate Conserved(s: World) {
    forall x :: AllPlaces(s, x) == Times(s.submitted, x)
  }

  /** With no drain running the queue is empty, unless the last drain's abort was refused. */
  ghost predicate IdleIsEmpty(s: World) {
    s.slot == None && !s.leftBehind ==> s.server.pending == []
  }

  ghost predicate Inv(s: World) {
    OneDrain(s) && OwnersOk(s) && CallersOk(s) && SubmitsOk(s) && Conserved(s) && IdleIsEmpty(s)
  }

  lemma StepKeepsOneDrain(s: World, step: Step)
    requires OneDrain(s) && Enabled(s, step)
    ensures OneDrain(Apply(s, step))
  {
  }

  lemma StepKeepsOwnersOk(s: World, step: Step)
    requires OneDrain(s) && OwnersOk(s) && Enabled(s, step)
    ensures OwnersOk(Apply(s, step))
  {
    if step.HandleCall? || step.Advance? || step.HandleSubmit? || step.Settle? {
      OwnerStepKeepsOwnersOk(s, step);
    } else if step.Enter? {
      EnterKeepsOwnersOk(s, step.id);
    }
  }

  lemma EnterKeepsOwnersOk(s: World, id: Id)
    requires OneDrain(s) && OwnersOk(s) && Enabled(s, Enter(id))
    ensures OwnersOk(EnterTurn(s, id))
  {
    if s.slot.Some? { assert OwnerInv(Duo(s.server, s.running[s.slot.value])); }
  }

  lemma OwnerStepKeepsOwnersOk(s: World, step: Step)
    requires OneDrain(s) && OwnersOk(s) && Enabled(s, step)
    requires step.HandleCall? || step.Advance? || step.HandleSubmit? || step.Settle?
    ensures OwnersOk(Apply(s, step))
  {
    var d := Duo(s.server, s.running[step.owner]);
    match step
    case HandleSubmit(_, id, fate) => SubmitsKeepOwnerInv(d, id, fate);
    case Settle(_, id) => SubmitsKeepOwnerInv(d, id, Answered);
    case HandleCall(_, refuse, ready) => ServeKeepsOwnerInv(d, refuse, ready);
    case Advance(_, choice) => ContinueKeepsOwnerInv(d, choice);
  }

  /** An input that starts waiting for the running drain. */
  lemma AwaitKeepsCallersOk(s: World, id: Id, o: nat)
    requires CallersOk(s) && id in s.callers && s.callers[id].at.Looping? && o in s.running
    ensures CallersOk(MovedTo(s, id, Awaiting(o, false)))
  {
  }

  lemma JoinKeepsCallersOk(s: World, id: Id, o: nat)
    requires OneDrain(s) && CallersOk(s) && id in s.callers && s.callers[id].at.Looping? && o in s.running
    ensures CallersOk(MovedTo(s, id, Submitting(o)).(
                        running := s.running[o := s.running[o].(subs := s.running[o].subs[id := Issued])]))
  {
  }

  lemma StartKeepsCallersOk(s: World, id: Id)
    requires OneDrain(s) && CallersOk(s) && Enabled(s, Enter(id)) && s.slot == None
    ensures CallersOk(EnterTurn(s, id))
  {
    assert s.running == map[];
  }

  lemma EnterKeepsCallersOk(s: World, id: Id)
    requires OneDrain(s) && CallersOk(s) && Enabled(s, Enter(id))
    ensures CallersOk(EnterTurn(s, id))
  {
    if s.slot == None {
      StartKeepsCallersOk(s, id);
    } else {
      var o, w := s.slot.value, s.running[s.slot.value];
      var cut := s.(running := s.running[o := Cancelled(w).(closing := true)]);
      SameSubsKeepCallersOk(s, o, Cancelled(w).(closing := true), s.server);
      AwaitKeepsCallersOk(cut, id, o);
      AwaitKeepsCallersOk(s, id, o);
      JoinKeepsCallersOk(s, id, o);
    }
  }

  lemma SettleKeepsCallersOk(s: World, o: nat, id: Id)
    requires OneDrain(s) && CallersOk(s) && Enabled(s, Settle(o, id))
    ensures CallersOk(SettleFor(s, o, id))
  {
    SubmitsKeepHeld(Duo(s.server, s.running[o]), id, Answered);
  }

  lemma RetireKeepsCallersOk(s: World, o: nat)
    requires OneDrain(s) && OwnersOk(s) && CallersOk(s) && Enabled(s, Retire(o))
    ensures CallersOk(RetireOwner(s, o))
  {
    assert OwnerInv(Duo(s.server, s.running[o]));
  }

  lemma HandleSubmitKeepsCallersOk(s: World, o: nat, id: Id, fate: Fate)
    requires CallersOk(s) && Enabled(s, HandleSubmit(o, id, fate))
    ensures CallersOk(Apply(s, HandleSubmit(o, id, fate)))
  {
  }

  /** A step that replaces one owner by one with the same submissions. */
  lemma SameSubsKeepCallersOk(s: World, o: nat, w: Owner, srv: Server)
    requires CallersOk(s) && o in s.running
    requires w.subs == s.running[o].subs && w.first == s.running[o].first
    ensures CallersOk(s.(running := s.running[o := w], server := srv))
  {
  }

  lemma HandleCallKeepsCallersOk(s: World, o: nat, refuse: bool, ready: bool)
    requires OwnersOk(s) && CallersOk(s) && Enabled(s, HandleCall(o, refuse, ready))
    ensures CallersOk(Apply(s, HandleCall(o, refuse, ready)))
  {
    var d := Duo(s.server, s.running[o]);
    OwnStepsKeepSubs(d, refuse, ready, Go);
    SameSubsKeepCallersOk(s, o, Serve(d, refuse, ready).owner, Serve(d, refuse, ready).server);
  }

  lemma AdvanceKeepsCallersOk(s: World, o: nat, choice: Choice)
    requires OwnersOk(s) && CallersOk(s) && Enabled(s, Advance(o, choice))
    ensures CallersOk(Apply(s, Advance(o, choice)))
  {
    OwnStepsKeepSubs(Duo(s.server, s.running[o]), false, false, choice);
    SameSubsKeepCallersOk(s, o, Continue(s.running[o], choice), s.server);
  }

  lemma CancelKeepsCallersOk(s: World, shut: bool)
    requires CallersOk(s) && Enabled(s, Cancel(shut))
    ensures CallersOk(Apply(s, Cancel(shut)))
  {
    var w := s.running[s.slot.value];
    SameSubsKeepCallersOk(s, s.slot.value, Cancelled(w).(closing := w.closing || shut), s.server);
  }

  lemma ArriveOrWakeKeepsCallersOk(s: World, step: Step)
    requires OneDrain(s) && CallersOk(s) && Enabled(s, step) && (step.Arrive? || step.Wake?)
    ensures CallersOk(Apply(s, step))
  {
  }

  lemma StepKeepsCallersOk(s: World, step: Step)
    requires OneDrain(s) && OwnersOk(s) && CallersOk(s) && Enabled(s, step)
    ensures CallersOk(Apply(s, step))
  {
    match step
    case Enter(id) => EnterKeepsCallersOk(s, id);
    case Settle(o, id) => SettleKeepsCallersOk(s, o, id);
    case Retire(o) => RetireKeepsCallersOk(s, o);
    case HandleSubmit(o, id, fate) => HandleSubmitKeepsCallersOk(s, o, id, fate);
    case HandleCall(o, refuse, ready) => HandleCallKeepsCallersOk(s, o, refuse, ready);
    case Advance(o, choice) => AdvanceKeepsCallersOk(s, o, choice);
    case Cancel(shut) => CancelKeepsCallersOk(s, shut);
    case Arrive(_, _) => ArriveOrWakeKeepsCallersOk(s, step);
    case Wake(_) => ArriveOrWakeKeepsCallersOk(s, step);
    case _ =>
  }

  lemma AppendOnce(submitted: seq<Id>, id: Id)
    requires id !in submitted && forall x :: Times(submitted, x) <= 1
    ensures forall x :: Times(submitted + [id], x) <= 1
  {
    TimesMember(submitted, id);
  }

  lemma HandleSubmitKeepsSubmitsOk(s: World, o: nat, id: Id, fate: Fate)
    requires OneDrain(s) && CallersOk(s) && SubmitsOk(s) && Enabled(s, HandleSubmit(o, id, fate))
    ensures SubmitsOk(Apply(s, HandleSubmit(o, id, fate)))
  {
    if Enqueues(s.server, fate) {
      AcceptKeepsSubmitsOk(s, o, id, fate);
    }
  }

  lemma AcceptKeepsSubmitsOk(s: World, o: nat, id: Id, fate: Fate)
    requires OneDrain(s) && CallersOk(s) && SubmitsOk(s)
    requires Enabled(s, HandleSubmit(o, id, fate)) && Enqueues(s.server, fate)
    ensures SubmitsOk(Apply(s, HandleSubmit(o, id, fate)))
  {
    var t := Apply(s, HandleSubmit(o, id, fate));
    assert t.callers == s.callers && t.running.Keys == {o};
    assert t.submitted == s.submitted + [id];
    AppendOnce(s.submitted, id);
    assert s.callers[id].at == Submitting(o) || s.callers[id].at == Awaiting(o, true);
    assert t.running[o].subs == s.running[o].subs[id := t.running[o].subs[id]] && !t.running[o].subs[id].Issued?;
    forall x | x in t.submitted ensures x in s.submitted || x == id { }
    forall p, x | p in t.running && x in t.running[p].subs && t.running[p].subs[x].Issued? ensures x !in t.submitted {
      assert p == o && x != id && x in s.running[o].subs && s.running[o].subs[x].Issued?;
    }
  }

  lemma SettleKeepsSubmitsOk(s: World, o: nat, id: Id)
    requires OneDrain(s) && CallersOk(s) && SubmitsOk(s) && Enabled(s, Settle(o, id))
    ensures SubmitsOk(SettleFor(s, o, id))
  {
    SubmitsKeepHeld(Duo(s.server, s.running[o]), id, Answered);
  }

  lemma EnterKeepsSubmitsOk(s: World, id: Id)
    requires OneDrain(s) && CallersOk(s) && SubmitsOk(s) && Enabled(s, Enter(id))
    ensures SubmitsOk(EnterTurn(s, id))
  {
    assert s.slot == None ==> s.running == map[];
    assert id !in s.submitted;
  }

  lemma SameSubsKeepSubmitsOk(s: World, o: nat, w: Owner, srv: Server)
    requires SubmitsOk(s) && o in s.running && w.subs == s.running[o].subs
    ensures SubmitsOk(s.(running := s.running[o := w], server := srv))
  {
  }

  lemma StepKeepsSubmitsOk(s: World, step: Step)
    requires OneDrain(s) && CallersOk(s) && SubmitsOk(s) && Enabled(s, step)
    ensures SubmitsOk(Apply(s, step))
  {
    match step
    case Enter(id) => EnterKeepsSubmitsOk(s, id);
    case Settle(o, id) => SettleKeepsSubmitsOk(s, o, id);
    case HandleSubmit(o, id, fate) => HandleSubmitKeepsSubmitsOk(s, o, id, fate);
    case HandleCall(o, refuse, ready) =>
      var d := Duo(s.server, s.running[o]);
      OwnStepsKeepSubs(d, refuse, ready, Go);
      SameSubsKeepSubmitsOk(s, o, Serve(d, refuse, ready).owner, Serve(d, refuse, ready).server);
    case Advance(o, choice) =>
      OwnStepsKeepSubs(Duo(s.server, s.running[o]), false, false, choice);
      SameSubsKeepSubmitsOk(s, o, Continue(s.running[o], choice), s.server);
    case Cancel(shut) =>
      var w := s.running[s.slot.value];
      SameSubsKeepSubmitsOk(s, s.slot.value, Cancelled(w).(closing := w.closing || shut), s.server);
    case _ =>
  }

  lemma StepKeepsIdleIsEmpty(s: World, step: Step)
    requires OneDrain(s) && OwnersOk(s) && IdleIsEmpty(s) && Enabled(s, step)
    ensures IdleIsEmpty(Apply(s, step))
  {
  }

  lemma LeaveKeepsPlaces(s: World, x: Id)
    ensures AllPlaces(s.(server := Leave(s.server)), x) == AllPlaces(s, x)
  {
    TimesConcat(s.server.log, s.server.pending, x);
  }

  lemma EnterKeepsPlaces(s: World, id: Id, x: Id)
    requires OneDrain(s) && Enabled(s, Enter(id))
    ensures AllPlaces(EnterTurn(s, id), x) == AllPlaces(s, x)
  {
    EnterKeepsHeld(s, id);
  }

  lemma EnterKeepsHeld(s: World, id: Id)
    requires OneDrain(s) && Enabled(s, Enter(id))
    ensures HeldBySlot(EnterTurn(s, id)) == HeldBySlot(s)
    ensures EnterTurn(s, id).server == s.server && EnterTurn(s, id).stranded == s.stranded
    ensures EnterTurn(s, id).submitted == s.submitted
  {
    if s.slot.Some? { PassKeepsHeld(s, id); }
  }

  lemma PassKeepsHeld(s: World, id: Id)
    requires OneDrain(s) && Enabled(s, Enter(id)) && s.slot.Some?
    ensures var o, t := s.slot.value, EnterTurn(s, id);
            t.slot == s.slot && o in t.running && Held(t.running[o]) == Held(s.running[o])
  {
  }

  lemma SettleKeepsPlaces(s: World, o: nat, id: Id, x: Id)
    requires OneDrain(s) && Enabled(s, Settle(o, id))
    ensures AllPlaces(SettleFor(s, o, id), x) == AllPlaces(s, x)
  {
    SubmitsKeepHeld(Duo(s.server, s.running[o]), id, Answered);
    assert HeldBySlot(SettleFor(s, o, id)) == HeldBySlot(s);
  }

  lemma HandleSubmitAddsPlace(s: World, o: nat, id: Id, fate: Fate, x: Id)
    requires OneDrain(s) && Enabled(s, HandleSubmit(o, id, fate))
    ensures var t := Apply(s, HandleSubmit(o, id, fate));
            AllPlaces(t, x) - Times(t.submitted, x) == AllPlaces(s, x) - Times(s.submitted, x)
  {
    HandleSubmitMoves(s, o, id, fate);
    TimesConcat(s.server.pending, [id], x);
    TimesConcat(s.submitted, [id], x);
  }

  /** The text joins the queue and the accepted ones together, and nothing else moves. */
  lemma HandleSubmitMoves(s: World, o: nat, id: Id, fate: Fate)
    requires OneDrain(s) && Enabled(s, HandleSubmit(o, id, fate))
    ensures var t := Apply(s, HandleSubmit(o, id, fate));
            && t.server.log == s.server.log && t.stranded == s.stranded && HeldBySlot(t) == HeldBySlot(s)
            && if Enqueues(s.server, fate) then
                 t.server.pending == s.server.pending + [id] && t.submitted == s.submitted + [id]
               else t.server.pending == s.server.pending && t.submitted == s.submitted
  {
    var d := Duo(s.server, s.running[o]);
    SubmitsKeepHeld(d, id, fate);
    SubmitIsQueuedIff(d, id, fate);
  }

  lemma HandleCallKeepsPlaces(s: World, o: nat, refuse: bool, ready: bool, x: Id)
    requires OneDrain(s) && OwnersOk(s) && Enabled(s, HandleCall(o, refuse, ready))
    ensures AllPlaces(Apply(s, HandleCall(o, refuse, ready)), x) == AllPlaces(s, x)
  {
    ServeKeepsPlaces(Duo(s.server, s.running[o]), refuse, ready, x);
  }

  lemma AdvanceKeepsPlaces(s: World, o: nat, choice: Choice, x: Id)
    requires OneDrain(s) && OwnersOk(s) && Enabled(s, Advance(o, choice))
    ensures AllPlaces(Apply(s, Advance(o, choice)), x) == AllPlaces(s, x)
  {
    ContinueKeepsPlaces(Duo(s.server, s.running[o]), choice, x);
  }

  lemma RetireKeepsPlaces(s: World, o: nat, x: Id)
    requires OneDrain(s) && Enabled(s, Retire(o))
    ensures AllPlaces(RetireOwner(s, o), x) == AllPlaces(s, x)
  {
    TimesConcat(s.stranded, s.running[o].unlogged, x);
  }

  lemma OwnerKeepsPlaces(s: World, step: Step, x: Id)
    requires OneDrain(s) && OwnersOk(s) && Enabled(s, step) && (step.HandleCall? || step.Advance? || step.Retire?)
    ensures AllPlaces(Apply(s, step), x) == AllPlaces(s, x)
  {
    match step
    case HandleCall(o, refuse, ready) => HandleCallKeepsPlaces(s, o, refuse, ready, x);
    case Advance(o, choice) => AdvanceKeepsPlaces(s, o, choice, x);
    case Retire(o) => RetireKeepsPlaces(s, o, x);
  }

  lemma InputKeepsPlaces(s: World, step: Step, x: Id)
    requires OneDrain(s) && Enabled(s, step)
    requires !step.HandleCall? && !step.Advance? && !step.Retire? && !step.HandleSubmit?
    ensures AllPlaces(Apply(s, step), x) == AllPlaces(s, x) && Apply(s, step).submitted == s.submitted
  {
    match step
    case Enter(id) => EnterKeepsPlaces(s, id, x);
    case Settle(o, id) => SettleKeepsPlaces(s, o, id, x);
    case LeaveUnanswered => LeaveKeepsPlaces(s, x);
    case Switch(on) => LeaveKeepsPlaces(s, x);
    case _ =>
  }

  /** A step moves texts between their places; only an accepted submit adds one. */
  lemma StepMovesTexts(s: World, step: Step, x: Id)
    requires OneDrain(s) && OwnersOk(s) && Enabled(s, step)
    ensures AllPlaces(Apply(s, step), x) - Times(Apply(s, step).submitted, x) == AllPlaces(s, x) - Times(s.submitted, x)
  {
    if step.HandleCall? || step.Advance? || step.Retire? {
      OwnerKeepsPlaces(s, step, x);
    } else if step.HandleSubmit? {
      HandleSubmitAddsPlace(s, step.owner, step.id, step.fate, x);
    } else {
      InputKeepsPlaces(s, step, x);
    }
  }

  lemma StepKeepsConserved(s: World, step: Step)
    requires OneDrain(s) && OwnersOk(s) && Conserved(s) && Enabled(s, step)
    ensures Conserved(Apply(s, step))
  {
    forall x ensures AllPlaces(Apply(s, step), x) == Times(Apply(s, step).submitted, x) {
      assert AllPlaces(s, x) == Times(s.submitted, x);
      StepMovesTexts(s, step, x);
    }
  }

  /** Every step of every input, of the drain and of the server keeps the invariant. */
  lemma StepKeepsInv(s: World, step: Step)
    requires Inv(s) && Enabled(s, step)
    ensures Inv(Apply(s, step))
  {
    StepKeepsOneDrain(s, step);
    StepKeepsOwnersOk(s, step);
    StepKeepsCallersOk(s, step);
    StepKeepsSubmitsOk(s, step);
    StepKeepsConserved(s, step);
    StepKeepsIdleIsEmpty(s, step);
  }

  // ------------------------------------------------------------------ what a caller can rely on

  /** The drain has answered the input: it returned, or only has to wake up. */
  predicate Served(s: World, id: Id) {
    id in s.callers
    && (s.callers[id].at.Returned?
        || (s.callers[id].at.Awaiting? && s.callers[id].at.last && s.callers[id].at.owner in s.ended
            && s.ended[s.callers[id].at.owner]))
  }

  /** The input's text was, or is being, submitted to a running drain. */
  predicate InHand(s: World, id: Id) {
    id in s.callers
    && (s.callers[id].at.Submitting? || (s.callers[id].at.Awaiting? && s.callers[id].at.last))
    && s.callers[id].at.owner in s.running
  }

  /** A served input's text is logged if the server ever took it; one in hand is not stranded. */
  ghost predicate ReturnsOk(s: World) {
    && (forall id | Served(s, id) && id in s.submitted :: Times(s.server.log, id) >= 1)
    && (forall id | InHand(s, id) :: id !in s.stranded)
  }

  lemma LogGrows(s: World, step: Step, x: Id)
    requires OwnersOk(s) && Enabled(s, step)
    ensures Times(Apply(s, step).server.log, x) >= Times(s.server.log, x)
  {
    match step
    case HandleCall(o, refuse, ready) => HandledLogGrows(s.server, s.running[o].pc.op, s.running[o].unlogged, ready, x);
    case LeaveUnanswered => TimesConcat(s.server.log, s.server.pending, x);
    case Switch(_) => TimesConcat(s.server.log, s.server.pending, x);
    case _ =>
  }

  lemma HandledLogGrows(srv: Server, op: Op, unlogged: seq<Id>, ready: bool, x: Id)
    ensures Times(Handle(srv, op, unlogged, ready).0.log, x) >= Times(srv.log, x)
  {
    match op
    case Begin => TimesConcat(srv.log, unlogged, x);
    case Record => if unlogged != [] { TimesConcat(srv.log, [unlogged[0]], x); }
    case Abort => TimesConcat(srv.log, unlogged + srv.pending, x);
    case _ => TimesConcat(srv.log, srv.pending, x);
  }

  /** A text nobody submitted is nowhere. */
  lemma NowhereYet(s: World, id: Id)
    requires Conserved(s) && id !in s.submitted
    ensures id !in s.stranded
  {
    TimesMember(s.submitted, id);
    TimesMember(s.stranded, id);
  }

  /** When a drain ends well, every text in hand is in the log. */
  lemma EndedDrainLogged(s: World, o: nat, id: Id)
    requires OneDrain(s) && OwnersOk(s) && Conserved(s) && ReturnsOk(s)
    requires o in s.running && s.running[o].pc.Ended? && s.running[o].pc.ok && InHand(s, id) && id in s.submitted
    ensures Times(s.server.log, id) >= 1
  {
    assert OwnerInv(Duo(s.server, s.running[o]));
    assert HeldBySlot(s) == [];
    TimesMember(s.submitted, id);
    TimesMember(s.stranded, id);
  }

  lemma RetireKeepsReturnsOk(s: World, o: nat)
    requires Inv(s) && ReturnsOk(s) && Enabled(s, Retire(o))
    ensures ReturnsOk(RetireOwner(s, o))
  {
    var t := RetireOwner(s, o);
    assert t.running == map[];
    forall id | Served(t, id) && id in t.submitted ensures Times(t.server.log, id) >= 1 {
      if !Served(s, id) { EndedDrainLogged(s, o, id); }
    }
  }

  lemma EnterKeepsReturnsOk(s: World, id: Id)
    requires Inv(s) && ReturnsOk(s) && Enabled(s, Enter(id))
    ensures ReturnsOk(EnterTurn(s, id))
  {
    var t := EnterTurn(s, id);
    NowhereYet(s, id);
    forall x | x != id ensures (Served(t, x) ==> Served(s, x)) && (InHand(t, x) ==> InHand(s, x)) {
      assert x in t.callers <==> x in s.callers;
    }
    assert !Served(t, id);
  }

  lemma HandleSubmitKeepsReturnsOk(s: World, o: nat, id: Id, fate: Fate)
    requires Inv(s) && ReturnsOk(s) && Enabled(s, HandleSubmit(o, id, fate))
    ensures ReturnsOk(Apply(s, HandleSubmit(o, id, fate)))
  {
    var t := Apply(s, HandleSubmit(o, id, fate));
    assert !Served(s, id);
    assert t.callers == s.callers && t.ended == s.ended && t.running.Keys == s.running.Keys;
    forall x ensures Served(t, x) == Served(s, x) && InHand(t, x) == InHand(s, x) { }
    forall x | Served(t, x) && x in t.submitted ensures Times(t.server.log, x) >= 1 {
      assert x in s.submitted;
    }
  }

  /** The other steps serve nobody, submit nothing and strand nothing. */
  lemma QuietKeepsReturnsOk(s: World, step: Step)
    requires Inv(s) && ReturnsOk(s) && Enabled(s, step)
    requires !step.Retire? && !step.Enter? && !step.HandleSubmit?
    ensures ReturnsOk(Apply(s, step))
  {
    var t := Apply(s, step);
    forall id ensures (Served(t, id) ==> Served(s, id)) && (InHand(t, id) ==> InHand(s, id)) {
      QuietServes(s, step, id);
    }
    forall id | Served(t, id) && id in t.submitted ensures Times(t.server.log, id) >= 1 { LogGrows(s, step, id); }
  }

  lemma QuietServes(s: World, step: Step, id: Id)
    requires OneDrain(s) && Enabled(s, step) && !step.Retire? && !step.Enter? && !step.HandleSubmit?
    ensures var t := Apply(s, step);
            && (Served(t, id) ==> Served(s, id)) && (InHand(t, id) ==> InHand(s, id))
            && t.submitted == s.submitted && t.stranded == s.stranded
  {
  }

  lemma StepKeepsReturnsOk(s: World, step: Step)
    requires Inv(s) && ReturnsOk(s) && Enabled(s, step)
    ensures ReturnsOk(Apply(s, step))
  {
    match step
    case Retire(o) => RetireKeepsReturnsOk(s, o);
    case Enter(id) => EnterKeepsReturnsOk(s, id);
    case HandleSubmit(o, id, fate) => HandleSubmitKeepsReturnsOk(s, o, id, fate);
    case _ => QuietKeepsReturnsOk(s, step);
  }

  // ------------------------------------------------------------------ runs

  lemma {:induction false} RunKeepsInv(s: World, run: seq<Step>)
    requires Inv(s) && ReturnsOk(s) && Feasible(s, run)
    ensures Inv(Exec(s, run)) && ReturnsOk(Exec(s, run))
    decreases |run|
  {
    if run != [] {
      StepKeepsInv(s, run[0]);
      StepKeepsReturnsOk(s, run[0]);
      RunKeepsInv(Apply(s, run[0]), run[1..]);
    }
  }

  lemma InitialInv(first: World)
    requires Initial(first)
    ensures Inv(first) && ReturnsOk(first)
  {
  }

  // ------------------------------------------------------------------ what the protocol promises

  /** At most one drain runs at a time, and it is the one the owners map names. */
  lemma OneDrainAtATime(first: World, run: seq<Step>, a: nat, b: nat)
    requires Initial(first) && Feasible(first, run)
    requires a in Exec(first, run).running && b in Exec(first, run).running
    ensures a == b
    ensures Exec(first, run).slot == Some(a)
  {
    InitialInv(first);
    RunKeepsInv(first, run);
  }

  /** The drain an input waits for runs, or has ended and settles the wait. */
  lemma AwaitedDrainsExist(first: World, run: seq<Step>, id: Id)
    requires Initial(first) && Feasible(first, run)
    requires id in Exec(first, run).callers && Exec(first, run).callers[id].at.Awaiting?
    ensures var s := Exec(first, run);
            s.callers[id].at.owner in s.running || (s.callers[id].at.owner in s.ended && Enabled(s, Wake(id)))
  {
    InitialInv(first);
    RunKeepsInv(first, run);
  }

  /**
   In every interleaving each submitted text is in exactly one place: the server's queue, the owner's
   hands, the log, or stranded with an owner whose abort was refused.  No other text is in any.
   */
  lemma InputsConserved(first: World, run: seq<Step>, x: Id)
    requires Initial(first) && Feasible(first, run)
    ensures var s := Exec(first, run); AllPlaces(s, x) == if x in s.submitted then 1 else 0
  {
    InitialInv(first);
    RunKeepsInv(first, run);
    TimesMember(Exec(first, run).submitted, x);
  }

  /**
   No lost wakeup: when a drain ends, by returning or through a handled abort, the server's queue is
   empty and the owner holds nothing, whatever inputs joined in the meantime.
   */
  lemma DrainLeavesNothing(first: World, run: seq<Step>, o: nat, x: Id)
    requires Initial(first) && Feasible(first, run)
    requires o in Exec(first, run).running
    requires Exec(first, run).running[o].pc.Ended? && !Exec(first, run).running[o].pc.abortRefused
    ensures var s := Exec(first, run);
            && s.server.pending == [] && Held(s.running[o]) == [] && s.running[o].subs == map[]
            && (x in s.submitted ==> Times(s.server.log, x) + Times(s.stranded, x) == 1)
  {
    InitialInv(first);
    RunKeepsInv(first, run);
    InputsConserved(first, run, x);
    var s := Exec(first, run);
    assert OwnerInv(Duo(s.server, s.running[o]));
  }

  /** No `abort` request is refused along the run. */
  ghost predicate AbortsHandled(s: World, run: seq<Step>)
    requires Feasible(s, run)
    decreases |run|
  {
    run == [] ||
    (!(run[0].HandleCall? && run[0].refuse && s.running[run[0].owner].pc == Sent(Abort)) &&
     AbortsHandled(Apply(s, run[0]), run[1..]))
  }

  ghost predicate NothingStranded(s: World) {
    && s.stranded == [] && !s.leftBehind
    && (forall o | o in s.running :: AbortNotRefused(s.running[o]))
  }

  lemma StepStrandsNothing(s: World, step: Step)
    requires OneDrain(s) && OwnersOk(s) && NothingStranded(s) && Enabled(s, step)
    requires !(step.HandleCall? && step.refuse && s.running[step.owner].pc == Sent(Abort))
    ensures NothingStranded(Apply(s, step))
  {
    match step
    case Retire(o) => assert OwnerInv(Duo(s.server, s.running[o]));
    case HandleCall(o, refuse, ready) => ServeLeavesUnrefused(Duo(s.server, s.running[o]), refuse, ready);
    case Advance(o, choice) => ContinueLeavesUnrefused(s.running[o], choice);
    case HandleSubmit(o, id, fate) => SubmitsLeaveUnrefused(Duo(s.server, s.running[o]), id, fate);
    case Settle(o, id) => SubmitsLeaveUnrefused(Duo(s.server, s.running[o]), id, Answered);
    case _ =>
  }

  lemma {:induction false} RunStrandsNothing(s: World, run: seq<Step>)
    requires Inv(s) && NothingStranded(s) && Feasible(s, run) && AbortsHandled(s, run)
    ensures NothingStranded(Exec(s, run))
    decreases |run|
  {
    if run != [] {
      StepKeepsInv(s, run[0]);
      StepStrandsNothing(s, run[0]);
      RunStrandsNothing(Apply(s, run[0]), run[1..]);
    }
  }

  /** Unless an abort is refused, every submitted text is logged exactly once by the time no drain runs. */
  lemma EveryInputLoggedOnce(first: World, run: seq<Step>, x: Id)
    requires Initial(first) && Feasible(first, run) && AbortsHandled(first, run)
    requires Exec(first, run).slot == None && x in Exec(first, run).submitted
    ensures Times(Exec(first, run).server.log, x) == 1
    ensures Exec(first, run).server.pending == []
  {
    InitialInv(first);
    RunKeepsInv(first, run);
    RunStrandsNothing(first, run);
    InputsConserved(first, run, x);
  }

  /**
   Once `runTurn` has returned for an input, its text is in the log exactly once if the server took its submit, and
   nowhere if not; whatever was refused or aborted elsewhere, it is not queued, held or stranded.
   */
  lemma ReturnedInputIsLogged(first: World, run: seq<Step>, id: Id)
    requires Initial(first) && Feasible(first, run)
    requires id in Exec(first, run).callers && Exec(first, run).callers[id].at.Returned?
    ensures var s := Exec(first, run);
            && Times(s.server.log, id) == (if id in s.submitted then 1 else 0)
            && AllPlaces(s, id) == Times(s.server.log, id)
  {
    InitialInv(first);
    RunKeepsInv(first, run);
    InputsConserved(first, run, id);
    assert Served(Exec(first, run), id);
  }
}
