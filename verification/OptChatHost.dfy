/**
 The objects behind OptChatOwner and OptChatTurn: the RPC server's queue, a turn owner whose fields `drain`,
 `freshCall`, `submit` and `cancelTurn` change in place, and the slot in which `runTurn` looks for a running owner.
 Each method is one stretch of code between awaits and is one step of those modules on the objects' views.
 */
module OptChatHost {
  import opened Prelude
  import opened OptChatOwner
  import T = OptChatTurn

  class RpcServer {
    var on: bool
    var shadow: bool
    var pending: seq<Id>
    var log: seq<Id>

    constructor (on: bool, shadow: bool)
      ensures View() == Server(on, shadow, [], [])
    {
      this.on, this.shadow, pending, log := on, shadow, [], [];
    }

    ghost function View(): Server
      reads this
    {
      Server(on, shadow, pending, log)
    }

    /** The queue takes a submitted text, unless the switch is off. */
    method Submit(id: Id) returns (stage: Stage)
      modifies `pending
      ensures stage == (if on then Applied else Refusal)
      ensures pending == if on then old(pending) + [id] else old(pending)
    {
      if !on { return Refusal; }
      pending := pending + [id];
      return Applied;
    }

    /** The `enabled` request with a value. */
    method SetEnabled(on: bool)
      modifies this
      ensures View() == T.Switched(old(View()), on)
      ensures this.on == on && !shadow
      ensures if on then pending == old(pending) && log == old(log)
              else pending == [] && log == old(log) + old(pending)
    {
      this.on, shadow := on, false;
      if !on { LeaveUnanswered(); }
    }

    /** What is queued is logged and will not be answered. */
    method LeaveUnanswered()
      modifies `pending, `log
      ensures View() == T.Leave(old(View()))
      ensures pending == [] && log == old(log) + old(pending)
    {
      log, pending := log + pending, [];
    }

    /** One request of the owner. */
    method Answer(op: Op, texts: seq<Id>, ready: bool) returns (reply: Reply)
      modifies this
      ensures (View(), reply) == Handle(old(View()), op, texts, ready)
      ensures on == old(on) && shadow == old(shadow)
      ensures !on && (op.Take? || op.Begin? || op.Boundary? || op.Persist? || (op.Record? && !shadow)) ==>
                reply == Refused && pending == old(pending) && log == old(log)
      ensures op.Status? ==> reply == Info(|pending|, ready, on) && pending == old(pending) && log == old(log)
      ensures on && (op.Take? || op.Boundary?) ==> reply == Texts(old(pending)) && pending == [] && log == old(log)
      ensures on && op.Begin? ==>
                reply == Opened(ready) && pending == old(pending) && log == old(log) + if ready then texts else []
      ensures (on || shadow) && op.Record? && texts != [] ==>
                reply == Logged && pending == old(pending) && log == old(log) + [texts[0]]
      ensures op.Abort? ==> reply == Logged && pending == [] && log == old(log) + (texts + old(pending))
      ensures op.FinishIdle? || op.FinishTurn? || op.FinishLast? ==>
                if on then reply == Texts(pending) && pending == old(pending) && log == old(log)
                else reply == Texts([]) && pending == [] && log == old(log) + old(pending)
    {
      if NeedsSwitchOn(op) && !on && !(shadow && op.Record?) { return Refused; }
      match op {
        case Status => reply := Info(|pending|, ready, on);
        case Take => reply, pending := Texts(pending), [];
        case Boundary => reply, pending := Texts(pending), [];
        case Begin =>
          if ready { log := log + texts; }
          reply := Opened(ready);
        case Record =>
          if texts != [] { log := log + [texts[0]]; }
          reply := Logged;
        case Persist => reply := Logged;
        case Abort =>
          log, pending := log + (texts + pending), [];
          reply := Logged;
        case _ =>
          if on { return Texts(pending); }
          log, pending := log + pending, [];
          reply := Texts([]);
      }
    }
  }

  class TurnOwner {
    const first: Id
    const session: nat
    var closing: bool
    var aborted: bool
    var cancelled: bool
    var subs: map<Id, Stage>
    var unlogged: seq<Id>
    var pc: Pc

    ghost function View(): Owner
      reads this
    {
      Owner(first, session, closing, aborted, cancelled, subs, unlogged, pc)
    }

    /** Together with this server, the owner keeps OptChatOwner's invariant. */
    ghost predicate Sound(server: Server)
      reads this
    {
      OwnerInv(Duo(server, View()))
    }

    constructor (first: Id, session: nat)
      ensures View() == Owner(first, session, false, false, false, map[first := Issued], [], OwnSubmit)
    {
      this.first, this.session := first, session;
      closing, aborted, cancelled, subs, unlogged, pc := false, false, false, map[first := Issued], [], OwnSubmit;
    }

    /** Entry of drain's catch block. */
    method Throw()
      modifies `closing, `aborted, `pc
      ensures View() == Unwind(old(View()))
    {
      closing, aborted, pc := true, true, Unwinding;
    }

    /** `active()` in front of a request. */
    method Request(choice: Choice, op: Op)
      modifies `closing, `aborted, `cancelled, `pc
      ensures View() == Guarded(old(View()), choice, op)
      ensures if old(aborted) || choice.Throw? || choice.CallOff? then pc.Unwinding? else pc == Sent(op)
    {
      if choice.CallOff? && !aborted { cancelled := true; }
      if aborted || choice.Throw? || choice.CallOff? { Throw(); } else { pc := Sent(op); }
    }

    /** The head of drain's loop: an empty queue closes the owner before its submissions are awaited. */
    method AfterStatus(ghost server: Server)
      requires pc.Got? && pc.sent.Status?
      requires Sound(server)
      modifies `closing, `aborted, `cancelled, `pc
      ensures forall go :: View() == OnReply(old(View()), go)
      ensures var reply := old(pc).reply;
              if !reply.Info? || !reply.on || old(aborted) then pc.Unwinding? && closing && aborted
              else if reply.waiting == 0 then pc.WaitSubs? && closing
              else pc == (if reply.ready then BeforeTake else Settling) && closing == old(closing)
      ensures Sound(server)
    {
      ContinueKeepsOwnerInv(Duo(server, View()), Go);
      if pc.reply.Refused? || aborted || !pc.reply.Info? { Throw(); return; }
      if !pc.reply.on {
        cancelled := true;
        Throw();
        return;
      }
      if pc.reply.waiting == 0 {
        closing, pc := true, WaitSubs;
      } else if pc.reply.ready {
        pc := BeforeTake;
      } else {
        pc := Settling;
      }
    }

    /** `finish` of an idle owner: texts that arrived meanwhile open it again. */
    method AfterFinish(ghost server: Server)
      requires pc.Got? && pc.sent.FinishIdle?
      requires Sound(server)
      modifies `closing, `aborted, `pc
      ensures forall go :: View() == OnReply(old(View()), go)
      ensures var reply := old(pc).reply;
              if !reply.Texts? then pc.Unwinding?
              else if reply.texts == [] then pc == Ended(true, false)
              else pc.Top? && !closing
      ensures Sound(server)
    {
      ContinueKeepsOwnerInv(Duo(server, View()), Go);
      if !pc.reply.Texts? { Throw(); return; }
      if pc.reply.texts == [] { pc := Ended(true, false); return; }
      closing, pc := false, Top;
    }

    method AfterTake(ghost server: Server)
      requires pc.Got? && pc.sent.Take?
      requires Sound(server)
      modifies `closing, `aborted, `unlogged, `pc
      ensures forall go :: View() == OnReply(old(View()), go)
      ensures var reply := old(pc).reply;
              if !reply.Texts? then pc.Unwinding?
              else unlogged == reply.texts && pc == if reply.texts == [] then Top else BeforeBegin
      ensures Sound(server)
    {
      ContinueKeepsOwnerInv(Duo(server, View()), Go);
      if !pc.reply.Texts? { Throw(); return; }
      unlogged := pc.reply.texts;
      pc := if unlogged == [] then Top else BeforeBegin;
    }

    method AfterBegin(ghost server: Server)
      requires pc.Got? && pc.sent.Begin?
      requires Sound(server)
      modifies `closing, `aborted, `unlogged, `pc
      ensures forall go :: View() == OnReply(old(View()), go)
      ensures if old(pc).reply == Opened(true) then pc.InCall? && unlogged == []
              else pc.Unwinding? && unlogged == old(unlogged)
      ensures Sound(server)
    {
      ContinueKeepsOwnerInv(Duo(server, View()), Go);
      if pc.reply != Opened(true) { Throw(); return; }
      unlogged, pc := [], InCall;
    }

    /** freshCall's boundary: what was queued meanwhile is injected, text by text. */
    method AfterBoundary(ghost server: Server)
      requires pc.Got? && pc.sent.Boundary?
      requires Sound(server)
      modifies `closing, `aborted, `unlogged, `pc
      ensures forall go :: View() == OnReply(old(View()), go)
      ensures var reply := old(pc).reply;
              if reply.Texts? then pc.Injecting? && unlogged == reply.texts else pc.Unwinding?
      ensures Sound(server)
    {
      ContinueKeepsOwnerInv(Duo(server, View()), Go);
      if !pc.reply.Texts? { Throw(); return; }
      unlogged, pc := pc.reply.texts, Injecting;
    }

    method AfterRecord(ghost server: Server)
      requires pc.Got? && pc.sent.Record?
      requires Sound(server)
      modifies `closing, `aborted, `unlogged, `pc
      ensures forall go :: View() == OnReply(old(View()), go)
      ensures if old(pc).reply.Refused? then pc.Unwinding? && unlogged == old(unlogged)
              else pc.Injecting? && unlogged == old(unlogged)[1..]
      ensures Sound(server)
    {
      ContinueKeepsOwnerInv(Duo(server, View()), Go);
      if pc.reply.Refused? || unlogged == [] { Throw(); return; }
      unlogged, pc := unlogged[1..], Injecting;
    }

    /** `abort` of the catch block: the texts are handed back before they are forgotten. */
    method AfterAbort(ghost server: Server)
      requires pc.Got? && pc.sent.Abort?
      requires Sound(server)
      modifies `unlogged, `pc
      ensures forall go :: View() == OnReply(old(View()), go)
      ensures if old(pc).reply.Refused? then pc == Ended(false, true) && unlogged == old(unlogged)
              else pc == Sent(FinishLast) && unlogged == []
      ensures Sound(server)
    {
      ContinueKeepsOwnerInv(Duo(server, View()), Go);
      if pc.reply.Refused? { pc := Ended(false, true); return; }
      unlogged, pc := [], Sent(FinishLast);
    }

    /** A submission settles: `submit`'s finally block, and what drain does with it. */
    method SubmissionSettles(id: Id, ghost server: Server)
      requires id in subs && !subs[id].Issued?
      requires Sound(server)
      modifies `closing, `aborted, `subs, `pc
      ensures View() == SettleSubmit(old(View()), id)
      ensures subs == old(subs) - {id}
      ensures old(subs)[id].Refusal? ==> aborted
      ensures old(subs)[id].Applied? ==>
                aborted == old(aborted) && closing == old(closing)
                && pc == if old(pc).OwnSubmit? && id == first then Top else old(pc)
      ensures Sound(server)
    {
      SubmitsKeepOwnerInv(Duo(server, View()), id, Answered);
      var accepted, own := subs[id].Applied?, pc.OwnSubmit? && id == first;
      subs := subs - {id};
      if accepted {
        if own { pc := Top; }
      } else if own || pc.WaitSubs? {
        Throw();
      } else {
        aborted := true;
      }
    }

    /** `cancelTurn` up to its await. */
    method Cancel()
      modifies `closing, `aborted, `cancelled
      ensures View() == Cancelled(old(View())).(closing := true)
      ensures closing && aborted && cancelled == (old(cancelled) || !old(aborted))
    {
      if !aborted { cancelled := true; }
      closing, aborted := true, true;
    }
  }

  /** The running owner cannot take the text of an input of this session. */
  predicate MustWait(w: Owner, session: nat) {
    w.session != session || w.closing || w.aborted
  }

  /** What an arriving input does to the running owner. */
  function Entered(w: Owner, id: Id, session: nat): Owner {
    if w.session != session then Cancelled(w).(closing := true)
    else if w.closing || w.aborted then w
    else w.(subs := w.subs[id := Issued])
  }

  /** That is what OptChatTurn's step does to it. */
  lemma EnterTurnEnters(s: T.World, id: Id)
    requires id in s.callers && s.callers[id].at.Looping? && s.slot.Some? && s.slot.value in s.running
    ensures var o := s.slot.value;
            T.EnterTurn(s, id).running == s.running[o := Entered(s.running[o], id, s.callers[id].session)]
    ensures T.EnterTurn(s, id).callers[id].at
            == if MustWait(s.running[s.slot.value], s.callers[id].session) then T.Awaiting(s.slot.value, false)
               else T.Submitting(s.slot.value)
  {
    var o := s.slot.value;
    assert s.running[o := s.running[o]] == s.running;
  }

  /** The `owners` entry of one client. */
  class Owners {
    var slot: TurnOwner?

    /**
     One pass of runTurn's loop up to its await: an owner of another session is cancelled, one that closes or was
     aborted is waited for, a running one gets the text submitted, and without one a new drain starts.
     */
    method EnterPass(id: Id, session: nat) returns (joins: bool, again: bool)
      modifies this, slot
      ensures old(slot) == null ==>
                fresh(slot) && slot.View() == Owner(id, session, false, false, false, map[id := Issued], [], OwnSubmit)
                && !joins && !again
      ensures old(slot) != null ==> slot == old(slot) && slot.View() == Entered(old(slot.View()), id, session)
      ensures old(slot) != null ==> joins == !again && (again <==> MustWait(old(slot.View()), session))
    {
      if slot == null {
        slot := new TurnOwner(id, session);
        return false, false;
      }
      if slot.session != session {
        slot.Cancel();
        return false, true;
      }
      if slot.closing || slot.aborted { return false, true; }
      slot.subs := slot.subs[id := Issued];
      return true, false;
    }

    /** drain's finally block. */
    method Leave(owner: TurnOwner)
      modifies this
      ensures slot == if old(slot) == owner then null else old(slot)
    {
      if slot == owner { slot := null; }
    }
  }
}
