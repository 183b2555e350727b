/**
 One OptChat turn owner (`drain`, `freshCall`) talking to the RPC server.

 A text is named by the input that submitted it.  Each RPC is two steps: the server handles the
 request, then the owner continues with the reply; other inputs act in between.  A refused request
 (an error reply) changes nothing on the server.
 */
module OptChatOwner {
  import opened Occurrences

  type Id = nat

  /** The switch, and the part of the RPC server that holds texts: `Queue.pending` and the chat's user messages. */
  datatype Server = Server(on: bool, shadow: bool, pending: seq<Id>, log: seq<Id>)

  /** An RPC `submit` in flight: not yet handled, handled, or refused. */
  datatype Stage = Issued | Applied | Refusal

  datatype Op = Status | Take | Begin | Boundary | Record | FinishIdle | Persist | FinishTurn | Abort | FinishLast
  datatype Reply =
    | Refused | Info(waiting: nat, ready: bool, on: bool) | Texts(texts: seq<Id>) | Opened(ready: bool) | Logged

  /** Where `drain` stands.  The other points are await points of `drain` and `freshCall`. */
  datatype Pc =
    | OwnSubmit         // awaiting the submit of its own text
    | Top               // head of drain's loop
    | WaitSubs          // closing is set; awaiting the running submissions
    | Settling          // awaiting the summarised view
    | BeforeTake
    | BeforeBegin
    | InCall            // inside freshCall, away from the boundary
    | Injecting         // freshCall's loop over the injected texts
    | Unwinding         // catch block: awaiting the running submissions
    | Sent(op: Op)
    | Got(sent: Op, reply: Reply)
    | Ended(ok: bool, abortRefused: bool)

  datatype Owner = Owner(
    first: Id,               // the input whose runTurn started this drain
    session: nat,
    closing: bool,
    aborted: bool,           // controller.signal.aborted
    cancelled: bool,         // and its reason is a cancellation
    subs: map<Id, Stage>,    // submissions
    unlogged: seq<Id>,
    pc: Pc)

  datatype Duo = Duo(server: Server, owner: Owner)

  // ------------------------------------------------------------------ server

  predicate NeedsSwitchOn(op: Op) { op.Take? || op.Begin? || op.Boundary? || op.Record? || op.Persist? }

  /** Switched off, the server still finishes and aborts, and in shadow mode it records. */
  predicate Accepts(srv: Server, op: Op) {
    srv.on || !NeedsSwitchOn(op) || (srv.shadow && op.Record?)
  }

  /** What the server does with the owner's request and what it answers. */
  function Handle(srv: Server, op: Op, unlogged: seq<Id>, ready: bool): (Server, Reply) {
    if !Accepts(srv, op) then (srv, Refused)
    else
      match op
      case Status => (srv, Info(|srv.pending|, ready, srv.on))
      case Take => (srv.(pending := []), Texts(srv.pending))
      case Boundary => (srv.(pending := []), Texts(srv.pending))
      case Begin => if ready then (srv.(log := srv.log + unlogged), Opened(true)) else (srv, Opened(false))
      case Record => (if unlogged == [] then srv else srv.(log := srv.log + [unlogged[0]]), Logged)
      case Persist => (srv, Logged)
      case Abort => (srv.(log := srv.log + (unlogged + srv.pending), pending := []), Logged)
      case _ =>
        if srv.on then (srv, Texts(srv.pending))
        else (srv.(log := srv.log + srv.pending, pending := []), Texts([]))
  }

  /** The server handles the request in flight, or refuses it. */
  function Serve(d: Duo, refuse: bool, ready: bool): Duo
    requires d.owner.pc.Sent?
  {
    var op := d.owner.pc.op;
    if refuse then d.(owner := d.owner.(pc := Got(op, Refused)))
    else
      var (srv, reply) := Handle(d.server, op, d.owner.unlogged, ready);
      Duo(srv, d.owner.(pc := Got(op, reply)))
  }

  // ------------------------------------------------------------------ owner

  /** `controller.abort` with an AbortError; only the first abort gives the signal its reason. */
  function Cancelled(w: Owner): Owner {
    w.(aborted := true, cancelled := w.cancelled || !w.aborted)
  }

  /** Enter the catch block of `drain`. */
  function Unwind(w: Owner): Owner {
    w.(closing := true, aborted := true, pc := Unwinding)
  }

  /** An `active()` check in front of a request: it throws once aborted, when it fails, or when it finds OptChat off. */
  function Guarded(w: Owner, choice: Choice, op: Op): Owner {
    if w.aborted || choice.Throw? then Unwind(w)
    else if choice.CallOff? then Unwind(Cancelled(w))
    else w.(pc := Sent(op))
  }

  /** The owner continues after a reply. */
  function OnReply(w: Owner, go: bool): Owner
    requires w.pc.Got?
  {
    var op, reply := w.pc.sent, w.pc.reply;
    if op.FinishLast? then w.(pc := Ended(w.cancelled && go && !reply.Refused?, false))
    else if op.Abort? then
      if reply.Refused? then w.(pc := Ended(false, true)) else w.(unlogged := [], pc := Sent(FinishLast))
    else if reply.Refused? then Unwind(w)
    else
      match op
      case Status =>
        if w.aborted || !reply.Info? then Unwind(w)
        else if !reply.on then Unwind(Cancelled(w))
        else if reply.waiting == 0 then w.(closing := true, pc := WaitSubs)
        else w.(pc := if reply.ready then BeforeTake else Settling)
      case FinishIdle =>
        if !reply.Texts? then Unwind(w)
        else if reply.texts == [] then w.(pc := Ended(true, false))
        else w.(closing := false, pc := Top)
      case Take =>
        if !reply.Texts? then Unwind(w)
        else w.(unlogged := reply.texts, pc := if reply.texts == [] then Top else BeforeBegin)
      case Begin => if reply == Opened(true) then w.(unlogged := [], pc := InCall) else Unwind(w)
      case Boundary => if reply.Texts? then w.(unlogged := reply.texts, pc := Injecting) else Unwind(w)
      case Record => if w.unlogged != [] then w.(unlogged := w.unlogged[1..], pc := Injecting) else Unwind(w)
      case Persist => w.(pc := Sent(FinishTurn))
      case FinishTurn => w.(pc := Top)
      case _ => w
  }

  /**
   What comes of a check, of the wait for a view, and of freshCall between two boundaries: it goes on, the answer is
   complete, it throws, or it aborts the drain as cancelled.
   */
  datatype Choice = Go | Return | Throw | CallOff

  predicate CanContinue(w: Owner) {
    match w.pc
    case OwnSubmit => false
    case WaitSubs => w.subs == map[]
    case Unwinding => w.subs == map[]
    case Sent(_) => false
    case Ended(_, _) => false
    case _ => true
  }

  /** One stretch of the owner's code up to its next await. */
  function Continue(w: Owner, choice: Choice): Owner
    requires CanContinue(w)
  {
    match w.pc
    case Top => Guarded(w, choice, Status)
    case WaitSubs => w.(pc := Sent(FinishIdle))
    case Settling =>
      if w.aborted || choice.Throw? then Unwind(w)
      else if choice.CallOff? then Unwind(Cancelled(w))
      else w.(pc := BeforeTake)
    case BeforeTake => Guarded(w, choice, Take)
    case BeforeBegin => Guarded(w, choice, Begin)
    case InCall => Guarded(w, choice, if choice.Return? then Persist else Boundary)
    case Injecting => if w.unlogged == [] then w.(pc := InCall) else Guarded(w, choice, Record)
    case Unwinding => w.(pc := Sent(Abort))
    case Got(_, _) => OnReply(w, choice.Go?)
    case _ => w
  }

  // ------------------------------------------------------------------ submissions

  /** What becomes of a `submit`: its reply arrives, the server refuses it, or it is handled but the reply times out. */
  datatype Fate = Answered | Declined | ReplyLost

  predicate Enqueues(srv: Server, fate: Fate) { !fate.Declined? && srv.on }

  /** A `submit` in flight meets its fate; to the client a lost reply is a refusal. */
  function ServeSubmit(d: Duo, id: Id, fate: Fate): Duo
    requires id in d.owner.subs && d.owner.subs[id].Issued?
  {
    if !Enqueues(d.server, fate) then d.(owner := d.owner.(subs := d.owner.subs[id := Refusal]))
    else
      Duo(d.server.(pending := d.server.pending + [id]),
          d.owner.(subs := d.owner.subs[id := if fate.Answered? then Applied else Refusal]))
  }

  /**
   The server queues a submitted text exactly when OptChat is on and it does not refuse; the client learns of it only
   when the reply arrives.
   */
  lemma SubmitIsQueuedIff(d: Duo, id: Id, fate: Fate)
    requires id in d.owner.subs && d.owner.subs[id].Issued?
    ensures var t := ServeSubmit(d, id, fate);
            && t.server.pending == d.server.pending + (if d.server.on && !fate.Declined? then [id] else [])
            && t.server.log == d.server.log
            && t.owner.subs[id] == if d.server.on && fate.Answered? then Applied else Refusal
  {
  }

  /** A submission's promise settles; a refused one aborts the owner. */
  function SettleSubmit(w: Owner, id: Id): Owner
    requires id in w.subs && !w.subs[id].Issued?
  {
    var rest := w.(subs := w.subs - {id});
    if w.subs[id].Applied? then (if w.pc.OwnSubmit? && id == w.first then rest.(pc := Top) else rest)
    else if (w.pc.OwnSubmit? && id == w.first) || w.pc.WaitSubs? then Unwind(rest)
    else rest.(aborted := true)
  }

  // ------------------------------------------------------------------ where the texts are

  /** Texts only the owner holds: taken from the server's queue and not yet logged. */
  function Held(w: Owner): seq<Id> {
    match w.pc
    case Got(op, reply) =>
      if reply.Texts? && (op.Take? || op.Boundary?) then reply.texts
      else if op.Begin? && reply == Opened(true) then []
      else if op.Abort? && reply.Logged? then []
      else if op.Record? && reply.Logged? && w.unlogged != [] then w.unlogged[1..]
      else w.unlogged
    case _ => w.unlogged
  }

  /** In how many places a text is. */
  ghost function Places(d: Duo, x: Id): nat {
    Times(d.server.pending, x) + Times(Held(d.owner), x) + Times(d.server.log, x)
  }

  predicate MayHold(pc: Pc) {
    match pc
    case BeforeBegin => true
    case Injecting => true
    case Unwinding => true
    case Sent(op) => op.Begin? || op.Record? || op.Abort?
    case Got(op, _) => op.Begin? || op.Record? || op.Abort?
    case Ended(_, refused) => refused
    case _ => false
  }

  /** Points the owner reaches only with `closing` set. */
  predicate Shut(pc: Pc) {
    match pc
    case WaitSubs => true
    case Unwinding => true
    case Sent(op) => op.FinishIdle? || op.Abort? || op.FinishLast?
    case Got(op, _) => op.FinishIdle? || op.Abort? || op.FinishLast?
    case Ended(_, _) => true
    case _ => false
  }

  /** Points the owner reaches only after its submissions have settled. */
  predicate Alone(pc: Pc) {
    Shut(pc) && !pc.WaitSubs? && !pc.Unwinding?
  }

  /** Points at which the server's queue was found or left empty and nothing can join any more. */
  predicate Emptied(pc: Pc) {
    match pc
    case Sent(op) => op.FinishLast?
    case Got(op, reply) => op.FinishLast? || (op.Abort? && !reply.Refused?) || (op.FinishIdle? && reply == Texts([]))
    case Ended(_, refused) => !refused
    case _ => false
  }

  ghost predicate OwnerInv(d: Duo) {
    var w := d.owner;
    && (!MayHold(w.pc) ==> w.unlogged == [])
    && (w.pc == Sent(Record) || (w.pc.Got? && w.pc.sent.Record?) ==> w.unlogged != [])
    && (Shut(w.pc) ==> w.closing)
    && (Alone(w.pc) ==> w.subs == map[])
    && (Emptied(w.pc) ==> d.server.pending == [])
    && (w.pc.OwnSubmit? ==> w.first in w.subs)
    && (w.cancelled ==> w.aborted)
    && (w.pc.Ended? ==> !(w.pc.ok && w.pc.abortRefused))
    && (w.pc.Got? && w.pc.sent.Take? ==> w.pc.reply.Texts? || w.pc.reply.Refused?)
    && (w.pc.Got? && w.pc.sent.Boundary? ==> w.pc.reply.Texts? || w.pc.reply.Refused?)
    && (w.pc.Got? && w.pc.sent.Begin? ==> w.pc.reply.Opened? || w.pc.reply.Refused?)
    && (w.pc.Got? && w.pc.sent.Record? ==> w.pc.reply.Logged? || w.pc.reply.Refused?)
    && (w.pc.Got? && w.pc.sent.Abort? ==> w.pc.reply.Logged? || w.pc.reply.Refused?)
  }

  lemma ServeKeepsOwnerInv(d: Duo, refuse: bool, ready: bool)
    requires OwnerInv(d) && d.owner.pc.Sent?
    ensures OwnerInv(Serve(d, refuse, ready))
  {
  }

  lemma ContinueKeepsOwnerInv(d: Duo, choice: Choice)
    requires OwnerInv(d) && CanContinue(d.owner)
    ensures OwnerInv(d.(owner := Continue(d.owner, choice)))
  {
    if d.owner.pc.Got? { ReplyKeepsOwnerInv(d, choice.Go?); }
  }

  lemma ReplyKeepsOwnerInv(d: Duo, go: bool)
    requires OwnerInv(d) && d.owner.pc.Got?
    ensures OwnerInv(d.(owner := OnReply(d.owner, go)))
  {
  }

  lemma BeginKeepsPlaces(d: Duo, refuse: bool, ready: bool, x: Id)
    requires d.owner.pc == Sent(Begin)
    ensures Places(Serve(d, refuse, ready), x) == Places(d, x)
  {
    TimesConcat(d.server.log, d.owner.unlogged, x);
  }

  lemma RecordKeepsPlaces(d: Duo, refuse: bool, ready: bool, x: Id)
    requires d.owner.pc == Sent(Record) && d.owner.unlogged != []
    ensures Places(Serve(d, refuse, ready), x) == Places(d, x)
  {
    var t := Serve(d, refuse, ready);
    if refuse || !Accepts(d.server, Record) {
      assert t.server == d.server && Held(t.owner) == Held(d.owner);
    } else {
      assert Held(t.owner) == d.owner.unlogged[1..] && Held(d.owner) == d.owner.unlogged;
      TimesHead(d.owner.unlogged, x);
    }
  }

  lemma AbortKeepsPlaces(d: Duo, refuse: bool, ready: bool, x: Id)
    requires d.owner.pc == Sent(Abort)
    ensures Places(Serve(d, refuse, ready), x) == Places(d, x)
  {
    TimesConcat(d.owner.unlogged, d.server.pending, x);
    TimesConcat(d.server.log, d.owner.unlogged + d.server.pending, x);
  }

  lemma FinishKeepsPlaces(d: Duo, refuse: bool, ready: bool, x: Id)
    requires d.owner.pc.Sent? && (d.owner.pc.op.FinishIdle? || d.owner.pc.op.FinishTurn? || d.owner.pc.op.FinishLast?)
    ensures Places(Serve(d, refuse, ready), x) == Places(d, x)
  {
    TimesConcat(d.server.log, d.server.pending, x);
  }

  /** Neither changes which submissions are running. */
  lemma OwnStepsKeepSubs(d: Duo, refuse: bool, ready: bool, choice: Choice)
    ensures d.owner.pc.Sent? ==>
              var w := Serve(d, refuse, ready).owner; w.subs == d.owner.subs && w.first == d.owner.first
    ensures CanContinue(d.owner) ==>
              var w := Continue(d.owner, choice); w.subs == d.owner.subs && w.first == d.owner.first
  {
  }

  /** The server's handling moves texts between the places and loses or copies none. */
  lemma ServeKeepsPlaces(d: Duo, refuse: bool, ready: bool, x: Id)
    requires OwnerInv(d) && d.owner.pc.Sent?
    ensures Places(Serve(d, refuse, ready), x) == Places(d, x)
  {
    match d.owner.pc.op
    case Begin => BeginKeepsPlaces(d, refuse, ready, x);
    case Record => RecordKeepsPlaces(d, refuse, ready, x);
    case Abort => AbortKeepsPlaces(d, refuse, ready, x);
    case FinishIdle => FinishKeepsPlaces(d, refuse, ready, x);
    case FinishTurn => FinishKeepsPlaces(d, refuse, ready, x);
    case FinishLast => FinishKeepsPlaces(d, refuse, ready, x);
    case _ =>
  }

  lemma ContinueKeepsPlaces(d: Duo, choice: Choice, x: Id)
    requires OwnerInv(d) && CanContinue(d.owner)
    ensures Places(d.(owner := Continue(d.owner, choice)), x) == Places(d, x)
  {
    assert Held(Continue(d.owner, choice)) == Held(d.owner);
  }

  lemma SubmitsKeepHeld(d: Duo, id: Id, fate: Fate)
    requires id in d.owner.subs
    ensures d.owner.subs[id].Issued? ==>
              var t := ServeSubmit(d, id, fate);
              Held(t.owner) == Held(d.owner) && t.owner.subs.Keys == d.owner.subs.Keys && t.owner.first == d.owner.first
    ensures !d.owner.subs[id].Issued? ==>
              var w := SettleSubmit(d.owner, id);
              Held(w) == Held(d.owner) && w.subs == d.owner.subs - {id} && w.first == d.owner.first
  {
  }

  lemma SubmitsKeepOwnerInv(d: Duo, id: Id, fate: Fate)
    requires OwnerInv(d) && id in d.owner.subs
    ensures d.owner.subs[id].Issued? ==> OwnerInv(ServeSubmit(d, id, fate))
    ensures !d.owner.subs[id].Issued? ==> OwnerInv(d.(owner := SettleSubmit(d.owner, id)))
  {
  }

  /** The owner's abort has not been refused. */
  predicate AbortNotRefused(w: Owner) {
    w.pc != Got(Abort, Refused) && (w.pc.Ended? ==> !w.pc.abortRefused)
  }

  lemma ServeLeavesUnrefused(d: Duo, refuse: bool, ready: bool)
    requires AbortNotRefused(d.owner) && d.owner.pc.Sent? && (d.owner.pc.op.Abort? ==> !refuse)
    ensures AbortNotRefused(Serve(d, refuse, ready).owner)
  {
  }

  lemma ContinueLeavesUnrefused(w: Owner, choice: Choice)
    requires AbortNotRefused(w) && CanContinue(w)
    ensures AbortNotRefused(Continue(w, choice))
  {
  }

  lemma SubmitsLeaveUnrefused(d: Duo, id: Id, fate: Fate)
    requires AbortNotRefused(d.owner) && id in d.owner.subs
    ensures d.owner.subs[id].Issued? ==> AbortNotRefused(ServeSubmit(d, id, fate).owner)
    ensures !d.owner.subs[id].Issued? ==> AbortNotRefused(SettleSubmit(d.owner, id))
  {
  }

  // ------------------------------------------------------------------ calls that time out

  /** The server handles the request, but the owner's deadline passes and it sees a refusal. */
  function ServeTimedOut(d: Duo, ready: bool): Duo
    requires d.owner.pc.Sent?
  {
    var (srv, _) := Handle(d.server, d.owner.pc.op, d.owner.unlogged, ready);
    Duo(srv, d.owner.(pc := Got(d.owner.pc.op, Refused)))
  }

  lemma TimedOutKeepsOwnerInv(d: Duo, ready: bool)
    requires OwnerInv(d) && d.owner.pc.Sent?
    ensures var t := ServeTimedOut(d, ready);
            OwnerInv(t) && t.owner.subs == d.owner.subs && t.owner.first == d.owner.first
  {
  }

  /** The handled request takes no text from the queue for the owner, and logs none the owner holds. */
  predicate Harmless(d: Duo, ready: bool)
    requires d.owner.pc.Sent?
  {
    match d.owner.pc.op
    case Take => !d.server.on || d.server.pending == []
    case Boundary => !d.server.on || d.server.pending == []
    case Begin => !d.server.on || !ready || d.owner.unlogged == []
    case Record => !Accepts(d.server, Record)
    case Abort => d.owner.unlogged == []
    case _ => true
  }

  lemma LostReplyOfAbort(d: Duo, ready: bool, x: Id)
    requires d.owner.pc == Sent(Abort)
    ensures Places(ServeTimedOut(d, ready), x) == Places(d, x) + Times(d.owner.unlogged, x)
  {
    TimesConcat(d.owner.unlogged, d.server.pending, x);
    TimesConcat(d.server.log, d.owner.unlogged + d.server.pending, x);
  }

  lemma LostReplyOfRecord(d: Duo, ready: bool, x: Id)
    requires d.owner.pc == Sent(Record) && d.owner.unlogged != [] && Accepts(d.server, Record)
    ensures Places(ServeTimedOut(d, ready), x) == Places(d, x) + if x == d.owner.unlogged[0] then 1 else 0
  {
  }

  lemma LostReplyOfBegin(d: Duo, x: Id)
    requires d.owner.pc == Sent(Begin) && d.server.on
    ensures Places(ServeTimedOut(d, true), x) == Places(d, x) + Times(d.owner.unlogged, x)
  {
    TimesConcat(d.server.log, d.owner.unlogged, x);
  }

  lemma LostReplyOfTake(d: Duo, ready: bool, x: Id)
    requires OwnerInv(d) && d.server.on && (d.owner.pc == Sent(Take) || d.owner.pc == Sent(Boundary))
    ensures Places(ServeTimedOut(d, ready), x) == Places(d, x) - Times(d.server.pending, x)
  {
  }

  lemma LostReplyOfFinish(d: Duo, ready: bool, x: Id)
    requires d.owner.pc.Sent? && (d.owner.pc.op.FinishIdle? || d.owner.pc.op.FinishTurn? || d.owner.pc.op.FinishLast?)
    ensures Places(ServeTimedOut(d, ready), x) == Places(d, x)
  {
    TimesConcat(d.server.log, d.server.pending, x);
  }

  /** A text stays where it is; or it was queued and is nowhere now; or it was held and has one more place. */
  ghost predicate MovesOrGoesWrong(d: Duo, t: Duo, x: Id) {
    || Places(t, x) == Places(d, x)
    || (x !in t.server.pending && Places(t, x) == Places(d, x) - Times(d.server.pending, x))
    || (x in d.owner.unlogged && Places(t, x) > Places(d, x))
  }

  lemma TimedOutMoves(d: Duo, ready: bool, x: Id)
    requires OwnerInv(d) && d.owner.pc.Sent?
    ensures MovesOrGoesWrong(d, ServeTimedOut(d, ready), x)
    ensures x in ServeTimedOut(d, ready).server.pending ==> x in d.server.pending
  {
    var srv, w := d.server, d.owner;
    TimesMember(w.unlogged, x);
    match w.pc.op
    case Take => if srv.on { LostReplyOfTake(d, ready, x); }
    case Boundary => if srv.on { LostReplyOfTake(d, ready, x); }
    case Begin => if srv.on && ready { LostReplyOfBegin(d, x); }
    case Record => if Accepts(srv, Record) { LostReplyOfRecord(d, ready, x); }
    case Abort => LostReplyOfAbort(d, ready, x);
    case Status =>
    case Persist =>
    case _ => LostReplyOfFinish(d, ready, x);
  }

  /**
   The accounting rests on replies arriving.  A call that times out on the client after the server
   handled it keeps every text in its one place exactly when the handling was harmless; otherwise a
   text is lost (take, boundary) or logged while still held (begin, record, abort).
   */
  lemma TimedOutReply(d: Duo, ready: bool)
    requires OwnerInv(d) && d.owner.pc.Sent?
    ensures (forall x :: Places(ServeTimedOut(d, ready), x) == Places(d, x)) <==> Harmless(d, ready)
  {
    var w, srv := d.owner, d.server;
    if Harmless(d, ready) {
      forall x ensures Places(ServeTimedOut(d, ready), x) == Places(d, x) {
        match w.pc.op
        case Abort => LostReplyOfAbort(d, ready, x);
        case FinishIdle => LostReplyOfFinish(d, ready, x);
        case FinishTurn => LostReplyOfFinish(d, ready, x);
        case FinishLast => LostReplyOfFinish(d, ready, x);
        case Begin => if srv.on && ready { LostReplyOfBegin(d, x); }
        case _ =>
      }
    } else if w.pc.op.Take? || w.pc.op.Boundary? {
      TimesMember(srv.pending, srv.pending[0]);
      LostReplyOfTake(d, ready, srv.pending[0]);
    } else {
      TimesMember(w.unlogged, w.unlogged[0]);
      match w.pc.op
      case Abort => LostReplyOfAbort(d, ready, w.unlogged[0]);
      case Record => LostReplyOfRecord(d, ready, w.unlogged[0]);
      case Begin => LostReplyOfBegin(d, w.unlogged[0]);
      case _ =>
    }
  }
}
