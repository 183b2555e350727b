/**
 What a drain says to the server and to the model over a whole run, and in which order.  The conversation is read off
 the steps of OptChatTurn; its grammar (Follows) speaks of requests and replies only, not of where the drain stands.
 */
module OptChatTalk {
  import opened Prelude
  import opened Occurrences
  import opened OptChatOwner
  import opened OptChatTurn

  /**
   A handled request with its reply, the summarised view becoming ready, the model reaching a boundary, or the model's
   answer being complete; Silence stands for the time before the first of them.
   */
  datatype Mark = Silence | Said(op: Op, sent: seq<Id>, reply: Reply) | Summarised | Paused | Completed

  /** What this step adds to the conversation of drain o. */
  ghost function MarkOf(s: World, step: Step, o: nat): seq<Mark>
    requires Enabled(s, step)
  {
    match step
    case HandleCall(owner, refuse, ready) =>
      if owner != o then []
      else
        var op, sent := s.running[o].pc.op, s.running[o].unlogged;
        [Said(op, sent, if refuse then Refused else Handle(s.server, op, sent, ready).1)]
    case Advance(owner, choice) =>
      if owner != o || s.running[o].aborted || choice.Throw? || choice.CallOff? then []
      else if s.running[o].pc.Settling? then [Summarised]
      else if !s.running[o].pc.InCall? then []
      else if choice.Return? then [Completed]
      else [Paused]
    case _ => []
  }

  // ------------------------------------------------------------------ the grammar

  /** A request that was answered as the drain expects. */
  predicate Fine(m: Mark, op: Op) { m.Said? && m.op == op && !m.reply.Refused? }

  predicate GotNone(m: Mark, op: Op) { Fine(m, op) && m.reply == Texts([]) }

  predicate GotSome(m: Mark, op: Op) { Fine(m, op) && m.reply.Texts? && m.reply.texts != [] }

  /** The server has said whether texts are queued. */
  predicate Counted(m: Mark, some: bool) {
    Fine(m, Status) && m.reply.Info? && (m.reply.waiting > 0 <==> some)
  }

  /** Texts are queued, and the summarised view was ready at once or has become so. */
  predicate HasView(m: Mark) { m.Summarised? || (Counted(m, true) && m.reply.ready) }

  /** The model is called, or called on, once the view is open and all queued texts are injected. */
  predicate CallsModel(m: Mark) {
    || (m.Said? && m.op.Begin? && m.reply == Opened(true))
    || GotNone(m, Boundary)
    || (Fine(m, Record) && |m.sent| == 1)
  }

  /** The texts a drain holds after a mark: taken and not logged. */
  function Holding(m: Mark): seq<Id> {
    if !m.Said? then []
    else if (m.op.Take? || m.op.Boundary?) && m.reply.Texts? then m.reply.texts
    else if m.op.Begin? then (if m.reply == Opened(true) then [] else m.sent)
    else if m.op.Record? then (if Fine(m, Record) && m.sent != [] then m.sent[1..] else m.sent)
    else []
  }

  /** After these a drain says nothing, or only its last word. */
  predicate IsLast(m: Mark) {
    m.Said? && (m.op.Abort? || m.op.FinishLast? || GotNone(m, FinishIdle))
  }

  /** What may come after a mark. */
  predicate Follows(m: Mark, next: Mark) {
    match next
    case Silence => false
    case Summarised => Counted(m, true) && !m.reply.ready
    case Paused => CallsModel(m)
    case Completed => CallsModel(m)
    case Said(op, sent, _) =>
      sent == (if op.Begin? || op.Record? || op.Abort? then Holding(m) else []) &&
      match op
      case Abort => !IsLast(m)
      case FinishLast => Fine(m, Abort)
      case Status => m.Silence? || GotNone(m, Take) || GotSome(m, FinishIdle) || Fine(m, FinishTurn)
      case FinishIdle => Counted(m, false)
      case Take => HasView(m)
      case Begin => GotSome(m, Take)
      case Boundary => m.Paused?
      case Record => GotSome(m, Boundary) || (Fine(m, Record) && |m.sent| > 1)
      case Persist => m.Completed?
      case FinishTurn => Fine(m, Persist)
  }

  /** The last mark so far. */
  function Tip(ms: seq<Mark>): Mark { if ms == [] then Silence else ms[|ms| - 1] }

  /** A conversation: each mark may follow what was said before it. */
  predicate IsTalk(ms: seq<Mark>) {
    forall i | 0 <= i < |ms| :: Follows(Tip(ms[..i]), ms[i])
  }

  // ------------------------------------------------------------------ where a drain stands in its conversation

  predicate Typed(op: Op, reply: Reply) {
    reply.Refused? ||
    match op
    case Status => reply.Info?
    case Begin => reply.Opened?
    case Record => reply.Logged?
    case Persist => reply.Logged?
    case Abort => reply.Logged?
    case _ => reply.Texts?
  }

  predicate AtTop(m: Mark) { m.Silence? || GotNone(m, Take) || GotSome(m, FinishIdle) || Fine(m, FinishTurn) }

  predicate Injects(m: Mark, unlogged: seq<Id>) {
    (Fine(m, Boundary) && m.reply == Texts(unlogged)) || (Fine(m, Record) && m.sent != [] && unlogged == m.sent[1..])
  }

  predicate GivesUp(m: Mark, unlogged: seq<Id>) { !IsLast(m) && unlogged == Holding(m) }

  /** How the last mark and the point a drain has reached belong together. */
  predicate Stands(m: Mark, w: Owner) {
    match w.pc
    case OwnSubmit => m.Silence?
    case Top => AtTop(m)
    case WaitSubs => Counted(m, false)
    case Settling => Counted(m, true) && !m.reply.ready
    case BeforeTake => HasView(m)
    case BeforeBegin => GotSome(m, Take) && m.reply == Texts(w.unlogged)
    case InCall => CallsModel(m)
    case Injecting => Injects(m, w.unlogged)
    case Unwinding => GivesUp(m, w.unlogged)
    case Sent(op) => MaySend(m, w.unlogged, op)
    case Got(op, reply) => Typed(op, reply) && m == Said(op, w.unlogged, reply)
    case Ended(ok, refused) => EndsSo(m, w.cancelled, ok, refused)
  }

  predicate MaySend(m: Mark, unlogged: seq<Id>, op: Op) {
    match op
    case Status => AtTop(m)
    case FinishIdle => Counted(m, false)
    case Take => HasView(m)
    case Begin => GotSome(m, Take) && m.reply == Texts(unlogged)
    case Boundary => m.Paused?
    case Record => Injects(m, unlogged) && unlogged != []
    case Persist => m.Completed?
    case FinishTurn => Fine(m, Persist)
    case Abort => GivesUp(m, unlogged)
    case FinishLast => Fine(m, Abort)
  }

  /** A drain ends on an empty finish, well; after its abort was refused, badly; or after a last finish. */
  predicate EndsSo(m: Mark, cancelled: bool, ok: bool, refused: bool) {
    m.Said? &&
    if m.op.FinishIdle? then GotNone(m, FinishIdle) && ok && !refused
    else if m.op.Abort? then m.reply.Refused? && !ok && refused
    else m.op.FinishLast? && (ok ==> cancelled && !m.reply.Refused?) && !refused
  }

  ghost predicate Fits(ms: seq<Mark>, w: Owner) {
    IsTalk(ms) && Stands(Tip(ms), w)
  }

  lemma Append(ms: seq<Mark>, m: Mark)
    requires IsTalk(ms) && Follows(Tip(ms), m)
    ensures IsTalk(ms + [m]) && Tip(ms + [m]) == m
  {
    var t := ms + [m];
    forall i | 0 <= i < |t| ensures Follows(Tip(t[..i]), t[i]) {
      assert t[..i] == ms[..i];
      if i == |ms| { assert ms[..i] == ms; }
    }
  }

  lemma ServeFits(ms: seq<Mark>, d: Duo, refuse: bool, ready: bool)
    requires d.owner.pc.Sent? && OwnerInv(d) && Fits(ms, d.owner)
    ensures var op, sent := d.owner.pc.op, d.owner.unlogged;
            Fits(ms + [Said(op, sent, if refuse then Refused else Handle(d.server, op, sent, ready).1)],
                 Serve(d, refuse, ready).owner)
  {
    var op, sent := d.owner.pc.op, d.owner.unlogged;
    Append(ms, Said(op, sent, if refuse then Refused else Handle(d.server, op, sent, ready).1));
  }

  lemma ReplyFits(ms: seq<Mark>, d: Duo, go: bool)
    requires d.owner.pc.Got? && OwnerInv(d) && Fits(ms, d.owner)
    ensures Fits(ms, OnReply(d.owner, go))
  {
  }

  lemma CallFits(ms: seq<Mark>, d: Duo, choice: Choice)
    requires d.owner.pc.InCall? && OwnerInv(d) && Fits(ms, d.owner)
    ensures var w := d.owner;
            Fits(ms + if w.aborted || choice.Throw? || choice.CallOff? then []
                      else if choice.Return? then [Completed] else [Paused],
                 Continue(w, choice))
  {
    if !d.owner.aborted && !choice.Throw? && !choice.CallOff? {
      Append(ms, if choice.Return? then Completed else Paused);
    }
    assert ms + [] == ms;
  }

  lemma SettlingFits(ms: seq<Mark>, d: Duo, choice: Choice)
    requires d.owner.pc.Settling? && OwnerInv(d) && Fits(ms, d.owner)
    ensures var w := d.owner;
            Fits(ms + if w.aborted || choice.Throw? || choice.CallOff? then [] else [Summarised], Continue(w, choice))
  {
    if !d.owner.aborted && !choice.Throw? && !choice.CallOff? { Append(ms, Summarised); }
    assert ms + [] == ms;
  }

  lemma ContinueFits(ms: seq<Mark>, d: Duo, choice: Choice)
    requires CanContinue(d.owner) && !d.owner.pc.InCall? && !d.owner.pc.Settling? && OwnerInv(d) && Fits(ms, d.owner)
    ensures Fits(ms, Continue(d.owner, choice))
  {
    if d.owner.pc.Got? { ReplyFits(ms, d, choice.Go?); }
  }

  // ------------------------------------------------------------------ over runs

  /** What is known of drain o: its conversation, and whether somebody cancelled it. */
  datatype Past = Past(talk: seq<Mark>, cancelled: bool)

  /** Escape or `cancelTurn`, an input of another session, a check that finds OptChat off, or a cancelled wait. */
  predicate Cancels(s: World, step: Step, o: nat)
    requires Enabled(s, step)
  {
    match step
    case Cancel(_) => s.slot == Some(o)
    case Enter(id) => s.slot == Some(o) && s.running[o].session != s.callers[id].session
    case Advance(owner, choice) => owner == o && CallsOff(s.running[o], choice)
    case _ => false
  }

  predicate CallsOff(w: Owner, choice: Choice) {
    || (choice.CallOff? && (w.pc.Top? || w.pc.Settling? || w.pc.BeforeTake? || w.pc.BeforeBegin? || w.pc.InCall?
                            || w.pc.Injecting?))
    || (w.pc.Got? && w.pc.sent.Status? && w.pc.reply.Info? && !w.pc.reply.on)
  }

  ghost function Later(p: Past, s: World, step: Step, o: nat): Past
    requires Enabled(s, step)
  {
    Past(p.talk + MarkOf(s, step, o), p.cancelled || Cancels(s, step, o))
  }

  ghost function PastOf(p: Past, s: World, run: seq<Step>, o: nat): Past
    requires Feasible(s, run)
    decreases |run|
  {
    if run == [] then p else PastOf(Later(p, s, run[0], o), Apply(s, run[0]), run[1..], o)
  }

  const NEW := Past([], false)

  /** The conversation of drain o, and how it goes with what the state says of the drain. */
  ghost predicate Known(p: Past, s: World, o: nat) {
    && (o !in s.running && o !in s.ended ==> p == NEW)
    && (o in s.running ==> Fits(p.talk, s.running[o]) && (s.running[o].cancelled ==> p.cancelled))
    && (o in s.ended ==> IsTalk(p.talk) && exists refused :: EndsSo(Tip(p.talk), p.cancelled, s.ended[o], refused))
  }

  lemma QuietKnown(p: Past, s: World, step: Step, o: nat)
    requires Inv(s) && Known(p, s, o) && Enabled(s, step)
    requires step.Arrive? || step.Wake? || step.LeaveUnanswered? || step.Switch? || step.HandleSubmit? || step.Settle?
    ensures Known(Later(p, s, step, o), Apply(s, step), o)
  {
    assert p.talk + [] == p.talk;
    if (step.HandleSubmit? || step.Settle?) && step.owner == o {
      var d := Duo(s.server, s.running[o]);
      assert OwnerInv(d);
      SubmitsFit(p.talk, d, step.id, if step.HandleSubmit? then step.fate else OptChatOwner.Answered);
    }
  }

  lemma SubmitsFit(ms: seq<Mark>, d: Duo, id: Id, fate: Fate)
    requires OwnerInv(d) && Fits(ms, d.owner) && id in d.owner.subs
    ensures d.owner.subs[id].Issued? ==>
              var w := ServeSubmit(d, id, fate).owner; Fits(ms, w) && w.cancelled == d.owner.cancelled
    ensures !d.owner.subs[id].Issued? ==>
              var w := SettleSubmit(d.owner, id); Fits(ms, w) && w.cancelled == d.owner.cancelled
  {
    if d.owner.subs[id].Issued? {
      StandsStill(Tip(ms), d.owner, ServeSubmit(d, id, fate).owner);
    } else {
      SettlesFit(Tip(ms), d, id);
    }
  }

  lemma SettlesFit(m: Mark, d: Duo, id: Id)
    requires OwnerInv(d) && Stands(m, d.owner) && id in d.owner.subs && !d.owner.subs[id].Issued?
    ensures Stands(m, SettleSubmit(d.owner, id))
  {
  }

  /** Setting the flags, or adding a submission, leaves a drain where it stands. */
  lemma StandsStill(m: Mark, w: Owner, t: Owner)
    requires Stands(m, w) && t.pc == w.pc && t.unlogged == w.unlogged && (w.cancelled ==> t.cancelled)
    ensures Stands(m, t)
  {
  }

  lemma EnterKnown(p: Past, s: World, step: Step, o: nat)
    requires Inv(s) && Known(p, s, o) && Enabled(s, step) && (step.Enter? || step.Cancel?)
    ensures Known(Later(p, s, step, o), Apply(s, step), o)
  {
    assert p.talk + [] == p.talk;
    var t := Apply(s, step);
    EnterChanges(s, step, o);
    if o in s.running { StandsStill(Tip(p.talk), s.running[o], t.running[o]); }
  }

  lemma EnterChanges(s: World, step: Step, o: nat)
    requires Inv(s) && Enabled(s, step) && (step.Enter? || step.Cancel?)
    ensures var t := Apply(s, step);
            && t.ended == s.ended
            && (o in s.running ==>
                  && o in t.running
                  && t.running[o].pc == s.running[o].pc && t.running[o].unlogged == s.running[o].unlogged
                  && (s.running[o].cancelled ==> t.running[o].cancelled)
                  && (t.running[o].cancelled ==> s.running[o].cancelled || Cancels(s, step, o)))
            && (o !in s.running && o in t.running ==> t.running[o].pc.OwnSubmit? && !t.running[o].cancelled)
            && (o !in s.running && o in t.running ==> o !in s.ended)
  {
    if step.Enter? && s.slot.Some? { PassChanges(s, step.id); }
  }

  lemma PassChanges(s: World, id: Id)
    requires OneDrain(s) && Enabled(s, Enter(id)) && s.slot.Some?
    ensures var o, t := s.slot.value, EnterTurn(s, id);
            var v, w := s.running[o], t.running[o];
            && t.running.Keys == {o} && t.ended == s.ended
            && w.pc == v.pc && w.unlogged == v.unlogged && (v.cancelled ==> w.cancelled)
            && (w.cancelled ==> v.cancelled || v.session != s.callers[id].session)
  {
  }

  lemma OwnKnown(p: Past, s: World, step: Step, o: nat)
    requires Inv(s) && Known(p, s, o) && Enabled(s, step) && (step.HandleCall? || step.Advance?)
    ensures Known(Later(p, s, step, o), Apply(s, step), o)
  {
    assert p.talk + [] == p.talk;
    if step.owner == o {
      var d := Duo(s.server, s.running[o]);
      assert OwnerInv(d);
      match step
      case HandleCall(_, refuse, ready) => ServeFits(p.talk, d, refuse, ready);
      case Advance(_, choice) =>
        AdvanceFits(p.talk, s, o, choice);
        CancelledFrom(d.owner, choice);
    }
  }

  lemma AdvanceFits(ms: seq<Mark>, s: World, o: nat, choice: Choice)
    requires Enabled(s, Advance(o, choice)) && OwnerInv(Duo(s.server, s.running[o])) && Fits(ms, s.running[o])
    ensures Fits(ms + MarkOf(s, Advance(o, choice), o), Continue(s.running[o], choice))
  {
    var d := Duo(s.server, s.running[o]);
    if d.owner.pc.InCall? {
      CallFits(ms, d, choice);
    } else if d.owner.pc.Settling? {
      SettlingFits(ms, d, choice);
    } else {
      ContinueFits(ms, d, choice);
      assert ms + [] == ms;
    }
  }

  lemma CancelledFrom(w: Owner, choice: Choice)
    requires CanContinue(w) && (w.cancelled ==> w.aborted)
    ensures Continue(w, choice).cancelled ==> w.cancelled || CallsOff(w, choice)
  {
  }

  lemma RetireKnown(p: Past, s: World, step: Step, o: nat)
    requires Inv(s) && Known(p, s, o) && Enabled(s, step) && step.Retire?
    ensures Known(Later(p, s, step, o), Apply(s, step), o)
  {
    assert p.talk + [] == p.talk;
    if step.owner == o {
      var pc := s.running[o].pc;
      assert EndsSo(Tip(p.talk), p.cancelled, pc.ok, pc.abortRefused);
    }
  }

  lemma StepKnown(p: Past, s: World, step: Step, o: nat)
    requires Inv(s) && Known(p, s, o) && Enabled(s, step)
    ensures Known(Later(p, s, step, o), Apply(s, step), o)
  {
    if step.HandleCall? || step.Advance? {
      OwnKnown(p, s, step, o);
    } else if step.Enter? || step.Cancel? {
      EnterKnown(p, s, step, o);
    } else if step.Retire? {
      RetireKnown(p, s, step, o);
    } else {
      QuietKnown(p, s, step, o);
    }
  }

  lemma {:induction false} RunKnown(p: Past, s: World, run: seq<Step>, o: nat)
    requires Inv(s) && ReturnsOk(s) && Known(p, s, o) && Feasible(s, run)
    ensures Known(PastOf(p, s, run, o), Exec(s, run), o)
    decreases |run|
  {
    if run != [] {
      StepKeepsInv(s, run[0]);
      StepKeepsReturnsOk(s, run[0]);
      StepKnown(p, s, run[0], o);
      RunKnown(Later(p, s, run[0], o), Apply(s, run[0]), run[1..], o);
    }
  }

  /** In every run the conversation of every drain keeps to the grammar, whatever inputs, refusals and aborts come. */
  lemma DrainsKeepToGrammar(first: World, run: seq<Step>, o: nat)
    requires Initial(first) && Feasible(first, run)
    ensures IsTalk(PastOf(NEW, first, run, o).talk)
  {
    InitialInv(first);
    RunKnown(NEW, first, run, o);
  }

  /**
   A drain whose `done` resolved ended on an empty finish, or was cancelled and its abort and last finish were
   accepted.  One whose `done` rejected ended on an abort: refused, or accepted and followed by a last finish.
   */
  lemma DrainsEndSo(first: World, run: seq<Step>, o: nat)
    requires Initial(first) && Feasible(first, run) && o in Exec(first, run).ended
    ensures var p := PastOf(NEW, first, run, o);
            var m := Tip(p.talk);
            if Exec(first, run).ended[o] then GotNone(m, FinishIdle) || (Fine(m, FinishLast) && p.cancelled)
            else m.Said? && (m.op.FinishLast? || (m.op.Abort? && m.reply.Refused?))
  {
    InitialInv(first);
    RunKnown(NEW, first, run, o);
  }

  // ------------------------------------------------------------------ every logged text is answered

  /** The texts that begin and record have logged since the model last completed an answer. */
  ghost function Owed(ms: seq<Mark>): seq<Id> {
    if ms == [] then []
    else
      var owed, m := Owed(ms[..|ms| - 1]), ms[|ms| - 1];
      if m.Completed? then []
      else if m.Said? && m.op.Begin? && m.reply == Opened(true) then owed + m.sent
      else if Fine(m, Record) && m.sent != [] then owed + [m.sent[0]]
      else owed
  }

  ghost function Count(ms: seq<Mark>, p: Mark -> bool): nat {
    if ms == [] then 0 else Count(ms[..|ms| - 1], p) + if p(ms[|ms| - 1]) then 1 else 0
  }

  predicate IsOpening(m: Mark) { m.Said? && m.op.Begin? && m.reply == Opened(true) }
  predicate IsAnswer(m: Mark) { m.Completed? }
  predicate IsClosing(m: Mark) { Fine(m, FinishTurn) }

  /** The model has been called and has not completed its answer. */
  predicate InAnswer(m: Mark) {
    || IsOpening(m) || m.Paused?
    || (m.Said? && (m.op.Boundary? || m.op.Record?))
  }

  predicate AfterAnswer(m: Mark) {
    m.Completed? || (m.Said? && m.op.Persist?) || (m.Said? && m.op.FinishTurn? && m.reply.Refused?)
  }

  predicate GivenUp(m: Mark) { m.Said? && (m.op.Abort? || m.op.FinishLast?) }

  /** How the last mark decides what is open: whether texts are owed, and the views, answers and finishes so far. */
  predicate Balance(m: Mark, owes: bool, views: nat, answers: nat, ends: nat) {
    && (owes ==> InAnswer(m) || GivenUp(m))
    && ends <= answers <= views <= ends + 1
    && (!GivenUp(m) ==> views == answers + if InAnswer(m) then 1 else 0)
    && (!GivenUp(m) ==> views == ends + if InAnswer(m) || AfterAnswer(m) then 1 else 0)
  }

  lemma NextBalance(m: Mark, next: Mark, owes: bool, views: nat, answers: nat, ends: nat)
    requires Balance(m, owes, views, answers, ends) && Follows(m, next)
    ensures Balance(next, !next.Completed? && (owes || IsOpening(next) || Fine(next, Record)),
                    views + if IsOpening(next) then 1 else 0, answers + if IsAnswer(next) then 1 else 0,
                    ends + if IsClosing(next) then 1 else 0)
  {
  }

  lemma {:induction false} OwedSince(ms: seq<Mark>)
    requires IsTalk(ms)
    ensures Balance(Tip(ms), Owed(ms) != [], Count(ms, IsOpening), Count(ms, IsAnswer), Count(ms, IsClosing))
    decreases |ms|
  {
    if ms != [] {
      var n := |ms| - 1;
      var front := ms[..n];
      assert forall i | 0 <= i < n :: front[..i] == ms[..i];
      OwedSince(front);
      NextBalance(Tip(front), ms[n], Owed(front) != [],
                  Count(front, IsOpening), Count(front, IsAnswer), Count(front, IsClosing));
    }
  }

  /**
   In every run each view a drain opened is answered and then finished before another is opened; and when a drain ends
   on an empty finish, no text that it logged is left without a completed answer of the model.
   */
  lemma EveryOpeningIsAnswered(first: World, run: seq<Step>, o: nat)
    requires Initial(first) && Feasible(first, run)
    ensures var ms := PastOf(NEW, first, run, o).talk;
            && Count(ms, IsClosing) <= Count(ms, IsAnswer) <= Count(ms, IsOpening) <= Count(ms, IsClosing) + 1
            && (GotNone(Tip(ms), FinishIdle) ==>
                  Owed(ms) == [] && Count(ms, IsOpening) == Count(ms, IsAnswer) == Count(ms, IsClosing))
  {
    DrainsKeepToGrammar(first, run, o);
    OwedSince(PastOf(NEW, first, run, o).talk);
  }

  /** Once aborted, a drain asks for nothing new: it can only finish, or hand back what it holds. */
  lemma AbortedAsksNothing(w: Owner, choice: Choice)
    requires CanContinue(w) && w.aborted && Continue(w, choice).pc.Sent?
    ensures var op := Continue(w, choice).pc.op; op.FinishIdle? || op.FinishTurn? || op.Abort? || op.FinishLast?
    ensures Continue(w, choice).aborted
  {
  }

  /** A drain gives up only once aborted, or when a check or the model throws, or for a reply it cannot go on with. */
  lemma GivesUpOnlyFor(w: Owner, choice: Choice)
    requires CanContinue(w) && !w.pc.Unwinding? && Continue(w, choice).pc.Unwinding?
    ensures || w.aborted || choice.Throw? || CallsOff(w, choice)
            || (w.pc.Got? && !(Typed(w.pc.sent, w.pc.reply) && !w.pc.reply.Refused?
                               && (w.pc.sent.Begin? ==> w.pc.reply.ready)
                               && (w.pc.sent.Record? ==> w.unlogged != [])))
  {
  }

  /** Only a refused submission, its own catch block or a cancellation aborts a drain. */
  lemma AbortedOnlyFor(w: Owner, choice: Choice)
    requires CanContinue(w) && Continue(w, choice).aborted
    ensures w.aborted || Continue(w, choice).pc.Unwinding?
  {
  }

  lemma RefusedSubmitAborts(w: Owner, id: Id)
    requires id in w.subs && !w.subs[id].Issued?
    ensures SettleSubmit(w, id).aborted <==> w.aborted || w.subs[id].Refusal?
  {
  }

  // ------------------------------------------------------------------ sessions and outcomes

  /** A drain's submissions come from inputs of its own session. */
  ghost predicate OwnSession(s: World) {
    forall o, id | o in s.running && id in s.running[o].subs ::
      id in s.callers && s.callers[id].session == s.running[o].session
  }

  lemma StepKeepsOwnSession(s: World, step: Step)
    requires OneDrain(s) && OwnSession(s) && Enabled(s, step)
    ensures OwnSession(Apply(s, step))
  {
    var t := Apply(s, step);
    forall o, id | o in t.running && id in t.running[o].subs ensures FromOwn(s, t, o, id) {
      SubmissionsFrom(s, step, o, id);
    }
    FromOwnSession(s, t);
  }

  lemma FromOwnSession(s: World, t: World)
    requires OwnSession(s) && forall o, id | o in t.running && id in t.running[o].subs :: FromOwn(s, t, o, id)
    ensures OwnSession(t)
  {
    forall o, id | o in t.running && id in t.running[o].subs
      ensures id in t.callers && t.callers[id].session == t.running[o].session
    {
      assert FromOwn(s, t, o, id);
    }
  }

  lemma SubmissionsFrom(s: World, step: Step, o: nat, id: Id)
    requires OneDrain(s) && Enabled(s, step)
    requires var t := Apply(s, step); o in t.running && id in t.running[o].subs
    ensures FromOwn(s, Apply(s, step), o, id)
  {
    if step.HandleCall? || step.Advance? {
      OwnFromOwn(s, step, o, id);
    } else if step.HandleSubmit? || step.Settle? {
      SubmitFromOwn(s, step, o, id);
    } else if step.Enter? {
      EnterFromOwn(s, step.id, o, id);
    }
  }

  lemma HandledFromOwn(s: World, o: nat, x: Id, fate: Fate)
    requires Enabled(s, HandleSubmit(o, x, fate))
    ensures var t := Apply(s, HandleSubmit(o, x, fate));
            && t.callers == s.callers && t.running.Keys == s.running.Keys
            && (forall p | p in s.running && p != o :: t.running[p] == s.running[p])
            && t.running[o].session == s.running[o].session && t.running[o].subs.Keys == s.running[o].subs.Keys
  {
  }

  lemma SettledFromOwn(s: World, o: nat, x: Id)
    requires Enabled(s, Settle(o, x))
    ensures var t := SettleFor(s, o, x);
            && t.callers.Keys == s.callers.Keys && t.running.Keys == s.running.Keys
            && (forall y | y in s.callers :: t.callers[y].session == s.callers[y].session)
            && (forall p | p in s.running && p != o :: t.running[p] == s.running[p])
            && t.running[o].session == s.running[o].session && t.running[o].subs.Keys <= s.running[o].subs.Keys
  {
    SettleKeepsSession(s.running[o], x);
  }

  lemma SettleKeepsSession(w: Owner, id: Id)
    requires id in w.subs && !w.subs[id].Issued?
    ensures SettleSubmit(w, id).session == w.session && SettleSubmit(w, id).subs == w.subs - {id}
  {
  }

  lemma SubmitFromOwn(s: World, step: Step, o: nat, id: Id)
    requires Enabled(s, step) && (step.HandleSubmit? || step.Settle?)
    requires var t := Apply(s, step); o in t.running && id in t.running[o].subs
    ensures FromOwn(s, Apply(s, step), o, id)
  {
    if step.HandleSubmit? {
      HandledFromOwn(s, step.owner, step.id, step.fate);
    } else {
      SettledFromOwn(s, step.owner, step.id);
    }
  }

  /** The drain's own steps leave its session and its submissions alone. */
  lemma OwnFromOwn(s: World, step: Step, o: nat, id: Id)
    requires Enabled(s, step) && (step.HandleCall? || step.Advance?)
    requires var t := Apply(s, step); o in t.running && id in t.running[o].subs
    ensures FromOwn(s, Apply(s, step), o, id)
  {
    match step
    case HandleCall(owner, refuse, ready) => ServeKeepsSession(Duo(s.server, s.running[owner]), refuse, ready);
    case Advance(owner, choice) => ContinueKeepsSession(s.running[owner], choice);
  }

  lemma ServeKeepsSession(d: Duo, refuse: bool, ready: bool)
    requires d.owner.pc.Sent?
    ensures var w := Serve(d, refuse, ready).owner; w.session == d.owner.session && w.subs == d.owner.subs
  {
  }

  lemma ContinueKeepsSession(w: Owner, choice: Choice)
    requires CanContinue(w)
    ensures Continue(w, choice).session == w.session && Continue(w, choice).subs == w.subs
  {
  }

  /** A submission was there before, or is a new one of the drain's own session. */
  ghost predicate FromOwn(s: World, t: World, o: nat, id: Id)
    requires o in t.running && id in t.running[o].subs
  {
    if o in s.running && id in s.running[o].subs then
      && t.running[o].session == s.running[o].session
      && (id in s.callers ==> id in t.callers && t.callers[id].session == s.callers[id].session)
    else id in t.callers && t.callers[id].session == t.running[o].session
  }

  lemma EnterFromOwn(s: World, x: Id, o: nat, id: Id)
    requires OneDrain(s) && Enabled(s, Enter(x))
    requires var t := EnterTurn(s, x); o in t.running && id in t.running[o].subs
    ensures FromOwn(s, EnterTurn(s, x), o, id)
  {
    if s.slot.Some? { PassFromOwn(s, x, o, id); }
  }

  lemma PassFromOwn(s: World, x: Id, o: nat, id: Id)
    requires OneDrain(s) && Enabled(s, Enter(x)) && s.slot.Some?
    requires var t := EnterTurn(s, x); o in t.running && id in t.running[o].subs
    ensures var t := EnterTurn(s, x);
            && o == s.slot.value && o in s.running && t.running[o].session == s.running[o].session
            && (id in s.running[o].subs || (id == x && s.callers[x].session == s.running[o].session))
            && t.callers.Keys == s.callers.Keys
            && forall y | y in s.callers :: t.callers[y].session == s.callers[y].session
  {
  }

  lemma {:induction false} RunKeepsOwnSession(s: World, run: seq<Step>)
    requires Inv(s) && ReturnsOk(s) && OwnSession(s) && Feasible(s, run)
    ensures OwnSession(Exec(s, run))
    decreases |run|
  {
    if run != [] {
      StepKeepsInv(s, run[0]);
      StepKeepsReturnsOk(s, run[0]);
      StepKeepsOwnSession(s, run[0]);
      RunKeepsOwnSession(Apply(s, run[0]), run[1..]);
    }
  }

  /** No drain is ever given a text of another session than its own. */
  lemma DrainsServeOneSession(first: World, run: seq<Step>, o: nat, id: Id)
    requires Initial(first) && Feasible(first, run)
    requires o in Exec(first, run).running && id in Exec(first, run).running[o].subs
    ensures var s := Exec(first, run); id in s.callers && s.callers[id].session == s.running[o].session
  {
    InitialInv(first);
    RunKeepsOwnSession(first, run);
  }

  datatype Verdict = Waiting | Good | Bad

  /** What a step decides for an input: its submit was refused, or the drain it waited for ended. */
  ghost function Decides(s: World, step: Step, id: Id): Verdict
    requires Enabled(s, step)
  {
    match step
    case Wake(x) =>
      if x != id then Waiting
      else if !s.ended[s.callers[id].at.owner] then Bad
      else if s.callers[id].at.last then Good
      else Waiting
    case Settle(o, x) =>
      if x == id && s.callers[id].at == Submitting(o) && s.running[o].subs[id].Refusal? then Bad else Waiting
    case _ => Waiting
  }

  ghost function Decided(s: World, run: seq<Step>, id: Id): Verdict
    requires Feasible(s, run)
    decreases |run|
  {
    if run == [] then Waiting
    else
      var now := Decides(s, run[0], id);
      if now.Waiting? then Decided(Apply(s, run[0]), run[1..], id) else now
  }

  ghost function VerdictOn(s: World, id: Id): Verdict {
    if id !in s.callers then Waiting
    else if s.callers[id].at.Returned? then Good
    else if s.callers[id].at.Failed? then Bad
    else Waiting
  }

  lemma StepDecides(s: World, step: Step, id: Id)
    requires Inv(s) && Enabled(s, step)
    ensures VerdictOn(Apply(s, step), id)
            == if VerdictOn(s, id).Waiting? then Decides(s, step, id) else VerdictOn(s, id)
  {
    if step.Enter? {
      EnterDecidesNothing(s, step.id, id);
    } else if !step.Wake? && !step.Settle? {
      OthersDecideNothing(s, step, id);
    }
  }

  lemma EnterDecidesNothing(s: World, x: Id, id: Id)
    requires Enabled(s, Enter(x))
    ensures VerdictOn(EnterTurn(s, x), id) == VerdictOn(s, id)
  {
  }

  lemma OthersDecideNothing(s: World, step: Step, id: Id)
    requires Enabled(s, step) && !step.Enter? && !step.Wake? && !step.Settle?
    ensures VerdictOn(Apply(s, step), id) == VerdictOn(s, id)
  {
  }

  lemma {:induction false} RunDecides(s: World, run: seq<Step>, id: Id)
    requires Inv(s) && ReturnsOk(s) && Feasible(s, run)
    ensures VerdictOn(Exec(s, run), id) == if VerdictOn(s, id).Waiting? then Decided(s, run, id) else VerdictOn(s, id)
    decreases |run|
  {
    if run != [] {
      StepKeepsInv(s, run[0]);
      StepKeepsReturnsOk(s, run[0]);
      StepDecides(s, run[0], id);
      RunDecides(Apply(s, run[0]), run[1..], id);
    }
  }

  /**
   `runTurn` throws exactly when the submit of the input was refused or a drain it waited for rejected; it returns
   exactly when the drain that has its text ended well.
   */
  lemma InputsEndSo(first: World, run: seq<Step>, id: Id)
    requires Initial(first) && Feasible(first, run) && id in Exec(first, run).callers
    ensures var at := Exec(first, run).callers[id].at;
            (at.Failed? <==> Decided(first, run, id).Bad?) && (at.Returned? <==> Decided(first, run, id).Good?)
  {
    InitialInv(first);
    RunDecides(first, run, id);
  }
}
