/** Whatever has happened, a running drain can be brought to its end: nothing it waits for waits for it. */
module OptChatEnds {
  import opened Prelude
  import opened OptChatOwner
  import opened OptChatTurn

  /** How far a drain is from its end when every check throws and every request is refused. */
  function Distance(pc: Pc): nat {
    match pc
    case Ended(_, _) => 0
    case Got(op, reply) =>
      if op.FinishLast? then 1 else if op.Abort? then 3 else if reply.Refused? then 8
      else if op.Persist? then 10 else 11
    case Sent(op) => if op.FinishLast? then 2 else if op.Abort? then 4 else 9
    case Unwinding => 5
    case Injecting => 7
    case WaitSubs => 10
    case OwnSubmit => 12
    case _ => 6
  }

  function Issues(subs: map<Id, Stage>): set<Id> { set id | id in subs && subs[id].Issued? }

  /** The submissions still to be handled and to settle. */
  function Pending(subs: map<Id, Stage>): nat { |subs.Keys| + |Issues(subs)| }

  /** The drain waits for its submissions, or for its own. */
  predicate Waits(w: Owner) { w.pc.OwnSubmit? || ((w.pc.Unwinding? || w.pc.WaitSubs?) && w.subs != map[]) }

  ghost function SubToEnd(w: Owner): Id
    requires w.subs != map[] && (w.pc.OwnSubmit? ==> w.first in w.subs)
  {
    if w.pc.OwnSubmit? then w.first
    else
      assert w.subs.Keys != {};
      var id :| id in w.subs.Keys;
      id
  }

  /** A step that brings drain o nearer to its end. */
  ghost function Onward(s: World, o: nat): Step
    requires o in s.running && (s.running[o].pc.OwnSubmit? ==> s.running[o].first in s.running[o].subs)
  {
    var w := s.running[o];
    if Waits(w) then
      var id := SubToEnd(w);
      if w.subs[id].Issued? then HandleSubmit(o, id, Declined) else Settle(o, id)
    else if w.pc.Sent? then HandleCall(o, true, false)
    else Advance(o, Throw)
  }

  lemma SubHandled(w: Owner, id: Id)
    requires id in w.subs && w.subs[id].Issued?
    ensures Pending(w.subs[id := Refusal]) < Pending(w.subs)
  {
    var t := w.subs[id := Refusal];
    assert t.Keys == w.subs.Keys;
    assert Issues(t) == Issues(w.subs) - {id};
    assert |Issues(t)| == |Issues(w.subs)| - 1;
  }

  lemma SubSettled(w: Owner, id: Id)
    requires id in w.subs && !w.subs[id].Issued?
    ensures Pending(w.subs - {id}) < Pending(w.subs)
  {
    var t := w.subs - {id};
    assert t.Keys == w.subs.Keys - {id};
    assert |t.Keys| == |w.subs.Keys| - 1;
    assert Issues(t) == Issues(w.subs);
  }

  predicate Nearer(v: Owner, w: Owner) {
    || Distance(v.pc) < Distance(w.pc)
    || (Distance(v.pc) == Distance(w.pc) && Pending(v.subs) < Pending(w.subs))
  }

  lemma SubmitIsNearer(d: Duo, id: Id)
    requires OwnerInv(d) && id in d.owner.subs && Waits(d.owner) && (d.owner.pc.OwnSubmit? ==> id == d.owner.first)
    ensures d.owner.subs[id].Issued? ==> Nearer(ServeSubmit(d, id, Declined).owner, d.owner)
    ensures !d.owner.subs[id].Issued? ==> Nearer(SettleSubmit(d.owner, id), d.owner)
  {
    if d.owner.subs[id].Issued? { SubHandled(d.owner, id); } else { SubSettled(d.owner, id); }
  }

  lemma AdvanceIsNearer(d: Duo)
    requires OwnerInv(d) && !Waits(d.owner) && !d.owner.pc.Sent? && !d.owner.pc.Ended?
    ensures CanContinue(d.owner) && Nearer(Continue(d.owner, Throw), d.owner)
  {
  }

  lemma OnwardIsNearer(s: World, o: nat)
    requires Inv(s) && o in s.running && !s.running[o].pc.Ended? && OwnerInv(Duo(s.server, s.running[o]))
    ensures var step := Onward(s, o);
            Enabled(s, step) && o in Apply(s, step).running && Nearer(Apply(s, step).running[o], s.running[o])
  {
    if Waits(s.running[o]) {
      WaitingIsNearer(s, o, SubToEnd(s.running[o]));
    } else if s.running[o].pc.Sent? {
      RefusalIsNearer(s, o);
    } else {
      AdvanceIsNearer(Duo(s.server, s.running[o]));
    }
  }

  lemma RefusalIsNearer(s: World, o: nat)
    requires Inv(s) && o in s.running && s.running[o].pc.Sent?
    ensures var step := HandleCall(o, true, false);
            Enabled(s, step) && o in Apply(s, step).running && Nearer(Apply(s, step).running[o], s.running[o])
  {
  }

  lemma WaitingIsNearer(s: World, o: nat, id: Id)
    requires Inv(s) && o in s.running && OwnerInv(Duo(s.server, s.running[o]))
    requires id in s.running[o].subs && Waits(s.running[o])
    requires s.running[o].pc.OwnSubmit? ==> id == s.running[o].first
    ensures var step := if s.running[o].subs[id].Issued? then HandleSubmit(o, id, Declined) else Settle(o, id);
            Enabled(s, step) && o in Apply(s, step).running && Nearer(Apply(s, step).running[o], s.running[o])
  {
    SubmitIsNearer(Duo(s.server, s.running[o]), id);
    if s.running[o].subs[id].Issued? {
      HandledOwner(s, o, id);
    } else {
      SettledOwner(s, o, id);
    }
  }

  lemma HandledOwner(s: World, o: nat, id: Id)
    requires OneDrain(s) && o in s.running && id in s.running[o].subs && s.running[o].subs[id].Issued?
    ensures var step := HandleSubmit(o, id, Declined);
            Enabled(s, step) && o in Apply(s, step).running
            && Apply(s, step).running[o] == ServeSubmit(Duo(s.server, s.running[o]), id, Declined).owner
  {
  }

  lemma SettledOwner(s: World, o: nat, id: Id)
    requires OneDrain(s) && CallersOk(s) && o in s.running && id in s.running[o].subs
    requires !s.running[o].subs[id].Issued?
    ensures Enabled(s, Settle(o, id)) && o in SettleFor(s, o, id).running
            && SettleFor(s, o, id).running[o] == SettleSubmit(s.running[o], id)
  {
  }

  ghost predicate CanEnd(s: World, o: nat) {
    exists run :: Feasible(s, run) && o in Exec(s, run).running && Exec(s, run).running[o].pc.Ended?
  }

  lemma StepCanEnd(s: World, step: Step, t: World, o: nat)
    requires Enabled(s, step) && t == Apply(s, step) && CanEnd(t, o)
    ensures CanEnd(s, o)
  {
    var rest :| Feasible(t, rest) && o in Exec(t, rest).running && Exec(t, rest).running[o].pc.Ended?;
    var run := [step] + rest;
    assert run[0] == step && run[1..] == rest;
    assert Feasible(s, run) && Exec(s, run) == Exec(t, rest);
  }

  /** From every state that keeps the invariant some run ends the drain, so no awaited `done` is out of reach. */
  lemma {:induction false} DrainsCanAlwaysEnd(s: World, o: nat)
    requires Inv(s) && o in s.running
    ensures CanEnd(s, o)
    decreases Distance(s.running[o].pc), Pending(s.running[o].subs)
  {
    if s.running[o].pc.Ended? {
      assert Feasible(s, []) && Exec(s, []) == s;
    } else {
      assert OwnerInv(Duo(s.server, s.running[o]));
      OnwardIsNearer(s, o);
      var step := Onward(s, o);
      var t := Apply(s, step);
      StepKeepsInv(s, step);
      DrainsCanAlwaysEnd(t, o);
      StepCanEnd(s, step, t, o);
    }
  }
}
