/**
 Runs in which the client can miss the reply to a call the server handled: its deadline passes and it continues as if
 the call had been refused.

 A text is lost when the reply that hands it to the drain is lost, and copied when the drain hands back a text whose
 logging it did not learn of.  What happens to it later cannot undo either.
 */
module OptChatLost {
  import opened Prelude
  import opened Occurrences
  import opened OptChatOwner
  import opened OptChatTurn

  /** A step of OptChatTurn, or the handling of a call whose reply is lost. */
  datatype Event = Plain(step: Step) | ReplyLostTo(owner: nat, ready: bool)

  predicate Possible(s: World, e: Event) {
    match e
    case Plain(step) => Enabled(s, step)
    case ReplyLostTo(o, ready) => Enabled(s, HandleCall(o, true, ready))
  }

  function Next(s: World, e: Event): World
    requires Possible(s, e)
  {
    match e
    case Plain(step) => Apply(s, step)
    case ReplyLostTo(o, ready) =>
      var d := ServeTimedOut(Duo(s.server, s.running[o]), ready);
      s.(server := d.server, running := s.running[o := d.owner])
  }

  ghost predicate CanRun(s: World, events: seq<Event>)
    decreases |events|
  {
    events == [] || (Possible(s, events[0]) && CanRun(Next(s, events[0]), events[1..]))
  }

  ghost function After(s: World, events: seq<Event>): World
    requires CanRun(s, events)
    decreases |events|
  {
    if events == [] then s else After(Next(s, events[0]), events[1..])
  }

  /** Each lost reply of the run was harmless: the server moved no text that the owner asked for or holds. */
  predicate HarmlessEvent(s: World, e: Event)
    requires Possible(s, e)
  {
    e.ReplyLostTo? ==> Harmless(Duo(s.server, s.running[e.owner]), e.ready)
  }

  ghost predicate AllHarmless(s: World, events: seq<Event>)
    requires CanRun(s, events)
    decreases |events|
  {
    events == [] || (HarmlessEvent(s, events[0]) && AllHarmless(Next(s, events[0]), events[1..]))
  }

  // ------------------------------------------------------------------ what every such run keeps

  /** A queued text is nowhere else, and a text nobody submitted is nowhere. */
  ghost predicate QueuedOnce(s: World) {
    && (forall x | x in s.server.pending :: AllPlaces(s, x) == 1)
    && (forall x | x !in s.submitted :: AllPlaces(s, x) == 0)
  }

  ghost predicate Keeps(s: World) {
    OneDrain(s) && OwnersOk(s) && CallersOk(s) && SubmitsOk(s) && QueuedOnce(s)
  }

  /** The text has been lost or copied. */
  ghost predicate Off(s: World, x: Id) { AllPlaces(s, x) != Times(s.submitted, x) }

  ghost predicate AnyOff(s: World) { exists x :: Off(s, x) }

  /** Only an accepted submit queues a text. */
  lemma StepQueues(s: World, step: Step, x: Id)
    requires SubmitsOk(s) && Enabled(s, step)
    ensures var t := Apply(s, step);
            && (x in s.submitted ==> x in t.submitted && Times(t.submitted, x) == Times(s.submitted, x))
            && (x !in s.submitted && x in t.submitted ==> Times(t.submitted, x) == Times(s.submitted, x) + 1)
            && (x in t.server.pending ==> x in s.server.pending || (x !in s.submitted && x in t.submitted))
  {
  }

  lemma PlainKeeps(s: World, step: Step)
    requires Keeps(s) && Enabled(s, step)
    ensures Keeps(Apply(s, step))
  {
    StepKeepsOneDrain(s, step);
    StepKeepsOwnersOk(s, step);
    StepKeepsCallersOk(s, step);
    StepKeepsSubmitsOk(s, step);
    var t := Apply(s, step);
    forall x ensures (x in t.server.pending ==> AllPlaces(t, x) == 1) && (x !in t.submitted ==> AllPlaces(t, x) == 0) {
      StepQueues(s, step, x);
      StepMovesTexts(s, step, x);
      TimesMember(s.submitted, x);
      TimesMember(t.submitted, x);
      TimesMember(s.server.pending, x);
    }
  }

  /** The lost reply of OptChatOwner, seen over all the places. */
  lemma LostMoves(s: World, o: nat, ready: bool, x: Id)
    requires Keeps(s) && Possible(s, ReplyLostTo(o, ready))
    ensures var t := Next(s, ReplyLostTo(o, ready));
            && (x in t.server.pending ==> x in s.server.pending && AllPlaces(t, x) == AllPlaces(s, x))
            && (x !in s.submitted ==> AllPlaces(t, x) == 0)
            && (Off(s, x) ==> Off(t, x))
  {
    TimedOutMoves(Duo(s.server, s.running[o]), ready, x);
    TimesMember(s.server.pending, x);
    TimesMember(s.submitted, x);
    TimesMember(s.running[o].unlogged, x);
  }

  lemma LostKeepsCallers(s: World, o: nat, ready: bool)
    requires Keeps(s) && Possible(s, ReplyLostTo(o, ready))
    ensures var t := Next(s, ReplyLostTo(o, ready)); OneDrain(t) && OwnersOk(t) && CallersOk(t) && SubmitsOk(t)
  {
    var d := Duo(s.server, s.running[o]);
    TimedOutKeepsOwnerInv(d, ready);
    SameSubsKeepCallersOk(s, o, ServeTimedOut(d, ready).owner, ServeTimedOut(d, ready).server);
    SameSubsKeepSubmitsOk(s, o, ServeTimedOut(d, ready).owner, ServeTimedOut(d, ready).server);
  }

  lemma LostKeeps(s: World, o: nat, ready: bool)
    requires Keeps(s) && Possible(s, ReplyLostTo(o, ready))
    ensures Keeps(Next(s, ReplyLostTo(o, ready)))
  {
    LostKeepsCallers(s, o, ready);
    forall x ensures var t := Next(s, ReplyLostTo(o, ready));
                     (x in t.server.pending ==> AllPlaces(t, x) == 1) && (x !in t.submitted ==> AllPlaces(t, x) == 0) {
      LostMoves(s, o, ready, x);
    }
  }

  lemma NextKeeps(s: World, e: Event)
    requires Keeps(s) && Possible(s, e)
    ensures Keeps(Next(s, e))
  {
    match e
    case Plain(step) => PlainKeeps(s, step);
    case ReplyLostTo(o, ready) => LostKeeps(s, o, ready);
  }

  lemma LostPlaces(s: World, o: nat, ready: bool, x: Id)
    requires OneDrain(s) && Possible(s, ReplyLostTo(o, ready))
    ensures var d, t := Duo(s.server, s.running[o]), Next(s, ReplyLostTo(o, ready));
            && AllPlaces(t, x) - AllPlaces(s, x) == Places(ServeTimedOut(d, ready), x) - Places(d, x)
            && t.submitted == s.submitted
  {
  }

  /** A harmful lost reply loses or copies a text; nothing brings it back or takes the copy away. */
  lemma LostOffIff(s: World, o: nat, ready: bool)
    requires Keeps(s) && Possible(s, ReplyLostTo(o, ready))
    ensures var e := ReplyLostTo(o, ready); AnyOff(Next(s, e)) <==> AnyOff(s) || !HarmlessEvent(s, e)
  {
    var d, t := Duo(s.server, s.running[o]), Next(s, ReplyLostTo(o, ready));
    TimedOutReply(d, ready);
    forall x ensures Off(s, x) ==> Off(t, x) { LostMoves(s, o, ready, x); }
    if Harmless(d, ready) {
      forall x ensures Off(t, x) ==> Off(s, x) { LostPlaces(s, o, ready, x); }
    } else {
      var x :| Places(ServeTimedOut(d, ready), x) != Places(d, x);
      LostPlaces(s, o, ready, x);
      assert Off(s, x) || Off(t, x);
    }
  }

  lemma NextOffIff(s: World, e: Event)
    requires Keeps(s) && Possible(s, e)
    ensures AnyOff(Next(s, e)) <==> AnyOff(s) || !HarmlessEvent(s, e)
  {
    match e
    case Plain(step) =>
      forall x ensures Off(Apply(s, step), x) <==> Off(s, x) { StepMovesTexts(s, step, x); }
    case ReplyLostTo(o, ready) => LostOffIff(s, o, ready);
  }

  lemma {:induction false} RunOffIff(s: World, events: seq<Event>)
    requires Keeps(s) && CanRun(s, events)
    ensures Keeps(After(s, events))
    ensures AnyOff(After(s, events)) <==> AnyOff(s) || !AllHarmless(s, events)
    decreases |events|
  {
    if events != [] {
      NextKeeps(s, events[0]);
      NextOffIff(s, events[0]);
      RunOffIff(Next(s, events[0]), events[1..]);
    }
  }

  /**
   Every submitted text is in exactly one place after a run, and no other text is anywhere, exactly when each reply
   that was lost on the way was harmless.
   */
  lemma ConservedIffHarmless(first: World, events: seq<Event>)
    requires Initial(first) && CanRun(first, events)
    ensures var s := After(first, events);
            (forall x :: AllPlaces(s, x) == if x in s.submitted then 1 else 0) <==> AllHarmless(first, events)
  {
    InitialInv(first);
    RunOffIff(first, events);
    var s := After(first, events);
    forall x ensures Off(s, x) <==> AllPlaces(s, x) != if x in s.submitted then 1 else 0 {
      TimesMember(s.submitted, x);
    }
  }
}
