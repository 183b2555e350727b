/**
 Which line answers a call: the first complete line that its child wrote after the call was sent and that carries the
 call's id.

 The lines are those of everything the child wrote while it was current, however it was cut into chunks; the ones it
 had completed when the call was sent do not count, and a call that failed before is not answered at all.
 */
module RpcAnswers {
  import opened Prelude
  import opened LineFraming
  import opened RpcClient

  /** The first of these lines that carries the id. */
  function First(idOf: string -> Option<Id>, lines: seq<string>, id: Id): Option<string> {
    if lines == [] then None
    else
      var earlier, last := First(idOf, lines[..|lines| - 1], id), lines[|lines| - 1];
      if earlier.Some? then earlier else if idOf(last) == Some(id) then Some(last) else None
  }

  lemma {:induction false} FirstConcat(idOf: string -> Option<Id>, a: seq<string>, b: seq<string>, id: Id)
    ensures First(idOf, a + b, id) == if First(idOf, a, id).Some? then First(idOf, a, id) else First(idOf, b, id)
  {
    if b == [] {
      assert a + b == a;
    } else {
      assert (a + b)[..|a + b| - 1] == a + b[..|b| - 1];
      FirstConcat(idOf, a, b[..|b| - 1], id);
    }
  }

  /** Where a call stands: the child it waits on, and how it was settled. */
  function Standing(s: State, id: Id): (Option<Proc>, Option<Outcome>) {
    (if id in s.pending then Some(s.pending[id]) else None, if id in s.settled then Some(s.settled[id]) else None)
  }

  /** The first line with its id settles a call that waits on this child; nothing else changes where a call stands. */
  lemma {:induction false} LinesAnswer(idOf: string -> Option<Id>, s: State, proc: Proc, lines: seq<string>, id: Id)
    ensures var first := First(idOf, lines, id);
            Standing(HandleLines(idOf, s, proc, lines), id)
            == if id in s.pending && s.pending[id] == proc && first.Some? then (None, Some(Answer(proc, first.value)))
               else Standing(s, id)
  {
    if lines != [] { LinesAnswer(idOf, s, proc, lines[..|lines| - 1], id); }
  }

  lemma {:induction false} LinesKeepRest(idOf: string -> Option<Id>, s: State, proc: Proc, lines: seq<string>)
    ensures var t := HandleLines(idOf, s, proc, lines); t.procs == s.procs && t.issued == s.issued
  {
    if lines != [] { LinesKeepRest(idOf, s, proc, lines[..|lines| - 1]); }
  }

  /** The lines that the child of a call has completed since the mark. */
  function Seen(s: State, id: Id, mark: nat): Option<seq<string>> {
    if id in s.issued && s.issued[id].Some? && s.issued[id].value < |s.procs|
       && mark <= |Lines(s.procs[s.issued[id].value].output)|
    then Some(Lines(s.procs[s.issued[id].value].output)[mark..])
    else None
  }

  /** A call that was sent is answered by the first of these lines with its id, and waits only while there is none. */
  predicate AnsweredByFirst(idOf: string -> Option<Id>, s: State, id: Id, mark: nat) {
    id in s.issued && s.issued[id].Some? ==>
      var seen := Seen(s, id, mark);
      && seen.Some?
      && (id in s.pending ==> First(idOf, seen.value, id) == None)
      && (id in s.settled && s.settled[id].Answer? ==> First(idOf, seen.value, id) == Some(s.settled[id].line))
  }

  /** A chunk completes some lines behind those seen before. */
  lemma ChunkFirst(idOf: string -> Option<Id>, out: string, chunk: string, mark: nat, id: Id)
    requires mark <= |Lines(out)|
    ensures var before, added := First(idOf, Lines(out)[mark..], id), First(idOf, Lines(Rest(out) + chunk), id);
            && mark <= |Lines(out + chunk)|
            && First(idOf, Lines(out + chunk)[mark..], id) == if before.Some? then before else added
  {
    SplitChunk(out, chunk);
    assert Lines(out + chunk)[mark..] == Lines(out)[mark..] + Lines(Rest(out) + chunk);
    FirstConcat(idOf, Lines(out)[mark..], Lines(Rest(out) + chunk), id);
  }

  /** Nothing that concerns this call happened, except that it may have failed. */
  predicate QuietFor(s: State, t: State, id: Id) {
    && (id in s.issued ==> id in t.issued && t.issued[id] == s.issued[id])
    && (id in s.issued && s.issued[id].Some? && s.issued[id].value < |s.procs| ==>
          s.issued[id].value < |t.procs| && t.procs[s.issued[id].value].output == s.procs[s.issued[id].value].output)
    && (id in t.pending ==> id in s.pending)
    && (id in t.settled && t.settled[id].Answer? ==> id in s.settled && s.settled[id] == t.settled[id])
  }

  lemma QuietKeepsFirst(idOf: string -> Option<Id>, s: State, t: State, id: Id, mark: nat)
    requires QuietFor(s, t, id) && id in s.issued && AnsweredByFirst(idOf, s, id, mark)
    ensures AnsweredByFirst(idOf, t, id, mark)
  {
  }

  lemma DataAnswers(idOf: string -> Option<Id>, s: State, proc: Proc, chunk: string, id: Id, mark: nat)
    requires proc < |s.procs| && s.child == Some(proc) && s.procs[proc].buffer == Rest(s.procs[proc].output)
    requires id in s.issued && s.issued[id] == Some(proc)
    requires id in s.pending ==> s.pending[id] == proc && id !in s.settled
    requires AnsweredByFirst(idOf, s, id, mark)
    ensures AnsweredByFirst(idOf, OnData(idOf, s, proc, chunk), id, mark)
  {
    var out := s.procs[proc].output;
    var r, lines := Receive(s, proc, chunk), Lines(Rest(out) + chunk);
    LinesKeepRest(idOf, r, proc, lines);
    LinesAnswer(idOf, r, proc, lines, id);
    ChunkFirst(idOf, out, chunk, mark, id);
    var t := OnData(idOf, s, proc, chunk);
    assert t == HandleLines(idOf, r, proc, lines);
    assert Seen(t, id, mark) == Some(Lines(out + chunk)[mark..]);
  }

  lemma CallIsQuiet(s: State, other: Id, broken: bool, id: Id)
    requires id != other
    ensures QuietFor(s, CallOn(s, other, broken), id)
  {
  }

  /** Any other event completes no line of output, and settles calls only as failed. */
  lemma OtherIsQuiet(idOf: string -> Option<Id>, s: State, e: Event, id: Id)
    requires Possible(s, e) && (e.Call? ==> e.id != id) && (e.Data? ==> s.child != Some(e.proc))
    ensures QuietFor(s, Step(idOf, s, e), id)
  {
    if e.Call? { CallIsQuiet(s, e.id, e.broken, id); }
  }

  /** How many lines its child had completed when the call was sent. */
  function MarkOf(idOf: string -> Option<Id>, events: seq<Event>, id: Id): nat
    requires Ran(idOf, events).Some?
  {
    if events == [] then 0
    else
      var s, last := Ran(idOf, events).value, events[|events| - 1];
      if last.Call? && last.id == id && s.issued[id].Some? && s.issued[id].value < |s.procs|
      then |Lines(s.procs[s.issued[id].value].output)|
      else MarkOf(idOf, events[..|events| - 1], id)
  }

  lemma CallStartsFirst(idOf: string -> Option<Id>, s: State, id: Id, broken: bool)
    requires EachOnce(s) && id !in s.issued
    ensures var t := CallOn(s, id, broken);
            t.issued[id].Some? ==>
              && t.issued[id].value < |t.procs|
              && AnsweredByFirst(idOf, t, id, |Lines(t.procs[t.issued[id].value].output)|)
  {
    assert id !in s.pending.Keys + s.settled.Keys;
    var t := CallOn(s, id, broken);
    if t.issued[id].Some? {
      var all := Lines(t.procs[t.issued[id].value].output);
      assert all[|all|..] == [];
      assert id in t.settled ==> t.settled[id].Failed?;
    }
  }

  lemma StepKeepsFirst(idOf: string -> Option<Id>, s: State, e: Event, id: Id, mark: nat)
    requires Inv(idOf, s) && AnsweredByFirst(idOf, s, id, mark) && Possible(s, e) && id in s.issued
    ensures AnsweredByFirst(idOf, Step(idOf, s, e), id, mark)
  {
    if e.Data? && s.child == Some(e.proc) && s.issued[id] == Some(e.proc) {
      assert id in s.pending ==> id !in s.settled.Keys;
      DataAnswers(idOf, s, e.proc, e.chunk, id, mark);
    } else {
      if e.Data? && s.child == Some(e.proc) {
        var r, lines := Receive(s, e.proc, e.chunk), Lines(s.procs[e.proc].buffer + e.chunk);
        LinesKeepRest(idOf, r, e.proc, lines);
        LinesAnswer(idOf, r, e.proc, lines, id);
      } else {
        OtherIsQuiet(idOf, s, e, id);
      }
      QuietKeepsFirst(idOf, s, Step(idOf, s, e), id, mark);
    }
  }

  lemma OnlyCallIssues(idOf: string -> Option<Id>, s: State, e: Event, id: Id)
    requires Possible(s, e) && id !in s.issued && (e.Call? ==> e.id != id)
    ensures id !in Step(idOf, s, e).issued
  {
    if e.Data? && s.child == Some(e.proc) {
      LinesKeepRest(idOf, Receive(s, e.proc, e.chunk), e.proc, Lines(s.procs[e.proc].buffer + e.chunk));
    }
  }

  /**
   In every run a call that was sent is answered by the first complete line that its child wrote since and that carries
   its id; it waits only while there is no such line, and without one it can only fail.
   */
  lemma {:induction false} FirstLineAnswers(idOf: string -> Option<Id>, events: seq<Event>, id: Id)
    requires Ran(idOf, events).Some?
    ensures AnsweredByFirst(idOf, Ran(idOf, events).value, id, MarkOf(idOf, events, id))
  {
    if events != [] {
      var front, last := events[..|events| - 1], events[|events| - 1];
      var s := Ran(idOf, front).value;
      RunKeeps(idOf, front);
      FirstLineAnswers(idOf, front, id);
      if last.Call? && last.id == id {
        CallStartsFirst(idOf, s, id, last.broken);
      } else if id in s.issued {
        StepKeepsFirst(idOf, s, last, id, MarkOf(idOf, front, id));
      } else {
        OnlyCallIssues(idOf, s, last, id);
      }
    }
  }
}
