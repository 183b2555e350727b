/**
 Which drops reach the file.  A pass over the drop table writes what was counted before it took the table over; so the
 last time a table was taken over divides the drops that are written from those that never are.
 */
module CaptureDrops {
  import opened DropLedger
  import opened CaptureQueue

  /** What had been counted when the drop table was last taken over. */
  datatype Mark = Mark(drops: nat, projections: nat)

  /** The writer before `_closed`, or close() itself, takes the table over. */
  predicate TakesTable(s: State, step: Step) {
    (step.ByWriter? && step.write.WriterSwapStep? && !Closed(s)) || (step.ByClose? && step.close.CloserSwapStep?)
  }

  ghost function MarkAfter(s: State, run: seq<Step>, mark: Mark): Mark
    requires Feasible(s, run)
    decreases |run|
  {
    if run == [] then mark
    else MarkAfter(Apply(s, run[0]), run[1..], NextMark(s, run[0], mark))
  }

  /** How often a key stands in the table for what was counted from the mark on. */
  ghost function Since(l: Ledger, mark: Mark, key: Key): int
    requires mark.drops <= |l.log|
  {
    KeyTimes(l.log[mark.drops..], key) + if key == PROJECTION then l.projections - mark.projections else 0
  }

  /** The table holds exactly what was counted since the mark. */
  ghost predicate HoldsSince(l: Ledger, mark: Mark) {
    mark.drops <= |l.log| && forall key :: l.pending[key] == Since(l, mark, key)
  }

  lemma {:induction false} KeyTimesConcat(a: seq<Drop>, b: seq<Drop>, key: Key)
    ensures KeyTimes(a + b, key) == KeyTimes(a, key) + KeyTimes(b, key)
  {
    if b == [] {
      assert a + b == a;
    } else {
      assert (a + b)[..|a + b| - 1] == a + b[..|b| - 1];
      KeyTimesConcat(a, b[..|b| - 1], key);
    }
  }

  lemma CountHoldsSince(l: Ledger, job: Job, reason: Reason, mark: Mark)
    requires HoldsSince(l, mark)
    ensures HoldsSince(Count(l, job, reason), mark)
  {
    var t, drop := Count(l, job, reason), Drop(job, reason);
    assert t.log[mark.drops..] == l.log[mark.drops..] + [drop];
    forall key ensures t.pending[key] == Since(t, mark, key) {
      KeyTimesConcat(l.log[mark.drops..], [drop], key);
      assert [drop][..0] == [];
    }
  }

  ghost function NextMark(s: State, step: Step, mark: Mark): Mark {
    if TakesTable(s, step) then Mark(|s.ledger.log|, s.ledger.projections) else mark
  }

  lemma HookHoldsSince(s: State, step: HookStep, mark: Mark)
    requires EnabledHook(s, step) && HoldsSince(s.ledger, mark)
    ensures HoldsSince(ApplyHook(s, step).ledger, mark)
  {
    if step.HookCountStep? { CountHoldsSince(s.ledger, step.job, s.hooks[step.job], mark); }
  }

  lemma WriterHoldsSince(s: State, step: WriterStep, mark: Mark)
    requires EnabledWriter(s, step) && HoldsSince(s.ledger, mark)
    ensures HoldsSince(ApplyWriter(s, step).ledger, NextMark(s, ByWriter(step), mark))
  {
    if step.WriterCountStep? && s.writer.rest != [] {
      CountHoldsSince(s.ledger, s.writer.rest[0], s.writer.reason, mark);
    }
  }

  lemma CloserHoldsSince(s: State, step: CloseStep, mark: Mark)
    requires EnabledClose(s, step) && HoldsSince(s.ledger, mark)
    ensures HoldsSince(ApplyClose(s, step).ledger, NextMark(s, ByClose(step), mark))
  {
    if step.CloserCountStep? && s.closer.left != [] { CountHoldsSince(s.ledger, s.closer.left[0], Closing, mark); }
  }

  lemma StepHoldsSince(s: State, step: Step, mark: Mark)
    requires Enabled(s, step) && HoldsSince(s.ledger, mark)
    ensures HoldsSince(Apply(s, step).ledger, NextMark(s, step, mark))
  {
    match step
    case ByHook(h) => HookHoldsSince(s, h, mark);
    case ByWriter(w) => WriterHoldsSince(s, w, mark);
    case ByClose(c) => CloserHoldsSince(s, c, mark);
  }

  lemma {:induction false} RunHoldsSince(s: State, run: seq<Step>, mark: Mark)
    requires Feasible(s, run) && HoldsSince(s.ledger, mark)
    ensures HoldsSince(Exec(s, run).ledger, MarkAfter(s, run, mark))
    decreases |run|
  {
    if run != [] {
      StepHoldsSince(s, run[0], mark);
      RunHoldsSince(Apply(s, run[0]), run[1..], NextMark(s, run[0], mark));
    }
  }

  /**
   In every run, once close() is done, the file holds exactly the drops counted before the drop table was last taken
   over, and the table for good exactly those counted after it, key by key.
   */
  lemma LastPassDecides(run: seq<Step>, key: Key)
    requires Feasible(INIT, run) && Closed(Exec(INIT, run))
    ensures var l, mark := Exec(INIT, run).ledger, MarkAfter(INIT, run, Mark(0, 0));
            && mark.drops <= |l.log|
            && l.pending[key] == KeyTimes(l.log[mark.drops..], key)
                                 + (if key == PROJECTION then l.projections - mark.projections else 0)
            && l.written[key] == KeyTimes(l.log[..mark.drops], key)
                                 + (if key == PROJECTION then mark.projections else 0)
  {
    var l, mark := Exec(INIT, run).ledger, MarkAfter(INIT, run, Mark(0, 0));
    InitInv();
    RunKeepsInv(INIT, run);
    RunHoldsSince(INIT, run, Mark(0, 0));
    KeyTimesConcat(l.log[..mark.drops], l.log[mark.drops..], key);
    assert l.log == l.log[..mark.drops] + l.log[mark.drops..];
  }

  // ------------------------------------------------------------------ a join that succeeds

  lemma {:induction false} ExitedWriterHoldsNothing(s: State, run: seq<Step>)
    requires Inv(s) && s.writer.Exited? && Feasible(s, run)
    ensures var t := Exec(s, run); t.writer.Exited? && WriterHolds(t.writer, t.inflight) == []
    decreases |run|
  {
    if run != [] {
      StepKeepsInv(s, run[0]);
      ExitedWriterHoldsNothing(Apply(s, run[0]), run[1..]);
    }
  }

  /**
   When the writer has ended by the time close() joins it, only a hook can keep a drop from the file: all are written
   exactly when none was pending and no hook was still to count as close() returned.
   */
  lemma JoinedCloseWritesIff(joined: State, toEnd: seq<Step>, after: seq<Step>)
    requires Inv(joined) && joined.closer.Joining? && joined.writer.Exited? && Feasible(joined, toEnd)
    requires Closed(Exec(joined, toEnd)) && Feasible(Exec(joined, toEnd), after)
    requires Quiet(Exec(Exec(joined, toEnd), after))
    ensures var s := Exec(joined, toEnd);
            Exec(s, after).ledger.pending == multiset{} <==> s.ledger.pending == multiset{} && s.hooks == map[]
  {
    RunKeepsInv(joined, toEnd);
    ExitedWriterHoldsNothing(joined, toEnd);
    AllDropsWrittenIff(Exec(joined, toEnd), after);
  }
}
