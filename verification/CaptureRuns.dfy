/**
 What a run of CaptureQueue does, read off its steps instead of the fields they change: which jobs were offered,
 queued, taken from the queue and acknowledged, in which order, and why a job was counted as dropped.
 */
module CaptureRuns {
  import opened Prelude
  import opened Occurrences
  import opened DropLedger
  import opened CaptureQueue

  datatype Seen = Seen(
    offered: seq<Job>,         // every job a hook offered before `_closed`
    queued: seq<Job>,          // those offered before `_sealed` to a queue of fewer than 4096 jobs
    full: set<Job>,            // those offered before `_sealed` to a queue of 4096 jobs
    late: set<Job>,            // those offered after `_sealed`
    taken: seq<Job>,           // what the writer and close() took from the front of the queue
    batched: seq<Job>,         // what the writer took
    acked: set<Job>,           // the acknowledged prefixes of the batches a child was given
    failed: set<Drop>,         // the rest of those batches, with the reason the child left
    settling: set<Job>,        // the batches whose reason was chosen before `_stopping`
    unsettled: nat)            // the projections that close() found unsettled

  const NOTHING := Seen([], [], {}, {}, [], [], {}, {}, {}, 0)

  function Members(jobs: seq<Job>): set<Job> { set j | j in jobs }

  function NoteHook(h: Seen, s: State, step: HookStep): Seen {
    if !step.OfferStep? || s.closer.Done? then h
    else
      var job := Job(|h.offered|, step.kind);
      var t := h.(offered := h.offered + [job]);
      if !s.closer.Open? then t.(late := h.late + {job})
      else if |s.queue| >= 4096 then t.(full := h.full + {job})
      else t.(queued := h.queued + [job])
  }

  function NoteWriter(h: Seen, s: State, step: WriterStep): Seen
    requires EnabledWriter(s, step)
  {
    match step
    case GetStep => h.(taken := h.taken + [s.queue[0]], batched := h.batched + [s.queue[0]])
    case AckStep(k, why) =>
      h.(acked := h.acked + Members(s.writer.batch[..k]),
         failed := h.failed + set j | j in s.writer.batch[k..] :: Drop(j, why))
    case ChooseStep => if Stopping(s) then h else h.(settling := h.settling + Members(s.writer.batch))
    case _ => h
  }

  function Note(h: Seen, s: State, step: Step): Seen
    requires Enabled(s, step)
  {
    match step
    case ByHook(hook) => NoteHook(h, s, hook)
    case ByWriter(write) => NoteWriter(h, s, write)
    case ByClose(close) =>
      if close.DrainOneStep? && s.queue != [] then h.(taken := h.taken + [s.queue[0]])
      else if close.SealGateStep? then h.(unsettled := h.unsettled + close.unsettled)
      else h
  }

  ghost function History(h: Seen, s: State, run: seq<Step>): Seen
    requires Feasible(s, run)
    decreases |run|
  {
    if run == [] then h else History(Note(h, s, run[0]), Apply(s, run[0]), run[1..])
  }

  // ------------------------------------------------------------------ what the history says of the state

  ghost predicate Ends<T(!new)>(all: seq<T>, tail: seq<T>) {
    |tail| <= |all| && all[|all| - |tail|..] == tail
  }

  /** Jobs are taken in the order in which they were queued, and a batch is what the writer took last. */
  ghost predicate InOrder(h: Seen, s: State) {
    && s.offered == h.offered
    && h.taken + s.queue == h.queued
    && ((s.writer.Collecting? || s.writer.Collected? || HasBatch(s.writer)) ==> Ends(h.batched, s.writer.batch))
    && s.confirmed == h.acked && s.ledger.projections == h.unsettled
  }

  /** An offered job was queued, or refused for one reason. */
  ghost predicate OneFate(h: Seen) {
    && (forall i | 0 <= i < |h.offered| :: h.offered[i].serial == i)
    && (forall j :: j in h.offered <==> j in h.queued || j in h.full || j in h.late)
    && (forall j | j in h.queued :: j !in h.full && j !in h.late)
    && h.full !! h.late
  }

  ghost predicate Refusals(h: Seen, hooks: map<Job, Reason>) {
    forall j | j in hooks :: (hooks[j] == QueueFull && j in h.full) || (hooks[j] == Closing && j in h.late)
  }

  /** Whatever is on its way was queued. */
  ghost predicate OnTheWay(h: Seen, s: State) {
    && (forall j | j in h.taken || j in h.batched :: j in h.queued)
    && (s.writer.Dropping? ==> forall j | j in s.writer.rest :: j in h.queued)
    && (forall j | j in Content(s.inflight) || j in CloserHolds(s.closer) :: j in h.queued)
    && (s.closer.Clearing? ==> forall j | j in s.closer.left :: j in h.queued)
    && (forall d | d in h.failed :: d.job in h.queued)
  }

  /** The child left these jobs of a batch, or close() had begun to stop before it was given any. */
  ghost predicate LeftBy(h: Seen, s: State, jobs: seq<Job>, why: Reason) {
    why != QueueFull && (why != Closing ==> forall j | j in jobs :: Drop(j, why) in h.failed)
  }

  ghost predicate WriterReasons(h: Seen, s: State) {
    match s.writer
    case Delivered(batch, acked, why) =>
      acked <= |batch| && why != Closing && why != QueueFull && (Stopping(s) || LeftBy(h, s, batch[acked..], why))
    case Settling(batch, acked, reason) =>
      acked <= |batch| && LeftBy(h, s, batch[acked..], reason) && ChosenRight(h, s, batch[acked..], reason)
    case Dropping(rest, reason) => LeftBy(h, s, rest, reason) && ChosenRight(h, s, rest, reason)
    case _ => true
  }

  ghost predicate ChosenRight(h: Seen, s: State, jobs: seq<Job>, reason: Reason) {
    if reason == Closing then Stopping(s) else forall j | j in jobs :: j in h.settling
  }

  /** What the reason of a counted drop says. */
  ghost predicate TrueReason(h: Seen, s: State, d: Drop) {
    match d.reason
    case QueueFull => d.job in h.full
    case Closing => d.job in h.late || (d.job in h.queued && Stopping(s))
    case _ => d in h.failed && d.job in h.settling
  }

  ghost predicate LogIsTrue(h: Seen, s: State) {
    forall i | 0 <= i < |s.ledger.log| :: TrueReason(h, s, s.ledger.log[i])
  }

  ghost predicate Tells(h: Seen, s: State) {
    && InOrder(h, s) && OneFate(h) && Refusals(h, s.hooks) && OnTheWay(h, s)
    && WriterReasons(h, s) && LogIsTrue(h, s)
  }

  // ------------------------------------------------------------------ every step keeps it

  lemma HookKeepsFate(h: Seen, s: State, step: HookStep)
    requires InOrder(h, s) && OneFate(h) && Refusals(h, s.hooks) && EnabledHook(s, step)
    ensures var g, t := NoteHook(h, s, step), ApplyHook(s, step); InOrder(g, t) && OneFate(g) && Refusals(g, t.hooks)
  {
    if step.OfferStep? { assert forall j | j in h.offered :: j.serial < |h.offered|; }
  }

  /** Noting an offer forgets nothing. */
  ghost predicate Extends(h: Seen, g: Seen) {
    && (forall j | j in h.queued :: j in g.queued) && h.full <= g.full && h.late <= g.late
    && h.failed <= g.failed && h.settling <= g.settling
  }

  lemma HookExtends(h: Seen, s: State, step: HookStep)
    ensures var g := NoteHook(h, s, step);
            Extends(h, g) && g.taken == h.taken && g.batched == h.batched && g.failed == h.failed
  {
  }

  lemma ExtendsReasons(h: Seen, g: Seen, s: State)
    requires Extends(h, g) && WriterReasons(h, s) && LogIsTrue(h, s)
    ensures WriterReasons(g, s) && LogIsTrue(g, s)
  {
    forall i | 0 <= i < |s.ledger.log| ensures TrueReason(g, s, s.ledger.log[i]) {
      assert TrueReason(h, s, s.ledger.log[i]);
    }
  }

  lemma HookTells(h: Seen, s: State, step: HookStep)
    requires Tells(h, s) && EnabledHook(s, step)
    ensures Tells(NoteHook(h, s, step), ApplyHook(s, step))
  {
    HookKeepsFate(h, s, step);
    HookExtends(h, s, step);
    var g, t := NoteHook(h, s, step), ApplyHook(s, step);
    ExtendsReasons(h, g, s);
    forall i | 0 <= i < |t.ledger.log| ensures TrueReason(g, t, t.ledger.log[i]) {
      if i < |s.ledger.log| {
        assert TrueReason(g, s, s.ledger.log[i]);
      } else {
        assert t.ledger.log[i] == Drop(step.job, s.hooks[step.job]);
      }
    }
  }

  lemma WriterKeepsOrder(h: Seen, s: State, step: WriterStep)
    requires InOrder(h, s) && EnabledWriter(s, step)
    ensures InOrder(NoteWriter(h, s, step), ApplyWriter(s, step))
  {
    if step.GetStep? { assert [s.queue[0]] + s.queue[1..] == s.queue; }
  }

  lemma WriterKeepsWay(h: Seen, s: State, step: WriterStep)
    requires InOrder(h, s) && OnTheWay(h, s) && WriterPosition(s) && EnabledWriter(s, step)
    ensures OnTheWay(NoteWriter(h, s, step), ApplyWriter(s, step))
  {
    var g := NoteWriter(h, s, step);
    if step.GetStep? { assert s.queue[0] in s.queue; }
  }

  lemma WriterExtends(h: Seen, s: State, step: WriterStep)
    requires EnabledWriter(s, step)
    ensures var g := NoteWriter(h, s, step);
            Extends(h, g) && g.offered == h.offered && g.queued == h.queued && g.full == h.full && g.late == h.late
  {
  }

  lemma WriterKeepsReasons(h: Seen, s: State, step: WriterStep)
    requires WriterReasons(h, s) && EnabledWriter(s, step)
    ensures WriterReasons(NoteWriter(h, s, step), ApplyWriter(s, step))
  {
  }

  lemma WriterKeepsLog(h: Seen, s: State, step: WriterStep)
    requires WriterReasons(h, s) && LogIsTrue(h, s) && OnTheWay(h, s) && EnabledWriter(s, step)
    ensures LogIsTrue(NoteWriter(h, s, step), ApplyWriter(s, step))
  {
    WriterExtends(h, s, step);
    var g, t := NoteWriter(h, s, step), ApplyWriter(s, step);
    forall i | 0 <= i < |t.ledger.log| ensures TrueReason(g, t, t.ledger.log[i]) {
      if i < |s.ledger.log| {
        assert TrueReason(h, s, s.ledger.log[i]);
      } else {
        assert t.ledger.log[i] == Drop(s.writer.rest[0], s.writer.reason);
      }
    }
  }

  lemma WriterTells(h: Seen, s: State, step: WriterStep)
    requires Tells(h, s) && Positions(s) && EnabledWriter(s, step)
    ensures Tells(NoteWriter(h, s, step), ApplyWriter(s, step))
  {
    WriterKeepsOrder(h, s, step);
    WriterKeepsWay(h, s, step);
    WriterExtends(h, s, step);
    WriterKeepsReasons(h, s, step);
    WriterKeepsLog(h, s, step);
  }

  lemma CloserKeepsOrder(h: Seen, s: State, step: CloseStep)
    requires InOrder(h, s) && OneFate(h) && EnabledClose(s, step)
    ensures InOrder(Note(h, s, ByClose(step)), ApplyClose(s, step)) && OneFate(Note(h, s, ByClose(step)))
  {
    if step.DrainOneStep? && s.queue != [] { assert [s.queue[0]] + s.queue[1..] == s.queue; }
  }

  lemma CloserKeepsWay(h: Seen, s: State, step: CloseStep)
    requires InOrder(h, s) && OnTheWay(h, s) && EnabledClose(s, step)
    ensures OnTheWay(Note(h, s, ByClose(step)), ApplyClose(s, step))
  {
    if step.DrainOneStep? && s.queue != [] { assert s.queue[0] in s.queue; }
  }

  lemma CloserKeepsLog(h: Seen, s: State, step: CloseStep)
    requires LogIsTrue(h, s) && OnTheWay(h, s) && EnabledClose(s, step)
    ensures LogIsTrue(h, ApplyClose(s, step))
  {
    var t := ApplyClose(s, step);
    forall i | 0 <= i < |t.ledger.log| ensures TrueReason(h, t, t.ledger.log[i]) {
      if i < |s.ledger.log| {
        assert TrueReason(h, s, s.ledger.log[i]);
      } else {
        assert t.ledger.log[i] == Drop(s.closer.left[0], Closing);
      }
    }
  }

  lemma CloserKeepsReasons(h: Seen, s: State, step: CloseStep)
    requires WriterReasons(h, s) && EnabledClose(s, step)
    ensures WriterReasons(h, ApplyClose(s, step))
  {
  }

  lemma CloserTells(h: Seen, s: State, step: CloseStep)
    requires Tells(h, s) && EnabledClose(s, step)
    ensures Tells(Note(h, s, ByClose(step)), ApplyClose(s, step))
  {
    CloserKeepsOrder(h, s, step);
    CloserKeepsWay(h, s, step);
    CloserKeepsLog(h, s, step);
    CloserKeepsReasons(h, s, step);
    var g, t := Note(h, s, ByClose(step)), ApplyClose(s, step);
    assert Extends(h, g);
    ExtendsReasons(h, g, t);
  }

  lemma StepTells(h: Seen, s: State, step: Step)
    requires Tells(h, s) && Inv(s) && Enabled(s, step)
    ensures Tells(Note(h, s, step), Apply(s, step))
  {
    match step
    case ByHook(hook) => HookTells(h, s, hook);
    case ByWriter(write) => WriterTells(h, s, write);
    case ByClose(close) => CloserTells(h, s, close);
  }

  lemma {:induction false} RunTells(h: Seen, s: State, run: seq<Step>)
    requires Tells(h, s) && Inv(s) && Feasible(s, run)
    ensures Tells(History(h, s, run), Exec(s, run))
    decreases |run|
  {
    if run != [] {
      StepKeepsInv(s, run[0]);
      StepTells(h, s, run[0]);
      RunTells(Note(h, s, run[0]), Apply(s, run[0]), run[1..]);
    }
  }

  // ------------------------------------------------------------------ the theorems

  /**
   In every run the jobs are taken from the queue in the order in which they were put into it, whoever takes them; the
   batch in the writer's hands is what the writer took last.
   */
  lemma FirstInFirstOut(run: seq<Step>)
    requires Feasible(INIT, run)
    ensures var h, s := History(NOTHING, INIT, run), Exec(INIT, run);
            && h.taken + s.queue == h.queued
            && (IsCollecting(s.writer) || HasBatch(s.writer) ==>
                  |s.writer.batch| <= |h.batched| && h.batched[|h.batched| - |s.writer.batch|..] == s.writer.batch)
  {
    InitInv();
    RunTells(NOTHING, INIT, run);
  }

  /** What the fields of a state are said to record is what happened in the run. */
  lemma RecordsAreTrue(run: seq<Step>)
    requires Feasible(INIT, run)
    ensures var h, s := History(NOTHING, INIT, run), Exec(INIT, run);
            && s.offered == h.offered && s.confirmed == h.acked && s.ledger.projections == h.unsettled
            && forall j | j in s.offered :: j in h.queued || j in h.full || j in h.late
  {
    InitInv();
    RunTells(NOTHING, INIT, run);
  }

  /**
   Every drop is counted for its true reason: the queue was full when it was offered; a child left it, and the batch
   was settled before `_stopping`; or it was offered or still under way after close() began.
   */
  lemma ReasonsAreTrue(run: seq<Step>, i: nat)
    requires Feasible(INIT, run) && i < |Exec(INIT, run).ledger.log|
    ensures var h, s := History(NOTHING, INIT, run), Exec(INIT, run);
            var d := s.ledger.log[i];
            && (d.reason == QueueFull <==> d.job in h.full)
            && (d.reason == ChildFailed || d.reason == Unavailable ==> d in h.failed && d.job in h.settling)
            && (d.reason == Closing ==> d.job in h.late || (d.job in h.queued && Stopping(s)))
            && (d.job in h.late ==> d.reason == Closing)
  {
    InitInv();
    RunTells(NOTHING, INIT, run);
    var h, s := History(NOTHING, INIT, run), Exec(INIT, run);
    var d := s.ledger.log[i];
    assert TrueReason(h, s, d);
    assert d.reason == QueueFull || d.reason == Closing || d.reason == ChildFailed || d.reason == Unavailable;
  }

  // ------------------------------------------------------------------ close() can always finish

  /** A step that brings close() nearer to its end; a writer that holds `_io` lets go of it first. */
  ghost function Onward(s: State): Step
    requires !Closed(s)
  {
    if s.writer.Writing? then
      if s.ledger.rows == multiset{} then ByWriter(WriterReleaseStep)
      else
        var key :| key in s.ledger.rows;
        ByWriter(WriterRowStep(key))
    else match s.closer
      case Open => ByClose(SealStep)
      case Draining => ByClose(StopStep)
      case Joining => ByClose(ReadInflightStep)
      case Clearing(_) => ByClose(ClearInflightStep)
      case Taking(_) => ByClose(DrainOneStep)
      case Counting(_) => ByClose(CloserCountStep)
      case SealingGate => ByClose(SealGateStep(0))
      case LastWrite => ByClose(CloserSwapStep)
      case LastWriting =>
        if s.ledger.rows == multiset{} then ByClose(CloserReleaseStep)
        else
          var key :| key in s.ledger.rows;
          ByClose(CloserRowStep(key))
      case _ => ByClose(FinishStep)
  }

  function Stage(c: Closer): nat {
    match c
    case Open => 11
    case Draining => 10
    case Joining => 9
    case Clearing(_) => 8
    case Taking(_) => 7
    case Counting(_) => 6
    case SealingGate => 5
    case LastWrite => 4
    case LastWriting => 3
    case LastWritten => 2
    case Done => 1
  }

  /** What is left to do at this point of close(), or of the write in progress. */
  function Left(s: State): nat {
    if s.writer.Writing? || s.closer.LastWriting? then |s.ledger.rows|
    else if s.closer.Taking? then |s.queue|
    else if s.closer.Counting? then |s.closer.left|
    else 0
  }

  lemma RowWritten(l: Ledger, key: Key)
    requires key in l.rows
    ensures |WriteRow(l, key).rows| < |l.rows|
  {
    var gone := multiset{}[key := l.rows[key]];
    assert l.rows == WriteRow(l, key).rows + gone;
    assert |gone| == l.rows[key];
  }

  lemma OnwardIsNearer(s: State)
    requires Positions(s) && !Closed(s)
    ensures var step := Onward(s);
            Enabled(s, step) &&
            var t := Apply(s, step);
            && (t.closer.Done? || Stage(t.closer) <= Stage(s.closer)) && (t.writer.Writing? ==> s.writer.Writing?)
            && (Stage(t.closer) < Stage(s.closer) || (s.writer.Writing? && !t.writer.Writing?) || Left(t) < Left(s))
  {
    var step := Onward(s);
    if step.ByWriter? && step.write.WriterRowStep? {
      RowWritten(s.ledger, step.write.key);
    } else if step.ByClose? && step.close.CloserRowStep? {
      RowWritten(s.ledger, step.close.key);
    }
  }

  ghost predicate CanFinish(s: State) {
    exists run :: Feasible(s, run) && Closed(Exec(s, run))
  }

  /** No lock and no order of the steps so far keeps close() from returning. */
  lemma {:induction false} CloseCanAlwaysFinish(s: State)
    requires Inv(s)
    ensures CanFinish(s)
    decreases Stage(s.closer), s.writer.Writing?, Left(s)
  {
    if Closed(s) {
      assert Feasible(s, []) && Closed(Exec(s, []));
    } else {
      OnwardIsNearer(s);
      var step := Onward(s);
      StepKeepsInv(s, step);
      CloseCanAlwaysFinish(Apply(s, step));
      var rest :| Feasible(Apply(s, step), rest) && Closed(Exec(Apply(s, step), rest));
      var run := [step] + rest;
      assert run[1..] == rest;
      assert Feasible(s, run) && Closed(Exec(s, run));
    }
  }

  /** Until it exits the writer has a step, or waits for the lock that close() holds. */
  lemma WriterIsNeverStuck(s: State)
    requires Inv(s) && !s.writer.Exited?
    ensures (exists step :: EnabledWriter(s, step)) || s.closer.LastWriting? || s.closer.Clearing?
  {
    var step := match s.writer
      case Polling => if s.queue == [] then GetEmptyStep else GetStep
      case Collecting(batch) => if |batch| < BATCH_MAX && s.queue != [] then GetStep else CollectedStep
      case Collected(_) => PublishStep
      case Published(_) => CheckStopStep
      case Running(_) => AckStep(0, ChildFailed)
      case Delivered(_, _, _) => ChooseStep
      case Settling(_, _, _) => SettleStep
      case Dropping(_, _) => WriterCountStep
      case BeforeWrite(_) => WriterSwapStep
      case Writing(_) =>
        if s.ledger.rows == multiset{} then WriterReleaseStep
        else
          var key :| key in s.ledger.rows;
          WriterRowStep(key)
      case _ => WriterResumeStep;
    assert s.closer.LastWriting? || s.closer.Clearing? || EnabledWriter(s, step);
  }
}
