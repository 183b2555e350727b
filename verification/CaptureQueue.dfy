/** The capture queue of the Hermes plugin: host hooks, the one writer thread and `close()` take steps in any order. */
module CaptureQueue {
  import opened Prelude
  import opened Occurrences
  import opened DropLedger

  const MAX_QUEUE: nat := 4096
  const BATCH_MAX: nat := 512

  // A step is a section under a lock, a queue operation, or a read or write of a field that no lock guards.  A job is
  // the serial number of its offer and its kind.  Where close() and the writer stand tells which flags are set and who
  // holds `_io`.

  /** What the writer does after a pass over the drop table. */
  datatype Resume = ToPoll | ToTaskDone

  /** Where the writer thread stands in `_run`, with the locals it holds there. */
  datatype Writer =
    | Polling
    | Collecting(batch: seq<Job>)
    | Collected(batch: seq<Job>)
    | Published(batch: seq<Job>)
    | Running(batch: seq<Job>)
    | Delivered(batch: seq<Job>, acked: nat, why: Reason)
    | Settling(batch: seq<Job>, acked: nat, reason: Reason)
    | Dropping(rest: seq<Job>, reason: Reason)
    | BeforeWrite(resume: Resume)
    | Writing(resume: Resume)
    | AfterWrite(resume: Resume)
    | Exited

  /** Where `close()` stands, with the list `left` it holds there. */
  datatype Closer =
    | Open
    | Draining
    | Joining
    | Clearing(left: seq<Job>)
    | Taking(left: seq<Job>)
    | Counting(left: seq<Job>)
    | SealingGate
    | LastWrite
    | LastWriting
    | LastWritten
    | Done

  datatype State = State(
    queue: seq<Job>,              // self.queue
    hooks: map<Job, Reason>,      // jobs a hook has refused and not yet counted
    inflight: Option<seq<Job>>,   // self._inflight
    writer: Writer,
    closer: Closer,
    ledger: Ledger,
    // History. No step reads it, but Put numbers a job by the offers before it.
    offered: seq<Job>,            // every job a hook offered while the plugin was not closed
    kept: seq<Job>,               // acknowledged jobs of batches the writer settled itself
    confirmed: set<Job>,          // every job a batch child acknowledged
    stolen: seq<Job>,             // the in-flight batch close() took over
    lost: seq<Job>)               // the batch close() cleared from the field without having read it

  const INIT: State := State([], map[], None, Polling, Open, EMPTY, [], [], {}, [], [])

  predicate Sealed(s: State) { !s.closer.Open? }
  predicate Stopping(s: State) { !s.closer.Open? && !s.closer.Draining? }
  predicate Closed(s: State) { s.closer.Done? }
  predicate IoFree(s: State) { !s.writer.Writing? && !s.closer.LastWriting? && !s.closer.Clearing? }
  /** close() is past the point where it takes the in-flight batch. */
  predicate Taken(s: State) { Stopping(s) && !s.closer.Joining? && !s.closer.Clearing? }
  predicate IsCollecting(w: Writer) { w.Collecting? || w.Collected? }
  predicate HasBatch(w: Writer) { w.Published? || w.Running? || w.Delivered? || w.Settling? }
  /** The batch was not handed to a child, or the child acknowledged nothing of it. */
  predicate Unsent(w: Writer) { w.Published? || ((w.Delivered? || w.Settling?) && w.acked == 0) }
  /** `self._inflight or []`. */
  function Content(inflight: Option<seq<Job>>): seq<Job> { if inflight.Some? then inflight.value else [] }

  // ------------------------------------------------------------------ hooks

  /** `_put` under `_put_lock`: enqueue, refuse with a reason, or ignore after close. */
  function Put(s: State, kind: string): State {
    var job := Job(|s.offered|, kind);
    if Closed(s) then s
    else if !Sealed(s) && |s.queue| < MAX_QUEUE then
      s.(queue := s.queue + [job], offered := s.offered + [job])
    else
      s.(hooks := s.hooks[job := if Sealed(s) then Closing else QueueFull], offered := s.offered + [job])
  }

  /** The refusing hook's `_count_drop`, after it let go of `_put_lock`. */
  function HookCount(s: State, job: Job): State
    requires job in s.hooks
  {
    s.(ledger := Count(s.ledger, job, s.hooks[job]), hooks := s.hooks - {job})
  }

  // ------------------------------------------------------------------ writer

  /** One `queue.get`: the first job of a batch, or one more. */
  function Get(s: State): State
    requires s.writer.Polling? || s.writer.Collecting?
    requires s.queue != []
  {
    var batch := if s.writer.Polling? then [] else s.writer.batch;
    s.(queue := s.queue[1..], writer := Collecting(batch + [s.queue[0]]))
  }

  /** `self._inflight = jobs`, which holds no lock. */
  function Publish(s: State): State
    requires s.writer.Collected?
  {
    s.(inflight := Some(s.writer.batch), writer := Published(s.writer.batch))
  }

  /** The `_stopping` test in front of `_deliver`. */
  function CheckStop(s: State): State
    requires s.writer.Published?
  {
    s.(writer := if Stopping(s) then Delivered(s.writer.batch, 0, ChildFailed) else Running(s.writer.batch))
  }

  /** `_deliver` returned `acked`, or raised (`acked == 0`). */
  function Ack(s: State, acked: nat, why: Reason): State
    requires s.writer.Running? && acked <= |s.writer.batch|
  {
    s.(writer := Delivered(s.writer.batch, acked, why),
       confirmed := s.confirmed + (set j | j in s.writer.batch[..acked]))
  }

  /** The reason `_settle` is called with, before it waits for `_io`. */
  function Choose(s: State): State
    requires s.writer.Delivered?
  {
    s.(writer := Settling(s.writer.batch, s.writer.acked, if Stopping(s) then Closing else s.writer.why))
  }

  /** `_settle` under `_io`: keep the acknowledged prefix, unless the field no longer holds the batch. */
  function Settle(s: State): State
    requires s.writer.Settling? && s.writer.acked <= |s.writer.batch|
  {
    var jobs, acked := s.writer.batch, s.writer.acked;
    if s.inflight != Some(jobs) then s.(writer := BeforeWrite(ToTaskDone))
    else
      s.(inflight := None,
         kept := s.kept + jobs[..acked],
         writer := Dropping(jobs[acked..], s.writer.reason))
  }

  /** One round of `_settle`'s counting loop. */
  function WriterCount(s: State): State
    requires s.writer.Dropping?
  {
    if s.writer.rest == [] then s.(writer := BeforeWrite(ToTaskDone))
    else
      s.(ledger := Count(s.ledger, s.writer.rest[0], s.writer.reason),
         writer := Dropping(s.writer.rest[1..], s.writer.reason))
  }

  function WriterSwap(s: State): State
    requires s.writer.BeforeWrite?
  {
    if Closed(s) then s.(writer := AfterWrite(s.writer.resume))
    else s.(ledger := Swap(s.ledger), writer := Writing(s.writer.resume))
  }

  /** After the write: `task_done`, or the `_stopping` test of an idle round. */
  function WriterResume(s: State): State
    requires s.writer.AfterWrite?
  {
    s.(writer := if s.writer.resume.ToPoll? && Stopping(s) then Exited else Polling)
  }

  // ------------------------------------------------------------------ close()

  /**
   `left, self._inflight = list(self._inflight or []), None` under `_io`: the right-hand side reads the field, and only
   then is it cleared.  The writer publishes without `_io`, so it can do so in between.
   */
  function ReadInflight(s: State): State
    requires s.closer.Joining?
  {
    s.(closer := Clearing(Content(s.inflight)))
  }

  function ClearInflight(s: State): State
    requires s.closer.Clearing?
  {
    var left, held := s.closer.left, Content(s.inflight);
    s.(inflight := None, closer := Taking(left), stolen := left, lost := if held == left then s.lost else s.lost + held)
  }

  /** One round of the `get_nowait` loop. */
  function DrainOne(s: State): State
    requires s.closer.Taking?
  {
    if s.queue == [] then s.(closer := Counting(s.closer.left))
    else s.(queue := s.queue[1..], closer := Taking(s.closer.left + [s.queue[0]]))
  }

  function CloserCount(s: State): State
    requires s.closer.Counting?
  {
    if s.closer.left == [] then s.(closer := SealingGate)
    else s.(ledger := Count(s.ledger, s.closer.left[0], Closing), closer := Counting(s.closer.left[1..]))
  }

  /** `_settle`'s counting loop run to its end. */
  function CountRest(s: State): State
    requires s.writer.Dropping?
    decreases |s.writer.rest|
  {
    if s.writer.rest == [] then WriterCount(s) else CountRest(WriterCount(s))
  }

  /** close()'s `get_nowait` loop run to its end. */
  function DrainAll(s: State): State
    requires s.closer.Taking?
    decreases |s.queue|
  {
    if s.queue == [] then DrainOne(s) else DrainAll(DrainOne(s))
  }

  /** close()'s counting loop run to its end. */
  function CountLeft(s: State): State
    requires s.closer.Counting?
    decreases |s.closer.left|
  {
    if s.closer.left == [] then CloserCount(s) else CountLeft(CloserCount(s))
  }

  // ------------------------------------------------------------------ steps

  datatype Step =
    | ByHook(hook: HookStep)
    | ByWriter(write: WriterStep)
    | ByClose(close: CloseStep)
  datatype HookStep = OfferStep(kind: string) | HookCountStep(job: Job)
  datatype WriterStep =
    | GetStep | CollectedStep | PublishStep | GetEmptyStep | CheckStopStep | AckStep(acked: nat, why: Reason)
    | ChooseStep | SettleStep
    | WriterCountStep | WriterSwapStep | WriterRowStep(key: Key) | WriterReleaseStep | WriterResumeStep
  datatype CloseStep =
    | SealStep | StopStep | ReadInflightStep | ClearInflightStep | DrainOneStep | CloserCountStep
    | SealGateStep(unsettled: nat) | CloserSwapStep | CloserRowStep(key: Key) | CloserReleaseStep | FinishStep

  predicate EnabledHook(s: State, step: HookStep) {
    step.HookCountStep? ==> step.job in s.hooks
  }

  predicate EnabledWriter(s: State, step: WriterStep) {
    match step
    case GetStep =>
      s.queue != [] && (s.writer.Polling? || (s.writer.Collecting? && |s.writer.batch| < BATCH_MAX))
    case CollectedStep => s.writer.Collecting? && (|s.writer.batch| >= BATCH_MAX || s.queue == [])
    case PublishStep => s.writer.Collected?
    case GetEmptyStep => s.writer.Polling? && s.queue == []
    case CheckStopStep => s.writer.Published?
    case AckStep(k, why) => s.writer.Running? && k <= |s.writer.batch| && (why.ChildFailed? || why.Unavailable?)
    case ChooseStep => s.writer.Delivered?
    case SettleStep => s.writer.Settling? && s.writer.acked <= |s.writer.batch| && IoFree(s)
    case WriterCountStep => s.writer.Dropping?
    case WriterSwapStep => s.writer.BeforeWrite? && IoFree(s)
    case WriterRowStep(key) => s.writer.Writing? && key in s.ledger.rows
    case WriterReleaseStep => s.writer.Writing? && s.ledger.rows == multiset{}
    case WriterResumeStep => s.writer.AfterWrite?
  }

  predicate EnabledClose(s: State, step: CloseStep) {
    match step
    case SealStep => s.closer.Open?
    case StopStep => s.closer.Draining?
    case ReadInflightStep => s.closer.Joining? && IoFree(s)
    case ClearInflightStep => s.closer.Clearing?
    case DrainOneStep => s.closer.Taking?
    case CloserCountStep => s.closer.Counting?
    case SealGateStep(_) => s.closer.SealingGate?
    case CloserSwapStep => s.closer.LastWrite? && IoFree(s)
    case CloserRowStep(key) => s.closer.LastWriting? && key in s.ledger.rows
    case CloserReleaseStep => s.closer.LastWriting? && s.ledger.rows == multiset{}
    case FinishStep => s.closer.LastWritten? && IoFree(s)
  }

  function ApplyHook(s: State, step: HookStep): State
    requires EnabledHook(s, step)
  {
    match step
    case OfferStep(kind) => Put(s, kind)
    case HookCountStep(job) => HookCount(s, job)
  }

  function ApplyWriter(s: State, step: WriterStep): State
    requires EnabledWriter(s, step)
  {
    match step
    case GetStep => Get(s)
    case CollectedStep => s.(writer := Collected(s.writer.batch))
    case PublishStep => Publish(s)
    case GetEmptyStep => s.(writer := BeforeWrite(ToPoll))
    case CheckStopStep => CheckStop(s)
    case AckStep(k, why) => Ack(s, k, why)
    case ChooseStep => Choose(s)
    case SettleStep => Settle(s)
    case WriterCountStep => WriterCount(s)
    case WriterSwapStep => WriterSwap(s)
    case WriterRowStep(key) => s.(ledger := WriteRow(s.ledger, key))
    case WriterReleaseStep => s.(writer := AfterWrite(s.writer.resume))
    case WriterResumeStep => WriterResume(s)
  }

  function ApplyClose(s: State, step: CloseStep): State
    requires EnabledClose(s, step)
  {
    match step
    case SealStep => s.(closer := Draining)
    case StopStep => s.(closer := Joining)
    case ReadInflightStep => ReadInflight(s)
    case ClearInflightStep => ClearInflight(s)
    case DrainOneStep => DrainOne(s)
    case CloserCountStep => CloserCount(s)
    case SealGateStep(n) => s.(ledger := CountProjections(s.ledger, n), closer := LastWrite)
    case CloserSwapStep => s.(ledger := Swap(s.ledger), closer := LastWriting)
    case CloserRowStep(key) => s.(ledger := WriteRow(s.ledger, key))
    case CloserReleaseStep => s.(closer := LastWritten)
    case FinishStep => s.(closer := Done)
  }

  predicate Enabled(s: State, step: Step) {
    match step
    case ByHook(h) => EnabledHook(s, h)
    case ByWriter(w) => EnabledWriter(s, w)
    case ByClose(c) => EnabledClose(s, c)
  }

  function Apply(s: State, step: Step): State
    requires Enabled(s, step)
  {
    match step
    case ByHook(h) => ApplyHook(s, h)
    case ByWriter(w) => ApplyWriter(s, w)
    case ByClose(c) => ApplyClose(s, c)
  }

  ghost predicate Feasible(s: State, run: seq<Step>)
    decreases |run|
  {
    run == [] || (Enabled(s, run[0]) && Feasible(Apply(s, run[0]), run[1..]))
  }

  ghost function Exec(s: State, run: seq<Step>): State
    requires Feasible(s, run)
    decreases |run|
  {
    if run == [] then s else Exec(Apply(s, run[0]), run[1..])
  }

  // ------------------------------------------------------------------ invariant

  /** Jobs in the writer's hands: none of a batch close() took from the field. */
  ghost function WriterHolds(w: Writer, inflight: Option<seq<Job>>): seq<Job> {
    if IsCollecting(w) then w.batch
    else if w.Dropping? then w.rest
    else if inflight.Some? then inflight.value
    else []
  }

  ghost function CloserHolds(c: Closer): seq<Job> {
    if c.Taking? || c.Counting? then c.left else []
  }

  /** How many places a job is in, over all the places it can be. */
  ghost function Places(s: State, j: Job): nat {
    Times(s.queue, j) + (if j in s.hooks then 1 else 0) + Times(WriterHolds(s.writer, s.inflight), j)
    + Times(CloserHolds(s.closer), j) + JobTimes(s.ledger.log, j) + Times(s.kept, j)
  }

  ghost function Accounted(s: State, j: Job): nat { Places(s, j) + Times(s.lost, j) }

  ghost predicate Numbered(s: State) {
    forall i | 0 <= i < |s.offered| :: s.offered[i].serial == i
  }

  /** Every offered job is in exactly one place or lost, and no other job is anywhere. */
  ghost predicate Conserved(s: State) {
    forall j :: Accounted(s, j) == if j in s.offered then 1 else 0
  }

  /** close() is between its read of the field and its clear, and the writer published in between. */
  predicate Missing(s: State) { s.closer.Clearing? && Content(s.inflight) != s.closer.left }

  ghost predicate WriterPosition(s: State) {
    && (s.inflight.Some? ==> HasBatch(s.writer) && s.inflight.value == s.writer.batch)
    && (HasBatch(s.writer) && s.inflight == None ==>
          s.stolen == s.writer.batch || (s.lost == s.writer.batch && Unsent(s.writer)))
    && (IsCollecting(s.writer) || HasBatch(s.writer) ==> 0 < |s.writer.batch| <= BATCH_MAX)
    && (s.writer.Delivered? || s.writer.Settling? ==> s.writer.acked <= |s.writer.batch|)
    && (s.writer.Exited? ==> Stopping(s))
  }

  ghost predicate CloserPosition(s: State) {
    && (Taken(s) && !s.closer.Taking? ==> s.queue == [])
    && (!Taken(s) ==> s.stolen == [] && s.lost == [])
    && (Missing(s) ==> s.closer.left == [])
    && (Missing(s) || (Taken(s) && s.inflight.Some?) ==> Unsent(s.writer))
  }

  /** Who holds `_io`. */
  ghost predicate IoPosition(s: State) {
    && (s.ledger.rows != multiset{} ==> s.writer.Writing? || s.closer.LastWriting?)
    && !(s.writer.Writing? && (s.closer.LastWriting? || s.closer.Clearing?))
    && (Closed(s) ==> IoFree(s))
  }

  ghost predicate Positions(s: State) {
    |s.queue| <= MAX_QUEUE && WriterPosition(s) && CloserPosition(s) && IoPosition(s)
  }

  /** A job the child acknowledged is kept, about to be kept, or in the batch close() took. */
  ghost predicate AckedPlaced(s: State) {
    forall j | j in s.confirmed ::
      || j in s.kept
      || (s.inflight.Some? && (s.writer.Delivered? || s.writer.Settling?) && s.writer.acked <= |s.writer.batch| &&
          j in s.writer.batch[..s.writer.acked])
      || j in s.stolen
  }

  /** What is kept, and what the writer is about to keep, a child acknowledged. */
  ghost predicate KeptAcked(s: State) {
    && (forall j | j in s.kept :: j in s.confirmed)
    && (s.writer.Delivered? || s.writer.Settling? ==>
          s.writer.acked <= |s.writer.batch| && forall j | j in s.writer.batch[..s.writer.acked] :: j in s.confirmed)
  }

  /** A job of the batch close() took is still to be counted, or counted. */
  ghost predicate StolenPlaced(s: State) {
    forall j | j in s.stolen :: j in CloserHolds(s.closer) || JobTimes(s.ledger.log, j) > 0
  }

  ghost predicate Inv(s: State) {
    && Numbered(s) && Conserved(s) && Positions(s) && Balanced(s.ledger)
    && AckedPlaced(s) && KeptAcked(s) && StolenPlaced(s)
  }

  lemma PutKeepsConserved(s: State, kind: string)
    requires Numbered(s) && Conserved(s)
    ensures Numbered(Put(s, kind)) && Conserved(Put(s, kind))
  {
    var job, t := Job(|s.offered|, kind), Put(s, kind);
    assert job !in s.offered;
    assert Accounted(s, job) == 0;
    if !Closed(s) {
      assert t.offered == s.offered + [job];
      forall j ensures Accounted(t, j) == if j in t.offered then 1 else 0 {
        assert Accounted(s, j) == if j in s.offered then 1 else 0;
      }
    }
  }

  lemma HookCountAccounts(s: State, job: Job, j: Job)
    requires job in s.hooks
    ensures Accounted(HookCount(s, job), j) == Accounted(s, j)
  {
  }

  lemma GetAccounts(s: State, j: Job)
    requires s.writer.Polling? || s.writer.Collecting?
    requires s.queue != [] && s.inflight == None
    ensures Accounted(Get(s), j) == Accounted(s, j)
  {
    var taken := if s.writer.Polling? then [] else s.writer.batch;
    var t := Get(s);
    assert WriterHolds(s.writer, s.inflight) == taken;
    assert WriterHolds(t.writer, t.inflight) == taken + [s.queue[0]];
    TimesHead(s.queue, j);
  }

  lemma SettleAccounts(s: State, j: Job)
    requires s.writer.Settling? && s.writer.acked <= |s.writer.batch|
    requires s.inflight.Some? ==> s.inflight.value == s.writer.batch
    ensures Accounted(Settle(s), j) == Accounted(s, j)
  {
    var b, acked := s.writer.batch, s.writer.acked;
    assert b[..acked] + b[acked..] == b;
    TimesConcat(b[..acked], b[acked..], j);
    TimesConcat(s.kept, b[..acked], j);
  }

  lemma WriterCountAccounts(s: State, j: Job)
    requires s.writer.Dropping? && s.inflight == None
    ensures Accounted(WriterCount(s), j) == Accounted(s, j)
  {
    if s.writer.rest != [] { TimesHead(s.writer.rest, j); }
  }

  lemma WriterAccounts(s: State, step: WriterStep, j: Job)
    requires WriterPosition(s) && EnabledWriter(s, step)
    ensures Accounted(ApplyWriter(s, step), j) == Accounted(s, j)
  {
    if step.GetStep? {
      GetAccounts(s, j);
    } else if step.SettleStep? {
      SettleAccounts(s, j);
    } else if step.WriterCountStep? {
      WriterCountAccounts(s, j);
    } else {
      var t := ApplyWriter(s, step);
      assert WriterHolds(t.writer, t.inflight) == WriterHolds(s.writer, s.inflight);
    }
  }

  /** The clear loses exactly the jobs that were published since the read. */
  lemma ClearAccounts(s: State, j: Job)
    requires WriterPosition(s) && CloserPosition(s) && s.closer.Clearing?
    ensures Accounted(ClearInflight(s), j) == Accounted(s, j)
    ensures Places(ClearInflight(s), j) == Places(s, j) - if Missing(s) then Times(Content(s.inflight), j) else 0
  {
    TimesConcat(s.lost, Content(s.inflight), j);
  }

  lemma DrainAccounts(s: State, j: Job)
    requires s.closer.Taking?
    ensures Accounted(DrainOne(s), j) == Accounted(s, j)
  {
    if s.queue != [] { TimesHead(s.queue, j); }
  }

  lemma CloserCountAccounts(s: State, j: Job)
    requires s.closer.Counting?
    ensures Accounted(CloserCount(s), j) == Accounted(s, j)
  {
    if s.closer.left != [] { TimesHead(s.closer.left, j); }
  }

  lemma CloseAccounts(s: State, step: CloseStep, j: Job)
    requires WriterPosition(s) && CloserPosition(s) && EnabledClose(s, step)
    ensures Accounted(ApplyClose(s, step), j) == Accounted(s, j)
  {
    if step.ClearInflightStep? {
      ClearAccounts(s, j);
    } else if step.DrainOneStep? {
      DrainAccounts(s, j);
    } else if step.CloserCountStep? {
      CloserCountAccounts(s, j);
    } else {
      CloserMovesNothing(s, step);
    }
  }

  lemma CloserMovesNothing(s: State, step: CloseStep)
    requires EnabledClose(s, step) && !step.ClearInflightStep? && !step.DrainOneStep? && !step.CloserCountStep?
    ensures var t := ApplyClose(s, step);
            && CloserHolds(t.closer) == CloserHolds(s.closer) && t.ledger.log == s.ledger.log && t.lost == s.lost
            && t == s.(closer := t.closer, ledger := t.ledger)
  {
  }

  lemma HookKeepsRest(s: State, step: HookStep)
    requires Positions(s) && Balanced(s.ledger) && AckedPlaced(s) && StolenPlaced(s) && EnabledHook(s, step)
    ensures var t := ApplyHook(s, step); Positions(t) && Balanced(t.ledger) && AckedPlaced(t) && StolenPlaced(t)
  {
    if step.HookCountStep? { CountKeepsBalance(s.ledger, step.job, s.hooks[step.job]); }
  }

  lemma WriterKeepsBalance(s: State, step: WriterStep)
    requires Balanced(s.ledger) && EnabledWriter(s, step)
    ensures Balanced(ApplyWriter(s, step).ledger)
  {
    match step
    case WriterCountStep =>
      if s.writer.rest != [] { CountKeepsBalance(s.ledger, s.writer.rest[0], s.writer.reason); }
    case WriterRowStep(key) => WritingKeepsBalance(s.ledger, key, 0);
    case WriterSwapStep => WritingKeepsBalance(s.ledger, PROJECTION, 0);
    case _ =>
  }

  lemma WriterKeepsWriterPosition(s: State, step: WriterStep)
    requires Positions(s) && EnabledWriter(s, step)
    ensures WriterPosition(ApplyWriter(s, step))
  {
  }

  lemma WriterKeepsCloserPosition(s: State, step: WriterStep)
    requires Positions(s) && EnabledWriter(s, step)
    ensures CloserPosition(ApplyWriter(s, step))
  {
  }

  lemma WriterKeepsIoPosition(s: State, step: WriterStep)
    requires IoPosition(s) && EnabledWriter(s, step)
    ensures IoPosition(ApplyWriter(s, step))
  {
  }

  lemma WriterKeepsAckedPlaced(s: State, step: WriterStep)
    requires Positions(s) && AckedPlaced(s) && EnabledWriter(s, step)
    ensures AckedPlaced(ApplyWriter(s, step))
  {
  }

  lemma WriterKeepsKeptAcked(s: State, step: WriterStep)
    requires KeptAcked(s) && EnabledWriter(s, step)
    ensures KeptAcked(ApplyWriter(s, step))
  {
  }

  lemma WriterKeepsStolenPlaced(s: State, step: WriterStep)
    requires StolenPlaced(s) && EnabledWriter(s, step)
    ensures StolenPlaced(ApplyWriter(s, step))
  {
  }

  lemma CloseKeepsBalance(s: State, step: CloseStep)
    requires Balanced(s.ledger) && EnabledClose(s, step)
    ensures Balanced(ApplyClose(s, step).ledger)
  {
    match step
    case CloserCountStep =>
      if s.closer.left != [] { CountKeepsBalance(s.ledger, s.closer.left[0], Closing); }
    case SealGateStep(n) => WritingKeepsBalance(s.ledger, PROJECTION, n);
    case CloserRowStep(key) => WritingKeepsBalance(s.ledger, key, 0);
    case CloserSwapStep => WritingKeepsBalance(s.ledger, PROJECTION, 0);
    case _ =>
  }

  lemma CloseKeepsPositions(s: State, step: CloseStep)
    requires Positions(s) && EnabledClose(s, step)
    ensures Positions(ApplyClose(s, step))
  {
  }

  lemma CloseKeepsAckedPlaced(s: State, step: CloseStep)
    requires Positions(s) && AckedPlaced(s) && EnabledClose(s, step)
    ensures AckedPlaced(ApplyClose(s, step))
  {
  }

  lemma CloseKeepsStolenPlaced(s: State, step: CloseStep)
    requires CloserPosition(s) && StolenPlaced(s) && EnabledClose(s, step)
    ensures StolenPlaced(ApplyClose(s, step))
  {
  }

  lemma HookKeepsInv(s: State, step: HookStep)
    requires Inv(s) && EnabledHook(s, step)
    ensures Inv(ApplyHook(s, step))
  {
    HookKeepsRest(s, step);
    match step
    case OfferStep(kind) => PutKeepsConserved(s, kind);
    case HookCountStep(job) => forall j { HookCountAccounts(s, job, j); }
  }

  lemma WriterKeepsInv(s: State, step: WriterStep)
    requires Inv(s) && EnabledWriter(s, step)
    ensures Inv(ApplyWriter(s, step))
  {
    WriterKeepsBalance(s, step);
    WriterKeepsWriterPosition(s, step);
    WriterKeepsCloserPosition(s, step);
    WriterKeepsIoPosition(s, step);
    WriterKeepsAckedPlaced(s, step);
    WriterKeepsKeptAcked(s, step);
    WriterKeepsStolenPlaced(s, step);
    forall j { WriterAccounts(s, step, j); }
    assert ApplyWriter(s, step).offered == s.offered;
  }

  lemma CloseKeepsInv(s: State, step: CloseStep)
    requires Inv(s) && EnabledClose(s, step)
    ensures Inv(ApplyClose(s, step))
  {
    CloseKeepsBalance(s, step);
    CloseKeepsPositions(s, step);
    CloseKeepsAckedPlaced(s, step);
    CloseKeepsStolenPlaced(s, step);
    forall j { CloseAccounts(s, step, j); }
    assert ApplyClose(s, step).offered == s.offered;
  }

  /** Every step of every thread keeps the invariant. */
  lemma StepKeepsInv(s: State, step: Step)
    requires Inv(s) && Enabled(s, step)
    ensures Inv(Apply(s, step))
  {
    match step
    case ByHook(h) => HookKeepsInv(s, h);
    case ByWriter(w) => WriterKeepsInv(s, w);
    case ByClose(c) => CloseKeepsInv(s, c);
  }

  lemma InitInv()
    ensures Inv(INIT)
  {
  }

  /** With InitInv: the invariant holds in every state that some interleaving reaches. */
  lemma {:induction false} RunKeepsInv(s: State, run: seq<Step>)
    requires Inv(s) && Feasible(s, run)
    ensures Inv(Exec(s, run))
    decreases |run|
  {
    if run != [] {
      StepKeepsInv(s, run[0]);
      RunKeepsInv(Apply(s, run[0]), run[1..]);
    }
  }

  /** The job sequence, each refused for one reason, in order. */
  ghost function Refused(jobs: seq<Job>, reason: Reason): seq<Drop> {
    seq(|jobs|, i requires 0 <= i < |jobs| => Drop(jobs[i], reason))
  }

  /** The loops count each job they hold once and in order, and touch nothing another thread holds. */
  lemma {:induction false} CountRestCounts(s: State)
    requires s.writer.Dropping?
    ensures var t := CountRest(s);
            && t.ledger.log == s.ledger.log + Refused(s.writer.rest, s.writer.reason)
            && t == s.(ledger := t.ledger, writer := BeforeWrite(ToTaskDone))
    decreases |s.writer.rest|
  {
    if s.writer.rest != [] {
      CountRestCounts(WriterCount(s));
      assert [Drop(s.writer.rest[0], s.writer.reason)] + Refused(s.writer.rest[1..], s.writer.reason)
             == Refused(s.writer.rest, s.writer.reason);
    }
  }

  lemma {:induction false} CountLeftCounts(s: State)
    requires s.closer.Counting?
    ensures var t := CountLeft(s);
            && t.ledger.log == s.ledger.log + Refused(s.closer.left, Closing)
            && t == s.(ledger := t.ledger, closer := SealingGate)
    decreases |s.closer.left|
  {
    if s.closer.left != [] {
      CountLeftCounts(CloserCount(s));
      assert [Drop(s.closer.left[0], Closing)] + Refused(s.closer.left[1..], Closing)
             == Refused(s.closer.left, Closing);
    }
  }

  lemma {:induction false} DrainAllDrains(s: State)
    requires s.closer.Taking?
    ensures DrainAll(s) == s.(queue := [], closer := Counting(s.closer.left + s.queue))
    decreases |s.queue|
  {
    if s.queue != [] {
      DrainAllDrains(DrainOne(s));
      assert s.closer.left + [s.queue[0]] + s.queue[1..] == s.closer.left + s.queue;
    } else {
      assert s.closer.left + s.queue == s.closer.left;
    }
  }

  // ------------------------------------------------------------------ what the design promises

  ghost predicate Counted(s: State, j: Job) {
    JobTimes(s.ledger.log, j) == 1
  }

  /**
   In every interleaving every offered job is in exactly one place -- queued, held by a hook, by the writer or by
   close(), counted as dropped, or acknowledged -- or in the batch close() cleared unread; no job is in two places.
   A lost job was not acknowledged either.
   */
  lemma PlacedOrLost(run: seq<Step>, j: Job)
    requires Feasible(INIT, run)
    ensures var s := Exec(INIT, run);
            Places(s, j) + (if j in s.lost then 1 else 0) == if j in s.offered then 1 else 0
    ensures j in Exec(INIT, run).lost ==> j !in Exec(INIT, run).confirmed
  {
    InitInv();
    RunKeepsInv(INIT, run);
    var s := Exec(INIT, run);
    assert Accounted(s, j) <= 1;
    TimesMember(s.lost, j);
    TimesMember(s.kept, j);
    TimesMember(CloserHolds(s.closer), j);
    if s.inflight.Some? { TimesMember(s.inflight.value, j); }
  }

  /** The writer publishes its batch between close()'s read of the field and its clear. */
  ghost predicate PublishedInGap(s: State, run: seq<Step>)
    requires Feasible(s, run)
    decreases |run|
  {
    run != [] && ((run[0] == ByWriter(PublishStep) && s.closer.Clearing?) || PublishedInGap(Apply(s, run[0]), run[1..]))
  }

  predicate Missed(s: State) { Missing(s) || s.lost != [] }

  lemma StepMissesIff(s: State, step: Step)
    requires Inv(s) && Enabled(s, step)
    ensures Missed(Apply(s, step)) <==> Missed(s) || (step == ByWriter(PublishStep) && s.closer.Clearing?)
  {
  }

  lemma {:induction false} RunMissesIff(s: State, run: seq<Step>)
    requires Inv(s) && Feasible(s, run)
    ensures Missed(Exec(s, run)) <==> Missed(s) || PublishedInGap(s, run)
    decreases |run|
  {
    if run != [] {
      StepKeepsInv(s, run[0]);
      StepMissesIff(s, run[0]);
      RunMissesIff(Apply(s, run[0]), run[1..]);
    }
  }

  /**
   No offered job is lost in a run exactly when no publish falls between close()'s read of the in-flight batch and its
   clear.  (Between the two the published batch is still in the field.)
   */
  lemma NoJobLostIff(run: seq<Step>)
    requires Feasible(INIT, run)
    ensures var s := Exec(INIT, run);
            (forall j | j in s.offered :: Places(s, j) == 1) <==> !PublishedInGap(INIT, run) || s.closer.Clearing?
  {
    InitInv();
    RunKeepsInv(INIT, run);
    RunMissesIff(INIT, run);
    var s := Exec(INIT, run);
    if s.lost == [] {
      forall j | j in s.offered ensures Places(s, j) == 1 { assert Accounted(s, j) == 1; }
    } else {
      TimesMember(s.lost, s.lost[0]);
      assert Accounted(s, s.lost[0]) == 1;
    }
  }

  /** No job is counted as dropped twice. */
  lemma NoJobCountedTwice(run: seq<Step>, i: nat, k: nat)
    requires Feasible(INIT, run)
    requires i < k < |Exec(INIT, run).ledger.log|
    ensures Exec(INIT, run).ledger.log[i].job != Exec(INIT, run).ledger.log[k].job
  {
    InitInv();
    RunKeepsInv(INIT, run);
    var s := Exec(INIT, run);
    assert Accounted(s, s.ledger.log[i].job) <= 1;
    if s.ledger.log[i].job == s.ledger.log[k].job { TwoEntries(s.ledger.log, i, k); }
  }

  /** A job both acknowledged and counted as dropped is in the batch close() took from the writer. */
  lemma AcknowledgedAndDropped(run: seq<Step>, j: Job)
    requires Feasible(INIT, run)
    requires j in Exec(INIT, run).confirmed && JobTimes(Exec(INIT, run).ledger.log, j) > 0
    ensures j in Exec(INIT, run).stolen
  {
    InitInv();
    RunKeepsInv(INIT, run);
    var s := Exec(INIT, run);
    assert Accounted(s, j) <= 1;
    TimesMember(s.kept, j);
    if s.inflight.Some? {
      TimesMember(s.inflight.value, j);
    }
  }

  /** The queue and the batches stay within their bounds. */
  lemma Bounded(run: seq<Step>)
    requires Feasible(INIT, run)
    ensures var s := Exec(INIT, run);
            |s.queue| <= 4096 && (IsCollecting(s.writer) || HasBatch(s.writer) ==> |s.writer.batch| <= 512)
  {
    InitInv();
    RunKeepsInv(INIT, run);
  }

  /** The counters always add up: pending, being written and written drops are the drops counted. */
  lemma CountersAddUp(run: seq<Step>)
    requires Feasible(INIT, run)
    ensures var l := Exec(INIT, run).ledger;
            |l.pending| + |l.rows| + |l.written| == |l.log| + l.projections
  {
    InitInv();
    RunKeepsInv(INIT, run);
    BalancedTotals(Exec(INIT, run).ledger);
  }

  /** Nothing is in any thread's hands. */
  ghost predicate Quiet(s: State) {
    s.hooks == map[] && WriterHolds(s.writer, s.inflight) == []
  }

  /** Counted as dropped unless a child acknowledged it; counted all the same when close() took over its batch. */
  ghost predicate SettledRight(s: State, j: Job) {
    Counted(s, j) <==> j !in s.confirmed || j in s.stolen
  }

  /**
   Once close() is done and the threads are quiet, each offered job is counted as dropped exactly when no child
   acknowledged it or close() took its batch; unless it is lost, then it is neither acknowledged nor counted.  All are
   settled so exactly when no publish fell into the gap.
   */
  lemma EveryJobSettledIff(run: seq<Step>)
    requires Feasible(INIT, run) && Closed(Exec(INIT, run)) && Quiet(Exec(INIT, run))
    ensures var s := Exec(INIT, run);
            forall j | j in s.offered ::
              if j in s.lost then !Counted(s, j) && j !in s.confirmed else SettledRight(s, j)
    ensures (forall j | j in Exec(INIT, run).offered :: SettledRight(Exec(INIT, run), j))
            <==> !PublishedInGap(INIT, run)
  {
    InitInv();
    RunKeepsInv(INIT, run);
    RunMissesIff(INIT, run);
    var s := Exec(INIT, run);
    forall j | j in s.offered
      ensures if j in s.lost then !Counted(s, j) && j !in s.confirmed else SettledRight(s, j)
    {
      OfferedIsSettled(s, j);
    }
    if s.lost != [] { assert s.lost[0] in s.offered by { LostWasOffered(s, s.lost[0]); } }
  }

  lemma LostWasOffered(s: State, j: Job)
    requires Inv(s) && j in s.lost
    ensures j in s.offered
  {
    TimesMember(s.lost, j);
    assert Accounted(s, j) == if j in s.offered then 1 else 0;
  }

  lemma OfferedIsSettled(s: State, j: Job)
    requires Inv(s) && Closed(s) && Quiet(s) && j in s.offered
    ensures if j in s.lost then !Counted(s, j) && j !in s.confirmed else SettledRight(s, j)
  {
    assert Accounted(s, j) == 1;
    TimesMember(s.kept, j);
    TimesMember(s.lost, j);
  }

  /** Drops not yet written, and jobs in a hook's or the writer's hands. */
  ghost function Unwritten(s: State): nat {
    |s.ledger.pending| + |s.hooks| + |WriterHolds(s.writer, s.inflight)|
  }

  ghost predicate SameRecord(s: State, t: State) {
    && t.offered == s.offered && t.queue == s.queue
    && t.ledger.written == s.ledger.written && t.ledger.rows == s.ledger.rows
    && Unwritten(t) == Unwritten(s)
  }

  lemma HookAfterClose(s: State, step: HookStep)
    requires Closed(s) && EnabledHook(s, step)
    ensures Closed(ApplyHook(s, step)) && SameRecord(s, ApplyHook(s, step))
  {
    if step.HookCountStep? {
      assert (s.hooks - {step.job}).Keys == s.hooks.Keys - {step.job};
      assert |(s.hooks - {step.job}).Keys| == |s.hooks.Keys| - 1;
    }
  }

  lemma WriterAfterClose(s: State, step: WriterStep)
    requires Positions(s) && Closed(s) && EnabledWriter(s, step)
    ensures Closed(ApplyWriter(s, step)) && SameRecord(s, ApplyWriter(s, step))
  {
  }

  /** After close() returned no step accepts a job, writes a drop row, or settles an unwritten one. */
  lemma StepAfterClose(s: State, step: Step)
    requires Positions(s) && Closed(s) && Enabled(s, step)
    ensures Closed(Apply(s, step)) && SameRecord(s, Apply(s, step))
  {
    match step
    case ByHook(h) => HookAfterClose(s, h);
    case ByWriter(w) => WriterAfterClose(s, w);
    case ByClose(c) =>
  }

  lemma {:induction false} RunAfterClose(s: State, run: seq<Step>)
    requires Inv(s) && Closed(s) && Feasible(s, run)
    ensures Closed(Exec(s, run)) && SameRecord(s, Exec(s, run))
    decreases |run|
  {
    if run != [] {
      StepKeepsInv(s, run[0]);
      StepAfterClose(s, run[0]);
      RunAfterClose(Apply(s, run[0]), run[1..]);
    }
  }

  /**
   close() promises that what is left is counted on disk before it returns.  It is, exactly when at
   that moment no drop is pending, no hook is between `_put_lock` and `_count_drop`, and the writer
   holds no job: every later state in which the threads are quiet has no unwritten drop then, and
   has one otherwise.
   */
  lemma AllDropsWrittenIff(s: State, run: seq<Step>)
    requires Inv(s) && Closed(s) && Feasible(s, run)
    requires Quiet(Exec(s, run))
    ensures Exec(s, run).ledger.pending == multiset{} <==>
            s.ledger.pending == multiset{} && s.hooks == map[] && WriterHolds(s.writer, s.inflight) == []
  {
    RunAfterClose(s, run);
    assert Unwritten(Exec(s, run)) == |Exec(s, run).ledger.pending|;
    assert |s.hooks| == 0 <==> s.hooks == map[];
  }

  ghost predicate Leads(s: State, run: seq<Step>, t: State) {
    Feasible(s, run) && Exec(s, run) == t
  }

  lemma Then(s: State, run: seq<Step>, t: State, step: Step)
    requires Leads(s, run, t) && Enabled(t, step)
    ensures Leads(s, run + [step], Apply(t, step))
    decreases |run|
  {
    if run == [] {
      assert [step][1..] == [];
    } else {
      assert (run + [step])[1..] == run[1..] + [step];
      Then(Apply(s, run[0]), run[1..], t, step);
    }
  }

  /** Some interleaving leads from the new plugin to this state, so all theorems about runs apply to it. */
  ghost predicate IsReachable(s: State) {
    exists run :: Leads(INIT, run, s)
  }

  lemma InitIsReachable()
    ensures IsReachable(INIT)
  {
    assert Leads(INIT, [], INIT);
  }

  lemma StepReaches(s: State, step: Step)
    requires IsReachable(s) && Enabled(s, step)
    ensures IsReachable(Apply(s, step))
  {
    var run :| Leads(INIT, run, s);
    Then(INIT, run, s, step);
  }

  /** Whoever holds `_io` for a write can write any row of the table it took over. */
  lemma RowReaches(s: State, key: Key)
    requires IsReachable(s) && (s.writer.Writing? || s.closer.LastWriting?) && key in s.ledger.rows
    ensures IsReachable(s.(ledger := WriteRow(s.ledger, key)))
  {
    if s.writer.Writing? {
      StepReaches(s, ByWriter(WriterRowStep(key)));
    } else {
      StepReaches(s, ByClose(CloserRowStep(key)));
    }
  }

  /** A plugin close() has finished with, while its writer is still collecting a batch. */
  ghost predicate ClosedOverWriter(run: seq<Step>) {
    Feasible(INIT, run) &&
    var s := Exec(INIT, run);
    && Closed(s) && s.hooks == map[] && s.ledger.pending == multiset{} && s.ledger.written == multiset{}
    && s.offered == [Job(0, "turn")] && s.writer == Collecting(s.offered)
  }

  /**
   What close() promises of the file does not hold of every run: its join can time out while the writer has
   popped a job and not yet published the batch.  By AllDropsWrittenIff that job's drop row is never
   written.
   */
  lemma CloseCanMissTheWriter()
    ensures exists run :: ClosedOverWriter(run)
  {
    var collecting := INIT.(offered := [Job(0, "turn")], writer := Collecting([Job(0, "turn")]));
    CollectedIsReachable();
    CloseAlone(collecting);
    var run :| Leads(INIT, run, collecting.(closer := Done));
    assert ClosedOverWriter(run);
  }

  /** With an empty queue, no batch and nothing pending, close() can run to its end undisturbed. */
  lemma CloseAlone(s: State)
    requires IsReachable(s) && s.closer.Open? && s.queue == [] && s.inflight == None && s.stolen == []
    requires !s.writer.Writing? && s.ledger == EMPTY
    ensures IsReachable(s.(closer := Done))
  {
    StepReaches(s, ByClose(SealStep));
    StepReaches(s.(closer := Draining), ByClose(StopStep));
    StepReaches(s.(closer := Joining), ByClose(ReadInflightStep));
    StepReaches(s.(closer := Clearing([])), ByClose(ClearInflightStep));
    FinishAlone(s.(closer := Taking([])));
  }

  lemma FinishAlone(s: State)
    requires IsReachable(s) && s.closer == Taking([]) && s.queue == [] && !s.writer.Writing? && s.ledger == EMPTY
    ensures IsReachable(s.(closer := Done))
  {
    StepReaches(s, ByClose(DrainOneStep));
    StepReaches(s.(closer := Counting([])), ByClose(CloserCountStep));
    StepReaches(s.(closer := SealingGate), ByClose(SealGateStep(0)));
    assert CountProjections(EMPTY, 0) == EMPTY && Swap(EMPTY) == EMPTY;
    StepReaches(s.(closer := LastWrite), ByClose(CloserSwapStep));
    StepReaches(s.(closer := LastWriting), ByClose(CloserReleaseStep));
    StepReaches(s.(closer := LastWritten), ByClose(FinishStep));
  }

  /** A plugin whose close() is over and whose threads are quiet, with an offered job that left no trace. */
  ghost predicate LosesJob(run: seq<Step>) {
    Feasible(INIT, run) &&
    var s := Exec(INIT, run);
    && Closed(s) && Quiet(s) && s.offered == [Job(0, "turn")]
    && s.ledger == EMPTY && s.kept == [] && s.confirmed == {} && s.queue == []
  }

  /**
   The writer has popped a job when the join times out, and publishes it between close()'s read and its clear: the job
   is neither acknowledged nor counted, by anyone.
   */
  lemma CloseCanLoseABatch()
    ensures exists run :: LosesJob(run)
  {
    var job := Job(0, "turn");
    var collected := INIT.(offered := [job], writer := Collected([job]));
    CollectedIsReachable();
    StepReaches(collected, ByClose(SealStep));
    StepReaches(collected.(closer := Draining), ByClose(StopStep));
    StepReaches(collected.(closer := Joining), ByClose(ReadInflightStep));
    StepReaches(collected.(closer := Clearing([])), ByWriter(PublishStep));
    var published := collected.(closer := Clearing([]), inflight := Some([job]), writer := Published([job]));
    StepReaches(published, ByClose(ClearInflightStep));
    assert [] + [job] == [job];
    var cleared := published.(inflight := None, closer := Taking([]), lost := [job]);
    StepReaches(cleared, ByWriter(CheckStopStep));
    StepReaches(cleared.(writer := Delivered([job], 0, ChildFailed)), ByWriter(ChooseStep));
    StepReaches(cleared.(writer := Settling([job], 0, Closing)), ByWriter(SettleStep));
    var settled := cleared.(writer := BeforeWrite(ToTaskDone));
    FinishAlone(settled);
    var run :| Leads(INIT, run, settled.(closer := Done));
    assert LosesJob(run);
  }

  lemma CollectedIsReachable()
    ensures IsReachable(INIT.(offered := [Job(0, "turn")], writer := Collecting([Job(0, "turn")])))
    ensures IsReachable(INIT.(offered := [Job(0, "turn")], writer := Collected([Job(0, "turn")])))
  {
    var job := Job(0, "turn");
    assert [] + [job] == [job] && [job][1..] == [];
    InitIsReachable();
    StepReaches(INIT, ByHook(OfferStep("turn")));
    StepReaches(INIT.(queue := [job], offered := [job]), ByWriter(GetStep));
    StepReaches(INIT.(offered := [job], writer := Collecting([job])), ByWriter(CollectedStep));
  }
}
