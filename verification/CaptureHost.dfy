/**
 The `Capture` object itself: its fields, and one method for each critical section of the hooks, of
 the writer loop and of `close()`.  Each method is one step of CaptureQueue on the object's View(), so
 every call keeps CaptureQueue's invariant (StepKeepsInv).
 */
module CaptureHost {
  import opened Prelude
  import opened DropLedger
  import opened CaptureQueue

  class Capture {
    var queue: seq<Job>
    var inflight: Option<seq<Job>>
    var isSealed: bool
    var isStopping: bool
    var isClosed: bool
    var drops: multiset<Key>
    var counted: nat               // self.counts['dropped']
    // Locals of the running threads.
    var rows: multiset<Key>        // `pending` of the _write_drops call in progress
    var hooks: map<Job, Reason>
    var writer: Writer
    var closer: Closer
    // History.
    ghost var written: multiset<Key>
    ghost var log: seq<Drop>
    ghost var projections: nat
    ghost var offered: seq<Job>
    ghost var kept: seq<Job>
    ghost var confirmed: set<Job>
    ghost var stolen: seq<Job>
    ghost var lost: seq<Job>
    var serial: nat

    ghost function View(): State
      reads this
    {
      State(queue, hooks, inflight, writer, closer, Ledger(drops, rows, written, log, projections),
            offered, kept, confirmed, stolen, lost)
    }

    ghost predicate Valid()
      reads this
    {
      && isSealed == !closer.Open? && isStopping == (isSealed && !closer.Draining?) && isClosed == closer.Done?
      && counted == |written| && serial == |offered|
      && IsReachable(View())
    }

    constructor ()
      ensures Valid() && View() == INIT
    {
      queue, inflight, drops, rows, hooks := [], None, multiset{}, multiset{}, map[];
      isSealed, isStopping, isClosed, counted, serial := false, false, false, 0, 0;
      writer, closer := Polling, Open;
      written, log, projections := multiset{}, [], 0;
      offered, kept, confirmed, stolen, lost := [], [], {}, [], [];
      new;
      InitIsReachable();
    }

    /** `_count_drop`, one more under `_dlock`. */
    method CountDrop(job: Job, reason: Reason)
      modifies `drops, `log
      ensures drops == old(drops) + multiset{Key(job.kind, reason)} && log == old(log) + [Drop(job, reason)]
    {
      drops := drops + multiset{Key(job.kind, reason)};
      log := log + [Drop(job, reason)];
    }

    /** The part of `_put` under `_put_lock`. */
    method OfferJob(kind: string)
      requires Valid()
      modifies this
      ensures Valid() && View() == Put(old(View()), kind)
      ensures var job := Job(old(serial), kind);
              if !isSealed && |old(queue)| < 4096 then queue == old(queue) + [job] && hooks == old(hooks)
              else queue == old(queue) &&
                   hooks == if isClosed then old(hooks) else old(hooks)[job := if isSealed then Closing else QueueFull]
    {
      StepReaches(View(), ByHook(OfferStep(kind)));
      if isClosed { return; }
      var job := Job(serial, kind);
      if !isSealed && |queue| < MAX_QUEUE {
        queue := queue + [job];
      } else {
        hooks := hooks[job := if isSealed then Closing else QueueFull];
      }
      serial, offered := serial + 1, offered + [job];
    }

    /** The rest of `_put` for a refused job. */
    method CountRefused(job: Job)
      requires Valid() && job in hooks
      modifies this
      ensures Valid() && View() == HookCount(old(View()), job)
    {
      StepReaches(View(), ByHook(HookCountStep(job)));
      CountDrop(job, hooks[job]);
      hooks := hooks - {job};
    }

    /** `queue.get` of `_run`, for the first job of a batch or for one more. */
    method GetJob()
      requires Valid() && EnabledWriter(View(), GetStep)
      modifies this
      ensures Valid() && View() == Get(old(View()))
    {
      StepReaches(View(), ByWriter(GetStep));
      writer := Collecting((if writer.Polling? then [] else writer.batch) + [queue[0]]);
      queue := queue[1..];
    }

    /** The batch is full, or `get_nowait` finds the queue empty. */
    method EndBatch()
      requires Valid() && EnabledWriter(View(), CollectedStep)
      modifies this
      ensures Valid() && View() == ApplyWriter(old(View()), CollectedStep)
    {
      StepReaches(View(), ByWriter(CollectedStep));
      writer := Collected(writer.batch);
    }

    /** `self._inflight = jobs`. */
    method PublishBatch()
      requires Valid() && EnabledWriter(View(), PublishStep)
      modifies this
      ensures Valid() && View() == Publish(old(View()))
    {
      StepReaches(View(), ByWriter(PublishStep));
      inflight := Some(writer.batch);
      writer := Published(writer.batch);
    }

    /** The `_stopping` test, then `_deliver`, which acknowledges a prefix of the batch. */
    method Deliver(acked: nat, why: Reason)
      requires Valid() && writer.Published?
      requires acked <= |writer.batch| && (why.ChildFailed? || why.Unavailable?)
      modifies this
      ensures Valid()
      ensures var s := old(View());
              View() == if Stopping(s) then CheckStop(s) else Ack(CheckStop(s), acked, why)
      ensures writer == if isStopping then Delivered(old(writer.batch), 0, ChildFailed)
                        else Delivered(old(writer.batch), acked, why)
    {
      StepReaches(View(), ByWriter(CheckStopStep));
      if !Stopping(View()) { StepReaches(CheckStop(View()), ByWriter(AckStep(acked, why))); }
      if isStopping {
        writer := Delivered(writer.batch, 0, ChildFailed);
      } else {
        confirmed := confirmed + (set j | j in writer.batch[..acked]);
        writer := Delivered(writer.batch, acked, why);
      }
    }

    /** The third argument of the `_settle` call. */
    method ChooseReason()
      requires Valid() && writer.Delivered?
      modifies this
      ensures Valid() && View() == Choose(old(View()))
      ensures writer == Settling(old(writer.batch), old(writer.acked), if isStopping then Closing else old(writer.why))
    {
      StepReaches(View(), ByWriter(ChooseStep));
      writer := Settling(writer.batch, writer.acked, if isStopping then Closing else writer.why);
    }

    /** `_settle` under `_io`. */
    method SettleBatch()
      requires Valid() && EnabledWriter(View(), SettleStep)
      modifies this
      ensures Valid() && View() == Settle(old(View()))
      ensures var batch, acked := old(writer.batch), old(writer.acked);
              if old(inflight) != Some(batch) then writer == BeforeWrite(ToTaskDone) && kept == old(kept)
              else kept == old(kept) + batch[..acked] && writer == Dropping(batch[acked..], old(writer.reason))
    {
      StepReaches(View(), ByWriter(SettleStep));
      if inflight != Some(writer.batch) {
        writer := BeforeWrite(ToTaskDone);
      } else {
        inflight := None;
        kept := kept + writer.batch[..writer.acked];
        writer := Dropping(writer.batch[writer.acked..], writer.reason);
      }
    }

    /** `_settle`'s loop over the jobs the child did not acknowledge. */
    method CountUnacknowledged()
      requires Valid() && writer.Dropping?
      modifies this
      ensures Valid() && View() == CountRest(old(View()))
    {
      while writer.rest != []
        invariant Valid() && writer.Dropping?
        invariant CountRest(View()) == CountRest(old(View()))
        decreases |writer.rest|
      {
        CountFirstRest();
      }
      StepReaches(View(), ByWriter(WriterCountStep));
      writer := BeforeWrite(ToTaskDone);
    }

    method CountFirstRest()
      requires Valid() && writer.Dropping? && writer.rest != []
      modifies this
      ensures Valid() && View() == WriterCount(old(View()))
    {
      StepReaches(View(), ByWriter(WriterCountStep));
      CountDrop(writer.rest[0], writer.reason);
      writer := Dropping(writer.rest[1..], writer.reason);
    }

    /** The `queue.Empty` branch of `_run`. */
    method IdleRound()
      requires Valid() && EnabledWriter(View(), GetEmptyStep)
      modifies this
      ensures Valid() && View() == ApplyWriter(old(View()), GetEmptyStep)
    {
      StepReaches(View(), ByWriter(GetEmptyStep));
      writer := BeforeWrite(ToPoll);
    }

    /** `_write_drops` of the writer, up to the swap of the table. */
    method BeginWrite()
      requires Valid() && EnabledWriter(View(), WriterSwapStep)
      modifies this
      ensures Valid() && View() == WriterSwap(old(View()))
    {
      StepReaches(View(), ByWriter(WriterSwapStep));
      if isClosed {
        writer := AfterWrite(writer.resume);
      } else {
        rows, drops := rows + drops, multiset{};
        writer := Writing(writer.resume);
      }
    }

    /** One row of `_write_drops`: append it and count it. */
    method WriteOneRow(key: Key)
      requires Valid() && (writer.Writing? || closer.LastWriting?) && key in rows
      modifies this
      ensures Valid() && View() == old(View()).(ledger := WriteRow(old(View()).ledger, key))
      ensures counted == old(counted) + old(rows)[key] && rows == old(rows)[key := 0]
    {
      ghost var before := View();
      RowReaches(before, key);
      counted := counted + rows[key];
      written := written[key := written[key] + rows[key]];
      rows := rows[key := 0];
      assert View() == before.(ledger := WriteRow(before.ledger, key));
    }

    /** The writer's `_write_drops` returns, and the loop goes round or ends. */
    method EndWrite()
      requires Valid() && (writer.AfterWrite? || (writer.Writing? && rows == multiset{}))
      modifies this
      ensures Valid()
      ensures var s := old(View());
              View() == WriterResume(if s.writer.Writing? then ApplyWriter(s, WriterReleaseStep) else s)
      ensures writer == if old(writer.resume).ToPoll? && isStopping then Exited else Polling
    {
      ghost var released := if writer.Writing? then ApplyWriter(View(), WriterReleaseStep) else View();
      if writer.Writing? { StepReaches(View(), ByWriter(WriterReleaseStep)); }
      StepReaches(released, ByWriter(WriterResumeStep));
      writer := if writer.resume.ToPoll? && isStopping then Exited else Polling;
    }

    /** close() sets `_sealed` under `_put_lock`; a second close() does nothing. */
    method Seal()
      requires Valid()
      modifies this
      ensures Valid()
      ensures View() == if Sealed(old(View())) then old(View()) else ApplyClose(old(View()), SealStep)
    {
      if isSealed { return; }
      StepReaches(View(), ByClose(SealStep));
      isSealed, closer := true, Draining;
    }

    /** close() gives up waiting and sets `_stopping`. */
    method Stop()
      requires Valid() && closer.Draining?
      modifies this
      ensures Valid() && View() == ApplyClose(old(View()), StopStep)
    {
      StepReaches(View(), ByClose(StopStep));
      isStopping, closer := true, Joining;
    }

    /** `list(self._inflight or [])` of close(), under `_io`. */
    method ReadBatch()
      requires Valid() && EnabledClose(View(), ReadInflightStep)
      modifies this
      ensures Valid() && View() == ReadInflight(old(View()))
    {
      StepReaches(View(), ByClose(ReadInflightStep));
      closer := Clearing(if inflight.Some? then inflight.value else []);
    }

    /** The assignment to `left` and the field, still under `_io`. */
    method ClearBatch()
      requires Valid() && closer.Clearing?
      modifies this
      ensures Valid() && View() == ClearInflight(old(View()))
    {
      StepReaches(View(), ByClose(ClearInflightStep));
      if inflight.Some? && inflight.value != closer.left { lost := lost + inflight.value; }
      assert lost + [] == lost;
      stolen, closer, inflight := closer.left, Taking(closer.left), None;
    }

    /** close()'s loop over `get_nowait`. */
    method DrainQueue()
      requires Valid() && closer.Taking?
      modifies this
      ensures Valid() && View() == DrainAll(old(View()))
    {
      while queue != []
        invariant Valid() && closer.Taking?
        invariant DrainAll(View()) == DrainAll(old(View()))
        decreases |queue|
      {
        StepReaches(View(), ByClose(DrainOneStep));
        closer := Taking(closer.left + [queue[0]]);
        queue := queue[1..];
      }
      StepReaches(View(), ByClose(DrainOneStep));
      closer := Counting(closer.left);
    }

    /** close()'s loop over `left`. */
    method CountWhatIsLeft()
      requires Valid() && closer.Counting?
      modifies this
      ensures Valid() && View() == CountLeft(old(View()))
    {
      while closer.left != []
        invariant Valid() && closer.Counting?
        invariant CountLeft(View()) == CountLeft(old(View()))
        decreases |closer.left|
      {
        CountFirstLeft();
      }
      StepReaches(View(), ByClose(CloserCountStep));
      closer := SealingGate;
    }

    method CountFirstLeft()
      requires Valid() && closer.Counting? && closer.left != []
      modifies this
      ensures Valid() && View() == CloserCount(old(View()))
    {
      StepReaches(View(), ByClose(CloserCountStep));
      CountDrop(closer.left[0], Closing);
      closer := Counting(closer.left[1..]);
    }

    /** `_seal_gate` found `unsettled` projections that will never write. */
    method SealGate(unsettled: nat)
      requires Valid() && closer.SealingGate?
      modifies this
      ensures Valid() && View() == ApplyClose(old(View()), SealGateStep(unsettled))
    {
      StepReaches(View(), ByClose(SealGateStep(unsettled)));
      drops := drops[PROJECTION := drops[PROJECTION] + unsettled];
      projections := projections + unsettled;
      closer := LastWrite;
    }

    /** close()'s own `_write_drops`, up to the swap of the table. */
    method BeginLastWrite()
      requires Valid() && EnabledClose(View(), CloserSwapStep)
      modifies this
      ensures Valid() && View() == ApplyClose(old(View()), CloserSwapStep)
    {
      StepReaches(View(), ByClose(CloserSwapStep));
      rows, drops := rows + drops, multiset{};
      closer := LastWriting;
    }

    /** close()'s `_write_drops` returns, then `_closed` is set under both locks. */
    method FinishClose()
      requires Valid() && closer.LastWriting? && rows == multiset{} && !writer.Writing?
      modifies this
      ensures Valid()
      ensures View() == ApplyClose(ApplyClose(old(View()), CloserReleaseStep), FinishStep)
    {
      StepReaches(View(), ByClose(CloserReleaseStep));
      StepReaches(ApplyClose(View(), CloserReleaseStep), ByClose(FinishStep));
      isClosed, closer := true, Done;
    }
  }

  /**
   What a caller of the object can rely on between any two of its calls, whatever the threads did before: some run of
   CaptureQueue led here, and every offered job is where that run put it, or was lost in the gap of ClearBatch.
   */
  lemma ObjectKeepsPromises(c: Capture)
    requires c.Valid()
    ensures exists run ::
              && Leads(INIT, run, c.View()) && Inv(c.View())
              && ((forall j | j in c.offered :: Places(c.View(), j) == 1) <==>
                  !PublishedInGap(INIT, run) || c.closer.Clearing?)
    ensures |c.queue| <= MAX_QUEUE
    ensures |c.drops| + |c.rows| + |c.written| == |c.log| + c.projections
  {
    var run :| Leads(INIT, run, c.View());
    InitInv();
    RunKeepsInv(INIT, run);
    NoJobLostIff(run);
    Bounded(run);
    CountersAddUp(run);
  }
}
