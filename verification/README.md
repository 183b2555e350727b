# Verified models of z0intelligence's stateful cores

Dafny models of the parts of z0intelligence whose correctness depends on interleavings, histories or arithmetic that
one body does not show, with proofs of what each is for.

- **Hermes capture** (`CaptureQueue`, `CaptureRuns`, `DropLedger`, `CaptureDrops`, `CaptureHost`, `CaptureTurns`): hooks,
  one writer and a bounded `close()` share a queue, an in-flight batch and drop counters. A run is any interleaving of
  their reads, writes and critical sections.
- **OptChat turns** (`OptChatOwner`, `OptChatTurn`, `OptChatTalk`, `OptChatEnds`, `OptChatLost`, `OptChatHost`):
  inputs start, join, wait for or cancel the one drain of a client; the RPC server queues and logs texts. A step is a
  stretch of code between awaits.
- **z0int bridge** (`BridgeTurns`, `WorkerSwap`, `DeferredReload`): open turns and their token sums; starting and
  swapping the worker; the reload that waits for open turns.
- **Prefix caches** (`CausalModel`, `PrefixCache`, `SharedScorer`): cached and batched scoring over an abstract
  causal model.
- **Statistics** (`Calibration`, `CalibrationError`, `InformationGain`, `GainTerms`, `AnchoredReadout`, `Evaluate`), over
  reals.
- **Archive and graphs** (`Pareto`, `PayloadIsolation`, `PayloadTrees`, `PrOrder`).
- **RPC framing** (`LineFraming`, `RpcClient`, `RpcAnswers`) and the **link installer** (`LinkInstaller`, `LinkRecovery`).

Code that changes fields step by step is a class whose methods are proved equal to step functions on the object's
view; the theorems are about those functions, over every run. `Prelude`, `Picking`, `Sums` and `Circles` hold shared
values and lemmas. `dafny verify dfyconfig.toml` checks everything.

Parameters stand for what the code calls and this model does not contain: the language model (`Model`), tokenizers,
the state equality, the binary logarithm and the exponential (functions with the laws used), link resolution, JSON
parsing (the id a line carries), lower-casing and the alphanumeric test of keys, and the numbers a regular expression
finds in a pull-request body. Time, processes and the network are steps that may happen in any order.

Where the code and its documentation differ, the model follows the code:

- `close()` of the capture is documented to count whatever is left. It reads the in-flight batch and then clears it,
  while the writer publishes a batch without that lock: a batch published in between is lost without a count
  (`CaptureQueue.CloseCanLoseABatch`; exactly when: `CaptureQueue.NoJobLostIff`).
- `close()` is also documented to leave every drop in the file. It does so exactly when the writer holds
  nothing and no hook is between refusal and counting (`CaptureQueue.AllDropsWrittenIff`); a run where that fails is
  `CaptureQueue.CloseCanMissTheWriter`, and `CaptureDrops.LastPassDecides` says which drops are in the file.
- The bridge calls its reload a transactional generation swap. A start and a reload can overlap. Then a worker can be
  left running unknown (`WorkerSwap.OverlapOrphans`; exactly when: `WorkerSwap.OrphansComeFrom`,
  `WorkerSwap.AlwaysKnownIff`), and the generation can go back, after a start that outlives two reloads or a reload that
  outlives two starts (exactly when: `WorkerSwap.InstallsCompareWithBegin`). A reload that waits can swap the worker
  under a turn that opened meanwhile (exactly when: `WorkerSwap.SwapsUnderTurnIff`).
- A reload is announced as deferred until the turn ends. It can stay behind when the turn goes without `agent_end`
  (`DeferredReload.FailedOpenStrands`; exactly when: `DeferredReload.StrandedIff`).
- The installer is documented to keep the first listing as the rollback point. A crash while it is written leaves a
  torn file that later runs keep (`LinkRecovery.BackupIsFirstListing`).
- An install can leave a temporary link of an earlier crash behind; `LinkRecovery.FinishesIffTidy` says exactly when.
- The payload walk answers "payload must be acyclic" for shared containers that form no cycle
  (`PayloadTrees.SharedIffRejected`).
- `ece` is 0 whenever all values are equal, however wrong they are (`CalibrationError.BoundsMiscalibrationIff`).
- A closed key is remembered through 2048 later recorded keys; after 2049 it can be gone
  (`CaptureTurns.SomeKeyIsForgotten`).

## Model

| member | source | states |
|---|---|---|
| `DropLedger.CountKeepsBalance` | harness-adapters/hermes-z0intelligence/__init__.py:450-452 | counting a drop keeps, for every (kind, reason), pending + being written + written equal to the drops counted so far |
| `DropLedger.WritingKeepsBalance` | harness-adapters/hermes-z0intelligence/__init__.py:454-467 | swapping the table out, writing its rows and counting unsettled projections keep that balance |
| `DropLedger.BalancedTotals` | harness-adapters/hermes-z0intelligence/__init__.py:450-467 | in a balanced ledger the three tables together hold exactly as many entries as drops were counted |
| `CaptureQueue.StepKeepsInv` | harness-adapters/hermes-z0intelligence/__init__.py:436-622 | every enabled step of a hook, the writer or close() keeps the whole invariant: each offered job in one place or lost, balanced counters, bounded queue and batch |
| `CaptureQueue.RunKeepsInv` | harness-adapters/hermes-z0intelligence/__init__.py:436-622 | the invariant holds after every interleaving, of any length |
| `CaptureQueue.PlacedOrLost` | harness-adapters/hermes-z0intelligence/__init__.py:436-588 | in every interleaving each offered job is in exactly one place (queued, with a hook, the writer or close(), acknowledged, or counted as dropped), or in the batch that close() cleared unread; that batch was not acknowledged, and nothing else is anywhere |
| `CaptureQueue.NoJobLostIff` | harness-adapters/hermes-z0intelligence/__init__.py:494-575 | over every run no offered job is lost exactly when the writer publishes no batch between close()'s read of the in-flight field and its clear |
| `CaptureQueue.CloseCanLoseABatch` | harness-adapters/hermes-z0intelligence/__init__.py:479-588 | a run with such a publish, after which close() is done, the threads are quiet, and the job was neither acknowledged nor counted |
| `CaptureQueue.NoJobCountedTwice` | harness-adapters/hermes-z0intelligence/__init__.py:436-588 | no job is counted as dropped twice, in any interleaving |
| `CaptureQueue.AcknowledgedAndDropped` | harness-adapters/hermes-z0intelligence/__init__.py:506-541 | a job that was acknowledged and counted as dropped was in the in-flight batch that close() took |
| `CaptureQueue.Bounded` | harness-adapters/hermes-z0intelligence/__init__.py:40-41 | the queue never holds more than 4096 jobs and a batch never more than 512 |
| `CaptureQueue.CountersAddUp` | harness-adapters/hermes-z0intelligence/__init__.py:450-467 | rows written, being written and pending together number the counted drops and unsettled projections |
| `CaptureQueue.EveryJobSettledIff` | harness-adapters/hermes-z0intelligence/__init__.py:557-588 | once close() is done and writer and hooks are quiet, an offered job is counted as dropped exactly when no child acknowledged it or close() took its batch; this is so of every job exactly when no publish fell into that gap, and a lost job is neither acknowledged nor counted |
| `CaptureQueue.StepAfterClose` | harness-adapters/hermes-z0intelligence/__init__.py:479-588 | after close() no step adds a job or takes back what the record says about one |
| `CaptureQueue.RunAfterClose` | harness-adapters/hermes-z0intelligence/__init__.py:479-588 | the same over every run that continues after close() |
| `CaptureQueue.AllDropsWrittenIff` | harness-adapters/hermes-z0intelligence/__init__.py:557-588 | after close() all drops reach the file exactly when, as close() returned, nothing was pending, no hook was between refusal and counting, and the writer held no jobs |
| `CaptureDrops.LastPassDecides` | harness-adapters/hermes-z0intelligence/__init__.py:454-588 | in every run, once close() is done, the file holds exactly the drops counted before the drop table was last taken over (by the writer before closing, or by close()), and the table for good exactly the later ones, key by key |
| `CaptureDrops.JoinedCloseWritesIff` | harness-adapters/hermes-z0intelligence/__init__.py:557-588 | when the writer had ended by the join, all drops reach the file exactly when, as close() returned, nothing was pending and no hook was still to count |
| `CaptureQueue.CloseCanMissTheWriter` | harness-adapters/hermes-z0intelligence/__init__.py:557-588 | a run in which close() finishes while the writer still holds a job: what close() promises about the drop file fails there |
| `CaptureQueue.CountRestCounts` | harness-adapters/hermes-z0intelligence/__init__.py:506-512 | settling a batch counts exactly its unacknowledged jobs, each once, with the given reason |
| `CaptureQueue.CountLeftCounts` | harness-adapters/hermes-z0intelligence/__init__.py:557-588 | close() counts exactly the jobs it took over, each once |
| `CaptureQueue.DrainAllDrains` | harness-adapters/hermes-z0intelligence/__init__.py:557-588 | close() empties the queue in order into the jobs it is going to count |
| `CaptureRuns.RecordsAreTrue` | harness-adapters/hermes-z0intelligence/__init__.py:436-588 | over every run the history the theorems speak of is what happened: the jobs hooks offered before the end, the prefixes of the batches that children acknowledged, and the projections close() found unsettled |
| `CaptureRuns.FirstInFirstOut` | harness-adapters/hermes-z0intelligence/__init__.py:436-492 | over every run the writer and close() take the jobs in the order in which they were queued; a hook queues one exactly when the plugin is not sealed and fewer than 4096 wait, and the batch in hand is what the writer took last |
| `CaptureRuns.ReasonsAreTrue` | harness-adapters/hermes-z0intelligence/__init__.py:436-512 | over every run each drop is counted for its true reason: queue_full exactly for a job offered to a full queue, a child reason only for what that child left of a batch settled before stopping, closed only for what was offered or under way after close() began |
| `CaptureRuns.CloseCanAlwaysFinish` | harness-adapters/hermes-z0intelligence/__init__.py:454-588 | from every state that a run reaches close() can be run to its end: no lock and no order of steps keeps it from returning |
| `CaptureRuns.WriterIsNeverStuck` | harness-adapters/hermes-z0intelligence/__init__.py:454-512 | until it exits the writer has a next step, or close() holds the lock it waits for |
| `CaptureHost.Capture.OfferJob` | harness-adapters/hermes-z0intelligence/__init__.py:436-448 | a hook queues its job, or is refused because the capture is closed, sealed or full -- as the step of CaptureQueue on the object, which stays reachable |
| `CaptureHost.Capture.Deliver` | harness-adapters/hermes-z0intelligence/__init__.py:514-541 | any number of leading jobs is acknowledged, none once close() stops the writer -- as the step of CaptureQueue on the object, which stays reachable |
| `CaptureHost.Capture.PublishBatch` | harness-adapters/hermes-z0intelligence/__init__.py:494 | the writer stores its batch in the in-flight field, whoever holds a lock -- as the step of CaptureQueue on the object, which stays reachable |
| `CaptureHost.Capture.ChooseReason` | harness-adapters/hermes-z0intelligence/__init__.py:501 | the reason is chosen before the lock is waited for -- as the step of CaptureQueue on the object, which stays reachable |
| `CaptureHost.Capture.SettleBatch` | harness-adapters/hermes-z0intelligence/__init__.py:506-512 | the writer settles its batch, or finds it no longer in the field -- as the step of CaptureQueue on the object, which stays reachable |
| `CaptureHost.Capture.CountUnacknowledged` | harness-adapters/hermes-z0intelligence/__init__.py:506-512 | a loop that counts each unacknowledged job -- as the step of CaptureQueue on the object, which stays reachable |
| `CaptureHost.Capture.BeginWrite` | harness-adapters/hermes-z0intelligence/__init__.py:454-467 | the drop table is swapped out unless the capture is closed -- as the step of CaptureQueue on the object, which stays reachable |
| `CaptureHost.Capture.EndWrite` | harness-adapters/hermes-z0intelligence/__init__.py:454-504 | the write lock is released, and the loop goes round or ends -- as the step of CaptureQueue on the object, which stays reachable |
| `CaptureHost.Capture.Seal` | harness-adapters/hermes-z0intelligence/__init__.py:557-588 | close() seals once; a second close changes nothing -- as the step of CaptureQueue on the object, which stays reachable |
| `CaptureHost.Capture.ReadBatch` | harness-adapters/hermes-z0intelligence/__init__.py:574-575 | close() reads the in-flight batch, if there is one -- as the step of CaptureQueue on the object, which stays reachable |
| `CaptureHost.Capture.ClearBatch` | harness-adapters/hermes-z0intelligence/__init__.py:575 | close() then clears the field, with what was published since -- as the step of CaptureQueue on the object, which stays reachable |
| `CaptureHost.Capture.DrainQueue` | harness-adapters/hermes-z0intelligence/__init__.py:557-588 | a loop that empties the queue -- as the step of CaptureQueue on the object, which stays reachable |
| `CaptureHost.Capture.CountWhatIsLeft` | harness-adapters/hermes-z0intelligence/__init__.py:557-588 | a loop that counts what close() took -- as the step of CaptureQueue on the object, which stays reachable |
| `CaptureHost.ObjectKeepsPromises` | harness-adapters/hermes-z0intelligence/__init__.py:436-622 | between any two calls every valid object is in the state some interleaving leads to, in which every offered job has its one place exactly when no publish fell into the gap; the queue is bounded and the counters add up |
| `CaptureTurns.Bounded` | harness-adapters/hermes-z0intelligence/__init__.py:297-301 | after any sequence of openings and closings at most 1024 turns are open and at most 4096 keys remembered |
| `CaptureTurns.EndedIsSuffix` | harness-adapters/hermes-z0intelligence/__init__.py:416-426 | the remembered keys are exactly the last Remembered(n) of the n recorded closings |
| `CaptureTurns.ClosedKeyIsRemembered` | harness-adapters/hermes-z0intelligence/__init__.py:416-426 | a closed key stays remembered while at most 2048 later keys are recorded |
| `CaptureTurns.ForgottenAfter2049` | harness-adapters/hermes-z0intelligence/__init__.py:416-426 | after 4097 different recorded keys the one with 2049 later ones is gone |
| `CaptureTurns.SomeKeyIsForgotten` | harness-adapters/hermes-z0intelligence/__init__.py:416-426 | such a run exists, so the bound of 2048 is sharp |
| `CaptureTurns.OneOutcomePerOpening` | harness-adapters/hermes-z0intelligence/__init__.py:281-352 | every outcome comes from a genuine opening, and no two from the same one |
| `CaptureTurns.OutcomesOfOneKeyAreFarApart` | harness-adapters/hermes-z0intelligence/__init__.py:416-426 | two outcomes of one key lie at least 2049 recorded keys apart |
| `CaptureTurns.OpenTurnIsLatest` | harness-adapters/hermes-z0intelligence/__init__.py:297-301 | an open turn is the latest opening of its key |
| `CaptureTurns.OpenTurnSurvives` | harness-adapters/hermes-z0intelligence/__init__.py:297-301 | a turn that was opened and not closed is still open while at most 1023 turns have been opened after it, of whatever keys |
| `CaptureTurns.TurnBook.StoreTurn` | harness-adapters/hermes-z0intelligence/__init__.py:297-301 | opening a turn replaces its key, and evicts the oldest beyond 1024 |
| `CaptureTurns.TurnBook.Close` | harness-adapters/hermes-z0intelligence/__init__.py:416-426 | closing records the key, forgets the oldest 2048 beyond 4096, and yields an outcome exactly for a known unclosed key |
| `OptChatOwner.ServeKeepsPlaces` | src/z0int/optchat/__main__.py:136-200 | handling a request moves texts between queue, owner and log without losing or copying one |
| `OptChatOwner.ContinueKeepsPlaces` | omp-extensions/z0-optchat/turn.ts:363-453 | no stretch of drain or freshCall loses or copies a text |
| `OptChatOwner.SubmitIsQueuedIff` | src/z0int/optchat/__main__.py:160-192 | a submitted text is queued exactly when OptChat is on and the server does not refuse it, and its submission is accepted exactly when, besides, the reply arrives |
| `OptChatOwner.TimedOutReply` | omp-extensions/z0-optchat/turn.ts:343-350 | a request that was handled but whose reply timed out keeps the texts where they are exactly when the request was harmless: nothing queued to take, nothing handed over to log twice |
| `OptChatOwner.LostReplyOfTake` | omp-extensions/z0-optchat/turn.ts:424-425 | a lost reply to take loses exactly the queued texts |
| `OptChatOwner.LostReplyOfBegin` | omp-extensions/z0-optchat/turn.ts:427-429 | a lost reply to begin logs exactly the unlogged texts a second time |
| `OptChatOwner.LostReplyOfAbort` | omp-extensions/z0-optchat/turn.ts:441-443 | a lost reply to abort leaves the owner holding texts that are already logged |
| `OptChatLost.ConservedIffHarmless` | omp-extensions/z0-optchat/turn.ts:343-453 | over every run in which replies to handled requests can be lost, each submitted text is in exactly one place and no other text is anywhere, exactly when every lost reply was harmless |
| `OptChatLost.NextOffIff` | omp-extensions/z0-optchat/turn.ts:343-453 | a harmful lost reply loses or copies a text, and no later step brings it back or takes the copy away |
| `OptChatTurn.StepKeepsInv` | omp-extensions/z0-optchat/turn.ts:354-484 | every stretch of any input, drain or server keeps the invariant |
| `OptChatTurn.RunKeepsInv` | omp-extensions/z0-optchat/turn.ts:354-484 | the invariant holds after every interleaving |
| `OptChatTurn.OneDrainAtATime` | omp-extensions/z0-optchat/turn.ts:463-484 | in every interleaving at most one drain runs, and it is the one in the slot |
| `OptChatTurn.AwaitedDrainsExist` | omp-extensions/z0-optchat/turn.ts:463-484 | the drain an input waits for runs, or has ended so that the wait can settle |
| `OptChatTurn.ReturnedInputIsLogged` | omp-extensions/z0-optchat/turn.ts:354-484 | once runTurn has returned, the text is in the log exactly once if the server took its submit and nowhere otherwise; it is never queued, held or stranded |
| `OptChatTurn.InputsConserved` | omp-extensions/z0-optchat/turn.ts:354-453 | each text whose submit the server took, whether its reply arrived or not, is in exactly one of queue, owner, log and, after a refused abort, the stranded texts; nothing else is anywhere |
| `OptChatTurn.DrainLeavesNothing` | omp-extensions/z0-optchat/turn.ts:363-453 | when a drain has ended and its abort, if any, was not refused, the queue is empty, the drain holds nothing and no submission is outstanding: no lost wakeup |
| `OptChatTurn.EveryInputLoggedOnce` | omp-extensions/z0-optchat/turn.ts:354-484 | with no abort refused and no drain running, every submitted text is logged exactly once and the queue is empty |
| `OptChatHost.RpcServer.Answer` | src/z0int/optchat/__main__.py:136-200 | the server side of take, begin, boundary, record, finish and abort: switched off it refuses all but the last two, and in shadow mode still records -- as the step of the model on the object |
| `OptChatHost.RpcServer.Submit` | src/z0int/optchat/__main__.py:136-200 | a submitted text is queued unless the switch is off -- as the step of the model on the object |
| `OptChatHost.TurnOwner.AfterStatus` | omp-extensions/z0-optchat/turn.ts:393-403 | with OptChat off the drain is cancelled; an empty queue closes the owner, otherwise the view must be ready -- as the step of the model on the object, keeping the owner invariant |
| `OptChatHost.TurnOwner.AfterFinish` | omp-extensions/z0-optchat/turn.ts:398-401 | the drain returns only on an empty finish, otherwise it opens again -- as the step of the model on the object, keeping the owner invariant |
| `OptChatHost.TurnOwner.AfterTake` | omp-extensions/z0-optchat/turn.ts:424-425 | the taken texts become unlogged -- as the step of the model on the object, keeping the owner invariant |
| `OptChatHost.TurnOwner.AfterBegin` | omp-extensions/z0-optchat/turn.ts:427-430 | an opened view clears the unlogged texts and calls the model; any other answer unwinds the drain -- as the step of the model on the object, keeping the owner invariant |
| `OptChatHost.TurnOwner.AfterBoundary` | omp-extensions/z0-optchat/turn.ts:343-346 | queued texts are taken for injection -- as the step of the model on the object, keeping the owner invariant |
| `OptChatHost.TurnOwner.AfterRecord` | omp-extensions/z0-optchat/turn.ts:346-349 | an injected text leaves the unlogged ones once it is recorded -- as the step of the model on the object, keeping the owner invariant |
| `OptChatHost.TurnOwner.AfterAbort` | omp-extensions/z0-optchat/turn.ts:441-443 | the unlogged texts are forgotten only after abort took them -- as the step of the model on the object, keeping the owner invariant |
| `OptChatHost.TurnOwner.SubmissionSettles` | omp-extensions/z0-optchat/turn.ts:354-361 | a refused submission aborts the owner -- as the step of the model on the object, keeping the owner invariant |
| `OptChatHost.Owners.EnterPass` | omp-extensions/z0-optchat/turn.ts:463-484 | an input starts a drain, joins it, waits for it or cancels it -- as the step of the model on the object |
| `OptChatHost.Owners.Leave` | omp-extensions/z0-optchat/turn.ts:446-453 | a drain frees the slot only if it is still its own -- as the step of the model on the object |
| `OptChatTalk.DrainsKeepToGrammar` | omp-extensions/z0-optchat/turn.ts:273-453 | over every run the conversation of every drain with server and model keeps to one grammar of requests and replies: what is queued is taken once the view is ready, what was taken is begun, the model is called on an opened view, all queued texts are recorded before it is called on, a complete answer is persisted and finished, and only texts still held are handed to abort |
| `OptChatTalk.EveryOpeningIsAnswered` | omp-extensions/z0-optchat/turn.ts:393-434 | over every run each view a drain opened is answered by the model and then finished before another is opened, and when a drain ends on an empty finish no text it logged is left without a completed answer |
| `OptChatTalk.DrainsEndSo` | omp-extensions/z0-optchat/turn.ts:398-445 | a drain whose promise resolved ended on an empty finish, or was cancelled and its last finish accepted; one whose promise rejected ended on a refused abort or after a last finish |
| `OptChatTalk.AbortedAsksNothing` | omp-extensions/z0-optchat/turn.ts:96-102 | once aborted, a drain can only finish or hand back what it holds: it asks for no status, texts, view or record |
| `OptChatTalk.GivesUpOnlyFor` | omp-extensions/z0-optchat/turn.ts:363-453 | a drain enters its catch block only once aborted, when a check or the model throws or calls it off, or for a reply it cannot go on with |
| `OptChatTalk.RefusedSubmitAborts` | omp-extensions/z0-optchat/turn.ts:354-361 | a submission that settles aborts its drain exactly when it was refused, unless the drain was aborted before |
| `OptChatTalk.DrainsServeOneSession` | omp-extensions/z0-optchat/turn.ts:463-478 | over every run no drain is given a text of another session than its own |
| `OptChatTalk.InputsEndSo` | omp-extensions/z0-optchat/turn.ts:354-361 | over every run runTurn throws exactly when the submit of its input was refused or a drain it waited for rejected, and returns exactly when the drain that has its text resolved |
| `OptChatEnds.DrainsCanAlwaysEnd` | omp-extensions/z0-optchat/turn.ts:363-461 | from every state that a run reaches every running drain can be brought to its end, so the promise that waiting inputs and cancelTurn await can settle: no drain, submission or input waits in a circle |
| `OptChatHost.RpcServer.SetEnabled` | src/z0int/optchat/__main__.py:138-147 | switching off logs what is queued, switching either way ends shadow mode -- as the step of the model on the object |
| `OptChatHost.EnterTurnEnters` | omp-extensions/z0-optchat/turn.ts:463-484 | the step of the whole system treats a running owner exactly as EnterPass does |
| `BridgeTurns.EveryTurnLeavesOnce` | omp-extensions/z0int-bridge/index.ts:716-891 | in every run each opened turn that is no longer open left exactly once, and an open one has not left |
| `BridgeTurns.SessionsAreApart` | omp-extensions/z0int-bridge/index.ts:716-723 | closing a session leaves the turns of the other sessions as they were |
| `BridgeTurns.CloseReportsItsMessages` | omp-extensions/z0int-bridge/index.ts:665-746 | a close reports the token sums of exactly the turn_end messages that came since its session last opened a turn, complete exactly when there was one and all carried usage |
| `BridgeTurns.OpenTurnsAre` | omp-extensions/z0int-bridge/index.ts:716-891 | over every run a session has an open turn exactly when its last open was neither closed, nor failed, nor evicted past its age; the turn holds the number and time of that open and the sums over the turn_end messages since |
| `BridgeTurns.OnlyClosesReport` | omp-extensions/z0int-bridge/index.ts:716-746 | nothing but the close of an open turn reports anything |
| `BridgeTurns.RunKeepsInv` | omp-extensions/z0int-bridge/index.ts:382-891 | the turn invariant holds along every run |
| `BridgeTurns.Bridge.Start` | omp-extensions/z0int-bridge/index.ts:825-852 | opening replaces, and counts, a turn the session left open |
| `BridgeTurns.Bridge.StartFailed` | omp-extensions/z0int-bridge/index.ts:853-862 | a failed start removes the turn it opened |
| `BridgeTurns.Bridge.OnTurnEnd` | omp-extensions/z0int-bridge/index.ts:665-674 | a message adds its usage to the open turn of its session |
| `BridgeTurns.Bridge.Close` | omp-extensions/z0int-bridge/index.ts:716-746 | the turn leaves before its report is made |
| `BridgeTurns.Bridge.EvictStale` | omp-extensions/z0int-bridge/index.ts:382-389 | exactly the turns older than the limit leave, each counted |
| `WorkerSwap.OrphansComeFrom` | omp-extensions/z0int-bridge/index.ts:238-445 | the workers that run without anybody knowing them after a step are exactly those before it that did not exit, one whose wait ended without stopping it, and one that a start overwrote |
| `WorkerSwap.AlwaysKnownIff` | omp-extensions/z0int-bridge/index.ts:238-445 | over every run, however starts and reloads overlap, every running worker is current or waited for all along exactly when no step lets a running worker go or overwrites one |
| `WorkerSwap.OneWorkerAtRest` | omp-extensions/z0int-bridge/index.ts:238-445 | in such a run, once nothing is waited for, only the current worker runs |
| `WorkerSwap.GoesBackIff` | omp-extensions/z0int-bridge/index.ts:343-445 | a step lowers the generation exactly when it installs a worker that was started with a lower one; no other step changes it |
| `WorkerSwap.InstallsCompareWithBegin` | omp-extensions/z0int-bridge/index.ts:343-445 | in every run an install sets the generation that stood when its start or reload began, plus one: it raises the generation by one exactly when that still stands, keeps it exactly when it has risen by one since, and lowers it exactly when it has risen by two or more |
| `WorkerSwap.GenerationsAscend` | omp-extensions/z0int-bridge/index.ts:343-445 | while no start and reload are in flight together, every install raises the generation by one and no start overwrites a running worker; calls that change nothing are allowed |
| `WorkerSwap.OverlapOrphans` | omp-extensions/z0int-bridge/index.ts:343-445 | a run: a start that finishes after a reload overwrites the reloaded worker, which keeps running |
| `WorkerSwap.StartTurnsGenerationBack` | omp-extensions/z0int-bridge/index.ts:343-445 | a run: a start that outlives two reloads sets the generation back from 2 to 1 |
| `WorkerSwap.ReloadTurnsGenerationBack` | omp-extensions/z0int-bridge/index.ts:343-445 | a run: so does a reload that outlives two starts |
| `WorkerSwap.SwapsUnderTurnIff` | omp-extensions/z0int-bridge/index.ts:391-434 | in every run a reload begins with no turn open, and swaps the worker under an open turn exactly when more turns opened than closed since it began |
| `WorkerSwap.ReloadSwapsUnderTurn` | omp-extensions/z0int-bridge/index.ts:391-434 | a run in which that happens: the turn opens on the current worker while a reload waits, and its worker is told to stop |
| `WorkerSwap.StepDoes` | omp-extensions/z0int-bridge/index.ts:238-445 | exactly these events spawn a worker (a start without a live one, a reload without open turns, neither twice), stop one (a hello that failed for good, a failed self check, a replacing reload, stopWorker) and change the current one |
| `WorkerSwap.Bridge.FlightFails` | omp-extensions/z0int-bridge/index.ts:254-279 | a start or reload that fails is over, and its worker stopped or left as it is |
| `WorkerSwap.Bridge.StopCurrent` | omp-extensions/z0int-bridge/index.ts:368-373 | the current worker is told to stop and is current no more |
| `WorkerSwap.Bridge.EnsureWorkerUp` | omp-extensions/z0int-bridge/index.ts:343-366 | at most one start is in flight |
| `WorkerSwap.Bridge.ReloadWorker` | omp-extensions/z0int-bridge/index.ts:391-404 | at most one reload is in flight, deferred while a turn is open |
| `WorkerSwap.Bridge.FinishStart` | omp-extensions/z0int-bridge/index.ts:356-361 | the started worker becomes current |
| `WorkerSwap.Bridge.FinishReload` | omp-extensions/z0int-bridge/index.ts:427-434 | the reloaded worker becomes current and the previous one is stopped |
| `WorkerSwap.Bridge.OnExit` | omp-extensions/z0int-bridge/index.ts:238-241 | an exited worker is no longer current |
| `DeferredReload.SwapBeginsIff` | omp-extensions/z0int-bridge/index.ts:391-404 | a swap begins exactly when a reload is asked for or flushed while none is in flight and no turn is open that is not stale; with an open turn it is deferred |
| `DeferredReload.WaitsFromTo` | omp-extensions/z0int-bridge/index.ts:447-457 | a reload waits from the answer "deferred" until a handler flushes it with no turn open; nothing else starts or ends the wait |
| `DeferredReload.StrandedIff` | omp-extensions/z0int-bridge/index.ts:391-457 | in every run a deferred reload is left with no open turn and nobody to flush it exactly when the last turn left without agent_end (its open request failed, or it was stale), or the deferral was stored too late, and no turn opened and no agent ended since |
| `DeferredReload.EndsStartReload` | omp-extensions/z0int-bridge/index.ts:447-457 | a deferred reload that is not left so starts, or joins one in flight, once the open turns have ended and a handler flushes |
| `DeferredReload.FailedOpenStrands` | omp-extensions/z0int-bridge/index.ts:855-860 | a run: a reload is deferred by a turn whose open request then fails, and stays pending with no turn open |
| `CausalModel.PrefixThenSuffix` | src/openjev_phase1/serial.py:34-42 | feeding the suffix into the prefill of a prefix is the prefill of the whole prompt |
| `SerialScorer.ScoreKeepsSound` | src/openjev_phase1/serial.py:56-132 | after every call, also one that raises, the cache, if kept, is the prefill of the kept prefix |
| `SerialScorer.AnyHistoryScoresFromScratch` | src/openjev_phase1/serial.py:56-132 | after any history of calls a call that returns gives the logits of a from-scratch run on the whole prompt |
| `SerialScorer.RespectfulHitsAgree` | src/openjev_phase1/serial.py:56-132 | when == relates only states of the same prefix and nobody changes the state object, every call answers like a fresh scorer in the whole result, but for the note that it was a hit |
| `SerialScorer.HitAgreesWithFresh` | src/openjev_phase1/serial.py:59-64 | after any history a hit succeeds or fails as a fresh scorer would exactly when the stored prefix fits the prompt just when the prompt's own prefix does |
| `SerialScorer.EqualNumbersCanFail` | src/openjev_phase1/serial.py:59-64 | state [1.0] and then state [1], equal in Python and different in JSON: the second row is a hit and is refused, while a fresh scorer scores it |
| `SerialScorer.SerialPrefixScorer.ScoreRow` | src/openjev_phase1/serial.py:56-132 | the method over cache, state and prefix is that function, and its logits are the from-scratch ones |
| `SerialScorer.KvCache.Forward` | src/openjev_phase1/serial.py:34-42 | a cached forward pass feeds the tokens at the cached positions |
| `SharedScorer.SuffixLayout` | src/openjev_phase1/shared.py:39-50 | rows are padded to the longest suffix; the end of a row is its last real token |
| `SharedScorer.PaddingIsInvisible` | src/openjev_phase1/shared.py:39-50 | up to its last real token a padded row is fed exactly its own tokens |
| `SharedScorer.SortedDistinct` | src/openjev_phase1/shared.py:70 | the kept positions are the distinct ends in order |
| `SharedScorer.IndexOf` | src/openjev_phase1/shared.py:100-133 | every end is found among the kept positions |
| `SharedScorer.GatherIsFromScratch` | src/openjev_phase1/shared.py:100-133 | the logits gathered for a row are the from-scratch logits of its own prompt |
| `SharedScorer.BatchCache.Reorder` | src/openjev_phase1/shared.py:100 | replicating the cache gives every row its own copy of the prefix |
| `SharedScorer.RunBatch` | src/openjev_phase1/shared.py:85-133 | one batched pass gives every prompt its from-scratch logits, in order |
| `SharedScorer.ScoreShared` | src/openjev_phase1/shared.py:53-133 | the call succeeds exactly for scorable rows, and gives each row, in order, the from-scratch logits of its unpadded prompt |
| `RankAuroc.RankSumAuroc` | benchmarks/julia_claims/calibration.py:49-66 | the loop over tie blocks of the sorted pairs computes the pairwise value: positives above negatives, ties half, over all such pairs; None when a class is missing |
| `RankAuroc.RankSum` | benchmarks/julia_claims/calibration.py:56-65 | the nested loops sum, over the positives, one half plus what the sample beats |
| `RankAuroc.BlockRank` | benchmarks/julia_claims/calibration.py:61 | the average rank of a tie block is what its members beat plus one half |
| `RankAuroc.RankSumIsPairs` | benchmarks/julia_claims/calibration.py:66 | the rank sum exceeds the won pairs by pos (pos + 1) / 2 |
| `RankAuroc.AurocInUnitInterval` | benchmarks/julia_claims/calibration.py:49-66 | the value lies between 0 and 1 |
| `RankAuroc.FlipIsComplement` | benchmarks/julia_claims/calibration.py:49-66 | swapping the labels gives one minus the value, undefined for the same inputs |
| `RankAuroc.AurocPermutation` | benchmarks/julia_claims/calibration.py:51 | the order of the records does not matter |
| `CalibrationError.Ece` | benchmarks/julia_claims/calibration.py:87-101 | the loop over the bins adds up, over the bins, the distance between summed values and hits, over the number of records; None when there is no record |
| `CalibrationError.ExactlyOneBin` | benchmarks/julia_claims/calibration.py:93-94 | every value between the smallest and the largest is in exactly one bin |
| `CalibrationError.EdgesAreEven` | benchmarks/julia_claims/calibration.py:94 | the bin edges are evenly spaced |
| `CalibrationError.BinsPartition` | benchmarks/julia_claims/calibration.py:93-94 | so summing bin by bin sums every record once |
| `CalibrationError.ErrorIsBounded` | benchmarks/julia_claims/calibration.py:87-101 | with two different values the error is at least |mean value - accuracy| and at most the mean distance of value and outcome |
| `CalibrationError.BoundsMiscalibrationIff` | benchmarks/julia_claims/calibration.py:89-91 | the error bounds |mean value - accuracy| exactly when there are two different values or the single one equals the accuracy |
| `CalibrationError.SingleValueHidesMisses` | benchmarks/julia_claims/calibration.py:90-91 | records that are all wrong at one confidence have error zero |
| `PayloadIsolation.Walk.Visit` | src/z0int/agentweb_bridge_protocol.py:58-103 | on any heap a visit is the guarded scan of the nodes below it, with at most 4097 calls in all |
| `PayloadIsolation.Walk.VisitEntries` | src/z0int/agentweb_bridge_protocol.py:88-103 | the loops over list and dict entries, which end as soon as the walk stops |
| `PayloadTrees.Validate` | src/z0int/agentweb_bridge_protocol.py:52-106 | on any heap the validator returns no errors exactly for an acceptable payload, after at most 4097 visits |
| `PayloadTrees.AcceptedIff` | src/z0int/agentweb_bridge_protocol.py:52-106 | the error list is empty exactly when the payload is a tree of depth at most 12 and at most 4096 nodes in which the alphanumeric characters of no lower-cased key, in their order, spell one of the 17 forbidden words |
| `PayloadTrees.ForbidsIff` | src/z0int/agentweb_bridge_protocol.py:24-49 | the key test holds exactly when the characters of the lower-cased key at its alphanumeric positions, in increasing order, spell one of the 17 words written out |
| `PayloadTrees.ApiKeyIsForbidden` | src/z0int/agentweb_bridge_protocol.py:48-49 | so api_key is forbidden, whatever else counts as alphanumeric |
| `PayloadTrees.EveryForbiddenFieldReported` | src/z0int/agentweb_bridge_protocol.py:94-99 | within the limits the errors are exactly the forbidden fields, at whatever depth |
| `PayloadTrees.LimitReported` | src/z0int/agentweb_bridge_protocol.py:62-86 | outside the limits the last error is a limit error |
| `PayloadTrees.SharedIffRejected` | src/z0int/agentweb_bridge_protocol.py:79-86 | within the depth and node limits "must be acyclic" is reported exactly when some container is reached twice |
| `PayloadTrees.AcyclicIsNotEnough` | src/z0int/agentweb_bridge_protocol.py:79-86 | a payload without any cycle that is rejected as cyclic, because it holds one list twice |
| `PayloadTrees.FitsIffLimits` | src/z0int/agentweb_bridge_protocol.py:52-106 | what the scan checks along its list of nodes is a property of the trails into the heap |
| `Pareto.ParetoDominates` | src/z0int/abab.py:166-186 | the two loops with their early returns decide dominance: no common metric worse, some common metric better |
| `Pareto.DominatesIffBetter` | src/z0int/abab.py:158-186 | dominance written out: where both measured one of the four success metrics a is not lower, where both measured one of the four costs a is not higher, each within 1e-12, and on one of these a is higher, or lower, by more than that |
| `Pareto.FasterDominates` | src/z0int/abab.py:178-186 | of two records that measured only latency the faster dominates |
| `Pareto.FrontPicks` | src/z0int/abab.py:189-191 | the front is the credited records that no credited record beats: all of them, once each, in their order |
| `Pareto.DominanceIsAsymmetric` | src/z0int/abab.py:166-186 | whatever was measured, nothing dominates itself and no two records dominate each other |
| `Pareto.ComparableIsOrdered` | src/z0int/abab.py:166-186 | on records that measured the same metrics, equal or more than 1e-12 apart, dominance is a strict partial order |
| `Pareto.FrontCovers` | src/z0int/abab.py:189-191 | then every credited record is on the front or dominated by a member of it |
| `Pareto.FrontsCoverIffTransitive` | src/z0int/abab.py:189-215 | every selection of credited records is covered by its front exactly when dominance is transitive among them |
| `Pareto.EmptyFrontIffCycle` | src/z0int/abab.py:189-215 | some selection of credited records has an empty front exactly when dominance runs in a circle among them |
| `Pareto.UnevenMetricsCanCycle` | src/z0int/abab.py:166-191 | three credited records with different metrics and an empty front |
| `Pareto.NearTiesCanCycle` | src/z0int/abab.py:166-191 | three credited records with the same metrics, values within the tolerance of one another, and an empty front |
| `InformationGain.GainMeasuresDisagreement` | src/z0int/abab.py:385-410 | the expected gain is never negative, the clamp never acts, it is at most the prior entropy, and it is zero exactly when all active hypotheses predict the same |
| `InformationGain.GainIsMutualInformation` | src/z0int/abab.py:385-417 | the raw gain, computed from prior and posterior entropies, is the mutual information of hypothesis and outcome: the logarithm of how much likelier a hypothesis makes an outcome than the mixture, averaged over both |
| `InformationGain.ActivePicks` | src/z0int/abab.py:387 | the active hypotheses are all those with a positive probability and a prediction for the test, once each, in their order |
| `InformationGain.GainIsNonNegative` | src/z0int/abab.py:391-410 | before the clamp the gain is nonnegative, and positive as soon as one hypothesis differs from the mixture |
| `InformationGain.GainIsAtMostPrior` | src/z0int/abab.py:391-410 | the gain is at most the prior entropy |
| `InformationGain.RivalsNormalised` | src/z0int/abab.py:387-393 | the normalised priors are positive and sum to one |
| `PrOrder.DependencyFirst` | scripts/state-packet/generate_packet.py:270-278 | the loop ends with a permutation; before the fallback stand exactly the pull requests without a cycle behind them, each after all its transitive predecessors, ordered by the length of their longest chain of predecessors and then by number; after it the others by number |
| `PrOrder.DepsMean` | scripts/state-packet/generate_packet.py:262-269 | a declared predecessor is the last pull request whose head is the base branch, or an open number that the body names, but never the pull request itself |
| `PrOrder.FindDeps` | scripts/state-packet/generate_packet.py:263-269 | the declared predecessors: the owner of the base branch and the open numbers the body names, without itself |
| `PrOrder.Stuck` | scripts/state-packet/generate_packet.py:274-275 | when nothing is ready, everything pending has a cycle among its transitive predecessors |
| `PrOrder.WalksGoBack` | scripts/state-packet/generate_packet.py:273-278 | where declared predecessors come first, every chain of predecessors goes strictly backwards |
| `PrOrder.MoveAll` | scripts/state-packet/generate_packet.py:276-278 | a round moves the chosen pull requests, in order, from pending to ordered |
| `LineFraming.NextLine` | omp-extensions/z0-optchat/index.ts:101-104 | a cut line has no newline and is followed by one; nothing is cut exactly when there is none |
| `LineFraming.LineReader.OnData` | omp-extensions/z0-optchat/index.ts:100-116 | one chunk completes exactly the lines of buffer plus chunk |
| `LineFraming.LineReader.ReadAll` | omp-extensions/z0-optchat/index.ts:95-116 | however the output is cut into chunks, the lines are the newline split of the whole output |
| `LineFraming.SplitChunk` | omp-extensions/z0-optchat/index.ts:100-116 | splitting chunk by chunk is splitting the whole |
| `LineFraming.SplitRejoins` | omp-extensions/z0-optchat/index.ts:100-116 | joining the lines and the rest gives the output back, and neither contains a newline |
| `LineFraming.JoinSplits` | omp-extensions/z0-optchat/index.ts:100-116 | whatever was joined from newline-free lines is split into those lines |
| `RpcClient.StepKeeps` | omp-extensions/z0-optchat/index.ts:57-165 | every event keeps the invariant and the outcome of every settled call |
| `RpcClient.CallsSettleOnce` | omp-extensions/z0-optchat/index.ts:71-155 | in every run a call either waits or is settled for good; while it waits, its child's exit is still to come and settles it |
| `RpcClient.AnswersComeFromTheirChild` | omp-extensions/z0-optchat/index.ts:98-116 | a row settles only the call whose id it carries, sent to the child that wrote it, as a complete line of that child's output |
| `RpcAnswers.FirstLineAnswers` | omp-extensions/z0-optchat/index.ts:98-116 | in every run a call that was sent is answered by the first complete line that its child wrote since and that carries its id; it waits only while there is none |
| `RpcClient.BufferIsOwnOutput` | omp-extensions/z0-optchat/index.ts:93-97 | the buffer of the current child is the partial line of its own output, whatever other children wrote |
| `RpcClient.CallFailsIff` | omp-extensions/z0-optchat/index.ts:71-165 | a waiting call fails exactly when its time is up, its child exits, errs or cannot be written to, or the client is disposed while that child is current |
| `RpcClient.CallGoesTo` | omp-extensions/z0-optchat/index.ts:80-155 | a new call is refused exactly when the client is disposed or its running child is faulty or told to stop; otherwise it waits on the running child or a new one, unless the write throws |
| `RpcClient.ChildrenFareSo` | omp-extensions/z0-optchat/index.ts:57-165 | exactly which events let a child exit, tell it to stop, and dispose of the client |
| `RpcClient.FaultIff` | omp-extensions/z0-optchat/index.ts:71-98 | exactly which events mark the current child as faulty, until the next one is spawned |
| `RpcClient.Client.HandleStdinError` | omp-extensions/z0-optchat/index.ts:121-124 | what waits on the child fails and the child is told to stop |
| `RpcClient.Client.Call` | omp-extensions/z0-optchat/index.ts:134-155 | a call is refused, or registered with the running or a new child before it is written |
| `RpcClient.Client.FailAll` | omp-extensions/z0-optchat/index.ts:71-78 | every call that waits on a child is settled with an error |
| `RpcClient.Client.HandleData` | omp-extensions/z0-optchat/index.ts:98-116 | the stdout handler settles calls line by line and ignores a replaced child |
| `RpcClient.Client.HandleGone` | omp-extensions/z0-optchat/index.ts:117-130 | exit and error fail what waits on the child |
| `RpcClient.Client.HandleTimeout` | omp-extensions/z0-optchat/index.ts:139-142 | a timeout settles its call |
| `RpcClient.Client.DisposeClient` | omp-extensions/z0-optchat/index.ts:158-165 | disposal fails what waits on the current child |
| `LinkInstaller.Plan` | scripts/omp_bridge_install.py:74-88 | the plan has one action per requested link, and refuses at the first entry that is not a link |
| `LinkInstaller.Apply` | scripts/omp_bridge_install.py:104-124 | an uninterrupted apply is the program save, then clear, stage and swap for each link that has to change, up to an obstructed temporary name |
| `LinkInstaller.RunSwap` | scripts/omp_bridge_install.py:116-123 | one link is swapped, and its temporary name freed |
| `LinkRecovery.OnlyRequestedLinksChange` | scripts/omp_bridge_install.py:104-124 | over any installs, cut short anywhere, entries that were not requested keep their place and target |
| `LinkRecovery.LinksNeverVanish` | scripts/omp_bridge_install.py:104-124 | over any installs, cut short anywhere, an extension that was a link still is one, to where it pointed or to where an install wanted it |
| `LinkRecovery.BackupIsFirstListing` | scripts/omp_bridge_install.py:110-115 | over any installs the backup is missing while nothing changed and then lists what was there first; it is torn for good exactly when an install died while writing it |
| `LinkRecovery.RerunRecovers` | scripts/omp_bridge_install.py:74-124 | after any crashes, installing the same target once more puts every link in place, leaves no temporary link, and one more install changes nothing |
| `LinkRecovery.FinishesIffTidy` | scripts/omp_bridge_install.py:74-124 | an uninterrupted install that is not refused succeeds and leaves no temporary link exactly when, beforehand, no temporary name was obstructed and none was left over from a link that does not change |
| `LinkRecovery.OtherTargetLeavesTemporary` | scripts/omp_bridge_install.py:106-121 | a crash on the way to another target leaves its temporary link when the next install has nothing to change |
| `LinkRecovery.InstallFinishes` | scripts/omp_bridge_install.py:104-124 | an uninterrupted install of a disk whose temporary links are leftovers of links still to change succeeds and tidies up |
| `AnchoredReadout.GroupShape` | webgpu-demo/worker.js:121-123 | every group has at most five labels and starts with the anchor |
| `AnchoredReadout.ExactlyOneGroup` | webgpu-demo/worker.js:121-123 | every other label is in exactly one group, once |
| `AnchoredReadout.RelativeLogits` | webgpu-demo/worker.js:124-140 | the loop stores, for every label, its true logit minus the anchor's, although every group is read as a log-softmax with its own bias and normaliser; it fails exactly when a label is missing |
| `AnchoredReadout.LogSoftmaxIsBiased` | webgpu-demo/worker.js:127-137 | the biased log-softmax of a group differs from the true logits by one constant on its labels |
| `AnchoredReadout.DirectScore` | webgpu-demo/worker.js:118-147 | the probabilities are one softmax over the true logits of all labels |
| `AnchoredReadout.FewestGroups` | webgpu-demo/worker.js:120-123 | there are no more groups than the labels besides the anchor need, four at a time |
| `AnchoredReadout.SoftmaxIsShare` | webgpu-demo/worker.js:34-39 | softmax with the maximum taken off, of values shifted by any constant, is the share of each exponential |
| `AnchoredReadout.SoftmaxIsDistribution` | webgpu-demo/worker.js:34-39 | its values are positive and sum to one |
| `Evaluate.Align` | benchmarks/evaluate.py:41-86 | one row per gold row, in order, said from gold row and prediction alone: option by option probabilities that sum to one within 1e-4 predict the first most probable option with that confidence, a native choice among the options predicts itself, every other present prediction is invalid, and a row is correct exactly when it predicts its gold option. It raises exactly for repeated ids, predictions without gold, improper options or labels, malformed target distributions, and a prediction whose first improper entry is an integer too large for a float, and names the trouble |
| `Evaluate.WantedIsLeast` | benchmarks/evaluate.py:126-130 | the wanted number is the least, and at least one, that makes up the requested fraction of all rows, or all ranked rows |
| `Evaluate.RowsAreHonest` | benchmarks/evaluate.py:53-85 | a row is correct exactly when it predicts its gold option; missing and invalid rows predict nothing |
| `Evaluate.ArgMax` | benchmarks/evaluate.py:74 | the chosen option is the first most probable one |
| `Evaluate.CountsAddUp` | benchmarks/evaluate.py:96-107 | over the gold labels the true positives sum to the correct rows and the supports to all rows |
| `Evaluate.AcceptedIsLeast` | benchmarks/evaluate.py:124-133 | the accepted rows keep ties whole and are the least set closed upward in confidence with at least the wanted number of rows |
| `Evaluate.CoverageNeverFalls` | benchmarks/evaluate.py:126-133 | a larger requested fraction accepts an extension of what a smaller one accepts |

## Left out

- Capture: `flush`, `stats` and unfinished tasks, how a hook builds its job, the child process that delivers a batch,
  and the gate files of projections beyond the number of unsettled ones. A section under a lock is one step where
  nothing outside the lock touches what it reads and writes.
- CaptureQueue.EveryJobSettledIff: says nothing about whether the writer ends, since the child it waits for may not
  answer.
- OptChat: the model stream, tools, notices and compactor rows; the wait for a summarised view is one step that may
  fail, and the status request of a check in front of another request one choice of the drain's step. A reply lost
  after the server handled a `submit` is a step of every run, one to another request a step of the runs of
  `OptChatLost`.
- OptChatTurn.EveryInputLoggedOnce: supposes that no abort was refused; `OptChatTurn.InputsConserved` says where the
  texts are otherwise.
- Bridge: the estimate of usage from message text, provider and model names, the frames sent to the worker, and the
  manual close command. `WorkerSwap` and `DeferredReload` count open turns without telling sessions apart.
- Scorers: tensors, devices, timings and prompt hashes in the returned record.
- Calibration: `risk_coverage` and `coverage_at`, a running mean over sorted records and a maximum over it.
- Payload: the rendered path text in an error; a path is the sequence of entry positions.
- Archive: `append`, cost series, stop reasons, and `choose_discriminating_test`, a maximum over the proved gain.
- LinkInstaller.Apply: the clean-checkout and routing checks before it, and a directory that replaces a link between
  planning and swapping.
- RpcClient.CallsSettleOnce: a call without a timeout waits as long as its child neither answers nor exits.
- RpcClient: notices for compactor errors, and the stderr tail in error texts.
- AnchoredReadout: how labels become tokens, and the token count and timings of the answer.
- Evaluate: negative log-likelihood, Brier scores, F1, reliability bins, the analytic error figures, and bootstrap
  intervals.
- Floating-point rounding everywhere; the tolerances of the source are kept.
