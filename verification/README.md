# Verified model of the activity pipeline

This project models the parts of the recorder and its daemon where a mistake would
silently lose, duplicate or misattribute a user's history, and proves properties of
them in Dafny. `dafny verify dfyconfig.toml` checks everything.

Each file is one component of the repository. Code that updates state in place is a
class whose methods are proved against functions on a value that stands for the
object's state; concurrent and crash-prone code is a state machine whose steps are the
stretches between awaits, lock acquisitions or transactions, and its main results hold
for every sequence of steps.

| file | models |
|---|---|
| `Coalescer.dfy`, `StepMeaning.dfy` | raw events folded into semantic steps, focus noise dropped, drops recovered from step summaries |
| `Segmenter.dfy`, `SegmentBounds.dfy` | steps and drops attributed to segments that close and open mid-batch, with the cached open segment, rollbacks, shutdowns and crashes |
| `Summarizer.dfy`, `EpisodeAnswers.dfy` | one closed segment covered by chained summarize windows, under crashes, re-delivery, invalid splits and retention purges |
| `Jobs.dfy`, `JobEffects.dfy`, `Worker.dfy`, `SummarizeQueue.dfy` | the durable job queue, the poll loop with its serialized chain, and one segment's summarize jobs under both |
| `Consolidation.dfy`, `Verdicts.dfy`, `MemoryStore.dfy`, `MemoryEffects.dfy`, `MemoryLife.dfy`, `TwinRuns.dfy`, `RangeDelete.dfy`, `RangeEffects.dfy` | promotion and supersession of claims, the memory tables under all their writers, the two together over whole runs and where they fail, the chunked range delete |
| `Fingerprint.dfy`, `EditScripts.dfy`, `Clustering.dfy`, `Likeness.dfy` | episode similarity, medians, and the greedy, cached clustering around a seed |
| `Framing.dfy`, `Waiters.dfy`, `Spool.dfy`, `SpoolHistory.dfy`, `SpoolBounds.dfy`, `SpoolRuns.dfy`, `FullQuarantine.dfy`, `Chat.dfy`, `ChatEndings.dfy`, `Text.dfy` | the wire and the recorder: framing on both ends, pending requests, the offline spool, the chat turn machine, UTF-16 repair |
| `Prelude.dfy` | `Option`, flattening of chunk lists, members of small sets |

A method is proved against a specification function of its module. What that function
decides is told once more without it, from the inputs and with every bound in figures, in
`StepMeaning`, `SegmentBounds`, `EpisodeAnswers`, `JobEffects`, `Verdicts`,
`MemoryEffects`, `RangeEffects`, `EditScripts`, `Likeness`, `SpoolHistory`, `SpoolBounds`
and `ChatEndings`.

## Main results

* **Steps are as long as the rules allow.** An event is merged exactly when it is more of
  the run under way, dropped exactly when it repeats its focus, and begins a run in no
  other case (`StepMeaning.EveryEventIsPlaced`).
* **Events are conserved.** Runs and drops partition a sorted batch; the drops are
  recovered exactly from step ids and counts, and only ever repeat a focus; what a batch adds to segments' counts is
  its size, even when segments close and open mid-batch; over all runs the counts sum to
  the events marked processed, at most one segment is open, and a segment is finalized
  iff it has its one summarize job (`Segmenter.SegmentsAlwaysGood`). No segment is closed
  but by an event of the batch that lies past one of its three bounds
  (`SegmentBounds.DeliveryClosesForCause`).
* **Steps are summarized exactly once.** In every run there is a frontier up to which
  each surviving step is linked to exactly one episode and beyond which none is, and a
  job that has not succeeded stands at the frontier while steps are left
  (`Summarizer.ExactlyOnceCover`). The purge may fall between the read of a window and
  its write; the foreign key then rolls the write back. Queue, leases, worker and crashes
  are enough for the one job in flight this takes: every run of them is a run of the
  summarizer (`SummarizeQueue.RunProjects`), so the cover holds over real queue runs, and
  the job at the frontier is a row that has not succeeded, unless it was purged dead
  (`SummarizeQueue.QueueRunsCoverOnce`). A good split of the model is used as it stands
  (`EpisodeAnswers.AnswerMakesEpisodes`).
* **Leases.** Attempts match states in every reachable queue, `fail` always finds a
  retry slot, a lapsed lease costs what a reported failure costs, and a claim whose lease
  was recovered can never change the row again. A failed job can be claimed again exactly
  from its delay on (`JobEffects.RetryWaitsItsDelay`), and the worker's chain never stalls
  (`Worker.ChainComesFree`).
* **Consolidation.** With pairwise distinct live claims one pass is single-active, safe
  and idempotent; any group ends with one active row at most for all observations if and
  only if it has one at most and no twins (`Consolidation.SingleActiveIffNoTwins`). Of every
  group: what becomes active has earned it by the promotion matrix or outweighs what it
  displaces, and a candidate that has earned it rises when no other claim stands against
  it (`Verdicts.VerdictsAreFair`, `Verdicts.EarnedBecomesActive`).
* **Memory tables.** Counts, index and the rule that a confirmed row stays active survive
  every sequence of writers; portions of 500 delete what one shot deletes. Consolidated
  again and again between all the other writers, each key has at most one active row as
  long as no live row of a key states the claim of a new row as another kind, and
  confirmed rows stand alone (`MemoryLife.OneActivePerKey`); the two conditions are exact
  for one step (`MemoryLife.InsertIsOrderlyIff`, `MemoryLife.ConfirmIsOrderlyIff`) and for
  the pass after it (`MemoryLife.InsertIsSafeIff`, `MemoryLife.ConfirmIsSafeIff`).
* **Clustering** is reachability by steps that clear the bar, whatever member one starts
  from; the two-row edit distance is the length of a shortest script of single edits
  (`EditScripts.DistanceIsLeastEdits`) and so a metric; a median ignores order and splits
  its values in halves.
* **Waiters** are resumed at most once, and over every run a deadline frees its waiter if
  and only if no socket was adopted since the waiter registered
  (`Waiters.DeadlineFreesIffNoAdoption`).
* **Spooled batches** are on disk, acknowledged, quarantined, evicted or expired, and
  acknowledged only when since the load of their file every frame of it was answered in
  full (`SpoolHistory.AckedFileWasAccounted`). In every
  pass of every run the files before the current one are delivered, as long as each can
  be read (`SpoolRuns.PassIsInOrder`).
* **Frames** do not depend on chunking.
* **Chat turns** end the same wherever the response arrives among their events, exactly
  when no turn was streaming at the send (`Chat.ConfluentIffMaySend`), a Retry while one
  is pending included; what comes late for a superseded send changes nothing.

## Where code and documentation disagree

* memory-consolidator.ts lines 106-108 say one pass can never leave two active rows
  behind. It can when a claim is held by two rows, which the store allows for different
  kinds: `TwinRuns.TwoKindsBothActive` is a run of six steps from the empty store in which
  nobody confirms anything. The exact condition is `NoTwins`.
  With two active rows already there, pass 2 demotes one and still activates a
  challenger: `Consolidation.PassTwoKeepsActiveCount`.
* `FrameCodec.encode` frames the empty payload, which `extractFrames` takes for poison:
  round trips hold iff no payload is empty (`Framing.RoundTripsIffNoneEmpty`).
* The generation guard of the reply timeout is safe with one connect call at a time. Of
  two overlapping ones the second may adopt its socket after a request registered on the
  first and its frame went out; the deadline then passes and the request waits on
  (`Waiters.TwoConnectorsStrand`), until a reply, a drain or the next connect and for
  nothing else (`Waiters.StrandedUntilRescued`).
* `confirm` brings a rejected row back even beside a newer row of the same claim, and the
  next pass may then leave both active: `TwinRuns.ConfirmedTwinBothActive` is a run of
  six steps from the empty store. `MemoryLife.ConfirmIsSafeIff` has the exact condition.
* SpoolStore.swift lines 622-623 say the caller treats a file that could not be
  quarantined as merely blocked. With the quarantine full its oldest file has been deleted
  by then: `FullQuarantine.QuarantinedFileIsLost` is a run from the empty spool to that
  point, and `Spool.UndeliveredFileStopsPass` has the exact condition.
* SpoolStore.swift lines 382-389 promise replay oldest-first, later files strictly ordered
  behind a blocked one. A file that cannot be read is skipped where it lies, and newer
  files are delivered before it: `SpoolRuns.UnreadableFileIsOvertaken`. It is the only
  step that breaks the order (`Spool.PassGoesOnInOrder`).

## Model

| member | source | states |
|---|---|---|
| `Coalescer.SortOrders` | apps/daemon/src/processing/event-coalescer.ts:46-52 | sorting keeps exactly the batch's events and puts them in the canonical order |
| `Coalescer.OrderedIsUnique` | apps/daemon/src/processing/event-coalescer.ts:46-52 | the canonical order of a set of events is unique |
| `Coalescer.CoalescingIgnoresArrival` | apps/daemon/src/processing/event-coalescer.ts:95-103 | the steps depend only on which events are in the batch, not on the order they came in |
| `Coalescer.StepsAreRuns` | apps/daemon/src/processing/event-coalescer.ts:101-238 | every step is one contiguous run of one app's events, runs are in order, the first event starts one, and whatever lies outside is a dropped focus change |
| `StepMeaning.StepsMeanTheirEvents` | apps/daemon/src/processing/event-coalescer.ts:95-223 | a step is named after its first event and absorbs only like events on the same target, each within the pause its kind allows; an edit keeps the last text seen |
| `StepMeaning.DroppedEventsRepeatFocus` | apps/daemon/src/processing/event-coalescer.ts:195-206 | what is dropped is the same focus again, in the same app, within a second of the focus step it follows |
| `StepMeaning.EveryEventIsPlaced` | apps/daemon/src/processing/event-coalescer.ts:105-223 | every event after the first is merged iff it is of the same app, continues the run's first event and follows the event before within the bound of its kind (10 s, 10 s, 3 s, 500 ms), dropped iff it repeats the focus within 1 s, and otherwise begins the next run |
| `StepMeaning.StepsAreMaximal` | apps/daemon/src/processing/event-coalescer.ts:105-223 | of two steps in a row the first could neither have absorbed nor dropped the first event of the second |
| `StepMeaning.KeysTellTargets` | apps/daemon/src/processing/event-coalescer.ts:64-67 | without a bar in them two targets have one key iff role, subrole, title and identifier agree |
| `StepMeaning.SortedInTime` | apps/daemon/src/processing/event-coalescer.ts:46-52 | the canonical order is by time, then by the monotonic clock, then by id |
| `Coalescer.Sweep` | apps/daemon/src/processing/event-coalescer.ts:105-223 | the branches over the last step and the next event compute one fold of the rule; what the rule decides for the raw events is `StepMeaning.EveryEventIsPlaced` |
| `Coalescer.CoalesceEvents` | apps/daemon/src/processing/event-coalescer.ts:101-238 | the sweep over the sorted batch yields the steps of `StepsAreRuns`, `StepMeaning.StepsMeanTheirEvents` and, maximal, of `StepMeaning.EveryEventIsPlaced` |
| `Coalescer.RunsAndDropsPartition` | apps/daemon/src/processing/segmenter.ts:50-56 | gap, run, gap, run ... put together is the sorted batch again |
| `Coalescer.CountsPartition` | apps/daemon/src/processing/segmenter.ts:60-62 | step counts and drops add up to the batch size |
| `Coalescer.LocateSteps` | apps/daemon/src/processing/segmenter.ts:64-72 | finds each step's positions by its two ids, and fails exactly when a step's ids are missing or reversed |
| `Coalescer.GroupDroppedEvents` | apps/daemon/src/processing/segmenter.ts:56-88 | from ids and counts alone: exactly the dropped events, each group with the step it precedes, and no error on coalesced steps |
| `Coalescer.SweepDrops` | apps/daemon/src/processing/segmenter.ts:74-87 | the index sweep over runs and gaps |
| `Coalescer.LocatedSweepFindsGaps` | apps/daemon/src/processing/segmenter.ts:74-87 | the sweep over the located runs yields exactly the gaps between the true runs |
| `Segmenter.BatchIsConserved` | apps/daemon/src/processing/segmenter.ts:134-188 | for every stored state and non-empty batch, the counts added to segments sum to the batch size |
| `Segmenter.BatchKeepsLifecycle` | apps/daemon/src/processing/segmenter.ts:248-329 | a batch keeps at most one open segment, one job per finalized segment, steps in time order within the close boundaries, and rows whose first and last event, count and end fit their steps |
| `Segmenter.SettleIsHealthy` | apps/daemon/src/processing/segmenter.ts:275-300 | after the boundaries are applied either no segment is open or the open one accepts the timestamp |
| `Segmenter.FinalizedStaysFixed` | apps/daemon/src/processing/segmenter.ts:134-188 | no later batch changes a finalized segment, its steps and count included |
| `Segmenter.SegmentsAlwaysGood` | apps/daemon/src/processing/segmenter.ts:195-330 | over every run of sweeps, rollbacks, shutdowns and crashes: the lifecycle invariant, and counts equal to the events marked processed |
| `Segmenter.Segmenter.CurrentOpen` | apps/daemon/src/processing/segmenter.ts:236-246 | the cache, or else a stored open row that started last, its last activity being the latest end of its steps |
| `Segmenter.Segmenter.CloseSegment` | apps/daemon/src/processing/segmenter.ts:315-329 | enqueues and finalizes once; a segment closed before is left alone |
| `Segmenter.Segmenter.SettleBoundary` | apps/daemon/src/processing/segmenter.ts:275-300 | late arrival, idle gap and duration, applied in turn, have the effect of one settling; when it closes and when it must not is `SegmentBounds.SettleClosesIffDue` |
| `Segmenter.Segmenter.Append` | apps/daemon/src/processing/segmenter.ts:248-267 | the step joins the open window or starts one; waiting drops land with it |
| `Segmenter.Segmenter.ApplyTx` | apps/daemon/src/processing/segmenter.ts:134-188 | the interleaved sweep of groups and steps has the effect that is conserved, keeps the lifecycle and closes for cause only (`BatchIsConserved`, `BatchKeepsLifecycle`, `SegmentBounds.BatchClosesForCause`) |
| `Segmenter.Segmenter.OnEventsEligible` | apps/daemon/src/processing/segmenter.ts:210-222 | a committed sweep applies the batch; a thrown one leaves the tables and drops the cache |
| `Segmenter.Segmenter.FinalizeForShutdown` | apps/daemon/src/processing/segmenter.ts:225-233 | closes the open segment, if any |
| `Segmenter.NextGroup` | apps/daemon/src/processing/segmenter.ts:159-174 | the next group is the one before the step exactly when something was dropped there |
| `SegmentBounds.SettleClosesIffDue` | apps/daemon/src/processing/segmenter.ts:275-300 | a timestamp more than 2 s before the last activity, 300 000 ms or more after it or 1 800 000 ms or more after the start closes the window as of its last activity with one job; any other leaves tables and window as they are |
| `SegmentBounds.DropCountsInItsWindow` | apps/daemon/src/processing/segmenter.ts:149-158 | a drop counts at once for the window open at its own time, and waits only when its time ends the window or none is open |
| `SegmentBounds.StepJoinsItsWindow` | apps/daemon/src/processing/segmenter.ts:248-267 | a step that does not end the window joins it, with the waiting drops counted, and no other row changes |
| `SegmentBounds.StepStartsWindow` | apps/daemon/src/processing/segmenter.ts:248-307 | otherwise it starts one new row that holds just it and the waiting drops |
| `SegmentBounds.BatchClosesForCause` | apps/daemon/src/processing/segmenter.ts:134-188 | every segment a batch closes has an event in that batch past one of the three bounds, told from its own start and end |
| `SegmentBounds.DeliveryClosesForCause` | apps/daemon/src/processing/segmenter.ts:210-222 | so it is for every delivery in every state a run can reach |
| `Summarizer.ValidateSplit` | apps/daemon/src/processing/episode-summarizer.ts:347-377 | reports no problem exactly for 1 to 6 ranges that partition the window in order |
| `Summarizer.CoveredOnce` | apps/daemon/src/processing/episode-summarizer.ts:341-346 | such ranges cover every step exactly once |
| `Summarizer.WindowFacts` | apps/daemon/src/db/segments-repository.ts:351-354 | a window is an initial stretch of the steps past the offset under any gaps, and the probe row tells whether more are left |
| `Summarizer.SkipLosesNothing` | apps/daemon/src/db/episodes-repository.ts:631-716 | a job at the frontier is skipped only when no step is left |
| `Summarizer.UnlatchedWindowIsAhead` | apps/daemon/src/db/episodes-repository.ts:631-716 | a window the latch lets through lies wholly past the frontier and misses no surviving step in between |
| `Summarizer.NewLinksCoverWindow` | apps/daemon/src/processing/episode-summarizer.ts:426-468 | the new episodes link every step of the window exactly once |
| `Summarizer.EpisodesSpellWindow` | apps/daemon/src/processing/episode-summarizer.ts:426-468 | the new episodes' steps one after the other are the window's steps in order |
| `Summarizer.NextIsGood` | apps/daemon/src/processing/episode-summarizer.ts:138-308 | every job start, answer, completion, crash and purge keeps the exactly-once invariant |
| `Summarizer.ExactlyOnceCover` | apps/daemon/src/processing/episode-summarizer.ts:138-308 | over all runs: up to the frontier each surviving step is in exactly one episode, beyond it in none, and a job at the frontier is left while steps are |
| `Summarizer.DoneMeansCovered` | apps/daemon/src/processing/episode-summarizer.ts:138-308 | once all jobs have succeeded every surviving step is in exactly one episode |
| `Summarizer.EpisodeSummarizer.HasEpisodesForSteps` | apps/daemon/src/db/episodes-repository.ts:648-716 | the ordinal tier and the link tier |
| `Summarizer.EpisodeSummarizer.HandleUntilModel` | apps/daemon/src/processing/episode-summarizer.ts:174-254 | window, probe row, skip or wait |
| `Summarizer.EpisodeSummarizer.HandleAnswer` | apps/daemon/src/processing/episode-summarizer.ts:255-308 | validation, episodes, links and chained job in one transaction have the effect of one answer, told by `EpisodeAnswers.AnswerMakesEpisodes` and `EpisodeAnswers.AnswerLinksAndChains`; thrown iff a step of the window was purged |
| `Summarizer.EpisodeSummarizer.PurgeStepsOlderThan` | apps/daemon/src/db/segments-repository.ts:372-413 | pages of 500 remove exactly the steps older than the cutoff, with their links |
| `EpisodeAnswers.PartitionIffCut` | apps/daemon/src/processing/episode-summarizer.ts:341-377 | the accepted splits are exactly the cuts of the window into one to six stretches |
| `EpisodeAnswers.AnswerMakesEpisodes` | apps/daemon/src/processing/episode-summarizer.ts:264-284 | a good split appends one episode a range, with just that range's steps, start and end; any other answer appends one of the whole window |
| `EpisodeAnswers.AnswerLinksAndChains` | apps/daemon/src/processing/episode-summarizer.ts:285-308 | the new links are exactly those from each new episode to its steps, and the one chained job stands at the window's last ordinal iff steps were left |
| `EpisodeAnswers.AnswerIsLost` | apps/daemon/src/processing/episode-summarizer.ts:285-304 | when a step of the window is gone nothing of the answer is stored |
| `EpisodeAnswers.WindowIsFull` | apps/daemon/src/processing/episode-summarizer.ts:191-203 | a window holds 200 steps or all that are left, and more are reported iff some step past the offset is outside |
| `EpisodeAnswers.PurgeTakesTheOld` | apps/daemon/src/db/segments-repository.ts:372-413 | a purge removes exactly the steps that ended, or began without an end, before the cutoff, and their links |
| `Jobs.NextKeepsSound` | apps/daemon/src/db/jobs-repository.ts:94-153 | every statement keeps attempts, states, leases and lost claims consistent |
| `Jobs.AttemptsMatchStates` | apps/daemon/src/db/jobs-repository.ts:104-144 | in every reachable queue: pending 0, retry 1-4, running 1-5 with a lease, dead exactly 5; at most five claims per revival |
| `Jobs.FailNeverThrows` | apps/daemon/src/db/jobs-repository.ts:250-272 | a retry slot always exists |
| `Jobs.RecoveryEqualsFailure` | apps/daemon/src/db/jobs-repository.ts:125-144 | lease recovery leaves the row that `fail` would leave; the ELSE arm of the requeue statement is never used |
| `Jobs.LostClaimIsHarmless` | apps/daemon/src/db/jobs-repository.ts:229-272 | a claim whose lease was recovered can never complete or fail the row |
| `Jobs.JobsRepository.ClaimNext` | apps/daemon/src/db/jobs-repository.ts:198-227 | the oldest due job of the given kinds, leased and counted; nothing only when none is due |
| `Jobs.JobsRepository.CompleteJob` | apps/daemon/src/db/jobs-repository.ts:236-238 | succeeds exactly for the lease that still owns the row |
| `Jobs.JobsRepository.Fail` | apps/daemon/src/db/jobs-repository.ts:250-272 | stale, retry after the scheduled delay, or dead |
| `Jobs.JobsRepository.RetryDeadJobs` | apps/daemon/src/db/jobs-repository.ts:280-282 | every dead job, and no other, starts afresh |
| `Jobs.JobsRepository.RequeueExpiredLeases` | apps/daemon/src/db/jobs-repository.ts:292-296 | the two statements recover exactly the expired leases |
| `Jobs.JobsRepository.PurgeTerminalOlderThan` | apps/daemon/src/db/jobs-repository.ts:307-309 | removes exactly the old terminal rows |
| `JobEffects.EnqueuedWaitsItsTime` | apps/daemon/src/db/jobs-repository.ts:155-172 | a new job can be claimed exactly from its time on, with all its attempts |
| `JobEffects.ClaimTakesTheRow` | apps/daemon/src/db/jobs-repository.ts:190-227 | a claim takes a due pending or retry row, leases it, counts the attempt, and rules out a second claim |
| `JobEffects.CompletionSucceeds` | apps/daemon/src/db/jobs-repository.ts:236-238 | the owning lease completes the row, any other changes nothing |
| `JobEffects.FailReschedulesOrKills` | apps/daemon/src/db/jobs-repository.ts:250-272 | a failure delays the row by 60 s, 5 min, 30 min or 2 h after attempt 1 to 4, kills it after the fifth, and does nothing without the owning lease |
| `JobEffects.RetryWaitsItsDelay` | apps/daemon/src/db/jobs-repository.ts:250-272 | a failed job can be claimed again exactly from that delay on, and not after the fifth attempt |
| `JobEffects.RecoveryTakesTheLapsed` | apps/daemon/src/db/jobs-repository.ts:118-144 | exactly the running rows whose lease has ended are recovered, at the same cost |
| `JobEffects.FinishedRowsRest` | apps/daemon/src/db/jobs-repository.ts:109-148 | a succeeded or dead row changes only by a purge past its cutoff or, when dead, by a revival with five new attempts |
| `JobEffects.PurgeSparesTheLiving` | apps/daemon/src/db/jobs-repository.ts:146-148 | no row that may still run is purged |
| `Worker.NextKeepsSound` | apps/daemon/src/jobs/job-worker.ts:148-249 | the chain holds at most one dispatch and is busy exactly while it does |
| `Worker.OneSerializedJobAtATime` | apps/daemon/src/jobs/job-worker.ts:138-200 | over every interleaving at most one serialized job is between claim and settlement, and every claim is dispatched |
| `Worker.DrainIsComplete` | apps/daemon/src/jobs/job-worker.ts:110-136 | without further ticks, the in-flight jobs at `stop` have settled iff every dispatched job has |
| `Worker.JobWorker.Start` | apps/daemon/src/jobs/job-worker.ts:177-188 | a serialized dispatch runs once the chain has come to it |
| `Worker.JobWorker.Settle` | apps/daemon/src/jobs/job-worker.ts:208-249 | success completes the row under its own lease, a throw of the handler or of the completion fails it, and the claim settles even if reporting throws |
| `Worker.JobWorker.Clear` | apps/daemon/src/jobs/job-worker.ts:181-188 | the chain is free again once its link is done |
| `Worker.JobWorker.Untrack` | apps/daemon/src/jobs/job-worker.ts:189-190 | a settled dispatch leaves the in-flight set |
| `Worker.JobWorker.Tick` | apps/daemon/src/jobs/job-worker.ts:148-200 | one claim at most, of a wanted kind, dispatched whatever the queue update does; a throw before the claim leaves the worker as it was |
| `Worker.WantedUnlessChained` | apps/daemon/src/jobs/job-worker.ts:152-156 | a registered kind is asked for iff it is not serialized or no serialized dispatch is unsettled or uncleared |
| `Worker.ChainComesFree` | apps/daemon/src/jobs/job-worker.ts:177-188 | from every sound state three steps of the dispatch at most free the chain, and then every kind is asked for |
| `SummarizeQueue.NextIsLinked` | apps/daemon/src/jobs/job-worker.ts:148-249 | every step of queue, worker, handlers, purges and crashes keeps claims, leases, rows and what is in flight in agreement |
| `SummarizeQueue.OneBusyClaim` | apps/daemon/src/jobs/job-worker.ts:138-146 | of one segment at most one claim is between claim and settlement |
| `SummarizeQueue.RunProjects` | apps/daemon/src/jobs/job-worker.ts:148-249 | every run of queue and worker is, for the segment, an enabled run of the summarizer's operations with the same outcome |
| `SummarizeQueue.QueueRunsCoverOnce` | apps/daemon/src/processing/episode-summarizer.ts:138-308 | over every queue run: each surviving step up to the frontier in one episode, beyond it in none, and while steps are left a row at the frontier that has not succeeded, unless purged dead |
| `SummarizeQueue.DrainedQueueMeansCovered` | apps/daemon/src/processing/episode-summarizer.ts:138-308 | once all rows of the segment have succeeded every surviving step is in exactly one episode |
| `Consolidation.PassIsSafeAndFinal` | apps/daemon/src/processing/memory-consolidator.ts:110-221 | with distinct live claims: one active row at most, manual and rejected rows untouched, replacements strictly newer, nothing to do the second time |
| `Consolidation.NoTwinsKeepsSingleActive` | apps/daemon/src/processing/memory-consolidator.ts:98-109 | without twins a pass leaves at most one active row whatever was observed |
| `Consolidation.SingleActiveIffNoTwins` | apps/daemon/src/processing/memory-consolidator.ts:98-109 | a pass leaves one active row at most for all observations iff there was one at most and no twins |
| `Consolidation.PassIsLawful` | apps/daemon/src/processing/memory-consolidator.ts:56-93 | of every group: manual and rejected rows are never moved, and no row becomes active on fewer than two episodes |
| `Consolidation.PassTwoKeepsActiveCount` | apps/daemon/src/processing/memory-consolidator.ts:188-218 | pass 2 never changes how many rows are active |
| `Consolidation.WinnerIsFreshest` | apps/daemon/src/processing/memory-consolidator.ts:195-211 | the winner qualifies and no other qualifier has fresher evidence |
| `Consolidation.ContradictionIsNewer` | apps/daemon/src/processing/memory-consolidator.ts:81-93 | a row that contradicts has evidence newer than what it contradicts |
| `Consolidation.ConsolidateGroup` | apps/daemon/src/processing/memory-consolidator.ts:110-221 | both passes, in the source's order, yield the verdicts of `Verdicts.VerdictsAreFair` and `Verdicts.EarnedBecomesActive`, row by row those of `Verdicts.PromotedIffRises` and `Verdicts.FirstDisputedYields` |
| `Consolidation.SupersedeContradicted` | apps/daemon/src/processing/memory-consolidator.ts:163-220 | the first active row with a winner gives way, once |
| `Verdicts.QualifiesIffEarns` | apps/daemon/src/processing/memory-consolidator.ts:56-79 | the matrix as counted: confidence 0.8, and two episodes for a fact, else three on two UTC days, told by observations of different episodes and days |
| `Verdicts.ContradictsIffOutweighs` | apps/daemon/src/processing/memory-consolidator.ts:81-93 | to contradict is to have two episodes each newer than everything seen for the other row |
| `Verdicts.PromotedIffRises` | apps/daemon/src/processing/memory-consolidator.ts:121-161 | whatever was decided before, a row is made active in pass 1 iff it is an automatic candidate that has earned it and every active row of another claim is automatic and outweighed; then those rows are superseded and nothing else changes |
| `Verdicts.FirstDisputedYields` | apps/daemon/src/processing/memory-consolidator.ts:188-218 | in pass 2 the first active row that some waiting or superseded row of another claim outweighs gives way to the freshest of them, the first among equals |
| `Verdicts.NoneYields` | apps/daemon/src/processing/memory-consolidator.ts:188-218 | with no such row pass 2 changes nothing |
| `Verdicts.VerdictsAreFair` | apps/daemon/src/processing/memory-consolidator.ts:110-221 | of every group: a row becomes active only if it has earned it or outweighs a row of another claim that is superseded, and is superseded only if a row of another claim outweighs it |
| `Verdicts.EarnedBecomesActive` | apps/daemon/src/processing/memory-consolidator.ts:121-161 | an automatic candidate that has earned it becomes active in pass 1 when no row of another claim is active or has earned it, and stays so unless it is outweighed |
| `MemoryStore.NextIsSound` | apps/daemon/src/db/memories-repository.ts:192-448 | every writer keeps counts equal to the ledger, the index a mirror by rowid, and manual rows active |
| `MemoryStore.StoreStaysSound` | apps/daemon/src/db/memories-repository.ts:192-448 | so does every sequence of writers |
| `MemoryStore.ManualSurvives` | apps/daemon/src/db/memories-repository.ts:333-412 | a confirmed row stays, active and with its text, until the user rejects or forgets it |
| `MemoryStore.ConfirmKeepsDistinctIff` | apps/daemon/src/db/memories-repository.ts:338-347 | confirming keeps live claims distinct iff no other live row has the claim |
| `MemoryStore.NextKeepsDistinct` | apps/daemon/src/db/memories-repository.ts:192-253 | every other writer keeps the live claims of a key and kind distinct |
| `MemoryStore.PortionsCompose` | apps/daemon/src/services/delete-service.ts:139-186 | deleting episodes in portions leaves the same rows, counts, ledger and index as at once |
| `MemoryStore.WithoutEpisodesIsSound` | apps/daemon/src/services/delete-service.ts:139-175 | the evidence cascade keeps the store's invariant |
| `MemoryStore.MemoriesRepository.UpsertCandidate` | apps/daemon/src/db/memories-repository.ts:192-253 | evidence goes to the oldest live twin, else a new candidate with its index row; competing iff another live row is there |
| `MemoryStore.MemoriesRepository.ApplyStatusTransitions` | apps/daemon/src/db/memories-repository.ts:315-331 | verdicts in order, manual rows refused |
| `MemoryStore.MemoriesRepository.ConfirmMemory` | apps/daemon/src/db/memories-repository.ts:338-347 | active at once from any status |
| `MemoryStore.MemoriesRepository.RejectMemory` | apps/daemon/src/db/memories-repository.ts:353-362 | rejected, confirmation cleared |
| `MemoryStore.MemoriesRepository.ForgetMemory` | apps/daemon/src/db/memories-repository.ts:369-376 | index entry, evidence and row go together |
| `MemoryStore.MemoriesRepository.HardDeleteIds` | apps/daemon/src/db/memories-repository.ts:426-438 | one by one what deleting all at once does |
| `MemoryStore.MemoriesRepository.PurgeRejectedOlderThan` | apps/daemon/src/db/memories-repository.ts:382-390 | exactly the old rejected rows without confirmation |
| `MemoryStore.MemoriesRepository.PurgeSupersededOlderThan` | apps/daemon/src/db/memories-repository.ts:399-407 | exactly the old superseded rows |
| `MemoryStore.MemoriesRepository.PurgeUnsupported` | apps/daemon/src/db/memories-repository.ts:414-423 | exactly the unconfirmed rows without evidence |
| `MemoryEffects.TwinAbsorbs` | apps/daemon/src/db/memories-repository.ts:192-237 | an observation of a claim held goes to its oldest row: confidence and last sight never fall, an episode counts once, its first observation stays, text and status stay |
| `MemoryEffects.NewClaimIsCandidate` | apps/daemon/src/db/memories-repository.ts:192-253 | a claim not held becomes an unconfirmed candidate with one observation and its index entry |
| `MemoryEffects.VerdictsOnOneRow` | apps/daemon/src/db/memories-repository.ts:315-331 | of several verdicts on a row the last counts; a confirmed row, and one not spoken of, stays as it is |
| `MemoryEffects.ConfirmationAdopts` | apps/daemon/src/db/memories-repository.ts:338-347 | from any status the row is active and confirmed, and nothing else changes |
| `MemoryEffects.RejectionWithdraws` | apps/daemon/src/db/memories-repository.ts:353-362 | from any status, active too, the row is rejected and its confirmation gone; evidence and index stay |
| `MemoryEffects.PurgeTakesTheDue` | apps/daemon/src/db/memories-repository.ts:369-438 | each purge takes exactly the rows that are due, each with its evidence and index entry |
| `MemoryEffects.DeletionTakesTheUnsupported` | apps/daemon/src/services/delete-service.ts:139-171 | deleting episodes takes their evidence, and of the rows it touched exactly the unconfirmed ones without other evidence |
| `MemoryLife.OneActivePerKey` | apps/daemon/src/processing/memory-consolidator.ts:222-252 | over every run of all writers and of passes over a key's rows as stored: if new rows repeat no live claim of their key under another kind and confirmed rows stand alone, each key has one active row at most and one live row a claim |
| `MemoryLife.ConsolidationIsOrderly` | apps/daemon/src/processing/memory-consolidator.ts:228-252 | one pass over the key's rows as stored, its verdicts applied to the table, keeps that for all keys |
| `MemoryLife.ConfirmIsOrderlyIff` | apps/daemon/src/db/memories-repository.ts:338-347 | a confirmation keeps it iff no other row of the key is active and no other live row has the claim |
| `MemoryLife.ConfirmIsSafeIff` | apps/daemon/src/db/memories-repository.ts:338-347 | after a confirmation the next pass leaves one active row for all observations iff no other row of the key is active and no automatic candidate has the claim |
| `MemoryLife.InsertIsOrderlyIff` | apps/daemon/src/db/memories-repository.ts:192-253 | a new row keeps it iff no live row of the key, of whatever kind, states its claim |
| `MemoryLife.InsertIsSafeIff` | apps/daemon/src/db/memories-repository.ts:192-253 | after a new row the next pass leaves one active row for all observations iff no row of the claim is active and none is an automatic candidate, unless a confirmed row of the key is active |
| `TwinRuns.ConfirmedTwinBothActive` | apps/daemon/src/db/memories-repository.ts:333-347 | a concrete run from the empty store that ends with two active rows of one claim |
| `TwinRuns.TwoKindsBothActive` | apps/daemon/src/processing/memory-consolidator.ts:106-108 | a concrete run from the empty store, without any confirmation, after which one pass activates a claim's fact and its preference |
| `RangeDelete.RepeatReportsZeros` | apps/daemon/src/services/delete-service.ts:117-201 | repeating an explicit range reports zeros and changes nothing |
| `RangeDelete.DeleteKeepsReferences` | apps/daemon/src/services/delete-service.ts:117-201 | after a delete no link, occurrence or evidence dangles, and the memory tables are sound |
| `RangeDelete.PurgedStaysPurged` | apps/daemon/src/db/workflows-repository.ts:498-552 | after the threshold purge every candidate left meets both thresholds and a second purge does nothing |
| `RangeDelete.KilledAddsUp` | apps/daemon/src/services/delete-service.ts:139-161 | memories killed in portions add up to those killed at once |
| `RangeDelete.DeleteService.HardDeleteInvalidatedMemories` | apps/daemon/src/services/delete-service.ts:255-283 | portions of 500 remove exactly the unsupported rows among the given ids, with their index entries |
| `RangeDelete.DeleteService.DetachPortion` | apps/daemon/src/services/delete-service.ts:139-186 | one portion: evidence, memories, counts, occurrences, links |
| `RangeDelete.DeleteService.DetachEpisodes` | apps/daemon/src/services/delete-service.ts:139-186 | all portions equal the one-shot cascade, counts included |
| `RangeDelete.DeleteService.DeleteSteps` | apps/daemon/src/services/delete-service.ts:225-247 | the steps and their links, in portions |
| `RangeDelete.DeleteService.PurgeCandidatesBelowThreshold` | apps/daemon/src/db/workflows-repository.ts:498-552 | brings count and median of every candidate up to its surviving occurrences and removes exactly those below a threshold |
| `RangeDelete.BagWithout` | apps/daemon/src/db/workflows-repository.ts:510-534 | the similarities of a candidate do not depend on the order its occurrences are read in |
| `RangeDelete.DeleteService.DeleteRange` | apps/daemon/src/services/delete-service.ts:117-201 | the whole transaction equals the one-shot delete, and its stats count it |
| `RangeEffects.DeleteLeavesTheClear` | apps/daemon/src/services/delete-service.ts:117-136 | exactly the events, steps and episodes that lie wholly before or wholly after the range are left, unchanged |
| `RangeEffects.ClearIffNothingInCommon` | apps/daemon/src/services/delete-service.ts:76-82 | for an interval and a range that are not inverted, that is to have no moment in common |
| `RangeEffects.LinksFollowTheirEnds` | apps/daemon/src/services/delete-service.ts:177-186 | a link stays exactly as long as both its ends |
| `RangeEffects.MemoriesFollowTheirEvidence` | apps/daemon/src/services/delete-service.ts:139-161 | evidence goes with its episode, a memory exactly when it is unconfirmed and dead episodes alone supported it |
| `RangeEffects.WorkflowsFollowTheirOccurrences` | apps/daemon/src/db/workflows-repository.ts:498-552 | a candidate workflow stays iff three of its occurrences are left, on two days, with its count brought up to date; no other is touched |
| `RangeEffects.OccurrencesFollowTheirEnds` | apps/daemon/src/db/workflows-repository.ts:498-552 | an occurrence stays exactly as long as its workflow and its episode |
| `RangeEffects.StatsCountTheLoss` | apps/daemon/src/services/delete-service.ts:117-201 | the stats are what each table has lost |
| `Fingerprint.DistanceIsMetric` | apps/daemon/src/processing/workflow-fingerprint.ts:112-129 | zero iff equal, symmetric, triangle inequality, between the length difference and the longer length |
| `Fingerprint.EditDistance` | apps/daemon/src/processing/workflow-fingerprint.ts:116-129 | the two-row table computes the recursive distance |
| `EditScripts.DistanceIsLeastEdits` | apps/daemon/src/processing/workflow-fingerprint.ts:112-139 | the distance is the length of a shortest script of single replacements, removals and insertions: some script has it and none is shorter |
| `Fingerprint.SequenceScoreRange` | apps/daemon/src/processing/workflow-fingerprint.ts:143-147 | in [0,1], 1 exactly for equal lists, symmetric |
| `Fingerprint.OverlapRange` | apps/daemon/src/processing/workflow-fingerprint.ts:150-155 | in [0,1], 1 exactly for equal sets, symmetric |
| `Fingerprint.Jaccard` | apps/daemon/src/processing/workflow-fingerprint.ts:150-155 | the counting loop computes intersection over union |
| `Fingerprint.SimilarityRange` | apps/daemon/src/processing/workflow-fingerprint.ts:179-185 | in [0,1], symmetric, 1 exactly for equal signatures, apps and non-empty intent |
| `Fingerprint.SelfSimilarity` | apps/daemon/src/processing/workflow-fingerprint.ts:179-185 | an episode scores itself 1 with an intent and 0.85 without |
| `Fingerprint.EpisodeSimilarity` | apps/daemon/src/processing/workflow-fingerprint.ts:179-185 | the weighted sum the lemmas are about |
| `Likeness.EachPartWeighs` | apps/daemon/src/processing/workflow-fingerprint.ts:175-185 | alone, the same steps are worth 0.60, the same apps 0.25, the same intent 0.15 |
| `Fingerprint.MedianIgnoresOrder` | apps/daemon/src/processing/workflow-fingerprint.ts:187-195 | the same values in any order have the same median |
| `Fingerprint.MedianIsInTheMiddle` | apps/daemon/src/processing/workflow-fingerprint.ts:187-195 | at most half of the values lie below it and at most half above |
| `Likeness.MedianIsMidpoint` | apps/daemon/src/processing/workflow-fingerprint.ts:187-195 | the median lies half-way between two values that no value separates, with half of all on either side; for an odd number they are one |
| `Clustering.ClusterMedian` | apps/daemon/src/processing/workflow-miner.ts:163-168 | the gate value of a cluster clears the bar its members cleared and halves the recorded similarities |
| `Clustering.ClusterIsClosure` | apps/daemon/src/processing/workflow-miner.ts:176-219 | members are exactly the episodes reachable from the seed by similar steps, each once; recorded values clear the bar |
| `Clustering.SeedDoesNotMatter` | apps/daemon/src/processing/workflow-miner.ts:176-219 | any member as seed finds the same cluster |
| `Clustering.ConsiderCached` | apps/daemon/src/processing/workflow-miner.ts:186-213 | scoring only the members not scored before admits and records the same |
| `Clustering.ClusterAround` | apps/daemon/src/processing/workflow-miner.ts:176-219 | terminates with the uncached fixpoint: same members, order, similarities and median |
| `Likeness.BarForSameSteps` | apps/daemon/src/processing/workflow-miner.ts:176-206 | for the same steps without an intent the bar of 0.74 asks that 14 of 25 apps be common |
| `Likeness.SameStepsAndIntentClear` | apps/daemon/src/processing/workflow-miner.ts:176-206 | the same steps for the same intent always clear it |
| `Likeness.RecordedIsFirstScore` | apps/daemon/src/processing/workflow-miner.ts:190-213 | each member's recorded similarity is its score against the first member before it that clears the bar |
| `Framing.ChunksDoNotMatter` | apps/daemon/src/ipc/server.ts:267-315 | any splitting of the stream gives the state of parsing it whole |
| `Framing.SameStreamSameOutcome` | apps/recorder-macos/Sources/RecorderApp/IPC/Framing.swift:47-68 | two ways of cutting one stream deliver the same payloads and stop at the same fault |
| `Framing.FirstFrameIsTold` | apps/daemon/src/ipc/server.ts:267-315 | four bytes, the most significant first, tell the length; more than 1 MiB ends the stream, a short rest waits, a whole payload is judged and the parse goes on after it |
| `Framing.RoundTripsIffNoneEmpty` | apps/recorder-macos/Sources/RecorderApp/IPC/Framing.swift:18-68 | encoded payloads come back unchanged under every chunking iff none is empty |
| `Framing.BudgetNeverFiresIff` | apps/daemon/src/ipc/server.ts:50-55 | an open stream never buffers beyond the budget iff the budget is at least one byte short of a largest frame |
| `Framing.Connection.OnData` | apps/daemon/src/ipc/server.ts:267-315 | the chunk list behaves as one parse of the stream, and the default budget check never fires |
| `Framing.FrameBuffer.ExtractFrames` | apps/recorder-macos/Sources/RecorderApp/IPC/Framing.swift:47-68 | the flat buffer behaves as one parse of the stream |
| `Waiters.NextConserves` | apps/recorder-macos/Sources/RecorderApp/IPC/DaemonClient.swift:838-964 | every section keeps each continuation at exactly one place |
| `Waiters.ResumedAtMostOnce` | apps/recorder-macos/Sources/RecorderApp/IPC/DaemonClient.swift:202-346 | over every interleaving no continuation is resumed twice or lost |
| `Waiters.NextKeepsTimed` | apps/recorder-macos/Sources/RecorderApp/IPC/DaemonClient.swift:202-346 | with any number of connect calls, deadline and frame carry the waiter's own generation, and once the deadline has passed in vain the client is on a later connection |
| `Waiters.DeadlineFreesIffNoAdoption` | apps/recorder-macos/Sources/RecorderApp/IPC/DaemonClient.swift:1049-1070 | over every run, the deadline frees a request still waiting iff no socket was adopted since it registered |
| `Waiters.NextKeepsCurrent` | apps/recorder-macos/Sources/RecorderApp/IPC/DaemonClient.swift:838-858 | with one connect call at a time every waiter stays of the current generation |
| `Waiters.DeadlineFreesWaiter` | apps/recorder-macos/Sources/RecorderApp/IPC/DaemonClient.swift:1049-1070 | then the deadline always frees its waiter |
| `Waiters.WriterFreesAged` | apps/recorder-macos/Sources/RecorderApp/IPC/DaemonClient.swift:232-262 | a frame still queued or being sent frees the waiter that an adoption has aged |
| `Waiters.StrandedUntilRescued` | apps/recorder-macos/Sources/RecorderApp/IPC/DaemonClient.swift:951-964 | with deadline and frame gone, a reply, a drain or a connect frees the waiter, and no other section does |
| `Waiters.TwoConnectorsStrand` | apps/recorder-macos/Sources/RecorderApp/IPC/DaemonClient.swift:1049-1070 | a concrete run with two connect calls ends with such a waiter |
| `Waiters.DaemonClient.RegisterLocked` | apps/recorder-macos/Sources/RecorderApp/IPC/DaemonClient.swift:202-230 | registers under the current generation or refuses |
| `Waiters.DaemonClient.FailPendingBatch` | apps/recorder-macos/Sources/RecorderApp/IPC/DaemonClient.swift:909-918 | an error frame takes out one batch of its message id, if there is one |
| `Waiters.DaemonClient.ReplyTimeout` | apps/recorder-macos/Sources/RecorderApp/IPC/DaemonClient.swift:1049-1070 | takes the waiter out only in its own generation |
| `Waiters.DaemonClient.DisconnectLocked` | apps/recorder-macos/Sources/RecorderApp/IPC/DaemonClient.swift:143-165 | closes, ages the generation, takes everybody out |
| `Waiters.DaemonClient.TeardownLocked` | apps/recorder-macos/Sources/RecorderApp/IPC/DaemonClient.swift:951-964 | closes only the socket it is for |
| `Waiters.DaemonClient.AdoptSocket` | apps/recorder-macos/Sources/RecorderApp/IPC/DaemonClient.swift:838-858 | a new generation on a new socket |
| `Spool.SpoolLedger` | apps/recorder-macos/Sources/RecorderApp/Storage/SpoolStore.swift:134-293 | over all runs every appended batch is on disk, or in a file fully acknowledged, quarantined, evicted or expired; totals match the files; a listed file is never the open one; what acknowledged means is told by `SpoolHistory.AckedFileWasAccounted` and `SpoolHistory.AckedIsAnsweredFor` |
| `Spool.NextIsSound` | apps/recorder-macos/Sources/RecorderApp/Storage/SpoolStore.swift:398-641 | every append, replay step, purge, crash and restart keeps the ledger and the index |
| `Spool.CapEvictsPrefix` | apps/recorder-macos/Sources/RecorderApp/Storage/SpoolStore.swift:218-263 | eviction takes a prefix in replay order and no file too many, and ends within the cap or at a file that cannot be deleted |
| `Spool.PassGoesOnInOrder` | apps/recorder-macos/Sources/RecorderApp/Storage/SpoolStore.swift:398-476 | whatever happens during a pass, it goes on only past a file that left the spool, is wholly acknowledged or could not be read; an unreadable file is passed with nothing changed |
| `Spool.UndeliveredFileStopsPass` | apps/recorder-macos/Sources/RecorderApp/Storage/SpoolStore.swift:453-641 | an undelivered file ends the pass; a pass that stops leaves the spool files alone, and the quarantined ones unless a third strike finds its file gone and the quarantine full |
| `SpoolRuns.PassIsInOrder` | apps/recorder-macos/Sources/RecorderApp/Storage/SpoolStore.swift:382-476 | in every pass of every run, while files can be read, all files listed before the current one have left the spool or are wholly acknowledged |
| `SpoolRuns.UnreadableFileIsOvertaken` | apps/recorder-macos/Sources/RecorderApp/Storage/SpoolStore.swift:446-450 | a concrete run in which a newer file is delivered and an older, unreadable one stays unacknowledged |
| `FullQuarantine.QuarantineFills` | apps/recorder-macos/Sources/RecorderApp/Storage/SpoolStore.swift:619-641 | every number of quarantined files up to the limit is reached from the empty spool |
| `FullQuarantine.QuarantinedFileIsLost` | apps/recorder-macos/Sources/RecorderApp/Storage/SpoolStore.swift:628-637 | a concrete run that ends with one quarantined file fewer and nothing quarantined for it |
| `Spool.SendsCover` | apps/recorder-macos/Sources/RecorderApp/Storage/SpoolStore.swift:493-560 | whole or split, the sends of a file cover every event of every batch |
| `Spool.SortedLists` | apps/recorder-macos/Sources/RecorderApp/Storage/SpoolStore.swift:668-697 | the listing has every file once, in strict key order |
| `Spool.RestartedIsSound` | apps/recorder-macos/Sources/RecorderApp/Storage/SpoolStore.swift:119-130 | a crash with a torn tail, purge and rescan leave the ledger intact and the index true |
| `Spool.SpoolStore.AppendBatch` | apps/recorder-macos/Sources/RecorderApp/Storage/SpoolStore.swift:135-171 | rotation, write, counters and cap; a torn write leaves nothing of the line |
| `Spool.SpoolStore.EnforceCap` | apps/recorder-macos/Sources/RecorderApp/Storage/SpoolStore.swift:223-263 | the eviction loop, which terminates, at a file that cannot be deleted if need be |
| `Spool.SpoolStore.Remove` | apps/recorder-macos/Sources/RecorderApp/Storage/SpoolStore.swift:284-293 | the file, its counters and the writer on it go together; a phantom is only forgotten |
| `Spool.SpoolStore.PurgeExpiredFiles` | apps/recorder-macos/Sources/RecorderApp/Storage/SpoolStore.swift:334-358 | every file old by name and by modification time, unless it cannot be deleted |
| `Spool.SpoolStore.BeginReplaySnapshot` | apps/recorder-macos/Sources/RecorderApp/Storage/SpoolStore.swift:322-331 | seal, purge and list in one section |
| `Spool.SpoolStore.ClassifySendFailure` | apps/recorder-macos/Sources/RecorderApp/Storage/SpoolStore.swift:569-641 | environmental failures block without penalty, the third strike makes room in the quarantine and moves the file there, or blocks when it is gone |
| `Spool.SpoolStore.Quarantine` | apps/recorder-macos/Sources/RecorderApp/Storage/SpoolStore.swift:619-641 | room is made first; the file is moved and forgotten, or left alone when it is gone |
| `Spool.SpoolStore.FinishFile` | apps/recorder-macos/Sources/RecorderApp/Storage/SpoolStore.swift:453-475 | a fully covered file is removed if it can be, and the pass goes on; any other blocks |
| `SpoolHistory.AckedFileWasAccounted` | apps/recorder-macos/Sources/RecorderApp/Storage/SpoolStore.swift:453-560 | a file leaves as acknowledged only by a finish before which, since its load, the i-th answer of the run accounts for every event of its i-th frame, for all frames |
| `SpoolHistory.ShortAnswerBlocks` | apps/recorder-macos/Sources/RecorderApp/Storage/SpoolStore.swift:453-560 | in every run: one answer short of its frame and the finish ends the pass with all files where they were; none short and the file goes as acknowledged, unless it is gone or locked |
| `SpoolHistory.AckedIsAnsweredFor` | apps/recorder-macos/Sources/RecorderApp/Storage/SpoolStore.swift:512-560 | the acknowledged events of a run are exactly those of frames an answer accounted for in full |
| `SpoolBounds.SendsSpell` | apps/recorder-macos/Sources/RecorderApp/Storage/SpoolStore.swift:493-560 | the frames of a delivery carry the file's events in order, each once |
| `SpoolBounds.BatchGoesWholeIfItFits` | apps/recorder-macos/Sources/RecorderApp/Storage/SpoolStore.swift:512-560 | a batch of at most 1 MiB goes in one frame, a larger one event by event |
| `SpoolBounds.AppendRotatesAtLimit` | apps/recorder-macos/Sources/RecorderApp/Storage/SpoolStore.swift:135-193 | a batch goes to the open file while the line fits into 512 KiB, else to a new one |
| `SpoolBounds.PurgeTakesExactlyTheOld` | apps/recorder-macos/Sources/RecorderApp/Storage/SpoolStore.swift:334-358 | exactly the files more than 48 hours old by name and by date that can be deleted |
| `SpoolBounds.ReplayIsOldestFirst` | apps/recorder-macos/Sources/RecorderApp/Storage/SpoolStore.swift:668-697 | listed files ascend by stamp, then by creation sequence, then by name |
| `SpoolBounds.ReplayListsEverything` | apps/recorder-macos/Sources/RecorderApp/Storage/SpoolStore.swift:322-331 | a pass lists every file its purge leaves, and no file is open |
| `SpoolBounds.ThirdStrikeQuarantines` | apps/recorder-macos/Sources/RecorderApp/Storage/SpoolStore.swift:569-641 | an environmental failure is no strike, two strikes block, the third quarantines the file and goes on, or blocks when it is gone |
| `Chat.TurnsAreConfluent` | apps/recorder-macos/Sources/RecorderApp/App/AppState.swift:719-865 | sent while no turn streams, the response at any point of the turn gives the same transcript, phase, session, error and cleared draft, late outcomes of superseded sends included |
| `Chat.ConfluentIffMaySend` | apps/recorder-macos/Sources/RecorderApp/App/AppState.swift:719-865 | for all turns that is so iff no turn was streaming at the send |
| `Chat.SupersededSendIsIgnored` | apps/recorder-macos/Sources/RecorderApp/App/AppState.swift:565-582 | an outcome of a send that a later one has superseded changes nothing |
| `Chat.AtMostOneReplyPerUserRow` | apps/recorder-macos/Sources/RecorderApp/App/AppState.swift:719-891 | over every run assistant rows never outnumber user rows |
| `Chat.GatedRunsStayCoherent` | apps/recorder-macos/Sources/RecorderApp/UI/AskView.swift:161-226 | while no message is sent in a streaming turn, Retry included, the pinned id, the phase and the draft agree |
| `Chat.AppState.BeginSend` | apps/recorder-macos/Sources/RecorderApp/App/AppState.swift:565-573 | appends the row, opens the next send window and remembers its number |
| `Chat.AppState.FinishSend` | apps/recorder-macos/Sources/RecorderApp/App/AppState.swift:574-582 | applies the outcome of its own window only |
| `Chat.AppState.ApplyChatSendResult` | apps/recorder-macos/Sources/RecorderApp/App/AppState.swift:783-815 | pins the turn, then plays the chunks and the terminal that came early |
| `Chat.AppState.ApplyChatChunk` | apps/recorder-macos/Sources/RecorderApp/App/AppState.swift:817-831 | drafts, buffers or ignores |
| `Chat.AppState.ApplyChatDone` | apps/recorder-macos/Sources/RecorderApp/App/AppState.swift:833-848 | ends the pinned turn with its row, or buffers |
| `Chat.AppState.ApplyChatError` | apps/recorder-macos/Sources/RecorderApp/App/AppState.swift:850-872 | ends the pinned turn cancelled or failed, or buffers |
| `Chat.AppState.HandleConnectionLost` | apps/recorder-macos/Sources/RecorderApp/App/AppState.swift:874-889 | fails whatever turn is pending or streaming |
| `ChatEndings.LostConnectionEndsTurn` | apps/recorder-macos/Sources/RecorderApp/App/AppState.swift:874-889 | a lost connection fails a pending or streaming turn with its message, drops the draft, keeps transcript and session, and whatever comes late is ignored |
| `ChatEndings.GivenUpSendEnds` | apps/recorder-macos/Sources/RecorderApp/App/AppState.swift:736-781 | a pending send ends failed with its error or the timeout's, or cancelled without one, and whatever comes late is ignored |
| `ChatEndings.EndedStaysEnded` | apps/recorder-macos/Sources/RecorderApp/App/AppState.swift:719-891 | once a turn is over only a message or a reset changes anything |
| `ChatEndings.DoneTurnAddsTwoRows` | apps/recorder-macos/Sources/RecorderApp/App/AppState.swift:719-848 | a turn that is done adds the message and the text streamed, wherever its response lands |
| `ChatEndings.FailedTurnAddsOneRow` | apps/recorder-macos/Sources/RecorderApp/App/AppState.swift:719-872 | one that fails or is aborted adds the message alone, with an error only when it failed |
| `WellFormedText.WellFormedIffNoneUnpaired` | apps/daemon/src/util/text.ts:26-32 | well-formed in the sense of section 3.9 of the Unicode Standard iff no surrogate is unpaired |
| `WellFormedText.RepairedIsWellFormed` | apps/daemon/src/util/text.ts:33-62 | the repair is well-formed, keeps the length, and differs only in surrogates replaced by U+FFFD |
| `WellFormedText.RepairedIsIdentityIffWellFormed` | apps/daemon/src/util/text.ts:26-32 | text is left alone iff it was well-formed |
| `WellFormedText.RepairedIsIdempotent` | apps/daemon/src/util/text.ts:26-32 | repairing twice is repairing once |
| `WellFormedText.ReplaceWellFormedTarget` | apps/daemon/src/util/text.ts:33-62 | the scan replaces exactly the unpaired surrogates, each by U+FFFD |

## Left out

- SQLite itself, prepared statements, migrations and full-text ranking: tables are maps and sequences, a transaction is one method; the search mirrors of steps and episodes are not modelled, that of memories is.
- Generated ids are natural numbers whose order is that of the strings, and segments, jobs and episodes of the segmenter and summarizer are numbered in the order they are created.
- Clocks, generated ids, file names and the outcome of I/O are parameters; normalized claim texts and fingerprints are given, not computed.
- The legacy interval tier of the summarize latch (episodes-repository.ts 680-696) and rows from before migration 013.
- Job payload parsing, progress callbacks, logging and the notifications sent after a commit.
- Summarizer.ExactlyOnceCover: ranges over one segment without range deletes; titles, summaries, apps and entities of an episode are not part of it.
- MemoryStore.StoreStaysSound: transitions are arbitrary, so it covers every consolidation; those of a pass are the subject of `MemoryLife`, where the loop over touched keys of `runConsolidation` is a sequence of steps, one a key.
- RangeDelete.RepeatReportsZeros: for explicit ranges; presets move with the clock.
- SummarizeQueue.QueueRunsCoverOnce: recovery and claim of one tick are two steps, any due row may be claimed, and the payloads of jobs are taken to parse.
- Worker.DrainIsComplete: the grace timeout of `stop` and the poll timer are not modelled.
- Waiters.NextKeepsTimed: the bytes on a socket and the event subscription are not modelled.
- Spool.SpoolLedger: writes may be torn, files unreadable, gone or impossible to delete, and a crash may tear the last line of the open file; other file operations succeed, the move of an existing file into quarantine and the deletion of quarantined ones among them.
- Fingerprint.SimilarityRange: exact arithmetic instead of floating point.
- Fingerprint.MedianIsInTheMiddle: likewise.
- The pool cap, the template prompt and the suppression against existing workflows in the miner; configuration, handshake, routing, schema validation, views and process supervision.
