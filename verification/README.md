# Circuit breaker: a verified model

This project models a process-local circuit breaker and proves what its design promises, for every
configuration, every caller behaviour and every sequence of clock readings, including readings that go
backward.

A breaker is a state machine with three policy states (closed, open, half-open) crossed with four
administrative modes (normal, force-open, disabled, isolated). Every change of either starts a new
generation. Callers acquire permits, which live on the heap, outlive their generation and end once, by
completion, cancellation or lazily observed expiry. Closed-state health is kept in a rolling window; the
half-open state runs a bounded sample of probes; callers beyond the probe quota may wait for a broadcast
signal. Transition events go to an observer, possibly through a bounded queue with one worker.

How the files fit together:

- `Window.dfy`, `CountWindow.dfy`, `BucketId.dfy`, `TimeWindow.dfy` are the two rolling windows, as classes
  over arrays, proved against list models that keep every record ever added. Bucket identities are signed
  128-bit numbers built from machine words; the words are newtypes, so every unguarded operation carries a
  proof that it does not wrap. `Arithmetic.dfy` holds the division facts both rings need.
- `Config.dfy`, `Policy.dfy` and `OpenSchedule.dfy` are normalization, the opening rules and the open-interval
  schedule with jitter.
- `BreakerModel.dfy` is a reference machine on values: one step per critical section, deliberately simpler
  than the source (the probe set is derived from the permits, the sample is the list of its outcomes, the
  window a list of records). The whole-run theorems are about it: `BreakerInvariants.dfy`, `ProbeVerdict.dfy`,
  `BreakerSafety.dfy`, `BreakerPruning.dfy`, `BreakerTrip.dfy`, `BreakerRecovery.dfy`, `BreakerLifetime.dfy`,
  `ObserverEffect.dfy`, `ObserverClamping.dfy`.
- `BreakerSteps.dfy` states the whole effect of each call field by field, in terms a caller could check and
  without naming how the reference machine computes it; `BreakerHistory.dfy` turns that into theorems about runs:
  records and samples are histories, refusals are counted, an administrative mode holds until it is changed.
- `CircuitBreaker.dfy` is the breaker in the source's own form: a class whose methods update the fields and the
  permits in place. `Valid` ties every field to the reference state held in a ghost field, and each method's
  contract equates its effect and reply with a step of the reference machine, so the theorems carry over.
- `Execution.dfy` states the caller protocols (Execute and the waiting acquire) with arbitrary steps of other
  callers in between; `Callers.dfy` runs them on the class.
- `ObserverQueue.dfy` is the asynchronous delivery protocol as interleaved micro-steps, with the properties of
  every run; `ObserverChannel.dfy` is its in-place form, proved to follow those steps.
- `ManualClock.dfy` is the manually driven clock: an in-place stable sort and compaction of one timer slice.

Two results are worth knowing before reading the code. Building an event reads the rolling window, and
reading a fresh time window fixes its observed bucket; so with a time window, configuring an observer is not
neutral. It is invisible to every caller exactly as long as no first record after a recovery or reset falls in
a bucket before that transition's (`ObserverClamping.ObserverInvisibleExactly`), in particular under a clock
that never goes backward; at the first such record some snapshot would tell
(`ObserverClamping.BackwardClockShowsObserver` is such a run, for every time-window configuration). With a count window it provably changes nothing
(`ObserverEffect.CountWindowUnaffected`). And the open schedule needs nothing from floating point: its guards
keep it within bounds and nondecreasing whatever value the scaling returns (`OpenSchedule.SelectedBounds`).

Run `dafny verify dfyconfig.toml` in this directory to check everything.

## Model

Paths and lines refer to the breaker's repository.

| member | source | states |
|---|---|---|
| `Window.AddRecounts` | window/window.go:55-89 | adding a record to a counter set that recounts a bag gives the recount of the larger bag, removing it gives the smaller one back, and the counters a removal decrements are positive |
| `Window.MergeRecounts` | window/time.go:245-252 | merging two recounts is the recount of both bags together |
| `CountWindow.WriteRing` | window/count.go:43-50 | writing the next slot of a ring of the most recent classified records evicts exactly the oldest retained one and leaves the ring holding the most recent ones |
| `CountWindow.AddClassified` | window/count.go:43-51 | one eviction (when full) and one addition take the recount of the last N classified records to the recount after one more record, without underflow |
| `CountWindow.AddIgnored` | window/count.go:36-41 | an ignored record evicts nothing and only accumulates |
| `CountWindow.Count.constructor` | window/count.go:17-26 | an accepted size gives an empty ring of that size whose aggregate is the recount of nothing |
| `CountWindow.Count.Add` | window/count.go:32-54 | whatever the sequence of additions, the incremental aggregate stays the recount of the last N classified records plus the cumulative ignored count; an invalid class changes nothing |
| `CountWindow.Count.Push` | window/count.go:43-51 | the evicting path keeps ring, cursor, length and aggregate in agreement with the list of everything added |
| `CountWindow.Count.Snapshot` | window/count.go:56-57 | the reported aggregate is the recount of the last N classified records ever added |
| `BucketId.CanonicalEquality` | window/time.go:67-70 | on identities without a negative zero, comparing structs with == is comparing the integers they denote |
| `BucketId.Add128` | window/time.go:160-163 | the 128-bit result is the exact sum: the carry never wraps the high word |
| `BucketId.Subtract128` | window/time.go:165-168 | the 128-bit result is the exact difference: the borrow never wraps the high word |
| `BucketId.DivideMagnitude` | window/time.go:143-145 | two-digit long division satisfies the division equation, and the precondition of the library division always holds |
| `BucketId.FromInt64` | window/time.go:152-158 | every int64, including the least, becomes a canonical identity of the same value |
| `BucketId.ExactUnixNanoseconds` | window/time.go:206-232 | the fast path is taken exactly when the nanoseconds since the epoch fit an int64, and then returns them without wrapping |
| `BucketId.NarrowId` | window/time.go:114-123 | truncated division with one step down below the epoch is the floor of the quotient |
| `BucketId.WideMagnitude` | window/time.go:125-141 | the 128-bit magnitude is exact for every timestamp outside int64 nanoseconds, on both sides of the epoch |
| `BucketId.WideId` | window/time.go:125-149 | the wide path is the floor of the quotient and canonical |
| `BucketId.BucketIdAt` | window/time.go:111-150 | for every int64 second, every nanosecond within it and every positive duration, the identity denotes floor(nanoseconds / duration), canonically |
| `BucketId.Compare` | window/time.go:170-192 | comparison agrees with the order of the integers denoted |
| `BucketId.Subtract` | window/time.go:194-204 | subtraction agrees with integer subtraction across zero and never yields a negative zero |
| `BucketId.Index` | window/time.go:234-243 | the ring slot is the Euclidean remainder, also of negative identities |
| `BucketId.HorizonSlots` | window/time.go:234-243 | two different identities in one slot are at least a whole ring apart, so those inside one horizon never collide |
| `TimeWindow.OverwrittenIsExpired` | window/time.go:67-70 | a record whose slot has moved on lies in no horizon ending at or after the observed progress: overwritten means expired for good |
| `TimeWindow.AddToRing` | window/time.go:65-71 | every slot keeps aggregating exactly the records of its own bucket, and every record ever added stays placed in a slot holding its bucket or a later one |
| `TimeWindow.ScanSlot` | window/time.go:85-89 | visiting one slot adds exactly the records of the horizon that live in it |
| `TimeWindow.ScanEnds` | window/time.go:80-92 | what a scan has passed is nothing before the first slot and the whole horizon after the last |
| `TimeWindow.Time.constructor` | window/time.go:34-52 | accepted parameters give a window that has observed nothing and holds nothing |
| `TimeWindow.Time.Observe` | window/time.go:95-106 | the observed bucket moves to the timestamp's bucket when that is later and never backward |
| `TimeWindow.Time.Add` | window/time.go:54-74 | the record joins the history in its clamped bucket and the ring keeps agreeing with the full history; an invalid class changes nothing |
| `TimeWindow.Time.Snapshot` | window/time.go:76-93 | after any sequence of additions and snapshots at arbitrary times, the ring scan equals the recount of all records ever added whose bucket lies in the last BucketCount buckets |
| `TimeWindow.Time.Scan` | window/time.go:82-92 | the loop over the ring computes the recount of the horizon |
| `Config.WindowProduct` | config.go:491-493 | the division guard is exact: it accepts a duration exactly when duration times count fits |
| `Config.PartsAccepted` | config.go:393-549 | each option normalizer accepts exactly its well-formed values |
| `Config.HalfOpenAccepted` | config.go:551-582 | a recovery policy is accepted exactly when it has one threshold within a bounded quota |
| `Config.AcceptedExactly` | config.go:286-391 | a configuration is accepted exactly when its parts are well formed and a count window can hold the evidence its rules ask for |
| `Config.NormalizeIsValid` | config.go:286-391 | every accepted configuration satisfies the invariant that the breaker relies on many calls later |
| `Config.NormalizeWritten` | config.go:286-391 | every setting satisfying that invariant can be written down and normalizes to itself |
| `Config.Defaults` | config.go:286-391 | in every configuration, leaving an option out gives the same settings, or the same rejection, as writing its default down |
| `Policy.Consider` | policy.go:20-36 | one enabled rule adds its decision to the list and a disabled one nothing |
| `Policy.Decisions` | policy.go:20-36 | the collected list holds the decisions of exactly the enabled rules |
| `Policy.OpeningDecision` | policy.go:9-42 | opens exactly when throughput is reached and any (or all, of at least one) enabled rules hold, whatever their order |
| `Policy.SlowFailuresOpen` | policy.go:9-42 | evidence of nothing but enough slow failures satisfies every rule set that can be configured, under either combination |
| `Policy.FailuresOpen` | policy.go:9-42 | evidence of nothing but failures, fast or slow, satisfies every rule set that counts failures |
| `Policy.OpensMeans` | docs/policies.md:5-20 | the breaker's rules hold exactly when throughput is reached and the five rows of the table do, any or all of those enabled, streak against streak, failures against failures, slow against slow, with the ratios multiplied out |
| `OpenSchedule.LevelGrows` | breaker.go:633-646 | for any scaling whatever, each growth step is the cap or strictly above the one before and within [Initial, Maximum] |
| `OpenSchedule.SelectedBounds` | breaker.go:627-650 | the pre-jitter interval stays in its bounds, never decreases in the opening count and reaches the cap |
| `OpenSchedule.SelectedFollows` | breaker.go:627-650 | the first opening waits Initial; each further one waits the scaled interval of the one before while that is longer and within Maximum, and Maximum from then on |
| `OpenSchedule.SelectedIsPower` | breaker.go:633-650 | for a scaling by a whole number m of at least 2, the n-th interval is the smaller of Maximum and Initial times the (n-1)-th power of m |
| `OpenSchedule.Select` | breaker.go:627-650 | the loop computes the scheduled interval in at most Maximum-Initial rounds, however large the opening count |
| `OpenSchedule.SafeSample` | breaker.go:664-679 | whatever the random source does the sample lies in [0, 1), and a good sample is used unchanged |
| `OpenSchedule.Jittered` | breaker.go:653-662 | the jittered interval is the floor of duration * (1 - jitter * sample), and at least one nanosecond |
| `BreakerModel.OpenInterval` | breaker.go:627-662 | the interval of an opening is the floor of its scheduled interval times 1 - jitter * sample, at least one nanosecond, and the scheduled interval itself without jitter |
| `BreakerInvariants.UndecidedIsShort` | breaker.go:470-485 | a probe sample that has not decided its generation is always shorter than MaxProbes |
| `BreakerInvariants.ProbesAfterCommit` | breaker.go:517-523 | a new generation starts with no probe at all |
| `BreakerInvariants.CommitKeeps` | breaker.go:506-526 | a transition whose rewrite follows the table restores the whole invariant |
| `BreakerInvariants.TryAcquireKeeps` | breaker.go:204-253 | admission at any time keeps the invariant |
| `BreakerInvariants.CompleteKeeps` | breaker.go:288-345 | completion at any time keeps the invariant, whatever the permit's epoch and status |
| `BreakerInvariants.StepKeeps` | breaker.go:143-623 | every critical section keeps the invariant, at any observed time |
| `BreakerInvariants.RunKeeps` | breaker.go:143-623 | every sequence of critical sections keeps the invariant |
| `BreakerInvariants.Reachable` | breaker.go:81-99 | every state reachable from construction satisfies the invariant |
| `ProbeVerdict.DecidedIsFed` | breaker.go:454-486 | the samples that end a generation are exactly those at which feeding the outcomes one by one first decides |
| `ProbeVerdict.DecidedWithinQuota` | breaker.go:470-485 | MaxProbes classified outcomes always decide, under every accepted policy |
| `ProbeVerdict.AfterSampleByCount` | breaker.go:470-485 | reopen-after-sample closes exactly when the full sample's success count meets the threshold |
| `ProbeVerdict.AfterSampleOrderIndependent` | breaker.go:470-485 | reopen-after-sample does not depend on the order in which probes complete |
| `ProbeVerdict.ImmediateByPrefix` | breaker.go:463-482 | immediate reopening closes exactly when the first required outcomes are all successes |
| `ProbeVerdict.AfterSampleStopsAtCount` | breaker.go:471-482 | reopen-after-sample with a success count recovers at the very outcome that completes the count, whatever failed before it, and fails at MaxProbes otherwise |
| `ProbeVerdict.AfterSampleWaitsForRatio` | breaker.go:474-482 | reopen-after-sample with a ratio decides at exactly MaxProbes outcomes, by their successes against the ratio of the quota |
| `ProbeVerdict.ImmediateStopsAtFailure` | breaker.go:463-482 | immediate reopening stops at the first failure, or recovers at the last of the needed successes in a row |
| `ProbeVerdict.JudgeDecides` | breaker.go:463-485 | what the next outcome of an undecided sample decides, for every accepted policy, by its bag of outcomes and length |
| `BreakerSafety.ProbeQuota` | docs/policies.md:43-44 | in every reachable state the classified sample and the active probes share the quota, the sample leaves room for one more, and both are empty outside normal half-open |
| `BreakerSafety.AdmissionExact` | docs/design.md:48-57 | the admission matrix, each answer if and only if: who is admitted and what the new permit is bound to, who waits, who is rejected, with which cause, and that a refusal changes nothing but overdue probes and the rejection count |
| `BreakerSafety.NoLockout` | breaker.go:204-253 | from every reachable normal-mode state an acquire at or past the probe time and every live probe deadline is admitted |
| `BreakerSafety.LockoutIsBounded` | breaker.go:204-253 | from every reachable normal-mode state an acquire is admitted once the longest configured interval has passed since the latest opening, live probe deadlines aside |
| `BreakerSafety.PathIsChain` | breaker.go:506-526 | transition number i goes from generation i+1 to i+2, follows the table and starts where its predecessor ended |
| `BreakerSafety.TransitionPath` | docs/design.md:5-46 | the transitions of every run form a path in the transition table, one generation each: the health each reports is the recount of the logged window, a closed breaker opens only on evidence that satisfies its rules, each half-open verdict is that of its own outcomes in completion order, recovery and reset leave an empty window and every other transition retains it |
| `BreakerSafety.OpenIntervals` | breaker.go:488-504 | in every reachable state the opening count is the number of openings since the last closed state, zero exactly when closed; otherwise the probe time is the latest opening's time plus its interval, which is the scheduled level shortened by jitter only |
| `BreakerSafety.NeverRestsSatisfied` | breaker.go:340-343 | a closed breaker with a count window never rests on evidence that satisfies its opening rules |
| `BreakerSafety.StreakIsTrailingRun` | docs/policies.md:22-30 | the streak is the number of failures after the last record that breaks a run under the configured treatment of ignored outcomes |
| `BreakerSafety.StepSignals` | breaker.go:414-425 | every critical section that frees probe capacity or changes the epoch signals the waiters |
| `BreakerSafety.NoLostWakeup` | breaker.go:528-533 | over any run without a signal the generation is unchanged and the capacity in use has not fallen |
| `BreakerSteps.ClosedCompletion` | breaker.go:324-345 | completing a permit in force on a closed breaker, for every outcome and slow mark: exactly that record joins the evidence, in its clamped bucket, ignored ones never slow; the streak grows, ends or stays by the outcome; the breaker opens, once, exactly when the rules hold of the new evidence; nothing else changes |
| `BreakerSteps.ProbeCompletion` | breaker.go:454-486 | completing a probe hands back its slot with a signal; an ignored outcome does no more; a classified one joins the sample, which goes on, recovers or fails by the success count, the quota and the ratio |
| `BreakerSteps.OtherCompletion` | breaker.go:292-323 | every other completion leaves evidence, sample, state and totals of rejections alone and changes at most the permit it names |
| `BreakerSteps.CompletionReplies` | breaker.go:288-307 | every completion is answered by the status it finds: completed, canceled and expired sentinels, acceptance, or the invalid-outcome error |
| `BreakerSteps.Cancellation` | breaker.go:378-397 | a cancellation ends an active permit, by expiry at or past its deadline, hands back a held slot with a signal, and otherwise answers with the status it finds |
| `BreakerSteps.ModeChange` | breaker.go:550-577 | an accepted mode is the mode afterwards; when it differed exactly one generation and one log entry with that reason follow, sample and probes are gone, waiters signaled, and state, records, schedule, permits and counters kept; otherwise nothing changes, and an unknown mode is refused |
| `BreakerSteps.ResetEffect` | breaker.go:604-623 | a reset is always exactly one transition to a closed breaker in normal mode with an empty window and no schedule, permits and counters kept |
| `BreakerSteps.WaiterRejected` | breaker.go:194-198 | a waiter whose timer fired is refused with the timeout and the current epoch, counted once, and nothing else happens |
| `BreakerSteps.SnapshotReports` | breaker.go:761-814 | a snapshot expires overdue probes, reads the window and changes nothing else; it reports each field of the state, the recount of the horizon, the length of the sample and its successes |
| `BreakerSteps.AdmissionEffect` | breaker.go:204-253 | besides its answer an admission only expires overdue probes and counts a refusal, except that an elapsed open interval makes exactly one transition to half-open |
| `BreakerHistory.StepRemembers` | breaker.go:143-623 | how any one call changes the records and the sample |
| `BreakerHistory.EvidenceIsHistory` | breaker.go:324-345 | over every run the records are exactly the outcomes counted while closed since the last recovery or reset, in order and with their slow marks, and the sample exactly the classified outcomes counted while half-open in this generation |
| `BreakerHistory.StepRefuses` | breaker.go:255-265 | a step raises the rejection total by one exactly when it answers with a rejection |
| `BreakerHistory.RefusalsAreCounted` | breaker.go:255-265 | over every run the rejection total counts exactly the refusals callers saw, admissions and waits alike |
| `BreakerHistory.ModeHolds` | breaker.go:550-577 | a mode holds, over every run, until the next change to another mode or reset |
| `BreakerHistory.OverrideHolds` | docs/design.md:36-53 | after force-open or isolated every acquire is refused with its cause, and after disabled every one is admitted, whatever happens in between, until the next mode change or reset |
| `BreakerPruning.AlikeStep` | breaker.go:317-322 | on states that differ only in the statuses of dead permits, a terminal action on a dead permit changes nothing and any other acts and replies alike |
| `BreakerPruning.PruningChangesNothing` | breaker.go:427-444 | deleting every terminal action on stale or disabled-mode permits from any run leaves the final state alike and every other reply identical |
| `BreakerPruning.StaleActionsAreInvisible` | docs/design.md:68-69 | the same from construction, for every run |
| `BreakerPruning.PrunedPrefix` | breaker.go:427-444 | deleting commutes with taking prefixes, so the likeness holds at every remaining step |
| `BreakerTrip.OneCall` | breaker.go:324-344 | a serving breaker admits a call and records its failure whenever it completes, for an Execute permit, or completes within its TTL, for a manual one |
| `BreakerTrip.HitStep` | breaker.go:324-344 | a failing completion of any current permit, slow or of rules that count failures, adds exactly that record, and the breaker opens or its rules are unsatisfied |
| `BreakerTrip.MissStep` | breaker.go:288-345 | no other step of such a run touches the evidence |
| `BreakerTrip.AdverseRunOpens` | breaker.go:324-344 | by induction over any run that brings in nothing but such failures, the breaker opens no later than the one that makes them enough |
| `BreakerTrip.CountWindowTrips` | config.go:298-328 | every accepted count-window configuration can trip: from any reachable serving state, max(Size, ConsecutiveFailures) failing completions of current permits open it, slow ones whatever the rules and fast ones too when the rules count failures, whoever holds them, issued before or during the run, held however long, at any observed times, with admissions, cancellations, expiries, snapshots and dead completions in between |
| `BreakerTrip.TimeWindowTrips` | config.go:469-523 | the same for time windows with the largest configured count, when the run reads the window within one horizon that holds no older record |
| `BreakerTrip.CallsTrip` | config.go:298-328 | enough failing calls in a row that the rules count, each admitted and completed at its own times, are such a run, for both kinds of window |
| `BreakerTrip.FreshHorizon` | window/time.go:76-93 | every horizon that starts a full ring past everything observed holds no older record |
| `BreakerTrip.CanTrip` | config.go:298-328 | every accepted configuration can trip: from every reachable closed state in normal mode, whatever its window holds, some calls open the breaker |
| `BreakerRecovery.ProbeAdmitted` | breaker.go:222-252 | a breaker whose interval has elapsed, or whose live probes are all past their deadlines, admits a probe and has just that one out |
| `BreakerRecovery.ProbeEnds` | breaker.go:454-486 | the completion of the only probe adds its outcome to the sample, and the generation goes on, recovers or fails as the sample then decides |
| `BreakerRecovery.ProbesDecide` | breaker.go:454-486 | as many calls with classified outcomes as the quota still has room for end the generation at the latest, by the verdict of its whole sample |
| `BreakerRecovery.HalfOpenEnds` | docs/policies.md:35-44 | no half-open generation is stuck: from every reachable half-open state in normal mode, past the live probe deadlines, at most MaxProbes less the sample's size further classified probes end it |
| `BreakerRecovery.ProbesRecover` | breaker.go:454-486 | as many successful calls as the policy still needs close the breaker |
| `BreakerRecovery.CanRecover` | docs/design.md:28-31 | from every reachable open state in normal mode, the needed number of successful calls, the first at or past the probe time, reach the closed state, under every accepted configuration |
| `BreakerRecovery.AlwaysRecoverable` | docs/design.md:21-32 | from every reachable state in normal mode some calls reach the closed state |
| `BreakerLifetime.StepLifetime` | breaker.go:210-253 | each critical section issues at most one permit and counts one outcome exactly when it accepts a completion |
| `BreakerLifetime.TerminalMatrix` | docs/design.md:59-70 | which permit moves and to which status, exactly: a terminal action moves only the permit it names, as the matrix says, and lazy expiry ends exactly the overdue probes |
| `BreakerLifetime.TerminalIsFinal` | breaker.go:295-307 | over any run a terminal status is final, except that an expired Execute permit may complete, once |
| `BreakerLifetime.RunCounts` | breaker.go:347-358 | over any run the lifetime totals grow by exactly the completions callers saw accepted, and permits by the admissions they saw |
| `BreakerLifetime.Partition` | breaker.go:124-131 | permits split into active, completed and abandoned, and completed ones by outcome |
| `BreakerLifetime.AccountingIsExact` | breaker.go:210-253 | in every reachable state admitted counts the permits issued, completed the completed ones, and the three totals add up to it |
| `Execution.Elapsed` | execute.go:88-90 | a backward clock gives zero, a forward one the difference |
| `Execution.OthersRun` | execute.go:21-86 | steps of other callers can at most expire a held permit |
| `Execution.ExecuteTerminates` | execute.go:21-86 | under any interleaving an admitted Execute leaves its permit terminal and holding no probe slot, completed exactly when the operation ran and was classified validly or panicked, even after expiry |
| `Execution.ExecuteCountsOnce` | execute.go:21-86 | Execute adds exactly one lifetime outcome in that case and none otherwise |
| `Execution.ExecuteOutcome` | execute.go:36-79 | a panic of the operation, of the clock after it or of the classifier ends the permit completed with a failure; a valid classification ends it completed with that outcome; an invalid one leaves it canceled or expired |
| `Execution.ExecuteRecords` | execute.go:36-79 | on a closed breaker whose permit is still in force exactly one record joins the evidence: that outcome, at the finish reading (after a panic the handler's, or else the start), slow exactly when the time since the start, zero on a backward clock, is at least SlowCallDuration and the outcome is not ignored |
| `Execution.ExecuteProbes` | execute.go:36-79 | on a half-open breaker that outcome joins the sample or decides it |
| `Execution.DeadlineIsFirm` | breaker.go:163-200 | whoever is admitted after waiting is admitted at an observed time strictly before the first wait plus MaxWait |
| `Execution.WaitingIsJustified` | breaker.go:178-200 | a waiter without a signal would be told to wait again at any time before the remaining probe deadlines |
| `Execution.AcquireRound` | breaker.go:143-202 | each round of the acquire loop, by the answers of the breaker's own steps: context first, then the deadline of the first wait, then one attempt, then the way the waiter is woken |
| `Execution.AcquireEnds` | breaker.go:143-202 | a wait ends admitted or refused, with the timeout only for a caller that has waited, or by its context; every earlier round was ended by a signal |
| `CircuitBreaker.NewRollingWindow` | breaker.go:101-108 | the configured window is built fresh and empty, and accepted settings fit the window's own bounds |
| `CircuitBreaker.ReadWindow` | breaker.go:24-36 | reading either window returns the recount of its list model at the observed time |
| `CircuitBreaker.AddToWindow` | breaker.go:20-32 | recording in either window appends to its list model |
| `CircuitBreaker.Breaker.constructor` | breaker.go:77-99 | a new breaker is coherent with the initial reference state and has no permits and no pending events |
| `CircuitBreaker.Breaker.PeekLocked` | breaker.go:772-814 | every incremental counter read into a snapshot equals what the permits, the sample and the record list derive |
| `CircuitBreaker.Breaker.OpenDurationLocked` | breaker.go:625-662 | the in-place schedule is the scheduled interval for the opening count, jittered |
| `CircuitBreaker.Breaker.StartGeneration` | breaker.go:517-524 | a new generation has an empty probe sample, no probe map and a signal |
| `CircuitBreaker.Breaker.Apply` | breaker.go:488-504 | each transition's mutation leaves the fields of the rewritten reference state, the streak and a replaced window included |
| `CircuitBreaker.Breaker.RecordEventLocked` | breaker.go:535-548 | an observed transition appends its event; without an observer nothing is read or appended |
| `CircuitBreaker.Breaker.CommitLocked` | breaker.go:506-526 | the in-place assignments of a transition, between its two snapshots |
| `CircuitBreaker.Breaker.TransitionLocked` | breaker.go:506-526 | one committed transition of the fields is one committed transition of the reference machine |
| `CircuitBreaker.Breaker.Clear` | breaker.go:496-504 | a fresh empty window, no streak and no open schedule |
| `CircuitBreaker.Breaker.RejectLocked` | breaker.go:255-265 | a rejection reports the current epoch and schedule and is counted once |
| `CircuitBreaker.Breaker.IssueLocked` | breaker.go:240-252 | a permit is bound to the current generation, state and deadline, and occupies a probe slot exactly when it records in half-open |
| `CircuitBreaker.Breaker.Unmap` | breaker.go:314-316 | a completed probe leaves the probe map, and nothing else does |
| `CircuitBreaker.Breaker.ReleaseSlot` | breaker.go:414-425 | the held slot of an ended probe is handed back, with a signal, exactly when the permit was a current probe |
| `CircuitBreaker.Breaker.EndLocked` | breaker.go:406-425 | expiry and cancellation make the permit terminal and release its slot |
| `CircuitBreaker.Breaker.ExpireHalfOpenLocked` | breaker.go:446-452 | visiting the probe map in any order ends exactly the overdue probes |
| `CircuitBreaker.Breaker.SettleLocked` | breaker.go:222-230 | an elapsed open interval becomes half-open and overdue probes expire, as in the reference machine |
| `CircuitBreaker.Breaker.TryAcquireLocked` | breaker.go:204-253 | one admission attempt on the fields is one of the reference machine, reply included |
| `CircuitBreaker.Breaker.CountCompletion` | breaker.go:312-316 | the completed permit is terminal and counted; a probe's slot is still held until its outcome is processed |
| `CircuitBreaker.Breaker.CompleteHalfOpenLocked` | breaker.go:454-486 | counting a probe outcome and judging by counters is judging the list of classified outcomes |
| `CircuitBreaker.Breaker.RecordHealthLocked` | breaker.go:328-344 | recording, following the streak and evaluating the rules is the reference step on the record list |
| `CircuitBreaker.Breaker.AddRecord` | breaker.go:328-340 | the aggregate and the streak after a record are the recount and the trailing run of the longer list |
| `CircuitBreaker.Breaker.TakeEventsLocked` | breaker.go:224-234 | pending events leave exactly once, in order |
| `CircuitBreaker.Breaker.AllDispatched` | breaker.go:224-234 | between critical sections everything announced has been handed over, exactly once and in order |
| `CircuitBreaker.Breaker.AdmissionTime` | breaker.go:374-376 | the deadline less the TTL, for the permit record the handle stands for |
| `CircuitBreaker.Breaker.AcquireOnce` | breaker.go:158-186 | one locked iteration of acquire is one admission step, its events dispatched |
| `CircuitBreaker.Breaker.RejectWaiter` | breaker.go:163-167 | a waiter past its deadline is rejected without an admission attempt |
| `CircuitBreaker.Breaker.CompleteAt` | breaker.go:288-345 | completion of any permit in any status is the reference step, reply included |
| `CircuitBreaker.Breaker.CancelAt` | breaker.go:378-397 | cancellation of any permit in any status is the reference step, reply included |
| `CircuitBreaker.Breaker.SetMode` | breaker.go:550-577 | a mode change is one transition that keeps the policy state; the current mode and unknown modes change nothing |
| `CircuitBreaker.Breaker.Reset` | breaker.go:607-623 | reset is one transition to a fresh closed normal state |
| `CircuitBreaker.Breaker.TakeSnapshot` | breaker.go:758-771 | a snapshot expires overdue probes, never leaves the open state and reports what the reference machine derives, totals included |
| `Callers.Process.CompletePermit` | breaker.go:274-286 | a panicking clock completes the permit at its admission time and goes on panicking; an invalid outcome consumes nothing |
| `Callers.Process.CancelPermit` | breaker.go:364-372 | a panicking clock cancels the permit at its admission time and goes on panicking |
| `Callers.PanickedClockStillEnds` | breaker.go:267-286 | under a panicking clock an active permit is ended as requested, never by expiry, and holds no probe slot |
| `Callers.Process.Acquire` | breaker.go:143-202 | the waiting loop on the fields follows the waiting protocol, round by round |
| `Callers.Process.Execute` | execute.go:21-86 | Execute on the fields follows the protocol of its clock readings, panics and classification |
| `ObserverQueue.StepKeeps` | observer.go:149-253 | every micro-step of a producer, of Close or of the worker keeps the delivery invariant |
| `ObserverQueue.RunKeeps` | observer.go:149-253 | every interleaving keeps the delivery invariant |
| `ObserverQueue.Delivery` | observer.go:149-222 | in every reachable state the queue respects its bound, delivery is an in-order subsequence of dispatch, and dispatched equals delivered plus in flight plus queued plus carried plus dropped |
| `ObserverQueue.Conservation` | observer.go:185-222 | an increasing list and a disjoint set that partition the tickets below n have n members together |
| `ObserverQueue.HolderNeverBlocks` | observer.go:196-222 | whoever holds the event lock can always take a next step; the final drop-oldest send never blocks |
| `ObserverQueue.NothingAfterExit` | observer.go:236-253 | after the worker has exited nothing is queued or delivered and every later dispatch is dropped |
| `ObserverQueue.ExitMeansDrained` | observer.go:236-253 | once the worker has exited every accepted event has been delivered |
| `ObserverQueue.DropNewestKeepsAccepted` | observer.go:211-215 | over any run drop-newest never gives up an accepted event |
| `ObserverQueue.DropOldestRefusesOnlyClosed` | observer.go:216-221 | over any run that ends open, every event drop-oldest has lost had been accepted before it gave way |
| `ObserverQueue.FailuresAreCounted` | observer.go:168-183 | each observation is delivered once and failures count exactly the failed ones |
| `ObserverChannel.Channel.WorkerStep` | observer.go:149-183 | the worker's selects take exactly the ready cases; it never changes what was accepted, lost or flagged |
| `ObserverChannel.Channel.SendFinal` | observer.go:196-222 | the channel has a free slot whenever the final send is reached |
| `ObserverChannel.Channel.Enqueue` | observer.go:196-222 | with the worker free to run between any two statements: an open queue accepts the event unless drop-newest finds it full, a closed one drops it, at most one event is lost, and the steps taken form a run of the step system |
| `ObserverChannel.Channel.Close` | observer.go:236-253 | idempotent; marks, then signals, loses nothing accepted |
| `ObserverChannel.Channel.RunToExit` | observer.go:149-166 | after Close the worker's loop ends, having delivered everything accepted in order |
| `ManualClock.SurvivorsAre` | breakertest/clock.go:73-80 | the survivors of a scan are exactly the timers not yet due |
| `ManualClock.SurvivorsStable` | breakertest/clock.go:60-83 | survivors keep their relative registration order and nobody appears twice |
| `ManualClock.SortedStable` | breakertest/clock.go:60-83 | a stable list sorted by deadline is strictly ordered by deadline and registration |
| `ManualClock.OrderDetermines` | breakertest/clock.go:60-83 | only one list of the given timers is so ordered |
| `ManualClock.SwapKeeps` | breakertest/clock.go:68-70 | exchanging neighbours strictly out of order keeps ties in registration order |
| `ManualClock.StableSort` | breakertest/clock.go:68-70 | in place: the same timers, sorted by deadline, ties in registration order |
| `ManualClock.RemovedIsAbsent` | breakertest/clock.go:122-130 | dropping one position of the list removes that timer and only it |
| `ManualClock.Timer.Fire` | breakertest/clock.go:74-77 | the one-slot channel of a pending timer is free, and the timer is sent its deadline, once |
| `ManualClock.Clock.constructor` | breakertest/clock.go:25-26 | a new clock has no timers |
| `ManualClock.Clock.NewTimer` | breakertest/clock.go:35-53 | a nonpositive duration is notified at once and never listed; a positive one joins the end of the list |
| `ManualClock.Clock.Set` | breakertest/clock.go:55-83 | sends to exactly the listed timers that are due, each its own deadline, in order of deadline with ties in registration order; the list then holds exactly the unfired unstopped timers, as the one list so ordered |
| `ManualClock.Clock.Compact` | breakertest/clock.go:71-80 | the compaction over the slice being read sends in list order and loses and duplicates no survivor |
| `ManualClock.Clock.Deliver` | breakertest/clock.go:71-80 | the log of sends keeps holding exactly the fired timers, each once |
| `ManualClock.Clock.Stop` | breakertest/clock.go:112-133 | true exactly for a pending timer, which leaves the list while the others keep their order |
| `ManualClock.Clock.Remove` | breakertest/clock.go:126-129 | shifting the successors down in place drops exactly one position |
| `ObserverEffect.CountWindowUnaffected` | breaker.go:535-548 | with a count window the runs of two configurations that differ only in event delivery are equal, state by state |
| `ObserverEffect.DeliveryUnaffected` | breaker.go:535-548 | the same for any window when both configurations have an observer or neither has |
| `ObserverEffect.TimeWindowClampsForObserver` | breaker.go:535-548 | with a time window the first record after a reset, or after a recovery, lands in the same bucket with and without an observer exactly when its own bucket is not before the transition's |
| `ObserverClamping.PairStep` | breaker.go:506-548 | one step of a run with an observer beside the same run without: replies agree, and only a clamped first record sets the two apart, each window then holding it alone in its own bucket |
| `ObserverClamping.PartedAnswers` | breaker.go:758-814 | two breakers set apart by a clamped record answer some snapshot differently |
| `ObserverClamping.ObserverInvisibleExactly` | breaker.go:535-548 | at every step of two runs that differ only in having an observer, every call anyone could make would be answered the same, if and only if no first record after a recovery or reset falls before that transition's bucket |
| `ObserverClamping.ForwardClockHidesObserver` | breaker.go:535-548 | in particular when observed times never decrease, every caller sees the same replies |
| `ObserverClamping.BackwardClockShowsObserver` | breaker.go:535-548 | the failing input, for every time-window configuration: after a reset, an admission and a success at an earlier time, a later snapshot reports the success exactly when there is an observer and the clock went back a bucket |

## Left out

- Go runtime mechanics: mutex fairness, which ready `select` case is taken, goroutine start and `Goexit`. Lock
  sections are atomic steps; timer, context and clock events are arbitrary inputs.
- IEEE 754 rounding: ratios and jitter are over reals, and the multiplication of the schedule is an arbitrary
  function from integers to integers.
- Wrap-around of uint64 lifetime counters and generations, which the source declares out of contract, and the
  range of `time.Time` for deadlines, which are unbounded integers.
- Error and label rendering, the contents of names, and what the default clock, classifier and random source do.
- `Shutdown`'s wait for the worker, and synchronous delivery, which calls the observer in the transitioning caller.
- Snapshot fields that copy configuration or observer counters, and the ratios derived from the counts. Events
  carry the policy view; the lifetime outcome totals are reported by `TakeSnapshot` only.
- `breakertest/support.go`, the recorder and scripted classifier, and the timer count of the manual clock.
- The context check before the first lock of acquire: it is the context check of the first round.
- BreakerSafety.NeverRestsSatisfied: is stated for count windows, because with a time window expiring successes
  can raise a ratio without any completion, and the source evaluates the rules on completions only.
- BreakerTrip.TimeWindowTrips: asks that no older record lies in the run's horizon, because older successes
  there can hold a ratio below its threshold for any fixed number of failures.
- A `time.Time` of the system clock carries a wall and a monotonic reading that can move apart: deadlines
  compare the monotonic ones, buckets use the wall one. Here a reading is one number.
- CircuitBreaker.Breaker.Apply: the closures passed to a transition are data, and state and mode are assigned
  with them rather than just after; nothing reads the fields in between.
- CircuitBreaker.Breaker.IssueLocked: the Execute mark is set when the permit is made rather than right after
  admission under the same lock.
- CountWindow.Count.constructor: rejected sizes are refused by `Config.NormalizeWindow`, so the constructor
  asks for an accepted one; likewise TimeWindow.Time.constructor.
- CircuitBreaker.Breaker.CompleteAt: observed times are timestamps whose Unix seconds fit an int64, as every
  timestamp of the source does.
- ObserverQueue.Delivery: events are named by the order in which producers obtain the event lock, which need
  not be the order of generations.
- Callers.Process.Execute: begins after admission; rejected operations are never started.
