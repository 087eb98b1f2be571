# AsoBeast: verified models

AsoBeast tracks app store listings, rankings and reviews for a team's workspace. This project models
the parts of its API and tooling that make promises over many steps, many inputs or several
concurrent parties, and proves those promises with Dafny. `dafny verify dfyconfig.toml` checks
everything.

## What is modelled

- **Action Center** (`ActionLifecycle`, `ActionEvents`, `ActionTransitions`, `ActionWrites`,
  `ActionsGenerator`, `ActionCenter`, `ActionRules`). A row and its event log are changed by generator runs, which
  plan from a read and write later under a guard, and by users, who update, bulk update and undo. The
  log is kept in the order in which it is queried, by `occurredAt`. Every reachable row is the replay
  of its log; a plan that waited is still the plan of the moment when its guard lets it through; undo
  is an inverse. The rules of every write are stated column by column.
- **Alert outbox and flush** (`AlertOutbox`, `AlertFlush`, `AlertDeliveryFlow`). One module has the database statements and
  the services' methods when nothing else runs; the other lets collectors and flush workers interleave
  statement by statement and stop anywhere.
- **Alert batches** (`AlertPayloads`, `AlertBatch`, `AlertAssembly`, `AlertBatchFilter`,
  `CompetitorBatchFilter`, `SurvivingEvents`). Classification conserves events, assembly builds the
  sections in place, and filtering an assembled batch for a subscription is assembling what survives
  the filter, from the signals and from the events.
- **Alert rules** (`AlertClassification`, `AlertSections`, `AlertAudience`, `AlertReach`). Where each
  event goes, what a batch shows, who hears what, and that an alert reaches whoever hears it, in terms
  of payloads, rows and subscriptions alone.
- **Workspace export** (`ExportTables`, `ExportPaging`). The condition on composite keys is the
  lexicographic interval, and paging is complete while rows come and go between the two queries of
  every page.
- **Ridge regression** (`Vectors`, `RidgeSolver`, `RidgeFit`). In-place Gauss-Jordan elimination with
  partial pivoting, and the weighted least squares fit that uses it, over the reals and in any dimension.
- **Workspace erasure** (`AccountErasure`, `AccountDeletion`). Requests, cancellations, registrations,
  billing and several erase workers; the final transaction is split into its lock, check, count and
  commit.
- **Confirmation mails** (`ConfirmationMail`) and **AI calls** (`AiAllowance`). Two allowances that are
  claimed, settled and given back.
- **Audit** (`AuditScore`, `AuditRecommendations`, `AuditRules`, `PhraseCount`). Scores through two levels of
  rounding, what raising checks adds, the buckets of recommendations, and counting a phrase.
- **Rating drops** (`RatingDrop`) and the **alert feed** (`AlertFeed`, `AlertEventCursor`).

Properties of runs are proved from every sound state. `AlertFlush.EmptyIsSound` and
`AccountErasure.FreshIsSound` say that an empty system is one; the Action Center starts from no rows.

`Sequences` and `Wrappers` hold filtering, mapping, stable sorting and optional values.

Instants are integers, scores and weights are reals, ids and keys are integers unless their text
matters. `localeCompare` is the order of integers that stand for names, ids or fingerprints. Reads of
the clock, random ids, outcomes of external calls and the order of database rows are parameters.

## What the proofs brought out

- A generator run fixes its clock before it reads. When a user's change is stored in between, the
  run's event can be older than the newest one and the history no longer explains the row.
  `ActionTransitions.TransitionExplained` and `ActionWrites.GuardedWriteExplained` give the exact
  condition on the request and the stored row, `ActionCenter.RunExplainedExactly` lifts it to whole
  runs, and `ActionCenter.ClockBehindBreaksHistory` is an instance.
- A stale plan that passes its guard writes the right row, but the event of a resolved or verified
  action copies the priority and impact that were read, which may be out of date
  (`ActionWrites.StalePlanIsSafe`).
- The guide to the Action Center (`docs/guides/action-center.mdx`, line 100) says that sending the same
  change twice records it once. That holds for every change but an undo: an undo sent twice can take
  back two changes when the state it restored was itself dismissed or snoozed from the same status
  (`ActionTransitions.SameUndoTwice` has the exact condition, `SameUndoTwiceExample` an instance).
- A batch that is filtered for a subscription keeps the window start of the whole batch, also when the
  first surviving event is later (`AlertBatchFilter.OwnedFilterCommutes`).
- Recording a settled alert can split a claim, which only happens when the delivery mode changes while
  claims are unfinished (`AlertOutbox.SettlingSplitsClaims`, `SettledInsideClaim`).
- The ridge makes the normal equations of the popularity study regular even when features are
  collinear, so what the solver then refuses, it refuses for its threshold alone; only a study without a
  weighted intercept is singular (`RidgeFit.RegularExactly`, `FitWeights`).
- A call that is counted after its release passes the AI allowance of its period exactly when the
  period is full by then (`AiAllowance.OnlyLateCountsPass`, `AllowancePassedExactly`;
  `LateCountPassesLimit` is an instance).

## Model

| member | source | states |
|---|---|---|
| ActionEvents.LegalLife | apps/api/src/actions/action-transitions.ts:293-347 | for every legal log: closedAt is set only in DONE and DISMISSED, verifiedAt only in DONE, resolvedAt only in RESOLVED, snoozedUntil only in SNOOZED, the status is the newest event's and reopenCount is the number of reopened events |
| ActionEvents.ClosingEvent | apps/api/src/actions/action-transitions.ts:325-347 | in a legal log a done action was closed by its newest event, or by the one before its verification |
| ActionTransitions.TransitionExplained | apps/api/src/actions/action-transitions.ts:94-158 | an accepted user change keeps the row equal to the replay of its log if and only if its request records no event (an undo, a note, a repeated dismissal, an open row opened again) or its clock is not behind the newest event |
| ActionTransitions.RevertExplained | apps/api/src/actions/action-transitions.ts:180-222 | an accepted undo always keeps the row equal to the replay of what is left of the log |
| ActionTransitions.RecordedEventExplains | apps/api/src/actions/action-transitions.ts:293-364 | changing a row as one legal event says and recording that event keeps it explained if and only if the event is not older than the newest |
| ActionTransitions.ChangeRecorded | apps/api/src/actions/action-transitions.ts:128-158 | what a change that records an event leaves: its event is last, by that user at that time, and the reopen count grows exactly with a reopened event |
| ActionTransitions.UndoInverts | apps/api/src/actions/action-transitions.ts:180-222 | right after a change that records an event the same user's undo is accepted if and only if it names the previous state inside the window, and then gives back every lifecycle column and the whole log |
| ActionTransitions.SameChangeTwice | docs/guides/action-center.mdx:100 | any accepted change that is not an undo, sent again by anyone at any later time, is accepted, records nothing and moves no lifecycle column |
| ActionTransitions.SameUndoTwice | docs/guides/action-center.mdx:100 | an accepted undo sent again is accepted the second time exactly when the log it was first sent to has more than two events and the one before the newest is that user's own dismissal or snooze, inside the window, from the same status |
| ActionTransitions.SameUndoTwiceExample | docs/guides/action-center.mdx:100 | a history in which the same undo sent twice takes back two changes |
| ActionWrites.GuardedWriteExplained | apps/api/src/actions/action-writes.ts:60-147 | a generator write that passes its guard keeps the row explained if and only if its plan records no event (it only refreshes or touches, and wakes no snoozed row) or the run's clock is not behind the newest event |
| ActionWrites.StalePlanIsSafe | apps/api/src/actions/action-writes.ts:49-70 | a plan from any old read that passes the guard has the outcome, and writes the row, that a plan made now would; the recorded events agree exactly unless a resolve or verify copies outdated magnitudes |
| ActionWrites.ShapeIsNeeded | apps/api/src/actions/action-lifecycle.ts:25-28 | without closedAt on a done row the unguarded lastSeenAt would make a stale plan differ |
| ActionCenter.ActionStore.Update | apps/api/src/actions/action-transitions.ts:60-158 | a refusal changes nothing and no other row is touched; an accepted change has the status asked for and its log lost the newest event, has the user's event last, or is as it was; in a store whose rows are all the replay of their logs, they still are after it if and only if it records nothing or its clock is not behind |
| ActionCenter.ActionStore.BulkUpdate | apps/api/src/actions/action-transitions.ts:71-92 | rows in conflict are skipped and listed, accepted ones listed in order, each at its own time, and a bad request leaves every row as it was; changes with clocks not behind keep every row the replay of its log |
| ActionCenter.ActionStore.ApplySteps | apps/api/src/actions/actions.generator.ts:280-295 | the writes of a run happen together or not at all, the steps reported are those whose guard held, and writes with a clock not behind keep every row the replay of its log |
| ActionCenter.EveryRunIsExplained | apps/api/src/actions/action-transitions.ts:94-364 | over every interleaving of planning, writing, updating, bulk updating and undoing with clocks not behind, each row equals the replay of its log |
| ActionCenter.RunExplainedExactly | apps/api/src/actions/action-transitions.ts:94-364 | over every such run, whatever its clocks: each write that is not rolled back leaves its row the replay of its log if and only if each of them that records an event is not behind that row's newest event |
| ActionCenter.HistoryExplainsColumns | apps/api/src/actions/action-transitions.ts:94-364 | from an empty workspace, after any such run: the columns of each row, one by one, in terms of its log |
| ActionCenter.PendingPlansAreSafe | apps/api/src/actions/action-writes.ts:60-147 | a plan that was made anywhere in a run and passes its guard at the end is exactly the plan of that moment |
| ActionCenter.ClockBehindBreaksHistory | apps/api/src/actions/actions.generator.ts:91-108 | a row and a guarded write with an older clock after which verifiedAt is set but not in the replay |
| ActionRules.WritesFollowRules | apps/api/src/actions/action-lifecycle.ts:24-82 | what one generator write does, column by column: a fired open row is refreshed, a snoozed one wakes exactly when its date has passed, a done one reopens only when verified or closed at least fourteen days ago, a dismissed one is only seen, a resolved one always reopens; missed open and snoozed rows are resolved and done ones verified; the guard compares five columns |
| ActionRules.EveryRunFollowsRules | apps/api/src/actions/action-writes.ts:60-147 | every write of every run, from any state, follows those rules |
| ActionRules.ReadPlans | apps/api/src/actions/actions.generator.ts:246-270 | a read plans a write for what fired, and of what did not only for open, snoozed and unverified done rows |
| ActionRules.DismissedStays | apps/api/src/actions/action-lifecycle.ts:47-48 | an action that a user dismissed keeps every column but lastSeenAt, and its log, over every run until a user asks for it |
| ActionRules.ChangesFollowRules | apps/api/src/actions/action-transitions.ts:94-178 | what is answered to a change that is no undo: exactly which are bad requests, conflicts or already so, and for the others every column and the recorded event |
| ActionRules.UndoTaken | apps/api/src/actions/action-transitions.ts:180-222 | an undo is taken exactly when it asks for another state, the newest event is the user's own and at most ten minutes old, and the status is that of the event before it; then that event is gone |
| ActionsGenerator.CapNewDetections | apps/api/src/actions/actions.generator.ts:202-231 | the loop keeps the specified detections, and kept and suppressed together are all of them |
| ActionsGenerator.CapIsReached | apps/api/src/actions/actions.generator.ts:218-229 | of each app's detections without a row exactly the smaller of their number and the cap is kept |
| ActionsGenerator.SuppressedRankLast | apps/api/src/actions/actions.generator.ts:211-229 | a detection the cap leaves out has no row, and no kept detection without a row of the same app has less impact, or the same impact and a later fingerprint |
| ActionsGenerator.Reconcile | apps/api/src/actions/actions.generator.ts:233-278 | the planned steps are those of the kept detections and of the missed rows, and suppressed is what the cap left out |
| ActionsGenerator.StepOrigin | apps/api/src/actions/actions.generator.ts:246-270 | each step was planned from its row's read and has a write; it fires for a kept detection, or misses a row of an evaluated rule that no kept or withheld detection saw |
| ActionsGenerator.NothingUnplanned | apps/api/src/actions/actions.generator.ts:256-270 | every kept detection and every missed row that has something to write has its step |
| ActionsGenerator.OneStepEach | apps/api/src/actions/actions.generator.ts:249-270 | with distinct fingerprints a run has at most one step for each action |
| ActionsGenerator.StepsAreReads | apps/api/src/actions/actions.generator.ts:256-270 | every planned step is one that the Action Center's protocol can plan |
| AlertBatch.WithDeepestRatingDrops | apps/api/src/alerts/deepest-rating-drops.ts:14-25 | the two loops keep, in place, every other event and of each app and day the one drop at the place of the deepest, also among equal events |
| AlertBatch.DeepestOfDay | apps/api/src/alerts/deepest-rating-drops.ts:14-21 | no drop of an app and day is deeper than the one at that day's place, and none before it is as deep |
| AlertBatch.DeepestSelectionIsStable | apps/api/src/alerts/deepest-rating-drops.ts:14-25 | what is left of a selection has one drop of an app and day at most, and selecting again from it changes nothing |
| AlertBatch.BatchClassification.AddInvalid | apps/api/src/alerts/alert-batch.ts:169-176 | one invalid entry more, and the counts stay those of the entries |
| AlertBatch.BatchClassification.ClassifyBatch | apps/api/src/alerts/alert-batch.ts:268-286 | the three lists are what the verdicts of the sorted events say, and each skip count is the number of its entries |
| AlertBatch.VerdictConserves | apps/api/src/alerts/alert-batch.ts:178-266 | each event is owned, a competitor's or skipped; only a SERP entrant is both owned and skipped, and then owned apps and skip reasons together are the trackers of its keyword |
| AlertBatch.ClassificationConserves | apps/api/src/alerts/alert-batch.ts:268-286 | the events of the lists, read back, are the given events in order: none is lost, added or listed under another reason |
| AlertBatch.ClassificationForgetsOrder | apps/api/src/alerts/alert-batch.ts:146-154 | with ids that tell events apart, sorting any arrangement of the events gives the same list |
| AlertClassification.OwnAppIsOwned | apps/api/src/alerts/alert-batch.ts:178-239 | an event that names its row's app, known and no competitor, is owned with exactly that app and is never skipped |
| AlertClassification.CompetitorNewsIsTold | apps/api/src/alerts/alert-batch.ts:195-219 | store news of a competitor goes to its primary when that is known and no competitor, and is otherwise skipped for exactly the reason that holds |
| AlertClassification.SkippedAppEvent | apps/api/src/alerts/alert-batch.ts:178-239 | every other event that names an app, or a digest, is in no list but the skipped ones, once for the first reason that holds |
| AlertClassification.EntrantIsOwned | apps/api/src/alerts/alert-batch.ts:242-266 | an entrant is owned by exactly the tracked apps that are known and no competitors, by name, and skipped exactly for unknown trackers, competitors' trackers or none at all |
| AlertAssembly.Sections.AddOwnedSignal | apps/api/src/alerts/alert-batch.ts:320-355 | pushing one signal into the mutable sections gives the sections of all signals so far, apps in the order they were met |
| AlertAssembly.Sections.AddCompetitorSignal | apps/api/src/alerts/alert-batch.ts:357-373 | pushing one competitor signal into the nested sections gives those of all signals so far |
| AlertAssembly.EachSignalListedOnce | apps/api/src/alerts/alert-batch.ts:320-355 | the lists of an app together hold one payload for each signal that reaches it |
| AlertAssembly.AssembleBatches | apps/api/src/alerts/alert-batch.ts:464-495 | sorting, selecting, classifying, pushing and finishing step by step gives the specified batches and skip counts |
| AlertAssembly.AssemblyForgetsOrder | apps/api/src/alerts/alert-batch.ts:464-495 | with distinct ids the events an assembly works on do not depend on their arrival order |
| AlertSections.OwnedBatchShows | apps/api/src/alerts/alert-batch.ts:320-495 | an owned batch in terms of its signals: window, totals, events, one section for each app named, by name, and in each of its fourteen lists exactly that app's payloads of those kinds; moves by impact, actions by priority |
| AlertSections.CompetitorBatchShows | apps/api/src/alerts/alert-batch.ts:357-416 | a competitor batch in terms of its signals: one section for each primary, by name, its competitors by name, and their changes and availability |
| AlertBatchFilter.EventsFiltered | apps/api/src/alerts/alert-batch-filter.ts:62-142 | three filters and a rewriting in a row keep exactly the payloads that survive, rewritten |
| AlertBatchFilter.PipeIsSurvival | apps/api/src/alerts/alert-batch-filter.ts:62-142 | each of the fourteen lists has its own filter, and each keeps exactly what survives in the events |
| AlertBatchFilter.SectionSurvives | apps/api/src/alerts/alert-batch-filter.ts:62-142 | filtering a finished section, sorted actions and impact order included, is finishing the section of the survivors |
| AlertBatchFilter.FilterInOneStep | apps/api/src/alerts/alert-batch-filter.ts:62-142 | the filter over whole batches is one view of the events and one of each section; its two null conditions are both in the result |
| AlertBatchFilter.OwnedFilterCommutes | apps/api/src/alerts/alert-batch-filter.ts:62-142 | for all signals, subscriptions and thresholds: the filtered batch is the batch of the surviving signals, and nothing is sent exactly when nothing survives; only the window start is the whole batch's |
| CompetitorBatchFilter.CompetitorCount | apps/api/src/alerts/alert-batch-filter.ts:124-142 | the competitor apps counted in the sections are those of the signals |
| CompetitorBatchFilter.CompetitorFilterCommutes | apps/api/src/alerts/alert-batch-filter.ts:16-33 | the same for the competitor batch with its nested sections and its count of competitor apps |
| SurvivingEvents.OwnedFilterIsReflush | apps/api/src/alerts/alert-batch-filter.ts:62-142 | from events to batch: filtering the owned batch of a flush is flushing the surviving events alone, with sorting, deepest-drop selection, classification and assembly done again, and nothing exactly when no event survives |
| SurvivingEvents.CompetitorFilterIsReflush | apps/api/src/alerts/alert-batch-filter.ts:16-33 | the same for the competitor batch |
| AlertAudience.HeardEvents | apps/api/src/alerts/alert-batch-filter.ts:62-142 | what is left of any batch has exactly the events its subscription hears: by kind, review score, confirmation of drops, distance and tenths of a star, and no negative review already told as a new one |
| AlertAudience.OwnedIsHeard | apps/api/src/alerts/alert-batch-filter.ts:62-142 | the filtered owned batch is the batch of the signals that are heard, and nothing exactly when none is |
| AlertAudience.CompetitorIsHeard | apps/api/src/alerts/alert-batch-filter.ts:16-33 | the filtered competitor batch is that of the news whose kind is allowed, whatever the other options |
| AlertAudience.OneMessagePerReview | apps/api/src/alerts/review-routing.ts:50-74 | when a new review is kept, no negative review of the same app and fingerprint is in the events or in any section |
| AlertOutbox.Outbox.CollectRow | apps/api/src/alerts/alerts.dispatcher.ts:117-141 | update, create, update again: afterwards the key has one row; it has the collected data exactly when it was absent or pending, a claimed or flushed one and every row of another key are as they were, and no claim changed |
| AlertOutbox.UpdatedRows | apps/api/src/alerts/alerts.dispatcher.ts:25-42 | row by row, what an update writes: data to the pending row of the key when it collects, data and time to any row of the key when it records, nothing to others |
| AlertOutbox.Outbox.ClaimSnapshotOnce | apps/api/src/alerts/alert-flush.service.ts:248-273 | exactly the rows neither claimed nor flushed get the new flush id and its time, and the claims returned are distinct |
| AlertOutbox.SnapshotIsComplete | apps/api/src/alerts/alert-flush.service.ts:248-273 | every claim that is returned has rows, and every row not flushed is in one of them |
| AlertOutbox.OldestClaimsFirst | apps/api/src/alerts/alert-flush.service.ts:248-273 | the claims a snapshot finds unfinished come oldest first, then by id, and its own comes last |
| AlertOutbox.ClaimIsWhole | apps/api/src/alerts/alert-flush.service.ts:275-323 | in a sound table a claim with rows passes every check, and its unfinished rows are all of its rows or none |
| AlertOutbox.Outbox.CompleteClaim | apps/api/src/alerts/alert-flush.service.ts:309-323 | exactly the unflushed rows of the claim get the time of the flush, and the answer tells whether the claim has the expected number of rows |
| AlertOutbox.Outbox.ProcessClaim | apps/api/src/alerts/alert-flush.service.ts:177-210 | no fault is reported; the claim is flushed exactly when it is delivered or was flushed before |
| AlertOutbox.Outbox.Flush | apps/api/src/alerts/alert-flush.service.ts:146-175 | a failing claim stops no other: afterwards only rows of failed claims are unflushed, and flushed plus failed rows are the rows of all claims |
| AlertOutbox.SettlingSplitsClaims | apps/api/src/alerts/alerts.dispatcher.ts:25-42 | recording a settled alert keeps claims whole if and only if no unfinished claim holds the key beside other rows |
| AlertOutbox.SettledInsideClaim | apps/api/src/alerts/alerts.dispatcher.ts:25-42 | a claim of two rows that is reported as partially completed after one of them was settled |
| AlertFlush.StepFreezesClaims | apps/api/src/alerts/alerts.dispatcher.ts:25-42 | in batched mode no statement changes what a claim holds: keys, payloads, flush id, claim time |
| AlertFlush.EveryRunIsSound | apps/api/src/alerts/alert-flush.service.ts:177-323 | the table, workers and queue stay sound over every interleaving of collectors and workers that may stop anywhere |
| AlertFlush.NoWorkerFails | apps/api/src/alerts/alert-flush.service.ts:275-323 | over every such run no worker meets a claim without rows, with invalid timestamps, partially completed or with a completion mismatch |
| AlertFlush.ClaimsAreFrozen | apps/api/src/alerts/alert-flush.service.ts:248-273 | a claim holds the same rows with the same content for the rest of every run |
| AlertFlush.KeyInOneClaim | apps/api/src/alerts/alerts.dispatcher.ts:25-42 | a dedupe key that was claimed once is never in another claim, then or later |
| AlertFlush.RowsHoldLastCollected | apps/api/src/alerts/alerts.dispatcher.ts:117-141 | over every run a key's row holds the data that was collected last for it while it was free |
| AlertFlush.ClaimHoldsLastCollected | apps/api/src/alerts/alerts.dispatcher.ts:25-42 | the payload a claim freezes is the last one collected for its key before the claim, and the key's row has it at the end of every later run |
| AlertFlush.SentAgainOnlyWhenForgotten | apps/api/src/alerts/alert-delivery-flow.ts:8-16 | over every run, however often claims are processed again, a job is sent at most once plus once for each time the queue forgot its id |
| AlertFlush.JobsHoldTheirClaim | apps/api/src/alerts/alert-flush.service.ts:177-210 | every job that was sent is one that assembling and filtering its claim's rows makes, and the claim still holds exactly those rows at the end |
| AlertFlush.FlushedOnlyAfterDelivery | apps/api/src/alerts/alert-flush.service.ts:177-210 | a claimed row is flushed only after a worker delivered exactly the rows of its claim: every subscription that worker read was sent its job for each scope of which something survives that subscription's filter |
| AlertDeliveryFlow.DeliversSurvivors | apps/api/src/alerts/alert-delivery-flow.ts:40-92 | for every subscription and claim: one job for each scope of which a signal survives, the owned apps' first, each carrying the batch assembled from what survives |
| AlertDeliveryFlow.DeliveryCoversSurvivors | apps/api/src/alerts/alert-flush.service.ts:398-471 | the jobs of a claim have one for every subscription that was read and each scope of which a signal survives |
| AlertAudience.JobsAreHeard | apps/api/src/alerts/alert-delivery-flow.ts:40-92 | a subscription's jobs: one for the owned apps exactly when it hears one of their signals, then one for the competitors exactly when it hears news of them; its threshold counts when it is above the instance's |
| AlertReach.SelectedUnlessShallow | apps/api/src/alerts/deepest-rating-drops.ts:14-25 | every event of a claim is selected but rating drops that are not the deepest of their app and day |
| AlertReach.SignalsOldestFirst | apps/api/src/alerts/alert-batch.ts:146-154 | the signals of a flush come oldest first, by creation time and then by row id, whatever order its events came in |
| AlertReach.AlertReachesSubscriber | apps/api/src/alerts/alert-flush.service.ts:177-210 | from row to job: an alert of a known app that is no competitor is carried by a job of the claim for every subscription that hears it |
| AlertFlush.JobIdsTellDeliveriesApart | apps/api/src/alerts/alert-delivery-flow.ts:56-76 | job id texts are equal if and only if flush id, kind, subscription and scope are |
| ExportTables.KeyRangeIsInterval | apps/api/src/account/export-tables.ts:134-171 | for keys of every length and first at most last, a row meets the condition if and only if it lies between them in row order |
| ExportTables.KeyRangeSplitsTable | apps/api/src/account/export-tables.ts:134-171 | a row that does not meet the condition is before the first key or behind the last one, never both |
| ExportTables.BranchesAscend | apps/api/src/account/export-tables.ts:134-171 | what an earlier branch selects is before what a later one selects, so branches are disjoint and ascending |
| ExportPaging.KeysAreNext | apps/api/src/account/export-tables.ts:110-122 | the listed keys follow the cursor, and leave out only keys behind the last of a full page |
| ExportPaging.TableLines | apps/api/src/account/account-export.service.ts:64-73 | the loop gives the output of the paging specification, and tells whether it ended |
| ExportPaging.OutputAscends | apps/api/src/account/export-tables.ts:178-193 | whatever changes between queries, keys come out strictly ascending, so none twice |
| ExportPaging.NothingLost | apps/api/src/account/account-export.service.ts:64-73 | a finished export has every key that was stored throughout |
| ExportPaging.RowsWereStored | apps/api/src/account/export-tables.ts:178-193 | every exported row was stored when its page was read |
| ExportPaging.StaticExport | apps/api/src/account/account-export.service.ts:64-73 | for a table that does not change, the export ends within one page more than there are rows and is exactly the table |
| RidgeSolver.SelectPivot | apps/api/scripts/popularity-study.ts:380-383 | the pivot is the first row from the diagonal on with the largest entry of the column |
| RidgeSolver.EliminateRow | apps/api/scripts/popularity-study.ts:390-394 | the inner loop, which starts at the pivot's column, subtracts the whole multiple of the pivot's row |
| RidgeSolver.EliminationKeepsSolutions | apps/api/scripts/popularity-study.ts:389-395 | one elimination keeps the set of solutions |
| RidgeSolver.Solve | apps/api/scripts/popularity-study.ts:376-397 | an answer satisfies the equations and is the only vector that does; it is refused only in an equivalent, partly reduced system whose next column has no entry of at least the threshold; a singular matrix is always refused, and where a regular one is, that column still has an entry that is not zero |
| RidgeFit.NormalEquations | apps/api/scripts/popularity-study.ts:399-416 | the accumulation loops give the normal equations of the samples, with the penalty as one more sample for each coefficient behind the intercept |
| RidgeFit.RidgeLoss | apps/api/scripts/popularity-study.ts:416 | the loss of those extra samples is RIDGE times the sum of the squared coefficients behind the intercept |
| RidgeFit.SolutionIsLeast | apps/api/scripts/popularity-study.ts:399-417 | a solution of the normal equations has the least weighted squared error, and equally good vectors are solutions too |
| RidgeFit.RegularExactly | apps/api/scripts/popularity-study.ts:399-416 | with a positive ridge the normal equations are regular if and only if some sample of positive weight has an intercept entry other than zero, however the features depend on each other |
| RidgeFit.FitWeights | apps/api/scripts/popularity-study.ts:399-423 | when the solver answers, every other vector has a strictly larger weighted squared error plus penalty, for all samples of non-negative weight; with a positive ridge it refuses whenever no weighted sample has an intercept entry, and otherwise only because of the threshold |
| AccountErasure.EveryRunIsSound | apps/api/src/account/account-deletion.service.ts:194-294 | what the workers rely on, and the exclusion by locks, over every interleaving with requests, cancels, registrations and billing |
| AccountErasure.DeletionsAreSafe | apps/api/src/account/account-deletion.service.ts:228-265 | a deleted workspace was scheduled and claimed, its stored customer was the one released and is gone at billing, and the operator's was the only workspace |
| AccountErasure.CancelledSurvives | apps/api/src/account/account-deletion.service.ts:162-175 | after a cancellation that succeeds, whatever workers had done before, the workspace survives every run without a new request |
| AccountErasure.ClaimIsDue | apps/api/src/account/account-deletion.service.ts:213-226 | a claim is written exactly when the deletion is scheduled for now or earlier |
| AccountErasure.GracePeriodHolds | apps/api/src/account/account-deletion.service.ts:213-226 | an unclaimed workspace survives every run whose claims of it all come before the time its deletion is scheduled for at that moment |
| AccountErasure.UntilDueSurvives | apps/api/src/account/account-deletion.service.ts:213-226 | a workspace that is scheduled but not claimed survives every run without a new request for it in which all claims come before its time |
| AccountDeletion.DeletionService.Finish | apps/api/src/account/account-deletion.service.ts:228-265 | deletes exactly a claimed workspace with the released customer that does not leave accounts without operator |
| AccountDeletion.DeletionService.Erase | apps/api/src/account/account-deletion.service.ts:194-211 | what one erasure leaves; a workspace that goes was scheduled for now or earlier, and its customer is gone at billing |
| AccountDeletion.DeletionService.EraseDue | apps/api/src/account/account-deletion.service.ts:177-192 | every workspace scheduled for now or earlier is erased or given back by its own row alone, no other goes, and the answer lists exactly the erased ones |
| AccountDeletion.OperatorGoesLast | apps/api/src/account/account-deletion.service.ts:56-61 | the operator's workspace goes if and only if every other one goes in the same run and its own customer is released; it is withdrawn when another stays, and given back when only its own customer is stuck |
| PhraseCount.CountPhrase | apps/api/src/audit/audit-scoring.ts:417-432 | the greedy loop finds the largest number of occurrences of which no two share a word, also for phrases that overlap themselves; none for an empty phrase |
| PhraseCount.GreedyIsLargest | apps/api/src/audit/audit-scoring.ts:423-430 | from any start no packing of occurrences is larger than the greedy one |
| ConfirmationMail.Store.ClaimEvery | apps/api/src/alerts/confirmation-mail.limiter.ts:14-25 | the script refuses at the first used-up key and changes nothing, or counts every key up |
| ConfirmationMail.Store.RefundEvery | apps/api/src/alerts/confirmation-mail.limiter.ts:27-34 | of different keys each that is stored goes down by one, no other counter moves and none is created |
| ConfirmationMail.RefundUndoesClaim | apps/api/src/alerts/confirmation-mail.limiter.ts:27-34 | a refund gives every counter its value from before the claim |
| ConfirmationMail.RefundsOnce | apps/api/src/alerts/confirmation-mail.limiter.ts:89-98 | however calls of one refund overlap and fail, it counts down exactly once when it has said so, and besides only for runs whose reply was lost |
| ConfirmationMail.EveryRunIsBalanced | apps/api/src/alerts/email-alert-confirmation.service.ts:71-170 | over every run of creates, updates and resends, with replies of either script lost, each counter is the number of flights that hold one of it, at most its limit and never negative |
| ConfirmationMail.CounterIsMail | apps/api/src/alerts/email-alerts.service.ts:242-275 | when nothing stops, claims are answered and refunds arrive, a counter is the number of mails sent plus those under way |
| ConfirmationMail.FlightMoves | apps/api/src/alerts/email-alert-confirmation.service.ts:71-170 | exactly which step takes a request into which phase: a mail goes out only behind an answered claim, its commit and its mark, and what fails behind the claim is restored and refunded |
| ConfirmationMail.FlightOpens | apps/api/src/alerts/email-alerts.service.ts:242-275 | a create or update starts with writing its row, a resend with reserving the one there is |
| ConfirmationMail.ClaimedWithinLimits | apps/api/src/alerts/confirmation-mail.limiter.ts:8-10 | a claim is taken exactly while the workspace has claimed fewer than twenty and the recipient fewer than five |
| ConfirmationMail.MailsWithinLimits | apps/api/src/alerts/confirmation-mail.limiter.ts:8-10 | over every run at most twenty mails of a workspace and five to a recipient went out |
| ConfirmationMail.Confirmations.Issue | apps/api/src/alerts/email-alert-confirmation.service.ts:71-84 | a mail goes out and its row is marked, or the row is as it was and the allowance given back |
| ConfirmationMail.Confirmations.Resend | apps/api/src/alerts/email-alert-confirmation.service.ts:86-95 | a mail goes out, marked and counted, or row and counters are as they were |
| AiAllowance.AllowanceHolds | apps/api/src/ai/ai-gateway.service.ts:92-119 | for a fixed limit, in every period and over every run with lost settles, spending calls are at most the limit plus the calls counted after their release |
| AiAllowance.OnlyLateCountsPass | apps/api/src/ai/ai-gateway.service.ts:45-48 | a step makes a period pass its limit if and only if it counts, and is not lost, a released call of that period while the period is full |
| AiAllowance.AllowancePassedExactly | apps/api/src/ai/ai-gateway.service.ts:92-119 | a run passes the limit of a period at some moment if and only if it counts a released call of the full period at some moment |
| AiAllowance.CountedIsFinal | apps/api/src/ai/ai-gateway.service.ts:45-48 | a counted call stays as it is, and no call leaves its period |
| AiAllowance.LateCountPassesLimit | apps/api/src/ai/ai-gateway.service.ts:45-48 | a run in which one late count passes the limit |
| AiAllowance.Gateway.Spend | apps/api/src/ai/ai-gateway.service.ts:79-90 | a refused call changes nothing, a failed one costs nothing, an answered one costs one, usable or not |
| AuditScore.MadeChecksAreSound | apps/api/src/audit/audit-scoring.ts:249-265 | every check that is made has a score in [0, 10], and advice only with a score below 7 |
| AuditRules.MadeCheck | apps/api/src/audit/audit-scoring.ts:249-265 | a check's score is the nearest tenth of the given one held within 0 and 10, and it is advised exactly with advice and a score below 7 |
| AuditRules.StatusByScore | apps/api/src/audit/audit-scoring.ts:116-121 | passed from 7 on, a warning from 4 on, else failed, and unanswered exactly without a score |
| AuditRules.RaisedCheck | apps/api/src/audit/audit-recommendations.ts:145-155 | raising gives a check the full score of 10 and leaves every other as it is |
| AuditScore.FactorRises | apps/api/src/audit/audit-recommendations.ts:147-161 | a factor's score lies in [0, 10], rises with the raised checks, and its confidence stays |
| AuditRules.FactorIsMean | apps/api/src/audit/audit-engine.ts:26-43 | a factor's score is the weighted mean of its scored checks to the nearest tenth, its confidence the scored part of the weight |
| AuditRules.OverallIsMean | apps/api/src/audit/audit-engine.ts:57-90 | the overall score is ten times the mean of the scored factors by weight times confidence, to the nearest tenth; factors without a score do not count |
| AuditScore.OverallRises | apps/api/src/audit/audit-engine.ts:57-90 | raising more checks never lowers the overall score, through both roundings, and it stays in [0, 100] |
| AuditScore.PerfectReport | apps/api/src/audit/audit-engine.ts:26-90 | a report in which every check is raised scores exactly 100, whatever the weights of checks and factors |
| AuditScore.LiftWithinPotential | apps/api/src/audit/audit-recommendations.ts:188-230 | a lift is exactly what raising its check adds, is not negative before clamping, and at most potential minus overall |
| AuditRecommendations.BuildRecommendations | apps/api/src/audit/audit-recommendations.ts:175-230 | nothing without an overall score, else the ranked entries of each bucket in order |
| AuditRecommendations.RecommendedOnce | apps/api/src/audit/audit-recommendations.ts:211-221 | every entry is in exactly one bucket, and every bucket is ranked |
| AuditRules.BucketsByEffort | apps/api/src/audit/audit-recommendations.ts:124-132 | quick wins take minutes, high impact takes hours and adds at least a point, strategic is the rest; each ranked by lift, weight and id |
| AuditRecommendations.AdvisedIsListed | apps/api/src/audit/audit-recommendations.ts:183-209 | no advised check is left out |
| AuditRecommendations.LiftsArePromised | apps/api/src/audit/audit-recommendations.ts:188-230 | every listed lift is what its check adds, within the plan's potential |
| RatingDrop.HistoryIsEnough | apps/api/src/apps/rating-drop.ts:105-128 | cutting every history at twenty days before its newest snapshot changes nothing |
| RatingDrop.MeasuredExactly | apps/api/src/apps/rating-drop.ts:34-96 | a drop is measured exactly for a snapshot with at least twenty ratings, one tenth or more below the first such snapshot that is seven to ten days older; and what it says |
| RatingDrop.NothingMeasured | apps/api/src/apps/rating-drop.ts:45-59 | without such a snapshot nothing is measured |
| RatingDrop.NewExactly | apps/api/src/apps/rating-drop.ts:105-128 | a measured drop is new exactly when every drop shown since its reference was at least a whole tenth less deep |
| RatingDrop.NewDropIsDeepest | apps/api/src/apps/rating-drop.ts:105-128 | a new drop's average is strictly below its reference and below every average at which a drop showed since that reference |
| RatingDrop.KeptBack | apps/api/src/apps/rating-drop.ts:105-128 | a measured drop is kept back only when one at least as deep in whole tenths already showed since the reference |
| AlertFeed.List | apps/api/src/alerts/alert-event-feed.service.ts:57-89 | the loop over batches gives the first listable rows behind the cursor, and a next cursor if and only if more follow |
| AlertFeed.BatchSplits | apps/api/src/alerts/alert-feed-where.ts:33-38 | behind the last row of a full batch is exactly the rest; a short batch is the rest |
| AlertFeed.PagesCoverFeed | apps/api/src/alerts/alert-event-feed.service.ts:57-89 | following the cursors shows every listable row behind the first cursor once and in order, on pages no longer than the limit |
| AlertFeed.FirstPageCoversTable | apps/api/src/alerts/alert-event-feed.service.ts:57-89 | from the first page on that is the whole feed without repetition |
| AlertEventCursor.CursorRoundTrip | apps/api/src/alerts/alert-event-cursor.ts:10-31 | a cursor that is written is read back, for every instant a date can hold and every row id |
| AlertEventCursor.FaithfulPlatformExists | apps/api/src/alerts/alert-event-cursor.ts:10-31 | what the round trip relies on can be met: a platform with decimal dates and padded texts meets all of it |
| AlertEventCursor.AcceptedIsExact | apps/api/src/alerts/alert-event-cursor.ts:22-31 | a text that is accepted decodes to exactly the text of the cursor it was read as |
| AlertEventCursor.AcceptedExactly | apps/api/src/alerts/alert-event-cursor.ts:7-31 | exactly which texts are accepted: up to 200 characters that decode to a date as it is written, the separator and a row id of 1 to 64 letters, digits, hyphens and underscores |
| AlertEventCursor.RefusedWithoutSeparator | apps/api/src/alerts/alert-event-cursor.ts:25-26 | a text that decodes to something without a separator is refused |

## Left out

- Database, cache, queue, mail, billing and model provider: a statement, script or locked transaction is one atomic step, a queue add with a known id does nothing, and an outside call is a free outcome.
- ActionCenter.EveryRunIsExplained: assumes clocks that are not behind the newest event of the row they write, because without that the property is false; the exact condition is proved per write and over runs.
- ActionTransitions.RecordedEventExplains: events of one instant are taken in the order they were recorded; the service orders them by id (`apps/api/src/actions/action-transitions.ts`, lines 174 and 192), and ids drawn by different processes in one millisecond need not follow that order.
- Action detectors, impact scores, fingerprints, evidence and AI explanation columns of actions: the generator's input is a list of scored detections.
- Rows lost to retention pruning, and switching the delivery mode while claims are unfinished: assumptions of the claim protocol; what the switch breaks is proved.
- AlertFlush.SentAgainOnlyWhenForgotten: when the queue forgets a finished job, after seven days, is a free step of the model.
- The options of queue jobs, and running them.
- AlertFlush.FlushedOnlyAfterDelivery: the subscriptions, apps and traffic a worker reads are a free reading of its step; the jobs are then computed from it and from the rows.
- AlertFlush.EveryRunIsSound: a claim snapshot is one step, because it is a serializable transaction; its retries after a conflict add nothing.
- Dispatching instant alerts, composing dedupe keys and resolving apps, traffic and trackers: inputs of the model.
- The fields that payloads carry only for display: payloads keep what classification, routing, filtering and sorting read.
- AlertBatch.ClassificationForgetsOrder: compares by id what the service also reads by creation time; ids are taken to be present.
- ExportPaging.StaticExport: proved for every page size and key length; removing secret columns and writing NDJSON are not part of this model.
- ExportPaging.NothingLost: an export of a table that grows faster than it is read need not end, so its end is a premise.
- RidgeSolver.Solve: exact reals instead of floating point, so rounding errors and the four-decimal rounding of the weights are not covered.
- RidgeFit.FitWeights: `log1p` of the targets is taken before the model starts.
- AccountErasure.DeletionsAreSafe: cancelling a running trial when a deletion is requested, and who requested it, are not modelled; a workspace beside the operator's keeps its owner, as the team service ensures.
- ConfirmationMail.RefundsOnce: callers of one settled attempt resume together, as promise reactions do.
- ConfirmationMail.EveryRunIsBalanced: one daily window; expiry of counters, cooling down, and limits on the number of alerts are left out.
- AiAllowance.AllowanceHolds: one workspace with a fixed limit; plans, token usage and the arithmetic of periods are left out.
- AuditScore.OverallRises: exact reals instead of floating point; the texts, labels and inputs of the checks are left out.
- PhraseCount.CountPhrase: works on the words that text normalisation gives; normalisation itself is left out.
- AlertFeed.PagesCoverFeed: the table and the feed's filter stay fixed while pages are followed; which rows have a home is an input.
- AlertEventCursor.CursorRoundTrip: dates and base64 are abstract functions; they invert on the instants a date can hold and on ASCII texts, with date texts of at most 27 characters and no separator.
- Controllers, schemas, mappers, digests, channel rendering, store capture, audit check texts, and the collecting commands of the study: they would only add easy members.
