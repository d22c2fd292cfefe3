# Verified model of the voice-calling backend's core

A voice-calling backend places calls for campaigns and follow-ups, meters their use, and stores the
workflows that drive them. Its hard logic is a set of small transactional state machines over relational
tables, with calendar and loan arithmetic beside them. This project models those machines and proves what
they keep over every run.

| module | models | main result |
|---|---|---|
| `EarliestFirst` | the ordered, limited, lock-skipping SELECT | a selection is earliest first, and complete when short |
| `CampaignQueue` | the campaign run queue as a concurrent protocol, and the claim as written | no row held twice; committed claims disjoint; retries before fresh rows |
| `CampaignDeletion` | deleting a campaign statement by statement | foreign keys hold after each statement; runs are conserved |
| `BillingPeriod` | billing periods over the Gregorian calendar | the periods cover all time if and only if the settings are regular |
| `UsageLedger` | usage cycles, reservations and charges under races | no update lost; only charges exceed a quota; one row a period |
| `QuietHours` | quiet hours and scheduling horizon | rolling forward gives the earliest allowed instant |
| `Callbacks`, `CallbackScheduler`, `CallbackService` | follow-up callbacks: rows, runs of the scheduler, operations as written | no callback stranded, no call at night in the callback's zone, retry chains of at most two; which attempts make a second retry possible |
| `RunLifecycle` | websocket connects and provider status callbacks | the state only advances, one connect a run, nothing recorded is lost |
| `WorkflowVersions` | the content-addressed definition store | exactly one current definition, that of the saved content |
| `Triggers`, `WorkflowRoutes` | the trigger index and the save that feeds it | active triggers are the saved paths nobody else took |
| `RunFilters` | run filters compiled to SQL conditions | the filter keeps exactly the rows every item asks for, in any order of evaluation |
| `ChunkSearch` | the similarity query and its placeholders | the clause selects exactly the wanted chunks |
| `EmbedUsage` | embed tokens with a use limit | the limit is passed by at most the overlap less one, and that is reached |
| `Foir` | loan eligibility | the largest affordable loan; when rounding breaks the cap |

`Wrappers`, `Json` and `Time` hold optional values, set helpers, JSON values and units of time.

## How to read it

A component that runs concurrently is a state, a type of actions and a total `Step`: an action that is not
enabled leaves the state alone, so every sequence of actions is a run. In `CampaignQueue` and `UsageLedger`
an action is one statement of a transaction, and in `EmbedUsage` one database call, so a claim about `Run` is
a claim about every interleaving of their transactions. In `CallbackScheduler`, `RunLifecycle` and
`WorkflowVersions` an action is a whole operation: one placement with its release, one outcome, one request,
one status callback, one save. Their claims are about every order of operations, not about steps of one
operation falling between those of another. A run of the callback scheduler is called clean when each call's
outcome is delivered at most once and no attempt invites a second retry. Each class holds the tables the Python clients
hold and updates them as those clients do; each method is proved to do what the specification function of
the same step does, and the laws are proved about that function.

Assumptions, made once. A locked row is seen at its latest committed version, and the WHERE clause is rechecked on it;
rows locked by others are skipped where the query says so and waited for otherwise; unique constraints are
enforced on insert, and an insert waits while another open transaction has inserted the same key. Increments
start from the value read under the lock. The clock, the zone database, the provider's answer, the quota
service and the steps that raise are inputs, arbitrary in every theorem. A zone is a fixed offset from UTC.
The definition hash is injective. Times are microseconds; amounts are exact.

## Where the code and its documentation differ

The model follows the code.

- The module comment promises a callback retry after five minutes; the delay is 7200 seconds
  (`api/services/callbacks.py:25`).
- The tick returns a "placed" count that includes every placement that did not raise, also those that only
  postponed or failed their callback (`api/tasks/callback_tasks.py:44-56`).
- The handler swallows exceptions around the whole quota guard, so if recording a quota postponement raises,
  the call is placed although the quota is exhausted (`api/tasks/callback_tasks.py:94-107`).
- The promised single retry can be two, in two ways, and no other while each call's outcome is delivered at
  most once (`SecondRetryIffInvited`, `OneRetryPerCallback`). When a call goes out and the provider's answer is
  lost or cannot be recorded, the attempt is handled as failed, and so is the outcome the provider later
  reports for the same call (`OneCallTwoRetries`; `api/tasks/callback_tasks.py:163-185`). And the retry is
  stored before the failure, in another transaction: when recording the failure raises and the release works,
  the callback is called again (`UnrecordedFailureMakesTwoRetries`; `api/tasks/callback_tasks.py:212-226`).
- Status updates are meant to be idempotent; a repeated failure appends its tags again
  (`RepeatedFailuresRepeatTags`), and a voicemail concludes the callback without completing the run.
- A refused reservation commits nothing, so the cycle row it inserted on the way disappears too.
- `quota_reset_day` is 1 to 28 by comment only. Other days, anniversaries on 29 February and anniversaries
  that are not at midnight leave instants outside their own period (`CoversAllTimeIffRegular`).
- The duration filter's field is named after `cost_info`; the code reads `usage_info`. Bounds are cast
  to integer, so one row with fractional text can make the whole query fail, and has to when nothing else
  rejects the row. The phone search does not escape LIKE wildcards,
  if `contains` on the extracted phone compiles to LIKE at all: should the extraction keep the type of the JSON
  column, every statement with a phone search is rejected (`AcceptedUnlessPhoneContainment`).
- A trigger path named by a second workflow moves to it; when that one drops it, it is archived and does
  not return to the first (`IndexLaw`). A definition with an unreadable trigger node, or a path that is
  not a string, is stored, and the request then fails without the index being synchronised.
- A usage limit of 0 on an embed token means no limit, and a positive limit is soft under concurrency.
- Rounding the available amount to paise can lift the instalment over the 70% cap (`RoundingCanBreakTheCap`).

## Model

| member | source | states |
|---|---|---|
| EarliestFirst.ShortSelectionTakesAll | api/db/campaign_client.py:580-601 | a selection below its limit has taken every matching row, which is why fresh rows may then be taken |
| EarliestFirst.Select | api/db/callback_client.py:100-109 | returns distinct matching rows up to the limit in time order, none left behind earlier than one taken |
| CampaignQueue.NoRowHeldTwice | api/db/campaign_client.py:576-630 | over every interleaving two open claims hold disjoint rows |
| CampaignQueue.ClaimsAreBoundedByRequeues | api/db/campaign_client.py:559-636 | a row is committed to workers at most once more often than it is reset to queued |
| CampaignQueue.CommittedClaimsAreDisjoint | api/db/campaign_client.py:559-636 | while nothing resets a row to queued, the committed claims of all workers are pairwise disjoint |
| CampaignQueue.RollbackRestores | api/db/campaign_client.py:625-630 | a rollback at any point leaves the table as it was and unlocks exactly the rows the transaction held, all still queued |
| CampaignQueue.RetriesComeFirst | api/db/campaign_client.py:579-623 | a claim ready to commit is within its limit, has no repeats, took retries earliest first, and took fresh rows only after every due unlocked retry |
| CampaignQueue.ClaimedRowsAreDue | api/db/campaign_client.py:582-612 | over every interleaving a claim ready to commit holds queued rows of its campaign, retries due by its time and fresh rows without one |
| CampaignQueue.CommitMarksTheClaim | api/db/campaign_client.py:596-630 | a commit sets exactly the claimed rows to processing and changes no other field or row |
| CampaignQueue.SelectedRetries | api/db/campaign_client.py:580-591 | the first query takes due unlocked queued rows in time order, and leaves one behind only when full with rows no later |
| CampaignQueue.DueAreTheClaimable | api/db/campaign_client.py:580-591 | the rows a claim is measured against are those claimable when it locked its retries |
| CampaignQueue.DrawnRows | api/db/campaign_client.py:605-616 | the second query takes unlocked queued rows without a time, and leaves one behind only when the limit is reached |
| CampaignQueue.StepKeepsInv | api/db/models.py:650-655 | every action keeps claims disjoint and queued, the source and retry key unique, and the claim budget of every row |
| CampaignQueue.ClaimRefinesProtocol | api/db/campaign_client.py:576-630 | the effect of one claim is the protocol run begin, lock retries, lock fresh rows, commit, from any reachable state |
| CampaignQueue.CampaignClient.ClaimQueuedRunsForProcessing | api/db/campaign_client.py:559-636 | takes only unlocked queued rows of the campaign, retries that are due and then fresh ones, at most the limit; a fresh one only if no due retry is left, none left while there is room; exactly the claimed rows become processing and nothing else changes; a negative limit fails |
| CampaignQueue.CampaignClient.MarkAndCollect | api/db/campaign_client.py:597-599 | the loop marks exactly the selected rows and appends them in order |
| CampaignQueue.CampaignClient.CreateQueuedRun | api/db/campaign_client.py:474-504 | inserts if and only if campaign, source and retry count are a new combination; otherwise nothing changes |
| CampaignDeletion.CampaignStore.DeleteCampaign | api/db/campaign_client.py:311-370 | all four foreign keys hold after each statement; the workflow runs stay, exactly the campaign's queued rows go, and a reference is nulled if and only if it points to the campaign or one of its rows; an unknown campaign changes nothing |
| CampaignDeletion.CampaignStore.DetachAll | api/db/campaign_client.py:328-337 | run by run, exactly this campaign's runs are detached |
| CampaignDeletion.CampaignStore.ClearReferences | api/db/campaign_client.py:350-362 | both kinds of reference into the doomed rows are nulled, no others |
| CampaignDeletion.CampaignStore.DropAll | api/db/campaign_client.py:363-364 | deleting unreferenced rows one at a time in any order never breaks a foreign key |
| CampaignDeletion.DetachedAndCleared | api/db/campaign_client.py:328-366 | detaching, clearing and dropping change other rows only by nulling references into the deleted set, and leave every foreign key valid |
| CampaignDeletion.DropIsSafeIffUnreferenced | api/db/models.py:605-620 | a queued row may be deleted if and only if no run and no other queued row refers to it, which is why references are nulled first |
| CampaignDeletion.DeletionsCommute | api/db/campaign_client.py:311-370 | deleting two campaigns in either order gives the same tables |
| BillingPeriod.InstantOrder | api/db/organization_usage_client.py:473-524 | calendar dates and instants are ordered alike, over all years and leap rules |
| BillingPeriod.EveryInstantHasADate | api/db/organization_usage_client.py:477-477 | the calendar names every instant, so claims for all dates are claims for all instants |
| BillingPeriod.DatesAreGregorian | api/db/organization_usage_client.py:473-524 | the dates are those with the Gregorian month lengths, leap years by the 4, 100, 400 rule |
| BillingPeriod.PeriodsPartitionTime | api/db/organization_usage_client.py:473-524 | under regular settings each instant lies in its own period, and another instant lies in it if and only if it has the same period |
| BillingPeriod.PeriodsAreAdjacent | api/db/organization_usage_client.py:494-524 | under regular settings a new period starts exactly one second after the end of the last |
| BillingPeriod.MonthlyPeriodsLastTheirMonth | api/db/organization_usage_client.py:479-497 | a monthly period contains the instant, starts at midnight on the reset day, and ends one second short of the days its first month has |
| BillingPeriod.CalendarYearsLastAYear | api/db/organization_usage_client.py:500-507 | without a start date the period is the calendar year of 365 or 366 days less one second |
| BillingPeriod.AnnualPeriodsLastAYear | api/db/organization_usage_client.py:508-522 | an annual period contains the instant, starts on an anniversary, and has 366 days exactly if it contains a 29 February |
| BillingPeriod.MonthlyRaisesExactly | api/db/organization_usage_client.py:480-492 | the calculation raises if and only if the reset day is below 1 or past the end of the previous month it is put into |
| BillingPeriod.AnnualCoversOutsideGaps | api/db/organization_usage_client.py:508-522 | for any anniversary the period contains the instant if and only if it is outside the stated gaps |
| BillingPeriod.IrregularLeavesAGap | api/db/organization_usage_client.py:479-522 | every irregular setting has an instant that its own period misses or for which the calculation raises |
| BillingPeriod.CoversAllTimeIffRegular | api/db/models.py:103-106 | every instant is billed in a period containing it if and only if the settings are regular |
| UsageLedger.NothingIsLost | api/db/organization_usage_client.py:128-147 | over every interleaving each row's tokens, seconds and dollars are its opening values plus exactly the requests committed on it |
| UsageLedger.OnlyChargesExceedTheQuota | api/db/organization_usage_client.py:103-186 | usage never exceeds the quota by more than the charges on the row; with reservations alone never at all |
| UsageLedger.NewRowsObeyTheOrganizationsQuota | api/db/organization_usage_client.py:74-84 | over every interleaving a row created in the run has its organization's quota, and its usage is at most that and the charges on it |
| UsageLedger.RegularPeriodContainsNow | api/db/organization_usage_client.py:56-57 | under regular settings there is always a period and it contains the instant billed |
| UsageLedger.RefusedReservationChangesNothing | api/db/organization_usage_client.py:142-149 | whatever follows a refusal, no ledger entry is made by that transaction before it begins anew, and the row it inserted never becomes committed |
| UsageLedger.RefusedReservationIsErased | api/db/organization_usage_client.py:128-149 | a refused reservation that inserted nothing leaves table and ledger as in the same run without it, and the whole state once it ends |
| UsageLedger.OnePeriodOneRow | api/db/organization_usage_client.py:59-101 | everything an organization commits within one billing period lands on one row, even when creators race |
| UsageLedger.StepKeepsInv | api/db/models.py:508-510 | every action keeps organization and period unique, one locker a row, and the books balanced |
| UsageLedger.SerialTransaction | api/db/organization_usage_client.py:103-186 | run alone, the protocol has the effect proved of the sequential methods `CheckAndReserveQuota` and `UpdateUsageAfterRun` |
| UsageLedger.UsageClient.GetOrCreateCurrentCycle | api/db/organization_usage_client.py:46-101 | returns the row of that organization and period; if there was none it inserts one with the organization's quota and nothing used, else it changes nothing |
| UsageLedger.UsageClient.CheckAndReserveQuota | api/db/organization_usage_client.py:103-149 | grants and adds the tokens exactly when they fit, for a first reservation of a period when they fit the organization's quota; unenforced organizations always pass; a refusal undoes even the inserted row |
| UsageLedger.UsageClient.UpdateUsageAfterRun | api/db/organization_usage_client.py:151-186 | adds tokens, seconds and dollars to the current cycle only; fails without change when organization or period cannot be resolved |
| QuietHours.RollForwardIsEarliest | api/services/callbacks.py:57-73 | rolls to the earliest instant at or after the input that is not quiet, at most ten hours on |
| QuietHours.RollForwardIsMonotoneClosure | api/services/callbacks.py:57-73 | that instant is unique, later inputs never roll earlier, and rolling twice is rolling once |
| QuietHours.QuietFromTenToEight | api/services/callbacks.py:50-73 | quiet is exactly outside 08:00 to before 22:00 of the local day, counted in microseconds, and rolling out of it ends at 08:00 |
| QuietHours.NormalizeKeepsTheHorizon | api/services/callbacks.py:76-89 | kept if and only if in the next sixty days, and then not quiet, after now and within sixty days and ten hours |
| CallbackScheduler.CallsExactlyWhenDialling | api/tasks/callback_tasks.py:71-162 | a call goes out if and only if the guards on the row and its surroundings hold, even with the quota exhausted if the postponement raises; one call, for this callback, now |
| CallbackScheduler.PlaceFrame | api/tasks/callback_tasks.py:59-186 | a placement changes no other callback, removes nothing, and adds only scheduled callbacks |
| CallbackScheduler.AttemptSettlesIffReleased | api/tasks/callback_tasks.py:45-56 | an attempt leaves its callback stranded if and only if it raises before creating a run, no run carries it yet, and the release raises too |
| CallbackScheduler.NoCallbackIsStranded | api/tasks/callback_tasks.py:37-186 | over every run and every pattern of failures, with releases working, an attempted callback in progress has a run carrying its id |
| CallbackScheduler.FailedReleaseStrands | api/tasks/callback_tasks.py:49-55 | releases have to work: two failures leave a callback in progress with no run |
| CallbackScheduler.NoCallInQuietHours | api/tasks/callback_tasks.py:71-82 | over every run each call was handed over by a placement at an instant from 08:00 to before 22:00 in the zone the callback named at that moment, or else its user, UTC if empty or unknown |
| CallbackScheduler.ByDayIsNotQuiet | api/services/callbacks.py:28-54 | the zone looked up is the callback's, else its user's, unknown and empty names being UTC |
| CallbackScheduler.QuietPlacementReschedules | api/tasks/callback_tasks.py:74-82 | a placement in quiet hours does nothing but schedule the callback for the earliest allowed instant, 08:00 local time |
| CallbackScheduler.QuotaPostponementCanBeQuiet | api/tasks/callback_tasks.py:93-105 | an exhausted quota by day does nothing but postpone by an hour, into quiet hours if and only if it is 21:00 local time or later |
| CallbackScheduler.RetryWaitsForAllowedTime | api/tasks/callback_tasks.py:206-223 | a retry is its parent but for time, zone, state, count and parent, and is due at the earliest allowed instant at least 7200 seconds on |
| CallbackScheduler.FailedChecksNameTheReason | api/tasks/callback_tasks.py:84-127 | by day with nothing raising, the first failing check fails the callback with its own reason and changes nothing else |
| CallbackScheduler.CallLeavesItsRun | api/tasks/callback_tasks.py:129-186 | a call leaves one new run naming the callback, open and reporting to it after success, closed after a handled failure, without callback id if closing raised |
| CallbackScheduler.OutcomesEndTheirCallback | api/tasks/callback_tasks.py:201-237 | "completed" completes, the four retryable statuses fail an original and add its one retry, everything else only fails; no other row changes |
| CallbackScheduler.RaisedOutcomesAreCutShort | api/tasks/callback_tasks.py:197-237 | which outcomes raise, and that they keep exactly what was committed before |
| CallbackScheduler.RaisingChangesNothing | api/tasks/callback_tasks.py:59-143 | a placement raises and leaves everything as it was if and only if one of the steps it gets to before creating a run raises or the user does not own the workflow |
| CallbackScheduler.OnlyReleasesAreDueAgain | api/tasks/callback_tasks.py:45-56 | an attempt makes nothing due at its own instant except its own callback when that was released |
| CallbackScheduler.StepKeepsForest | api/tasks/callback_tasks.py:206-226 | every action keeps retry count 1 exactly for rows with a parent, 0 for their parents |
| CallbackScheduler.RetryChainsAreShort | api/tasks/callback_tasks.py:189-237 | in every reachable state no chain of retries is longer than two, whatever outcomes arrive |
| CallbackScheduler.ChildrenCountRecordedFailures | api/tasks/callback_tasks.py:206-231 | a callback gains exactly as many retries as retryable outcomes were handled for it whose retry could be stored |
| CallbackScheduler.OneRetryPerCallback | api/tasks/callback_tasks.py:154-237 | over every run in which each call's outcome is delivered at most once and no attempt invites a second retry, at most one retry a callback, and nothing attempts it again or reports on it; whatever else raises, recordings and releases included |
| CallbackScheduler.RetriedCallbacksHaveEnded | api/tasks/callback_tasks.py:206-237 | while recording works, a retried callback has failed or completed |
| CallbackScheduler.SecondRetryIffInvited | api/tasks/callback_tasks.py:45-56 | after any attempt of an unretried callback, whatever raised in it, some clean continuation gives two retries if and only if it left its call out and stored a retry or was released, or stored a retry, could not record it and was released |
| CallbackScheduler.OneCallTwoRetries | api/tasks/callback_tasks.py:154-237 | an attempt and the one outcome of its call make two retries if and only if the call went out, its answer was not recorded, close, load and create did not raise, and the outcome is retryable and can be stored |
| CallbackScheduler.StepKeepsAccounted | api/routes/telephony.py:764-782 | every clean action keeps each owed outcome with one callback that is in progress and not up for another attempt, and retried callbacks neither scheduled, claimed nor owed |
| CallbackScheduler.RetriesSpendOriginals | api/tasks/callback_tasks.py:206-231 | while no attempt has invited a second retry, each retry removes exactly one callback from the unretried originals |
| CallbackScheduler.RetriesAreFewerThanOriginals | api/tasks/callback_tasks.py:189-237 | over every clean run there are no more retries than callbacks that were asked for |
| CallbackScheduler.RetriesAreBoundedByCalls | api/tasks/callback_tasks.py:154-237 | over every run in which each call's outcome is delivered at most once, whatever raises, at most two retries for each call made |
| CallbackScheduler.RepeatedFailureMakesTwoRetries | api/tasks/callback_tasks.py:206-226 | single delivery is needed: the same failure delivered twice makes two retries |
| CallbackScheduler.UnrecordedFailureMakesTwoRetries | api/tasks/callback_tasks.py:212-226 | after an attempt that stored a retry the callback is up again if and only if recording raised and the release worked; failing the same way then makes two |
| CallbackService.TickSettlesItsClaims | api/tasks/callback_tasks.py:37-56 | after a whole tick whose releases work, whatever other ticks hold claimed, every callback it claimed is settled, whichever placements raised |
| CallbackService.Service.UpdateCallback | api/db/callback_client.py:122-153 | only the given fields of that row change; a missing row changes nothing |
| CallbackService.Service.CreateCallback | api/db/callback_client.py:18-56 | a new row under a new id |
| CallbackService.Service.ClaimDueCallbacks | api/db/callback_client.py:91-120 | an earliest-first selection of the due unlocked rows; exactly those become in progress |
| CallbackService.ClaimTakesDueCallbacks | api/db/callback_client.py:100-114 | a claim takes at most 25 scheduled, due, unlocked callbacks in time order, and leaves one behind only if 25 no later were taken |
| CallbackService.Service.HandleCallbackAttemptOutcome | api/tasks/callback_tasks.py:189-237 | completes, fails or retries once, committing exactly the steps before the one that raised |
| CallbackService.Service.ScreenPlacement | api/tasks/callback_tasks.py:65-127 | the checks before a call take the decision the scheduler laws are about, and a raised check changes nothing |
| CallbackService.Service.PlaceCallbackCall | api/tasks/callback_tasks.py:59-186 | rows, runs and calls after one placement, for every answer and every step that raises |
| CallbackService.Service.CheckDueCallbacks | api/tasks/callback_tasks.py:37-56 | claims, then attempts each claim in order; the count is the number of placements that did not raise |
| CallbackService.Service.LatestPendingFor | api/db/callback_client.py:71-89 | the latest still-scheduled callback of the run, None exactly when there is none |
| CallbackService.Service.ScheduleCallbackForRun | api/services/callbacks.py:117-174 | drops unusable requests, moves the pending callback of the run if there is one, else creates one at an allowed instant |
| CallbackService.UsableRequestsAreScheduled | api/services/callbacks.py:129-151 | a request is scheduled if and only if its run has a workflow, one of three numbers, an organization, and a time within sixty days; otherwise nothing changes |
| CallbackService.ScheduledRequest | api/services/callbacks.py:134-174 | a usable request moves the latest pending callback of the run, or adds one callback with every field as given, at the earliest allowed instant in the user's zone |
| RunLifecycle.NothingGoesBack | api/routes/telephony.py:734-856 | over every sequence of events the state only advances, completion stays, context keys keep their values but for the tags, and log and tags only grow at the end |
| RunLifecycle.AtMostOneConnect | api/routes/telephony.py:601-647 | each run accepts at most one websocket |
| RunLifecycle.TerminalStatusIsFinal | api/routes/telephony.py:791-850 | over every sequence of events a run is completed if and only if it was, or a terminal status has been processed for it; voicemail never completes it |
| RunLifecycle.StatusIsRecorded | api/routes/telephony.py:745-849 | one status adds one log entry, in which the provider's data win, a failure adds its two tags, and nothing else in the contexts changes |
| RunLifecycle.StatusRaisesExactly | api/routes/telephony.py:745-844 | processing raises if and only if something other than a list is where the log or, for a failure, the tags belong |
| RunLifecycle.AcceptedExactly | api/routes/telephony.py:587-642 | a connect is accepted if and only if run and workflow exist, the run is initialized, and its named provider is the configured one |
| RunLifecycle.OutcomesPassedOn | api/routes/telephony.py:764-786 | over every sequence of events exactly the concluding statuses of runs that began with a callback id are passed on, in order, also on completed runs and for voicemail |
| RunLifecycle.RepeatedFailuresRepeatTags | api/routes/telephony.py:836-849 | n failures add n log entries and 2n tags |
| RunLifecycle.RunClient.UpdateWorkflowRun | api/db/workflow_run_client.py:332-402 | right-biased merge of contexts and logs, completion never cleared, absent arguments leave their fields |
| RunLifecycle.MergeIsRightBiased | api/db/workflow_run_client.py:371-395 | given entries win over stored ones, stored ones stay, and completion is never taken back |
| RunLifecycle.RunClient.ProcessStatusUpdate | api/routes/telephony.py:734-856 | the update calls together make the one atomic step the laws are about, and what is passed on to the callback |
| RunLifecycle.RunClient.HandleTelephonyWebsocket | api/routes/telephony.py:587-647 | the close code for each failed check, and the move to running exactly when all pass |
| WorkflowVersions.OneCurrentDefinition | api/db/workflow_client.py:51-299 | after any calls each workflow has exactly one current definition, with the hash of the legacy field and its JSON but for node summaries; hash and workflow stay unique |
| WorkflowVersions.SavingAgainReusesTheRow | api/db/workflow_client.py:29-39 | saving a content again returns the row it was saved in, whatever happened between |
| WorkflowVersions.RevertingRestoresTheRow | api/db/workflow_client.py:273-291 | going back to earlier content makes its old row current |
| WorkflowVersions.ForeignUpdatesChangeNothing | api/db/workflow_client.py:251-261 | an update by another organization, or without one by another user, changes nothing |
| WorkflowVersions.OnlyOwnUpdatesChange | api/db/workflow_client.py:217-299 | over every run a workflow's row and current version are changed only by updates of its own organization, or without one by its user or by nobody named |
| WorkflowVersions.OwnUpdatesSetTheGivenFields | api/db/workflow_client.py:263-291 | an own update sets exactly the given fields, makes a nonempty definition legacy field and current version, and touches no other workflow |
| WorkflowVersions.StepKeepsInv | api/db/models.py:213-215 | every operation keeps uniqueness and currency, and loses or reassigns no definition |
| WorkflowVersions.SaveMakesCurrent | api/db/workflow_client.py:69-83 | a save leaves exactly its own definition current and other workflows' versions alone |
| WorkflowVersions.WorkflowClient.GetOrCreateWorkflowDefinition | api/db/workflow_client.py:23-49 | the existing row of that hash and workflow, else one new row |
| WorkflowVersions.WorkflowClient.SaveDefinition | api/db/workflow_client.py:69-83 | find or create, then make current |
| WorkflowVersions.WorkflowClient.MarkCurrent | api/db/workflow_client.py:282-291 | setting one flag and clearing the others leaves one current row in the workflow |
| WorkflowVersions.WorkflowClient.CreateWorkflow | api/db/workflow_client.py:51-90 | a new workflow with its definition current, keeping the invariant |
| WorkflowVersions.WorkflowClient.UpdateWorkflow | api/db/workflow_client.py:217-299 | found exactly when visible by organization, else by user; only given fields change; an empty definition saves none |
| WorkflowVersions.WorkflowClient.UpdateDefinitionNodeSummaries | api/db/workflow_client.py:389-417 | replaces only the summaries, keeping hash, currency and the rest of the JSON |
| WorkflowVersions.WorkflowClient.CreateWorkflowRun | api/db/workflow_run_client.py:34-95 | the owner's run is pinned to the definition of the content last saved, and starts from the template variables unless given a context |
| Triggers.ExtractTriggerPaths | api/routes/workflow.py:42-63 | the truthy paths of the trigger nodes in order, whatever their JSON type, or failure exactly when nodes or a node cannot be read |
| Triggers.PathsAreThePathsGiven | api/routes/workflow.py:51-63 | the paths are exactly the truthy "trigger_path" values in the data of nodes of type "trigger", and reading fails exactly if the list or one node cannot be read |
| Triggers.StringsAreThePaths | api/db/agent_trigger_client.py:95-111 | paths are stored if and only if all are strings, and then unchanged |
| Triggers.SyncAgreesWithDefinition | api/db/agent_trigger_client.py:42-118 | active triggers are exactly the named paths, new and taken ones get the organization, own others are archived, the rest stays; others lose only named paths, and a second sync changes nothing |
| Triggers.TriggerClient.SyncTriggersForWorkflow | api/db/agent_trigger_client.py:42-118 | archiving, reactivating and upserting together make the synchronised index; a path that is not a string, or a failing database, leaves it as it was |
| Triggers.TriggerClient.ArchiveAndReactivate | api/db/agent_trigger_client.py:67-91 | each row of the workflow becomes active or archived as its path is named or not; other rows stay |
| Triggers.TriggerClient.AddPaths | api/db/agent_trigger_client.py:93-111 | each new path is inserted or taken over, in any order, with the same result |
| Triggers.IndexLaw | api/routes/workflow.py:599-606 | after any saves a workflow's active triggers are its latest paths less those another workflow named since |
| Triggers.IndexAgreesWhenPathsAreNotShared | api/routes/workflow.py:599-606 | with unshared paths the index agrees with every workflow's latest definition |
| Triggers.RegeneratedPaths | api/routes/workflow.py:66-94 | reading the paths back from regenerated nodes gives exactly the fresh ones, in order |
| Triggers.RegeneratedKeepsTheRest | api/routes/workflow.py:84-92 | regenerating changes nothing but the paths of trigger nodes |
| Triggers.FreshPathsTouchNobody | api/routes/workflow.py:66-94 | synchronising regenerated unused paths leaves every row of other workflows untouched |
| Triggers.RegenerateTriggerUuids | api/routes/workflow.py:84-94 | rewriting the copied nodes in place, one fresh path a trigger node |
| WorkflowRoutes.UpdateWorkflow | api/routes/workflow.py:577-624 | another organization gets 404 and changes neither store nor index; a successful save leaves the stored definition's paths exactly active; when 500 is answered, and what is stored all the same |
| RunFilters.FilterKeepsExactly | api/db/filters.py:92-215 | under three-valued logic the compiled filter is true exactly on the rows every item asks for; in any order of evaluation it can fail only where some item breaks, and has to exactly where all others ask for the row |
| RunFilters.ItemMeans | api/db/filters.py:108-210 | one item's conditions are true exactly on the rows it asks for and fail exactly where it breaks, never depending on the order |
| RunFilters.UnrecognisedMayBeDropped | api/db/filters.py:97-109 | dropping items of unknown attribute or mismatched type leaves the query the same |
| RunFilters.FiltersConjoin | api/db/filters.py:95-213 | compiling a concatenation is the conjunction; order is irrelevant and adding filters only shrinks |
| RunFilters.AcceptedUnlessPhoneContainment | api/db/filters.py:172-181 | a statement is rejected if and only if `contains` means containment and an item searches a phone; the other rows are about accepted statements |
| RunFilters.PhoneSearchIsSubstringIffPlain | api/db/filters.py:172-181 | where `contains` is LIKE, the phone search is a substring search for all numbers if and only if the phone has no wildcard and no backslash |
| RunFilters.PlainPhoneIsSubstring | api/db/filters.py:172-181 | where `contains` is LIKE, a plain phone finds exactly the numbers that contain it |
| RunFilters.PhoneFilterMeans | api/db/filters.py:172-181 | where `contains` is LIKE, blank text asks for nothing and other plain text for the numbers containing it without its outer white space |
| RunFilters.WildcardsAreNotEscaped | api/db/filters.py:172-181 | where `contains` is LIKE, searching for n underscores finds exactly the numbers of at least n characters |
| RunFilters.ItemConditions | api/db/filters.py:108-210 | the branch chain gives the conditions of the item |
| RunFilters.ApplyWorkflowRunFilters | api/db/filters.py:56-215 | the loop's conditions hold on exactly the rows all items ask for |
| ChunkSearch.BuildQuery | api/db/knowledge_base_client.py:359-417 | for every combination of filters the clause selects exactly the chunks of the organization in active documents with the wanted ids, uuids and model; placeholders and parameters match one to one |
| ChunkSearch.AddIds | api/db/knowledge_base_client.py:371-378 | appending ids keeps the next index one past the parameters and every earlier placeholder's meaning |
| ChunkSearch.AddUuids | api/db/knowledge_base_client.py:380-387 | the same for uuids |
| ChunkSearch.AddModel | api/db/knowledge_base_client.py:389-393 | the same for the model |
| ChunkSearch.Extend | api/db/knowledge_base_client.py:371-393 | a condition over exactly the appended parameters refines the selection by exactly that condition |
| ChunkSearch.SelectsWith | api/db/knowledge_base_client.py:371-393 | appending a condition and parameters conjoins it, leaving earlier conditions' meaning |
| EmbedUsage.CounterIsNearlyBounded | api/routes/public_embed.py:151-194 | with at most N overlapping initialisations the counter passes the limit by at most N - 1, serially never; no use is counted without its session |
| EmbedUsage.BoundIsReached | api/routes/public_embed.py:151-194 | some interleaving of N initialisations reaches that bound |
| EmbedUsage.ChecksPassBelowTheLimit | api/routes/public_embed.py:143-153 | a check passes if and only if the token is otherwise valid and has no limit, zero for one, or a count below it |
| EmbedUsage.EmbedClient.IncrementEmbedTokenUsage | api/db/embed_token_client.py:187-199 | adds one to that token's counter alone |
| EmbedUsage.EmbedClient.InitializeEmbedSession | api/routes/public_embed.py:125-205 | succeeds exactly when every check passes; a use is counted and a session stored exactly then; serially no positive limit is passed |
| Foir.LoanIsLargestAffordable | foir-service/main.py:63-66 | the loan is the largest multiple of 10,000 whose instalment fits the available amount, and the lakh figure loses nothing |
| Foir.InstalmentsAreTheAnnuity | foir-service/main.py:8-13 | each tabulated instalment is the nearest rupee to the annuity at 11% over its tenure |
| Foir.QuoteFigures | foir-service/main.py:43-61 | the cap is 70% of income to the nearest paisa and the available amount what obligations leave of it; other tenures are refused |
| Foir.LoanIsMonotone | foir-service/main.py:41-77 | more income or tenure never lowers the loan, more obligations never raise it |
| Foir.CapIsBrokenExactlyByRoundingUp | foir-service/main.py:46-65 | all obligations exceed the rounded cap if and only if rounding lifted the headroom onto an exact instalment, and by at most half a paisa |
| Foir.PaiseAmountsStayWithinCap | foir-service/main.py:46-65 | obligations in whole paise always stay within the cap |
| Foir.RoundingCanBreakTheCap | foir-service/main.py:46-48 | an accepted request whose obligations exceed the cap |

## Left out

- A worker that dies or is cancelled in mid-tick: only raised exceptions are modelled.
- Concurrent status callbacks for one run: each event of a run is one atomic step, as are the check and the set of a connect.
- The conversion of a stored callback id to an integer, whose failure the status handler swallows.
- Claims running while their campaign is deleted, and the deletion of callbacks.
- The ORM's identity map: rows and transactions are modelled at the SQL level.
- Campaign dispatch, slots, the circuit breaker, retry publishing, telephony providers and queues: a call succeeds, fails or does nothing to the modelled tables.
- Interleavings inside one placement, one outcome or one callback request, each a single action: for example a status callback that arrives before the run carries its callback id, which the code ignores.
- Time passing within one placement or one update: the clock is read once.
- Callback id 0, which the status handler takes for none: stored ids start from 1. Providers' metadata is taken to carry no callback id where retries are counted, as no provider of the repository sets one.
- Changes of an organization's settings during a run of the usage protocol, and the rounding of a charge's duration to whole seconds before it is added.
- Daylight saving and ISO parsing: zones are fixed offsets and dates arrive parsed.
- Years outside the range of Python dates: the calendar has no end.
- Floating point: amounts and dollars are reals. The rounding to paise and the flooring are modelled exactly.
- Recording, transcript, cost, annotation and summary fields of the run update: they add only members like those modelled.
- Masking and merging of API keys: a save takes the definition after merging.
- Definitions without a workflow, and the uncommon removal of workflows.
- Origin validation and session expiry: origin validity is an input.
- The vector ordering of chunks, the sort order of runs, and the usage report: they add only easy members.
- Overlapping saves of one workflow: a save is one action, so which definitions two concurrent `update_workflow` transactions leave current is not modelled.
- Which of its two operators `contains` compiles to for the phone search: a parameter of the model.
- Calls the provider took although `initiate_call` raised, because its answer was lost, count as calls whose answer could not be recorded (`RecordRun`): the handler does the same for both.
- Which failing condition a database evaluates first: a filter's `RejectOrError` stands for either outcome.
- Attribute and type names of filters other than those recognised are one value each; stripping removes ASCII white space only.
