# Announcement tool: models and proofs

Dafny models of the announcement tool's approval and delivery pipeline, its subscription lifecycle, and
the text and arithmetic kernels both rest on, with the properties the code promises proved for every
input, every interleaving and every run.

    dafny verify dfyconfig.toml

## What is modelled

**Approval and delivery.** `Announcements` holds the state machine over revisioned rows (draft,
publish_requested, scheduled, published, discarded) as one specification, `Perform`; `Database` holds the
tables as a mutable object with one method for each transaction of `src/core/announcements.ts`, each
proved to do to the tables what the specification says. `Decisions` says for each command when it is accepted,
what it is refused with and what it leaves, column by column. `Outbox` computes the targets of an announcement and
fills the delivery ledger. `Fanout` is one adapter attempt, one batch and the retry ladder; `Health` the
three kinds of problem and their alert keys; `Worker` the worker's own loops (claim, deliver, evaluate,
alert, tick). `Pipeline` puts publishers, the scheduler, any number of workers and alerters, a moving
clock and changing settings into one step relation in which a batch and an alert round stay open over
several steps and may abort after their calls and emails have left the building. `PipelineInvariant`
proves one invariant kept by every step; `PipelineRuns` states what it means for whole runs. `PipelineHistory`
proves that every column of a row is what the last command that wrote it wrote, and so which command is accepted
after which, and whom a publish reaches; `PipelineHealth` when each health scan reports a delivery, and what an
alert round or a tick leaves; `PipelineProgress` that nothing open is ever stuck.
`Worker.PassIsSteps` and `Worker.AlertRoundIsSteps` show that the worker's loops are runs of that step relation.

**Subscriptions.** No subscription call opens a transaction around its statements, so `Subscriptions`
models every select, insert, update, letter and test of double opt-in, change requests, webhook activation
and the two link flows as a statement of its own. `SubscriptionCalls` executes one call with anything at all
happening between its statements, and shows what an undisturbed call amounts to; `SubscriptionTable` is the
table as a mutable object whose methods are the source's calls, proved to execute those statements.
`SubscriptionWorld` interleaves any number of calls in any order, with a moving clock and calls that die
half way, and proves one invariant kept by every step. `SubscriptionRuns` proves who can cause what over all
such runs, and for each promise interleaving breaks, exactly when it holds; `SubscriptionRaces` does so for the
calls that lose a race for an address, `SubscriptionFilters` says who changes a row's filters, and
`SubscriptionHistory` what each statement writes and whose lists a row holds.
`SubscriptionSchedules` reaches each broken promise by a schedule, from every state that allows it.

**Kernels.** `Mentions` (Discord mention line), `Pem` (certificate repair), `Html`, `Markdown` and
`InlineHtml` (escaping and inline markdown), `TagNesting` (when its tags nest), `Spans` (the admin preview's
parser), `UtcDates` (the deadline field), `Bits` and `SafeUrl` (address policy), `RateLimit` (fixed-window
limiter).

## Assumptions

- Each transaction of `src/core/announcements.ts` is atomic and transactions are serial. The row lock at
  `src/core/announcements.ts:74-75` does not stop another transaction that has already read the old latest
  revision, so with one snapshot for each statement the property "only the latest revision leaves draft"
  would not hold. Fan-out batches and alert rounds are not assumed atomic.
- A worker's claim takes only rows no open batch holds (`for update skip locked`), and so does an
  alerter's claim.
- An alert round reads its three health queries and inserts its keys in one step (`Pipeline.Look`); its claim,
  its email and its commit are steps of their own.
- All workers and publishers read one clock that never goes back.
- One SQL statement of a subscription call is atomic; calls are not.
- Identifiers and tokens drawn by one statement differ from each other and from all handed out before.
- Adapters, the mail sender and webhook endpoints are oracles that succeed or fail.
- Strings are sequences of Unicode scalar values; lower-casing maps the ASCII letters.
- Settings have distinct keys and subscriptions distinct identifiers, as the tables' unique keys say.

## Findings

- Alerts for silent destinations fire 30 minutes after publication, while a row that always fails needs at
  least 37 minutes to exhaust its attempts, so a slow destination is reported before its ladder has ended
  (`PipelineRuns.SilenceIsReportedBeforeExhaustion`; compare the comment at `src/core/health.ts:50-53`).
- The repository's README lists five backoff waits; the code waits four times, and the last entry, 30, is
  stamped only on exhaustion.
- `scheduledFor` is also set while a schedule waits for approval and after publishing; the comment at
  `src/core/types.ts:47` is narrower than the code.
- "Never throws already exists" (`src/core/subscribe-flow.ts`) fails exactly when at the call's own statements the
  address has a row, then none, then a row, then none, and a row again at the last, unguarded create
  (`SubscriptionRaces.AlreadyExistsExactlyOnDoubleVanish`). `SubscriptionSchedules.SubscribeThrowsOnDoubleVanish`
  gets there from every state in which the address has a row.
- "Never throws already exists" (`src/core/webhook-flow.ts:100-106`) fails exactly when a registration without a
  secret sees no row of its URL, loses the insert, and sees none again
  (`SubscriptionRaces.RegistrationFailsExactly`, `SubscriptionSchedules.LoserThrowsWhenTheWinnerLeaves`).
- A confirmation or change link can work twice: two calls that both select it before either writes both
  succeed (`SubscriptionSchedules.OverlappingConfirmsBothSucceed`, `OverlappingChangesBothSucceed`);
  `SubscriptionRuns.WorksAgainExactlyUntilTaken` and `SpendsExactlyWhenUndisturbed` give the exact conditions, and
  `LinkWorksOnce` what survives.
- Subscribing again can change a verified row's filters, when the owner's confirmation falls between the
  call's select and its filter update (`SubscriptionSchedules.ConfirmInsideResubscribe`); that is the only way
  (`SubscriptionRuns.ResubscribeChangesVerifiedExactlyWhenLate`).
- A change confirmation can wipe a newer proposal, so that the link just mailed finds nothing
  (`SubscriptionSchedules.ConfirmationWipesNewerProposal`), exactly when the row's last pending write since its
  select stored one (`SubscriptionRuns.ClearWipesExactlyNewerProposals`).
- An unverified webhook row carries for 72 hours a confirmation token that verifies it without a test
  (`SubscriptionSchedules.RegistrationLeavesSuchAToken`, `TokenVerifiesUntested`); no letter or answer ever carries
  that token (`SubscriptionRuns.WebhookTokenIsNeverSent`), and there is no third way
  (`VerifiedExactlyByTestOrToken`).
- The loser of a registration race (`src/core/webhook-flow.ts:107-121`) applies its filters without the secret:
  exactly when its first select saw no row of its URL, its insert met one, its second select found the row, and it
  asked for filters (`SubscriptionRaces.LoserPatchesExactly`, `SubscriptionSchedules.LoserChangesTheWinnersRow`).
  The row did not exist at the first select, and is verified already exactly when it was verified since
  (`SubscriptionFilters.LosersMeetVerifiedRowsExactly`). Otherwise only the secret or the manage link changes a
  webhook row's filters (`WebhookFiltersChangeExactly`).
- Two problems can share an alert key, exactly when the id of one is a text, a colon and the id of the other, and
  the other's target is the first one's target, a colon and that text (`Health.AlertKeysCollideExactly`). So over a
  set of ids keys tell problems apart exactly when no id is a text, a colon and another id of the set
  (`KeysTellApartExactly`). Ids as generated
  (`src/core/ids.ts:9`) never contain a colon, so no two problems of the running system share one
  (`GeneratedIdsTellApart`).
- Selected role ids that are not all digits are posted as text and not read back by
  `mentionedRoleIds` (`Mentions.MentionedIdsAreTheSelectedIds`).
- Inline tags balance but may cross (`InlineHtml.TagsMayCross`); they nest exactly when everything the code and
  link passes capture nests (`TagNesting.NestsExactlyWhenCapturesNest`).
- The preview does not undo the renderer's escape of a double quote (`Html.PreviewUndoesEscapeWithoutQuotes`).
- Years 0 to 99 are refused by the deadline field although they have the right shape
  (`UtcDates.ReadbackCatchesEveryRollover`), and stored instants with a year before 100 or after 9999 are shown
  as text the field then refuses (`UtcDates.OtherYearsAreRefused`).

## Model

| member | source | states |
|---|---|---|
| Outbox.TargetsAreExactlyTheMatches | src/core/outbox.ts:26-55 | a target is chosen exactly when it is an enabled broadcast destination or verified subscription whose filters meet the announcement |
| Outbox.SubscribersAreChosenByTheirLists | src/core/subscriptions.ts:100-110 | a stored subscriber is chosen if and only if its channel is enabled, it is verified, a network and an audience are in common, and the kind and the severity are listed |
| Outbox.DestinationsAreChosenByTheirLists | src/core/outbox.ts:13-35 | a stored destination is chosen if and only if its channel is enabled and its settings meet the content; without lists it takes every kind and every content that has a network |
| Outbox.OnlyTheStoredAreChosen | src/core/outbox.ts:39-55 | nobody else is chosen |
| Outbox.TargetsDistinct | src/core/outbox.ts:39-55 | no target is chosen twice |
| Outbox.CountFanoutTargets | src/core/outbox.ts:39-55 | the loop over settings and subscriptions computes the specified target list |
| Outbox.EnqueueInsertsEveryTarget | src/core/outbox.ts:57-68 | with no earlier row of this revision and kind, the number inserted is the number of targets |
| Lifecycle.DecideKeepsRowOk | src/core/announcements.ts:195-362 | every accepted transition keeps the row invariant: who and when is set in which status, two different people for a scheduled or published critical row |
| Lifecycle.PerformKeepsStore | src/core/announcements.ts:55-362 | every transaction keeps rows, revisions, ledger references and unique keys consistent |
| Lifecycle.NonDraftIsLatest | src/core/announcements.ts:157-163 | only the latest revision of an announcement is ever out of draft |
| Lifecycle.RevisionsAreContiguous | src/core/announcements.ts:71-82 | the revisions of an id are exactly 1 to n and share one slug |
| Lifecycle.PlainScanIsLatestScan | src/core/queries.ts:6-66 | filtering rows by a status other than draft gives the same rows as filtering the latest revisions |
| Lifecycle.DraftScanNeedsLatest | src/core/queries.ts:40-55 | for drafts the two scans agree if and only if every stored row is a first revision |
| Lifecycle.PublishInsertsEveryTarget | src/core/announcements.ts:129-136 | publishing inserts one ledger row for every target of that transaction and changes no other |
| Lifecycle.SchedulerIsPunctual | src/core/announcements.ts:169-193 | a row the scheduler changes was scheduled and due, becomes published under its approver's name, and no earlier due row was left out |
| Lifecycle.SendDueEffect | src/core/announcements.ts:169-193 | the scheduler publishes exactly the due rows, changes no other row and keeps the tables consistent |
| Lifecycle.SendDueFills | src/core/announcements.ts:169-193 | the scheduler adds exactly the target rows of what it publishes, all pending, and changes no other |
| Text.LowerLetters | src/core/announcements.ts:218-218 | names are compared with each ASCII capital made its small letter and every other character as it is |
| Decisions.UnknownIdIsNotFound | src/core/announcements.ts:71-82 | every command but createDraft is refused for an id without a row, once its arguments are in order |
| Decisions.ArgumentsAreCheckedFirst | src/core/announcements.ts:230-241 | an invalid date, a date that is not in the future and a blank reason are refused before anything is looked up, and nothing else is refused so |
| Decisions.CreateAnswers | src/core/announcements.ts:55-69 | the draft gets the first of the base slug and its numbered forms up to 20 that no row has; without one it is refused, and so for an id that exists |
| Decisions.ReviseAnswers | src/core/announcements.ts:71-82 | accepted if and only if the newest revision is a draft: the next revision under the same slug, every column as written here |
| Decisions.DiscardAnswers | src/core/announcements.ts:95-114 | accepted if and only if it is a draft; only its status changes |
| Decisions.RequestAnswers | src/core/announcements.ts:195-209 | accepted if and only if it is a draft; not critical, it is published under the actor's name, critical, it waits in it |
| Decisions.ScheduleAnswers | src/core/announcements.ts:230-258 | accepted if and only if it is a draft; not critical, it is scheduled, critical, it waits in the actor's name |
| Decisions.ConfirmAnswers | src/core/announcements.ts:211-228 | accepted if and only if a request without a time waits and, when critical, the actor is not its requester under any capitals |
| Decisions.ConfirmScheduleAnswers | src/core/announcements.ts:260-288 | the same for a request with a time |
| Decisions.CancelAnswers | src/core/announcements.ts:290-311 | accepted if and only if it is scheduled or a request with a time; five columns are cleared |
| Decisions.WithdrawAnswers | src/core/announcements.ts:313-337 | accepted if and only if a request waits and the actor is its requester under any capitals, and refused otherwise by the status or as not the requester's |
| Decisions.RejectAnswers | src/core/announcements.ts:339-362 | accepted if and only if a request waits and the actor is not its requester; who and why are stored |
| AuditReplay.PerformIsLogged | src/core/announcements.ts:50-51 | when the log rebuilds the rows before a transaction, it rebuilds them after it |
| AuditReplay.SendDueIsLogged | src/core/announcements.ts:181-188 | the same for a scheduler batch, whose log actor is not the stored confirmer |
| DatabaseTables.Database.CreateDraft | src/core/announcements.ts:55-69 | the tables become what the specification says, under the first free slug |
| DatabaseTables.Database.ReviseDraft | src/core/announcements.ts:71-82 | the tables become what the specification says: a new revision, or the error for a missing or non-draft id |
| DatabaseTables.Database.DiscardDraft | src/core/announcements.ts:95-114 | the tables and the answer are the specified ones |
| DatabaseTables.Database.RequestPublish | src/core/announcements.ts:195-209 | the tables and the answer are the specified ones: a non-critical draft goes out, a critical one waits |
| DatabaseTables.Database.ConfirmPublish | src/core/announcements.ts:211-228 | the tables and the answer are the specified ones, refusing the requester under any capitalisation |
| DatabaseTables.Database.SchedulePublish | src/core/announcements.ts:230-258 | the tables and the answer are the specified ones |
| DatabaseTables.Database.ConfirmSchedule | src/core/announcements.ts:260-288 | the tables and the answer are the specified ones |
| DatabaseTables.Database.CancelSchedule | src/core/announcements.ts:290-311 | the tables and the answer are the specified ones |
| DatabaseTables.Database.WithdrawPublish | src/core/announcements.ts:313-337 | the tables and the answer are the specified ones |
| DatabaseTables.Database.RejectPublish | src/core/announcements.ts:339-362 | the tables and the answer are the specified ones |
| DatabaseTables.Database.EnqueueDeliveries | src/core/outbox.ts:57-68 | the insert loop gives the specified ledger and counts the rows it added |
| DatabaseTables.Database.PerformPublish | src/core/announcements.ts:116-138 | the row is published, the ledger filled and the log extended as specified |
| DatabaseTables.Database.PublishDueScheduled | src/core/announcements.ts:169-193 | the loop sends a due batch in order and leaves the specified tables |
| Fanout.AttemptClimbs | src/worker/fanout.ts:75-110 | one attempt moves a row one rung up: delivered, failed with the next wait, or exhausted at the fifth |
| Fanout.SuccessWrites | src/worker/fanout.ts:75-89 | what a success writes, column by column, the note up to 200 characters included |
| Fanout.FailureWrites | src/worker/fanout.ts:90-98 | what a failure writes: the message up to 500 characters, and the wait of 2, 5, 10, 20 or 30 minutes its attempt calls for |
| Fanout.TurnWrites | src/worker/fanout.ts:40-112 | a row whose announcement is missing is given up without a call, a row without an adapter stays as it is, any other is tried and counted |
| Fanout.TurnsWriteEach | src/worker/fanout.ts:40-112 | a pass writes each claimed row whose announcement exists and whose channel has an adapter exactly once, as its own call ended, and counts the calls that worked and those that threw |
| Fanout.WriteClimbs | src/worker/fanout.ts:43-110 | every row a batch writes was stored, gains exactly one attempt, stays on the ladder and waits at most 20 minutes or is finished |
| Fanout.CommitSpends | src/worker/fanout.ts:33-114 | a commit keeps every row on the ladder and lowers the attempts left by at least the number of rows it wrote |
| Fanout.CommitWaits | src/worker/fanout.ts:6-7 | after a commit every unfinished row of a channel with an adapter is due by its old deadline or within the longest wait, 20 minutes, of the batch |
| Fanout.TickSpends | src/worker/tick.ts:29-61 | any pass, whatever is due, lowers the attempts left on the rows of channels with adapters by at least its claim, moves their deadlines by at most 20 minutes, leaves the other rows as they are, and changes nothing when it claims nothing |
| Fanout.MarkSpends | src/worker/tick.ts:29-61 | between two moments 20 minutes apart, with any passes in between, an attempt is spent while any are left |
| Fanout.TicksDrainTheOutbox | src/worker/tick.ts:29-61 | passes at any cadence of a clock that never goes back finish every row of a channel with an adapter, whatever the adapters answer, once as many of them as there are attempts left on such rows lie at least 20 minutes apart; rows of switched-off channels stay as they were |
| Fanout.SteadyTicksDrainTheOutbox | src/worker/main.ts:50-55 | a pass every so many milliseconds, such as 15 seconds, finishes every row of a channel with an adapter within 20 minutes of passes for each attempt left, and touches no other row |
| Health.AlertKeysCollideExactly | src/core/alerts.ts:6-8 | two problems share a key if and only if they are the same, or agree in kind, channel and revision while the id of one is a text, a colon and the id of the other, and the target of the other is the target of the one, a colon and that text |
| Health.AlertKeyInjective | src/core/alerts.ts:6-8 | two problems with colon-free announcement ids have the same key only when they are the same, whatever the target contains |
| Health.KeysTellApartExactly | src/core/alerts.ts:6-8 | over a set of announcement ids a key names one problem, whatever the targets, if and only if no id of the set is a text, a colon and an id of the set |
| Health.GeneratedIdsTellApart | src/core/ids.ts:9-9 | ids as they are generated meet that condition |
| Worker.SelectClaim | src/worker/fanout.ts:34-38 | the claim is due rows of known channels that no other worker holds locked, oldest first, at most one batch, none skipped for a later one |
| Worker.HandleOne | src/worker/fanout.ts:40-112 | one turn of the loop writes what the batch specification writes and counts as it counts |
| Worker.HandleAll | src/worker/fanout.ts:40-112 | the loop leaves the ledger, delivered and failed counts of the whole pass |
| Worker.RunFanoutOnce | src/worker/fanout.ts:15-116 | claim, deliver, commit: the ledger gains exactly the writes of the pass over the claim |
| Worker.EvaluateChannelHealth | src/core/health.ts:12-71 | the three scans report exactly the specified problems |
| Worker.DispatchHealthAlerts | src/core/alerts.ts:15-63 | every problem key is noted; those not yet notified are in the one email and stamped only if it went out |
| Worker.RunTick | src/worker/tick.ts:29-61 | scheduler, fan-out, alerts in that order, a failing scheduler stopping neither of the others |
| Worker.DeliverAndAlert | src/worker/tick.ts:49-58 | one tick's fan-out and alerts leave the specified tables and counts |
| PipelineHealth.TickLeaves | src/worker/tick.ts:49-58 | a tick tries the claimed rows once and counts them, moves no other row, and alerts on the ledger after that |
| Worker.AlertRoundIsSteps | src/core/alerts.ts:15-63 | an uninterrupted alert round is a look, a claim, an email and a commit of the step relation, or an aborted email |
| Worker.PassIsSteps | src/worker/fanout.ts:33-114 | an uninterrupted pass is a begin, one step for each claimed row, and a commit of the step relation |
| PipelineInvariant.StepKeepsInv | src/worker/fanout.ts:33-114 | every step of publishers, scheduler, workers, alerters, clock and operators keeps the global invariant |
| PipelineInvariant.RunKeepsInv | src/worker/fanout.ts:15-116 | every state of every run satisfies the invariant |
| PipelineInvariant.HandleKeepsCalls | src/worker/fanout.ts:75-98 | a turn's adapter call is accounted for by its uncommitted write |
| PipelineInvariant.AbortKeepsCalls | src/worker/fanout.ts:33-114 | an aborted batch leaves its calls accounted for as lost |
| PipelineInvariant.CommitKeepsTries | src/worker/fanout.ts:100-112 | a commit extends each row's attempt history along the backoff ladder |
| PipelineInvariant.CommitKeepsAlerts | src/core/alerts.ts:41-62 | the commit that stamps a key is the first committed email to report it |
| PipelineRuns.FourEyes | src/core/announcements.ts:116-362 | whenever an adapter is called for a critical announcement, one publisher asked for that revision, another whose lower-cased name differs approved it later, nobody took it back in between, and the content delivered is the content asked for |
| PipelineRuns.RunBacksEveryRow | src/core/announcements.ts:195-288 | in every state the past of a run contains the request, and for scheduled and published rows the approval, that a critical row's columns claim |
| PipelineRuns.PublishingFillsTheOutbox | src/core/outbox.ts:57-68 | a step that publishes adds exactly that transaction's targets, each once, all pending, and touches no other ledger row |
| PipelineRuns.SendingFillsTheOutbox | src/core/announcements.ts:169-193 | a scheduler step publishes scheduled rows and adds exactly their targets, all pending, and touches no other ledger row |
| PipelineRuns.MissingAnnouncementIsUnreachable | src/worker/fanout.ts:43-54 | a worker never meets a ledger row whose announcement is missing or unpublished |
| PipelineRuns.LogRebuildsRows | src/core/announcements.ts:50-51 | in every state of every run, replaying the audit log from empty gives status, requester and confirmer of every row |
| PipelineRuns.LogOnlyGrows | src/core/announcements.ts:50-51 | the audit log is append-only |
| PipelineRuns.PublishedIsFinal | src/core/announcements.ts:71-82 | content is immutable, rows are never deleted, and a published row is never left or rewritten |
| PipelineRuns.FinishedIsFinal | src/worker/fanout.ts:34-38 | delivered and exhausted ledger rows stay exactly as they are |
| PipelineRuns.OneCommittedSuccess | src/worker/fanout.ts:84-98 | after a committed success no later commit writes that row |
| PipelineRuns.ClaimsAreDisjoint | src/worker/fanout.ts:34-38 | no two open batches hold the same row and none holds a finished one |
| PipelineRuns.EveryCallIsAccountedFor | src/worker/fanout.ts:33-114 | adapter calls for a row are its attempts, at most five, plus the aborted batches that held it, plus the one in flight |
| PipelineRuns.CommitsDrain | src/worker/fanout.ts:33-114 | a committed batch whose channels all have adapters uses up an attempt for every row it claimed |
| PipelineRuns.ExhaustionTakes37Minutes | src/worker/fanout.ts:6-7 | an exhausted row was tried exactly five times over at least 37 minutes, all after its publication |
| PipelineRuns.SilenceIsReportedBeforeExhaustion | src/core/health.ts:50-64 | between 30 and 37 minutes after publication every undelivered destination is reported silent although none can be exhausted |
| PipelineRuns.OneAlertPerProblem | src/core/alerts.ts:41-62 | each key is in at most one committed email and is marked notified exactly when there is one |
| PipelineRuns.FailedAlertIsRetried | src/core/alerts.ts:41-62 | a failed or abandoned round leaves every key it held claimable |
| PipelineRuns.AlertedFailureWasApproved | src/core/alerts.ts:15-63 | an alert about an exhausted critical delivery names a row tried five times over 37 minutes after two people approved that content |
| PipelineHistory.ColumnsHoldTheLastWrites | src/core/announcements.ts:55-362 | in every state of every run status, content, author, requester, time, confirmer, publication time and rejection of a row are what the last command or send that wrote that column wrote |
| PipelineHistory.AcceptedExactlyAfter | src/core/announcements.ts:71-362 | over all runs, a command is accepted if and only if its arguments are in order and the last command on the newest revision allows it: a withdrawal after a request or schedule by the same person, a rejection or approval by another one, a cancellation after a schedule or its approval, the rest on a draft |
| PipelineHistory.WithdrawnByItsRequester | src/core/announcements.ts:313-337 | a withdrawal that succeeds follows a request or schedule of that revision and content by the same lower-cased name, with nothing taken back in between |
| PipelineHistory.SchedulerSendsTheDueSoonestFirst | src/core/announcements.ts:169-193 | over all runs, a scheduler step sends scheduled rows whose time has come, soonest first and at most a batch, and leaves one out only for a full batch of sooner ones |
| PipelineHistory.WorkersClaimTheOldestDue | src/worker/fanout.ts:34-38 | over all runs, a worker claims unfinished, due deliveries of its channels that no open batch holds, oldest first and at most its limit, and leaves one out only for a full batch of older ones |
| PipelineHistory.PublishReachesExactlyTheWilling | src/core/outbox.ts:39-68 | a publish gives a stored subscriber an outbox row if and only if, as its row stood in that transaction, its channel is enabled, it is verified and its four lists meet the content |
| PipelineHistory.PublishReachesExactlyTheDestinations | src/core/outbox.ts:39-68 | the same for a stored destination and its settings |
| PipelineHealth.ScansReportExactly | src/core/health.ts:12-71 | each of the three scans reports a destination if and only if the columns of its deliveries say so, with the windows written out |
| PipelineHealth.GivenUpIsReportedExactly | src/core/health.ts:15-26 | over all runs, a delivery is reported as exhausted if and only if its fifth committed attempt failed and began less than 30 minutes and the window ago |
| PipelineHealth.SilenceIsReportedExactly | src/core/health.ts:50-70 | over all runs, a delivery is reported as silent if and only if it is unfinished and its announcement went out between 30 minutes and the window ago |
| PipelineHealth.RoundNotifiesWhatItSaw | src/core/alerts.ts:15-63 | over all runs, a round that looked, claimed, mailed with a working sender and committed leaves every problem it saw marked notified, unless another alerter had its key locked at the claim |
| PipelineHealth.GivenUpIsAlerted | src/core/alerts.ts:15-63 | so a fifth failure is alerted by such a round inside that window |
| PipelineHealth.RoundStampsExactly | src/core/alerts.ts:15-63 | an uninterrupted round notes what it saw in the last 24 hours, and stamps what is not stamped yet if and only if the email went out |
| PipelineHealth.RoundCountsExactly | src/core/alerts.ts:15-63 | the problems a round reports are as many as the keys it stamped; without recipients it changes nothing |
| PipelineProgress.PeopleAreFree | src/core/announcements.ts:55-362 | every command can be tried in every state, time can pass, and settings, subscribers and channels can change to anything the tables allow |
| PipelineProgress.IdleWorkersMayBegin | src/worker/fanout.ts:33-38 | in every state an idle worker has a claim to begin with, and the scheduler a due batch |
| PipelineProgress.OpenBatchesMayGoOn | src/worker/fanout.ts:33-112 | in every state of a run an open batch can handle its next row whatever the adapter answers, or commit, and can die without a trace in the tables |
| PipelineProgress.OpenRoundsMayGoOn | src/core/alerts.ts:15-63 | in every state of a run an open alert round can take its next statement or die, and a new one can begin |
| PipelineProgress.NoEmptyMail | src/core/alerts.ts:51 | no alert email of a run is sent without a problem to report |
| Subscriptions.StatementAdvances | src/core/subscribe-flow.ts:47-156 | a call stays among its own statements and ends after at most nine, however they interleave |
| Subscriptions.StatementKeepsTable | migrations/001_init.sql:25-38 | no statement breaks a unique key, whatever it draws: it fails instead |
| Subscriptions.ThrowsExactlyOnDoubleVanish | src/core/subscribe-flow.ts:47-138 | the retry ends in "already exists" if and only if its statements meet the row, miss it, meet it, miss it again and meet it at the last create |
| SubscriptionCalls.AddressIsNormal | src/core/subscribe-flow.ts:110-119 | normalising an address twice is normalising it once, so the retry may start over |
| SubscriptionHistory.AddressIsLowered | src/core/subscribe-flow.ts:119-119 | an address is stored without the white space around it and with its ASCII capitals made small, character by character |
| SubscriptionHistory.EmptyListsAreRefused | src/core/subscriptions.ts:66-68 | a write is refused if and only if a given list is empty, whichever of the four |
| SubscriptionHistory.EmptyListsThrow | src/core/subscriptions.ts:47-49 | every insert throws for an empty list and changes nothing |
| SubscriptionHistory.UpdateMergesLists | src/core/subscriptions.ts:63-77 | each given list replaces the stored one, each other list stays, and nothing else of the table changes |
| SubscriptionHistory.InsertEndsExactly | migrations/001_init.sql:25-38 | an insert is refused for an empty list, else it conflicts if and only if the identifier, the address or one of the two drawn tokens is taken, else it is stored |
| SubscriptionHistory.InsertStartsFromDefaults | src/core/subscriptions.ts:43-61 | a new row is unverified, holds the drawn tokens, a secret for a webhook only, and for each list the given one or the default written out |
| SubscriptionHistory.TokenUpdatesWrite | src/core/subscribe-flow.ts:75-156 | verifying spends the confirmation token, a reissue starts a new one, a proposal stores its lists and its token, clearing removes them; each changes those columns of one row and nothing else |
| SubscriptionHistory.TokenConflictsExactly | migrations/005_verify_token.sql:1-1 | a reissued or proposed token is refused if and only if another row holds it in the same column |
| SubscriptionHistory.LinksLiveSeventyTwoHours | src/core/subscriptions.ts:88-93 | a token is found for 72 hours, to the millisecond |
| SubscriptionHistory.ListsHoldTheLastGiven | src/core/subscriptions.ts:43-77 | in every state of every run each list of a row is the one given by the last write that gave it, or the default when none did |
| SubscriptionCalls.DriveLeavesTheLast | src/core/subscribe-flow.ts:47-156 | a call, whatever comes between its statements, leaves the table, letters and log its last statement leaves |
| SubscriptionCalls.UndisturbedCallIsRun | src/core/subscribe-flow.ts:47-156 | a call nothing comes between leaves the table, letters, log and answer of its closed form, branch by branch |
| SubscriptionStore.SubscriptionTable.CreateSubscription | src/core/subscriptions.ts:43-61 | inserts the specified row, throws on an empty list, or reports the conflict when the address or another unique key is taken |
| SubscriptionStore.SubscriptionTable.UpdateSubscriptionFilters | src/core/subscriptions.ts:63-77 | merges the given lists into the row's filters, or does nothing when the row is gone |
| SubscriptionStore.SubscriptionTable.VerifySubscription | src/core/subscriptions.ts:79-81 | marks the row verified and clears its token, or does nothing when the row is gone |
| SubscriptionStore.SubscriptionTable.UpdateExistingAndNotify | src/core/subscribe-flow.ts:47-97 | executes the specified statements, whatever other calls do between them: the vanished row, the retry, the last create, the verified and the unverified branch |
| SubscriptionStore.SubscriptionTable.StartEmailSubscription | src/core/subscribe-flow.ts:99-138 | executes the specified statements, whatever other calls do between them, falling through to the existing row when the insert loses the race |
| SubscriptionStore.SubscriptionTable.ConfirmSubscription | src/core/subscribe-flow.ts:140-145 | executes its select and update, whatever comes between them |
| SubscriptionStore.SubscriptionTable.ConfirmFilterChange | src/core/subscribe-flow.ts:147-156 | executes its select and two updates, whatever comes between them |
| SubscriptionStore.SubscriptionTable.RunVerification | src/core/webhook-flow.ts:139-182 | tests the endpoint and marks the row only on a 2xx answer, whatever comes between |
| SubscriptionStore.SubscriptionTable.RegisterWebhook | src/core/webhook-flow.ts:43-131 | executes every branch of ownership, policy, race and test, whatever comes between its statements |
| SubscriptionStore.SubscriptionTable.PatchAsLoser | src/core/webhook-flow.ts:107-121 | the loser of the insert race applies its filters to the winner's row without secret or test, or fails when that row has vanished |
| SubscriptionStore.SubscriptionTable.SendWebhookTest | src/core/webhook-flow.ts:191-208 | finds the row by its manage token and tests it |
| SubscriptionStore.SubscriptionTable.UnsubscribeByToken | src/core/tokens-flow.ts:4-13 | finds the row by its token, then deletes it and logs the deletion together |
| SubscriptionStore.SubscriptionTable.UpdateFiltersByToken | src/core/tokens-flow.ts:15-28 | refuses empty lists first, then changes the filters of the row with that token |
| SubscriptionWorld.FreshNames | src/core/ids.ts:10-13 | a statement draws four names, no two alike and none handed out before |
| SubscriptionWorld.StepKeepsWorld | src/core/subscribe-flow.ts:47-156 | every statement of every call, begun, continued or given up, keeps keys unique, letters private and what calls hold between statements true to the history |
| SubscriptionWorld.RunKeepsWorld | src/core/subscriptions.ts:43-93 | so does every run of interleaved calls with fresh draws |
| SubscriptionWorld.CallersAreFree | src/core/subscribe-flow.ts:47-156 | any call can be made at any time, an open one can die and leaves what it wrote, and time can pass |
| SubscriptionWorld.OpenCallsCanStep | src/core/subscribe-flow.ts:47-156 | an open call is never stuck |
| SubscriptionRuns.RunsAsDriven | src/core/subscribe-flow.ts:47-156 | a call that ended in a run of interleaved statements is the call above, meeting what its statements met there: after each statement the table, letters and log are the run's, and the answer is the same |
| SubscriptionRuns.KeysAreUnique | migrations/001_init.sql:25-38 | in every state of every interleaved run addresses and tokens are unique and no token is of both kinds |
| SubscriptionRuns.LettersArePrivate | src/core/subscribe-flow.ts:47-97 | in every state a letter carrying one of a row's live tokens went to that row's own address |
| SubscriptionRuns.EmailVerifiedOnlyByOwnToken | src/core/subscribe-flow.ts:140-145 | under every interleaving an email row becomes verified only by a call that found the row's own token stored, less than 72 hours after a subscribe call with its address drew it; letters with that token only ever go to that address |
| SubscriptionRuns.VerifiedExactlyByTestOrToken | src/core/webhook-flow.ts:139-208 | an unverified row becomes verified if and only if a call updates it after its test was answered with 2xx, or after finding the row's stored, unexpired confirmation token |
| SubscriptionRuns.WebhookTokenIsNeverSent | src/core/subscriptions.ts:52-58 | no letter and no answer ever carries a webhook row's confirmation token |
| SubscriptionSchedules.TokenVerifiesUntested | src/core/subscribe-flow.ts:140-145 | in every state, presenting a stored, unexpired token verifies its row without a test, a webhook row too |
| SubscriptionSchedules.RegistrationLeavesSuchAToken | src/core/subscriptions.ts:52-58 | every fresh registration leaves such a token with its webhook row for 72 hours |
| SubscriptionRuns.LinkWorksOnce | src/core/subscribe-flow.ts:140-156 | once a call has spent a confirmation or change link, every call whose select comes later is refused and changes nothing |
| SubscriptionRuns.WorksAgainExactlyUntilTaken | src/core/subscribe-flow.ts:140-156 | a link found once is found again if and only if it has not expired and no call's write has taken it away since |
| SubscriptionRuns.SpendsExactlyWhenUndisturbed | src/core/subscribe-flow.ts:140-156 | a call's write meets the token its select found if and only if no other call's write took it away in between |
| SubscriptionRuns.SharedLinksOverlap | src/core/subscribe-flow.ts:140-156 | two calls that both spend one link overlap: the write of the first falls between the select and the write of the second |
| SubscriptionSchedules.OverlappingConfirmsBothSucceed | src/core/subscribe-flow.ts:140-145 | in every state in which a link works, two calls that both select before they write both succeed |
| SubscriptionSchedules.OverlappingChangesBothSucceed | src/core/subscribe-flow.ts:147-156 | so do two change confirmations |
| SubscriptionRuns.FiltersChangeExactlyByPatches | src/core/subscriptions.ts:63-77 | a row's filters change if and only if a call's update names it with lists that are not empty and new to it |
| SubscriptionRuns.ResubscribeChangesVerifiedExactlyWhenLate | src/core/subscribe-flow.ts:47-97 | subscribing again changes a verified row's filters if and only if the call saw the row unverified at its select, the row was verified before the call's filter update, and the lists are new; it never touches address or verification |
| SubscriptionFilters.EmailFiltersChangeExactly | src/core/subscribe-flow.ts:47-156 | an email row's filters change if and only if lists that are not empty and new to it are written by its own manage link, by its own change link with what was proposed less than 72 hours before it was found, or by a subscribe call for its address that saw the row unverified |
| SubscriptionRuns.UndisturbedResubscribeIsHarmless | src/core/subscribe-flow.ts:47-97 | so a subscribe call during which nobody verifies the row changes no verified row's filters |
| SubscriptionSchedules.ConfirmInsideResubscribe | src/core/subscribe-flow.ts:85-97 | in every state with an unverified row whose link works, a confirmation inside a subscribe call leaves a verified row with the new filters |
| SubscriptionRuns.VerifiedFiltersChangeOnlyByLink | src/core/subscribe-flow.ts:147-156 | a verified email row's filters change only by its own manage link, by its own change link to exactly what was proposed less than 72 hours before, or by such a late subscribe call |
| SubscriptionRuns.ClearWipesExactlyNewerProposals | src/core/subscribe-flow.ts:147-156 | the last write of a change confirmation wipes a newer proposal if and only if the row's last pending write since the call's select stored a proposal |
| SubscriptionSchedules.ConfirmationWipesNewerProposal | src/core/subscribe-flow.ts:147-156 | in every state with a verified row whose change link works, a proposal made between that select and last write is wiped, and the link mailed for it finds nothing |
| SubscriptionRaces.AlreadyExistsExactlyOnDoubleVanish | src/core/subscribe-flow.ts:47-138 | over all runs, a subscribe call ends in "already exists" if and only if it asks for no empty list and at its own statements the table shows the address, then not, then again, then not, and again at the last create |
| SubscriptionSchedules.SubscribeThrowsOnDoubleVanish | src/core/subscribe-flow.ts:60-67 | a schedule that ends so, from every state in which the address has a row: it is unsubscribed and subscribed again twice between the statements |
| SubscriptionRaces.LoserPatchesExactly | src/core/webhook-flow.ts:107-121 | over all runs, a registration without a secret updates a row if and only if it asks for filters, its first select saw no row of its URL, its insert met one, and its second select found that row |
| SubscriptionRaces.LosersMeetAConflict | src/core/webhook-flow.ts:95-106 | what the insert met is the unique key of the URL: with fresh names nothing else makes it fail |
| SubscriptionRaces.RegistrationFailsExactly | src/core/webhook-flow.ts:107-115 | over all runs, a registration ends in "already exists" if and only if it showed no secret, its first select saw no row of its URL, its insert met one, and its second select found none again |
| SubscriptionFilters.LosersReachOnlyNewRows | src/core/webhook-flow.ts:107-121 | the loser of a registration race patches only a row that did not exist when it first looked |
| SubscriptionFilters.LosersMeetVerifiedRowsExactly | src/core/webhook-flow.ts:107-121 | that row is verified already if and only if it was verified between the loser's first select and its update |
| SubscriptionFilters.WebhookFiltersChangeExactly | src/core/webhook-flow.ts:43-131 | a webhook row's filters change if and only if lists that are not empty and new to it are written by a registration that showed its secret, by its own manage link, or by such a loser |
| SubscriptionSchedules.LoserChangesTheWinnersRow | src/core/webhook-flow.ts:107-121 | from every state in which the URL has no row, two registrations lead to the winner's row holding the loser's filters |
| SubscriptionSchedules.LoserThrowsWhenTheWinnerLeaves | src/core/webhook-flow.ts:107-115 | from every such state, the loser throws when the winner unsubscribes before its second select |
| SubscriptionRuns.RowsLeaveExactlyWithAnEntry | src/core/tokens-flow.ts:4-13 | a row that was ever inserted is stored if and only if no deletion is logged for it |
| RateLimit.Limiter.Consume | src/core/rate-limit.ts:56-86 | increments the window's counter, prunes old rows, and answers by the limit with the wait to the next window |
| RateLimit.CallCountsAndPrunes | src/core/rate-limit.ts:56-86 | one call adds one to the counter of its own window, drops the rows whose window began more than a day ago, and changes nothing else |
| RateLimit.WaitReachesNextWindow | src/core/rate-limit.ts:56-86 | the advised wait is between a second and a window, ends in a later window, and one second less would not |
| RateLimit.LiveCounterIsExact | src/core/rate-limit.ts:56-86 | with windows of at most a day and a clock that never goes back, a live counter is exactly the calls its window received, whatever was pruned |
| RateLimit.WindowAllowsUpToLimit | src/core/rate-limit.ts:56-86 | each key gets exactly the smaller of its limit and its calls through in every aligned window |
| RateLimit.SpanAllowsTwiceTheLimit | src/core/rate-limit.ts:56-86 | no span of one window length lets more than twice the limit through |
| RateLimit.PruningIsSafeUpToADay | src/core/rate-limit.ts:43-43 | pruning never reaches a window still in use exactly when windows are at most a day |
| Mentions.StripRoleMentions | src/core/discord-mentions.ts:92-99 | the do-while loop ends and returns the fixed point, collapsed and trimmed |
| Mentions.PassShrinks | src/core/discord-mentions.ts:92-99 | a pass that changes the string makes it shorter |
| Mentions.StrippedIsClean | src/core/discord-mentions.ts:92-99 | no mention or ping of either pattern is left, even after the whitespace is collapsed and trimmed |
| Mentions.StrippingIsIdempotent | src/core/discord-mentions.ts:92-99 | stripping twice is stripping once |
| Mentions.MentionIsThePattern | src/core/discord-mentions.ts:96-96 | the matcher finds a mention exactly where the first pattern does |
| Mentions.PingIsThePattern | src/core/discord-mentions.ts:96-96 | and a ping exactly where the second one does |
| Mentions.MentionsAreCutOut | src/core/discord-mentions.ts:92-99 | one replacement keeps everything before the first mention, cuts it out, and does the same after it |
| Mentions.PingsAreCutOut | src/core/discord-mentions.ts:92-99 | and so for pings |
| Mentions.RunsBecomeOneBlank | src/core/discord-mentions.ts:98-98 | a run of white space becomes one blank and everything else is kept |
| Mentions.LineMentionsExactlyThePicks | src/core/discord-mentions.ts:114-135 | with digit ids, what Discord resolves in the line is @everyone and @here exactly when selected, and then one mention for each entry of the stored roles that is named, no built-in and selected, in their order and multiplicity |
| Mentions.RoleIsMentionedExactly | src/core/discord-mentions.ts:101-135 | a role is mentioned if and only if its id is selected and some stored entry with a name has it; nothing selected mentions nobody |
| Mentions.NoLineExactlyWhenNothingToSay | src/core/discord-mentions.ts:131-135 | the line is undefined if and only if the stripped prefix is empty and nothing configured is selected; otherwise it begins with that prefix |
| Mentions.MentionedIdsAreThePicks | src/core/discord-mentions.ts:138-144 | mentionedRoleIds gives the ids of those entries if and only if they all consist of digits |
| Mentions.LineMentionsExactlyTheSelection | src/core/discord-mentions.ts:114-135 | with digit ids, what Discord resolves in the line is exactly the selected built-ins and then the selected roles in config order |
| Mentions.MentionedIdsAreTheSelectedIds | src/core/discord-mentions.ts:138-144 | mentionedRoleIds equals the selected configured ids in config order if and only if they all consist of digits |
| Pem.NormalizePem | src/db/connect.ts:316-334 | the unescaping and the loop compute the specified repair |
| Pem.SplitBundle | src/db/connect.ts:364-375 | the splitting loop returns the complete blocks in order |
| Pem.FailsExactlyWhenTruncated | src/db/connect.ts:316-334 | the repair throws exactly when the text is complete blocks followed by a BEGIN without an END |
| Pem.RepairIsIdempotent | src/db/connect.ts:316-334 | a repaired bundle is repaired to itself and holds the certificates of the paste, in order |
| Pem.RepairedLinesAreShort | src/db/connect.ts:328-329 | no stretch of the repaired text without a newline has more than 64 characters |
| Pem.OnlyTheCertificatesMatter | src/db/connect.ts:297-315 | kept, lost, added or escaped whitespace, and any text between the blocks short of a marker, do not change the result |
| Pem.PlainBlocksAreOk | src/db/connect.ts:297-315 | certificate bodies and text between them that hold no dash meet the condition of that: no marker hides in them |
| Pem.SplitterFindsEveryBlock | src/db/connect.ts:364-375 | the splitter cuts a repaired bundle into exactly its blocks, as many as the paste had |
| Html.EscapeIsEncode | src/core/render.ts:70-74 | the chain of four replacements is one substitution of each character |
| Html.UnescapeUndoesEscape | src/core/render.ts:137-142 | unescaping an escaped string gives it back, for every string |
| Html.PreviewUndoesEscapeWithoutQuotes | app/admin/preview-render.ts:97-98 | the preview's unescaping gives an escaped string back if and only if it has no double quote |
| Markdown.BoldIsThePattern | src/core/render.ts:166-166 | the matcher captures a text exactly when the bold pattern does |
| Markdown.CodeIsThePattern | src/core/render.ts:167-167 | the matcher captures a text exactly when the code pattern does |
| Markdown.LinkIsThePattern | src/core/render.ts:176-176 | the matcher captures a label and URL exactly when the link pattern does |
| InlineHtml.TagsBalance | src/core/render.ts:164-180 | the converted markdown has as many closing as opening b, code and a tags |
| InlineHtml.QuotesDelimitHrefs | src/core/render.ts:164-180 | every raw double quote in it delimits an emitted href |
| InlineHtml.LinkAnchorQuotesDelimit | src/core/render.ts:194-199 | the same for an entry of the links list |
| InlineHtml.LinkAnchorShowsLabelAndUrl | src/core/render.ts:194-199 | for an http(s) URL without angle brackets or white space the escaped label in an anchor to the percent-encoded URL, and for any other label and URL as escaped text |
| InlineHtml.LinksPointWhereWritten | src/core/render.ts:155-157 | the href of a markdown link is the URL as the author wrote it with its quotes percent-encoded |
| InlineHtml.SafeUntilBracketOrSpace | src/core/render.ts:125-125 | after that encoding an http(s) URL is safe exactly when it is longer than its scheme and has no angle bracket or white space after it; quotes do not matter |
| InlineHtml.TagsMayCross | src/core/render.ts:160-163 | the input on which bold and code tags cross, and what it is converted to |
| TagNesting.CrossingTagsDoNotNest | src/core/render.ts:160-163 | the tags of that output do not nest |
| TagNesting.NestsExactlyWhenCapturesNest | src/core/render.ts:164-180 | for every markdown text, the tags of the output nest if and only if every text the code pass captures nests on its own and so does every label of a safe link the link pass captures |
| Spans.Collect | app/admin/preview-render.ts:55-70 | the loop returns the matches and the text between them |
| Spans.SpansPrintBack | app/admin/preview-render.ts:45-70 | printing the spans gives the text back, for every text |
| Spans.PlainSpansHoldNoMarkup | app/admin/preview-render.ts:45-70 | no plain span contains a match that was overlooked |
| Spans.SpanIsThePattern | app/admin/preview-render.ts:45-53 | a bold, code or link span begins somewhere if and only if its pattern matches there, and has the text and URL it captures |
| Spans.PlainSpansAreNotEmpty | app/admin/preview-render.ts:55-70 | no plain span is empty, except the one that stands for an empty text |
| Spans.HeadingIsThePattern | app/admin/preview-render.ts:32-32 | a line is a heading of a level with a text if and only if the heading pattern captures them |
| Spans.BulletIsThePattern | app/admin/preview-render.ts:33-33 | a line is a bullet if and only if the bullet pattern matches, and its spans are those of the captured text |
| Spans.TagLineIsThePattern | app/admin/preview-render.ts:42-42 | a text is a tag line if and only if that pattern matches it |
| Spans.BlockIsTheFirstPattern | app/admin/preview-render.ts:72-95 | a line becomes the block of the first pattern that matches: heading, bullet, tag line, else a paragraph |
| Spans.LinesJoinBack | app/admin/preview-render.ts:75-75 | the lines are what stands between the newlines, in order |
| Spans.ParseMarkdownBlocks | app/admin/preview-render.ts:72-95 | splitting at blank lines and then at newlines gives the blocks of the plain lines that are not blank |
| Spans.ChunksDoNotMatter | app/admin/preview-render.ts:74-76 | the first split is redundant, for every text |
| UtcDates.YearLength | src/core/datetime.ts:18-18 | the day numbers of consecutive years differ by 365, or 366 in a Gregorian leap year |
| UtcDates.RealDayReadsBack | src/core/datetime.ts:26-34 | a real date is read back as itself |
| UtcDates.ReadbackIsReal | src/core/datetime.ts:26-34 | whatever is read back is a real date and time |
| UtcDates.ReadbackCatchesEveryRollover | src/core/datetime.ts:18-37 | the readback agrees if and only if the components name a real date with a year of 100 or later |
| UtcDates.AcceptedTextIsKept | src/core/datetime.ts:13-39 | exactly the well-shaped real dates are accepted and the stored instant spells the time as typed |
| UtcDates.AcceptsExactlyWrittenDates | src/core/datetime.ts:11-39 | the texts accepted are exactly the real dates of the years 100 to 9999 written out, with or without seconds |
| UtcDates.InputComesBack | src/core/datetime.ts:42-47 | the form shows the minutes that were typed |
| UtcDates.ShowsNothingExactly | src/core/datetime.ts:42-47 | the form is empty exactly for an absent, empty or unreadable instant |
| UtcDates.MinuteComesBack | src/core/datetime.ts:42-47 | what the form shows for an instant with a year from 100 to 9999 is accepted and stored as that instant's minute |
| UtcDates.OtherYearsAreRefused | src/core/datetime.ts:42-47 | what the form shows for an instant with any other year is refused |
| UtcDates.ToIsoIsInjective | src/core/datetime.ts:42-47 | no two instants of the platform's range are printed alike |
| UtcDates.SomeParserReadsIso | src/core/datetime.ts:42-47 | so a parser that reads back what is printed exists |
| Bits.BitByBit | src/core/safe-url.ts:46-53 | the operators & and | work on each bit by itself |
| Bits.MaskClears | src/core/safe-url.ts:52-53 | masking with all but the lowest bits clears exactly those |
| SafeUrl.V4ToIntReads | src/core/safe-url.ts:44-47 | a dotted quad is read as its number |
| SafeUrl.HexDigitsAre | src/core/safe-url.ts:72 | the hexadecimal digits in either case, each worth its place |
| SafeUrl.ParseIntReads | src/core/safe-url.ts:72 | a group is the digits after white space, a sign and 0x, up to the first other character |
| SafeUrl.ForbiddenV4IsAUnion | src/core/safe-url.ts:29-55 | the masked test is membership in the union of the listed intervals |
| SafeUrl.ForbiddenV4Decides | src/core/safe-url.ts:49-55 | an IPv4 address is forbidden exactly when it lies in a listed network, byte by byte |
| SafeUrl.FullFormIsRead | src/core/safe-url.ts:58-74 | eight written groups are read back |
| SafeUrl.ElidedFormIsRead | src/core/safe-url.ts:58-74 | any elided run of zero groups is filled in |
| SafeUrl.DottedFormIsRead | src/core/safe-url.ts:60-65 | six groups and a dotted quad are read back |
| SafeUrl.ElidedDottedFormIsRead | src/core/safe-url.ts:60-74 | elision and a dotted quad together are read back |
| SafeUrl.ForbiddenGroupsDecides | src/core/safe-url.ts:76-100 | an IPv6 address is judged as the IPv4 address it embeds, and by the listed ranges when it embeds none |
| SafeUrl.MappedDecidesAsV4 | src/core/safe-url.ts:82-84 | the mapped form of an IPv4 address is judged as that address |
| SafeUrl.CompatibleDecidesAsV4 | src/core/safe-url.ts:85-87 | so is the compatible form |
| SafeUrl.Nat64DecidesAsV4 | src/core/safe-url.ts:88-90 | so is the NAT64 form |
| SafeUrl.SixToFourDecidesAsV4 | src/core/safe-url.ts:92-94 | so is a 6to4 address, whatever its other five groups are |
| SafeUrl.ElidedSixToFourDecidesAsV4 | src/core/safe-url.ts:92-94 | and one with zero groups elided after the embedded address |

## Left out

- Interleaved statements of one publishing transaction: transactions are taken as serial (see Assumptions), so lock waits, deadlocks and snapshot anomalies do not appear.
- SubscriptionWorld.Next: one SQL statement is one step that reads and writes committed rows; `scripts/add-email-subscriber.ts` and `scripts/reset-test-data.ts`, which operators run to write the table by hand, are not calls of the model.
- DatabaseTables.Database.CreateDraft: the refusals of announcement validation are not modelled; content arrives valid.
- DatabaseTables.Database.ReviseDraft: the same.
- Worker.EvaluateChannelHealth: the wording of each problem's detail is not modelled.
- Health.Issues: the wording of a problem's detail line is not modelled.
- Worker.RunTick: log output and the published list's slugs are not modelled; the announcement behind each entry is.
- SafeUrl.ForbiddenV6: the platform's own validation of address texts, host name rules, DNS lookup and connection pinning are not modelled.
- UtcDates.IsoToUtcInput: the platform's date parser is a parameter that reads back what `toISOString` prints; other date texts are not modelled.
- UtcDates.InputComesBack: rests on that parameter: the platform's own parser is assumed to read back what it prints, as `UtcDates.SomeParserReadsIso` shows a parser can.
- UtcDates.MinuteComesBack: the same.
- UtcDates.OtherYearsAreRefused: the same.
- Fanout.TicksDrainTheOutbox: passes that overlap, as an interval with an asynchronous callback allows, are not in this theorem; `PipelineRuns.CommitsDrain` covers batches that overlap.
- Fanout.SteadyTicksDrainTheOutbox: the same.
- RateLimit.Limiter.Consume: the table is a map; the SQL upsert is one step.
- The statuses and delivery kinds nothing produces: superseded, update, reminder.
- Order and limits of list views, feeds, pages, the compose form, templates and input validation.
- Slug text: a slug is the first free candidate of a numbered series.
- HTTP, SMTP, Discord, Telegram and Signal calls: oracles that succeed or fail, with the note they return.
- Sessions, login, signatures, token randomness and X509 parsing: foreign cryptography.
- Unicode case folding beyond ASCII, UTF-16 surrogates and Unicode normalisation.
- Plain-text, Telegram and email layouts around the inline conversion, and the preview's Telegram and mention parsers.
- Prefix length limits for Discord destinations, recipients and enabled-channel lists, environment loading, migrations and deployment guards: one reading settles them.
