# Roomies backend: a verified model of its durable core

Roomies is a household backend in Go. Its core is a set of database-backed protocols that have to
stay right while several workers, retries, crashes and user requests interleave. This project
models those protocols in Dafny 4.11 and proves what they guarantee, over every run.

Run `dafny verify dfyconfig.toml` to check the whole project.

## What is modelled

| files | part of the system |
|---|---|
| `JobQueue`, `JobStore`, `Worker`, `WorkerLoop`, `Fencing`, `Overtaking` | the job queue with its outbox: leases, generations, retries, dead letters, and the worker loop that reads between transactions |
| `QuietHours`, `Notifications`, `Announcements`, `Subscriptions`, `NotificationStore`, `Deliveries`, `DeliveryRuns` | notification deliveries on top of the queue: fan-out, quiet hours, digests, push targets |
| `DispatchLocks`, `DispatchSerial`, `DispatchRuns` | the house-row lock between pushes, event streams, member removal and revocation, one statement at a time, the atomic dispatch a committed session amounts to, and what ends a subscription or a membership |
| `Scheduler`, `ScheduleRuns` | recurring house events and what they fire |
| `Invitations`, `InvitationColumns`, `InvitationStore`, `InvitationLife` | invitations, memberships and the sealed link in the outbox |
| `Balances`, `Expenses` | splits, stored expenses, balances and settlement, in integer cents |
| `Limiter` | the sliding-window rate limiter |
| `Idempotency` | the idempotency protocol (modules `Idempotency` and `IdempotencyRuns`) |
| `Retention` | chat messages and the retention run |

Each part has up to three layers. Transactions are functions from rows to rows: a transaction is
atomic, and its guard is the one in the WHERE clause of its update. Classes carry the same tables
as fields and run the transactions statement by statement, with loops, in-place updates and
rollbacks, and are proved equal to those functions; beside that, each method's contract says column by
column what it writes and when it fails. A step machine interleaves the transactions of
any number of parties, and the theorems are about all its runs.

Assumptions. Each call brings its own clock reading; clocks of different workers are unrelated, and
only a worker's settling call is assumed not to read an earlier instant than its own acquire did.
Lease durations are positive in the worker protocol, as the worker's constructor makes them; the
scheduler shows what happens otherwise. Provider calls answer anything: accept, accept and revoke,
refuse, refuse until an instant. A recurrence is a finite set of instants (RFC 5545, sections 3.3.10
and 3.8.5.1, with the bound the validation requires). Ids drawn at random are parameters, and a taken
one aborts the transaction. Integers are unbounded; the two `FitInt64` theorems say when Go's are wide
enough.

## What the code does that its comments do not say

- Attempts are not bounded by max_attempts: only recorded failures are (`Fencing.RetryBudget`).
  `Fencing.CrashesOutrunTheBudget` gives the runs, and `Fencing.BudgetIsPassedIff` says exactly when
  it happens: a lease numbered at least max_attempts was abandoned and the job handed out again.
- Accept and revoke of an overdue invitation mark it expired and then return an error without
  committing, so it stays pending until a sweep or an availability check
  (`InvitationLife.OverdueMarkIsRolledBack`; `InvitationLife.ExpiresExactlyWhenSwept` says exactly which
  steps do expire one).
- Quiet hours with start = end put a delivery off and still land inside the window
  (`QuietHours.LandsOutsideQuietHours` gives the exact condition, `QuietHours.AllDayWindowWaitsForItsEnd`
  where it lands).
- An expense update reads its row before it locks the house. A concurrent change of the amount can
  leave splits that do not add up; `Expenses.StaleUpdateBalancesIff` says exactly when.
- A request that crashes, whose settling write is lost, or whose insert was applied but reported as
  failed makes its idempotency key unusable for good. `IdempotencyRuns.OrphanedExactlyBy` proves that
  these three and nothing else do so, `IdempotencyRuns.UsableIffNotOrphaned` that every other key stays
  usable.
- The comment on the limiter calls its window fixed; the code keeps a sliding one, and
  `Limiter.NoWindowExceedsItsLimit` holds for every interval of that length.

## Model

| member | source | states |
|---|---|---|
| `JobQueue.JobBackoffRange` | src/backend/internal/repository/jobs.go:288-297 | the backoff is between 1 s and 32 s, exactly 2^(attempt-1) s for attempts 1 to 6 and 32 s from then on |
| `JobQueue.CandidateExists` | src/backend/internal/repository/jobs.go:218-230 | whenever some job is eligible, the select finds one that is first by (available_at, created_at, id) |
| `JobStore.ReliabilityRepository.AcquireNextJob` | src/backend/internal/repository/jobs.go:34-74 | returns nothing exactly when every job is finished, not yet available or held by an unexpired lease; otherwise leases the first by (available_at, created_at, id), with owner, expiry, generation + 1 and attempts + 1, and changes nothing else |
| `JobStore.ReliabilityRepository.CompleteOutboxJob` | src/backend/internal/repository/jobs.go:76-111 | exactly the holder of an unexpired lease with a pending message writes: job finished, message dispatched, sealed link cleared; otherwise nothing is written and the error says which guard failed |
| `JobStore.ReliabilityRepository.FailOutboxJob` | src/backend/internal/repository/jobs.go:121-189 | exactly the holder of an unexpired lease writes: the job is available again at now plus its backoff, or at the provider's instant if that is later, or dead-lettered once the snapshot's attempts reach max_attempts, with its message alike; otherwise nothing changes |
| `JobStore.ReliabilityRepository.ClearOutboxDeliveryPayload` | src/backend/internal/repository/reliability.go:732-755 | at most one row changes, the one with the key, and only in its sealed link, which it no longer has; every other column and row stays |
| `JobQueue.RedactTouchesOneRow` | src/backend/internal/repository/reliability.go:732-755 | under the unique dedupe key, clearing by key rewrites at most the one row with it, keeps keys unique and is idempotent |
| `JobStore.ReliabilityRepository.Enqueue` | src/backend/internal/repository/reliability.go:696-724 | message and job are inserted together, or neither when an id or key is taken |
| `Worker.LiveIsHeld` | src/backend/internal/repository/jobs.go:252-275 | the owner, generation, unfinished and expiry guard of a settling update holds exactly for the snapshot of the newest lease, unsettled and unexpired |
| `Worker.SettlesIffLive` | src/backend/internal/worker/worker.go:107-181 | a settling call of the worker protocol succeeds if and only if its snapshot is live, and its outbox update is never the part that is rejected |
| `Worker.SettledTables` | src/backend/internal/repository/jobs.go:76-189 | a settling call that succeeds changes one job and its own message, as the outcome prescribes, and no other row |
| `Worker.EnqueueKeeps` | src/backend/internal/repository/reliability.go:696-724 | inserting a message with its job keeps the one-to-one link, the row histories and the worker snapshots consistent |
| `Worker.AcquireKeeps` | src/backend/internal/repository/jobs.go:34-74 | handing a job out keeps the invariant: the new lease starts after the previous one ended |
| `Worker.LookKeeps` | src/backend/internal/worker/worker.go:116-119 | the unlocked read of the outbox message keeps the invariant: what a worker remembers can only go stale towards finished |
| `Worker.SettleKeeps` | src/backend/internal/repository/jobs.go:76-189 | a settling call, whether it writes or is fenced off, keeps the invariant and never changes a finished row |
| `Worker.RunKeeps` | src/backend/internal/worker/worker.go:91-181 | every finite interleaving of enqueues, acquires, reads, settlements, redactions and crashes keeps the invariant |
| `Fencing.HeldIntervalsAreDisjoint` | src/backend/internal/repository/jobs.go:34-189 | in every run the held intervals of two leases of one job do not overlap, and each lease is settled at most once, inside its own interval |
| `Fencing.OnlyTheLiveLeaseWrites` | src/backend/internal/repository/jobs.go:76-189 | a settling call changes some row if and only if its snapshot is live; with an old generation or an expired lease no row of any table changes |
| `Fencing.OneLiveHolder` | src/backend/internal/repository/jobs.go:34-74 | two workers never both hold a live snapshot of one job, even with unrelated clocks |
| `Fencing.LostLeaseStaysLost` | src/backend/internal/repository/jobs.go:47-70 | a snapshot that was overtaken, settled or expired never becomes live again in any continuation |
| `Fencing.JobAndOutboxInLockstep` | src/backend/internal/repository/jobs.go:76-189 | every message has exactly one job, is dispatched iff it completed, dead-lettered iff it was dead-lettered and pending otherwise; dedupe keys are unique |
| `Fencing.EmptyIdCompletionNeverWrites` | src/backend/internal/worker/worker.go:120-122 | completing with the empty message id after reading a finished message never writes a row, so lockstep survives it |
| `Fencing.RetryBudget` | src/backend/internal/repository/jobs.go:121-161 | over any run a job records at most max_attempts failures and is dead-lettered only with attempts >= max_attempts |
| `Fencing.RetriesAreSpaced` | src/backend/internal/repository/jobs.go:288-297 | if attempts 1 to k all fail, attempt k + 1 starts at least the sum of their backoffs after the first, (2^k - 1) s for k <= 6 |
| `Fencing.RetriesHeedTheProvider` | src/backend/internal/repository/jobs.go:121-161 | in every run no attempt starts before the instant the failing call of the one before it named, nor inside its backoff |
| `Fencing.RetryIsDueExactlyThen` | src/backend/internal/repository/jobs.go:218-230 | and no later than that: a job that failed is eligible again exactly from the later of the two on |
| `Fencing.SettlementIsRecorded` | src/backend/internal/repository/jobs.go:76-189 | what a run records of a settling call that writes is its instant, the outcome its attempts call for and the instant it named |
| `Fencing.TotalBackoffClosedForm` | src/backend/internal/repository/jobs.go:288-297 | the first k backoffs add up to (2^k - 1) s for k <= 6 and to (63 + 32 (k - 6)) s beyond |
| `Fencing.CrashesOutrunTheBudget` | src/backend/internal/repository/jobs.go:34-74 | acquire does not look at max_attempts: for every n there is a run in which crashes alone carry attempts to n |
| `Fencing.BudgetIsPassedIff` | src/backend/internal/repository/jobs.go:34-74 | in every run a job's attempts exceed max_attempts if and only if a lease numbered at least max_attempts was left unsettled and the job was handed out again |
| `Fencing.SettledLeasesStayInBudget` | src/backend/internal/repository/jobs.go:76-189 | a job none of whose leases was abandoned never passes max_attempts |
| `Overtaking.StepShrinks` | src/backend/internal/repository/jobs.go:218-230 | no step lengthens the queue of waiting jobs ahead of a job that is due, and handing one of them out shortens it |
| `Overtaking.QueueAheadPays` | src/backend/internal/repository/jobs.go:121-161 | over any run the first-time acquisitions of other jobs are paid for one by one by the queue ahead |
| `Overtaking.BoundedOvertaking` | src/backend/internal/repository/jobs.go:218-230 | a due job that still waits has seen at most as many other acquisitions as there were waiting jobs before it; reclaiming expired leases is not counted |
| `Overtaking.AcquiredInTurn` | src/backend/internal/repository/jobs.go:218-230 | when every lease is settled before it expires, a due job is acquired after at most as many acquisitions as there are waiting jobs before it |
| `WorkerLoop.Worker.constructor` | src/backend/internal/worker/worker.go:31-54 | a lease duration that is not positive becomes 30 seconds |
| `WorkerLoop.Worker.Attend` | src/backend/internal/worker/worker.go:124-210 | the verdict on a pending note: an invitation goes out only through its availability check and cipher, a delivery only through an authorized dispatch; a failure leaves deliveries and subscriptions alone, and only the check may expire an invitation |
| `WorkerLoop.LinkIsSentOnlyWhileOpen` | src/backend/internal/worker/worker.go:132-162 | a note with a sealed link is delivered only if its invitation was found available, the link opened and the provider accepted it |
| `WorkerLoop.Worker.Process` | src/backend/internal/worker/worker.go:111-210 | one acquired job ends in exactly one settling call, the one its payload, its message, and the availability check, cipher or push dispatch behind its note call for; deliveries and invitations are left as that verdict leaves them |
| `WorkerLoop.Worker.ProcessNext` | src/backend/internal/worker/worker.go:107-210 | from acquire to settlement the call is an acquire, a look, a redaction if the invitation has just expired, and one settlement of the step machine; from a reachable state and within its lease it succeeds, with verdict and rows explained |
| `WorkerLoop.Worker.RunOnce` | src/backend/internal/worker/worker.go:91-210 | one iteration: a failing scheduler stops it with nothing changed; otherwise at most one occurrence is announced and advanced, one retention run done, and one job taken through protocol steps from the state so reached; within its lease it succeeds, its verdict is explained and its job, message, deliveries and invitations are as that verdict demands |
| `QuietHours.LandsOutsideQuietHours` | src/backend/internal/repository/notifications.go:496-525 | an immediate delivery lands outside the quiet window if and only if the window is absent or start differs from end |
| `QuietHours.QuietIsTheWindow` | src/backend/internal/repository/notifications.go:496-525 | quiet is a local time of day from the first minute of the window up to its last, past midnight when the window wraps |
| `QuietHours.AllDayWindowWaitsForItsEnd` | src/backend/internal/repository/notifications.go:496-525 | with start equal to end the delivery waits for the next end minute, strictly later and within a day |
| `QuietHours.PassesOverOnlyQuietInstants` | src/backend/internal/repository/notifications.go:496-525 | every instant passed over is quiet, so with the previous row the result is the least instant that is not |
| `QuietHours.ImmediateIsIdempotent` | src/backend/internal/repository/notifications.go:496-525 | asking again at the granted instant changes nothing when start differs from end |
| `QuietHours.DigestIsTheNextDigestMinute` | src/backend/internal/repository/notifications.go:496-525 | a digest is due at the least instant strictly after the request on the digest minute, at most a day later |
| `QuietHours.Monotone` | src/backend/internal/repository/notifications.go:496-525 | a later request is never granted earlier, for every preference including start = end |
| `QuietHours.NeverEarly` | src/backend/internal/repository/notifications.go:496-525 | the result is never before the request nor more than a day after it |
| `NotificationStore.NotificationRepository.EnqueueTx` | src/backend/internal/repository/notifications.go:435-486 | tells exactly the members who have not switched the category off, in any order: each without a row for the event gets a delivery due by that user's own preferences, a pending message and a job of eight attempts, each with its own clock reading; it fails, with every insert rolled back, exactly when such a user drew a taken id |
| `Announcements.RecipientsAreTheWilling` | src/backend/internal/repository/notifications.go:435-453 | listed are the members whose stored preferences leave the category on, and those who stored none |
| `Announcements.WhatIsAnnounced` | src/backend/internal/repository/notifications.go:454-483 | a committed announcement gives each listed user without a row exactly the one drawn for that user, column by column, and changes or adds nothing else |
| `Announcements.FailsExactlyOnTakenIds` | src/backend/internal/repository/notifications.go:454-483 | with distinct draws the transaction aborts if and only if some listed user without a row drew an id in use |
| `Announcements.DispatchMarksTheDue` | src/backend/internal/repository/notifications.go:268-317 | a dispatch marks the note's row, or for a digest every daily row of the member already due, if undispatched, and reports how many of them are of a category the member has not switched off |
| `NotificationStore.NotificationRepository.CountEnabled` | src/backend/internal/repository/notifications.go:309-317 | the per-category tally adds up to the number of snapshot rows whose category is enabled |
| `NotificationStore.NotificationRepository.WithAuthorizedDispatch` | src/backend/internal/repository/notifications.go:251-373 | fails exactly when something due and wanted waits for a member and the cipher is missing or a readable live target refuses, naming the refusal of the first such target by id and leaving every row as it was; otherwise marks exactly the due rows, pushes once to each readable live target in the order of ids, and revokes a target exactly if it was unreadable or its answer asked for it, every other keeping its secret under the current key |
| `NotificationStore.NotificationRepository.SendAll` | src/backend/internal/repository/notifications.go:321-363 | pushes to the recipient's live readable targets in the order of their ids, each once; a target is revoked and wiped exactly if it was unreadable or its answer asked for it, any other keeps its secret under the current key, and other rows stay; fails exactly when one refuses, with the refusal of the first |
| `NotificationStore.NotificationRepository.SendOne` | src/backend/internal/repository/notifications.go:321-363 | an unreadable target is not pushed to and is wiped; a readable one is pushed to, keeps its secret sealed with the current key, and is revoked exactly if the answer asks for it; a refusal is passed on with its instant |
| `Subscriptions.AfterSendLeaves` | src/backend/internal/repository/notifications.go:335-363 | column by column: a live row is revoked if and only if its secret cannot be read or the answer asks for it, a revoked row has no secret, any other keeps its own under the current key; and this determines the row |
| `NotificationStore.NotificationRepository.RevokeSubscription` | src/backend/internal/repository/notifications.go:153-177 | exactly a live subscription of that user in that house is revoked and its secret wiped; anything else is not found |
| `Deliveries.CompletionNeedsAPendingMessage` | src/backend/internal/worker/worker.go:116-122 | a job is completed only by a worker that read its message while it was pending |
| `Deliveries.NoteIsOwn` | src/backend/internal/repository/notifications.go:461-483 | the note in a worker's hands belongs to its own job, and that job was not handed out before the delivery was due |
| `Deliveries.ApplyKeeps` | src/backend/internal/repository/notifications.go:251-373 | enqueueing, dispatching, joining, leaving, preference changes and all queue steps keep the delivery invariant |
| `DeliveryRuns.NoDeliveryIsStranded` | src/backend/internal/repository/notifications.go:268-274 | in every reachable state an undispatched delivery has its own job unfinished or dead-lettered, or the very worker whose settling call completed that job had, in the same lease, run a dispatch for it while its recipient was not a member |
| `Deliveries.SkippedWasAbsent` | src/backend/internal/repository/notifications.go:268-274 | a delivery is passed over only by a dispatch for it, run at a moment its recipient was not a member |
| `Deliveries.OneDeliveryPerEvent` | src/backend/internal/repository/notifications.go:454-457 | however often an event is announced, one user gets one delivery for it |
| `Deliveries.DispatchesPartition` | src/backend/internal/repository/notifications.go:279-317 | the snapshots of committed dispatches are pairwise disjoint and together are exactly the dispatched rows |
| `DeliveryRuns.DispatchesReportTheirSnapshots` | src/backend/internal/repository/notifications.go:279-317 | over any run every committed dispatch reported as its total the enabled rows of its own snapshot, with the preferences and members of that step |
| `Deliveries.EveryListedUserIsReached` | src/backend/internal/repository/notifications.go:435-486 | after an announcement everyone listed has a row for the event; every new row is for a listed user who had none, and old rows are unchanged |
| `Deliveries.EnqueueProjects` | src/backend/internal/repository/notifications.go:424-434 | announcing in the whole system is the enqueue transaction on its rows |
| `DispatchLocks.ApplyKeeps` | src/backend/internal/repository/notifications.go:251-373 | every statement of every transaction keeps the lock invariant: locks match their holders, and what an authorized session read is still true |
| `DispatchLocks.OneHolderPerHouse` | src/backend/internal/repository/notifications.go:396-413 | two transactions past the house lock never work on the same house |
| `DispatchLocks.EverySendIsAuthorized` | src/backend/internal/repository/notifications.go:338-363 | whatever ran in between, at each push the user is a member, the target is live and its secret current; at each event send the user is a member |
| `DispatchLocks.RemovalEndsSending` | src/backend/internal/repository/houses.go:129-154 | once RemoveMember has committed, nothing is sent to that user until they join again |
| `DispatchLocks.RevocationEndsPushes` | src/backend/internal/repository/notifications.go:153-177 | once RevokeSubscription has committed, the target gets no push until it is subscribed again |
| `DispatchLocks.SendEventsKeeps` | src/backend/internal/repository/reliability.go:471-500 | the event-stream callback runs with its user a member and its session holding the house lock, and keeps the lock invariant |
| `DispatchLocks.HoldersAreNeverBlocked` | src/backend/internal/repository/notifications.go:396-422 | the holder of a house lock can always run its next statement, whatever rows others have locked: no deadlock |
| `DispatchLocks.EverySessionFinishes` | src/backend/internal/repository/notifications.go:251-373 | each own statement ends a transaction, moves it to a later phase or uses up a target, and no other statement touches it |
| `DispatchLocks.OnlyCommitsWrite` | src/backend/internal/repository/notifications.go:251-373 | no statement of a transaction other than its commit changes a committed row |
| `DispatchSerial.ApplyKeepsSnapshots` | src/backend/internal/repository/notifications.go:279-363 | every statement of every transaction keeps what the sessions have read true: snapshot rows are still due, targets unchanged but for the session's own pending writes |
| `DispatchSerial.CommitActsOnItsSnapshot` | src/backend/internal/repository/notifications.go:251-373 | over any run a committing dispatch marks exactly the rows of its snapshot, all still due, and of the targets it read, all still live, revokes exactly those that were unreadable or whose one push was answered so, the others keeping their secret under the current key; its user is still a member |
| `DispatchSerial.CommitIsOneAtomicDispatch` | src/backend/internal/repository/notifications.go:251-373 | when no due row or target was added and the preferences not changed since it read them, the committed session has the effect of one atomic dispatch at its commit |
| `DispatchSerial.AtomicDispatchIsTheTransaction` | src/backend/internal/repository/notifications.go:251-373 | with one clock reading the atomic dispatch is the dispatch transaction that the delivery theorems are about |
| `DispatchRuns.RevokedExactlyOnRequest` | src/backend/internal/repository/notifications.go:153-177 | in every run a live subscription is revoked if and only if the step commits a revocation of it, or a dispatch that could not read it or was told so by its push; whatever else happens it keeps its secret until it is subscribed anew |
| `DispatchRuns.AnswersComeFromPushes` | src/backend/internal/repository/notifications.go:354-363 | the answers a session acts on are those its own pushes got since it began |
| `DispatchRuns.PreferencesAreAsRead` | src/backend/internal/repository/notifications.go:488-495 | the preferences a dispatch goes by are those stored when it read them, or the defaults |
| `DispatchRuns.MembersLeaveOnlyByRemoval` | src/backend/internal/repository/houses.go:129-154 | in every run a member leaves if and only if a removal commits, and one that commits has found that an admin remains |
| `Scheduler.Next` | src/backend/internal/recurrence/recurrence.go:107-118 | the least occurrence strictly after the instant, None exactly when there is none |
| `Scheduler.ListingIsExact` | src/backend/internal/recurrence/recurrence.go:107-118 | walking with Next lists exactly the occurrences from an instant on, strictly increasing |
| `Scheduler.ScheduledEvents.RunDueScheduledEvent` | src/backend/internal/repository/scheduler.go:29-84 | idle exactly when no unlocked event is enabled, due and free of a lease; otherwise the first by (next, id) is taken, reminders for everyone willing are enqueued, and its row waits for its next occurrence, enabled exactly as long as there is one; or everything is rolled back |
| `Scheduler.ScheduledEvents.SelectDue` | src/backend/internal/repository/scheduler.go:36-45 | the pick is the earliest due row, lowest id first, that no other transaction has locked |
| `Scheduler.ScheduledEvents.CreateScheduledEvent` | src/backend/internal/repository/notifications.go:207-213 | a new event waits for the first of its occurrences not before its creation, switched on or off as asked |
| `Scheduler.ScheduledEvents.UpdateScheduledEvent` | src/backend/internal/repository/notifications.go:196-206 | an edit re-aims the event at the first occurrence not before it, switches it as asked and leaves its lease columns alone; a wrong id or house changes nothing |
| `ScheduleRuns.FiresInOrderEachOnce` | src/backend/internal/repository/scheduler.go:56-70 | in every run an event has fired since its last save, each once and in order, exactly the occurrences from that save up to the one it waits for |
| `ScheduleRuns.UneditedStartsAtCreation` | src/backend/internal/repository/notifications.go:185-213 | for an event nobody has edited, that save is its creation |
| `ScheduleRuns.RemainingIsAMeasure` | src/backend/internal/repository/scheduler.go:70-79 | the number of occurrences left drops by one with each firing of the event and is changed by nothing else but an edit of it |
| `ScheduleRuns.DueEventsCanFire` | src/backend/internal/repository/scheduler.go:46-79 | a due event is never held up by a lease left behind: with unused ids its run commits exactly when the lease duration is positive |
| `ScheduleRuns.RunsAsLastSaved` | src/backend/internal/repository/notifications.go:185-213 | over any run an event has the occurrences of its last save and stays switched on or off as that save said for as long as it waits for an occurrence |
| `ScheduleRuns.SwitchedOnEventsFire` | src/backend/internal/repository/scheduler.go:36-79 | an event last saved switched on whose occurrence has come is the pick as soon as no earlier one is ahead of it, and with free ids it fires exactly when its lease is positive |
| `ScheduleRuns.SwitchedOffEventsRest` | src/backend/internal/repository/scheduler.go:36-45 | an event saved switched off fires nothing in any continuation until a save switches it on |
| `ScheduleRuns.IsANotificationRun` | src/backend/internal/repository/scheduler.go:63-65 | for the notification tables every scheduler run is one of their own runs, so all their guarantees carry over |
| `ScheduleRuns.OneReminderPerOccurrence` | src/backend/internal/repository/notifications.go:454-462 | even when edits make an occurrence fire again, a user has at most one delivery for it |
| `ScheduleRuns.FiredOccurrencesReachEveryone` | src/backend/internal/repository/scheduler.go:63-65 | everyone who wanted reminders when an occurrence fired has a delivery for it from then on |
| `InvitationStore.HouseholdRepository.RemoveMember` | src/backend/internal/repository/houses.go:129-154 | removes exactly that member, or refuses an unknown one, or an admin when no other user is an admin, and changes nothing |
| `InvitationStore.HouseholdRepository.UpdateMemberRole` | src/backend/internal/repository/houses.go:101-127 | changes exactly that role, or refuses an unknown member, or the demotion of an admin when no other user is one |
| `InvitationStore.HouseholdRepository.EnsureAnotherAdmin` | src/backend/internal/repository/houses.go:177-187 | true exactly when two different users are admins of the house |
| `InvitationStore.HouseholdRepository.ExpirePendingInvitations` | src/backend/internal/repository/reliability.go:584-600 | exactly the overdue pending invitations of the house expire, and each of their messages loses its link |
| `InvitationStore.HouseholdRepository.CreateInvitation` | src/backend/internal/repository/reliability.go:74-180 | stores a pending invitation with the house, address, role, token and expiry of the request, after the sweep and together with its message and a job of five attempts; the first check that fails is reported and rolls back even the sweep |
| `InvitationStore.HouseholdRepository.RevokeInvitation` | src/backend/internal/repository/reliability.go:193-281 | revokes a pending invitation, clears its link and queues a note; an overdue mark is rolled back with the error |
| `InvitationStore.HouseholdRepository.AcceptInvitation` | src/backend/internal/repository/reliability.go:283-409 | accepts by token for the invited address, joins the actor, clears the link and queues a note, or changes nothing |
| `InvitationStore.HouseholdRepository.InvitationDeliveryAvailable` | src/backend/internal/repository/reliability.go:415-448 | available exactly while pending and not overdue; here the expiry is committed |
| `InvitationColumns.Creation` | src/backend/internal/repository/reliability.go:74-180 | column by column what creation stores and, for each error, exactly when it is the one reported |
| `InvitationColumns.Revocation` | src/backend/internal/repository/reliability.go:193-281 | column by column what revocation changes: the row, its own sealed link and one new note; or which error it reports |
| `InvitationColumns.Acceptance` | src/backend/internal/repository/reliability.go:283-409 | column by column what acceptance changes: the row, its own sealed link, one new note and, unless a member already, the actor's membership in the invitation's role; or which error it reports |
| `InvitationLife.ApplyKeeps` | src/backend/internal/repository/reliability.go:74-448 | every house, invitation and queue step keeps links, invitations, outbox and memberships consistent |
| `InvitationLife.LinkIsKeptExactlyWhilePending` | src/backend/internal/repository/reliability.go:728-763 | in every reachable state a payload carries a sealed link if and only if it is the note of an invitation created with one and both message and invitation are pending |
| `InvitationLife.InvitationsAreConsistent` | src/backend/internal/repository/reliability.go:283-409 | at most one pending invitation per house and address, none both accepted and revoked, none accepted after its expiry |
| `InvitationLife.TerminalForTheRestOfTheRun` | src/backend/internal/repository/reliability.go:193-409 | an accepted, revoked or expired invitation never changes again in any continuation |
| `InvitationLife.AcceptanceJoins` | src/backend/internal/repository/reliability.go:318-360 | acceptance happens by its own token and address, no later than expires_at, and adds the membership in the same step |
| `InvitationLife.InvitationsAreAsRequested` | src/backend/internal/repository/reliability.go:107-130 | in every run each invitation was created by one step and keeps the house, address, role, token and expiry that step asked for |
| `InvitationLife.MembersGetTheRoleAsked` | src/backend/internal/repository/reliability.go:318-360 | whoever joins by accepting an invitation gets exactly the house and role its creation asked for, by the token and address it asked for and not after the expiry it asked for |
| `InvitationLife.OnlyFoundersJoinOtherwise` | src/backend/internal/repository/houses.go:28-44 | apart from acceptance only the founding of a house adds a member, its first admin |
| `InvitationLife.OverdueMarkIsRolledBack` | src/backend/internal/repository/reliability.go:220-225 | accept and revoke of an overdue invitation change nothing: their expired mark does not survive the error return |
| `InvitationLife.ExpiresExactlyWhenSwept` | src/backend/internal/repository/reliability.go:415-448 | a step turns a pending invitation expired if and only if the invitation is overdue and the step is a listing or a successful creation in its house or its own availability check |
| `InvitationLife.HousesKeepAnAdmin` | src/backend/internal/repository/houses.go:101-154 | every house always has an admin |
| `Balances.NetsCancelOut` | src/backend/internal/handlers/balances.go:51-81 | whatever was spent, the nets of all participants of balanced expenses sum to zero |
| `Balances.AddShares` | src/backend/internal/handlers/balances.go:69-76 | the split loop adds each share to its user, collects the users and totals the shares |
| `Balances.GetBalances` | src/backend/internal/handlers/balances.go:34-110 | succeeds exactly when there is an eligible member and every expense balances; then the entries are the participants once each with what they paid and owe, the nets sum to zero, and the settlements, each from someone who owes to someone who is owed, bring everyone to exactly zero; otherwise the error is that of the first expense that does not balance |
| `Balances.SortByNet` | src/backend/internal/handlers/balances.go:119-135 | the side keeps its contents and is sorted by size; the order of ties is not promised |
| `Balances.SplitBySign` | src/backend/internal/handlers/balances.go:119-130 | creditors are the positive nets, debtors the negative ones, zeros neither |
| `Balances.SettleDebts` | src/backend/internal/handlers/balances.go:136-152 | the in-place two-pointer loop runs one side down to zero with positive transfers from debtors to creditors, conserving the total, in at most creditors + debtors - 1 transfers |
| `Balances.OneTransfer` | src/backend/internal/handlers/balances.go:138-151 | one round of the loop keeps all of that, for either pointer moving or both |
| `Balances.CalculateSettlements` | src/backend/internal/handlers/balances.go:119-153 | for nets summing to zero every participant ends at exactly zero and the transfers total the positive nets |
| `Balances.BalancesFitInt64` | src/backend/internal/handlers/balances.go:51-81 | for up to 922,337,203 stored expenses no running total leaves int64 |
| `Expenses.BuildEvenSplits` | src/backend/internal/handlers/expenses.go:422-452 | every active member gets a share, in order, summing to the amount; shares differ by at most a cent, extras first |
| `Expenses.BuildCustomSplits` | src/backend/internal/handlers/expenses.go:454-492 | accepted if and only if users are distinct and eligible, amounts valid and the sum exact, and then as requested; otherwise the error is that of the first entry with an ineligible user, a user named before or no valid amount, or the total's |
| `Expenses.BuildSplits` | src/backend/internal/handlers/expenses.go:422-452 | an accepted split is non-empty, eligible and sums to the amount, whichever way it was asked for |
| `Expenses.ExpenseRepository.ValidateMoneyAmounts` | src/backend/internal/repository/expenses.go:257-275 | true exactly for a positive amount with non-negative splits that sum to it |
| `Expenses.ExpenseRepository.ValidateParticipants` | src/backend/internal/repository/expenses.go:231-255 | true exactly when every user in the visibility list is a member and every split user an eligible member |
| `Expenses.ExpenseRepository.InsertVisibility` | src/backend/internal/repository/expenses.go:277-286 | succeeds exactly when no user is listed twice, and then those users are the ones who may see the expense |
| `Expenses.ExpenseRepository.Create` | src/backend/internal/repository/expenses.go:38-76 | stores the expense, shared or not as asked and visible to exactly the listed users, and when shared announces it to everyone willing, all in one transaction; or reports the first failing check and changes nothing |
| `Expenses.ExpenseRepository.Update` | src/backend/internal/repository/expenses.go:103-140 | writes the amount always and the splits when given, or changes nothing |
| `Expenses.UpdatesWhatFits` | src/backend/internal/handlers/expenses.go:183-230 | handled without interference an update is carried out if and only if its amount is in range and it brings splits that fit it wherever it changes the stored amount, and otherwise changes nothing |
| `Expenses.StaleUpdateBalancesIff` | src/backend/internal/handlers/expenses.go:183-230 | when the row may have changed since the handler read it, the update leaves a balanced expense if and only if it brings splits or the amount it read is still the stored one |
| `Expenses.StaleUpdateCanUnbalance` | src/backend/internal/handlers/expenses.go:183-230 | a run of a creation and an edit after which a second edit, planned on the row before the first, leaves splits that no longer sum to the amount |
| `Expenses.StoredExpensesBalance` | src/backend/internal/repository/expenses.go:38-140 | with each handler call one step, every stored expense always balances |
| `Expenses.StoredBalancesFitInt64` | src/backend/internal/handlers/balances.go:51-81 | whatever shared expenses GetBalances loads, it rejects none of them, and its totals stay inside int64 up to 922,337,203 expenses |
| `Limiter.WindowLimiter.Allow` | src/backend/internal/middleware/ratelimit.go:25-56 | for serial calls that do not go back in time, a call is let through exactly when fewer than its limit of allowed hits of the key lie in the window before it, counted over a log of all calls although stamps are pruned and keys swept; afterwards every stored key has a hit younger than two windows |
| `Limiter.WindowLimiter.Sweep` | src/backend/internal/middleware/ratelimit.go:35-42 | only keys with no hit inside the window are forgotten |
| `Limiter.NoWindowExceedsItsLimit` | src/backend/internal/middleware/ratelimit.go:43-55 | with one limit per key, no interval of the window's length holds more than the limit of allowed hits |
| `Idempotency.ReliabilityRepository.StartIdempotentRequest` | src/backend/internal/repository/idempotency.go:40-71 | a free key is taken; a used one answers conflict, in progress or the stored response, without a write |
| `Idempotency.ReliabilityRepository.CompleteIdempotentRequest` | src/backend/internal/repository/idempotency.go:73-81 | exactly the record of that user and key becomes completed with the response |
| `Idempotency.ReliabilityRepository.AbortIdempotentRequest` | src/backend/internal/repository/idempotency.go:83-86 | exactly a processing record of that user and key is deleted |
| `Idempotency.ReliabilityRepository.Serve` | src/backend/internal/middleware/idempotency.go:51-97 | the handler runs exactly when the key has no record; a status below 500 stores the response, with 0 as 200 and a one-time link left out, and one from 500 frees the key |
| `Idempotency.StoredHoldsNoLink` | src/backend/internal/middleware/idempotency.go:110-123 | a stored one-time response never holds the acceptance link, loses no other field, and redacting it again changes nothing |
| `IdempotencyRuns.ApplyKeeps` | src/backend/internal/middleware/idempotency.go:51-97 | inserts, separate reads, answers, settling writes that may be lost, and crashes keep the record invariant |
| `IdempotencyRuns.OneExecutionAtATime` | src/backend/internal/middleware/idempotency.go:74-97 | two executions of one key are never live at the same time |
| `IdempotencyRuns.AtMostOneKept` | src/backend/internal/middleware/idempotency.go:79-97 | at most one execution of a key ever ends below 500, and every further start was made room for by an abort |
| `IdempotencyRuns.KeptAreTheAnswersBelow500` | src/backend/internal/middleware/idempotency.go:79-97 | over any run kept are exactly the answers with a status below 500 |
| `IdempotencyRuns.EveryReplyIsEarned` | src/backend/internal/repository/idempotency.go:40-71 | over any run every reply is the one the records called for at a step of that request: conflict exactly for a different method, path or body, in progress while processing, replay once completed |
| `IdempotencyRuns.NothingRunsAfterwards` | src/backend/internal/middleware/idempotency.go:51-60 | after an execution below 500 no handler runs for that key in any continuation |
| `IdempotencyRuns.ReplaysTheKeptAnswer` | src/backend/internal/middleware/idempotency.go:52-60 | every replay is that one answer as stored, to a request with the same method, path and body hash |
| `IdempotencyRuns.OrphansStay` | src/backend/internal/repository/idempotency.go:61-63 | an orphaned key keeps its processing record and starts no handler in any continuation |
| `IdempotencyRuns.OrphanedExactlyBy` | src/backend/internal/middleware/idempotency.go:51-97 | in a reachable state a key becomes orphaned, processing with nobody to settle it, exactly by a crash of its holder, the loss of its settling write, or an insert that was applied but reported as failed |
| `IdempotencyRuns.OrphansAreRefused` | src/backend/internal/repository/idempotency.go:53-63 | whoever uses an orphaned key in any continuation is only ever refused |
| `IdempotencyRuns.UsableIffNotOrphaned` | src/backend/internal/repository/idempotency.go:40-86 | from a reachable state some continuation starts a handler for the key or leaves it with an answer to replay, if and only if the key is not orphaned |
| `IdempotencyRuns.RunsIffNoRecord` | src/backend/internal/repository/idempotency.go:40-48 | an arriving request runs its handler exactly when the key has no record, and then nothing was kept and nobody holds it |
| `Retention.HouseholdRepository.CreateChat` | src/backend/internal/repository/household.go:345-368 | stores a body of 1 to 4000 characters as given, or refuses |
| `Retention.HouseholdRepository.EditChat` | src/backend/internal/repository/household.go:369-394 | only the author edits, and only a message neither deleted nor redacted; nothing else changes |
| `Retention.HouseholdRepository.DeleteChat` | src/backend/internal/repository/household.go:395-414 | only the author deletes, once; a redacted message can still be deleted |
| `Retention.HouseholdRepository.RunChatRetention` | src/backend/internal/repository/household.go:419-473 | a run that is not due changes nothing; a due one nulls only bodies no younger than the cutoff, the oldest first and at most a batch (1 to 500, else 100), leaves none that old when it is not a whole batch, and is due again at once after a whole batch and a day later otherwise; it always commits |
| `Retention.OldestIsAPrefix` | src/backend/internal/repository/household.go:445-448 | the query returns distinct overdue rows by (created_at, id) and leaves out only later ones |
| `Retention.RedactsOldestFirst` | src/backend/internal/repository/household.go:445-456 | a run redacts exactly min(batch, backlog) messages, all before any that is left, and changes no other message |
| `Retention.BodiesGoOnlyByDeletionOrAge` | src/backend/internal/repository/household.go:395-473 | over any run a body is lost only to a deletion by its author or to a retention run whose cutoff its message is not younger than |
| `Retention.BodyIsNullIffGone` | src/backend/internal/repository/household.go:345-473 | in every reachable state a body is null if and only if the message is deleted or redacted, and the job row is never left claimed |
| `Retention.BodiesNeverComeBack` | src/backend/internal/repository/household.go:369-394 | no edit or other step ever restores a body |
| `Retention.DueWhileFull` | src/backend/internal/repository/household.go:457-460 | at a fixed clock, after k full batches the job is still due and exactly k * batch messages are gone |
| `Retention.BacklogDrains` | src/backend/internal/repository/household.go:419-473 | at a fixed clock a backlog of n is emptied and rescheduled for the next day after exactly floor(n / batch) + 1 runs, and later runs change nothing |

## Left out

- SQL drivers, migrations, JSON, HTTP, server-sent-event framing, SMTP, Web Push and FCM; the two drivers differ only in how they lock, and both locks are one step here.
- Cryptography: sealed links, secrets and tokens are opaque values, decryption either works or does not.
- Floating-point money: amounts start as cents; the rounding of `moneyToCents` and `centsToMoney` is not part of this model.
- Time zones and daylight saving: a user's zone is a fixed offset, and calendar arithmetic for the one-year chat cutoff is a parameter.
- Parsing and validation of recurrence rules; an event carries the set of instants its rule denotes.
- White-space trimming and Unicode of chat bodies and keys: bodies arrive trimmed and their length counts characters.
- Audit events, house events and their cursors (the one a new expense writes included), updated_at and display columns, and the alphabetical order of balance entries.
- The readiness flag of the worker and its polling ticker.
- `WorkerLoop.Worker.RunOnce`: has all repositories configured and leaves out the hourly session purge, which touches no table of the model; it runs without interference, and the interleaved protocol is in `Worker`. Database errors of single statements are not modelled beyond the guards and unique keys.
- `NotificationStore.NotificationRepository.WithAuthorizedDispatch`: the text of the message it pushes is not modelled.
- `DispatchLocks.EverySendIsAuthorized`: a session may push to its targets in any order, which includes the program's order by id.
- `DispatchSerial.CommitIsOneAtomicDispatch`: needs that nothing was added since the session read its rows, which the program does not ensure; `DispatchSerial.CommitActsOnItsSnapshot` says what holds without it.
- Membership is stored once per repository: the admin rules are about the table of `InvitationStore`, the fan-out about that of `NotificationStore`; `WorkerLoop.Worker.RunOnce` changes neither.
- `Overtaking.BoundedOvertaking`: counts first-time acquisitions, because reclaiming an expired lease can repeat without end; `Overtaking.AcquiredInTurn` covers runs without such reclaims.
- `Limiter.WindowLimiter.Allow`: concurrent callers that read the clock before taking the mutex are not modelled, so calls are serial and their instants do not go back.
- `Scheduler.ScheduledEvents.CreateScheduledEvent`: the generated id is a parameter assumed to be unused.
- `InvitationStore.HouseholdRepository.AcceptInvitation`: relies on tokens being unique, which `InvitationLife` proves of every reachable state.
- `Idempotency.ReliabilityRepository.Serve`: requests without a key, user or supported method, and bodies over a megabyte, never reach the records and are not modelled.
- `Balances.SortByNet`: sorts by insertion where the program calls the library; only its contract is used.
- House creation without an admin and direct member insertion, which no request handler calls; deletion of houses does not exist in the program.
- Notes, groceries, chores, calendar entries, later changes of who may see an expense, configuration, role checks of the handlers and the Flutter client: they hold no protocol beyond a guarded row update.
