# Verification of the coordinator's eyes-task protocol

The coordinator lets a workspace agent hand a browser job ("eyes task") to a broker on
another host. A daemon keeps a ledger of tasks, agents and mail; the broker polls it,
journals what it takes on, runs a provider at most once per task and reports a terminal
outcome. Between the two lies a link on which any answer may be lost and any request may
be processed again. This project models both sides, their durable stores and the link,
and proves what they promise together over every run. Around that core it proves the
self-contained algorithms the same system depends on.

| file | what it models |
|---|---|
| `Wire.dfy`, `Mail.dfy` | names, frames, mail bodies; the messages and deliveries tables |
| `Ledger.dfy` | the effect of each database transaction of the ledger, as a function at time `now` |
| `LaunchRules.dfy` | what a broker demands of a launch: the size of its encoding, its runtime, brief and timeout |
| `LedgerRuns.dfy` | runs: transactions of any clients interleaved with one housekeeper, under a clock that never runs back |
| `LedgerInvariant.dfy`, `LedgerTheorems.dfy` | what every transaction keeps; the whole-run theorems |
| `LedgerRights.dfy` | who may do what, what answers and mail mean, what a credential opens |
| `LedgerAnswers.dfy` | exactly when each request is granted, by rows and states alone, and what the grant changes |
| `Database.dfy` | class `Tables`: the daemon's tables updated in place, one method a transaction, each proved equal to the ledger function and proved to keep the invariant |
| `Inbox.dfy`, `Poll.dfy` | reads, notices, peeks; a broker's poll |
| `ProgressThrottle.dfy` | the progress throttle over any sequence of samples |
| `Journal.dfy` | class `FileJournal`: the bounded write-ahead journal |
| `Broker.dfy` | the broker's poll loop and workers, the link and the daemon's side of a call, as a step machine |
| `BrokerInvariant.dfy`, `BrokerSteps.dfy` | what every step of one broker keeps, task by task |
| `BrokerSafety.dfy`, `BrokerSecrets.dfy`, `BrokerRuns.dfy` | what every step of the whole system keeps, its secrets included |
| `BrokerTheorems.dfy`, `BrokerOutcomes.dfy` | the whole-system theorems; what becomes of a terminal that is sent, confirmed or too late |
| `BrokerBriefs.dfy` | what a broker runs is what was asked, and what it says goes to who asked |
| `BrokerProgress.dfy` | nothing journalled is forgotten, and nobody is stuck |
| `BrokerService.dfy` | the daemon grants what a broker duly asks, so from any reachable state a brief can be run and answered |
| `Envelopes.dfy` | when a broker understands what the ledger queues for it |
| `Scenario.dfy`, `BriefScenarios.dfy` | concrete runs: one starts a provider, four end in a launch the broker drops |
| `Stream.dfy`, `Pump.dfy` | the line assembler (class `StreamReader`) and the newest-wins pump |
| `WaitCursor.dfy`, `WaitInbox.dfy` | the durable wait cursor with concurrent waiters, and one waiter's loop; the daemon's inbox is the one that proof assumes |
| `Hooks.dfy`, `HookSettings.dfy` | merging hooks into a settings document and removing them |

`dafny verify dfyconfig.toml` checks everything.

## How to read the model

*Transactions.* Each Go transaction is one atomic step: a function from store to store in
`Ledger.dfy`, and a method of `Database.Tables` that performs it row by row, rolls it back
where the source does, and is proved equal to that function. `LedgerRuns.Next` lets any
client do any transaction at any time; the housekeeper's sweep and purges are separate
steps between which anything may happen.

*Stories.* `MailOf(log, id)` is the list of lifecycle marks (launch, accept, cancel,
outcome) a task's mail leaves in the log. `Story` says which lists are legal, `Fits` which
belong to which state.

*The system.* `Broker.Step` is: any ledger transaction that needs no relay secret; any relay
request of anybody else, for any session and task, with a secret these brokers do not hold;
any request they ever sent, processed again with its answer lost; or a step of one broker,
which is a local step (including a crash at any point), a read of the redelivery queue, a
request whose answer is lost, or an answered call. The fields `put`, `confirmed`, `evicted`,
`durable` and `wire` of a broker and `starts` of the system are history and no step reads
them; `held` is every secret these brokers were ever given.

*Findings.* Some properties hold only under a condition, which is stated and proved to be exact.

- Removing hooks after a merge equals removing alone (up to empty lists and objects) if and
  only if the binary path is not empty or every listed event had ours installed before the merge:
  `HookSettings.RemoveUndoesMerge`. Merging installs a command for an empty path, removal
  refuses one; `HookSettings.EmptyPathIsNotUndone` is the case of an empty document.
- The wait cursor never passes unread mail except mail at or below the high-water mark of
  some first arm: `WaitCursor.AdvancesNeverPassMail` is an if-and-only-if, and
  `WaitCursor.TwoArmsDisagree` is a run in which two simultaneous first arms lose a message
  that is newer than one of them.
- A child's terminal report is answered well exactly in the cases of
  `LedgerTheorems.TerminalAnswered`. A result that arrives after the deadline sweep is refused
  in every later state (`LedgerTheorems.LateResultsAreRefused`), and its broker never gets rid of
  it: its journal holds it as an unsent terminal for the rest of the run
  (`BrokerOutcomes.LateResultIsStuck`).
- A broker accepts the launch of a task if and only if the brief was one it can take, as
  `Envelopes.Takeable` says of the request: it comes from a scope that has a name and is not the
  broker's own, since mail within one scope carries no sender scope; the runtime is empty or an identifier of
  at most 64 bytes; the brief is not blank, has no NUL and at most 64 KiB, and fits a message of
  128 KiB once encoded; and the deadline is at least 300 seconds or left to the ledger
  (`Envelopes.LaunchesAreUnderstood`). The ledger takes briefs outside that too, and such a task
  stays queued until it is cancelled or swept: `BriefScenarios.TakenYetDropped` has one run for a blank brief,
  one for ten seconds, one for a shared scope and one for a brief that is too long only when
  encoded. The front ends check the timeout and the runtime
  (`internal/mcpserv/mcpserv.go:311-317`, `cmd/agent-coordinator/relay.go:291`), but not the brief.

The manual says that an explicit timeout must be 300 through 1800 seconds (`docs/eyes.md`, line
225). The ledger does not rely on that: it takes any positive deadline up to 1800 and replaces
anything else (`internal/store/eyes.go:326-335`), and the model does the same.

## Model

| member | source | states |
|---|---|---|
| `LedgerInvariant.RunKeepsInv` | internal/store/eyes.go:210-261 | every reachable state of the daemon keeps the whole invariant: stories fit states, mail addressed and kept while owed, one task a broker, launcher rows present, relay sessions unique, sweep sound |
| `LedgerInvariant.EdgeFits` | internal/store/eyes.go:618-624 | every entry of the edge table leads from a legal story to a legal story of the new state |
| `LedgerInvariant.EffectSound` | internal/store/eyes.go:654-712 | a committed move starts from a live task, mails the right party, and only the sweep may be silent |
| `LedgerInvariant.MoveKeepsInv` | internal/store/eyes.go:654-712 | a move of any kind by any caller keeps the invariant |
| `LedgerInvariant.AssignKeepsInv` | internal/store/eyes.go:210-261 | assignment keeps the invariant, in particular that no broker is reserved twice |
| `LedgerInvariant.ProgressKeepsInv` | internal/store/eyes.go:512-557 | a progress sample keeps the invariant |
| `LedgerInvariant.PurgeAgentsKeepsInv` | internal/store/store.go:917-919 | after the sweep, the agent purge spares the launcher of every task that still holds it |
| `LedgerInvariant.PurgeMailKeepsOwed` | internal/store/store.go:914-915 | the message purges never delete mail that redelivery still needs |
| `LedgerInvariant.ExpireSettles` | internal/store/eyes.go:829-864 | a sweep step releases its task whichever rows are gone, and touches no other |
| `LedgerTheorems.MailIsExactlyOnce` | internal/store/eyes.go:650-712 | from the moment a task is known its mail is one launch, at most one accept, at most one ending, and is never rewritten |
| `LedgerTheorems.StoriesAreOnce` | internal/store/eyes.go:768-812 | a legal story repeats no mark, starts with the launch, ends with its outcome or cancel, never both |
| `LedgerTheorems.MovesCarryTheirMail` | internal/store/eyes.go:650-712 | no move by a broker, child or requester commits without exactly one message, unread in the right inbox |
| `LedgerTheorems.ExpiryTellsTheRequester` | internal/store/eyes.go:768-812 | a deadline failure always settles the task, and is silent exactly when the requester's row is gone |
| `LedgerTheorems.LaunchesExact` | internal/store/eyes.go:282-314 | the MIN query hands out exactly the launch of each queued task of the session |
| `LedgerTheorems.CancelsExact` | internal/store/eyes.go:282-314 | the MAX query hands out exactly the cancel of each cancelled, unanswered task of the session |
| `LedgerTheorems.OwedIsQueued` | internal/store/eyes.go:263-274 | nothing owed is missing from the queue |
| `LedgerTheorems.OwedAtMostOnce` | internal/store/eyes.go:263-314 | a broker is never owed two things at once |
| `LedgerTheorems.LauncherResolves` | internal/store/relay.go:239-275 | while a task holds its broker the relay-first lookup answers the recorded row, whoever else uses the id |
| `LedgerTheorems.PollHasNoDuplicate` | internal/daemon/eyes.go:263-296 | the parts of a poll, read at three moments, share no message |
| `LedgerTheorems.CancelFindsItsBroker` | internal/store/eyes.go:768-791 | in every reachable state a held broker has its row, so every committed cancel is mailed and then owed |
| `LedgerTheorems.SweepReleases` | internal/store/eyes.go:836-886 | after a sweep at a cutoff no task past its deadline by then holds a broker |
| `LedgerTheorems.LifeOnlyFalls` | internal/store/eyes.go:618-712 | every transaction leaves a task's life alone or strictly lowers its rank; only settled rows are purged |
| `LedgerTheorems.SettledIsFinal` | internal/store/eyes.go:188-194 | over a run a known task's rank never rises, and a settled one never changes state or comes back |
| `LedgerTheorems.TerminalAnswered` | internal/store/eyes.go:678-694 | exactly which terminal reports of a child are answered well |
| `LedgerTheorems.LateResultsAreRefused` | internal/store/eyes.go:678-694 | over a run, a result reported in any state after its task failed is refused and changes nothing |
| `LedgerTheorems.PickIsFaithful` | internal/store/eyes.go:139-167 | the one sorted row answers no launcher, no provider, busy or a launcher exactly as the quantified definitions say, and picks the freshest |
| `LedgerTheorems.TopRowExists` | internal/store/eyes.go:146-155 | the sort always has a first row |
| `LedgerTheorems.DefaultResolves` | internal/store/eyes.go:78-87 | a brief without a runtime that matched resolves to the first advertised provider in order |
| `LedgerTheorems.BrokerIsExclusive` | internal/store/eyes.go:120-167 | in every reachable state at most one task per launcher session holds the broker |
| `LedgerTheorems.RelayRowAnswers` | internal/store/relay.go:239-275 | a session id names at most one relay row, and that row answers every cross-scope lookup |
| `LedgerTheorems.RelayIdentityFixed` | internal/store/relay.go:88-161 | no transaction changes a row's origin, a relay row's kind or a launcher's secret |
| `LedgerTheorems.RelayIdentityOverRun` | internal/store/relay.go:163-230 | the same over any stretch of a run in which the row is not purged |
| `LedgerRights.MovesAreEntitled` | internal/store/eyes.go:612-624 | a committed move was made by the party its target state belongs to, proved by the right row, from a state that party may leave |
| `LedgerRights.StrangersAreRefused` | internal/store/eyes.go:714-736 | any other caller is refused and changes nothing |
| `LedgerRights.MailSaysWhatMoved` | internal/store/eyes.go:768-812 | a move's mail carries the caller's own body (or the cancel), the proved sender, its return address and the task |
| `LedgerRights.LauncherFailureAnswered` | internal/store/eyes.go:746-760 | exactly which failures of the broker itself are answered well |
| `LedgerRights.CancelIsAnswered` | internal/store/eyes.go:678-690 | a report on a cancelled task acknowledges it, writes no mail, frees the broker and ends its redelivery |
| `LedgerRights.AssignTakesWhatItCan` | internal/store/eyes.go:210-261 | a brief is taken exactly when the requester is local, the runtime is a name and a broker is available; a refusal changes nothing |
| `LedgerRights.AssignRecords` | internal/store/eyes.go:222-257 | the row and the launch agree on a broker that was idle, heard of and drives Chrome, an advertised runtime, a deadline of 300 unless asked and at most 1800, and the return address; the row is fresh, and nothing else changes |
| `LedgerRights.MintedChildAuthenticates` | internal/store/relay.go:163-230 | after a mint the child is let in with the new secret and no other, and no other session is affected |
| `LedgerRights.LauncherAuthenticates` | internal/store/relay.go:88-161 | a launcher is let in with the secret of its first registration and never with another |
| `LedgerRights.RegistrationGrantsNothing` | internal/store/store.go:154-190 | after a local registration the row is present, active and seen now, an old row keeps its identity, other rows are untouched, no relay credential is granted or lost, and a repeat changes nothing |
| `LedgerRights.SampleTouchesOnly` | internal/store/eyes.go:587-599 | a progress write changes this task's progress and heartbeat and its child's presence, and neither its state, nor any other task or row, nor the mail |
| `LedgerAnswers.CancelAnswered` | internal/store/eyes.go:618-712 | a requester's cancel is made exactly while its task is queued or accepted and its row is there, repeated at will once cancelled, and otherwise refused without trace |
| `LedgerAnswers.AcceptAnswered` | internal/store/eyes.go:618-712 | a broker's accept is made exactly while its task is queued and the requester's row is there, and repeated while it stays accepted |
| `LedgerAnswers.ChildAnswered` | internal/store/eyes.go:618-712 | a child's result is made exactly of an accepted task, its failure also of a queued one, and only the state and the time of the move change besides the mail |
| `LedgerAnswers.ChildAcknowledges` | internal/store/eyes.go:678-690 | on a cancelled task either terminal sets the acknowledgement and nothing else |
| `LedgerAnswers.ExpirySays` | internal/store/eyes.go:768-812 | the sweep's failure leaves under the child's row if there is one, else the broker's, and says so to the requester |
| `LedgerAnswers.SweepSparesTheTimely` | internal/store/eyes.go:866-886 | over any run, whatever the sweep has listed was past its deadline when it began |
| `LedgerAnswers.ProgressAnswered` | internal/store/eyes.go:512-557 | exactly whose samples are taken, in which states, and that a copy is mailed exactly when two minutes and a turn have passed |
| `LedgerAnswers.CopySays` | internal/store/eyes.go:540-557 | the copy says the turn, the tool and the seconds since assignment, unread, under the row the caller proved |
| `LedgerAnswers.LauncherTaken` | internal/store/relay.go:88-161 | exactly when a launcher's registration is taken, and that its row then has these capabilities and is seen now |
| `LedgerAnswers.MintGranted` | internal/store/relay.go:163-230 | exactly when a child is minted, and what its row then says |
| `LedgerAnswers.PresenceLasts` | internal/store/store.go:946-960 | a row heard of is live for fifteen minutes, a broker to pick for thirty seconds, and kept for two hours; one that left stays gone |
| `LedgerAnswers.SendReaches` | internal/store/store.go:503-551 | when a send commits, what it writes, and that it is unread by exactly those it is for |
| `LedgerAnswers.HousekeepingCanFinish` | internal/store/store.go:900-944 | from any reachable state between two rounds, the sweep and the purges can run their course, and then no row, task or message is past its time and no overdue task holds a broker |
| `LedgerAnswers.PurgesExactly` | internal/store/store.go:900-944 | which rows, tasks, messages and deliveries the purges delete, by age and reading, and that the rest stay as they are |
| `LaunchRules.QuotesDouble` | internal/hostbroker/broker.go:198-202 | the message bound is on the encoded launch: a brief of quotes is twice as long there |
| `Envelopes.LaunchesAreUnderstood` | internal/hostbroker/broker.go:198-257 | in every run, while an assigned task is queued, the launch its broker is owed is accepted exactly when the request was takeable |
| `Envelopes.AssignIsUnderstood` | internal/hostrunner/types.go:41-54 | an assignment writes a launch that its broker accepts exactly when the request was takeable |
| `Envelopes.LaunchEnvelopes` | internal/hostbroker/broker.go:210-218 | in every reachable state the envelope of an owed launch is good exactly when requester and broker do not share a scope |
| `Envelopes.CancelsAreUnderstood` | internal/hostbroker/broker.go:219-243 | in every reachable state an owed cancel is understood exactly when the scopes differ and the requester's is not empty, and its return address is the one its launch named |
| `Envelopes.LaunchIsTakenOrDropped` | internal/hostbroker/broker.go:245-287 | a broker journals an unknown task's launch whole if it accepts it, taking the task or failing it busy, and otherwise drops it and nothing else |
| `Envelopes.RepeatIsAnswered` | internal/hostbroker/broker.go:256-263 | the very launch of an ended task gets a second supervisor with the journal's record |
| `Envelopes.EarlyCancelIsTaken` | internal/hostbroker/broker.go:228-240 | a good cancel of an unknown task becomes a terminal failure to the cancel's return address |
| `BriefScenarios.AskedRun` | internal/daemon/eyes.go:42-51 | there is a run for any brief of a registered asker in which it is assigned and its launch is owed, understood exactly when it was takeable |
| `BriefScenarios.TakenYetDropped` | internal/hostrunner/types.go:41-54 | four briefs the ledger takes and the broker drops: blank, ten seconds, shared scope, too long once encoded |
| `Database.Tables.SendToScope` | internal/store/store.go:503-551 | one message and one untouched delivery per target, or nothing when the named recipient has no row |
| `Database.Tables.LiveRecipients` | internal/store/store.go:569-587 | exactly the live agents of the scope but the sender |
| `Database.Tables.AssignEyesTask` | internal/store/eyes.go:210-261 | the in-place transaction equals the ledger's assignment and keeps the invariant |
| `Database.Tables.MoveEyesTask` | internal/store/eyes.go:654-712 | the in-place move, with its rollback, equals the ledger's move, whose answers `LedgerAnswers` fixes caller by caller, and keeps the invariant |
| `Database.Tables.RecordEyesProgress` | internal/store/eyes.go:512-557 | the in-place sample, with its rollback, equals the ledger's and keeps the invariant |
| `Database.Tables.ExpireEyesTasks` | internal/store/eyes.go:836-864 | the loop settles and counts every overdue task and leaves none |
| `Database.Tables.Housekeep` | internal/store/store.go:900-944 | sweep first, then the purges; the invariant holds after and no task is overdue |
| `Database.Tables.RegisterLauncher` | internal/store/relay.go:96-161 | the check-then-write registration equals the ledger's and keeps relay identities unique |
| `Database.Tables.ReissueEyesChild` | internal/store/relay.go:171-230 | the mint equals the ledger's, refuses exactly when it should, and keeps relay identities unique |
| `Database.Tables.Read` | internal/store/store.go:617-673 | returns exactly the messages of the unread rows in order, all but ledger mail to a broker, and marks exactly the unread set read |
| `Database.Tables.HighWater` | internal/store/store.go:707-719 | the largest delivered id, read or unread, which is the mark the cursor's proof assumes |
| `Database.Tables.PeekUnread` | internal/store/store.go:720-754 | exactly the unread rows with an id above the cursor, each sender once, nothing written; and not empty exactly when the cursor's proof says mail is seen |
| `Database.Tables.Notices` | internal/store/store.go:765-842 | announces and marks exactly what was neither noticed nor read |
| `Inbox.ReadShows` | internal/store/store.go:617-673 | a read hands back exactly the unread messages in order, all of them to an agent, and all but ledger mail to a broker |
| `Inbox.BroadcastsExact` | internal/store/store.go:787-842 | each broadcast of a batch has its own line with its own words, in order |
| `WaitInbox.PeekSeesMail` | internal/store/store.go:720-754 | a peek beyond a cursor is not empty exactly when mail with a later id is unread |
| `WaitInbox.PeekMissesOnly` | internal/store/store.go:720-754 | unread mail is missing from a peek exactly when its id is not beyond the cursor, or it is ledger mail kept from a broker |
| `WaitInbox.InboxIsABox` | internal/store/store.go:503-673 | over any run of the daemon, each inbox makes only the moves the cursor's proof allows |
| `Inbox.Select` | internal/store/store.go:631-638 | a query returns exactly the rows asked for, each once, in order |
| `Inbox.GroupRows` | internal/store/store.go:787-820 | the aggregation keeps, per sender, exactly its ids in order and its newest body |
| `Inbox.DirectPartitions` | internal/store/store.go:787-842 | each direct message of a batch is in exactly one sender's list |
| `Inbox.DirectCoversOnly` | internal/store/store.go:787-842 | a sender's list holds only that sender's direct messages of the batch |
| `Inbox.ReadAtMostOnce` | internal/store/store.go:617-673 | over a run no delivery is returned by two reads |
| `Inbox.NoticedAtMostOnce` | internal/store/store.go:756-820 | over a run no delivery enters two notice batches |
| `Inbox.OnlyReadsConsume` | internal/store/store.go:617-673 | a delivery stops being unread only by a read or by a purge that was due |
| `Inbox.OnlyNoticesHide` | internal/store/store.go:756-842 | a delivery leaves the notices only by a notice, a read or a purge that was due |
| `Poll.WithPending` | internal/daemon/eyes.go:272-296 | owed rows go ahead of the reply's own, and count as unread on a peek; each sender once |
| `Poll.PollIsExact` | internal/daemon/eyes.go:247-296 | a poll hands out exactly the launch and the cancel it is owed, ahead of exactly what its read returns, and no message twice, whatever commits between its three reads |
| `Poll.ReadReturnsOwn` | internal/store/store.go:617-673 | what a broker's read returns is the messages of exactly the unread rows that are not ledger mail, in order |
| `ProgressThrottle.TurnsOnlyClimb` | internal/store/eyes.go:559-582 | stored turns never fall and stay within 0 and 100000 |
| `ProgressThrottle.ThrottleHolds` | internal/store/eyes.go:566-582 | successive copies are an interval and a turn apart, the first counted from the first sample |
| `ProgressThrottle.CopiesAreEarned` | internal/store/eyes.go:566-582 | of any sequence of samples, the k-th copy needs 120k seconds and k turns beyond the first sample |
| `ProgressThrottle.MailedExactly` | internal/store/eyes.go:566-582 | a sample is mailed exactly when it comes two minutes and a turn after the last copy, or after the first sample |
| `ProgressThrottle.TurnsAreHighest` | internal/store/eyes.go:559-571 | the stored turns are the highest any sample reached, within the bound |
| `ProgressThrottle.CleanKeepsNames` | internal/store/eyes.go:480-497 | a name of tool characters is kept, cut at 64, and anything else is no name |
| `ProgressThrottle.LedgerCopiesAreEarned` | internal/store/eyes.go:512-582 | in every reachable state, the k-th progress mail of a task came 120k seconds after its assignment and reports k turns, and no two are closer than an interval and a turn |
| `ProgressThrottle.StuckIsSilent` | internal/store/eyes.go:559-565 | a task stuck on one turn mails nothing |
| `ProgressThrottle.LastToolStays` | internal/store/eyes.go:572-576 | the last clean tool name survives samples that name none |
| `ProgressThrottle.LedgerTurnsClimb` | internal/store/eyes.go:512-582 | in every run of the ledger a task's stored turns only climb |
| `ProgressThrottle.LedgerTurnsBounded` | internal/store/eyes.go:512-582 | in every reachable state stored turns are between 0 and 100000 |
| `Journal.FileJournal.Put` | internal/hostbroker/journal.go:111-154 | all or nothing; it succeeds exactly when the record is valid, the shortest sufficient prefix of sorted tombstones can go, and what is left seals and can be written; otherwise the error is the reason |
| `Journal.FileJournal.EvictDelivered` | internal/hostbroker/journal.go:156-165 | drops the lowest tombstone other than the given one, and fails only when there is none |
| `Journal.FileJournal.Restore` | internal/hostbroker/journal.go:167-175 | undoes an insert exactly |
| `Journal.FileJournal.SealWithin` | internal/hostbroker/journal.go:127-147 | the eviction loop ends with the shortest sufficient prefix or with none sufficing |
| `Journal.Load` | internal/hostbroker/journal.go:58-91 | a decoded file is accepted exactly when every record is valid and the count fits |
| `Journal.Restart` | internal/hostbroker/journal.go:58-91 | reopening always succeeds and knows exactly what the journal knew |
| `BrokerTheorems.AtMostOnceExecution` | internal/hostbroker/broker.go:245-348 | no task's provider is started twice, by any broker, across lost answers, replays, crashes and evictions |
| `BrokerTheorems.StartsAreAccepted` | internal/hostbroker/broker.go:318-337 | a started task was launched to that broker and its accept is in the ledger |
| `BrokerTheorems.AcceptPrecedesStart` | internal/hostbroker/broker.go:318-337 | in the state that records a start the ledger holds the task accepted by that broker |
| `BrokerTheorems.NoStartAfterEarlyCancel` | internal/hostbroker/broker.go:318-337 | a task cancelled before its accept is never started, at any other point of the run |
| `BrokerTheorems.TerminalsAreWrittenAhead` | internal/hostbroker/broker.go:492-532 | a terminal frame goes out only after its body was durable |
| `BrokerTheorems.OneTerminalBody` | internal/hostbroker/broker.go:396-418 | until its tombstone is evicted a task has one durable terminal body, across retries, duplicate launches and restarts, and the journal still says so |
| `BrokerTheorems.OutcomesWereDurable` | internal/hostbroker/broker.go:492-532 | every outcome mail is the sweep's or was durable at the broker the task was launched to, whoever else reports with secrets these brokers do not hold |
| `BrokerOutcomes.OneTerminalFrame` | internal/hostbroker/broker.go:492-532 | until its tombstone is evicted, any two terminal frames ever sent for a task carry the same body |
| `BrokerOutcomes.RestartRunsNothing` | internal/hostbroker/broker.go:454-490 | a task a broker had journalled when it went down is never started by it afterwards |
| `BrokerOutcomes.ConfirmedBy` | internal/hostbroker/broker.go:503-532 | a task becomes confirmed only on the daemon's good answer to a durable terminal of that task |
| `BrokerOutcomes.HeldResultIsJournalled` | internal/hostbroker/journal.go:111-154 | a durable, unconfirmed result is in the journal, as a terminal record with that very body |
| `BrokerOutcomes.LateResultIsStuck` | internal/hostbroker/broker.go:492-532 | a durable result whose task the ledger has failed stays unconfirmed and in the journal in every later state, and whoever reports it is refused |
| `BrokerBriefs.ProvidersRunTheLaunch` | internal/hostbroker/broker.go:245-348 | in every reachable state, a task being accepted or run is held with the brief, runtime, return address and deadline its launch gave |
| `BrokerBriefs.StartsWhatWasAsked` | internal/hostbroker/broker.go:318-337 | over any run, a provider is started with the brief its asker gave when the task was assigned, whatever happened in between |
| `BrokerBriefs.TerminalsGoToTheAsker` | internal/hostbroker/broker.go:503-532 | in every reachable state, any terminal a broker may send is addressed to the requester the ledger has for its task |
| `BrokerService.BriefCanBeStarted` | internal/hostbroker/broker.go:245-337 | from any reachable state with a launch in front of an idle broker, the run can go on to the start of its provider, if asker and broker are there |
| `BrokerService.BriefCanBeAnswered` | internal/hostbroker/broker.go:245-532 | and on to any report at all: the task done, the report unread at the asker's, a tombstone in the journal, the broker idle |
| `BrokerService.RestartCanBeReported` | internal/hostbroker/broker.go:454-532 | from any reachable recovery, a task that had been accepted can be brought to the failure that says so, with nothing started on the way |
| `BrokerService.EarlyCancelCanBeAcknowledged` | internal/hostbroker/broker.go:219-240 | from any reachable state in which a cancel arrives before its launch, the run can go on to its acknowledgement: the broker is free at the ledger, no mail is written, the rest of the batch is still to come |
| `BrokerService.RecoveryTakesUp` | internal/hostbroker/broker.go:454-490 | what recovery does with a record of each state |
| `BrokerService.RefusedMintFails` | internal/hostbroker/broker.go:288-296 | a refused mint fails the task under the broker's own name, unless it had ended, and gives the broker back |
| `BrokerService.RefusedAcceptFails` | internal/hostbroker/broker.go:318-330 | a refused accept fails the task, and its worker still gives the broker back |
| `BrokerProgress.NothingIsForgotten` | internal/hostbroker/broker.go:119-532 | from any state in which a broker is down, every journalled task whose outcome is not delivered stays with its poll loop, recovery's list or a worker, until a shutdown cancels that worker |
| `BrokerProgress.NobodyIsStuck` | internal/hostbroker/broker.go:119-532 | in every reachable state the poll loop, unless down or polling, and each worker has a step of its own or a request to send |
| `BrokerService.MintIsServed` | internal/store/relay.go:163-230 | the child a broker asks for, for a task it holds, is minted, and its secret opens the gate |
| `BrokerService.MintedIsRemembered` | internal/hostbroker/broker.go:288-300 | that child and secret go into the record in hand, which recovery ends with its reason |
| `BrokerService.HandOverRemembers` | internal/hostbroker/broker.go:297-309 | and from there into the journal and to the worker that takes the task over |
| `BrokerService.AcceptIsServed` | internal/hostbroker/broker.go:318-325 | a worker's accept of a queued task is granted while the requester is there, and names the child |
| `BrokerService.TerminalIsServed` | internal/hostbroker/broker.go:516-532 | a terminal under the child's credential settles an accepted task while the requester is there |
| `BrokerSecrets.OutsiderIsNobody` | internal/store/relay.go:282-294 | a secret these brokers do not hold opens neither a broker's session nor the child of a task launched to one |
| `BrokerSecrets.OutsiderReportRefused` | internal/daemon/eyes.go:115-158 | so any report made with it on such a task is refused and leaves the ledger as it was |
| `BrokerTheorems.OneProviderAtATime` | internal/hostbroker/broker.go:636-652 | a broker never has two tasks accepting or running, and its active id names the one it has |
| `BrokerTheorems.EvictedIsSettled` | internal/hostbroker/journal.go:156-165 | a task whose tombstone was evicted is settled at the ledger from then on |
| `BrokerTheorems.EvictedMintRefused` | internal/store/relay.go:184-186 | so its child mint is refused from then on |
| `BrokerTheorems.PutIsAStep` | internal/hostbroker/journal.go:111-154 | what the journal promises on success is exactly the journal step of the broker model |
| `BrokerTheorems.RunKeeps` | internal/hostbroker/broker.go:119-168 | every reachable state of the whole system keeps the whole invariant |
| `Scenario.ATaskCanStart` | internal/hostbroker/broker.go:245-348 | there is a run of the whole system in which a provider is started |
| `BrokerSteps.CrashKeeps` | internal/hostbroker/broker.go:119-168 | a crash at any point keeps the broker's invariant |
| `BrokerSteps.RecoverKeeps` | internal/hostbroker/broker.go:454-490 | a step of recovery keeps the broker's invariant: what it takes up contradicts nobody |
| `BrokerSteps.LaunchKnownKeeps` | internal/hostbroker/broker.go:256-263 | a duplicate launch's second supervisor holds the body the journal already has |
| `BrokerSteps.LaunchNewKeeps` | internal/hostbroker/broker.go:264-287 | a new launch is journalled before it takes the broker, or journalled busy |
| `BrokerSteps.CancelUnknownKeeps` | internal/hostbroker/broker.go:219-233 | a cancel that arrives first contradicts nobody |
| `BrokerSteps.HandOverKeeps` | internal/hostbroker/broker.go:288-309 | handing a minted task to a worker keeps the broker held once |
| `BrokerSteps.RefusedKeeps` | internal/hostbroker/broker.go:288-296 | a refused mint ends the task and gives the broker back |
| `BrokerSteps.WorkerSealKeeps` | internal/hostbroker/broker.go:492-501 | making a terminal durable keeps one body per task |
| `BrokerSteps.WorkerCloseKeeps` | internal/hostbroker/broker.go:516-532 | writing a tombstone keeps the invariant, evictions included |
| `BrokerSafety.GrantedReport` | internal/daemon/eyes.go:115-158 | a report answered well leaves its task settled, or accepted |
| `BrokerSafety.OutcomeAppended` | internal/store/eyes.go:768-812 | an outcome mail comes from the sweep or from a relay report with that very body |
| `BrokerSafety.LaunchedToOne` | internal/store/eyes.go:210-261 | no task is ever launched to two brokers |
| `BrokerRuns.PollOwns` | internal/daemon/eyes.go:251-264 | a broker is handed only tasks launched to it |
| `BrokerRuns.StartIsFirst` | internal/hostbroker/broker.go:318-337 | at a start the accept stands and this broker had not started the task |
| `Stream.StreamReader.Write` | internal/hostrunner/stream.go:87-100 | the reader's state after any write is a function of all bytes so far; the buffer stays within its bound |
| `Stream.StreamReader.Append` | internal/hostrunner/stream.go:102-110 | the pending buffer is the unended segment unless that outgrew the bound, and never exceeds it |
| `Stream.StreamReader.Flush` | internal/hostrunner/stream.go:113-136 | ending a line teaches what the whole-stream specification says, which `FinalIsLast`, `TurnsAreCounted`, `ToolIsLast` and `SamplesAreCounters` fix |
| `Stream.StreamReader.Close` | internal/hostrunner/stream.go:141-146 | the first close ends the last line and stops publishing; any other changes nothing |
| `Stream.ReadAll` | internal/hostrunner/stream.go:87-146 | any chunking of a stream, then a close, gives the digest of the stream split whole: its last report line, its turns, its last tool and its samples |
| `Stream.SegmentsJoin` | internal/hostrunner/stream.go:87-100 | the specification splits without loss |
| `Stream.SegmentsAreLines` | internal/hostrunner/stream.go:87-100 | and cuts exactly at the newlines |
| `Stream.KeptExact` | internal/hostrunner/stream.go:102-120 | exactly the lines that are neither blank nor above the bound are decoded |
| `Stream.KeptInOrder` | internal/hostrunner/stream.go:102-120 | each as often as it came, and in order |
| `Stream.FinalIsLast` | internal/hostrunner/stream.go:121-124 | the report line is the last one that decodes to a final event, and there is none exactly when no line does |
| `Stream.TurnsAreCounted` | internal/hostrunner/stream.go:125-136 | the turns are the lines that decode to one, up to the bound |
| `Stream.ToolIsLast` | internal/hostrunner/stream.go:125-136 | the tool is the last clean name a line gave |
| `Stream.SamplesAreCounters` | internal/hostrunner/stream.go:125-136 | each line with a turn or a tool publishes one sample, in order, with the counters as they stood after it |
| `Stream.DigestBounded` | internal/hostrunner/stream.go:121-136 | turns are bounded and never go back, tool names are names, the report line is one of the stream's |
| `Pump.NewestWins` | internal/hostrunner/stream.go:183-201 | after an offer its sample is queued, being reported or reported last |
| `Pump.ReportsAreSubsequence` | internal/hostrunner/stream.go:166-201 | what is reported is a subsequence of what was offered |
| `Pump.LastReportIsLastOffer` | internal/hostrunner/stream.go:203-211 | once close returns the last report was the last offer |
| `Pump.CloseCanReturn` | internal/hostrunner/stream.go:166-211 | from any reachable state the pump can be closed, with its last offer reported last |
| `Pump.OfferNeverFails` | internal/hostrunner/stream.go:183-201 | each offer ends within three non-blocking operations with its sample in the slot |
| `WaitCursor.AdvancesNeverPassMail` | cmd/agent-coordinator/wait.go:89-133 | unread mail is behind some saved cursor exactly when it is behind some first arm |
| `WaitCursor.OneArmLosesNothing` | cmd/agent-coordinator/wait.go:89-133 | waiters that resume one first arm lose nothing newer than it |
| `WaitCursor.ResumedWaiterWakes` | cmd/agent-coordinator/wait.go:111-117 | a replacement waiter is woken by the same mail |
| `WaitCursor.TwoArmsDisagree` | cmd/agent-coordinator/wait.go:92-101 | two first arms can lose mail newer than one of them |
| `WaitCursor.WaitForMail` | cmd/agent-coordinator/wait.go:89-133 | the loop wakes on the first unread answer and saves only the marks of quiet ones, starting at the saved cursor or the arming peek's mark and never below it |
| `WaitCursor.LoopIsAWaiter` | cmd/agent-coordinator/wait.go:89-133 | the loop refines the waiter of the state machine: from any reachable state, whatever the inbox does around its queries, a waiter can wake or go on with the very cursor the loop saves |
| `WaitCursor.ConsumedIsReported` | cmd/agent-coordinator/wait.go:118-124 | a waiter's cursor only moves forward, and only to reported marks |
| `Hooks.CommandInGroup` | internal/installer/installer.go:272-283 | whether a group holds ours, and nothing else |
| `Hooks.StripCommand` | internal/installer/installer.go:260-270 | the hooks that are not ours, in order |
| `Hooks.StrippedExact` | internal/installer/installer.go:260-270 | exactly the hooks that are not ours |
| `Hooks.UpsertOurHook` | internal/installer/installer.go:215-258 | the loop equals the specification and reports a change exactly when there is one |
| `Hooks.UpsertInstalls` | internal/installer/installer.go:215-258 | afterwards every group holding ours is ours alone with the right matcher and timeout, and there is one |
| `Hooks.UpsertChanges` | internal/installer/installer.go:215-258 | a list is rewritten exactly when it was not installed already |
| `Hooks.ResidueKeepsForeign` | internal/installer/installer.go:169-203 | taking ours out keeps every foreign hook, in order, with its group's other fields |
| `Hooks.ResidueIsLocal` | internal/installer/installer.go:169-203 | each entry is treated by itself: one without ours stays, one of ours alone goes, another loses ours |
| `Hooks.CommandIsQuoted` | internal/installer/installer.go:66-75 | a path with a space is quoted, any other stands as it is |
| `Hooks.FreshInstall` | internal/installer/installer.go:215-258 | what an event nobody has hooked gets, to the letter |
| `HookSettings.MergeHooks` | internal/installer/installer.go:101-147 | the loop over events equals the specification, errors included |
| `HookSettings.MergeIsIdempotent` | internal/installer/installer.go:93-147 | a second merge changes nothing and says so |
| `HookSettings.MergeInstalls` | internal/installer/installer.go:101-147 | every listed event ends up installed |
| `HookSettings.MergeKeepsForeign` | internal/installer/installer.go:90-147 | foreign hooks keep event, order and matcher; nothing else is touched |
| `HookSettings.MergeRefusesOnlyForeignShapes` | internal/installer/installer.go:118-127 | a merge is refused exactly when some listed event is not a list, and names one |
| `HookSettings.MergeChangesExactly` | internal/installer/installer.go:133-143 | a merge reports no change exactly when every listed event had ours installed already |
| `HookSettings.MergeClaudeHooks` | internal/installer/installer.go:93-95 | merging Claude's events installs ours for each, keeps every foreign hook, has nothing to do the second time, and refuses only a listed event that is not a list |
| `HookSettings.MergeCodexHooks` | internal/installer/installer.go:97-99 | the same for Codex's events |
| `HookSettings.MergeGrokHooks` | internal/installer/installer.go:61-64 | the same for Grok's events |
| `HookSettings.RemoveHooks` | internal/installer/installer.go:152-213 | the loops over events, groups and hooks equal the specification |
| `HookSettings.RemoveLeavesForeign` | internal/installer/installer.go:149-213 | removal takes out every hook of ours and no other |
| `HookSettings.RemoveTouchesOnlyOurs` | internal/installer/installer.go:149-213 | removal changes nothing but lists that held ours, drops a list only when it was all ours, and says whether it did |
| `HookSettings.RemoveUndoesMerge` | internal/installer/installer.go:90-213 | remove after merge equals remove alone, up to emptiness, exactly when the path is not empty or everything was installed before |
| `HookSettings.EmptyPathIsNotUndone` | internal/installer/installer.go:152-156 | with an empty path, what a merge writes into an empty document stays there |

## Left out

- Database.Tables.AssignEyesTask: takes the row the pick's sorted query answers as a parameter constrained to be a top row; the query itself is relational. In the same way `Tables.RegisterLauncher` takes the answer of the relay-first lookup, and the sweep takes the answer of the overdue query.
- Database.Tables.ExpireEyesTasks: uses one clock reading for the whole sweep; `LedgerRuns` lets every step of the sweep have its own and lets other transactions in between.
- Database.Tables.Housekeep: omits the purges of events, file touches, claims and workspace tasks, because those tables are not modelled.
- WaitCursor.WaitForMail: one waiter's loop over the answers it gets before its deadline; the deadline and the sleeps are the length of that list. Waiters together are the step machine of the same file.
- Stream.StreamReader.Write: writes are sequential; the reader's mutex, which only guards a concurrent look at the report line, is not modelled.
- The broker is a step machine and not a class, because its poll loop and its workers are concurrent and may stop between any two steps; a journal write that fails and is retried is a step that has not happened yet.
- Names: agents are addressed by session (their ids are an injective digest of it); display names, name clashes and the fifty-name limit of registration are not modelled, and notices take the sender's name as a parameter.
- Encodings: JSON and SQL text, `decodeStrict`, `decodeTaskReport` and `taskMessageType`; bodies are typed values and a query is its relational meaning. Numbers in settings are reals, so a timeout outside the range of Go's `int` is not modelled.
- Ties: when two rows sort equal the pick may take either; `agentBySession` prefers a relay row, and which local row it takes when there is none is left open, since every caller refuses a local row.
- Secrets: fresh values compared for equality; digests are injective, and constant-time comparison and token files are not modelled.
- Session ids of brokers: random, so nobody else is the first to register a launcher under one (`Broker.Open`); every other registration is allowed.
- The gate: authenticating a relay request and checking a report's target are reads before the transaction (`internal/daemon/eyes.go:115-150`); the model makes them one step with it (`Broker.Serves`). The transaction checks the caller's standing again by its rows.
- Launch size: names and timestamps are not modelled, so the size of a launch's encoding beside its brief is a number that the request carries (`overhead`). Text is a sequence of Unicode characters, so a brief is always valid UTF-8.
- A broker's own default provider: the ledger always records a runtime, so a launch never lacks one.
- Clock: one reading per transaction; the second reading that `sendToScope` makes for a message's own timestamp is taken to be the same, and the clock never runs back, so order by time and id is order by id.
- Sockets, process spawning, file writes: a call commits and answers, commits and loses its answer, or is refused; a journal write succeeds whole or fails whole; sealing is an arbitrary function to a length.
- Runner: a provider's run is one state of a worker that may end at any time with any terminal body; cancelling it only lets it end sooner.
- Progress frames of the broker: best effort and without effect on any outcome; the ledger takes progress reports from any caller.
- Terminal delivery: it is proved that the run can go on to an answer (`BrokerService`), not that it must, because a refused terminal is retried for ever (`LedgerTheorems.TerminalAnswered` says when, `BrokerOutcomes.LateResultIsStuck` what follows).
- Journal order: a duplicate launch may rewrite a terminal record after its tombstone, so no monotonicity of the journal is claimed beyond `BrokerTheorems.OneTerminalBody`.
- Local registration of a launcher (an origin other than the relay), `RegisterIfNoLiveHook`, presence display, listings, events and conflict warnings, workspace tasks and claims: plumbing, or single-function facts.
- `internal/store/claims.go`: its holder check is outside its write, and what remains is sequential.
- Command-line front ends, installers' file handling, OpenCode's settings, `internal/hookcli`, `internal/mcpserv`, `internal/activity`, `internal/paths`, `internal/scope`, `internal/dialer`.
- `bytes.TrimSpace`: whether a line is blank is a parameter of the stream reader.
