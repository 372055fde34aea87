# Verification model of the approval dispatch worker

This project models the durable work queue that turns rows of an online table into external
approval instances, and the self-contained algorithms around it, and proves properties of the
model. `dafny verify dfyconfig.toml` checks all of it.

## The worker

The state is three tables (task rows, group rows, applicants) and the approval service, a map
from idempotency key to instance that only grows. Every guarded SQL update is a function on the
tables with the guard written out (`Execution.dfy`, `Maintenance.dfy`).

| file | what it holds |
|---|---|
| `Tables.dfy`, `Execution.dfy` | the rows, and the guarded updates that claim, begin, confirm, finish, reopen, sweep and detach |
| `GroupProtocol.dfy` | aggregate groups and the service as a transition system with crashes at any point |
| `Closing.dfy` | what closing a group does to its members |
| `Ownership.dfy` | claims of single rows: who may write, what a dead owner leaves behind |
| `GuardedWrites.dfy` | every guarded update, column by column |
| `Refinements.dfy` | group runs and notification steps as runs of those updates |
| `Notification.dfy` | rounds and single clicks over one row, with failed deliveries, lost write-backs, notices and unknown results |
| `Claiming.dfy` | the claim loop, the cursor and the bound on waiting |
| `Maintenance.dfy`, `Seeding.dfy`, `BatchClick.dfy`, `ClickLaws.dfy` | what a batch click and a seeding round do to the tables, and the laws they obey |
| `Verdicts.dfy`, `SingleVerdicts.dfy` | which groups and single rows a click or a round removes, sends back or leaves alone |
| `JointRuns.dfy` | workers, batch clicks, rounds and single clicks in one run |
| `Planning.dfy`, `OptionMerge.dfy`, `GroupDispatch.dfy` | grouping by signature, folding member options, the gate before dispatch |
| `Lookup.dfy`, `Alerts.dfy` | the paged row lookup, paired alerts |
| `Hoist.dfy`, `Sharing.dfy`, `Objects.dfy`, `Walks.dfy`, `Tabling.dfy`, `InPlace.dfy` | hoisting local `definitions` tables of JSON Schema draft-07 documents: meaning, which definitions share a component, and the pass in place over shared objects |
| `Lexer.dfy`, `Grammar.dfy` | the code skeleton of a Rust source and brace matching on it; its tokens, said without scanning |
| `Crawl.dfy`, `ConfigUpgrade.dfy`, `Fixtures.dfy`, `Secrets.dfy` | link mining, configuration upgrade, spreadsheet pieces, key separation |

Time is a number that only grows; owners are numbered instead of random; random, network and
digest values are parameters. Optional text columns that are blank are taken as missing, as the
readers of the worker take them.

## Where the code falls short of what it promises

Each of these is backed by lemmas with the failing input and by one that states exactly when the
code is right.

- **An untried group may have an instance.** A create whose answer is lost leaves the group in
  `creating`. A click reopens it and the create is sent again. If that one is refused before
  execution (rate limit, expired token, business code), the transport puts the phase back to
  `ready` although the first create made an instance. A later full click dissolves the group and
  orphans it (`GroupProtocol.ResetCanOrphan`). The reset is right exactly when the phase read
  before the request was not `creating`. The reset after a lookup that found nothing is never
  right: the lookup is made because the service has reported the instance, so finding nothing
  means that it does not show it yet (`GroupProtocol.MissIsNeverAbsence`). Together they are
  `GroupProtocol.ResetSafeExactly`, and all safety of dissolving follows from that guard
  (`GroupProtocol.GuardedRunKeepsSafe`). They also make two steps, not one, that unfreeze a
  group's applicant (`GroupProtocol.FrozenUntil`).
- **An old notice is taken for the telling of a new conclusion.** Before sending, a round looks
  whether any single click on the record was ever logged with a sent notice, whenever and about
  whatever; if so it sends nothing and writes its conclusion back as told. A click that was turned
  away is enough. So a row can be closed as `terminal` though nobody was told
  (`Notification.NoticeClosesUntold`), and an interim reason can be silenced for good
  (`Notification.NoticeSilencesReason`). The promises hold exactly when no round that has
  something to tell finds such a notice (`Notification.TerminalMeansToldExactly`,
  `Notification.AlwaysRetriedExactly`, `Notification.SilenceIsEarnedExactly`).
- **Even without notices an interim conclusion can be suppressed though nobody was told**, when its
  text may stand on the row untold: it reads like the not-delivered marker and another reason
  (`Notification.MarkedReasonIsLost`); it equals a rejection that could not be delivered, kept as
  last error when a click reopens the row (`Notification.RejectionSilencesReason`), as the text for
  error code 0 does; it equals a message that a single click recorded
  (`Notification.ShownTextSilencesReason`); it equals the note of an unknown result or of a missing
  configuration (`Notification.NoteSilencesReason`). With no notice about, these are all
  (`Notification.SilenceIsEarnedExactly`).
- **Equal recursive definitions of two tables are not shared.** The comment on hoisting says that
  definitions with equal content are reused. The comparison is with a component whose references
  have been rewritten (`Sharing.SelfReferenceSplits`, and `Sharing.RecursiveSplit` for every
  definition with a local reference). An equal definition is reused exactly if it has no local
  reference or was placed by the same table, which rewrites later
  (`Sharing.EqualIsSharedExactly`, `Sharing.SharedWithinTable`). Meaning is preserved all the same.
- **A recovery can be logged before its stall.** Both lines are written after the lock is let go
  (`Alerts.ResumedBeforeStalled`). They take turns exactly if, when both are owed, they are
  written in the order of the changes (`Alerts.LinesAlternateExactly`).
- **A stall warning may show an idle time below the threshold**, because the question and the
  reading of the clock are two lock sections (`Alerts.WarningCanBeLate`); exactly when it does is
  `Alerts.IdleShown`.

## Assumptions

- A create either lands at the service while its sender counts as alive, or never. The service
  forgets no instance and reports a conflict only where it has one; a lookup by uuid may miss an
  instance it has.
- The uuid of a removed group row is not used again. Removing a group by the orphan cleanup or by
  detaching its last member ignores phase and instance; instances of such rows are counted apart
  (`retired`).
- One worker process: the rows read at the start of a click are the rows it then works on. The
  records of one scan are distinct; group keys listed for a configuration are all of its keys.
- Inserts succeed, except that of a group whose key is in use.
- For the bounds on waiting: every claimed row loads, and no round is broken off (a round without
  Redis leaves the cursor where it was). Which rows may leave or come back, each bound says itself.
- A batch click, and the seeding of a round, is one step of a joint run; a group row it inserts has
  a uuid that was never used.
- A hoisted document is self-contained: every reference has its target, the first components use
  neither local references nor tables, and no table has an entry called `definitions` or a string
  entry called `$ref`. An object with a member `definitions` that is an object is a scope, as the
  code has it. A parsed document is a tree that shares nothing with the components, and objects
  are made after what they hold. The walk over the components themselves, which finds nothing to
  do in them, is not modelled.
- For mining: the place of a mined document can be read back to its address and held no file
  before; equal digests mean equal texts where that is said.
- For the configuration: flat text with section headers and one-line scalars.

## Model

| member | source | states |
|---|---|---|
| `GroupProtocol.RunKeepsInv` | src/infrastructure/feishu_approval_worker.rs:3159-3395 | in every run with crashes, lost answers, repeated creates, lookups that miss, clicks and sweeps at any point: owners are unique, each group has at most one leader, uuids are distinct, a recorded code is the service's own, a lookup is pending only where the service has an instance, and what a live owner remembers of its group still holds |
| `GroupProtocol.OneOwner` | src/addon/feishu/domain/approval_execution/repository.rs:300-339 | two workers that both pass the ownership test for one group are the same worker |
| `GroupProtocol.NeverSentAgain` | src/infrastructure/feishu_approval_worker.rs:3238-3349 | a group that has an instance code, or is in phase `lookup`, is never sent to create, whatever came before |
| `GroupProtocol.CodeIsFinal` | src/addon/feishu/domain/approval_execution/repository.rs:446-478 | a recorded instance code is the service's instance for that uuid, and no later state of any run shows another code, or none, under the same uuid |
| `GroupProtocol.GuardedRunKeepsSafe` | src/infrastructure/feishu_approval_worker.rs:1716-1723 | if the phase goes back to `ready` only after a refused create, and only when it was `ready` before, then in every reachable state a `ready` group without code has no instance at the service and no instance is left without its group row, except through the two removals that ignore the phase |
| `GroupProtocol.DissolvingIsSafe` | src/infrastructure/feishu_approval_worker.rs:1716-1723 | under the same guard, dissolving a group never orphans an external approval |
| `GroupProtocol.ResetSafeExactly` | src/addon/feishu/domain/approval_execution/transport.rs:185-222 | putting the phase back to `ready` keeps "ready means no instance" over all reachable states if and only if it follows a refused create and the phase read before the request was not `creating`; after a lookup that found nothing it never does |
| `GroupProtocol.MissIsNeverAbsence` | src/addon/feishu/domain/approval_dispatch.rs:1221-1251 | in every run a lookup is made only where the service has an instance, so the reset after one that finds nothing always leaves a `ready` group with an instance behind it |
| `GroupProtocol.ResetCanOrphan` | src/addon/feishu/domain/approval_execution/transport.rs:196-222 | a run of the code as it is in which the reset is wrong and a later full click orphans an instance |
| `GroupProtocol.FrozenUntil` | src/infrastructure/feishu_approval_worker.rs:1752-1778 | a group that has a code or is in `creating`/`lookup` stops being frozen by a lookup miss or a refused create and by no other step, and then only if it has no code |
| `GroupProtocol.OthersKeepOut` | src/addon/feishu/domain/approval_execution/repository.rs:407-478 | no event of another worker, click or sweep changes the group row of a group while its owner holds it |
| `Closing.FinishSettles` | src/addon/feishu/domain/approval_execution/repository.rs:492-570 | closing a group, when the closing claim still holds the leader and no write is open: every member ends in the state given, or in review at the tenth retry, with the given reason; the leader is let go, counted and put off; a serial stands on the group row with phase `created`; nothing else changes. Otherwise nothing changes at all |
| `Closing.GroupEndsTogether` | src/addon/feishu/domain/approval_execution/repository.rs:523-541 | in particular every member ends in the same state and with the same last error as its leader |
| `Ownership.OneLiveOwner` | src/addon/feishu/domain/approval_execution/repository.rs:300-339 | over any run of claims, deaths, sweeps, clicks and writes a task row has at most one live owner |
| `Ownership.SupersededRun` | src/addon/feishu/domain/approval_execution/repository.rs:300-330 | once a claim is superseded it stays so for ever |
| `Ownership.SupersededWritesNothing` | src/infrastructure/feishu_approval_worker.rs:4441-4522 | begin, confirm, mark-unknown, finish and their group forms change nothing under a superseded owner or generation |
| `Ownership.TakingSupersedes` | src/addon/feishu/domain/approval_execution/repository.rs:300-330 | claiming a row supersedes every other claim on it |
| `Ownership.DeathAbandons` | src/infrastructure/feishu_approval_worker.rs:589-599 | an owner that dies in `creating` or `backfilling` leaves the row in the middle of an external write with no live owner |
| `Ownership.AbandonedStaysQuiet` | src/infrastructure/feishu_approval_worker.rs:589-599 | no sequence of polls, sweeps, crashes and time issues another create for an abandoned row before a click reopens it |
| `Ownership.DeadRowAfterLease` | src/addon/feishu/domain/approval_execution/repository.rs:300-330 | when the lease of a dead owner has run out, a pending row is claimable again exactly if it is dead in `ready` or `created` (for a group leader also `lookup`), and in review exactly otherwise |
| `GuardedWrites.ClaimTakes` | src/addon/feishu/domain/approval_execution/repository.rs:312-318 | which rows a claim may take, column by column |
| `GuardedWrites.SweepWrites` | src/addon/feishu/domain/approval_execution/repository.rs:308-310 | what the sweep does to each row |
| `GuardedWrites.BeginWrites` | src/addon/feishu/domain/approval_execution/repository.rs:241-255 | announcing a write: accepted from the live owner with no write open, it renews the lease; else nothing changes |
| `GuardedWrites.ConfirmWrites` | src/addon/feishu/domain/approval_execution/repository.rs:256-271 | confirming a write: the phase, and a code that is never lost again |
| `GuardedWrites.UnknownWrites` | src/addon/feishu/domain/approval_execution/repository.rs:272-277 | an unknown result is noted even after the lease has run out, but not once somebody else holds the row |
| `GuardedWrites.ReopenWrites` | src/addon/feishu/domain/approval_execution/repository.rs:220-229 | a click makes an idle row a fresh try and keeps its facts and last error; a row with a code only has its number left to write |
| `GuardedWrites.BeginGroupWrites` | src/addon/feishu/domain/approval_execution/repository.rs:407-440 | the same for a group through its leader |
| `GuardedWrites.ConfirmGroupWrites` | src/addon/feishu/domain/approval_execution/repository.rs:446-478 | the code of a group goes to the group row and never to the leader |
| `GuardedWrites.LeaveWrites` | src/addon/feishu/domain/approval_execution/repository.rs:587-678 | leaving a group: the row is single, the first of those left leads if the leader left, and the group row goes with the last member |
| `GuardedWrites.DropWrites` | src/addon/feishu/domain/approval_aggregation/repository.rs:425-448 | dropping an unreadable member |
| `Refinements.GroupRunIsOps` | src/infrastructure/feishu_approval_worker.rs:3159-3395 | every run of the group protocol is a run of the claims, writes, sweeps and clicks of the ownership view, so what is proved there holds of it |
| `Refinements.OneOwnerOfARow` | src/addon/feishu/domain/approval_execution/repository.rs:300-339 | so no reachable state of the group protocol has two workers owning one row, whatever groups they came for |
| `Refinements.StepIsOps` | src/infrastructure/feishu_approval_worker.rs:4435-4522 | every step of the notification view is such a sequence: a round is a claim, at most one write-back and the end of the claim; a single click sweeps, reopens if need be, and then does the same |
| `Notification.TerminalOnlyIfTold` | src/infrastructure/feishu_approval_worker.rs:4334-4400 | over any run of rounds, batch clicks and single clicks, with failed deliveries, lost write-backs, crashes and sweeps, a row is `terminal` only if its conclusion reached a person, provided no round that has something to tell finds a logged notice about the record |
| `Notification.TerminalMeansToldExactly` | src/infrastructure/feishu_approval_worker.rs:4674-4702 | without that proviso it fails for every text a rejection can carry: it holds in all runs if and only if the proviso is kept or nothing is ever rejected |
| `Notification.StepKeepsTold` | src/infrastructure/feishu_approval_worker.rs:4435-4522 | a single step breaks it if and only if a round rejects, finds a notice, writes back, and that rejection had not been told |
| `Notification.NoticeClosesUntold` | src/infrastructure/feishu_approval_worker.rs:4674-4698 | for every rejection text, a run: a single click is turned away with a notice, the row is rejected, nothing is sent, and it is closed as told |
| `Notification.UndeliveredIsRetried` | src/infrastructure/feishu_approval_worker.rs:4411-4419 | after an interim conclusion that was not delivered and not counted as delivered was written back, the next one is suppressed if and only if its text is the marker followed by the earlier text |
| `Notification.RoundWritesBack` | src/addon/feishu/domain/approval_execution/repository.rs:342-374 | the whole row after a round that wrote back: state with the cap on retries, text, attempts, doubling delay, codes and numbers kept unless new ones come; no other row, group or applicant changes |
| `Notification.SingleWritesBack` | src/addon/feishu/approval/actions/dispatch.rs:562-585 | the same after a single click that was worked off, where the text is the message as shown and only a plain retry counts |
| `Notification.RetriedUntilTold` | src/infrastructure/feishu_approval_worker.rs:4411-4522 | over the same runs and under the same proviso, an interim conclusion that nobody was told is tried again in every round that gets as far as sending, and goes out exactly if somebody can be reached and no notice is logged |
| `Notification.AlwaysRetriedExactly` | src/infrastructure/feishu_approval_worker.rs:4411-4702 | that holds in all runs if and only if the proviso is kept and the text is neither one a single click records nor a note written without telling |
| `Notification.ToldAtMostOnce` | src/infrastructure/feishu_approval_worker.rs:4435-4522 | over all runs an unchanged interim conclusion is delivered at most once, plus once for each round that told it and lost its write-back, and for each step that put another text over it |
| `Notification.SilenceIsEarnedExactly` | src/infrastructure/feishu_approval_worker.rs:4334-4419 | over a set of texts, every suppressed interim conclusion had been delivered in every run that keeps the proviso if and only if no reason is the marker followed by another reason, a rejection, a text a single click records, or a note written without telling; in every run whatsoever if and only if there is no interim reason |
| `Notification.MarkedReasonIsLost` | src/infrastructure/feishu_approval_worker.rs:4334-4419 | for any two reasons of which one is the marker and the other, a run in which it is suppressed although nobody was told |
| `Notification.RejectionSilencesReason` | src/addon/feishu/domain/approval_execution/repository.rs:196-229 | for any text that is both a rejection and an interim reason, a run: rejected, undelivered, clicked, and then passed over in silence because reopening keeps the last error |
| `Notification.ShownTextSilencesReason` | src/addon/feishu/approval/actions/dispatch.rs:1713-1728 | a run in which a single click records an interim text, telling nobody, and the equal reason is then suppressed |
| `Notification.NoteSilencesReason` | src/infrastructure/feishu_approval_worker.rs:2670-2682 | runs in which a reason equal to the note of an unknown result, or of a configuration that is gone, is suppressed although nobody was told |
| `Notification.NoticeSilencesReason` | src/infrastructure/feishu_approval_worker.rs:4674-4698 | for every interim reason, a run: a notice about a turned-away click is logged, the first round takes it for its own and records the reason as told, and later rounds are silent about it |
| `Claiming.HandOut` | src/addon/feishu/domain/approval_execution/repository.rs:312-330 | the claim loop hands out exactly the rows the query selects, in id order up to the limit, each with its own owner and the next generation, and changes no other row |
| `Claiming.Queue.ClaimReady` | src/addon/feishu/domain/approval_execution/repository.rs:300-330 | one claim round: the sweep, then the selected rows after the cursor |
| `Claiming.Queue.Advance` | src/infrastructure/feishu_approval_worker.rs:150-159 | the cursor moves to the last claimed id, and back to the start after an empty batch |
| `Claiming.SelectedExactly` | src/addon/feishu/domain/approval_execution/repository.rs:312-318 | over any table, the query returns the claimable rows past the cursor in id order, leaving one out only if the batch is full of smaller ids, and that determines it |
| `Claiming.NoStarvation` | src/infrastructure/feishu_approval_worker.rs:136-159 | over any sequence of task tables in which a row stays claimable and no row becomes claimable, whatever other rows there are, it is claimed within ceil(n / batch) + 2 rounds from any cursor, n being the rows claimable at first |
| `Claiming.NoStarvationAmong` | src/infrastructure/feishu_approval_worker.rs:136-159 | if all rows that ever wait are among n, leaving and coming back as they please, a row that keeps waiting is claimed within n + 1 rounds from any cursor |
| `Claiming.AmongIsReached` | src/infrastructure/feishu_approval_worker.rs:136-159 | nor can that bound be lowered, for any n |
| `Claiming.PassedWhileBusy` | src/infrastructure/feishu_approval_worker.rs:150-159 | a row the cursor has passed is not claimed as long as every round finds something past the cursor, so without the condition on newcomers there is no bound |
| `Claiming.BoundIsReached` | src/infrastructure/feishu_approval_worker.rs:136-159 | the bound cannot be lowered |
| `Maintenance.MaintainedOwn` | src/infrastructure/feishu_approval_worker.rs:1651-1782 | the whole maintenance loop deletes a member only if it is untouched, its group untried and its record selected, keeps the facts of the others, and never moves a frozen group or its applicant |
| `Maintenance.MaintainedFrame` | src/infrastructure/feishu_approval_worker.rs:1651-1782 | maintenance adds no row and leaves rows outside the listed groups, their applicants and every group row that stays exactly as they were |
| `Maintenance.NoOrphansLeft` | src/infrastructure/feishu_approval_worker.rs:1689-1699 | after maintenance every listed group that is left has a member |
| `Verdicts.MaintainedOutcome` | src/infrastructure/feishu_approval_worker.rs:1651-1868 | for each group of the configuration, in the words of rows and groups: it goes exactly if it is empty, or was never submitted, was clicked as a whole and nothing keeps a member, and what then becomes of each member; else its leader is sent back to work exactly if it is wanted, idle and reopenable, and everything else about the group stays |
| `BatchClick.SortMembers` | src/infrastructure/feishu_approval_worker.rs:1803-1833 | the loop over the members finds whether one blocks, and otherwise splits them into rows to detach and rows to delete |
| `BatchClick.Survey` | src/infrastructure/feishu_approval_worker.rs:1700-1721 | finds the leader and whether all or any of the members are selected |
| `BatchClick.Seeder.DissolveGroup` | src/infrastructure/feishu_approval_worker.rs:1792-1868 | returns true exactly when the group can be dissolved and then removes it with its untouched rows and their applicants; otherwise nothing has changed |
| `BatchClick.Seeder.MaintainGroups` | src/infrastructure/feishu_approval_worker.rs:1651-1782 | the tables after the loop are the specified function of those before |
| `BatchClick.Seeder.ReopenSingles` | src/infrastructure/feishu_approval_worker.rs:1540-1551 | exactly the selected ungrouped rows are reopened, and those whose identity was still open are reported |
| `BatchClick.Seeder.SeedGroups` | src/infrastructure/feishu_approval_worker.rs:1922-1964 | each planned group is inserted with all its members in order, or turned away as a whole when its key is in use |
| `BatchClick.Seeder.PersistApplicant` | src/infrastructure/feishu_approval_worker.rs:2600-2638 | the clicker becomes the applicant of exactly the touched rows that are pending and have no instance |
| `BatchClick.Seeder.Click` | src/infrastructure/feishu_approval_worker.rs:1509-1627 | the tables after a batch click, step by step, and the invariants it keeps: one row per record, one leader per group, every grouped row with its group |
| `BatchClick.Seeder.SeedRound` | src/infrastructure/feishu_approval_worker.rs:1411-1470 | seeding of a poll or a single click: nothing is deleted, groups are left alone, new rows only where discovery is allowed, frozen groups keep their applicant |
| `ClickLaws.ClickLosesNothing` | src/infrastructure/feishu_approval_worker.rs:1509-1627 | after a batch click every selected record with an id has a row, except those of a whole group whose key was taken; with collision-free digests and keys that name their members, which the click preserves, nothing is turned away |
| `ClickLaws.ClickSparesRows` | src/infrastructure/feishu_approval_worker.rs:1792-1868 | a click deletes a row only if its record was selected, it had phase `ready`, no lease, no instance and no serial, and its group was untried; every other row keeps its record and facts, and leaves its group only for a fact of its own; frozen groups keep row, leader and applicant |
| `ClickLaws.ApplicantSurvivesClicks` | src/infrastructure/feishu_approval_worker.rs:1752-1778 | no sequence of batch clicks and seeding rounds changes the applicant of a frozen group's leader |
| `SingleVerdicts.SingleAfterClick` | src/infrastructure/feishu_approval_worker.rs:1509-1627 | of the single rows a batch click sends back exactly the idle ones whose records were selected, and of these exactly those for which nothing was made outside become the clicker's |
| `SingleVerdicts.RowAfterRound` | src/infrastructure/feishu_approval_worker.rs:1411-1470 | a seeding round that reopens does the same to its records, and leaves all other rows and their applicants alone |
| `SingleVerdicts.NewAfterRound` | src/infrastructure/feishu_approval_worker.rs:1411-1470 | what a round adds are single waiting rows for records that had none, in the clicker's name |
| `JointRuns.JointRunKeepsInv` | src/infrastructure/feishu_approval_worker.rs:1509-1627 | every run that mixes workers with whole batch clicks, seeding rounds and single clicks keeps the invariant of the group protocol and one row per record |
| `JointRuns.ApplicantUntilThaw` | src/infrastructure/feishu_approval_worker.rs:1752-1778 | in every such run the applicant of a frozen group's leader is the same as long as the row leads the group, until a lookup misses or a create is refused |
| `JointRuns.JointRunKeepsSafe` | src/infrastructure/feishu_approval_worker.rs:1716-1723 | if the workers heed the guard on putting a phase back, every such run keeps that a `ready` group without code has no instance |
| `JointRuns.ClickOrphansNothing` | src/infrastructure/feishu_approval_worker.rs:1792-1868 | under the same guard, after any such run a batch click removes the row of a group whose instance exists only if the group had no member left |
| `Seeding.NewcomersFindFreeKeys` | src/addon/feishu/domain/approval_aggregation/mod.rs:63-110 | the keys planned for records without rows are distinct and in use nowhere |
| `ClickLaws.RoundKeeps` | src/infrastructure/feishu_approval_worker.rs:1411-1470 | a round deletes nothing, loses no record it may discover, keeps one row per record and one leader per group, and leaves frozen applicants alone |
| `Seeding.NewGroupIsWhole` | src/infrastructure/feishu_approval_worker.rs:1943-1960 | after a group is seeded each group still has at most one leader and each grouped row its group row |
| `Seeding.NewGroupHasLeader` | src/infrastructure/feishu_approval_worker.rs:1943-1960 | the members of a newly seeded group are the new rows, exactly one leads, and their positions are 0, 1, 2 and on in plan order |
| `Seeding.WalkKeeps` | src/infrastructure/feishu_approval_worker.rs:1411-1470 | the pass of a seeding round is reopening some single rows followed by adding single rows |
| `Planning.Collect` | src/addon/feishu/domain/approval_aggregation/mod.rs:91-110 | one group per distinct signature in order of first appearance, members in scan order |
| `Planning.PlanGroups` | src/addon/feishu/domain/approval_aggregation/mod.rs:91-110 | and the key of each group digests configuration, signature hash and members |
| `Planning.PlanPartitions` | src/addon/feishu/domain/approval_aggregation/mod.rs:91-110 | each record has exactly one place, in the group of its own signature; no group is empty and nothing else is placed |
| `Planning.PlanKeepsOrder` | src/addon/feishu/domain/approval_aggregation/mod.rs:91-110 | members keep the scan order and groups the order of their first members |
| `Planning.FailureIsAlone` | src/infrastructure/feishu_approval_worker.rs:1970-2014 | a record whose signature fails gets a group to itself as long as no computed signature begins like the substitute |
| `OptionMerge.MergeOptionMaps` | src/infrastructure/feishu_approval_worker.rs:3821-3845 | folding one member in succeeds exactly when pool and member agree on every label of a pooled widget, and then yields the union |
| `OptionMerge.MergeMembers` | src/infrastructure/feishu_approval_worker.rs:3591-3611 | folding all members succeeds exactly when pool and members agree on every (widget, label), and the result is then their union on the pooled widgets |
| `OptionMerge.OrderDoesNotMatter` | src/infrastructure/feishu_approval_worker.rs:3591-3611 | success and result do not depend on the order of the members |
| `GroupDispatch.VerifySignature` | src/infrastructure/feishu_approval_worker.rs:3404-3439 | the check passes exactly when the new digest exists, all digests so far are equal and they equal the stored one |
| `GroupDispatch.Gather` | src/infrastructure/feishu_approval_worker.rs:3501-3700 | the member loop stops at the first member that is not in order; it asks for another round if and only if that member could not be fetched for now, or failed only in moving attachments for now; it reaches dispatch if and only if every member that is not dropped is readable, resolves, agrees on options and has the digest stored at seeding, one is left and none is missing, and pool and lists are then exactly theirs; in all other cases it pauses the group |
| `InPlace.Document.Rebase` | scripts/dump_openapi.py:36-90 | for every depth the document unfolded through its local tables equals the document left in place unfolded through the components alone; existing components never change; no local table and no local reference is left |
| `Hoist.MeaningKept` | scripts/dump_openapi.py:36-90 | anything that has the shape of a hoisted schema means what the schema meant, at every depth |
| `InPlace.Document.Walk` | scripts/dump_openapi.py:72-87 | one depth-first pass, in place: nothing outside the slot moved, the components added are objects taken out of it and share nothing with what is left, no table is left, and what is left becomes the hoisted form under whatever renaming the table around it gets |
| `Walks.WalkedOneMore` | scripts/dump_openapi.py:72-87 | walking one member after another keeps what the walk of the earlier ones achieved |
| `InPlace.Document.RewriteRefs` | scripts/dump_openapi.py:60-70 | exactly the objects reachable from the slot are rewritten, in place, each as if once |
| `Objects.TreeRewritten` | scripts/dump_openapi.py:60-70 | what lies in the rewritten part reads as the rewritten document |
| `Tabling.ComponentsRewritten` | scripts/dump_openapi.py:84-86 | rewriting the object rewrites the components it holds, because they are the same objects, and leaves every other component as it was |
| `Tabling.TableObjWalked` | scripts/dump_openapi.py:77-86 | an object whose table was hoisted, rewritten and deleted is the hoisted form of what it was |
| `InPlace.Document.EnsureComponent` | scripts/dump_openapi.py:51-58 | the component returned is the first candidate name that is free or already holds equal content; nothing else changes |
| `Hoist.FindTarget` | scripts/dump_openapi.py:51-58 | the search over `name`, `name__2`, `name__3` and on ends, because names never repeat and the table is finite |
| `Hoist.DecimalReadsBack` | scripts/dump_openapi.py:52-56 | the suffix is the number in decimal |
| `InPlace.Document.Allocate` | scripts/dump_openapi.py:78-83 | every entry of a table gets a component with its content, at the first candidate name that is free or holds it when its turn comes, and only entries become components |
| `Sharing.EqualIsSharedExactly` | scripts/dump_openapi.py:46-58 | a definition that an earlier table also had under the same name is given a component that is there already if and only if it holds no local reference, or its own table has just placed an equal entry under a candidate name |
| `Sharing.SharedIfDistinct` | scripts/dump_openapi.py:46-58 | the second case needs another entry with equal content in the same table |
| `Sharing.RecursiveSplit` | scripts/dump_openapi.py:46-58 | any two tables whose one entry is the same definition with a local reference leave two components |
| `Sharing.SelfReferenceSplits` | scripts/dump_openapi.py:46-58 | two tables that both define `A` by a reference to `A` leave `A` and `A__2` |
| `Sharing.SharedWithinTable` | scripts/dump_openapi.py:51-58 | with another `A` among the components, the entries `A` and `A__2` of one table, equal and self-referring, share one component |
| `Hoist.CleanStays` | scripts/dump_openapi.py:60-70 | rewriting again changes nothing |
| `Lexer.StripLiterals` | scripts/check_architecture.py:311-357 | the array after the loop is the source with exactly the spans of the tokenization blanked, newlines kept |
| `Lexer.BlankSpan` | scripts/check_architecture.py:360-364 | blanks one span in place and touches nothing else |
| `Lexer.QuotedLiteralEnd` | scripts/check_architecture.py:367-383 | the end is one past the first quote that an even run of backslashes precedes, or the end of the text; always past the start and within the text |
| `Lexer.QuotedIsFirstClose` | scripts/check_architecture.py:367-383 | skipping escaped pairs finds that same quote |
| `Lexer.CountHashes` | scripts/check_architecture.py:407-411 | the run of `#` is as long as it can be |
| `Grammar.TokenMeans` | scripts/check_architecture.py:367-450 | what the scan takes for a token at a position, and where that ends, is what a grammar without a scan says of line and block comments, quoted, raw, character and prefixed literals |
| `Grammar.OneTokenization` | scripts/check_architecture.py:311-357 | spans in order, each a token of that grammar, with no token starting outside them, are the blanked spans: a text has one tokenization |
| `Grammar.KeepsLineComments` | scripts/check_architecture.py:311-357 | keeping line comments blanks the same spans but for the line comments |
| `Lexer.LinesStay` | scripts/check_architecture.py:311-364 | length and every newline are those of the source, and every changed character is a space |
| `Lexer.NoLiteralLeft` | scripts/check_architecture.py:311-357 | the skeleton holds no `"`, no `//` and no `/*` |
| `Lexer.Idempotent` | scripts/check_architecture.py:311-357 | the skeleton of a skeleton is itself |
| `Lexer.FullIsAtMostKeeping` | scripts/check_architecture.py:311-357 | the full skeleton and the comment-keeping one agree except where the full one shows a space |
| `Lexer.BodyEnd` | scripts/check_architecture.py:453-478 | finds the brace that closes the body, or that there is none |
| `Lexer.OneBody` | scripts/check_architecture.py:453-478 | there is at most one such brace |
| `Lexer.GateBeforeLock` | scripts/check_architecture.py:1288-1320 | reports exactly the bodies that have a lock call and pass a gate before any |
| `Crawl.MineToFixedPoint` | scripts/fetch_feishu_docs.py:262-292 | keeps the ledger invariants and a file at the place of a mined address exactly if its entry is stored, knows only what must be known, knows everything within the rounds it made, and on convergence everything the files cite |
| `Crawl.ConvergedIsLeast` | scripts/fetch_feishu_docs.py:262-292 | on convergence the known addresses are the least set closed under the links of the first files and of every document fetched |
| `Crawl.LinksStayCited` | scripts/fetch_feishu_docs.py:276-287 | deleting the file of an alias removes no cross-link |
| `Crawl.AliasesAreCopies` | scripts/fetch_feishu_docs.py:276-291 | an alias leads to a file with its own digest, and no two mined documents that are kept share one |
| `Crawl.AddedAreStored` | scripts/fetch_feishu_docs.py:262-292 | the files mining adds are exactly the places of the addresses booked as stored, each with what was fetched there: the copy at an alias is gone |
| `Crawl.RecordKeeps` | scripts/fetch_feishu_docs.py:272-291 | recording one result keeps every invariant of the mining state |
| `ConfigUpgrade.ScalarValues` | scripts/upgrade_local_config.py:51-65 | the reader returns the scalars by path, a later line winning |
| `ConfigUpgrade.UpgradeText` | scripts/upgrade_local_config.py:112-164 | which of the four results comes out, and the exact text on success |
| `ConfigUpgrade.ReadsBack` | scripts/upgrade_local_config.py:143-160 | the output read again has exactly the template's keys, each with the migrated value if there is one and the template's otherwise |
| `ConfigUpgrade.LineByLine` | scripts/upgrade_local_config.py:143-160 | every line of the output is the template's line, but for scalars that carry a migrated value; those keep indent and key |
| `ConfigUpgrade.StopsBeforeLoss` | scripts/upgrade_local_config.py:135-141 | the upgrade stops at a key if and only if it would silently change what the old configuration says there |
| `ConfigUpgrade.NothingLost` | scripts/upgrade_local_config.py:112-164 | a finished upgrade keeps every value of the old configuration under a key of the template, other than the four with rules of their own |
| `ConfigUpgrade.OutputValues` | scripts/upgrade_local_config.py:112-164 | the value of every key of the output in terms of old text, template and rules |
| `ConfigUpgrade.SucceedsExactly` | scripts/upgrade_local_config.py:77-103 | an upgrade that gets to its output passes the current check if and only if the template is usable and the carried token secret is not the placeholder |
| `ConfigUpgrade.SecondUpgradeChangesNothing` | scripts/upgrade_local_config.py:112-164 | upgrading the output again succeeds and reads the same, whatever new secret is drawn |
| `Fixtures.ColumnLetter` | scripts/make_xlsx_fixtures.py:53-60 | a non-empty word over A to Z whose value in bijective base 26 is the column number plus one |
| `Fixtures.OneWord` | scripts/make_xlsx_fixtures.py:53-60 | different words have different values, so numbering is a bijection |
| `Fixtures.SharedStrings.Index` | scripts/make_xlsx_fixtures.py:90-94 | the number returned is the position of the text in order of first appearance, and the counts are the calls and the distinct texts |
| `Fixtures.SameNumberSameText` | scripts/make_xlsx_fixtures.py:90-94 | two calls get the same number exactly when they name the same text, whatever came between |
| `Fixtures.EscapeReadsBack` | scripts/make_xlsx_fixtures.py:63-64 | reading the escaped text gives the text back, and it holds no angle bracket |
| `Alerts.ProgressHeartbeat.Mark` | src/infrastructure/feishu_approval_worker.rs:396-413 | clears the flag and reports whether it was set |
| `Alerts.ChangesAlternate` | src/infrastructure/feishu_approval_worker.rs:394-472 | under every interleaving of marks, the watchdog's lock sections and the writing of lines outside the lock, the flag is set and cleared in turns, and each change has exactly one line, written or still owed, with its idle time |
| `Alerts.LinesAlternateExactly` | src/infrastructure/feishu_approval_worker.rs:394-472 | stalled and resumed lines take turns, and are then the changes in order, if and only if, whenever both are owed, they are written in the order of the changes |
| `Alerts.PromptIsInTurn` | src/infrastructure/feishu_approval_worker.rs:394-472 | which is so if neither side changes the flag while the other owes its line |
| `Alerts.ResumedBeforeStalled` | src/infrastructure/feishu_approval_worker.rs:461-468 | the worker marks between the setting of the flag and the warning, and the recovery is written before the stall |
| `Alerts.IdleShown` | src/infrastructure/feishu_approval_worker.rs:454-468 | the idle time of a warning is the time since the last mark when it was read, whatever the worker does before and after, and it is at least the threshold if and only if the worker did not move between the question and the reading, or that long ago |
| `Alerts.WarningCanBeLate` | src/infrastructure/feishu_approval_worker.rs:454-468 | a warning can go out with idle time zero |
| `Alerts.SeedFailures.NoteFailure` | src/infrastructure/feishu_approval_worker.rs:892-907 | warns exactly when the event before it for that configuration was not the same failure |
| `Alerts.SeedFailures.NoteSuccess` | src/infrastructure/feishu_approval_worker.rs:910-916 | reports recovery exactly on the first success after a failure |
| `Lookup.UniqueRecordIds` | src/infrastructure/feishu_approval_worker.rs:1189-1201 | the distinct non-empty ids that were asked for |
| `Lookup.LoadSlice` | src/infrastructure/feishu_approval_worker.rs:1083-1102 | returns all rows of the slice, and refuses exactly when the last expected page is full |
| `Lookup.LoadTasksByRecord` | src/infrastructure/feishu_approval_worker.rs:1073-1107 | a result covers exactly the requested records that have a row, for any history, duplicates and blanks; with a unique key there always is a result |
| `Lookup.GuardHolds` | src/infrastructure/feishu_approval_worker.rs:1087-1099 | with a unique key the page guard never fires |
| `Lookup.OneLookup` | src/infrastructure/feishu_approval_worker.rs:1073-1107 | with a unique key the result is determined |
| `Secrets.ValidateToken` | src/config/mod.rs:1164-1180 | passes exactly when the ring is small enough, its keys well formed and its key ids distinct |
| `Secrets.ValidateStepUp` | src/config/mod.rs:1204-1245 | passes exactly when the ring is well formed, its ids and secrets distinct, and no secret is a token secret |
| `Secrets.ValidateEmail` | src/config/mod.rs:1249-1308 | passes exactly when the e-mail secrets differ from each other and from both rings |
| `Secrets.ValidateVerificationSecret` | src/config/mod.rs:1312-1328 | passes exactly when the secret is in neither ring |
| `Secrets.ChecksSeparate` | src/config/mod.rs:988-1021 | the scattered comparisons together are pairwise disjointness of all seven secret domains |
| `Secrets.Validate` | src/config/mod.rs:985-1021 | settings pass if and only if each value is well formed and no two purposes share a secret |
| `Secrets.TokenRingMayRepeat` | src/config/mod.rs:1164-1180 | a token ring that repeats a secret passes where the step-up ring would not |

## Left out

- HTTP transport, token refresh, database and cache drivers, tracing and metrics; an outside call is its outcome.
- Form conversion, attachment transfer and external option resolution: signatures, options and file outcomes are given values.
- Message wording, links and summaries.
- Regular expressions, file walking and the TOML parser: match positions, link sets, line classes and decoded values are parameters.
- Round timing, back-off schedules and metrics of `run_round`, and the automatic retry of a read-only group round.
- Deleting a configuration, which removes its groups whatever their phase once no task of it is in flight; the group protocol counts removals by cleanup and by leaving only.
- Ownership.SupersededWritesNothing: dropping an unreadable member of a submitted group (`detach_member_as_terminal`) updates by id without an owner test; it is a step of both transition systems, with any other row as its target.
- Detaching a record from its group by a click on that record is a step of the group and ownership protocols, not of the click model in `BatchClick.dfy`.
- A seeding failure that makes the transaction roll back: a click either completes or leaves the tables as they were, and only the first case is modelled.
- `coverage_gate` and `reconcile` of the document mirror, range checks on single configuration numbers, and the separation of the integration's own secrets: easy members.
- `text_element` and the XML around the shared strings.
- InPlace.Document.Walk: members are walked in any order, so the result is proved for every order of the members rather than for the listed one.
- Sharing.EqualIsSharedExactly: the two tables are settled one after the other; that components only grow in between is `InPlace.Document.Rebase`.
- InPlace.Document.Allocate: names are given out in any order of the entries, so the result is proved for every order rather than for the listed one.
- Alerts.ChangesAlternate: one worker loop and one watchdog, as the worker starts them; stage and task shown in a line are left out.
- Crawl.MineToFixedPoint: the downloads of one round finish in any order, each address is fetched once.
- Lookup.LoadSlice: the pages of one query come from one listing that does not change in between.
- BatchClick.Seeder.SeedRound: single clicks and polls are told apart by what they may reopen and discover; the choice itself is not modelled.
- Notification.ToldAtMostOnce: groups settle by other rules and are not covered; neither is the summary of a round.
- Notification.NoticeSilencesReason: what a turned-away click is told is about the click and is not counted as telling the record's conclusion.
- JointRuns.ClickOrphansNothing: the group row removed when a single click takes the last member out is counted as retired, whatever its phase, as in the group protocol.
