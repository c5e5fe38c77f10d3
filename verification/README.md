# TestExchange, verified

TestExchange lets the owner of a campaign spend credits to have testers try an application, and pays
each tester whose evidence is approved. This project models the exchange in Dafny and proves what its
services keep: for every sequence of requests, for every interleaving of transactions under row locks,
and for every trace of the rate limiter.

`dafny verify dfyconfig.toml` checks everything.

## How it is built

- `Model` has the tables as maps of rows, and `Writes`, the rows one request inserts or overwrites.
  Campaign status `Closed` is the stored value `cancelled`; a submission is `Pending`, `ToChange`,
  `Passed` or `Refused` for `submitted`, `changes_requested`, `approved` or `rejected`; a dispute is
  `Dismissed` for `rejected`.
- `Credits`, `Campaigns`, `Workflow`, `Moderation` and `Profiles` say for each service function which
  rows it writes, or which refusal it raises, with the checks in the order the service makes them.
- `Exchange` is the service itself: a class whose fields are the tables, with one method for each
  service function that checks, loops and updates in place, proved against those specifications, and
  `Serve`, the session around it that commits or rolls back.
- `Invariants` is the invariant of the exchange. `Success`, `Effects` and `Preservation` prove that each
  request keeps it, `Runs` that every run does. `Refusals` has the exact answer of each request on every
  reachable database, and `Changes` what the accepted ones leave, both in terms of the rows alone.
- `RowLocks` cuts the requests at every row lock: any number of transactions acquire rows one at a time,
  decide on the rows they read and on what is committed then, and commit or abort, in any interleaving.
  A commit aborts when a unique column refuses a row it inserts, so that sign-ups, drafts and launches
  race for user names, slugs and the seat counter. `Evolution` is what a transaction may rely on while it
  holds its locks, `Guarantees` proves that every request respects the locks of the others, `Agreement`
  that a decision taken under locks is still the right one when it is committed, `Settling` exactly when
  it is not. `Histories` makes serial runs a special case, so that everything below holds for both.
- `Serializing` proves that every history is the run of its committed requests, one after the other, with
  `Reordering` for writes that commute and `Lookups` for the rows a request finds. `Races` shows that
  transactions can get that far, and one race that the locks leave open.
- `Lifecycles`, `Finality`, `Money`, `Versioning`, `Escalations`, `Places`, `Completing`, `Arrivals`,
  `Admission`, `Safety` and `Quality` draw the consequences, in the terms of the product.
- `StorageKeys` is about evidence paths. `RateLimit` is the limiter, a class with mutable windows;
  `Throttling` proves its bounds over traces, and reads every verdict off the calls alone.

## Two promises the code does not keep

1. A campaign asks for a target number of testers and every application, acceptance and resumption
   checks it. `resolve_dispute` does not: an award takes rejected work to approved without looking at
   capacity. `Scenarios.TargetCanBeExceeded` is a run that ends with two testers in a campaign for one.
   `Places.OnlyAwardsOverfill` says exactly which request does it, and `Places.CapacityWithOverrides`
   bounds the excess by the number of such awards.
2. The backend guide says that a closed campaign completes after its accepted assignments are settled
   (`docs/backend-guide.md:59-60`). A rejection settles work without looking at completion.
   `Scenarios.ClosedCampaignCanStall` is a run that leaves such a campaign closed, and
   `Completing.OnlyRejectionsStall` says exactly when that happens.

Under row locks a commit is not always its request served at that moment. A moderator's dismissal locks
the assignment but not its campaign, so a closing, withdrawing or approving transaction that counted active
work before may leave a closed campaign open for completion. `Races.CommitCanBeLate` is a history in which
the owner's closing does. `RowLocks.FinishIsSerial` says exactly when: the campaign is closed, work in it
was active when the transaction decided, and none is when it commits. The outcome is still serial, in the
other order: by `Serializing.EveryHistoryIsSerializable` such a transaction counts from its decision, and
every other one from its commit.

## Model

| member | source | states |
|---|---|---|
| Exchange.Exchange.Serve | app/db/session.py:24-31 | one request in one session: success is committed, a refusal leaves the store exactly as it was, and the whole invariant holds before and after |
| Exchange.Exchange.EnsureAccount | app/services/credits.py:11-17 | the user has an account, with the old balance or zero |
| Exchange.Exchange.RecordEntry | app/services/credits.py:29-70 | a known key changes nothing; otherwise the entry is appended and the balance moved, unless it is zero or an overdraft |
| Credits.KeysPostOnce | app/services/credits.py:42-69 | a key is posted at most once, whoever asks again; otherwise the entry goes to the end of the ledger and moves one balance, which stays at zero or above |
| Exchange.Exchange.ClaimSeat | app/services/profiles.py:35-52 | a seat is counted from the counter, or from the profiles when there is none, and never beyond the cap |
| Exchange.Exchange.Enrol | app/services/profiles.py:53-68 | a newcomer gets a profile, an account, and the grant if there is one |
| Exchange.Exchange.UpsertProfile | app/services/profiles.py:15-82 | renames an existing profile or admits a newcomer, with every refusal in order |
| Exchange.Exchange.CreateCampaign | app/services/campaigns.py:34-48 | a draft with a free slug |
| Exchange.Exchange.UpdateCampaign | app/services/campaigns.py:51-68 | target and reward of a draft change exactly where they were sent, by its owner |
| Exchange.Exchange.AddTasks | app/services/campaigns.py:129-130 | appends all tasks in their positions and touches no other contract |
| Exchange.Exchange.UpsertContract | app/services/campaigns.py:103-140 | the next version of an unlocked contract, with the new terms and exactly the new tasks |
| Exchange.Exchange.PublishCampaign | app/services/campaigns.py:157-200 | posts the spend, publishes and locks, or refuses; publishing again changes nothing |
| Exchange.Exchange.LaunchCampaign | app/services/campaigns.py:203-212 | create, contract and publish as one |
| Exchange.Exchange.MaybeComplete | app/services/campaigns.py:215-266 | completes the campaign exactly when its target is approved, or it is closed with accepted work all settled |
| Exchange.Exchange.DeclinePending | app/services/campaigns.py:302-315 | every pending application of the campaign is cancelled, and no other row changes |
| Exchange.Exchange.TransitionCampaign | app/services/campaigns.py:269-349 | pause, resume when a place is free, or close with declined applications and a completion check |
| Exchange.Exchange.ApplyToCampaign | app/services/workflow.py:51-102 | one application per tester, to an open campaign with a free place, not to one's own |
| Exchange.Exchange.AcceptAssignment | app/services/workflow.py:116-168 | accepts a pending application while a place is free |
| Exchange.Exchange.Cancel | app/services/workflow.py:181-182 | status and completion time of one row, nothing else |
| Exchange.Exchange.DeclineAssignment | app/services/workflow.py:171-201 | cancels a pending application |
| Exchange.Exchange.WithdrawAssignment | app/services/workflow.py:204-247 | cancels before a decision is pending, and completes the campaign if that settles it |
| Exchange.Exchange.StartAssignment | app/services/workflow.py:250-274 | starts accepted work and records the first day |
| Exchange.Exchange.RecordTestingSession | app/services/workflow.py:289-332 | one session per day while testing is active |
| Exchange.Exchange.CheckItems | app/services/workflow.py:394-398 | passes exactly when every item has content and a key of the folder, otherwise reports the first fault |
| Exchange.Exchange.CreateSubmission | app/services/workflow.py:349-449 | the next version of the evidence, after the days, sessions and task checks |
| Exchange.Exchange.ApproveWork | app/services/workflow.py:560-576 | approves submission and assignment, posts the reward, checks completion |
| Exchange.Exchange.Decide | app/services/workflow.py:559-582 | what each of the three decisions writes |
| Exchange.Exchange.CreateReview | app/services/workflow.py:514-603 | one review of pending work, by the owner, when nobody escalated it |
| Exchange.Exchange.OpenDispute | app/services/workflow.py:649-708 | one dispute per assignment, on a rejection or on work pending past the review window |
| Exchange.Exchange.ClaimDispute | app/services/moderation.py:128-151 | an open dispute gets one moderator; claiming one's own again changes nothing |
| Exchange.Exchange.Remedy | app/services/moderation.py:175-222 | an award approves and pays, a dismissal refuses pending work, anything else leaves the work alone |
| Exchange.Exchange.ResolveDispute | app/services/moderation.py:154-258 | the ruling of the assigned moderator, with its remedy, closes the dispute |
| Runs.HandleKeeps | app/services/workflow.py:51-708 | each of the eighteen requests keeps the invariant |
| Runs.EveryRunKeeps | app/db/session.py:24-31 | every run of requests from a new database, with or without the seeded seat counter and with a clock that never runs backwards, keeps it |
| Guarantees.Guarantee | app/services/workflow.py:123-134 | whatever a request writes, a transaction holding other rows sees only changes it must expect |
| Agreement.Agrees | app/services/workflow.py:522-549 | a decision taken under the locks of its request is the decision that would be taken on the database it is committed to, or is late with a completion |
| Agreement.SameLocks | app/services/campaigns.py:302-311 | the rows a request needs stay the same while it holds them |
| Agreement.LateKeeps | app/services/campaigns.py:215-243 | leaving a closed campaign with rejected work open keeps the invariant |
| Settling.LateExactlyWhenOutdated | app/services/campaigns.py:215-251 | a decision differs from the one at the commit if and only if its campaign is closed, had active work then and has none now; it then leaves closed what would be completed |
| RowLocks.FinishIsSerial | app/services/workflow.py:116-168 | a committed transaction is its request served alone, at the moment it was decided, if and only if that is not so |
| RowLocks.EveryInterleavingKeeps | app/services/workflow.py:116-247 | every interleaving of any number of transactions, aborts included, keeps the invariant and never locks a row twice |
| Serializing.EveryHistoryIsSerializable | app/db/session.py:24-31 | the committed requests of any history, served one after the other in some order that respects time, are all accepted and lead to the committed database, up to the order of its ledger |
| Reordering.SameAnswers | app/services/credits.py:42-47 | the answer to a request does not depend on the order of the ledger |
| Races.WhoLocks | app/services/moderation.py:154-218 | table by table, which requests wait for a row: whatever counts places or completes waits for the campaign, while sessions, submissions, disputes and dismissals do not |
| Races.CanDecide | app/services/workflow.py:116-134 | whoever finds the needed rows free can lock them and decide as if nobody else were there |
| Races.CommitCanBeLate | app/services/moderation.py:161-186 | a history in which closing a campaign, decided before and committed after a dismissal, leaves it closed where serving it then would complete it |
| Histories.SerialRunsAreHistories | app/db/session.py:24-31 | serving requests one by one is one of the interleavings |
| Histories.DoAdvances | app/services/workflow.py:51-708 | every committed step follows the arrows of the lifecycle and respects what is frozen |
| Histories.Onwards | app/services/campaigns.py:51-68 | from any point of a history on, frozen terms, reviews, sessions and ledger entries only accumulate |
| Lifecycles.HandleAdvances | app/services/workflow.py:148-582 | assignments, disputes, reviews and campaigns move only along their arrows, for every request |
| Safety.CommittedStatesAreSafe | app/services/workflow.py:116-168 | for any number of concurrent clients: capacity up to overrides, open campaigns short of target, at most one reward per assignment, no review on pending work |
| Safety.OnlyTheEntitledChangeAnything | app/services/common.py:37-46 | between two moments of a history the database changes only if somebody entitled to the request committed one |
| Safety.WorkIsMovedByItsParties | app/services/common.py:37-46 | between two moments of a history an assignment changes only if its tester, the owner of its campaign or its moderator committed a request about it |
| Safety.NobodyPaysThemselves | app/services/workflow.py:60-61 | no reward ever goes to the owner of the campaign |
| Money.RewardsAreApprovals | app/services/workflow.py:564-574 | each approved assignment is paid exactly once, its tester, the frozen reward; no other assignment is paid |
| Money.PostingsArePublications | app/services/campaigns.py:171-185 | a campaign is past draft exactly when one posting of target times reward is in the ledger |
| Money.GrantsAreProfiles | app/services/profiles.py:57-68 | each profile has exactly one grant entry if the grant is positive, and nobody else has one |
| Money.NothingElseIsPosted | app/services/credits.py:56-67 | every ledger entry is one of these three |
| Money.ApprovalPays | app/services/workflow.py:560-574 | an approval always appends its reward; the known-key exit is never taken |
| Money.AwardPays | app/services/moderation.py:206-220 | a moderator's award always appends its reward |
| Money.ApprovalNeedsNoFunds | app/services/credits.py:48-54 | an owner can approve exactly when the owner can reject, and is refused for the same reason |
| Money.CreditsAreConserved | app/services/credits.py:51-69 | balances are the sums of their entries, no prefix of a ledger is overdrawn, and all balances add up to the grants plus reward times (approved less target) over published campaigns |
| Versioning.VersionsAreConsecutive | app/services/workflow.py:400-409 | the submissions of an assignment are numbered 1 to n |
| Versioning.SubmissionsMirrorAssignment | app/services/workflow.py:545-582 | only the latest submission is not "changes requested", it has the status of its assignment, and pending work has no review |
| Versioning.TestingTookLongEnough | app/services/workflow.py:366-385 | every submission lies at least required sessions less one, and the minimum duration, in days after the start |
| Versioning.DaysAreRecorded | app/services/workflow.py:256-265 | the first day of testing is on record, and no recorded day lies before it or in the future |
| Versioning.EvidenceFitsTheContract | app/services/workflow.py:386-393 | of every stored submission: each task of the contract in force that requires evidence has an item about it, and each item about a task is about one of the contract |
| Versioning.StoredKeysOpen | app/services/evidence.py:40-51 | every stored file of a disputed assignment passes the moderator's re-check |
| Escalations.DisputesNameTheLatest | app/services/workflow.py:660-687 | at most one dispute per assignment, naming its latest submission; the assignment's status is what the recorded remedy says |
| Escalations.OnlyIndecisionIsRefused | app/services/moderation.py:163-204 | the assigned moderator is refused exactly when resolving pending work without a remedy; all other refusals are dead |
| Escalations.EscalatedIsNeverReviewed | app/services/workflow.py:537-548 | work escalated before a decision is never decided on by its owner, under any interleaving |
| Escalations.ClaimsAreKept | app/services/moderation.py:132-141 | whoever claimed a dispute keeps it, and nobody else closes it |
| Refusals.Creating | app/services/campaigns.py:34-48 | a draft is refused without a profile, for a slug in use, or for an id in use, and otherwise accepted |
| Refusals.Updating | app/services/campaigns.py:51-57 | an update is accepted exactly from the owner of a draft |
| Refusals.SavingTerms | app/services/campaigns.py:111-123 | on every reachable database the terms of a draft can always be saved by its owner: the refusal for a locked contract is dead |
| Refusals.Publishing | app/services/campaigns.py:157-185 | on every reachable database the owner of a draft lacks nothing but a contract or the credits; the refusal for no tasks and the known-key exit are dead |
| Refusals.Launching | app/services/campaigns.py:203-212 | the four reasons for which a launch is refused, in order, and no other |
| Refusals.Transitioning | app/services/campaigns.py:275-300 | which status and how many held places allow pause, resume and close |
| Refusals.Applying | app/services/workflow.py:54-82 | who can apply, and the refusal for everybody else, with the places counted status by status |
| Refusals.Accepting | app/services/workflow.py:119-146 | an owner is refused exactly unless the campaign is open, the application pending and a place free |
| Refusals.Declining | app/services/workflow.py:174-180 | an owner is refused exactly unless the application is pending |
| Refusals.Withdrawing | app/services/workflow.py:207-223 | a tester can withdraw exactly from applied, accepted, started or sent-back work; the campaign is always found |
| Refusals.Starting | app/services/workflow.py:250-263 | accepted work can always be started: no day was recorded for it |
| Refusals.Recording | app/services/workflow.py:298-316 | a day is recorded exactly while testing or after changes were requested, once a day |
| Refusals.FaultIsReported | app/services/workflow.py:394-398 | items pass exactly when each has content and a key in the folder of the assignment; otherwise the refusal is that of the first one that does not |
| Refusals.Submitting | app/services/workflow.py:354-398 | evidence is refused exactly for being early, for too few days, for an item about no task of the contract, for a required task no item answers, or for its first faulty item, in this order |
| Refusals.Examining | app/services/workflow.py:519-548 | on every reachable database the owner can decide either way on pending work that is not in moderation; no other refusal can be met |
| Refusals.Escalating | app/services/workflow.py:654-680 | only the tester escalates, once, a rejection or work pending past its review window, and the refusal in every other case |
| Refusals.Claiming | app/services/moderation.py:128-141 | an open dispute can be claimed, one's own again at will, and no other |
| Refusals.Resolving | app/services/moderation.py:160-204 | the moderator who claimed a dispute is refused exactly for deciding nothing on pending work |
| Refusals.SigningUp | app/services/profiles.py:21-52 | a rename is refused exactly for a name in use; a newcomer also when the beta is closed or as many profiles exist as it admits |
| Changes.Updated | app/services/campaigns.py:58-68 | a field that was sent has the value sent, any other the one it had, and nothing else changes |
| Changes.TermsSaved | app/services/campaigns.py:114-137 | a saved contract carries every term of the last payload, whatever it said before, unlocked and one version up |
| Changes.Published | app/services/campaigns.py:171-185 | the whole database after publishing: target times reward paid by the owner, the campaign open, its terms locked |
| Changes.Launched | app/services/campaigns.py:203-212 | the whole database after a launch: an open campaign under a first, locked contract, paid for |
| Changes.Closed | app/services/campaigns.py:302-315 | closing cancels the applications of the campaign, at that time, and no other assignment changes |
| Changes.Submitted | app/services/workflow.py:400-424 | the n-th submission of an assignment is its version n, pending from then on |
| Places.CapacityWithOverrides | app/services/workflow.py:139-146 | occupied places are at most the target plus the awards that overrode a rejection |
| Places.OnlyAwardsOverfill | app/services/moderation.py:188-209 | a request takes a campaign past its target if and only if it awards rejected work when no place is left |
| Places.UnfinishedCampaigns | app/services/campaigns.py:215-251 | an open campaign is short of approvals; a closed one has no application, and is waiting for work or holds a rejection |
| Completing.OnlyRejectionsStall | app/services/workflow.py:580-582 | a closed campaign is left uncompleted with its work settled if and only if its owner rejects the last work, pending and not escalated, or its moderator dismisses the escalation |
| Completing.CompletedExactlyWhen | app/services/campaigns.py:215-251 | a request completes a campaign if and only if it settles work in an open one and then as many tests are approved as it asked for, or it closes it, or settles work in a closed one, and then nobody is at work and somebody had been accepted |
| Scenarios.TargetCanBeExceeded | app/services/moderation.py:188-209 | a run after which two testers occupy a campaign for one |
| Scenarios.ClosedCampaignCanStall | app/services/workflow.py:580-582 | a run after which a closed campaign with settled work is not completed |
| Finality.FinalIsFinal | app/services/workflow.py:148-225 | approved, cancelled, and rejected with a closed dispute never change again |
| Finality.AtMostTwicePerTurn | app/services/workflow.py:359-424 | an assignment sent back k times changes status at most 2k + 5 times over any history |
| Finality.TermsAreFrozen | app/services/campaigns.py:51-127 | from publication on, owner, target, reward, contract and its tasks never change |
| Finality.CompletedForGood | app/services/campaigns.py:215-251 | a completed campaign never changes again |
| Arrivals.NewAssignments | app/services/workflow.py:54-82 | whoever applies has a profile, does not own the campaign, had not applied, and found a place in an open campaign |
| Arrivals.NewSubmissions | app/services/workflow.py:359-409 | evidence arrives with the next version, after the minimum duration and the required sessions |
| Arrivals.NewDisputes | app/services/workflow.py:656-687 | a dispute is opened by the tester, once, over a rejection or over work whose review window has passed |
| Arrivals.RecruitingNeedsAPlace | app/services/campaigns.py:287-297 | a campaign that starts to recruit, by publishing, launching or resuming, has a free place |
| Arrivals.NamesAreUnique | app/services/campaigns.py:36-37 | under any interleaving of checks, inserts and aborts at unique columns, no two campaigns share a slug and no two profiles a user name |
| Admission.SeatsAreProfiles | app/services/profiles.py:85-91 | under any interleaving of sign-ups, counter and fallback agree with the number of profiles, which never passes the cap; what the status page shows follows from it |
| Admission.NewcomersGetIn | app/services/profiles.py:25-55 | a newcomer is admitted exactly when the name is free, the beta open and a seat left |
| Admission.LaunchNeedsFunds | app/services/campaigns.py:203-212 | a launch succeeds exactly when the owner can pay, and is refused for nothing else |
| StorageKeys.AcceptedIffEndsBelow | app/services/workflow.py:452-468 | a key is accepted exactly when it is plain and its walk ends strictly below the folder |
| StorageKeys.NeverLeavesFolder | app/services/workflow.py:452-468 | at no point does the walk of an accepted key leave the folder |
| StorageKeys.KeyNamesItsAssignment | app/services/workflow.py:455-463 | no key is accepted for two assignments |
| StorageKeys.SegmentsJoin | app/services/workflow.py:454 | the segments are the key cut at every slash and nowhere else |
| StorageKeys.FolderIsCanonical | app/services/workflow.py:455 | the folder reads back as the assignment's id, in 32 lower-case hexadecimal digits with dashes after the 8th, 12th, 16th and 20th |
| Quality.StoredWorkScoresHalf | app/services/quality.py:47-136 | coverage and content pass for every stored submission, so the score is 50, 75 or 100, and the missing-contract refusal is dead |
| Quality.ChecksMean | app/services/quality.py:58-136 | coverage, content, specificity and observation, element by element; 25 points each, and ready for review exactly at 100 |
| RateLimit.FixedWindowRateLimiter.constructor | app/core/rate_limit.py:37-41 | an empty table |
| RateLimit.FixedWindowRateLimiter.Tidy | app/core/rate_limit.py:46-54 | every thousandth request drops the windows that have run out |
| RateLimit.FixedWindowRateLimiter.WindowFor | app/core/rate_limit.py:56-59 | the open window of the key, or a new one |
| RateLimit.FixedWindowRateLimiter.Count | app/core/rate_limit.py:61 | one more request in the window of one key, in place |
| RateLimit.FixedWindowRateLimiter.Consume | app/core/rate_limit.py:43-69 | new table and verdict are those of the limiter on values |
| Throttling.CleanupIsInvisible | app/core/rate_limit.py:46-59 | call by call, the limiter answers like one that never forgets a window |
| Throttling.TableIsSmall | app/core/rate_limit.py:46-54 | the table holds at most what the last cleanup kept and a thousand windows more |
| Throttling.WindowsAreApart | app/core/rate_limit.py:46-59 | cleanup included, a window opens with one of the requests of its key, and two windows of a key, at any two moments of a trace, start at least a window apart |
| Throttling.SlidingBound | app/core/rate_limit.py:43-69 | at most 2 * limit - 1 requests of a key are allowed in any half-open interval as long as a window |
| Throttling.BoundIsReached | app/core/rate_limit.py:43-69 | that bound is reached, for every window and limit |
| Throttling.DeniedOnlyWhenSpent | app/core/rate_limit.py:61-65 | a denial means that the limit was allowed less than a window ago |
| Throttling.WaitIsSane | app/core/rate_limit.py:63 | the announced wait is between one second and a window |
| Throttling.SilenceIsRewarded | app/core/rate_limit.py:56-69 | a key that waits as announced is admitted next |
| Throttling.VerdictCountsCalls | app/core/rate_limit.py:56-69 | cleanup included, a verdict is read off the calls alone: allowed when the calls of its key since the one that opened its window are within the limit, with the rest of the limit remaining, and the least whole number of seconds to wait |
| Throttling.RemainingIsWhatIsLeft | app/core/rate_limit.py:62 | while a window lasts, a later call of its key with the same limit is allowed if and only if fewer calls than remained came in between |
| Throttling.WaitIsLeast | app/core/rate_limit.py:63 | a denied key that calls again with the same limit a second or more too early is denied again, whoever calls in between |
| Throttling.CleanupIsPeriodic | app/core/rate_limit.py:46-54 | exactly every thousandth call forgets, and it forgets exactly the windows of other keys that have run out |

## Left out

- Exchange.Exchange.UpdateCampaign: models target and reward only; the other fields of an update are texts that nothing else depends on.
- RowLocks.FinishIsSerial: updating campaigns, saving contracts and starting work are single steps under row locks, because their services lock nothing; a step waits for the row it overwrites, and saving a contract also for its campaign, so lost updates between these three and others are not part of this model.
- Serializing.EveryHistoryIsSerializable: the requests are served with the time at which each was decided, so along the serial order these times need not increase.
- RowLocks.EveryInterleavingKeeps: the unlocked reads of a transaction happen together, after its last lock; locks may be taken in any order, which includes the order of the services, and deadlocks end as aborts.
- Lock waiting, deadlock freedom and the liveness of moderators.
- One request reads the clock once; the services read it again for some timestamps.
- Messages, notifications, audit events, waitlist, suspension, profile and campaign texts.
- HTTP routes, authentication, CORS, field lengths and patterns; the ranges of numbers and list lengths in `app/schemas/api.py` are the types of the payloads.
- An update of a campaign that sends an explicit null, which the database would refuse.
- Evidence items are part of their submission row and tasks part of their contract row; replacing the tasks of a draft cannot touch evidence, because drafts have no assignments.
- Unique, primary-key and foreign-key constraints appear as the refusal `IntegrityViolation` where a request could meet them; check constraints follow from the invariant.
- Whether a summary is specific and a note concrete are booleans; the phrases and lengths behind them are not modelled.
- Signing evidence URLs, and everything else that calls an outside service.
- Rounding of floating-point clocks: the limiter runs on real numbers, the exchange on whole microseconds.
- The thread lock of the limiter: its calls are one after the other.
