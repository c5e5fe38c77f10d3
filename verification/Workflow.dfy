/** One tester's way through a campaign: applying, testing, submitting, being reviewed, escalating. */
module Workflow {
  import opened Results
  import opened Model
  import Campaigns
  import Credits
  import Sets
  import StorageKeys

  function Lookup(db: Db, assignment: Id): Result<Assignment> {
    var _ :- Need(assignment in db.assignments, AssignmentNotFound);
    Ok(db.assignments[assignment])
  }

  /** The assignment, when `tester` is the one assigned to it. */
  function OwnAssignment(db: Db, assignment: Id, tester: Id): Result<Assignment> {
    var a :- Lookup(db, assignment);
    var _ :- Need(a.tester == tester, NotTheTester);
    Ok(a)
  }

  predicate HasApplied(assignments: map<Id, Assignment>, campaign: Id, tester: Id) {
    exists a | a in assignments :: assignments[a].campaign == campaign && assignments[a].tester == tester
  }

  function Apply(db: Db, id: Id, campaign: Id, tester: Id): Result<Writes> {
    var _ :- Need(tester in db.profiles, ProfileRequired);
    var _ :- Need(campaign in db.campaigns, CampaignNotFound);
    var c := db.campaigns[campaign];
    var _ :- Need(c.status == Published, NotAcceptingTesters);
    var _ :- Need(c.owner != tester, OwnCampaign);
    var _ :- Need(!HasApplied(db.assignments, campaign, tester), AlreadyApplied);
    var _ :- Need(Occupied(db.assignments, campaign) < c.target, CampaignFull);
    var _ :- Need(id !in db.assignments, IntegrityViolation);
    Ok(NOTHING.(assignments := map[id := Assignment(campaign, tester, Applied, None, None, None, None)]))
  }

  function Accept(db: Db, now: Time, assignment: Id, owner: Id): Result<Writes> {
    var a :- Lookup(db, assignment);
    var c :- Campaigns.OwnCampaign(db, a.campaign, owner);
    var _ :- Need(c.status == Published, NotAcceptingTesters);
    var _ :- Need(a.status == Applied, NotPendingApplication);
    var _ :- Need(Occupied(db.assignments, a.campaign) < c.target, CampaignFull);
    Ok(NOTHING.(assignments := map[assignment := a.(status := Accepted, acceptedAt := Some(now))]))
  }

  function Decline(db: Db, now: Time, assignment: Id, owner: Id): Result<Writes> {
    var a :- Lookup(db, assignment);
    var _ :- Campaigns.OwnCampaign(db, a.campaign, owner);
    var _ :- Need(a.status == Applied, NotPendingApplication);
    Ok(NOTHING.(assignments := map[assignment := a.(status := Cancelled, completedAt := Some(now))]))
  }

  function Withdraw(db: Db, now: Time, assignment: Id, tester: Id): Result<Writes> {
    var a :- OwnAssignment(db, assignment, tester);
    var _ :- Need(a.status in {Applied, Accepted, InProgress, ChangesRequested}, NotWithdrawable);
    var _ :- Need(a.campaign in db.campaigns, CampaignNotFound);
    var row := map[assignment := a.(status := Cancelled, completedAt := Some(now))];
    var c := Campaigns.MaybeComplete(db.campaigns[a.campaign], a.campaign, db.assignments + row);
    Ok(NOTHING.(assignments := row, campaigns := map[a.campaign := c]))
  }

  function Start(db: Db, now: Time, assignment: Id, tester: Id): Result<Writes> {
    var a :- OwnAssignment(db, assignment, tester);
    var _ :- Need(a.status == Accepted, NotAccepted);
    var session := Session(assignment, DayOf(now));
    var _ :- Need(session !in db.sessions, IntegrityViolation);
    Ok(NOTHING.(assignments := map[assignment := a.(status := InProgress, startedAt := Some(now))],
                sessions := {session}))
  }

  function RecordSession(db: Db, now: Time, assignment: Id, tester: Id): Result<Writes> {
    var a :- OwnAssignment(db, assignment, tester);
    var _ :- Need(a.status == InProgress || a.status == ChangesRequested, NotTesting);
    var session := Session(assignment, DayOf(now));
    var _ :- Need(session !in db.sessions, SessionAlreadyRecorded);
    Ok(NOTHING.(sessions := {session}))
  }

  function SessionDays(sessions: set<Session>, assignment: Id): set<Session> {
    set s | s in sessions && s.assignment == assignment
  }

  function Versions(submissions: map<Id, Submission>, assignment: Id): set<int> {
    set s | s in SubmissionsOf(submissions, assignment) :: submissions[s].version
  }

  function LatestVersion(submissions: map<Id, Submission>, assignment: Id): int {
    Sets.Max(Versions(submissions, assignment))
  }

  datatype Evidence = Evidence(specificSummary: bool, items: seq<Item>)

  type EvidencePayload = e: Evidence | 1 <= |e.items| <= 50
    witness Evidence(false, [Item(None, None, true, None)])

  function TaskIds(tasks: seq<Task>): set<Id> {
    set t | t in tasks :: t.id
  }

  function RequiredTaskIds(tasks: seq<Task>): set<Id> {
    set t | t in tasks && t.evidenceRequired :: t.id
  }

  function CoveredTaskIds(items: seq<Item>): set<Id> {
    set i | i in items && i.task.Some? :: i.task.value
  }

  /** The first fault among the items, in their order. */
  function CheckItems(folder: string, items: seq<Item>): Result<()> {
    if items == [] then Ok(())
    else
      var _ :- Need(items[0].HasContent(), EmptyEvidence);
      var _ :- Need(items[0].storageKey.Some? ==> StorageKeys.Accepts(folder, items[0].storageKey.value),
                    BadStorageKey);
      CheckItems(folder, items[1..])
  }

  function Submit(db: Db, now: Time, id: Id, assignment: Id, tester: Id, e: EvidencePayload): Result<Writes> {
    var a :- OwnAssignment(db, assignment, tester);
    var _ :- Need(a.status == InProgress || a.status == ChangesRequested, NotReadyToSubmit);
    var _ :- Need(a.campaign in db.contracts, ContractNotFound);
    var contract := db.contracts[a.campaign];
    var _ :- Need(a.startedAt.Some?, NotStarted);
    var _ :- Need(now >= a.startedAt.value + contract.minimumDays * DAY, TooEarly);
    var _ :- Need(|SessionDays(db.sessions, assignment)| >= contract.requiredSessions, TooFewSessions);
    var covered := CoveredTaskIds(e.items);
    var _ :- Need(covered <= TaskIds(contract.tasks), ForeignTask);
    var _ :- Need(RequiredTaskIds(contract.tasks) <= covered, MissingEvidence);
    var _ :- CheckItems(StorageKeys.FolderName(assignment), e.items);
    var _ :- Need(id !in db.submissions, IntegrityViolation);
    var version := LatestVersion(db.submissions, assignment) + 1;
    Ok(NOTHING.(
      submissions := map[id := Submission(assignment, version, e.specificSummary, e.items, Pending, now)],
      assignments := map[assignment := a.(status := Submitted, submittedAt := Some(now))]))
  }

  predicate HasActiveDispute(disputes: map<Id, Dispute>, assignment: Id) {
    exists d | d in disputes :: disputes[d].assignment == assignment && disputes[d].IsActive()
  }

  predicate HasDispute(disputes: map<Id, Dispute>, assignment: Id) {
    exists d | d in disputes :: disputes[d].assignment == assignment
  }

  /** Approving a submission: both rows, the reward, and the campaign if it is now finished. */
  function Approval(db: Db, now: Time, id: Id, s: Submission, assignment: Id, a: Assignment, c: Campaign)
    : Result<Writes>
  {
    var paid :- Credits.Record(db, Credits.RewardEntry(assignment, a.tester, c.reward));
    var row := map[assignment := a.(status := Approved, completedAt := Some(now))];
    var settled := Campaigns.MaybeComplete(c, a.campaign, db.assignments + row);
    Ok(paid.(submissions := map[id := s.(status := Passed)], assignments := row,
             campaigns := map[a.campaign := settled]))
  }

  function Examine(db: Db, now: Time, id: Id, reviewer: Id, decision: Decision): Result<Writes> {
    var _ :- Need(id in db.submissions, SubmissionNotFound);
    var s := db.submissions[id];
    var a :- Lookup(db, s.assignment);
    var c :- Campaigns.OwnCampaign(db, a.campaign, reviewer);
    var _ :- Need(!HasActiveDispute(db.disputes, s.assignment), EscalationActive);
    var _ :- Need(s.status == Pending, AlreadyReviewed);
    var _ :- Need(a.status == Submitted, NotAwaitingReview);
    var _ :- Need(id !in db.reviews, IntegrityViolation);
    var outcome :- match decision
      case Approve => Approval(db, now, id, s, s.assignment, a, c)
      case RequestChanges =>
        Ok(NOTHING.(submissions := map[id := s.(status := ToChange)],
                    assignments := map[s.assignment := a.(status := ChangesRequested)]))
      case Reject =>
        Ok(NOTHING.(submissions := map[id := s.(status := Refused)],
                    assignments := map[s.assignment := a.(status := Rejected)]));
    Ok(outcome.(reviews := map[id := Review(reviewer, decision)]))
  }

  function Escalate(db: Db, now: Time, id: Id, assignment: Id, user: Id, submission: Option<Id>): Result<Writes> {
    var a :- Lookup(db, assignment);
    var _ :- Need(a.campaign in db.campaigns, CampaignNotFound);
    var _ :- Need(user == a.tester || user == db.campaigns[a.campaign].owner, PrivateWorkspace);
    var _ :- Need(user == a.tester, NotTheTester);
    var _ :- Need(a.status == Rejected || a.status == Submitted, NotEscalatable);
    var _ :- Need(submission.Some?, SubmissionRequired);
    var _ :- Need(submission.value in db.submissions &&
                  db.submissions[submission.value].assignment == assignment, ForeignSubmission);
    var s := db.submissions[submission.value];
    var _ :-
      if a.status == Submitted then
        var _ :- Need(s.status == Pending, NotPending);
        var _ :- Need(a.campaign in db.contracts, ContractNotFound);
        Need(now >= s.submittedAt + db.contracts[a.campaign].reviewWindowHours * HOUR, ReviewWindowOpen)
      else Need(s.status == Refused, NotRejected);
    var _ :- Need(!HasDispute(db.disputes, assignment), AlreadyDisputed);
    var _ :- Need(id !in db.disputes, IntegrityViolation);
    Ok(NOTHING.(disputes := map[id := Dispute(assignment, submission, user, Open, None, None, None)]))
  }
}
