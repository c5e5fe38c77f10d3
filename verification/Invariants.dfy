/** What every committed state of the exchange satisfies. */
module Invariants {
  import opened Model
  import opened Results
  import Credits
  import Profiles
  import Sets
  import StorageKeys
  import Workflow

  // ----- campaigns and contracts ------------------------------------------------------------

  predicate CampaignFits(c: Campaign, id: Id, profiles: map<Id, string>, contracts: map<Id, Contract>) {
    && c.owner in profiles && c.target >= 1 && c.reward >= 1
    && (c.status == Draft <==> c.publishedAt.None?)
    && (c.status != Draft ==> id in contracts)
    && (id in contracts ==>
          && (contracts[id].locked <==> c.status != Draft)
          && contracts[id].tasks != [])
  }

  /** A campaign is owned by a profile; its contract is locked exactly when it is not a draft. */
  ghost predicate Drafted(profiles: map<Id, string>, campaigns: map<Id, Campaign>, contracts: map<Id, Contract>) {
    && (forall c :: c in campaigns ==> CampaignFits(campaigns[c], c, profiles, contracts))
    && (forall c :: c in contracts ==> c in campaigns)
  }

  // ----- assignments ------------------------------------------------------------------------

  /** The timestamps an assignment carries in each status. */
  predicate Stamped(a: Assignment) {
    && (a.status.Applied? ==> a.acceptedAt.None?)
    && (!a.status.Applied? && !a.status.Cancelled? ==> a.acceptedAt.Some?)
    && (a.status.Applied? || a.status.Accepted? ==> a.startedAt.None?)
    && (a.status.InProgress? || Late(a.status) ==> a.startedAt.Some?)
    && (a.status.Approved? || a.status.Cancelled? ==> a.completedAt.Some?)
    && (a.completedAt.Some? ==> a.status.Approved? || a.status.Cancelled? || a.status.Rejected?)
  }

  predicate AssignmentFits(a: Assignment, profiles: map<Id, string>, campaigns: map<Id, Campaign>) {
    && a.campaign in campaigns && campaigns[a.campaign].status != Draft
    && a.tester in profiles && a.tester != campaigns[a.campaign].owner
    && Stamped(a)
  }

  ghost predicate Assigned(profiles: map<Id, string>, campaigns: map<Id, Campaign>, assignments: map<Id, Assignment>) {
    && (forall a :: a in assignments ==> AssignmentFits(assignments[a], profiles, campaigns))
    && (forall a, b | a in assignments && b in assignments && a != b ::
          assignments[a].campaign != assignments[b].campaign || assignments[a].tester != assignments[b].tester)
  }

  // ----- submissions ------------------------------------------------------------------------

  /** The status an assignment shares with its latest submission. */
  function Mirror(s: SubmissionStatus): AssignmentStatus {
    match s
    case Pending => Submitted
    case ToChange => ChangesRequested
    case Passed => Approved
    case Refused => Rejected
  }

  /** Before the first submission. */
  predicate Early(s: AssignmentStatus) {
    s.Applied? || s.Accepted? || s.InProgress?
  }

  /** From the first submission on, unless withdrawn. */
  predicate Late(s: AssignmentStatus) {
    s.Submitted? || s.ChangesRequested? || s.Approved? || s.Rejected?
  }

  predicate SubmissionFits(s: Submission, assignments: map<Id, Assignment>) {
    && s.assignment in assignments
    && (s.status != ToChange ==> assignments[s.assignment].status == Mirror(s.status))
    && !Early(assignments[s.assignment].status)
  }

  ghost predicate HasMirror(submissions: map<Id, Submission>, assignment: Id, status: AssignmentStatus) {
    exists s :: s in submissions && submissions[s].assignment == assignment && Mirror(submissions[s].status) == status
  }

  ghost predicate VersionsOrdered(submissions: map<Id, Submission>) {
    forall s, t :: s in submissions && t in submissions && submissions[s].assignment == submissions[t].assignment ==>
      && (s != t ==> submissions[s].version != submissions[t].version)
      && (submissions[s].version < submissions[t].version ==> submissions[s].status == ToChange)
  }

  ghost predicate SubmissionsFit(assignments: map<Id, Assignment>, submissions: map<Id, Submission>) {
    forall s :: s in submissions ==> SubmissionFits(submissions[s], assignments)
  }

  ghost predicate VersionsCounted(submissions: map<Id, Submission>) {
    forall s :: s in submissions ==>
      1 <= submissions[s].version <= |SubmissionsOf(submissions, submissions[s].assignment)|
  }

  ghost predicate Mirrored(assignments: map<Id, Assignment>, submissions: map<Id, Submission>) {
    forall a :: a in assignments && Late(assignments[a].status) ==> HasMirror(submissions, a, assignments[a].status)
  }

  /** The n submissions of an assignment have the versions 1 to n; only the latest submission may be other than "changes
      requested", and then it has the status of its assignment. */
  ghost predicate History(assignments: map<Id, Assignment>, submissions: map<Id, Submission>) {
    && SubmissionsFit(assignments, submissions)
    && VersionsOrdered(submissions)
    && VersionsCounted(submissions)
    && Mirrored(assignments, submissions)
  }

  // ----- reviews ----------------------------------------------------------------------------

  /** An approved submission with a rejecting review is one a moderator awarded. */
  predicate ReviewFits(decision: Decision, status: SubmissionStatus) {
    match decision
    case Approve => status == Passed
    case RequestChanges => status == ToChange
    case Reject => status == Refused || status == Passed
  }

  ghost predicate Reviewed(submissions: map<Id, Submission>, reviews: map<Id, Review>) {
    && (forall s :: s in reviews ==> s in submissions && ReviewFits(reviews[s].decision, submissions[s].status))
    && (forall s :: s in submissions && submissions[s].status == ToChange ==> s in reviews)
  }

  // ----- disputes ---------------------------------------------------------------------------

  predicate DisputeFits(d: Dispute, assignments: map<Id, Assignment>, submissions: map<Id, Submission>,
                        reviews: map<Id, Review>) {
    && d.assignment in assignments
    && d.submission.Some? && d.submission.value in submissions
    && var s := submissions[d.submission.value];
       var status := assignments[d.assignment].status;
    && s.assignment == d.assignment
    && d.openedBy == assignments[d.assignment].tester
    && Mirror(s.status) == status
    && (if d.IsActive() then status.Submitted? || status.Rejected? else status.Rejected? || status.Approved?)
    && (d.status == Open ==> d.assignedTo.None?)
    && (d.status != Open ==> d.assignedTo.Some?)
    && (d.IsActive() ==> d.remedy.None?)
    && (!d.IsActive() ==>
          d.resolvedBy == d.assignedTo && d.remedy == Some(if status.Approved? then AwardTester else NoRemedy))
    && (d.submission.value in reviews ==> reviews[d.submission.value].decision == Reject)
    && (d.IsActive() && status == Rejected ==> d.submission.value in reviews)
  }

  ghost predicate HasClosedDispute(disputes: map<Id, Dispute>, assignment: Id) {
    exists d :: d in disputes && disputes[d].assignment == assignment && !disputes[d].IsActive()
  }

  /** At most one dispute per assignment, always about its latest submission. A submission refused
      without a review was refused by a moderator. */
  ghost predicate Disputes(assignments: map<Id, Assignment>, submissions: map<Id, Submission>,
                           reviews: map<Id, Review>, disputes: map<Id, Dispute>) {
    && (forall d :: d in disputes ==> DisputeFits(disputes[d], assignments, submissions, reviews))
    && (forall d, e :: d in disputes && e in disputes && disputes[d].assignment == disputes[e].assignment ==> d == e)
    && (forall s :: s in submissions && submissions[s].status == Refused && s !in reviews ==>
          HasClosedDispute(disputes, submissions[s].assignment))
  }

  // ----- credits ----------------------------------------------------------------------------

  predicate EntryFits(e: Entry, grant: int, profiles: map<Id, string>, campaigns: map<Id, Campaign>,
                      assignments: map<Id, Assignment>) {
    match e.key
    case SignupKey(u) =>
      e.kind == SignupGrant && e.user == u && u in profiles && e.delta == grant && grant > 0
    case PostingKey(c) =>
      && e.kind == Posting && c in campaigns && campaigns[c].status != Draft
      && e.user == campaigns[c].owner && e.delta == -(campaigns[c].target * campaigns[c].reward)
    case RewardKey(a) =>
      && e.kind == Reward && a in assignments && assignments[a].status == Approved
      && e.user == assignments[a].tester
      && assignments[a].campaign in campaigns && e.delta == campaigns[assignments[a].campaign].reward
  }

  /** Grants, postings and rewards correspond one to one to profiles, published campaigns and
      approved assignments. */
  ghost predicate Ledgered(grant: int, profiles: map<Id, string>, campaigns: map<Id, Campaign>,
                           assignments: map<Id, Assignment>, ledger: seq<Entry>) {
    && (forall i :: 0 <= i < |ledger| ==> EntryFits(ledger[i], grant, profiles, campaigns, assignments))
    && (forall i, j :: 0 <= i < j < |ledger| ==> ledger[i].key != ledger[j].key)
    && (forall u :: u in profiles && grant > 0 ==> Credits.HasKey(ledger, SignupKey(u)))
    && (forall c :: c in campaigns && campaigns[c].status != Draft ==> Credits.HasKey(ledger, PostingKey(c)))
    && (forall a :: a in assignments && assignments[a].status == Approved ==> Credits.HasKey(ledger, RewardKey(a)))
  }

  /** Every account holds the sum of its entries, and never held less than nothing. */
  ghost predicate Balanced(profiles: map<Id, string>, accounts: map<Id, int>, ledger: seq<Entry>) {
    && accounts.Keys == profiles.Keys
    && (forall u :: u in accounts ==> accounts[u] == Credits.Balance(ledger, u))
    && (forall i :: 0 <= i < |ledger| ==> ledger[i].user in accounts)
    && (forall u, k: nat :: k <= |ledger| ==> Credits.Balance(ledger[..k], u) >= 0)
  }

  /** What a campaign has moved between its owner and its testers so far. */
  function Term(c: Campaign, approved: int): int {
    if c.status == Draft then 0 else c.reward * (approved - c.target)
  }

  ghost function Net(campaigns: map<Id, Campaign>, assignments: map<Id, Assignment>): int {
    Sets.Sum(campaigns.Keys,
      c => if c in campaigns then Term(campaigns[c], |WithStatus(assignments, c, {Approved})|) else 0)
  }

  ghost predicate Booked(campaigns: map<Id, Campaign>, assignments: map<Id, Assignment>, ledger: seq<Entry>) {
    Credits.Total(ledger) == Credits.Grants(ledger) + Net(campaigns, assignments)
  }

  // ----- capacity and completion ------------------------------------------------------------

  ghost predicate Overridden(submissions: map<Id, Submission>, reviews: map<Id, Review>, assignment: Id) {
    exists s :: s in submissions && submissions[s].assignment == assignment && submissions[s].status == Passed &&
                s in reviews && reviews[s].decision == Reject
  }

  /** The approved assignments whose owner had rejected the work. */
  ghost function Overrides(assignments: map<Id, Assignment>, submissions: map<Id, Submission>,
                           reviews: map<Id, Review>, campaign: Id): set<Id> {
    set a | a in WithStatus(assignments, campaign, {Approved}) && Overridden(submissions, reviews, a)
  }

  ghost predicate Capacity(campaigns: map<Id, Campaign>, assignments: map<Id, Assignment>,
                           submissions: map<Id, Submission>, reviews: map<Id, Review>) {
    forall c :: c in campaigns ==>
      Occupied(assignments, c) <= campaigns[c].target + |Overrides(assignments, submissions, reviews, c)|
  }

  ghost predicate ProgressFits(c: Campaign, id: Id, assignments: map<Id, Assignment>) {
    && (c.status == Published || c.status == Paused ==> |WithStatus(assignments, id, {Approved})| < c.target)
    && (c.status == Closed ==>
          && WithStatus(assignments, id, {Applied}) == {}
          && (EverAccepted(assignments, id) == {} || WithStatus(assignments, id, ACTIVE + {Rejected}) != {}))
  }

  /** An open campaign is short of approvals; a closed one has no pending application and, once a
      tester was accepted, still has work going on or rejected work. */
  ghost predicate Progress(campaigns: map<Id, Campaign>, assignments: map<Id, Assignment>) {
    forall c :: c in campaigns ==> ProgressFits(campaigns[c], c, assignments)
  }

  // ----- time -------------------------------------------------------------------------------

  ghost predicate AssignmentClock(a: Assignment, id: Id, sessions: set<Session>, t: Time) {
    && (a.startedAt.Some? ==> a.startedAt.value <= t && Session(id, DayOf(a.startedAt.value)) in sessions)
    && (forall s :: s in sessions && s.assignment == id ==>
          a.startedAt.Some? && DayOf(a.startedAt.value) <= s.day <= DayOf(t))
  }

  predicate LongEnough(started: Option<Time>, submitted: Time, k: Contract) {
    && started.Some?
    && DayOf(submitted) - DayOf(started.value) >= k.requiredSessions - 1
    && DayOf(submitted) - DayOf(started.value) >= k.minimumDays
  }

  predicate SubmissionClock(s: Submission, assignments: map<Id, Assignment>, contracts: map<Id, Contract>) {
    && s.assignment in assignments
    && var a := assignments[s.assignment];
    && a.campaign in contracts && a.submittedAt.Some?
    && LongEnough(a.startedAt, s.submittedAt, contracts[a.campaign])
    && LongEnough(a.startedAt, a.submittedAt.value, contracts[a.campaign])
  }

  ghost predicate Clocked(contracts: map<Id, Contract>, assignments: map<Id, Assignment>, sessions: set<Session>,
                          submissions: map<Id, Submission>, t: Time) {
    && (forall a :: a in assignments ==> AssignmentClock(assignments[a], a, sessions, t))
    && (forall s :: s in sessions ==> s.assignment in assignments)
    && (forall s :: s in submissions ==> SubmissionClock(submissions[s], assignments, contracts))
  }

  // ----- evidence ---------------------------------------------------------------------------

  predicate ItemFits(i: Item, assignment: Id) {
    i.HasContent() && (i.storageKey.Some? ==>
                       StorageKeys.Accepts(StorageKeys.FolderName(assignment), i.storageKey.value))
  }

  predicate EvidenceFits(s: Submission, assignments: map<Id, Assignment>, contracts: map<Id, Contract>) {
    && s.assignment in assignments && assignments[s.assignment].campaign in contracts
    && var tasks := contracts[assignments[s.assignment].campaign].tasks;
    && Workflow.RequiredTaskIds(tasks) <= Workflow.CoveredTaskIds(s.items) <= Workflow.TaskIds(tasks)
    && forall k :: 0 <= k < |s.items| ==> ItemFits(s.items[k], s.assignment)
  }

  ghost predicate Evidenced(contracts: map<Id, Contract>, assignments: map<Id, Assignment>,
                            submissions: map<Id, Submission>) {
    forall s :: s in submissions ==> EvidenceFits(submissions[s], assignments, contracts)
  }

  // ----- seats ------------------------------------------------------------------------------

  predicate Seated(cfg: Profiles.Config, profiles: map<Id, string>, seats: Option<int>) {
    |profiles| <= cfg.maxUsers && (seats.Some? ==> seats.value == |profiles|)
  }

  /** The invariant of the exchange at time `t`, for one deployment. */
  ghost predicate Inv(cfg: Profiles.Config, db: Db, t: Time) {
    && Drafted(db.profiles, db.campaigns, db.contracts)
    && Assigned(db.profiles, db.campaigns, db.assignments)
    && History(db.assignments, db.submissions)
    && Reviewed(db.submissions, db.reviews)
    && Disputes(db.assignments, db.submissions, db.reviews, db.disputes)
    && Ledgered(cfg.signupGrant, db.profiles, db.campaigns, db.assignments, db.ledger)
    && Balanced(db.profiles, db.accounts, db.ledger)
    && Booked(db.campaigns, db.assignments, db.ledger)
    && Capacity(db.campaigns, db.assignments, db.submissions, db.reviews)
    && Progress(db.campaigns, db.assignments)
    && Clocked(db.contracts, db.assignments, db.sessions, db.submissions, t)
    && Evidenced(db.contracts, db.assignments, db.submissions)
    && Seated(cfg, db.profiles, db.seats)
  }
}
