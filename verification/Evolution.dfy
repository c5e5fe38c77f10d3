/** How the database can change while some of its rows are locked by somebody else. */
module Evolution {
  import opened Model
  import opened Results
  import opened Requests
  import Campaigns
  import Moderation
  import Profiles

  type Config = Profiles.Config

  datatype Row =
    | SeatsRow
    | ProfileRow(user: Id)
    | CampaignRow(campaign: Id)
    | AssignmentRow(assignment: Id)
    | SubmissionRow(submission: Id)
    | DisputeRow(dispute: Id)
    | AccountRow(holder: Id)

  predicate Exists(db: Db, row: Row) {
    match row
    case SeatsRow => db.seats.Some?
    case ProfileRow(u) => u in db.profiles
    case CampaignRow(c) => c in db.campaigns
    case AssignmentRow(a) => a in db.assignments
    case SubmissionRow(s) => s in db.submissions
    case DisputeRow(d) => d in db.disputes
    case AccountRow(u) => u in db.accounts
  }

  /** The rows a request selects for update, and the existing rows it overwrites. Saving a contract
      also waits for its campaign, which the service reads without a lock. */
  function Locks(db: Db, r: Request): set<Row> {
    match r
    case UpsertProfile(user, _, _) =>
      if user in db.profiles then {ProfileRow(user)} else if db.seats.Some? then {SeatsRow} else {}
    case CreateCampaign(_, _, _) => {}
    case UpdateCampaign(c, _, _) => {CampaignRow(c)}
    case UpsertContract(c, _, _) => {CampaignRow(c)}
    case PublishCampaign(c, owner) => {CampaignRow(c), AccountRow(owner)}
    case LaunchCampaign(_, owner, _, _) => {AccountRow(owner)}
    case TransitionCampaign(c, _, action) =>
      {CampaignRow(c)} + (if action == Campaigns.Close then ApplicationRows(db.assignments, c) else {})
    case Apply(_, c, _) => {CampaignRow(c)}
    case Accept(a, _) => {AssignmentRow(a)} + CampaignOf(db, a)
    case Decline(a, _) => {AssignmentRow(a)}
    case Withdraw(a, _) => {AssignmentRow(a)} + CampaignOf(db, a)
    case Start(a, _) => {AssignmentRow(a)}
    case RecordSession(a, _) => {AssignmentRow(a)}
    case Submit(_, a, _, _) => {AssignmentRow(a)}
    case Examine(s, _, decision) =>
      {SubmissionRow(s)} +
      (if s in db.submissions then DecisionRows(db, db.submissions[s].assignment, decision == Approve) else {})
    case Escalate(_, a, _, _) => {AssignmentRow(a)}
    case Claim(d, _) => {DisputeRow(d)}
    case Resolve(d, _, ruling) =>
      {DisputeRow(d)} + (if d in db.disputes then RulingRows(db, db.disputes[d], ruling) else {})
  }

  function ApplicationRows(assignments: map<Id, Assignment>, c: Id): set<Row> {
    set a | a in WithStatus(assignments, c, {Applied}) :: AssignmentRow(a)
  }

  function CampaignOf(db: Db, a: Id): set<Row> {
    if a in db.assignments then {CampaignRow(db.assignments[a].campaign)} else {}
  }

  /** The assignment, its campaign, and the account to be paid. */
  function DecisionRows(db: Db, a: Id, pays: bool): set<Row> {
    {AssignmentRow(a)} + CampaignOf(db, a) +
    (if pays && a in db.assignments then {AccountRow(db.assignments[a].tester)} else {})
  }

  /** A ruling that touches the work locks its submission too. */
  function RulingRows(db: Db, d: Dispute, ruling: Moderation.Ruling): set<Row> {
    if ruling.remedy == AwardTester then DisputedRow(d) + DecisionRows(db, d.assignment, true)
    else {AssignmentRow(d.assignment)} + (if IsPending(db, d.assignment) then DisputedRow(d) else {})
  }

  function DisputedRow(d: Dispute): set<Row> {
    if d.submission.Some? then {SubmissionRow(d.submission.value)} else {}
  }

  predicate IsPending(db: Db, a: Id) {
    a in db.assignments && db.assignments[a].status == Submitted
  }

  // ----- the relation -----------------------------------------------------------------------

  /** Published terms are frozen; a locked campaign and its contract do not change at all. */
  predicate CampaignEvolves(c: Campaign, d: Campaign, locked: bool) {
    && d.owner == c.owner
    && (c.status != Draft ==> d.status != Draft && d.target == c.target && d.reward == c.reward)
    && (locked ==> d == c)
  }

  ghost predicate CampaignsEvolve(c1: map<Id, Campaign>, c2: map<Id, Campaign>, held: set<Row>) {
    forall c :: c in c1 ==> c in c2 && CampaignEvolves(c1[c], c2[c], CampaignRow(c) in held)
  }

  ghost predicate ContractsEvolve(c1: map<Id, Campaign>, k1: map<Id, Contract>, k2: map<Id, Contract>, held: set<Row>) {
    forall c :: c in c1 && (c1[c].status != Draft || CampaignRow(c) in held) ==>
      && (c in k1 <==> c in k2)
      && (c in k1 ==> k2[c] == k1[c])
  }

  predicate Working(s: AssignmentStatus) {
    s.Accepted? || s.InProgress? || s.Submitted? || s.ChangesRequested?
  }

  /** What may happen to an assignment whose campaign is locked by somebody else. */
  predicate Drift(a: Assignment, b: Assignment) {
    && b.campaign == a.campaign && b.tester == a.tester && b.acceptedAt == a.acceptedAt
    && (|| b.status == a.status
        || (Working(a.status) && (Working(b.status) || b.status.Rejected?))
        || (a.status.Applied? && b.status.Cancelled?))
  }

  ghost predicate AssignmentsEvolve(a1: map<Id, Assignment>, a2: map<Id, Assignment>, held: set<Row>) {
    && (forall a :: a in a1 ==>
          && a in a2 && a2[a].campaign == a1[a].campaign && a2[a].tester == a1[a].tester
          && (AssignmentRow(a) in held ==> a2[a] == a1[a])
          && (CampaignRow(a1[a].campaign) in held ==> Drift(a1[a], a2[a])))
    && (forall a :: a in a2 && CampaignRow(a2[a].campaign) in held ==> a in a1)
  }

  ghost predicate SubmissionsEvolve(s1: map<Id, Submission>, s2: map<Id, Submission>, held: set<Row>) {
    && (forall s :: s in s1 ==>
          && s in s2 && s2[s] == s1[s].(status := s2[s].status)
          && (AssignmentRow(s1[s].assignment) in held || SubmissionRow(s) in held ==> s2[s] == s1[s]))
    && (forall s :: s in s2 && AssignmentRow(s2[s].assignment) in held ==> s in s1)
  }

  ghost predicate ReviewsEvolve(r1: map<Id, Review>, r2: map<Id, Review>) {
    forall s :: s in r1 ==> s in r2 && r2[s] == r1[s]
  }

  predicate DisputeEvolves(d: Dispute, e: Dispute) {
    e.assignment == d.assignment && e.submission == d.submission && e.openedBy == d.openedBy
  }

  ghost predicate DisputesEvolve(d1: map<Id, Dispute>, d2: map<Id, Dispute>, held: set<Row>) {
    && (forall d :: d in d1 ==>
          && d in d2 && DisputeEvolves(d1[d], d2[d])
          && (DisputeRow(d) in held ==> d2[d] == d1[d])
          && (AssignmentRow(d1[d].assignment) in held ==> d2[d].IsActive() == d1[d].IsActive()))
    && (forall d :: d in d2 && AssignmentRow(d2[d].assignment) in held ==> d in d1)
  }

  ghost predicate SessionsEvolve(x1: set<Session>, x2: set<Session>, held: set<Row>) {
    x1 <= x2 && forall x :: x in x2 && AssignmentRow(x.assignment) in held ==> x in x1
  }

  ghost predicate AccountsEvolve(b1: map<Id, int>, b2: map<Id, int>, held: set<Row>) {
    forall u :: u in b1 ==> u in b2 && (AccountRow(u) in held ==> b2[u] == b1[u])
  }

  ghost predicate ProfilesEvolve(p1: map<Id, string>, p2: map<Id, string>, held: set<Row>) {
    forall u :: u in p1 ==> u in p2 && (ProfileRow(u) in held ==> p2[u] == p1[u])
  }

  /** Nobody joins while the seat counter is locked, or without it being created. */
  ghost predicate SeatsEvolve(s1: Option<int>, p1: map<Id, string>, s2: Option<int>, p2: map<Id, string>,
                              held: set<Row>)
  {
    && (s1.Some? ==> s2.Some?)
    && (SeatsRow in held || s2.None? ==> s2 == s1 && p2.Keys == p1.Keys)
  }

  /** `after` can be reached from `before` by others while the rows of `held` are locked. */
  ghost predicate Evolves(before: Db, after: Db, held: set<Row>) {
    && ProfilesEvolve(before.profiles, after.profiles, held)
    && SeatsEvolve(before.seats, before.profiles, after.seats, after.profiles, held)
    && CampaignsEvolve(before.campaigns, after.campaigns, held)
    && ContractsEvolve(before.campaigns, before.contracts, after.contracts, held)
    && AssignmentsEvolve(before.assignments, after.assignments, held)
    && SubmissionsEvolve(before.submissions, after.submissions, held)
    && ReviewsEvolve(before.reviews, after.reviews)
    && DisputesEvolve(before.disputes, after.disputes, held)
    && SessionsEvolve(before.sessions, after.sessions, held)
    && AccountsEvolve(before.accounts, after.accounts, held)
    && before.ledger <= after.ledger
  }

  lemma Unchanged(db: Db, held: set<Row>)
    ensures Evolves(db, db, held)
  {
  }

  lemma Transitive(a: Db, b: Db, c: Db, held: set<Row>)
    requires Evolves(a, b, held) && Evolves(b, c, held)
    ensures Evolves(a, c, held)
  {
    DisputesTransitive(a.disputes, b.disputes, c.disputes, held);
    SubmissionsTransitive(a.submissions, b.submissions, c.submissions, held);
    AssignmentsTransitive(a.assignments, b.assignments, c.assignments, held);
    hide DisputesEvolve, SubmissionsEvolve, AssignmentsEvolve;
  }

  lemma DisputesTransitive(a: map<Id, Dispute>, b: map<Id, Dispute>, c: map<Id, Dispute>, held: set<Row>)
    requires DisputesEvolve(a, b, held) && DisputesEvolve(b, c, held)
    ensures DisputesEvolve(a, c, held)
  {
  }

  lemma SubmissionsTransitive(a: map<Id, Submission>, b: map<Id, Submission>, c: map<Id, Submission>, held: set<Row>)
    requires SubmissionsEvolve(a, b, held) && SubmissionsEvolve(b, c, held)
    ensures SubmissionsEvolve(a, c, held)
  {
  }

  lemma AssignmentsTransitive(a: map<Id, Assignment>, b: map<Id, Assignment>, c: map<Id, Assignment>, held: set<Row>)
    requires AssignmentsEvolve(a, b, held) && AssignmentsEvolve(b, c, held)
    ensures AssignmentsEvolve(a, c, held)
  {
  }
}
