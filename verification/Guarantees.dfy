/** What each request guarantees to the transactions that hold other rows. */
module Guarantees {
  import opened Model
  import opened Results
  import opened Invariants
  import opened Evolution
  import opened Requests
  import Campaigns
  import Credits
  import Effects
  import Moderation
  import Preservation
  import Profiles
  import Success
  import Workflow

  // ----- one row at a time ------------------------------------------------------------------

  lemma OneAssignment(assignments: map<Id, Assignment>, a: Id, x: Assignment, held: set<Row>)
    requires AssignmentRow(a) !in held && x.status != Applied
    requires a in assignments && x.campaign == assignments[a].campaign && x.tester == assignments[a].tester
    requires CampaignRow(x.campaign) in held ==> Drift(assignments[a], x)
    ensures AssignmentsEvolve(assignments, assignments + map[a := x], held)
  {
  }

  lemma NewAssignment(assignments: map<Id, Assignment>, a: Id, x: Assignment, held: set<Row>)
    requires a !in assignments && CampaignRow(x.campaign) !in held
    ensures AssignmentsEvolve(assignments, assignments + map[a := x], held)
  {
  }

  lemma DeclinedAssignments(assignments: map<Id, Assignment>, c: Id, now: Time, held: set<Row>)
    requires held !! ApplicationRows(assignments, c) && CampaignRow(c) !in held
    ensures AssignmentsEvolve(assignments, assignments + Campaigns.Declined(assignments, c, now), held)
  {
    forall a | a in WithStatus(assignments, c, {Applied})
      ensures AssignmentRow(a) !in held
    {
      assert AssignmentRow(a) in ApplicationRows(assignments, c);
    }
  }

  lemma OneCampaign(campaigns: map<Id, Campaign>, c: Id, x: Campaign, held: set<Row>)
    requires c in campaigns ==> CampaignRow(c) !in held && CampaignEvolves(campaigns[c], x, false)
    ensures CampaignsEvolve(campaigns, campaigns + map[c := x], held)
  {
  }

  lemma DraftContract(campaigns: map<Id, Campaign>, contracts: map<Id, Contract>, c: Id, k: Contract, held: set<Row>)
    requires CampaignRow(c) !in held && (c in campaigns ==> campaigns[c].status == Draft)
    ensures ContractsEvolve(campaigns, contracts, contracts + map[c := k], held)
  {
  }

  lemma OneSubmission(submissions: map<Id, Submission>, s: Id, y: Submission, held: set<Row>)
    requires s in submissions && y == submissions[s].(status := y.status)
    requires AssignmentRow(y.assignment) !in held && SubmissionRow(s) !in held
    ensures SubmissionsEvolve(submissions, submissions + map[s := y], held)
  {
  }

  lemma NewSubmission(submissions: map<Id, Submission>, s: Id, y: Submission, held: set<Row>)
    requires s !in submissions && AssignmentRow(y.assignment) !in held
    ensures SubmissionsEvolve(submissions, submissions + map[s := y], held)
  {
  }

  lemma NewReview(reviews: map<Id, Review>, s: Id, r: Review)
    requires s !in reviews
    ensures ReviewsEvolve(reviews, reviews + map[s := r])
  {
  }

  /** A dispute changes without its assignment locked only by being claimed. */
  lemma OneDispute(disputes: map<Id, Dispute>, d: Id, e: Dispute, held: set<Row>)
    requires d in disputes && DisputeEvolves(disputes[d], e) && DisputeRow(d) !in held
    requires AssignmentRow(e.assignment) in held ==> e.IsActive() == disputes[d].IsActive()
    ensures DisputesEvolve(disputes, disputes + map[d := e], held)
  {
  }

  lemma NewDispute(disputes: map<Id, Dispute>, d: Id, e: Dispute, held: set<Row>)
    requires d !in disputes && AssignmentRow(e.assignment) !in held
    ensures DisputesEvolve(disputes, disputes + map[d := e], held)
  {
  }

  lemma NewSession(sessions: set<Session>, x: Session, held: set<Row>)
    requires AssignmentRow(x.assignment) !in held
    ensures SessionsEvolve(sessions, sessions + {x}, held)
  {
  }

  lemma OneAccount(accounts: map<Id, int>, u: Id, balance: int, held: set<Row>)
    requires u in accounts ==> AccountRow(u) !in held
    ensures AccountsEvolve(accounts, accounts + map[u := balance], held)
  {
  }

  lemma Still(db: Db, held: set<Row>)
    ensures Evolves(db, db, held)
    ensures ProfilesEvolve(db.profiles, db.profiles, held)
    ensures SeatsEvolve(db.seats, db.profiles, db.seats, db.profiles, held)
    ensures CampaignsEvolve(db.campaigns, db.campaigns, held)
    ensures ContractsEvolve(db.campaigns, db.contracts, db.contracts, held)
    ensures AssignmentsEvolve(db.assignments, db.assignments, held)
    ensures SubmissionsEvolve(db.submissions, db.submissions, held)
    ensures ReviewsEvolve(db.reviews, db.reviews)
    ensures DisputesEvolve(db.disputes, db.disputes, held)
    ensures SessionsEvolve(db.sessions, db.sessions, held)
    ensures AccountsEvolve(db.accounts, db.accounts, held)
    ensures forall e :: db.ledger <= db.ledger + [e]
  {
  }

  lemma All(before: Db, after: Db, held: set<Row>)
    requires ProfilesEvolve(before.profiles, after.profiles, held)
    requires SeatsEvolve(before.seats, before.profiles, after.seats, after.profiles, held)
    requires CampaignsEvolve(before.campaigns, after.campaigns, held)
    requires ContractsEvolve(before.campaigns, before.contracts, after.contracts, held)
    requires AssignmentsEvolve(before.assignments, after.assignments, held)
    requires SubmissionsEvolve(before.submissions, after.submissions, held)
    requires ReviewsEvolve(before.reviews, after.reviews)
    requires DisputesEvolve(before.disputes, after.disputes, held)
    requires SessionsEvolve(before.sessions, after.sessions, held)
    requires AccountsEvolve(before.accounts, after.accounts, held)
    requires before.ledger <= after.ledger
    ensures Evolves(before, after, held)
  {
  }

  // ----- requests on campaigns and profiles -------------------------------------------------

  lemma JoinEvolves(cfg: Config, db: Db, t: Time, user: Id, username: string, enabled: bool, held: set<Row>)
    requires Inv(cfg, db, t) && Profiles.Upsert(db, cfg, user, username, enabled).Ok?
    requires if user in db.profiles then ProfileRow(user) !in held else SeatsRow !in held
    ensures Evolves(db, Commit(db, Profiles.Upsert(db, cfg, user, username, enabled).value), held)
  {
    hide *;
    Still(db, held);
    Preservation.Parts(cfg, db, t);
    var after := Commit(db, Profiles.Upsert(db, cfg, user, username, enabled).value);
    OneProfile(db.profiles, user, username, held);
    if user in db.profiles {
      Success.Rename(db, cfg, user, username, enabled);
      SameSeats(db.seats, db.profiles, user, username, held);
    } else {
      Effects.JoinKeepsLedgered(cfg.signupGrant, db.profiles, db.campaigns, db.assignments, db.ledger, user, username);
      Preservation.NoAccountYet(db, user);
      Success.Signup(db, cfg, user, username, enabled);
      Preservation.JoinedIs(db, cfg, user, username);
      NewSeat(db.seats, db.profiles, after.seats, after.profiles, held);
      OneAccount(db.accounts, user, cfg.signupGrant, held);
    }
    All(db, after, held);
  }

  lemma OneProfile(profiles: map<Id, string>, user: Id, username: string, held: set<Row>)
    requires user in profiles ==> ProfileRow(user) !in held
    ensures ProfilesEvolve(profiles, profiles + map[user := username], held)
  {
  }

  lemma SameSeats(seats: Option<int>, profiles: map<Id, string>, user: Id, username: string, held: set<Row>)
    requires user in profiles
    ensures SeatsEvolve(seats, profiles, seats, profiles + map[user := username], held)
  {
  }

  /** Joining creates the counter or raises it under its lock. */
  lemma NewSeat(s1: Option<int>, p1: map<Id, string>, s2: Option<int>, p2: map<Id, string>, held: set<Row>)
    requires SeatsRow !in held && s2.Some?
    ensures SeatsEvolve(s1, p1, s2, p2, held)
  {
  }

  lemma CreateEvolves(db: Db, id: Id, owner: Id, p: Campaigns.CampaignPayload, held: set<Row>)
    requires Campaigns.Create(db, id, owner, p).Ok?
    ensures Evolves(db, Commit(db, Campaigns.Create(db, id, owner, p).value), held)
  {
    hide *;
    Still(db, held);
    Success.Create(db, id, owner, p);
    OneCampaign(db.campaigns, id, Campaign(owner, p.slug, p.target, p.reward, Draft, None), held);
    All(db, Commit(db, Campaigns.Create(db, id, owner, p).value), held);
  }

  lemma UpdateEvolves(db: Db, c: Id, owner: Id, u: Campaigns.CampaignUpdate, held: set<Row>)
    requires Campaigns.Update(db, c, owner, u).Ok? && CampaignRow(c) !in held
    ensures Evolves(db, Commit(db, Campaigns.Update(db, c, owner, u).value), held)
  {
    hide *;
    Still(db, held);
    Success.Update(db, c, owner, u);
    ChangedEvolves(db.campaigns[c], u);
    OneCampaign(db.campaigns, c, Campaigns.Changed(db.campaigns[c], u), held);
    All(db, Commit(db, Campaigns.Update(db, c, owner, u).value), held);
  }

  lemma ChangedEvolves(c: Campaign, u: Campaigns.CampaignUpdate)
    requires c.status == Draft
    ensures CampaignEvolves(c, Campaigns.Changed(c, u), false)
  {
  }

  lemma UpsertContractEvolves(db: Db, c: Id, owner: Id, p: Campaigns.ContractPayload, held: set<Row>)
    requires Campaigns.UpsertContract(db, c, owner, p).Ok? && CampaignRow(c) !in held
    ensures Evolves(db, Commit(db, Campaigns.UpsertContract(db, c, owner, p).value), held)
  {
    hide *;
    Still(db, held);
    Success.UpsertContract(db, c, owner, p);
    DraftContract(db.campaigns, db.contracts, c, Campaigns.Revised(db, c, p), held);
    All(db, Commit(db, Campaigns.UpsertContract(db, c, owner, p).value), held);
  }

  lemma StatusEvolves(c: Campaign, status: CampaignStatus, at: Option<Time>)
    requires status != Draft
    ensures CampaignEvolves(c, c.(status := status), false)
    ensures CampaignEvolves(c, c.(status := status, publishedAt := at), false)
  {
  }

  lemma PublishEvolves(cfg: Config, db: Db, t: Time, now: Time, c: Id, owner: Id, held: set<Row>)
    requires Inv(cfg, db, t) && Campaigns.Publish(db, now, c, owner).Ok?
    requires CampaignRow(c) !in held && AccountRow(owner) !in held
    ensures Evolves(db, Commit(db, Campaigns.Publish(db, now, c, owner).value), held)
  {
    hide *;
    Still(db, held);
    Preservation.Parts(cfg, db, t);
    Success.Publish(db, now, c, owner);
    var after := Commit(db, Campaigns.Publish(db, now, c, owner).value);
    if db.campaigns[c].status == Draft {
      var x := db.campaigns[c].(status := Published, publishedAt := Some(now));
      var e := Campaigns.PostingEntry(c, db.campaigns[c]);
      Preservation.PublishedDraft(db.profiles, db.campaigns, db.contracts, c, now);
      Effects.DraftKeepsEntries(cfg.signupGrant, db.profiles, db.campaigns, db.assignments, db.ledger, c, x);
      StatusEvolves(db.campaigns[c], Published, Some(now));
      OneCampaign(db.campaigns, c, x, held);
      DraftContract(db.campaigns, db.contracts, c, db.contracts[c].(locked := true), held);
      OneAccount(db.accounts, owner, Credits.AccountBalance(db.accounts, owner) + e.delta, held);
      All(db, after, held);
    }
  }

  lemma LaunchEvolves(cfg: Config, db: Db, t: Time, now: Time, id: Id, owner: Id, p: Campaigns.CampaignPayload,
                      k: Campaigns.ContractPayload, held: set<Row>)
    requires Inv(cfg, db, t) && Campaigns.Launch(db, now, id, owner, p, k).Ok?
    requires AccountRow(owner) !in held && (CampaignRow(id) in held ==> id in db.campaigns)
    ensures Evolves(db, Commit(db, Campaigns.Launch(db, now, id, owner, p, k).value), held)
  {
    var created := Campaigns.Create(db, id, owner, p).value;
    var d1 := Commit(db, created);
    var drafted := Campaigns.UpsertContract(d1, id, owner, k).value;
    var d2 := Commit(d1, drafted);
    CommitThen(db, created, drafted);
    var published := Campaigns.Publish(d2, now, id, owner).value;
    CommitThen(db, Then(created, drafted), published);
    hide *;
    Success.Create(db, id, owner, p);
    Preservation.CreateKeeps(cfg, db, t, id, owner, p);
    Preservation.UpsertContractKeeps(cfg, d1, t, id, owner, k);
    CreateEvolves(db, id, owner, p, held);
    UpsertContractEvolves(d1, id, owner, k, held);
    PublishEvolves(cfg, d2, t, now, id, owner, held);
    Transitive(db, d1, d2, held);
    Transitive(db, d2, Commit(d2, published), held);
  }

  lemma TransitionEvolves(db: Db, now: Time, c: Id, owner: Id, action: Campaigns.Action, held: set<Row>)
    requires Campaigns.Transition(db, now, c, owner, action).Ok? && CampaignRow(c) !in held
    requires action == Campaigns.Close ==> held !! ApplicationRows(db.assignments, c)
    ensures Evolves(db, Commit(db, Campaigns.Transition(db, now, c, owner, action).value), held)
  {
    hide *;
    Still(db, held);
    Success.Transition(db, now, c, owner, action);
    var row := db.campaigns[c];
    var after := Commit(db, Campaigns.Transition(db, now, c, owner, action).value);
    if action == Campaigns.Close {
      var left := db.assignments + Campaigns.Declined(db.assignments, c, now);
      DeclinedAssignments(db.assignments, c, now, held);
      SettledEvolves(row, Closed, c, left);
      OneCampaign(db.campaigns, c, Campaigns.MaybeComplete(row.(status := Closed), c, left), held);
    } else {
      var status := if action == Campaigns.Pause then Paused else Published;
      StatusEvolves(row, status, None);
      OneCampaign(db.campaigns, c, row.(status := status), held);
    }
    All(db, after, held);
  }

  lemma SettledEvolves(row: Campaign, status: CampaignStatus, c: Id, assignments: map<Id, Assignment>)
    requires status != Draft
    ensures CampaignEvolves(row, Campaigns.MaybeComplete(row.(status := status), c, assignments), false)
    ensures row.status != Draft ==> CampaignEvolves(row, Campaigns.MaybeComplete(row, c, assignments), false)
  {
  }

  // ----- requests on one assignment ---------------------------------------------------------

  lemma ApplyEvolves(db: Db, id: Id, c: Id, tester: Id, held: set<Row>)
    requires Workflow.Apply(db, id, c, tester).Ok? && CampaignRow(c) !in held
    ensures Evolves(db, Commit(db, Workflow.Apply(db, id, c, tester).value), held)
  {
    hide *;
    Still(db, held);
    Success.Apply(db, id, c, tester);
    NewAssignment(db.assignments, id, Assignment(c, tester, Applied, None, None, None, None), held);
    All(db, Commit(db, Workflow.Apply(db, id, c, tester).value), held);
  }

  lemma AcceptEvolves(db: Db, now: Time, a: Id, owner: Id, held: set<Row>)
    requires Workflow.Accept(db, now, a, owner).Ok? && AssignmentRow(a) !in held
    requires a in db.assignments ==> CampaignRow(db.assignments[a].campaign) !in held
    ensures Evolves(db, Commit(db, Workflow.Accept(db, now, a, owner).value), held)
  {
    hide *;
    Still(db, held);
    Success.Accept(db, now, a, owner);
    OneAssignment(db.assignments, a, db.assignments[a].(status := Accepted, acceptedAt := Some(now)), held);
    All(db, Commit(db, Workflow.Accept(db, now, a, owner).value), held);
  }

  lemma DeclineEvolves(db: Db, now: Time, a: Id, owner: Id, held: set<Row>)
    requires Workflow.Decline(db, now, a, owner).Ok? && AssignmentRow(a) !in held
    ensures Evolves(db, Commit(db, Workflow.Decline(db, now, a, owner).value), held)
  {
    hide *;
    Still(db, held);
    Success.Decline(db, now, a, owner);
    Drifts(db.assignments[a], now);
    OneAssignment(db.assignments, a, db.assignments[a].(status := Cancelled, completedAt := Some(now)), held);
    All(db, Commit(db, Workflow.Decline(db, now, a, owner).value), held);
  }

  /** The changes made without a lock on the campaign. */
  lemma Drifts(a: Assignment, now: Time)
    ensures a.status.Applied? ==> Drift(a, a.(status := Cancelled, completedAt := Some(now)))
    ensures a.status.Accepted? ==> Drift(a, a.(status := InProgress, startedAt := Some(now)))
    ensures a.status.InProgress? || a.status.ChangesRequested? ==>
              Drift(a, a.(status := Submitted, submittedAt := Some(now)))
    ensures a.status.Submitted? ==> Drift(a, a.(status := Rejected, completedAt := Some(now)))
  {
  }

  lemma WithdrawEvolves(cfg: Config, db: Db, t: Time, now: Time, a: Id, tester: Id, held: set<Row>)
    requires Inv(cfg, db, t) && Workflow.Withdraw(db, now, a, tester).Ok? && AssignmentRow(a) !in held
    requires a in db.assignments ==> CampaignRow(db.assignments[a].campaign) !in held
    ensures Evolves(db, Commit(db, Workflow.Withdraw(db, now, a, tester).value), held)
  {
    hide *;
    Still(db, held);
    Preservation.Parts(cfg, db, t);
    Success.Withdraw(db, now, a, tester);
    Preservation.RowFits(db.profiles, db.campaigns, db.assignments, a);
    var x := db.assignments[a].(status := Cancelled, completedAt := Some(now));
    var left := db.assignments + map[a := x];
    OneAssignment(db.assignments, a, x, held);
    SettledEvolves(db.campaigns[x.campaign], Published, x.campaign, left);
    OneCampaign(db.campaigns, x.campaign, Campaigns.MaybeComplete(db.campaigns[x.campaign], x.campaign, left), held);
    All(db, Commit(db, Workflow.Withdraw(db, now, a, tester).value), held);
  }

  lemma StartEvolves(db: Db, now: Time, a: Id, tester: Id, held: set<Row>)
    requires Workflow.Start(db, now, a, tester).Ok? && AssignmentRow(a) !in held
    ensures Evolves(db, Commit(db, Workflow.Start(db, now, a, tester).value), held)
  {
    hide *;
    Still(db, held);
    Success.Start(db, now, a, tester);
    Drifts(db.assignments[a], now);
    OneAssignment(db.assignments, a, db.assignments[a].(status := InProgress, startedAt := Some(now)), held);
    NewSession(db.sessions, Session(a, DayOf(now)), held);
    All(db, Commit(db, Workflow.Start(db, now, a, tester).value), held);
  }

  lemma RecordSessionEvolves(db: Db, now: Time, a: Id, tester: Id, held: set<Row>)
    requires Workflow.RecordSession(db, now, a, tester).Ok? && AssignmentRow(a) !in held
    ensures Evolves(db, Commit(db, Workflow.RecordSession(db, now, a, tester).value), held)
  {
    hide *;
    Still(db, held);
    Success.RecordSession(db, now, a, tester);
    NewSession(db.sessions, Session(a, DayOf(now)), held);
    All(db, Commit(db, Workflow.RecordSession(db, now, a, tester).value), held);
  }

  lemma SubmitEvolves(db: Db, now: Time, id: Id, a: Id, tester: Id, e: Workflow.EvidencePayload, held: set<Row>)
    requires Workflow.Submit(db, now, id, a, tester, e).Ok? && AssignmentRow(a) !in held
    ensures Evolves(db, Commit(db, Workflow.Submit(db, now, id, a, tester, e).value), held)
  {
    hide *;
    Still(db, held);
    Success.Submit(db, now, id, a, tester, e);
    Drifts(db.assignments[a], now);
    OneAssignment(db.assignments, a, db.assignments[a].(status := Submitted, submittedAt := Some(now)), held);
    NewSubmission(db.submissions, id,
      Submission(a, Workflow.LatestVersion(db.submissions, a) + 1, e.specificSummary, e.items, Pending, now), held);
    All(db, Commit(db, Workflow.Submit(db, now, id, a, tester, e).value), held);
  }

  // ----- decisions --------------------------------------------------------------------------

  /** The rows an approval writes are locked by whoever approves. */
  lemma ApprovalEvolves(cfg: Config, db: Db, t: Time, now: Time, id: Id, a: Id, held: set<Row>)
    requires Inv(cfg, db, t) && a in db.assignments && id in db.submissions && db.submissions[id].assignment == a
    requires db.assignments[a].campaign in db.campaigns
    requires held !! DecisionRows(db, a, true) && SubmissionRow(id) !in held
    ensures var row := db.assignments[a];
            var after := Success.AfterApproval(db, now, id, db.submissions[id], a, row, db.campaigns[row.campaign]);
            && CampaignsEvolve(db.campaigns, after.campaigns, held)
            && AssignmentsEvolve(db.assignments, after.assignments, held)
            && SubmissionsEvolve(db.submissions, after.submissions, held)
            && AccountsEvolve(db.accounts, after.accounts, held)
            && after == db.(campaigns := after.campaigns, assignments := after.assignments,
                            submissions := after.submissions, accounts := after.accounts, ledger := after.ledger)
            && db.ledger <= after.ledger
  {
    DecisionRowsAre(db, a, true);
    hide *;
    Preservation.Parts(cfg, db, t);
    Still(db, held);
    Preservation.RowFits(db.profiles, db.campaigns, db.assignments, a);
    var row := db.assignments[a];
    var c := db.campaigns[row.campaign];
    Preservation.ApprovedDb(db, now, id, db.submissions[id], a, row, c);
    var x := row.(status := Approved, completedAt := Some(now));
    var paid := db.assignments + map[a := x];
    OneAssignment(db.assignments, a, x, held);
    OneSubmission(db.submissions, id, db.submissions[id].(status := Passed), held);
    SettledEvolves(c, Published, row.campaign, paid);
    OneCampaign(db.campaigns, row.campaign, Campaigns.MaybeComplete(c, row.campaign, paid), held);
    OneAccount(db.accounts, row.tester, Credits.AccountBalance(db.accounts, row.tester) + c.reward, held);
  }

  lemma DecisionRowsAre(db: Db, a: Id, pays: bool)
    requires a in db.assignments
    ensures AssignmentRow(a) in DecisionRows(db, a, pays)
    ensures CampaignRow(db.assignments[a].campaign) in DecisionRows(db, a, pays)
    ensures pays ==> AccountRow(db.assignments[a].tester) in DecisionRows(db, a, pays)
  {
  }

  lemma ExamineEvolves(cfg: Config, db: Db, t: Time, now: Time, id: Id, reviewer: Id, decision: Decision,
                       held: set<Row>)
    requires Inv(cfg, db, t) && Workflow.Examine(db, now, id, reviewer, decision).Ok? && SubmissionRow(id) !in held
    requires id in db.submissions ==> held !! DecisionRows(db, db.submissions[id].assignment, decision == Approve)
    ensures Evolves(db, Commit(db, Workflow.Examine(db, now, id, reviewer, decision).value), held)
  {
    hide *;
    Still(db, held);
    Preservation.Parts(cfg, db, t);
    Success.Examine(db, now, id, reviewer, decision);
    Preservation.ExamineGround(cfg, db, t, id);
    var s := db.submissions[id];
    var row := db.assignments[s.assignment];
    DecisionRowsAre(db, s.assignment, decision == Approve);
    NewReview(db.reviews, id, Review(reviewer, decision));
    if decision == Approve {
      Preservation.PendingMirrors();
      Preservation.ApprovalKeeps(cfg, db, t, now, id, s.assignment);
      ApprovalEvolves(cfg, db, t, now, id, s.assignment, held);
    } else {
      var x := row.(status := if decision == Reject then Rejected else ChangesRequested);
      OneAssignment(db.assignments, s.assignment, x, held);
      OneSubmission(db.submissions, id, s.(status := if decision == Reject then Refused else ToChange), held);
    }
    All(db, Commit(db, Workflow.Examine(db, now, id, reviewer, decision).value), held);
  }

  lemma EscalateEvolves(db: Db, now: Time, id: Id, a: Id, user: Id, s: Option<Id>, held: set<Row>)
    requires Workflow.Escalate(db, now, id, a, user, s).Ok? && AssignmentRow(a) !in held
    ensures Evolves(db, Commit(db, Workflow.Escalate(db, now, id, a, user, s).value), held)
  {
    hide *;
    Still(db, held);
    Success.Escalate(db, now, id, a, user, s);
    NewDispute(db.disputes, id, Dispute(a, s, user, Open, None, None, None), held);
    All(db, Commit(db, Workflow.Escalate(db, now, id, a, user, s).value), held);
  }

  lemma ClaimEvolves(db: Db, id: Id, moderator: Id, held: set<Row>)
    requires Moderation.Claim(db, id, moderator).Ok? && DisputeRow(id) !in held
    ensures Evolves(db, Commit(db, Moderation.Claim(db, id, moderator).value), held)
  {
    hide *;
    Still(db, held);
    Success.Claim(db, id, moderator);
    var d := db.disputes[id];
    if d.status == Open {
      ClaimedEvolves(d, moderator);
      OneDispute(db.disputes, id, d.(status := UnderReview, assignedTo := Some(moderator)), held);
    }
    All(db, Commit(db, Moderation.Claim(db, id, moderator).value), held);
  }

  lemma ClaimedEvolves(d: Dispute, moderator: Id)
    requires d.status == Open
    ensures var e := d.(status := UnderReview, assignedTo := Some(moderator));
            DisputeEvolves(d, e) && e.IsActive() == d.IsActive()
  {
  }

  lemma RuledEvolves(d: Dispute, moderator: Id, r: Moderation.Ruling)
    ensures DisputeEvolves(d, Success.Ruled(d, moderator, r))
  {
  }

  lemma RulingRowsAre(db: Db, d: Dispute, r: Moderation.Ruling)
    ensures d.submission.Some? &&
            (|| r.remedy == AwardTester
             || (d.assignment in db.assignments && db.assignments[d.assignment].status == Submitted)) ==>
              SubmissionRow(d.submission.value) in RulingRows(db, d, r)
    ensures AssignmentRow(d.assignment) in RulingRows(db, d, r)
    ensures r.remedy == AwardTester ==> DecisionRows(db, d.assignment, true) <= RulingRows(db, d, r)
  {
  }

  lemma ResolveEvolves(cfg: Config, db: Db, t: Time, now: Time, id: Id, moderator: Id, r: Moderation.Ruling,
                       held: set<Row>)
    requires Inv(cfg, db, t) && Moderation.Resolve(db, now, id, moderator, r).Ok? && DisputeRow(id) !in held
    requires id in db.disputes ==> held !! RulingRows(db, db.disputes[id], r)
    ensures Evolves(db, Commit(db, Moderation.Resolve(db, now, id, moderator, r).value), held)
  {
    hide *;
    Still(db, held);
    Preservation.Parts(cfg, db, t);
    Success.Resolve(db, now, id, moderator, r);
    var d := db.disputes[id];
    RulingRowsAre(db, d, r);
    Preservation.OpenIsActive(d);
    Preservation.DisputeGround(db.assignments, db.submissions, db.reviews, db.disputes, id);
    var a, s := d.assignment, d.submission.value;
    RuledEvolves(d, moderator, r);
    OneDispute(db.disputes, id, Success.Ruled(d, moderator, r), held);
    if r.remedy == AwardTester {
      Preservation.ApprovalKeeps(cfg, db, t, now, s, a);
      ApprovalEvolves(cfg, db, t, now, s, a, held);
    } else if db.assignments[a].status.Submitted? {
      Drifts(db.assignments[a], now);
      OneAssignment(db.assignments, a, db.assignments[a].(status := Rejected, completedAt := Some(now)), held);
      OneSubmission(db.submissions, s, db.submissions[s].(status := Refused), held);
    }
    All(db, Commit(db, Moderation.Resolve(db, now, id, moderator, r).value), held);
  }

  // ----- every request ----------------------------------------------------------------------

  /** Whatever a request writes, the others see it as an evolution around the rows they hold. */
  lemma Guarantee(cfg: Config, db: Db, t: Time, now: Time, r: Request, held: set<Row>)
    requires Inv(cfg, db, t) && Handle(cfg, db, now, r).Ok?
    requires held !! Locks(db, r) && forall row :: row in held ==> Exists(db, row)
    ensures Evolves(db, Commit(db, Handle(cfg, db, now, r).value), held)
  {
    hide Inv, Commit, Evolves, Handle, Locks, Exists;
    if r.UpsertProfile? || r.CreateCampaign? || r.UpdateCampaign? || r.UpsertContract? || r.PublishCampaign? ||
       r.LaunchCampaign? || r.TransitionCampaign? {
      CampaignGuarantee(cfg, db, t, now, r, held);
    } else if r.Examine? || r.Escalate? || r.Claim? || r.Resolve? {
      DecisionGuarantee(cfg, db, t, now, r, held);
    } else {
      TestGuarantee(cfg, db, t, now, r, held);
    }
  }

  lemma CampaignGuarantee(cfg: Config, db: Db, t: Time, now: Time, r: Request, held: set<Row>)
    requires Inv(cfg, db, t) && Handle(cfg, db, now, r).Ok?
    requires held !! Locks(db, r) && forall row :: row in held ==> Exists(db, row)
    requires r.UpsertProfile? || r.CreateCampaign? || r.UpdateCampaign? || r.UpsertContract? || r.PublishCampaign? ||
             r.LaunchCampaign? || r.TransitionCampaign?
    ensures Evolves(db, Commit(db, Handle(cfg, db, now, r).value), held)
  {
    hide Inv, Commit, Evolves, DecisionRows, RulingRows, ApplicationRows, CampaignOf;
    hide Profiles.Upsert, Campaigns.Create, Campaigns.Update, Campaigns.UpsertContract, Campaigns.Publish;
    hide Campaigns.Launch, Campaigns.Transition, Workflow.Apply, Workflow.Accept, Workflow.Decline, Workflow.Withdraw;
    hide Workflow.Start, Workflow.RecordSession, Workflow.Submit, Workflow.Examine, Workflow.Escalate;
    hide Moderation.Claim, Moderation.Resolve;
    assert forall row :: row in Locks(db, r) ==> row !in held;
    match r
    case UpsertProfile(user, username, enabled) =>
      assert SeatsRow in held ==> Exists(db, SeatsRow);
      JoinEvolves(cfg, db, t, user, username, enabled, held);
    case CreateCampaign(id, owner, fields) => CreateEvolves(db, id, owner, fields, held);
    case UpdateCampaign(c, owner, change) => UpdateEvolves(db, c, owner, change, held);
    case UpsertContract(c, owner, terms) => UpsertContractEvolves(db, c, owner, terms, held);
    case PublishCampaign(c, owner) => PublishEvolves(cfg, db, t, now, c, owner, held);
    case LaunchCampaign(id, owner, fields, terms) =>
      assert CampaignRow(id) in held ==> Exists(db, CampaignRow(id));
      LaunchEvolves(cfg, db, t, now, id, owner, fields, terms, held);
    case TransitionCampaign(c, owner, action) => TransitionEvolves(db, now, c, owner, action, held);
  }

  lemma TestGuarantee(cfg: Config, db: Db, t: Time, now: Time, r: Request, held: set<Row>)
    requires Inv(cfg, db, t) && Handle(cfg, db, now, r).Ok?
    requires held !! Locks(db, r) && forall row :: row in held ==> Exists(db, row)
    requires r.Apply? || r.Accept? || r.Decline? || r.Withdraw? || r.Start? || r.RecordSession? || r.Submit?
    ensures Evolves(db, Commit(db, Handle(cfg, db, now, r).value), held)
  {
    hide Inv, Commit, Evolves, DecisionRows, RulingRows, ApplicationRows;
    hide Profiles.Upsert, Campaigns.Create, Campaigns.Update, Campaigns.UpsertContract, Campaigns.Publish;
    hide Campaigns.Launch, Campaigns.Transition, Workflow.Apply, Workflow.Accept, Workflow.Decline, Workflow.Withdraw;
    hide Workflow.Start, Workflow.RecordSession, Workflow.Submit, Workflow.Examine, Workflow.Escalate;
    hide Moderation.Claim, Moderation.Resolve;
    assert forall row :: row in Locks(db, r) ==> row !in held;
    match r
    case Apply(id, c, tester) => ApplyEvolves(db, id, c, tester, held);
    case Accept(a, owner) => AcceptEvolves(db, now, a, owner, held);
    case Decline(a, owner) => DeclineEvolves(db, now, a, owner, held);
    case Withdraw(a, tester) => WithdrawEvolves(cfg, db, t, now, a, tester, held);
    case Start(a, tester) => StartEvolves(db, now, a, tester, held);
    case RecordSession(a, tester) => RecordSessionEvolves(db, now, a, tester, held);
    case Submit(id, a, tester, evidence) => SubmitEvolves(db, now, id, a, tester, evidence, held);
  }

  lemma DecisionGuarantee(cfg: Config, db: Db, t: Time, now: Time, r: Request, held: set<Row>)
    requires Inv(cfg, db, t) && Handle(cfg, db, now, r).Ok?
    requires held !! Locks(db, r) && forall row :: row in held ==> Exists(db, row)
    requires r.Examine? || r.Escalate? || r.Claim? || r.Resolve?
    ensures Evolves(db, Commit(db, Handle(cfg, db, now, r).value), held)
  {
    hide Inv, Commit, Evolves, DecisionRows, RulingRows, ApplicationRows, CampaignOf;
    hide Profiles.Upsert, Campaigns.Create, Campaigns.Update, Campaigns.UpsertContract, Campaigns.Publish;
    hide Campaigns.Launch, Campaigns.Transition, Workflow.Apply, Workflow.Accept, Workflow.Decline, Workflow.Withdraw;
    hide Workflow.Start, Workflow.RecordSession, Workflow.Submit, Workflow.Examine, Workflow.Escalate;
    hide Moderation.Claim, Moderation.Resolve;
    assert forall row :: row in Locks(db, r) ==> row !in held;
    match r
    case Examine(s, reviewer, decision) => ExamineEvolves(cfg, db, t, now, s, reviewer, decision, held);
    case Escalate(id, a, user, s) => EscalateEvolves(db, now, id, a, user, s, held);
    case Claim(d, moderator) => ClaimEvolves(db, d, moderator, held);
    case Resolve(d, moderator, ruling) => ResolveEvolves(cfg, db, t, now, d, moderator, ruling, held);
  }
}
