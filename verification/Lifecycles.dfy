/** What a single commit can do to an assignment, a dispute, a review and a campaign. */
module Lifecycles {
  import opened Model
  import opened Results
  import opened Invariants
  import opened Requests
  import Campaigns
  import Credits
  import Effects
  import Moderation
  import Preservation
  import Profiles
  import Success
  import Workflow

  type Config = Profiles.Config

  /** The arrows of an assignment's life. */
  predicate Arrow(before: AssignmentStatus, after: AssignmentStatus) {
    match before
    case Applied => after.Accepted? || after.Cancelled?
    case Accepted => after.InProgress? || after.Cancelled?
    case InProgress => after.Submitted? || after.Cancelled?
    case Submitted => after.ChangesRequested? || after.Approved? || after.Rejected?
    case ChangesRequested => after.Submitted? || after.Cancelled?
    case Rejected => after.Approved?
    case Approved => false
    case Cancelled => false
  }

  /** The submissions of an assignment that were sent back for changes. */
  function SentBack(submissions: map<Id, Submission>, a: Id): set<Id> {
    set s | s in submissions && submissions[s].assignment == a && submissions[s].status == ToChange
  }

  /** How often an assignment was sent back. */
  function Turns(submissions: map<Id, Submission>, a: Id): nat {
    |SentBack(submissions, a)|
  }

  /** An assignment stays as it is or follows one arrow; only a request for changes counts as a turn,
      and only a moderator with an active dispute leaves Rejected. */
  ghost predicate Follows(before: Db, after: Db, a: Id)
    requires a in before.assignments
  {
    && a in after.assignments
    && var x, y := before.assignments[a], after.assignments[a];
    && (y == x || Arrow(x.status, y.status))
    && Turns(after.submissions, a) == Turns(before.submissions, a) +
         (if x.status.Submitted? && y.status.ChangesRequested? then 1 else 0)
    && (x.status.Rejected? && y != x ==> Workflow.HasActiveDispute(before.disputes, a))
  }

  /** A dispute is claimed once and closed once, by the moderator who claimed it. */
  predicate DisputeFollows(d: Dispute, e: Dispute) {
    || e == d
    || (d.status == Open && e.assignedTo.Some? && e == d.(status := UnderReview, assignedTo := e.assignedTo))
    || (d.status == UnderReview && !e.IsActive() && e.resolvedBy == d.assignedTo &&
        e == d.(status := e.status, remedy := e.remedy, resolvedBy := e.resolvedBy))
  }

  ghost predicate Undisputed(disputes: map<Id, Dispute>, s: Id) {
    forall d :: d in disputes ==> disputes[d].submission != Some(s)
  }

  /** A review is written only on pending work that nobody has escalated. */
  ghost predicate ReviewsFollow(before: Db, after: Db) {
    forall s :: s in after.reviews && s !in before.reviews ==>
      s in before.submissions && before.submissions[s].status == Pending && Undisputed(before.disputes, s)
  }

  ghost predicate AssignmentsFollow(before: Db, after: Db) {
    forall a :: a in before.assignments ==> Follows(before, after, a)
  }

  ghost predicate NewAssignmentsFollow(before: Db, after: Db) {
    forall a :: a in after.assignments && a !in before.assignments ==>
      after.assignments[a].status == Applied && Turns(after.submissions, a) == 0
  }

  ghost predicate DisputesFollow(before: map<Id, Dispute>, after: map<Id, Dispute>) {
    forall d :: d in before ==> d in after && DisputeFollows(before[d], after[d])
  }

  ghost predicate CampaignsFollow(before: map<Id, Campaign>, after: map<Id, Campaign>) {
    forall c :: c in before ==>
      && c in after
      && (before[c].status == Completed ==> after[c] == before[c])
      && (before[c].status != Draft ==> after[c].status != Draft)
  }

  /** What every commit satisfies. */
  ghost predicate Advances(before: Db, after: Db) {
    && AssignmentsFollow(before, after)
    && NewAssignmentsFollow(before, after)
    && DisputesFollow(before.disputes, after.disputes)
    && ReviewsFollow(before, after)
    && CampaignsFollow(before.campaigns, after.campaigns)
  }

  // ----- pieces -----------------------------------------------------------------------------

  /** Assignments and submissions stay. */
  lemma WorkRests(before: Db, after: Db)
    requires after.assignments == before.assignments && after.submissions == before.submissions
    ensures AssignmentsFollow(before, after) && NewAssignmentsFollow(before, after)
  {
  }

  lemma DisputesRest(disputes: map<Id, Dispute>)
    ensures DisputesFollow(disputes, disputes)
  {
  }

  lemma ReviewsRest(before: Db, after: Db)
    requires after.reviews == before.reviews
    ensures ReviewsFollow(before, after)
  {
  }

  lemma CampaignsRest(campaigns: map<Id, Campaign>)
    ensures CampaignsFollow(campaigns, campaigns)
  {
  }

  lemma OneCampaignFollows(campaigns: map<Id, Campaign>, c: Id, x: Campaign)
    requires c in campaigns ==>
               (campaigns[c].status == Completed ==> x == campaigns[c]) &&
                 (campaigns[c].status != Draft ==> x.status != Draft)
    ensures CampaignsFollow(campaigns, campaigns + map[c := x])
  {
  }

  lemma OneDisputeFollows(disputes: map<Id, Dispute>, d: Id, e: Dispute)
    requires d in disputes ==> DisputeFollows(disputes[d], e)
    ensures DisputesFollow(disputes, disputes + map[d := e])
  {
  }

  /** One assignment moves, its submissions do not. */
  lemma OneFollows(before: Db, after: Db, a: Id, x: Assignment)
    requires a in before.assignments && after.assignments == before.assignments + map[a := x]
    requires after.submissions == before.submissions
    requires Arrow(before.assignments[a].status, x.status) && !before.assignments[a].status.Submitted?
    requires !before.assignments[a].status.Rejected?
    ensures AssignmentsFollow(before, after) && NewAssignmentsFollow(before, after)
  {
  }

  lemma NewFollows(before: Db, after: Db, a: Id, x: Assignment)
    requires History(before.assignments, before.submissions)
    requires a !in before.assignments && after.assignments == before.assignments + map[a := x]
    requires after.submissions == before.submissions && x.status == Applied
    ensures AssignmentsFollow(before, after) && NewAssignmentsFollow(before, after)
  {
    hide History, Turns, Arrow, Workflow.HasActiveDispute;
    NeverSentBack(before.assignments, before.submissions, a);
  }

  lemma NeverSentBack(assignments: map<Id, Assignment>, submissions: map<Id, Submission>, a: Id)
    requires History(assignments, submissions) && a !in assignments
    ensures Turns(submissions, a) == 0
  {
    forall s | s in submissions
      ensures submissions[s].assignment != a
    {
      assert SubmissionFits(submissions[s], assignments);
    }
    assert SentBack(submissions, a) == {};
  }

  lemma SentBackAfter(submissions: map<Id, Submission>, s: Id, y: Submission, a: Id)
    requires s in submissions ==> submissions[s].assignment == y.assignment && submissions[s].status != ToChange
    ensures s !in SentBack(submissions, a)
    ensures SentBack(submissions + map[s := y], a) ==
            SentBack(submissions, a) + if a == y.assignment && y.status == ToChange then {s} else {}
  {
    forall x
      ensures x in SentBack(submissions + map[s := y], a) <==>
              x in SentBack(submissions, a) || (x == s && a == y.assignment && y.status == ToChange)
    {
    }
  }

  /** One submission appears or changes; the others keep their turns. */
  lemma TurnsElsewhere(submissions: map<Id, Submission>, s: Id, y: Submission, a: Id)
    requires s in submissions ==> submissions[s].assignment == y.assignment && submissions[s].status != ToChange
    ensures Turns(submissions + map[s := y], a) ==
            Turns(submissions, a) + (if a == y.assignment && y.status == ToChange then 1 else 0)
  {
    SentBackAfter(submissions, s, y, a);
    hide SentBack;
    assert SentBack(submissions, a) + {} == SentBack(submissions, a);
  }

  /** One assignment moves together with one of its submissions. */
  lemma BothFollow(before: Db, after: Db, a: Id, x: Assignment, s: Id, y: Submission)
    requires History(before.assignments, before.submissions)
    requires a in before.assignments && after.assignments == before.assignments + map[a := x]
    requires after.submissions == before.submissions + map[s := y] && y.assignment == a
    requires s in before.submissions ==>
               before.submissions[s].assignment == a && before.submissions[s].status != ToChange
    requires Arrow(before.assignments[a].status, x.status)
    requires y.status == ToChange <==> before.assignments[a].status.Submitted? && x.status.ChangesRequested?
    requires before.assignments[a].status.Rejected? ==> Workflow.HasActiveDispute(before.disputes, a)
    ensures AssignmentsFollow(before, after) && NewAssignmentsFollow(before, after)
  {
    hide *;
    OtherKeys(before.assignments, a, x);
    forall b | b in before.assignments
      ensures Follows(before, after, b)
    {
      TurnsElsewhere(before.submissions, s, y, b);
      if b == a {
        FollowsHere(before, after, a);
      } else {
        FollowsElsewhere(before, after, b);
      }
    }
    AllFollow(before, after);
  }

  lemma OtherKeys<V>(m: map<Id, V>, k: Id, v: V)
    ensures (m + map[k := v])[k] == v && k in m + map[k := v]
    ensures forall j :: j in m && j != k ==> j in m + map[k := v] && (m + map[k := v])[j] == m[j]
    ensures k in m ==> (m + map[k := v]).Keys == m.Keys
  {
  }

  lemma FollowsHere(before: Db, after: Db, a: Id)
    requires a in before.assignments && a in after.assignments
    requires Arrow(before.assignments[a].status, after.assignments[a].status)
    requires var x, y := before.assignments[a].status, after.assignments[a].status;
             && Turns(after.submissions, a) ==
                Turns(before.submissions, a) + (if x.Submitted? && y.ChangesRequested? then 1 else 0)
             && (x.Rejected? ==> Workflow.HasActiveDispute(before.disputes, a))
    ensures Follows(before, after, a)
  {
  }

  lemma FollowsElsewhere(before: Db, after: Db, a: Id)
    requires a in before.assignments && a in after.assignments && after.assignments[a] == before.assignments[a]
    requires Turns(after.submissions, a) == Turns(before.submissions, a)
    ensures Follows(before, after, a)
  {
  }

  lemma AllFollow(before: Db, after: Db)
    requires after.assignments.Keys == before.assignments.Keys
    requires forall a :: a in before.assignments ==> Follows(before, after, a)
    ensures AssignmentsFollow(before, after) && NewAssignmentsFollow(before, after)
  {
    assert forall a :: a in after.assignments ==> a in before.assignments.Keys;
  }

  lemma Together(before: Db, after: Db)
    requires AssignmentsFollow(before, after) && NewAssignmentsFollow(before, after)
    requires DisputesFollow(before.disputes, after.disputes) && ReviewsFollow(before, after)
    requires CampaignsFollow(before.campaigns, after.campaigns)
    ensures Advances(before, after)
  {
  }

  lemma NothingHappens(db: Db)
    ensures Advances(db, db)
  {
  }

  /** Everything outside the work itself stays. */
  lemma Rests(before: Db, after: Db)
    requires AssignmentsFollow(before, after) && NewAssignmentsFollow(before, after)
    requires after.disputes == before.disputes && after.reviews == before.reviews && after.campaigns == before.campaigns
    ensures Advances(before, after)
  {
  }

  /** A completed campaign stays complete when it is looked at again. */
  lemma SettledFollows(row: Campaign, c: Id, assignments: map<Id, Assignment>)
    ensures row.status == Completed ==> Campaigns.MaybeComplete(row, c, assignments) == row
    ensures row.status != Draft ==> Campaigns.MaybeComplete(row, c, assignments).status != Draft
  {
  }

  // ----- requests that leave assignments alone ----------------------------------------------

  predicate SameWork(before: Db, after: Db) {
    && after.assignments == before.assignments && after.submissions == before.submissions
    && after.reviews == before.reviews && after.disputes == before.disputes && after.campaigns == before.campaigns
  }

  lemma SameWorkAdvances(before: Db, after: Db)
    requires SameWork(before, after)
    ensures Advances(before, after)
  {
    WorkRests(before, after);
    hide AssignmentsFollow, NewAssignmentsFollow;
    Rests(before, after);
  }

  lemma GrantSameWork(db: Db, cfg: Config, user: Id)
    requires Profiles.Grant(db, cfg, user).Ok?
    ensures SameWork(db, Commit(db, Profiles.Grant(db, cfg, user).value))
  {
    hide Commit, Profiles.Grant;
    Success.GrantRows(db, cfg, user);
  }

  lemma AdmittedSameWork(db: Db, after: Db, user: Id, username: string)
    requires SameWork(Success.Admitted(db, user, username), after)
    ensures SameWork(db, after)
  {
  }

  lemma UpsertAdvances(cfg: Config, db: Db, user: Id, username: string, enabled: bool)
    requires Profiles.Upsert(db, cfg, user, username, enabled).Ok?
    ensures Advances(db, Commit(db, Profiles.Upsert(db, cfg, user, username, enabled).value))
    ensures SameWork(db, Commit(db, Profiles.Upsert(db, cfg, user, username, enabled).value))
  {
    hide *;
    var after := Commit(db, Profiles.Upsert(db, cfg, user, username, enabled).value);
    if user in db.profiles {
      Success.Rename(db, cfg, user, username, enabled);
      RenamedSameWork(db, user, username);
    } else {
      Success.Join(db, cfg, user, username, enabled);
      GrantSameWork(Success.Admitted(db, user, username), cfg, user);
      AdmittedSameWork(db, after, user, username);
    }
    SameWorkAdvances(db, after);
  }

  lemma RenamedSameWork(db: Db, user: Id, username: string)
    ensures SameWork(db, db.(profiles := db.profiles + map[user := username]))
  {
  }

  lemma CreateAdvances(db: Db, id: Id, owner: Id, p: Campaigns.CampaignPayload)
    requires Campaigns.Create(db, id, owner, p).Ok?
    ensures Advances(db, Commit(db, Campaigns.Create(db, id, owner, p).value))
  {
    hide *;
    Success.Create(db, id, owner, p);
    CampaignOnly(db, Commit(db, Campaigns.Create(db, id, owner, p).value), id,
                 Campaign(owner, p.slug, p.target, p.reward, Draft, None));
  }

  /** One campaign row changes, and tables no arrow looks at. */
  lemma CampaignOnly(before: Db, after: Db, c: Id, x: Campaign)
    requires after.assignments == before.assignments && after.submissions == before.submissions
    requires after.disputes == before.disputes && after.reviews == before.reviews
    requires after.campaigns == before.campaigns + map[c := x]
    requires c in before.campaigns ==>
               && (before.campaigns[c].status == Completed ==> x == before.campaigns[c])
               && (before.campaigns[c].status != Draft ==> x.status != Draft)
    ensures Advances(before, after)
  {
    hide *;
    WorkRests(before, after);
    DisputesRest(before.disputes);
    ReviewsRest(before, after);
    OneCampaignFollows(before.campaigns, c, x);
    Together(before, after);
  }

  lemma UpdateAdvances(db: Db, c: Id, owner: Id, u: Campaigns.CampaignUpdate)
    requires Campaigns.Update(db, c, owner, u).Ok?
    ensures Advances(db, Commit(db, Campaigns.Update(db, c, owner, u).value))
  {
    hide *;
    Success.Update(db, c, owner, u);
    CampaignOnly(db, Commit(db, Campaigns.Update(db, c, owner, u).value), c, Campaigns.Changed(db.campaigns[c], u));
  }

  lemma UpsertContractAdvances(db: Db, c: Id, owner: Id, p: Campaigns.ContractPayload)
    requires Campaigns.UpsertContract(db, c, owner, p).Ok?
    ensures Advances(db, Commit(db, Campaigns.UpsertContract(db, c, owner, p).value))
  {
    hide *;
    Success.UpsertContract(db, c, owner, p);
    var after := Commit(db, Campaigns.UpsertContract(db, c, owner, p).value);
    WorkRests(db, after);
    Rests(db, after);
  }

  lemma PublishAdvances(cfg: Config, db: Db, t: Time, now: Time, c: Id, owner: Id)
    requires Inv(cfg, db, t) && Campaigns.Publish(db, now, c, owner).Ok?
    ensures Advances(db, Commit(db, Campaigns.Publish(db, now, c, owner).value))
  {
    hide *;
    Preservation.Parts(cfg, db, t);
    Success.Publish(db, now, c, owner);
    if db.campaigns[c].status == Draft {
      Preservation.PublishedDraft(db.profiles, db.campaigns, db.contracts, c, now);
      Effects.DraftKeepsEntries(cfg.signupGrant, db.profiles, db.campaigns, db.assignments, db.ledger, c,
                                db.campaigns[c].(status := Published, publishedAt := Some(now)));
      CampaignOnly(db, Commit(db, Campaigns.Publish(db, now, c, owner).value), c,
                   db.campaigns[c].(status := Published, publishedAt := Some(now)));
    } else {
      NothingHappens(db);
    }
  }

  lemma LaunchAdvances(db: Db, now: Time, id: Id, owner: Id, p: Campaigns.CampaignPayload, k: Campaigns.ContractPayload)
    requires Campaigns.Launch(db, now, id, owner, p, k).Ok?
    ensures Advances(db, Commit(db, Campaigns.Launch(db, now, id, owner, p, k).value))
  {
    LaunchWrites(db, now, id, owner, p, k);
    var after := Commit(db, Campaigns.Launch(db, now, id, owner, p, k).value);
    hide *;
    CampaignOnly(db, after, id, after.campaigns[id]);
  }

  lemma LaunchWrites(db: Db, now: Time, id: Id, owner: Id, p: Campaigns.CampaignPayload, k: Campaigns.ContractPayload)
    requires Campaigns.Launch(db, now, id, owner, p, k).Ok?
    ensures var after := Commit(db, Campaigns.Launch(db, now, id, owner, p, k).value);
            && id !in db.campaigns && id in after.campaigns
            && after.campaigns == db.campaigns + map[id := after.campaigns[id]]
            && after.assignments == db.assignments && after.submissions == db.submissions
            && after.reviews == db.reviews && after.disputes == db.disputes
  {
    var created := Campaigns.Create(db, id, owner, p).value;
    var d1 := Commit(db, created);
    var drafted := Campaigns.UpsertContract(d1, id, owner, k).value;
    var both := Then(created, drafted);
    var d2 := Commit(db, both);
    var published := Campaigns.Publish(d2, now, id, owner).value;
    CommitThen(db, created, drafted);
    CommitThen(db, both, published);
    hide *;
    Success.Create(db, id, owner, p);
    Success.UpsertContract(d1, id, owner, k);
    PublishWrites(d2, now, id, owner);
    Overwrite(db.campaigns, id, d2.campaigns[id], Commit(d2, published).campaigns[id]);
    OneKey(db.campaigns, id, d2.campaigns[id]);
    OneKey(d2.campaigns, id, Commit(d2, published).campaigns[id]);
  }

  lemma OneKey<V>(m: map<Id, V>, k: Id, v: V)
    ensures (m + map[k := v])[k] == v
  {
  }

  lemma PublishWrites(db: Db, now: Time, c: Id, owner: Id)
    requires Campaigns.Publish(db, now, c, owner).Ok?
    ensures var after := Commit(db, Campaigns.Publish(db, now, c, owner).value);
            && c in after.campaigns && after.campaigns == db.campaigns + map[c := after.campaigns[c]]
            && after.assignments == db.assignments && after.submissions == db.submissions
            && after.reviews == db.reviews && after.disputes == db.disputes
  {
    var w := Campaigns.Publish(db, now, c, owner).value;
    SpentOnly(db, now, c, owner);
    hide Campaigns.Publish;
    Untouched(db, w);
    SameKey(db.campaigns, c);
  }

  lemma SpentOnly(db: Db, now: Time, c: Id, owner: Id)
    requires Campaigns.Publish(db, now, c, owner).Ok?
    ensures var w := Campaigns.Publish(db, now, c, owner).value;
            && c in db.campaigns && (w.campaigns == map[] ||
                                     (c in w.campaigns && w.campaigns == map[c := w.campaigns[c]]))
            && w.assignments == map[] && w.submissions == map[] && w.reviews == map[] && w.disputes == map[]
  {
    hide Credits.HasKey, Credits.AccountBalance;
  }

  lemma SameKey<V>(m: map<Id, V>, k: Id)
    ensures k in m ==> m + map[k := m[k]] == m
  {
  }

  lemma TransitionAdvances(db: Db, now: Time, c: Id, owner: Id, action: Campaigns.Action)
    requires Campaigns.Transition(db, now, c, owner, action).Ok?
    ensures Advances(db, Commit(db, Campaigns.Transition(db, now, c, owner, action).value))
  {
    hide *;
    Success.Transition(db, now, c, owner, action);
    var row := db.campaigns[c];
    var after := Commit(db, Campaigns.Transition(db, now, c, owner, action).value);
    if action == Campaigns.Close {
      DeclinedFollow(db, after, c, now);
      SettledFollows(row.(status := Closed), c, after.assignments);
      DisputesRest(db.disputes);
      ReviewsRest(db, after);
      OneCampaignFollows(db.campaigns, c, Campaigns.MaybeComplete(row.(status := Closed), c, after.assignments));
      Together(db, after);
    } else {
      CampaignOnly(db, after, c, row.(status := if action == Campaigns.Pause then Paused else Published));
    }
  }

  lemma DeclinedFollow(before: Db, after: Db, c: Id, now: Time)
    requires after.assignments == before.assignments + Campaigns.Declined(before.assignments, c, now)
    requires after.submissions == before.submissions
    ensures AssignmentsFollow(before, after) && NewAssignmentsFollow(before, after)
  {
  }

  // ----- requests on one assignment ---------------------------------------------------------

  lemma ApplyAdvances(cfg: Config, db: Db, t: Time, id: Id, c: Id, tester: Id)
    requires Inv(cfg, db, t) && Workflow.Apply(db, id, c, tester).Ok?
    ensures Advances(db, Commit(db, Workflow.Apply(db, id, c, tester).value))
  {
    hide *;
    Preservation.Parts(cfg, db, t);
    Success.Apply(db, id, c, tester);
    var after := Commit(db, Workflow.Apply(db, id, c, tester).value);
    NewFollows(db, after, id, Assignment(c, tester, Applied, None, None, None, None));
    Rests(db, after);
  }

  lemma AcceptAdvances(db: Db, now: Time, a: Id, owner: Id)
    requires Workflow.Accept(db, now, a, owner).Ok?
    ensures Advances(db, Commit(db, Workflow.Accept(db, now, a, owner).value))
  {
    hide *;
    Success.Accept(db, now, a, owner);
    Arrows();
    var after := Commit(db, Workflow.Accept(db, now, a, owner).value);
    OneFollows(db, after, a, db.assignments[a].(status := Accepted, acceptedAt := Some(now)));
    Rests(db, after);
  }

  lemma Arrows()
    ensures Arrow(Applied, Accepted) && Arrow(Applied, Cancelled) && Arrow(Accepted, InProgress)
    ensures Arrow(Accepted, Cancelled)
    ensures Arrow(InProgress, Submitted) && Arrow(InProgress, Cancelled) && Arrow(ChangesRequested, Cancelled)
    ensures Arrow(ChangesRequested, Submitted) && Arrow(Submitted, ChangesRequested) && Arrow(Submitted, Approved)
    ensures Arrow(Submitted, Rejected) && Arrow(Rejected, Approved)
  {
  }

  lemma DeclineAdvances(db: Db, now: Time, a: Id, owner: Id)
    requires Workflow.Decline(db, now, a, owner).Ok?
    ensures Advances(db, Commit(db, Workflow.Decline(db, now, a, owner).value))
  {
    hide *;
    Success.Decline(db, now, a, owner);
    Arrows();
    var after := Commit(db, Workflow.Decline(db, now, a, owner).value);
    OneFollows(db, after, a, db.assignments[a].(status := Cancelled, completedAt := Some(now)));
    Rests(db, after);
  }

  lemma WithdrawAdvances(db: Db, now: Time, a: Id, tester: Id)
    requires Workflow.Withdraw(db, now, a, tester).Ok?
    ensures Advances(db, Commit(db, Workflow.Withdraw(db, now, a, tester).value))
  {
    hide *;
    Success.Withdraw(db, now, a, tester);
    Arrows();
    var after := Commit(db, Workflow.Withdraw(db, now, a, tester).value);
    var x := db.assignments[a].(status := Cancelled, completedAt := Some(now));
    OneFollows(db, after, a, x);
    SettledFollows(db.campaigns[x.campaign], x.campaign, after.assignments);
    OneCampaignFollows(db.campaigns, x.campaign,
                       Campaigns.MaybeComplete(db.campaigns[x.campaign], x.campaign, after.assignments));
    DisputesRest(db.disputes);
    ReviewsRest(db, after);
    Together(db, after);
  }

  lemma StartAdvances(db: Db, now: Time, a: Id, tester: Id)
    requires Workflow.Start(db, now, a, tester).Ok?
    ensures Advances(db, Commit(db, Workflow.Start(db, now, a, tester).value))
  {
    hide *;
    Success.Start(db, now, a, tester);
    Arrows();
    var after := Commit(db, Workflow.Start(db, now, a, tester).value);
    OneFollows(db, after, a, db.assignments[a].(status := InProgress, startedAt := Some(now)));
    Rests(db, after);
  }

  lemma RecordSessionAdvances(db: Db, now: Time, a: Id, tester: Id)
    requires Workflow.RecordSession(db, now, a, tester).Ok?
    ensures Advances(db, Commit(db, Workflow.RecordSession(db, now, a, tester).value))
  {
    hide *;
    Success.RecordSession(db, now, a, tester);
    var after := Commit(db, Workflow.RecordSession(db, now, a, tester).value);
    WorkRests(db, after);
    Rests(db, after);
  }

  lemma SubmitAdvances(cfg: Config, db: Db, t: Time, now: Time, id: Id, a: Id, tester: Id, e: Workflow.EvidencePayload)
    requires Inv(cfg, db, t) && Workflow.Submit(db, now, id, a, tester, e).Ok?
    ensures Advances(db, Commit(db, Workflow.Submit(db, now, id, a, tester, e).value))
  {
    hide *;
    Preservation.Parts(cfg, db, t);
    Success.Submit(db, now, id, a, tester, e);
    Arrows();
    var after := Commit(db, Workflow.Submit(db, now, id, a, tester, e).value);
    BothFollow(db, after, a, db.assignments[a].(status := Submitted, submittedAt := Some(now)), id,
               Submission(a, Workflow.LatestVersion(db.submissions, a) + 1, e.specificSummary, e.items, Pending, now));
    Rests(db, after);
  }

  // ----- decisions --------------------------------------------------------------------------

  /** Work that is pending and not under escalation has no dispute at all. */
  lemma PendingUndisputed(assignments: map<Id, Assignment>, submissions: map<Id, Submission>, reviews: map<Id, Review>,
                          disputes: map<Id, Dispute>, s: Id)
    requires Disputes(assignments, submissions, reviews, disputes) && s in submissions
    requires submissions[s].status == Pending
    requires !Workflow.HasActiveDispute(disputes, submissions[s].assignment)
    ensures Undisputed(disputes, s)
  {
    forall d | d in disputes
      ensures disputes[d].submission != Some(s)
    {
      assert DisputeFits(disputes[d], assignments, submissions, reviews);
      assert disputes[d].assignment == submissions[s].assignment ==> !disputes[d].IsActive();
    }
  }

  lemma ReviewFollows(before: Db, after: Db, s: Id, r: Review)
    requires after.reviews == before.reviews + map[s := r]
    requires s in before.submissions && before.submissions[s].status == Pending && Undisputed(before.disputes, s)
    ensures ReviewsFollow(before, after)
  {
  }

  lemma ExamineAdvances(cfg: Config, db: Db, t: Time, now: Time, id: Id, reviewer: Id, decision: Decision)
    requires Inv(cfg, db, t) && Workflow.Examine(db, now, id, reviewer, decision).Ok?
    ensures Advances(db, Commit(db, Workflow.Examine(db, now, id, reviewer, decision).value))
  {
    hide *;
    Preservation.Parts(cfg, db, t);
    Success.Examine(db, now, id, reviewer, decision);
    Preservation.ExamineGround(cfg, db, t, id);
    Arrows();
    var s := db.submissions[id];
    var row := db.assignments[s.assignment];
    var c := db.campaigns[row.campaign];
    var after := Commit(db, Workflow.Examine(db, now, id, reviewer, decision).value);
    Examined(db, id);
    PendingUndisputed(db.assignments, db.submissions, db.reviews, db.disputes, id);
    if decision == Approve {
      Preservation.PendingMirrors();
      Preservation.ApprovalKeeps(cfg, db, t, now, id, s.assignment);
      ApprovalWrites(db, now, id, s, s.assignment, row, c);
      SettledFollows(c, row.campaign, after.assignments);
      BothFollow(db, after, s.assignment, row.(status := Approved, completedAt := Some(now)), id, s.(status := Passed));
      OneCampaignFollows(db.campaigns, row.campaign, Campaigns.MaybeComplete(c, row.campaign, after.assignments));
    } else {
      var x := row.(status := if decision == Reject then Rejected else ChangesRequested);
      BothFollow(db, after, s.assignment, x, id, s.(status := if decision == Reject then Refused else ToChange));
      CampaignsRest(db.campaigns);
    }
    ReviewFollows(db, after, id, Review(reviewer, decision));
    DisputesRest(db.disputes);
    Together(db, after);
  }

  lemma Examined(db: Db, id: Id)
    requires Success.Examinable(db, id)
    ensures id in db.submissions && db.submissions[id].status == Pending
    ensures db.submissions[id].assignment in db.assignments
    ensures db.assignments[db.submissions[id].assignment].status == Submitted
    ensures !Workflow.HasActiveDispute(db.disputes, db.submissions[id].assignment)
  {
  }

  lemma ApprovalWrites(db: Db, now: Time, id: Id, s: Submission, a: Id, row: Assignment, c: Campaign)
    ensures var after := Success.AfterApproval(db, now, id, s, a, row, c);
            && after.assignments == db.assignments + map[a := row.(status := Approved, completedAt := Some(now))]
            && after.submissions == db.submissions + map[id := s.(status := Passed)]
            && after.campaigns == db.campaigns +
               map[row.campaign := Campaigns.MaybeComplete(c, row.campaign, after.assignments)]
            && after.reviews == db.reviews && after.disputes == db.disputes
  {
  }

  lemma EscalateAdvances(db: Db, now: Time, id: Id, a: Id, user: Id, s: Option<Id>)
    requires Workflow.Escalate(db, now, id, a, user, s).Ok?
    ensures Advances(db, Commit(db, Workflow.Escalate(db, now, id, a, user, s).value))
  {
    hide *;
    Success.Escalate(db, now, id, a, user, s);
    var after := Commit(db, Workflow.Escalate(db, now, id, a, user, s).value);
    WorkRests(db, after);
    OneDisputeFollows(db.disputes, id, Dispute(a, s, user, Open, None, None, None));
    ReviewsRest(db, after);
    CampaignsRest(db.campaigns);
    Together(db, after);
  }

  lemma ClaimAdvances(db: Db, id: Id, moderator: Id)
    requires Moderation.Claim(db, id, moderator).Ok?
    ensures Advances(db, Commit(db, Moderation.Claim(db, id, moderator).value))
  {
    hide *;
    Success.Claim(db, id, moderator);
    var after := Commit(db, Moderation.Claim(db, id, moderator).value);
    if db.disputes[id].status == Open {
      WorkRests(db, after);
      ClaimFollows(db.disputes[id], moderator);
      OneDisputeFollows(db.disputes, id, db.disputes[id].(status := UnderReview, assignedTo := Some(moderator)));
      ReviewsRest(db, after);
      CampaignsRest(db.campaigns);
      Together(db, after);
    } else {
      NothingHappens(db);
    }
  }

  lemma ClaimFollows(d: Dispute, moderator: Id)
    requires d.status == Open
    ensures DisputeFollows(d, d.(status := UnderReview, assignedTo := Some(moderator)))
  {
  }

  lemma RulingFollows(d: Dispute, moderator: Id, r: Moderation.Ruling)
    requires d.status == UnderReview && d.assignedTo == Some(moderator)
    ensures DisputeFollows(d, Success.Ruled(d, moderator, r))
  {
  }

  lemma RuledBy(db: Db, now: Time, id: Id, moderator: Id, r: Moderation.Ruling)
    requires Moderation.Resolve(db, now, id, moderator, r).Ok?
    ensures id in db.disputes && db.disputes[id].status == UnderReview && db.disputes[id].assignedTo == Some(moderator)
    ensures Workflow.HasActiveDispute(db.disputes, db.disputes[id].assignment)
  {
    assert db.disputes[id].IsActive();
  }

  lemma ResolveAdvances(cfg: Config, db: Db, t: Time, now: Time, id: Id, moderator: Id, r: Moderation.Ruling)
    requires Inv(cfg, db, t) && Moderation.Resolve(db, now, id, moderator, r).Ok?
    ensures Advances(db, Commit(db, Moderation.Resolve(db, now, id, moderator, r).value))
  {
    hide *;
    Preservation.Parts(cfg, db, t);
    Success.Resolve(db, now, id, moderator, r);
    RuledBy(db, now, id, moderator, r);
    Arrows();
    var d := db.disputes[id];
    Preservation.OpenIsActive(d);
    Preservation.DisputeGround(db.assignments, db.submissions, db.reviews, db.disputes, id);
    var a, s := d.assignment, d.submission.value;
    var row := db.assignments[a];
    var after := Commit(db, Moderation.Resolve(db, now, id, moderator, r).value);
    RulingFollows(d, moderator, r);
    OneDisputeFollows(db.disputes, id, Success.Ruled(d, moderator, r));
    if r.remedy == AwardTester {
      var c := db.campaigns[row.campaign];
      Preservation.ApprovalKeeps(cfg, db, t, now, s, a);
      ApprovalWrites(db, now, s, db.submissions[s], a, row, c);
      SettledFollows(c, row.campaign, after.assignments);
      Disputable(db.submissions[s].status, row.status);
      BothFollow(db, after, a, row.(status := Approved, completedAt := Some(now)), s,
                 db.submissions[s].(status := Passed));
      OneCampaignFollows(db.campaigns, row.campaign, Campaigns.MaybeComplete(c, row.campaign, after.assignments));
    } else {
      CampaignsRest(db.campaigns);
      if row.status.Submitted? {
        Disputable(db.submissions[s].status, row.status);
        BothFollow(db, after, a, row.(status := Rejected, completedAt := Some(now)), s,
                   db.submissions[s].(status := Refused));
      } else {
        WorkRests(db, after);
      }
    }
    ReviewsRest(db, after);
    Together(db, after);
  }

  lemma Disputable(s: SubmissionStatus, a: AssignmentStatus)
    requires Mirror(s) == a && !a.ChangesRequested?
    ensures s != ToChange
  {
  }

  // ----- every request ----------------------------------------------------------------------

  lemma HandleAdvances(cfg: Config, db: Db, t: Time, now: Time, r: Request)
    requires Inv(cfg, db, t) && Handle(cfg, db, now, r).Ok?
    ensures Advances(db, Commit(db, Handle(cfg, db, now, r).value))
  {
    hide Inv, Commit, Advances;
    match r
    case UpsertProfile(user, username, enabled) => UpsertAdvances(cfg, db, user, username, enabled);
    case CreateCampaign(id, owner, fields) => CreateAdvances(db, id, owner, fields);
    case UpdateCampaign(c, owner, change) => UpdateAdvances(db, c, owner, change);
    case UpsertContract(c, owner, terms) => UpsertContractAdvances(db, c, owner, terms);
    case PublishCampaign(c, owner) => PublishAdvances(cfg, db, t, now, c, owner);
    case LaunchCampaign(id, owner, fields, terms) => LaunchAdvances(db, now, id, owner, fields, terms);
    case TransitionCampaign(c, owner, action) => TransitionAdvances(db, now, c, owner, action);
    case Apply(id, c, tester) => ApplyAdvances(cfg, db, t, id, c, tester);
    case Accept(a, owner) => AcceptAdvances(db, now, a, owner);
    case Decline(a, owner) => DeclineAdvances(db, now, a, owner);
    case Withdraw(a, tester) => WithdrawAdvances(db, now, a, tester);
    case Start(a, tester) => StartAdvances(db, now, a, tester);
    case RecordSession(a, tester) => RecordSessionAdvances(db, now, a, tester);
    case Submit(id, a, tester, evidence) => SubmitAdvances(cfg, db, t, now, id, a, tester, evidence);
    case Examine(s, reviewer, decision) => ExamineAdvances(cfg, db, t, now, s, reviewer, decision);
    case Escalate(id, a, user, s) => EscalateAdvances(db, now, id, a, user, s);
    case Claim(d, moderator) => ClaimAdvances(db, d, moderator);
    case Resolve(d, moderator, ruling) => ResolveAdvances(cfg, db, t, now, d, moderator, ruling);
  }
}
