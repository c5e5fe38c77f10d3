/** Places in a campaign, and when campaigns complete. */
module Places {
  import opened Model
  import opened Results
  import opened Evolution
  import opened Invariants
  import opened Histories
  import opened Requests
  import Agreement
  import Campaigns
  import Effects
  import Escalations
  import Finality
  import Guarantees
  import Lifecycles
  import Moderation
  import Money
  import Preservation
  import Success
  import Workflow

  lemma PlacesHold(cfg: Config, db: Db, t: Time)
    requires Reachable(cfg, db, t)
    ensures Capacity(db.campaigns, db.assignments, db.submissions, db.reviews)
    ensures Progress(db.campaigns, db.assignments)
  {
    hide *;
    ReachableHolds(cfg, db, t);
    Preservation.Parts(cfg, db, t);
  }

  /** The owner rejected it, a moderator let it pass. */
  predicate Overturned(db: Db, s: Id) {
    && s in db.submissions && s in db.reviews
    && db.reviews[s].decision == Reject && db.submissions[s].status == Passed
  }

  /** The occupied places of a campaign exceed its target by no more than the number of awards that
      overrode a rejection by the owner; without such an award they never do. */
  lemma CapacityWithOverrides(cfg: Config, db: Db, t: Time, c: Id)
    requires Reachable(cfg, db, t) && c in db.campaigns
    ensures Occupied(db.assignments, c) <=
            db.campaigns[c].target + |Overrides(db.assignments, db.submissions, db.reviews, c)|
    ensures (forall s | Overturned(db, s) ::
             db.submissions[s].assignment !in WithStatus(db.assignments, c, {Approved})) ==>
              Occupied(db.assignments, c) <= db.campaigns[c].target
  {
    hide Reachable, Progress, Capacity, WithStatus, Occupied;
    PlacesHold(cfg, db, t);
    CapacityOf(db.campaigns, db.assignments, db.submissions, db.reviews, c);
    if forall s | Overturned(db, s) :: db.submissions[s].assignment !in WithStatus(db.assignments, c, {Approved}) {
      assert Overrides(db.assignments, db.submissions, db.reviews, c) == {};
    }
  }

  lemma CapacityOf(campaigns: map<Id, Campaign>, assignments: map<Id, Assignment>, submissions: map<Id, Submission>,
                   reviews: map<Id, Review>, c: Id)
    requires Capacity(campaigns, assignments, submissions, reviews) && c in campaigns
    ensures Occupied(assignments, c) <= campaigns[c].target + |Overrides(assignments, submissions, reviews, c)|
  {
  }

  /** A campaign that recruits is short of approved testers. A closed one has no application left,
      and if testers were accepted and none is at work any more, somebody's work was rejected. */
  lemma UnfinishedCampaigns(cfg: Config, db: Db, t: Time, c: Id)
    requires Reachable(cfg, db, t) && c in db.campaigns
    ensures db.campaigns[c].status == Published || db.campaigns[c].status == Paused ==>
              |WithStatus(db.assignments, c, {Approved})| < db.campaigns[c].target
    ensures db.campaigns[c].status == Closed ==>
              && WithStatus(db.assignments, c, {Applied}) == {}
              && (EverAccepted(db.assignments, c) != {} && WithStatus(db.assignments, c, ACTIVE) == {} ==>
                    WithStatus(db.assignments, c, {Rejected}) != {})
  {
    hide Reachable, Capacity, Progress;
    PlacesHold(cfg, db, t);
    ProgressOf(db.campaigns, db.assignments, c);
    assert WithStatus(db.assignments, c, ACTIVE + {Rejected}) ==
           WithStatus(db.assignments, c, ACTIVE) + WithStatus(db.assignments, c, {Rejected});
  }

  lemma ProgressOf(campaigns: map<Id, Campaign>, assignments: map<Id, Assignment>, c: Id)
    requires Progress(campaigns, assignments) && c in campaigns
    ensures ProgressFits(campaigns[c], c, assignments)
  {
  }

  // ----- the one way past the target --------------------------------------------------------

  /** A ruling that gives a place back to a tester of campaign `c` whose work had been rejected,
      when the campaign has no place left. */
  predicate Overfills(db: Db, r: Request, c: Id) {
    && r.Resolve? && r.ruling.remedy == AwardTester && r.dispute in db.disputes
    && var d := db.disputes[r.dispute];
    && d.status == UnderReview && d.assignedTo == Some(r.moderator)
    && d.assignment in db.assignments && db.assignments[d.assignment].campaign == c
    && db.assignments[d.assignment].status == Rejected
    && c in db.campaigns && Occupied(db.assignments, c) >= db.campaigns[c].target
  }

  lemma OccupiedAfter(assignments: map<Id, Assignment>, a: Id, x: Assignment, c: Id)
    requires a in assignments && assignments[a].campaign == x.campaign
    ensures Occupied(assignments + map[a := x], c) == Occupied(assignments, c) +
              (if c != x.campaign then 0
               else (if x.status in OCCUPIED then 1 else 0) - (if assignments[a].status in OCCUPIED then 1 else 0))
  {
    var before, after := WithStatus(assignments, c, OCCUPIED), WithStatus(assignments + map[a := x], c, OCCUPIED);
    Effects.WithStatusUpdate(assignments, a, x, c, OCCUPIED);
    if x.campaign == c && x.status in OCCUPIED {
      assert after == before + {a};
    } else {
      assert after == before - {a};
    }
  }

  lemma Statuses()
    ensures Accepted in OCCUPIED && InProgress in OCCUPIED && Submitted in OCCUPIED && ChangesRequested in OCCUPIED
    ensures AssignmentStatus.Approved in OCCUPIED
    ensures Applied !in OCCUPIED && Rejected !in OCCUPIED && Cancelled !in OCCUPIED
  {
  }

  lemma ApplicationTakesNoPlace(assignments: map<Id, Assignment>, a: Id, x: Assignment, c: Id)
    requires a !in assignments && x.status == Applied
    ensures Occupied(assignments + map[a := x], c) == Occupied(assignments, c)
  {
    Effects.WithStatusUpdate(assignments, a, x, c, OCCUPIED);
    assert WithStatus(assignments + map[a := x], c, OCCUPIED) == WithStatus(assignments, c, OCCUPIED);
  }

  lemma ClosingTakesNoPlace(assignments: map<Id, Assignment>, closed: Id, now: Time, c: Id)
    ensures Occupied(assignments + Campaigns.Declined(assignments, closed, now), c) == Occupied(assignments, c)
  {
    var after := assignments + Campaigns.Declined(assignments, closed, now);
    assert WithStatus(after, c, OCCUPIED) == WithStatus(assignments, c, OCCUPIED);
  }

  /** Requests on profiles, campaigns and disputes leave assignments alone. */
  lemma QuietRequests(cfg: Config, db: Db, now: Time, r: Request)
    requires Handle(cfg, db, now, r).Ok?
    requires || r.UpsertProfile? || r.CreateCampaign? || r.UpdateCampaign? || r.UpsertContract? || r.PublishCampaign?
             || r.LaunchCampaign? || r.RecordSession? || r.Escalate? || r.Claim?
    ensures Commit(db, Handle(cfg, db, now, r).value).assignments == db.assignments
  {
    hide Commit, Lifecycles.Advances;
    match r
    case UpsertProfile(user, username, enabled) => Lifecycles.UpsertAdvances(cfg, db, user, username, enabled);
    case CreateCampaign(id, owner, fields) => Success.Create(db, id, owner, fields);
    case UpdateCampaign(c, owner, change) => Success.Update(db, c, owner, change);
    case UpsertContract(c, owner, terms) => Success.UpsertContract(db, c, owner, terms);
    case PublishCampaign(c, owner) => Lifecycles.PublishWrites(db, now, c, owner);
    case LaunchCampaign(id, owner, fields, terms) => Lifecycles.LaunchWrites(db, now, id, owner, fields, terms);
    case RecordSession(a, tester) => Success.RecordSession(db, now, a, tester);
    case Escalate(id, a, user, s) => Success.Escalate(db, now, id, a, user, s);
    case Claim(d, moderator) => Success.Claim(db, d, moderator);
  }

  /** No request but an award takes a place beyond the target. */
  lemma OthersStayWithin(cfg: Config, db: Db, t: Time, now: Time, r: Request, c: Id)
    requires Inv(cfg, db, t) && c in db.campaigns && Handle(cfg, db, now, r).Ok? && !r.Resolve?
    requires Occupied(db.assignments, c) <= db.campaigns[c].target
    ensures Occupied(Commit(db, Handle(cfg, db, now, r).value).assignments, c) <= db.campaigns[c].target
  {
    hide Inv, Commit, Occupied, OCCUPIED;
    Statuses();
    match r
    case TransitionCampaign(id, owner, action) =>
      Success.Transition(db, now, id, owner, action);
      ClosingTakesNoPlace(db.assignments, id, now, c);
    case Apply(id, campaign, tester) =>
      Success.Apply(db, id, campaign, tester);
      ApplicationTakesNoPlace(db.assignments, id, Assignment(campaign, tester, Applied, None, None, None, None), c);
    case Accept(a, owner) =>
      Success.Accept(db, now, a, owner);
      OccupiedAfter(db.assignments, a, db.assignments[a].(status := Accepted, acceptedAt := Some(now)), c);
    case Decline(a, owner) =>
      Success.Decline(db, now, a, owner);
      OccupiedAfter(db.assignments, a, db.assignments[a].(status := Cancelled, completedAt := Some(now)), c);
    case Withdraw(a, tester) =>
      Success.Withdraw(db, now, a, tester);
      OccupiedAfter(db.assignments, a, db.assignments[a].(status := Cancelled, completedAt := Some(now)), c);
    case Start(a, tester) =>
      Success.Start(db, now, a, tester);
      OccupiedAfter(db.assignments, a, db.assignments[a].(status := InProgress, startedAt := Some(now)), c);
    case Submit(id, a, tester, e) =>
      Success.Submit(db, now, id, a, tester, e);
      OccupiedAfter(db.assignments, a, db.assignments[a].(status := Submitted, submittedAt := Some(now)), c);
    case Examine(s, reviewer, decision) => ExaminedStaysWithin(cfg, db, t, now, s, reviewer, decision, c);
    case _ => QuietRequests(cfg, db, now, r);
  }

  lemma ExaminedStaysWithin(cfg: Config, db: Db, t: Time, now: Time, id: Id, reviewer: Id, decision: Decision, c: Id)
    requires Inv(cfg, db, t) && Workflow.Examine(db, now, id, reviewer, decision).Ok?
    ensures var after := Commit(db, Workflow.Examine(db, now, id, reviewer, decision).value);
            Occupied(after.assignments, c) <= Occupied(db.assignments, c)
  {
    hide *;
    Statuses();
    Success.Examine(db, now, id, reviewer, decision);
    Lifecycles.Examined(db, id);
    Money.SubmittedIsNotApproved();
    var s := db.submissions[id];
    var row := db.assignments[s.assignment];
    Agreement.NoRewardYet(cfg, db, t, s.assignment);
    Money.CanPay(cfg, db, t, s.assignment);
    Lifecycles.ApprovalWrites(db, now, id, s, s.assignment, row, db.campaigns[row.campaign]);
    var x := match decision
      case Approve => row.(status := Approved, completedAt := Some(now))
      case RequestChanges => row.(status := ChangesRequested)
      case Reject => row.(status := Rejected);
    OccupiedAfter(db.assignments, s.assignment, x, c);
  }

  /** A ruling takes a place exactly when it awards rejected work. */
  lemma RulingPlaces(cfg: Config, db: Db, t: Time, now: Time, id: Id, moderator: Id, r: Moderation.Ruling, c: Id)
    requires Inv(cfg, db, t) && Moderation.Resolve(db, now, id, moderator, r).Ok?
    ensures id in db.disputes && db.disputes[id].assignment in db.assignments
    ensures var row := db.assignments[db.disputes[id].assignment];
            var after := Commit(db, Moderation.Resolve(db, now, id, moderator, r).value);
            if r.remedy == AwardTester && row.campaign == c && row.status == Rejected
            then Occupied(after.assignments, c) == Occupied(db.assignments, c) + 1
            else Occupied(after.assignments, c) <= Occupied(db.assignments, c)
  {
    hide *;
    Statuses();
    Success.Resolve(db, now, id, moderator, r);
    Money.SubmittedIsNotApproved();
    var d := db.disputes[id];
    var row := db.assignments[d.assignment];
    if r.remedy == AwardTester {
      Agreement.NoRewardYet(cfg, db, t, d.assignment);
      Money.FoundDisputed(db, d);
      Lifecycles.ApprovalWrites(db, now, d.submission.value, db.submissions[d.submission.value], d.assignment, row,
                                db.campaigns[row.campaign]);
      OccupiedAfter(db.assignments, d.assignment, row.(status := Approved, completedAt := Some(now)), c);
    } else if row.status == Submitted {
      OccupiedAfter(db.assignments, d.assignment, row.(status := Rejected, completedAt := Some(now)), c);
    }
  }

  lemma TargetStays(cfg: Config, db: Db, t: Time, now: Time, r: Request, c: Id)
    requires Inv(cfg, db, t) && c in db.campaigns && db.campaigns[c].status != Draft && Handle(cfg, db, now, r).Ok?
    ensures var after := Commit(db, Handle(cfg, db, now, r).value);
            c in after.campaigns && after.campaigns[c].target == db.campaigns[c].target
  {
    hide *;
    NoLocksHeld(db, r);
    Guarantees.Guarantee(cfg, db, t, now, r, {});
    Finality.Frozen(db, Commit(db, Handle(cfg, db, now, r).value), c);
    SameTarget(db.campaigns[c], Commit(db, Handle(cfg, db, now, r).value).campaigns[c]);
  }

  lemma NoLocksHeld(db: Db, r: Request)
    ensures {} !! Locks(db, r) && forall row :: row in {} ==> Exists(db, row)
  {
  }

  lemma SameTarget(c: Campaign, d: Campaign)
    requires CampaignEvolves(c, d, false) && c.status != Draft
    ensures d.target == c.target
  {
  }

  /** Serving a request keeps a campaign within its target unless, and only unless, the request is an
      award of rejected work when no place is left: resolving does not look at capacity. */
  lemma OnlyAwardsOverfill(cfg: Config, db: Db, t: Time, now: Time, r: Request, c: Id)
    requires Reachable(cfg, db, t) && c in db.campaigns && db.campaigns[c].status != Draft
    requires Occupied(db.assignments, c) <= db.campaigns[c].target
    ensures c in Step(cfg, db, now, r).campaigns
    ensures Occupied(Step(cfg, db, now, r).assignments, c) <= Step(cfg, db, now, r).campaigns[c].target <==>
            !Overfills(db, r, c)
  {
    hide *;
    ReachableHolds(cfg, db, t);
    StepIs(cfg, db, now, r);
    if Handle(cfg, db, now, r).Ok? {
      TargetStays(cfg, db, t, now, r, c);
      if r.Resolve? {
        RulingOverfills(cfg, db, t, now, r, c);
      } else {
        OthersStayWithin(cfg, db, t, now, r, c);
        NotAnAward(db, r, c);
      }
    } else {
      RefusedIsHarmless(cfg, db, t, now, r, c);
    }
  }

  lemma NotAnAward(db: Db, r: Request, c: Id)
    requires !r.Resolve?
    ensures !Overfills(db, r, c)
  {
  }

  lemma ResolveHandled(cfg: Config, db: Db, now: Time, r: Request)
    requires r.Resolve?
    ensures Handle(cfg, db, now, r) == Moderation.Resolve(db, now, r.dispute, r.moderator, r.ruling)
  {
  }

  lemma RulingOverfills(cfg: Config, db: Db, t: Time, now: Time, r: Request, c: Id)
    requires Inv(cfg, db, t) && c in db.campaigns && r.Resolve? && Handle(cfg, db, now, r).Ok?
    requires Occupied(db.assignments, c) <= db.campaigns[c].target
    ensures Occupied(Commit(db, Handle(cfg, db, now, r).value).assignments, c) <= db.campaigns[c].target <==>
            !Overfills(db, r, c)
  {
    hide Inv, Occupied, Commit, Handle, Moderation.Resolve;
    ResolveHandled(cfg, db, now, r);
    RulingPlaces(cfg, db, t, now, r.dispute, r.moderator, r.ruling, c);
    Lifecycles.RuledBy(db, now, r.dispute, r.moderator, r.ruling);
    hide Workflow.HasActiveDispute;
  }

  /** An award is refused only for reasons the guard already excludes. */
  lemma RefusedIsHarmless(cfg: Config, db: Db, t: Time, now: Time, r: Request, c: Id)
    requires Reachable(cfg, db, t) && Handle(cfg, db, now, r).Err?
    ensures !Overfills(db, r, c)
  {
    hide Reachable, Occupied, Handle;
    if Overfills(db, r, c) {
      ResolveHandled(cfg, db, now, r);
      Escalations.OnlyIndecisionIsRefused(cfg, db, t, now, r.dispute, r.moderator, r.ruling);
    }
  }
}
