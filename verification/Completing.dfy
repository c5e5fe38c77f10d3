/** When a closed campaign completes, and the one way it does not. */
module Completing {
  import opened Model
  import opened Results
  import opened Invariants
  import opened Histories
  import opened Requests
  import Agreement
  import Campaigns
  import Credits
  import Effects
  import Escalations
  import Lifecycles
  import Moderation
  import Money
  import Places
  import Preservation
  import Profiles
  import Refusals
  import Settling
  import Success
  import Workflow

  /** Closed, all accepted work settled, and still not completed. */
  ghost predicate Stalled(campaigns: map<Id, Campaign>, assignments: map<Id, Assignment>, c: Id) {
    && c in campaigns && campaigns[c].status == Closed
    && EverAccepted(assignments, c) != {} && WithStatus(assignments, c, ACTIVE) == {}
  }

  /** The request turns down the last work that is going on in a closed campaign. */
  predicate RejectsTheLast(db: Db, r: Request, c: Id) {
    && c in db.campaigns && db.campaigns[c].status == Closed
    && (OwnerRejects(db, r, c) || ModeratorDismisses(db, r, c))
  }

  /** The owner rejects the pending work, which nobody escalated, of the only tester at work. */
  predicate OwnerRejects(db: Db, r: Request, c: Id) {
    && r.Examine? && r.decision == Reject && c in db.campaigns && r.reviewer == db.campaigns[c].owner
    && r.submission in db.submissions && db.submissions[r.submission].status == Pending
    && !Workflow.HasActiveDispute(db.disputes, db.submissions[r.submission].assignment)
    && WithStatus(db.assignments, c, ACTIVE) == {db.submissions[r.submission].assignment}
  }

  /** The moderator in charge dismisses the escalation of the only tester at work. */
  predicate ModeratorDismisses(db: Db, r: Request, c: Id) {
    && r.Resolve? && r.ruling.outcome == Moderation.Dismiss && r.dispute in db.disputes
    && db.disputes[r.dispute].status == UnderReview && db.disputes[r.dispute].assignedTo == Some(r.moderator)
    && WithStatus(db.assignments, c, ACTIVE) == {db.disputes[r.dispute].assignment}
  }

  // ----- pieces -----------------------------------------------------------------------------

  /** Looking at completion never leaves a campaign stalled. */
  lemma CheckedIsNotStalled(campaigns: map<Id, Campaign>, assignments: map<Id, Assignment>, c: Id, row: Campaign)
    requires c in campaigns && campaigns[c] == Campaigns.MaybeComplete(row, c, assignments)
    ensures !Stalled(campaigns, assignments, c)
  {
  }

  /** The work of a campaign, as far as completion looks at it. */
  ghost predicate SameWork(before: map<Id, Assignment>, after: map<Id, Assignment>, c: Id) {
    WithStatus(after, c, ACTIVE) == WithStatus(before, c, ACTIVE) && EverAccepted(after, c) == EverAccepted(before, c)
  }

  lemma OneRowSame(assignments: map<Id, Assignment>, a: Id, x: Assignment, c: Id)
    requires a in assignments ==> assignments[a].campaign == x.campaign
    requires x.campaign == c ==>
               (x.status in ACTIVE <==> a in assignments && assignments[a].status in ACTIVE) &&
               (x.acceptedAt.Some? <==> a in assignments && assignments[a].acceptedAt.Some?)
    ensures SameWork(assignments, assignments + map[a := x], c)
  {
    Effects.WithStatusUpdate(assignments, a, x, c, ACTIVE);
  }

  lemma DeclinedSame(assignments: map<Id, Assignment>, closed: Id, now: Time, c: Id)
    requires c != closed
    ensures SameWork(assignments, assignments + Campaigns.Declined(assignments, closed, now), c)
  {
    var after := assignments + Campaigns.Declined(assignments, closed, now);
    assert forall a :: a in assignments && assignments[a].campaign == c ==> after[a] == assignments[a];
  }

  lemma StatusesOfWork()
    ensures Accepted in ACTIVE && InProgress in ACTIVE && Submitted in ACTIVE && ChangesRequested in ACTIVE
    ensures AssignmentStatus.Approved !in ACTIVE && Applied !in ACTIVE && Rejected !in ACTIVE && Cancelled !in ACTIVE
  {
  }

  /** Nothing new for campaign `c`. */
  lemma NothingNew(before: Db, after: Db, c: Id)
    requires c in before.campaigns && !Stalled(before.campaigns, before.assignments, c)
    requires SameWork(before.assignments, after.assignments, c)
    requires c in after.campaigns && (after.campaigns[c].status == Closed ==> before.campaigns[c].status == Closed)
    ensures !Stalled(after.campaigns, after.assignments, c)
  {
  }

  lemma Unmoved(assignments: map<Id, Assignment>, c: Id)
    ensures SameWork(assignments, assignments, c)
  {
  }

  // ----- requests ---------------------------------------------------------------------------

  /** A campaign in `after` is closed only if it was before. */
  ghost predicate ClosesNothing(before: map<Id, Campaign>, after: map<Id, Campaign>) {
    forall c :: c in before ==> c in after && (after[c].status == Closed ==> before[c].status == Closed)
  }

  lemma OneRowOpen(campaigns: map<Id, Campaign>, c: Id, x: Campaign)
    requires x.status != Closed
    ensures ClosesNothing(campaigns, campaigns + map[c := x])
  {
  }

  lemma Same(campaigns: map<Id, Campaign>)
    ensures ClosesNothing(campaigns, campaigns)
  {
  }

  /** What these requests write into campaigns is never the status "closed". */
  lemma QuietCampaigns(cfg: Config, db: Db, now: Time, r: Request)
    requires Handle(cfg, db, now, r).Ok?
    requires || r.UpsertProfile? || r.CreateCampaign? || r.UpdateCampaign? || r.UpsertContract? || r.PublishCampaign?
             || r.LaunchCampaign? || r.RecordSession? || r.Escalate? || r.Claim?
    ensures ClosesNothing(db.campaigns, Commit(db, Handle(cfg, db, now, r).value).campaigns)
  {
    hide Commit, Lifecycles.Advances, Lifecycles.SameWork, ClosesNothing;
    hide Profiles.Upsert, Campaigns.Create, Campaigns.Update, Campaigns.UpsertContract, Campaigns.Publish;
    hide Campaigns.Launch, Campaigns.Transition, Workflow.Apply, Workflow.Accept, Workflow.Decline, Workflow.Withdraw;
    hide Workflow.Start, Workflow.RecordSession, Workflow.Submit, Workflow.Examine, Workflow.Escalate;
    hide Moderation.Claim, Moderation.Resolve;
    Same(db.campaigns);
    match r
    case UpsertProfile(user, username, enabled) => SameCampaigns(cfg, db, user, username, enabled);
    case CreateCampaign(id, owner, p) =>
      Success.Create(db, id, owner, p);
      OneRowOpen(db.campaigns, id, Campaign(owner, p.slug, p.target, p.reward, Draft, None));
    case UpdateCampaign(id, owner, change) =>
      Success.Update(db, id, owner, change);
      OneRowOpen(db.campaigns, id, Campaigns.Changed(db.campaigns[id], change));
    case UpsertContract(id, owner, terms) => Success.UpsertContract(db, id, owner, terms);
    case PublishCampaign(id, owner) =>
      PublishedOnly(db, now, id, owner);
      OneRowOpen(db.campaigns, id, Commit(db, Campaigns.Publish(db, now, id, owner).value).campaigns[id]);
    case LaunchCampaign(id, owner, fields, terms) => LaunchClosesNothing(db, now, id, owner, fields, terms);
    case RecordSession(a, tester) => Success.RecordSession(db, now, a, tester);
    case Escalate(id, a, user, s) => Success.Escalate(db, now, id, a, user, s);
    case Claim(d, moderator) => Success.Claim(db, d, moderator);
  }

  lemma LaunchClosesNothing(db: Db, now: Time, id: Id, owner: Id, p: Campaigns.CampaignPayload,
                            k: Campaigns.ContractPayload)
    requires Campaigns.Launch(db, now, id, owner, p, k).Ok?
    ensures ClosesNothing(db.campaigns, Commit(db, Campaigns.Launch(db, now, id, owner, p, k).value).campaigns)
  {
    hide Commit, Campaigns.Launch;
    Lifecycles.LaunchWrites(db, now, id, owner, p, k);
  }

  lemma SameCampaigns(cfg: Config, db: Db, user: Id, username: string, enabled: bool)
    requires Handle(cfg, db, 0, UpsertProfile(user, username, enabled)).Ok?
    ensures Commit(db, Handle(cfg, db, 0, UpsertProfile(user, username, enabled)).value).campaigns == db.campaigns
  {
    hide Commit, Lifecycles.Advances;
    Lifecycles.UpsertAdvances(cfg, db, user, username, enabled);
  }

  lemma PublishedOnly(db: Db, now: Time, c: Id, owner: Id)
    requires Campaigns.Publish(db, now, c, owner).Ok?
    ensures var after := Commit(db, Campaigns.Publish(db, now, c, owner).value);
            && c in after.campaigns && after.campaigns[c].status == Published
            && after.campaigns == db.campaigns + map[c := after.campaigns[c]]
  {
    Lifecycles.PublishWrites(db, now, c, owner);
    var w := Campaigns.Publish(db, now, c, owner).value;
    if db.campaigns[c].status != Published {
      assert w.campaigns == map[c := db.campaigns[c].(status := Published, publishedAt := Some(now))];
    } else {
      assert w.campaigns == map[];
    }
    hide Commit, Campaigns.Publish;
    Untouched(db, w);
    CampaignsOf(db, w);
  }

  lemma CampaignsOf(db: Db, w: Writes)
    ensures Commit(db, w).campaigns == db.campaigns + w.campaigns
  {
  }

  lemma TransitionsDoNotStall(db: Db, now: Time, id: Id, owner: Id, action: Campaigns.Action, c: Id)
    requires c in db.campaigns && !Stalled(db.campaigns, db.assignments, c)
    requires Campaigns.Transition(db, now, id, owner, action).Ok?
    ensures var after := Commit(db, Campaigns.Transition(db, now, id, owner, action).value);
            !Stalled(after.campaigns, after.assignments, c)
  {
    hide Commit, Stalled, SameWork, Campaigns.MaybeComplete, Campaigns.Declined, Campaigns.Transition;
    Success.Transition(db, now, id, owner, action);
    var after := Commit(db, Campaigns.Transition(db, now, id, owner, action).value);
    if action != Campaigns.Close {
      Unmoved(db.assignments, c);
      NothingNew(db, after, c);
    } else if c == id {
      CheckedIsNotStalled(after.campaigns, after.assignments, c, db.campaigns[c].(status := Closed));
    } else {
      DeclinedSame(db.assignments, id, now, c);
      NothingNew(db, after, c);
    }
  }

  lemma OwnersDoNotStall(db: Db, now: Time, r: Request, c: Id)
    requires c in db.campaigns && !Stalled(db.campaigns, db.assignments, c)
    requires (r.Accept? && Workflow.Accept(db, now, r.assignment, r.owner).Ok?)
             || (r.Decline? && Workflow.Decline(db, now, r.assignment, r.owner).Ok?)
    ensures var w := if r.Accept? then Workflow.Accept(db, now, r.assignment, r.owner).value
                     else Workflow.Decline(db, now, r.assignment, r.owner).value;
            !Stalled(Commit(db, w).campaigns, Commit(db, w).assignments, c)
  {
    hide Commit, Stalled, SameWork, ACTIVE, Workflow.Accept, Workflow.Decline;
    StatusesOfWork();
    var a := r.assignment;
    if r.Accept? {
      Success.Accept(db, now, a, r.owner);
      var after := Commit(db, Workflow.Accept(db, now, a, r.owner).value);
      if db.assignments[a].campaign == c {
        OpenIsNotStalled(after, c);
      } else {
        OneRowSame(db.assignments, a, db.assignments[a].(status := Accepted, acceptedAt := Some(now)), c);
        NothingNew(db, after, c);
      }
    } else {
      Success.Decline(db, now, a, r.owner);
      OneRowSame(db.assignments, a, db.assignments[a].(status := Cancelled, completedAt := Some(now)), c);
      NothingNew(db, Commit(db, Workflow.Decline(db, now, a, r.owner).value), c);
    }
  }

  lemma WithdrawalsDoNotStall(db: Db, now: Time, a: Id, tester: Id, c: Id)
    requires c in db.campaigns && !Stalled(db.campaigns, db.assignments, c) && Workflow.Withdraw(db, now, a, tester).Ok?
    ensures var after := Commit(db, Workflow.Withdraw(db, now, a, tester).value);
            !Stalled(after.campaigns, after.assignments, c)
  {
    hide Commit, Stalled, SameWork, ACTIVE, Campaigns.MaybeComplete, Workflow.Withdraw;
    StatusesOfWork();
    Success.Withdraw(db, now, a, tester);
    var after := Commit(db, Workflow.Withdraw(db, now, a, tester).value);
    if db.assignments[a].campaign == c {
      CheckedIsNotStalled(after.campaigns, after.assignments, c, db.campaigns[c]);
    } else {
      OneRowSame(db.assignments, a, db.assignments[a].(status := Cancelled, completedAt := Some(now)), c);
      NothingNew(db, after, c);
    }
  }

  lemma OthersDoNotStall(cfg: Config, db: Db, now: Time, r: Request, c: Id)
    requires c in db.campaigns && !Stalled(db.campaigns, db.assignments, c)
    requires Handle(cfg, db, now, r).Ok? && !r.Examine? && !r.Resolve?
    ensures var after := Commit(db, Handle(cfg, db, now, r).value); !Stalled(after.campaigns, after.assignments, c)
  {
    hide Commit, Stalled, SameWork, ACTIVE, WithStatus, Campaigns.Transition, Workflow.Apply, Workflow.Accept;
    hide Workflow.Decline;
    hide Workflow.Withdraw, Workflow.Start, Workflow.Submit;
    StatusesOfWork();
    var after := Commit(db, Handle(cfg, db, now, r).value);
    match r
    case TransitionCampaign(id, owner, action) => TransitionsDoNotStall(db, now, id, owner, action, c);
    case Apply(id, campaign, tester) =>
      Success.Apply(db, id, campaign, tester);
      OneRowSame(db.assignments, id, Assignment(campaign, tester, Applied, None, None, None, None), c);
      NothingNew(db, after, c);
    case Accept(_, _) => OwnersDoNotStall(db, now, r, c);
    case Decline(_, _) => OwnersDoNotStall(db, now, r, c);
    case Withdraw(a, tester) => WithdrawalsDoNotStall(db, now, a, tester, c);
    case Start(a, tester) =>
      Success.Start(db, now, a, tester);
      OneRowSame(db.assignments, a, db.assignments[a].(status := InProgress, startedAt := Some(now)), c);
      NothingNew(db, after, c);
    case Submit(id, a, tester, e) =>
      Success.Submit(db, now, id, a, tester, e);
      OneRowSame(db.assignments, a, db.assignments[a].(status := Submitted, submittedAt := Some(now)), c);
      NothingNew(db, after, c);
    case _ =>
      Places.QuietRequests(cfg, db, now, r);
      QuietCampaigns(cfg, db, now, r);
      Unmoved(db.assignments, c);
      NothingNew(db, after, c);
  }

  lemma OpenIsNotStalled(db: Db, c: Id)
    requires c in db.campaigns && db.campaigns[c].status != Closed
    ensures !Stalled(db.campaigns, db.assignments, c)
  {
  }

  /** Work that is turned down stalls its campaign exactly when it was the last. */
  lemma Rejection(db: Db, after: Db, a: Id, x: Assignment, c: Id)
    requires a in db.assignments && x.campaign == db.assignments[a].campaign
    requires x.acceptedAt == db.assignments[a].acceptedAt
    requires db.assignments[a].status == Submitted && x.status == Rejected && x.acceptedAt.Some?
    requires after.assignments == db.assignments + map[a := x] && after.campaigns == db.campaigns
    requires c in db.campaigns && !Stalled(db.campaigns, db.assignments, c)
    ensures Stalled(after.campaigns, after.assignments, c) <==>
            db.campaigns[c].status == Closed && WithStatus(db.assignments, c, ACTIVE) == {a}
  {
    Effects.WithStatusUpdate(db.assignments, a, x, c, ACTIVE);
    var before, left := WithStatus(db.assignments, c, ACTIVE), WithStatus(after.assignments, c, ACTIVE);
    assert left == before - {a};
    if x.campaign == c {
      assert a in before && a in EverAccepted(after.assignments, c);
    } else {
      assert a !in before;
      assert EverAccepted(after.assignments, c) == EverAccepted(db.assignments, c);
    }
  }

  lemma Paid(db: Db, after: Db, a: Id, x: Assignment, c: Id)
    requires a in db.assignments && x.campaign == db.assignments[a].campaign
    requires x.acceptedAt == db.assignments[a].acceptedAt
    requires after.assignments == db.assignments + map[a := x] && x.campaign in db.campaigns
    requires after.campaigns ==
             db.campaigns + map[x.campaign :=
                                Campaigns.MaybeComplete(db.campaigns[x.campaign], x.campaign, after.assignments)]
    requires c in db.campaigns && !Stalled(db.campaigns, db.assignments, c)
    ensures !Stalled(after.campaigns, after.assignments, c)
  {
    hide Campaigns.MaybeComplete, Stalled, SameWork;
    if x.campaign == c {
      CheckedIsNotStalled(after.campaigns, after.assignments, c, db.campaigns[c]);
    } else {
      OneRowSame(db.assignments, a, x, c);
      NothingNew(db, after, c);
    }
  }

  lemma DecisionStalls(cfg: Config, db: Db, t: Time, now: Time, id: Id, reviewer: Id, decision: Decision, c: Id)
    requires Inv(cfg, db, t) && c in db.campaigns && !Stalled(db.campaigns, db.assignments, c)
    requires Workflow.Examine(db, now, id, reviewer, decision).Ok?
    ensures var after := Commit(db, Workflow.Examine(db, now, id, reviewer, decision).value);
            && id in db.submissions
            && (Stalled(after.campaigns, after.assignments, c) <==>
                  decision == Reject && db.campaigns[c].status == Closed &&
                  WithStatus(db.assignments, c, ACTIVE) == {db.submissions[id].assignment})
  {
    hide *;
    StatusesOfWork();
    Success.Examine(db, now, id, reviewer, decision);
    Preservation.ExamineGround(cfg, db, t, id);
    Money.SubmittedIsNotApproved();
    var s := db.submissions[id];
    var row := db.assignments[s.assignment];
    var after := Commit(db, Workflow.Examine(db, now, id, reviewer, decision).value);
    AcceptedOnce(row);
    match decision
    case Approve =>
      Agreement.NoRewardYet(cfg, db, t, s.assignment);
      Lifecycles.ApprovalWrites(db, now, id, s, s.assignment, row, db.campaigns[row.campaign]);
      Paid(db, after, s.assignment, row.(status := Approved, completedAt := Some(now)), c);
    case RequestChanges =>
      OneRowSame(db.assignments, s.assignment, row.(status := ChangesRequested), c);
      NothingNew(db, after, c);
    case Reject =>
      Rejection(db, after, s.assignment, row.(status := Rejected), c);
  }

  lemma AcceptedOnce(a: Assignment)
    requires Stamped(a) && (a.status == Submitted || a.status == Rejected)
    ensures a.acceptedAt.Some?
  {
  }

  lemma RulingStalls(cfg: Config, db: Db, t: Time, now: Time, id: Id, moderator: Id, r: Moderation.Ruling, c: Id)
    requires Inv(cfg, db, t) && c in db.campaigns && !Stalled(db.campaigns, db.assignments, c)
    requires Moderation.Resolve(db, now, id, moderator, r).Ok?
    ensures var after := Commit(db, Moderation.Resolve(db, now, id, moderator, r).value);
            && id in db.disputes
            && (Stalled(after.campaigns, after.assignments, c) <==>
                  r.outcome == Moderation.Dismiss && db.campaigns[c].status == Closed &&
                  WithStatus(db.assignments, c, ACTIVE) == {db.disputes[id].assignment})
  {
    hide *;
    StatusesOfWork();
    Success.Resolve(db, now, id, moderator, r);
    Lifecycles.RuledBy(db, now, id, moderator, r);
    Money.SubmittedIsNotApproved();
    var d := db.disputes[id];
    var row := db.assignments[d.assignment];
    var after := Commit(db, Moderation.Resolve(db, now, id, moderator, r).value);
    DisputedRow(cfg, db, t, id);
    Outcomes(db, now, id, moderator, r);
    if r.remedy == AwardTester {
      Money.FoundDisputed(db, d);
      Agreement.NoRewardYet(cfg, db, t, d.assignment);
      Lifecycles.ApprovalWrites(db, now, d.submission.value, db.submissions[d.submission.value], d.assignment, row,
                                db.campaigns[row.campaign]);
      Paid(db, after, d.assignment, row.(status := Approved, completedAt := Some(now)), c);
    } else if row.status == Submitted {
      Rejection(db, after, d.assignment, row.(status := Rejected, completedAt := Some(now)), c);
    } else {
      NotAtWork(db.assignments, d.assignment, c);
      Unmoved(db.assignments, c);
      NothingNew(db, after, c);
    }
  }

  lemma NotAtWork(assignments: map<Id, Assignment>, a: Id, c: Id)
    requires a in assignments && assignments[a].status == Rejected
    ensures a !in WithStatus(assignments, c, ACTIVE)
  {
  }

  /** Pending work is either awarded or dismissed. */
  lemma Outcomes(db: Db, now: Time, id: Id, moderator: Id, r: Moderation.Ruling)
    requires Moderation.Resolve(db, now, id, moderator, r).Ok?
    ensures r.remedy == AwardTester ==> r.outcome == Moderation.Settle
    ensures id in db.disputes && db.disputes[id].assignment in db.assignments
    ensures r.remedy == NoRemedy && db.assignments[db.disputes[id].assignment].status == Submitted ==>
              r.outcome == Moderation.Dismiss
  {
    hide Workflow.Approval;
  }

  lemma DisputedRow(cfg: Config, db: Db, t: Time, id: Id)
    requires Inv(cfg, db, t) && id in db.disputes && db.disputes[id].status == UnderReview
    ensures var a := db.disputes[id].assignment;
            && a in db.assignments && (db.assignments[a].status == Submitted || db.assignments[a].status == Rejected)
            && db.assignments[a].acceptedAt.Some? && db.assignments[a].campaign in db.campaigns
  {
    hide *;
    Preservation.Parts(cfg, db, t);
    Preservation.OpenIsActive(db.disputes[id]);
    Preservation.DisputeGround(db.assignments, db.submissions, db.reviews, db.disputes, id);
    Preservation.RowFits(db.profiles, db.campaigns, db.assignments, db.disputes[id].assignment);
    AcceptedOnce(db.assignments[db.disputes[id].assignment]);
  }

  lemma ExamineStalls(cfg: Config, db: Db, t: Time, now: Time, r: Request, c: Id)
    requires Inv(cfg, db, t) && c in db.campaigns && !Stalled(db.campaigns, db.assignments, c)
    requires r.Examine? && Handle(cfg, db, now, r).Ok?
    ensures var after := Commit(db, Handle(cfg, db, now, r).value);
            Stalled(after.campaigns, after.assignments, c) <==> RejectsTheLast(db, r, c)
  {
    hide Inv, Commit, Stalled, WithStatus, Workflow.Examine, Workflow.HasActiveDispute;
    DecisionStalls(cfg, db, t, now, r.submission, r.reviewer, r.decision, c);
    Examiner(db, now, r.submission, r.reviewer, r.decision);
    OfCampaign(db.assignments, db.submissions[r.submission].assignment, c);
  }

  lemma Examiner(db: Db, now: Time, id: Id, reviewer: Id, decision: Decision)
    requires Workflow.Examine(db, now, id, reviewer, decision).Ok?
    ensures id in db.submissions && db.submissions[id].status == Pending
    ensures !Workflow.HasActiveDispute(db.disputes, db.submissions[id].assignment)
    ensures var a := db.submissions[id].assignment;
            && a in db.assignments && db.assignments[a].campaign in db.campaigns
            && db.campaigns[db.assignments[a].campaign].owner == reviewer
  {
    hide Workflow.Approval, Workflow.HasActiveDispute;
  }

  lemma OfCampaign(assignments: map<Id, Assignment>, a: Id, c: Id)
    ensures WithStatus(assignments, c, ACTIVE) == {a} ==>
              a in assignments && assignments[a].campaign == c && assignments[a].status in ACTIVE
  {
    assert WithStatus(assignments, c, ACTIVE) == {a} ==> a in WithStatus(assignments, c, ACTIVE);
  }

  lemma ResolveStalls(cfg: Config, db: Db, t: Time, now: Time, r: Request, c: Id)
    requires Inv(cfg, db, t) && c in db.campaigns && !Stalled(db.campaigns, db.assignments, c)
    requires r.Resolve? && Handle(cfg, db, now, r).Ok?
    ensures var after := Commit(db, Handle(cfg, db, now, r).value);
            Stalled(after.campaigns, after.assignments, c) <==> RejectsTheLast(db, r, c)
  {
    hide Inv, Commit, Stalled, WithStatus, Moderation.Resolve, Workflow.HasActiveDispute;
    RulingStalls(cfg, db, t, now, r.dispute, r.moderator, r.ruling, c);
    Lifecycles.RuledBy(db, now, r.dispute, r.moderator, r.ruling);
  }

  /** Whoever meets the guards is not refused. */
  lemma RejectionIsAccepted(cfg: Config, db: Db, t: Time, now: Time, r: Request, c: Id)
    requires Reachable(cfg, db, t) && RejectsTheLast(db, r, c)
    ensures Handle(cfg, db, now, r).Ok?
  {
    hide Reachable, Inv, WithStatus, Workflow.Examine, Moderation.Resolve, Workflow.HasActiveDispute;
    ReachableHolds(cfg, db, t);
    if r.Examine? {
      OfCampaign(db.assignments, db.submissions[r.submission].assignment, c);
      RejectionPossible(cfg, db, t, now, r.submission, r.reviewer);
    } else {
      Escalations.OnlyIndecisionIsRefused(cfg, db, t, now, r.dispute, r.moderator, r.ruling);
    }
  }

  lemma RejectionPossible(cfg: Config, db: Db, t: Time, now: Time, id: Id, reviewer: Id)
    requires Inv(cfg, db, t) && id in db.submissions && db.submissions[id].status == Pending
    requires !Workflow.HasActiveDispute(db.disputes, db.submissions[id].assignment)
    requires var a := db.submissions[id].assignment;
             && a in db.assignments && db.assignments[a].campaign in db.campaigns
             && db.campaigns[db.assignments[a].campaign].owner == reviewer
    ensures Workflow.Examine(db, now, id, reviewer, Reject).Ok?
  {
    hide Inv, Workflow.HasActiveDispute, Workflow.Approval;
    Agreement.NotReviewedYet(cfg, db, t, id);
    PendingIsSubmitted(cfg, db, t, id);
  }

  lemma PendingIsSubmitted(cfg: Config, db: Db, t: Time, id: Id)
    requires Inv(cfg, db, t) && id in db.submissions && db.submissions[id].status == Pending
    ensures db.submissions[id].assignment in db.assignments
    ensures db.assignments[db.submissions[id].assignment].status == Submitted
  {
    hide *;
    Preservation.Parts(cfg, db, t);
    Mirroring(db.assignments, db.submissions, id);
  }

  lemma Mirroring(assignments: map<Id, Assignment>, submissions: map<Id, Submission>, id: Id)
    requires History(assignments, submissions) && id in submissions && submissions[id].status == Pending
    ensures submissions[id].assignment in assignments
    ensures assignments[submissions[id].assignment].status == Submitted
  {
    assert SubmissionFits(submissions[id], assignments);
  }

  lemma NotARejection(db: Db, r: Request, c: Id)
    requires !r.Examine? && !r.Resolve?
    ensures !RejectsTheLast(db, r, c)
  {
  }

  /** A closed campaign completes as soon as its accepted work is settled, unless, and only unless,
      the last of it is turned down by somebody who may: neither kind of rejection looks at completion. */
  lemma OnlyRejectionsStall(cfg: Config, db: Db, t: Time, now: Time, r: Request, c: Id)
    requires Reachable(cfg, db, t) && c in db.campaigns && !Stalled(db.campaigns, db.assignments, c)
    ensures Stalled(Step(cfg, db, now, r).campaigns, Step(cfg, db, now, r).assignments, c) <==>
            RejectsTheLast(db, r, c)
  {
    hide *;
    ReachableHolds(cfg, db, t);
    StepIs(cfg, db, now, r);
    if Handle(cfg, db, now, r).Err? {
      if RejectsTheLast(db, r, c) {
        RejectionIsAccepted(cfg, db, t, now, r, c);
      }
    } else if r.Examine? {
      ExamineStalls(cfg, db, t, now, r, c);
    } else if r.Resolve? {
      ResolveStalls(cfg, db, t, now, r, c);
    } else {
      NotARejection(db, r, c);
      OthersDoNotStall(cfg, db, now, r, c);
    }
  }

  // ----- completion -------------------------------------------------------------------------

  predicate AtWork(s: AssignmentStatus) {
    s.Accepted? || s.InProgress? || s.Submitted? || s.ChangesRequested?
  }

  /** Somebody was accepted for the campaign, and nobody is at work in it any more. */
  predicate WorkIsOver(assignments: map<Id, Assignment>, c: Id) {
    && (forall a | a in assignments && assignments[a].campaign == c :: !AtWork(assignments[a].status))
    && (exists a | a in assignments :: assignments[a].campaign == c && assignments[a].acceptedAt.Some?)
  }

  /** As many tests of the campaign are approved as it asked for. */
  predicate TargetIsReached(assignments: map<Id, Assignment>, c: Id, target: int) {
    |set a | a in assignments && assignments[a].campaign == c && assignments[a].status.Approved?| >= target
  }

  /** The owner closes the campaign. */
  predicate Closes(db: Db, r: Request, c: Id) {
    && r.TransitionCampaign? && r.action == Campaigns.Close && r.campaign == c
    && c in db.campaigns && r.owner == db.campaigns[c].owner
    && (db.campaigns[c].status.Published? || db.campaigns[c].status.Paused?)
  }

  /** A tester withdraws from the campaign, or its owner approves pending work, or the moderator in
      charge awards it. */
  predicate SettlesWork(db: Db, r: Request, c: Id) {
    match r
    case Withdraw(a, tester) =>
      && a in db.assignments && db.assignments[a].campaign == c && db.assignments[a].tester == tester
      && var s := db.assignments[a].status; s.Applied? || s.Accepted? || s.InProgress? || s.ChangesRequested?
    case Examine(s, reviewer, decision) =>
      && decision == Approve && s in db.submissions && db.submissions[s].status == Pending
      && c in db.campaigns && db.campaigns[c].owner == reviewer
      && var a := db.submissions[s].assignment;
         a in db.assignments && db.assignments[a].campaign == c && !Refusals.InModeration(db, a)
    case Resolve(d, moderator, ruling) =>
      && ruling.remedy == AwardTester && d in db.disputes && db.disputes[d].status == UnderReview
      && db.disputes[d].assignedTo == Some(moderator)
      && var a := db.disputes[d].assignment; a in db.assignments && db.assignments[a].campaign == c
    case _ => false
  }

  lemma FinishedMeans(x: Campaign, c: Id, assignments: map<Id, Assignment>)
    ensures Campaigns.Finished(x, c, assignments) <==>
              || ((x.status.Published? || x.status.Paused?) && TargetIsReached(assignments, c, x.target))
              || (x.status.Closed? && WorkIsOver(assignments, c))
  {
    assert (set a | a in assignments && assignments[a].campaign == c && assignments[a].status.Approved?) ==
           WithStatus(assignments, c, {Approved});
    NobodyAtWork(assignments, c);
    SomebodyAccepted(assignments, c);
    hide WithStatus, EverAccepted;
  }

  lemma NobodyAtWork(assignments: map<Id, Assignment>, c: Id)
    ensures |WithStatus(assignments, c, ACTIVE)| == 0 <==>
            forall a | a in assignments && assignments[a].campaign == c :: !AtWork(assignments[a].status)
  {
    forall a | a in assignments && assignments[a].campaign == c
      ensures AtWork(assignments[a].status) <==> a in WithStatus(assignments, c, ACTIVE)
    {
    }
    if |WithStatus(assignments, c, ACTIVE)| > 0 {
      var a :| a in WithStatus(assignments, c, ACTIVE);
      assert AtWork(assignments[a].status);
    }
  }

  lemma SomebodyAccepted(assignments: map<Id, Assignment>, c: Id)
    ensures |EverAccepted(assignments, c)| > 0 <==>
            exists a | a in assignments :: assignments[a].campaign == c && assignments[a].acceptedAt.Some?
  {
    if |EverAccepted(assignments, c)| > 0 {
      var a :| a in EverAccepted(assignments, c);
    }
    if a :| a in assignments && assignments[a].campaign == c && assignments[a].acceptedAt.Some? {
      assert a in EverAccepted(assignments, c);
    }
  }

  /** Whoever settles work is accepted exactly under these guards. */
  lemma SettlersAreAccepted(cfg: Config, db: Db, t: Time, now: Time, r: Request, c: Id)
    requires Reachable(cfg, db, t)
    ensures Closes(db, r, c) || SettlesWork(db, r, c) <==>
            Handle(cfg, db, now, r).Ok? && Settling.Settled(db, r) == Some(c)
    ensures Closes(db, r, c) ==> !SettlesWork(db, r, c)
  {
    hide Reachable, Refusals.InModeration;
    hide Profiles.Upsert, Campaigns.Create, Campaigns.Update, Campaigns.UpsertContract, Campaigns.Publish;
    hide Campaigns.Launch, Campaigns.Transition, Workflow.Apply, Workflow.Accept, Workflow.Decline, Workflow.Withdraw;
    hide Workflow.Start, Workflow.RecordSession, Workflow.Submit, Workflow.Examine, Workflow.Escalate;
    hide Moderation.Claim, Moderation.Resolve;
    if r.TransitionCampaign? {
      Refusals.Transitioning(db, now, r.campaign, r.owner, r.action);
      hide Refusals.Full;
    } else if r.Withdraw? {
      Refusals.Withdrawing(cfg, db, t, now, r.assignment, r.tester);
    } else if r.Examine? {
      Refusals.Examining(cfg, db, t, now, r.submission, r.reviewer, r.decision);
    } else if r.Resolve? {
      Refusals.Resolving(cfg, db, t, now, r.dispute, r.moderator, r.ruling);
    }
  }

  lemma OthersCompleteNothing(cfg: Config, db: Db, now: Time, r: Request)
    requires Handle(cfg, db, now, r).Ok? && !Agreement.Settles(r)
    ensures forall c :: c in Handle(cfg, db, now, r).value.campaigns ==>
              Handle(cfg, db, now, r).value.campaigns[c].status != Completed
  {
    hide Profiles.Upsert, Campaigns.Create, Campaigns.Update, Campaigns.UpsertContract, Campaigns.Publish;
    hide Campaigns.Launch, Campaigns.Transition, Workflow.Apply, Workflow.Accept, Workflow.Decline, Workflow.Withdraw;
    hide Workflow.Start, Workflow.RecordSession, Workflow.Submit, Workflow.Examine, Workflow.Escalate;
    hide Moderation.Claim, Moderation.Resolve;
    match r
    case UpsertProfile(user, username, enabled) => SignupCompletesNothing(cfg, db, user, username, enabled);
    case LaunchCampaign(id, owner, p, k) => LaunchCompletesNothing(db, now, id, owner, p, k);
    case Examine(_, _, _) => DecisionsCompleteNothing(db, now, r);
    case Escalate(_, _, _, _) => DecisionsCompleteNothing(db, now, r);
    case Claim(_, _) => DecisionsCompleteNothing(db, now, r);
    case Resolve(_, _, _) => DecisionsCompleteNothing(db, now, r);
    case CreateCampaign(_, _, _) => CampaignsCompleteNothing(db, now, r);
    case UpdateCampaign(_, _, _) => CampaignsCompleteNothing(db, now, r);
    case UpsertContract(_, _, _) => CampaignsCompleteNothing(db, now, r);
    case PublishCampaign(_, _) => CampaignsCompleteNothing(db, now, r);
    case TransitionCampaign(_, _, _) => CampaignsCompleteNothing(db, now, r);
    case _ => TestsCompleteNothing(cfg, db, now, r);
  }

  predicate CompletesNothing(r: Result<Writes>) {
    r.Ok? ==> forall c | c in r.value.campaigns :: r.value.campaigns[c].status != Completed
  }

  lemma SignupCompletesNothing(cfg: Config, db: Db, user: Id, username: string, enabled: bool)
    ensures CompletesNothing(Profiles.Upsert(db, cfg, user, username, enabled))
  {
    hide Commit, Profiles.UsernameTakenBy, Credits.HasKey, Profiles.ClaimedSeats;
  }

  lemma CampaignsCompleteNothing(db: Db, now: Time, r: Request)
    ensures r.CreateCampaign? ==> CompletesNothing(Campaigns.Create(db, r.id, r.owner, r.fields))
    ensures r.UpdateCampaign? ==> CompletesNothing(Campaigns.Update(db, r.campaign, r.owner, r.change))
    ensures r.UpsertContract? ==> CompletesNothing(Campaigns.UpsertContract(db, r.campaign, r.owner, r.terms))
    ensures r.PublishCampaign? ==> CompletesNothing(Campaigns.Publish(db, now, r.campaign, r.owner))
    ensures r.TransitionCampaign? && r.action != Campaigns.Close ==>
              CompletesNothing(Campaigns.Transition(db, now, r.campaign, r.owner, r.action))
  {
    hide Campaigns.SlugInUse, Credits.HasKey, Campaigns.Finished, Occupied;
  }

  lemma LaunchCompletesNothing(db: Db, now: Time, id: Id, owner: Id, p: Campaigns.CampaignPayload,
                               k: Campaigns.ContractPayload)
    ensures CompletesNothing(Campaigns.Launch(db, now, id, owner, p, k))
  {
    hide Commit, Campaigns.Create, Campaigns.UpsertContract, Campaigns.Publish;
    if Campaigns.Launch(db, now, id, owner, p, k).Ok? {
      var created := Campaigns.Create(db, id, owner, p).value;
      CampaignsCompleteNothing(db, now, CreateCampaign(id, owner, p));
      CampaignsCompleteNothing(Commit(db, created), now, UpsertContract(id, owner, k));
      var both := Then(created, Campaigns.UpsertContract(Commit(db, created), id, owner, k).value);
      CampaignsCompleteNothing(Commit(db, both), now, PublishCampaign(id, owner));
    }
  }

  lemma DecisionsCompleteNothing(db: Db, now: Time, r: Request)
    ensures r.Examine? && r.decision != Approve ==>
              CompletesNothing(Workflow.Examine(db, now, r.submission, r.reviewer, r.decision))
    ensures r.Escalate? ==> CompletesNothing(Workflow.Escalate(db, now, r.id, r.assignment, r.user, r.disputed))
    ensures r.Claim? ==> CompletesNothing(Moderation.Claim(db, r.dispute, r.moderator))
    ensures r.Resolve? && r.ruling.remedy != AwardTester ==>
              CompletesNothing(Moderation.Resolve(db, now, r.dispute, r.moderator, r.ruling))
  {
    hide Workflow.Approval, Workflow.HasActiveDispute, Workflow.HasDispute;
  }

  lemma TestsCompleteNothing(cfg: Config, db: Db, now: Time, r: Request)
    requires r.Apply? || r.Accept? || r.Decline? || r.Start? || r.RecordSession? || r.Submit?
    ensures CompletesNothing(Handle(cfg, db, now, r))
  {
    hide Workflow.HasApplied, Occupied, Workflow.CheckItems, Workflow.SessionDays, Workflow.LatestVersion;
    hide Workflow.CoveredTaskIds, Workflow.RequiredTaskIds;
  }

  /** A campaign is completed by exactly two things: by work settled in an open campaign when then as
      many tests are approved as it asked for; and by closing it, or settling work in it once it is
      closed, when then nobody is at work any more and somebody had been accepted. */
  lemma CompletedExactlyWhen(cfg: Config, db: Db, t: Time, now: Time, r: Request, c: Id)
    requires Reachable(cfg, db, t) && c in db.campaigns && db.campaigns[c].status != Completed
    ensures c in Step(cfg, db, now, r).campaigns
    ensures var after := Step(cfg, db, now, r);
            after.campaigns[c].status == Completed <==>
              || (SettlesWork(db, r, c) && (db.campaigns[c].status.Published? || db.campaigns[c].status.Paused?)
                  && TargetIsReached(after.assignments, c, db.campaigns[c].target))
              || ((Closes(db, r, c) || (SettlesWork(db, r, c) && db.campaigns[c].status.Closed?))
                  && WorkIsOver(after.assignments, c))
  {
    hide *;
    SettlersAreAccepted(cfg, db, t, now, r, c);
    StepIs(cfg, db, now, r);
    if Handle(cfg, db, now, r).Ok? {
      var w := Handle(cfg, db, now, r).value;
      CommitTables(db, w);
      if Agreement.Settles(r) {
        Settling.SettlesItsCampaign(cfg, db, now, r);
        SettledCampaign(db, r, w, c);
      } else {
        OthersCompleteNothing(cfg, db, now, r);
        NotSettled(db, r, c);
      }
    }
  }

  lemma NotSettled(db: Db, r: Request, c: Id)
    requires !Agreement.Settles(r)
    ensures Settling.Settled(db, r) != Some(c)
  {
  }

  lemma SettledCampaign(db: Db, r: Request, w: Writes, c: Id)
    requires Settling.Settlement(db, r, w) && c in db.campaigns && db.campaigns[c].status != Completed
    requires Closes(db, r, c) || SettlesWork(db, r, c) <==> Settling.Settled(db, r) == Some(c)
    requires Closes(db, r, c) ==> !SettlesWork(db, r, c)
    ensures c in db.campaigns + w.campaigns
    ensures var left := db.assignments + w.assignments;
            (db.campaigns + w.campaigns)[c].status == Completed <==>
              || (SettlesWork(db, r, c) && (db.campaigns[c].status.Published? || db.campaigns[c].status.Paused?)
                  && TargetIsReached(left, c, db.campaigns[c].target))
              || ((Closes(db, r, c) || (SettlesWork(db, r, c) && db.campaigns[c].status.Closed?)) &&
                  WorkIsOver(left, c))
  {
    hide SettlesWork, Settling.Settled, TargetIsReached, WorkIsOver, Campaigns.Finished;
    var left := db.assignments + w.assignments;
    if Settling.Settled(db, r) == Some(c) {
      FinishedMeans(Settling.Judged(db, r, c), c, left);
      ClosersClose(db, r, c);
    }
  }

  lemma ClosersClose(db: Db, r: Request, c: Id)
    ensures Closes(db, r, c) ==> r.TransitionCampaign?
    ensures SettlesWork(db, r, c) ==> !r.TransitionCampaign?
  {
  }
}
