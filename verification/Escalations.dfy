/** Disputes against reviews, in every reachable database and along every history. */
module Escalations {
  import opened Model
  import opened Results
  import opened Evolution
  import opened Invariants
  import opened Histories
  import opened RowLocks
  import Agreement
  import Lifecycles
  import Moderation
  import Money
  import Preservation
  import Versioning
  import Workflow

  /** Each assignment has at most one dispute. It names the latest submission, which shares the
      status of the assignment: pending or refused while a moderator may still decide, and
      afterwards what the recorded remedy says. */
  lemma DisputesNameTheLatest(cfg: Config, db: Db, t: Time, d: Id)
    requires Reachable(cfg, db, t) && d in db.disputes
    ensures forall e :: e in db.disputes && db.disputes[e].assignment == db.disputes[d].assignment ==> e == d
    ensures var x := db.disputes[d];
            && x.assignment in db.assignments && x.submission.Some? && x.submission.value in db.submissions
            && var s := db.submissions[x.submission.value];
               var status := db.assignments[x.assignment].status;
            && s.assignment == x.assignment && s.version == Workflow.LatestVersion(db.submissions, x.assignment)
            && Mirror(s.status) == status
            && (if x.IsActive() then status == Submitted || status == Rejected
                else x.resolvedBy == x.assignedTo && x.remedy.Some? &&
                     status == (if x.remedy.value == AwardTester then AssignmentStatus.Approved else Rejected))
  {
    hide *;
    Versioning.HistoryHolds(cfg, db, t);
    Named(db.assignments, db.submissions, db.reviews, db.disputes, d);
  }

  lemma Named(assignments: map<Id, Assignment>, submissions: map<Id, Submission>, reviews: map<Id, Review>,
              disputes: map<Id, Dispute>, d: Id)
    requires History(assignments, submissions) && Disputes(assignments, submissions, reviews, disputes) && d in disputes
    ensures forall e :: e in disputes && disputes[e].assignment == disputes[d].assignment ==> e == d
    ensures var x := disputes[d];
            && x.assignment in assignments && x.submission.Some? && x.submission.value in submissions
            && var s := submissions[x.submission.value];
               var status := assignments[x.assignment].status;
            && s.assignment == x.assignment && s.version == Workflow.LatestVersion(submissions, x.assignment)
            && Mirror(s.status) == status
            && (if x.IsActive() then status == Submitted || status == Rejected
                else x.resolvedBy == x.assignedTo && x.remedy.Some? &&
                     status == (if x.remedy.value == AwardTester then AssignmentStatus.Approved else Rejected))
  {
    assert DisputeFits(disputes[d], assignments, submissions, reviews);
    hide Workflow.LatestVersion;
    Versioning.Latest(submissions, disputes[d].assignment, disputes[d].submission.value);
  }

  /** The moderator who claimed a dispute can always rule on it, with one exception: overdue pending
      work must be awarded or dismissed. None of the other refusals can be reached. */
  lemma OnlyIndecisionIsRefused(cfg: Config, db: Db, t: Time, now: Time, d: Id, moderator: Id, r: Moderation.Ruling)
    requires Reachable(cfg, db, t) && d in db.disputes
    requires db.disputes[d].status == UnderReview && db.disputes[d].assignedTo == Some(moderator)
    ensures db.disputes[d].assignment in db.assignments
    ensures Moderation.Resolve(db, now, d, moderator, r).Err? <==>
            db.assignments[db.disputes[d].assignment].status == Submitted && r.outcome == Moderation.Settle &&
              r.remedy == NoRemedy
    ensures Moderation.Resolve(db, now, d, moderator, r).Err? ==>
            Moderation.Resolve(db, now, d, moderator, r) == Err(OverdueNeedsDecision)
  {
    hide *;
    ReachableHolds(cfg, db, t);
    Preservation.Parts(cfg, db, t);
    var x := db.disputes[d];
    Preservation.OpenIsActive(x);
    Preservation.DisputeGround(db.assignments, db.submissions, db.reviews, db.disputes, d);
    Money.SubmittedIsNotApproved();
    var row := db.assignments[x.assignment];
    Agreement.NoRewardYet(cfg, db, t, x.assignment);
    Money.CanPay(cfg, db, t, x.assignment);
    Money.ApprovalPossible(db, now, x.submission.value, db.submissions[x.submission.value], x.assignment, row,
                           db.campaigns[row.campaign]);
    RulingPossible(db, now, d, moderator, r);
  }

  lemma RulingPossible(db: Db, now: Time, d: Id, moderator: Id, r: Moderation.Ruling)
    requires d in db.disputes && db.disputes[d].status == UnderReview && db.disputes[d].assignedTo == Some(moderator)
    requires var x := db.disputes[d];
             && x.assignment in db.assignments && db.assignments[x.assignment].campaign in db.campaigns
             && x.submission.Some? && x.submission.value in db.submissions
             && db.submissions[x.submission.value].assignment == x.assignment
             && var row := db.assignments[x.assignment];
             && (row.status == Submitted || row.status == Rejected)
             && Workflow.Approval(db, now, x.submission.value, db.submissions[x.submission.value], x.assignment, row,
                                  db.campaigns[row.campaign]).Ok?
    ensures Moderation.Resolve(db, now, d, moderator, r).Err? <==>
            db.assignments[db.disputes[d].assignment].status == Submitted && r.outcome == Moderation.Settle &&
              r.remedy == NoRemedy
    ensures Moderation.Resolve(db, now, d, moderator, r).Err? ==>
            Moderation.Resolve(db, now, d, moderator, r) == Err(OverdueNeedsDecision)
  {
    hide Workflow.Approval;
  }

  // ----- along a history --------------------------------------------------------------------

  ghost predicate EscalatedUnreviewed(db: Db, d: Id, s: Id) {
    d in db.disputes && db.disputes[d].submission == Some(s) && s !in db.reviews
  }

  /** Work escalated before its owner decided on it is never decided on by the owner, however the
      transactions interleave. */
  lemma {:induction false} EscalatedIsNeverReviewed(cfg: Config, start: Time, actions: seq<Action>, k: nat, d: Id,
                                                    s: Id)
    requires k <= |actions| && EscalatedUnreviewed(AfterAll(cfg, start, actions[..k]).db, d, s)
    ensures EscalatedUnreviewed(AfterAll(cfg, start, actions).db, d, s)
  {
    if k == |actions| {
      assert actions[..k] == actions;
    } else {
      var before := actions[..|actions| - 1];
      assert before[..k] == actions[..k];
      EscalatedIsNeverReviewed(cfg, start, before, k, d, s);
      EveryInterleavingKeeps(cfg, start, before);
      var now := AfterAll(cfg, start, before);
      assert AfterAll(cfg, start, actions) == Do(cfg, now, actions[|actions| - 1]);
      hide Consistent, Do, AfterAll;
      DoAdvances(cfg, now, actions[|actions| - 1]);
      StaysUnreviewed(now.db, AfterAll(cfg, start, actions).db, d, s);
    }
  }

  lemma StaysUnreviewed(before: Db, after: Db, d: Id, s: Id)
    requires EscalatedUnreviewed(before, d, s) && Lifecycles.Advances(before, after)
    ensures EscalatedUnreviewed(after, d, s)
  {
    hide Lifecycles.AssignmentsFollow, Lifecycles.NewAssignmentsFollow, Lifecycles.CampaignsFollow;
    assert Lifecycles.DisputeFollows(before.disputes[d], after.disputes[d]);
  }

  /** Claimed by `moderator`, and closed by nobody else. */
  ghost predicate InTheHandsOf(db: Db, d: Id, moderator: Id) {
    && d in db.disputes && db.disputes[d].assignedTo == Some(moderator) && db.disputes[d].status != Open
    && (!db.disputes[d].IsActive() ==> db.disputes[d].resolvedBy == Some(moderator))
  }

  /** A claim has one winner: whoever claimed a dispute keeps it, and only they can close it. */
  lemma {:induction false} ClaimsAreKept(cfg: Config, start: Time, actions: seq<Action>, k: nat, d: Id, moderator: Id)
    requires k <= |actions|
    requires var early := AfterAll(cfg, start, actions[..k]).db;
             d in early.disputes && early.disputes[d].status == UnderReview &&
               early.disputes[d].assignedTo == Some(moderator)
    ensures InTheHandsOf(AfterAll(cfg, start, actions).db, d, moderator)
  {
    if k == |actions| {
      assert actions[..k] == actions;
    } else {
      var before := actions[..|actions| - 1];
      assert before[..k] == actions[..k];
      ClaimsAreKept(cfg, start, before, k, d, moderator);
      EveryInterleavingKeeps(cfg, start, before);
      var now := AfterAll(cfg, start, before);
      assert AfterAll(cfg, start, actions) == Do(cfg, now, actions[|actions| - 1]);
      hide Consistent, Do, AfterAll;
      DoAdvances(cfg, now, actions[|actions| - 1]);
      StaysInHands(now.db, AfterAll(cfg, start, actions).db, d, moderator);
    }
  }

  lemma StaysInHands(before: Db, after: Db, d: Id, moderator: Id)
    requires InTheHandsOf(before, d, moderator) && Lifecycles.Advances(before, after)
    ensures InTheHandsOf(after, d, moderator)
  {
    hide Lifecycles.AssignmentsFollow, Lifecycles.NewAssignmentsFollow, Lifecycles.CampaignsFollow;
    assert Lifecycles.DisputeFollows(before.disputes[d], after.disputes[d]);
  }
}
