/** Every request that succeeds keeps the invariant. */
module Preservation {
  import opened Model
  import opened Results
  import opened Invariants
  import opened Effects
  import Campaigns
  import Credits
  import Moderation
  import Profiles
  import Success
  import Workflow

  type Config = Profiles.Config

  /** The groups that do not look at time. */
  ghost predicate Timeless(cfg: Config, db: Db) {
    && Drafted(db.profiles, db.campaigns, db.contracts)
    && Assigned(db.profiles, db.campaigns, db.assignments)
    && History(db.assignments, db.submissions)
    && Reviewed(db.submissions, db.reviews)
    && Disputes(db.assignments, db.submissions, db.reviews, db.disputes)
    && Ledgered(cfg.signupGrant, db.profiles, db.campaigns, db.assignments, db.ledger)
    && Balanced(db.profiles, db.accounts, db.ledger)
    && Booked(db.campaigns, db.assignments, db.ledger)
    && Capacity(db.campaigns, db.assignments, db.submissions, db.reviews)
    && Progress(db.campaigns, db.assignments)
    && Evidenced(db.contracts, db.assignments, db.submissions)
    && Seated(cfg, db.profiles, db.seats)
  }

  // ----- requests that move assignments -----------------------------------------------------

  /** Moving assignments keeps whatever does not count places, progress or days. */
  lemma MovesKeep(cfg: Config, db: Db, after: map<Id, Assignment>)
    requires Assigned(db.profiles, db.campaigns, db.assignments) && History(db.assignments, db.submissions)
    requires Disputes(db.assignments, db.submissions, db.reviews, db.disputes)
    requires Ledgered(cfg.signupGrant, db.profiles, db.campaigns, db.assignments, db.ledger)
    requires Booked(db.campaigns, db.assignments, db.ledger) && Evidenced(db.contracts, db.assignments, db.submissions)
    requires Moves(db.assignments, after)
    ensures Assigned(db.profiles, db.campaigns, after)
    ensures History(after, db.submissions)
    ensures Disputes(after, db.submissions, db.reviews, db.disputes)
    ensures Ledgered(cfg.signupGrant, db.profiles, db.campaigns, after, db.ledger)
    ensures Booked(db.campaigns, after, db.ledger)
    ensures Evidenced(db.contracts, after, db.submissions)
  {
    MovesAreCalm(db.assignments, after);
    hide *;
    MovesKeepAssigned(db.profiles, db.campaigns, db.assignments, after);
    MovesKeepHistory(db.assignments, after, db.submissions);
    MovesKeepDisputes(db.assignments, after, db.submissions, db.reviews, db.disputes);
    LedgerStays(cfg.signupGrant, db.profiles, db.campaigns, db.assignments, after, db.ledger);
    BooksStay(db.campaigns, db.assignments, after, db.ledger);
    EvidenceStays(db.contracts, db.assignments, after, db.submissions);
  }

  lemma MovesAreCalm(before: map<Id, Assignment>, after: map<Id, Assignment>)
    requires Moves(before, after)
    ensures Extends(before, after) && SameApproved(before, after)
  {
  }

  /** The three forms a move takes. */
  lemma OneMove(profiles: map<Id, string>, campaigns: map<Id, Campaign>, assignments: map<Id, Assignment>, a: Id,
                x: Assignment, now: Time)
    requires Assigned(profiles, campaigns, assignments) && a in assignments
    requires var row := assignments[a];
             (row.status.Applied? && x == row.(status := Accepted, acceptedAt := Some(now)))
             || (row.status.Accepted? && x == row.(status := InProgress, startedAt := Some(now)))
             || ((row.status.Applied? || row.status.Accepted? || row.status.InProgress? || row.status.ChangesRequested?)
                 && x == row.(status := Cancelled, completedAt := Some(now)))
    ensures Moves(assignments, assignments + map[a := x])
    ensures Extends(assignments, assignments + map[a := x])
  {
    assert AssignmentFits(assignments[a], profiles, campaigns);
    MovesAreCalm(assignments, assignments + map[a := x]);
  }

  lemma AcceptKeeps(cfg: Config, db: Db, t: Time, now: Time, a: Id, owner: Id)
    requires Inv(cfg, db, t) && Workflow.Accept(db, now, a, owner).Ok?
    ensures Inv(cfg, Commit(db, Workflow.Accept(db, now, a, owner).value), t)
  {
    hide *;
    Parts(cfg, db, t);
    Success.Accept(db, now, a, owner);
    var x := db.assignments[a].(status := Accepted, acceptedAt := Some(now));
    OneMove(db.profiles, db.campaigns, db.assignments, a, x, now);
    MovesKeep(cfg, db, db.assignments + map[a := x]);
    AcceptKeepsCapacity(db.campaigns, db.assignments, db.submissions, db.reviews, a, x);
    ProgressStays(db.campaigns, db.assignments, a, x);
    ClockStays(db.contracts, db.assignments, db.assignments + map[a := x], db.sessions, db.submissions, t);
    Whole(cfg, Commit(db, Workflow.Accept(db, now, a, owner).value), t);
  }

  lemma AcceptKeepsCapacity(campaigns: map<Id, Campaign>, assignments: map<Id, Assignment>,
                            submissions: map<Id, Submission>,
                            reviews: map<Id, Review>, a: Id, x: Assignment)
    requires Capacity(campaigns, assignments, submissions, reviews)
    requires a in assignments && assignments[a].status.Applied? && x.status.Accepted?
    requires x.campaign == assignments[a].campaign && x.campaign in campaigns
    requires Occupied(assignments, x.campaign) < campaigns[x.campaign].target
    ensures Capacity(campaigns, assignments + map[a := x], submissions, reviews)
  {
    forall c
      ensures Occupied(assignments + map[a := x], c) <= Occupied(assignments, c) + if c == x.campaign then 1 else 0
    {
      WithStatusUpdate(assignments, a, x, c, OCCUPIED);
    }
    CapacityStays(campaigns, assignments, assignments + map[a := x], submissions, submissions, reviews, reviews);
  }

  lemma CalmKeepsCapacity(campaigns: map<Id, Campaign>, before: map<Id, Assignment>, after: map<Id, Assignment>,
                          submissions: map<Id, Submission>, reviews: map<Id, Review>)
    requires Capacity(campaigns, before, submissions, reviews) && Moves(before, after)
    requires forall a :: a in before && after[a].status.Accepted? ==> before[a].status.Accepted?
    ensures Capacity(campaigns, after, submissions, reviews)
  {
    forall c
      ensures Occupied(after, c) <= Occupied(before, c)
    {
      MovesFreePlaces(before, after, c);
    }
    CapacityStays(campaigns, before, after, submissions, submissions, reviews, reviews);
  }

  lemma DeclineKeeps(cfg: Config, db: Db, t: Time, now: Time, a: Id, owner: Id)
    requires Inv(cfg, db, t) && Workflow.Decline(db, now, a, owner).Ok?
    ensures Inv(cfg, Commit(db, Workflow.Decline(db, now, a, owner).value), t)
  {
    hide *;
    Parts(cfg, db, t);
    Success.Decline(db, now, a, owner);
    var x := db.assignments[a].(status := Cancelled, completedAt := Some(now));
    OneMove(db.profiles, db.campaigns, db.assignments, a, x, now);
    MovesKeep(cfg, db, db.assignments + map[a := x]);
    CalmKeepsCapacity(db.campaigns, db.assignments, db.assignments + map[a := x], db.submissions, db.reviews);
    NoneAppliedWhenClosed(db.campaigns, db.assignments, a);
    ProgressStays(db.campaigns, db.assignments, a, x);
    ClockStays(db.contracts, db.assignments, db.assignments + map[a := x], db.sessions, db.submissions, t);
    Whole(cfg, Commit(db, Workflow.Decline(db, now, a, owner).value), t);
  }

  lemma NoneAppliedWhenClosed(campaigns: map<Id, Campaign>, assignments: map<Id, Assignment>, a: Id)
    requires Progress(campaigns, assignments)
    requires a in assignments && assignments[a].status.Applied? && assignments[a].campaign in campaigns
    ensures campaigns[assignments[a].campaign].status != Closed
  {
    var c := assignments[a].campaign;
    assert ProgressFits(campaigns[c], c, assignments);
    assert a in WithStatus(assignments, c, {Applied});
  }

  /** Changing the status of a published campaign keeps all but the progress itself. */
  lemma RestatusKeeps(cfg: Config, db: Db, after: map<Id, Campaign>)
    requires Drafted(db.profiles, db.campaigns, db.contracts) && Assigned(db.profiles, db.campaigns, db.assignments)
    requires Ledgered(cfg.signupGrant, db.profiles, db.campaigns, db.assignments, db.ledger)
    requires Booked(db.campaigns, db.assignments, db.ledger)
    requires Capacity(db.campaigns, db.assignments, db.submissions, db.reviews)
    requires Restatus(db.campaigns, after)
    ensures Drafted(db.profiles, after, db.contracts) && Assigned(db.profiles, after, db.assignments)
    ensures Ledgered(cfg.signupGrant, db.profiles, after, db.assignments, db.ledger)
    ensures Booked(after, db.assignments, db.ledger)
    ensures Capacity(after, db.assignments, db.submissions, db.reviews)
  {
    hide *;
    RestatusKeepsDrafted(db.profiles, db.campaigns, after, db.contracts);
    RestatusKeepsAssigned(db.profiles, db.campaigns, after, db.assignments);
    RestatusKeepsLedgered(cfg.signupGrant, db.profiles, db.campaigns, after, db.assignments, db.ledger);
    RestatusKeepsBooked(db.campaigns, after, db.assignments, db.ledger);
    RestatusKeepsCapacity(db.campaigns, after, db.assignments, db.submissions, db.reviews);
  }

  lemma WithdrawKeeps(cfg: Config, db: Db, t: Time, now: Time, a: Id, tester: Id)
    requires Inv(cfg, db, t) && Workflow.Withdraw(db, now, a, tester).Ok?
    ensures Inv(cfg, Commit(db, Workflow.Withdraw(db, now, a, tester).value), t)
  {
    hide *;
    Parts(cfg, db, t);
    Success.Withdraw(db, now, a, tester);
    var x := db.assignments[a].(status := Cancelled, completedAt := Some(now));
    var left := db.assignments + map[a := x];
    OneMove(db.profiles, db.campaigns, db.assignments, a, x, now);
    MovesKeep(cfg, db, left);
    CalmKeepsCapacity(db.campaigns, db.assignments, left, db.submissions, db.reviews);
    ClockStays(db.contracts, db.assignments, left, db.sessions, db.submissions, t);
    SettleRestatus(db.campaigns, x.campaign, left);
    RestatusKeeps(cfg, db.(assignments := left),
                  db.campaigns + map[x.campaign :=
                                     Campaigns.MaybeComplete(db.campaigns[x.campaign], x.campaign, left)]);
    ProgressSettled(db.campaigns, db.assignments, a, x);
    Whole(cfg, Commit(db, Workflow.Withdraw(db, now, a, tester).value), t);
  }

  lemma StartKeeps(cfg: Config, db: Db, t: Time, now: Time, a: Id, tester: Id)
    requires Inv(cfg, db, t) && now <= t && Workflow.Start(db, now, a, tester).Ok?
    ensures Inv(cfg, Commit(db, Workflow.Start(db, now, a, tester).value), t)
  {
    hide *;
    Parts(cfg, db, t);
    Success.Start(db, now, a, tester);
    var x := db.assignments[a].(status := InProgress, startedAt := Some(now));
    OneMove(db.profiles, db.campaigns, db.assignments, a, x, now);
    MovesKeep(cfg, db, db.assignments + map[a := x]);
    CalmKeepsCapacity(db.campaigns, db.assignments, db.assignments + map[a := x], db.submissions, db.reviews);
    RowFits(db.profiles, db.campaigns, db.assignments, a);
    StillWorking(x.status);
    ProgressStays(db.campaigns, db.assignments, a, x);
    HistoryFits(db.assignments, db.submissions);
    StartKeepsClock(db.contracts, db.assignments, db.sessions, db.submissions, t, a, x, now);
    Whole(cfg, Commit(db, Workflow.Start(db, now, a, tester).value), t);
  }

  /** What an assignment row says about itself. */
  lemma RowFits(profiles: map<Id, string>, campaigns: map<Id, Campaign>, assignments: map<Id, Assignment>, a: Id)
    requires Assigned(profiles, campaigns, assignments) && a in assignments
    ensures assignments[a].campaign in campaigns && campaigns[assignments[a].campaign].status != Draft
    ensures assignments[a].tester in profiles && assignments[a].tester != campaigns[assignments[a].campaign].owner
    ensures assignments[a].status.Applied? || assignments[a].status.Accepted? ==> assignments[a].startedAt.None?
    ensures assignments[a].status.InProgress? || Late(assignments[a].status) ==> assignments[a].startedAt.Some?
    ensures Stamped(assignments[a])
  {
    assert AssignmentFits(assignments[a], profiles, campaigns);
  }

  lemma HistoryFits(assignments: map<Id, Assignment>, submissions: map<Id, Submission>)
    requires History(assignments, submissions)
    ensures SubmissionsFit(assignments, submissions) && VersionsOrdered(submissions)
  {
  }

  lemma CloseKeeps(cfg: Config, db: Db, t: Time, now: Time, c: Id, owner: Id)
    requires Inv(cfg, db, t) && Campaigns.Transition(db, now, c, owner, Campaigns.Close).Ok?
    ensures Inv(cfg, Commit(db, Campaigns.Transition(db, now, c, owner, Campaigns.Close).value), t)
  {
    hide *;
    Parts(cfg, db, t);
    Success.Transition(db, now, c, owner, Campaigns.Close);
    var left := db.assignments + Campaigns.Declined(db.assignments, c, now);
    DeclinedMoves(db.profiles, db.campaigns, db.assignments, c, now);
    MovesKeep(cfg, db, left);
    CalmKeepsCapacity(db.campaigns, db.assignments, left, db.submissions, db.reviews);
    ClockStays(db.contracts, db.assignments, left, db.sessions, db.submissions, t);
    CloseRestatus(db.campaigns, c, left);
    RestatusKeeps(cfg, db.(assignments := left),
                  db.campaigns + map[c := Campaigns.MaybeComplete(db.campaigns[c].(status := Closed), c, left)]);
    CloseKeepsProgress(db.campaigns, db.assignments, c, now);
    Whole(cfg, Commit(db, Campaigns.Transition(db, now, c, owner, Campaigns.Close).value), t);
  }

  lemma DeclinedMoves(profiles: map<Id, string>, campaigns: map<Id, Campaign>, assignments: map<Id, Assignment>, c: Id,
                      now: Time)
    requires Assigned(profiles, campaigns, assignments)
    ensures var left := assignments + Campaigns.Declined(assignments, c, now);
            && Moves(assignments, left) && Extends(assignments, left)
            && (forall a :: a in assignments ==>
                  left[a].startedAt == assignments[a].startedAt && left[a].submittedAt == assignments[a].submittedAt)
            && (forall a :: a in left ==> a in assignments)
            && (forall a :: a in assignments && left[a].status.Accepted? ==> assignments[a].status.Accepted?)
  {
    forall a | a in assignments
      ensures Stamped(assignments[a])
    {
      assert AssignmentFits(assignments[a], profiles, campaigns);
    }
  }

  lemma CloseRestatus(campaigns: map<Id, Campaign>, c: Id, assignments: map<Id, Assignment>)
    requires c in campaigns && (campaigns[c].status == Published || campaigns[c].status == Paused)
    ensures Restatus(campaigns,
                     campaigns + map[c := Campaigns.MaybeComplete(campaigns[c].(status := Closed), c, assignments)])
  {
  }

  lemma CloseKeepsProgress(campaigns: map<Id, Campaign>, assignments: map<Id, Assignment>, c: Id, now: Time)
    requires Progress(campaigns, assignments) && c in campaigns
    ensures var left := assignments + Campaigns.Declined(assignments, c, now);
            Progress(campaigns + map[c := Campaigns.MaybeComplete(campaigns[c].(status := Closed), c, left)], left)
  {
    var left := assignments + Campaigns.Declined(assignments, c, now);
    forall d | d in campaigns && d != c
      ensures ProgressFits(campaigns[d], d, left)
    {
      assert ProgressFits(campaigns[d], d, assignments);
      DeclinedElsewhere(assignments, c, now, d);
    }
    assert WithStatus(left, c, {Applied}) == {};
    assert WithStatus(left, c, ACTIVE) <= WithStatus(left, c, ACTIVE + {Rejected});
  }

  lemma DeclinedElsewhere(assignments: map<Id, Assignment>, c: Id, now: Time, d: Id)
    requires d != c
    ensures var left := assignments + Campaigns.Declined(assignments, c, now);
            && (forall statuses :: WithStatus(left, d, statuses) == WithStatus(assignments, d, statuses))
            && EverAccepted(left, d) == EverAccepted(assignments, d)
  {
  }

  lemma PauseKeeps(cfg: Config, db: Db, t: Time, now: Time, c: Id, owner: Id, action: Campaigns.Action)
    requires Inv(cfg, db, t) && action != Campaigns.Close && Campaigns.Transition(db, now, c, owner, action).Ok?
    ensures Inv(cfg, Commit(db, Campaigns.Transition(db, now, c, owner, action).value), t)
  {
    hide *;
    Parts(cfg, db, t);
    Success.Transition(db, now, c, owner, action);
    var status := if action == Campaigns.Pause then Paused else Published;
    PauseRestatus(db.campaigns, db.assignments, c, status);
    RestatusKeeps(cfg, db, db.campaigns + map[c := db.campaigns[c].(status := status)]);
    Whole(cfg, Commit(db, Campaigns.Transition(db, now, c, owner, action).value), t);
  }

  lemma PauseRestatus(campaigns: map<Id, Campaign>, assignments: map<Id, Assignment>, c: Id, status: CampaignStatus)
    requires Progress(campaigns, assignments) && c in campaigns
    requires campaigns[c].status == Published || campaigns[c].status == Paused
    requires status == Published || status == Paused
    ensures Restatus(campaigns, campaigns + map[c := campaigns[c].(status := status)])
    ensures Progress(campaigns + map[c := campaigns[c].(status := status)], assignments)
  {
    var after := campaigns + map[c := campaigns[c].(status := status)];
    forall d | d in after
      ensures ProgressFits(after[d], d, assignments)
    {
      assert ProgressFits(campaigns[d], d, assignments);
    }
  }

  // ----- applying, testing, submitting ------------------------------------------------------

  lemma ApplyKeeps(cfg: Config, db: Db, t: Time, id: Id, c: Id, tester: Id)
    requires Inv(cfg, db, t) && Workflow.Apply(db, id, c, tester).Ok?
    ensures Inv(cfg, Commit(db, Workflow.Apply(db, id, c, tester).value), t)
  {
    hide *;
    Parts(cfg, db, t);
    Success.Apply(db, id, c, tester);
    var x := Assignment(c, tester, Applied, None, None, None, None);
    var after := db.assignments + map[id := x];
    ApplicationFits(db.profiles, db.campaigns, db.assignments, id, x);
    ApplyKeepsAssigned(db.profiles, db.campaigns, db.assignments, id, x);
    ApplyKeepsHistory(db.assignments, db.submissions, id, x);
    DisputesStay(db.assignments, after, db.submissions, db.submissions, db.reviews, db.disputes);
    LedgerStays(cfg.signupGrant, db.profiles, db.campaigns, db.assignments, after, db.ledger);
    BooksStay(db.campaigns, db.assignments, after, db.ledger);
    CapacityStays(db.campaigns, db.assignments, after, db.submissions, db.submissions, db.reviews, db.reviews);
    ProgressStays(db.campaigns, db.assignments, id, x);
    EvidenceStays(db.contracts, db.assignments, after, db.submissions);
    ClockStays(db.contracts, db.assignments, after, db.sessions, db.submissions, t);
    Whole(cfg, Commit(db, Workflow.Apply(db, id, c, tester).value), t);
  }

  lemma ApplicationFits(profiles: map<Id, string>, campaigns: map<Id, Campaign>, assignments: map<Id, Assignment>,
                        id: Id, x: Assignment)
    requires x == Assignment(x.campaign, x.tester, Applied, None, None, None, None) && id !in assignments
    requires x.tester in profiles && x.campaign in campaigns
    requires campaigns[x.campaign].status == Published && campaigns[x.campaign].owner != x.tester
    ensures AssignmentFits(x, profiles, campaigns)
    ensures Extends(assignments, assignments + map[id := x]) && SameApproved(assignments, assignments + map[id := x])
    ensures forall c :: Occupied(assignments + map[id := x], c) == Occupied(assignments, c)
  {
    forall c
      ensures Occupied(assignments + map[id := x], c) == Occupied(assignments, c)
    {
      WithStatusUpdate(assignments, id, x, c, OCCUPIED);
      assert WithStatus(assignments + map[id := x], c, OCCUPIED) == WithStatus(assignments, c, OCCUPIED);
    }
  }

  lemma RecordSessionKeeps(cfg: Config, db: Db, t: Time, now: Time, a: Id, tester: Id)
    requires Inv(cfg, db, t) && now <= t && Workflow.RecordSession(db, now, a, tester).Ok?
    requires AssignmentClock(db.assignments[a], a, db.sessions, now)
    ensures Inv(cfg, Commit(db, Workflow.RecordSession(db, now, a, tester).value), t)
  {
    StartedBy(db, a, now);
    hide *;
    Parts(cfg, db, t);
    Success.RecordSession(db, now, a, tester);
    RowFits(db.profiles, db.campaigns, db.assignments, a);
    SessionKeepsClock(db.contracts, db.assignments, db.sessions, db.submissions, t, a, now);
    Whole(cfg, Commit(db, Workflow.RecordSession(db, now, a, tester).value), t);
  }

  lemma StartedBy(db: Db, a: Id, now: Time)
    requires a in db.assignments && AssignmentClock(db.assignments[a], a, db.sessions, now)
    ensures db.assignments[a].startedAt.Some? ==> db.assignments[a].startedAt.value <= now
  {
  }

  lemma SubmitKeeps(cfg: Config, db: Db, t: Time, now: Time, id: Id, a: Id, tester: Id, e: Workflow.EvidencePayload)
    requires Inv(cfg, db, t) && now <= t && Workflow.Submit(db, now, id, a, tester, e).Ok?
    requires AssignmentClock(db.assignments[a], a, db.sessions, now)
    ensures Inv(cfg, Commit(db, Workflow.Submit(db, now, id, a, tester, e).value), t)
  {
    hide *;
    Parts(cfg, db, t);
    Success.Submit(db, now, id, a, tester, e);
    var x := db.assignments[a].(status := Submitted, submittedAt := Some(now));
    var y := Submission(a, Workflow.LatestVersion(db.submissions, a) + 1, e.specificSummary, e.items, Pending, now);
    var after, more := db.assignments + map[a := x], db.submissions + map[id := y];
    SubmitShape(db.assignments, a, x);
    RowFits(db.profiles, db.campaigns, db.assignments, a);
    SubmitKeepsAssigned(db.profiles, db.campaigns, db.assignments, a, x);
    SubmitKeepsHistory(db.assignments, db.submissions, a, x, id, y);
    SubmitKeepsReviewed(db.submissions, db.reviews, id, y);
    DisputesStay(db.assignments, after, db.submissions, more, db.reviews, db.disputes);
    LedgerStays(cfg.signupGrant, db.profiles, db.campaigns, db.assignments, after, db.ledger);
    BooksStay(db.campaigns, db.assignments, after, db.ledger);
    CapacityStays(db.campaigns, db.assignments, after, db.submissions, more, db.reviews, db.reviews);
    StillWorking(x.status);
    ProgressStays(db.campaigns, db.assignments, a, x);
    EvidenceStays(db.contracts, db.assignments, after, db.submissions);
    CheckedItemsFit(a, e.items);
    NewEvidenceFits(db.contracts, after, db.submissions, id, y);
    SubmitKeepsClock(db.contracts, db.assignments, db.sessions, db.submissions, t, a, x, id, y, now);
    Whole(cfg, Commit(db, Workflow.Submit(db, now, id, a, tester, e).value), t);
  }

  lemma SubmitShape(assignments: map<Id, Assignment>, a: Id, x: Assignment)
    requires a in assignments && (assignments[a].status.InProgress? || assignments[a].status.ChangesRequested?)
    requires x == assignments[a].(status := Submitted, submittedAt := x.submittedAt)
    ensures InProgressOrBack(assignments[a].status)
    ensures Extends(assignments, assignments + map[a := x]) && SameApproved(assignments, assignments + map[a := x])
    ensures forall c :: Occupied(assignments + map[a := x], c) == Occupied(assignments, c)
  {
    forall c
      ensures Occupied(assignments + map[a := x], c) == Occupied(assignments, c)
    {
      WithStatusUpdate(assignments, a, x, c, OCCUPIED);
      assert WithStatus(assignments + map[a := x], c, OCCUPIED) == WithStatus(assignments, c, OCCUPIED);
    }
  }

  lemma NewEvidenceFits(contracts: map<Id, Contract>, assignments: map<Id, Assignment>,
                        submissions: map<Id, Submission>, id: Id, y: Submission)
    requires Evidenced(contracts, assignments, submissions)
    requires y.assignment in assignments && assignments[y.assignment].campaign in contracts
    requires var tasks := contracts[assignments[y.assignment].campaign].tasks;
             Workflow.RequiredTaskIds(tasks) <= Workflow.CoveredTaskIds(y.items) <= Workflow.TaskIds(tasks)
    requires forall k :: 0 <= k < |y.items| ==> ItemFits(y.items[k], y.assignment)
    ensures Evidenced(contracts, assignments, submissions + map[id := y])
  {
    assert EvidenceFits(y, assignments, contracts);
  }

  lemma StillWorking(s: AssignmentStatus)
    ensures s.Accepted? || s.InProgress? || s.Submitted? || s.ChangesRequested? || s.Rejected? ==>
              s in ACTIVE + {Rejected}
  {
  }

  // ----- decisions --------------------------------------------------------------------------

  /** The rows a decision writes, besides its own record: they keep what only looks at them. */
  lemma VerdictKeeps(cfg: Config, db: Db, t: Time, a: Id, x: Assignment, s: Id, y: Submission)
    requires Inv(cfg, db, t) && Decides(db.assignments, db.submissions, a, x, s, y)
    ensures var a2, s2 := db.assignments + map[a := x], db.submissions + map[s := y];
            && Assigned(db.profiles, db.campaigns, a2)
            && History(a2, s2)
            && Clocked(db.contracts, a2, db.sessions, s2, t)
            && Evidenced(db.contracts, a2, s2)
            && Extends(db.assignments, a2)
  {
    hide *;
    Parts(cfg, db, t);
    VerdictShape(db.assignments, db.submissions, a, x, s, y);
    var a2 := db.assignments + map[a := x];
    VerdictKeepsAssigned(db.profiles, db.campaigns, db.assignments, a, x);
    VerdictKeepsHistory(db.assignments, db.submissions, a, x, s, y);
    EvidenceStays(db.contracts, db.assignments, a2, db.submissions);
    ClockStays(db.contracts, db.assignments, a2, db.sessions, db.submissions, t);
    JudgedStays(db.contracts, a2, db.sessions, db.submissions, t, s, y);
  }

  lemma VerdictShape(assignments: map<Id, Assignment>, submissions: map<Id, Submission>, a: Id, x: Assignment, s: Id,
                     y: Submission)
    requires Decides(assignments, submissions, a, x, s, y)
    ensures a in assignments && s in submissions && IsVerdict(assignments[a], x)
    ensures x == assignments[a].(status := x.status, completedAt := x.completedAt)
    ensures y == submissions[s].(status := y.status)
    ensures Extends(assignments, assignments + map[a := x])
    ensures !x.status.Approved? && !assignments[a].status.Approved? ==>
              SameApproved(assignments, assignments + map[a := x])
  {
  }

  /** What an approval keeps: everything but the reviews, the disputes and the places. */
  lemma ApprovalKeeps(cfg: Config, db: Db, t: Time, now: Time, id: Id, a: Id)
    requires Inv(cfg, db, t)
    requires a in db.assignments && id in db.submissions && db.submissions[id].assignment == a
    requires db.assignments[a].status == Mirror(db.submissions[id].status)
    requires db.assignments[a].status.Submitted? || db.assignments[a].status.Rejected?
    ensures !Credits.HasKey(db.ledger, RewardKey(a))
    ensures db.assignments[a].campaign in db.campaigns
    ensures Decides(db.assignments, db.submissions, a, db.assignments[a].(status := Approved, completedAt := Some(now)),
                    id, db.submissions[id].(status := Passed))
    ensures var row := db.assignments[a];
            var after := Success.AfterApproval(db, now, id, db.submissions[id], a, row, db.campaigns[row.campaign]);
            && Drafted(after.profiles, after.campaigns, after.contracts)
            && Assigned(after.profiles, after.campaigns, after.assignments)
            && History(after.assignments, after.submissions)
            && Ledgered(cfg.signupGrant, after.profiles, after.campaigns, after.assignments, after.ledger)
            && Balanced(after.profiles, after.accounts, after.ledger)
            && Booked(after.campaigns, after.assignments, after.ledger)
            && Progress(after.campaigns, after.assignments)
            && Evidenced(after.contracts, after.assignments, after.submissions)
            && Clocked(after.contracts, after.assignments, after.sessions, after.submissions, t)
            && Restatus(db.campaigns, after.campaigns)
  {
    hide *;
    var row := db.assignments[a];
    var x, y := row.(status := Approved, completedAt := Some(now)), db.submissions[id].(status := Passed);
    Parts(cfg, db, t);
    RowFits(db.profiles, db.campaigns, db.assignments, a);
    ApprovalDecides(db.assignments, db.submissions, a, x, id, y, now);
    VerdictKeeps(cfg, db, t, a, x, id, y);
    var paid := db.assignments + map[a := x];
    var c := db.campaigns[row.campaign];
    var settled := db.campaigns + map[row.campaign := Campaigns.MaybeComplete(c, row.campaign, paid)];
    ApproveKeepsLedgered(cfg.signupGrant, db.profiles, db.campaigns, db.assignments, db.ledger, a, x);
    ApproveKeepsBooked(db.campaigns, db.assignments, db.ledger, a, x);
    PayKeepsBalanced(db.profiles, db.campaigns, db.contracts, db.accounts, db.ledger, a, row.tester, row.campaign);
    var more := db.ledger + [Credits.RewardEntry(a, row.tester, c.reward)];
    SettleRestatus(db.campaigns, row.campaign, paid);
    RestatusKeepsDrafted(db.profiles, db.campaigns, settled, db.contracts);
    RestatusKeepsAssigned(db.profiles, db.campaigns, settled, paid);
    RestatusKeepsLedgered(cfg.signupGrant, db.profiles, db.campaigns, settled, paid, more);
    RestatusKeepsBooked(db.campaigns, settled, paid, more);
    ProgressSettled(db.campaigns, db.assignments, a, x);
    ApprovedDb(db, now, id, db.submissions[id], a, row, c);
  }

  lemma ApprovedDb(db: Db, now: Time, id: Id, s: Submission, a: Id, row: Assignment, c: Campaign)
    ensures var paid := db.assignments + map[a := row.(status := Approved, completedAt := Some(now))];
            Success.AfterApproval(db, now, id, s, a, row, c) ==
            db.(submissions := db.submissions + map[id := s.(status := Passed)],
                assignments := paid,
                campaigns := db.campaigns + map[row.campaign := Campaigns.MaybeComplete(c, row.campaign, paid)],
                accounts := db.accounts + map[row.tester := Credits.AccountBalance(db.accounts, row.tester) + c.reward],
                ledger := db.ledger + [Credits.RewardEntry(a, row.tester, c.reward)])
  {
  }

  lemma ApprovalDecides(assignments: map<Id, Assignment>, submissions: map<Id, Submission>, a: Id, x: Assignment,
                        s: Id, y: Submission, now: Time)
    requires a in assignments && Stamped(assignments[a])
    requires s in submissions && submissions[s].assignment == a
    requires assignments[a].status == Mirror(submissions[s].status)
    requires assignments[a].status.Submitted? || assignments[a].status.Rejected?
    requires x == assignments[a].(status := Approved, completedAt := Some(now))
    requires y == submissions[s].(status := Passed)
    ensures Decides(assignments, submissions, a, x, s, y) && IsVerdict(assignments[a], x)
  {
  }

  lemma PayKeepsBalanced(profiles: map<Id, string>, campaigns: map<Id, Campaign>, contracts: map<Id, Contract>,
                         accounts: map<Id, int>, ledger: seq<Entry>, a: Id, tester: Id, c: Id)
    requires Balanced(profiles, accounts, ledger) && Drafted(profiles, campaigns, contracts)
    requires tester in profiles && c in campaigns
    ensures Balanced(profiles, accounts + map[tester := Credits.AccountBalance(accounts, tester) + campaigns[c].reward],
                     ledger + [Credits.RewardEntry(a, tester, campaigns[c].reward)])
  {
    assert CampaignFits(campaigns[c], c, profiles, contracts);
    assert ledger[..|ledger|] == ledger;
    assert Credits.Balance(ledger[..|ledger|], tester) >= 0;
    AppendKeepsBalanced(profiles, accounts, ledger, Credits.RewardEntry(a, tester, campaigns[c].reward));
  }

  /** A review finds an undisputed pending submission. */
  lemma ExamineGround(cfg: Config, db: Db, t: Time, id: Id)
    requires Inv(cfg, db, t) && Success.Examinable(db, id)
    ensures id in db.submissions && id !in db.reviews && db.submissions[id].status == Pending
    ensures db.submissions[id].assignment in db.assignments
    ensures db.assignments[db.submissions[id].assignment].status == Submitted
    ensures db.assignments[db.submissions[id].assignment].campaign in db.campaigns
    ensures Stamped(db.assignments[db.submissions[id].assignment])
    ensures !Workflow.HasDispute(db.disputes, db.submissions[id].assignment)
  {
    var a := db.submissions[id].assignment;
    NoDisputeYet(db.assignments, db.submissions, db.reviews, db.disputes, a);
    RowFits(db.profiles, db.campaigns, db.assignments, a);
  }

  lemma ApproveKeeps(cfg: Config, db: Db, t: Time, now: Time, id: Id, reviewer: Id)
    requires Inv(cfg, db, t) && Workflow.Examine(db, now, id, reviewer, Approve).Ok?
    ensures Inv(cfg, Commit(db, Workflow.Examine(db, now, id, reviewer, Approve).value), t)
  {
    hide *;
    Parts(cfg, db, t);
    Success.Examine(db, now, id, reviewer, Approve);
    ExamineGround(cfg, db, t, id);
    var s := db.submissions[id];
    var row := db.assignments[s.assignment];
    var x, y := row.(status := Approved, completedAt := Some(now)), s.(status := Passed);
    PendingMirrors();
    ApprovalKeeps(cfg, db, t, now, id, s.assignment);
    ApprovedDb(db, now, id, s, s.assignment, row, db.campaigns[row.campaign]);
    VerdictShape(db.assignments, db.submissions, s.assignment, x, id, y);
    var r := Review(reviewer, Approve);
    DecisionFits();
    ExamineKeepsReviewed(db.submissions, db.reviews, id, y, r);
    ExamineKeepsDisputes(db.assignments, db.submissions, db.reviews, db.disputes, s.assignment, x, id, y, r);
    VerdictKeepsCapacity(db.campaigns, db.assignments, db.submissions, db.reviews, s.assignment, x, id, y,
                         db.reviews + map[id := r]);
    RestatusKeepsCapacity(db.campaigns,
                          Success.AfterApproval(db, now, id, s, s.assignment, row,
                                                db.campaigns[row.campaign]).campaigns,
                          db.assignments + map[s.assignment := x], db.submissions + map[id := y],
                          db.reviews + map[id := r]);
    Whole(cfg, Commit(db, Workflow.Examine(db, now, id, reviewer, Approve).value), t);
  }

  lemma PendingMirrors()
    ensures Mirror(Pending) == Submitted && Mirror(Refused) == Rejected && Mirror(ToChange) == ChangesRequested
    ensures Mirror(Passed) == Approved
  {
  }

  lemma DecisionFits()
    ensures ReviewFits(Approve, Passed) && ReviewFits(RequestChanges, ToChange) && ReviewFits(Reject, Refused)
  {
  }

  /** Deciding pending work takes no place, and loses no override. */
  lemma VerdictKeepsCapacity(campaigns: map<Id, Campaign>, assignments: map<Id, Assignment>,
                             submissions: map<Id, Submission>,
                             reviews: map<Id, Review>, a: Id, x: Assignment, s: Id, y: Submission,
                             more: map<Id, Review>)
    requires Capacity(campaigns, assignments, submissions, reviews)
    requires Decides(assignments, submissions, a, x, s, y) && assignments[a].status.Submitted?
    requires forall r :: r in reviews ==> r in more && more[r] == reviews[r]
    ensures Capacity(campaigns, assignments + map[a := x], submissions + map[s := y], more)
  {
    forall c
      ensures Occupied(assignments + map[a := x], c) <= Occupied(assignments, c)
    {
      VerdictPlaces(assignments, a, x, c);
    }
    CapacityStays(campaigns, assignments, assignments + map[a := x], submissions, submissions + map[s := y], reviews,
                  more);
  }

  /** Asking for changes, or rejecting. */
  lemma RefusalKeeps(cfg: Config, db: Db, t: Time, now: Time, id: Id, reviewer: Id, decision: Decision)
    requires Inv(cfg, db, t) && decision != Approve && Workflow.Examine(db, now, id, reviewer, decision).Ok?
    ensures Inv(cfg, Commit(db, Workflow.Examine(db, now, id, reviewer, decision).value), t)
  {
    hide *;
    Parts(cfg, db, t);
    Success.Examine(db, now, id, reviewer, decision);
    ExamineGround(cfg, db, t, id);
    var s := db.submissions[id];
    var row := db.assignments[s.assignment];
    var x := row.(status := if decision == Reject then Rejected else ChangesRequested);
    var y := s.(status := if decision == Reject then Refused else ToChange);
    RefusalDecides(db.assignments, db.submissions, s.assignment, x, id, y);
    VerdictKeeps(cfg, db, t, s.assignment, x, id, y);
    VerdictShape(db.assignments, db.submissions, s.assignment, x, id, y);
    var r := Review(reviewer, decision);
    DecisionFits();
    ExamineKeepsReviewed(db.submissions, db.reviews, id, y, r);
    ExamineKeepsDisputes(db.assignments, db.submissions, db.reviews, db.disputes, s.assignment, x, id, y, r);
    LedgerStays(cfg.signupGrant, db.profiles, db.campaigns, db.assignments, db.assignments + map[s.assignment := x],
                db.ledger);
    BooksStay(db.campaigns, db.assignments, db.assignments + map[s.assignment := x], db.ledger);
    VerdictKeepsCapacity(db.campaigns, db.assignments, db.submissions, db.reviews, s.assignment, x, id, y,
                         db.reviews + map[id := r]);
    StillWorking(x.status);
    ProgressStays(db.campaigns, db.assignments, s.assignment, x);
    Whole(cfg, Commit(db, Workflow.Examine(db, now, id, reviewer, decision).value), t);
  }

  lemma RefusalDecides(assignments: map<Id, Assignment>, submissions: map<Id, Submission>, a: Id, x: Assignment, s: Id,
                       y: Submission)
    requires a in assignments && Stamped(assignments[a]) && assignments[a].status.Submitted?
    requires s in submissions && submissions[s].assignment == a && submissions[s].status == Pending
    requires x == assignments[a].(status := x.status, completedAt := x.completedAt)
    requires x.completedAt.Some? ==> x.status == Rejected
    requires y == submissions[s].(status := y.status)
    requires (x.status == Rejected && y.status == Refused) || (x.status == ChangesRequested && y.status == ToChange)
    ensures Decides(assignments, submissions, a, x, s, y)
  {
  }

  // ----- disputes ---------------------------------------------------------------------------

  lemma EscalateKeeps(cfg: Config, db: Db, t: Time, now: Time, id: Id, a: Id, user: Id, submission: Option<Id>)
    requires Inv(cfg, db, t) && Workflow.Escalate(db, now, id, a, user, submission).Ok?
    ensures Inv(cfg, Commit(db, Workflow.Escalate(db, now, id, a, user, submission).value), t)
  {
    hide *;
    Parts(cfg, db, t);
    Success.Escalate(db, now, id, a, user, submission);
    EscalateKeepsDisputes(db.assignments, db.submissions, db.reviews, db.disputes, id,
                          Dispute(a, submission, user, Open, None, None, None));
    Whole(cfg, Commit(db, Workflow.Escalate(db, now, id, a, user, submission).value), t);
  }

  lemma ClaimKeeps(cfg: Config, db: Db, t: Time, id: Id, moderator: Id)
    requires Inv(cfg, db, t) && Moderation.Claim(db, id, moderator).Ok?
    ensures Inv(cfg, Commit(db, Moderation.Claim(db, id, moderator).value), t)
  {
    hide *;
    Parts(cfg, db, t);
    Success.Claim(db, id, moderator);
    var d := db.disputes[id];
    if d.status == Open {
      OpenIsActive(d);
      ClaimKeepsDisputes(db.assignments, db.submissions, db.reviews, db.disputes, id,
                         d.(status := UnderReview, assignedTo := Some(moderator)));
    }
    Whole(cfg, Commit(db, Moderation.Claim(db, id, moderator).value), t);
  }

  lemma OpenIsActive(d: Dispute)
    ensures d.IsActive() <==> d.status == Open || d.status == UnderReview
  {
  }

  /** What a moderator finds when resolving: the latest submission, pending or refused, and not
      reviewed or rejected by the owner. */
  lemma DisputeGround(assignments: map<Id, Assignment>, submissions: map<Id, Submission>, reviews: map<Id, Review>,
                      disputes: map<Id, Dispute>, id: Id)
    requires Disputes(assignments, submissions, reviews, disputes)
    requires id in disputes && disputes[id].IsActive()
    ensures var d := disputes[id];
            && d.assignment in assignments && d.submission.Some? && d.submission.value in submissions
            && submissions[d.submission.value].assignment == d.assignment
            && assignments[d.assignment].status == Mirror(submissions[d.submission.value].status)
            && (assignments[d.assignment].status.Submitted? || assignments[d.assignment].status.Rejected?)
            && (assignments[d.assignment].status.Submitted? ==> submissions[d.submission.value].status == Pending)
            && (assignments[d.assignment].status.Rejected? ==> submissions[d.submission.value].status == Refused)
            && (d.submission.value in reviews ==> reviews[d.submission.value].decision == Reject)
            && (assignments[d.assignment].status.Rejected? ==> d.submission.value in reviews)
  {
    assert DisputeFits(disputes[id], assignments, submissions, reviews);
  }

  lemma AwardKeeps(cfg: Config, db: Db, t: Time, now: Time, id: Id, moderator: Id, r: Moderation.Ruling)
    requires Inv(cfg, db, t) && Moderation.Resolve(db, now, id, moderator, r).Ok? && r.remedy == AwardTester
    ensures Inv(cfg, Commit(db, Moderation.Resolve(db, now, id, moderator, r).value), t)
  {
    hide *;
    Parts(cfg, db, t);
    Success.Resolve(db, now, id, moderator, r);
    var d := db.disputes[id];
    OpenIsActive(d);
    DisputeGround(db.assignments, db.submissions, db.reviews, db.disputes, id);
    var a, s := d.assignment, d.submission.value;
    var row := db.assignments[a];
    var x, y := row.(status := Approved, completedAt := Some(now)), db.submissions[s].(status := Passed);
    ApprovalKeeps(cfg, db, t, now, s, a);
    ApprovedDb(db, now, s, db.submissions[s], a, row, db.campaigns[row.campaign]);
    RulingKeepsReviewed(db.submissions, db.reviews, s, y);
    RuledShape(d, moderator, r);
    RulingKeepsDisputes(db.assignments, db.submissions, db.reviews, db.disputes, id, Success.Ruled(d, moderator, r), x,
                        s, y);
    if row.status.Submitted? {
      VerdictKeepsCapacity(db.campaigns, db.assignments, db.submissions, db.reviews, a, x, s, y, db.reviews);
    } else {
      AwardKeepsCapacity(db.campaigns, db.assignments, db.submissions, db.reviews, a, x, s, y);
    }
    RestatusKeepsCapacity(db.campaigns,
                          Success.AfterApproval(db, now, s, db.submissions[s], a, row,
                                                db.campaigns[row.campaign]).campaigns,
                          db.assignments + map[a := x], db.submissions + map[s := y], db.reviews);
    Whole(cfg, Commit(db, Moderation.Resolve(db, now, id, moderator, r).value), t);
  }

  lemma RuledShape(d: Dispute, moderator: Id, r: Moderation.Ruling)
    requires d.assignedTo == Some(moderator)
    ensures var e := Success.Ruled(d, moderator, r);
            && e == d.(status := e.status, remedy := e.remedy, resolvedBy := e.resolvedBy) && !e.IsActive()
            && e.assignedTo.Some? && e.resolvedBy == e.assignedTo && e.remedy == Some(r.remedy)
  {
  }

  /** Refusing overdue work, or closing the dispute over rejected work without an award. */
  lemma NoAwardKeeps(cfg: Config, db: Db, t: Time, now: Time, id: Id, moderator: Id, r: Moderation.Ruling)
    requires Inv(cfg, db, t) && Moderation.Resolve(db, now, id, moderator, r).Ok? && r.remedy != AwardTester
    ensures Inv(cfg, Commit(db, Moderation.Resolve(db, now, id, moderator, r).value), t)
  {
    hide *;
    Parts(cfg, db, t);
    Success.Resolve(db, now, id, moderator, r);
    var d := db.disputes[id];
    OpenIsActive(d);
    DisputeGround(db.assignments, db.submissions, db.reviews, db.disputes, id);
    var a, s := d.assignment, d.submission.value;
    var row := db.assignments[a];
    RuledShape(d, moderator, r);
    RowFits(db.profiles, db.campaigns, db.assignments, a);
    var x := if row.status.Submitted? then row.(status := Rejected, completedAt := Some(now)) else row;
    var y := db.submissions[s].(status := Refused);
    if row.status.Submitted? {
      RefusalDecides(db.assignments, db.submissions, a, x, s, y);
    } else {
      RejectedStays(db.assignments, db.submissions, a, s);
    }
    RulingKeepsReviewed(db.submissions, db.reviews, s, y);
    RulingKeepsDisputes(db.assignments, db.submissions, db.reviews, db.disputes, id, Success.Ruled(d, moderator, r), x,
                        s, y);
    if row.status.Submitted? {
      VerdictKeeps(cfg, db, t, a, x, s, y);
      VerdictShape(db.assignments, db.submissions, a, x, s, y);
      LedgerStays(cfg.signupGrant, db.profiles, db.campaigns, db.assignments, db.assignments + map[a := x], db.ledger);
      BooksStay(db.campaigns, db.assignments, db.assignments + map[a := x], db.ledger);
      VerdictKeepsCapacity(db.campaigns, db.assignments, db.submissions, db.reviews, a, x, s, y, db.reviews);
      StillWorking(x.status);
      ProgressStays(db.campaigns, db.assignments, a, x);
    }
    Whole(cfg, Commit(db, Moderation.Resolve(db, now, id, moderator, r).value), t);
  }

  lemma RejectedStays(assignments: map<Id, Assignment>, submissions: map<Id, Submission>, a: Id, s: Id)
    requires a in assignments && Stamped(assignments[a]) && assignments[a].status.Rejected?
    requires s in submissions && submissions[s].assignment == a && submissions[s].status == Refused
    ensures Decides(assignments, submissions, a, assignments[a], s, submissions[s].(status := Refused))
    ensures assignments + map[a := assignments[a]] == assignments
    ensures submissions + map[s := submissions[s].(status := Refused)] == submissions
  {
  }

  // ----- campaigns --------------------------------------------------------------------------

  lemma DraftKeeps(cfg: Config, db: Db, t: Time, c: Id, x: Campaign)
    requires Inv(cfg, db, t) && Drafts(db.campaigns, c, x) && x.status == Draft && x.owner in db.profiles
    ensures Inv(cfg, db.(campaigns := db.campaigns + map[c := x]), t)
  {
    hide *;
    Parts(cfg, db, t);
    DraftKeepsDrafted(db.profiles, db.campaigns, db.contracts, c, x);
    DraftKeepsAssigned(db.profiles, db.campaigns, db.assignments, c, x);
    DraftKeepsLedgered(cfg.signupGrant, db.profiles, db.campaigns, db.assignments, db.ledger, c, x);
    DraftKeepsBooked(db.profiles, db.campaigns, db.assignments, db.ledger, c, x);
    DraftKeepsCapacity(db.profiles, db.campaigns, db.assignments, db.submissions, db.reviews, c, x);
    DraftKeepsProgress(db.profiles, db.campaigns, db.assignments, c, x);
    Whole(cfg, db.(campaigns := db.campaigns + map[c := x]), t);
  }

  lemma DraftKeepsDrafted(profiles: map<Id, string>, campaigns: map<Id, Campaign>, contracts: map<Id, Contract>, c: Id,
                          x: Campaign)
    requires Drafted(profiles, campaigns, contracts) && Drafts(campaigns, c, x) && x.status == Draft
    requires x.owner in profiles
    ensures Drafted(profiles, campaigns + map[c := x], contracts)
  {
    if c in campaigns {
      assert CampaignFits(campaigns[c], c, profiles, contracts);
    }
  }

  lemma CreateKeeps(cfg: Config, db: Db, t: Time, id: Id, owner: Id, p: Campaigns.CampaignPayload)
    requires Inv(cfg, db, t) && Campaigns.Create(db, id, owner, p).Ok?
    ensures Inv(cfg, Commit(db, Campaigns.Create(db, id, owner, p).value), t)
  {
    var x := Campaign(owner, p.slug, p.target, p.reward, Draft, None);
    hide Inv;
    Success.Create(db, id, owner, p);
    DraftKeeps(cfg, db, t, id, x);
  }

  lemma UpdateKeeps(cfg: Config, db: Db, t: Time, c: Id, owner: Id, u: Campaigns.CampaignUpdate)
    requires Inv(cfg, db, t) && Campaigns.Update(db, c, owner, u).Ok?
    ensures Inv(cfg, Commit(db, Campaigns.Update(db, c, owner, u).value), t)
  {
    hide *;
    Success.Update(db, c, owner, u);
    Parts(cfg, db, t);
    ChangedDraft(db.profiles, db.campaigns, db.contracts, c, u);
    DraftKeeps(cfg, db, t, c, Campaigns.Changed(db.campaigns[c], u));
  }

  lemma ChangedDraft(profiles: map<Id, string>, campaigns: map<Id, Campaign>, contracts: map<Id, Contract>, c: Id,
                     u: Campaigns.CampaignUpdate)
    requires Drafted(profiles, campaigns, contracts) && c in campaigns && campaigns[c].status == Draft
    ensures var x := Campaigns.Changed(campaigns[c], u);
            Drafts(campaigns, c, x) && x.status == Draft && x.owner in profiles
  {
    assert CampaignFits(campaigns[c], c, profiles, contracts);
  }

  lemma UpsertContractKeeps(cfg: Config, db: Db, t: Time, c: Id, owner: Id, p: Campaigns.ContractPayload)
    requires Inv(cfg, db, t) && Campaigns.UpsertContract(db, c, owner, p).Ok?
    ensures Inv(cfg, Commit(db, Campaigns.UpsertContract(db, c, owner, p).value), t)
  {
    hide *;
    Success.UpsertContract(db, c, owner, p);
    Parts(cfg, db, t);
    RevisedDraft(db, c, p);
    var k := Campaigns.Revised(db, c, p);
    NoWorkOnDrafts(db.profiles, db.campaigns, db.assignments, c);
    OtherTerms(db.contracts, db.assignments, c, k);
    TermsStay(db.contracts, db.contracts + map[c := k], db.assignments, db.sessions, db.submissions, t);
    Whole(cfg, Commit(db, Campaigns.UpsertContract(db, c, owner, p).value), t);
  }

  lemma RevisedDraft(db: Db, c: Id, p: Campaigns.ContractPayload)
    requires Drafted(db.profiles, db.campaigns, db.contracts) && c in db.campaigns && db.campaigns[c].status == Draft
    ensures Drafted(db.profiles, db.campaigns, db.contracts + map[c := Campaigns.Revised(db, c, p)])
  {
    forall d | d in db.campaigns
      ensures CampaignFits(db.campaigns[d], d, db.profiles, db.contracts + map[c := Campaigns.Revised(db, c, p)])
    {
      assert CampaignFits(db.campaigns[d], d, db.profiles, db.contracts);
    }
  }

  /** A contract that no assignment is under may be replaced. */
  lemma OtherTerms(contracts: map<Id, Contract>, assignments: map<Id, Assignment>, c: Id, k: Contract)
    requires forall a :: a in assignments ==> assignments[a].campaign != c
    ensures forall a :: a in assignments && assignments[a].campaign in contracts ==>
      assignments[a].campaign in contracts + map[c := k] &&
      SameTerms(contracts[assignments[a].campaign], (contracts + map[c := k])[assignments[a].campaign])
  {
  }

  lemma PublishKeeps(cfg: Config, db: Db, t: Time, now: Time, c: Id, owner: Id)
    requires Inv(cfg, db, t) && Campaigns.Publish(db, now, c, owner).Ok?
    ensures Inv(cfg, Commit(db, Campaigns.Publish(db, now, c, owner).value), t)
  {
    hide *;
    Success.Publish(db, now, c, owner);
    if db.campaigns[c].status == Draft {
      Parts(cfg, db, t);
      var x := db.campaigns[c].(status := Published, publishedAt := Some(now));
      PublishedDraft(db.profiles, db.campaigns, db.contracts, c, now);
      DraftKeepsEntries(cfg.signupGrant, db.profiles, db.campaigns, db.assignments, db.ledger, c, x);
      PublishedKeeps(cfg, db, t, now, c, x, Campaigns.PostingEntry(c, x));
    }
  }

  lemma PublishedKeeps(cfg: Config, db: Db, t: Time, now: Time, c: Id, x: Campaign, e: Entry)
    requires Inv(cfg, db, t) && c in db.campaigns && db.campaigns[c].status == Draft && c in db.contracts
    requires x == db.campaigns[c].(status := Published, publishedAt := Some(now)) && e == Campaigns.PostingEntry(c, x)
    requires Credits.AccountBalance(db.accounts, x.owner) + e.delta >= 0
    ensures Inv(cfg, db.(campaigns := db.campaigns + map[c := x],
                         contracts := db.contracts + map[c := db.contracts[c].(locked := true)],
                         accounts := db.accounts + map[x.owner := Credits.AccountBalance(db.accounts, x.owner) +
                                                       e.delta],
                         ledger := db.ledger + [e]), t)
  {
    hide *;
    Parts(cfg, db, t);
    var k := db.contracts[c].(locked := true);
    PublishedDraft(db.profiles, db.campaigns, db.contracts, c, now);
    PublishKeepsLedgered(cfg.signupGrant, db.profiles, db.campaigns, db.assignments, db.ledger, c, x);
    PublishKeepsBooked(db.profiles, db.campaigns, db.assignments, db.ledger, c, x);
    SpendKeepsBalanced(db.profiles, db.accounts, db.ledger, c, x);
    DraftKeepsAssigned(db.profiles, db.campaigns, db.assignments, c, x);
    DraftKeepsCapacity(db.profiles, db.campaigns, db.assignments, db.submissions, db.reviews, c, x);
    DraftKeepsProgress(db.profiles, db.campaigns, db.assignments, c, x);
    NoWorkOnDrafts(db.profiles, db.campaigns, db.assignments, c);
    OtherTerms(db.contracts, db.assignments, c, k);
    TermsStay(db.contracts, db.contracts + map[c := k], db.assignments, db.sessions, db.submissions, t);
    var n := db.(campaigns := db.campaigns + map[c := x], contracts := db.contracts + map[c := k],
                 accounts := db.accounts + map[x.owner := Credits.AccountBalance(db.accounts, x.owner) + e.delta],
                 ledger := db.ledger + [e]);
    assert Balanced(n.profiles, n.accounts, n.ledger);
    Whole(cfg, n, t);
  }

  lemma PublishedDraft(profiles: map<Id, string>, campaigns: map<Id, Campaign>, contracts: map<Id, Contract>, c: Id,
                       now: Time)
    requires Drafted(profiles, campaigns, contracts) && c in campaigns && campaigns[c].status == Draft && c in contracts
    ensures var x := campaigns[c].(status := Published, publishedAt := Some(now));
            && Drafts(campaigns, c, x) && x.owner in profiles
            && Campaigns.PostingEntry(c, x) == Campaigns.PostingEntry(c, campaigns[c])
            && Drafted(profiles, campaigns + map[c := x], contracts + map[c := contracts[c].(locked := true)])
  {
    var x := campaigns[c].(status := Published, publishedAt := Some(now));
    forall d | d in campaigns
      ensures CampaignFits((campaigns + map[c := x])[d], d, profiles,
                           contracts + map[c := contracts[c].(locked := true)])
    {
      assert CampaignFits(campaigns[d], d, profiles, contracts);
    }
  }

  lemma SpendKeepsBalanced(profiles: map<Id, string>, accounts: map<Id, int>, ledger: seq<Entry>, c: Id, row: Campaign)
    requires Balanced(profiles, accounts, ledger) && row.owner in profiles
    requires Credits.AccountBalance(accounts, row.owner) + Campaigns.PostingEntry(c, row).delta >= 0
    ensures Balanced(profiles,
                     accounts + map[row.owner := Credits.AccountBalance(accounts, row.owner) +
                                    Campaigns.PostingEntry(c, row).delta],
                     ledger + [Campaigns.PostingEntry(c, row)])
  {
    AppendKeepsBalanced(profiles, accounts, ledger, Campaigns.PostingEntry(c, row));
  }

  // ----- profiles ---------------------------------------------------------------------------

  lemma RenameKeeps(cfg: Config, db: Db, t: Time, user: Id, username: string, enabled: bool)
    requires Inv(cfg, db, t) && Profiles.Upsert(db, cfg, user, username, enabled).Ok? && user in db.profiles
    ensures Inv(cfg, Commit(db, Profiles.Upsert(db, cfg, user, username, enabled).value), t)
  {
    hide *;
    Parts(cfg, db, t);
    Success.Rename(db, cfg, user, username, enabled);
    RenamedProfile(cfg, db, user, username);
    Whole(cfg, Commit(db, Profiles.Upsert(db, cfg, user, username, enabled).value), t);
  }

  lemma RenamedProfile(cfg: Config, db: Db, user: Id, username: string)
    requires Drafted(db.profiles, db.campaigns, db.contracts) && Assigned(db.profiles, db.campaigns, db.assignments)
    requires Ledgered(cfg.signupGrant, db.profiles, db.campaigns, db.assignments, db.ledger)
    requires Balanced(db.profiles, db.accounts, db.ledger) && Seated(cfg, db.profiles, db.seats) && user in db.profiles
    ensures var p := db.profiles + map[user := username];
            && Drafted(p, db.campaigns, db.contracts) && Assigned(p, db.campaigns, db.assignments)
            && Ledgered(cfg.signupGrant, p, db.campaigns, db.assignments, db.ledger)
            && Balanced(p, db.accounts, db.ledger) && Seated(cfg, p, db.seats)
  {
    var p := db.profiles + map[user := username];
    assert p.Keys == db.profiles.Keys;
    assert |p| == |p.Keys| && |db.profiles| == |db.profiles.Keys|;
    MoreProfiles(db.profiles, p, db.campaigns, db.contracts, db.assignments);
    MoreProfilesEntries(cfg.signupGrant, db.profiles, p, db.campaigns, db.assignments, db.ledger);
  }

  lemma JoinKeeps(cfg: Config, db: Db, t: Time, user: Id, username: string, enabled: bool)
    requires Inv(cfg, db, t) && Profiles.Upsert(db, cfg, user, username, enabled).Ok? && user !in db.profiles
    ensures Inv(cfg, Commit(db, Profiles.Upsert(db, cfg, user, username, enabled).value), t)
  {
    hide *;
    Parts(cfg, db, t);
    JoinKeepsLedgered(cfg.signupGrant, db.profiles, db.campaigns, db.assignments, db.ledger, user, username);
    NoAccountYet(db, user);
    Success.Signup(db, cfg, user, username, enabled);
    JoinedKeeps(cfg, db, t, user, username);
  }

  lemma NoAccountYet(db: Db, user: Id)
    requires Balanced(db.profiles, db.accounts, db.ledger) && user !in db.profiles
    ensures user !in db.accounts
  {
    assert user !in db.profiles.Keys;
  }

  lemma JoinedKeeps(cfg: Config, db: Db, t: Time, user: Id, username: string)
    requires Inv(cfg, db, t) && user !in db.profiles && Profiles.ClaimedSeats(db) < cfg.maxUsers
    ensures Inv(cfg, Success.Joined(db, cfg, user, username), t)
  {
    hide *;
    Parts(cfg, db, t);
    JoinKeepsLedgered(cfg.signupGrant, db.profiles, db.campaigns, db.assignments, db.ledger, user, username);
    OneMoreSeat(cfg, db, user, username);
    MoreProfiles(db.profiles, db.profiles + map[user := username], db.campaigns, db.contracts, db.assignments);
    JoinedIs(db, cfg, user, username);
    JoinedBooks(cfg, db, user, username);
    Whole(cfg, Success.Joined(db, cfg, user, username), t);
  }

  lemma JoinedBooks(cfg: Config, db: Db, user: Id, username: string)
    requires Balanced(db.profiles, db.accounts, db.ledger) && Booked(db.campaigns, db.assignments, db.ledger)
    requires user !in db.profiles
    ensures var after := Success.Joined(db, cfg, user, username);
            Balanced(after.profiles, after.accounts, after.ledger) &&
              Booked(after.campaigns, after.assignments, after.ledger)
  {
    hide *;
    JoinedIs(db, cfg, user, username);
    OpenAccountKeepsBalanced(db.profiles, db.accounts, db.ledger, user, username);
    Overwrite(db.accounts, user, 0, 0 + cfg.signupGrant);
    if cfg.signupGrant > 0 {
      var e := Entry(user, cfg.signupGrant, SignupGrant, SignupKey(user));
      AppendKeepsBalanced(db.profiles + map[user := username], db.accounts + map[user := 0], db.ledger, e);
      GrantKeepsBooked(db.campaigns, db.assignments, db.ledger, e);
    }
  }

  lemma JoinedIs(db: Db, cfg: Config, user: Id, username: string)
    ensures var after := Success.Joined(db, cfg, user, username);
            && after == db.(profiles := db.profiles + map[user := username],
                            seats := Some(Profiles.ClaimedSeats(db) + 1),
                            accounts := db.accounts + map[user := cfg.signupGrant], ledger := after.ledger)
            && after.ledger ==
               if cfg.signupGrant > 0 then db.ledger + [Entry(user, cfg.signupGrant, SignupGrant, SignupKey(user))]
               else db.ledger
  {
  }

  lemma OneMoreSeat(cfg: Config, db: Db, user: Id, username: string)
    requires user !in db.profiles && Seated(cfg, db.profiles, db.seats) && Profiles.ClaimedSeats(db) < cfg.maxUsers
    ensures Seated(cfg, db.profiles + map[user := username], Some(Profiles.ClaimedSeats(db) + 1))
  {
    OneMoreKey(db.profiles, user, username);
  }

  lemma OneMoreKey<K, V>(m: map<K, V>, k: K, v: V)
    requires k !in m
    ensures |m + map[k := v]| == |m| + 1
  {
    var p := m + map[k := v];
    assert p.Keys == m.Keys + {k};
    assert |p| == |p.Keys| && |m| == |m.Keys|;
  }

  lemma GrantKeepsBooked(campaigns: map<Id, Campaign>, assignments: map<Id, Assignment>, ledger: seq<Entry>, e: Entry)
    requires Booked(campaigns, assignments, ledger) && e.kind == SignupGrant
    ensures Booked(campaigns, assignments, ledger + [e])
  {
    Credits.Append(ledger, e);
  }

  lemma Parts(cfg: Config, db: Db, t: Time)
    requires Inv(cfg, db, t)
    ensures Timeless(cfg, db) && Clocked(db.contracts, db.assignments, db.sessions, db.submissions, t)
    ensures Drafted(db.profiles, db.campaigns, db.contracts)
    ensures Assigned(db.profiles, db.campaigns, db.assignments)
    ensures History(db.assignments, db.submissions)
    ensures Reviewed(db.submissions, db.reviews)
    ensures Disputes(db.assignments, db.submissions, db.reviews, db.disputes)
    ensures Ledgered(cfg.signupGrant, db.profiles, db.campaigns, db.assignments, db.ledger)
    ensures Balanced(db.profiles, db.accounts, db.ledger)
    ensures Booked(db.campaigns, db.assignments, db.ledger)
    ensures Capacity(db.campaigns, db.assignments, db.submissions, db.reviews)
    ensures Progress(db.campaigns, db.assignments)
    ensures Evidenced(db.contracts, db.assignments, db.submissions)
    ensures Seated(cfg, db.profiles, db.seats)
  {
  }

  lemma Whole(cfg: Config, db: Db, t: Time)
    requires Drafted(db.profiles, db.campaigns, db.contracts)
    requires Assigned(db.profiles, db.campaigns, db.assignments)
    requires History(db.assignments, db.submissions)
    requires Reviewed(db.submissions, db.reviews)
    requires Disputes(db.assignments, db.submissions, db.reviews, db.disputes)
    requires Ledgered(cfg.signupGrant, db.profiles, db.campaigns, db.assignments, db.ledger)
    requires Balanced(db.profiles, db.accounts, db.ledger)
    requires Booked(db.campaigns, db.assignments, db.ledger)
    requires Capacity(db.campaigns, db.assignments, db.submissions, db.reviews)
    requires Progress(db.campaigns, db.assignments)
    requires Evidenced(db.contracts, db.assignments, db.submissions)
    requires Seated(cfg, db.profiles, db.seats)
    requires Clocked(db.contracts, db.assignments, db.sessions, db.submissions, t)
    ensures Inv(cfg, db, t)
  {
  }
}
