/** The few ways in which requests change a table, and what each way keeps. */
module Effects {
  import opened Model
  import opened Results
  import opened Invariants
  import Campaigns
  import Credits
  import Sets
  import Workflow

  // ----- moving assignments outside of a decision -------------------------------------------

  /** Accepting, declining, starting, withdrawing. */
  predicate IsMove(a: Assignment, b: Assignment) {
    && b.campaign == a.campaign && b.tester == a.tester && Stamped(b)
    && (a.startedAt.Some? ==> b.startedAt == a.startedAt)
    && b.submittedAt == a.submittedAt
    && (b.status.Accepted? || b.status.InProgress? || b.status.Cancelled?)
    && (b.status.Accepted? ==> a.status.Applied?)
    && (b.status.InProgress? ==> a.status.Accepted?)
    && (b.status.Cancelled? ==> Early(a.status) || a.status.ChangesRequested?)
    && (!b.status.Accepted? ==> b.acceptedAt == a.acceptedAt)
  }

  ghost predicate Moves(before: map<Id, Assignment>, after: map<Id, Assignment>) {
    && before.Keys == after.Keys
    && forall a :: a in before ==> after[a] == before[a] || IsMove(before[a], after[a])
  }

  lemma MovesKeepAssigned(profiles: map<Id, string>, campaigns: map<Id, Campaign>,
                          before: map<Id, Assignment>, after: map<Id, Assignment>)
    requires Assigned(profiles, campaigns, before) && Moves(before, after)
    ensures Assigned(profiles, campaigns, after)
  {
    forall a | a in after
      ensures AssignmentFits(after[a], profiles, campaigns)
    {
      assert AssignmentFits(before[a], profiles, campaigns);
    }
  }

  lemma MovesKeepHistory(before: map<Id, Assignment>, after: map<Id, Assignment>, submissions: map<Id, Submission>)
    requires History(before, submissions) && Moves(before, after)
    ensures History(after, submissions)
  {
    forall s | s in submissions
      ensures SubmissionFits(submissions[s], after)
    {
      assert SubmissionFits(submissions[s], before);
    }
  }

  lemma MovesKeepDisputes(before: map<Id, Assignment>, after: map<Id, Assignment>, submissions: map<Id, Submission>,
                          reviews: map<Id, Review>, disputes: map<Id, Dispute>)
    requires Disputes(before, submissions, reviews, disputes) && Moves(before, after)
    ensures Disputes(after, submissions, reviews, disputes)
  {
    forall d | d in disputes
      ensures DisputeFits(disputes[d], after, submissions, reviews)
    {
      assert DisputeFits(disputes[d], before, submissions, reviews);
    }
  }

  /** The same assignments are approved, for the same campaigns and testers. */
  ghost predicate SameApproved(before: map<Id, Assignment>, after: map<Id, Assignment>) {
    && Extends(before, after)
    && forall a :: a in after ==> (after[a].status.Approved? <==> a in before && before[a].status.Approved?)
  }

  lemma LedgerStays(grant: int, profiles: map<Id, string>, campaigns: map<Id, Campaign>,
                    before: map<Id, Assignment>, after: map<Id, Assignment>, ledger: seq<Entry>)
    requires Ledgered(grant, profiles, campaigns, before, ledger) && SameApproved(before, after)
    ensures Ledgered(grant, profiles, campaigns, after, ledger)
  {
    forall i | 0 <= i < |ledger|
      ensures EntryFits(ledger[i], grant, profiles, campaigns, after)
    {
      assert EntryFits(ledger[i], grant, profiles, campaigns, before);
    }
  }

  lemma ApprovedStays(before: map<Id, Assignment>, after: map<Id, Assignment>, c: Id)
    requires SameApproved(before, after)
    ensures WithStatus(after, c, {Approved}) == WithStatus(before, c, {Approved})
  {
    forall a
      ensures a in WithStatus(after, c, {Approved}) <==> a in WithStatus(before, c, {Approved})
    {
      assert a in before ==> a in after;
    }
  }

  lemma BooksStay(campaigns: map<Id, Campaign>, before: map<Id, Assignment>, after: map<Id, Assignment>,
                  ledger: seq<Entry>)
    requires Booked(campaigns, before, ledger) && SameApproved(before, after)
    ensures Booked(campaigns, after, ledger)
  {
    forall c | c in campaigns
      ensures WithStatus(after, c, {Approved}) == WithStatus(before, c, {Approved})
    {
      ApprovedStays(before, after, c);
    }
    SameNet(campaigns, before, campaigns, after);
  }

  lemma SameNet(c1: map<Id, Campaign>, a1: map<Id, Assignment>, c2: map<Id, Campaign>, a2: map<Id, Assignment>)
    requires c1.Keys == c2.Keys
    requires forall c :: c in c1 ==>
      Term(c1[c], |WithStatus(a1, c, {Approved})|) == Term(c2[c], |WithStatus(a2, c, {Approved})|)
    ensures Net(c1, a1) == Net(c2, a2)
  {
    Sets.SumSame(c1.Keys,
      c => if c in c1 then Term(c1[c], |WithStatus(a1, c, {Approved})|) else 0,
      c => if c in c2 then Term(c2[c], |WithStatus(a2, c, {Approved})|) else 0);
  }

  /** Places are freed, never taken, unless an application is accepted. */
  lemma MovesFreePlaces(before: map<Id, Assignment>, after: map<Id, Assignment>, c: Id)
    requires Moves(before, after)
    requires forall a :: a in before && after[a].status.Accepted? ==> before[a].status.Accepted?
    ensures Occupied(after, c) <= Occupied(before, c)
  {
    Sets.SubsetSize(WithStatus(after, c, OCCUPIED), WithStatus(before, c, OCCUPIED));
  }

  /** Capacity survives when no further place is taken and no override disappears. */
  lemma CapacityStays(campaigns: map<Id, Campaign>, before: map<Id, Assignment>, after: map<Id, Assignment>,
                      s1: map<Id, Submission>, s2: map<Id, Submission>, r1: map<Id, Review>, r2: map<Id, Review>)
    requires Capacity(campaigns, before, s1, r1)
    requires forall c :: c in campaigns ==>
      Occupied(after, c) <= Occupied(before, c) || Occupied(after, c) <= campaigns[c].target
    requires forall a :: a in before && before[a].status.Approved? ==>
      a in after && after[a].status.Approved? && after[a].campaign == before[a].campaign
    requires forall s :: s in s1 && s1[s].status == Passed ==> s in s2 && s2[s] == s1[s]
    requires forall s :: s in r1 ==> s in r2 && r2[s] == r1[s]
    ensures Capacity(campaigns, after, s2, r2)
  {
    forall c | c in campaigns
      ensures Occupied(after, c) <= campaigns[c].target + |Overrides(after, s2, r2, c)|
    {
      OverridesGrow(before, after, s1, s2, r1, r2, c);
      Sets.SubsetSize(Overrides(before, s1, r1, c), Overrides(after, s2, r2, c));
    }
  }

  lemma OverridesGrow(before: map<Id, Assignment>, after: map<Id, Assignment>, s1: map<Id, Submission>,
                      s2: map<Id, Submission>,
                      r1: map<Id, Review>, r2: map<Id, Review>, c: Id)
    requires forall a :: a in before && before[a].status.Approved? ==>
      a in after && after[a].status.Approved? && after[a].campaign == before[a].campaign
    requires forall s :: s in s1 && s1[s].status == Passed ==> s in s2 && s2[s] == s1[s]
    requires forall s :: s in r1 ==> s in r2 && r2[s] == r1[s]
    ensures Overrides(before, s1, r1, c) <= Overrides(after, s2, r2, c)
  {
    forall a | a in Overrides(before, s1, r1, c)
      ensures a in Overrides(after, s2, r2, c)
    {
      var s :| s in s1 && s1[s].assignment == a && s1[s].status == Passed && s in r1 && r1[s].decision == Reject;
      assert s in s2 && s2[s] == s1[s] && s in r2 && r2[s] == r1[s];
    }
  }

  // ----- one row of the assignment table ----------------------------------------------------

  lemma WithStatusUpdate(assignments: map<Id, Assignment>, a: Id, x: Assignment, c: Id, statuses: set<AssignmentStatus>)
    ensures WithStatus(assignments + map[a := x], c, statuses) ==
            (WithStatus(assignments, c, statuses) - {a}) + (if x.campaign == c && x.status in statuses then {a} else {})
  {
  }

  // ----- changing only the status of a published campaign -----------------------------------

  predicate IsRestatus(c: Campaign, d: Campaign) {
    && d == c.(status := d.status)
    && (c.status == Draft <==> d.status == Draft)
  }

  ghost predicate Restatus(before: map<Id, Campaign>, after: map<Id, Campaign>) {
    && before.Keys == after.Keys
    && forall c :: c in before ==> IsRestatus(before[c], after[c])
  }

  lemma RestatusKeepsDrafted(profiles: map<Id, string>, before: map<Id, Campaign>, after: map<Id, Campaign>,
                             contracts: map<Id, Contract>)
    requires Drafted(profiles, before, contracts) && Restatus(before, after)
    ensures Drafted(profiles, after, contracts)
  {
    forall c | c in after
      ensures CampaignFits(after[c], c, profiles, contracts)
    {
      assert CampaignFits(before[c], c, profiles, contracts);
    }
  }

  lemma RestatusKeepsAssigned(profiles: map<Id, string>, before: map<Id, Campaign>, after: map<Id, Campaign>,
                              assignments: map<Id, Assignment>)
    requires Assigned(profiles, before, assignments) && Restatus(before, after)
    ensures Assigned(profiles, after, assignments)
  {
    forall a | a in assignments
      ensures AssignmentFits(assignments[a], profiles, after)
    {
      assert AssignmentFits(assignments[a], profiles, before);
    }
  }

  lemma RestatusKeepsLedgered(grant: int, profiles: map<Id, string>, before: map<Id, Campaign>,
                              after: map<Id, Campaign>,
                              assignments: map<Id, Assignment>, ledger: seq<Entry>)
    requires Ledgered(grant, profiles, before, assignments, ledger) && Restatus(before, after)
    ensures Ledgered(grant, profiles, after, assignments, ledger)
  {
    forall i | 0 <= i < |ledger|
      ensures EntryFits(ledger[i], grant, profiles, after, assignments)
    {
      assert EntryFits(ledger[i], grant, profiles, before, assignments);
    }
  }

  lemma RestatusKeepsBooked(before: map<Id, Campaign>, after: map<Id, Campaign>, assignments: map<Id, Assignment>,
                            ledger: seq<Entry>)
    requires Booked(before, assignments, ledger) && Restatus(before, after)
    ensures Booked(after, assignments, ledger)
  {
    SameNet(before, assignments, after, assignments);
  }

  lemma RestatusKeepsCapacity(before: map<Id, Campaign>, after: map<Id, Campaign>, assignments: map<Id, Assignment>,
                              submissions: map<Id, Submission>, reviews: map<Id, Review>)
    requires Capacity(before, assignments, submissions, reviews) && Restatus(before, after)
    ensures Capacity(after, assignments, submissions, reviews)
  {
  }

  // ----- facts that only look at the fixed part of an assignment ----------------------------

  /** No assignment disappears, and none changes campaign or tester. */
  ghost predicate Extends(before: map<Id, Assignment>, after: map<Id, Assignment>) {
    forall a :: a in before ==>
      a in after && after[a].campaign == before[a].campaign && after[a].tester == before[a].tester
  }

  lemma EvidenceStays(contracts: map<Id, Contract>, before: map<Id, Assignment>, after: map<Id, Assignment>,
                      submissions: map<Id, Submission>)
    requires Evidenced(contracts, before, submissions) && Extends(before, after)
    ensures Evidenced(contracts, after, submissions)
  {
    forall s | s in submissions
      ensures EvidenceFits(submissions[s], after, contracts)
    {
      assert EvidenceFits(submissions[s], before, contracts);
    }
  }

  /** Clocks depend on the start and submission times alone. */
  lemma ClockStays(contracts: map<Id, Contract>, before: map<Id, Assignment>, after: map<Id, Assignment>,
                   sessions: set<Session>, submissions: map<Id, Submission>, t: Time)
    requires Clocked(contracts, before, sessions, submissions, t) && Extends(before, after)
    requires forall a :: a in before ==>
      after[a].startedAt == before[a].startedAt && after[a].submittedAt == before[a].submittedAt
    requires forall a :: a in after && a !in before ==> after[a].startedAt.None?
    ensures Clocked(contracts, after, sessions, submissions, t)
  {
    forall a | a in after
      ensures AssignmentClock(after[a], a, sessions, t)
    {
      if a in before {
        assert AssignmentClock(before[a], a, sessions, t);
      }
    }
    forall s | s in submissions
      ensures SubmissionClock(submissions[s], after, contracts)
    {
      assert SubmissionClock(submissions[s], before, contracts);
    }
  }

  /** Changing an assignment's submission status leaves its clock and evidence alone. */
  lemma JudgedStays(contracts: map<Id, Contract>, assignments: map<Id, Assignment>, sessions: set<Session>,
                    submissions: map<Id, Submission>, t: Time, s: Id, y: Submission)
    requires Clocked(contracts, assignments, sessions, submissions, t) && Evidenced(contracts, assignments, submissions)
    requires s in submissions && y == submissions[s].(status := y.status)
    ensures Clocked(contracts, assignments, sessions, submissions + map[s := y], t)
    ensures Evidenced(contracts, assignments, submissions + map[s := y])
  {
    var after := submissions + map[s := y];
    forall r | r in after
      ensures SubmissionClock(after[r], assignments, contracts) && EvidenceFits(after[r], assignments, contracts)
    {
      assert SubmissionClock(submissions[r], assignments, contracts) &&
        EvidenceFits(submissions[r], assignments, contracts);
    }
  }

  // ----- a decision on the latest submission ------------------------------------------------

  /** An assignment is decided, by its owner or by a moderator. */
  predicate IsVerdict(a: Assignment, b: Assignment) {
    && b == a.(status := b.status, completedAt := b.completedAt) && Stamped(b)
    && (a.status.Submitted? || a.status.Rejected?)
    && (b.status.ChangesRequested? || b.status.Approved? || b.status.Rejected?)
  }

  lemma VerdictKeepsAssigned(profiles: map<Id, string>, campaigns: map<Id, Campaign>, assignments: map<Id, Assignment>,
                             a: Id, x: Assignment)
    requires Assigned(profiles, campaigns, assignments)
    requires a in assignments && IsVerdict(assignments[a], x)
    ensures Assigned(profiles, campaigns, assignments + map[a := x])
  {
    var after := assignments + map[a := x];
    forall b | b in after
      ensures AssignmentFits(after[b], profiles, campaigns)
    {
      assert AssignmentFits(assignments[b], profiles, campaigns);
    }
  }

  /** Submission `s` of assignment `a` is decided: the rows become `y` and `x`. */
  ghost predicate Decides(assignments: map<Id, Assignment>, submissions: map<Id, Submission>, a: Id, x: Assignment,
                          s: Id, y: Submission) {
    && a in assignments && IsVerdict(assignments[a], x)
    && s in submissions && submissions[s].assignment == a && y == submissions[s].(status := y.status)
    && assignments[a].status == Mirror(submissions[s].status) && x.status == Mirror(y.status)
  }

  lemma VerdictKeepsHistory(assignments: map<Id, Assignment>, submissions: map<Id, Submission>, a: Id, x: Assignment,
                            s: Id, y: Submission)
    requires History(assignments, submissions) && Decides(assignments, submissions, a, x, s, y)
    ensures History(assignments + map[a := x], submissions + map[s := y])
  {
    EarlierAskedForChanges(assignments, submissions, s);
    VerdictKeepsFit(assignments, submissions, a, x, s, y);
    VerdictKeepsOrder(submissions, s, y);
    VerdictKeepsCount(submissions, s, y);
    VerdictKeepsMirror(assignments, submissions, a, x, s, y);
  }

  /** A submission that mirrors an undecided or rejected assignment is the latest one. */
  lemma EarlierAskedForChanges(assignments: map<Id, Assignment>, submissions: map<Id, Submission>, s: Id)
    requires SubmissionsFit(assignments, submissions) && VersionsOrdered(submissions)
    requires s in submissions && submissions[s].status != ToChange
    ensures forall r :: r in submissions && r != s && submissions[r].assignment == submissions[s].assignment ==>
              submissions[r].version < submissions[s].version && submissions[r].status == ToChange
  {
  }

  lemma VerdictKeepsFit(assignments: map<Id, Assignment>, submissions: map<Id, Submission>, a: Id, x: Assignment,
                        s: Id, y: Submission)
    requires SubmissionsFit(assignments, submissions) && Decides(assignments, submissions, a, x, s, y)
    requires forall r :: r in submissions && r != s && submissions[r].assignment == a ==>
               submissions[r].status == ToChange
    ensures SubmissionsFit(assignments + map[a := x], submissions + map[s := y])
  {
    forall r | r in submissions + map[s := y]
      ensures SubmissionFits((submissions + map[s := y])[r], assignments + map[a := x])
    {
      assert SubmissionFits(submissions[r], assignments);
    }
  }

  lemma VerdictKeepsOrder(submissions: map<Id, Submission>, s: Id, y: Submission)
    requires s in submissions && y == submissions[s].(status := y.status)
    requires VersionsOrdered(submissions)
    requires forall r :: r in submissions && r != s && submissions[r].assignment == y.assignment ==>
               submissions[r].version < y.version
    ensures VersionsOrdered(submissions + map[s := y])
  {
  }

  lemma VerdictKeepsCount(submissions: map<Id, Submission>, s: Id, y: Submission)
    requires s in submissions && y == submissions[s].(status := y.status)
    requires VersionsCounted(submissions)
    ensures VersionsCounted(submissions + map[s := y])
  {
    hide SubmissionsOf;
    var decided := submissions + map[s := y];
    forall r | r in decided
      ensures 1 <= decided[r].version <= |SubmissionsOf(decided, decided[r].assignment)|
    {
      SameSubmissionsOf(submissions, s, y, decided[r].assignment);
    }
  }

  lemma SameSubmissionsOf(submissions: map<Id, Submission>, s: Id, y: Submission, a: Id)
    requires s in submissions && y.assignment == submissions[s].assignment
    ensures SubmissionsOf(submissions + map[s := y], a) == SubmissionsOf(submissions, a)
  {
  }

  lemma VerdictKeepsMirror(assignments: map<Id, Assignment>, submissions: map<Id, Submission>, a: Id, x: Assignment,
                           s: Id, y: Submission)
    requires Mirrored(assignments, submissions) && Decides(assignments, submissions, a, x, s, y)
    ensures Mirrored(assignments + map[a := x], submissions + map[s := y])
  {
    var after, decided := assignments + map[a := x], submissions + map[s := y];
    forall b | b in after && Late(after[b].status)
      ensures HasMirror(decided, b, after[b].status)
    {
      if b == a {
        assert decided[s] == y;
      } else {
        assert HasMirror(submissions, b, assignments[b].status);
        var q :| q in submissions && submissions[q].assignment == b &&
          Mirror(submissions[q].status) == assignments[b].status;
        assert decided[q] == submissions[q];
      }
    }
  }

  // ----- the ledger grows -------------------------------------------------------------------

  lemma AppendKeepsBalanced(profiles: map<Id, string>, accounts: map<Id, int>, ledger: seq<Entry>, e: Entry)
    requires Balanced(profiles, accounts, ledger)
    requires e.user in accounts && accounts[e.user] + e.delta >= 0
    ensures Balanced(profiles, accounts + map[e.user := accounts[e.user] + e.delta], ledger + [e])
  {
    Credits.Append(ledger, e);
    var after := ledger + [e];
    forall u, k: nat | k <= |after|
      ensures Credits.Balance(after[..k], u) >= 0
    {
      if k <= |ledger| {
        assert after[..k] == ledger[..k];
      } else {
        assert after[..k] == after;
        assert ledger[..|ledger|] == ledger;
        assert Credits.Balance(ledger[..|ledger|], u) >= 0;
      }
    }
  }

  /** One more entry, for the profile, campaign or assignment that has just earned it. */
  lemma AppendKeepsLedgered(grant: int, p1: map<Id, string>, c1: map<Id, Campaign>, a1: map<Id, Assignment>,
                            p2: map<Id, string>, c2: map<Id, Campaign>, a2: map<Id, Assignment>,
                            ledger: seq<Entry>, e: Entry)
    requires Ledgered(grant, p1, c1, a1, ledger) && !Credits.HasKey(ledger, e.key)
    requires EntryFits(e, grant, p2, c2, a2)
    requires forall i :: 0 <= i < |ledger| ==> EntryFits(ledger[i], grant, p2, c2, a2)
    requires forall u :: u in p2 && u !in p1 && grant > 0 ==> e.key == SignupKey(u)
    requires forall c :: c in c2 && c2[c].status != Draft && !(c in c1 && c1[c].status != Draft) ==>
               e.key == PostingKey(c)
    requires forall a :: a in a2 && a2[a].status == Approved && !(a in a1 && a1[a].status == Approved) ==>
               e.key == RewardKey(a)
    ensures Ledgered(grant, p2, c2, a2, ledger + [e])
  {
    Credits.Append(ledger, e);
    var after := ledger + [e];
    forall i | 0 <= i < |after|
      ensures EntryFits(after[i], grant, p2, c2, a2)
    {
    }
    forall i, j | 0 <= i < j < |after|
      ensures after[i].key != after[j].key
    {
      assert j < |ledger| || after[j] == e;
    }
    hide EntryFits, Credits.HasKey;
  }

  // ----- books ------------------------------------------------------------------------------

  lemma NetChange(c1: map<Id, Campaign>, a1: map<Id, Assignment>, c2: map<Id, Campaign>, a2: map<Id, Assignment>, c: Id)
    requires c1.Keys == c2.Keys && c in c1
    requires forall d :: d in c1 && d != c ==>
      Term(c1[d], |WithStatus(a1, d, {Approved})|) == Term(c2[d], |WithStatus(a2, d, {Approved})|)
    ensures Net(c2, a2) - Net(c1, a1) ==
            Term(c2[c], |WithStatus(a2, c, {Approved})|) - Term(c1[c], |WithStatus(a1, c, {Approved})|)
  {
    var f := c => if c in c1 then Term(c1[c], |WithStatus(a1, c, {Approved})|) else 0;
    var g := c => if c in c2 then Term(c2[c], |WithStatus(a2, c, {Approved})|) else 0;
    Sets.SumSplit(c1.Keys, f, c);
    Sets.SumSplit(c1.Keys, g, c);
    Sets.SumSame(c1.Keys - {c}, f, g);
  }

  // ----- progress ---------------------------------------------------------------------------

  /** A campaign sees nothing of what happens to the assignments of another. */
  lemma OtherCampaign(assignments: map<Id, Assignment>, a: Id, x: Assignment, c: Id)
    requires x.campaign != c && (a in assignments ==> assignments[a].campaign == x.campaign)
    ensures forall statuses ::
              WithStatus(assignments + map[a := x], c, statuses) == WithStatus(assignments, c, statuses)
    ensures EverAccepted(assignments + map[a := x], c) == EverAccepted(assignments, c)
  {
  }

  /** Progress after one assignment changed and its campaign was checked for completion. */
  lemma ProgressSettled(campaigns: map<Id, Campaign>, assignments: map<Id, Assignment>, a: Id, x: Assignment)
    requires Progress(campaigns, assignments)
    requires a in assignments && assignments[a].campaign == x.campaign && x.campaign in campaigns && x.status != Applied
    ensures var after := assignments + map[a := x];
            Progress(campaigns + map[x.campaign := Campaigns.MaybeComplete(campaigns[x.campaign], x.campaign, after)],
                     after)
  {
    var after, c := assignments + map[a := x], x.campaign;
    forall d | d in campaigns && d != c
      ensures ProgressFits(campaigns[d], d, after)
    {
      assert ProgressFits(campaigns[d], d, assignments);
      OtherCampaign(assignments, a, x, d);
    }
    assert ProgressFits(campaigns[c], c, assignments);
    SettledFits(campaigns[c], c, assignments, a, x);
  }

  lemma SettledFits(c: Campaign, id: Id, assignments: map<Id, Assignment>, a: Id, x: Assignment)
    requires ProgressFits(c, id, assignments) && x.campaign == id && x.status != Applied
    ensures var after := assignments + map[a := x];
            ProgressFits(Campaigns.MaybeComplete(c, id, after), id, after)
  {
    var after := assignments + map[a := x];
    WithStatusUpdate(assignments, a, x, id, {Applied});
    assert WithStatus(after, id, ACTIVE) <= WithStatus(after, id, ACTIVE + {Rejected});
  }

  /** Progress after one assignment changed without an approval. */
  lemma ProgressStays(campaigns: map<Id, Campaign>, assignments: map<Id, Assignment>, a: Id, x: Assignment)
    requires Progress(campaigns, assignments) && x.campaign in campaigns && x.status != Approved
    requires a in assignments ==> assignments[a].campaign == x.campaign
    requires campaigns[x.campaign].status == Closed ==> x.status in ACTIVE + {Rejected}
    ensures Progress(campaigns, assignments + map[a := x])
  {
    var after, c := assignments + map[a := x], x.campaign;
    forall d | d in campaigns
      ensures ProgressFits(campaigns[d], d, after)
    {
      assert ProgressFits(campaigns[d], d, assignments);
      if d != c {
        OtherCampaign(assignments, a, x, d);
      } else {
        ProgressOwn(campaigns[c], c, assignments, a, x);
      }
    }
  }

  lemma ProgressOwn(c: Campaign, id: Id, assignments: map<Id, Assignment>, a: Id, x: Assignment)
    requires ProgressFits(c, id, assignments) && x.campaign == id && x.status != Approved
    requires c.status == Closed ==> x.status in ACTIVE + {Rejected}
    ensures ProgressFits(c, id, assignments + map[a := x])
  {
    var after := assignments + map[a := x];
    if c.status == Closed {
      assert x.status != Applied;
      WithStatusUpdate(assignments, a, x, id, {Applied});
      assert WithStatus(after, id, {Applied}) == {};
      assert a in WithStatus(after, id, ACTIVE + {Rejected});
    } else {
      WithStatusUpdate(assignments, a, x, id, {Approved});
      assert WithStatus(after, id, {Approved}) <= WithStatus(assignments, id, {Approved});
      Sets.SubsetSize(WithStatus(after, id, {Approved}), WithStatus(assignments, id, {Approved}));
    }
  }

  // ----- new rows ---------------------------------------------------------------------------

  lemma ApplyKeepsAssigned(profiles: map<Id, string>, campaigns: map<Id, Campaign>, assignments: map<Id, Assignment>,
                           a: Id, x: Assignment)
    requires Assigned(profiles, campaigns, assignments) && a !in assignments
    requires AssignmentFits(x, profiles, campaigns) && !Workflow.HasApplied(assignments, x.campaign, x.tester)
    ensures Assigned(profiles, campaigns, assignments + map[a := x])
  {
  }

  lemma ApplyKeepsHistory(assignments: map<Id, Assignment>, submissions: map<Id, Submission>, a: Id, x: Assignment)
    requires History(assignments, submissions) && a !in assignments && x.status.Applied?
    ensures History(assignments + map[a := x], submissions)
  {
    forall s | s in submissions
      ensures SubmissionFits(submissions[s], assignments + map[a := x])
    {
      assert SubmissionFits(submissions[s], assignments);
    }
  }

  /** Disputes look at the status and the tester of their own assignments only. */
  lemma DisputesStay(before: map<Id, Assignment>, after: map<Id, Assignment>, s1: map<Id, Submission>,
                     s2: map<Id, Submission>,
                     reviews: map<Id, Review>, disputes: map<Id, Dispute>)
    requires Disputes(before, s1, reviews, disputes) && Extends(before, after)
    requires forall a :: a in before && after[a].status != before[a].status ==> InProgressOrBack(before[a].status)
    requires forall s :: s in s1 ==> s in s2 && s2[s] == s1[s]
    requires forall s :: s in s2 && s !in s1 ==> s2[s].status == Pending
    ensures Disputes(after, s2, reviews, disputes)
  {
    forall d | d in disputes
      ensures DisputeFits(disputes[d], after, s2, reviews)
    {
      assert DisputeFits(disputes[d], before, s1, reviews);
    }
  }

  /** The statuses from which a tester submits. */
  predicate InProgressOrBack(s: AssignmentStatus) {
    s.InProgress? || s.ChangesRequested?
  }

  lemma SubmitKeepsAssigned(profiles: map<Id, string>, campaigns: map<Id, Campaign>, assignments: map<Id, Assignment>,
                            a: Id, x: Assignment)
    requires Assigned(profiles, campaigns, assignments)
    requires a in assignments && InProgressOrBack(assignments[a].status)
    requires x == assignments[a].(status := Submitted, submittedAt := x.submittedAt)
    ensures Assigned(profiles, campaigns, assignments + map[a := x])
  {
    var after := assignments + map[a := x];
    forall b | b in after
      ensures AssignmentFits(after[b], profiles, campaigns)
    {
      assert AssignmentFits(assignments[b], profiles, campaigns);
    }
  }

  /** A further version, one above the highest so far, while all earlier ones asked for changes. */
  lemma SubmitKeepsHistory(assignments: map<Id, Assignment>, submissions: map<Id, Submission>, a: Id, x: Assignment,
                           id: Id, y: Submission)
    requires History(assignments, submissions)
    requires a in assignments && InProgressOrBack(assignments[a].status) && x.status.Submitted?
    requires id !in submissions && y.assignment == a && y.status == Pending
    requires y.version == Workflow.LatestVersion(submissions, a) + 1
    ensures History(assignments + map[a := x], submissions + map[id := y])
  {
    SubmitKeepsFit(assignments, submissions, a, x, id, y);
    LatestIsHighest(submissions, a);
    SubmitKeepsOrder(assignments, submissions, a, id, y);
    SubmitKeepsCount(submissions, a, id, y);
    SubmitKeepsMirror(assignments, submissions, a, x, id, y);
  }

  lemma SubmitKeepsFit(assignments: map<Id, Assignment>, submissions: map<Id, Submission>, a: Id, x: Assignment,
                       id: Id, y: Submission)
    requires SubmissionsFit(assignments, submissions)
    requires a in assignments && InProgressOrBack(assignments[a].status) && x.status.Submitted?
    requires y.assignment == a && y.status == Pending
    ensures SubmissionsFit(assignments + map[a := x], submissions + map[id := y])
  {
    forall s | s in submissions
      ensures SubmissionFits(submissions[s], assignments + map[a := x])
    {
      assert SubmissionFits(submissions[s], assignments);
    }
  }

  lemma LatestIsHighest(submissions: map<Id, Submission>, a: Id)
    ensures forall s :: s in submissions && submissions[s].assignment == a ==>
              submissions[s].version <= Workflow.LatestVersion(submissions, a)
    ensures Workflow.LatestVersion(submissions, a) == 0 ||
            exists s :: s in submissions && submissions[s].assignment == a &&
                        submissions[s].version == Workflow.LatestVersion(submissions, a)
  {
    forall s | s in submissions && submissions[s].assignment == a
      ensures submissions[s].version in Workflow.Versions(submissions, a)
    {
      assert s in SubmissionsOf(submissions, a);
    }
  }

  lemma SubmitKeepsOrder(assignments: map<Id, Assignment>, submissions: map<Id, Submission>, a: Id, id: Id,
                         y: Submission)
    requires SubmissionsFit(assignments, submissions) && VersionsOrdered(submissions)
    requires a in assignments && InProgressOrBack(assignments[a].status) && id !in submissions && y.assignment == a
    requires forall s :: s in submissions && submissions[s].assignment == a ==> submissions[s].version < y.version
    ensures VersionsOrdered(submissions + map[id := y])
  {
    forall s | s in submissions && submissions[s].assignment == a
      ensures submissions[s].status == ToChange
    {
      assert SubmissionFits(submissions[s], assignments);
    }
  }

  lemma SubmitKeepsCount(submissions: map<Id, Submission>, a: Id, id: Id, y: Submission)
    requires VersionsCounted(submissions) && id !in submissions && y.assignment == a
    requires y.version == Workflow.LatestVersion(submissions, a) + 1
    ensures VersionsCounted(submissions + map[id := y])
  {
    var after := submissions + map[id := y];
    LatestIsHighest(submissions, a);
    assert SubmissionsOf(after, a) == SubmissionsOf(submissions, a) + {id};
    forall s | s in after
      ensures 1 <= after[s].version <= |SubmissionsOf(after, after[s].assignment)|
    {
      if after[s].assignment != a {
        assert SubmissionsOf(after, after[s].assignment) == SubmissionsOf(submissions, after[s].assignment);
      }
    }
  }

  lemma SubmitKeepsMirror(assignments: map<Id, Assignment>, submissions: map<Id, Submission>, a: Id, x: Assignment,
                          id: Id, y: Submission)
    requires Mirrored(assignments, submissions) && id !in submissions
    requires x.status.Submitted? && y.assignment == a && y.status == Pending
    ensures Mirrored(assignments + map[a := x], submissions + map[id := y])
  {
    var after, more := assignments + map[a := x], submissions + map[id := y];
    forall b | b in after && Late(after[b].status)
      ensures HasMirror(more, b, after[b].status)
    {
      if b == a {
        assert more[id] == y;
      } else {
        assert HasMirror(submissions, b, assignments[b].status);
        var q :| q in submissions && submissions[q].assignment == b &&
          Mirror(submissions[q].status) == assignments[b].status;
        assert more[q] == submissions[q];
      }
    }
  }

  lemma SubmitKeepsReviewed(submissions: map<Id, Submission>, reviews: map<Id, Review>, id: Id, y: Submission)
    requires Reviewed(submissions, reviews) && id !in submissions && y.status == Pending
    ensures Reviewed(submissions + map[id := y], reviews)
  {
  }

  lemma {:induction false} CheckedItemsFit(a: Id, items: seq<Item>)
    requires Workflow.CheckItems(StorageKeys.FolderName(a), items).Ok?
    ensures forall k :: 0 <= k < |items| ==> ItemFits(items[k], a)
  {
    if items != [] {
      CheckedItemsFit(a, items[1..]);
      forall k | 0 <= k < |items|
        ensures ItemFits(items[k], a)
      {
        if k > 0 {
          assert items[k] == items[1..][k - 1];
        }
      }
    }
  }

  // ----- sessions and days ------------------------------------------------------------------

  lemma StartKeepsClock(contracts: map<Id, Contract>, assignments: map<Id, Assignment>, sessions: set<Session>,
                        submissions: map<Id, Submission>, t: Time, a: Id, x: Assignment, now: Time)
    requires Clocked(contracts, assignments, sessions, submissions, t) && SubmissionsFit(assignments, submissions)
    requires now <= t
    requires a in assignments && assignments[a].status.Accepted? && assignments[a].startedAt.None?
    requires x == assignments[a].(status := InProgress, startedAt := Some(now))
    ensures Clocked(contracts, assignments + map[a := x], sessions + {Session(a, DayOf(now))}, submissions, t)
  {
    var after, more := assignments + map[a := x], sessions + {Session(a, DayOf(now))};
    forall b | b in after
      ensures AssignmentClock(after[b], b, more, t)
    {
      assert AssignmentClock(assignments[b], b, sessions, t);
    }
    forall s | s in submissions
      ensures SubmissionClock(submissions[s], after, contracts)
    {
      assert SubmissionClock(submissions[s], assignments, contracts);
      assert SubmissionFits(submissions[s], assignments);
    }
  }

  lemma SessionKeepsClock(contracts: map<Id, Contract>, assignments: map<Id, Assignment>, sessions: set<Session>,
                          submissions: map<Id, Submission>, t: Time, a: Id, now: Time)
    requires Clocked(contracts, assignments, sessions, submissions, t) && now <= t
    requires a in assignments && assignments[a].startedAt.Some? && assignments[a].startedAt.value <= now
    ensures Clocked(contracts, assignments, sessions + {Session(a, DayOf(now))}, submissions, t)
  {
    var more := sessions + {Session(a, DayOf(now))};
    forall b | b in assignments
      ensures AssignmentClock(assignments[b], b, more, t)
    {
      assert AssignmentClock(assignments[b], b, sessions, t);
    }
  }

  /** Sessions on different days between the start and now: as many sessions, as many days. */
  lemma DaysPassed(a: Assignment, id: Id, sessions: set<Session>, now: Time)
    requires AssignmentClock(a, id, sessions, now) && a.startedAt.Some?
    ensures |Workflow.SessionDays(sessions, id)| <= DayOf(now) - DayOf(a.startedAt.value) + 1
  {
    var mine := Workflow.SessionDays(sessions, id);
    var days := set s | s in mine :: s.day;
    assert mine == set d | d in days :: Session(id, d) by {
      forall s | s in mine
        ensures s == Session(id, s.day) && s.day in days
      {
      }
    }
    SizeOfDays(mine, days, id);
    Sets.Interval(days, DayOf(a.startedAt.value), DayOf(now));
  }

  lemma {:induction false} SizeOfDays(mine: set<Session>, days: set<int>, id: Id)
    requires mine == set d | d in days :: Session(id, d)
    ensures |mine| == |days|
  {
    if |days| > 0 {
      var d := Sets.Pick(days);
      assert mine - {Session(id, d)} == set e | e in days - {d} :: Session(id, e);
      SizeOfDays(mine - {Session(id, d)}, days - {d}, id);
    } else {
      assert mine == {};
    }
  }

  lemma SubmitKeepsClock(contracts: map<Id, Contract>, assignments: map<Id, Assignment>, sessions: set<Session>,
                         submissions: map<Id, Submission>, t: Time, a: Id, x: Assignment, id: Id, y: Submission,
                         now: Time)
    requires Clocked(contracts, assignments, sessions, submissions, t)
    requires a in assignments && AssignmentClock(assignments[a], a, sessions, now) && assignments[a].startedAt.Some?
    requires assignments[a].campaign in contracts
    requires now >= assignments[a].startedAt.value + contracts[assignments[a].campaign].minimumDays * DAY
    requires |Workflow.SessionDays(sessions, a)| >= contracts[assignments[a].campaign].requiredSessions
    requires x == assignments[a].(status := Submitted, submittedAt := Some(now)) && id !in submissions
    requires y.assignment == a && y.submittedAt == now
    ensures Clocked(contracts, assignments + map[a := x], sessions, submissions + map[id := y], t)
  {
    DaysPassed(assignments[a], a, sessions, now);
    var k := contracts[assignments[a].campaign];
    DaysAfter(assignments[a].startedAt.value, now, k.minimumDays);
    assert LongEnough(x.startedAt, now, k);
    var after, more := assignments + map[a := x], submissions + map[id := y];
    forall b | b in after
      ensures AssignmentClock(after[b], b, sessions, t)
    {
      assert AssignmentClock(assignments[b], b, sessions, t);
    }
    forall s | s in more
      ensures SubmissionClock(more[s], after, contracts)
    {
      if s != id {
        assert SubmissionClock(submissions[s], assignments, contracts);
      }
    }
  }

  lemma DaysAfter(start: Time, now: Time, days: int)
    requires now >= start + days * DAY
    ensures DayOf(now) - DayOf(start) >= days
  {
    assert (start + days * DAY) / DAY == start / DAY + days;
  }

  // ----- contracts --------------------------------------------------------------------------

  predicate SameTerms(k: Contract, l: Contract) {
    k.minimumDays == l.minimumDays && k.requiredSessions == l.requiredSessions && k.tasks == l.tasks
  }

  /** Clocks and evidence depend on the terms of contracts that already have assignments. */
  lemma TermsStay(k1: map<Id, Contract>, k2: map<Id, Contract>, assignments: map<Id, Assignment>,
                  sessions: set<Session>,
                  submissions: map<Id, Submission>, t: Time)
    requires Clocked(k1, assignments, sessions, submissions, t) && Evidenced(k1, assignments, submissions)
    requires forall a :: a in assignments && assignments[a].campaign in k1 ==>
      assignments[a].campaign in k2 && SameTerms(k1[assignments[a].campaign], k2[assignments[a].campaign])
    ensures Clocked(k2, assignments, sessions, submissions, t) && Evidenced(k2, assignments, submissions)
  {
    forall s | s in submissions
      ensures SubmissionClock(submissions[s], assignments, k2) && EvidenceFits(submissions[s], assignments, k2)
    {
      assert SubmissionClock(submissions[s], assignments, k1) && EvidenceFits(submissions[s], assignments, k1);
    }
  }

  // ----- disputes ---------------------------------------------------------------------------

  lemma EscalateKeepsDisputes(assignments: map<Id, Assignment>, submissions: map<Id, Submission>,
                              reviews: map<Id, Review>,
                              disputes: map<Id, Dispute>, id: Id, d: Dispute)
    requires Disputes(assignments, submissions, reviews, disputes) && Reviewed(submissions, reviews)
    requires id !in disputes && !Workflow.HasDispute(disputes, d.assignment)
    requires d.assignment in assignments && d.submission.Some? && d.submission.value in submissions
    requires submissions[d.submission.value].assignment == d.assignment
    requires var status, s := assignments[d.assignment].status, submissions[d.submission.value].status;
             (status == Submitted && s == Pending) || (status == Rejected && s == Refused)
    requires d == Dispute(d.assignment, d.submission, assignments[d.assignment].tester, Open, None, None, None)
    ensures Disputes(assignments, submissions, reviews, disputes + map[id := d])
  {
    var more, s := disputes + map[id := d], d.submission.value;
    if submissions[s].status == Refused && s !in reviews {
      assert false;
    }
    assert DisputeFits(d, assignments, submissions, reviews);
    forall r | r in submissions && submissions[r].status == Refused && r !in reviews
      ensures HasClosedDispute(more, submissions[r].assignment)
    {
      ClosedStays(disputes, id, d, submissions[r].assignment);
    }
  }

  /** A dispute that is closed stays closed whatever happens to one that is not. */
  lemma ClosedStays(disputes: map<Id, Dispute>, id: Id, d: Dispute, a: Id)
    requires HasClosedDispute(disputes, a) && (id in disputes ==> disputes[id].IsActive())
    ensures HasClosedDispute(disputes + map[id := d], a)
  {
    var e :| e in disputes && disputes[e].assignment == a && !disputes[e].IsActive();
    assert (disputes + map[id := d])[e] == disputes[e];
  }

  lemma ClaimKeepsDisputes(assignments: map<Id, Assignment>, submissions: map<Id, Submission>, reviews: map<Id, Review>,
                           disputes: map<Id, Dispute>, id: Id, d: Dispute)
    requires Disputes(assignments, submissions, reviews, disputes)
    requires id in disputes && disputes[id].IsActive()
    requires d == disputes[id].(status := UnderReview, assignedTo := d.assignedTo) && d.assignedTo.Some?
    ensures Disputes(assignments, submissions, reviews, disputes + map[id := d])
  {
    assert DisputeFits(disputes[id], assignments, submissions, reviews);
    assert DisputeFits(d, assignments, submissions, reviews);
    forall r | r in submissions && submissions[r].status == Refused && r !in reviews
      ensures HasClosedDispute(disputes + map[id := d], submissions[r].assignment)
    {
      ClosedStays(disputes, id, d, submissions[r].assignment);
    }
  }

  /** An assignment under review by its owner has no dispute at all. */
  lemma NoDisputeYet(assignments: map<Id, Assignment>, submissions: map<Id, Submission>, reviews: map<Id, Review>,
                     disputes: map<Id, Dispute>, a: Id)
    requires Disputes(assignments, submissions, reviews, disputes)
    requires a in assignments && assignments[a].status.Submitted? && !Workflow.HasActiveDispute(disputes, a)
    ensures !Workflow.HasDispute(disputes, a)
  {
    forall d | d in disputes
      ensures disputes[d].assignment != a
    {
      assert DisputeFits(disputes[d], assignments, submissions, reviews);
    }
  }

  lemma ExamineKeepsDisputes(assignments: map<Id, Assignment>, submissions: map<Id, Submission>,
                             reviews: map<Id, Review>,
                             disputes: map<Id, Dispute>, a: Id, x: Assignment, s: Id, y: Submission, r: Review)
    requires Disputes(assignments, submissions, reviews, disputes)
    requires Decides(assignments, submissions, a, x, s, y) && !Workflow.HasDispute(disputes, a) && s !in reviews
    ensures Disputes(assignments + map[a := x], submissions + map[s := y], reviews + map[s := r], disputes)
  {
    forall d | d in disputes
      ensures DisputeFits(disputes[d], assignments + map[a := x], submissions + map[s := y], reviews + map[s := r])
    {
      assert DisputeFits(disputes[d], assignments, submissions, reviews);
    }
  }

  lemma ExamineKeepsReviewed(submissions: map<Id, Submission>, reviews: map<Id, Review>, s: Id, y: Submission,
                             r: Review)
    requires Reviewed(submissions, reviews) && s in submissions && s !in reviews
    requires ReviewFits(r.decision, y.status)
    ensures Reviewed(submissions + map[s := y], reviews + map[s := r])
  {
  }

  /** A ruling closes dispute `id`; the work ends up rejected or approved. */
  lemma RulingKeepsDisputes(assignments: map<Id, Assignment>, submissions: map<Id, Submission>,
                            reviews: map<Id, Review>,
                            disputes: map<Id, Dispute>, id: Id, d: Dispute, x: Assignment, s: Id, y: Submission)
    requires Disputes(assignments, submissions, reviews, disputes)
    requires id in disputes && disputes[id].IsActive() && disputes[id].submission == Some(s)
    requires d == disputes[id].(status := d.status, remedy := d.remedy, resolvedBy := d.resolvedBy) && !d.IsActive()
    requires d.assignedTo.Some? && d.resolvedBy == d.assignedTo
    requires d.remedy == Some(if x.status.Approved? then AwardTester else NoRemedy)
    requires Decides(assignments, submissions, d.assignment, x, s, y) && (x.status.Rejected? || x.status.Approved?)
    ensures Disputes(assignments + map[d.assignment := x], submissions + map[s := y], reviews, disputes + map[id := d])
  {
    hide Mirror, HasClosedDispute;
    RulingFits(assignments, submissions, reviews, disputes, id, d, x, s, y);
    RulingCloses(assignments, submissions, reviews, disputes, id, d, s, y);
    hide DisputeFits, Decides;
  }

  lemma RulingFits(assignments: map<Id, Assignment>, submissions: map<Id, Submission>, reviews: map<Id, Review>,
                   disputes: map<Id, Dispute>, id: Id, d: Dispute, x: Assignment, s: Id, y: Submission)
    requires Disputes(assignments, submissions, reviews, disputes)
    requires id in disputes && disputes[id].IsActive() && disputes[id].submission == Some(s)
    requires d == disputes[id].(status := d.status, remedy := d.remedy, resolvedBy := d.resolvedBy) && !d.IsActive()
    requires d.assignedTo.Some? && d.resolvedBy == d.assignedTo
    requires d.remedy == Some(if x.status.Approved? then AwardTester else NoRemedy)
    requires Decides(assignments, submissions, d.assignment, x, s, y) && (x.status.Rejected? || x.status.Approved?)
    ensures var a2, s2, d2 := assignments + map[d.assignment := x], submissions + map[s := y], disputes + map[id := d];
            forall e :: e in d2 ==> DisputeFits(d2[e], a2, s2, reviews)
  {
    var a2, s2, d2 := assignments + map[d.assignment := x], submissions + map[s := y], disputes + map[id := d];
    forall e | e in d2
      ensures DisputeFits(d2[e], a2, s2, reviews)
    {
      assert DisputeFits(disputes[e], assignments, submissions, reviews);
    }
  }

  lemma RulingCloses(assignments: map<Id, Assignment>, submissions: map<Id, Submission>, reviews: map<Id, Review>,
                     disputes: map<Id, Dispute>, id: Id, d: Dispute, s: Id, y: Submission)
    requires Disputes(assignments, submissions, reviews, disputes)
    requires id in disputes && disputes[id].IsActive() && !d.IsActive()
    requires s in submissions && y.assignment == submissions[s].assignment && d.assignment == y.assignment
    ensures var s2, d2 := submissions + map[s := y], disputes + map[id := d];
            forall r :: r in s2 && s2[r].status == Refused && r !in reviews ==> HasClosedDispute(d2, s2[r].assignment)
  {
    hide DisputeFits;
    var s2, d2 := submissions + map[s := y], disputes + map[id := d];
    forall r | r in s2 && s2[r].status == Refused && r !in reviews
      ensures HasClosedDispute(d2, s2[r].assignment)
    {
      if r == s {
        assert d2[id] == d;
      } else {
        ClosedStays(disputes, id, d, submissions[r].assignment);
      }
    }
  }

  lemma RulingKeepsReviewed(submissions: map<Id, Submission>, reviews: map<Id, Review>, s: Id, y: Submission)
    requires Reviewed(submissions, reviews) && s in submissions
    requires s in reviews ==> reviews[s].decision == Reject
    requires y.status == Refused || y.status == Passed
    ensures Reviewed(submissions + map[s := y], reviews)
  {
  }

  // ----- approvals --------------------------------------------------------------------------

  lemma ApproveKeepsLedgered(grant: int, profiles: map<Id, string>, campaigns: map<Id, Campaign>,
                             assignments: map<Id, Assignment>, ledger: seq<Entry>, a: Id, x: Assignment)
    requires Ledgered(grant, profiles, campaigns, assignments, ledger)
    requires a in assignments && IsVerdict(assignments[a], x) && x.status.Approved? && x.campaign in campaigns
    ensures !Credits.HasKey(ledger, RewardKey(a))
    ensures Ledgered(grant, profiles, campaigns, assignments + map[a := x],
                     ledger + [Credits.RewardEntry(a, x.tester, campaigns[x.campaign].reward)])
  {
    var after := assignments + map[a := x];
    forall i | 0 <= i < |ledger|
      ensures ledger[i].key != RewardKey(a) && EntryFits(ledger[i], grant, profiles, campaigns, after)
    {
      assert EntryFits(ledger[i], grant, profiles, campaigns, assignments);
    }
    AppendKeepsLedgered(grant, profiles, campaigns, assignments, profiles, campaigns, after, ledger,
                        Credits.RewardEntry(a, x.tester, campaigns[x.campaign].reward));
  }

  lemma ApproveKeepsBooked(campaigns: map<Id, Campaign>, assignments: map<Id, Assignment>, ledger: seq<Entry>, a: Id,
                           x: Assignment)
    requires Booked(campaigns, assignments, ledger)
    requires a in assignments && IsVerdict(assignments[a], x) && x.status.Approved?
    requires x.campaign in campaigns && campaigns[x.campaign].status != Draft
    ensures Booked(campaigns, assignments + map[a := x],
                   ledger + [Credits.RewardEntry(a, x.tester, campaigns[x.campaign].reward)])
  {
    var after, c := assignments + map[a := x], x.campaign;
    OneMoreApproved(assignments, a, x);
    forall d | d in campaigns && d != c
      ensures |WithStatus(after, d, {Approved})| == |WithStatus(assignments, d, {Approved})|
    {
      OtherCampaign(assignments, a, x, d);
    }
    hide WithStatus, Net;
    NetChange(campaigns, assignments, campaigns, after, c);
    OneMoreReward(campaigns[c].reward, |WithStatus(assignments, c, {Approved})|, campaigns[c].target);
    hide Credits.Total, Credits.Grants;
    Credits.Append(ledger, Credits.RewardEntry(a, x.tester, campaigns[c].reward));
  }

  lemma OneMoreApproved(assignments: map<Id, Assignment>, a: Id, x: Assignment)
    requires a in assignments && !assignments[a].status.Approved? && x.status.Approved?
    ensures |WithStatus(assignments + map[a := x], x.campaign, {Approved})| ==
            |WithStatus(assignments, x.campaign, {Approved})| + 1
  {
    WithStatusUpdate(assignments, a, x, x.campaign, {Approved});
    assert a !in WithStatus(assignments, x.campaign, {Approved});
  }

  lemma OneMoreReward(reward: int, approved: int, target: int)
    ensures reward * (approved + 1 - target) == reward * (approved - target) + reward
  {
  }

  /** A verdict on pending work takes no further place. */
  lemma VerdictPlaces(assignments: map<Id, Assignment>, a: Id, x: Assignment, c: Id)
    requires a in assignments && IsVerdict(assignments[a], x) && assignments[a].status.Submitted?
    ensures Occupied(assignments + map[a := x], c) <= Occupied(assignments, c)
  {
    WithStatusUpdate(assignments, a, x, c, OCCUPIED);
    Sets.SubsetSize(WithStatus(assignments + map[a := x], c, OCCUPIED), WithStatus(assignments, c, OCCUPIED));
  }

  /** Awarding rejected work takes a place and adds an override. */
  lemma AwardKeepsCapacity(campaigns: map<Id, Campaign>, assignments: map<Id, Assignment>,
                           submissions: map<Id, Submission>,
                           reviews: map<Id, Review>, a: Id, x: Assignment, s: Id, y: Submission)
    requires Capacity(campaigns, assignments, submissions, reviews)
    requires Decides(assignments, submissions, a, x, s, y) && x.status.Approved?
    requires assignments[a].status.Rejected? && s in reviews && reviews[s].decision == Reject
    ensures Capacity(campaigns, assignments + map[a := x], submissions + map[s := y], reviews)
  {
    var a2, s2 := assignments + map[a := x], submissions + map[s := y];
    forall c | c in campaigns
      ensures Occupied(a2, c) <= campaigns[c].target + |Overrides(a2, s2, reviews, c)|
    {
      WithStatusUpdate(assignments, a, x, c, OCCUPIED);
      OverridesGrow(assignments, a2, submissions, s2, reviews, reviews, c);
      var before, after := Overrides(assignments, submissions, reviews, c), Overrides(a2, s2, reviews, c);
      if x.campaign == c {
        assert s2[s] == y && Overridden(s2, reviews, a);
        assert a in after && a !in before;
        Sets.SubsetSize(before + {a}, after);
      } else {
        Sets.SubsetSize(before, after);
      }
    }
  }

  lemma SettleRestatus(campaigns: map<Id, Campaign>, c: Id, assignments: map<Id, Assignment>)
    requires c in campaigns
    ensures Restatus(campaigns, campaigns + map[c := Campaigns.MaybeComplete(campaigns[c], c, assignments)])
  {
  }

  // ----- publishing and drafting ------------------------------------------------------------

  lemma NoWorkOnDrafts(profiles: map<Id, string>, campaigns: map<Id, Campaign>, assignments: map<Id, Assignment>, c: Id)
    requires Assigned(profiles, campaigns, assignments)
    requires c in campaigns ==> campaigns[c].status == Draft
    ensures forall a :: a in assignments ==> assignments[a].campaign != c
    ensures forall statuses :: WithStatus(assignments, c, statuses) == {}
    ensures EverAccepted(assignments, c) == {}
  {
    forall a | a in assignments
      ensures assignments[a].campaign != c
    {
      assert AssignmentFits(assignments[a], profiles, campaigns);
    }
  }

  /** A campaign row is written while it is a draft, or as it leaves that state. */
  ghost predicate Drafts(campaigns: map<Id, Campaign>, c: Id, x: Campaign) {
    && (c in campaigns ==> campaigns[c].status == Draft)
    && x.target >= 1 && x.reward >= 1
    && (x.status == Draft <==> x.publishedAt.None?)
  }

  lemma DraftKeepsAssigned(profiles: map<Id, string>, campaigns: map<Id, Campaign>, assignments: map<Id, Assignment>,
                           c: Id, x: Campaign)
    requires Assigned(profiles, campaigns, assignments) && Drafts(campaigns, c, x)
    ensures Assigned(profiles, campaigns + map[c := x], assignments)
  {
    NoWorkOnDrafts(profiles, campaigns, assignments, c);
    forall a | a in assignments
      ensures AssignmentFits(assignments[a], profiles, campaigns + map[c := x])
    {
      assert AssignmentFits(assignments[a], profiles, campaigns);
    }
  }

  lemma DraftKeepsCapacity(profiles: map<Id, string>, campaigns: map<Id, Campaign>, assignments: map<Id, Assignment>,
                           submissions: map<Id, Submission>, reviews: map<Id, Review>, c: Id, x: Campaign)
    requires Assigned(profiles, campaigns, assignments) && Drafts(campaigns, c, x)
    requires Capacity(campaigns, assignments, submissions, reviews)
    ensures Capacity(campaigns + map[c := x], assignments, submissions, reviews)
  {
    NoWorkOnDrafts(profiles, campaigns, assignments, c);
  }

  lemma DraftKeepsProgress(profiles: map<Id, string>, campaigns: map<Id, Campaign>, assignments: map<Id, Assignment>,
                           c: Id, x: Campaign)
    requires Assigned(profiles, campaigns, assignments) && Drafts(campaigns, c, x)
    requires Progress(campaigns, assignments)
    ensures Progress(campaigns + map[c := x], assignments)
  {
    NoWorkOnDrafts(profiles, campaigns, assignments, c);
    forall d | d in campaigns + map[c := x]
      ensures ProgressFits((campaigns + map[c := x])[d], d, assignments)
    {
      if d != c {
        assert ProgressFits(campaigns[d], d, assignments);
      }
    }
  }

  lemma DraftKeepsEntries(grant: int, profiles: map<Id, string>, campaigns: map<Id, Campaign>,
                          assignments: map<Id, Assignment>,
                          ledger: seq<Entry>, c: Id, x: Campaign)
    requires Ledgered(grant, profiles, campaigns, assignments, ledger) && Assigned(profiles, campaigns, assignments)
    requires Drafts(campaigns, c, x)
    ensures forall i :: 0 <= i < |ledger| ==>
              EntryFits(ledger[i], grant, profiles, campaigns + map[c := x], assignments)
    ensures !Credits.HasKey(ledger, PostingKey(c))
  {
    NoWorkOnDrafts(profiles, campaigns, assignments, c);
    forall i | 0 <= i < |ledger|
      ensures EntryFits(ledger[i], grant, profiles, campaigns + map[c := x], assignments)
      ensures ledger[i].key != PostingKey(c)
    {
      assert EntryFits(ledger[i], grant, profiles, campaigns, assignments);
    }
  }

  lemma DraftKeepsLedgered(grant: int, profiles: map<Id, string>, campaigns: map<Id, Campaign>,
                           assignments: map<Id, Assignment>,
                           ledger: seq<Entry>, c: Id, x: Campaign)
    requires Ledgered(grant, profiles, campaigns, assignments, ledger) && Assigned(profiles, campaigns, assignments)
    requires Drafts(campaigns, c, x) && x.status == Draft
    ensures Ledgered(grant, profiles, campaigns + map[c := x], assignments, ledger)
  {
    DraftKeepsEntries(grant, profiles, campaigns, assignments, ledger, c, x);
  }

  lemma PublishKeepsLedgered(grant: int, profiles: map<Id, string>, campaigns: map<Id, Campaign>,
                             assignments: map<Id, Assignment>,
                             ledger: seq<Entry>, c: Id, x: Campaign)
    requires Ledgered(grant, profiles, campaigns, assignments, ledger) && Assigned(profiles, campaigns, assignments)
    requires Drafts(campaigns, c, x) && x.status == Published
    ensures Ledgered(grant, profiles, campaigns + map[c := x], assignments, ledger + [Campaigns.PostingEntry(c, x)])
  {
    DraftKeepsEntries(grant, profiles, campaigns, assignments, ledger, c, x);
    AppendKeepsLedgered(grant, profiles, campaigns, assignments, profiles, campaigns + map[c := x], assignments, ledger,
                        Campaigns.PostingEntry(c, x));
  }

  lemma DraftKeepsBooked(profiles: map<Id, string>, campaigns: map<Id, Campaign>, assignments: map<Id, Assignment>,
                         ledger: seq<Entry>, c: Id, x: Campaign)
    requires Booked(campaigns, assignments, ledger) && Assigned(profiles, campaigns, assignments)
    requires Drafts(campaigns, c, x) && x.status == Draft
    ensures Booked(campaigns + map[c := x], assignments, ledger)
  {
    if c in campaigns {
      SameNet(campaigns, assignments, campaigns + map[c := x], assignments);
    } else {
      NetOfNew(campaigns, assignments, c, x);
    }
  }

  lemma NetOfNew(campaigns: map<Id, Campaign>, assignments: map<Id, Assignment>, c: Id, x: Campaign)
    requires c !in campaigns && x.status == Draft
    ensures Net(campaigns + map[c := x], assignments) == Net(campaigns, assignments)
  {
    hide Sets.Sum, WithStatus;
    var more := campaigns + map[c := x];
    var f := d => if d in campaigns then Term(campaigns[d], |WithStatus(assignments, d, {Approved})|) else 0;
    var g := d => if d in more then Term(more[d], |WithStatus(assignments, d, {Approved})|) else 0;
    assert more.Keys - {c} == campaigns.Keys;
    assert g(c) == 0;
    hide Term;
    Sets.SumSplit(more.Keys, g, c);
    Sets.SumSame(campaigns.Keys, f, g);
  }

  lemma SpentUpFront(x: Campaign)
    requires x.status == Published
    ensures Term(x, 0) == -(x.target * x.reward)
  {
    assert x.reward * (0 - x.target) == -(x.target * x.reward);
  }

  lemma PublishKeepsBooked(profiles: map<Id, string>, campaigns: map<Id, Campaign>, assignments: map<Id, Assignment>,
                           ledger: seq<Entry>, c: Id, x: Campaign)
    requires Booked(campaigns, assignments, ledger) && Assigned(profiles, campaigns, assignments)
    requires c in campaigns && Drafts(campaigns, c, x) && x.status == Published
    ensures Booked(campaigns + map[c := x], assignments, ledger + [Campaigns.PostingEntry(c, x)])
  {
    Credits.Append(ledger, Campaigns.PostingEntry(c, x));
    NoWorkOnDrafts(profiles, campaigns, assignments, c);
    NetChange(campaigns, assignments, campaigns + map[c := x], assignments, c);
    SpentUpFront(x);
    hide Net, Credits.Total, Credits.Grants, WithStatus;
  }

  // ----- profiles ---------------------------------------------------------------------------

  lemma NoEntriesNoBalance(ledger: seq<Entry>, u: Id)
    requires forall i :: 0 <= i < |ledger| ==> ledger[i].user != u
    ensures Credits.Balance(ledger, u) == 0
  {
  }

  lemma OpenAccountKeepsBalanced(profiles: map<Id, string>, accounts: map<Id, int>, ledger: seq<Entry>, u: Id,
                                 name: string)
    requires Balanced(profiles, accounts, ledger) && u !in profiles
    ensures Balanced(profiles + map[u := name], accounts + map[u := 0], ledger)
  {
    NoEntriesNoBalance(ledger, u);
    assert (accounts + map[u := 0]).Keys == accounts.Keys + {u};
    assert (profiles + map[u := name]).Keys == profiles.Keys + {u};
  }

  lemma MoreProfiles(p1: map<Id, string>, p2: map<Id, string>, campaigns: map<Id, Campaign>,
                     contracts: map<Id, Contract>,
                     assignments: map<Id, Assignment>)
    requires Drafted(p1, campaigns, contracts) && Assigned(p1, campaigns, assignments)
    requires forall u :: u in p1 ==> u in p2
    ensures Drafted(p2, campaigns, contracts) && Assigned(p2, campaigns, assignments)
  {
    forall c | c in campaigns
      ensures CampaignFits(campaigns[c], c, p2, contracts)
    {
      assert CampaignFits(campaigns[c], c, p1, contracts);
    }
    forall a | a in assignments
      ensures AssignmentFits(assignments[a], p2, campaigns)
    {
      assert AssignmentFits(assignments[a], p1, campaigns);
    }
  }

  lemma MoreProfilesEntries(grant: int, p1: map<Id, string>, p2: map<Id, string>, campaigns: map<Id, Campaign>,
                            assignments: map<Id, Assignment>, ledger: seq<Entry>)
    requires Ledgered(grant, p1, campaigns, assignments, ledger)
    requires forall u :: u in p1 ==> u in p2
    ensures forall i :: 0 <= i < |ledger| ==> EntryFits(ledger[i], grant, p2, campaigns, assignments)
  {
    forall i | 0 <= i < |ledger|
      ensures EntryFits(ledger[i], grant, p2, campaigns, assignments)
    {
      assert EntryFits(ledger[i], grant, p1, campaigns, assignments);
    }
  }

  lemma JoinKeepsLedgered(grant: int, profiles: map<Id, string>, campaigns: map<Id, Campaign>,
                          assignments: map<Id, Assignment>,
                          ledger: seq<Entry>, u: Id, name: string)
    requires Ledgered(grant, profiles, campaigns, assignments, ledger) && u !in profiles && grant >= 0
    ensures !Credits.HasKey(ledger, SignupKey(u))
    ensures Ledgered(grant, profiles + map[u := name], campaigns, assignments,
                     if grant > 0 then ledger + [Entry(u, grant, SignupGrant, SignupKey(u))] else ledger)
  {
    var more := profiles + map[u := name];
    MoreProfilesEntries(grant, profiles, more, campaigns, assignments, ledger);
    forall i | 0 <= i < |ledger|
      ensures ledger[i].key != SignupKey(u)
    {
      assert EntryFits(ledger[i], grant, profiles, campaigns, assignments);
    }
    if grant > 0 {
      AppendKeepsLedgered(grant, profiles, campaigns, assignments, more, campaigns, assignments, ledger,
                          Entry(u, grant, SignupGrant, SignupKey(u)));
    }
  }
}
