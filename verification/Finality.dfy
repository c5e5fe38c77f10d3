/** What never changes again, and how often an assignment can change at all. */
module Finality {
  import opened Model
  import opened Evolution
  import opened Invariants
  import opened Histories
  import opened RowLocks
  import Lifecycles
  import Preservation
  import Workflow

  /** Approved, cancelled, or rejected with the dispute closed. */
  ghost predicate Final(db: Db, a: Id)
    requires a in db.assignments
  {
    || db.assignments[a].status == Approved
    || db.assignments[a].status == Cancelled
    || (db.assignments[a].status == Rejected && HasClosedDispute(db.disputes, a))
  }

  lemma FinalRests(cfg: Config, before: Db, after: Db, t: Time, a: Id)
    requires Inv(cfg, before, t) && Lifecycles.Advances(before, after)
    requires a in before.assignments && Final(before, a)
    ensures a in after.assignments && after.assignments[a] == before.assignments[a] && Final(after, a)
  {
    hide Inv;
    Preservation.Parts(cfg, before, t);
    hide *;
    FinalRow(before, after, a);
  }

  lemma FinalRow(before: Db, after: Db, a: Id)
    requires Disputes(before.assignments, before.submissions, before.reviews, before.disputes)
    requires Lifecycles.Advances(before, after)
    requires a in before.assignments && Final(before, a)
    ensures a in after.assignments && after.assignments[a] == before.assignments[a] && Final(after, a)
  {
    hide Lifecycles.NewAssignmentsFollow, Lifecycles.CampaignsFollow, Lifecycles.ReviewsFollow, Lifecycles.Turns;
    assert Lifecycles.Follows(before, after, a);
    if before.assignments[a].status == Rejected {
      var d :| d in before.disputes && before.disputes[d].assignment == a && !before.disputes[d].IsActive();
      assert Lifecycles.DisputeFollows(before.disputes[d], after.disputes[d]);
      assert forall e :: e in before.disputes && before.disputes[e].assignment == a ==> e == d;
      assert !Workflow.HasActiveDispute(before.disputes, a);
    }
  }

  /** A final assignment is never touched again, whatever else goes on. */
  lemma {:induction false} FinalIsFinal(cfg: Config, start: Time, actions: seq<Action>, k: nat, a: Id)
    requires k <= |actions|
    requires a in AfterAll(cfg, start, actions[..k]).db.assignments && Final(AfterAll(cfg, start, actions[..k]).db, a)
    ensures var early, late := AfterAll(cfg, start, actions[..k]).db, AfterAll(cfg, start, actions).db;
            a in late.assignments && late.assignments[a] == early.assignments[a] && Final(late, a)
  {
    if k == |actions| {
      assert actions[..k] == actions;
    } else {
      var before := actions[..|actions| - 1];
      assert before[..k] == actions[..k];
      FinalIsFinal(cfg, start, before, k, a);
      EveryInterleavingKeeps(cfg, start, before);
      var now := AfterAll(cfg, start, before);
      assert AfterAll(cfg, start, actions) == Do(cfg, now, actions[|actions| - 1]);
      hide Inv, Do, AfterAll, AllFit, Exclusive, Final;
      DoAdvances(cfg, now, actions[|actions| - 1]);
      FinalRests(cfg, now.db, AfterAll(cfg, start, actions).db, now.clock, a);
    }
  }

  // ----- how often --------------------------------------------------------------------------

  /** How far along its life an assignment is, within one turn. */
  function Rank(s: AssignmentStatus): nat {
    match s
    case Applied => 0
    case Accepted => 1
    case InProgress => 2
    case Submitted => 3
    case ChangesRequested => 2
    case Rejected => 4
    case Approved => 5
    case Cancelled => 5
  }

  function Potential(db: Db, a: Id): nat
    requires a in db.assignments
  {
    2 * Lifecycles.Turns(db.submissions, a) + Rank(db.assignments[a].status)
  }

  predicate Changed(before: Db, after: Db, a: Id) {
    a in before.assignments && a in after.assignments && before.assignments[a].status != after.assignments[a].status
  }

  /** How many actions changed the status of an assignment. */
  function Changes(cfg: Config, start: Time, actions: seq<Action>, a: Id): nat {
    if actions == [] then 0
    else
      var before := actions[..|actions| - 1];
      Changes(cfg, start, before, a) +
      if Changed(AfterAll(cfg, start, before).db, AfterAll(cfg, start, actions).db, a) then 1 else 0
  }

  lemma PotentialGrows(before: Db, after: Db, a: Id)
    requires Lifecycles.Advances(before, after) && a in before.assignments
    ensures a in after.assignments
    ensures Potential(after, a) >= Potential(before, a) + if Changed(before, after, a) then 1 else 0
  {
    hide Lifecycles.NewAssignmentsFollow, Lifecycles.DisputesFollow, Lifecycles.CampaignsFollow;
    hide Lifecycles.ReviewsFollow, Lifecycles.Turns;
    assert Lifecycles.Follows(before, after, a);
  }

  lemma {:induction false} ChangesAreBounded(cfg: Config, start: Time, actions: seq<Action>, a: Id)
    ensures var db := AfterAll(cfg, start, actions).db;
            if a in db.assignments then Changes(cfg, start, actions, a) <= Potential(db, a)
            else Changes(cfg, start, actions, a) == 0
  {
    if actions != [] {
      var before := actions[..|actions| - 1];
      ChangesAreBounded(cfg, start, before, a);
      EveryInterleavingKeeps(cfg, start, before);
      var now := AfterAll(cfg, start, before);
      assert AfterAll(cfg, start, actions) == Do(cfg, now, actions[|actions| - 1]);
      hide Consistent, Do, AfterAll, Potential;
      DoAdvances(cfg, now, actions[|actions| - 1]);
      if a in now.db.assignments {
        PotentialGrows(now.db, AfterAll(cfg, start, actions).db, a);
      }
    }
  }

  /** An assignment that was sent back k times changed its status at most 2k + 5 times: the only
      way round is from submitted to changes requested and back. */
  lemma AtMostTwicePerTurn(cfg: Config, start: Time, actions: seq<Action>, a: Id)
    requires a in AfterAll(cfg, start, actions).db.assignments
    ensures Changes(cfg, start, actions, a) <= 2 * Lifecycles.Turns(AfterAll(cfg, start, actions).db.submissions, a) + 5
  {
    ChangesAreBounded(cfg, start, actions, a);
    hide Changes, AfterAll, Lifecycles.Turns;
  }

  /** A completed campaign stays as it is; a published one is never a draft again, and its owner,
      its target, its reward and its contract never change. */
  lemma TermsAreFrozen(cfg: Config, start: Time, actions: seq<Action>, k: nat, c: Id)
    requires k <= |actions|
    requires var early := AfterAll(cfg, start, actions[..k]).db;
             c in early.campaigns && early.campaigns[c].status != Draft
    ensures var early, late := AfterAll(cfg, start, actions[..k]).db, AfterAll(cfg, start, actions).db;
            && c in late.campaigns && late.campaigns[c].status != Draft
            && late.campaigns[c].owner == early.campaigns[c].owner
            && late.campaigns[c].target == early.campaigns[c].target
            && late.campaigns[c].reward == early.campaigns[c].reward
            && c in early.contracts && c in late.contracts && late.contracts[c] == early.contracts[c]
            && late.contracts[c].locked && late.contracts[c].tasks != []
  {
    var early, late := AfterAll(cfg, start, actions[..k]), AfterAll(cfg, start, actions);
    EveryInterleavingKeeps(cfg, start, actions[..k]);
    hide Inv, Do, AfterAll, AllFit, Exclusive;
    Onwards(cfg, start, actions, k);
    hide Evolves;
    Frozen(early.db, late.db, c);
    Preservation.Parts(cfg, early.db, early.clock);
    LockedTerms(early.db.profiles, early.db.campaigns, early.db.contracts, c);
  }

  lemma Frozen(early: Db, late: Db, c: Id)
    requires Evolves(early, late, {}) && c in early.campaigns && early.campaigns[c].status != Draft
    ensures c in late.campaigns && CampaignEvolves(early.campaigns[c], late.campaigns[c], false)
    ensures c in early.contracts <==> c in late.contracts
    ensures c in early.contracts ==> late.contracts[c] == early.contracts[c]
  {
    hide AssignmentsEvolve, SubmissionsEvolve, ReviewsEvolve, DisputesEvolve, SessionsEvolve, AccountsEvolve;
    assert CampaignEvolves(early.campaigns[c], late.campaigns[c], CampaignRow(c) in {});
  }

  lemma LockedTerms(profiles: map<Id, string>, campaigns: map<Id, Campaign>, contracts: map<Id, Contract>, c: Id)
    requires Drafted(profiles, campaigns, contracts) && c in campaigns && campaigns[c].status != Draft
    ensures c in contracts && contracts[c].locked && contracts[c].tasks != []
  {
    assert CampaignFits(campaigns[c], c, profiles, contracts);
  }

  lemma {:induction false} CompletedForGood(cfg: Config, start: Time, actions: seq<Action>, k: nat, c: Id)
    requires k <= |actions|
    requires var early := AfterAll(cfg, start, actions[..k]).db;
             c in early.campaigns && early.campaigns[c].status == Completed
    ensures var early, late := AfterAll(cfg, start, actions[..k]).db, AfterAll(cfg, start, actions).db;
            c in late.campaigns && late.campaigns[c] == early.campaigns[c]
  {
    if k == |actions| {
      assert actions[..k] == actions;
    } else {
      var before := actions[..|actions| - 1];
      assert before[..k] == actions[..k];
      CompletedForGood(cfg, start, before, k, c);
      EveryInterleavingKeeps(cfg, start, before);
      var now := AfterAll(cfg, start, before);
      assert AfterAll(cfg, start, actions) == Do(cfg, now, actions[|actions| - 1]);
      hide Consistent, Do, AfterAll;
      DoAdvances(cfg, now, actions[|actions| - 1]);
      hide Lifecycles.AssignmentsFollow, Lifecycles.NewAssignmentsFollow, Lifecycles.DisputesFollow;
      hide Lifecycles.ReviewsFollow;
    }
  }
}
