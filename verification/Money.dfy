/** Credits against lifecycles, in every reachable database. */
module Money {
  import opened Model
  import opened Results
  import opened Invariants
  import opened Histories
  import opened Requests
  import Agreement
  import Campaigns
  import Credits
  import Lifecycles
  import Moderation
  import Preservation
  import Sets
  import Success
  import Workflow

  /** The places in the ledger where a key was posted. */
  function Posted(ledger: seq<Entry>, key: EntryKey): set<int> {
    set i | 0 <= i < |ledger| && ledger[i].key == key
  }

  lemma PostedOnce(ledger: seq<Entry>, key: EntryKey)
    requires forall i, j :: 0 <= i < j < |ledger| ==> ledger[i].key != ledger[j].key
    ensures |Posted(ledger, key)| == if Credits.HasKey(ledger, key) then 1 else 0
  {
    if Credits.HasKey(ledger, key) {
      var i :| 0 <= i < |ledger| && ledger[i].key == key;
      assert Posted(ledger, key) == {i};
    } else {
      assert Posted(ledger, key) == {};
    }
  }

  // ----- one entry for each event -----------------------------------------------------------

  lemma LedgerParts(cfg: Config, db: Db, t: Time)
    requires Reachable(cfg, db, t)
    ensures Ledgered(cfg.signupGrant, db.profiles, db.campaigns, db.assignments, db.ledger)
    ensures Assigned(db.profiles, db.campaigns, db.assignments)
    ensures Balanced(db.profiles, db.accounts, db.ledger)
    ensures Booked(db.campaigns, db.assignments, db.ledger)
  {
    ReachableHolds(cfg, db, t);
    hide *;
    Preservation.Parts(cfg, db, t);
  }

  /** Exactly the approved assignments are paid, once each, to their tester, with the reward of
      their campaign. */
  lemma RewardsAreApprovals(cfg: Config, db: Db, t: Time, a: Id)
    requires Reachable(cfg, db, t) && a in db.assignments
    ensures |Posted(db.ledger, RewardKey(a))| == if db.assignments[a].status == Approved then 1 else 0
    ensures db.assignments[a].campaign in db.campaigns
    ensures forall i :: i in Posted(db.ledger, RewardKey(a)) ==>
              db.ledger[i] == Credits.RewardEntry(a, db.assignments[a].tester,
                                                  db.campaigns[db.assignments[a].campaign].reward)
  {
    hide *;
    LedgerParts(cfg, db, t);
    Preservation.RowFits(db.profiles, db.campaigns, db.assignments, a);
    CampaignExists(db.profiles, db.campaigns, db.assignments, a);
    RewardsPosted(cfg.signupGrant, db.profiles, db.campaigns, db.assignments, db.ledger, a);
  }

  lemma CampaignExists(profiles: map<Id, string>, campaigns: map<Id, Campaign>, assignments: map<Id, Assignment>, a: Id)
    requires Assigned(profiles, campaigns, assignments) && a in assignments
    ensures assignments[a].campaign in campaigns
  {
    assert AssignmentFits(assignments[a], profiles, campaigns);
  }

  lemma RewardsPosted(grant: int, profiles: map<Id, string>, campaigns: map<Id, Campaign>,
                      assignments: map<Id, Assignment>, ledger: seq<Entry>, a: Id)
    requires Ledgered(grant, profiles, campaigns, assignments, ledger)
    requires a in assignments && assignments[a].campaign in campaigns
    ensures |Posted(ledger, RewardKey(a))| == if assignments[a].status == Approved then 1 else 0
    ensures forall i :: i in Posted(ledger, RewardKey(a)) ==>
              ledger[i] == Credits.RewardEntry(a, assignments[a].tester, campaigns[assignments[a].campaign].reward)
  {
    PostedOnce(ledger, RewardKey(a));
    forall i | 0 <= i < |ledger|
      ensures EntryFits(ledger[i], grant, profiles, campaigns, assignments)
    {
    }
  }

  /** Exactly the published campaigns were paid for, once each, by their owner. */
  lemma PostingsArePublications(cfg: Config, db: Db, t: Time, c: Id)
    requires Reachable(cfg, db, t) && c in db.campaigns
    ensures |Posted(db.ledger, PostingKey(c))| == if db.campaigns[c].status != Draft then 1 else 0
    ensures forall i :: i in Posted(db.ledger, PostingKey(c)) ==>
              db.ledger[i] ==
              Entry(db.campaigns[c].owner, -(db.campaigns[c].target * db.campaigns[c].reward), Posting, PostingKey(c))
  {
    hide *;
    LedgerParts(cfg, db, t);
    SpendsPosted(cfg.signupGrant, db.profiles, db.campaigns, db.assignments, db.ledger, c);
  }

  lemma SpendsPosted(grant: int, profiles: map<Id, string>, campaigns: map<Id, Campaign>,
                     assignments: map<Id, Assignment>, ledger: seq<Entry>, c: Id)
    requires Ledgered(grant, profiles, campaigns, assignments, ledger) && c in campaigns
    ensures |Posted(ledger, PostingKey(c))| == if campaigns[c].status != Draft then 1 else 0
    ensures forall i :: i in Posted(ledger, PostingKey(c)) ==>
              ledger[i] == Entry(campaigns[c].owner, -(campaigns[c].target * campaigns[c].reward), Posting,
                                 PostingKey(c))
  {
    PostedOnce(ledger, PostingKey(c));
    forall i | 0 <= i < |ledger|
      ensures EntryFits(ledger[i], grant, profiles, campaigns, assignments)
    {
    }
  }

  /** Exactly the profiles were granted the starting credits, once each, if there is a grant. */
  lemma GrantsAreProfiles(cfg: Config, db: Db, t: Time, u: Id)
    requires Reachable(cfg, db, t)
    ensures |Posted(db.ledger, SignupKey(u))| == if u in db.profiles && cfg.signupGrant > 0 then 1 else 0
    ensures forall i :: i in Posted(db.ledger, SignupKey(u)) ==>
              db.ledger[i] == Entry(u, cfg.signupGrant, SignupGrant, SignupKey(u))
  {
    hide *;
    LedgerParts(cfg, db, t);
    GrantsPosted(cfg.signupGrant, db.profiles, db.campaigns, db.assignments, db.ledger, u);
  }

  lemma GrantsPosted(grant: int, profiles: map<Id, string>, campaigns: map<Id, Campaign>,
                     assignments: map<Id, Assignment>, ledger: seq<Entry>, u: Id)
    requires Ledgered(grant, profiles, campaigns, assignments, ledger)
    ensures |Posted(ledger, SignupKey(u))| == if u in profiles && grant > 0 then 1 else 0
    ensures forall i :: i in Posted(ledger, SignupKey(u)) ==> ledger[i] == Entry(u, grant, SignupGrant, SignupKey(u))
  {
    PostedOnce(ledger, SignupKey(u));
    forall i | 0 <= i < |ledger|
      ensures EntryFits(ledger[i], grant, profiles, campaigns, assignments)
    {
    }
  }

  /** There is no other kind of entry. */
  lemma NothingElseIsPosted(cfg: Config, db: Db, t: Time, i: nat)
    requires Reachable(cfg, db, t) && i < |db.ledger|
    ensures match db.ledger[i].key
            case SignupKey(u) => db.ledger[i].kind == SignupGrant && u in db.profiles
            case PostingKey(c) => db.ledger[i].kind == Posting && c in db.campaigns && db.campaigns[c].status != Draft
            case RewardKey(a) => db.ledger[i].kind == Reward && a in db.assignments &&
                                 db.assignments[a].status == Approved
  {
    LedgerParts(cfg, db, t);
    hide Reachable, Assigned, Balanced, Booked, Sets.Sum;
    assert EntryFits(db.ledger[i], cfg.signupGrant, db.profiles, db.campaigns, db.assignments);
  }

  // ----- approvals always pay ---------------------------------------------------------------

  /** An owner's approval appends exactly the reward and adds it to the tester's account. */
  lemma ApprovalPays(cfg: Config, db: Db, t: Time, now: Time, id: Id, reviewer: Id)
    requires Reachable(cfg, db, t) && Workflow.Examine(db, now, id, reviewer, Approve).Ok?
    ensures var a := db.submissions[id].assignment;
            var row := db.assignments[a];
            var reward := db.campaigns[row.campaign].reward;
            var after := Step(cfg, db, now, Examine(id, reviewer, Approve));
            && after.ledger == db.ledger + [Credits.RewardEntry(a, row.tester, reward)]
            && after.accounts == db.accounts +
               map[row.tester := Credits.AccountBalance(db.accounts, row.tester) + reward]
  {
    hide *;
    ReachableHolds(cfg, db, t);
    Success.Examine(db, now, id, reviewer, Approve);
    Lifecycles.Examined(db, id);
    SubmittedIsNotApproved();
    var a := db.submissions[id].assignment;
    var row := db.assignments[a];
    Agreement.NoRewardYet(cfg, db, t, a);
    CanPay(cfg, db, t, a);
    PaidBy(db, now, id, db.submissions[id], a, row, db.campaigns[row.campaign]);
    ExamineStep(cfg, db, now, id, reviewer, Approve);
  }

  lemma SubmittedIsNotApproved()
    ensures Submitted != AssignmentStatus.Approved && Rejected != AssignmentStatus.Approved
  {
  }

  lemma PaidBy(db: Db, now: Time, id: Id, s: Submission, a: Id, row: Assignment, c: Campaign)
    ensures var after := Success.AfterApproval(db, now, id, s, a, row, c);
            && after.ledger == db.ledger + [Credits.RewardEntry(a, row.tester, c.reward)]
            && after.accounts == db.accounts +
               map[row.tester := Credits.AccountBalance(db.accounts, row.tester) + c.reward]
  {
  }

  lemma ExamineStep(cfg: Config, db: Db, now: Time, id: Id, reviewer: Id, decision: Decision)
    requires Workflow.Examine(db, now, id, reviewer, decision).Ok?
    ensures Step(cfg, db, now, Examine(id, reviewer, decision)) ==
            Commit(db, Workflow.Examine(db, now, id, reviewer, decision).value)
  {
    hide Workflow.Examine, Commit;
  }

  lemma ResolveStep(cfg: Config, db: Db, now: Time, id: Id, moderator: Id, r: Moderation.Ruling)
    requires Moderation.Resolve(db, now, id, moderator, r).Ok?
    ensures Step(cfg, db, now, Resolve(id, moderator, r)) ==
            Commit(db, Moderation.Resolve(db, now, id, moderator, r).value)
  {
    hide Moderation.Resolve, Commit;
  }

  /** A moderator's award does the same. */
  lemma AwardPays(cfg: Config, db: Db, t: Time, now: Time, id: Id, moderator: Id, r: Moderation.Ruling)
    requires Reachable(cfg, db, t) && r.remedy == AwardTester && Moderation.Resolve(db, now, id, moderator, r).Ok?
    ensures var a := db.disputes[id].assignment;
            var row := db.assignments[a];
            var reward := db.campaigns[row.campaign].reward;
            var after := Step(cfg, db, now, Resolve(id, moderator, r));
            && after.ledger == db.ledger + [Credits.RewardEntry(a, row.tester, reward)]
            && after.accounts == db.accounts +
               map[row.tester := Credits.AccountBalance(db.accounts, row.tester) + reward]
  {
    hide *;
    ReachableHolds(cfg, db, t);
    Success.Resolve(db, now, id, moderator, r);
    SubmittedIsNotApproved();
    var d := db.disputes[id];
    var row := db.assignments[d.assignment];
    Agreement.NoRewardYet(cfg, db, t, d.assignment);
    CanPay(cfg, db, t, d.assignment);
    PaidBy(db, now, d.submission.value, db.submissions[d.submission.value], d.assignment, row,
           db.campaigns[row.campaign]) by {
      FoundDisputed(db, d);
    }
    FoundDisputed(db, d);
    ResolveStep(cfg, db, now, id, moderator, r);
  }

  lemma FoundDisputed(db: Db, d: Dispute)
    requires Moderation.Disputed(db, d).Ok?
    ensures d.submission.Some? && d.submission.value in db.submissions
  {
  }

  /** Paying never stands in the way: an owner may approve exactly when the owner may reject. */
  lemma ApprovalNeedsNoFunds(cfg: Config, db: Db, t: Time, now: Time, id: Id, reviewer: Id)
    requires Reachable(cfg, db, t)
    ensures Workflow.Examine(db, now, id, reviewer, Approve).Ok? <==>
            Workflow.Examine(db, now, id, reviewer, Reject).Ok?
    ensures Workflow.Examine(db, now, id, reviewer, Approve).Err? ==>
              Workflow.Examine(db, now, id, reviewer, Reject) == Workflow.Examine(db, now, id, reviewer, Approve)
  {
    hide *;
    ReachableHolds(cfg, db, t);
    GuardsFirst(db, now, id, reviewer);
    if Workflow.Examine(db, now, id, reviewer, Reject).Ok? {
      Success.Examine(db, now, id, reviewer, Reject);
      Lifecycles.Examined(db, id);
      SubmittedIsNotApproved();
      var s := db.submissions[id];
      var row := db.assignments[s.assignment];
      Agreement.NoRewardYet(cfg, db, t, s.assignment);
      CanPay(cfg, db, t, s.assignment);
      ApprovalPossible(db, now, id, s, s.assignment, row, db.campaigns[row.campaign]);
      Found(db, s.assignment, row.campaign, reviewer);
    }
  }

  lemma GuardsFirst(db: Db, now: Time, id: Id, reviewer: Id)
    ensures var rejected := Workflow.Examine(db, now, id, reviewer, Reject);
            var approved := Workflow.Examine(db, now, id, reviewer, Approve);
            && (rejected.Err? ==> approved == rejected)
            && (rejected.Ok? ==>
                  && id in db.submissions
                  && var s := db.submissions[id];
                     var a := Workflow.Lookup(db, s.assignment);
                  && a.Ok?
                  && var c := Campaigns.OwnCampaign(db, a.value.campaign, reviewer);
                  && c.Ok?
                  && (Workflow.Approval(db, now, id, s, s.assignment, a.value, c.value).Ok? ==> approved.Ok?))
  {
    hide Workflow.Lookup, Campaigns.OwnCampaign, Workflow.Approval, Workflow.HasActiveDispute;
  }

  lemma Found(db: Db, a: Id, c: Id, owner: Id)
    ensures a in db.assignments ==> Workflow.Lookup(db, a) == Ok(db.assignments[a])
    ensures Campaigns.OwnCampaign(db, c, owner).Ok? ==>
              c in db.campaigns && Campaigns.OwnCampaign(db, c, owner).value == db.campaigns[c]
  {
  }

  lemma ApprovalPossible(db: Db, now: Time, id: Id, s: Submission, a: Id, row: Assignment, c: Campaign)
    requires !Credits.HasKey(db.ledger, RewardKey(a)) && c.reward >= 1
    requires Credits.AccountBalance(db.accounts, row.tester) >= 0
    ensures Workflow.Approval(db, now, id, s, a, row, c).Ok?
  {
    hide Campaigns.MaybeComplete, Credits.HasKey, Credits.AccountBalance;
  }

  /** The reward of a campaign can be posted to any tester of it. */
  lemma CanPay(cfg: Config, db: Db, t: Time, a: Id)
    requires Inv(cfg, db, t) && a in db.assignments
    ensures db.assignments[a].campaign in db.campaigns
    ensures db.campaigns[db.assignments[a].campaign].reward >= 1
    ensures Credits.AccountBalance(db.accounts, db.assignments[a].tester) >= 0
  {
    hide *;
    Preservation.Parts(cfg, db, t);
    Preservation.RowFits(db.profiles, db.campaigns, db.assignments, a);
    RewardFits(db.profiles, db.campaigns, db.contracts, db.assignments[a].campaign);
    NeverOverdrawn(db.profiles, db.accounts, db.ledger, db.assignments[a].tester);
  }

  lemma RewardFits(profiles: map<Id, string>, campaigns: map<Id, Campaign>, contracts: map<Id, Contract>, c: Id)
    requires Drafted(profiles, campaigns, contracts) && c in campaigns
    ensures campaigns[c].reward >= 1 && campaigns[c].target >= 1
  {
    assert CampaignFits(campaigns[c], c, profiles, contracts);
  }

  lemma NeverOverdrawn(profiles: map<Id, string>, accounts: map<Id, int>, ledger: seq<Entry>, u: Id)
    requires Balanced(profiles, accounts, ledger)
    ensures Credits.AccountBalance(accounts, u) >= 0
  {
    assert ledger[..|ledger|] == ledger;
  }

  // ----- conservation -----------------------------------------------------------------------

  lemma {:induction false} SumBump<T(!new)>(s: set<T>, f: T -> int, g: T -> int, x: T, d: int)
    requires x in s && g(x) == f(x) + d && forall y :: y in s && y != x ==> g(y) == f(y)
    ensures Sets.Sum(s, g) == Sets.Sum(s, f) + d
  {
    Sets.SumSplit(s, f, x);
    Sets.SumSplit(s, g, x);
    Sets.SumSame(s - {x}, f, g);
  }

  lemma {:induction false} SumZero<T(!new)>(s: set<T>, f: T -> int)
    requires forall x :: x in s ==> f(x) == 0
    ensures Sets.Sum(s, f) == 0
  {
    if |s| > 0 {
      SumZero(s - {Sets.Pick(s)}, f);
    }
  }

  /** What all users own together is the total of the ledger. */
  lemma {:induction false} TotalIsSum(ledger: seq<Entry>, users: set<Id>)
    requires forall i :: 0 <= i < |ledger| ==> ledger[i].user in users
    ensures Sets.Sum(users, u => Credits.Balance(ledger, u)) == Credits.Total(ledger)
  {
    var after := (u: Id) => Credits.Balance(ledger, u);
    if ledger == [] {
      SumZero(users, after);
    } else {
      var rest, e := ledger[..|ledger| - 1], ledger[|ledger| - 1];
      TotalIsSum(rest, users);
      var before := (u: Id) => Credits.Balance(rest, u);
      SumBump(users, before, after, e.user, e.delta);
    }
  }

  function Granted(ledger: seq<Entry>): set<Id> {
    set i | 0 <= i < |ledger| && ledger[i].key.SignupKey? :: ledger[i].key.user
  }

  /** Distinct keys: the grants add up to the grant times the users granted. */
  lemma {:induction false} GrantsAddUp(ledger: seq<Entry>, grant: int)
    requires forall i, j :: 0 <= i < j < |ledger| ==> ledger[i].key != ledger[j].key
    requires forall i :: 0 <= i < |ledger| ==> (ledger[i].kind == SignupGrant <==> ledger[i].key.SignupKey?)
    requires forall i :: 0 <= i < |ledger| && ledger[i].kind == SignupGrant ==> ledger[i].delta == grant
    ensures Credits.Grants(ledger) == grant * |Granted(ledger)|
  {
    if ledger != [] {
      var rest, e := ledger[..|ledger| - 1], ledger[|ledger| - 1];
      GrantsAddUp(rest, grant);
      GrantedSplit(ledger);
    }
  }

  lemma GrantedSplit(ledger: seq<Entry>)
    requires ledger != []
    requires forall i, j :: 0 <= i < j < |ledger| ==> ledger[i].key != ledger[j].key
    ensures var rest, e := ledger[..|ledger| - 1], ledger[|ledger| - 1];
            |Granted(ledger)| == |Granted(rest)| + if e.key.SignupKey? then 1 else 0
  {
    var rest, e := ledger[..|ledger| - 1], ledger[|ledger| - 1];
    if e.key.SignupKey? {
      assert e.key.user !in Granted(rest);
      assert Granted(ledger) == Granted(rest) + {e.key.user};
    } else {
      assert Granted(ledger) == Granted(rest);
    }
  }

  lemma GrantsAreAll(grant: nat, profiles: map<Id, string>, campaigns: map<Id, Campaign>,
                     assignments: map<Id, Assignment>, ledger: seq<Entry>)
    requires Ledgered(grant, profiles, campaigns, assignments, ledger)
    ensures Credits.Grants(ledger) == grant * |profiles|
  {
    forall i | 0 <= i < |ledger|
      ensures EntryFits(ledger[i], grant, profiles, campaigns, assignments)
    {
    }
    GrantsAddUp(ledger, grant);
    if grant > 0 {
      forall u
        ensures u in Granted(ledger) <==> u in profiles.Keys
      {
        if u in profiles {
          var i :| 0 <= i < |ledger| && ledger[i].key == SignupKey(u);
        }
      }
      assert Granted(ledger) == profiles.Keys;
      assert |profiles.Keys| == |profiles|;
    } else {
      assert Granted(ledger) == {};
    }
  }

  /** Every account holds the sum of its entries, no account was ever overdrawn, and all accounts
      together hold the grants, less what owners spent, plus what testers earned. */
  lemma CreditsAreConserved(cfg: Config, db: Db, t: Time)
    requires Reachable(cfg, db, t)
    ensures db.accounts.Keys == db.profiles.Keys
    ensures forall u :: u in db.accounts ==> db.accounts[u] == Credits.Balance(db.ledger, u)
    ensures forall u, k: nat :: k <= |db.ledger| ==> Credits.Balance(db.ledger[..k], u) >= 0
    ensures Sets.Sum(db.accounts.Keys, u => Credits.AccountBalance(db.accounts, u)) ==
            cfg.signupGrant * |db.profiles| +
            Sets.Sum(db.campaigns.Keys, c => if c in db.campaigns then
              Term(db.campaigns[c], |WithStatus(db.assignments, c, {Approved})|) else 0)
  {
    hide *;
    LedgerParts(cfg, db, t);
    OwnedTogether(db.profiles, db.accounts, db.ledger);
    GrantsAreAll(cfg.signupGrant, db.profiles, db.campaigns, db.assignments, db.ledger);
    TotalIs(db.campaigns, db.assignments, db.ledger);
  }

  lemma OwnedTogether(profiles: map<Id, string>, accounts: map<Id, int>, ledger: seq<Entry>)
    requires Balanced(profiles, accounts, ledger)
    ensures accounts.Keys == profiles.Keys
    ensures forall u :: u in accounts ==> accounts[u] == Credits.Balance(ledger, u)
    ensures forall u, k: nat :: k <= |ledger| ==> Credits.Balance(ledger[..k], u) >= 0
    ensures Sets.Sum(accounts.Keys, u => Credits.AccountBalance(accounts, u)) == Credits.Total(ledger)
  {
    TotalIsSum(ledger, accounts.Keys);
    Sets.SumSame(accounts.Keys, u => Credits.AccountBalance(accounts, u), u => Credits.Balance(ledger, u));
  }

  lemma TotalIs(campaigns: map<Id, Campaign>, assignments: map<Id, Assignment>, ledger: seq<Entry>)
    requires Booked(campaigns, assignments, ledger)
    ensures Credits.Total(ledger) == Credits.Grants(ledger) +
            Sets.Sum(campaigns.Keys,
              c => if c in campaigns then Term(campaigns[c], |WithStatus(assignments, c, {Approved})|) else 0)
  {
    NetIs(campaigns, assignments);
  }

  lemma NetIs(campaigns: map<Id, Campaign>, assignments: map<Id, Assignment>)
    ensures Net(campaigns, assignments) ==
            Sets.Sum(campaigns.Keys,
              c => if c in campaigns then Term(campaigns[c], |WithStatus(assignments, c, {Approved})|) else 0)
  {
    var f := c => if c in campaigns then Term(campaigns[c], |WithStatus(assignments, c, {Approved})|) else 0;
    Sets.SumSame(campaigns.Keys, f, f);
  }
}
