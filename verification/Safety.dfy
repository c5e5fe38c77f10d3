/** The safety of concurrent transactions in one place, and who may change what. */
module Safety {
  import opened Model
  import opened Results
  import opened Invariants
  import opened Evolution
  import opened Histories
  import opened Requests
  import opened RowLocks
  import Agreement
  import Campaigns
  import Credits
  import Moderation
  import Money
  import Places
  import Preservation
  import Profiles
  import Serializing
  import Settling
  import Versioning
  import Workflow

  type Config = Profiles.Config

  lemma IsReachable(cfg: Config, start: Time, actions: seq<Action>)
    ensures Reachable(cfg, AfterAll(cfg, start, actions).db, AfterAll(cfg, start, actions).clock)
  {
    hide AfterAll;
  }

  /** Any number of clients, cut at every row lock and aborted anywhere: every committed database
      respects capacity up to overriding awards, keeps open campaigns short of their target, has paid
      no assignment twice, and holds no owner's decision on work that is pending. */
  lemma CommittedStatesAreSafe(cfg: Config, start: Time, actions: seq<Action>, c: Id, a: Id, s: Id)
    ensures var db := AfterAll(cfg, start, actions).db;
            && (c in db.campaigns ==>
                  Occupied(db.assignments, c) <= db.campaigns[c].target +
                    |Overrides(db.assignments, db.submissions, db.reviews, c)|)
            && (c in db.campaigns && (db.campaigns[c].status == Published || db.campaigns[c].status == Paused) ==>
                  |WithStatus(db.assignments, c, {Approved})| < db.campaigns[c].target)
            && |Money.Posted(db.ledger, RewardKey(a))| <= 1
            && (s in db.submissions && db.submissions[s].status == Pending ==> s !in db.reviews)
  {
    IsReachable(cfg, start, actions);
    var db, t := AfterAll(cfg, start, actions).db, AfterAll(cfg, start, actions).clock;
    hide *;
    if c in db.campaigns {
      Places.CapacityWithOverrides(cfg, db, t, c);
      Places.UnfinishedCampaigns(cfg, db, t, c);
    }
    if s in db.submissions {
      Versioning.SubmissionsMirrorAssignment(cfg, db, t, s);
    }
    Money.LedgerParts(cfg, db, t);
    PaidAtMostOnce(cfg.signupGrant, db, a);
  }

  lemma PaidAtMostOnce(grant: int, db: Db, a: Id)
    requires Ledgered(grant, db.profiles, db.campaigns, db.assignments, db.ledger)
    ensures |Money.Posted(db.ledger, RewardKey(a))| <= 1
  {
    Money.PostedOnce(db.ledger, RewardKey(a));
  }

  // ----- authority --------------------------------------------------------------------------

  /** `user` owns the campaign of assignment `a`. */
  predicate Owns(db: Db, user: Id, a: Id) {
    && a in db.assignments && db.assignments[a].campaign in db.campaigns
    && db.campaigns[db.assignments[a].campaign].owner == user
  }

  predicate Tests(db: Db, user: Id, a: Id) {
    a in db.assignments && db.assignments[a].tester == user
  }

  predicate OwnsCampaign(db: Db, user: Id, c: Id) {
    c in db.campaigns && db.campaigns[c].owner == user
  }

  /** Who may make each request: the owner of the campaign, the tester of the assignment, the
      moderator a dispute is assigned to; anybody with a profile for what creates something new. */
  predicate Entitled(db: Db, r: Request) {
    match r
    case UpsertProfile(_, _, _) => true
    case CreateCampaign(_, owner, _) => owner in db.profiles
    case UpdateCampaign(c, owner, _) => OwnsCampaign(db, owner, c)
    case UpsertContract(c, owner, _) => OwnsCampaign(db, owner, c)
    case PublishCampaign(c, owner) => OwnsCampaign(db, owner, c)
    case LaunchCampaign(_, owner, _, _) => owner in db.profiles
    case TransitionCampaign(c, owner, _) => OwnsCampaign(db, owner, c)
    case Apply(_, c, tester) => tester in db.profiles && !OwnsCampaign(db, tester, c)
    case Accept(a, owner) => Owns(db, owner, a)
    case Decline(a, owner) => Owns(db, owner, a)
    case Withdraw(a, tester) => Tests(db, tester, a)
    case Start(a, tester) => Tests(db, tester, a)
    case RecordSession(a, tester) => Tests(db, tester, a)
    case Submit(_, a, tester, _) => Tests(db, tester, a)
    case Examine(s, reviewer, _) => s in db.submissions && Owns(db, reviewer, db.submissions[s].assignment)
    case Escalate(_, a, user, _) => Tests(db, user, a)
    case Claim(d, moderator) =>
      d in db.disputes && (db.disputes[d].status == UnderReview ==> db.disputes[d].assignedTo == Some(moderator))
    case Resolve(d, moderator, _) => d in db.disputes && db.disputes[d].assignedTo == Some(moderator)
  }

  lemma AcceptedIsEntitled(cfg: Config, db: Db, now: Time, r: Request)
    requires Handle(cfg, db, now, r).Ok?
    ensures Entitled(db, r)
  {
    hide Commit, Workflow.Approval, Moderation.Remedied, Workflow.HasApplied, Occupied, Profiles.Upsert;
  }

  /** What an action that changes the database commits, and that it would be accepted as well if it
      were served at that moment; the assignments it leaves are those serving it would leave. */
  lemma ChangeIsCommitted(cfg: Config, s: System, x: Action) returns (e: Event)
    requires Consistent(cfg, s) && Do(cfg, s, x).db != s.db
    ensures Serializing.CommittedBy(cfg, s, x) == [e] && Handle(cfg, s.db, e.now, e.request).Ok?
    ensures Do(cfg, s, x).db.assignments == s.db.assignments + Handle(cfg, s.db, e.now, e.request).value.assignments
  {
    hide Consistent, Handle, Locks, Free, Commit, Agreement.Fresh, Settling.Outdated, Step, Exists;
    match x
    case Finish(id) =>
      e := Serializing.EventOf(s.open[id]);
      FinishIsSerial(cfg, s, id);
      CommitTables(s.db, s.open[id].plan.value.writes);
    case Serve(r) =>
      e := Event(s.clock, r);
      StepIs(cfg, s.db, s.clock, r);
      CommitTables(s.db, Handle(cfg, s.db, s.clock, r).value);
    case _ =>
  }

  lemma Whole(actions: seq<Action>)
    ensures actions[..|actions|] == actions
  {
  }

  /** Between two moments of a history the database is different only if a request was committed by
      somebody who was entitled to make it. */
  lemma {:induction false} OnlyTheEntitledChangeAnything(cfg: Config, start: Time, actions: seq<Action>, k: nat)
    returns (i: nat, e: Event)
    requires k <= |actions| && AfterAll(cfg, start, actions[..k]).db != AfterAll(cfg, start, actions).db
    ensures k <= i < |actions|
    ensures Serializing.CommittedBy(cfg, AfterAll(cfg, start, actions[..i]), actions[i]) == [e]
    ensures Entitled(AfterAll(cfg, start, actions[..i]).db, e.request)
  {
    hide Consistent, Do, Serializing.CommittedBy, Entitled, Handle, AfterAll;
    if k == |actions| {
      Whole(actions);
      assert false;
    }
    var before, x := actions[..|actions| - 1], actions[|actions| - 1];
    var s := AfterAll(cfg, start, before);
    LastAction(cfg, start, actions);
    if s.db != AfterAll(cfg, start, actions).db {
      EveryInterleavingKeeps(cfg, start, before);
      i := |before|;
      e := ChangeIsCommitted(cfg, s, x);
      AcceptedIsEntitled(cfg, s.db, e.now, e.request);
    } else {
      assert before[..k] == actions[..k];
      i, e := OnlyTheEntitledChangeAnything(cfg, start, before, k);
      assert before[..i] == actions[..i];
    }
  }

  // ----- who may move a piece of work -------------------------------------------------------

  /** The request is about assignment `a`, and made by its tester, by the owner of its campaign, or by
      the moderator its dispute is assigned to. */
  predicate MadeByParty(db: Db, r: Request, a: Id) {
    match r
    case TransitionCampaign(c, owner, _) =>
      OwnsCampaign(db, owner, c) && a in db.assignments && db.assignments[a].campaign == c &&
        db.assignments[a].status == Applied
    case Accept(b, owner) => b == a && Owns(db, owner, a)
    case Decline(b, owner) => b == a && Owns(db, owner, a)
    case Withdraw(b, tester) => b == a && Tests(db, tester, a)
    case Start(b, tester) => b == a && Tests(db, tester, a)
    case Submit(_, b, tester, _) => b == a && Tests(db, tester, a)
    case Examine(s, reviewer, _) =>
      s in db.submissions && db.submissions[s].assignment == a && Owns(db, reviewer, a)
    case Resolve(d, moderator, _) =>
      d in db.disputes && db.disputes[d].assignment == a && db.disputes[d].assignedTo == Some(moderator)
    case _ => false
  }

  /** A request overwrites the assignments it is about, and no others. */
  lemma OverwritesOwn(cfg: Config, db: Db, now: Time, r: Request, a: Id)
    requires Handle(cfg, db, now, r).Ok? && a in Handle(cfg, db, now, r).value.assignments && a in db.assignments
    ensures MadeByParty(db, r, a)
  {
    hide Profiles.Upsert, Campaigns.Create, Campaigns.Update, Campaigns.UpsertContract, Campaigns.Publish;
    hide Campaigns.Launch, Campaigns.Transition, Workflow.Apply, Workflow.Accept, Workflow.Decline, Workflow.Withdraw;
    hide Workflow.Start, Workflow.RecordSession, Workflow.Submit, Workflow.Examine, Workflow.Escalate;
    hide Moderation.Claim, Moderation.Resolve, MadeByParty;
    match r
    case UpsertProfile(user, username, enabled) => JoiningTouchesNothing(cfg, db, user, username, enabled);
    case LaunchCampaign(id, owner, fields, terms) => LaunchTouchesNothing(db, now, id, owner, fields, terms);
    case TransitionCampaign(_, _, _) => CampaignsOverwriteOwn(db, now, r, a);
    case CreateCampaign(_, _, _) => CampaignsOverwriteOwn(db, now, r, a);
    case UpdateCampaign(_, _, _) => CampaignsOverwriteOwn(db, now, r, a);
    case UpsertContract(_, _, _) => CampaignsOverwriteOwn(db, now, r, a);
    case PublishCampaign(_, _) => CampaignsOverwriteOwn(db, now, r, a);
    case Examine(_, _, _) => DecisionsOverwriteOwn(db, now, r, a);
    case Escalate(_, _, _, _) => DecisionsOverwriteOwn(db, now, r, a);
    case Claim(_, _) => DecisionsOverwriteOwn(db, now, r, a);
    case Resolve(_, _, _) => DecisionsOverwriteOwn(db, now, r, a);
    case _ => TestsOverwriteOwn(cfg, db, now, r, a);
  }

  lemma JoiningTouchesNothing(cfg: Config, db: Db, user: Id, username: string, enabled: bool)
    requires Profiles.Upsert(db, cfg, user, username, enabled).Ok?
    ensures Profiles.Upsert(db, cfg, user, username, enabled).value.assignments == map[]
  {
    hide Commit, Profiles.UsernameTakenBy, Credits.HasKey, Profiles.ClaimedSeats;
  }

  lemma LaunchTouchesNothing(db: Db, now: Time, id: Id, owner: Id, p: Campaigns.CampaignPayload,
                             k: Campaigns.ContractPayload)
    requires Campaigns.Launch(db, now, id, owner, p, k).Ok?
    ensures Campaigns.Launch(db, now, id, owner, p, k).value.assignments == map[]
  {
    hide Commit, Campaigns.Create, Campaigns.UpsertContract, Campaigns.Publish;
    var created := Campaigns.Create(db, id, owner, p).value;
    DraftTouchesNothing(db, id, owner, p);
    TermsTouchNothing(Commit(db, created), id, owner, k);
    var both := Then(created, Campaigns.UpsertContract(Commit(db, created), id, owner, k).value);
    PublicationTouchesNothing(Commit(db, both), now, id, owner);
  }

  lemma DraftTouchesNothing(db: Db, id: Id, owner: Id, p: Campaigns.CampaignPayload)
    requires Campaigns.Create(db, id, owner, p).Ok?
    ensures Campaigns.Create(db, id, owner, p).value.assignments == map[]
  {
    hide Campaigns.SlugInUse;
  }

  lemma TermsTouchNothing(db: Db, id: Id, owner: Id, k: Campaigns.ContractPayload)
    requires Campaigns.UpsertContract(db, id, owner, k).Ok?
    ensures Campaigns.UpsertContract(db, id, owner, k).value.assignments == map[]
  {
  }

  lemma PublicationTouchesNothing(db: Db, now: Time, id: Id, owner: Id)
    requires Campaigns.Publish(db, now, id, owner).Ok?
    ensures Campaigns.Publish(db, now, id, owner).value.assignments == map[]
  {
    hide Credits.HasKey;
  }

  lemma CampaignsOverwriteOwn(db: Db, now: Time, r: Request, a: Id)
    requires a in db.assignments
    requires match r
      case TransitionCampaign(c, owner, action) =>
        Campaigns.Transition(db, now, c, owner, action).Ok? &&
          a in Campaigns.Transition(db, now, c, owner, action).value.assignments
      case CreateCampaign(id, owner, p) =>
        Campaigns.Create(db, id, owner, p).Ok? && a in Campaigns.Create(db, id, owner, p).value.assignments
      case UpdateCampaign(c, owner, u) =>
        Campaigns.Update(db, c, owner, u).Ok? && a in Campaigns.Update(db, c, owner, u).value.assignments
      case UpsertContract(c, owner, k) =>
        Campaigns.UpsertContract(db, c, owner, k).Ok? &&
          a in Campaigns.UpsertContract(db, c, owner, k).value.assignments
      case PublishCampaign(c, owner) =>
        Campaigns.Publish(db, now, c, owner).Ok? && a in Campaigns.Publish(db, now, c, owner).value.assignments
      case _ => false
    ensures MadeByParty(db, r, a)
  {
    hide Campaigns.Finished, Credits.HasKey, Campaigns.SlugInUse;
  }

  lemma DecisionsOverwriteOwn(db: Db, now: Time, r: Request, a: Id)
    requires a in db.assignments
    requires match r
      case Examine(s, reviewer, decision) =>
        Workflow.Examine(db, now, s, reviewer, decision).Ok? &&
          a in Workflow.Examine(db, now, s, reviewer, decision).value.assignments
      case Escalate(id, b, user, s) =>
        Workflow.Escalate(db, now, id, b, user, s).Ok? &&
          a in Workflow.Escalate(db, now, id, b, user, s).value.assignments
      case Claim(d, moderator) =>
        Moderation.Claim(db, d, moderator).Ok? && a in Moderation.Claim(db, d, moderator).value.assignments
      case Resolve(d, moderator, ruling) =>
        Moderation.Resolve(db, now, d, moderator, ruling).Ok? &&
          a in Moderation.Resolve(db, now, d, moderator, ruling).value.assignments
      case _ => false
    ensures MadeByParty(db, r, a)
  {
    hide Campaigns.Finished, Credits.HasKey, Workflow.HasActiveDispute, Workflow.HasDispute;
  }

  lemma TestsOverwriteOwn(cfg: Config, db: Db, now: Time, r: Request, a: Id)
    requires a in db.assignments && Handle(cfg, db, now, r).Ok? && a in Handle(cfg, db, now, r).value.assignments
    requires r.Apply? || r.Accept? || r.Decline? || r.Withdraw? || r.Start? || r.RecordSession? || r.Submit?
    ensures MadeByParty(db, r, a)
  {
    hide Campaigns.Finished, Workflow.HasApplied, Occupied, Workflow.CheckItems, Workflow.SessionDays;
    hide Workflow.LatestVersion, Workflow.CoveredTaskIds, Workflow.RequiredTaskIds;
  }

  /** Between two moments of a history an assignment is different only if a request about it was
      committed by one of its parties. */
  lemma {:induction false} WorkIsMovedByItsParties(cfg: Config, start: Time, actions: seq<Action>, k: nat, a: Id)
    returns (i: nat, e: Event)
    requires k <= |actions| && a in AfterAll(cfg, start, actions[..k]).db.assignments
    requires a in AfterAll(cfg, start, actions).db.assignments ==>
               AfterAll(cfg, start, actions).db.assignments[a] != AfterAll(cfg, start, actions[..k]).db.assignments[a]
    ensures k <= i < |actions|
    ensures Serializing.CommittedBy(cfg, AfterAll(cfg, start, actions[..i]), actions[i]) == [e]
    ensures MadeByParty(AfterAll(cfg, start, actions[..i]).db, e.request, a)
  {
    hide Consistent, Do, Serializing.CommittedBy, MadeByParty, Handle, AfterAll;
    if k == |actions| {
      Whole(actions);
      assert false;
    }
    var before, x := actions[..|actions| - 1], actions[|actions| - 1];
    var s := AfterAll(cfg, start, before);
    LastAction(cfg, start, actions);
    assert before[..k] == actions[..k];
    if a in s.db.assignments && s.db.assignments[a] == AfterAll(cfg, start, actions[..k]).db.assignments[a] {
      EveryInterleavingKeeps(cfg, start, before);
      i := |before|;
      e := ChangeIsCommitted(cfg, s, x);
      OverwritesOwn(cfg, s.db, e.now, e.request, a);
    } else {
      i, e := WorkIsMovedByItsParties(cfg, start, before, k, a);
      assert before[..i] == actions[..i];
    }
  }

  /** The reward of every approved test went to somebody other than the owner who posted it. */
  lemma NobodyPaysThemselves(cfg: Config, db: Db, t: Time, i: nat)
    requires Reachable(cfg, db, t) && i < |db.ledger| && db.ledger[i].kind == Reward
    ensures db.ledger[i].key.RewardKey?
    ensures var a := db.ledger[i].key.assignment;
            && a in db.assignments && db.ledger[i].user == db.assignments[a].tester
            && db.assignments[a].campaign in db.campaigns
            && db.ledger[i].user != db.campaigns[db.assignments[a].campaign].owner
  {
    Money.NothingElseIsPosted(cfg, db, t, i);
    var a := db.ledger[i].key.assignment;
    Money.RewardsAreApprovals(cfg, db, t, a);
    Money.LedgerParts(cfg, db, t);
    Preservation.RowFits(db.profiles, db.campaigns, db.assignments, a);
    assert i in Money.Posted(db.ledger, RewardKey(a));
    hide Reachable, Ledgered, Balanced, Booked, Assigned, Stamped;
  }
}
