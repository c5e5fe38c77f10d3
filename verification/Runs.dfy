/** The invariant holds after every run of requests. */
module Runs {
  import opened Model
  import opened Invariants
  import opened Requests
  import Campaigns
  import Preservation
  import Profiles

  type Config = Profiles.Config

  /** The assignment a request adds a day to was started, and tested, before now. */
  ghost predicate Timely(db: Db, now: Time, r: Request) {
    match r
    case RecordSession(a, _) => a in db.assignments ==> AssignmentClock(db.assignments[a], a, db.sessions, now)
    case Submit(_, a, _, _) => a in db.assignments ==> AssignmentClock(db.assignments[a], a, db.sessions, now)
    case _ => true
  }

  lemma LaunchKeeps(cfg: Config, db: Db, t: Time, now: Time, id: Id, owner: Id, p: Campaigns.CampaignPayload,
                    k: Campaigns.ContractPayload)
    requires Inv(cfg, db, t) && Campaigns.Launch(db, now, id, owner, p, k).Ok?
    ensures Inv(cfg, Commit(db, Campaigns.Launch(db, now, id, owner, p, k).value), t)
  {
    var created := Campaigns.Create(db, id, owner, p).value;
    var d1 := Commit(db, created);
    var drafted := Campaigns.UpsertContract(d1, id, owner, k).value;
    var d2 := Commit(d1, drafted);
    CommitThen(db, created, drafted);
    var published := Campaigns.Publish(d2, now, id, owner).value;
    CommitThen(db, Then(created, drafted), published);
    hide *;
    Preservation.CreateKeeps(cfg, db, t, id, owner, p);
    Preservation.UpsertContractKeeps(cfg, d1, t, id, owner, k);
    Preservation.PublishKeeps(cfg, d2, t, now, id, owner);
  }

  /** Whatever a request wants to write, the invariant survives writing it. */
  lemma HandleKeeps(cfg: Config, db: Db, t: Time, now: Time, r: Request)
    requires Inv(cfg, db, t) && now <= t && Timely(db, now, r)
    requires Handle(cfg, db, now, r).Ok?
    ensures Inv(cfg, Commit(db, Handle(cfg, db, now, r).value), t)
  {
    hide Inv, Commit;
    match r
    case UpsertProfile(user, username, enabled) =>
      if user in db.profiles {
        Preservation.RenameKeeps(cfg, db, t, user, username, enabled);
      } else {
        Preservation.JoinKeeps(cfg, db, t, user, username, enabled);
      }
    case CreateCampaign(id, owner, fields) => Preservation.CreateKeeps(cfg, db, t, id, owner, fields);
    case UpdateCampaign(c, owner, change) => Preservation.UpdateKeeps(cfg, db, t, c, owner, change);
    case UpsertContract(c, owner, terms) => Preservation.UpsertContractKeeps(cfg, db, t, c, owner, terms);
    case PublishCampaign(c, owner) => Preservation.PublishKeeps(cfg, db, t, now, c, owner);
    case LaunchCampaign(id, owner, fields, terms) => LaunchKeeps(cfg, db, t, now, id, owner, fields, terms);
    case TransitionCampaign(c, owner, action) =>
      if action == Campaigns.Close {
        Preservation.CloseKeeps(cfg, db, t, now, c, owner);
      } else {
        Preservation.PauseKeeps(cfg, db, t, now, c, owner, action);
      }
    case Apply(id, c, tester) => Preservation.ApplyKeeps(cfg, db, t, id, c, tester);
    case Accept(a, owner) => Preservation.AcceptKeeps(cfg, db, t, now, a, owner);
    case Decline(a, owner) => Preservation.DeclineKeeps(cfg, db, t, now, a, owner);
    case Withdraw(a, tester) => Preservation.WithdrawKeeps(cfg, db, t, now, a, tester);
    case Start(a, tester) => Preservation.StartKeeps(cfg, db, t, now, a, tester);
    case RecordSession(a, tester) => Preservation.RecordSessionKeeps(cfg, db, t, now, a, tester);
    case Submit(id, a, tester, evidence) => Preservation.SubmitKeeps(cfg, db, t, now, id, a, tester, evidence);
    case Examine(s, reviewer, decision) =>
      if decision == Approve {
        Preservation.ApproveKeeps(cfg, db, t, now, s, reviewer);
      } else {
        Preservation.RefusalKeeps(cfg, db, t, now, s, reviewer, decision);
      }
    case Escalate(id, a, user, s) => Preservation.EscalateKeeps(cfg, db, t, now, id, a, user, s);
    case Claim(d, moderator) => Preservation.ClaimKeeps(cfg, db, t, d, moderator);
    case Resolve(d, moderator, ruling) =>
      if ruling.remedy == AwardTester {
        Preservation.AwardKeeps(cfg, db, t, now, d, moderator, ruling);
      } else {
        Preservation.NoAwardKeeps(cfg, db, t, now, d, moderator, ruling);
      }
  }

  /** Time passing alone changes nothing. */
  lemma Later(cfg: Config, db: Db, t: Time, u: Time)
    requires Inv(cfg, db, t) && t <= u
    ensures Inv(cfg, db, u)
  {
    hide *;
    Preservation.Parts(cfg, db, t);
    LaterClocks(db, t, u);
    Preservation.Whole(cfg, db, u);
  }

  lemma LaterClocks(db: Db, t: Time, u: Time)
    requires Clocked(db.contracts, db.assignments, db.sessions, db.submissions, t) && t <= u
    ensures Clocked(db.contracts, db.assignments, db.sessions, db.submissions, u)
  {
    forall a | a in db.assignments
      ensures AssignmentClock(db.assignments[a], a, db.sessions, u)
    {
      assert AssignmentClock(db.assignments[a], a, db.sessions, t);
    }
  }

  lemma OnTime(cfg: Config, db: Db, now: Time, r: Request)
    requires Inv(cfg, db, now)
    ensures Timely(db, now, r)
  {
    hide *;
    Preservation.Parts(cfg, db, now);
    ClockedRows(db, now, r);
  }

  lemma ClockedRows(db: Db, now: Time, r: Request)
    requires Clocked(db.contracts, db.assignments, db.sessions, db.submissions, now)
    ensures Timely(db, now, r)
  {
  }

  lemma EmptyHolds(cfg: Config, t: Time)
    ensures Inv(cfg, Initial(cfg), t)
  {
  }

  lemma StepKeeps(cfg: Config, db: Db, t: Time, now: Time, r: Request)
    requires Inv(cfg, db, t) && t <= now
    ensures Inv(cfg, Step(cfg, db, now, r), now)
  {
    hide Inv, Timely, Handle, Commit;
    Later(cfg, db, t, now);
    if Handle(cfg, db, now, r).Ok? {
      OnTime(cfg, db, now, r);
      HandleKeeps(cfg, db, now, now, r);
    }
  }

  /** Every run from a new database, with a clock that never runs backwards, keeps the invariant. */
  lemma {:induction false} EveryRunKeeps(cfg: Config, run: seq<Event>)
    requires Ordered(run)
    ensures Inv(cfg, After(cfg, run), Clock(run))
  {
    if run == [] {
      EmptyHolds(cfg, 0);
    } else {
      var before, e := run[..|run| - 1], run[|run| - 1];
      EveryRunKeeps(cfg, before);
      hide Inv, Step;
      if before == [] {
        EmptyHolds(cfg, e.now);
        StepKeeps(cfg, After(cfg, before), e.now, e.now, e.request);
      } else {
        StepKeeps(cfg, After(cfg, before), Clock(before), e.now, e.request);
      }
    }
  }
}
