/** The requests of the service, and what a sequence of them does to the database. */
module Requests {
  import opened Model
  import opened Results
  import Campaigns
  import Moderation
  import Profiles
  import Workflow

  datatype Request =
    | UpsertProfile(user: Id, username: string, enabled: bool)
    | CreateCampaign(id: Id, owner: Id, fields: Campaigns.CampaignPayload)
    | UpdateCampaign(campaign: Id, owner: Id, change: Campaigns.CampaignUpdate)
    | UpsertContract(campaign: Id, owner: Id, terms: Campaigns.ContractPayload)
    | PublishCampaign(campaign: Id, owner: Id)
    | LaunchCampaign(id: Id, owner: Id, fields: Campaigns.CampaignPayload, terms: Campaigns.ContractPayload)
    | TransitionCampaign(campaign: Id, owner: Id, action: Campaigns.Action)
    | Apply(id: Id, campaign: Id, tester: Id)
    | Accept(assignment: Id, owner: Id)
    | Decline(assignment: Id, owner: Id)
    | Withdraw(assignment: Id, tester: Id)
    | Start(assignment: Id, tester: Id)
    | RecordSession(assignment: Id, tester: Id)
    | Submit(id: Id, assignment: Id, tester: Id, evidence: Workflow.EvidencePayload)
    | Examine(submission: Id, reviewer: Id, decision: Decision)
    | Escalate(id: Id, assignment: Id, user: Id, disputed: Option<Id>)
    | Claim(dispute: Id, moderator: Id)
    | Resolve(dispute: Id, moderator: Id, ruling: Moderation.Ruling)

  /** What the service wants to write in answer to a request, or why it refuses. */
  function Handle(cfg: Profiles.Config, db: Db, now: Time, r: Request): Result<Writes> {
    match r
    case UpsertProfile(user, username, enabled) => Profiles.Upsert(db, cfg, user, username, enabled)
    case CreateCampaign(id, owner, fields) => Campaigns.Create(db, id, owner, fields)
    case UpdateCampaign(c, owner, change) => Campaigns.Update(db, c, owner, change)
    case UpsertContract(c, owner, terms) => Campaigns.UpsertContract(db, c, owner, terms)
    case PublishCampaign(c, owner) => Campaigns.Publish(db, now, c, owner)
    case LaunchCampaign(id, owner, fields, terms) => Campaigns.Launch(db, now, id, owner, fields, terms)
    case TransitionCampaign(c, owner, action) => Campaigns.Transition(db, now, c, owner, action)
    case Apply(id, c, tester) => Workflow.Apply(db, id, c, tester)
    case Accept(a, owner) => Workflow.Accept(db, now, a, owner)
    case Decline(a, owner) => Workflow.Decline(db, now, a, owner)
    case Withdraw(a, tester) => Workflow.Withdraw(db, now, a, tester)
    case Start(a, tester) => Workflow.Start(db, now, a, tester)
    case RecordSession(a, tester) => Workflow.RecordSession(db, now, a, tester)
    case Submit(id, a, tester, evidence) => Workflow.Submit(db, now, id, a, tester, evidence)
    case Examine(s, reviewer, decision) => Workflow.Examine(db, now, s, reviewer, decision)
    case Escalate(id, a, user, s) => Workflow.Escalate(db, now, id, a, user, s)
    case Claim(d, moderator) => Moderation.Claim(db, d, moderator)
    case Resolve(d, moderator, ruling) => Moderation.Resolve(db, now, d, moderator, ruling)
  }

  /** One request in its own transaction: committed if it succeeds, rolled back if it is refused. */
  function Step(cfg: Profiles.Config, db: Db, now: Time, r: Request): Db {
    match Handle(cfg, db, now, r)
    case Ok(w) => Commit(db, w)
    case Err(_) => db
  }

  lemma StepIs(cfg: Profiles.Config, db: Db, now: Time, r: Request)
    ensures Step(cfg, db, now, r) ==
            if Handle(cfg, db, now, r).Ok? then Commit(db, Handle(cfg, db, now, r).value) else db
  {
    hide Handle, Commit;
  }

  datatype Event = Event(now: Time, request: Request)

  /** The clock never runs backwards. */
  predicate Ordered(run: seq<Event>) {
    forall i, j | 0 <= i < j < |run| :: run[i].now <= run[j].now
  }

  /** The database of a new deployment: empty, with the seat counter at zero if it is seeded. */
  function Initial(cfg: Profiles.Config): Db {
    EMPTY.(seats := if cfg.seeded then Some(0) else None)
  }

  /** The database after a run of requests, from a new one. */
  function After(cfg: Profiles.Config, run: seq<Event>): Db {
    if run == [] then Initial(cfg)
    else
      var e := run[|run| - 1];
      Step(cfg, After(cfg, run[..|run| - 1]), e.now, e.request)
  }

  lemma AfterOneMore(cfg: Profiles.Config, run: seq<Event>, e: Event)
    ensures After(cfg, run + [e]) == Step(cfg, After(cfg, run), e.now, e.request)
  {
    hide Step;
    assert (run + [e])[..|run + [e]| - 1] == run;
  }

  function Clock(run: seq<Event>): Time {
    if run == [] then 0 else run[|run| - 1].now
  }
}
