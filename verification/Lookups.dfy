/** A request that succeeds has found every row it locks. */
module Lookups {
  import opened Model
  import opened Invariants
  import opened Evolution
  import opened Requests
  import Campaigns
  import Moderation
  import Preservation
  import Profiles
  import Success
  import Workflow

  type Config = Profiles.Config

  ghost predicate Linked(db: Db) {
    && (forall a :: a in db.assignments ==>
        db.assignments[a].campaign in db.campaigns && db.assignments[a].tester in db.accounts)
    && (forall u :: u in db.profiles ==> u in db.accounts)
    && (forall c :: c in db.campaigns ==> db.campaigns[c].owner in db.accounts)
  }

  lemma Links(cfg: Config, db: Db, t: Time)
    requires Inv(cfg, db, t)
    ensures Linked(db)
  {
    hide *;
    Preservation.Parts(cfg, db, t);
    RowsLink(db);
  }

  lemma RowsLink(db: Db)
    requires Drafted(db.profiles, db.campaigns, db.contracts) && Assigned(db.profiles, db.campaigns, db.assignments)
    requires Balanced(db.profiles, db.accounts, db.ledger)
    ensures Linked(db)
  {
    forall a | a in db.assignments
      ensures AssignmentFits(db.assignments[a], db.profiles, db.campaigns)
    {
    }
    forall c | c in db.campaigns
      ensures CampaignFits(db.campaigns[c], c, db.profiles, db.contracts)
    {
    }
    assert forall u :: u in db.accounts.Keys <==> u in db.profiles.Keys;
  }

  lemma LocksExist(cfg: Config, db: Db, now: Time, r: Request)
    requires Linked(db) && Handle(cfg, db, now, r).Ok?
    ensures forall row :: row in Locks(db, r) ==> Exists(db, row)
  {
    if r.UpdateCampaign? || r.UpsertContract? || r.PublishCampaign? || r.LaunchCampaign? || r.TransitionCampaign? {
      CampaignLocksExist(cfg, db, now, r);
    } else if r.Examine? || r.Escalate? || r.Claim? || r.Resolve? {
      DecisionLocksExist(cfg, db, now, r);
    } else {
      TestLocksExist(cfg, db, now, r);
    }
    hide Handle, Linked, Locks;
  }

  lemma CampaignLocksExist(cfg: Config, db: Db, now: Time, r: Request)
    requires Linked(db) && Handle(cfg, db, now, r).Ok?
    requires r.UpdateCampaign? || r.UpsertContract? || r.PublishCampaign? || r.LaunchCampaign? || r.TransitionCampaign?
    ensures forall row :: row in Locks(db, r) ==> Exists(db, row)
  {
    hide Profiles.Upsert, Campaigns.Create, Campaigns.Update, Campaigns.UpsertContract, Campaigns.Publish;
    hide Campaigns.Launch, Campaigns.Transition, Workflow.Apply, Workflow.Accept, Workflow.Decline, Workflow.Withdraw;
    hide Workflow.Start, Workflow.RecordSession, Workflow.Submit, Workflow.Examine, Workflow.Escalate;
    hide Moderation.Claim, Moderation.Resolve;
    if r.LaunchCampaign? {
      LaunchFindsOwner(db, now, r.id, r.owner, r.fields, r.terms);
    } else {
      CampaignFound(db, now, r);
    }
  }

  lemma LaunchFindsOwner(db: Db, now: Time, id: Id, owner: Id, p: Campaigns.CampaignPayload,
                         k: Campaigns.ContractPayload)
    requires Campaigns.Launch(db, now, id, owner, p, k).Ok?
    ensures owner in db.profiles
  {
    hide Commit, Then, Campaigns.Launch, Campaigns.UpsertContract, Campaigns.Publish, Campaigns.SlugInUse;
    Success.LaunchChain(db, now, id, owner, p, k);
  }

  lemma CampaignFound(db: Db, now: Time, r: Request)
    requires r.UpdateCampaign? ==> Campaigns.Update(db, r.campaign, r.owner, r.change).Ok?
    requires r.UpsertContract? ==> Campaigns.UpsertContract(db, r.campaign, r.owner, r.terms).Ok?
    requires r.PublishCampaign? ==> Campaigns.Publish(db, now, r.campaign, r.owner).Ok?
    requires r.TransitionCampaign? ==> Campaigns.Transition(db, now, r.campaign, r.owner, r.action).Ok?
    ensures r.UpdateCampaign? || r.UpsertContract? || r.PublishCampaign? || r.TransitionCampaign? ==>
              r.campaign in db.campaigns && db.campaigns[r.campaign].owner == r.owner
  {
  }

  lemma TestLocksExist(cfg: Config, db: Db, now: Time, r: Request)
    requires Linked(db) && Handle(cfg, db, now, r).Ok?
    requires r.UpsertProfile? || r.CreateCampaign? || r.Apply? || r.Accept? || r.Decline? || r.Withdraw? || r.Start? ||
             r.RecordSession? || r.Submit?
    ensures forall row :: row in Locks(db, r) ==> Exists(db, row)
  {
    hide Profiles.Upsert, Campaigns.Create, Campaigns.MaybeComplete, Occupied, Workflow.HasApplied, Workflow.CheckItems;
    hide Workflow.SessionDays, Workflow.LatestVersion, Workflow.CoveredTaskIds, Workflow.RequiredTaskIds;
  }

  lemma DecisionLocksExist(cfg: Config, db: Db, now: Time, r: Request)
    requires Linked(db) && Handle(cfg, db, now, r).Ok?
    requires r.Examine? || r.Escalate? || r.Claim? || r.Resolve?
    ensures forall row :: row in Locks(db, r) ==> Exists(db, row)
  {
    hide Profiles.Upsert, Campaigns.Create, Campaigns.Update, Campaigns.UpsertContract, Campaigns.Publish;
    hide Campaigns.Launch, Campaigns.Transition, Workflow.Apply, Workflow.Accept, Workflow.Decline, Workflow.Withdraw;
    hide Workflow.Start, Workflow.RecordSession, Workflow.Submit, Workflow.Examine, Workflow.Escalate;
    hide Moderation.Claim, Moderation.Resolve;
    hide DecisionRows, RulingRows;
    DecisionFound(db, now, r);
    if r.Examine? {
      DecisionRowsExist(db, db.submissions[r.submission].assignment, r.decision == Approve);
    } else if r.Resolve? {
      RulingRowsExist(db, db.disputes[r.dispute], r.ruling);
    }
  }

  lemma DecisionFound(db: Db, now: Time, r: Request)
    requires r.Examine? ==> Workflow.Examine(db, now, r.submission, r.reviewer, r.decision).Ok?
    requires r.Escalate? ==> Workflow.Escalate(db, now, r.id, r.assignment, r.user, r.disputed).Ok?
    requires r.Claim? ==> Moderation.Claim(db, r.dispute, r.moderator).Ok?
    requires r.Resolve? ==> Moderation.Resolve(db, now, r.dispute, r.moderator, r.ruling).Ok?
    ensures r.Examine? ==> r.submission in db.submissions && db.submissions[r.submission].assignment in db.assignments
    ensures r.Escalate? ==> r.assignment in db.assignments
    ensures r.Claim? ==> r.dispute in db.disputes
    ensures r.Resolve? ==>
              && r.dispute in db.disputes && db.disputes[r.dispute].assignment in db.assignments
              && Moderation.Remedied(db, now, db.disputes[r.dispute], db.assignments[db.disputes[r.dispute].assignment],
                                     r.ruling).Ok?
    ensures r.Resolve? ==> RulingFindsWork(db, db.disputes[r.dispute], r.ruling)
  {
    hide Workflow.Approval, Workflow.HasActiveDispute, Workflow.HasDispute;
  }

  /** The disputed submission is there when the ruling touches it. */
  predicate RulingFindsWork(db: Db, d: Dispute, ruling: Moderation.Ruling) {
    ruling.remedy == AwardTester || IsPending(db, d.assignment) ==>
      d.submission.Some? && d.submission.value in db.submissions
  }

  lemma DecisionRowsExist(db: Db, a: Id, pays: bool)
    requires Linked(db) && a in db.assignments
    ensures forall row :: row in DecisionRows(db, a, pays) ==> Exists(db, row)
  {
  }

  lemma RulingRowsExist(db: Db, d: Dispute, ruling: Moderation.Ruling)
    requires Linked(db) && d.assignment in db.assignments && RulingFindsWork(db, d, ruling)
    ensures forall row :: row in RulingRows(db, d, ruling) ==> Exists(db, row)
  {
    DecisionRowsExist(db, d.assignment, true);
    hide DecisionRows;
  }
}
