/** What every new row tells: names stay unique, and nothing arrives before its time. */
module Arrivals {
  import opened Model
  import opened Results
  import opened Evolution
  import opened Invariants
  import opened Histories
  import opened Requests
  import opened RowLocks
  import Agreement
  import Campaigns
  import Credits
  import Lifecycles
  import Moderation
  import Preservation
  import Profiles
  import StorageKeys
  import Success
  import Workflow

  type Config = Profiles.Config

  // ----- which rows a request adds ----------------------------------------------------------

  /** The writes overwrite rows that exist; profiles are left alone. */
  predicate Overwrites(db: Db, w: Writes) {
    && w.profiles == map[]
    && w.assignments.Keys <= db.assignments.Keys
    && w.submissions.Keys <= db.submissions.Keys
    && w.disputes.Keys <= db.disputes.Keys
  }

  lemma Creating(db: Db, id: Id, owner: Id, p: Campaigns.CampaignPayload)
    requires Campaigns.Create(db, id, owner, p).Ok?
    ensures Overwrites(db, Campaigns.Create(db, id, owner, p).value)
  {
  }

  lemma Updating(db: Db, c: Id, owner: Id, u: Campaigns.CampaignUpdate)
    requires Campaigns.Update(db, c, owner, u).Ok?
    ensures Overwrites(db, Campaigns.Update(db, c, owner, u).value)
  {
  }

  lemma Drafting(db: Db, c: Id, owner: Id, k: Campaigns.ContractPayload)
    requires Campaigns.UpsertContract(db, c, owner, k).Ok?
    ensures Overwrites(db, Campaigns.UpsertContract(db, c, owner, k).value)
  {
  }

  lemma Publishing(db: Db, now: Time, c: Id, owner: Id)
    requires Campaigns.Publish(db, now, c, owner).Ok?
    ensures Overwrites(db, Campaigns.Publish(db, now, c, owner).value)
  {
    hide Credits.HasKey, Credits.AccountBalance;
  }

  lemma Launching(db: Db, now: Time, id: Id, owner: Id, p: Campaigns.CampaignPayload, k: Campaigns.ContractPayload)
    requires Campaigns.Launch(db, now, id, owner, p, k).Ok?
    ensures Overwrites(db, Campaigns.Launch(db, now, id, owner, p, k).value)
  {
    var created := Campaigns.Create(db, id, owner, p).value;
    var d1 := Commit(db, created);
    var drafted := Campaigns.UpsertContract(d1, id, owner, k).value;
    var both := Then(created, drafted);
    var published := Campaigns.Publish(Commit(db, both), now, id, owner).value;
    hide Commit, Campaigns.Publish, Campaigns.Create, Campaigns.UpsertContract, Overwrites, Then;
    Creating(db, id, owner, p);
    Drafting(d1, id, owner, k);
    Twice(db, created, drafted);
    Publishing(Commit(db, both), now, id, owner);
    Twice(db, both, published);
  }

  lemma Twice(db: Db, w: Writes, v: Writes)
    requires Overwrites(db, w) && Overwrites(Commit(db, w), v)
    ensures Overwrites(db, Then(w, v))
  {
  }

  lemma Transitioning(db: Db, now: Time, c: Id, owner: Id, action: Campaigns.Action)
    requires Campaigns.Transition(db, now, c, owner, action).Ok?
    ensures Overwrites(db, Campaigns.Transition(db, now, c, owner, action).value)
  {
    hide Campaigns.MaybeComplete, Occupied;
  }

  lemma Handling(db: Db, now: Time, a: Id, user: Id)
    ensures Workflow.Accept(db, now, a, user).Ok? ==> Overwrites(db, Workflow.Accept(db, now, a, user).value)
    ensures Workflow.Decline(db, now, a, user).Ok? ==> Overwrites(db, Workflow.Decline(db, now, a, user).value)
    ensures Workflow.Withdraw(db, now, a, user).Ok? ==> Overwrites(db, Workflow.Withdraw(db, now, a, user).value)
    ensures Workflow.Start(db, now, a, user).Ok? ==> Overwrites(db, Workflow.Start(db, now, a, user).value)
    ensures Workflow.RecordSession(db, now, a, user).Ok? ==>
              Overwrites(db, Workflow.RecordSession(db, now, a, user).value)
  {
    hide Campaigns.MaybeComplete, Occupied;
  }

  lemma Approving(db: Db, now: Time, id: Id, s: Submission, a: Id, row: Assignment, c: Campaign)
    requires Workflow.Approval(db, now, id, s, a, row, c).Ok? && id in db.submissions && a in db.assignments
    ensures Overwrites(db, Workflow.Approval(db, now, id, s, a, row, c).value)
  {
    hide Campaigns.MaybeComplete, Credits.HasKey, Credits.AccountBalance;
  }

  lemma Examining(db: Db, now: Time, id: Id, reviewer: Id, decision: Decision)
    requires Workflow.Examine(db, now, id, reviewer, decision).Ok?
    ensures Overwrites(db, Workflow.Examine(db, now, id, reviewer, decision).value)
  {
    hide Workflow.Approval, Workflow.HasActiveDispute;
    var s := db.submissions[id];
    var a := db.assignments[s.assignment];
    if decision == Approve {
      Approving(db, now, id, s, s.assignment, a, db.campaigns[a.campaign]);
    }
  }

  lemma Claiming(db: Db, id: Id, moderator: Id)
    requires Moderation.Claim(db, id, moderator).Ok?
    ensures Overwrites(db, Moderation.Claim(db, id, moderator).value)
  {
  }

  lemma Resolving(db: Db, now: Time, id: Id, moderator: Id, r: Moderation.Ruling)
    requires Moderation.Resolve(db, now, id, moderator, r).Ok?
    ensures Overwrites(db, Moderation.Resolve(db, now, id, moderator, r).value)
  {
    hide Workflow.Approval;
    if r.remedy == AwardTester {
      var d := db.disputes[id];
      var a := db.assignments[d.assignment];
      Approving(db, now, d.submission.value, db.submissions[d.submission.value], d.assignment, a,
                db.campaigns[a.campaign]);
    }
  }

  /** Apart from signing up, applying, submitting and escalating, requests only overwrite. */
  lemma OthersOverwrite(cfg: Config, db: Db, now: Time, r: Request)
    requires Handle(cfg, db, now, r).Ok? && !r.UpsertProfile? && !r.Apply? && !r.Submit? && !r.Escalate?
    ensures Overwrites(db, Handle(cfg, db, now, r).value)
  {
    hide Campaigns.Create, Campaigns.Update, Campaigns.UpsertContract, Campaigns.Publish, Campaigns.Launch;
    hide Campaigns.Transition;
    hide Workflow.Accept, Workflow.Decline, Workflow.Withdraw, Workflow.Start, Workflow.RecordSession, Workflow.Examine;
    hide Moderation.Claim, Moderation.Resolve, Overwrites;
    match r
    case CreateCampaign(id, owner, fields) => Creating(db, id, owner, fields);
    case UpdateCampaign(c, owner, change) => Updating(db, c, owner, change);
    case UpsertContract(c, owner, terms) => Drafting(db, c, owner, terms);
    case PublishCampaign(c, owner) => Publishing(db, now, c, owner);
    case LaunchCampaign(id, owner, fields, terms) => Launching(db, now, id, owner, fields, terms);
    case TransitionCampaign(c, owner, action) => Transitioning(db, now, c, owner, action);
    case Accept(a, owner) => Handling(db, now, a, owner);
    case Decline(a, owner) => Handling(db, now, a, owner);
    case Withdraw(a, tester) => Handling(db, now, a, tester);
    case Start(a, tester) => Handling(db, now, a, tester);
    case RecordSession(a, tester) => Handling(db, now, a, tester);
    case Examine(s, reviewer, decision) => Examining(db, now, s, reviewer, decision);
    case Claim(d, moderator) => Claiming(db, d, moderator);
    case Resolve(d, moderator, ruling) => Resolving(db, now, d, moderator, ruling);
  }

  lemma OverwritesAddNothing(db: Db, w: Writes)
    requires Overwrites(db, w)
    ensures Commit(db, w).profiles == db.profiles
    ensures Commit(db, w).assignments.Keys == db.assignments.Keys
    ensures Commit(db, w).submissions.Keys == db.submissions.Keys
    ensures Commit(db, w).disputes.Keys == db.disputes.Keys
  {
    PlusNone(db.profiles);
  }

  /** Only applying adds an assignment, only submitting a submission, only escalating a dispute, and
      only signing up changes profiles. */
  lemma WhoAdds(cfg: Config, db: Db, now: Time, r: Request)
    ensures !r.Apply? ==> Step(cfg, db, now, r).assignments.Keys == db.assignments.Keys
    ensures !r.Submit? ==> Step(cfg, db, now, r).submissions.Keys == db.submissions.Keys
    ensures !r.Escalate? ==> Step(cfg, db, now, r).disputes.Keys == db.disputes.Keys
    ensures !r.UpsertProfile? ==> Step(cfg, db, now, r).profiles == db.profiles
  {
    StepIs(cfg, db, now, r);
    hide Commit, Overwrites, Step, Lifecycles.Advances, Workflow.Apply, Workflow.Submit, Workflow.Escalate;
    hide Profiles.Upsert;
    if Handle(cfg, db, now, r).Ok? {
      match r
      case UpsertProfile(user, username, enabled) => Lifecycles.UpsertAdvances(cfg, db, user, username, enabled);
      case Apply(id, c, tester) => Success.Apply(db, id, c, tester);
      case Submit(id, a, tester, e) =>
        Success.Submit(db, now, id, a, tester, e);
        SameKeys(db.assignments, a, db.assignments[a].(status := Submitted, submittedAt := Some(now)));
      case Escalate(id, a, user, s) => Success.Escalate(db, now, id, a, user, s);
      case _ =>
        OthersOverwrite(cfg, db, now, r);
        OverwritesAddNothing(db, Handle(cfg, db, now, r).value);
    }
  }

  lemma SameKeys<V>(m: map<Id, V>, k: Id, v: V)
    requires k in m
    ensures (m + map[k := v]).Keys == m.Keys
  {
  }

  // ----- what a new row tells ---------------------------------------------------------------

  /** Whoever applies has a profile, does not own the campaign, had not applied, and found a place. */
  lemma NewAssignments(cfg: Config, db: Db, now: Time, r: Request, a: Id)
    requires a in Step(cfg, db, now, r).assignments && a !in db.assignments
    ensures var x := Step(cfg, db, now, r).assignments[a];
            && x.status == Applied && x.tester in db.profiles
            && x.campaign in db.campaigns && db.campaigns[x.campaign].status == Published
            && db.campaigns[x.campaign].owner != x.tester
            && Occupied(db.assignments, x.campaign) < db.campaigns[x.campaign].target
            && (forall b :: b in db.assignments && db.assignments[b].campaign == x.campaign ==>
                  db.assignments[b].tester != x.tester)
  {
    WhoAdds(cfg, db, now, r);
    StepIs(cfg, db, now, r);
    hide Commit, Step, Occupied;
    assert r.Apply? by {
      assert a in Step(cfg, db, now, r).assignments.Keys;
    }
    Success.Apply(db, r.id, r.campaign, r.tester);
  }

  /** Evidence arrives after the minimum duration and with the sessions the contract requires. */
  lemma NewSubmissions(cfg: Config, db: Db, now: Time, r: Request, s: Id)
    requires s in Step(cfg, db, now, r).submissions && s !in db.submissions
    ensures var x := Step(cfg, db, now, r).submissions[s];
            && x.status == Pending && x.submittedAt == now && x.assignment in db.assignments
            && var a := db.assignments[x.assignment];
            && (a.status == InProgress || a.status == ChangesRequested)
            && a.startedAt.Some? && a.campaign in db.contracts
            && now >= a.startedAt.value + db.contracts[a.campaign].minimumDays * DAY
            && |Workflow.SessionDays(db.sessions, x.assignment)| >= db.contracts[a.campaign].requiredSessions
            && x.version == Workflow.LatestVersion(db.submissions, x.assignment) + 1
  {
    WhoAdds(cfg, db, now, r);
    StepIs(cfg, db, now, r);
    hide Commit, Step, Workflow.SessionDays, Workflow.LatestVersion, Workflow.CheckItems, StorageKeys.FolderName;
    hide Workflow.CoveredTaskIds, Workflow.RequiredTaskIds, Workflow.TaskIds;
    assert r.Submit? by {
      assert s in Step(cfg, db, now, r).submissions.Keys;
    }
    hide Workflow.Submit;
    Success.Submit(db, now, r.id, r.assignment, r.tester, r.evidence);
  }

  /** A dispute is opened by the tester, over a rejection or over work whose review window has passed. */
  lemma NewDisputes(cfg: Config, db: Db, now: Time, r: Request, d: Id)
    requires d in Step(cfg, db, now, r).disputes && d !in db.disputes
    ensures var x := Step(cfg, db, now, r).disputes[d];
            && x.status == Open && x.assignment in db.assignments && x.openedBy == db.assignments[x.assignment].tester
            && x.submission.Some? && x.submission.value in db.submissions
            && var s := db.submissions[x.submission.value];
               var a := db.assignments[x.assignment];
            && s.assignment == x.assignment
            && (|| (a.status == Rejected && s.status == Refused)
                || (a.status == Submitted && s.status == Pending && a.campaign in db.contracts
                    && now >= s.submittedAt + db.contracts[a.campaign].reviewWindowHours * HOUR))
            && (forall e :: e in db.disputes ==> db.disputes[e].assignment != x.assignment)
  {
    WhoAdds(cfg, db, now, r);
    StepIs(cfg, db, now, r);
    hide Commit, Step;
    assert r.Escalate? by {
      assert d in Step(cfg, db, now, r).disputes.Keys;
    }
    Success.Escalate(db, now, r.id, r.assignment, r.user, r.disputed);
  }

  // ----- names ------------------------------------------------------------------------------

  ghost predicate UniqueNames(profiles: map<Id, string>) {
    forall u, v :: u in profiles && v in profiles && profiles[u] == profiles[v] ==> u == v
  }

  ghost predicate UniqueSlugs(campaigns: map<Id, Campaign>) {
    forall c, d :: c in campaigns && d in campaigns && campaigns[c].slug == campaigns[d].slug ==> c == d
  }

  /** Campaigns keep their slugs, and a new one comes with a free slug. */
  ghost predicate SlugsFollow(before: map<Id, Campaign>, after: map<Id, Campaign>) {
    && (forall c :: c in before ==> c in after && after[c].slug == before[c].slug)
    && (forall c, d :: c in after && c !in before && d in after && c != d ==> after[c].slug != after[d].slug)
  }

  lemma SlugsStayUnique(before: map<Id, Campaign>, after: map<Id, Campaign>)
    requires UniqueSlugs(before) && SlugsFollow(before, after)
    ensures UniqueSlugs(after)
  {
    forall c, d | c in after && d in after && after[c].slug == after[d].slug
      ensures c == d
    {
      if c in before && d in before {
        assert before[c].slug == before[d].slug;
      }
    }
  }

  /** The campaigns written exist, keep their slugs, and do not start to recruit. */
  predicate Calm(db: Db, w: Writes) {
    forall c | c in w.campaigns ::
      && c in db.campaigns && w.campaigns[c].slug == db.campaigns[c].slug
      && (w.campaigns[c].status == Published ==> db.campaigns[c].status == Published)
  }

  lemma Settling(row: Campaign, c: Id, assignments: map<Id, Assignment>)
    ensures var x := Campaigns.MaybeComplete(row, c, assignments);
            x.slug == row.slug && (x.status == Published ==> row.status == Published)
  {
    hide Campaigns.Finished;
  }

  lemma CalmApproval(db: Db, now: Time, id: Id, s: Submission, a: Id, row: Assignment, c: Campaign)
    requires Workflow.Approval(db, now, id, s, a, row, c).Ok? && row.campaign in db.campaigns
    requires c == db.campaigns[row.campaign]
    ensures Calm(db, Workflow.Approval(db, now, id, s, a, row, c).value)
  {
    Settling(c, row.campaign, db.assignments + map[a := row.(status := Approved, completedAt := Some(now))]);
    hide Campaigns.MaybeComplete, Credits.HasKey, Credits.AccountBalance;
  }

  lemma CalmExamination(db: Db, now: Time, id: Id, reviewer: Id, decision: Decision)
    requires Workflow.Examine(db, now, id, reviewer, decision).Ok?
    ensures Calm(db, Workflow.Examine(db, now, id, reviewer, decision).value)
  {
    hide Workflow.Approval, Workflow.HasActiveDispute;
    var s := db.submissions[id];
    var a := db.assignments[s.assignment];
    if decision == Approve {
      CalmApproval(db, now, id, s, s.assignment, a, db.campaigns[a.campaign]);
    }
  }

  lemma CalmRuling(db: Db, now: Time, id: Id, moderator: Id, r: Moderation.Ruling)
    requires Moderation.Resolve(db, now, id, moderator, r).Ok?
    ensures Calm(db, Moderation.Resolve(db, now, id, moderator, r).value)
  {
    hide Workflow.Approval;
    if r.remedy == AwardTester {
      var d := db.disputes[id];
      var a := db.assignments[d.assignment];
      CalmApproval(db, now, d.submission.value, db.submissions[d.submission.value], d.assignment, a,
                   db.campaigns[a.campaign]);
    }
  }

  lemma CalmWithdrawal(db: Db, now: Time, a: Id, tester: Id)
    requires Workflow.Withdraw(db, now, a, tester).Ok?
    ensures Calm(db, Workflow.Withdraw(db, now, a, tester).value)
  {
    var row := db.assignments[a];
    Settling(db.campaigns[row.campaign], row.campaign,
             db.assignments + map[a := row.(status := Cancelled, completedAt := Some(now))]);
    hide Campaigns.MaybeComplete;
  }

  lemma CalmTransition(db: Db, now: Time, c: Id, owner: Id, action: Campaigns.Action)
    requires Campaigns.Transition(db, now, c, owner, action).Ok? && action != Campaigns.Resume
    ensures Calm(db, Campaigns.Transition(db, now, c, owner, action).value)
  {
    Settling(db.campaigns[c].(status := Closed), c, db.assignments + Campaigns.Declined(db.assignments, c, now));
    hide Campaigns.MaybeComplete, Campaigns.Declined, Occupied;
  }

  lemma CalmHandling(db: Db, now: Time, a: Id, user: Id)
    ensures Workflow.Accept(db, now, a, user).Ok? ==> Calm(db, Workflow.Accept(db, now, a, user).value)
    ensures Workflow.Decline(db, now, a, user).Ok? ==> Calm(db, Workflow.Decline(db, now, a, user).value)
    ensures Workflow.Start(db, now, a, user).Ok? ==> Calm(db, Workflow.Start(db, now, a, user).value)
    ensures Workflow.RecordSession(db, now, a, user).Ok? ==> Calm(db, Workflow.RecordSession(db, now, a, user).value)
  {
    hide Occupied;
  }

  lemma CalmApplication(db: Db, id: Id, c: Id, tester: Id)
    requires Workflow.Apply(db, id, c, tester).Ok?
    ensures Calm(db, Workflow.Apply(db, id, c, tester).value)
  {
    hide Occupied, Workflow.HasApplied;
  }

  lemma CalmEscalation(db: Db, now: Time, id: Id, a: Id, user: Id, s: Option<Id>)
    requires Workflow.Escalate(db, now, id, a, user, s).Ok?
    ensures Calm(db, Workflow.Escalate(db, now, id, a, user, s).value)
  {
    hide Workflow.HasDispute;
  }

  lemma CalmClaim(db: Db, id: Id, moderator: Id)
    requires Moderation.Claim(db, id, moderator).Ok?
    ensures Calm(db, Moderation.Claim(db, id, moderator).value)
  {
  }

  lemma CalmSubmission(db: Db, now: Time, id: Id, a: Id, tester: Id, e: Workflow.EvidencePayload)
    requires Workflow.Submit(db, now, id, a, tester, e).Ok?
    ensures Calm(db, Workflow.Submit(db, now, id, a, tester, e).value)
  {
    hide Workflow.SessionDays, Workflow.LatestVersion, Workflow.CheckItems, StorageKeys.FolderName;
    hide Workflow.CoveredTaskIds, Workflow.RequiredTaskIds, Workflow.TaskIds;
  }

  lemma CalmUpdate(db: Db, c: Id, owner: Id, u: Campaigns.CampaignUpdate)
    requires Campaigns.Update(db, c, owner, u).Ok?
    ensures Calm(db, Campaigns.Update(db, c, owner, u).value)
  {
  }

  lemma CalmContract(db: Db, c: Id, owner: Id, k: Campaigns.ContractPayload)
    requires Campaigns.UpsertContract(db, c, owner, k).Ok?
    ensures Calm(db, Campaigns.UpsertContract(db, c, owner, k).value)
  {
  }

  /** Starting to recruit. */
  predicate Opens(r: Request) {
    r.PublishCampaign? || r.LaunchCampaign? || (r.TransitionCampaign? && r.action == Campaigns.Resume)
  }

  lemma OthersAreCalm(cfg: Config, db: Db, now: Time, r: Request)
    requires Handle(cfg, db, now, r).Ok? && !Opens(r) && !r.CreateCampaign? && !r.UpsertProfile?
    ensures Calm(db, Handle(cfg, db, now, r).value)
  {
    hide Campaigns.Update, Campaigns.UpsertContract, Campaigns.Transition, Workflow.Apply, Workflow.Accept;
    hide Workflow.Decline;
    hide Workflow.Withdraw, Workflow.Start, Workflow.RecordSession, Workflow.Submit, Workflow.Examine;
    hide Workflow.Escalate;
    hide Moderation.Claim, Moderation.Resolve, Calm;
    match r
    case UpdateCampaign(c, owner, change) => CalmUpdate(db, c, owner, change);
    case UpsertContract(c, owner, terms) => CalmContract(db, c, owner, terms);
    case TransitionCampaign(c, owner, action) => CalmTransition(db, now, c, owner, action);
    case Apply(id, c, tester) => CalmApplication(db, id, c, tester);
    case Accept(a, owner) => CalmHandling(db, now, a, owner);
    case Decline(a, owner) => CalmHandling(db, now, a, owner);
    case Withdraw(a, tester) => CalmWithdrawal(db, now, a, tester);
    case Start(a, tester) => CalmHandling(db, now, a, tester);
    case RecordSession(a, tester) => CalmHandling(db, now, a, tester);
    case Submit(id, a, tester, evidence) => CalmSubmission(db, now, id, a, tester, evidence);
    case Examine(s, reviewer, decision) => CalmExamination(db, now, s, reviewer, decision);
    case Escalate(id, a, user, s) => CalmEscalation(db, now, id, a, user, s);
    case Claim(d, moderator) => CalmClaim(db, d, moderator);
    case Resolve(d, moderator, ruling) => CalmRuling(db, now, d, moderator, ruling);
  }

  // ----- slugs and user names ---------------------------------------------------------------

  lemma CalmKeepsSlugs(db: Db, w: Writes)
    requires Calm(db, w)
    ensures SlugsFollow(db.campaigns, Commit(db, w).campaigns)
  {
  }

  lemma OneSlug(campaigns: map<Id, Campaign>, c: Id, x: Campaign)
    requires if c in campaigns then x.slug == campaigns[c].slug else !Campaigns.SlugInUse(campaigns, x.slug)
    ensures SlugsFollow(campaigns, campaigns + map[c := x])
  {
  }

  lemma PublishKeepsSlug(db: Db, now: Time, c: Id, owner: Id)
    requires Campaigns.Publish(db, now, c, owner).Ok?
    ensures var after := Commit(db, Campaigns.Publish(db, now, c, owner).value).campaigns;
            c in db.campaigns && c in after && after == db.campaigns + map[c := after[c]] &&
              after[c].slug == db.campaigns[c].slug
  {
    Lifecycles.PublishWrites(db, now, c, owner);
    hide Credits.HasKey, Credits.AccountBalance;
  }

  lemma LaunchTakesAFreeSlug(db: Db, now: Time, id: Id, owner: Id, p: Campaigns.CampaignPayload,
                             k: Campaigns.ContractPayload)
    requires Campaigns.Launch(db, now, id, owner, p, k).Ok?
    ensures var after := Commit(db, Campaigns.Launch(db, now, id, owner, p, k).value).campaigns;
            id !in db.campaigns && id in after && after == db.campaigns + map[id := after[id]] &&
              after[id].slug == p.slug
    ensures !Campaigns.SlugInUse(db.campaigns, p.slug)
  {
    hide *;
    Success.LaunchChain(db, now, id, owner, p, k);
    CreateTakesAFreeSlug(db, id, owner, p);
    var d1 := Commit(db, Campaigns.Create(db, id, owner, p).value);
    Success.Create(db, id, owner, p);
    Success.UpsertContract(d1, id, owner, k);
    var d2 := Commit(d1, Campaigns.UpsertContract(d1, id, owner, k).value);
    PublishKeepsSlug(d2, now, id, owner);
    Lifecycles.LaunchWrites(db, now, id, owner, p, k);
    Lifecycles.OneKey(db.campaigns, id, Campaign(owner, p.slug, p.target, p.reward, Draft, None));
  }

  lemma CreateTakesAFreeSlug(db: Db, id: Id, owner: Id, p: Campaigns.CampaignPayload)
    requires Campaigns.Create(db, id, owner, p).Ok?
    ensures !Campaigns.SlugInUse(db.campaigns, p.slug)
  {
  }

  lemma HandleKeepsSlugs(cfg: Config, db: Db, now: Time, r: Request)
    requires Handle(cfg, db, now, r).Ok?
    ensures SlugsFollow(db.campaigns, Commit(db, Handle(cfg, db, now, r).value).campaigns)
  {
    hide Commit, SlugsFollow, Calm, Lifecycles.Advances, Profiles.Upsert, Campaigns.Create, Campaigns.Publish;
    hide Campaigns.Launch;
    hide Campaigns.Transition, Campaigns.SlugInUse, Occupied;
    match r
    case UpsertProfile(user, username, enabled) =>
      Lifecycles.UpsertAdvances(cfg, db, user, username, enabled);
      SameSlugs(db.campaigns);
    case CreateCampaign(id, owner, p) =>
      Success.Create(db, id, owner, p);
      CreateTakesAFreeSlug(db, id, owner, p);
      OneSlug(db.campaigns, id, Campaign(owner, p.slug, p.target, p.reward, Draft, None));
    case PublishCampaign(c, owner) =>
      PublishKeepsSlug(db, now, c, owner);
      OneSlug(db.campaigns, c, Commit(db, Campaigns.Publish(db, now, c, owner).value).campaigns[c]);
    case LaunchCampaign(id, owner, p, k) =>
      LaunchTakesAFreeSlug(db, now, id, owner, p, k);
      OneSlug(db.campaigns, id, Commit(db, Campaigns.Launch(db, now, id, owner, p, k).value).campaigns[id]);
    case TransitionCampaign(c, owner, action) =>
      if action == Campaigns.Resume {
        Success.Transition(db, now, c, owner, action);
        OneSlug(db.campaigns, c, db.campaigns[c].(status := Published));
      } else {
        OthersAreCalm(cfg, db, now, r);
        CalmKeepsSlugs(db, Handle(cfg, db, now, r).value);
      }
    case _ =>
      OthersAreCalm(cfg, db, now, r);
      CalmKeepsSlugs(db, Handle(cfg, db, now, r).value);
  }

  lemma SameSlugs(campaigns: map<Id, Campaign>)
    ensures SlugsFollow(campaigns, campaigns)
  {
  }

  lemma SignupTakesAFreeName(cfg: Config, db: Db, user: Id, username: string, enabled: bool)
    requires Profiles.Upsert(db, cfg, user, username, enabled).Ok?
    ensures !Profiles.UsernameTakenBy(db.profiles, username, user)
    ensures Commit(db, Profiles.Upsert(db, cfg, user, username, enabled).value).profiles ==
            db.profiles + map[user := username]
  {
    hide *;
    Success.NameWasFree(db, cfg, user, username, enabled);
    if user in db.profiles {
      Success.Rename(db, cfg, user, username, enabled);
    } else {
      Success.Join(db, cfg, user, username, enabled);
      GrantLeavesProfiles(Success.Admitted(db, user, username), cfg, user);
      AdmittedProfiles(db, user, username);
    }
  }

  lemma GrantLeavesProfiles(db: Db, cfg: Config, user: Id)
    requires Profiles.Grant(db, cfg, user).Ok?
    ensures Commit(db, Profiles.Grant(db, cfg, user).value).profiles == db.profiles
  {
    hide Commit, Profiles.Grant;
    Success.GrantRows(db, cfg, user);
  }

  lemma AdmittedProfiles(db: Db, user: Id, username: string)
    ensures Success.Admitted(db, user, username).profiles == db.profiles + map[user := username]
  {
  }

  lemma NamesStayUnique(profiles: map<Id, string>, user: Id, username: string)
    requires UniqueNames(profiles) && !Profiles.UsernameTakenBy(profiles, username, user)
    ensures UniqueNames(profiles + map[user := username])
  {
  }

  lemma StepKeepsNames(cfg: Config, db: Db, now: Time, r: Request)
    requires UniqueNames(db.profiles)
    ensures UniqueNames(Step(cfg, db, now, r).profiles)
  {
    hide *;
    WhoAdds(cfg, db, now, r);
    StepIs(cfg, db, now, r);
    if r.UpsertProfile? && Handle(cfg, db, now, r).Ok? {
      SignupHandled(cfg, db, now, r);
      SignupTakesAFreeName(cfg, db, r.user, r.username, r.enabled);
      NamesStayUnique(db.profiles, r.user, r.username);
    }
  }

  lemma SignupHandled(cfg: Config, db: Db, now: Time, r: Request)
    requires r.UpsertProfile?
    ensures Handle(cfg, db, now, r) == Profiles.Upsert(db, cfg, r.user, r.username, r.enabled)
  {
    hide Profiles.Upsert;
  }

  lemma StepKeepsSlugs(cfg: Config, db: Db, now: Time, r: Request)
    ensures SlugsFollow(db.campaigns, Step(cfg, db, now, r).campaigns)
  {
    hide *;
    StepIs(cfg, db, now, r);
    SameSlugs(db.campaigns);
    if Handle(cfg, db, now, r).Ok? {
      HandleKeepsSlugs(cfg, db, now, r);
    }
  }

  /** What a transaction commits was checked against names and slugs that others could take in the
      meantime; the unique columns it passes at the commit leave all names apart. */
  lemma FinishKeepsNames(cfg: Config, db: Db, clock: Time, x: Transaction)
    requires Inv(cfg, db, clock) && TransactionFits(cfg, db, clock, x) && x.plan.Some?
    requires Agreement.Fresh(x.plan.value.view, db, x.request) && UniqueNames(db.profiles)
    ensures UniqueNames(Commit(db, x.plan.value.writes).profiles)
    ensures SlugsFollow(db.campaigns, Commit(db, x.plan.value.writes).campaigns)
  {
    hide *;
    var p := x.plan.value;
    DecisionStands(cfg, db, clock, x);
    var serial := Handle(cfg, db, p.decidedAt, x.request).value;
    StepIs(cfg, db, p.decidedAt, x.request);
    StepKeepsNames(cfg, db, p.decidedAt, x.request);
    HandleKeepsSlugs(cfg, db, p.decidedAt, x.request);
    if p.writes != serial {
      var c := LateCampaign(db, p.writes, serial);
      LateKeepsSlugs(db, p.writes, serial, c);
    }
  }

  lemma DecisionStands(cfg: Config, db: Db, clock: Time, x: Transaction)
    requires Inv(cfg, db, clock) && TransactionFits(cfg, db, clock, x) && x.plan.Some?
    requires Agreement.Fresh(x.plan.value.view, db, x.request)
    ensures var p := x.plan.value;
            && Handle(cfg, db, p.decidedAt, x.request).Ok?
            && Agreement.SameOrLate(db, p.writes, Handle(cfg, db, p.decidedAt, x.request).value)
  {
    var p := x.plan.value;
    hide Inv, Current, Evolves, Handle, Locks, Commit, Exists, Agreement.SameOrLate, Agreement.Fresh;
    Agreement.Agrees(cfg, p.view, db, p.decidedAt, clock, x.request, x.held);
  }

  lemma LateCampaign(db: Db, mine: Writes, serial: Writes) returns (c: Id)
    requires Agreement.SameOrLate(db, mine, serial) && mine != serial
    ensures Agreement.Late(db, mine, serial, c)
  {
    hide Agreement.Late;
    c :| Agreement.Late(db, mine, serial, c);
  }

  lemma LateKeepsSlugs(db: Db, mine: Writes, serial: Writes, c: Id)
    requires Agreement.Late(db, mine, serial, c) && SlugsFollow(db.campaigns, Commit(db, serial).campaigns)
    ensures Commit(db, mine).profiles == Commit(db, serial).profiles
    ensures SlugsFollow(db.campaigns, Commit(db, mine).campaigns)
  {
    hide *;
    Agreement.LateShape(db, mine, serial, c);
    var good := Commit(db, serial).campaigns;
    Reslugged(db.campaigns, good, c, good[c].(status := Closed));
  }

  lemma Reslugged(before: map<Id, Campaign>, after: map<Id, Campaign>, c: Id, x: Campaign)
    requires SlugsFollow(before, after) && c in after && x.slug == after[c].slug
    ensures SlugsFollow(before, after + map[c := x])
  {
  }

  /** No two profiles ever share a user name, and no two campaigns a slug. */
  lemma {:induction false} NamesAreUnique(cfg: Config, start: Time, actions: seq<Action>)
    ensures UniqueNames(AfterAll(cfg, start, actions).db.profiles)
    ensures UniqueSlugs(AfterAll(cfg, start, actions).db.campaigns)
  {
    if actions != [] {
      var before := actions[..|actions| - 1];
      NamesAreUnique(cfg, start, before);
      EveryInterleavingKeeps(cfg, start, before);
      var now := AfterAll(cfg, start, before);
      assert AfterAll(cfg, start, actions) == Do(cfg, now, actions[|actions| - 1]);
      hide Consistent, Do, AfterAll, UniqueNames, UniqueSlugs;
      DoKeepsNames(cfg, now, actions[|actions| - 1]);
      SlugsStayUnique(now.db.campaigns, AfterAll(cfg, start, actions).db.campaigns);
    }
  }

  lemma DoKeepsNames(cfg: Config, s: System, x: Action)
    requires Consistent(cfg, s) && UniqueNames(s.db.profiles)
    ensures UniqueNames(Do(cfg, s, x).db.profiles)
    ensures SlugsFollow(s.db.campaigns, Do(cfg, s, x).db.campaigns)
  {
    SameSlugs(s.db.campaigns);
    hide Inv, TransactionFits, Handle, Locks, Agreement.Fresh, Commit, Exists, SlugsFollow, UniqueNames, Step;
    if x.Finish? && x.id in s.open && s.open[x.id].plan.Some? &&
       Agreement.Fresh(s.open[x.id].plan.value.view, s.db, s.open[x.id].request) {
      FinishKeepsNames(cfg, s.db, s.clock, s.open[x.id]);
    } else if x.Serve? {
      StepKeepsNames(cfg, s.db, s.clock, x.request);
      StepKeepsSlugs(cfg, s.db, s.clock, x.request);
    }
  }

  // ----- recruiting -------------------------------------------------------------------------

  /** A campaign that starts to recruit, by being published, launched or resumed, has a place. */
  lemma RecruitingNeedsAPlace(cfg: Config, db: Db, t: Time, now: Time, r: Request, c: Id)
    requires Reachable(cfg, db, t)
    requires var after := Step(cfg, db, now, r).campaigns; c in after && after[c].status == Published
    requires c in db.campaigns ==> db.campaigns[c].status != Published
    ensures Occupied(Step(cfg, db, now, r).assignments, c) < Step(cfg, db, now, r).campaigns[c].target
  {
    hide Reachable, Inv, Handle, Step, Commit, Occupied;
    ReachableHolds(cfg, db, t);
    StepIs(cfg, db, now, r);
    OnlyOpenersOpen(cfg, db, now, r, c);
    if r.PublishCampaign? || r.LaunchCampaign? {
      FirstPlaces(cfg, db, t, now, r, c);
    } else {
      Resuming(cfg, db, now, r, c);
    }
  }

  lemma OnlyOpenersOpen(cfg: Config, db: Db, now: Time, r: Request, c: Id)
    requires var after := Step(cfg, db, now, r).campaigns; c in after && after[c].status == Published
    requires c in db.campaigns ==> db.campaigns[c].status != Published
    ensures Handle(cfg, db, now, r).Ok? && Opens(r)
  {
    StepIs(cfg, db, now, r);
    hide Step, Commit, Handle;
    assert Handle(cfg, db, now, r).Ok?;
    if !Opens(r) {
      if r.UpsertProfile? {
        SignupHandled(cfg, db, now, r);
        hide Lifecycles.Advances;
        Lifecycles.UpsertAdvances(cfg, db, r.user, r.username, r.enabled);
        assert false;
      } else if r.CreateCampaign? {
        NewIsDraft(cfg, db, now, r);
        assert false;
      } else {
        OthersAreCalm(cfg, db, now, r);
        CalmOpensNothing(db, Handle(cfg, db, now, r).value, c);
        assert false;
      }
    }
  }

  lemma NewIsDraft(cfg: Config, db: Db, now: Time, r: Request)
    requires r.CreateCampaign? && Handle(cfg, db, now, r).Ok?
    ensures var after := Commit(db, Handle(cfg, db, now, r).value).campaigns;
            forall c | c in after && after[c].status == Published ::
              c in db.campaigns && db.campaigns[c].status == Published
  {
    Success.Create(db, r.id, r.owner, r.fields);
    hide Commit, Campaigns.Create;
  }

  lemma CalmOpensNothing(db: Db, w: Writes, c: Id)
    requires Calm(db, w) && c in Commit(db, w).campaigns && Commit(db, w).campaigns[c].status == Published
    ensures c in db.campaigns && db.campaigns[c].status == Published
  {
  }

  lemma Resuming(cfg: Config, db: Db, now: Time, r: Request, c: Id)
    requires r.TransitionCampaign? && r.action == Campaigns.Resume && Handle(cfg, db, now, r).Ok?
    requires var after := Commit(db, Handle(cfg, db, now, r).value).campaigns;
             c in after && after[c].status == Published
    requires c in db.campaigns ==> db.campaigns[c].status != Published
    ensures var after := Commit(db, Handle(cfg, db, now, r).value);
            Occupied(after.assignments, c) < after.campaigns[c].target
  {
    hide Commit, Occupied;
    Success.Transition(db, now, r.campaign, r.owner, r.action);
  }

  /** Nobody has a place in a campaign that was never published. */
  lemma FirstPlaces(cfg: Config, db: Db, t: Time, now: Time, r: Request, c: Id)
    requires Inv(cfg, db, t) && Handle(cfg, db, now, r).Ok? && (r.PublishCampaign? || r.LaunchCampaign?)
    requires var after := Commit(db, Handle(cfg, db, now, r).value).campaigns;
             c in after && after[c].status == Published
    requires c in db.campaigns ==> db.campaigns[c].status != Published
    ensures var after := Commit(db, Handle(cfg, db, now, r).value);
            Occupied(after.assignments, c) < after.campaigns[c].target
  {
    hide *;
    Preservation.Parts(cfg, db, t);
    PublishedRow(cfg, db, now, r, c);
    NobodyOnDrafts(db.profiles, db.campaigns, db.assignments, c);
    PositiveTarget(db.profiles, db.campaigns, db.contracts, c);
  }

  lemma PublishedRow(cfg: Config, db: Db, now: Time, r: Request, c: Id)
    requires Handle(cfg, db, now, r).Ok? && (r.PublishCampaign? || r.LaunchCampaign?)
    requires var after := Commit(db, Handle(cfg, db, now, r).value).campaigns;
             c in after && after[c].status == Published
    requires c in db.campaigns ==> db.campaigns[c].status != Published
    ensures var after := Commit(db, Handle(cfg, db, now, r).value);
            && after.assignments == db.assignments
            && (c in db.campaigns ==>
                  db.campaigns[c].status == Draft && after.campaigns[c].target == db.campaigns[c].target)
            && (c !in db.campaigns ==> after.campaigns[c].target >= 1)
  {
    hide Commit, Campaigns.Publish, Campaigns.Launch;
    if r.PublishCampaign? {
      Lifecycles.PublishWrites(db, now, r.campaign, r.owner);
      PublishKeepsTarget(db, now, r.campaign, r.owner);
    } else {
      Lifecycles.LaunchWrites(db, now, r.id, r.owner, r.fields, r.terms);
      LaunchKeepsTarget(db, now, r.id, r.owner, r.fields, r.terms);
    }
  }

  lemma PublishKeepsTarget(db: Db, now: Time, c: Id, owner: Id)
    requires Campaigns.Publish(db, now, c, owner).Ok?
    ensures var after := Commit(db, Campaigns.Publish(db, now, c, owner).value).campaigns;
            c in db.campaigns && c in after && after[c].target == db.campaigns[c].target
            && (db.campaigns[c].status == Published || db.campaigns[c].status == Draft)
  {
    Lifecycles.PublishWrites(db, now, c, owner);
    hide Credits.HasKey, Credits.AccountBalance;
  }

  lemma LaunchKeepsTarget(db: Db, now: Time, id: Id, owner: Id, p: Campaigns.CampaignPayload,
                          k: Campaigns.ContractPayload)
    requires Campaigns.Launch(db, now, id, owner, p, k).Ok?
    ensures var after := Commit(db, Campaigns.Launch(db, now, id, owner, p, k).value).campaigns;
            id in after && after[id].target == p.target
  {
    hide *;
    Success.LaunchChain(db, now, id, owner, p, k);
    var d1 := Commit(db, Campaigns.Create(db, id, owner, p).value);
    Success.Create(db, id, owner, p);
    Success.UpsertContract(d1, id, owner, k);
    var d2 := Commit(d1, Campaigns.UpsertContract(d1, id, owner, k).value);
    PublishKeepsTarget(d2, now, id, owner);
    Lifecycles.OneKey(db.campaigns, id, Campaign(owner, p.slug, p.target, p.reward, Draft, None));
  }

  lemma NobodyOnDrafts(profiles: map<Id, string>, campaigns: map<Id, Campaign>, assignments: map<Id, Assignment>, c: Id)
    requires Assigned(profiles, campaigns, assignments) && (c in campaigns ==> campaigns[c].status == Draft)
    ensures Occupied(assignments, c) == 0
  {
    forall a | a in assignments
      ensures assignments[a].campaign != c
    {
      assert AssignmentFits(assignments[a], profiles, campaigns);
    }
    assert WithStatus(assignments, c, OCCUPIED) == {};
  }

  lemma PositiveTarget(profiles: map<Id, string>, campaigns: map<Id, Campaign>, contracts: map<Id, Contract>, c: Id)
    requires Drafted(profiles, campaigns, contracts)
    ensures c in campaigns ==> campaigns[c].target >= 1
  {
    assert c in campaigns ==> CampaignFits(campaigns[c], c, profiles, contracts);
  }
}
