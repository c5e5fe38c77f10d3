/** What the accepted requests on campaigns and evidence leave, field by field. */
module Changes {
  import opened Model
  import opened Results
  import opened Invariants
  import opened Histories
  import Agreement
  import Campaigns
  import Credits
  import Profiles
  import Success
  import Versioning
  import Workflow

  type Config = Profiles.Config

  /** The row of one key may differ; every other row is the same. */
  ghost predicate OnlyAt<V>(before: map<Id, V>, after: map<Id, V>, k: Id) {
    after.Keys == before.Keys + {k} && forall j :: j in before && j != k ==> after[j] == before[j]
  }

  lemma OneRow<V>(before: map<Id, V>, k: Id, v: V)
    ensures OnlyAt(before, before + map[k := v], k) && (before + map[k := v])[k] == v
  {
    assert (before + map[k := v]).Keys == before.Keys + {k};
  }

  // ----- drafts -----------------------------------------------------------------------------

  /** A field that was sent has the value that was sent, any other the one it had. */
  lemma Updated(db: Db, c: Id, owner: Id, u: Campaigns.CampaignUpdate)
    requires Campaigns.Update(db, c, owner, u).Ok?
    ensures c in db.campaigns
    ensures var after := Commit(db, Campaigns.Update(db, c, owner, u).value);
            && after == db.(campaigns := after.campaigns) && OnlyAt(db.campaigns, after.campaigns, c)
            && after.campaigns[c] == db.campaigns[c].(target := after.campaigns[c].target,
                                                      reward := after.campaigns[c].reward)
            && (u.target.Some? ==> after.campaigns[c].target == u.target.value)
            && (u.target.None? ==> after.campaigns[c].target == db.campaigns[c].target)
            && (u.reward.Some? ==> after.campaigns[c].reward == u.reward.value)
            && (u.reward.None? ==> after.campaigns[c].reward == db.campaigns[c].reward)
  {
    hide Commit, Campaigns.Update, OnlyAt;
    Success.Update(db, c, owner, u);
    OneRow(db.campaigns, c, Campaigns.Changed(db.campaigns[c], u));
  }

  /** A saved contract carries exactly the terms of the last payload, whatever it said before. */
  lemma TermsSaved(db: Db, c: Id, owner: Id, p: Campaigns.ContractPayload)
    requires Campaigns.UpsertContract(db, c, owner, p).Ok?
    ensures var after := Commit(db, Campaigns.UpsertContract(db, c, owner, p).value);
            && after == db.(contracts := after.contracts) && OnlyAt(db.contracts, after.contracts, c)
            && after.contracts[c].reviewWindowHours == p.reviewWindowHours
            && after.contracts[c].minimumDays == p.minimumDays
            && after.contracts[c].requiredSessions == p.requiredSessions
            && after.contracts[c].tasks == p.tasks && !after.contracts[c].locked
            && after.contracts[c].version == (if c in db.contracts then db.contracts[c].version + 1 else 1)
  {
    hide Commit, Campaigns.UpsertContract, OnlyAt;
    Success.UpsertContract(db, c, owner, p);
    OneRow(db.contracts, c, Campaigns.Revised(db, c, p));
  }

  // ----- publishing -------------------------------------------------------------------------

  /** The owner pays target times reward, once; the campaign is open and its terms are locked. */
  lemma Published(cfg: Config, db: Db, t: Time, now: Time, c: Id, owner: Id)
    requires Reachable(cfg, db, t) && Campaigns.Publish(db, now, c, owner).Ok?
    requires c in db.campaigns && db.campaigns[c].status == Draft
    ensures c in db.contracts && owner in db.accounts && owner == db.campaigns[c].owner
    ensures var row := db.campaigns[c];
            Commit(db, Campaigns.Publish(db, now, c, owner).value) ==
            db.(campaigns := db.campaigns +
                map[c := row.(status := CampaignStatus.Published, publishedAt := Some(now))],
                contracts := db.contracts + map[c := db.contracts[c].(locked := true)],
                accounts := db.accounts + map[owner := db.accounts[owner] - row.target * row.reward],
                ledger := db.ledger + [Entry(owner, -(row.target * row.reward), Posting, PostingKey(c))])
  {
    hide Reachable, Inv, Commit, Campaigns.Publish, Credits.HasKey;
    ReachableHolds(cfg, db, t);
    Agreement.NoPostingYet(cfg, db, t, c);
    Success.Publish(db, now, c, owner);
    Agreement.OwnerJoined(cfg, db, t, c);
    HasAccount(cfg, db, t, owner);
  }

  lemma HasAccount(cfg: Config, db: Db, t: Time, u: Id)
    requires Inv(cfg, db, t) && u in db.profiles
    ensures u in db.accounts
  {
    hide Drafted, Assigned, History, Reviewed, Disputes, Ledgered, Booked, Capacity, Progress, Clocked, Evidenced;
    assert u in db.profiles.Keys;
  }

  /** A launched campaign is what drafting it, saving its terms and publishing it would leave. */
  lemma Launched(cfg: Config, db: Db, t: Time, now: Time, id: Id, owner: Id, p: Campaigns.CampaignPayload,
                 k: Campaigns.ContractPayload)
    requires Reachable(cfg, db, t) && Campaigns.Launch(db, now, id, owner, p, k).Ok?
    ensures id !in db.campaigns && id !in db.contracts && owner in db.accounts
    ensures Commit(db, Campaigns.Launch(db, now, id, owner, p, k).value) ==
            db.(campaigns := db.campaigns +
                  map[id := Campaign(owner, p.slug, p.target, p.reward, CampaignStatus.Published, Some(now))],
                contracts := db.contracts +
                  map[id := Contract(1, k.reviewWindowHours, k.minimumDays, k.requiredSessions, k.tasks, true)],
                accounts := db.accounts + map[owner := db.accounts[owner] - p.target * p.reward],
                ledger := db.ledger + [Entry(owner, -(p.target * p.reward), Posting, PostingKey(id))])
  {
    hide Reachable, Inv, Commit, Campaigns.Launch, Credits.HasKey, Campaigns.Create;
    ReachableHolds(cfg, db, t);
    Agreement.Unposted(cfg, db, t);
    Success.LaunchChain(db, now, id, owner, p, k);
    Success.Create(db, id, owner, p);
    HasAccount(cfg, db, t, owner);
    Success.Launch(db, now, id, owner, p, k);
  }

  // ----- closing ----------------------------------------------------------------------------

  /** Closing cancels the applications of the campaign, now, and no other work. */
  lemma Closed(db: Db, now: Time, c: Id, owner: Id)
    requires Campaigns.Transition(db, now, c, owner, Campaigns.Close).Ok?
    ensures var after := Commit(db, Campaigns.Transition(db, now, c, owner, Campaigns.Close).value);
            && after == db.(campaigns := after.campaigns, assignments := after.assignments)
            && after.assignments.Keys == db.assignments.Keys
            && (forall a :: a in db.assignments ==>
                  after.assignments[a] ==
                  if db.assignments[a].campaign == c && db.assignments[a].status == Applied
                  then db.assignments[a].(status := Cancelled, completedAt := Some(now))
                  else db.assignments[a])
  {
    hide Commit, Campaigns.Transition, Campaigns.MaybeComplete;
    Success.Transition(db, now, c, owner, Campaigns.Close);
  }

  // ----- evidence ---------------------------------------------------------------------------

  /** The n-th submission of an assignment is its version n, pending from now on. */
  lemma Submitted(cfg: Config, db: Db, t: Time, now: Time, id: Id, a: Id, tester: Id, e: Workflow.EvidencePayload)
    requires Reachable(cfg, db, t) && Workflow.Submit(db, now, id, a, tester, e).Ok?
    ensures a in db.assignments && id !in db.submissions
    ensures var earlier := set s | s in db.submissions && db.submissions[s].assignment == a;
            Commit(db, Workflow.Submit(db, now, id, a, tester, e).value) ==
            db.(submissions := db.submissions +
                  map[id := Submission(a, |earlier| + 1, e.specificSummary, e.items, Pending, now)],
                assignments := db.assignments +
                  map[a := db.assignments[a].(status := AssignmentStatus.Submitted, submittedAt := Some(now))])
  {
    hide Reachable, Commit, Workflow.Submit, Workflow.LatestVersion;
    Success.Submit(db, now, id, a, tester, e);
    Versioning.HistoryHolds(cfg, db, t);
    Versioning.Consecutive(db.assignments, db.submissions, a);
    hide History, Workflow.Versions, Versioning.Numbers, Reviewed, Disputes, Clocked, Evidenced;
    assert (set s | s in db.submissions && db.submissions[s].assignment == a) == SubmissionsOf(db.submissions, a);
  }
}
