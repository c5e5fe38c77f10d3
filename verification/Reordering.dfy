/** Databases that differ only in the order of their ledgers, and writes in another order. */
module Reordering {
  import opened Model
  import opened Results
  import opened Requests
  import Campaigns
  import Credits
  import Moderation
  import Profiles
  import Workflow

  type Config = Profiles.Config

  /** The same rows, and the same ledger entries in some order. */
  ghost predicate Alike(d: Db, e: Db) {
    e == d.(ledger := e.ledger) && multiset(e.ledger) == multiset(d.ledger)
  }

  lemma AlikeSelf(d: Db)
    ensures Alike(d, d)
  {
  }

  lemma AlikeVia(a: Db, b: Db, c: Db)
    requires Alike(a, b) && Alike(c, b)
    ensures Alike(a, c)
  {
  }

  lemma AlikeTransitive(a: Db, b: Db, c: Db)
    requires Alike(a, b) && Alike(b, c)
    ensures Alike(a, c)
  {
  }

  lemma AlikeCommit(d: Db, e: Db, w: Writes)
    requires Alike(d, e)
    ensures Alike(Commit(d, w), Commit(e, w))
  {
    assert multiset(d.ledger + w.entries) == multiset(d.ledger) + multiset(w.entries);
    assert multiset(e.ledger + w.entries) == multiset(e.ledger) + multiset(w.entries);
  }

  // ----- the answer to a request does not depend on the order of the ledger -----------------

  lemma SameKeys(k: seq<Entry>, l: seq<Entry>)
    requires multiset(k) == multiset(l)
    ensures forall key :: Credits.HasKey(k, key) <==> Credits.HasKey(l, key)
  {
    KeysIn(k, l);
    KeysIn(l, k);
  }

  lemma KeysIn(k: seq<Entry>, l: seq<Entry>)
    requires multiset(k) == multiset(l)
    ensures forall key :: Credits.HasKey(k, key) ==> Credits.HasKey(l, key)
  {
    forall key | Credits.HasKey(k, key)
      ensures Credits.HasKey(l, key)
    {
      var i :| 0 <= i < |k| && k[i].key == key;
      assert k[i] in multiset(k);
      assert k[i] in l;
    }
  }

  lemma SameRecord(d: Db, e: Db, x: Entry)
    requires Alike(d, e)
    ensures Credits.Record(d, x) == Credits.Record(e, x)
  {
    SameKeys(d.ledger, e.ledger);
    hide Credits.HasKey;
  }

  lemma SameAnswers(cfg: Config, d: Db, e: Db, now: Time, r: Request)
    requires Alike(d, e)
    ensures Handle(cfg, d, now, r) == Handle(cfg, e, now, r)
  {
    hide Profiles.Upsert, Campaigns.Create, Campaigns.Update, Campaigns.UpsertContract, Campaigns.Publish;
    hide Campaigns.Launch, Campaigns.Transition, Workflow.Apply, Workflow.Accept, Workflow.Decline, Workflow.Withdraw;
    hide Workflow.Start, Workflow.RecordSession, Workflow.Submit, Workflow.Examine, Workflow.Escalate;
    hide Moderation.Claim, Moderation.Resolve, Alike;
    match r
    case UpsertProfile(user, username, enabled) => SameSignup(cfg, d, e, user, username, enabled);
    case PublishCampaign(c, owner) => SamePublication(d, e, now, c, owner);
    case LaunchCampaign(id, owner, fields, terms) => SameLaunch(d, e, now, id, owner, fields, terms);
    case Examine(s, reviewer, decision) => SameExamination(d, e, now, s, reviewer, decision);
    case Resolve(x, moderator, ruling) => SameResolution(d, e, now, x, moderator, ruling);
    case CreateCampaign(_, _, _) => SameOnCampaigns(d, e, now, r);
    case UpdateCampaign(_, _, _) => SameOnCampaigns(d, e, now, r);
    case UpsertContract(_, _, _) => SameOnCampaigns(d, e, now, r);
    case TransitionCampaign(_, _, _) => SameOnCampaigns(d, e, now, r);
    case Submit(id, a, tester, evidence) => SameSubmission(d, e, now, id, a, tester, evidence);
    case _ => SameOnTests(d, e, now, r);
  }

  lemma SameOnCampaigns(d: Db, e: Db, now: Time, r: Request)
    requires Alike(d, e)
    ensures r.CreateCampaign? ==>
              Campaigns.Create(d, r.id, r.owner, r.fields) == Campaigns.Create(e, r.id, r.owner, r.fields)
    ensures r.UpdateCampaign? ==>
              Campaigns.Update(d, r.campaign, r.owner, r.change) == Campaigns.Update(e, r.campaign, r.owner, r.change)
    ensures r.UpsertContract? ==>
              Campaigns.UpsertContract(d, r.campaign, r.owner, r.terms) ==
              Campaigns.UpsertContract(e, r.campaign, r.owner, r.terms)
    ensures r.TransitionCampaign? ==>
              Campaigns.Transition(d, now, r.campaign, r.owner, r.action) ==
              Campaigns.Transition(e, now, r.campaign, r.owner, r.action)
  {
    hide Campaigns.SlugInUse, Campaigns.Finished, Campaigns.Declined, WithStatus;
  }

  lemma SameOnTests(d: Db, e: Db, now: Time, r: Request)
    requires Alike(d, e)
    ensures r.Apply? ==> Workflow.Apply(d, r.id, r.campaign, r.tester) == Workflow.Apply(e, r.id, r.campaign, r.tester)
    ensures r.Accept? ==>
              Workflow.Accept(d, now, r.assignment, r.owner) == Workflow.Accept(e, now, r.assignment, r.owner)
    ensures r.Decline? ==>
              Workflow.Decline(d, now, r.assignment, r.owner) == Workflow.Decline(e, now, r.assignment, r.owner)
    ensures r.Withdraw? ==>
              Workflow.Withdraw(d, now, r.assignment, r.tester) == Workflow.Withdraw(e, now, r.assignment, r.tester)
    ensures r.Start? ==>
              Workflow.Start(d, now, r.assignment, r.tester) == Workflow.Start(e, now, r.assignment, r.tester)
    ensures r.RecordSession? ==>
              Workflow.RecordSession(d, now, r.assignment, r.tester) ==
              Workflow.RecordSession(e, now, r.assignment, r.tester)
    ensures r.Escalate? ==>
              Workflow.Escalate(d, now, r.id, r.assignment, r.user, r.disputed) ==
              Workflow.Escalate(e, now, r.id, r.assignment, r.user, r.disputed)
    ensures r.Claim? ==> Moderation.Claim(d, r.dispute, r.moderator) == Moderation.Claim(e, r.dispute, r.moderator)
  {
    hide Workflow.HasApplied, Occupied, Campaigns.Finished, Workflow.HasDispute;
  }

  lemma SameSubmission(d: Db, e: Db, now: Time, id: Id, a: Id, tester: Id, evidence: Workflow.EvidencePayload)
    requires Alike(d, e)
    ensures Workflow.Submit(d, now, id, a, tester, evidence) == Workflow.Submit(e, now, id, a, tester, evidence)
  {
    hide Workflow.CheckItems, Workflow.SessionDays, Workflow.LatestVersion, Workflow.CoveredTaskIds;
    hide Workflow.TaskIds, Workflow.RequiredTaskIds;
  }

  lemma SameGrant(cfg: Config, d: Db, e: Db, user: Id)
    requires Alike(d, e)
    ensures Profiles.Grant(d, cfg, user) == Profiles.Grant(e, cfg, user)
  {
    SameRecord(d, e, Entry(user, cfg.signupGrant, SignupGrant, SignupKey(user)));
    hide Credits.Record;
  }

  lemma SameSignup(cfg: Config, d: Db, e: Db, user: Id, username: string, enabled: bool)
    requires Alike(d, e)
    ensures Profiles.Upsert(d, cfg, user, username, enabled) == Profiles.Upsert(e, cfg, user, username, enabled)
  {
    hide Commit, Then, Credits.AccountBalance, Profiles.UsernameTakenBy, Profiles.Grant, Profiles.ClaimedSeats;
    var admitted := NOTHING.(profiles := map[user := username], seats := Some(Profiles.ClaimedSeats(d) + 1),
                             accounts := map[user := Credits.AccountBalance(d.accounts, user)]);
    AlikeCommit(d, e, admitted);
    SameGrant(cfg, Commit(d, admitted), Commit(e, admitted), user);
    SameSeatsCount(d, e);
    hide Alike;
  }

  lemma SameSeatsCount(d: Db, e: Db)
    requires Alike(d, e)
    ensures Profiles.ClaimedSeats(d) == Profiles.ClaimedSeats(e)
    ensures d.profiles == e.profiles && d.accounts == e.accounts
  {
  }

  lemma SamePublication(d: Db, e: Db, now: Time, c: Id, owner: Id)
    requires Alike(d, e)
    ensures Campaigns.Publish(d, now, c, owner) == Campaigns.Publish(e, now, c, owner)
  {
    if c in d.campaigns {
      SameRecord(d, e, Campaigns.PostingEntry(c, d.campaigns[c]));
    }
    hide Credits.Record, Campaigns.PostingEntry;
  }

  lemma SameLaunch(d: Db, e: Db, now: Time, id: Id, owner: Id, p: Campaigns.CampaignPayload,
                   k: Campaigns.ContractPayload)
    requires Alike(d, e)
    ensures Campaigns.Launch(d, now, id, owner, p, k) == Campaigns.Launch(e, now, id, owner, p, k)
  {
    hide *;
    SameDraft(d, e, id, owner, p);
    if Campaigns.Create(d, id, owner, p).Ok? {
      var created := Campaigns.Create(d, id, owner, p).value;
      AlikeCommit(d, e, created);
      SameTerms(Commit(d, created), Commit(e, created), id, owner, k);
      if Campaigns.UpsertContract(Commit(d, created), id, owner, k).Ok? {
        var both := Then(created, Campaigns.UpsertContract(Commit(d, created), id, owner, k).value);
        AlikeCommit(d, e, both);
        SamePublication(Commit(d, both), Commit(e, both), now, id, owner);
      }
    }
    SameChain(d, e, now, id, owner, p, k);
  }

  lemma SameDraft(d: Db, e: Db, id: Id, owner: Id, p: Campaigns.CampaignPayload)
    requires Alike(d, e)
    ensures Campaigns.Create(d, id, owner, p) == Campaigns.Create(e, id, owner, p)
  {
    hide Campaigns.SlugInUse;
  }

  lemma SameTerms(d: Db, e: Db, id: Id, owner: Id, k: Campaigns.ContractPayload)
    requires Alike(d, e)
    ensures Campaigns.UpsertContract(d, id, owner, k) == Campaigns.UpsertContract(e, id, owner, k)
  {
  }

  lemma SameChain(d: Db, e: Db, now: Time, id: Id, owner: Id, p: Campaigns.CampaignPayload,
                  k: Campaigns.ContractPayload)
    requires Campaigns.Create(d, id, owner, p) == Campaigns.Create(e, id, owner, p)
    requires Campaigns.Create(d, id, owner, p).Ok? ==>
               var created := Campaigns.Create(d, id, owner, p).value;
               var drafted := Campaigns.UpsertContract(Commit(d, created), id, owner, k);
               && drafted == Campaigns.UpsertContract(Commit(e, created), id, owner, k)
               && (drafted.Ok? ==>
                     var both := Then(created, drafted.value);
                     Campaigns.Publish(Commit(d, both), now, id, owner) ==
                       Campaigns.Publish(Commit(e, both), now, id, owner))
    ensures Campaigns.Launch(d, now, id, owner, p, k) == Campaigns.Launch(e, now, id, owner, p, k)
  {
    hide Commit, Then, Campaigns.Create, Campaigns.UpsertContract, Campaigns.Publish;
  }

  lemma SameApproval(d: Db, e: Db, now: Time, id: Id, s: Submission, assignment: Id, a: Assignment, c: Campaign)
    requires Alike(d, e)
    ensures Workflow.Approval(d, now, id, s, assignment, a, c) == Workflow.Approval(e, now, id, s, assignment, a, c)
  {
    SameRecord(d, e, Credits.RewardEntry(assignment, a.tester, c.reward));
    hide Credits.Record, Campaigns.MaybeComplete;
  }

  lemma SameExamination(d: Db, e: Db, now: Time, id: Id, reviewer: Id, decision: Decision)
    requires Alike(d, e)
    ensures Workflow.Examine(d, now, id, reviewer, decision) == Workflow.Examine(e, now, id, reviewer, decision)
  {
    hide Workflow.Approval, Workflow.HasActiveDispute;
    if id in d.submissions && d.submissions[id].assignment in d.assignments {
      var s := d.submissions[id];
      var a := d.assignments[s.assignment];
      if a.campaign in d.campaigns {
        SameApproval(d, e, now, id, s, s.assignment, a, d.campaigns[a.campaign]);
      }
    }
  }

  lemma SameResolution(d: Db, e: Db, now: Time, id: Id, moderator: Id, ruling: Moderation.Ruling)
    requires Alike(d, e)
    ensures Moderation.Resolve(d, now, id, moderator, ruling) == Moderation.Resolve(e, now, id, moderator, ruling)
  {
    hide Moderation.Remedied;
    if id in d.disputes && d.disputes[id].assignment in d.assignments {
      SameRemedy(d, e, now, d.disputes[id], d.assignments[d.disputes[id].assignment], ruling);
    }
  }

  lemma SameRemedy(d: Db, e: Db, now: Time, x: Dispute, a: Assignment, ruling: Moderation.Ruling)
    requires Alike(d, e)
    ensures Moderation.Remedied(d, now, x, a, ruling) == Moderation.Remedied(e, now, x, a, ruling)
  {
    hide Workflow.Approval;
    if x.submission.Some? && x.submission.value in d.submissions && a.campaign in d.campaigns {
      SameApproval(d, e, now, x.submission.value, d.submissions[x.submission.value], x.assignment, a,
                   d.campaigns[a.campaign]);
    }
  }

  // ----- writes that leave each other's rows alone ------------------------------------------

  ghost predicate Holds<V>(rows: map<Id, V>, table: map<Id, V>) {
    forall k :: k in rows ==> k in table && table[k] == rows[k]
  }

  /** Every row of `w` is in the database as it was written. */
  ghost predicate Intact(w: Writes, db: Db) {
    && Holds(w.profiles, db.profiles) && Holds(w.campaigns, db.campaigns) && Holds(w.contracts, db.contracts)
    && Holds(w.assignments, db.assignments) && Holds(w.submissions, db.submissions) && Holds(w.reviews, db.reviews)
    && Holds(w.disputes, db.disputes) && Holds(w.accounts, db.accounts)
  }

  lemma SwapRows<V>(table: map<Id, V>, first: map<Id, V>, second: map<Id, V>)
    requires Holds(first, table + first + second)
    ensures table + second + first == table + first + second
  {
  }

  /** Writes whose rows survive the writes after them could as well have come after those. */
  lemma Swap(db: Db, first: Writes, second: Writes)
    requires Intact(first, Commit(Commit(db, first), second)) && first.seats.None?
    ensures Alike(Commit(Commit(db, second), first), Commit(Commit(db, first), second))
  {
    hide Holds;
    SwapRows(db.profiles, first.profiles, second.profiles);
    SwapRows(db.campaigns, first.campaigns, second.campaigns);
    SwapRows(db.contracts, first.contracts, second.contracts);
    SwapRows(db.assignments, first.assignments, second.assignments);
    SwapRows(db.submissions, first.submissions, second.submissions);
    SwapRows(db.reviews, first.reviews, second.reviews);
    SwapRows(db.disputes, first.disputes, second.disputes);
    SwapRows(db.accounts, first.accounts, second.accounts);
    assert db.sessions + second.sessions + first.sessions == db.sessions + first.sessions + second.sessions;
    SwapEntries(db.ledger, first.entries, second.entries);
  }

  lemma SwapEntries(ledger: seq<Entry>, first: seq<Entry>, second: seq<Entry>)
    ensures multiset(ledger + second + first) == multiset(ledger + first + second)
  {
    assert multiset(ledger + second + first) == multiset(ledger) + multiset(second) + multiset(first);
    assert multiset(ledger + first + second) == multiset(ledger) + multiset(first) + multiset(second);
  }
}
