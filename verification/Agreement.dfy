/** A transaction that has locked its rows writes what it would write if it ran alone, now. */
module Agreement {
  import opened Model
  import opened Results
  import opened Invariants
  import opened Evolution
  import opened Requests
  import Campaigns
  import Credits
  import Effects
  import Guarantees
  import Moderation
  import Preservation
  import Profiles
  import Runs
  import Sets
  import StorageKeys
  import Success
  import Workflow

  // ----- what a lock on a campaign pins down ------------------------------------------------

  /** The assignments of a campaign, before and after others ran. */
  ghost predicate Drifted(v: map<Id, Assignment>, d: map<Id, Assignment>, c: Id) {
    && (forall a :: (a in v && v[a].campaign == c) <==> (a in d && d[a].campaign == c))
    && (forall a :: a in v && v[a].campaign == c ==> Drift(v[a], d[a]))
  }

  lemma LockedCampaign(v: map<Id, Assignment>, d: map<Id, Assignment>, c: Id, held: set<Row>)
    requires AssignmentsEvolve(v, d, held) && CampaignRow(c) in held
    ensures Drifted(v, d, c)
    ensures Occupied(d, c) <= Occupied(v, c)
  {
    assert WithStatus(d, c, OCCUPIED) <= WithStatus(v, c, OCCUPIED) by {
      forall a | a in WithStatus(d, c, OCCUPIED)
        ensures a in WithStatus(v, c, OCCUPIED)
      {
        assert Drift(v[a], d[a]);
      }
    }
    Sets.SubsetSize(WithStatus(d, c, OCCUPIED), WithStatus(v, c, OCCUPIED));
  }

  lemma DriftedPlus(v: map<Id, Assignment>, d: map<Id, Assignment>, c: Id, rows: map<Id, Assignment>)
    requires Drifted(v, d, c)
    ensures Drifted(v + rows, d + rows, c)
  {
  }

  lemma SameCounts(c: Id, v: map<Id, Assignment>, d: map<Id, Assignment>)
    requires Drifted(v, d, c)
    ensures WithStatus(d, c, {Approved}) == WithStatus(v, c, {Approved})
    ensures EverAccepted(d, c) == EverAccepted(v, c)
  {
    forall a
      ensures a in WithStatus(d, c, {Approved}) <==> a in WithStatus(v, c, {Approved})
      ensures a in EverAccepted(d, c) <==> a in EverAccepted(v, c)
    {
      if a in v && v[a].campaign == c {
        assert Drift(v[a], d[a]);
      }
    }
  }

  /** The completion check sees the same approvals and acceptances. It may see, as still active,
      work that a moderator has refused in the meantime; then it completes too little, never too much. */
  lemma SettleAgrees(x: Campaign, c: Id, v: map<Id, Assignment>, d: map<Id, Assignment>)
    requires Drifted(v, d, c)
    ensures var early, late := Campaigns.MaybeComplete(x, c, d), Campaigns.MaybeComplete(x, c, v);
            || early == late
            || (x.status == Closed && late == x && early == x.(status := Completed) &&
                WithStatus(d, c, {Rejected}) != {})
  {
    SameCounts(c, v, d);
    ActiveShrinks(c, v, d);
    hide Drifted, WithStatus, EverAccepted;
  }

  lemma ActiveShrinks(c: Id, v: map<Id, Assignment>, d: map<Id, Assignment>)
    requires Drifted(v, d, c)
    ensures |WithStatus(v, c, ACTIVE)| == 0 ==> |WithStatus(d, c, ACTIVE)| == 0
    ensures |WithStatus(v, c, ACTIVE)| > 0 && |WithStatus(d, c, ACTIVE)| == 0 ==> WithStatus(d, c, {Rejected}) != {}
  {
    forall a | a in WithStatus(d, c, ACTIVE)
      ensures a in WithStatus(v, c, ACTIVE)
    {
      assert Drift(v[a], d[a]);
    }
    Sets.SubsetSize(WithStatus(d, c, ACTIVE), WithStatus(v, c, ACTIVE));
    if |WithStatus(v, c, ACTIVE)| > 0 && |WithStatus(d, c, ACTIVE)| == 0 {
      var a := Sets.Pick(WithStatus(v, c, ACTIVE));
      assert Drift(v[a], d[a]);
      assert a !in WithStatus(d, c, ACTIVE);
      assert a in WithStatus(d, c, {Rejected});
    }
  }

  // ----- late completion --------------------------------------------------------------------

  /** The two answers differ only in that `mine`, computed earlier, leaves a closed campaign open
      for completion, while `now` completes it. */
  ghost predicate Late(db: Db, mine: Writes, now: Writes, c: Id) {
    && now == mine.(campaigns := now.campaigns)
    && c in mine.campaigns && mine.campaigns == map[c := mine.campaigns[c]]
    && mine.campaigns[c].status == Closed
    && now.campaigns == map[c := mine.campaigns[c].(status := Completed)]
    && c in db.campaigns && db.campaigns[c].status != Completed
    && WithStatus(db.assignments + mine.assignments, c, {Applied}) == {}
    && WithStatus(db.assignments + mine.assignments, c, {Rejected}) != {}
  }

  ghost predicate SameOrLate(db: Db, mine: Writes, now: Writes) {
    mine == now || exists c :: Late(db, mine, now, c)
  }

  /** Completing late is safe: a closed campaign with rejected work may stay closed. */
  lemma LateKeeps(cfg: Config, db: Db, t: Time, mine: Writes, now: Writes, c: Id)
    requires Late(db, mine, now, c) && Inv(cfg, Commit(db, now), t)
    ensures Inv(cfg, Commit(db, mine), t)
  {
    var good := Commit(db, now);
    var late := Commit(db, mine);
    hide *;
    LateShape(db, mine, now, c);
    Preservation.Parts(cfg, good, t);
    Reopened(good.campaigns, c);
    Preservation.RestatusKeeps(cfg, good, late.campaigns);
    LateProgress(good.campaigns, late.campaigns, good.assignments, c);
    Preservation.Whole(cfg, late, t);
  }

  lemma LateShape(db: Db, mine: Writes, now: Writes, c: Id)
    requires Late(db, mine, now, c)
    ensures var good, late := Commit(db, now), Commit(db, mine);
            && late == good.(campaigns := late.campaigns)
            && c in good.campaigns && good.campaigns[c].status == Completed
            && late.campaigns == good.campaigns + map[c := good.campaigns[c].(status := Closed)]
            && WithStatus(good.assignments, c, {Applied}) == {}
            && WithStatus(good.assignments, c, {Rejected}) != {}
  {
    CommitCampaigns(db, mine, now.campaigns);
    hide WithStatus, Commit;
    var x := mine.campaigns[c];
    Overwrite(db.campaigns, c, x.(status := Completed), x);
  }

  lemma CommitCampaigns(db: Db, w: Writes, rows: map<Id, Campaign>)
    ensures Commit(db, w.(campaigns := rows)) == Commit(db, w).(campaigns := db.campaigns + rows)
    ensures Commit(db, w).campaigns == db.campaigns + w.campaigns
    ensures Commit(db, w).assignments == db.assignments + w.assignments
  {
  }

  lemma Reopened(campaigns: map<Id, Campaign>, c: Id)
    requires c in campaigns && campaigns[c].status == Completed
    ensures Effects.Restatus(campaigns, campaigns + map[c := campaigns[c].(status := Closed)])
  {
  }

  lemma LateProgress(good: map<Id, Campaign>, late: map<Id, Campaign>, assignments: map<Id, Assignment>, c: Id)
    requires Progress(good, assignments) && c in good
    requires late == good + map[c := good[c].(status := Closed)]
    requires WithStatus(assignments, c, {Applied}) == {} && WithStatus(assignments, c, {Rejected}) != {}
    ensures Progress(late, assignments)
  {
    forall d | d in late
      ensures ProgressFits(late[d], d, assignments)
    {
      if d != c {
        assert ProgressFits(good[d], d, assignments);
      }
    }
    assert WithStatus(assignments, c, {Rejected}) <= WithStatus(assignments, c, ACTIVE + {Rejected});
  }

  // ----- what a lock on an assignment pins down ---------------------------------------------

  lemma LockedAssignment(view: Db, db: Db, a: Id, held: set<Row>)
    requires Evolves(view, db, held) && AssignmentRow(a) in held && a in view.assignments
    ensures a in db.assignments && db.assignments[a] == view.assignments[a]
    ensures SubmissionsOf(db.submissions, a) == SubmissionsOf(view.submissions, a)
    ensures Workflow.Versions(db.submissions, a) == Workflow.Versions(view.submissions, a)
    ensures Workflow.SessionDays(db.sessions, a) == Workflow.SessionDays(view.sessions, a)
    ensures Workflow.HasDispute(db.disputes, a) ==> Workflow.HasDispute(view.disputes, a)
    ensures Workflow.HasActiveDispute(db.disputes, a) ==> Workflow.HasActiveDispute(view.disputes, a)
    ensures forall s :: s in view.submissions && view.submissions[s].assignment == a ==>
              s in db.submissions && db.submissions[s] == view.submissions[s]
  {
    LockedSubmissions(view.submissions, db.submissions, a, held);
  }

  lemma LockedSubmissions(s1: map<Id, Submission>, s2: map<Id, Submission>, a: Id, held: set<Row>)
    requires SubmissionsEvolve(s1, s2, held) && AssignmentRow(a) in held
    ensures SubmissionsOf(s2, a) == SubmissionsOf(s1, a)
    ensures Workflow.Versions(s2, a) == Workflow.Versions(s1, a)
  {
    assert SubmissionsOf(s2, a) == SubmissionsOf(s1, a);
  }

  /** The campaign of an assignment, as far as it is frozen. */
  lemma FrozenCampaign(cfg: Config, view: Db, db: Db, now: Time, a: Id, held: set<Row>)
    requires Inv(cfg, view, now) && Evolves(view, db, held) && a in view.assignments
    ensures var c := view.assignments[a].campaign;
            && c in view.campaigns && c in db.campaigns && view.campaigns[c].status != Draft
            && db.campaigns[c].owner == view.campaigns[c].owner
            && (c in view.contracts <==> c in db.contracts)
            && (c in view.contracts ==> db.contracts[c] == view.contracts[c])
            && (CampaignRow(c) in held ==> db.campaigns[c] == view.campaigns[c])
  {
    hide Inv;
    Preservation.Parts(cfg, view, now);
    hide *;
    Preservation.RowFits(view.profiles, view.campaigns, view.assignments, a);
    FrozenRow(view, db, view.assignments[a].campaign, held);
  }

  lemma FrozenRow(view: Db, db: Db, c: Id, held: set<Row>)
    requires Evolves(view, db, held) && c in view.campaigns
    ensures c in db.campaigns && db.campaigns[c].owner == view.campaigns[c].owner
    ensures view.campaigns[c].status != Draft || CampaignRow(c) in held ==>
              && (c in view.contracts <==> c in db.contracts)
              && (c in view.contracts ==> db.contracts[c] == view.contracts[c])
    ensures CampaignRow(c) in held ==> db.campaigns[c] == view.campaigns[c]
  {
  }

  // ----- requests that insert under a unique column -----------------------------------------

  lemma Unposted(cfg: Config, db: Db, t: Time)
    requires Inv(cfg, db, t)
    ensures forall c :: c !in db.campaigns ==> !Credits.HasKey(db.ledger, PostingKey(c)) && c !in db.contracts
    ensures forall u :: u !in db.profiles ==> !Credits.HasKey(db.ledger, SignupKey(u)) && u !in db.accounts
  {
    hide *;
    Preservation.Parts(cfg, db, t);
    NoKeyFor(cfg.signupGrant, db.profiles, db.campaigns, db.assignments, db.ledger);
    NothingElsewhere(db);
  }

  lemma NothingElsewhere(db: Db)
    requires Drafted(db.profiles, db.campaigns, db.contracts) && Balanced(db.profiles, db.accounts, db.ledger)
    ensures forall c :: c !in db.campaigns ==> c !in db.contracts
    ensures forall u :: u !in db.profiles ==> u !in db.accounts
  {
    assert forall u :: u in db.accounts.Keys <==> u in db.profiles.Keys;
  }

  lemma SameSeatsLeft(view: Db, db: Db, held: set<Row>)
    requires Evolves(view, db, held) && (SeatsRow in held || db.seats.None?)
    ensures Profiles.ClaimedSeats(db) == Profiles.ClaimedSeats(view)
  {
    assert |db.profiles.Keys| == |db.profiles| && |view.profiles.Keys| == |view.profiles|;
  }

  lemma UpsertAgrees(cfg: Config, view: Db, db: Db, now: Time, t: Time, user: Id, username: string, enabled: bool,
                     held: set<Row>)
    requires Inv(cfg, view, now) && Inv(cfg, db, t) && Evolves(view, db, held)
    requires Fresh(view, db, UpsertProfile(user, username, enabled))
    requires user !in view.profiles && view.seats.Some? ==> SeatsRow in held
    requires Profiles.Upsert(view, cfg, user, username, enabled).Ok?
    ensures Profiles.Upsert(db, cfg, user, username, enabled) == Profiles.Upsert(view, cfg, user, username, enabled)
  {
    hide Inv, Evolves, Profiles.Upsert, Profiles.ClaimedSeats, Credits.HasKey, Profiles.UsernameTakenBy,
      Success.Welcome;
    Success.NameWasFree(view, cfg, user, username, enabled);
    if user in view.profiles {
      StillJoined(view, db, user, held);
      Renaming(cfg, view, user, username, enabled);
      Renaming(cfg, db, user, username, enabled);
    } else {
      SameSeatsLeft(view, db, held);
      Unposted(cfg, view, now);
      Unposted(cfg, db, t);
      Success.Newcomer(view, cfg, user, username, enabled);
      Success.Newcomer(db, cfg, user, username, enabled);
    }
  }

  lemma StillJoined(view: Db, db: Db, user: Id, held: set<Row>)
    requires Evolves(view, db, held) && user in view.profiles
    ensures user in db.profiles
  {
  }

  lemma Renaming(cfg: Config, db: Db, user: Id, username: string, enabled: bool)
    requires user in db.profiles && !Profiles.UsernameTakenBy(db.profiles, username, user)
    ensures Profiles.Upsert(db, cfg, user, username, enabled) == Ok(NOTHING.(profiles := map[user := username]))
  {
    hide Commit, Then, Profiles.Grant, Profiles.UsernameTakenBy, Profiles.ClaimedSeats;
  }

  lemma CreateAgrees(view: Db, db: Db, id: Id, owner: Id, p: Campaigns.CampaignPayload, held: set<Row>)
    requires Evolves(view, db, held) && Fresh(view, db, CreateCampaign(id, owner, p))
    requires Campaigns.Create(view, id, owner, p).Ok?
    ensures Campaigns.Create(db, id, owner, p) == Campaigns.Create(view, id, owner, p)
  {
    hide Evolves, Campaigns.SlugInUse;
    StillJoined(view, db, owner, held);
  }

  lemma LaunchAgrees(cfg: Config, view: Db, db: Db, now: Time, t: Time, id: Id, owner: Id, p: Campaigns.CampaignPayload,
                     k: Campaigns.ContractPayload, held: set<Row>)
    requires Inv(cfg, view, now) && Inv(cfg, db, t) && Evolves(view, db, held) && AccountRow(owner) in held
    requires Fresh(view, db, LaunchCampaign(id, owner, p, k))
    requires Campaigns.Launch(view, now, id, owner, p, k).Ok?
    ensures Campaigns.Launch(db, now, id, owner, p, k) == Campaigns.Launch(view, now, id, owner, p, k)
  {
    hide Inv, Evolves, Campaigns.Launch, Campaigns.SlugInUse, Credits.HasKey, Credits.AccountBalance,
      Success.LaunchRows;
    hide Commit, Campaigns.Create, Campaigns.UpsertContract, Campaigns.Publish;
    Success.LaunchChain(view, now, id, owner, p, k);
    Success.Create(view, id, owner, p);
    StillJoined(view, db, owner, held);
    Unposted(cfg, view, now);
    Unposted(cfg, db, t);
    LockedAccount(cfg, view, db, now, owner, held);
    Success.LaunchOutcome(view, now, id, owner, p, k);
    Success.LaunchOutcome(db, now, id, owner, p, k);
  }

  // ----- requests on a campaign -------------------------------------------------------------

  lemma PublishAgrees(cfg: Config, view: Db, db: Db, now: Time, t: Time, c: Id, owner: Id, held: set<Row>)
    requires Inv(cfg, view, now) && Inv(cfg, db, t) && Evolves(view, db, held)
    requires CampaignRow(c) in held && AccountRow(owner) in held
    requires Campaigns.Publish(view, now, c, owner).Ok?
    ensures Campaigns.Publish(db, now, c, owner) == Campaigns.Publish(view, now, c, owner)
  {
    hide Inv, Evolves;
    assert c in view.campaigns;
    FrozenRow(view, db, c, held);
    OwnerJoined(cfg, view, now, c);
    LockedAccount(cfg, view, db, now, owner, held);
    if view.campaigns[c].status == Draft {
      NoPostingYet(cfg, view, now, c);
      NoPostingYet(cfg, db, t, c);
    }
  }

  lemma LockedAccount(cfg: Config, view: Db, db: Db, now: Time, u: Id, held: set<Row>)
    requires Inv(cfg, view, now) && Evolves(view, db, held) && AccountRow(u) in held && u in view.profiles
    ensures Credits.AccountBalance(db.accounts, u) == Credits.AccountBalance(view.accounts, u)
  {
    hide Drafted, Assigned, History, Reviewed, Disputes, Ledgered, Booked, Capacity, Progress, Clocked, Evidenced;
    hide Seated;
    hide CampaignsEvolve, ContractsEvolve, AssignmentsEvolve, SubmissionsEvolve, ReviewsEvolve, DisputesEvolve;
    hide SessionsEvolve;
    assert u in view.profiles.Keys;
    assert u in view.accounts;
  }

  lemma OwnerJoined(cfg: Config, db: Db, now: Time, c: Id)
    requires Inv(cfg, db, now) && c in db.campaigns
    ensures db.campaigns[c].owner in db.profiles
  {
    hide *;
    Preservation.Parts(cfg, db, now);
    OwnerFits(db.profiles, db.campaigns, db.contracts, c);
  }

  lemma OwnerFits(profiles: map<Id, string>, campaigns: map<Id, Campaign>, contracts: map<Id, Contract>, c: Id)
    requires Drafted(profiles, campaigns, contracts) && c in campaigns
    ensures campaigns[c].owner in profiles
  {
    assert CampaignFits(campaigns[c], c, profiles, contracts);
  }

  lemma NoPostingYet(cfg: Config, db: Db, t: Time, c: Id)
    requires Inv(cfg, db, t) && c in db.campaigns && db.campaigns[c].status == Draft
    ensures !Credits.HasKey(db.ledger, PostingKey(c))
  {
    hide *;
    Preservation.Parts(cfg, db, t);
    NoKeyFor(cfg.signupGrant, db.profiles, db.campaigns, db.assignments, db.ledger);
  }

  lemma NoKeyFor(grant: int, profiles: map<Id, string>, campaigns: map<Id, Campaign>, assignments: map<Id, Assignment>,
                 ledger: seq<Entry>)
    requires Ledgered(grant, profiles, campaigns, assignments, ledger)
    ensures forall c :: c in campaigns && campaigns[c].status == Draft ==> !Credits.HasKey(ledger, PostingKey(c))
    ensures forall a :: a in assignments && assignments[a].status != Approved ==> !Credits.HasKey(ledger, RewardKey(a))
    ensures forall c :: c !in campaigns ==> !Credits.HasKey(ledger, PostingKey(c))
    ensures forall u :: u !in profiles ==> !Credits.HasKey(ledger, SignupKey(u))
  {
    forall i | 0 <= i < |ledger|
      ensures EntryFits(ledger[i], grant, profiles, campaigns, assignments)
    {
    }
  }

  lemma NoRewardYet(cfg: Config, db: Db, t: Time, a: Id)
    requires Inv(cfg, db, t) && a in db.assignments && db.assignments[a].status != Approved
    ensures !Credits.HasKey(db.ledger, RewardKey(a))
  {
    hide *;
    Preservation.Parts(cfg, db, t);
    NoKeyFor(cfg.signupGrant, db.profiles, db.campaigns, db.assignments, db.ledger);
  }

  lemma ApplyAgrees(view: Db, db: Db, id: Id, c: Id, tester: Id, held: set<Row>)
    requires Evolves(view, db, held) && CampaignRow(c) in held && id !in db.assignments
    requires Workflow.Apply(view, id, c, tester).Ok?
    ensures Workflow.Apply(db, id, c, tester) == Workflow.Apply(view, id, c, tester)
  {
    LockedCampaign(view.assignments, db.assignments, c, held);
    FrozenRow(view, db, c, held);
    NotAppliedSince(view.assignments, db.assignments, c, tester);
    assert tester in view.profiles.Keys;
    hide Evolves, Occupied, WithStatus, Drifted, Workflow.HasApplied;
  }

  lemma UpdateAgrees(view: Db, db: Db, c: Id, owner: Id, change: Campaigns.CampaignUpdate, held: set<Row>)
    requires Evolves(view, db, held) && CampaignRow(c) in held && Campaigns.Update(view, c, owner, change).Ok?
    ensures Campaigns.Update(db, c, owner, change) == Campaigns.Update(view, c, owner, change)
  {
    assert c in view.campaigns;
    FrozenRow(view, db, c, held);
    hide Evolves, Campaigns.Changed;
  }

  lemma UpsertContractAgrees(view: Db, db: Db, c: Id, owner: Id, terms: Campaigns.ContractPayload, held: set<Row>)
    requires Evolves(view, db, held) && CampaignRow(c) in held && Campaigns.UpsertContract(view, c, owner, terms).Ok?
    ensures Campaigns.UpsertContract(db, c, owner, terms) == Campaigns.UpsertContract(view, c, owner, terms)
  {
    assert c in view.campaigns;
    FrozenRow(view, db, c, held);
    hide Evolves;
  }

  lemma NotAppliedSince(v: map<Id, Assignment>, d: map<Id, Assignment>, c: Id, tester: Id)
    requires Drifted(v, d, c) && !Workflow.HasApplied(v, c, tester)
    ensures !Workflow.HasApplied(d, c, tester)
  {
    forall a | a in d && d[a].campaign == c
      ensures d[a].tester != tester
    {
      assert a in v && Drift(v[a], d[a]);
    }
  }

  lemma TransitionAgrees(cfg: Config, view: Db, db: Db, now: Time, t: Time, c: Id, owner: Id, action: Campaigns.Action,
                         held: set<Row>)
    requires Evolves(view, db, held) && CampaignRow(c) in held
    requires action == Campaigns.Close ==> ApplicationRows(view.assignments, c) <= held
    requires Campaigns.Transition(view, now, c, owner, action).Ok?
    ensures Campaigns.Transition(db, now, c, owner, action).Ok?
    ensures SameOrLate(db, Campaigns.Transition(view, now, c, owner, action).value,
                       Campaigns.Transition(db, now, c, owner, action).value)
    ensures action != Campaigns.Close ==>
              Campaigns.Transition(db, now, c, owner, action) == Campaigns.Transition(view, now, c, owner, action)
    ensures action == Campaigns.Close ==> ApplicationRows(db.assignments, c) <= held
  {
    LockedCampaign(view.assignments, db.assignments, c, held);
    FrozenRow(view, db, c, held);
    hide Evolves, Campaigns.MaybeComplete, Drifted, Late;
    if action == Campaigns.Close {
      CloseAgrees(view, db, now, c, owner, held);
    }
  }

  lemma CloseAgrees(view: Db, db: Db, now: Time, c: Id, owner: Id, held: set<Row>)
    requires AssignmentsEvolve(view.assignments, db.assignments, held) && Drifted(view.assignments, db.assignments, c)
    requires CampaignRow(c) in held && ApplicationRows(view.assignments, c) <= held
    requires Campaigns.Transition(view, now, c, owner, Campaigns.Close).Ok?
    requires c in db.campaigns && db.campaigns[c] == view.campaigns[c]
    ensures Campaigns.Transition(db, now, c, owner, Campaigns.Close).Ok?
    ensures SameOrLate(db, Campaigns.Transition(view, now, c, owner, Campaigns.Close).value,
                       Campaigns.Transition(db, now, c, owner, Campaigns.Close).value)
    ensures ApplicationRows(db.assignments, c) <= held
  {
    SameApplications(view.assignments, db.assignments, c, held, now);
    var declined := Campaigns.Declined(view.assignments, c, now);
    DriftedPlus(view.assignments, db.assignments, c, declined);
    SettleAgrees(view.campaigns[c].(status := Closed), c, view.assignments + declined, db.assignments + declined);
    NoneLeft(db.assignments, c, now);
    hide AssignmentsEvolve, Campaigns.MaybeComplete, Drifted, WithStatus, Campaigns.Declined, ApplicationRows;
    var mine := Campaigns.Transition(view, now, c, owner, Campaigns.Close).value;
    var serial := Campaigns.Transition(db, now, c, owner, Campaigns.Close).value;
    if mine != serial {
      assert Late(db, mine, serial, c);
    }
  }

  lemma NoneLeft(assignments: map<Id, Assignment>, c: Id, now: Time)
    ensures WithStatus(assignments + Campaigns.Declined(assignments, c, now), c, {Applied}) == {}
  {
  }

  lemma SameApplications(v: map<Id, Assignment>, d: map<Id, Assignment>, c: Id, held: set<Row>, now: Time)
    requires AssignmentsEvolve(v, d, held) && CampaignRow(c) in held && ApplicationRows(v, c) <= held
    ensures Campaigns.Declined(d, c, now) == Campaigns.Declined(v, c, now)
    ensures ApplicationRows(d, c) <= held
  {
    forall a | a in WithStatus(v, c, {Applied})
      ensures a in WithStatus(d, c, {Applied}) && d[a] == v[a]
    {
      assert AssignmentRow(a) in ApplicationRows(v, c);
    }
    forall a | a in WithStatus(d, c, {Applied})
      ensures a in WithStatus(v, c, {Applied})
    {
      assert Drift(v[a], d[a]);
    }
    assert WithStatus(d, c, {Applied}) == WithStatus(v, c, {Applied});
  }

  // ----- requests on an assignment ----------------------------------------------------------

  lemma AcceptAgrees(cfg: Config, view: Db, db: Db, now: Time, a: Id, owner: Id, held: set<Row>)
    requires Inv(cfg, view, now) && Evolves(view, db, held) && AssignmentRow(a) in held && CampaignOf(view, a) <= held
    requires Workflow.Accept(view, now, a, owner).Ok?
    ensures Workflow.Accept(db, now, a, owner) == Workflow.Accept(view, now, a, owner)
  {
    hide Inv, Evolves;
    LockedAssignment(view, db, a, held);
    FrozenCampaign(cfg, view, db, now, a, held);
    FewerPlaces(view, db, view.assignments[a].campaign, held);
    hide Occupied;
  }

  lemma FewerPlaces(view: Db, db: Db, c: Id, held: set<Row>)
    requires Evolves(view, db, held) && CampaignRow(c) in held
    ensures Occupied(db.assignments, c) <= Occupied(view.assignments, c)
    ensures Drifted(view.assignments, db.assignments, c)
  {
    LockedCampaign(view.assignments, db.assignments, c, held);
  }

  lemma DeclineAgrees(cfg: Config, view: Db, db: Db, now: Time, a: Id, owner: Id, held: set<Row>)
    requires Inv(cfg, view, now) && Evolves(view, db, held) && AssignmentRow(a) in held
    requires Workflow.Decline(view, now, a, owner).Ok?
    ensures Workflow.Decline(db, now, a, owner) == Workflow.Decline(view, now, a, owner)
  {
    hide Inv, Evolves;
    LockedAssignment(view, db, a, held);
    FrozenCampaign(cfg, view, db, now, a, held);
  }

  /** One row written, and a completion check on its campaign: the same, or late. */
  lemma SettleSameOrLate(cfg: Config, view: Db, db: Db, t: Time, c: Id, a: Id, x: Assignment, mine: Writes,
                         serial: Writes, held: set<Row>)
    requires Inv(cfg, db, t) && Evolves(view, db, held) && CampaignRow(c) in held
    requires c in view.campaigns && c in db.campaigns && db.campaigns[c] == view.campaigns[c]
    requires x.status != Applied && mine.assignments == map[a := x] && serial == mine.(campaigns := serial.campaigns)
    requires mine.campaigns == map[c := Campaigns.MaybeComplete(view.campaigns[c], c, view.assignments + map[a := x])]
    requires serial.campaigns == map[c := Campaigns.MaybeComplete(db.campaigns[c], c, db.assignments + map[a := x])]
    ensures SameOrLate(db, mine, serial)
  {
    hide *;
    FewerPlaces(view, db, c, held);
    var v, d := view.assignments + map[a := x], db.assignments + map[a := x];
    DriftedPlus(view.assignments, db.assignments, c, map[a := x]);
    SettleAgrees(view.campaigns[c], c, v, d);
    if Campaigns.MaybeComplete(view.campaigns[c], c, v) == Campaigns.MaybeComplete(db.campaigns[c], c, d) {
      SameIsFine(db, mine);
    } else {
      ClosedHasNone(cfg, db, t, c);
      NoneApplied(db.assignments, a, x, c);
      IsLate(db, mine, serial, c);
    }
  }

  lemma NoneApplied(assignments: map<Id, Assignment>, a: Id, x: Assignment, c: Id)
    requires WithStatus(assignments, c, {Applied}) == {} && x.status != Applied
    ensures WithStatus(assignments + map[a := x], c, {Applied}) == {}
  {
    forall b | b in WithStatus(assignments + map[a := x], c, {Applied})
      ensures b in WithStatus(assignments, c, {Applied})
    {
    }
  }

  lemma IsLate(db: Db, mine: Writes, serial: Writes, c: Id)
    requires serial == mine.(campaigns := serial.campaigns)
    requires c in mine.campaigns && mine.campaigns == map[c := mine.campaigns[c]]
    requires mine.campaigns[c].status == Closed
    requires serial.campaigns == map[c := mine.campaigns[c].(status := Completed)]
    requires c in db.campaigns && db.campaigns[c].status != Completed
    requires WithStatus(db.assignments + mine.assignments, c, {Applied}) == {}
    requires WithStatus(db.assignments + mine.assignments, c, {Rejected}) != {}
    ensures SameOrLate(db, mine, serial)
  {
    assert Late(db, mine, serial, c);
  }

  lemma ClosedHasNone(cfg: Config, db: Db, t: Time, c: Id)
    requires Inv(cfg, db, t) && c in db.campaigns && db.campaigns[c].status == Closed
    ensures WithStatus(db.assignments, c, {Applied}) == {}
  {
    hide *;
    Preservation.Parts(cfg, db, t);
    NoneWhenClosed(db.campaigns, db.assignments, c);
  }

  lemma NoneWhenClosed(campaigns: map<Id, Campaign>, assignments: map<Id, Assignment>, c: Id)
    requires Progress(campaigns, assignments) && c in campaigns && campaigns[c].status == Closed
    ensures WithStatus(assignments, c, {Applied}) == {}
  {
    assert ProgressFits(campaigns[c], c, assignments);
  }

  lemma WithdrawAgrees(cfg: Config, view: Db, db: Db, now: Time, t: Time, a: Id, tester: Id, held: set<Row>)
    requires Inv(cfg, view, now) && Inv(cfg, db, t) && Evolves(view, db, held)
    requires AssignmentRow(a) in held && CampaignOf(view, a) <= held
    requires Workflow.Withdraw(view, now, a, tester).Ok?
    ensures Workflow.Withdraw(db, now, a, tester).Ok?
    ensures SameOrLate(db, Workflow.Withdraw(view, now, a, tester).value, Workflow.Withdraw(db, now, a, tester).value)
  {
    hide Inv, Evolves, SameOrLate;
    LockedAssignment(view, db, a, held);
    FrozenCampaign(cfg, view, db, now, a, held);
    hide Campaigns.MaybeComplete;
    var x := view.assignments[a].(status := Cancelled, completedAt := Some(now));
    SettleSameOrLate(cfg, view, db, t, x.campaign, a, x, Workflow.Withdraw(view, now, a, tester).value,
                     Workflow.Withdraw(db, now, a, tester).value, held);
  }

  lemma StartAgrees(view: Db, db: Db, now: Time, a: Id, tester: Id, held: set<Row>)
    requires Evolves(view, db, held) && AssignmentRow(a) in held && Workflow.Start(view, now, a, tester).Ok?
    ensures Workflow.Start(db, now, a, tester) == Workflow.Start(view, now, a, tester)
  {
    hide Evolves;
    LockedAssignment(view, db, a, held);
    assert Session(a, DayOf(now)) !in Workflow.SessionDays(view.sessions, a);
  }

  lemma RecordSessionAgrees(view: Db, db: Db, now: Time, a: Id, tester: Id, held: set<Row>)
    requires Evolves(view, db, held) && AssignmentRow(a) in held
    requires Workflow.RecordSession(view, now, a, tester).Ok?
    ensures Workflow.RecordSession(db, now, a, tester) == Workflow.RecordSession(view, now, a, tester)
  {
    hide Evolves;
    LockedAssignment(view, db, a, held);
    assert Session(a, DayOf(now)) !in Workflow.SessionDays(view.sessions, a);
  }

  lemma SubmitAgrees(cfg: Config, view: Db, db: Db, now: Time, id: Id, a: Id, tester: Id, e: Workflow.EvidencePayload,
                     held: set<Row>)
    requires Inv(cfg, view, now) && Evolves(view, db, held) && AssignmentRow(a) in held && id !in db.submissions
    requires Workflow.Submit(view, now, id, a, tester, e).Ok?
    ensures Workflow.Submit(db, now, id, a, tester, e) == Workflow.Submit(view, now, id, a, tester, e)
  {
    hide Inv, Evolves;
    LockedAssignment(view, db, a, held);
    FrozenCampaign(cfg, view, db, now, a, held);
    hide Workflow.CheckItems, Workflow.SessionDays, Workflow.Versions, StorageKeys.FolderName;
  }

  lemma EscalateAgrees(cfg: Config, view: Db, db: Db, now: Time, id: Id, a: Id, user: Id, s: Option<Id>, held: set<Row>)
    requires Inv(cfg, view, now) && Evolves(view, db, held) && AssignmentRow(a) in held && id !in db.disputes
    requires Workflow.Escalate(view, now, id, a, user, s).Ok?
    ensures Workflow.Escalate(db, now, id, a, user, s) == Workflow.Escalate(view, now, id, a, user, s)
  {
    hide Inv, Evolves;
    LockedAssignment(view, db, a, held);
    FrozenCampaign(cfg, view, db, now, a, held);
    hide Workflow.HasDispute;
  }

  lemma ClaimAgrees(view: Db, db: Db, id: Id, moderator: Id, held: set<Row>)
    requires Evolves(view, db, held) && DisputeRow(id) in held
    requires Moderation.Claim(view, id, moderator).Ok?
    ensures Moderation.Claim(db, id, moderator) == Moderation.Claim(view, id, moderator)
  {
    assert moderator in view.profiles.Keys ==> moderator in db.profiles.Keys;
  }

  // ----- decisions --------------------------------------------------------------------------

  /** An approval pays the same amount onto the same balance. */
  lemma ApprovalAgrees(cfg: Config, view: Db, db: Db, now: Time, t: Time, id: Id, a: Id, held: set<Row>)
    requires Inv(cfg, view, now) && Inv(cfg, db, t) && Evolves(view, db, held)
    requires a in view.assignments && view.assignments[a].status != Approved && id in view.submissions
    requires DecisionRows(view, a, true) <= held && view.assignments[a].campaign in view.campaigns
    requires var c := view.assignments[a].campaign;
             Workflow.Approval(view, now, id, view.submissions[id], a, view.assignments[a], view.campaigns[c]).Ok?
    ensures a in db.assignments && db.assignments[a] == view.assignments[a]
    ensures db.assignments[a].campaign in db.campaigns
    ensures var c := view.assignments[a].campaign;
            && db.campaigns[c] == view.campaigns[c]
            && var mine := Workflow.Approval(view, now, id, view.submissions[id], a, view.assignments[a],
                                             view.campaigns[c]);
               var serial := Workflow.Approval(db, now, id, view.submissions[id], a, view.assignments[a],
                                               db.campaigns[c]);
               serial.Ok? && SameOrLate(db, mine.value, serial.value)
  {
    hide Inv, Evolves, SameOrLate;
    Guarantees.DecisionRowsAre(view, a, true);
    LockedAssignment(view, db, a, held);
    FrozenCampaign(cfg, view, db, now, a, held);
    NoRewardYet(cfg, view, now, a);
    NoRewardYet(cfg, db, t, a);
    var row := view.assignments[a];
    TesterJoined(cfg, view, now, a);
    LockedAccount(cfg, view, db, now, row.tester, held);
    hide Campaigns.MaybeComplete, DecisionRows, Credits.HasKey;
    var c := view.campaigns[row.campaign];
    var x := row.(status := Approved, completedAt := Some(now));
    SettleSameOrLate(cfg, view, db, t, row.campaign, a, x,
                     Workflow.Approval(view, now, id, view.submissions[id], a, row, c).value,
                     Workflow.Approval(db, now, id, view.submissions[id], a, row, c).value, held);
  }

  lemma TesterJoined(cfg: Config, db: Db, now: Time, a: Id)
    requires Inv(cfg, db, now) && a in db.assignments
    ensures db.assignments[a].tester in db.profiles
  {
    hide *;
    Preservation.Parts(cfg, db, now);
    Preservation.RowFits(db.profiles, db.campaigns, db.assignments, a);
  }

  /** Adding one's own record to both answers changes nothing about their difference. */
  lemma AlsoWrites(db: Db, mine: Writes, serial: Writes, reviews: map<Id, Review>, disputes: map<Id, Dispute>)
    requires SameOrLate(db, mine, serial)
    ensures SameOrLate(db, mine.(reviews := reviews), serial.(reviews := reviews))
    ensures SameOrLate(db, mine.(disputes := disputes), serial.(disputes := disputes))
  {
    if mine != serial {
      var c :| Late(db, mine, serial, c);
      assert Late(db, mine.(reviews := reviews), serial.(reviews := reviews), c);
      assert Late(db, mine.(disputes := disputes), serial.(disputes := disputes), c);
    }
  }

  lemma ExamineAgrees(cfg: Config, view: Db, db: Db, now: Time, t: Time, id: Id, reviewer: Id, decision: Decision,
                      held: set<Row>)
    requires Inv(cfg, view, now) && Inv(cfg, db, t) && Evolves(view, db, held)
    requires id in view.submissions ==> DecisionRows(view, view.submissions[id].assignment, decision == Approve) <= held
    requires Workflow.Examine(view, now, id, reviewer, decision).Ok?
    ensures Workflow.Examine(db, now, id, reviewer, decision).Ok?
    ensures SameOrLate(db, Workflow.Examine(view, now, id, reviewer, decision).value,
                       Workflow.Examine(db, now, id, reviewer, decision).value)
    ensures decision != Approve ==>
              Workflow.Examine(db, now, id, reviewer, decision) == Workflow.Examine(view, now, id, reviewer, decision)
  {
    hide Inv, Evolves, SameOrLate;
    var s := view.submissions[id];
    var a := s.assignment;
    Guarantees.DecisionRowsAre(view, a, decision == Approve);
    LockedAssignment(view, db, a, held);
    FrozenCampaign(cfg, view, db, now, a, held);
    NotReviewedYet(cfg, db, t, id);
    hide Workflow.HasActiveDispute, Workflow.HasDispute, Workflow.Versions, Workflow.SessionDays, SubmissionsOf;
    hide DecisionRows;
    hide Workflow.Approval;
    if decision == Approve {
      ApprovalAgrees(cfg, view, db, now, t, id, a, held);
      var c := view.campaigns[view.assignments[a].campaign];
      AlsoWrites(db, Workflow.Approval(view, now, id, s, a, view.assignments[a], c).value,
                 Workflow.Approval(db, now, id, s, a, view.assignments[a],
                                   c).value, map[id := Review(reviewer, decision)], map[]);
    } else {
      SameIsFine(db, Workflow.Examine(view, now, id, reviewer, decision).value);
    }
  }

  lemma SameIsFine(db: Db, w: Writes)
    ensures SameOrLate(db, w, w)
  {
  }

  lemma NotReviewedYet(cfg: Config, db: Db, t: Time, id: Id)
    requires Inv(cfg, db, t)
    ensures id in db.submissions && db.submissions[id].status == Pending ==> id !in db.reviews
  {
    hide *;
    Preservation.Parts(cfg, db, t);
    PendingUnreviewed(db.submissions, db.reviews, id);
  }

  lemma PendingUnreviewed(submissions: map<Id, Submission>, reviews: map<Id, Review>, id: Id)
    requires Reviewed(submissions, reviews)
    ensures id in submissions && submissions[id].status == Pending ==> id !in reviews
  {
  }

  lemma ResolveAgrees(cfg: Config, view: Db, db: Db, now: Time, t: Time, id: Id, moderator: Id, r: Moderation.Ruling,
                      held: set<Row>)
    requires Inv(cfg, view, now) && Inv(cfg, db, t) && Evolves(view, db, held) && DisputeRow(id) in held
    requires id in view.disputes ==> RulingRows(view, view.disputes[id], r) <= held
    requires Moderation.Resolve(view, now, id, moderator, r).Ok?
    ensures Moderation.Resolve(db, now, id, moderator, r).Ok?
    ensures SameOrLate(db, Moderation.Resolve(view, now, id, moderator, r).value,
                       Moderation.Resolve(db, now, id, moderator, r).value)
    ensures r.remedy != AwardTester ==>
              Moderation.Resolve(db, now, id, moderator, r) == Moderation.Resolve(view, now, id, moderator, r)
  {
    hide Inv, Evolves, SameOrLate;
    LockedDispute(view, db, id, held);
    var d := view.disputes[id];
    Guarantees.RulingRowsAre(view, d, r);
    LockedAssignment(view, db, d.assignment, held);
    FrozenCampaign(cfg, view, db, now, d.assignment, held);
    hide Workflow.HasActiveDispute, Workflow.HasDispute, Workflow.Versions, Workflow.SessionDays, SubmissionsOf;
    hide DecisionRows, RulingRows;
    hide Workflow.Approval;
    RemedyAgrees(cfg, view, db, now, t, d, r, held);
    AlsoWrites(db, Moderation.Remedied(view, now, d, view.assignments[d.assignment], r).value,
               Moderation.Remedied(db, now, d, view.assignments[d.assignment], r).value, map[],
               Moderation.Resolve(view, now, id, moderator, r).value.disputes);
    hide Moderation.Remedied;
  }

  lemma LockedDispute(view: Db, db: Db, id: Id, held: set<Row>)
    requires Evolves(view, db, held) && DisputeRow(id) in held && id in view.disputes
    ensures id in db.disputes && db.disputes[id] == view.disputes[id]
  {
  }

  lemma RemedyAgrees(cfg: Config, view: Db, db: Db, now: Time, t: Time, d: Dispute, r: Moderation.Ruling,
                     held: set<Row>)
    requires Inv(cfg, view, now) && Inv(cfg, db, t) && Evolves(view, db, held)
    requires RulingRows(view, d, r) <= held && d.assignment in view.assignments
    requires Moderation.Remedied(view, now, d, view.assignments[d.assignment], r).Ok?
    ensures Moderation.Remedied(db, now, d, view.assignments[d.assignment], r).Ok?
    ensures SameOrLate(db, Moderation.Remedied(view, now, d, view.assignments[d.assignment], r).value,
                       Moderation.Remedied(db, now, d, view.assignments[d.assignment], r).value)
    ensures r.remedy != AwardTester ==>
              Moderation.Remedied(db, now, d, view.assignments[d.assignment], r) ==
              Moderation.Remedied(view, now, d, view.assignments[d.assignment], r)
  {
    hide Inv, Evolves, SameOrLate;
    Guarantees.RulingRowsAre(view, d, r);
    LockedAssignment(view, db, d.assignment, held);
    hide Workflow.HasActiveDispute, Workflow.HasDispute, Workflow.Versions, Workflow.SessionDays, SubmissionsOf;
    hide DecisionRows, RulingRows;
    hide Workflow.Approval;
    if r.remedy == AwardTester {
      ApprovalAgrees(cfg, view, db, now, t, d.submission.value, d.assignment, held);
    } else {
      SameIsFine(db, Moderation.Remedied(view, now, d, view.assignments[d.assignment], r).value);
    }
  }

  // ----- every request ----------------------------------------------------------------------

  /** No unique column refuses the rows that a decision taken on `view` inserts: identifiers, slugs,
      user names and the one seat counter. */
  predicate Fresh(view: Db, db: Db, r: Request) {
    && (r.Apply? ==> r.id !in db.assignments)
    && (r.Submit? ==> r.id !in db.submissions)
    && (r.Escalate? ==> r.id !in db.disputes)
    && (r.CreateCampaign? || r.LaunchCampaign? ==>
          r.id !in db.campaigns && !Campaigns.SlugInUse(db.campaigns, r.fields.slug))
    && (r.UpsertProfile? ==>
          && !Profiles.UsernameTakenBy(db.profiles, r.username, r.user)
          && (r.user !in view.profiles ==> r.user !in db.profiles && (view.seats.None? ==> db.seats.None?)))
  }

  /** The requests that settle work and then ask whether its campaign is completed. */
  predicate Settles(r: Request) {
    || r.Withdraw?
    || (r.TransitionCampaign? && r.action == Campaigns.Close)
    || (r.Examine? && r.decision == Approve)
    || (r.Resolve? && r.ruling.remedy == AwardTester)
  }

  /** The answers to `r` on two databases are the same, or the first is late with a completion. */
  ghost predicate Agree(cfg: Config, view: Db, db: Db, now: Time, r: Request) {
    && Handle(cfg, view, now, r).Ok? && Handle(cfg, db, now, r).Ok?
    && SameOrLate(db, Handle(cfg, view, now, r).value, Handle(cfg, db, now, r).value)
    && (!Settles(r) ==> Handle(cfg, db, now, r) == Handle(cfg, view, now, r))
  }

  /** A decision taken on `view` is, or is late for, the decision that would be taken on `db`, which
      others have reached in the meantime without touching the locked rows. */
  lemma Agrees(cfg: Config, view: Db, db: Db, now: Time, t: Time, r: Request, held: set<Row>)
    requires Inv(cfg, view, now) && Inv(cfg, db, t) && Evolves(view, db, held)
    requires Fresh(view, db, r) && Locks(view, r) <= held
    requires Handle(cfg, view, now, r).Ok?
    ensures Agree(cfg, view, db, now, r)
  {
    hide Inv, Evolves, Fresh, Locks, Handle, Agree;
    if r.UpdateCampaign? || r.UpsertContract? || r.Start? {
      OverwritesAgree(cfg, view, db, now, r, held);
    } else if r.UpsertProfile? || r.CreateCampaign? || r.LaunchCampaign? || r.PublishCampaign? ||
              r.TransitionCampaign? {
      CampaignsAgree(cfg, view, db, now, t, r, held);
    } else if r.Examine? || r.Escalate? || r.Claim? || r.Resolve? {
      DecisionsAgree(cfg, view, db, now, t, r, held);
    } else {
      TestsAgree(cfg, view, db, now, t, r, held);
    }
  }

  lemma OverwritesAgree(cfg: Config, view: Db, db: Db, now: Time, r: Request, held: set<Row>)
    requires Inv(cfg, view, now) && Evolves(view, db, held)
    requires Locks(view, r) <= held && Handle(cfg, view, now, r).Ok?
    requires r.UpdateCampaign? || r.UpsertContract? || r.Start?
    ensures Agree(cfg, view, db, now, r)
  {
    hide Inv, Evolves, SameOrLate, DecisionRows, RulingRows, ApplicationRows, CampaignOf;
    hide Profiles.Upsert, Campaigns.Create, Campaigns.Update, Campaigns.UpsertContract, Campaigns.Publish;
    hide Campaigns.Launch, Campaigns.Transition, Workflow.Apply, Workflow.Accept, Workflow.Decline, Workflow.Withdraw;
    hide Workflow.Start, Workflow.RecordSession, Workflow.Submit, Workflow.Examine, Workflow.Escalate;
    hide Moderation.Claim, Moderation.Resolve, Campaigns.SlugInUse, Profiles.UsernameTakenBy;
    SameIsFine(db, Handle(cfg, view, now, r).value);
    match r
    case UpdateCampaign(c, owner, change) => UpdateAgrees(view, db, c, owner, change, held);
    case UpsertContract(c, owner, terms) => UpsertContractAgrees(view, db, c, owner, terms, held);
    case Start(a, tester) => StartAgrees(view, db, now, a, tester, held);
  }

  lemma CampaignsAgree(cfg: Config, view: Db, db: Db, now: Time, t: Time, r: Request, held: set<Row>)
    requires Inv(cfg, view, now) && Inv(cfg, db, t) && Evolves(view, db, held)
    requires Fresh(view, db, r) && Locks(view, r) <= held && Handle(cfg, view, now, r).Ok?
    requires r.UpsertProfile? || r.CreateCampaign? || r.LaunchCampaign? || r.PublishCampaign? || r.TransitionCampaign?
    ensures Agree(cfg, view, db, now, r)
  {
    hide Inv, Evolves, SameOrLate, DecisionRows, RulingRows, ApplicationRows, CampaignOf;
    hide Profiles.Upsert, Campaigns.Create, Campaigns.Update, Campaigns.UpsertContract, Campaigns.Publish;
    hide Campaigns.Launch, Campaigns.Transition, Workflow.Apply, Workflow.Accept, Workflow.Decline, Workflow.Withdraw;
    hide Workflow.Start, Workflow.RecordSession, Workflow.Submit, Workflow.Examine, Workflow.Escalate;
    hide Moderation.Claim, Moderation.Resolve, Campaigns.SlugInUse, Profiles.UsernameTakenBy;
    SameIsFine(db, Handle(cfg, view, now, r).value);
    match r
    case UpsertProfile(user, username, enabled) => UpsertAgrees(cfg, view, db, now, t, user, username, enabled, held);
    case CreateCampaign(id, owner, fields) => CreateAgrees(view, db, id, owner, fields, held);
    case LaunchCampaign(id, owner, fields, terms) =>
      LaunchAgrees(cfg, view, db, now, t, id, owner, fields, terms, held);
    case PublishCampaign(c, owner) => PublishAgrees(cfg, view, db, now, t, c, owner, held);
    case TransitionCampaign(c, owner, action) => TransitionAgrees(cfg, view, db, now, t, c, owner, action, held);
  }

  lemma TestsAgree(cfg: Config, view: Db, db: Db, now: Time, t: Time, r: Request, held: set<Row>)
    requires Inv(cfg, view, now) && Inv(cfg, db, t) && Evolves(view, db, held)
    requires Fresh(view, db, r) && Locks(view, r) <= held && Handle(cfg, view, now, r).Ok?
    requires r.Apply? || r.Accept? || r.Decline? || r.Withdraw? || r.RecordSession? || r.Submit?
    ensures Agree(cfg, view, db, now, r)
  {
    hide Inv, Evolves, SameOrLate, DecisionRows, RulingRows, ApplicationRows, CampaignOf;
    hide Profiles.Upsert, Campaigns.Create, Campaigns.Update, Campaigns.UpsertContract, Campaigns.Publish;
    hide Campaigns.Launch, Campaigns.Transition, Workflow.Apply, Workflow.Accept, Workflow.Decline, Workflow.Withdraw;
    hide Workflow.Start, Workflow.RecordSession, Workflow.Submit, Workflow.Examine, Workflow.Escalate;
    hide Moderation.Claim, Moderation.Resolve, Campaigns.SlugInUse, Profiles.UsernameTakenBy;
    SameIsFine(db, Handle(cfg, view, now, r).value);
    match r
    case Apply(id, c, tester) => ApplyAgrees(view, db, id, c, tester, held);
    case Accept(a, owner) => AcceptAgrees(cfg, view, db, now, a, owner, held);
    case Decline(a, owner) => DeclineAgrees(cfg, view, db, now, a, owner, held);
    case Withdraw(a, tester) => WithdrawAgrees(cfg, view, db, now, t, a, tester, held);
    case RecordSession(a, tester) => RecordSessionAgrees(view, db, now, a, tester, held);
    case Submit(id, a, tester, evidence) => SubmitAgrees(cfg, view, db, now, id, a, tester, evidence, held);
  }

  lemma DecisionsAgree(cfg: Config, view: Db, db: Db, now: Time, t: Time, r: Request, held: set<Row>)
    requires Inv(cfg, view, now) && Inv(cfg, db, t) && Evolves(view, db, held)
    requires Fresh(view, db, r) && Locks(view, r) <= held && Handle(cfg, view, now, r).Ok?
    requires r.Examine? || r.Escalate? || r.Claim? || r.Resolve?
    ensures Agree(cfg, view, db, now, r)
  {
    hide Inv, Evolves, SameOrLate, DecisionRows, RulingRows, ApplicationRows, CampaignOf;
    hide Profiles.Upsert, Campaigns.Create, Campaigns.Update, Campaigns.UpsertContract, Campaigns.Publish;
    hide Campaigns.Launch, Campaigns.Transition, Workflow.Apply, Workflow.Accept, Workflow.Decline, Workflow.Withdraw;
    hide Workflow.Start, Workflow.RecordSession, Workflow.Submit, Workflow.Examine, Workflow.Escalate;
    hide Moderation.Claim, Moderation.Resolve, Campaigns.SlugInUse, Profiles.UsernameTakenBy;
    SameIsFine(db, Handle(cfg, view, now, r).value);
    match r
    case Examine(s, reviewer, decision) => ExamineAgrees(cfg, view, db, now, t, s, reviewer, decision, held);
    case Escalate(id, a, user, s) => EscalateAgrees(cfg, view, db, now, id, a, user, s, held);
    case Claim(d, moderator) => ClaimAgrees(view, db, d, moderator, held);
    case Resolve(d, moderator, ruling) => ResolveAgrees(cfg, view, db, now, t, d, moderator, ruling, held);
  }

  /** The rows that matter to a request stay the same while it holds them. */
  lemma SameLocks(cfg: Config, view: Db, db: Db, now: Time, r: Request, held: set<Row>)
    requires Evolves(view, db, held) && Fresh(view, db, r) && Locks(view, r) <= held
    requires Handle(cfg, view, now, r).Ok?
    ensures Locks(db, r) <= held
  {
    hide Evolves, DecisionRows, RulingRows, ApplicationRows, Handle, Fresh;
    FoundRows(cfg, view, now, r);
    match r
    case UpsertProfile(user, username, enabled) => SameSignupRows(view, db, r, held);
    case TransitionCampaign(c, owner, action) =>
      if action == Campaigns.Close {
        SameApplicationRows(view, db, c, held, now);
      }
    case Accept(a, _) => SameRow(view, db, a, held);
    case Withdraw(a, _) => SameRow(view, db, a, held);
    case Examine(s, _, decision) => SameExaminationRows(view, db, s, decision == Approve, held);
    case Resolve(d, _, ruling) => SameResolutionRows(view, db, d, ruling, held);
    case _ =>
  }

  lemma SameExaminationRows(view: Db, db: Db, s: Id, pays: bool, held: set<Row>)
    requires Evolves(view, db, held) && s in view.submissions && view.submissions[s].assignment in view.assignments
    requires DecisionRows(view, view.submissions[s].assignment, pays) <= held
    ensures s in db.submissions && DecisionRows(db, db.submissions[s].assignment, pays) <= held
  {
    hide Evolves, DecisionRows;
    var a := view.submissions[s].assignment;
    Guarantees.DecisionRowsAre(view, a, pays);
    LockedAssignment(view, db, a, held);
    SameDecisionRows(view, db, a, pays);
  }

  lemma SameResolutionRows(view: Db, db: Db, d: Id, ruling: Moderation.Ruling, held: set<Row>)
    requires Evolves(view, db, held) && DisputeRow(d) in held
    requires d in view.disputes && view.disputes[d].assignment in view.assignments
    requires RulingRows(view, view.disputes[d], ruling) <= held
    ensures d in db.disputes && RulingRows(db, db.disputes[d], ruling) <= held
  {
    hide Evolves, RulingRows;
    var x := view.disputes[d];
    LockedDispute(view, db, d, held);
    Guarantees.RulingRowsAre(view, x, ruling);
    LockedAssignment(view, db, x.assignment, held);
    SameRulingRows(view, db, x, ruling);
  }

  /** A request that succeeds found the rows it is about. */
  lemma FoundRows(cfg: Config, db: Db, now: Time, r: Request)
    requires Handle(cfg, db, now, r).Ok?
    ensures r.Accept? || r.Withdraw? ==> r.assignment in db.assignments
    ensures r.Examine? ==> r.submission in db.submissions && db.submissions[r.submission].assignment in db.assignments
    ensures r.Resolve? ==> r.dispute in db.disputes && db.disputes[r.dispute].assignment in db.assignments
  {
    hide Workflow.Approval, Workflow.HasActiveDispute, Moderation.Remedied, Campaigns.MaybeComplete, Occupied;
    if r.Accept? || r.Withdraw? || r.Examine? || r.Resolve? {
    }
    hide Profiles.Upsert, Campaigns.Launch, Campaigns.Publish, Workflow.Submit, Workflow.Escalate, Campaigns.Transition;
  }

  lemma SameSignupRows(view: Db, db: Db, r: Request, held: set<Row>)
    requires r.UpsertProfile? && Evolves(view, db, held) && Fresh(view, db, r) && Locks(view, r) <= held
    ensures Locks(db, r) <= held
  {
    hide Profiles.UsernameTakenBy;
    if r.user in view.profiles {
      StillJoined(view, db, r.user, held);
    }
  }

  lemma SameApplicationRows(view: Db, db: Db, c: Id, held: set<Row>, now: Time)
    requires Evolves(view, db, held) && CampaignRow(c) in held && ApplicationRows(view.assignments, c) <= held
    ensures ApplicationRows(db.assignments, c) <= held
  {
    SameApplications(view.assignments, db.assignments, c, held, now);
  }

  lemma SameRow(view: Db, db: Db, a: Id, held: set<Row>)
    requires Evolves(view, db, held) && AssignmentRow(a) in held && a in view.assignments
    ensures CampaignOf(db, a) == CampaignOf(view, a)
  {
  }

  lemma SameDecisionRows(view: Db, db: Db, a: Id, pays: bool)
    requires a in view.assignments && a in db.assignments && db.assignments[a] == view.assignments[a]
    ensures DecisionRows(db, a, pays) == DecisionRows(view, a, pays)
  {
  }

  lemma SameRulingRows(view: Db, db: Db, d: Dispute, ruling: Moderation.Ruling)
    requires d.assignment in view.assignments && d.assignment in db.assignments
    requires db.assignments[d.assignment] == view.assignments[d.assignment]
    ensures RulingRows(db, d, ruling) == RulingRows(view, d, ruling)
  {
    SameDecisionRows(view, db, d.assignment, true);
  }

  /** An assignment whose clock ran no later than `now` when it was decided on still does. */
  lemma StillTimely(cfg: Config, view: Db, db: Db, now: Time, r: Request, held: set<Row>)
    requires Inv(cfg, view, now) && Evolves(view, db, held) && Locks(view, r) <= held
    requires Handle(cfg, view, now, r).Ok?
    ensures Runs.Timely(db, now, r)
  {
    hide Inv, Evolves;
    if r.RecordSession? || r.Submit? {
      Runs.OnTime(cfg, view, now, r);
      SameClock(view, db, now, r.assignment, held);
    }
  }

  lemma SameClock(view: Db, db: Db, now: Time, a: Id, held: set<Row>)
    requires Evolves(view, db, held) && AssignmentRow(a) in held && a in view.assignments
    requires AssignmentClock(view.assignments[a], a, view.sessions, now)
    ensures a in db.assignments ==> AssignmentClock(db.assignments[a], a, db.sessions, now)
  {
  }
}
