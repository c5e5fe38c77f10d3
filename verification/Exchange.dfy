/** The service itself: tables updated in place, one method for each service function, and the
    session that commits or rolls back around them. */
module Exchange {
  import opened Model
  import opened Results
  import opened Requests
  import Campaigns
  import Credits
  import Invariants
  import Moderation
  import Profiles
  import Runs
  import StorageKeys
  import Success
  import Workflow

  /** What a service function leaves in its session: its writes, or its refusal and whatever it had
      changed by then. */
  predicate Leaves(before: Db, result: Result<Writes>, after: Db, answer: Outcome) {
    match result
    case Ok(w) => after == Commit(before, w) && answer == Pass
    case Err(e) => answer == Fail(e)
  }

  class Exchange {
    const cfg: Profiles.Config
    var clock: Time
    var profiles: map<Id, string>
    var seats: Option<int>
    var campaigns: map<Id, Campaign>
    var contracts: map<Id, Contract>
    var assignments: map<Id, Assignment>
    var sessions: set<Session>
    var submissions: map<Id, Submission>
    var reviews: map<Id, Review>
    var disputes: map<Id, Dispute>
    var accounts: map<Id, int>
    var ledger: seq<Entry>

    function Store(): Db
      reads this
    {
      Db(profiles, seats, campaigns, contracts, assignments, sessions, submissions, reviews, disputes, accounts, ledger)
    }

    ghost predicate Valid()
      reads this
    {
      Invariants.Inv(cfg, Store(), clock)
    }

    constructor (cfg: Profiles.Config, start: Time)
      ensures Valid() && this.cfg == cfg && clock == start && Store() == Initial(cfg)
    {
      this.cfg, clock := cfg, start;
      profiles, seats := map[], if cfg.seeded then Some(0) else None;
      campaigns, contracts, assignments := map[], map[], map[];
      sessions, submissions, reviews, disputes, accounts, ledger := {}, map[], map[], map[], map[], [];
      new;
      Runs.EmptyHolds(cfg, start);
    }

    // ----- credits --------------------------------------------------------------------------

    method EnsureAccount(user: Id)
      modifies this`accounts
      ensures accounts == old(accounts) + map[user := Credits.AccountBalance(old(accounts), user)]
    {
      if user !in accounts {
        accounts := accounts[user := 0];
      }
    }

    method RecordEntry(e: Entry) returns (answer: Outcome)
      modifies this`accounts, this`ledger
      ensures var r := Credits.Record(old(Store()), e);
              match r
              case Ok(w) => answer == Pass && accounts == old(accounts) + w.accounts &&
                            ledger == old(ledger) + w.entries
              case Err(error) => answer == Fail(error)
    {
      if Credits.HasKey(ledger, e.key) {
        PlusNone(accounts);
        PlusNil(ledger);
        return Pass;
      }
      :- Check(e.delta != 0, ZeroCredit);
      EnsureAccount(e.user);
      var balance := accounts[e.user] + e.delta;
      :- Check(balance >= 0, InsufficientCredits);
      accounts := accounts[e.user := balance];
      ledger := ledger + [e];
      answer := Pass;
    }

    // ----- profiles -------------------------------------------------------------------------

    /** Take a seat from the counter, which is created from the number of profiles if it is missing. */
    method ClaimSeat() returns (answer: Outcome)
      modifies this`seats
      ensures var claimed := Profiles.ClaimedSeats(old(Store()));
              if claimed < cfg.maxUsers then answer == Pass && seats == Some(claimed + 1) else answer == Fail(BetaFull)
    {
      if seats.None? {
        seats := Some(|profiles|);
      }
      :- Check(seats.value < cfg.maxUsers, BetaFull);
      seats := Some(seats.value + 1);
      answer := Pass;
    }

    /** A new profile with its account and its grant. */
    method Enrol(user: Id, username: string) returns (answer: Outcome)
      modifies this`profiles, this`accounts, this`ledger
      ensures var admitted := old(Store()).(
                profiles := old(profiles) + map[user := username],
                accounts := old(accounts) + map[user := Credits.AccountBalance(old(accounts), user)]);
              match Profiles.Grant(admitted, cfg, user)
              case Ok(w) =>
                && answer == Pass
                && Store() == admitted.(accounts := admitted.accounts + w.accounts,
                                        ledger := admitted.ledger + w.entries)
              case Err(e) => answer == Fail(e)
    {
      hide Credits.Record, Credits.AccountBalance;
      PlusOne(profiles, user, username);
      profiles := profiles[user := username];
      EnsureAccount(user);
      if cfg.signupGrant > 0 {
        answer := RecordEntry(Entry(user, cfg.signupGrant, SignupGrant, SignupKey(user)));
      } else {
        answer := Pass;
        PlusNone(accounts);
        PlusNil(ledger);
      }
    }

    method UpsertProfile(user: Id, username: string, enabled: bool) returns (answer: Outcome)
      modifies this`profiles, this`seats, this`accounts, this`ledger
      ensures Leaves(old(Store()), Profiles.Upsert(old(Store()), cfg, user, username, enabled), Store(), answer)
    {
      hide Commit, Profiles.Upsert, Profiles.UsernameTakenBy, Profiles.ClaimedSeats, Profiles.Grant;
      hide Credits.AccountBalance;
      ghost var before := Store();
      Entrance(before, cfg, user, username, enabled);
      :- Check(!Profiles.UsernameTakenBy(profiles, username, user), UsernameTaken);
      if user in profiles {
        Success.Rename(before, cfg, user, username, enabled);
        PlusOne(profiles, user, username);
        profiles := profiles[user := username];
        answer := Pass;
      } else {
        :- Check(enabled, RegistrationPaused);
        :- ClaimSeat();
        answer := Enrol(user, username);
        Joined(before, cfg, user, username, enabled, Store(), answer);
      }
    }

    // ----- campaigns ------------------------------------------------------------------------

    method CreateCampaign(id: Id, owner: Id, p: Campaigns.CampaignPayload) returns (answer: Outcome)
      modifies this`campaigns
      ensures Leaves(old(Store()), Campaigns.Create(old(Store()), id, owner, p), Store(), answer)
    {
      hide Commit;
      :- Check(owner in profiles, ProfileRequired);
      :- Check(!Campaigns.SlugInUse(campaigns, p.slug), SlugTaken);
      :- Check(id !in campaigns, IntegrityViolation);
      campaigns := campaigns[id := Campaign(owner, p.slug, p.target, p.reward, Draft, None)];
      answer := Pass;
      PlusOne(old(campaigns), id, campaigns[id]);
      Success.Create(old(Store()), id, owner, p);
    }

    method UpdateCampaign(campaign: Id, owner: Id, u: Campaigns.CampaignUpdate) returns (answer: Outcome)
      modifies this`campaigns
      ensures Leaves(old(Store()), Campaigns.Update(old(Store()), campaign, owner, u), Store(), answer)
    {
      hide Commit;
      :- Check(campaign in campaigns, CampaignNotFound);
      :- Check(campaigns[campaign].owner == owner, NotCampaignOwner);
      :- Check(campaigns[campaign].status == Draft, CampaignLocked);
      if u.target.Some? {
        campaigns := campaigns[campaign := campaigns[campaign].(target := u.target.value)];
      }
      if u.reward.Some? {
        campaigns := campaigns[campaign := campaigns[campaign].(reward := u.reward.value)];
      }
      answer := Pass;
      Success.Update(old(Store()), campaign, owner, u);
    }

    /** Append the tasks to a contract, in their positions. */
    method AddTasks(campaign: Id, tasks: seq<Task>)
      requires campaign in contracts
      modifies this`contracts
      ensures contracts ==
              old(contracts)[campaign := old(contracts)[campaign].(tasks := old(contracts)[campaign].tasks + tasks)]
    {
      ghost var bare := contracts[campaign];
      for position := 0 to |tasks|
        invariant contracts.Keys == old(contracts).Keys
        invariant contracts[campaign] == bare.(tasks := bare.tasks + tasks[..position])
        invariant forall c :: c in contracts && c != campaign ==> contracts[c] == old(contracts)[c]
      {
        var contract := contracts[campaign];
        assert tasks[..position + 1] == tasks[..position] + [tasks[position]];
        contracts := contracts[campaign := contract.(tasks := contract.tasks + [tasks[position]])];
      }
      assert tasks[..|tasks|] == tasks;
    }

    method UpsertContract(campaign: Id, owner: Id, p: Campaigns.ContractPayload) returns (answer: Outcome)
      modifies this`contracts
      ensures Leaves(old(Store()), Campaigns.UpsertContract(old(Store()), campaign, owner, p), Store(), answer)
    {
      hide Commit;
      :- Check(campaign in campaigns, CampaignNotFound);
      :- Check(campaigns[campaign].owner == owner, NotCampaignOwner);
      :- Check(campaigns[campaign].status == Draft, CampaignLocked);
      var version := 1;
      if campaign in contracts {
        :- Check(!contracts[campaign].locked, ContractLocked);
        version := contracts[campaign].version + 1;
      }
      contracts := contracts[campaign :=
                             Contract(version, p.reviewWindowHours, p.minimumDays, p.requiredSessions, [], false)];
      ghost var bare := contracts[campaign];
      AddTasks(campaign, p.tasks);
      answer := Pass;
      assert bare.tasks + p.tasks == p.tasks;
      PlusOne(old(contracts), campaign, bare);
      PlusOne(old(contracts) + map[campaign := bare], campaign, contracts[campaign]);
      Overwrite(old(contracts), campaign, bare, contracts[campaign]);
      Success.UpsertContract(old(Store()), campaign, owner, p);
    }

    method PublishCampaign(now: Time, campaign: Id, owner: Id) returns (answer: Outcome)
      modifies this`campaigns, this`contracts, this`accounts, this`ledger
      ensures Leaves(old(Store()), Campaigns.Publish(old(Store()), now, campaign, owner), Store(), answer)
    {
      hide Commit, Campaigns.Publish, Credits.Record;
      ghost var before := Store();
      PublishGuards(before, now, campaign, owner);
      :- Check(campaign in campaigns, CampaignNotFound);
      :- Check(campaigns[campaign].owner == owner, NotCampaignOwner);
      if campaigns[campaign].status == Published {
        NothingChanges(before);
        return Pass;
      }
      :- Check(campaigns[campaign].status == Draft, NotDraft);
      :- Check(campaign in contracts, ContractNotFound);
      :- Check(contracts[campaign].tasks != [], NoTasks);
      :- RecordEntry(Campaigns.PostingEntry(campaign, campaigns[campaign]));
      campaigns := campaigns[campaign := campaigns[campaign].(status := Published, publishedAt := Some(now))];
      contracts := contracts[campaign := contracts[campaign].(locked := true)];
      answer := Pass;
      PlusOne(before.campaigns, campaign, campaigns[campaign]);
      PlusOne(before.contracts, campaign, contracts[campaign]);
      PublishResult(before, now, campaign, owner);
    }

    method LaunchCampaign(now: Time, id: Id, owner: Id, p: Campaigns.CampaignPayload, k: Campaigns.ContractPayload)
      returns (answer: Outcome)
      modifies this`campaigns, this`contracts, this`accounts, this`ledger
      ensures Leaves(old(Store()), Campaigns.Launch(old(Store()), now, id, owner, p, k), Store(), answer)
    {
      ghost var before := Store();
      :- CreateCampaign(id, owner, p);
      ghost var created := Campaigns.Create(before, id, owner, p).value;
      :- UpsertContract(id, owner, k);
      ghost var drafted := Campaigns.UpsertContract(Commit(before, created), id, owner, k).value;
      CommitThen(before, created, drafted);
      :- PublishCampaign(now, id, owner);
      CommitThen(before, Then(created, drafted),
                 Campaigns.Publish(Commit(before, Then(created, drafted)), now, id, owner).value);
      answer := Pass;
    }

    method MaybeComplete(campaign: Id)
      requires campaign in campaigns
      modifies this`campaigns
      ensures campaigns ==
              old(campaigns)[campaign := Campaigns.MaybeComplete(old(campaigns)[campaign], campaign, assignments)]
    {
      var row := campaigns[campaign];
      var approved := |WithStatus(assignments, campaign, {Approved})|;
      var reached := (row.status == Published || row.status == Paused) && approved >= row.target;
      var settled := false;
      if row.status == Closed {
        var active := |WithStatus(assignments, campaign, ACTIVE)|;
        var accepted := |EverAccepted(assignments, campaign)|;
        settled := active == 0 && accepted > 0;
      }
      if !reached && !settled {
        return;
      }
      campaigns := campaigns[campaign := row.(status := Completed)];
    }

    method TransitionCampaign(now: Time, campaign: Id, owner: Id, action: Campaigns.Action) returns (answer: Outcome)
      modifies this`campaigns, this`assignments
      ensures Leaves(old(Store()), Campaigns.Transition(old(Store()), now, campaign, owner, action), Store(), answer)
    {
      hide Commit, Occupied, Campaigns.MaybeComplete, Campaigns.Declined, Campaigns.Transition;
      ghost var before := Store();
      TransitionGuards(before, now, campaign, owner, action);
      :- Check(campaign in campaigns, CampaignNotFound);
      :- Check(campaigns[campaign].owner == owner, NotCampaignOwner);
      var status := campaigns[campaign].status;
      match action {
        case Pause =>
          :- Check(status == Published, NotPublished);
          campaigns := campaigns[campaign := campaigns[campaign].(status := Paused)];
        case Resume =>
          :- Check(status == Paused, NotPaused);
          :- Check(Occupied(assignments, campaign) < campaigns[campaign].target, CampaignFull);
          campaigns := campaigns[campaign := campaigns[campaign].(status := Published)];
        case Close =>
          :- Check(status == Published || status == Paused, NotOpen);
          campaigns := campaigns[campaign := campaigns[campaign].(status := Closed)];
          DeclinePending(now, campaign);
          ghost var closed := campaigns[campaign];
          MaybeComplete(campaign);
          PlusOne(before.campaigns, campaign, closed);
          PlusOne(before.campaigns + map[campaign := closed], campaign, campaigns[campaign]);
          Overwrite(before.campaigns, campaign, closed, campaigns[campaign]);
      }
      answer := Pass;
      PlusOne(before.campaigns, campaign, campaigns[campaign]);
      Success.Transition(before, now, campaign, owner, action);
    }

    /** Decline every application that is still pending, one after the other. */
    method DeclinePending(now: Time, campaign: Id)
      modifies this`assignments
      ensures assignments == old(assignments) + Campaigns.Declined(old(assignments), campaign, now)
    {
      var pending := WithStatus(assignments, campaign, {Applied});
      ghost var all := pending;
      while pending != {}
        invariant pending <= all
        invariant assignments.Keys == old(assignments).Keys
        invariant forall a :: a in assignments ==>
                    assignments[a] == (if a in all - pending
                                       then old(assignments)[a].(status := Cancelled, completedAt := Some(now))
                                       else old(assignments)[a])
      {
        var a :| a in pending;
        assignments := assignments[a := assignments[a].(status := Cancelled, completedAt := Some(now))];
        pending := pending - {a};
      }
    }

    // ----- applications ---------------------------------------------------------------------

    method ApplyToCampaign(id: Id, campaign: Id, tester: Id) returns (answer: Outcome)
      modifies this`assignments
      ensures Leaves(old(Store()), Workflow.Apply(old(Store()), id, campaign, tester), Store(), answer)
    {
      hide Commit, Occupied, Workflow.HasApplied;
      :- Check(tester in profiles, ProfileRequired);
      :- Check(campaign in campaigns, CampaignNotFound);
      var c := campaigns[campaign];
      :- Check(c.status == Published, NotAcceptingTesters);
      :- Check(c.owner != tester, OwnCampaign);
      :- Check(!Workflow.HasApplied(assignments, campaign, tester), AlreadyApplied);
      :- Check(Occupied(assignments, campaign) < c.target, CampaignFull);
      :- Check(id !in assignments, IntegrityViolation);
      assignments := assignments[id := Assignment(campaign, tester, Applied, None, None, None, None)];
      answer := Pass;
      PlusOne(old(assignments), id, assignments[id]);
      Success.Apply(old(Store()), id, campaign, tester);
    }

    method AcceptAssignment(now: Time, assignment: Id, owner: Id) returns (answer: Outcome)
      modifies this`assignments
      ensures Leaves(old(Store()), Workflow.Accept(old(Store()), now, assignment, owner), Store(), answer)
    {
      hide Commit, Occupied;
      :- Check(assignment in assignments, AssignmentNotFound);
      var campaign := assignments[assignment].campaign;
      :- Check(campaign in campaigns, CampaignNotFound);
      :- Check(campaigns[campaign].owner == owner, NotCampaignOwner);
      :- Check(campaigns[campaign].status == Published, NotAcceptingTesters);
      :- Check(assignments[assignment].status == Applied, NotPendingApplication);
      :- Check(Occupied(assignments, campaign) < campaigns[campaign].target, CampaignFull);
      assignments := assignments[assignment := assignments[assignment].(status := Accepted)];
      assignments := assignments[assignment := assignments[assignment].(acceptedAt := Some(now))];
      answer := Pass;
      PlusOne(old(assignments), assignment, assignments[assignment]);
      Success.Accept(old(Store()), now, assignment, owner);
    }

    /** `cancelled` and the time of it, as declining and withdrawing write them. */
    method Cancel(now: Time, assignment: Id)
      requires assignment in assignments
      modifies this`assignments
      ensures assignments == old(assignments) +
                map[assignment := old(assignments)[assignment].(status := Cancelled, completedAt := Some(now))]
    {
      assignments := assignments[assignment := assignments[assignment].(status := Cancelled)];
      assignments := assignments[assignment := assignments[assignment].(completedAt := Some(now))];
    }

    method DeclineAssignment(now: Time, assignment: Id, owner: Id) returns (answer: Outcome)
      modifies this`assignments
      ensures Leaves(old(Store()), Workflow.Decline(old(Store()), now, assignment, owner), Store(), answer)
    {
      hide Commit;
      :- Check(assignment in assignments, AssignmentNotFound);
      var campaign := assignments[assignment].campaign;
      :- Check(campaign in campaigns, CampaignNotFound);
      :- Check(campaigns[campaign].owner == owner, NotCampaignOwner);
      :- Check(assignments[assignment].status == Applied, NotPendingApplication);
      Cancel(now, assignment);
      answer := Pass;
      Success.Decline(old(Store()), now, assignment, owner);
    }

    method WithdrawAssignment(now: Time, assignment: Id, tester: Id) returns (answer: Outcome)
      modifies this`assignments, this`campaigns
      ensures Leaves(old(Store()), Workflow.Withdraw(old(Store()), now, assignment, tester), Store(), answer)
    {
      hide Commit, Campaigns.MaybeComplete;
      :- Check(assignment in assignments, AssignmentNotFound);
      :- Check(assignments[assignment].tester == tester, NotTheTester);
      :- Check(assignments[assignment].status in {Applied, Accepted, InProgress, ChangesRequested}, NotWithdrawable);
      var campaign := assignments[assignment].campaign;
      :- Check(campaign in campaigns, CampaignNotFound);
      Cancel(now, assignment);
      MaybeComplete(campaign);
      answer := Pass;
      PlusOne(old(campaigns), campaign, campaigns[campaign]);
      Success.Withdraw(old(Store()), now, assignment, tester);
    }

    // ----- testing --------------------------------------------------------------------------

    method StartAssignment(now: Time, assignment: Id, tester: Id) returns (answer: Outcome)
      modifies this`assignments, this`sessions
      ensures Leaves(old(Store()), Workflow.Start(old(Store()), now, assignment, tester), Store(), answer)
    {
      hide Commit;
      :- Check(assignment in assignments, AssignmentNotFound);
      :- Check(assignments[assignment].tester == tester, NotTheTester);
      :- Check(assignments[assignment].status == Accepted, NotAccepted);
      assignments := assignments[assignment := assignments[assignment].(status := InProgress)];
      assignments := assignments[assignment := assignments[assignment].(startedAt := Some(now))];
      var session := Session(assignment, DayOf(now));
      :- Check(session !in sessions, IntegrityViolation);
      sessions := sessions + {session};
      answer := Pass;
      PlusOne(old(assignments), assignment, assignments[assignment]);
      Success.Start(old(Store()), now, assignment, tester);
    }

    method RecordTestingSession(now: Time, assignment: Id, tester: Id) returns (answer: Outcome)
      modifies this`sessions
      ensures Leaves(old(Store()), Workflow.RecordSession(old(Store()), now, assignment, tester), Store(), answer)
    {
      hide Commit;
      :- Check(assignment in assignments, AssignmentNotFound);
      :- Check(assignments[assignment].tester == tester, NotTheTester);
      :- Check(assignments[assignment].status == InProgress ||
               assignments[assignment].status == ChangesRequested, NotTesting);
      var today := Session(assignment, DayOf(now));
      :- Check(today !in sessions, SessionAlreadyRecorded);
      sessions := sessions + {today};
      answer := Pass;
      Success.RecordSession(old(Store()), now, assignment, tester);
    }

    /** Every item, in order, must carry content, and its file must lie in the folder. */
    method CheckItems(folder: string, items: seq<Item>) returns (answer: Outcome)
      ensures match Workflow.CheckItems(folder, items)
              case Ok(_) => answer == Pass
              case Err(e) => answer == Fail(e)
      ensures answer == Pass <==>
              forall i :: 0 <= i < |items| ==>
                items[i].HasContent() &&
                (items[i].storageKey.Some? ==> StorageKeys.Accepts(folder, items[i].storageKey.value))
    {
      for i := 0 to |items|
        invariant Workflow.CheckItems(folder, items) == Workflow.CheckItems(folder, items[i..])
        invariant forall j :: 0 <= j < i ==>
                    items[j].HasContent() &&
                    (items[j].storageKey.Some? ==> StorageKeys.Accepts(folder, items[j].storageKey.value))
      {
        hide StorageKeys.Accepts;
        assert items[i..][0] == items[i];
        :- Check(items[i].HasContent(), EmptyEvidence);
        :- Check(items[i].storageKey.Some? ==> StorageKeys.Accepts(folder, items[i].storageKey.value), BadStorageKey);
        assert items[i..][1..] == items[i + 1..];
      }
      answer := Pass;
    }

    method CreateSubmission(now: Time, id: Id, assignment: Id, tester: Id,
                            e: Workflow.EvidencePayload) returns (answer: Outcome)
      modifies this`submissions, this`assignments
      ensures Leaves(old(Store()), Workflow.Submit(old(Store()), now, id, assignment, tester, e), Store(), answer)
    {
      hide Commit, StorageKeys.FolderName, Workflow.CheckItems, Workflow.SessionDays, Workflow.LatestVersion;
      hide Workflow.TaskIds, Workflow.RequiredTaskIds, Workflow.CoveredTaskIds, Workflow.Submit;
      SubmitGuards(Store(), now, id, assignment, tester, e);
      :- Check(assignment in assignments, AssignmentNotFound);
      :- Check(assignments[assignment].tester == tester, NotTheTester);
      var a := assignments[assignment];
      :- Check(a.status == InProgress || a.status == ChangesRequested, NotReadyToSubmit);
      :- Check(a.campaign in contracts, ContractNotFound);
      var contract := contracts[a.campaign];
      :- Check(a.startedAt.Some?, NotStarted);
      :- Check(now >= a.startedAt.value + contract.minimumDays * DAY, TooEarly);
      :- Check(|Workflow.SessionDays(sessions, assignment)| >= contract.requiredSessions, TooFewSessions);
      var covered := Workflow.CoveredTaskIds(e.items);
      :- Check(covered <= Workflow.TaskIds(contract.tasks), ForeignTask);
      :- Check(Workflow.RequiredTaskIds(contract.tasks) <= covered, MissingEvidence);
      :- CheckItems(StorageKeys.FolderName(assignment), e.items);
      :- Check(id !in submissions, IntegrityViolation);
      var version := Workflow.LatestVersion(submissions, assignment) + 1;
      submissions := submissions[id := Submission(assignment, version, e.specificSummary, e.items, Pending, now)];
      assignments := assignments[assignment := a.(status := Submitted, submittedAt := Some(now))];
      answer := Pass;
      PlusOne(old(submissions), id, submissions[id]);
      PlusOne(old(assignments), assignment, assignments[assignment]);
      Success.Submit(old(Store()), now, id, assignment, tester, e);
    }

    // ----- decisions ------------------------------------------------------------------------

    /** Both rows approved, the reward posted, and the campaign completed if that finishes it. */
    method ApproveWork(now: Time, submission: Id, assignment: Id) returns (answer: Outcome)
      requires submission in submissions && assignment in assignments && assignments[assignment].campaign in campaigns
      modifies this`submissions, this`assignments, this`accounts, this`ledger, this`campaigns
      ensures var a := old(assignments)[assignment];
              Leaves(old(Store()), Workflow.Approval(old(Store()), now, submission, old(submissions)[submission],
                                                     assignment, a,
                                                     old(campaigns)[a.campaign]), Store(), answer)
      ensures campaigns.Keys == old(campaigns).Keys
    {
      hide Commit, Campaigns.MaybeComplete, Credits.Record, Workflow.Approval;
      var a := assignments[assignment];
      ghost var before := Store();
      ApprovalRefused(before, now, submission, submissions[submission], assignment, a, campaigns[a.campaign]);
      submissions := submissions[submission := submissions[submission].(status := Passed)];
      assignments := assignments[assignment := a.(status := Approved, completedAt := Some(now))];
      var e := Credits.RewardEntry(assignment, a.tester, campaigns[a.campaign].reward);
      RecordReads(before, Store(), e);
      :- RecordEntry(e);
      MaybeComplete(a.campaign);
      answer := Pass;
      PlusOne(before.submissions, submission, submissions[submission]);
      PlusOne(before.assignments, assignment, assignments[assignment]);
      PlusOne(before.campaigns, a.campaign, campaigns[a.campaign]);
      ApprovalResult(before, now, submission, before.submissions[submission], assignment, a,
                     before.campaigns[a.campaign]);
    }

    method CreateReview(now: Time, submission: Id, reviewer: Id, decision: Decision) returns (answer: Outcome)
      modifies this`reviews, this`submissions, this`assignments, this`accounts, this`ledger, this`campaigns
      ensures Leaves(old(Store()), Workflow.Examine(old(Store()), now, submission, reviewer, decision), Store(), answer)
    {
      hide Commit, Workflow.HasActiveDispute, Workflow.Approval;
      ghost var before := Store();
      :- Check(submission in submissions, SubmissionNotFound);
      var assignment := submissions[submission].assignment;
      :- Check(assignment in assignments, AssignmentNotFound);
      var campaign := assignments[assignment].campaign;
      :- Check(campaign in campaigns, CampaignNotFound);
      :- Check(campaigns[campaign].owner == reviewer, NotCampaignOwner);
      :- Check(!Workflow.HasActiveDispute(disputes, assignment), EscalationActive);
      :- Check(submissions[submission].status == Pending, AlreadyReviewed);
      :- Check(assignments[assignment].status == Submitted, NotAwaitingReview);
      :- Check(submission !in reviews, IntegrityViolation);
      reviews := reviews[submission := Review(reviewer, decision)];
      answer := Decide(now, submission, assignment, decision);
      PlusOne(before.reviews, submission, reviews[submission]);
      Decided(before, now, submission, reviewer, decision, Store(), answer);
    }

    /** What the owner's decision does to the work. */
    method Decide(now: Time, submission: Id, assignment: Id, decision: Decision) returns (answer: Outcome)
      requires submission in submissions && assignment in assignments && assignments[assignment].campaign in campaigns
      modifies this`submissions, this`assignments, this`accounts, this`ledger, this`campaigns
      ensures var s, a := old(submissions)[submission], old(assignments)[assignment];
              match decision
              case Approve =>
                Leaves(old(Store()), Workflow.Approval(old(Store()), now, submission, s, assignment, a,
                                                       old(campaigns)[a.campaign]),
                       Store(), answer)
              case RequestChanges =>
                answer == Pass && Store() == old(Store()).(
                  submissions := old(submissions) + map[submission := s.(status := ToChange)],
                  assignments := old(assignments) + map[assignment := a.(status := ChangesRequested)])
              case Reject =>
                answer == Pass && Store() == old(Store()).(
                  submissions := old(submissions) + map[submission := s.(status := Refused)],
                  assignments := old(assignments) + map[assignment := a.(status := Rejected)])
    {
      hide Commit, Workflow.Approval;
      match decision
      case Approve =>
        answer := ApproveWork(now, submission, assignment);
      case RequestChanges =>
        submissions := submissions[submission := submissions[submission].(status := ToChange)];
        assignments := assignments[assignment := assignments[assignment].(status := ChangesRequested)];
        answer := Pass;
        PlusOne(old(submissions), submission, submissions[submission]);
        PlusOne(old(assignments), assignment, assignments[assignment]);
      case Reject =>
        submissions := submissions[submission := submissions[submission].(status := Refused)];
        assignments := assignments[assignment := assignments[assignment].(status := Rejected)];
        answer := Pass;
        PlusOne(old(submissions), submission, submissions[submission]);
        PlusOne(old(assignments), assignment, assignments[assignment]);
    }

    method OpenDispute(now: Time, id: Id, assignment: Id, user: Id, submission: Option<Id>) returns (answer: Outcome)
      modifies this`disputes
      ensures Leaves(old(Store()), Workflow.Escalate(old(Store()), now, id, assignment, user, submission), Store(),
                     answer)
    {
      hide Commit, Workflow.HasDispute;
      :- Check(assignment in assignments, AssignmentNotFound);
      var a := assignments[assignment];
      :- Check(a.campaign in campaigns, CampaignNotFound);
      :- Check(user == a.tester || user == campaigns[a.campaign].owner, PrivateWorkspace);
      :- Check(user == a.tester, NotTheTester);
      :- Check(a.status == Rejected || a.status == Submitted, NotEscalatable);
      :- Check(submission.Some?, SubmissionRequired);
      :- Check(submission.value in submissions &&
               submissions[submission.value].assignment == assignment, ForeignSubmission);
      var s := submissions[submission.value];
      if a.status == Submitted {
        :- Check(s.status == Pending, NotPending);
        :- Check(a.campaign in contracts, ContractNotFound);
        :- Check(now >= s.submittedAt + contracts[a.campaign].reviewWindowHours * HOUR, ReviewWindowOpen);
      } else {
        :- Check(s.status == Refused, NotRejected);
      }
      :- Check(!Workflow.HasDispute(disputes, assignment), AlreadyDisputed);
      :- Check(id !in disputes, IntegrityViolation);
      disputes := disputes[id := Dispute(assignment, submission, user, Open, None, None, None)];
      answer := Pass;
      PlusOne(old(disputes), id, disputes[id]);
      Success.Escalate(old(Store()), now, id, assignment, user, submission);
    }

    // ----- moderation -----------------------------------------------------------------------

    method ClaimDispute(id: Id, moderator: Id) returns (answer: Outcome)
      modifies this`disputes
      ensures Leaves(old(Store()), Moderation.Claim(old(Store()), id, moderator), Store(), answer)
    {
      hide Commit;
      :- Check(id in disputes, DisputeNotFound);
      if disputes[id].status == UnderReview {
        :- Check(disputes[id].assignedTo == Some(moderator), ClaimedByAnother);
        NothingChanges(Store());
        return Pass;
      }
      :- Check(disputes[id].status == Open, NotClaimable);
      :- Check(moderator in profiles, IntegrityViolation);
      disputes := disputes[id := disputes[id].(status := UnderReview)];
      disputes := disputes[id := disputes[id].(assignedTo := Some(moderator))];
      answer := Pass;
      PlusOne(old(disputes), id, disputes[id]);
      Success.Claim(old(Store()), id, moderator);
    }

    /** What a ruling does to the work: an award approves it, a dismissal refuses pending work. */
    method Remedy(now: Time, d: Dispute, r: Moderation.Ruling) returns (answer: Outcome)
      requires d.assignment in assignments
      modifies this`submissions, this`assignments, this`accounts, this`ledger, this`campaigns
      ensures Leaves(old(Store()), Moderation.Remedied(old(Store()), now, d, old(assignments)[d.assignment], r),
                     Store(), answer)
      ensures campaigns.Keys == old(campaigns).Keys
    {
      hide Commit, Workflow.Approval;
      ghost var before := Store();
      var a := assignments[d.assignment];
      if a.status == Submitted && r.remedy != AwardTester {
        :- Check(r.outcome == Moderation.Dismiss, OverdueNeedsDecision);
        :- Check(d.submission.Some? && d.submission.value in submissions &&
                 submissions[d.submission.value].assignment == d.assignment, DisputedSubmissionMissing);
        var s := d.submission.value;
        submissions := submissions[s := submissions[s].(status := Refused)];
        assignments := assignments[d.assignment := a.(status := Rejected, completedAt := Some(now))];
        PlusOne(before.submissions, s, submissions[s]);
        PlusOne(before.assignments, d.assignment, assignments[d.assignment]);
        RefusalResult(before, s, submissions[s], d.assignment, assignments[d.assignment]);
      }
      if r.remedy == AwardTester {
        :- Check(d.submission.Some?, NoDisputedSubmission);
        :- Check(a.status == Rejected || a.status == Submitted, NotAwardable);
        var s := d.submission.value;
        :- Check(s in submissions && submissions[s].assignment == d.assignment, DisputedSubmissionMissing);
        :- Check(a.campaign in campaigns, CampaignNotFound);
        answer := ApproveWork(now, s, d.assignment);
        return;
      }
      answer := Pass;
      NothingChanges(before);
    }

    method ResolveDispute(now: Time, id: Id, moderator: Id, r: Moderation.Ruling) returns (answer: Outcome)
      modifies this`disputes, this`submissions, this`assignments, this`accounts, this`ledger, this`campaigns
      ensures Leaves(old(Store()), Moderation.Resolve(old(Store()), now, id, moderator, r), Store(), answer)
    {
      hide Commit, Moderation.Remedied;
      ghost var before := Store();
      :- Check(id in disputes, DisputeNotFound);
      var d := disputes[id];
      :- Check(d.status == UnderReview, NotClaimed);
      :- Check(d.assignedTo == Some(moderator), NotAssignedModerator);
      :- Check(d.assignment in assignments, AssignmentNotFound);
      var a := assignments[d.assignment];
      :- Remedy(now, d, r);
      :- Check(a.campaign in campaigns, CampaignNotFound);
      ghost var remedied := Store();
      var status := if r.outcome == Moderation.Settle then DisputeStatus.Resolved else Dismissed;
      disputes := disputes[id := d.(status := status, remedy := Some(r.remedy), resolvedBy := Some(moderator))];
      answer := Pass;
      PlusOne(remedied.disputes, id, disputes[id]);
      RulingBeside(before, now, d, a, r, map[id := disputes[id]]);
    }

    // ----- the session ----------------------------------------------------------------------

    method DispatchOwners(now: Time, r: Request) returns (answer: Outcome)
      requires r.UpsertProfile? || r.CreateCampaign? || r.UpdateCampaign? || r.UpsertContract? || r.PublishCampaign?
               || r.LaunchCampaign? || r.TransitionCampaign?
      modifies this`profiles, this`seats, this`campaigns, this`contracts, this`assignments, this`sessions,
               this`submissions, this`reviews, this`disputes, this`accounts, this`ledger
      ensures Leaves(old(Store()), Handle(cfg, old(Store()), now, r), Store(), answer)
    {
      hide Profiles.Upsert, Campaigns.Create, Campaigns.Update, Campaigns.UpsertContract, Campaigns.Publish;
      hide Campaigns.Launch, Campaigns.Transition, Workflow.Apply, Workflow.Accept, Workflow.Decline;
      hide Workflow.Withdraw, Workflow.Start, Workflow.RecordSession, Workflow.Submit, Workflow.Examine;
      hide Workflow.Escalate, Moderation.Claim, Moderation.Resolve, Commit, Leaves;
      match r
      case UpsertProfile(user, username, enabled) => answer := UpsertProfile(user, username, enabled);
      case CreateCampaign(id, owner, fields) => answer := CreateCampaign(id, owner, fields);
      case UpdateCampaign(c, owner, change) => answer := UpdateCampaign(c, owner, change);
      case UpsertContract(c, owner, terms) => answer := UpsertContract(c, owner, terms);
      case PublishCampaign(c, owner) => answer := PublishCampaign(now, c, owner);
      case LaunchCampaign(id, owner, fields, terms) => answer := LaunchCampaign(now, id, owner, fields, terms);
      case TransitionCampaign(c, owner, action) => answer := TransitionCampaign(now, c, owner, action);
    }

    method DispatchDecisions(now: Time, r: Request) returns (answer: Outcome)
      requires r.Examine? || r.Escalate? || r.Claim? || r.Resolve?
      modifies this`profiles, this`seats, this`campaigns, this`contracts, this`assignments, this`sessions,
               this`submissions, this`reviews, this`disputes, this`accounts, this`ledger
      ensures Leaves(old(Store()), Handle(cfg, old(Store()), now, r), Store(), answer)
    {
      hide Profiles.Upsert, Campaigns.Create, Campaigns.Update, Campaigns.UpsertContract, Campaigns.Publish;
      hide Campaigns.Launch, Campaigns.Transition, Workflow.Apply, Workflow.Accept, Workflow.Decline;
      hide Workflow.Withdraw, Workflow.Start, Workflow.RecordSession, Workflow.Submit, Workflow.Examine;
      hide Workflow.Escalate, Moderation.Claim, Moderation.Resolve, Commit, Leaves;
      match r
      case Examine(s, reviewer, decision) => answer := CreateReview(now, s, reviewer, decision);
      case Escalate(id, a, user, s) => answer := OpenDispute(now, id, a, user, s);
      case Claim(d, moderator) => answer := ClaimDispute(d, moderator);
      case Resolve(d, moderator, ruling) => answer := ResolveDispute(now, d, moderator, ruling);
    }

    method DispatchTests(now: Time, r: Request) returns (answer: Outcome)
      requires r.Apply? || r.Accept? || r.Decline? || r.Withdraw? || r.Start? || r.RecordSession? || r.Submit?
      modifies this`profiles, this`seats, this`campaigns, this`contracts, this`assignments, this`sessions,
               this`submissions, this`reviews, this`disputes, this`accounts, this`ledger
      ensures Leaves(old(Store()), Handle(cfg, old(Store()), now, r), Store(), answer)
    {
      hide Profiles.Upsert, Campaigns.Create, Campaigns.Update, Campaigns.UpsertContract, Campaigns.Publish;
      hide Campaigns.Launch, Campaigns.Transition, Workflow.Apply, Workflow.Accept, Workflow.Decline;
      hide Workflow.Withdraw, Workflow.Start, Workflow.RecordSession, Workflow.Submit, Workflow.Examine;
      hide Workflow.Escalate, Moderation.Claim, Moderation.Resolve, Commit, Leaves;
      match r
      case Apply(id, c, tester) => answer := ApplyToCampaign(id, c, tester);
      case Accept(a, owner) => answer := AcceptAssignment(now, a, owner);
      case Decline(a, owner) => answer := DeclineAssignment(now, a, owner);
      case Withdraw(a, tester) => answer := WithdrawAssignment(now, a, tester);
      case Start(a, tester) => answer := StartAssignment(now, a, tester);
      case RecordSession(a, tester) => answer := RecordTestingSession(now, a, tester);
      case Submit(id, a, tester, evidence) => answer := CreateSubmission(now, id, a, tester, evidence);
    }

    method Dispatch(now: Time, r: Request) returns (answer: Outcome)
      modifies this`profiles, this`seats, this`campaigns, this`contracts, this`assignments, this`sessions,
               this`submissions, this`reviews, this`disputes, this`accounts, this`ledger
      ensures Leaves(old(Store()), Handle(cfg, old(Store()), now, r), Store(), answer)
    {
      hide Leaves, Handle;
      if r.Examine? || r.Escalate? || r.Claim? || r.Resolve? {
        answer := DispatchDecisions(now, r);
      } else if r.UpsertProfile? || r.CreateCampaign? || r.UpdateCampaign? || r.UpsertContract? || r.PublishCampaign?
                || r.LaunchCampaign? || r.TransitionCampaign? {
        answer := DispatchOwners(now, r);
      } else {
        answer := DispatchTests(now, r);
      }
    }

    method Rollback(saved: Db)
      modifies this`profiles, this`seats, this`campaigns, this`contracts, this`assignments, this`sessions,
               this`submissions, this`reviews, this`disputes, this`accounts, this`ledger
      ensures Store() == saved
    {
      profiles, seats, campaigns, contracts := saved.profiles, saved.seats, saved.campaigns, saved.contracts;
      assignments, sessions, submissions, reviews := saved.assignments, saved.sessions, saved.submissions,
        saved.reviews;
      disputes, accounts, ledger := saved.disputes, saved.accounts, saved.ledger;
    }

    /** One request in one session: what succeeds is committed, what is refused leaves no trace, and
        the invariant holds in between. */
    method Serve(now: Time, r: Request) returns (answer: Outcome)
      requires Valid() && clock <= now
      modifies this
      ensures Valid() && clock == now
      ensures Store() == Step(cfg, old(Store()), now, r)
      ensures match Handle(cfg, old(Store()), now, r)
              case Ok(_) => answer == Pass
              case Err(e) => answer == Fail(e) && Store() == old(Store())
    {
      hide Invariants.Inv, Handle, Commit;
      Runs.StepKeeps(cfg, Store(), clock, now, r);
      var saved := Store();
      answer := Dispatch(now, r);
      clock := now;
      if answer.IsFailure() {
        Rollback(saved);
      }
    }
  }

  lemma RefusalResult(db: Db, s: Id, y: Submission, a: Id, x: Assignment)
    ensures Commit(db, NOTHING.(submissions := map[s := y], assignments := map[a := x])) ==
            db.(submissions := db.submissions + map[s := y], assignments := db.assignments + map[a := x])
  {
    Untouched(db, NOTHING.(submissions := map[s := y], assignments := map[a := x]));
  }

  /** Closing the dispute is written beside the remedy. */
  lemma RulingBeside(db: Db, now: Time, d: Dispute, a: Assignment, r: Moderation.Ruling, rows: map<Id, Dispute>)
    requires Moderation.Remedied(db, now, d, a, r).Ok?
    ensures var w := Moderation.Remedied(db, now, d, a, r).value;
            && Commit(db, w).disputes == db.disputes
            && Commit(db, w).(disputes := db.disputes + rows) == Commit(db, w.(disputes := rows))
  {
    NoOtherDisputes(db, now, d, a, r);
    hide Moderation.Remedied;
    PlusNone(db.disputes);
  }

  lemma NoOtherDisputes(db: Db, now: Time, d: Dispute, a: Assignment, r: Moderation.Ruling)
    requires Moderation.Remedied(db, now, d, a, r).Ok?
    ensures Moderation.Remedied(db, now, d, a, r).value.disputes == map[]
  {
    hide Workflow.Approval;
    if r.remedy == AwardTester {
      var s := d.submission.value;
      ApprovalReads(db, db, now, s, db.submissions[s], d.assignment, a, db.campaigns[a.campaign]);
    }
  }

  /** A review written beside an approval. */
  lemma ReviewBeside(db: Db, w: Writes, rows: map<Id, Review>)
    requires w.reviews == map[]
    ensures Commit(db.(reviews := db.reviews + rows), w) == Commit(db, w.(reviews := rows))
  {
    PlusNone(db.reviews + rows);
  }

  /** An approval looks only at the assignments, the ledger and the accounts. */
  lemma ApprovalReads(db: Db, later: Db, now: Time, id: Id, s: Submission, a: Id, row: Assignment, c: Campaign)
    requires later.ledger == db.ledger && later.accounts == db.accounts && later.assignments == db.assignments
    ensures Workflow.Approval(later, now, id, s, a, row, c) == Workflow.Approval(db, now, id, s, a, row, c)
    ensures Workflow.Approval(db, now, id, s, a, row, c).Ok? ==>
              Workflow.Approval(db, now, id, s, a, row, c).value.reviews == map[] &&
              Workflow.Approval(db, now, id, s, a, row, c).value.disputes == map[]
  {
    RecordReads(db, later, Credits.RewardEntry(a, row.tester, c.reward));
    if Credits.Record(db, Credits.RewardEntry(a, row.tester, c.reward)).Ok? {
      RecordWrites(db, Credits.RewardEntry(a, row.tester, c.reward));
    }
    hide Credits.Record, Campaigns.MaybeComplete;
  }

  lemma Decided(before: Db, now: Time, id: Id, reviewer: Id, decision: Decision, after: Db, answer: Outcome)
    requires id in before.submissions && before.submissions[id].assignment in before.assignments
    requires var s := before.submissions[id];
             var a := before.assignments[s.assignment];
             && a.campaign in before.campaigns && before.campaigns[a.campaign].owner == reviewer
             && !Workflow.HasActiveDispute(before.disputes, s.assignment) && s.status == Pending
             && a.status == Submitted
             && id !in before.reviews
             && var seen := before.(reviews := before.reviews + map[id := Review(reviewer, decision)]);
             match decision
             case Approve =>
               Leaves(seen, Workflow.Approval(seen, now, id, s, s.assignment, a, before.campaigns[a.campaign]), after,
                      answer)
             case RequestChanges =>
               answer == Pass && after == seen.(
                 submissions := before.submissions + map[id := s.(status := ToChange)],
                 assignments := before.assignments + map[s.assignment := a.(status := ChangesRequested)])
             case Reject =>
               answer == Pass && after == seen.(
                 submissions := before.submissions + map[id := s.(status := Refused)],
                 assignments := before.assignments + map[s.assignment := a.(status := Rejected)])
    ensures Leaves(before, Workflow.Examine(before, now, id, reviewer, decision), after, answer)
  {
    hide Commit, Workflow.HasActiveDispute, Workflow.Approval;
    var s := before.submissions[id];
    var a := before.assignments[s.assignment];
    var c := before.campaigns[a.campaign];
    var rows := map[id := Review(reviewer, decision)];
    if decision == Approve {
      ApprovalReads(before, before.(reviews := before.reviews + rows), now, id, s, s.assignment, a, c);
      var approval := Workflow.Approval(before, now, id, s, s.assignment, a, c);
      if approval.Ok? {
        ReviewBeside(before, approval.value, rows);
      }
    } else {
      Success.Examine(before, now, id, reviewer, decision);
    }
  }

  /** Posting looks only at the ledger and the accounts. */
  lemma RecordReads(db: Db, later: Db, e: Entry)
    requires later.ledger == db.ledger && later.accounts == db.accounts
    ensures Credits.Record(later, e) == Credits.Record(db, e)
  {
  }

  /** What an approval writes, whether or not the reward was known. */
  lemma ApprovalResult(db: Db, now: Time, id: Id, s: Submission, a: Id, row: Assignment, c: Campaign)
    requires Credits.Record(db, Credits.RewardEntry(a, row.tester, c.reward)).Ok?
    ensures Workflow.Approval(db, now, id, s, a, row, c).Ok?
    ensures var w := Credits.Record(db, Credits.RewardEntry(a, row.tester, c.reward)).value;
            var worked := db.assignments + map[a := row.(status := Approved, completedAt := Some(now))];
            Commit(db, Workflow.Approval(db, now, id, s, a, row, c).value) ==
            db.(submissions := db.submissions + map[id := s.(status := Passed)], assignments := worked,
                campaigns := db.campaigns + map[row.campaign := Campaigns.MaybeComplete(c, row.campaign, worked)],
                accounts := db.accounts + w.accounts, ledger := db.ledger + w.entries)
  {
    hide Commit, Credits.Record, Campaigns.MaybeComplete;
    RecordWrites(db, Credits.RewardEntry(a, row.tester, c.reward));
    Success.WorkRows(db, Workflow.Approval(db, now, id, s, a, row, c).value);
    PlusNone(db.reviews);
    PlusNone(db.disputes);
  }

  lemma ApprovalRefused(db: Db, now: Time, id: Id, s: Submission, a: Id, row: Assignment, c: Campaign)
    ensures var spent := Credits.Record(db, Credits.RewardEntry(a, row.tester, c.reward));
            spent.Err? ==> Workflow.Approval(db, now, id, s, a, row, c) == Err(spent.error)
  {
    hide Credits.Record, Campaigns.MaybeComplete;
  }

  /** Who is let in, before any credits are granted. */
  lemma Entrance(db: Db, cfg: Profiles.Config, user: Id, username: string, enabled: bool)
    ensures var r := Profiles.Upsert(db, cfg, user, username, enabled);
            if Profiles.UsernameTakenBy(db.profiles, username, user) then r == Err(UsernameTaken)
            else if user in db.profiles then r.Ok?
            else if !enabled then r == Err(RegistrationPaused)
            else if Profiles.ClaimedSeats(db) >= cfg.maxUsers then r == Err(BetaFull)
            else
              var granted := Profiles.Grant(Success.Admitted(db, user, username), cfg, user);
              && (granted.Ok? <==> r.Ok?)
              && (granted.Err? ==> r == Err(granted.error))
  {
    hide Commit, Then, Profiles.Grant, Profiles.UsernameTakenBy, Credits.AccountBalance, Profiles.ClaimedSeats;
    Success.Admit(db, user, username, Profiles.ClaimedSeats(db) + 1, Credits.AccountBalance(db.accounts, user));
  }

  lemma Joined(before: Db, cfg: Profiles.Config, user: Id, username: string, enabled: bool, after: Db, answer: Outcome)
    requires user !in before.profiles
    requires var admitted := Success.Admitted(before, user, username);
             match Profiles.Grant(admitted, cfg, user)
             case Ok(w) =>
               && answer == Pass && Profiles.Upsert(before, cfg, user, username, enabled).Ok?
               && after == admitted.(accounts := admitted.accounts + w.accounts, ledger := admitted.ledger + w.entries)
             case Err(e) => answer == Fail(e) && Profiles.Upsert(before, cfg, user, username, enabled) == Err(e)
    ensures Leaves(before, Profiles.Upsert(before, cfg, user, username, enabled), after, answer)
  {
    hide Profiles.Upsert, Commit, Profiles.Grant;
    var admitted := Success.Admitted(before, user, username);
    if Profiles.Grant(admitted, cfg, user).Ok? {
      Success.Join(before, cfg, user, username, enabled);
      Success.GrantRows(admitted, cfg, user);
    }
  }

  lemma SubmitGuards(db: Db, now: Time, id: Id, assignment: Id, tester: Id, e: Workflow.EvidencePayload)
    ensures var r := Workflow.Submit(db, now, id, assignment, tester, e);
            if assignment !in db.assignments then r == Err(AssignmentNotFound)
            else
              var a := db.assignments[assignment];
              if a.tester != tester then r == Err(NotTheTester)
              else if a.status != InProgress && a.status != ChangesRequested then r == Err(NotReadyToSubmit)
              else if a.campaign !in db.contracts then r == Err(ContractNotFound)
              else
                var contract := db.contracts[a.campaign];
                var checked := Workflow.CheckItems(StorageKeys.FolderName(assignment), e.items);
                if a.startedAt.None? then r == Err(NotStarted)
                else if now < a.startedAt.value + contract.minimumDays * DAY then r == Err(TooEarly)
                else if |Workflow.SessionDays(db.sessions, assignment)| < contract.requiredSessions
                  then r == Err(TooFewSessions)
                else if !(Workflow.CoveredTaskIds(e.items) <= Workflow.TaskIds(contract.tasks))
                  then r == Err(ForeignTask)
                else if !(Workflow.RequiredTaskIds(contract.tasks) <= Workflow.CoveredTaskIds(e.items)) then
                  r == Err(MissingEvidence)
                else if checked.Err? then r == Err(checked.error)
                else if id in db.submissions then r == Err(IntegrityViolation)
                else r.Ok?
  {
    hide StorageKeys.FolderName, Workflow.CheckItems, Workflow.SessionDays, Workflow.LatestVersion;
    hide Workflow.TaskIds, Workflow.RequiredTaskIds, Workflow.CoveredTaskIds;
  }

  lemma TransitionGuards(db: Db, now: Time, c: Id, owner: Id, action: Campaigns.Action)
    ensures var r := Campaigns.Transition(db, now, c, owner, action);
            if c !in db.campaigns then r == Err(CampaignNotFound)
            else if db.campaigns[c].owner != owner then r == Err(NotCampaignOwner)
            else
              var status := db.campaigns[c].status;
              match action
              case Pause => if status != Published then r == Err(NotPublished) else r.Ok?
              case Resume =>
                if status != Paused then r == Err(NotPaused)
                else if Occupied(db.assignments, c) >= db.campaigns[c].target then r == Err(CampaignFull)
                else r.Ok?
              case Close => if status != Published && status != Paused then r == Err(NotOpen) else r.Ok?
  {
    hide Occupied, Campaigns.MaybeComplete, Campaigns.Declined;
  }

  /** What publishing a draft writes, whether or not the entry was known. */
  lemma PublishResult(db: Db, now: Time, c: Id, owner: Id)
    requires c in db.campaigns && db.campaigns[c].status == Draft && Campaigns.Publish(db, now, c, owner).Ok?
    ensures c in db.contracts && Credits.Record(db, Campaigns.PostingEntry(c, db.campaigns[c])).Ok?
    ensures var w := Credits.Record(db, Campaigns.PostingEntry(c, db.campaigns[c])).value;
            Commit(db, Campaigns.Publish(db, now, c, owner).value) ==
            db.(campaigns := db.campaigns + map[c := db.campaigns[c].(status := Published, publishedAt := Some(now))],
                contracts := db.contracts + map[c := db.contracts[c].(locked := true)],
                accounts := db.accounts + w.accounts, ledger := db.ledger + w.entries)
  {
    hide Commit, Credits.Record, Campaigns.PostingEntry;
    RecordWrites(db, Campaigns.PostingEntry(c, db.campaigns[c]));
    Success.MarketRows(db, Campaigns.Publish(db, now, c, owner).value);
  }

  lemma RecordWrites(db: Db, e: Entry)
    requires Credits.Record(db, e).Ok?
    ensures var w := Credits.Record(db, e).value; w == NOTHING.(accounts := w.accounts, entries := w.entries)
  {
  }

  lemma PublishGuards(db: Db, now: Time, c: Id, owner: Id)
    ensures var r := Campaigns.Publish(db, now, c, owner);
            if c !in db.campaigns then r == Err(CampaignNotFound)
            else if db.campaigns[c].owner != owner then r == Err(NotCampaignOwner)
            else if db.campaigns[c].status == Published then r == Ok(NOTHING)
            else if db.campaigns[c].status != Draft then r == Err(NotDraft)
            else if c !in db.contracts then r == Err(ContractNotFound)
            else if db.contracts[c].tasks == [] then r == Err(NoTasks)
            else
              var spent := Credits.Record(db, Campaigns.PostingEntry(c, db.campaigns[c]));
              (spent.Ok? <==> r.Ok?) && (spent.Err? ==> r == Err(spent.error))
  {
    hide Credits.Record, Campaigns.PostingEntry;
  }
}
