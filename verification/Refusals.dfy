/** Who is refused, and why: the exact answer of each service on every reachable database, in terms of
    its rows alone. A refusal of the services that is not named here cannot be met. */
module Refusals {
  import opened Model
  import opened Results
  import opened Invariants
  import opened Histories
  import Agreement
  import Campaigns
  import Credits
  import Escalations
  import Lookups
  import Moderation
  import Money
  import Preservation
  import Profiles
  import StorageKeys
  import Success
  import Versioning
  import Workflow

  // ----- what reachable rows have in common -------------------------------------------------

  /** Rows refer to rows that are there, and a draft's contract is not locked. */
  ghost predicate Orderly(db: Db) {
    && Lookups.Linked(db)
    && OrderlyTerms(db.campaigns, db.contracts)
    && OrderlyTests(db.contracts, db.assignments, db.sessions)
    && OrderlyWork(db.assignments, db.submissions, db.reviews)
  }

  ghost predicate OrderlyTerms(campaigns: map<Id, Campaign>, contracts: map<Id, Contract>) {
    forall c :: c in campaigns ==>
      && campaigns[c].target >= 1 && campaigns[c].reward >= 1
      && (c in contracts ==> contracts[c].tasks != [] && (campaigns[c].status.Draft? ==> !contracts[c].locked))
  }

  ghost predicate OrderlyTests(contracts: map<Id, Contract>, assignments: map<Id, Assignment>, sessions: set<Session>) {
    && (forall a :: a in assignments ==>
          && assignments[a].campaign in contracts
          && (assignments[a].status.InProgress? || assignments[a].status.ChangesRequested? ==>
                assignments[a].startedAt.Some?))
    && (forall x :: x in sessions ==> x.assignment in assignments && !assignments[x.assignment].status.Accepted?)
  }

  ghost predicate OrderlyWork(assignments: map<Id, Assignment>, submissions: map<Id, Submission>,
                              reviews: map<Id, Review>)
  {
    forall s :: s in submissions ==>
      && submissions[s].assignment in assignments
      && (submissions[s].status == Pending ==>
            assignments[submissions[s].assignment].status == Submitted && s !in reviews)
  }

  lemma Orders(cfg: Config, db: Db, t: Time)
    requires Reachable(cfg, db, t)
    ensures Orderly(db)
  {
    hide *;
    ReachableHolds(cfg, db, t);
    Preservation.Parts(cfg, db, t);
    Lookups.Links(cfg, db, t);
    TermsAreOrderly(db.profiles, db.campaigns, db.contracts);
    TestsAreOrderly(db, t);
    WorkIsOrderly(db.assignments, db.submissions, db.reviews);
    AllOrderly(db);
  }

  lemma AllOrderly(db: Db)
    requires Lookups.Linked(db) && OrderlyTerms(db.campaigns, db.contracts)
    requires OrderlyTests(db.contracts, db.assignments, db.sessions)
    requires OrderlyWork(db.assignments, db.submissions, db.reviews)
    ensures Orderly(db)
  {
    hide Lookups.Linked, OrderlyTerms, OrderlyTests, OrderlyWork;
  }

  lemma TermsAreOrderly(profiles: map<Id, string>, campaigns: map<Id, Campaign>, contracts: map<Id, Contract>)
    requires Drafted(profiles, campaigns, contracts)
    ensures OrderlyTerms(campaigns, contracts)
  {
    forall c | c in campaigns
      ensures CampaignFits(campaigns[c], c, profiles, contracts)
    {
    }
  }

  lemma TestsAreOrderly(db: Db, t: Time)
    requires Drafted(db.profiles, db.campaigns, db.contracts) && Assigned(db.profiles, db.campaigns, db.assignments)
    requires Clocked(db.contracts, db.assignments, db.sessions, db.submissions, t)
    ensures OrderlyTests(db.contracts, db.assignments, db.sessions)
  {
    forall a | a in db.assignments
      ensures AssignmentFits(db.assignments[a], db.profiles, db.campaigns)
      ensures CampaignFits(db.campaigns[db.assignments[a].campaign], db.assignments[a].campaign, db.profiles,
                           db.contracts)
      ensures AssignmentClock(db.assignments[a], a, db.sessions, t)
    {
    }
    hide SubmissionClock, Drafted, Assigned;
  }

  lemma WorkIsOrderly(assignments: map<Id, Assignment>, submissions: map<Id, Submission>, reviews: map<Id, Review>)
    requires History(assignments, submissions) && Reviewed(submissions, reviews)
    ensures OrderlyWork(assignments, submissions, reviews)
  {
    hide VersionsOrdered, VersionsCounted, Mirrored;
    forall s | s in submissions
      ensures SubmissionFits(submissions[s], assignments)
    {
    }
  }

  // ----- campaigns --------------------------------------------------------------------------

  predicate SlugTakenBy(db: Db, slug: string) {
    exists c | c in db.campaigns :: db.campaigns[c].slug == slug
  }

  lemma Creating(db: Db, id: Id, owner: Id, p: Campaigns.CampaignPayload)
    ensures var r := Campaigns.Create(db, id, owner, p);
            if owner !in db.profiles then r == Err(ProfileRequired)
            else if SlugTakenBy(db, p.slug) then r == Err(SlugTaken)
            else if id in db.campaigns then r == Err(IntegrityViolation)
            else r.Ok?
  {
  }

  lemma Updating(db: Db, c: Id, owner: Id, change: Campaigns.CampaignUpdate)
    ensures var r := Campaigns.Update(db, c, owner, change);
            if c !in db.campaigns then r == Err(CampaignNotFound)
            else if db.campaigns[c].owner != owner then r == Err(NotCampaignOwner)
            else if !db.campaigns[c].status.Draft? then r == Err(CampaignLocked)
            else r.Ok?
  {
  }

  /** A draft's contract can always be saved again: the refusal for a locked contract is dead. */
  lemma SavingTerms(cfg: Config, db: Db, t: Time, c: Id, owner: Id, terms: Campaigns.ContractPayload)
    requires Reachable(cfg, db, t)
    ensures var r := Campaigns.UpsertContract(db, c, owner, terms);
            if c !in db.campaigns then r == Err(CampaignNotFound)
            else if db.campaigns[c].owner != owner then r == Err(NotCampaignOwner)
            else if !db.campaigns[c].status.Draft? then r == Err(CampaignLocked)
            else r.Ok?
  {
    hide Reachable, Lookups.Linked;
    Orders(cfg, db, t);
  }

  /** What the owner lacks, if anything, is a contract or the credits. */
  lemma Publishing(cfg: Config, db: Db, t: Time, now: Time, c: Id, owner: Id)
    requires Reachable(cfg, db, t)
    ensures c in db.campaigns && db.campaigns[c].owner == owner ==> owner in db.accounts
    ensures var r := Campaigns.Publish(db, now, c, owner);
            if c !in db.campaigns then r == Err(CampaignNotFound)
            else if db.campaigns[c].owner != owner then r == Err(NotCampaignOwner)
            else if db.campaigns[c].status.Published? then r == Ok(NOTHING)
            else if !db.campaigns[c].status.Draft? then r == Err(NotDraft)
            else if c !in db.contracts then r == Err(ContractNotFound)
            else if db.accounts[owner] < db.campaigns[c].target * db.campaigns[c].reward
              then r == Err(InsufficientCredits)
            else r.Ok?
  {
    hide Reachable, Inv, Credits.HasKey;
    ReachableHolds(cfg, db, t);
    Orders(cfg, db, t);
    if c in db.campaigns && db.campaigns[c].status == Draft {
      Agreement.NoPostingYet(cfg, db, t, c);
      Success.Positive(db.campaigns[c].target, db.campaigns[c].reward);
    }
  }

  predicate HoldsPlace(s: AssignmentStatus) {
    s.Accepted? || s.InProgress? || s.Submitted? || s.ChangesRequested? || s.Approved?
  }

  /** Every place of the campaign is taken. */
  predicate Full(db: Db, c: Id)
    requires c in db.campaigns
  {
    |set a | a in db.assignments && db.assignments[a].campaign == c && HoldsPlace(db.assignments[a].status)|
      >= db.campaigns[c].target
  }

  lemma FullIs(db: Db, c: Id)
    requires c in db.campaigns
    ensures Full(db, c) <==> Occupied(db.assignments, c) >= db.campaigns[c].target
  {
    var mine := set a | a in db.assignments && db.assignments[a].campaign == c && HoldsPlace(db.assignments[a].status);
    assert mine == WithStatus(db.assignments, c, OCCUPIED);
  }

  lemma Transitioning(db: Db, now: Time, c: Id, owner: Id, action: Campaigns.Action)
    ensures var r := Campaigns.Transition(db, now, c, owner, action);
            if c !in db.campaigns then r == Err(CampaignNotFound)
            else if db.campaigns[c].owner != owner then r == Err(NotCampaignOwner)
            else
              var status := db.campaigns[c].status;
              match action
              case Pause => if status.Published? then r.Ok? else r == Err(NotPublished)
              case Resume =>
                if !status.Paused? then r == Err(NotPaused) else if Full(db, c) then r == Err(CampaignFull) else r.Ok?
              case Close => if status.Published? || status.Paused? then r.Ok? else r == Err(NotOpen)
  {
    if c in db.campaigns {
      FullIs(db, c);
    }
    hide Full, Occupied, Campaigns.MaybeComplete, Campaigns.Declined;
  }

  // ----- applications -----------------------------------------------------------------------

  predicate AppliedBefore(db: Db, c: Id, tester: Id) {
    exists a | a in db.assignments :: db.assignments[a].campaign == c && db.assignments[a].tester == tester
  }

  lemma Applying(db: Db, id: Id, c: Id, tester: Id)
    ensures var r := Workflow.Apply(db, id, c, tester);
            if tester !in db.profiles then r == Err(ProfileRequired)
            else if c !in db.campaigns then r == Err(CampaignNotFound)
            else if !db.campaigns[c].status.Published? then r == Err(NotAcceptingTesters)
            else if db.campaigns[c].owner == tester then r == Err(OwnCampaign)
            else if AppliedBefore(db, c, tester) then r == Err(AlreadyApplied)
            else if Full(db, c) then r == Err(CampaignFull)
            else if id in db.assignments then r == Err(IntegrityViolation)
            else r.Ok?
  {
    if c in db.campaigns {
      FullIs(db, c);
    }
    assert AppliedBefore(db, c, tester) <==> Workflow.HasApplied(db.assignments, c, tester);
    hide Full, Occupied, AppliedBefore, Workflow.HasApplied;
  }

  lemma Accepting(cfg: Config, db: Db, t: Time, now: Time, a: Id, owner: Id)
    requires Reachable(cfg, db, t)
    ensures a in db.assignments ==> db.assignments[a].campaign in db.campaigns
    ensures var r := Workflow.Accept(db, now, a, owner);
            if a !in db.assignments then r == Err(AssignmentNotFound)
            else
              var c := db.assignments[a].campaign;
              if db.campaigns[c].owner != owner then r == Err(NotCampaignOwner)
              else if !db.campaigns[c].status.Published? then r == Err(NotAcceptingTesters)
              else if !db.assignments[a].status.Applied? then r == Err(NotPendingApplication)
              else if Full(db, c) then r == Err(CampaignFull)
              else r.Ok?
  {
    hide Reachable, Full, Occupied;
    Orders(cfg, db, t);
    if a in db.assignments {
      FullIs(db, db.assignments[a].campaign);
    }
  }

  lemma Declining(cfg: Config, db: Db, t: Time, now: Time, a: Id, owner: Id)
    requires Reachable(cfg, db, t)
    ensures a in db.assignments ==> db.assignments[a].campaign in db.campaigns
    ensures var r := Workflow.Decline(db, now, a, owner);
            if a !in db.assignments then r == Err(AssignmentNotFound)
            else if db.campaigns[db.assignments[a].campaign].owner != owner then r == Err(NotCampaignOwner)
            else if !db.assignments[a].status.Applied? then r == Err(NotPendingApplication)
            else r.Ok?
  {
    hide Reachable;
    Orders(cfg, db, t);
  }

  /** A tester can leave at any time, except between handing in and the owner's answer, and after a
      final answer. */
  lemma Withdrawing(cfg: Config, db: Db, t: Time, now: Time, a: Id, tester: Id)
    requires Reachable(cfg, db, t)
    ensures var r := Workflow.Withdraw(db, now, a, tester);
            if a !in db.assignments then r == Err(AssignmentNotFound)
            else if db.assignments[a].tester != tester then r == Err(NotTheTester)
            else
              var s := db.assignments[a].status;
              if s.Applied? || s.Accepted? || s.InProgress? ||
                s.ChangesRequested? then r.Ok? else r == Err(NotWithdrawable)
  {
    hide Reachable, Campaigns.MaybeComplete;
    Orders(cfg, db, t);
  }

  // ----- testing ----------------------------------------------------------------------------

  /** Accepted work can always be started: no day was recorded for it yet. */
  lemma Starting(cfg: Config, db: Db, t: Time, now: Time, a: Id, tester: Id)
    requires Reachable(cfg, db, t)
    ensures var r := Workflow.Start(db, now, a, tester);
            if a !in db.assignments then r == Err(AssignmentNotFound)
            else if db.assignments[a].tester != tester then r == Err(NotTheTester)
            else if !db.assignments[a].status.Accepted? then r == Err(NotAccepted)
            else r.Ok?
  {
    hide Reachable, Lookups.Linked;
    Orders(cfg, db, t);
  }

  lemma Recording(db: Db, now: Time, a: Id, tester: Id)
    ensures var r := Workflow.RecordSession(db, now, a, tester);
            if a !in db.assignments then r == Err(AssignmentNotFound)
            else if db.assignments[a].tester != tester then r == Err(NotTheTester)
            else if !db.assignments[a].status.InProgress? &&
              !db.assignments[a].status.ChangesRequested? then r == Err(NotTesting)
            else if Session(a, now / 86_400_000_000) in db.sessions then r == Err(SessionAlreadyRecorded)
            else r.Ok?
  {
  }

  // ----- evidence ---------------------------------------------------------------------------

  /** A file, a link or a note; and the file in the folder of the assignment. */
  predicate Fine(a: Id, i: Item) {
    && (i.storageKey.Some? || i.hasUrl || i.note.Some?)
    && (i.storageKey.Some? ==> StorageKeys.Accepts(StorageKeys.FolderName(a), i.storageKey.value))
  }

  /** The first item that is not fine. */
  predicate FirstFault(a: Id, items: seq<Item>, k: nat) {
    k < |items| && !Fine(a, items[k]) && forall j | 0 <= j < k :: Fine(a, items[j])
  }

  lemma {:induction false} FaultIsReported(a: Id, items: seq<Item>)
    ensures var r := Workflow.CheckItems(StorageKeys.FolderName(a), items);
            && (r.Ok? <==> forall i | i in items :: Fine(a, i))
            && (r.Err? <==> exists k: nat :: FirstFault(a, items, k))
            && (forall k: nat :: FirstFault(a, items, k) ==>
                  r == Err(if items[k].storageKey.Some? || items[k].hasUrl || items[k].note.Some? then BadStorageKey
                           else EmptyEvidence))
  {
    hide StorageKeys.FolderName, StorageKeys.Accepts;
    if items != [] {
      var rest := items[1..];
      FaultIsReported(a, rest);
      assert items == [items[0]] + rest;
      if !Fine(a, items[0]) {
        assert FirstFault(a, items, 0);
        assert items[0] in items;
      } else {
        forall k: nat
          ensures FirstFault(a, items, k) <==> k > 0 && FirstFault(a, rest, k - 1)
        {
          Shifted(a, items, k);
        }
        assert forall k: nat :: FirstFault(a, rest, k) ==> FirstFault(a, items, k + 1);
        hide FirstFault, Fine;
      }
    }
  }

  lemma Shifted(a: Id, items: seq<Item>, k: nat)
    requires items != [] && Fine(a, items[0])
    ensures FirstFault(a, items, k) <==> k > 0 && FirstFault(a, items[1..], k - 1)
  {
    hide Fine;
    if k > 0 && FirstFault(a, items[1..], k - 1) {
      forall j | 0 <= j < k
        ensures Fine(a, items[j])
      {
        assert j > 0 ==> items[j] == items[1..][j - 1];
      }
    }
    if FirstFault(a, items, k) {
      forall j | 0 <= j < k - 1
        ensures Fine(a, items[1..][j])
      {
        assert items[1..][j] == items[j + 1];
      }
    }
  }

  predicate Early(db: Db, now: Time, a: Id)
    requires a in db.assignments && db.assignments[a].campaign in db.contracts && db.assignments[a].startedAt.Some?
  {
    now < db.assignments[a].startedAt.value + db.contracts[db.assignments[a].campaign].minimumDays * 86_400_000_000
  }

  predicate TooFew(db: Db, a: Id)
    requires a in db.assignments && db.assignments[a].campaign in db.contracts
  {
    |set x | x in db.sessions && x.assignment == a| < db.contracts[db.assignments[a].campaign].requiredSessions
  }

  /** Evidence is refused for a task that is not in the contract, for a required task without an item,
      and for the first item without content or with a file elsewhere, in this order. */
  lemma Submitting(cfg: Config, db: Db, t: Time, now: Time, id: Id, a: Id, tester: Id, e: Workflow.EvidencePayload)
    requires Reachable(cfg, db, t)
    ensures a in db.assignments ==> db.assignments[a].campaign in db.contracts
    ensures a in db.assignments &&
            (db.assignments[a].status.InProgress? || db.assignments[a].status.ChangesRequested?) ==>
              db.assignments[a].startedAt.Some?
    ensures var r := Workflow.Submit(db, now, id, a, tester, e);
            if a !in db.assignments then r == Err(AssignmentNotFound)
            else if db.assignments[a].tester != tester then r == Err(NotTheTester)
            else if !db.assignments[a].status.InProgress? && !db.assignments[a].status.ChangesRequested? then
              r == Err(NotReadyToSubmit)
            else
              var tasks := db.contracts[db.assignments[a].campaign].tasks;
              if Early(db, now, a) then r == Err(TooEarly)
              else if TooFew(db, a) then r == Err(TooFewSessions)
              else if exists i | i in e.items :: !Versioning.About(tasks, i) then r == Err(ForeignTask)
              else if exists t | t in tasks && t.evidenceRequired ::
                !Versioning.Answered(t, e.items) then r == Err(MissingEvidence)
              else if exists i | i in e.items :: !Fine(a, i) then
                exists k: nat :: FirstFault(a, e.items, k) &&
                  r == Err(if e.items[k].storageKey.Some? || e.items[k].hasUrl ||
                           e.items[k].note.Some? then BadStorageKey
                           else EmptyEvidence)
              else if id in db.submissions then r == Err(IntegrityViolation)
              else r.Ok?
  {
    hide Reachable, Lookups.Linked, Fine, FirstFault, Versioning.About, Versioning.Answered, StorageKeys.FolderName,
      Workflow.CheckItems;
    hide Workflow.CoveredTaskIds, Workflow.TaskIds, Workflow.RequiredTaskIds, Workflow.LatestVersion;
    Orders(cfg, db, t);
    if a in db.assignments {
      var tasks := db.contracts[db.assignments[a].campaign].tasks;
      Versioning.AboutIsValid(tasks, e.items);
      Versioning.AnsweredIsCovered(tasks, e.items);
      FaultIsReported(a, e.items);
      assert (set x | x in db.sessions && x.assignment == a) == Workflow.SessionDays(db.sessions, a);
    }
    hide Workflow.SessionDays;
  }

  // ----- decisions --------------------------------------------------------------------------

  predicate InModeration(db: Db, a: Id) {
    exists d | d in db.disputes :: db.disputes[d].assignment == a &&
      (db.disputes[d].status == Open || db.disputes[d].status == UnderReview)
  }

  lemma InModerationIs(db: Db, a: Id)
    ensures InModeration(db, a) <==> Workflow.HasActiveDispute(db.disputes, a)
  {
    if Workflow.HasActiveDispute(db.disputes, a) {
      var d :| d in db.disputes && db.disputes[d].assignment == a && db.disputes[d].IsActive();
    }
  }

  /** The owner can decide on any pending work that is not in moderation, in any way. */
  lemma Examining(cfg: Config, db: Db, t: Time, now: Time, id: Id, reviewer: Id, decision: Decision)
    requires Reachable(cfg, db, t)
    ensures id in db.submissions ==>
              db.submissions[id].assignment in db.assignments &&
              db.assignments[db.submissions[id].assignment].campaign in db.campaigns
    ensures var r := Workflow.Examine(db, now, id, reviewer, decision);
            if id !in db.submissions then r == Err(SubmissionNotFound)
            else
              var a := db.submissions[id].assignment;
              if db.campaigns[db.assignments[a].campaign].owner != reviewer then r == Err(NotCampaignOwner)
              else if InModeration(db, a) then r == Err(EscalationActive)
              else if db.submissions[id].status != Pending then r == Err(AlreadyReviewed)
              else r.Ok?
  {
    hide Reachable, InModeration, Workflow.HasActiveDispute, Workflow.Approval, Inv;
    Orders(cfg, db, t);
    if id in db.submissions {
      var a := db.submissions[id].assignment;
      InModerationIs(db, a);
      if db.submissions[id].status == Pending {
        ReachableHolds(cfg, db, t);
        Agreement.NoRewardYet(cfg, db, t, a);
        Money.CanPay(cfg, db, t, a);
        Money.ApprovalPossible(db, now, id, db.submissions[id], a, db.assignments[a],
                               db.campaigns[db.assignments[a].campaign]);
      }
    }
  }

  predicate Windowed(db: Db, now: Time, s: Id)
    requires s in db.submissions && db.submissions[s].assignment in db.assignments
    requires db.assignments[db.submissions[s].assignment].campaign in db.contracts
  {
    var k := db.contracts[db.assignments[db.submissions[s].assignment].campaign];
    now < db.submissions[s].submittedAt + k.reviewWindowHours * 3_600_000_000
  }

  predicate DisputedBefore(db: Db, a: Id) {
    exists d | d in db.disputes :: db.disputes[d].assignment == a
  }

  /** Only the tester escalates, once, a rejection or pending work past its review window. */
  lemma Escalating(cfg: Config, db: Db, t: Time, now: Time, id: Id, a: Id, user: Id, submission: Option<Id>)
    requires Reachable(cfg, db, t)
    ensures a in db.assignments ==>
            db.assignments[a].campaign in db.campaigns && db.assignments[a].campaign in db.contracts
    ensures var r := Workflow.Escalate(db, now, id, a, user, submission);
            if a !in db.assignments then r == Err(AssignmentNotFound)
            else
              var x := db.assignments[a];
              if user != x.tester then r ==
                Err(if user == db.campaigns[x.campaign].owner then NotTheTester else PrivateWorkspace)
              else if !x.status.Rejected? && !x.status.Submitted? then r == Err(NotEscalatable)
              else if submission.None? then r == Err(SubmissionRequired)
              else if submission.value !in db.submissions || db.submissions[submission.value].assignment != a then
                r == Err(ForeignSubmission)
              else if x.status.Submitted? &&
                db.submissions[submission.value].status != Pending then r == Err(NotPending)
              else if x.status.Submitted? && Windowed(db, now, submission.value) then r == Err(ReviewWindowOpen)
              else if x.status.Rejected? &&
                db.submissions[submission.value].status != Refused then r == Err(NotRejected)
              else if DisputedBefore(db, a) then r == Err(AlreadyDisputed)
              else if id in db.disputes then r == Err(IntegrityViolation)
              else r.Ok?
  {
    hide Reachable;
    Orders(cfg, db, t);
    assert DisputedBefore(db, a) <==> Workflow.HasDispute(db.disputes, a);
    hide DisputedBefore, Workflow.HasDispute, Lookups.Linked;
  }

  /** A moderator takes an open dispute, and finds their own again at will. */
  lemma Claiming(db: Db, d: Id, moderator: Id)
    ensures var r := Moderation.Claim(db, d, moderator);
            if d !in db.disputes then r == Err(DisputeNotFound)
            else if db.disputes[d].status == UnderReview then
              r == (if db.disputes[d].assignedTo == Some(moderator) then Ok(NOTHING) else Err(ClaimedByAnother))
            else if db.disputes[d].status != Open then r == Err(NotClaimable)
            else if moderator !in db.profiles then r == Err(IntegrityViolation)
            else r.Ok?
  {
  }

  /** Whoever claimed a dispute can rule on it, but has to decide on pending work. */
  lemma Resolving(cfg: Config, db: Db, t: Time, now: Time, d: Id, moderator: Id, ruling: Moderation.Ruling)
    requires Reachable(cfg, db, t)
    ensures d in db.disputes && db.disputes[d].status == UnderReview ==> db.disputes[d].assignment in db.assignments
    ensures var r := Moderation.Resolve(db, now, d, moderator, ruling);
            if d !in db.disputes then r == Err(DisputeNotFound)
            else if db.disputes[d].status != UnderReview then r == Err(NotClaimed)
            else if db.disputes[d].assignedTo != Some(moderator) then r == Err(NotAssignedModerator)
            else if db.assignments[db.disputes[d].assignment].status == Submitted
                    && ruling.outcome == Moderation.Settle
                    && ruling.remedy == NoRemedy then r == Err(OverdueNeedsDecision)
            else r.Ok?
  {
    hide Reachable, Inv, Moderation.Remedied;
    if d in db.disputes && db.disputes[d].status == UnderReview {
      DisputedWorkExists(cfg, db, t, d);
      if db.disputes[d].assignedTo == Some(moderator) {
        Escalations.OnlyIndecisionIsRefused(cfg, db, t, now, d, moderator, ruling);
      }
    }
  }

  lemma DisputedWorkExists(cfg: Config, db: Db, t: Time, d: Id)
    requires Reachable(cfg, db, t) && d in db.disputes
    ensures db.disputes[d].assignment in db.assignments
  {
    hide *;
    Escalations.DisputesNameTheLatest(cfg, db, t, d);
  }

  // ----- profiles ---------------------------------------------------------------------------

  /** Somebody else uses the name. */
  predicate NameTaken(db: Db, username: string, user: Id) {
    exists u | u in db.profiles :: u != user && db.profiles[u] == username
  }

  lemma SigningUp(cfg: Config, db: Db, t: Time, user: Id, username: string, enabled: bool)
    requires Reachable(cfg, db, t)
    ensures var r := Profiles.Upsert(db, cfg, user, username, enabled);
            if NameTaken(db, username, user) then r == Err(UsernameTaken)
            else if user in db.profiles then r.Ok?
            else if !enabled then r == Err(RegistrationPaused)
            else if |db.profiles| >= cfg.maxUsers then r == Err(BetaFull)
            else r.Ok?
  {
    hide Reachable, Inv, Profiles.Grant, Commit, Then, Credits.HasKey, Success.Welcome;
    ReachableHolds(cfg, db, t);
    Agreement.Unposted(cfg, db, t);
    SeatsCounted(cfg, db, t);
    assert NameTaken(db, username, user) <==> Profiles.UsernameTakenBy(db.profiles, username, user);
    hide NameTaken, Profiles.UsernameTakenBy, Profiles.ClaimedSeats;
    if user !in db.profiles && !Profiles.UsernameTakenBy(db.profiles, username, user) {
      Success.Newcomer(db, cfg, user, username, enabled);
    }
  }

  lemma SeatsCounted(cfg: Config, db: Db, t: Time)
    requires Inv(cfg, db, t)
    ensures Profiles.ClaimedSeats(db) == |db.profiles|
  {
    hide Drafted, Assigned, History, Reviewed, Disputes, Ledgered, Balanced, Booked, Capacity, Progress, Clocked;
    hide Evidenced;
  }

  /** A launch needs a profile, a free slug, a new id and the credits. */
  lemma Launching(cfg: Config, db: Db, t: Time, now: Time, id: Id, owner: Id, p: Campaigns.CampaignPayload,
                  k: Campaigns.ContractPayload)
    requires Reachable(cfg, db, t)
    ensures owner in db.profiles ==> owner in db.accounts
    ensures var r := Campaigns.Launch(db, now, id, owner, p, k);
            if owner !in db.profiles then r == Err(ProfileRequired)
            else if SlugTakenBy(db, p.slug) then r == Err(SlugTaken)
            else if id in db.campaigns then r == Err(IntegrityViolation)
            else if db.accounts[owner] < p.target * p.reward then r == Err(InsufficientCredits)
            else r.Ok?
  {
    hide Reachable, Inv, Commit, Then, Campaigns.UpsertContract, Campaigns.Publish, Credits.HasKey, Success.LaunchRows;
    ReachableHolds(cfg, db, t);
    Orders(cfg, db, t);
    Agreement.Unposted(cfg, db, t);
    if owner in db.profiles && !SlugTakenBy(db, p.slug) && id !in db.campaigns {
      Success.LaunchOutcome(db, now, id, owner, p, k);
    }
  }
}
