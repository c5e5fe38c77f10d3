/** Two runs that break what the product description promises: a campaign with more testers than it
    asked for, and a closed campaign that never completes. */
module Scenarios {
  import opened Model
  import opened Results
  import opened Requests
  import Campaigns
  import Completing
  import Credits
  import Escalations
  import Lifecycles
  import Moderation
  import Money
  import Profiles
  import StorageKeys
  import Success
  import Workflow

  const CFG: Profiles.Config := Profiles.Config(100, 10, true)

  const OWNER: Id := 1
  const FIRST: Id := 2
  const SECOND: Id := 3
  const MODERATOR: Id := 4
  const BETA: Id := 10
  const FIRST_TEST: Id := 20
  const SECOND_TEST: Id := 30
  const WORK: Id := 40
  const DISPUTE: Id := 50

  const FIELDS: Campaigns.CampaignPayload := Campaigns.CampaignFields("beta", 1, 5)
  const TERMS: Campaigns.ContractPayload := Campaigns.ContractFields(72, 0, 1, [Task(60, false)])
  const LINK: Workflow.EvidencePayload := Workflow.Evidence(false, [Item(None, None, true, None)])
  const AWARD: Moderation.Ruling := Moderation.RulingFields(Moderation.Settle, AwardTester)

  function Granted(user: Id): Entry {
    Entry(user, 100, SignupGrant, SignupKey(user))
  }

  /** A database with one more participant. */
  function Joined(db: Db, user: Id, username: string): Db {
    Success.Joined(db, CFG, user, username)
  }

  /** A database some run reaches, all of it at the same instant. */
  ghost predicate Reached(db: Db) {
    exists run :: After(CFG, run) == db && AtOnce(run)
  }

  predicate AtOnce(run: seq<Event>) {
    forall i | 0 <= i < |run| :: run[i].now == 0
  }

  lemma Next(db: Db, r: Request)
    requires Reached(db)
    ensures Reached(Step(CFG, db, 0, r))
  {
    hide Step, After;
    var run :| After(CFG, run) == db && AtOnce(run);
    AfterOneMore(CFG, run, Event(0, r));
  }

  lemma OnlyRow<V>(rows: map<Id, V>, k: Id, v: V)
    requires forall j :: j in rows ==> j == k
    ensures rows + map[k := v] == map[k := v]
  {
  }

  // ----- opening ----------------------------------------------------------------------------

  lemma Joins(db: Db, user: Id, username: string)
    requires Profiles.ClaimedSeats(db) < CFG.maxUsers && user !in db.profiles && user !in db.accounts
    requires forall u :: u in db.profiles ==> db.profiles[u] != username
    requires !Credits.HasKey(db.ledger, SignupKey(user))
    ensures Step(CFG, db, 0, UpsertProfile(user, username, true)) == Joined(db, user, username)
  {
    hide Commit, Credits.HasKey, Profiles.ClaimedSeats, Profiles.Upsert, Success.Joined, Success.Welcome;
    Success.Newcomer(db, CFG, user, username, true);
    Success.Welcomed(db, CFG, user, username);
  }

  /** What matters about the participants who joined so far. */
  ghost predicate Lobby(db: Db, n: int) {
    && db == Initial(CFG).(profiles := db.profiles, seats := db.seats, accounts := db.accounts, ledger := db.ledger)
    && Profiles.ClaimedSeats(db) == n
    && Paid(db.profiles, db.accounts)
    && OnlyGrants(db.profiles, db.ledger)
  }

  ghost predicate Paid(profiles: map<Id, string>, accounts: map<Id, int>) {
    && accounts.Keys == profiles.Keys
    && forall u :: u in accounts ==> accounts[u] == 100
  }

  ghost predicate OnlyGrants(profiles: map<Id, string>, ledger: seq<Entry>) {
    forall i :: 0 <= i < |ledger| ==> ledger[i].key.SignupKey? && ledger[i].key.user in profiles
  }

  lemma LobbyGrows(db: Db, n: int, user: Id, username: string)
    requires Lobby(db, n) && user !in db.profiles && n < 10
    requires forall u :: u in db.profiles ==> db.profiles[u] != username
    ensures Step(CFG, db, 0, UpsertProfile(user, username, true)) == Joined(db, user, username)
    ensures Lobby(Joined(db, user, username), n + 1)
  {
    assert user !in db.profiles.Keys;
    assert !Credits.HasKey(db.ledger, SignupKey(user));
    hide Step, Paid, OnlyGrants;
    Joins(db, user, username);
    PaidToo(db.profiles, db.accounts, user, username);
    GrantedToo(db.profiles, db.ledger, user, username);
    hide Credits.HasKey;
  }

  lemma PaidToo(profiles: map<Id, string>, accounts: map<Id, int>, user: Id, username: string)
    requires Paid(profiles, accounts)
    ensures Paid(profiles + map[user := username], accounts + map[user := 100])
  {
  }

  lemma GrantedToo(profiles: map<Id, string>, ledger: seq<Entry>, user: Id, username: string)
    requires OnlyGrants(profiles, ledger)
    ensures OnlyGrants(profiles + map[user := username], ledger + [Granted(user)])
  {
  }

  const CAST: set<Id> := {OWNER, FIRST, SECOND, MODERATOR}

  function Name(user: Id): string {
    if user == OWNER then "olga" else if user == FIRST then "ada" else if user == SECOND then "bo" else "mia"
  }

  lemma NamesDiffer(u: Id, v: Id)
    requires u in CAST && v in CAST && u != v
    ensures Name(u) != Name(v)
  {
  }

  /** These participants, under their names. */
  ghost predicate Named(profiles: map<Id, string>, users: set<Id>) {
    profiles.Keys == users <= CAST && forall u :: u in profiles ==> profiles[u] == Name(u)
  }

  lemma Arrives(db: Db, n: int, users: set<Id>, user: Id)
    requires Reached(db) && Lobby(db, n) && Named(db.profiles, users) && user in CAST - users && n < 10
    ensures var after := Joined(db, user, Name(user));
            Reached(after) && Lobby(after, n + 1) && Named(after.profiles, users + {user})
  {
    hide Step, Lobby, Reached, Name, Named, Joined;
    NameIsFree(db.profiles, users, user);
    LobbyGrows(db, n, user, Name(user));
    Next(db, UpsertProfile(user, Name(user), true));
    NamedToo(db.profiles, users, user);
    JoinedProfiles(db, user);
  }

  lemma NameIsFree(profiles: map<Id, string>, users: set<Id>, user: Id)
    requires Named(profiles, users) && user in CAST - users
    ensures user !in profiles && forall u :: u in profiles ==> profiles[u] != Name(user)
  {
    hide Name;
    forall u | u in profiles
      ensures u != user && profiles[u] != Name(user)
    {
      assert u in profiles.Keys;
      NamesDiffer(u, user);
    }
  }

  lemma NamedToo(profiles: map<Id, string>, users: set<Id>, user: Id)
    requires Named(profiles, users) && user in CAST
    ensures Named(profiles + map[user := Name(user)], users + {user})
  {
    hide Name;
    assert (profiles + map[user := Name(user)]).Keys == users + {user};
  }

  lemma JoinedProfiles(db: Db, user: Id)
    ensures Joined(db, user, Name(user)).profiles == db.profiles + map[user := Name(user)]
  {
    hide Name;
  }

  lemma Empty()
    ensures Reached(Initial(CFG)) && Lobby(Initial(CFG), 0) && Named(Initial(CFG).profiles, {})
  {
    assert After(CFG, []) == Initial(CFG) && AtOnce([]);
  }

  lemma Lobbied() returns (db: Db)
    ensures Reached(db) && Lobby(db, 4) && Named(db.profiles, CAST)
  {
    hide Step, Lobby, Reached, Joined, Name, Named;
    Empty();
    var d1 := Joined(Initial(CFG), OWNER, Name(OWNER));
    Arrives(Initial(CFG), 0, {}, OWNER);
    var d2 := Joined(d1, FIRST, Name(FIRST));
    Arrives(d1, 1, {} + {OWNER}, FIRST);
    var d3 := Joined(d2, SECOND, Name(SECOND));
    Arrives(d2, 2, {} + {OWNER} + {FIRST}, SECOND);
    db := Joined(d3, MODERATOR, Name(MODERATOR));
    Arrives(d3, 3, {} + {OWNER} + {FIRST} + {SECOND}, MODERATOR);
    assert {} + {OWNER} + {FIRST} + {SECOND} + {MODERATOR} == CAST;
  }

  /** What the campaign starts from. */
  ghost predicate Stage(db: Db) {
    && db == Initial(CFG).(profiles := db.profiles, seats := db.seats, campaigns := db.campaigns,
                           contracts := db.contracts,
                    accounts := db.accounts, ledger := db.ledger)
    && OWNER in db.profiles && FIRST in db.profiles && SECOND in db.profiles && MODERATOR in db.profiles
    && db.campaigns == map[BETA := Campaign(OWNER, "beta", 1, 5, Published, Some(0))]
    && db.contracts == map[BETA := Contract(1, 72, 0, 1, [Task(60, false)], true)]
    && Credits.AccountBalance(db.accounts, FIRST) == 100
    && !Credits.HasKey(db.ledger, RewardKey(FIRST_TEST))
  }

  lemma Opened() returns (db: Db)
    ensures Reached(db) && Stage(db)
  {
    hide Step, Reached;
    var lobby := Lobbied();
    Affordable(lobby);
    db := Success.Launched(lobby, 0, BETA, OWNER, FIELDS, TERMS);
    Launches(lobby);
    Next(lobby, LaunchCampaign(BETA, OWNER, FIELDS, TERMS));
    Staged(lobby);
  }

  lemma Affordable(db: Db)
    requires Lobby(db, 4) && Named(db.profiles, CAST)
    ensures OWNER in db.accounts && FIRST in db.accounts && db.accounts[OWNER] == 100 && db.accounts[FIRST] == 100
    ensures !Credits.HasKey(db.ledger, PostingKey(BETA)) && !Credits.HasKey(db.ledger, RewardKey(FIRST_TEST))
  {
    assert OWNER in db.profiles.Keys && FIRST in db.profiles.Keys;
  }

  lemma Launches(db: Db)
    requires Lobby(db, 4) && OWNER in db.profiles && OWNER in db.accounts && db.accounts[OWNER] == 100
    requires !Credits.HasKey(db.ledger, PostingKey(BETA))
    ensures Step(CFG, db, 0, LaunchCampaign(BETA, OWNER, FIELDS, TERMS)) ==
            Success.Launched(db, 0, BETA, OWNER, FIELDS, TERMS)
  {
    hide Commit, Campaigns.Launch, Success.Launched, Credits.HasKey, Step;
    Success.LaunchOutcome(db, 0, BETA, OWNER, FIELDS, TERMS);
    Success.Launch(db, 0, BETA, OWNER, FIELDS, TERMS);
    LaunchStep(db);
  }

  lemma LaunchStep(db: Db)
    requires Campaigns.Launch(db, 0, BETA, OWNER, FIELDS, TERMS).Ok?
    ensures Step(CFG, db, 0, LaunchCampaign(BETA, OWNER, FIELDS, TERMS)) ==
            Commit(db, Campaigns.Launch(db, 0, BETA, OWNER, FIELDS, TERMS).value)
  {
    hide Commit, Campaigns.Launch;
  }

  lemma Staged(db: Db)
    requires Lobby(db, 4) && Named(db.profiles, CAST)
    requires FIRST in db.accounts && db.accounts[FIRST] == 100 && !Credits.HasKey(db.ledger, RewardKey(FIRST_TEST))
    ensures Stage(Success.Launched(db, 0, BETA, OWNER, FIELDS, TERMS))
  {
    hide Credits.HasKey, Credits.AccountBalance;
    NotRewarded(db.ledger, Campaigns.PostingEntry(BETA, Campaign(OWNER, "beta", 1, 5, Published, Some(0))));
    StillHas(db.accounts, Credits.AccountBalance(db.accounts, OWNER) - 5);
    OnlyRow(db.campaigns, BETA, Campaign(OWNER, "beta", 1, 5, Published, Some(0)));
    OnlyRow(db.contracts, BETA, Contract(1, 72, 0, 1, [Task(60, false)], true));
  }

  lemma NotRewarded(ledger: seq<Entry>, e: Entry)
    requires !Credits.HasKey(ledger, RewardKey(FIRST_TEST)) && e.key != RewardKey(FIRST_TEST)
    ensures !Credits.HasKey(ledger + [e], RewardKey(FIRST_TEST))
  {
  }

  lemma StillHas(accounts: map<Id, int>, balance: int)
    requires FIRST in accounts
    ensures Credits.AccountBalance(accounts + map[OWNER := balance], FIRST) == accounts[FIRST]
  {
  }

  // ----- two testers for one place ----------------------------------------------------------

  /** The stage with the work going on. */
  function Scene(base: Db, first: Assignment, second: Assignment, sessions: set<Session>,
                 submissions: map<Id, Submission>,
                 reviews: map<Id, Review>, disputes: map<Id, Dispute>): Db {
    base.(assignments := map[FIRST_TEST := first, SECOND_TEST := second], sessions := sessions,
          submissions := submissions,
          reviews := reviews, disputes := disputes)
  }

  function Applicant(tester: Id): Assignment {
    Assignment(BETA, tester, Applied, None, None, None, None)
  }

  const CHOSEN: Assignment := Applicant(FIRST).(status := Accepted, acceptedAt := Some(0))
  const AT_WORK: Assignment := CHOSEN.(status := InProgress, startedAt := Some(0))
  const DONE: Assignment := AT_WORK.(status := Submitted, submittedAt := Some(0))
  const TURNED_DOWN: Assignment := DONE.(status := Rejected)
  const REPLACEMENT: Assignment := Applicant(SECOND).(status := Accepted, acceptedAt := Some(0))
  const DELIVERED: Submission := Submission(FIRST_TEST, 1, false, [Item(None, None, true, None)], Pending, 0)
  const COMPLAINT: Dispute := Dispute(FIRST_TEST, Some(WORK), FIRST, Open, None, None, None)

  /** The first tester's work awaits review. */
  function Waiting(base: Db): Db {
    Scene(base, DONE, Applicant(SECOND), {Session(FIRST_TEST, 0)}, map[WORK := DELIVERED], map[], map[])
  }

  lemma NobodyYet(assignments: map<Id, Assignment>)
    requires forall a :: a in assignments ==> assignments[a].status !in OCCUPIED
    ensures Occupied(assignments, BETA) == 0
  {
    assert WithStatus(assignments, BETA, OCCUPIED) == {};
  }

  lemma FirstMoves(rows: map<Id, Assignment>, x: Assignment)
    requires SECOND_TEST in rows && forall a :: a in rows ==> a == FIRST_TEST || a == SECOND_TEST
    ensures rows + map[FIRST_TEST := x] == map[FIRST_TEST := x, SECOND_TEST := rows[SECOND_TEST]]
  {
  }

  lemma SecondMoves(rows: map<Id, Assignment>, x: Assignment)
    requires FIRST_TEST in rows && forall a :: a in rows ==> a == FIRST_TEST || a == SECOND_TEST
    ensures rows + map[SECOND_TEST := x] == map[FIRST_TEST := rows[FIRST_TEST], SECOND_TEST := x]
  {
  }

  lemma Stepped(db: Db, r: Request)
    requires Handle(CFG, db, 0, r).Ok? && Reached(db)
    ensures Reached(Commit(db, Handle(CFG, db, 0, r).value))
  {
    hide Handle, Reached, Commit;
    Next(db, r);
  }

  lemma FirstApplies(base: Db)
    requires Stage(base) && Reached(base)
    ensures Reached(base.(assignments := map[FIRST_TEST := Applicant(FIRST)]))
  {
    hide Reached, Commit, Credits.HasKey, Occupied;
    NobodyYet(base.assignments);
    assert Workflow.Apply(base, FIRST_TEST, BETA, FIRST).Ok?;
    Success.Apply(base, FIRST_TEST, BETA, FIRST);
    Stepped(base, Apply(FIRST_TEST, BETA, FIRST));
    OnlyRow(base.assignments, FIRST_TEST, Applicant(FIRST));
  }

  lemma SecondApplies(base: Db)
    requires Stage(base) && Reached(base.(assignments := map[FIRST_TEST := Applicant(FIRST)]))
    ensures Reached(Scene(base, Applicant(FIRST), Applicant(SECOND), {}, map[], map[], map[]))
  {
    hide Reached, Commit, Credits.HasKey, Occupied;
    var db := base.(assignments := map[FIRST_TEST := Applicant(FIRST)]);
    NobodyYet(db.assignments);
    assert !Workflow.HasApplied(db.assignments, BETA, SECOND);
    hide Workflow.HasApplied;
    assert Workflow.Apply(db, SECOND_TEST, BETA, SECOND).Ok?;
    Success.Apply(db, SECOND_TEST, BETA, SECOND);
    Stepped(db, Apply(SECOND_TEST, BETA, SECOND));
    assert db.assignments + map[SECOND_TEST := Applicant(SECOND)] ==
           map[FIRST_TEST := Applicant(FIRST), SECOND_TEST := Applicant(SECOND)];
  }

  lemma FirstIsAccepted(base: Db)
    requires Stage(base) && Reached(Scene(base, Applicant(FIRST), Applicant(SECOND), {}, map[], map[], map[]))
    ensures Reached(Scene(base, CHOSEN, Applicant(SECOND), {}, map[], map[], map[]))
  {
    hide Reached, Commit, Credits.HasKey, Occupied;
    var db := Scene(base, Applicant(FIRST), Applicant(SECOND), {}, map[], map[], map[]);
    NobodyYet(db.assignments);
    assert Workflow.Accept(db, 0, FIRST_TEST, OWNER).Ok?;
    Success.Accept(db, 0, FIRST_TEST, OWNER);
    Stepped(db, Accept(FIRST_TEST, OWNER));
    FirstMoves(db.assignments, CHOSEN);
  }

  lemma FirstStarts(base: Db)
    requires Stage(base) && Reached(Scene(base, CHOSEN, Applicant(SECOND), {}, map[], map[], map[]))
    ensures Reached(Scene(base, AT_WORK, Applicant(SECOND), {Session(FIRST_TEST, 0)}, map[], map[], map[]))
  {
    hide Reached, Commit, Credits.HasKey;
    var db := Scene(base, CHOSEN, Applicant(SECOND), {}, map[], map[], map[]);
    assert Workflow.Start(db, 0, FIRST_TEST, FIRST).Ok?;
    Success.Start(db, 0, FIRST_TEST, FIRST);
    Stepped(db, Start(FIRST_TEST, FIRST));
    FirstMoves(db.assignments, AT_WORK);
    assert {} + {Session(FIRST_TEST, DayOf(0))} == {Session(FIRST_TEST, 0)};
  }

  lemma MaySubmit(db: Db, second: Assignment)
    requires db.assignments == map[FIRST_TEST := AT_WORK, SECOND_TEST := second]
    requires db.sessions == {Session(FIRST_TEST, 0)}
    requires db.submissions == map[] && db.contracts == map[BETA := Contract(1, 72, 0, 1, [Task(60, false)], true)]
    ensures Workflow.Submit(db, 0, WORK, FIRST_TEST, FIRST, LINK).Ok?
    ensures Workflow.LatestVersion(db.submissions, FIRST_TEST) == 0
  {
    assert Workflow.SessionDays(db.sessions, FIRST_TEST) == {Session(FIRST_TEST, 0)};
    assert Workflow.Versions(db.submissions, FIRST_TEST) == {};
    Acceptable();
    hide Workflow.SessionDays, Workflow.Versions, Workflow.CheckItems, StorageKeys.FolderName;
    hide Workflow.CoveredTaskIds, Workflow.RequiredTaskIds;
  }

  lemma FirstSubmits(base: Db)
    requires Stage(base)
    requires Reached(Scene(base, AT_WORK, Applicant(SECOND), {Session(FIRST_TEST, 0)}, map[], map[], map[]))
    ensures Reached(Waiting(base))
  {
    hide Reached, Commit, Credits.HasKey, Workflow.Submit, Workflow.LatestVersion, Workflow.CheckItems;
    hide Workflow.SessionDays;
    hide StorageKeys.FolderName, Workflow.CoveredTaskIds, Workflow.RequiredTaskIds;
    var db := Scene(base, AT_WORK, Applicant(SECOND), {Session(FIRST_TEST, 0)}, map[], map[], map[]);
    MaySubmit(db, Applicant(SECOND));
    Success.Submit(db, 0, WORK, FIRST_TEST, FIRST, LINK);
    Stepped(db, Submit(WORK, FIRST_TEST, FIRST, LINK));
    FirstMoves(db.assignments, DONE);
    OnlyRow(db.submissions, WORK, DELIVERED);
  }

  /** A link covers no task, and none is required. */
  lemma Acceptable()
    ensures Workflow.CoveredTaskIds(LINK.items) == {} && Workflow.RequiredTaskIds([Task(60, false)]) == {}
    ensures Workflow.CheckItems(StorageKeys.FolderName(FIRST_TEST), LINK.items).Ok?
  {
    assert LINK.items[1..] == [];
  }

  lemma MayReject(db: Db, second: Assignment)
    requires db.assignments == map[FIRST_TEST := DONE, SECOND_TEST := second]
    requires db.submissions == map[WORK := DELIVERED]
    requires db.reviews == map[] && db.disputes == map[]
    requires db.campaigns == map[BETA := Campaign(OWNER, "beta", 1, 5, Published, Some(0))]
    ensures Workflow.Examine(db, 0, WORK, OWNER, Reject).Ok?
  {
  }

  lemma Decides(db: Db, id: Id, decision: Decision)
    requires Reached(db) && Workflow.Examine(db, 0, id, OWNER, decision).Ok?
    ensures Reached(Commit(db, Workflow.Examine(db, 0, id, OWNER, decision).value))
  {
    hide Reached, Commit, Workflow.Examine;
    Stepped(db, Examine(id, OWNER, decision));
  }

  lemma FirstIsTurnedDown(base: Db)
    requires Stage(base)
    requires Reached(Waiting(base))
    ensures Reached(Scene(base, TURNED_DOWN, Applicant(SECOND), {Session(FIRST_TEST, 0)},
                          map[WORK := DELIVERED.(status := Refused)], map[WORK := Review(OWNER, Reject)], map[]))
  {
    hide Reached, Commit, Credits.HasKey, Credits.AccountBalance, Workflow.Examine, Success.AfterApproval;
    var db := Waiting(base);
    MayReject(db, Applicant(SECOND));
    Success.Examine(db, 0, WORK, OWNER, Reject);
    Decides(db, WORK, Reject);
    FirstMoves(db.assignments, TURNED_DOWN);
    OnlyRow(db.submissions, WORK, DELIVERED.(status := Refused));
    OnlyRow(db.reviews, WORK, Review(OWNER, Reject));
  }

  /** The place of the rejected tester is given to the second one. */
  lemma SecondIsAccepted(base: Db, submissions: map<Id, Submission>, reviews: map<Id, Review>)
    requires Stage(base)
    requires Reached(Scene(base, TURNED_DOWN, Applicant(SECOND), {Session(FIRST_TEST, 0)}, submissions, reviews, map[]))
    ensures Reached(Scene(base, TURNED_DOWN, REPLACEMENT, {Session(FIRST_TEST, 0)}, submissions, reviews, map[]))
  {
    hide Reached, Commit, Credits.HasKey, Occupied;
    var db := Scene(base, TURNED_DOWN, Applicant(SECOND), {Session(FIRST_TEST, 0)}, submissions, reviews, map[]);
    NobodyYet(db.assignments);
    assert Workflow.Accept(db, 0, SECOND_TEST, OWNER).Ok?;
    Success.Accept(db, 0, SECOND_TEST, OWNER);
    Stepped(db, Accept(SECOND_TEST, OWNER));
    SecondMoves(db.assignments, REPLACEMENT);
  }

  lemma Complains(db: Db)
    requires Reached(db) && db.disputes == map[]
    requires db.assignments == map[FIRST_TEST := TURNED_DOWN, SECOND_TEST := REPLACEMENT]
    requires db.submissions == map[WORK := DELIVERED.(status := Refused)]
    requires db.campaigns == map[BETA := Campaign(OWNER, "beta", 1, 5, Published, Some(0))]
    ensures Reached(db.(disputes := map[DISPUTE := COMPLAINT]))
  {
    hide Reached, Commit;
    assert Workflow.Escalate(db, 0, DISPUTE, FIRST_TEST, FIRST, Some(WORK)).Ok?;
    Success.Escalate(db, 0, DISPUTE, FIRST_TEST, FIRST, Some(WORK));
    hide Workflow.Escalate;
    Stepped(db, Escalate(DISPUTE, FIRST_TEST, FIRST, Some(WORK)));
    OnlyRow(db.disputes, DISPUTE, COMPLAINT);
  }

  lemma FirstEscalates(base: Db, reviews: map<Id, Review>)
    requires Stage(base)
    requires Reached(Scene(base, TURNED_DOWN, REPLACEMENT, {Session(FIRST_TEST, 0)},
                           map[WORK := DELIVERED.(status := Refused)], reviews, map[]))
    ensures Reached(Scene(base, TURNED_DOWN, REPLACEMENT, {Session(FIRST_TEST, 0)},
                          map[WORK := DELIVERED.(status := Refused)], reviews, map[DISPUTE := COMPLAINT]))
  {
    hide Reached, Credits.HasKey, Credits.AccountBalance;
    Complains(Scene(base, TURNED_DOWN, REPLACEMENT, {Session(FIRST_TEST, 0)},
                    map[WORK := DELIVERED.(status := Refused)], reviews, map[]));
  }

  const CLAIMED: Dispute := COMPLAINT.(status := UnderReview, assignedTo := Some(MODERATOR))

  lemma ModeratorClaims(base: Db, submissions: map<Id, Submission>, reviews: map<Id, Review>)
    requires Stage(base)
    requires Reached(Scene(base, TURNED_DOWN, REPLACEMENT, {Session(FIRST_TEST, 0)}, submissions, reviews,
                           map[DISPUTE := COMPLAINT]))
    ensures Reached(Scene(base, TURNED_DOWN, REPLACEMENT, {Session(FIRST_TEST, 0)}, submissions, reviews,
                          map[DISPUTE := CLAIMED]))
  {
    hide Reached, Commit, Credits.HasKey;
    var db := Scene(base, TURNED_DOWN, REPLACEMENT, {Session(FIRST_TEST, 0)}, submissions, reviews,
                    map[DISPUTE := COMPLAINT]);
    assert Moderation.Claim(db, DISPUTE, MODERATOR).Ok?;
    Success.Claim(db, DISPUTE, MODERATOR);
    Stepped(db, Claim(DISPUTE, MODERATOR));
    OnlyRow(db.disputes, DISPUTE, CLAIMED);
  }

  lemma ModeratorAwards(db: Db) returns (after: Db)
    requires db.assignments == map[FIRST_TEST := TURNED_DOWN, SECOND_TEST := REPLACEMENT]
    requires db.submissions == map[WORK := DELIVERED.(status := Refused)] && db.disputes == map[DISPUTE := CLAIMED]
    requires db.campaigns == map[BETA := Campaign(OWNER, "beta", 1, 5, Published, Some(0))]
    requires Credits.AccountBalance(db.accounts, FIRST) == 100 && !Credits.HasKey(db.ledger, RewardKey(FIRST_TEST))
    requires Reached(db)
    ensures Reached(after) && BETA in after.campaigns && after.campaigns[BETA].target == 1
    ensures after.assignments.Keys == {FIRST_TEST, SECOND_TEST}
    ensures after.assignments[FIRST_TEST].campaign == BETA && after.assignments[FIRST_TEST].status == Approved
    ensures after.assignments[SECOND_TEST] == REPLACEMENT
  {
    hide Reached, Commit, Credits.HasKey, Credits.AccountBalance, Moderation.Resolve, Workflow.Approval;
    hide Success.AfterApproval;
    MayAward(db);
    Success.Resolve(db, 0, DISPUTE, MODERATOR, AWARD);
    Stepped(db, Resolve(DISPUTE, MODERATOR, AWARD));
    after := Commit(db, Moderation.Resolve(db, 0, DISPUTE, MODERATOR, AWARD).value);
    Lifecycles.ApprovalWrites(db, 0, WORK, db.submissions[WORK], FIRST_TEST, TURNED_DOWN, db.campaigns[BETA]);
    hide Campaigns.MaybeComplete;
    Awarded(db, after);
  }

  lemma MayAward(db: Db)
    requires db.assignments == map[FIRST_TEST := TURNED_DOWN, SECOND_TEST := REPLACEMENT]
    requires db.submissions == map[WORK := DELIVERED.(status := Refused)] && db.disputes == map[DISPUTE := CLAIMED]
    requires db.campaigns == map[BETA := Campaign(OWNER, "beta", 1, 5, Published, Some(0))]
    requires Credits.AccountBalance(db.accounts, FIRST) == 100 && !Credits.HasKey(db.ledger, RewardKey(FIRST_TEST))
    ensures Moderation.Resolve(db, 0, DISPUTE, MODERATOR, AWARD).Ok?
  {
    hide Credits.AccountBalance, Credits.HasKey, Workflow.Approval, Moderation.Resolve;
    Money.ApprovalPossible(db, 0, WORK, db.submissions[WORK], FIRST_TEST, TURNED_DOWN, db.campaigns[BETA]);
    Escalations.RulingPossible(db, 0, DISPUTE, MODERATOR, AWARD);
  }

  lemma Awarded(db: Db, after: Db)
    requires db.assignments == map[FIRST_TEST := TURNED_DOWN, SECOND_TEST := REPLACEMENT]
    requires db.campaigns == map[BETA := Campaign(OWNER, "beta", 1, 5, Published, Some(0))]
    requires after.assignments ==
             db.assignments + map[FIRST_TEST := TURNED_DOWN.(status := Approved, completedAt := Some(0))]
    requires after.campaigns ==
             db.campaigns + map[BETA := Campaigns.MaybeComplete(db.campaigns[BETA], BETA, after.assignments)]
    ensures BETA in after.campaigns && after.campaigns[BETA].target == 1
    ensures after.assignments.Keys == {FIRST_TEST, SECOND_TEST}
    ensures after.assignments[FIRST_TEST].campaign == BETA && after.assignments[FIRST_TEST].status == Approved
    ensures after.assignments[SECOND_TEST] == REPLACEMENT
  {
    hide Campaigns.Finished;
  }

  /** A database in which the first tester's work awaits review. */
  lemma AwaitingReview() returns (base: Db)
    ensures Stage(base)
    ensures Reached(Waiting(base))
  {
    hide Reached, After, Credits.HasKey, Credits.AccountBalance;
    base := Opened();
    FirstApplies(base);
    SecondApplies(base);
    FirstIsAccepted(base);
    FirstStarts(base);
    FirstSubmits(base);
  }

  /** The target of a campaign does not bound its testers: a rejected tester's place is given away,
      and then a moderator approves the rejected work after all. */
  lemma TargetCanBeExceeded() returns (cfg: Profiles.Config, run: seq<Event>, campaign: Id)
    ensures Ordered(run)
    ensures campaign in After(cfg, run).campaigns
    ensures Occupied(After(cfg, run).assignments, campaign) > After(cfg, run).campaigns[campaign].target
  {
    hide Reached, After, Credits.HasKey, Credits.AccountBalance;
    var base := AwaitingReview();
    FirstIsTurnedDown(base);
    var refused, reviews := map[WORK := DELIVERED.(status := Refused)], map[WORK := Review(OWNER, Reject)];
    SecondIsAccepted(base, refused, reviews);
    FirstEscalates(base, reviews);
    ModeratorClaims(base, refused, reviews);
    var db := ModeratorAwards(Scene(base, TURNED_DOWN, REPLACEMENT, {Session(FIRST_TEST, 0)}, refused, reviews,
                                    map[DISPUTE := CLAIMED]));
    run := Witness(db);
    assert WithStatus(db.assignments, BETA, OCCUPIED) == {FIRST_TEST, SECOND_TEST};
    cfg, campaign := CFG, BETA;
  }

  // ----- a closed campaign that stays closed -------------------------------------------------

  const SHUT: Campaign := Campaign(OWNER, "beta", 1, 5, Closed, Some(0))
  const SENT_AWAY: Assignment := Applicant(SECOND).(status := Cancelled, completedAt := Some(0))

  lemma OwnerCloses(base: Db) returns (after: Db)
    requires Stage(base)
    requires Reached(Waiting(base))
    ensures Reached(after) && after.assignments == map[FIRST_TEST := DONE, SECOND_TEST := SENT_AWAY]
    ensures after.campaigns == map[BETA := SHUT] && after.submissions == map[WORK := DELIVERED]
    ensures after.reviews == map[] && after.disputes == map[]
  {
    hide Reached, Commit, Credits.HasKey, Credits.AccountBalance, Campaigns.Finished, Campaigns.Declined;
    var db := Waiting(base);
    assert Campaigns.Transition(db, 0, BETA, OWNER, Campaigns.Close).Ok?;
    hide Campaigns.Transition;
    Success.Transition(db, 0, BETA, OWNER, Campaigns.Close);
    Stepped(db, TransitionCampaign(BETA, OWNER, Campaigns.Close));
    SecondIsDeclined(db.assignments);
    StillTesting(map[FIRST_TEST := DONE, SECOND_TEST := SENT_AWAY]);
    after := db.(assignments := map[FIRST_TEST := DONE, SECOND_TEST := SENT_AWAY], campaigns := map[BETA := SHUT]);
    OnlyRow(db.campaigns, BETA, SHUT);
  }

  lemma SecondIsDeclined(assignments: map<Id, Assignment>)
    requires assignments == map[FIRST_TEST := DONE, SECOND_TEST := Applicant(SECOND)]
    ensures assignments + Campaigns.Declined(assignments, BETA, 0) == map[FIRST_TEST := DONE, SECOND_TEST := SENT_AWAY]
  {
    assert WithStatus(assignments, BETA, {Applied}) == {SECOND_TEST};
    hide WithStatus;
  }

  lemma StillTesting(assignments: map<Id, Assignment>)
    requires assignments == map[FIRST_TEST := DONE, SECOND_TEST := SENT_AWAY]
    ensures !Campaigns.Finished(SHUT, BETA, assignments)
    ensures WithStatus(assignments, BETA, ACTIVE) == {FIRST_TEST}
  {
    assert WithStatus(assignments, BETA, ACTIVE) == {FIRST_TEST};
    hide WithStatus;
  }

  lemma MayStillReject(db: Db)
    requires db.assignments == map[FIRST_TEST := DONE, SECOND_TEST := SENT_AWAY]
    requires db.submissions == map[WORK := DELIVERED]
    requires db.campaigns == map[BETA := SHUT] && db.reviews == map[] && db.disputes == map[]
    ensures Workflow.Examine(db, 0, WORK, OWNER, Reject).Ok?
  {
  }

  lemma LastWorkIsTurnedDown(db: Db) returns (after: Db)
    requires Reached(db) && db.assignments == map[FIRST_TEST := DONE, SECOND_TEST := SENT_AWAY]
    requires db.campaigns == map[BETA := SHUT] && db.submissions == map[WORK := DELIVERED]
    requires db.reviews == map[] && db.disputes == map[]
    ensures Reached(after) && after.campaigns == map[BETA := SHUT]
    ensures after.assignments == map[FIRST_TEST := TURNED_DOWN, SECOND_TEST := SENT_AWAY]
  {
    hide Reached, Commit, Workflow.Examine;
    MayStillReject(db);
    Success.Examine(db, 0, WORK, OWNER, Reject);
    Stepped(db, Examine(WORK, OWNER, Reject));
    after := Commit(db, Workflow.Examine(db, 0, WORK, OWNER, Reject).value);
    FirstMoves(db.assignments, TURNED_DOWN);
  }

  /** A closed campaign does not always complete once its accepted work is settled: rejecting the
      last of it leaves the campaign closed. */
  lemma ClosedCampaignCanStall() returns (cfg: Profiles.Config, run: seq<Event>, campaign: Id)
    ensures Ordered(run)
    ensures Completing.Stalled(After(cfg, run).campaigns, After(cfg, run).assignments, campaign)
  {
    hide Reached, After, Credits.HasKey, Credits.AccountBalance;
    var base := AwaitingReview();
    var closed := OwnerCloses(base);
    var db := LastWorkIsTurnedDown(closed);
    run := Witness(db);
    hide Stage, Scene;
    assert WithStatus(db.assignments, BETA, ACTIVE) == {};
    assert FIRST_TEST in EverAccepted(db.assignments, BETA);
    cfg, campaign := CFG, BETA;
  }

  lemma Witness(db: Db) returns (run: seq<Event>)
    requires Reached(db)
    ensures After(CFG, run) == db && Ordered(run)
  {
    run :| After(CFG, run) == db && AtOnce(run);
  }
}
