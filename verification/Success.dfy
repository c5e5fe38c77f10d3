/** For each request that succeeds: what it found, and the database it leaves. */
module Success {
  import opened Model
  import opened Results
  import Campaigns
  import Credits
  import Moderation
  import Profiles
  import StorageKeys
  import Workflow

  type Config = Profiles.Config

  /** Writes to the tables of the workflow. */
  lemma WorkRows(db: Db, w: Writes)
    requires w.profiles == map[] && w.seats.None? && w.contracts == map[] && w.sessions == {}
    ensures Commit(db, w) ==
            db.(campaigns := db.campaigns + w.campaigns, assignments := db.assignments + w.assignments,
                submissions := db.submissions + w.submissions, reviews := db.reviews + w.reviews,
                disputes := db.disputes + w.disputes, accounts := db.accounts + w.accounts,
                ledger := db.ledger + w.entries)
  {
    PlusNone(db.profiles);
    PlusNone(db.contracts);
  }

  /** Writes to the tables a publication touches. */
  lemma MarketRows(db: Db, w: Writes)
    requires w == NOTHING.(campaigns := w.campaigns, contracts := w.contracts, accounts := w.accounts,
                           entries := w.entries)
    ensures Commit(db, w) ==
            db.(campaigns := db.campaigns + w.campaigns, contracts := db.contracts + w.contracts,
                accounts := db.accounts + w.accounts, ledger := db.ledger + w.entries)
  {
    PlusNone(db.profiles);
    PlusNone(db.assignments);
    PlusNone(db.submissions);
    PlusNone(db.reviews);
    PlusNone(db.disputes);
  }

  // ----- profiles ---------------------------------------------------------------------------

  lemma Rename(db: Db, cfg: Config, user: Id, username: string, enabled: bool)
    requires Profiles.Upsert(db, cfg, user, username, enabled).Ok? && user in db.profiles
    ensures Commit(db, Profiles.Upsert(db, cfg, user, username, enabled).value) ==
            db.(profiles := db.profiles + map[user := username])
  {
    Untouched(db, Profiles.Upsert(db, cfg, user, username, enabled).value);
  }

  /** The rows a newcomer gets before the grant is posted. */
  function Admitted(db: Db, user: Id, username: string): Db {
    db.(profiles := db.profiles + map[user := username], seats := Some(Profiles.ClaimedSeats(db) + 1),
        accounts := db.accounts + map[user := Credits.AccountBalance(db.accounts, user)])
  }

  lemma Admit(db: Db, user: Id, username: string, seats: int, balance: int)
    ensures Commit(db, NOTHING.(profiles := map[user := username], seats := Some(seats),
                                accounts := map[user := balance])) ==
            db.(profiles := db.profiles + map[user := username], seats := Some(seats),
                accounts := db.accounts + map[user := balance])
  {
    Untouched(db, NOTHING.(profiles := map[user := username], seats := Some(seats), accounts := map[user := balance]));
  }

  /** A newcomer is admitted, then paid the grant. */
  lemma Join(db: Db, cfg: Config, user: Id, username: string, enabled: bool)
    requires Profiles.Upsert(db, cfg, user, username, enabled).Ok? && user !in db.profiles
    ensures Profiles.ClaimedSeats(db) < cfg.maxUsers
    ensures Profiles.Grant(Admitted(db, user, username), cfg, user).Ok?
    ensures Commit(db, Profiles.Upsert(db, cfg, user, username, enabled).value) ==
            Commit(Admitted(db, user, username), Profiles.Grant(Admitted(db, user, username), cfg, user).value)
  {
    hide Commit, Then, Profiles.Grant, Profiles.Upsert, Profiles.ClaimedSeats, Credits.AccountBalance;
    var seats, balance := Profiles.ClaimedSeats(db) + 1, Credits.AccountBalance(db.accounts, user);
    var first := NOTHING.(profiles := map[user := username], seats := Some(seats), accounts := map[user := balance]);
    Admit(db, user, username, seats, balance);
    JoinWrites(db, cfg, user, username, enabled, Admitted(db, user, username), first);
    CommitThen(db, first, Profiles.Grant(Admitted(db, user, username), cfg, user).value);
  }

  lemma JoinWrites(db: Db, cfg: Config, user: Id, username: string, enabled: bool, admitted: Db, first: Writes)
    requires Profiles.Upsert(db, cfg, user, username, enabled).Ok? && user !in db.profiles
    requires first == NOTHING.(profiles := map[user := username], seats := Some(Profiles.ClaimedSeats(db) + 1),
                               accounts := map[user := Credits.AccountBalance(db.accounts, user)])
    requires admitted == Commit(db, first)
    ensures Profiles.ClaimedSeats(db) < cfg.maxUsers
    ensures Profiles.Grant(admitted, cfg, user).Ok?
    ensures Profiles.Upsert(db, cfg, user, username, enabled).value ==
            Then(first, Profiles.Grant(admitted, cfg, user).value)
  {
    hide Commit, Then, Profiles.Grant;
  }

  /** Everything a newcomer's sign-up writes, when nothing was ever posted for them. */
  function Welcome(cfg: Config, user: Id, username: string, seat: int): Writes {
    NOTHING.(profiles := map[user := username], seats := Some(seat), accounts := map[user := cfg.signupGrant],
             entries := if cfg.signupGrant > 0 then [Entry(user, cfg.signupGrant, SignupGrant, SignupKey(user))]
                        else [])
  }

  lemma GrantToNewcomer(db: Db, cfg: Config, user: Id)
    requires !Credits.HasKey(db.ledger, SignupKey(user)) && Credits.AccountBalance(db.accounts, user) == 0
    ensures Profiles.Grant(db, cfg, user) ==
            Ok(if cfg.signupGrant > 0 then
                 NOTHING.(accounts := map[user := cfg.signupGrant as int],
                          entries := [Entry(user, cfg.signupGrant, SignupGrant, SignupKey(user))])
               else NOTHING)
  {
    hide Credits.HasKey, Credits.AccountBalance;
  }

  lemma ThenGranted(first: Writes, cfg: Config, user: Id, seat: int, username: string)
    requires first == NOTHING.(profiles := map[user := username], seats := Some(seat), accounts := map[user := 0])
    ensures Then(first, if cfg.signupGrant > 0 then
                          NOTHING.(accounts := map[user := cfg.signupGrant as int],
                                   entries := [Entry(user, cfg.signupGrant, SignupGrant, SignupKey(user))])
                        else NOTHING) == Welcome(cfg, user, username, seat)
  {
    PlusNone(first.profiles);
    PlusNone(first.accounts);
    Overwrite(map[], user, 0, cfg.signupGrant as int);
  }

  /** What a newcomer's sign-up comes to. */
  lemma Newcomer(db: Db, cfg: Config, user: Id, username: string, enabled: bool)
    requires user !in db.profiles && user !in db.accounts && !Credits.HasKey(db.ledger, SignupKey(user))
    requires !Profiles.UsernameTakenBy(db.profiles, username, user)
    ensures Profiles.Upsert(db, cfg, user, username, enabled) ==
            if !enabled then Err(RegistrationPaused)
            else if Profiles.ClaimedSeats(db) >= cfg.maxUsers then Err(BetaFull)
            else Ok(Welcome(cfg, user, username, Profiles.ClaimedSeats(db) + 1))
  {
    hide *;
    var seat := Profiles.ClaimedSeats(db) + 1;
    var first := NOTHING.(profiles := map[user := username], seats := Some(seat), accounts := map[user := 0]);
    Admit(db, user, username, seat, 0);
    ZeroBalance(db.accounts, user);
    GrantToNewcomer(Commit(db, first), cfg, user);
    ThenGranted(first, cfg, user, seat, username);
    Admission(db, cfg, user, username, enabled, first);
  }

  /** The database a newcomer leaves, when nothing was ever posted for them. */
  function Joined(db: Db, cfg: Config, user: Id, username: string): Db {
    db.(profiles := db.profiles + map[user := username], seats := Some(Profiles.ClaimedSeats(db) + 1),
        accounts := db.accounts + map[user := cfg.signupGrant],
        ledger := if cfg.signupGrant > 0 then db.ledger + [Entry(user, cfg.signupGrant, SignupGrant, SignupKey(user))]
                  else db.ledger)
  }

  lemma Welcomed(db: Db, cfg: Config, user: Id, username: string)
    ensures Commit(db, Welcome(cfg, user, username, Profiles.ClaimedSeats(db) + 1)) == Joined(db, cfg, user, username)
  {
    hide Commit, Profiles.ClaimedSeats;
    var w := Welcome(cfg, user, username, Profiles.ClaimedSeats(db) + 1);
    SignupRows(db, w);
    PlusNil(db.ledger);
  }

  /** Writes to the tables a sign-up touches. */
  lemma SignupRows(db: Db, w: Writes)
    requires w == NOTHING.(profiles := w.profiles, seats := w.seats, accounts := w.accounts, entries := w.entries)
    requires w.seats.Some?
    ensures Commit(db, w) ==
            db.(profiles := db.profiles + w.profiles, seats := w.seats, accounts := db.accounts + w.accounts,
                ledger := db.ledger + w.entries)
  {
    PlusNone(db.campaigns);
    PlusNone(db.contracts);
    PlusNone(db.assignments);
    PlusNone(db.submissions);
    PlusNone(db.reviews);
    PlusNone(db.disputes);
  }

  /** A newcomer who is let in took a free name and a free seat. */
  lemma Signup(db: Db, cfg: Config, user: Id, username: string, enabled: bool)
    requires Profiles.Upsert(db, cfg, user, username, enabled).Ok?
    requires user !in db.profiles && user !in db.accounts && !Credits.HasKey(db.ledger, SignupKey(user))
    ensures Profiles.ClaimedSeats(db) < cfg.maxUsers
    ensures Commit(db, Profiles.Upsert(db, cfg, user, username, enabled).value) == Joined(db, cfg, user, username)
  {
    hide *;
    NameWasFree(db, cfg, user, username, enabled);
    Newcomer(db, cfg, user, username, enabled);
    Welcomed(db, cfg, user, username);
  }

  lemma NameWasFree(db: Db, cfg: Config, user: Id, username: string, enabled: bool)
    requires Profiles.Upsert(db, cfg, user, username, enabled).Ok?
    ensures !Profiles.UsernameTakenBy(db.profiles, username, user)
  {
    hide Commit, Then, Profiles.Grant, Profiles.UsernameTakenBy, Profiles.ClaimedSeats;
  }

  /** A grant touches accounts and the ledger only. */
  lemma GrantRows(db: Db, cfg: Config, user: Id)
    requires Profiles.Grant(db, cfg, user).Ok?
    ensures var w := Profiles.Grant(db, cfg, user).value;
            Commit(db, w) == db.(accounts := db.accounts + w.accounts, ledger := db.ledger + w.entries)
  {
    hide Commit, Credits.HasKey, Credits.AccountBalance;
    MarketRows(db, Profiles.Grant(db, cfg, user).value);
    PlusNone(db.campaigns);
    PlusNone(db.contracts);
  }

  lemma ZeroBalance(accounts: map<Id, int>, user: Id)
    ensures Credits.AccountBalance(accounts + map[user := 0], user) == 0
    ensures user !in accounts ==> Credits.AccountBalance(accounts, user) == 0
  {
  }

  /** A sign-up under a free name: the two gates, then admission and grant. */
  lemma Admission(db: Db, cfg: Config, user: Id, username: string, enabled: bool, first: Writes)
    requires user !in db.profiles && !Profiles.UsernameTakenBy(db.profiles, username, user)
    requires first == NOTHING.(profiles := map[user := username], seats := Some(Profiles.ClaimedSeats(db) + 1),
                               accounts := map[user := Credits.AccountBalance(db.accounts, user)])
    requires Profiles.Grant(Commit(db, first), cfg, user).Ok?
    ensures Profiles.Upsert(db, cfg, user, username, enabled) ==
            if !enabled then Err(RegistrationPaused)
            else if Profiles.ClaimedSeats(db) >= cfg.maxUsers then Err(BetaFull)
            else Ok(Then(first, Profiles.Grant(Commit(db, first), cfg, user).value))
  {
    hide Commit, Then, Profiles.Grant, Profiles.UsernameTakenBy, Profiles.ClaimedSeats, Credits.AccountBalance;
  }

  /** Posting an entry whose key is new. */
  lemma Record(db: Db, e: Entry)
    requires Credits.Record(db, e).Ok? && !Credits.HasKey(db.ledger, e.key)
    ensures e.delta != 0 && Credits.AccountBalance(db.accounts, e.user) + e.delta >= 0
    ensures Credits.Record(db, e).value ==
            NOTHING.(accounts := map[e.user := Credits.AccountBalance(db.accounts, e.user) + e.delta], entries := [e])
  {
  }

  // ----- campaigns --------------------------------------------------------------------------

  lemma Create(db: Db, id: Id, owner: Id, p: Campaigns.CampaignPayload)
    requires Campaigns.Create(db, id, owner, p).Ok?
    ensures owner in db.profiles && id !in db.campaigns && !Campaigns.SlugInUse(db.campaigns, p.slug)
    ensures Commit(db, Campaigns.Create(db, id, owner, p).value) ==
            db.(campaigns := db.campaigns + map[id := Campaign(owner, p.slug, p.target, p.reward, Draft, None)])
  {
    Untouched(db, Campaigns.Create(db, id, owner, p).value);
  }

  lemma Update(db: Db, c: Id, owner: Id, u: Campaigns.CampaignUpdate)
    requires Campaigns.Update(db, c, owner, u).Ok?
    ensures c in db.campaigns && db.campaigns[c].status == Draft
    ensures Commit(db, Campaigns.Update(db, c, owner, u).value) ==
            db.(campaigns := db.campaigns + map[c := Campaigns.Changed(db.campaigns[c], u)])
  {
    Untouched(db, Campaigns.Update(db, c, owner, u).value);
  }

  lemma UpsertContract(db: Db, c: Id, owner: Id, p: Campaigns.ContractPayload)
    requires Campaigns.UpsertContract(db, c, owner, p).Ok?
    ensures c in db.campaigns && db.campaigns[c].status == Draft
    ensures Commit(db, Campaigns.UpsertContract(db, c, owner, p).value) ==
            db.(contracts := db.contracts + map[c := Campaigns.Revised(db, c, p)])
  {
    Untouched(db, Campaigns.UpsertContract(db, c, owner, p).value);
  }

  lemma Publish(db: Db, now: Time, c: Id, owner: Id)
    requires Campaigns.Publish(db, now, c, owner).Ok?
    ensures c in db.campaigns && db.campaigns[c].owner == owner
    ensures var after := Commit(db, Campaigns.Publish(db, now, c, owner).value);
            var row := db.campaigns[c];
            var e := Campaigns.PostingEntry(c, row);
            var balance := Credits.AccountBalance(db.accounts, owner) + e.delta;
            if row.status == Published then after == db
            else
              && row.status == Draft && c in db.contracts && db.contracts[c].tasks != []
              && (!Credits.HasKey(db.ledger, PostingKey(c)) ==>
                    && balance >= 0
                    && after == db.(campaigns := db.campaigns +
                                    map[c := row.(status := Published, publishedAt := Some(now))],
                                    contracts := db.contracts + map[c := db.contracts[c].(locked := true)],
                                    accounts := db.accounts + map[owner := balance],
                                    ledger := db.ledger + [e]))
  {
    hide Commit, Credits.Record, Credits.HasKey, Credits.AccountBalance, Campaigns.PostingEntry;
    var w := Campaigns.Publish(db, now, c, owner).value;
    if db.campaigns[c].status == Published {
      NothingChanges(db);
    } else if !Credits.HasKey(db.ledger, PostingKey(c)) {
      PostingIs(c, db.campaigns[c]);
      Record(db, Campaigns.PostingEntry(c, db.campaigns[c]));
      MarketRows(db, w);
    }
  }

  lemma PostingIs(campaign: Id, c: Campaign)
    ensures var e := Campaigns.PostingEntry(campaign, c);
            e.key == PostingKey(campaign) && e.user == c.owner
  {
  }

  /** The rows a launch leaves. */
  function Launched(db: Db, now: Time, id: Id, owner: Id, p: Campaigns.CampaignPayload,
                    k: Campaigns.ContractPayload): Db {
    var row := Campaign(owner, p.slug, p.target, p.reward, Published, Some(now));
    var contract := Contract(1, k.reviewWindowHours, k.minimumDays, k.requiredSessions, k.tasks, true);
    var e := Campaigns.PostingEntry(id, row);
    db.(campaigns := db.campaigns + map[id := row], contracts := db.contracts + map[id := contract],
        accounts := db.accounts + map[owner := Credits.AccountBalance(db.accounts, owner) + e.delta],
        ledger := db.ledger + [e])
  }

  /** A launch is its three steps, one after the other. */
  lemma LaunchChain(db: Db, now: Time, id: Id, owner: Id, p: Campaigns.CampaignPayload, k: Campaigns.ContractPayload)
    requires Campaigns.Launch(db, now, id, owner, p, k).Ok?
    ensures Campaigns.Create(db, id, owner, p).Ok?
    ensures var d1 := Commit(db, Campaigns.Create(db, id, owner, p).value);
            && Campaigns.UpsertContract(d1, id, owner, k).Ok?
            && var d2 := Commit(d1, Campaigns.UpsertContract(d1, id, owner, k).value);
            && Campaigns.Publish(d2, now, id, owner).Ok?
            && Commit(db, Campaigns.Launch(db, now, id, owner, p, k).value) ==
               Commit(d2, Campaigns.Publish(d2, now, id, owner).value)
  {
    var created := Campaigns.Create(db, id, owner, p).value;
    var d1 := Commit(db, created);
    var drafted := Campaigns.UpsertContract(d1, id, owner, k).value;
    CommitThen(db, created, drafted);
    CommitThen(db, Then(created, drafted), Campaigns.Publish(Commit(d1, drafted), now, id, owner).value);
    hide Commit, Then, Campaigns.Create, Campaigns.UpsertContract, Campaigns.Publish;
  }

  function DraftOf(owner: Id, p: Campaigns.CampaignPayload): Campaign {
    Campaign(owner, p.slug, p.target, p.reward, Draft, None)
  }

  function TermsOf(k: Campaigns.ContractPayload): Contract {
    Contract(1, k.reviewWindowHours, k.minimumDays, k.requiredSessions, k.tasks, false)
  }

  /** The database of a launch just before it is published. */
  function Prepared(db: Db, id: Id, owner: Id, p: Campaigns.CampaignPayload, k: Campaigns.ContractPayload): Db {
    db.(campaigns := db.campaigns + map[id := DraftOf(owner, p)], contracts := db.contracts + map[id := TermsOf(k)])
  }

  /** Everything a launch writes. */
  function LaunchRows(now: Time, id: Id, owner: Id, p: Campaigns.CampaignPayload, k: Campaigns.ContractPayload,
                      balance: int)
    : Writes
  {
    var row := DraftOf(owner, p).(status := Published, publishedAt := Some(now));
    var e := Campaigns.PostingEntry(id, row);
    NOTHING.(campaigns := map[id := row], contracts := map[id := TermsOf(k).(locked := true)],
             accounts := map[owner := balance + e.delta], entries := [e])
  }

  lemma Drafted(db: Db, id: Id, owner: Id, p: Campaigns.CampaignPayload, k: Campaigns.ContractPayload)
    requires owner in db.profiles && id !in db.campaigns && id !in db.contracts
    requires !Campaigns.SlugInUse(db.campaigns, p.slug)
    ensures var created := NOTHING.(campaigns := map[id := DraftOf(owner, p)]);
            && Campaigns.Create(db, id, owner, p) == Ok(created)
            && Campaigns.UpsertContract(Commit(db, created), id, owner, k) ==
               Ok(NOTHING.(contracts := map[id := TermsOf(k)]))
  {
    var created := NOTHING.(campaigns := map[id := DraftOf(owner, p)]);
    Untouched(db, created);
    hide Campaigns.SlugInUse;
  }

  lemma BothDrafts(db: Db, id: Id, owner: Id, p: Campaigns.CampaignPayload, k: Campaigns.ContractPayload)
    ensures var both := Then(NOTHING.(campaigns := map[id := DraftOf(owner, p)]),
                             NOTHING.(contracts := map[id := TermsOf(k)]));
            && both == NOTHING.(campaigns := map[id := DraftOf(owner, p)], contracts := map[id := TermsOf(k)])
            && Commit(db, both) == Prepared(db, id, owner, p, k)
  {
    var both := NOTHING.(campaigns := map[id := DraftOf(owner, p)], contracts := map[id := TermsOf(k)]);
    PlusNone(both.campaigns);
    Untouched(db, both);
  }

  lemma PublishedDraft(db: Db, now: Time, id: Id, owner: Id, p: Campaigns.CampaignPayload, k: Campaigns.ContractPayload)
    requires !Credits.HasKey(db.ledger, PostingKey(id))
    ensures var balance := Credits.AccountBalance(db.accounts, owner);
            Campaigns.Publish(Prepared(db, id, owner, p, k), now, id, owner) ==
            if balance >= p.target * p.reward then Ok(LaunchRows(now, id, owner, p, k, balance))
            else Err(InsufficientCredits)
  {
    hide Credits.AccountBalance, Credits.HasKey;
    Positive(p.target, p.reward);
  }

  lemma Positive(target: int, reward: int)
    requires target >= 1 && reward >= 1
    ensures target * reward >= 1
  {
    assert target * reward == target * (reward - 1) + target;
    assert target * (reward - 1) >= 0;
  }

  lemma ThenPublished(now: Time, id: Id, owner: Id, p: Campaigns.CampaignPayload, k: Campaigns.ContractPayload,
                      balance: int)
    ensures var w := LaunchRows(now, id, owner, p, k, balance);
            Then(NOTHING.(campaigns := map[id := DraftOf(owner, p)], contracts := map[id := TermsOf(k)]), w) == w
  {
    var w := LaunchRows(now, id, owner, p, k, balance);
    Overwrite(map[], id, DraftOf(owner, p), w.campaigns[id]);
    Overwrite(map[], id, TermsOf(k), w.contracts[id]);
  }

  /** What a launch under a new id and a free slug comes to. */
  lemma LaunchOutcome(db: Db, now: Time, id: Id, owner: Id, p: Campaigns.CampaignPayload, k: Campaigns.ContractPayload)
    requires owner in db.profiles && id !in db.campaigns && id !in db.contracts
    requires !Campaigns.SlugInUse(db.campaigns, p.slug) && !Credits.HasKey(db.ledger, PostingKey(id))
    ensures var balance := Credits.AccountBalance(db.accounts, owner);
            Campaigns.Launch(db, now, id, owner, p, k) ==
            if balance >= p.target * p.reward then Ok(LaunchRows(now, id, owner, p, k, balance))
            else Err(InsufficientCredits)
  {
    Drafted(db, id, owner, p, k);
    BothDrafts(db, id, owner, p, k);
    PublishedDraft(db, now, id, owner, p, k);
    ThenPublished(now, id, owner, p, k, Credits.AccountBalance(db.accounts, owner));
    hide Commit, Then, Campaigns.Create, Campaigns.UpsertContract, Campaigns.Publish, Campaigns.SlugInUse,
      Credits.HasKey;
    hide Credits.AccountBalance, LaunchRows, Prepared, DraftOf, TermsOf;
  }

  lemma LaunchedRows(db: Db, now: Time, id: Id, owner: Id, p: Campaigns.CampaignPayload, k: Campaigns.ContractPayload)
    ensures Commit(db, LaunchRows(now, id, owner, p, k, Credits.AccountBalance(db.accounts, owner))) ==
            Launched(db, now, id, owner, p, k)
  {
    hide Credits.AccountBalance;
    Untouched(db, LaunchRows(now, id, owner, p, k, Credits.AccountBalance(db.accounts, owner)));
  }

  lemma Launch(db: Db, now: Time, id: Id, owner: Id, p: Campaigns.CampaignPayload, k: Campaigns.ContractPayload)
    requires Campaigns.Launch(db, now, id, owner, p, k).Ok?
    requires id !in db.contracts && !Credits.HasKey(db.ledger, PostingKey(id))
    ensures Commit(db, Campaigns.Launch(db, now, id, owner, p, k).value) == Launched(db, now, id, owner, p, k)
  {
    hide *;
    LaunchChain(db, now, id, owner, p, k);
    Create(db, id, owner, p);
    LaunchOutcome(db, now, id, owner, p, k);
    LaunchedRows(db, now, id, owner, p, k);
  }

  lemma Transition(db: Db, now: Time, c: Id, owner: Id, action: Campaigns.Action)
    requires Campaigns.Transition(db, now, c, owner, action).Ok?
    ensures c in db.campaigns
    ensures var after := Commit(db, Campaigns.Transition(db, now, c, owner, action).value);
            var row := db.campaigns[c];
            match action
            case Pause => row.status == Published &&
              after == db.(campaigns := db.campaigns + map[c := row.(status := Paused)])
            case Resume => row.status == Paused &&
              after == db.(campaigns := db.campaigns + map[c := row.(status := Published)])
            case Close =>
              && (row.status == Published || row.status == Paused)
              && var left := db.assignments + Campaigns.Declined(db.assignments, c, now);
                 after == db.(assignments := left,
                   campaigns := db.campaigns + map[c := Campaigns.MaybeComplete(row.(status := Closed), c, left)])
  {
    Untouched(db, Campaigns.Transition(db, now, c, owner, action).value);
  }

  // ----- applications -----------------------------------------------------------------------

  lemma Apply(db: Db, id: Id, c: Id, tester: Id)
    requires Workflow.Apply(db, id, c, tester).Ok?
    ensures tester in db.profiles && c in db.campaigns && id !in db.assignments
    ensures db.campaigns[c].status == Published && db.campaigns[c].owner != tester
    ensures !Workflow.HasApplied(db.assignments, c, tester)
    ensures Commit(db, Workflow.Apply(db, id, c, tester).value) ==
            db.(assignments := db.assignments + map[id := Assignment(c, tester, Applied, None, None, None, None)])
  {
    Untouched(db, Workflow.Apply(db, id, c, tester).value);
  }

  lemma Accept(db: Db, now: Time, a: Id, owner: Id)
    requires Workflow.Accept(db, now, a, owner).Ok?
    ensures a in db.assignments && db.assignments[a].status == Applied
    ensures var c := db.assignments[a].campaign;
            c in db.campaigns && db.campaigns[c].status == Published &&
              Occupied(db.assignments, c) < db.campaigns[c].target
    ensures Commit(db, Workflow.Accept(db, now, a, owner).value) ==
            db.(assignments := db.assignments +
                map[a := db.assignments[a].(status := Accepted, acceptedAt := Some(now))])
  {
    Untouched(db, Workflow.Accept(db, now, a, owner).value);
  }

  lemma Decline(db: Db, now: Time, a: Id, owner: Id)
    requires Workflow.Decline(db, now, a, owner).Ok?
    ensures a in db.assignments && db.assignments[a].status == Applied && db.assignments[a].campaign in db.campaigns
    ensures Commit(db, Workflow.Decline(db, now, a, owner).value) ==
            db.(assignments := db.assignments +
                map[a := db.assignments[a].(status := Cancelled, completedAt := Some(now))])
  {
    Untouched(db, Workflow.Decline(db, now, a, owner).value);
  }

  lemma Withdraw(db: Db, now: Time, a: Id, tester: Id)
    requires Workflow.Withdraw(db, now, a, tester).Ok?
    ensures a in db.assignments && db.assignments[a].campaign in db.campaigns
    ensures var s := db.assignments[a].status; s.Applied? || s.Accepted? || s.InProgress? || s.ChangesRequested?
    ensures var row := db.assignments[a].(status := Cancelled, completedAt := Some(now));
            var left := db.assignments + map[a := row];
            Commit(db, Workflow.Withdraw(db, now, a, tester).value) ==
            db.(assignments := left, campaigns := db.campaigns + map[row.campaign :=
                  Campaigns.MaybeComplete(db.campaigns[row.campaign], row.campaign, left)])
  {
    Untouched(db, Workflow.Withdraw(db, now, a, tester).value);
  }

  // ----- testing ----------------------------------------------------------------------------

  lemma Start(db: Db, now: Time, a: Id, tester: Id)
    requires Workflow.Start(db, now, a, tester).Ok?
    ensures a in db.assignments && db.assignments[a].status == Accepted
    ensures Commit(db, Workflow.Start(db, now, a, tester).value) ==
            db.(assignments := db.assignments +
                map[a := db.assignments[a].(status := InProgress, startedAt := Some(now))],
                sessions := db.sessions + {Session(a, DayOf(now))})
  {
    Untouched(db, Workflow.Start(db, now, a, tester).value);
  }

  lemma RecordSession(db: Db, now: Time, a: Id, tester: Id)
    requires Workflow.RecordSession(db, now, a, tester).Ok?
    ensures a in db.assignments
    ensures (db.assignments[a].status == InProgress || db.assignments[a].status == ChangesRequested)
    ensures Commit(db, Workflow.RecordSession(db, now, a, tester).value) ==
            db.(sessions := db.sessions + {Session(a, DayOf(now))})
  {
    Untouched(db, Workflow.RecordSession(db, now, a, tester).value);
  }

  lemma Submit(db: Db, now: Time, id: Id, a: Id, tester: Id, e: Workflow.EvidencePayload)
    requires Workflow.Submit(db, now, id, a, tester, e).Ok?
    ensures a in db.assignments && id !in db.submissions
    ensures db.assignments[a].status == InProgress || db.assignments[a].status == ChangesRequested
    ensures db.assignments[a].campaign in db.contracts && db.assignments[a].startedAt.Some?
    ensures var k := db.contracts[db.assignments[a].campaign];
            && now >= db.assignments[a].startedAt.value + k.minimumDays * DAY
            && |Workflow.SessionDays(db.sessions, a)| >= k.requiredSessions
            && Workflow.RequiredTaskIds(k.tasks) <= Workflow.CoveredTaskIds(e.items) <= Workflow.TaskIds(k.tasks)
    ensures Workflow.CheckItems(StorageKeys.FolderName(a), e.items).Ok?
    ensures var version := Workflow.LatestVersion(db.submissions, a) + 1;
            Commit(db, Workflow.Submit(db, now, id, a, tester, e).value) ==
            db.(submissions := db.submissions +
                map[id := Submission(a, version, e.specificSummary, e.items, Pending, now)],
                assignments := db.assignments +
                  map[a := db.assignments[a].(status := Submitted, submittedAt := Some(now))])
  {
    hide Commit, Workflow.CheckItems, Workflow.SessionDays, Workflow.LatestVersion, Workflow.CoveredTaskIds;
    hide Workflow.TaskIds, Workflow.RequiredTaskIds, StorageKeys.FolderName;
    WorkRows(db, Workflow.Submit(db, now, id, a, tester, e).value);
    PlusNone(db.campaigns);
    PlusNone(db.reviews);
    PlusNone(db.disputes);
    PlusNone(db.accounts);
    PlusNil(db.ledger);
  }

  // ----- decisions --------------------------------------------------------------------------

  /** The database after a submission passed and its tester was paid. */
  function AfterApproval(db: Db, now: Time, id: Id, s: Submission, a: Id, row: Assignment, c: Campaign): Db {
    var paid := db.assignments + map[a := row.(status := Approved, completedAt := Some(now))];
    db.(submissions := db.submissions + map[id := s.(status := Passed)],
        assignments := paid,
        campaigns := db.campaigns + map[row.campaign := Campaigns.MaybeComplete(c, row.campaign, paid)],
        accounts := db.accounts + map[row.tester := Credits.AccountBalance(db.accounts, row.tester) + c.reward],
        ledger := db.ledger + [Credits.RewardEntry(a, row.tester, c.reward)])
  }

  lemma Approval(db: Db, now: Time, id: Id, s: Submission, a: Id, row: Assignment, c: Campaign)
    requires Workflow.Approval(db, now, id, s, a, row, c).Ok? && !Credits.HasKey(db.ledger, RewardKey(a))
    ensures Credits.AccountBalance(db.accounts, row.tester) + c.reward >= 0
    ensures Commit(db, Workflow.Approval(db, now, id, s, a, row, c).value) == AfterApproval(db, now, id, s, a, row, c)
    ensures Workflow.Approval(db, now, id, s, a, row, c).value.reviews == map[]
    ensures Workflow.Approval(db, now, id, s, a, row, c).value.disputes == map[]
  {
    hide Commit, Credits.Record, Credits.HasKey, Credits.AccountBalance, Campaigns.MaybeComplete;
    Record(db, Credits.RewardEntry(a, row.tester, c.reward));
    WorkRows(db, Workflow.Approval(db, now, id, s, a, row, c).value);
    PlusNone(db.reviews);
    PlusNone(db.disputes);
  }

  /** What a review of submission `id` found. */
  predicate Examinable(db: Db, id: Id) {
    && id in db.submissions && db.submissions[id].status == Pending && id !in db.reviews
    && var a := db.submissions[id].assignment;
    && a in db.assignments && db.assignments[a].status == Submitted
    && db.assignments[a].campaign in db.campaigns
    && !Workflow.HasActiveDispute(db.disputes, a)
  }

  lemma Examine(db: Db, now: Time, id: Id, reviewer: Id, decision: Decision)
    requires Workflow.Examine(db, now, id, reviewer, decision).Ok?
    ensures Examinable(db, id)
    ensures var s := db.submissions[id];
            var a := db.assignments[s.assignment];
            var after := Commit(db, Workflow.Examine(db, now, id, reviewer, decision).value);
            var seen := db.(reviews := db.reviews + map[id := Review(reviewer, decision)]);
            match decision
            case Approve => !Credits.HasKey(db.ledger, RewardKey(s.assignment)) ==>
              after == AfterApproval(db, now, id, s, s.assignment, a,
                                     db.campaigns[a.campaign]).(reviews := seen.reviews)
            case RequestChanges =>
              after == seen.(submissions := db.submissions + map[id := s.(status := ToChange)],
                             assignments := db.assignments + map[s.assignment := a.(status := ChangesRequested)])
            case Reject =>
              after == seen.(submissions := db.submissions + map[id := s.(status := Refused)],
                             assignments := db.assignments + map[s.assignment := a.(status := Rejected)])
  {
    hide Commit, Workflow.Approval, Workflow.HasActiveDispute, Credits.HasKey, AfterApproval;
    var s := db.submissions[id];
    var a := db.assignments[s.assignment];
    if decision == Approve {
      if !Credits.HasKey(db.ledger, RewardKey(s.assignment)) {
        ApprovalReviewed(db, now, id, s, s.assignment, a, db.campaigns[a.campaign],
                         map[id := Review(reviewer, decision)]);
      }
    } else {
      WorkRows(db, Workflow.Examine(db, now, id, reviewer, decision).value);
      PlusNone(db.campaigns);
      PlusNone(db.disputes);
      PlusNone(db.accounts);
      PlusNil(db.ledger);
    }
  }

  /** An approval that also leaves a review. */
  lemma ApprovalReviewed(db: Db, now: Time, id: Id, s: Submission, a: Id, row: Assignment, c: Campaign,
                         reviews: map<Id, Review>)
    requires Workflow.Approval(db, now, id, s, a, row, c).Ok? && !Credits.HasKey(db.ledger, RewardKey(a))
    ensures Commit(db, Workflow.Approval(db, now, id, s, a, row, c).value.(reviews := reviews)) ==
            AfterApproval(db, now, id, s, a, row, c).(reviews := db.reviews + reviews)
  {
    hide Workflow.Approval, AfterApproval;
    Approval(db, now, id, s, a, row, c);
  }

  /** An approval that also closes a dispute. */
  lemma ApprovalRuled(db: Db, now: Time, id: Id, s: Submission, a: Id, row: Assignment, c: Campaign,
                      disputes: map<Id, Dispute>)
    requires Workflow.Approval(db, now, id, s, a, row, c).Ok? && !Credits.HasKey(db.ledger, RewardKey(a))
    ensures Commit(db, Workflow.Approval(db, now, id, s, a, row, c).value.(disputes := disputes)) ==
            AfterApproval(db, now, id, s, a, row, c).(disputes := db.disputes + disputes)
  {
    hide Workflow.Approval, AfterApproval;
    Approval(db, now, id, s, a, row, c);
  }

  lemma Escalate(db: Db, now: Time, id: Id, a: Id, user: Id, submission: Option<Id>)
    requires Workflow.Escalate(db, now, id, a, user, submission).Ok?
    ensures a in db.assignments && db.assignments[a].tester == user && id !in db.disputes
    ensures submission.Some? && submission.value in db.submissions && db.submissions[submission.value].assignment == a
    ensures var status, s := db.assignments[a].status, db.submissions[submission.value].status;
            (status == Submitted && s == Pending) || (status == Rejected && s == Refused)
    ensures !Workflow.HasDispute(db.disputes, a)
    ensures Commit(db, Workflow.Escalate(db, now, id, a, user, submission).value) ==
            db.(disputes := db.disputes + map[id := Dispute(a, submission, user, Open, None, None, None)])
  {
    Untouched(db, Workflow.Escalate(db, now, id, a, user, submission).value);
  }

  lemma Claim(db: Db, id: Id, moderator: Id)
    requires Moderation.Claim(db, id, moderator).Ok?
    ensures id in db.disputes
    ensures var after := Commit(db, Moderation.Claim(db, id, moderator).value);
            var d := db.disputes[id];
            if d.status == UnderReview then after == db
            else
              && d.status == Open
              && after == db.(disputes := db.disputes +
                              map[id := d.(status := UnderReview, assignedTo := Some(moderator))])
  {
    Untouched(db, Moderation.Claim(db, id, moderator).value);
  }

  function Ruled(d: Dispute, moderator: Id, r: Moderation.Ruling): Dispute {
    d.(status := if r.outcome == Moderation.Settle then DisputeStatus.Resolved else Dismissed,
       remedy := Some(r.remedy), resolvedBy := Some(moderator))
  }

  lemma Resolve(db: Db, now: Time, id: Id, moderator: Id, r: Moderation.Ruling)
    requires Moderation.Resolve(db, now, id, moderator, r).Ok?
    ensures id in db.disputes && db.disputes[id].status == UnderReview && db.disputes[id].assignment in db.assignments
    ensures db.disputes[id].assignedTo == Some(moderator)
    ensures var d := db.disputes[id];
            var a := db.assignments[d.assignment];
            var after := Commit(db, Moderation.Resolve(db, now, id, moderator, r).value);
            var closed := db.(disputes := db.disputes + map[id := Ruled(d, moderator, r)]);
            if r.remedy == AwardTester then
              && (a.status == Rejected || a.status == Submitted)
              && Moderation.Disputed(db, d).Ok? && a.campaign in db.campaigns
              && var s := d.submission.value;
                 (!Credits.HasKey(db.ledger, RewardKey(d.assignment)) ==>
                    after == AfterApproval(db, now, s, db.submissions[s], d.assignment, a, db.campaigns[a.campaign]).(
                               disputes := closed.disputes))
            else if a.status == Submitted then
              && Moderation.Disputed(db, d).Ok?
              && var s := d.submission.value;
                 after == closed.(submissions := db.submissions + map[s := db.submissions[s].(status := Refused)],
                   assignments := db.assignments +
                     map[d.assignment := a.(status := Rejected, completedAt := Some(now))])
            else after == closed
  {
    hide Commit, Workflow.Approval, Credits.HasKey, AfterApproval;
    var d := db.disputes[id];
    var a := db.assignments[d.assignment];
    if r.remedy == AwardTester {
      if !Credits.HasKey(db.ledger, RewardKey(d.assignment)) {
        var s := d.submission.value;
        ApprovalRuled(db, now, s, db.submissions[s], d.assignment, a, db.campaigns[a.campaign],
                      map[id := Ruled(d, moderator, r)]);
      }
    } else {
      WorkRows(db, Moderation.Resolve(db, now, id, moderator, r).value);
      PlusNone(db.campaigns);
      PlusNone(db.assignments);
      PlusNone(db.submissions);
      PlusNone(db.reviews);
      PlusNone(db.accounts);
      PlusNil(db.ledger);
    }
  }
}
