/** Who gets in, and what a launch needs. */
module Admission {
  import opened Model
  import opened Results
  import opened Invariants
  import opened Histories
  import Agreement
  import Campaigns
  import Credits
  import Preservation
  import Profiles
  import Success

  lemma SeatsHold(cfg: Config, db: Db, t: Time)
    requires Reachable(cfg, db, t)
    ensures Seated(cfg, db.profiles, db.seats)
    ensures Drafted(db.profiles, db.campaigns, db.contracts)
    ensures Ledgered(cfg.signupGrant, db.profiles, db.campaigns, db.assignments, db.ledger)
    ensures Balanced(db.profiles, db.accounts, db.ledger)
  {
    hide *;
    ReachableHolds(cfg, db, t);
    Preservation.Parts(cfg, db, t);
  }

  /** The seat counter and the count it falls back on agree: both are the number of profiles, which
      never exceeds the cap. */
  lemma SeatsAreProfiles(cfg: Config, db: Db, t: Time, enabled: bool)
    requires Reachable(cfg, db, t)
    ensures Profiles.ClaimedSeats(db) == Profiles.ClaimedSeats(db.(seats := None)) == |db.profiles| <= cfg.maxUsers
    ensures Profiles.BetaStatus(db, cfg, enabled) ==
            (|db.profiles|, if enabled then cfg.maxUsers - |db.profiles| else 0,
             !enabled || |db.profiles| == cfg.maxUsers)
  {
    hide Reachable, Drafted, Ledgered, Balanced;
    SeatsHold(cfg, db, t);
  }

  /** A newcomer is let in exactly when the name is free, the beta is open and a seat is left; the
      grant never stands in the way. */
  lemma NewcomersGetIn(cfg: Config, db: Db, t: Time, user: Id, username: string, enabled: bool)
    requires Reachable(cfg, db, t) && user !in db.profiles
    ensures Profiles.Upsert(db, cfg, user, username, enabled).Ok? <==>
              username !in db.profiles.Values && enabled && |db.profiles| < cfg.maxUsers
  {
    hide *;
    ReachableHolds(cfg, db, t);
    SeatsAreProfiles(cfg, db, t, enabled);
    FreeName(db.profiles, username, user);
    if username in db.profiles.Values {
      NameTaken(cfg, db, user, username, enabled);
    } else {
      Agreement.Unposted(cfg, db, t);
      Success.Newcomer(db, cfg, user, username, enabled);
    }
  }

  lemma FreeName(profiles: map<Id, string>, username: string, user: Id)
    requires user !in profiles
    ensures Profiles.UsernameTakenBy(profiles, username, user) <==> username in profiles.Values
  {
  }

  lemma NameTaken(cfg: Config, db: Db, user: Id, username: string, enabled: bool)
    requires Profiles.UsernameTakenBy(db.profiles, username, user)
    ensures Profiles.Upsert(db, cfg, user, username, enabled).Err?
  {
    hide Profiles.Grant, Commit, Then, Profiles.UsernameTakenBy;
  }

  /** A launch under a new id and a free slug succeeds exactly when the owner can pay for it. */
  lemma LaunchNeedsFunds(cfg: Config, db: Db, t: Time, now: Time, id: Id, owner: Id, p: Campaigns.CampaignPayload,
                         k: Campaigns.ContractPayload)
    requires Reachable(cfg, db, t) && owner in db.profiles && id !in db.campaigns
    requires forall c :: c in db.campaigns ==> db.campaigns[c].slug != p.slug
    ensures owner in db.accounts
    ensures Campaigns.Launch(db, now, id, owner, p, k).Ok? <==> db.accounts[owner] >= p.target * p.reward
    ensures Campaigns.Launch(db, now, id, owner, p, k).Err? ==>
              Campaigns.Launch(db, now, id, owner, p, k) == Err(InsufficientCredits)
  {
    hide *;
    ReachableHolds(cfg, db, t);
    Agreement.Unposted(cfg, db, t);
    SeatsHold(cfg, db, t);
    HasAccount(db.profiles, db.accounts, db.ledger, owner);
    NotInUse(db.campaigns, p.slug);
    Success.LaunchOutcome(db, now, id, owner, p, k);
  }

  lemma NotInUse(campaigns: map<Id, Campaign>, slug: string)
    requires forall c :: c in campaigns ==> campaigns[c].slug != slug
    ensures !Campaigns.SlugInUse(campaigns, slug)
  {
  }

  lemma HasAccount(profiles: map<Id, string>, accounts: map<Id, int>, ledger: seq<Entry>, u: Id)
    requires Balanced(profiles, accounts, ledger) && u in profiles
    ensures accounts.Keys == profiles.Keys && u in accounts && Credits.AccountBalance(accounts, u) == accounts[u]
  {
    assert u in profiles.Keys;
  }
}
