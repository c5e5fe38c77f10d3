/** Campaigns and their contracts: drafting, publishing, pausing, closing, completing. */
module Campaigns {
  import opened Results
  import opened Model
  import Credits

  datatype CampaignFields = CampaignFields(slug: string, target: int, reward: int)

  /** A create request that passed schema validation. */
  type CampaignPayload = p: CampaignFields | 1 <= p.target <= 100 && 1 <= p.reward <= 1000
    witness CampaignFields("beta", 1, 1)

  /** An update request: a field that was not sent is `None`. */
  datatype CampaignChange = CampaignChange(target: Option<int>, reward: Option<int>)

  type CampaignUpdate = u: CampaignChange |
    (u.target.Some? ==> 1 <= u.target.value <= 100) && (u.reward.Some? ==> 1 <= u.reward.value <= 1000)
    witness CampaignChange(None, None)

  /** `tasks` carries the identifiers drawn for the rows that will be inserted. */
  datatype ContractFields = ContractFields(
    reviewWindowHours: int, minimumDays: int, requiredSessions: int, tasks: seq<Task>)

  type ContractPayload = p: ContractFields |
    && 1 <= p.reviewWindowHours <= 720 && 0 <= p.minimumDays <= 90
    && 1 <= p.requiredSessions <= 30 && 1 <= |p.tasks| <= 25
    witness ContractFields(72, 0, 1, [Task(0, true)])

  datatype Action = Pause | Resume | Close

  function OwnCampaign(db: Db, campaign: Id, owner: Id): Result<Campaign> {
    var _ :- Need(campaign in db.campaigns, CampaignNotFound);
    var _ :- Need(db.campaigns[campaign].owner == owner, NotCampaignOwner);
    Ok(db.campaigns[campaign])
  }

  predicate SlugInUse(campaigns: map<Id, Campaign>, slug: string) {
    exists c | c in campaigns :: campaigns[c].slug == slug
  }

  function Create(db: Db, id: Id, owner: Id, p: CampaignPayload): Result<Writes> {
    var _ :- Need(owner in db.profiles, ProfileRequired);
    var _ :- Need(!SlugInUse(db.campaigns, p.slug), SlugTaken);
    var _ :- Need(id !in db.campaigns, IntegrityViolation);
    Ok(NOTHING.(campaigns := map[id := Campaign(owner, p.slug, p.target, p.reward, Draft, None)]))
  }

  function Update(db: Db, campaign: Id, owner: Id, u: CampaignUpdate): Result<Writes> {
    var c :- OwnCampaign(db, campaign, owner);
    var _ :- Need(c.status == Draft, CampaignLocked);
    Ok(NOTHING.(campaigns := map[campaign := Changed(c, u)]))
  }

  function Changed(c: Campaign, u: CampaignChange): Campaign {
    c.(target := if u.target.Some? then u.target.value else c.target,
       reward := if u.reward.Some? then u.reward.value else c.reward)
  }

  function UpsertContract(db: Db, campaign: Id, owner: Id, p: ContractPayload): Result<Writes> {
    var c :- OwnCampaign(db, campaign, owner);
    var _ :- Need(c.status == Draft, CampaignLocked);
    var _ :- Need(campaign in db.contracts ==> !db.contracts[campaign].locked, ContractLocked);
    Ok(NOTHING.(contracts := map[campaign := Revised(db, campaign, p)]))
  }

  /** The next version of a campaign's contract. */
  function Revised(db: Db, campaign: Id, p: ContractPayload): Contract {
    var version := if campaign in db.contracts then db.contracts[campaign].version + 1 else 1;
    Contract(version, p.reviewWindowHours, p.minimumDays, p.requiredSessions, p.tasks, false)
  }

  function PostingEntry(campaign: Id, c: Campaign): Entry {
    Entry(c.owner, -(c.target * c.reward), Posting, PostingKey(campaign))
  }

  function Publish(db: Db, now: Time, campaign: Id, owner: Id): Result<Writes> {
    var c :- OwnCampaign(db, campaign, owner);
    if c.status == Published then Ok(NOTHING)
    else
      var _ :- Need(c.status == Draft, NotDraft);
      var _ :- Need(campaign in db.contracts, ContractNotFound);
      var contract := db.contracts[campaign];
      var _ :- Need(contract.tasks != [], NoTasks);
      var spent :- Credits.Record(db, PostingEntry(campaign, c));
      Ok(spent.(campaigns := map[campaign := c.(status := Published, publishedAt := Some(now))],
                contracts := map[campaign := contract.(locked := true)]))
  }

  /** Create, lock, fund and publish in one transaction. */
  function Launch(db: Db, now: Time, id: Id, owner: Id, p: CampaignPayload, k: ContractPayload): Result<Writes> {
    var created :- Create(db, id, owner, p);
    var drafted :- UpsertContract(Commit(db, created), id, owner, k);
    var both := Then(created, drafted);
    var published :- Publish(Commit(db, both), now, id, owner);
    Ok(Then(both, published))
  }

  /** A campaign ends when its target is approved, or when it is closed, some tester had been
      accepted and no accepted work is still going on. */
  predicate Finished(c: Campaign, campaign: Id, assignments: map<Id, Assignment>) {
    || ((c.status == Published || c.status == Paused) &&
        |WithStatus(assignments, campaign, {Approved})| >= c.target)
    || (c.status == Closed &&
        |WithStatus(assignments, campaign, ACTIVE)| == 0 && |EverAccepted(assignments, campaign)| > 0)
  }

  function MaybeComplete(c: Campaign, campaign: Id, assignments: map<Id, Assignment>): Campaign {
    if Finished(c, campaign, assignments) then c.(status := Completed) else c
  }

  /** The pending applications of a campaign, declined. */
  function Declined(assignments: map<Id, Assignment>, campaign: Id, now: Time): map<Id, Assignment> {
    map a | a in WithStatus(assignments, campaign, {Applied}) ::
      assignments[a].(status := Cancelled, completedAt := Some(now))
  }

  function Transition(db: Db, now: Time, campaign: Id, owner: Id, action: Action): Result<Writes> {
    var c :- OwnCampaign(db, campaign, owner);
    match action
    case Pause =>
      var _ :- Need(c.status == Published, NotPublished);
      Ok(NOTHING.(campaigns := map[campaign := c.(status := Paused)]))
    case Resume =>
      var _ :- Need(c.status == Paused, NotPaused);
      var _ :- Need(Occupied(db.assignments, campaign) < c.target, CampaignFull);
      Ok(NOTHING.(campaigns := map[campaign := c.(status := Published)]))
    case Close =>
      var _ :- Need(c.status == Published || c.status == Paused, NotOpen);
      var declined := Declined(db.assignments, campaign, now);
      var closed := MaybeComplete(c.(status := Closed), campaign, db.assignments + declined);
      Ok(NOTHING.(campaigns := map[campaign := closed], assignments := declined))
  }
}
