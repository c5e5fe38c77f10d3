/** The tables of the exchange, the rows in them, and what one request writes. */
module Model {
  import opened Results

  /** A UUID as the 128-bit number it is. */
  newtype Id = i: int | 0 <= i < 0x1_0000_0000_0000_0000_0000_0000_0000_0000

  /** Instants are whole microseconds since the epoch, in UTC. */
  type Time = int

  const HOUR: int := 3_600_000_000
  const DAY: int := 86_400_000_000

  /** The calendar day of an instant. */
  function DayOf(t: Time): int {
    t / DAY
  }

  datatype CampaignStatus = Draft | Published | Paused | Completed | Closed

  datatype Campaign = Campaign(
    owner: Id, slug: string, target: int, reward: int, status: CampaignStatus, publishedAt: Option<Time>)

  datatype Task = Task(id: Id, evidenceRequired: bool)

  /** A campaign has at most one contract, so contracts are keyed by campaign. */
  datatype Contract = Contract(
    version: int, reviewWindowHours: int, minimumDays: int, requiredSessions: int,
    tasks: seq<Task>, locked: bool)

  datatype AssignmentStatus =
    Applied | Accepted | InProgress | Submitted | ChangesRequested | Approved | Rejected | Cancelled

  datatype Assignment = Assignment(
    campaign: Id, tester: Id, status: AssignmentStatus,
    acceptedAt: Option<Time>, startedAt: Option<Time>, submittedAt: Option<Time>,
    completedAt: Option<Time>)

  const OCCUPIED: set<AssignmentStatus> := {Accepted, InProgress, Submitted, ChangesRequested, Approved}
  const ACTIVE: set<AssignmentStatus> := {Accepted, InProgress, Submitted, ChangesRequested}

  /** One row per assignment and day: the pair is unique. */
  datatype Session = Session(assignment: Id, day: int)

  datatype SubmissionStatus = Pending | ToChange | Passed | Refused

  /** `note` is present with the flag saying whether it holds a concrete observation. */
  datatype Item = Item(task: Option<Id>, storageKey: Option<string>, hasUrl: bool, note: Option<bool>) {
    predicate HasContent() {
      storageKey.Some? || hasUrl || note.Some?
    }
  }

  datatype Submission = Submission(
    assignment: Id, version: int, specificSummary: bool, items: seq<Item>,
    status: SubmissionStatus, submittedAt: Time)

  datatype Decision = Approve | RequestChanges | Reject

  /** A submission has at most one review, so reviews are keyed by submission. */
  datatype Review = Review(reviewer: Id, decision: Decision)

  datatype DisputeStatus = Open | UnderReview | Resolved | Dismissed
  datatype Remedy = NoRemedy | AwardTester

  datatype Dispute = Dispute(
    assignment: Id, submission: Option<Id>, openedBy: Id, status: DisputeStatus,
    assignedTo: Option<Id>, remedy: Option<Remedy>, resolvedBy: Option<Id>)
  {
    predicate IsActive() {
      status == Open || status == UnderReview
    }
  }

  datatype EntryKind = SignupGrant | Posting | Reward

  /** The idempotency keys `profile:<id>:signup-grant`, `campaign:<id>:posting` and
      `assignment:<id>:reward`. */
  datatype EntryKey = SignupKey(user: Id) | PostingKey(campaign: Id) | RewardKey(assignment: Id)

  datatype Entry = Entry(user: Id, delta: int, kind: EntryKind, key: EntryKey)

  /** The committed database. `seats` is the singleton counter row, when it exists. */
  datatype Db = Db(
    profiles: map<Id, string>,
    seats: Option<int>,
    campaigns: map<Id, Campaign>,
    contracts: map<Id, Contract>,
    assignments: map<Id, Assignment>,
    sessions: set<Session>,
    submissions: map<Id, Submission>,
    reviews: map<Id, Review>,
    disputes: map<Id, Dispute>,
    accounts: map<Id, int>,
    ledger: seq<Entry>)

  const EMPTY: Db := Db(map[], None, map[], map[], map[], {}, map[], map[], map[], map[], [])

  /** The rows one request inserts or overwrites. */
  datatype Writes = Writes(
    profiles: map<Id, string>,
    seats: Option<int>,
    campaigns: map<Id, Campaign>,
    contracts: map<Id, Contract>,
    assignments: map<Id, Assignment>,
    sessions: set<Session>,
    submissions: map<Id, Submission>,
    reviews: map<Id, Review>,
    disputes: map<Id, Dispute>,
    accounts: map<Id, int>,
    entries: seq<Entry>)

  const NOTHING: Writes := Writes(map[], None, map[], map[], map[], {}, map[], map[], map[], map[], [])

  /** The database after the rows of `w` are written. */
  function Commit(db: Db, w: Writes): Db {
    Db(db.profiles + w.profiles,
       if w.seats.Some? then w.seats else db.seats,
       db.campaigns + w.campaigns,
       db.contracts + w.contracts,
       db.assignments + w.assignments,
       db.sessions + w.sessions,
       db.submissions + w.submissions,
       db.reviews + w.reviews,
       db.disputes + w.disputes,
       db.accounts + w.accounts,
       db.ledger + w.entries)
  }

  /** The rows of `first`, overwritten by the rows of `second`. */
  function Then(first: Writes, second: Writes): Writes {
    Writes(first.profiles + second.profiles,
           if second.seats.Some? then second.seats else first.seats,
           first.campaigns + second.campaigns,
           first.contracts + second.contracts,
           first.assignments + second.assignments,
           first.sessions + second.sessions,
           first.submissions + second.submissions,
           first.reviews + second.reviews,
           first.disputes + second.disputes,
           first.accounts + second.accounts,
           first.entries + second.entries)
  }

  lemma PlusPlus<K, V>(m: map<K, V>, a: map<K, V>, b: map<K, V>)
    ensures m + (a + b) == (m + a) + b
  {
  }

  lemma PlusNone<K, V>(m: map<K, V>)
    ensures m + map[] == m
  {
  }

  /** Writing one row. */
  lemma PlusOne<V>(m: map<Id, V>, k: Id, v: V)
    ensures m[k := v] == m + map[k := v]
  {
  }

  /** The second write of a row wins. */
  lemma Overwrite<V>(m: map<Id, V>, k: Id, v: V, w: V)
    ensures (m + map[k := v]) + map[k := w] == m + map[k := w]
  {
  }

  lemma CommitThen(db: Db, first: Writes, second: Writes)
    ensures Commit(db, Then(first, second)) == Commit(Commit(db, first), second)
  {
    PlusPlus(db.profiles, first.profiles, second.profiles);
    PlusPlus(db.campaigns, first.campaigns, second.campaigns);
    PlusPlus(db.contracts, first.contracts, second.contracts);
    PlusPlus(db.assignments, first.assignments, second.assignments);
    PlusPlus(db.submissions, first.submissions, second.submissions);
    PlusPlus(db.reviews, first.reviews, second.reviews);
    PlusPlus(db.disputes, first.disputes, second.disputes);
    PlusPlus(db.accounts, first.accounts, second.accounts);
    assert db.sessions + (first.sessions + second.sessions) == (db.sessions + first.sessions) + second.sessions;
    assert db.ledger + (first.entries + second.entries) == (db.ledger + first.entries) + second.entries;
  }

  /** Committing adds the rows of each table to that table. */
  lemma CommitTables(db: Db, w: Writes)
    ensures var after := Commit(db, w);
            && after.profiles == db.profiles + w.profiles
            && after.campaigns == db.campaigns + w.campaigns
            && after.contracts == db.contracts + w.contracts
            && after.assignments == db.assignments + w.assignments
            && after.sessions == db.sessions + w.sessions
            && after.submissions == db.submissions + w.submissions
            && after.reviews == db.reviews + w.reviews
            && after.disputes == db.disputes + w.disputes
            && after.accounts == db.accounts + w.accounts
            && after.ledger == db.ledger + w.entries
  {
  }

  /** A table without written rows stays as it was. */
  lemma Untouched(db: Db, w: Writes)
    ensures w.profiles == map[] ==> Commit(db, w).profiles == db.profiles
    ensures w.campaigns == map[] ==> Commit(db, w).campaigns == db.campaigns
    ensures w.contracts == map[] ==> Commit(db, w).contracts == db.contracts
    ensures w.assignments == map[] ==> Commit(db, w).assignments == db.assignments
    ensures w.sessions == {} ==> Commit(db, w).sessions == db.sessions
    ensures w.submissions == map[] ==> Commit(db, w).submissions == db.submissions
    ensures w.reviews == map[] ==> Commit(db, w).reviews == db.reviews
    ensures w.disputes == map[] ==> Commit(db, w).disputes == db.disputes
    ensures w.accounts == map[] ==> Commit(db, w).accounts == db.accounts
    ensures w.entries == [] ==> Commit(db, w).ledger == db.ledger
  {
    hide Commit;
    CommitTables(db, w);
    PlusNone(db.profiles);
    PlusNone(db.campaigns);
    PlusNone(db.contracts);
    PlusNone(db.assignments);
    PlusNone(db.submissions);
    PlusNone(db.reviews);
    PlusNone(db.disputes);
    PlusNone(db.accounts);
    PlusEmpty(db.sessions);
    PlusNil(db.ledger);
  }

  lemma NothingChanges(db: Db)
    ensures Commit(db, NOTHING) == db
  {
    Untouched(db, NOTHING);
  }

  lemma PlusEmpty<T>(s: set<T>)
    ensures s + {} == s
  {
  }

  lemma PlusNil<T>(s: seq<T>)
    ensures s + [] == s
  {
  }

  /** The assignments of a campaign whose status is one of `statuses`. */
  function WithStatus(assignments: map<Id, Assignment>, campaign: Id, statuses: set<AssignmentStatus>): set<Id> {
    set a | a in assignments && assignments[a].campaign == campaign && assignments[a].status in statuses
  }

  function Occupied(assignments: map<Id, Assignment>, campaign: Id): int {
    |WithStatus(assignments, campaign, OCCUPIED)|
  }

  /** The assignments of a campaign that were accepted at some time. */
  function EverAccepted(assignments: map<Id, Assignment>, campaign: Id): set<Id> {
    set a | a in assignments && assignments[a].campaign == campaign && assignments[a].acceptedAt.Some?
  }

  function SubmissionsOf(submissions: map<Id, Submission>, assignment: Id): set<Id> {
    set s | s in submissions && submissions[s].assignment == assignment
  }
}
