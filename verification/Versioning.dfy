/** The submissions of an assignment, in every reachable database. */
module Versioning {
  import opened Model
  import opened Results
  import opened Invariants
  import opened Histories
  import Preservation
  import Sets
  import StorageKeys
  import Workflow

  // ----- counting ---------------------------------------------------------------------------

  function Numbers(n: nat): (s: set<int>)
    ensures |s| == n
    ensures forall v :: v in s <==> 1 <= v <= n
  {
    if n == 0 then {} else Numbers(n - 1) + {n}
  }

  lemma FullSubset(a: set<int>, b: set<int>)
    requires a <= b && |a| == |b|
    ensures a == b
  {
    assert b == a + (b - a);
    assert |b - a| == 0;
  }

  function VersionsIn(submissions: map<Id, Submission>, ids: set<Id>): set<int> {
    set s | s in ids && s in submissions :: submissions[s].version
  }

  /** Different submissions with different versions: as many versions as submissions. */
  lemma {:induction false} AsManyVersions(submissions: map<Id, Submission>, ids: set<Id>)
    requires forall s :: s in ids ==> s in submissions
    requires forall s, t :: s in ids && t in ids && s != t ==> submissions[s].version != submissions[t].version
    ensures |VersionsIn(submissions, ids)| == |ids|
  {
    if |ids| == 0 {
      assert VersionsIn(submissions, ids) == {};
    } else {
      var s := Sets.Pick(ids);
      AsManyVersions(submissions, ids - {s});
      assert submissions[s].version !in VersionsIn(submissions, ids - {s});
      assert VersionsIn(submissions, ids) == VersionsIn(submissions, ids - {s}) + {submissions[s].version};
    }
  }

  lemma Consecutive(assignments: map<Id, Assignment>, submissions: map<Id, Submission>, a: Id)
    requires History(assignments, submissions)
    ensures Workflow.Versions(submissions, a) == Numbers(|SubmissionsOf(submissions, a)|)
    ensures Workflow.LatestVersion(submissions, a) == |SubmissionsOf(submissions, a)|
  {
    var ids := SubmissionsOf(submissions, a);
    AsManyVersions(submissions, ids);
    var versions := Workflow.Versions(submissions, a);
    assert versions == VersionsIn(submissions, ids);
    FullSubset(versions, Numbers(|ids|));
    var top := Workflow.LatestVersion(submissions, a);
    assert |ids| > 0 ==> |ids| in versions;
  }

  lemma HistoryHolds(cfg: Config, db: Db, t: Time)
    requires Reachable(cfg, db, t)
    ensures History(db.assignments, db.submissions)
    ensures Reviewed(db.submissions, db.reviews)
    ensures Disputes(db.assignments, db.submissions, db.reviews, db.disputes)
    ensures Clocked(db.contracts, db.assignments, db.sessions, db.submissions, t)
    ensures Evidenced(db.contracts, db.assignments, db.submissions)
  {
    ReachableHolds(cfg, db, t);
    hide *;
    Preservation.Parts(cfg, db, t);
  }

  // ----- versions and statuses --------------------------------------------------------------

  /** The n submissions of an assignment are numbered 1 to n, without gaps or repetitions. */
  lemma VersionsAreConsecutive(cfg: Config, db: Db, t: Time, a: Id)
    requires Reachable(cfg, db, t)
    ensures var n := |SubmissionsOf(db.submissions, a)|;
            && (forall v :: v in Workflow.Versions(db.submissions, a) <==> 1 <= v <= n)
            && Workflow.LatestVersion(db.submissions, a) == n
            && (forall s, u | s in SubmissionsOf(db.submissions, a) && u in SubmissionsOf(db.submissions, a) ::
                    db.submissions[s].version == db.submissions[u].version ==> s == u)
  {
    HistoryHolds(cfg, db, t);
    hide Reachable, Clocked, Evidenced, Reviewed, Disputes;
    Consecutive(db.assignments, db.submissions, a);
  }

  lemma Latest(submissions: map<Id, Submission>, a: Id, s: Id)
    requires VersionsOrdered(submissions) && s in submissions && submissions[s].assignment == a
    requires submissions[s].status != ToChange
    ensures submissions[s].version == Workflow.LatestVersion(submissions, a)
  {
    var versions := Workflow.Versions(submissions, a);
    assert submissions[s].version in versions;
    var top := Workflow.LatestVersion(submissions, a);
    var u :| u in SubmissionsOf(submissions, a) && submissions[u].version == top;
    assert !(submissions[s].version < submissions[u].version);
  }

  /** Only the latest submission can be anything but "changes requested". It then has the status of
      the assignment; pending work has no review; a cancelled assignment left nothing undecided. */
  lemma SubmissionsMirrorAssignment(cfg: Config, db: Db, t: Time, s: Id)
    requires Reachable(cfg, db, t) && s in db.submissions
    ensures var x := db.submissions[s];
            && x.assignment in db.assignments
            && var status := db.assignments[x.assignment].status;
               var latest := Workflow.LatestVersion(db.submissions, x.assignment);
            && 1 <= x.version <= latest
            && (x.version < latest ==> x.status == ToChange)
            && (x.version == latest && Late(status) ==> Mirror(x.status) == status)
            && (x.status == Pending ==> s !in db.reviews && x.version == latest && status == Submitted)
            && (status == Cancelled ==> x.status == ToChange)
            && (x.status == ToChange ==> s in db.reviews && db.reviews[s].decision == RequestChanges)
  {
    hide *;
    HistoryHolds(cfg, db, t);
    Mirroring(db.assignments, db.submissions, db.reviews, s);
  }

  lemma Mirroring(assignments: map<Id, Assignment>, submissions: map<Id, Submission>, reviews: map<Id, Review>, s: Id)
    requires History(assignments, submissions) && Reviewed(submissions, reviews) && s in submissions
    ensures var x := submissions[s];
            && x.assignment in assignments
            && var status := assignments[x.assignment].status;
               var latest := Workflow.LatestVersion(submissions, x.assignment);
            && 1 <= x.version <= latest
            && (x.version < latest ==> x.status == ToChange)
            && (x.version == latest && Late(status) ==> Mirror(x.status) == status)
            && (x.status == Pending ==> s !in reviews && x.version == latest && status == Submitted)
            && (status == Cancelled ==> x.status == ToChange)
            && (x.status == ToChange ==> s in reviews && reviews[s].decision == RequestChanges)
  {
    var x := submissions[s];
    assert SubmissionFits(x, assignments);
    assert s in reviews ==> ReviewFits(reviews[s].decision, x.status);
    hide Workflow.LatestVersion, Reviewed;
    InRange(assignments, submissions, s);
    if x.status != ToChange {
      Latest(submissions, x.assignment, s);
    } else if Late(assignments[x.assignment].status) && x.version == Workflow.LatestVersion(submissions, x.assignment) {
      LatestMirrors(assignments, submissions, x.assignment, s);
    }
    if x.status == ToChange {
      StillToChange(submissions, reviews, s);
    }
    hide History;
  }

  lemma StillToChange(submissions: map<Id, Submission>, reviews: map<Id, Review>, s: Id)
    requires Reviewed(submissions, reviews) && s in submissions && submissions[s].status == ToChange
    ensures s in reviews && reviews[s].decision == RequestChanges
  {
  }

  lemma InRange(assignments: map<Id, Assignment>, submissions: map<Id, Submission>, s: Id)
    requires History(assignments, submissions) && s in submissions
    ensures 1 <= submissions[s].version <= Workflow.LatestVersion(submissions, submissions[s].assignment)
  {
    assert submissions[s].version in Workflow.Versions(submissions, submissions[s].assignment);
  }

  lemma LatestMirrors(assignments: map<Id, Assignment>, submissions: map<Id, Submission>, a: Id, s: Id)
    requires History(assignments, submissions) && a in assignments && Late(assignments[a].status)
    requires s in submissions && submissions[s].assignment == a
    requires submissions[s].version == Workflow.LatestVersion(submissions, a)
    ensures Mirror(submissions[s].status) == assignments[a].status
  {
    assert HasMirror(submissions, a, assignments[a].status);
    var u :| u in submissions && submissions[u].assignment == a &&
      Mirror(submissions[u].status) == assignments[a].status;
    if submissions[u].status != ToChange {
      Latest(submissions, a, u);
    } else {
      assert SubmissionFits(submissions[s], assignments);
    }
  }

  // ----- days and evidence ------------------------------------------------------------------

  /** Sessions fall on different days, so the contract's number of sessions and its minimum
      duration both lie between the start and every submission. */
  lemma TestingTookLongEnough(cfg: Config, db: Db, t: Time, s: Id)
    requires Reachable(cfg, db, t) && s in db.submissions
    ensures var x := db.submissions[s];
            && x.assignment in db.assignments
            && var a := db.assignments[x.assignment];
            && a.startedAt.Some? && a.campaign in db.contracts
            && var k := db.contracts[a.campaign];
               var days := DayOf(x.submittedAt) - DayOf(a.startedAt.value);
            && days >= k.requiredSessions - 1
            && days >= k.minimumDays
  {
    HistoryHolds(cfg, db, t);
    hide Reachable, Evidenced, Disputes, History, Reviewed;
    assert SubmissionClock(db.submissions[s], db.assignments, db.contracts);
  }

  /** The first day of testing is on record, and no recorded day lies before it or after now. */
  lemma DaysAreRecorded(cfg: Config, db: Db, t: Time, a: Id)
    requires Reachable(cfg, db, t) && a in db.assignments
    ensures var x := db.assignments[a];
            && (x.startedAt.Some? ==> x.startedAt.value <= t && Session(a, DayOf(x.startedAt.value)) in db.sessions)
            && (forall s :: s in Workflow.SessionDays(db.sessions, a) ==>
                  x.startedAt.Some? && DayOf(x.startedAt.value) <= s.day <= DayOf(t))
  {
    HistoryHolds(cfg, db, t);
    hide Reachable, Evidenced, Disputes, History, Reviewed;
    assert AssignmentClock(db.assignments[a], a, db.sessions, t);
  }

  /** The item is about no task, or about one of these. */
  predicate About(tasks: seq<Task>, i: Item) {
    i.task.Some? ==> exists t | t in tasks :: t.id == i.task.value
  }

  predicate Answered(t: Task, items: seq<Item>) {
    exists i | i in items :: i.task == Some(t.id)
  }

  lemma AboutIsValid(tasks: seq<Task>, items: seq<Item>)
    ensures Workflow.CoveredTaskIds(items) <= Workflow.TaskIds(tasks) <==> forall i | i in items :: About(tasks, i)
  {
    if Workflow.CoveredTaskIds(items) <= Workflow.TaskIds(tasks) {
      forall i | i in items
        ensures About(tasks, i)
      {
        if i.task.Some? {
          assert i.task.value in Workflow.CoveredTaskIds(items);
          assert i.task.value in Workflow.TaskIds(tasks);
        }
      }
    }
  }

  lemma AnsweredIsCovered(tasks: seq<Task>, items: seq<Item>)
    ensures Workflow.RequiredTaskIds(tasks) <= Workflow.CoveredTaskIds(items) <==>
            forall t | t in tasks && t.evidenceRequired :: Answered(t, items)
  {
    if Workflow.RequiredTaskIds(tasks) <= Workflow.CoveredTaskIds(items) {
      forall t | t in tasks && t.evidenceRequired
        ensures Answered(t, items)
      {
        assert t.id in Workflow.RequiredTaskIds(tasks);
        assert t.id in Workflow.CoveredTaskIds(items);
      }
    }
  }

  /** Every required task of the contract in force has an item in every stored submission of the
      campaign, and no item is about a task of another contract. */
  lemma EvidenceFitsTheContract(cfg: Config, db: Db, t: Time, s: Id)
    requires Reachable(cfg, db, t) && s in db.submissions
    ensures var x := db.submissions[s];
            && x.assignment in db.assignments && db.assignments[x.assignment].campaign in db.contracts
            && var tasks := db.contracts[db.assignments[x.assignment].campaign].tasks;
            && (forall task :: task in tasks && task.evidenceRequired ==>
                  exists i :: i in x.items && i.task == Some(task.id))
            && (forall i :: i in x.items && i.task.Some? ==> exists task :: task in tasks && task.id == i.task.value)
  {
    hide *;
    HistoryHolds(cfg, db, t);
    EvidenceIsFit(db.contracts, db.assignments, db.submissions, s);
    var x := db.submissions[s];
    var tasks := db.contracts[db.assignments[x.assignment].campaign].tasks;
    AboutIsValid(tasks, x.items);
    AnsweredIsCovered(tasks, x.items);
    ElementByElement(tasks, x.items);
  }

  lemma EvidenceIsFit(contracts: map<Id, Contract>, assignments: map<Id, Assignment>, submissions: map<Id, Submission>,
                      s: Id)
    requires Evidenced(contracts, assignments, submissions) && s in submissions
    ensures var x := submissions[s];
            && x.assignment in assignments && assignments[x.assignment].campaign in contracts
            && var tasks := contracts[assignments[x.assignment].campaign].tasks;
            && Workflow.RequiredTaskIds(tasks) <= Workflow.CoveredTaskIds(x.items) <= Workflow.TaskIds(tasks)
  {
    assert EvidenceFits(submissions[s], assignments, contracts);
  }

  lemma ElementByElement(tasks: seq<Task>, items: seq<Item>)
    requires forall i | i in items :: About(tasks, i)
    requires forall t | t in tasks && t.evidenceRequired :: Answered(t, items)
    ensures forall t :: t in tasks && t.evidenceRequired ==> exists i :: i in items && i.task == Some(t.id)
    ensures forall i :: i in items && i.task.Some? ==> exists t :: t in tasks && t.id == i.task.value
  {
    forall t | t in tasks && t.evidenceRequired
      ensures exists i :: i in items && i.task == Some(t.id)
    {
      assert Answered(t, items);
    }
    forall i | i in items && i.task.Some?
      ensures exists t :: t in tasks && t.id == i.task.value
    {
      assert About(tasks, i);
    }
  }

  /** Opening an attachment of a moderation case: the checks made before the file is signed. */
  function OpenAttachment(db: Db, dispute: Id, submission: Id, item: nat): Result<string> {
    var _ :- Need(dispute in db.disputes && submission in db.submissions && item < |db.submissions[submission].items| &&
                  db.submissions[submission].assignment == db.disputes[dispute].assignment &&
                  db.submissions[submission].items[item].storageKey.Some? &&
                  db.submissions[submission].items[item].storageKey.value != "", AttachmentNotFound);
    var key := db.submissions[submission].items[item].storageKey.value;
    var _ :- Need(StorageKeys.Accepts(StorageKeys.FolderName(db.disputes[dispute].assignment), key), BadStorageKey);
    Ok(key)
  }

  /** Every stored file of a disputed assignment opens for the moderator, and only from the folder
      of that assignment. */
  lemma StoredKeysOpen(cfg: Config, db: Db, t: Time, dispute: Id, submission: Id, item: nat)
    requires Reachable(cfg, db, t)
    ensures OpenAttachment(db, dispute, submission, item) != Err(BadStorageKey)
    ensures dispute in db.disputes && submission in db.submissions && item < |db.submissions[submission].items| &&
            db.submissions[submission].assignment == db.disputes[dispute].assignment &&
            db.submissions[submission].items[item].storageKey.Some? ==>
              OpenAttachment(db, dispute, submission, item) ==
                Ok(db.submissions[submission].items[item].storageKey.value)
  {
    hide *;
    HistoryHolds(cfg, db, t);
    Opens(db, dispute, submission, item);
  }

  lemma Opens(db: Db, dispute: Id, submission: Id, item: nat)
    requires Evidenced(db.contracts, db.assignments, db.submissions)
    ensures OpenAttachment(db, dispute, submission, item) != Err(BadStorageKey)
    ensures dispute in db.disputes && submission in db.submissions && item < |db.submissions[submission].items| &&
            db.submissions[submission].assignment == db.disputes[dispute].assignment &&
            db.submissions[submission].items[item].storageKey.Some? ==>
              OpenAttachment(db, dispute, submission, item) ==
                Ok(db.submissions[submission].items[item].storageKey.value)
  {
    hide StorageKeys.FolderName, StorageKeys.Accepts;
    if submission in db.submissions && item < |db.submissions[submission].items| {
      ItemIsFit(db.contracts, db.assignments, db.submissions, submission, item);
      NotEmpty(StorageKeys.FolderName(db.submissions[submission].assignment));
    }
    hide Evidenced;
  }

  lemma ItemIsFit(contracts: map<Id, Contract>, assignments: map<Id, Assignment>, submissions: map<Id, Submission>,
                  s: Id, item: nat)
    requires Evidenced(contracts, assignments, submissions) && s in submissions && item < |submissions[s].items|
    ensures ItemFits(submissions[s].items[item], submissions[s].assignment)
  {
    assert EvidenceFits(submissions[s], assignments, contracts);
  }

  lemma NotEmpty(folder: string)
    ensures !StorageKeys.Accepts(folder, "")
  {
    assert StorageKeys.Segments("") == [""];
    assert StorageKeys.Named([""]) == StorageKeys.Named([""][1..]) == [];
  }
}
