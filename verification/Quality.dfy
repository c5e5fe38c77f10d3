/** The advisory quality check of a submission. */
module Quality {
  import opened Model
  import opened Results
  import opened Invariants
  import opened Histories
  import Preservation
  import Versioning
  import Workflow

  datatype Check = Coverage(met: bool) | Content(met: bool) | Specificity(met: bool) | Observation(met: bool)

  datatype Advice = AlreadyReviewed | NeedsAttention | ReadyForReview

  datatype Report = Report(version: int, status: SubmissionStatus, advice: Advice, score: int, checks: seq<Check>)

  function Met(checks: seq<Check>): int {
    if checks == [] then 0 else (if checks[0].met then 1 else 0) + Met(checks[1..])
  }

  /** Only the tester and the campaign owner may look; nothing is written. */
  function Assess(db: Db, id: Id, user: Id): Result<Report> {
    var _ :- Need(id in db.submissions, SubmissionNotFound);
    var s := db.submissions[id];
    var a :- Workflow.Lookup(db, s.assignment);
    var _ :- Need(a.campaign in db.campaigns, CampaignNotFound);
    var _ :- Need(user == a.tester || user == db.campaigns[a.campaign].owner, PrivateWorkspace);
    var _ :- Need(a.campaign in db.contracts, ContractNotFound);
    var checks := [
      Coverage(Workflow.RequiredTaskIds(db.contracts[a.campaign].tasks) <= Workflow.CoveredTaskIds(s.items)),
      Content(forall i | i in s.items :: i.HasContent()),
      Specificity(s.specificSummary),
      Observation(exists i | i in s.items :: i.note == Some(true))];
    var advice :=
      if s.status != Pending then Advice.AlreadyReviewed
      else if exists c | c in checks :: !c.met then NeedsAttention
      else ReadyForReview;
    Ok(Report(s.version, s.status, advice, Met(checks) * 100 / |checks|, checks))
  }

  lemma FourChecks(a: Check, b: Check, c: Check, d: Check)
    ensures Met([a, b, c, d]) ==
            (if a.met then 1 else 0) + (if b.met then 1 else 0) + (if c.met then 1 else 0) + (if d.met then 1 else 0)
  {
    assert [d][1..] == [] && [c, d][1..] == [d] && [b, c, d][1..] == [c, d] && [a, b, c, d][1..] == [b, c, d];
    assert Met([c, d]) == (if c.met then 1 else 0) + Met([d]);
    assert Met([b, c, d]) == (if b.met then 1 else 0) + Met([c, d]);
  }

  /** What each check of a report says about the submission, and what the report concludes. */
  lemma ChecksMean(db: Db, id: Id, user: Id)
    requires Assess(db, id, user).Ok?
    ensures id in db.submissions && db.submissions[id].assignment in db.assignments
    ensures db.assignments[db.submissions[id].assignment].campaign in db.contracts
    ensures var r := Assess(db, id, user).value;
            var s := db.submissions[id];
            var tasks := db.contracts[db.assignments[s.assignment].campaign].tasks;
            && r.version == s.version && r.status == s.status && |r.checks| == 4
            && r.checks[0] == Coverage(forall t | t in tasks && t.evidenceRequired :: Versioning.Answered(t, s.items))
            && r.checks[1] == Content(forall i | i in s.items :: i.storageKey.Some? || i.hasUrl || i.note.Some?)
            && r.checks[2] == Specificity(s.specificSummary)
            && r.checks[3] == Observation(exists i | i in s.items :: i.note == Some(true))
            && r.score == Quarter(r.checks[0]) + Quarter(r.checks[1]) + Quarter(r.checks[2]) + Quarter(r.checks[3])
            && r.advice == (if s.status != Pending then Advice.AlreadyReviewed
                            else if r.score == 100 then ReadyForReview else NeedsAttention)
  {
    hide Workflow.RequiredTaskIds, Workflow.CoveredTaskIds, Versioning.Answered;
    var r, s := Assess(db, id, user).value, db.submissions[id];
    var tasks := db.contracts[db.assignments[s.assignment].campaign].tasks;
    Versioning.AnsweredIsCovered(tasks, s.items);
    ScoreCounts(r.checks);
    hide Met;
  }

  function Quarter(c: Check): int {
    if c.met then 25 else 0
  }

  lemma ScoreCounts(checks: seq<Check>)
    requires |checks| == 4
    ensures Met(checks) * 100 / 4 == Quarter(checks[0]) + Quarter(checks[1]) + Quarter(checks[2]) + Quarter(checks[3])
    ensures Met(checks) * 100 / 4 == 100 <==> forall c | c in checks :: c.met
  {
    assert checks == [checks[0], checks[1], checks[2], checks[3]];
    FourChecks(checks[0], checks[1], checks[2], checks[3]);
    hide Met;
  }

  /** What the submission service demanded still holds for every stored submission, so coverage and
      content always pass and half the score is certain. A participant never meets the
      missing-contract refusal. */
  lemma StoredWorkScoresHalf(cfg: Config, db: Db, t: Time, id: Id, user: Id)
    requires Reachable(cfg, db, t) && id in db.submissions
    ensures var a := db.submissions[id].assignment;
            && a in db.assignments && db.assignments[a].campaign in db.campaigns
            && (Assess(db, id, user).Ok? <==>
                  user == db.assignments[a].tester || user == db.campaigns[db.assignments[a].campaign].owner)
            && (Assess(db, id, user).Err? ==> Assess(db, id, user) == Err(PrivateWorkspace))
    ensures Assess(db, id, user).Ok? ==>
              var r := Assess(db, id, user).value;
              && |r.checks| == 4 && r.checks[0] == Coverage(true) && r.checks[1] == Content(true)
              && r.score == 50 + (if r.checks[2].met then 25 else 0) + (if r.checks[3].met then 25 else 0)
              && (r.advice.AlreadyReviewed? <==> r.status != Pending)
              && (id in db.reviews ==> r.advice.AlreadyReviewed?)
              && (r.advice == ReadyForReview ==> r.score == 100)
              && (r.advice == NeedsAttention ==> r.score < 100)
  {
    hide *;
    ReachableHolds(cfg, db, t);
    Preservation.Parts(cfg, db, t);
    StillEvident(db.contracts, db.assignments, db.submissions, id);
    NotReviewed(db.submissions, db.reviews, id);
    Preservation.RowFits(db.profiles, db.campaigns, db.assignments, db.submissions[id].assignment);
    Assessed(db, id, user);
  }

  lemma NotReviewed(submissions: map<Id, Submission>, reviews: map<Id, Review>, id: Id)
    requires Reviewed(submissions, reviews) && id in submissions
    ensures id in reviews ==> submissions[id].status != Pending
  {
    assert id in reviews ==> ReviewFits(reviews[id].decision, submissions[id].status);
  }

  lemma StillEvident(contracts: map<Id, Contract>, assignments: map<Id, Assignment>, submissions: map<Id, Submission>,
                     id: Id)
    requires Evidenced(contracts, assignments, submissions) && id in submissions
    ensures var s := submissions[id];
            && s.assignment in assignments && assignments[s.assignment].campaign in contracts
            && Workflow.RequiredTaskIds(contracts[assignments[s.assignment].campaign].tasks) <=
               Workflow.CoveredTaskIds(s.items)
            && (forall i :: i in s.items ==> i.HasContent())
  {
    var s := submissions[id];
    assert EvidenceFits(s, assignments, contracts);
    forall i | i in s.items
      ensures i.HasContent()
    {
      var k :| 0 <= k < |s.items| && s.items[k] == i;
      assert ItemFits(s.items[k], s.assignment);
    }
  }

  lemma Assessed(db: Db, id: Id, user: Id)
    requires id in db.submissions && db.submissions[id].assignment in db.assignments
    requires var a := db.assignments[db.submissions[id].assignment];
             && a.campaign in db.campaigns && a.campaign in db.contracts
             && Workflow.RequiredTaskIds(db.contracts[a.campaign].tasks) <=
                Workflow.CoveredTaskIds(db.submissions[id].items)
    requires forall i :: i in db.submissions[id].items ==> i.HasContent()
    requires id in db.reviews ==> db.submissions[id].status != Pending
    ensures var a := db.submissions[id].assignment;
            && (Assess(db, id, user).Ok? <==>
                  user == db.assignments[a].tester || user == db.campaigns[db.assignments[a].campaign].owner)
            && (Assess(db, id, user).Err? ==> Assess(db, id, user) == Err(PrivateWorkspace))
    ensures Assess(db, id, user).Ok? ==>
              var r := Assess(db, id, user).value;
              && |r.checks| == 4 && r.checks[0] == Coverage(true) && r.checks[1] == Content(true)
              && r.score == 50 + (if r.checks[2].met then 25 else 0) + (if r.checks[3].met then 25 else 0)
              && (r.advice.AlreadyReviewed? <==> r.status != Pending)
              && (id in db.reviews ==> r.advice.AlreadyReviewed?)
              && (r.advice == ReadyForReview ==> r.score == 100)
              && (r.advice == NeedsAttention ==> r.score < 100)
  {
    hide Workflow.RequiredTaskIds, Workflow.CoveredTaskIds;
    if Assess(db, id, user).Ok? {
      var c := Assess(db, id, user).value.checks;
      FourChecks(c[0], c[1], c[2], c[3]);
      assert c == [c[0], c[1], c[2], c[3]];
      hide Met;
      forall x | x in c
        ensures x == c[0] || x == c[1] || x == c[2] || x == c[3]
      {
      }
    }
  }
}
