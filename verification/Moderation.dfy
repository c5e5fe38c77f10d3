/** Disputes in the hands of a moderator. */
module Moderation {
  import opened Results
  import opened Model
  import Workflow

  datatype Outcome = Dismiss | Settle

  datatype RulingFields = RulingFields(outcome: Outcome, remedy: Remedy)

  /** A resolve request that passed the schema: a rejected dispute carries no remedy. */
  type Ruling = r: RulingFields | r.outcome == Dismiss ==> r.remedy == NoRemedy
    witness RulingFields(Dismiss, NoRemedy)

  function Claim(db: Db, id: Id, moderator: Id): Result<Writes> {
    var _ :- Need(id in db.disputes, DisputeNotFound);
    var d := db.disputes[id];
    if d.status == UnderReview then
      var _ :- Need(d.assignedTo == Some(moderator), ClaimedByAnother);
      Ok(NOTHING)
    else
      var _ :- Need(d.status == Open, NotClaimable);
      var _ :- Need(moderator in db.profiles, IntegrityViolation);
      Ok(NOTHING.(disputes := map[id := d.(status := UnderReview, assignedTo := Some(moderator))]))
  }

  /** The disputed submission of an assignment. */
  function Disputed(db: Db, d: Dispute): Result<Id> {
    var _ :- Need(d.submission.Some? && d.submission.value in db.submissions &&
                  db.submissions[d.submission.value].assignment == d.assignment, DisputedSubmissionMissing);
    Ok(d.submission.value)
  }

  /** What the ruling does to the work itself. */
  function Remedied(db: Db, now: Time, d: Dispute, a: Assignment, r: Ruling): Result<Writes> {
    if r.remedy == AwardTester then
      var _ :- Need(d.submission.Some?, NoDisputedSubmission);
      var _ :- Need(a.status == Rejected || a.status == Submitted, NotAwardable);
      var s :- Disputed(db, d);
      var _ :- Need(a.campaign in db.campaigns, CampaignNotFound);
      Workflow.Approval(db, now, s, db.submissions[s], d.assignment, a, db.campaigns[a.campaign])
    else if a.status == Submitted then
      var _ :- Need(r.outcome == Dismiss, OverdueNeedsDecision);
      var s :- Disputed(db, d);
      Ok(NOTHING.(submissions := map[s := db.submissions[s].(status := Refused)],
                  assignments := map[d.assignment := a.(status := Rejected, completedAt := Some(now))]))
    else Ok(NOTHING)
  }

  function Resolve(db: Db, now: Time, id: Id, moderator: Id, r: Ruling): Result<Writes> {
    var _ :- Need(id in db.disputes, DisputeNotFound);
    var d := db.disputes[id];
    var _ :- Need(d.status == UnderReview, NotClaimed);
    var _ :- Need(d.assignedTo == Some(moderator), NotAssignedModerator);
    var a :- Workflow.Lookup(db, d.assignment);
    var w :- Remedied(db, now, d, a, r);
    var _ :- Need(a.campaign in db.campaigns, CampaignNotFound);
    var closed := d.(status := if r.outcome == Settle then DisputeStatus.Resolved else Dismissed,
                     remedy := Some(r.remedy), resolvedBy := Some(moderator));
    Ok(w.(disputes := map[id := closed]))
  }
}
