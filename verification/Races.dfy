/** A transaction whose rows are free can lock them and decide; and a history in which one that did
    commits something else than it would if it were served then. */
module Races {
  import opened Model
  import opened Results
  import opened Evolution
  import opened Requests
  import opened RowLocks
  import opened Scenarios
  import Agreement
  import Campaigns
  import Credits
  import Histories
  import Invariants
  import Moderation
  import Settling
  import Success
  import Workflow

  // ----- actions in a row -------------------------------------------------------------------

  function DoAll(cfg: Config, s: System, actions: seq<Action>): System {
    if actions == [] then s else Do(cfg, DoAll(cfg, s, actions[..|actions| - 1]), actions[|actions| - 1])
  }

  lemma {:induction false} Continued(cfg: Config, start: Time, actions: seq<Action>, more: seq<Action>)
    ensures AfterAll(cfg, start, actions + more) == DoAll(cfg, AfterAll(cfg, start, actions), more)
  {
    hide Do;
    if more == [] {
      assert actions + more == actions;
    } else {
      var all := actions + more;
      assert all[..|all| - 1] == actions + more[..|more| - 1] && all[|all| - 1] == more[|more| - 1];
      Continued(cfg, start, actions, more[..|more| - 1]);
    }
  }

  lemma {:induction false} DoneKeeps(cfg: Config, s: System, actions: seq<Action>)
    requires Consistent(cfg, s)
    ensures Consistent(cfg, DoAll(cfg, s, actions))
  {
    hide Consistent, Do;
    if actions != [] {
      DoneKeeps(cfg, s, actions[..|actions| - 1]);
      DoKeeps(cfg, DoAll(cfg, s, actions[..|actions| - 1]), actions[|actions| - 1]);
    }
  }

  lemma DoOneMore(cfg: Config, s: System, actions: seq<Action>, x: Action)
    ensures DoAll(cfg, s, actions + [x]) == Do(cfg, DoAll(cfg, s, actions), x)
  {
    hide Do;
    var all := actions + [x];
    assert all[..|all| - 1] == actions;
  }

  // ----- locking and deciding ---------------------------------------------------------------

  /** The request is begun, and the rows are locked one by one. */
  function Acquiring(id: nat, r: Request, rows: seq<Row>): seq<Action> {
    if rows == [] then [Begin(id, r)] else Acquiring(id, r, rows[..|rows| - 1]) + [Acquire(id, rows[|rows| - 1])]
  }

  function Members(rows: seq<Row>): set<Row> {
    set row | row in rows
  }

  /** Somebody began `r` and has locked the rows of `held`; everything else is as it was. */
  ghost predicate Holding(s: System, t: System, id: nat, r: Request, held: set<Row>) {
    && t.db == s.db && t.clock == s.clock && id in t.open
    && t.open == s.open[id := t.open[id]]
    && t.open[id].request == r && t.open[id].held == held && t.open[id].plan.None?
  }

  /** Rows that exist and that nobody holds. */
  ghost predicate Available(s: System, rows: seq<Row>) {
    forall row :: row in rows ==> Exists(s.db, row) && Free(s.open, {row})
  }

  lemma {:induction false} LockingHolds(cfg: Config, s: System, id: nat, r: Request, rows: seq<Row>)
    requires id !in s.open && Locking(r) && Available(s, rows)
    ensures Holding(s, DoAll(cfg, s, Acquiring(id, r, rows)), id, r, Members(rows))
    decreases |rows|
  {
    hide Exists, Read, Then;
    if rows == [] {
      assert Acquiring(id, r, []) == [] + [Begin(id, r)];
      DoOneMore(cfg, s, [], Begin(id, r));
    } else {
      var fewer, row := rows[..|rows| - 1], rows[|rows| - 1];
      LockingHolds(cfg, s, id, r, fewer);
      DoOneMore(cfg, s, Acquiring(id, r, fewer), Acquire(id, row));
      var t := DoAll(cfg, s, Acquiring(id, r, fewer));
      OneMoreRow(s, t, id, r, rows);
    }
  }

  lemma OneMoreRow(s: System, t: System, id: nat, r: Request, rows: seq<Row>)
    requires rows != [] && id !in s.open && Available(s, rows)
    requires Holding(s, t, id, r, Members(rows[..|rows| - 1]))
    ensures Holding(s, Locked(t, id, rows[|rows| - 1]), id, r, Members(rows))
  {
    hide Exists, Read, Then;
    var row := rows[|rows| - 1];
    assert row in rows;
    assert Members(rows) == Members(rows[..|rows| - 1]) + {row};
    assert row !in t.open[id].held ==> Free(t.open, {row});
  }

  /** Whoever finds the needed rows free can lock them and decide as if nobody else were there. */
  lemma CanDecide(cfg: Config, s: System, id: nat, r: Request, rows: seq<Row>)
    requires Consistent(cfg, s) && id !in s.open && Locking(r) && Available(s, rows)
    requires Locks(s.db, r) <= Members(rows) && Handle(cfg, s.db, s.clock, r).Ok?
    ensures var t := DoAll(cfg, s, Acquiring(id, r, rows) + [Decide(id)]);
            && t.db == s.db && t.clock == s.clock && id in t.open && t.open == s.open[id := t.open[id]]
            && t.open[id].request == r && t.open[id].held == Members(rows)
            && t.open[id].plan == Some(Plan(s.db, s.clock, Handle(cfg, s.db, s.clock, r).value))
  {
    hide Consistent, Do, Locks, Handle, Commit, Available, Holding;
    LockingHolds(cfg, s, id, r, rows);
    DoneKeeps(cfg, s, Acquiring(id, r, rows));
    DoOneMore(cfg, s, Acquiring(id, r, rows), Decide(id));
    DecidesHere(cfg, s, DoAll(cfg, s, Acquiring(id, r, rows)), id, r, Members(rows));
  }

  lemma DecidesHere(cfg: Config, s: System, t: System, id: nat, r: Request, held: set<Row>)
    requires Consistent(cfg, t) && Holding(s, t, id, r, held) && Locks(s.db, r) <= held
    requires Handle(cfg, s.db, s.clock, r).Ok?
    ensures var u := Do(cfg, t, Decide(id));
            && u.db == s.db && u.clock == s.clock && id in u.open && u.open == s.open[id := u.open[id]]
            && u.open[id].request == r && u.open[id].held == held
            && u.open[id].plan == Some(Plan(s.db, s.clock, Handle(cfg, s.db, s.clock, r).value))
  {
    hide Invariants.Inv, Current, Planned, Handle, Locks, Commit, Exists;
    assert TransactionFits(cfg, t.db, t.clock, t.open[id]);
    CurrentIsNow(t.db, t.open[id].seen, t.open[id].held);
  }

  // ----- who waits for whom -----------------------------------------------------------------

  /** Work goes through its own assignment: handing in, sessions, decisions and rulings. */
  predicate TakesPart(db: Db, r: Request, a: Id) {
    || ((r.Accept? || r.Decline? || r.Withdraw? || r.Start? || r.RecordSession? || r.Submit? || r.Escalate?) &&
        r.assignment == a)
    || (r.Examine? && r.submission in db.submissions && db.submissions[r.submission].assignment == a)
    || (r.Resolve? && r.dispute in db.disputes && db.disputes[r.dispute].assignment == a)
  }

  /** Whose credits the request moves: the owner's when publishing, the tester's when work is paid. */
  predicate Moves(db: Db, r: Request, u: Id) {
    || ((r.PublishCampaign? || r.LaunchCampaign?) && r.owner == u)
    || (((r.Examine? && r.decision == Approve) || (r.Resolve? && r.ruling.remedy == AwardTester)) &&
        exists a | a in db.assignments :: TakesPart(db, r, a) && db.assignments[a].tester == u)
  }

  /** A campaign is locked by the requests that change its row or its contract, by those that count its
      places, and by those that may complete it; a dismissal, a session or a submission does not wait. */
  predicate CountsOrChanges(db: Db, r: Request, c: Id) {
    || ((r.UpdateCampaign? || r.UpsertContract? || r.PublishCampaign? || r.TransitionCampaign? || r.Apply?) &&
        r.campaign == c)
    || ((r.Accept? || r.Withdraw? || r.Examine? || (r.Resolve? && r.ruling.remedy == AwardTester)) &&
        exists a | a in db.assignments :: TakesPart(db, r, a) && db.assignments[a].campaign == c)
  }

  /** Closing locks the applications it declines. */
  predicate Declines(db: Db, r: Request, a: Id) {
    r.TransitionCampaign? && r.action == Campaigns.Close && a in db.assignments &&
    db.assignments[a].campaign == r.campaign && db.assignments[a].status == Applied
  }

  /** A review locks its submission; a ruling locks the disputed one when it awards it or finds it pending. */
  predicate Judges(db: Db, r: Request, s: Id) {
    || (r.Examine? && r.submission == s)
    || (r.Resolve? && r.dispute in db.disputes && db.disputes[r.dispute].submission == Some(s) &&
        (|| r.ruling.remedy == AwardTester
         || (db.disputes[r.dispute].assignment in db.assignments &&
             db.assignments[db.disputes[r.dispute].assignment].status == Submitted)))
  }

  lemma WhoLocksAnAccount(db: Db, r: Request, u: Id)
    ensures AccountRow(u) in Locks(db, r) <==> Moves(db, r, u)
  {
    if r.Examine? && r.submission in db.submissions {
      assert TakesPart(db, r, db.submissions[r.submission].assignment);
    }
    if r.Resolve? && r.dispute in db.disputes {
      assert TakesPart(db, r, db.disputes[r.dispute].assignment);
    }
  }

  lemma WhoLocksACampaign(db: Db, r: Request, c: Id)
    ensures CampaignRow(c) in Locks(db, r) <==> CountsOrChanges(db, r, c)
  {
    if r.Accept? || r.Withdraw? {
      assert TakesPart(db, r, r.assignment);
    } else if r.Examine? && r.submission in db.submissions {
      assert TakesPart(db, r, db.submissions[r.submission].assignment);
    } else if r.Resolve? && r.dispute in db.disputes {
      assert TakesPart(db, r, db.disputes[r.dispute].assignment);
    }
  }

  lemma WhoLocksAnAssignment(db: Db, r: Request, a: Id)
    ensures AssignmentRow(a) in Locks(db, r) <==> TakesPart(db, r, a) || Declines(db, r, a)
  {
  }

  lemma WhoLocksASubmission(db: Db, r: Request, s: Id)
    ensures SubmissionRow(s) in Locks(db, r) <==> Judges(db, r, s)
  {
  }

  lemma WhoLocksADispute(db: Db, r: Request, d: Id)
    ensures DisputeRow(d) in Locks(db, r) <==> (r.Claim? || r.Resolve?) && r.dispute == d
  {
  }

  lemma WhoLocksAProfile(db: Db, r: Request, u: Id)
    ensures SeatsRow in Locks(db, r) <==> r.UpsertProfile? && r.user !in db.profiles && db.seats.Some?
    ensures ProfileRow(u) in Locks(db, r) <==> r.UpsertProfile? && r.user == u && u in db.profiles
  {
  }

  /** Which requests wait for a row, table by table. */
  lemma WhoLocks(db: Db, r: Request, row: Row)
    ensures row in Locks(db, r) <==>
              match row
              case SeatsRow => r.UpsertProfile? && r.user !in db.profiles && db.seats.Some?
              case ProfileRow(u) => r.UpsertProfile? && r.user == u && u in db.profiles
              case CampaignRow(c) => CountsOrChanges(db, r, c)
              case AssignmentRow(a) => TakesPart(db, r, a) || Declines(db, r, a)
              case SubmissionRow(s) => Judges(db, r, s)
              case DisputeRow(d) => (r.Claim? || r.Resolve?) && r.dispute == d
              case AccountRow(u) => Moves(db, r, u)
  {
    hide Locks, CountsOrChanges, TakesPart, Declines, Judges, Moves;
    match row
    case SeatsRow => WhoLocksAProfile(db, r, 0);
    case ProfileRow(u) => WhoLocksAProfile(db, r, u);
    case CampaignRow(c) => WhoLocksACampaign(db, r, c);
    case AssignmentRow(a) => WhoLocksAnAssignment(db, r, a);
    case SubmissionRow(s) => WhoLocksASubmission(db, r, s);
    case DisputeRow(d) => WhoLocksADispute(db, r, d);
    case AccountRow(u) => WhoLocksAnAccount(db, r, u);
  }

  // ----- closing a campaign while its last work is being refused ----------------------------

  const LATER: Time := 72 * HOUR
  const CLOSING: Request := TransitionCampaign(BETA, OWNER, Campaigns.Close)
  const DISMISSAL: Request := Resolve(DISPUTE, MODERATOR, Moderation.RulingFields(Moderation.Dismiss, NoRemedy))
  const REFUSED_WORK: Assignment := DONE.(status := Rejected, completedAt := Some(LATER))

  /** One test overdue for review and escalated, one application, in an open campaign. */
  ghost predicate Contested(db: Db) {
    && db.campaigns == map[BETA := Campaign(OWNER, "beta", 1, 5, Published, Some(0))]
    && db.assignments == map[FIRST_TEST := DONE, SECOND_TEST := Applicant(SECOND)]
    && db.submissions == map[WORK := DELIVERED] && db.disputes == map[DISPUTE := CLAIMED]
  }

  lemma Escalating(base: Db) returns (run: seq<Event>)
    requires Stage(base)
    requires Reached(Waiting(base))
    ensures Ordered(run) && run != [] && run[0].now >= 0 && Clock(run) == LATER
    ensures Contested(After(CFG, run))
  {
    hide Commit, Credits.HasKey, Credits.AccountBalance, After, Step;
    var db := Waiting(base);
    var early :| After(CFG, early) == db && AtOnce(early);
    var escalation := Escalate(DISPUTE, FIRST_TEST, FIRST, Some(WORK));
    Escalates(db);
    AfterOneMore(CFG, early, Event(LATER, escalation));
    var escalated := db.(disputes := map[DISPUTE := COMPLAINT]);
    Claims(escalated);
    AfterOneMore(CFG, early + [Event(LATER, escalation)], Event(LATER, Claim(DISPUTE, MODERATOR)));
    run := early + [Event(LATER, escalation)] + [Event(LATER, Claim(DISPUTE, MODERATOR))];
  }

  lemma Escalates(db: Db)
    requires db.assignments == map[FIRST_TEST := DONE, SECOND_TEST := Applicant(SECOND)]
    requires db.submissions == map[WORK := DELIVERED] && db.disputes == map[]
    requires db.campaigns == map[BETA := Campaign(OWNER, "beta", 1, 5, Published, Some(0))]
    requires db.contracts == map[BETA := Contract(1, 72, 0, 1, [Task(60, false)], true)]
    ensures Step(CFG, db, LATER, Escalate(DISPUTE, FIRST_TEST, FIRST, Some(WORK))) ==
            db.(disputes := map[DISPUTE := COMPLAINT])
  {
    hide Commit;
    assert Workflow.Escalate(db, LATER, DISPUTE, FIRST_TEST, FIRST, Some(WORK)).Ok?;
    Success.Escalate(db, LATER, DISPUTE, FIRST_TEST, FIRST, Some(WORK));
    hide Workflow.Escalate;
    OnlyRow(db.disputes, DISPUTE, COMPLAINT);
  }

  lemma Claims(db: Db)
    requires db.disputes == map[DISPUTE := COMPLAINT] && MODERATOR in db.profiles
    ensures Step(CFG, db, LATER, Claim(DISPUTE, MODERATOR)) == db.(disputes := map[DISPUTE := CLAIMED])
  {
    hide Commit;
    assert Moderation.Claim(db, DISPUTE, MODERATOR).Ok?;
    Success.Claim(db, DISPUTE, MODERATOR);
    hide Moderation.Claim;
    OnlyRow(db.disputes, DISPUTE, CLAIMED);
  }

  lemma MayClose(db: Db)
    requires Contested(db)
    ensures Handle(CFG, db, LATER, CLOSING).Ok?
    ensures Handle(CFG, db, LATER, CLOSING).value.assignments == Campaigns.Declined(db.assignments, BETA, LATER)
    ensures Locks(db, CLOSING) == {CampaignRow(BETA), AssignmentRow(SECOND_TEST)}
  {
    assert WithStatus(db.assignments, BETA, {Applied}) == {SECOND_TEST};
    hide Campaigns.MaybeComplete, Campaigns.Declined, WithStatus;
  }

  lemma MayDismiss(db: Db)
    requires Contested(db)
    ensures Handle(CFG, db, LATER, DISMISSAL).Ok?
    ensures Handle(CFG, db, LATER, DISMISSAL).value.assignments == map[FIRST_TEST := REFUSED_WORK]
    ensures Locks(db, DISMISSAL) == {DisputeRow(DISPUTE), AssignmentRow(FIRST_TEST), SubmissionRow(WORK)}
  {
    hide Workflow.Approval;
  }

  lemma WorkIsOver(db: Db, after: map<Id, Assignment>)
    requires Contested(db) && after == db.assignments + map[FIRST_TEST := REFUSED_WORK]
    ensures var rows := Campaigns.Declined(db.assignments, BETA, LATER);
            && WithStatus(db.assignments + rows, BETA, ACTIVE) != {}
            && WithStatus(after + rows, BETA, ACTIVE) == {}
  {
    var rows := Campaigns.Declined(db.assignments, BETA, LATER);
    assert FIRST_TEST in WithStatus(db.assignments + rows, BETA, ACTIVE);
    assert SECOND_TEST in rows;
  }

  const CLOSING_ROWS: seq<Row> := [CampaignRow(BETA), AssignmentRow(SECOND_TEST)]
  const DISMISSAL_ROWS: seq<Row> := [DisputeRow(DISPUTE), AssignmentRow(FIRST_TEST), SubmissionRow(WORK)]

  /** The owner has decided to close, and then the moderator to dismiss; neither has finished. */
  ghost predicate BothDecided(x: Db, s: System) {
    && s.db == x && s.clock == LATER && 1 in s.open && 2 in s.open
    && s.open[1].request == CLOSING && s.open[2].request == DISMISSAL
    && Handle(CFG, x, LATER, CLOSING).Ok? && Handle(CFG, x, LATER, DISMISSAL).Ok?
    && s.open[1].plan == Some(Plan(x, LATER, Handle(CFG, x, LATER, CLOSING).value))
    && s.open[2].plan == Some(Plan(x, LATER, Handle(CFG, x, LATER, DISMISSAL).value))
  }

  lemma BothDecide(s: System) returns (actions: seq<Action>)
    requires Consistent(CFG, s) && s.open == map[] && s.clock == LATER && Contested(s.db)
    ensures BothDecided(s.db, DoAll(CFG, s, actions)) && Consistent(CFG, DoAll(CFG, s, actions))
  {
    hide Consistent, Handle, Locks, DoAll, Contested, Acquiring;
    MayClose(s.db);
    MayDismiss(s.db);
    RowsThere(s.db);
    assert Members(CLOSING_ROWS) == {CampaignRow(BETA), AssignmentRow(SECOND_TEST)};
    assert Members(DISMISSAL_ROWS) == {DisputeRow(DISPUTE), AssignmentRow(FIRST_TEST), SubmissionRow(WORK)};
    var first := Acquiring(1, CLOSING, CLOSING_ROWS) + [Decide(1)];
    CanDecide(CFG, s, 1, CLOSING, CLOSING_ROWS);
    DoneKeeps(CFG, s, first);
    var t := DoAll(CFG, s, first);
    var second := Acquiring(2, DISMISSAL, DISMISSAL_ROWS) + [Decide(2)];
    CanDecide(CFG, t, 2, DISMISSAL, DISMISSAL_ROWS);
    DoneKeeps(CFG, t, second);
    actions := first + second;
    DoneThen(CFG, s, first, second);
  }

  lemma RowsThere(db: Db)
    requires Contested(db)
    ensures forall row :: row in CLOSING_ROWS || row in DISMISSAL_ROWS ==> Exists(db, row)
  {
  }

  lemma {:induction false} DoneThen(cfg: Config, s: System, first: seq<Action>, second: seq<Action>)
    ensures DoAll(cfg, s, first + second) == DoAll(cfg, DoAll(cfg, s, first), second)
  {
    hide Do;
    if second == [] {
      assert first + second == first;
    } else {
      var all := first + second;
      assert all[..|all| - 1] == first + second[..|second| - 1] && all[|all| - 1] == second[|second| - 1];
      DoneThen(cfg, s, first, second[..|second| - 1]);
    }
  }

  /** The dismissal finishes first; then the closing is outdated. */
  lemma ClosingIsLate(x: Db, s: System)
    requires Contested(x) && BothDecided(x, s)
    ensures var t := Finished(s, 2);
            && 1 in t.open && t.open[1] == s.open[1]
            && Settling.Outdated(x, t.db, CLOSING, Handle(CFG, x, LATER, CLOSING).value.assignments)
  {
    hide Contested, Handle, Locks, Commit, WithStatus, Settling.Outdated;
    MayDismiss(x);
    MayClose(x);
    var w := Handle(CFG, x, LATER, DISMISSAL).value;
    CommitTables(x, w);
    OutdatedClosing(x, Commit(x, w));
  }

  lemma OutdatedClosing(x: Db, after: Db)
    requires Contested(x) && after.assignments == x.assignments + map[FIRST_TEST := REFUSED_WORK]
    ensures Settling.Outdated(x, after, CLOSING, Campaigns.Declined(x.assignments, BETA, LATER))
  {
    WorkIsOver(x, after.assignments);
    hide WithStatus, Campaigns.Declined;
  }

  /** What is committed late: the campaign stays closed that would be completed. */
  lemma LeftClosed(s: System)
    requires Consistent(CFG, s) && 1 in s.open && s.open[1].plan.Some? && s.open[1].request == CLOSING
    requires s.open[1].plan.value.decidedAt == LATER
    requires Settling.Outdated(s.open[1].plan.value.view, s.db, CLOSING, s.open[1].plan.value.writes.assignments)
    ensures var late, serial := Finished(s, 1).db, Step(CFG, s.db, LATER, CLOSING);
            && BETA in late.campaigns && late.campaigns[BETA].status == Closed
            && BETA in serial.campaigns && serial.campaigns[BETA].status == Completed
  {
    hide Consistent, Handle, Locks, Commit, Settling.Outdated;
    FinishIsSerial(CFG, s, 1);
    StepIs(CFG, s.db, LATER, CLOSING);
    CommitTables(s.db, s.open[1].plan.value.writes);
    CommitTables(s.db, Handle(CFG, s.db, LATER, CLOSING).value);
  }

  /** A commit can be late: the owner closes while the moderator dismisses the last work. The closing,
      decided first and committed second, leaves the campaign closed, where the same request served
      at that moment would complete it. */
  lemma CommitCanBeLate() returns (cfg: Config, start: Time, actions: seq<Action>, id: nat, campaign: Id)
    ensures var s := AfterAll(cfg, start, actions);
            && id in s.open && s.open[id].plan.Some?
            && Agreement.Fresh(s.open[id].plan.value.view, s.db, s.open[id].request)
            && var late, serial := Finished(s, id).db, Step(cfg, s.db, s.clock, s.open[id].request);
            && campaign in late.campaigns && late.campaigns[campaign].status == Closed
            && campaign in serial.campaigns && serial.campaigns[campaign].status == Completed
  {
    hide Reached, After, Credits.HasKey, Credits.AccountBalance, AfterAll, Consistent, Contested, Do, DoAll, Stage,
      Step;
    hide Finished, Scene;
    var base := AwaitingReview();
    var run := Escalating(base);
    Histories.SerialRunsAreHistories(CFG, 0, run);
    var before := Histories.Served(run);
    EveryInterleavingKeeps(CFG, 0, before);
    var s := AfterAll(CFG, 0, before);
    var both := BothDecide(s);
    var t := DoAll(CFG, s, both);
    ClosingIsLate(s.db, t);
    DoOneMore(CFG, s, both, Finish(2));
    DoneKeeps(CFG, s, both + [Finish(2)]);
    Continued(CFG, 0, before, both + [Finish(2)]);
    Finishes(t, 2);
    LeftClosed(Finished(t, 2));
    cfg, start, actions, id, campaign := CFG, 0, before + (both + [Finish(2)]), 1, BETA;
  }

  lemma Finishes(s: System, id: nat)
    ensures Do(CFG, s, Finish(id)) == Finished(s, id)
    ensures Finished(s, id).clock == s.clock
  {
    hide Commit, Agreement.Fresh;
  }
}
