/** When a transaction is late: the exact circumstances in which the completion check it made under
    row locks differs from the one it would make when it commits. */
module Settling {
  import opened Model
  import opened Results
  import opened Invariants
  import opened Evolution
  import opened Requests
  import Agreement
  import Campaigns
  import Credits
  import Guarantees
  import Moderation
  import Preservation
  import Profiles
  import Workflow

  type Config = Profiles.Config

  /** The campaign whose completion a settling request checks. */
  function Settled(db: Db, r: Request): Option<Id> {
    match r
    case TransitionCampaign(c, _, action) => if action == Campaigns.Close then Some(c) else None
    case Withdraw(a, _) => CampaignIfAny(db, a)
    case Examine(s, _, decision) =>
      if decision == Approve && s in db.submissions then CampaignIfAny(db, db.submissions[s].assignment) else None
    case Resolve(d, _, ruling) =>
      if ruling.remedy == AwardTester && d in db.disputes then CampaignIfAny(db, db.disputes[d].assignment) else None
    case _ => None
  }

  function CampaignIfAny(db: Db, a: Id): Option<Id> {
    if a in db.assignments then Some(db.assignments[a].campaign) else None
  }

  /** The campaign as the completion check finds it. */
  function Judged(db: Db, r: Request, c: Id): Campaign
    requires c in db.campaigns
  {
    if r.TransitionCampaign? then db.campaigns[c].(status := Closed) else db.campaigns[c]
  }

  /** What a settling request writes: rows of its campaign that are not being worked on, and the
      campaign after the completion check. */
  ghost predicate Settlement(db: Db, r: Request, w: Writes) {
    && Settled(db, r).Some? && Settled(db, r).value in db.campaigns
    && SettlementOf(db, Settled(db, r).value, Judged(db, r, Settled(db, r).value), w)
  }

  ghost predicate SettlementOf(db: Db, c: Id, judged: Campaign, w: Writes) {
    && w.campaigns == map[c := Campaigns.MaybeComplete(judged, c, db.assignments + w.assignments)]
    && forall a :: a in w.assignments ==>
         && a in db.assignments && db.assignments[a].campaign == c && w.assignments[a].campaign == c
         && w.assignments[a].status !in ACTIVE
  }

  lemma SettlesItsCampaign(cfg: Config, db: Db, now: Time, r: Request)
    requires Agreement.Settles(r) && Handle(cfg, db, now, r).Ok?
    ensures Settlement(db, r, Handle(cfg, db, now, r).value)
  {
    hide Settled, Judged, SettlementOf, Campaigns.Transition, Workflow.Withdraw, Workflow.Examine, Moderation.Resolve;
    match r
    case TransitionCampaign(c, owner, _) => CloseSettles(db, now, c, owner);
    case Withdraw(a, tester) => WithdrawalSettles(db, now, a, tester);
    case Examine(s, reviewer, _) => ApprovalSettles(db, now, s, reviewer);
    case Resolve(d, moderator, ruling) => AwardSettles(db, now, d, moderator, ruling);
  }

  lemma CloseSettles(db: Db, now: Time, c: Id, owner: Id)
    requires Campaigns.Transition(db, now, c, owner, Campaigns.Close).Ok?
    ensures Settlement(db, TransitionCampaign(c, owner, Campaigns.Close),
                       Campaigns.Transition(db, now, c, owner, Campaigns.Close).value)
  {
    hide Campaigns.MaybeComplete, WithStatus, Campaigns.Declined;
    NoneAtWork(db.assignments, c, now);
  }

  lemma WithdrawalSettles(db: Db, now: Time, a: Id, tester: Id)
    requires Workflow.Withdraw(db, now, a, tester).Ok?
    ensures Settlement(db, Withdraw(a, tester), Workflow.Withdraw(db, now, a, tester).value)
  {
    hide Campaigns.MaybeComplete;
  }

  lemma ApprovalSettles(db: Db, now: Time, s: Id, reviewer: Id)
    requires Workflow.Examine(db, now, s, reviewer, Approve).Ok?
    ensures Settlement(db, Examine(s, reviewer, Approve), Workflow.Examine(db, now, s, reviewer, Approve).value)
  {
    hide Campaigns.MaybeComplete, Workflow.HasActiveDispute;
  }

  lemma AwardSettles(db: Db, now: Time, d: Id, moderator: Id, ruling: Moderation.Ruling)
    requires ruling.remedy == AwardTester && Moderation.Resolve(db, now, d, moderator, ruling).Ok?
    ensures Settlement(db, Resolve(d, moderator, ruling), Moderation.Resolve(db, now, d, moderator, ruling).value)
  {
    hide Campaigns.MaybeComplete;
  }

  lemma NoneAtWork(assignments: map<Id, Assignment>, c: Id, now: Time)
    ensures var rows := Campaigns.Declined(assignments, c, now);
            forall a :: a in rows ==>
              a in assignments && assignments[a].campaign == c && rows[a].campaign == c && rows[a].status == Cancelled
  {
  }

  // ----- the rows of a settlement -----------------------------------------------------------

  /** Existing rows that are held are overwritten, and reviews and ledger entries added. */
  ghost predicate Within(db: Db, w: Writes, held: set<Row>) {
    && w == NOTHING.(campaigns := w.campaigns, assignments := w.assignments, submissions := w.submissions,
                     reviews := w.reviews, disputes := w.disputes, accounts := w.accounts, entries := w.entries)
    && (forall c :: c in w.campaigns ==>
          CampaignRow(c) in held && c in db.campaigns && w.campaigns[c].slug == db.campaigns[c].slug)
    && (forall a :: a in w.assignments ==> AssignmentRow(a) in held && a in db.assignments)
    && (forall s :: s in w.submissions ==> SubmissionRow(s) in held && s in db.submissions)
    && (forall d :: d in w.disputes ==> DisputeRow(d) in held && d in db.disputes)
    && (forall u :: u in w.accounts ==> AccountRow(u) in held)
  }

  lemma SettlesWithin(cfg: Config, db: Db, now: Time, r: Request, held: set<Row>)
    requires Agreement.Settles(r) && Handle(cfg, db, now, r).Ok? && Locks(db, r) <= held
    ensures Within(db, Handle(cfg, db, now, r).value, held)
  {
    hide Within, Campaigns.Transition, Workflow.Withdraw, Workflow.Examine, Moderation.Resolve, ApplicationRows;
    hide CampaignOf, DecisionRows, RulingRows;
    match r
    case TransitionCampaign(c, owner, _) => CloseWithin(db, now, c, owner, held);
    case Withdraw(a, tester) => WithdrawalWithin(db, now, a, tester, held);
    case Examine(s, reviewer, _) => ApprovalWithin(db, now, s, reviewer, held);
    case Resolve(d, moderator, ruling) => AwardWithin(db, now, d, moderator, ruling, held);
  }

  lemma CloseWithin(db: Db, now: Time, c: Id, owner: Id, held: set<Row>)
    requires Campaigns.Transition(db, now, c, owner, Campaigns.Close).Ok?
    requires CampaignRow(c) in held && ApplicationRows(db.assignments, c) <= held
    ensures Within(db, Campaigns.Transition(db, now, c, owner, Campaigns.Close).value, held)
  {
    hide Campaigns.Finished;
    forall a | a in Campaigns.Declined(db.assignments, c, now)
      ensures AssignmentRow(a) in held && a in db.assignments
    {
      assert AssignmentRow(a) in ApplicationRows(db.assignments, c);
    }
    hide Campaigns.Declined, ApplicationRows, WithStatus;
  }

  lemma WithdrawalWithin(db: Db, now: Time, a: Id, tester: Id, held: set<Row>)
    requires Workflow.Withdraw(db, now, a, tester).Ok? && AssignmentRow(a) in held && CampaignOf(db, a) <= held
    ensures Within(db, Workflow.Withdraw(db, now, a, tester).value, held)
  {
    hide Campaigns.Finished;
  }

  /** The rows an approval writes. */
  lemma ApprovalRows(db: Db, now: Time, id: Id, s: Submission, a: Id, row: Assignment, c: Campaign)
    requires Workflow.Approval(db, now, id, s, a, row, c).Ok?
    ensures var w := Workflow.Approval(db, now, id, s, a, row, c).value;
            && w == NOTHING.(campaigns := w.campaigns, assignments := w.assignments, submissions := w.submissions,
                             accounts := w.accounts, entries := w.entries)
            && w.submissions.Keys == {id} && w.assignments.Keys == {a}
            && w.campaigns.Keys == {row.campaign} && w.campaigns[row.campaign].slug == c.slug
            && w.accounts.Keys <= {row.tester}
  {
    hide Campaigns.Finished, Credits.HasKey, Credits.AccountBalance;
  }

  lemma ApprovalWithin(db: Db, now: Time, s: Id, reviewer: Id, held: set<Row>)
    requires Workflow.Examine(db, now, s, reviewer, Approve).Ok? && SubmissionRow(s) in held
    requires s in db.submissions ==> DecisionRows(db, db.submissions[s].assignment, true) <= held
    ensures Within(db, Workflow.Examine(db, now, s, reviewer, Approve).value, held)
  {
    hide Workflow.Approval, Workflow.HasActiveDispute, DecisionRows;
    var a := db.submissions[s].assignment;
    Guarantees.DecisionRowsAre(db, a, true);
    ApprovalRows(db, now, s, db.submissions[s], a, db.assignments[a], db.campaigns[db.assignments[a].campaign]);
  }

  lemma AwardWithin(db: Db, now: Time, d: Id, moderator: Id, ruling: Moderation.Ruling, held: set<Row>)
    requires ruling.remedy == AwardTester && Moderation.Resolve(db, now, d, moderator, ruling).Ok?
    requires DisputeRow(d) in held && (d in db.disputes ==> RulingRows(db, db.disputes[d], ruling) <= held)
    ensures Within(db, Moderation.Resolve(db, now, d, moderator, ruling).value, held)
  {
    hide Workflow.Approval, DecisionRows, RulingRows;
    var a, s := db.disputes[d].assignment, db.disputes[d].submission.value;
    Guarantees.DecisionRowsAre(db, a, true);
    Guarantees.RulingRowsAre(db, db.disputes[d], ruling);
    ApprovalRows(db, now, s, db.submissions[s], a, db.assignments[a], db.campaigns[db.assignments[a].campaign]);
  }

  // ----- late, exactly ----------------------------------------------------------------------

  /** The request judged a closed campaign while work was going on in it that is over by now. */
  ghost predicate Outdated(view: Db, db: Db, r: Request, rows: map<Id, Assignment>) {
    && Settled(view, r).Some? && Settled(view, r).value in view.campaigns
    && Judged(view, r, Settled(view, r).value).status == Closed
    && WithStatus(view.assignments + rows, Settled(view, r).value, ACTIVE) != {}
    && WithStatus(db.assignments + rows, Settled(view, r).value, ACTIVE) == {}
  }

  /** Accepted work carries the time of its acceptance. */
  ghost predicate Accountable(assignments: map<Id, Assignment>) {
    forall a :: a in assignments && assignments[a].status in ACTIVE ==> assignments[a].acceptedAt.Some?
  }

  lemma AccountableRows(profiles: map<Id, string>, campaigns: map<Id, Campaign>, assignments: map<Id, Assignment>)
    requires Assigned(profiles, campaigns, assignments)
    ensures Accountable(assignments)
  {
    forall a | a in assignments
      ensures AssignmentFits(assignments[a], profiles, campaigns)
    {
    }
  }

  /** Two completion checks differ exactly when the earlier one saw work that is over by the later. */
  lemma ChecksDiffer(x: Campaign, c: Id, v: map<Id, Assignment>, d: map<Id, Assignment>)
    requires Agreement.Drifted(v, d, c) && Accountable(v)
    ensures var late, early := Campaigns.MaybeComplete(x, c, v), Campaigns.MaybeComplete(x, c, d);
            && (late != early <==>
                  x.status == Closed && WithStatus(v, c, ACTIVE) != {} && WithStatus(d, c, ACTIVE) == {})
            && (late != early ==> late == x && early == x.(status := Completed))
  {
    Agreement.SameCounts(c, v, d);
    SomebodyWasAccepted(c, v);
    Agreement.ActiveShrinks(c, v, d);
    Nobody(WithStatus(v, c, ACTIVE));
    Nobody(WithStatus(d, c, ACTIVE));
    Nobody(EverAccepted(v, c));
    hide Agreement.Drifted, WithStatus, EverAccepted, Accountable;
  }

  lemma SomebodyWasAccepted(c: Id, v: map<Id, Assignment>)
    requires Accountable(v)
    ensures WithStatus(v, c, ACTIVE) != {} ==> EverAccepted(v, c) != {}
  {
    if WithStatus(v, c, ACTIVE) != {} {
      var a :| a in WithStatus(v, c, ACTIVE);
      assert a in EverAccepted(v, c);
    }
  }

  lemma Nobody<T>(s: set<T>)
    ensures |s| == 0 <==> s == {}
  {
  }

  lemma LocksItsCampaign(view: Db, r: Request)
    requires Settled(view, r).Some?
    ensures Agreement.Settles(r) && CampaignRow(Settled(view, r).value) in Locks(view, r)
  {
  }

  lemma RowsPlus(v: map<Id, Assignment>, rows: map<Id, Assignment>)
    requires Accountable(v) && forall a :: a in rows ==> rows[a].status !in ACTIVE
    ensures Accountable(v + rows)
  {
  }

  /** A decision taken under row locks differs from the one that would be taken at the commit if and
      only if it is outdated; then it leaves closed what would be completed, and nothing else. */
  lemma LateExactlyWhenOutdated(cfg: Config, view: Db, db: Db, now: Time, t: Time, r: Request, held: set<Row>)
    requires Inv(cfg, view, now) && Inv(cfg, db, t) && Evolves(view, db, held)
    requires Agreement.Fresh(view, db, r) && Locks(view, r) <= held
    requires Handle(cfg, view, now, r).Ok?
    ensures Handle(cfg, db, now, r).Ok?
    ensures var mine, serial := Handle(cfg, view, now, r).value, Handle(cfg, db, now, r).value;
            && (mine != serial <==> Outdated(view, db, r, mine.assignments))
            && (mine != serial ==> StaysClosed(view, r, mine, serial))
  {
    hide *;
    Agreement.Agrees(cfg, view, db, now, t, r, held);
    Answers(cfg, view, db, now, r);
    if Agreement.Settles(r) {
      SettlesItsCampaign(cfg, view, now, r);
      SettlesItsCampaign(cfg, db, now, r);
      SettlesOn(view, r, Handle(cfg, view, now, r).value);
      SameSettled(view, db, r, held);
      LocksItsCampaign(view, r);
      Preservation.Parts(cfg, view, now);
      AccountableRows(view.profiles, view.campaigns, view.assignments);
      Compared(view, db, r, Handle(cfg, view, now, r).value, Handle(cfg, db, now, r).value, held);
    } else {
      NotSettling(view, db, r, Handle(cfg, view, now, r).value.assignments);
    }
  }

  ghost predicate StaysClosed(view: Db, r: Request, mine: Writes, serial: Writes) {
    && Settled(view, r).Some? && Settled(view, r).value in view.campaigns
    && var c := Settled(view, r).value;
       mine.campaigns == map[c := Judged(view, r, c)]
       && serial == mine.(campaigns := map[c := Judged(view, r, c).(status := Completed)])
  }

  lemma Answers(cfg: Config, view: Db, db: Db, now: Time, r: Request)
    requires Agreement.Agree(cfg, view, db, now, r)
    ensures Handle(cfg, db, now, r).Ok? && Handle(cfg, view, now, r).Ok?
    ensures var mine, serial := Handle(cfg, view, now, r).value, Handle(cfg, db, now, r).value;
            && serial == mine.(campaigns := serial.campaigns)
            && (!Agreement.Settles(r) ==> mine == serial)
  {
    hide Handle;
  }

  lemma SettlesOn(db: Db, r: Request, w: Writes)
    requires Settlement(db, r, w)
    ensures Settled(db, r).Some?
  {
    hide Settled, SettlementOf;
  }

  /** A row never moves to another campaign. */
  lemma SameSettled(view: Db, db: Db, r: Request, held: set<Row>)
    requires Evolves(view, db, held) && Settled(view, r).Some?
    ensures Settled(db, r) == Settled(view, r)
  {
  }

  lemma NotSettling(view: Db, db: Db, r: Request, rows: map<Id, Assignment>)
    requires !Agreement.Settles(r)
    ensures !Outdated(view, db, r, rows)
  {
  }

  lemma Compared(view: Db, db: Db, r: Request, mine: Writes, serial: Writes, held: set<Row>)
    requires Evolves(view, db, held) && Settlement(view, r, mine) && Settlement(db, r, serial)
    requires Settled(db, r) == Settled(view, r) && CampaignRow(Settled(view, r).value) in held
    requires Accountable(view.assignments) && serial == mine.(campaigns := serial.campaigns)
    ensures mine != serial <==> Outdated(view, db, r, mine.assignments)
    ensures mine != serial ==> StaysClosed(view, r, mine, serial)
  {
    hide Settled, WithStatus, Campaigns.MaybeComplete, Accountable, Evolves, Agreement.Drifted, Judged;
    var c := Settled(view, r).value;
    Agreement.FewerPlaces(view, db, c, held);
    SameJudged(view, db, r, c, held);
    CheckedTwice(c, Judged(view, r, c), view.assignments, db.assignments, mine, serial);
  }

  lemma CheckedTwice(c: Id, x: Campaign, v: map<Id, Assignment>, d: map<Id, Assignment>, mine: Writes, serial: Writes)
    requires Agreement.Drifted(v, d, c) && Accountable(v)
    requires forall a :: a in mine.assignments ==> mine.assignments[a].status !in ACTIVE
    requires mine.campaigns == map[c := Campaigns.MaybeComplete(x, c, v + mine.assignments)]
    requires serial.campaigns == map[c := Campaigns.MaybeComplete(x, c, d + mine.assignments)]
    requires serial == mine.(campaigns := serial.campaigns)
    ensures mine != serial <==>
              && x.status == Closed && WithStatus(v + mine.assignments, c, ACTIVE) != {}
              && WithStatus(d + mine.assignments, c, ACTIVE) == {}
    ensures mine != serial ==> mine.campaigns == map[c := x] && serial.campaigns == map[c := x.(status := Completed)]
  {
    hide WithStatus, Campaigns.MaybeComplete, Accountable, Agreement.Drifted;
    var rows := mine.assignments;
    Agreement.DriftedPlus(v, d, c, rows);
    RowsPlus(v, rows);
    ChecksDiffer(x, c, v + rows, d + rows);
    OneRow(c, Campaigns.MaybeComplete(x, c, v + rows), Campaigns.MaybeComplete(x, c, d + rows), mine, serial);
  }

  lemma SameJudged(view: Db, db: Db, r: Request, c: Id, held: set<Row>)
    requires Evolves(view, db, held) && CampaignRow(c) in held && c in view.campaigns && c in db.campaigns
    ensures Judged(db, r, c) == Judged(view, r, c)
  {
    hide Evolves;
    Agreement.FrozenRow(view, db, c, held);
  }

  lemma OneRow(c: Id, x: Campaign, y: Campaign, mine: Writes, serial: Writes)
    requires mine.campaigns == map[c := x] && serial.campaigns == map[c := y]
    requires serial == mine.(campaigns := serial.campaigns)
    ensures mine != serial <==> x != y
  {
    assert map[c := x][c] == x && map[c := y][c] == y;
  }
}
