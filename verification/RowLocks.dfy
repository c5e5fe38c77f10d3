/** The exchange at the granularity of row locks: any number of transactions lock rows one by one,
    decide on what they see, and commit or abort, in any interleaving. */
module RowLocks {
  import opened Model
  import opened Results
  import opened Invariants
  import opened Evolution
  import opened Requests
  import Agreement
  import Guarantees
  import Profiles
  import Runs
  import Settling

  type Config = Profiles.Config

  /** What a transaction is about to write, decided at one moment on the database it saw. */
  datatype Plan = Plan(view: Db, decidedAt: Time, writes: Writes)

  /** `seen` holds the locked rows as they were when they were locked. */
  datatype Transaction = Transaction(request: Request, held: set<Row>, seen: Writes, plan: Option<Plan>)

  datatype System = System(db: Db, clock: Time, open: map<nat, Transaction>)

  datatype Action =
    | Tick(to: Time)
    | Begin(id: nat, request: Request)
    | Acquire(id: nat, row: Row)
    | Decide(id: nat)
    | Finish(id: nat)
    | Abort(id: nat)
    | Serve(request: Request)

  /** The services that lock the rows they rely on; the others read without locking. */
  predicate Locking(r: Request) {
    !(r.UpdateCampaign? || r.UpsertContract? || r.Start?)
  }

  /** The row a `SELECT ... FOR UPDATE` returns. */
  function Read(db: Db, row: Row): Writes
    requires Exists(db, row)
  {
    match row
    case SeatsRow => NOTHING.(seats := db.seats)
    case ProfileRow(u) => NOTHING.(profiles := map[u := db.profiles[u]])
    case CampaignRow(c) => NOTHING.(campaigns := map[c := db.campaigns[c]])
    case AssignmentRow(a) => NOTHING.(assignments := map[a := db.assignments[a]])
    case SubmissionRow(s) => NOTHING.(submissions := map[s := db.submissions[s]])
    case DisputeRow(d) => NOTHING.(disputes := map[d := db.disputes[d]])
    case AccountRow(u) => NOTHING.(accounts := map[u := db.accounts[u]])
  }

  /** No open transaction holds any of the rows. */
  predicate Free(open: map<nat, Transaction>, rows: set<Row>) {
    forall i | i in open :: rows !! open[i].held
  }

  function Locked(s: System, id: nat, row: Row): System {
    if id in s.open && s.open[id].plan.None? && Exists(s.db, row) && Free(s.open, {row}) then
      var x := s.open[id];
      s.(open := s.open[id := x.(held := x.held + {row}, seen := Then(x.seen, Read(s.db, row)))])
    else s
  }

  /** The service runs on the rows it locked and on whatever else is committed now. A refusal rolls
      back. Nothing happens until every row the request needs is locked. */
  function Decided(cfg: Config, s: System, id: nat): System {
    if id in s.open && s.open[id].plan.None? then
      var x := s.open[id];
      var view := Commit(s.db, x.seen);
      if !(Locks(view, x.request) <= x.held) then s
      else
        match Handle(cfg, view, s.clock, x.request)
        case Ok(w) => s.(open := s.open[id := x.(plan := Some(Plan(view, s.clock, w)))])
        case Err(_) => s.(open := s.open - {id})
    else s
  }

  /** The planned writes are committed and the locks released; a key taken meanwhile rolls back. */
  function Finished(s: System, id: nat): System {
    if id in s.open && s.open[id].plan.Some? then
      var x := s.open[id];
      System(if Agreement.Fresh(x.plan.value.view, s.db, x.request) then Commit(s.db, x.plan.value.writes) else s.db,
             s.clock, s.open - {id})
    else s
  }

  /** A request in a single step, which waits for the rows it would lock or overwrite. The requests
      that are not cut at locks are only served this way. */
  function Served(cfg: Config, s: System, r: Request): System {
    if Free(s.open, Locks(s.db, r)) then s.(db := Step(cfg, s.db, s.clock, r)) else s
  }

  function Do(cfg: Config, s: System, x: Action): System {
    match x
    case Tick(to) => if s.clock <= to then s.(clock := to) else s
    case Begin(id, r) =>
      if id in s.open || !Locking(r) then s
      else s.(open := s.open[id := Transaction(r, {}, NOTHING, None)])
    case Acquire(id, row) => Locked(s, id, row)
    case Decide(id) => Decided(cfg, s, id)
    case Finish(id) => Finished(s, id)
    case Abort(id) => s.(open := s.open - {id})
    case Serve(r) => Served(cfg, s, r)
  }

  /** From a new database, with the clock at `start`. */
  function AfterAll(cfg: Config, start: Time, actions: seq<Action>): System {
    if actions == [] then System(Initial(cfg), start, map[])
    else Do(cfg, AfterAll(cfg, start, actions[..|actions| - 1]), actions[|actions| - 1])
  }

  // ----- the invariant ----------------------------------------------------------------------

  ghost predicate Matches<V>(rows: map<Id, V>, seen: map<Id, V>, locks: set<Id>) {
    forall k :: k in seen ==> k in locks && k in rows && rows[k] == seen[k]
  }

  function CampaignsIn(held: set<Row>): set<Id> {
    set row | row in held && row.CampaignRow? :: row.campaign
  }

  function AssignmentsIn(held: set<Row>): set<Id> {
    set row | row in held && row.AssignmentRow? :: row.assignment
  }

  function SubmissionsIn(held: set<Row>): set<Id> {
    set row | row in held && row.SubmissionRow? :: row.submission
  }

  function DisputesIn(held: set<Row>): set<Id> {
    set row | row in held && row.DisputeRow? :: row.dispute
  }

  function AccountsIn(held: set<Row>): set<Id> {
    set row | row in held && row.AccountRow? :: row.holder
  }

  function ProfilesIn(held: set<Row>): set<Id> {
    set row | row in held && row.ProfileRow? :: row.user
  }

  /** Only tables whose rows can be locked. */
  predicate RowsOnly(seen: Writes) {
    seen == NOTHING.(profiles := seen.profiles, seats := seen.seats, campaigns := seen.campaigns,
                     assignments := seen.assignments, submissions := seen.submissions,
                     disputes := seen.disputes, accounts := seen.accounts)
  }

  /** The rows read under lock are still what the database holds. */
  ghost predicate Current(db: Db, seen: Writes, held: set<Row>) {
    && RowsOnly(seen)
    && (seen.seats.Some? ==> SeatsRow in held && db.seats == seen.seats)
    && Matches(db.profiles, seen.profiles, ProfilesIn(held))
    && Matches(db.campaigns, seen.campaigns, CampaignsIn(held))
    && Matches(db.assignments, seen.assignments, AssignmentsIn(held))
    && Matches(db.submissions, seen.submissions, SubmissionsIn(held))
    && Matches(db.disputes, seen.disputes, DisputesIn(held))
    && Matches(db.accounts, seen.accounts, AccountsIn(held))
  }

  /** The plan was the right answer when it was made, and everything since went around its locks. */
  ghost predicate Planned(cfg: Config, db: Db, clock: Time, r: Request, held: set<Row>, plan: Plan) {
    && plan.decidedAt <= clock
    && Inv(cfg, plan.view, plan.decidedAt)
    && Handle(cfg, plan.view, plan.decidedAt, r) == Ok(plan.writes)
    && Locks(plan.view, r) <= held
    && Evolves(plan.view, db, held)
  }

  ghost predicate TransactionFits(cfg: Config, db: Db, clock: Time, x: Transaction) {
    && (forall row :: row in x.held ==> Exists(db, row))
    && Current(db, x.seen, x.held)
    && (x.plan.Some? ==> Planned(cfg, db, clock, x.request, x.held, x.plan.value))
  }

  ghost predicate AllFit(cfg: Config, db: Db, clock: Time, open: map<nat, Transaction>) {
    forall i :: i in open ==> TransactionFits(cfg, db, clock, open[i])
  }

  /** No row is locked twice. */
  ghost predicate Exclusive(open: map<nat, Transaction>) {
    forall i, j :: i in open && j in open && i != j ==> open[i].held !! open[j].held
  }

  ghost predicate Consistent(cfg: Config, s: System) {
    && Inv(cfg, s.db, s.clock)
    && AllFit(cfg, s.db, s.clock, s.open)
    && Exclusive(s.open)
  }

  // ----- what one transaction does to the others --------------------------------------------

  lemma StillCurrent(before: Db, after: Db, seen: Writes, held: set<Row>)
    requires Current(before, seen, held) && Evolves(before, after, held)
    ensures Current(after, seen, held)
  {
  }

  lemma StillExists(before: Db, after: Db, held: set<Row>, row: Row)
    requires Evolves(before, after, held) && Exists(before, row)
    ensures Exists(after, row)
  {
  }

  lemma Survives(cfg: Config, before: Db, after: Db, clock: Time, x: Transaction)
    requires TransactionFits(cfg, before, clock, x) && Evolves(before, after, x.held)
    ensures TransactionFits(cfg, after, clock, x)
  {
    hide Evolves, Inv, Current, Handle, Locks;
    StillCurrent(before, after, x.seen, x.held);
    forall row | row in x.held
      ensures Exists(after, row)
    {
      StillExists(before, after, x.held, row);
    }
    if x.plan.Some? {
      Transitive(x.plan.value.view, before, after, x.held);
    }
  }

  lemma AllSurvive(cfg: Config, before: Db, after: Db, clock: Time, open: map<nat, Transaction>)
    requires AllFit(cfg, before, clock, open)
    requires forall i :: i in open ==> Evolves(before, after, open[i].held)
    ensures AllFit(cfg, after, clock, open)
  {
    hide TransactionFits, Evolves;
    forall i | i in open
      ensures TransactionFits(cfg, after, clock, open[i])
    {
      Survives(cfg, before, after, clock, open[i]);
    }
  }

  /** Writing late is an evolution like writing in time. */
  lemma LateEvolves(db: Db, mine: Writes, serial: Writes, c: Id, held: set<Row>)
    requires Agreement.Late(db, mine, serial, c) && Evolves(db, Commit(db, serial), held)
    ensures Evolves(db, Commit(db, mine), held)
  {
    var good, late := Commit(db, serial), Commit(db, mine);
    Agreement.LateShape(db, mine, serial, c);
    LateCampaigns(db.campaigns, good.campaigns, late.campaigns, c, held);
    hide Commit, CampaignsEvolve, WithStatus, AssignmentsEvolve, SubmissionsEvolve, DisputesEvolve, SessionsEvolve;
  }

  lemma LateCampaigns(before: map<Id, Campaign>, good: map<Id, Campaign>, late: map<Id, Campaign>, c: Id,
                      held: set<Row>)
    requires CampaignsEvolve(before, good, held) && c in good && good[c].status == Completed
    requires c in before && before[c].status != Completed
    requires late == good + map[c := good[c].(status := Closed)]
    ensures CampaignsEvolve(before, late, held)
  {
    assert CampaignEvolves(before[c], good[c], CampaignRow(c) in held);
  }

  /** What a finishing transaction commits, seen by a transaction holding other rows. */
  lemma FinishEvolves(cfg: Config, db: Db, clock: Time, x: Transaction, held: set<Row>)
    requires Inv(cfg, db, clock) && TransactionFits(cfg, db, clock, x) && x.plan.Some?
    requires Agreement.Fresh(x.plan.value.view, db, x.request)
    requires held !! x.held && forall row :: row in held ==> Exists(db, row)
    ensures Evolves(db, Commit(db, x.plan.value.writes), held)
  {
    var p := x.plan.value;
    hide Inv, Current, Evolves, Handle, Locks, Commit, Exists, Agreement.Late, Agreement.Fresh;
    Agreement.Agrees(cfg, p.view, db, p.decidedAt, clock, x.request, x.held);
    Agreement.SameLocks(cfg, p.view, db, p.decidedAt, x.request, x.held);
    var serial := Handle(cfg, db, p.decidedAt, x.request).value;
    Guarantees.Guarantee(cfg, db, clock, p.decidedAt, x.request, held);
    if p.writes != serial {
      var c :| Agreement.Late(db, p.writes, serial, c);
      LateEvolves(db, p.writes, serial, c, held);
    }
  }

  lemma FinishKeepsInv(cfg: Config, db: Db, clock: Time, x: Transaction)
    requires Inv(cfg, db, clock) && TransactionFits(cfg, db, clock, x) && x.plan.Some?
    requires Agreement.Fresh(x.plan.value.view, db, x.request)
    ensures Inv(cfg, Commit(db, x.plan.value.writes), clock)
  {
    var p := x.plan.value;
    hide Inv, Current, Evolves, Handle, Locks, Commit, Exists, Runs.Timely, Agreement.Late;
    hide Agreement.Fresh;
    Agreement.Agrees(cfg, p.view, db, p.decidedAt, clock, x.request, x.held);
    Agreement.StillTimely(cfg, p.view, db, p.decidedAt, x.request, x.held);
    var serial := Handle(cfg, db, p.decidedAt, x.request).value;
    Runs.HandleKeeps(cfg, db, clock, p.decidedAt, x.request);
    if p.writes != serial {
      var c :| Agreement.Late(db, p.writes, serial, c);
      Agreement.LateKeeps(cfg, db, clock, p.writes, serial, c);
    }
  }

  /** A committed transaction is the request served alone, at the moment it was decided, on the
      database it is committed to, if and only if it is not outdated. An outdated one leaves closed
      the campaign that would be completed, and differs in nothing else. */
  lemma FinishIsSerial(cfg: Config, s: System, id: nat)
    requires Consistent(cfg, s) && id in s.open && s.open[id].plan.Some?
    requires Agreement.Fresh(s.open[id].plan.value.view, s.db, s.open[id].request)
    ensures var x := s.open[id];
            var p := x.plan.value;
            var serial := Handle(cfg, s.db, p.decidedAt, x.request);
            && p.decidedAt <= s.clock
            && serial.Ok?
            && (p.writes != serial.value <==> Settling.Outdated(p.view, s.db, x.request, p.writes.assignments))
            && (p.writes != serial.value ==> Settling.StaysClosed(p.view, x.request, p.writes, serial.value))
            && Locks(s.db, x.request) <= x.held
  {
    var x := s.open[id];
    assert TransactionFits(cfg, s.db, s.clock, x);
    var p := x.plan.value;
    hide Inv, Current, Evolves, Handle, Locks, Exists, Agreement.Fresh, Settling.Outdated;
    hide Settling.StaysClosed;
    Settling.LateExactlyWhenOutdated(cfg, p.view, s.db, p.decidedAt, s.clock, x.request, x.held);
    Agreement.SameLocks(cfg, p.view, s.db, p.decidedAt, x.request, x.held);
  }

  // ----- every action -----------------------------------------------------------------------

  lemma TickKeeps(cfg: Config, s: System, to: Time)
    requires Consistent(cfg, s) && s.clock <= to
    ensures Consistent(cfg, s.(clock := to))
  {
    hide Inv, Current, Evolves, Handle, Locks, Exists;
    Runs.Later(cfg, s.db, s.clock, to);
    forall i | i in s.open
      ensures TransactionFits(cfg, s.db, to, s.open[i])
    {
      assert TransactionFits(cfg, s.db, s.clock, s.open[i]);
    }
  }

  lemma CurrentIsNow(db: Db, seen: Writes, held: set<Row>)
    requires Current(db, seen, held)
    ensures Commit(db, seen) == db
  {
    SameRows(db.profiles, seen.profiles);
    SameRows(db.campaigns, seen.campaigns);
    SameRows(db.assignments, seen.assignments);
    SameRows(db.submissions, seen.submissions);
    SameRows(db.disputes, seen.disputes);
    SameRows(db.accounts, seen.accounts);
    Untouched(db, seen);
  }

  lemma SameRows<V>(rows: map<Id, V>, seen: map<Id, V>)
    requires forall k :: k in seen ==> k in rows && rows[k] == seen[k]
    ensures rows + seen == rows
  {
  }

  /** Reading one more row adds that row and nothing else. */
  lemma AlsoRead(db: Db, seen: Writes, row: Row)
    requires Exists(db, row) && RowsOnly(seen)
    ensures var r := Read(db, row);
            Then(seen, r) ==
            seen.(profiles := seen.profiles + r.profiles, seats := if r.seats.Some? then r.seats else seen.seats,
                  campaigns := seen.campaigns + r.campaigns, assignments := seen.assignments + r.assignments,
                  submissions := seen.submissions + r.submissions, disputes := seen.disputes + r.disputes,
                  accounts := seen.accounts + r.accounts)
  {
    PlusNone(seen.contracts);
    PlusNone(seen.reviews);
  }

  lemma BothMatch<V>(rows: map<Id, V>, seen: map<Id, V>, also: map<Id, V>, locks: set<Id>, more: set<Id>, all: set<Id>)
    requires Matches(rows, seen, locks) && Matches(rows, also, more) && locks <= all && more <= all
    ensures Matches(rows, seen + also, all)
  {
  }

  lemma MoreLocks(held: set<Row>, row: Row)
    ensures ProfilesIn(held) <= ProfilesIn(held + {row}) && ProfilesIn({row}) <= ProfilesIn(held + {row})
    ensures CampaignsIn(held) <= CampaignsIn(held + {row}) && CampaignsIn({row}) <= CampaignsIn(held + {row})
    ensures AssignmentsIn(held) <= AssignmentsIn(held + {row}) && AssignmentsIn({row}) <= AssignmentsIn(held + {row})
    ensures SubmissionsIn(held) <= SubmissionsIn(held + {row}) && SubmissionsIn({row}) <= SubmissionsIn(held + {row})
    ensures DisputesIn(held) <= DisputesIn(held + {row}) && DisputesIn({row}) <= DisputesIn(held + {row})
    ensures AccountsIn(held) <= AccountsIn(held + {row}) && AccountsIn({row}) <= AccountsIn(held + {row})
  {
  }

  lemma ReadIsCurrent(db: Db, seen: Writes, held: set<Row>, row: Row)
    requires Current(db, seen, held) && Exists(db, row)
    ensures Current(db, Then(seen, Read(db, row)), held + {row})
  {
    AlsoRead(db, seen, row);
    ReadMatches(db, row);
    MoreLocks(held, row);
    var r, all := Read(db, row), held + {row};
    hide Then, Exists, Read, Matches, ProfilesIn, CampaignsIn, AssignmentsIn, SubmissionsIn, DisputesIn, AccountsIn;
    BothMatch(db.profiles, seen.profiles, r.profiles, ProfilesIn(held), ProfilesIn({row}), ProfilesIn(all));
    BothMatch(db.campaigns, seen.campaigns, r.campaigns, CampaignsIn(held), CampaignsIn({row}), CampaignsIn(all));
    BothMatch(db.assignments, seen.assignments, r.assignments, AssignmentsIn(held), AssignmentsIn({row}),
              AssignmentsIn(all));
    BothMatch(db.submissions, seen.submissions, r.submissions, SubmissionsIn(held), SubmissionsIn({row}),
              SubmissionsIn(all));
    BothMatch(db.disputes, seen.disputes, r.disputes, DisputesIn(held), DisputesIn({row}), DisputesIn(all));
    BothMatch(db.accounts, seen.accounts, r.accounts, AccountsIn(held), AccountsIn({row}), AccountsIn(all));
  }

  lemma ReadMatches(db: Db, row: Row)
    requires Exists(db, row)
    ensures Current(db, Read(db, row), {row})
  {
  }

  lemma AcquireKeeps(cfg: Config, s: System, id: nat, row: Row)
    requires Consistent(cfg, s)
    ensures Consistent(cfg, Locked(s, id, row))
  {
    hide Inv, Current, Evolves, Handle, Locks, Exists, Then, Read;
    if id in s.open && s.open[id].plan.None? && Exists(s.db, row) && Free(s.open, {row}) {
      assert TransactionFits(cfg, s.db, s.clock, s.open[id]);
      ReadIsCurrent(s.db, s.open[id].seen, s.open[id].held, row);
    }
  }

  lemma DecideKeeps(cfg: Config, s: System, id: nat)
    requires Consistent(cfg, s)
    ensures Consistent(cfg, Decided(cfg, s, id))
  {
    hide Inv, Current, Evolves, Handle, Locks, Exists, Commit, TransactionFits;
    if id in s.open && s.open[id].plan.None? {
      var x := s.open[id];
      var view := Commit(s.db, x.seen);
      AbortKeeps(cfg, s, id);
      if Locks(view, x.request) <= x.held && Handle(cfg, view, s.clock, x.request).Ok? {
        PlanFits(cfg, s.db, s.clock, x);
      }
    }
  }

  lemma PlanFits(cfg: Config, db: Db, clock: Time, x: Transaction)
    requires Inv(cfg, db, clock) && TransactionFits(cfg, db, clock, x)
    requires Locks(Commit(db, x.seen), x.request) <= x.held && Handle(cfg, Commit(db, x.seen), clock, x.request).Ok?
    ensures var view := Commit(db, x.seen);
            TransactionFits(cfg, db, clock,
                            x.(plan := Some(Plan(view, clock, Handle(cfg, view, clock, x.request).value))))
  {
    CurrentIsNow(db, x.seen, x.held);
    Unchanged(db, x.held);
    hide Inv, Current, Evolves, Handle, Locks, Exists, Commit;
  }

  lemma AbortKeeps(cfg: Config, s: System, id: nat)
    requires Consistent(cfg, s)
    ensures Consistent(cfg, s.(open := s.open - {id}))
  {
    hide Inv, TransactionFits;
  }

  lemma FinishKeeps(cfg: Config, s: System, id: nat)
    requires Consistent(cfg, s)
    ensures Consistent(cfg, Finished(s, id))
  {
    hide Inv, Evolves, TransactionFits, Agreement.Fresh, Commit;
    if id in s.open && s.open[id].plan.Some? &&
       Agreement.Fresh(s.open[id].plan.value.view, s.db, s.open[id].request) {
      var x, rest := s.open[id], s.open - {id};
      FinishKeepsInv(cfg, s.db, s.clock, x);
      forall i | i in rest
        ensures Evolves(s.db, Commit(s.db, x.plan.value.writes), rest[i].held)
      {
        HoldsExisting(cfg, s.db, s.clock, rest[i]);
        FinishEvolves(cfg, s.db, s.clock, x, rest[i].held);
      }
      AllSurvive(cfg, s.db, Commit(s.db, x.plan.value.writes), s.clock, rest);
    }
  }

  lemma HoldsExisting(cfg: Config, db: Db, clock: Time, x: Transaction)
    requires TransactionFits(cfg, db, clock, x)
    ensures forall row :: row in x.held ==> Exists(db, row)
  {
  }

  lemma ServeKeeps(cfg: Config, s: System, r: Request)
    requires Consistent(cfg, s)
    ensures Consistent(cfg, Served(cfg, s, r))
  {
    hide Inv, Evolves, TransactionFits, Handle, Locks, Commit, Exists;
    if Free(s.open, Locks(s.db, r)) && Handle(cfg, s.db, s.clock, r).Ok? {
      Runs.StepKeeps(cfg, s.db, s.clock, s.clock, r);
      var after := Step(cfg, s.db, s.clock, r);
      forall i | i in s.open
        ensures Evolves(s.db, after, s.open[i].held)
      {
        HoldsExisting(cfg, s.db, s.clock, s.open[i]);
        Guarantees.Guarantee(cfg, s.db, s.clock, s.clock, r, s.open[i].held);
      }
      AllSurvive(cfg, s.db, after, s.clock, s.open);
    }
  }

  lemma BeginKeeps(cfg: Config, s: System, id: nat, r: Request)
    requires Consistent(cfg, s) && id !in s.open
    ensures Consistent(cfg, s.(open := s.open[id := Transaction(r, {}, NOTHING, None)]))
  {
    hide Inv, Evolves, Handle, Locks, Commit, Exists, Planned;
    assert Current(s.db, NOTHING, {});
  }

  lemma DoKeeps(cfg: Config, s: System, x: Action)
    requires Consistent(cfg, s)
    ensures Consistent(cfg, Do(cfg, s, x))
  {
    match x
    case Tick(to) => if s.clock <= to { TickKeeps(cfg, s, to); }
    case Begin(id, r) => if id !in s.open && Locking(r) { BeginKeeps(cfg, s, id, r); }
    case Acquire(id, row) => AcquireKeeps(cfg, s, id, row);
    case Decide(id) => DecideKeeps(cfg, s, id);
    case Finish(id) => FinishKeeps(cfg, s, id);
    case Abort(id) => AbortKeeps(cfg, s, id);
    case Serve(r) => ServeKeeps(cfg, s, r);
  }

  /** However the transactions interleave and whichever of them abort, the committed database
      satisfies the invariant of the exchange. */
  lemma {:induction false} EveryInterleavingKeeps(cfg: Config, start: Time, actions: seq<Action>)
    ensures Consistent(cfg, AfterAll(cfg, start, actions))
  {
    if actions == [] {
      Runs.EmptyHolds(cfg, start);
    } else {
      var before := actions[..|actions| - 1];
      EveryInterleavingKeeps(cfg, start, before);
      hide Consistent, Do;
      DoKeeps(cfg, AfterAll(cfg, start, before), actions[|actions| - 1]);
    }
  }
}
