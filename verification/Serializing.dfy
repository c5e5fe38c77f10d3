/** Every history of interleaved transactions is, up to the order of the ledger, the run that serves
    the committed requests one after the other. */
module Serializing {
  import opened Model
  import opened Results
  import opened Invariants
  import opened Evolution
  import opened Requests
  import opened RowLocks
  import opened Reordering
  import Agreement
  import Campaigns
  import Lookups
  import Moderation
  import Profiles
  import Sets
  import Settling
  import Success
  import Workflow

  type Config = Profiles.Config

  // ----- finishing what is planned ----------------------------------------------------------

  /** Transactions `ids` finished in this order. */
  function FinishAll(s: System, ids: seq<nat>): System
    decreases |ids|
  {
    if ids == [] then s else FinishAll(Finished(s, ids[0]), ids[1..])
  }

  ghost predicate Planning(s: System, id: nat) {
    id in s.open && s.open[id].plan.Some?
  }

  ghost predicate IsSettling(s: System, id: nat) {
    Planning(s, id) && Agreement.Settles(s.open[id].request)
  }

  /** Distinct open transactions that have decided to settle work. */
  ghost predicate Pending(s: System, ids: seq<nat>) {
    && (forall i :: i in ids ==> IsSettling(s, i))
    && (forall i, j :: 0 <= i < j < |ids| ==> ids[i] != ids[j])
  }

  ghost predicate AlikeSystems(s: System, t: System) {
    Alike(s.db, t.db) && s.clock == t.clock && s.open == t.open
  }

  lemma FinishOne(s: System, id: nat)
    requires Planning(s, id)
    requires IsSettling(s, id) || Agreement.Fresh(s.open[id].plan.value.view, s.db, s.open[id].request)
    ensures Agreement.Fresh(s.open[id].plan.value.view, s.db, s.open[id].request)
    ensures Finished(s, id) == System(Commit(s.db, s.open[id].plan.value.writes), s.clock, s.open - {id})
  {
    hide Commit;
  }

  lemma PendingRest(s: System, ids: seq<nat>)
    requires Pending(s, ids) && ids != []
    ensures Planning(s, ids[0]) && IsSettling(s, ids[0]) && Pending(Finished(s, ids[0]), ids[1..])
  {
    hide Commit;
    assert ids[0] in ids;
    FinishOne(s, ids[0]);
    forall i | i in ids[1..]
      ensures IsSettling(Finished(s, ids[0]), i)
    {
      assert i in ids && i != ids[0];
    }
  }

  lemma {:induction false} FinishAllKeeps(cfg: Config, s: System, ids: seq<nat>)
    requires Consistent(cfg, s) && Pending(s, ids)
    ensures Consistent(cfg, FinishAll(s, ids)) && FinishAll(s, ids).clock == s.clock
    ensures forall i :: i in s.open && i !in ids ==>
            i in FinishAll(s, ids).open && FinishAll(s, ids).open[i] == s.open[i]
    decreases |ids|
  {
    hide Consistent, Finished, Pending, IsSettling;
    if ids != [] {
      PendingRest(s, ids);
      FinishOne(s, ids[0]);
      FinishKeeps(cfg, s, ids[0]);
      FinishAllKeeps(cfg, Finished(s, ids[0]), ids[1..]);
      assert ids == [ids[0]] + ids[1..];
    }
  }

  /** Only the transactions that are finished matter. */
  lemma {:induction false} SameFinish(s: System, t: System, ids: seq<nat>)
    requires s.db == t.db && Pending(s, ids) && Pending(t, ids)
    requires forall i :: i in ids ==> i in s.open && i in t.open && s.open[i] == t.open[i]
    ensures FinishAll(s, ids).db == FinishAll(t, ids).db
    decreases |ids|
  {
    hide Finished, Pending, IsSettling, Commit;
    if ids != [] {
      PendingRest(s, ids);
      PendingRest(t, ids);
      FinishOne(s, ids[0]);
      FinishOne(t, ids[0]);
      assert ids[0] in ids;
      assert forall i :: i in ids[1..] ==> i in ids && i != ids[0] by {
        DistinctTail(s, ids);
      }
      SameFinish(Finished(s, ids[0]), Finished(t, ids[0]), ids[1..]);
    }
  }

  lemma DistinctTail(s: System, ids: seq<nat>)
    requires Pending(s, ids) && ids != []
    ensures forall i :: i in ids[1..] ==> i in ids && i != ids[0]
  {
  }

  lemma {:induction false} FinishConcat(s: System, first: seq<nat>, second: seq<nat>)
    ensures FinishAll(s, first + second) == FinishAll(FinishAll(s, first), second)
    decreases |first|
  {
    hide Finished;
    if first == [] {
      assert first + second == second;
    } else {
      assert (first + second)[1..] == first[1..] + second;
      FinishConcat(Finished(s, first[0]), first[1..], second);
    }
  }

  // ----- the order of the ledger does not matter --------------------------------------------

  lemma AlikeFinish(s: System, t: System, id: nat)
    requires AlikeSystems(s, t)
    ensures AlikeSystems(Finished(s, id), Finished(t, id))
  {
    hide Commit, Campaigns.SlugInUse, Profiles.UsernameTakenBy;
    if Planning(s, id) {
      AlikeCommit(s.db, t.db, s.open[id].plan.value.writes);
    }
  }

  lemma {:induction false} AlikeFinishAll(s: System, t: System, ids: seq<nat>)
    requires AlikeSystems(s, t)
    ensures AlikeSystems(FinishAll(s, ids), FinishAll(t, ids))
    decreases |ids|
  {
    hide AlikeSystems, Finished;
    if ids != [] {
      AlikeFinish(s, t, ids[0]);
      AlikeFinishAll(Finished(s, ids[0]), Finished(t, ids[0]), ids[1..]);
    }
  }

  // ----- a settlement and what happens while it is pending ----------------------------------

  lemma PlanIs(cfg: Config, s: System, id: nat)
    requires Consistent(cfg, s) && Planning(s, id)
    ensures var x := s.open[id];
            Inv(cfg, s.db, s.clock) && TransactionFits(cfg, s.db, s.clock, x) &&
              Planned(cfg, s.db, s.clock, x.request, x.held, x.plan.value)
  {
    hide Inv, Planned, Current;
  }

  lemma SettlerIsWithin(cfg: Config, s: System, id: nat)
    requires Consistent(cfg, s) && IsSettling(s, id)
    ensures var x := s.open[id];
            && Settling.Within(x.plan.value.view, x.plan.value.writes, x.held)
            && Evolves(x.plan.value.view, s.db, x.held)
  {
    hide Consistent, Inv, Evolves, Handle, Locks, Settling.Within;
    PlanIs(cfg, s, id);
    var x := s.open[id];
    Settling.SettlesWithin(cfg, x.plan.value.view, x.plan.value.decidedAt, x.request, x.held);
  }

  /** A settlement takes no new name. */
  lemma StaysFresh(view: Db, db: Db, w: Writes, held: set<Row>, other: Db, r: Request)
    requires Settling.Within(view, w, held) && Evolves(view, db, held) && Agreement.Fresh(other, db, r)
    ensures Agreement.Fresh(other, Commit(db, w), r)
  {
    SameNames(view, db, w, held);
    hide Settling.Within, Evolves, Commit;
    var after := Commit(db, w);
    if r.CreateCampaign? || r.LaunchCampaign? {
      assert forall c :: c in after.campaigns ==> c in db.campaigns && after.campaigns[c].slug == db.campaigns[c].slug;
    }
  }

  lemma SameNames(view: Db, db: Db, w: Writes, held: set<Row>)
    requires Settling.Within(view, w, held) && Evolves(view, db, held)
    ensures var after := Commit(db, w);
            && after.profiles == db.profiles && after.seats == db.seats
            && (forall c :: c in after.campaigns <==> c in db.campaigns)
            && (forall c :: c in after.campaigns ==> after.campaigns[c].slug == db.campaigns[c].slug)
            && (forall a :: a in after.assignments <==> a in db.assignments)
            && (forall s :: s in after.submissions <==> s in db.submissions)
            && (forall d :: d in after.disputes <==> d in db.disputes)
  {
    PlusNone(db.profiles);
  }

  /** Whatever leaves the held rows of a settlement alone leaves its writes alone. */
  lemma SettlementSurvives(view: Db, db: Db, w: Writes, held: set<Row>, after: Db)
    requires Settling.Within(view, w, held) && Evolves(Commit(db, w), after, held)
    ensures Intact(w, after) && w.seats.None?
  {
    CommitTables(db, w);
    hide Commit, CampaignsEvolve, AssignmentsEvolve, SubmissionsEvolve, DisputesEvolve, AccountsEvolve, ReviewsEvolve;
    hide ContractsEvolve, SessionsEvolve, ProfilesEvolve, SeatsEvolve;
    CampaignsSurvive(db.campaigns, w.campaigns, after.campaigns, held);
    AssignmentsSurvive(db.assignments, w.assignments, after.assignments, held);
    SubmissionsSurvive(db.submissions, w.submissions, after.submissions, held);
    ReviewsSurvive(db.reviews, w.reviews, after.reviews);
    DisputesSurvive(db.disputes, w.disputes, after.disputes, held);
    AccountsSurvive(db.accounts, w.accounts, after.accounts, held);
  }

  lemma CampaignsSurvive(table: map<Id, Campaign>, rows: map<Id, Campaign>, after: map<Id, Campaign>, held: set<Row>)
    requires CampaignsEvolve(table + rows, after, held) && forall c :: c in rows ==> CampaignRow(c) in held
    ensures Holds(rows, after)
  {
  }

  lemma AssignmentsSurvive(table: map<Id, Assignment>, rows: map<Id, Assignment>, after: map<Id, Assignment>,
                           held: set<Row>)
    requires AssignmentsEvolve(table + rows, after, held) && forall a :: a in rows ==> AssignmentRow(a) in held
    ensures Holds(rows, after)
  {
  }

  lemma SubmissionsSurvive(table: map<Id, Submission>, rows: map<Id, Submission>, after: map<Id, Submission>,
                           held: set<Row>)
    requires SubmissionsEvolve(table + rows, after, held) && forall s :: s in rows ==> SubmissionRow(s) in held
    ensures Holds(rows, after)
  {
  }

  lemma ReviewsSurvive(table: map<Id, Review>, rows: map<Id, Review>, after: map<Id, Review>)
    requires ReviewsEvolve(table + rows, after)
    ensures Holds(rows, after)
  {
  }

  lemma DisputesSurvive(table: map<Id, Dispute>, rows: map<Id, Dispute>, after: map<Id, Dispute>, held: set<Row>)
    requires DisputesEvolve(table + rows, after, held) && forall d :: d in rows ==> DisputeRow(d) in held
    ensures Holds(rows, after)
  {
  }

  lemma AccountsSurvive(table: map<Id, int>, rows: map<Id, int>, after: map<Id, int>, held: set<Row>)
    requires AccountsEvolve(table + rows, after, held) && forall u :: u in rows ==> AccountRow(u) in held
    ensures Holds(rows, after)
  {
  }

  lemma Lone(cfg: Config, s: System, x: nat)
    requires Consistent(cfg, s) && x in s.open
    ensures TransactionFits(cfg, s.db, s.clock, s.open[x]) && Inv(cfg, s.db, s.clock)
  {
    hide Inv, TransactionFits;
  }

  lemma Disjoint(cfg: Config, s: System, x: nat, y: nat)
    requires Consistent(cfg, s) && x in s.open && y in s.open && x != y
    ensures s.open[x].held !! s.open[y].held
    ensures TransactionFits(cfg, s.db, s.clock, s.open[x]) && Inv(cfg, s.db, s.clock)
    ensures forall row :: row in s.open[x].held ==> Exists(s.db, row)
  {
    hide Inv, Current, Planned;
  }

  /** A settlement decided on before another transaction finishes could finish before or after it. */
  lemma SwapTwo(cfg: Config, s: System, x: nat, y: nat)
    requires Consistent(cfg, s) && Planning(s, x) && IsSettling(s, y) && x != y
    requires Agreement.Fresh(s.open[x].plan.value.view, s.db, s.open[x].request)
    ensures AlikeSystems(Finished(Finished(s, x), y), Finished(Finished(s, y), x))
    ensures Agreement.Fresh(s.open[x].plan.value.view, Finished(s, y).db, s.open[x].request)
  {
    hide Consistent, Inv, Evolves, TransactionFits, Commit, Agreement.Fresh, Alike, Intact, Settling.Within, Exists;
    hide Finished;
    var t, z := s.open[x], s.open[y];
    var v, w := t.plan.value.writes, z.plan.value.writes;
    FinishOne(s, x);
    FinishOne(s, y);
    SettlerIsWithin(cfg, s, y);
    StaysFresh(z.plan.value.view, s.db, w, z.held, t.plan.value.view, t.request);
    FinishOne(Finished(s, x), y);
    FinishOne(Finished(s, y), x);
    LeavesIntact(cfg, s, x, y);
    Swap(s.db, w, v);
    assert s.open - {x} - {y} == s.open - {y} - {x};
  }

  lemma LeavesIntact(cfg: Config, s: System, x: nat, y: nat)
    requires Consistent(cfg, s) && Planning(s, x) && IsSettling(s, y) && x != y
    requires Agreement.Fresh(s.open[x].plan.value.view, Finished(s, y).db, s.open[x].request)
    ensures var first := s.open[y].plan.value.writes;
            Intact(first, Commit(Commit(s.db, first), s.open[x].plan.value.writes)) && first.seats.None?
  {
    hide Consistent, Inv, Evolves, TransactionFits, Commit, Agreement.Fresh, Intact, Settling.Within, Exists, Finished;
    var t, z := s.open[x], s.open[y];
    FinishOne(s, y);
    SettlerIsWithin(cfg, s, y);
    FinishKeeps(cfg, s, y);
    Disjoint(cfg, s, x, y);
    Disjoint(cfg, s, y, x);
    var after := Finished(s, y);
    FinishEvolves(cfg, s.db, s.clock, z, t.held);
    forall row | row in z.held
      ensures Exists(after.db, row)
    {
      StillExists(s.db, after.db, t.held, row);
    }
    Lone(cfg, after, x);
    FinishEvolves(cfg, after.db, after.clock, t, z.held);
    SettlementSurvives(z.plan.value.view, s.db, z.plan.value.writes, z.held, Commit(after.db, t.plan.value.writes));
  }

  /** A transaction that finishes before all settlements could finish after them. */
  lemma {:induction false} FinishLast(cfg: Config, s: System, x: nat, ids: seq<nat>)
    requires Consistent(cfg, s) && Pending(s, ids) && Planning(s, x) && x !in ids
    requires Agreement.Fresh(s.open[x].plan.value.view, s.db, s.open[x].request)
    ensures AlikeSystems(FinishAll(Finished(s, x), ids), Finished(FinishAll(s, ids), x))
    ensures Planning(FinishAll(s, ids), x) && FinishAll(s, ids).open[x] == s.open[x]
    ensures Agreement.Fresh(s.open[x].plan.value.view, FinishAll(s, ids).db, s.open[x].request)
    decreases |ids|
  {
    hide Consistent, Finished, Pending, IsSettling, Agreement.Fresh, Alike;
    if ids == [] {
      AlikeSelf(Finished(s, x).db);
    } else {
      var y := ids[0];
      assert ids == [y] + ids[1..];
      PendingRest(s, ids);
      FinishOne(s, y);
      SwapTwo(cfg, s, x, y);
      AlikeFinishAll(Finished(Finished(s, x), y), Finished(Finished(s, y), x), ids[1..]);
      FinishKeeps(cfg, s, y);
      FinishLast(cfg, Finished(s, y), x, ids[1..]);
      AlikeTransitive(FinishAll(Finished(s, x), ids).db, FinishAll(Finished(Finished(s, y), x), ids[1..]).db,
                      Finished(FinishAll(s, ids), x).db);
    }
  }

  // ----- a settlement counts only the work of its own campaign ------------------------------

  /** The assignments of a campaign are the same. */
  ghost predicate SameWork(v: map<Id, Assignment>, d: map<Id, Assignment>, c: Id) {
    forall a :: (a in v && v[a].campaign == c) || (a in d && d[a].campaign == c) ==> a in v && a in d && d[a] == v[a]
  }

  lemma SameWorkCounts(v: map<Id, Assignment>, d: map<Id, Assignment>, c: Id, rows: map<Id, Assignment>)
    requires SameWork(v, d, c)
    ensures WithStatus(v + rows, c, ACTIVE) == WithStatus(d + rows, c, ACTIVE)
  {
  }

  lemma NotOutdated(view: Db, db: Db, r: Request, rows: map<Id, Assignment>)
    requires Settling.Settled(view, r).Some? ==>
               SameWork(view.assignments, db.assignments, Settling.Settled(view, r).value)
    ensures !Settling.Outdated(view, db, r, rows)
  {
    hide SameWork, WithStatus, Settling.Settled, Settling.Judged;
    if Settling.Settled(view, r).Some? {
      SameWorkCounts(view.assignments, db.assignments, Settling.Settled(view, r).value, rows);
    }
  }

  /** The assignment rows of a settlement belong to one campaign, which it holds. */
  lemma OwnWorkOnly(cfg: Config, s: System, y: nat, c: Id)
    requires Consistent(cfg, s) && IsSettling(s, y) && CampaignRow(c) !in s.open[y].held
    ensures SameWork(s.db.assignments, Commit(s.db, s.open[y].plan.value.writes).assignments, c)
  {
    hide Consistent, Inv, Evolves, Handle, Locks, Settling.Settlement, Settling.SettlementOf, Commit;
    PlanIs(cfg, s, y);
    var z := s.open[y];
    var view := z.plan.value.view;
    Settling.SettlesItsCampaign(cfg, view, z.plan.value.decidedAt, z.request);
    Settling.SettlesOn(view, z.request, z.plan.value.writes);
    Settling.LocksItsCampaign(view, z.request);
    CommitTables(s.db, z.plan.value.writes);
    OtherWorkStays(view, s.db, z.request, z.plan.value.writes, z.held, c);
  }

  lemma OtherWorkStays(view: Db, db: Db, r: Request, w: Writes, held: set<Row>, c: Id)
    requires Settling.Settlement(view, r, w) && Evolves(view, db, held)
    requires Settling.Settled(view, r).value != c
    ensures SameWork(db.assignments, db.assignments + w.assignments, c)
  {
    hide Settling.Settled;
  }

  lemma {:induction false} ElsewhereOnly(cfg: Config, s: System, ids: seq<nat>, c: Id)
    requires Consistent(cfg, s) && Pending(s, ids)
    requires forall i :: i in ids ==> i in s.open && CampaignRow(c) !in s.open[i].held
    ensures SameWork(s.db.assignments, FinishAll(s, ids).db.assignments, c)
    decreases |ids|
  {
    hide Consistent, Finished, Pending, IsSettling, Commit, SameWork;
    if ids == [] {
      SameAll(s.db.assignments, c);
    } else {
      var y := ids[0];
      assert ids == [y] + ids[1..];
      PendingRest(s, ids);
      FinishOne(s, y);
      FinishKeeps(cfg, s, y);
      OwnWorkOnly(cfg, s, y, c);
      DistinctTail(s, ids);
      ElsewhereOnly(cfg, Finished(s, y), ids[1..], c);
      SameTwice(s.db.assignments, Finished(s, y).db.assignments, FinishAll(s, ids).db.assignments, c);
    }
  }

  lemma SameAll(v: map<Id, Assignment>, c: Id)
    ensures SameWork(v, v, c)
  {
  }

  lemma SameTwice(u: map<Id, Assignment>, v: map<Id, Assignment>, w: map<Id, Assignment>, c: Id)
    requires SameWork(u, v, c) && SameWork(v, w, c)
    ensures SameWork(u, w, c)
  {
  }

  // ----- one more request at the end of the run ---------------------------------------------

  function EventOf(x: Transaction): Event
    requires x.plan.Some?
  {
    Event(x.plan.value.decidedAt, x.request)
  }

  /** Every request of the run is accepted when its turn comes. */
  ghost predicate Accepted(cfg: Config, run: seq<Event>) {
    forall k :: 0 <= k < |run| ==> Handle(cfg, After(cfg, run[..k]), run[k].now, run[k].request).Ok?
  }

  lemma OneMoreAccepted(cfg: Config, run: seq<Event>, e: Event)
    requires Accepted(cfg, run) && Handle(cfg, After(cfg, run), e.now, e.request).Ok?
    ensures Accepted(cfg, run + [e])
  {
    hide Handle, After;
    var longer := run + [e];
    forall k | 0 <= k < |longer|
      ensures Handle(cfg, After(cfg, longer[..k]), longer[k].now, longer[k].request).Ok?
    {
      assert longer[..k] == run[..k] && run[..|run|] == run;
    }
  }

  /** A transaction that finishes last writes what its request, served last, writes. A settlement has
      to be decided on the assignments there are now. */
  lemma ServedLast(cfg: Config, s: System, x: nat, ids: seq<nat>, run: seq<Event>)
    requires Consistent(cfg, s) && Pending(s, ids) && Planning(s, x) && x !in ids
    requires Agreement.Fresh(s.open[x].plan.value.view, s.db, s.open[x].request)
    requires Agreement.Settles(s.open[x].request) ==> s.open[x].plan.value.view.assignments == s.db.assignments
    requires Alike(After(cfg, run), FinishAll(s, ids).db) && Accepted(cfg, run)
    ensures Accepted(cfg, run + [EventOf(s.open[x])])
    ensures Alike(After(cfg, run + [EventOf(s.open[x])]), Finished(FinishAll(s, ids), x).db)
  {
    hide Consistent, Pending, Agreement.Fresh, Agreement.Settles, Alike, After, FinishAll, Finished, Accepted, Handle;
    hide Commit, Step;
    var t, e := FinishAll(s, ids), EventOf(s.open[x]);
    SerialLast(cfg, s, x, ids);
    SameAnswers(cfg, After(cfg, run), t.db, e.now, e.request);
    OneMoreAccepted(cfg, run, e);
    AfterOneMore(cfg, run, e);
    StepIs(cfg, After(cfg, run), e.now, e.request);
    AlikeCommit(After(cfg, run), t.db, s.open[x].plan.value.writes);
  }

  lemma SerialLast(cfg: Config, s: System, x: nat, ids: seq<nat>)
    requires Consistent(cfg, s) && Pending(s, ids) && Planning(s, x) && x !in ids
    requires Agreement.Fresh(s.open[x].plan.value.view, s.db, s.open[x].request)
    requires Agreement.Settles(s.open[x].request) ==> s.open[x].plan.value.view.assignments == s.db.assignments
    ensures var t, p := FinishAll(s, ids), s.open[x].plan.value;
            && s.open[x].plan.Some?
            && Handle(cfg, t.db, p.decidedAt, s.open[x].request) == Ok(p.writes)
            && Finished(t, x).db == Commit(t.db, p.writes)
  {
    hide Consistent, Pending, Agreement.Fresh, Finished, Handle, Locks, Commit, Settling.Outdated, Settling.StaysClosed;
    var t := FinishAll(s, ids);
    FinishLast(cfg, s, x, ids);
    FinishAllKeeps(cfg, s, ids);
    FinishIsSerial(cfg, t, x);
    StillCounts(cfg, s, x, ids);
    FinishAny(t, x);
  }

  lemma FinishAny(s: System, id: nat)
    requires Planning(s, id) && Agreement.Fresh(s.open[id].plan.value.view, s.db, s.open[id].request)
    ensures Finished(s, id) == System(Commit(s.db, s.open[id].plan.value.writes), s.clock, s.open - {id})
  {
    hide Commit, Agreement.Fresh;
  }

  lemma StillCounts(cfg: Config, s: System, x: nat, ids: seq<nat>)
    requires Consistent(cfg, s) && Pending(s, ids) && Planning(s, x) && x !in ids
    requires Agreement.Settles(s.open[x].request) ==> s.open[x].plan.value.view.assignments == s.db.assignments
    ensures var p := s.open[x].plan.value;
            !Settling.Outdated(p.view, FinishAll(s, ids).db, s.open[x].request, p.writes.assignments)
  {
    var t, p := s.open[x], s.open[x].plan.value;
    hide Consistent, Inv, Current, Evolves, Handle, Locks, Settling.Outdated, SameWork, Agreement.Settles;
    hide Settling.Settled;
    PlanIs(cfg, s, x);
    if Settling.Settled(p.view, t.request).Some? {
      var c := Settling.Settled(p.view, t.request).value;
      Settling.LocksItsCampaign(p.view, t.request);
      forall i | i in ids
        ensures i in s.open && CampaignRow(c) !in s.open[i].held
      {
        Disjoint(cfg, s, x, i);
      }
      ElsewhereOnly(cfg, s, ids, c);
    }
    NotOutdated(p.view, FinishAll(s, ids).db, t.request, p.writes.assignments);
  }

  // ----- moving a settlement to the end -----------------------------------------------------

  lemma {:induction false} PendingAfter(s: System, first: seq<nat>, second: seq<nat>)
    requires Pending(s, first + second)
    ensures Pending(s, first) && Pending(FinishAll(s, first), second)
    decreases |first|
  {
    if first == [] {
      assert first + second == second;
    } else {
      hide IsSettling, Finished;
      PendingRest(s, first + second);
      assert (first + second)[0] == first[0] && (first + second)[1..] == first[1..] + second;
      PendingAfter(Finished(s, first[0]), first[1..], second);
      forall i | i in first
        ensures IsSettling(s, i)
      {
        assert i in first + second;
      }
      forall i, j | 0 <= i < j < |first|
        ensures first[i] != first[j]
      {
        assert (first + second)[i] != (first + second)[j];
      }
    }
  }

  lemma Without(s: System, pre: seq<nat>, x: nat, post: seq<nat>)
    requires Pending(s, pre + [x] + post)
    ensures Pending(s, pre + post) && x !in pre + post && IsSettling(s, x)
  {
    var all := pre + [x] + post;
    hide IsSettling;
    assert all[|pre|] == x;
    forall i | i in pre + post
      ensures IsSettling(s, i) && i != x
    {
      if i in pre {
        var k :| 0 <= k < |pre| && pre[k] == i;
        assert all[k] == i;
      } else {
        var k :| 0 <= k < |post| && post[k] == i;
        assert all[|pre| + 1 + k] == i;
      }
    }
    forall i, j | 0 <= i < j < |pre + post|
      ensures (pre + post)[i] != (pre + post)[j]
    {
      var k, l := if i < |pre| then i else i + 1, if j < |pre| then j else j + 1;
      assert all[k] == (pre + post)[i] && all[l] == (pre + post)[j];
    }
  }

  lemma MoveToEnd(cfg: Config, s: System, pre: seq<nat>, x: nat, post: seq<nat>)
    requires Consistent(cfg, s) && Pending(s, pre + [x] + post)
    ensures AlikeSystems(FinishAll(s, pre + [x] + post), Finished(FinishAll(s, pre + post), x))
  {
    hide Consistent, Pending, IsSettling, Finished, Agreement.Fresh, AlikeSystems, FinishAll;
    var t := FinishAll(s, pre);
    assert pre + [x] + post == pre + ([x] + post);
    FinishConcat(s, pre, [x] + post);
    PendingAfter(s, pre, [x] + post);
    FinishAllKeeps(cfg, s, pre);
    First(t, x, post);
    FinishLast(cfg, t, x, post);
    FinishConcat(s, pre, post);
  }

  lemma First(t: System, x: nat, post: seq<nat>)
    requires Pending(t, [x] + post)
    ensures Pending(t, post) && x !in post && Planning(t, x) && IsSettling(t, x)
    ensures Agreement.Fresh(t.open[x].plan.value.view, t.db, t.open[x].request)
    ensures FinishAll(t, [x] + post) == FinishAll(Finished(t, x), post)
  {
    assert [x] + post == [] + [x] + post && [] + post == post;
    Without(t, [], x, post);
    assert ([x] + post)[1..] == post;
    hide Finished;
    FinishOne(t, x);
  }

  // ----- what a history commits -------------------------------------------------------------

  /** The request an action commits, with the moment it was decided. */
  function CommittedBy(cfg: Config, s: System, x: Action): seq<Event> {
    match x
    case Finish(id) =>
      if id in s.open && s.open[id].plan.Some? &&
         Agreement.Fresh(s.open[id].plan.value.view, s.db, s.open[id].request)
      then [EventOf(s.open[id])]
      else []
    case Serve(r) =>
      if Free(s.open, Locks(s.db, r)) && Handle(cfg, s.db, s.clock, r).Ok? then [Event(s.clock, r)] else []
    case _ => []
  }

  /** The committed requests of a history, in the order of their commits. */
  function Committed(cfg: Config, start: Time, actions: seq<Action>): seq<Event> {
    if actions == [] then []
    else
      var before := actions[..|actions| - 1];
      Committed(cfg, start, before) + CommittedBy(cfg, AfterAll(cfg, start, before), actions[|actions| - 1])
  }

  /** The requests of open transactions that have decided. */
  function Events(open: map<nat, Transaction>, ids: seq<nat>): multiset<Event> {
    if ids == [] then multiset{}
    else
      Events(open, ids[1..]) +
      if ids[0] in open && open[ids[0]].plan.Some? then multiset{EventOf(open[ids[0]])} else multiset{}
  }

  lemma {:induction false} EventsSame(open: map<nat, Transaction>, other: map<nat, Transaction>, ids: seq<nat>)
    requires forall i :: i in ids ==> i in open && i in other && open[i] == other[i]
    ensures Events(open, ids) == Events(other, ids)
  {
    if ids != [] {
      assert ids[0] in ids;
      EventsSame(open, other, ids[1..]);
    }
  }

  lemma {:induction false} EventsWithout(open: map<nat, Transaction>, pre: seq<nat>, x: nat, post: seq<nat>)
    requires x in open && open[x].plan.Some?
    ensures Events(open, pre + [x] + post) == Events(open, pre + post) + multiset{EventOf(open[x])}
  {
    var all := pre + [x] + post;
    if pre == [] {
      assert all[1..] == post && pre + post == post;
    } else {
      assert all[1..] == pre[1..] + [x] + post && (pre + post)[1..] == pre[1..] + post;
      EventsWithout(open, pre[1..], x, post);
    }
  }

  /** A run that serves what is committed, and then what the settlements of `ids` will commit. */
  ghost predicate Serializes(cfg: Config, s: System, committed: seq<Event>, ids: seq<nat>, run: seq<Event>) {
    && multiset(run) == multiset(committed) + Events(s.open, ids)
    && Accepted(cfg, run)
    && Alike(After(cfg, run), FinishAll(s, ids).db)
  }

  /** Nothing is committed, and the settlements of `ids` stay what they are. */
  ghost predicate Quiet(s: System, after: System, ids: seq<nat>) {
    after.db == s.db && forall i :: i in ids ==> i in s.open && i in after.open && s.open[i] == after.open[i]
  }

  lemma QuietSerializes(cfg: Config, s: System, after: System, committed: seq<Event>, ids: seq<nat>, run: seq<Event>)
    requires Quiet(s, after, ids) && Pending(s, ids) && Pending(after, ids)
    requires Serializes(cfg, s, committed, ids, run)
    ensures Serializes(cfg, after, committed, ids, run)
  {
    hide Pending, Accepted, Alike, FinishAll, Events, After;
    SameFinish(s, after, ids);
    EventsSame(s.open, after.open, ids);
  }

  lemma QuietPending(s: System, after: System, ids: seq<nat>)
    requires Quiet(s, after, ids) && Pending(after, ids)
    ensures Pending(s, ids)
  {
  }

  /** Serving one more request last, after everything that is pending. */
  lemma OneMoreSerializes(cfg: Config, s: System, committed: seq<Event>, ids: seq<nat>, x: nat, run: seq<Event>)
    requires Consistent(cfg, s) && Pending(s, ids) && Planning(s, x) && x !in ids
    requires Agreement.Fresh(s.open[x].plan.value.view, s.db, s.open[x].request)
    requires Agreement.Settles(s.open[x].request) ==> s.open[x].plan.value.view.assignments == s.db.assignments
    requires Serializes(cfg, s, committed, ids, run)
    ensures var e := EventOf(s.open[x]);
            && multiset(run + [e]) == multiset(committed) + Events(s.open, ids) + multiset{e}
            && Accepted(cfg, run + [e])
            && Alike(After(cfg, run + [e]), Finished(FinishAll(s, ids), x).db)
  {
    hide Consistent, Pending, Accepted, Alike, FinishAll, Finished, Events, After, Agreement.Fresh, Agreement.Settles;
    ServedLast(cfg, s, x, ids, run);
  }

  // ----- the actions that commit, or make a settlement pending ------------------------------

  lemma FinishSerializes(cfg: Config, s: System, committed: seq<Event>, ids: seq<nat>, x: nat, run: seq<Event>)
    requires Consistent(cfg, s) && Pending(s, ids) && Planning(s, x) && x !in ids
    requires Agreement.Fresh(s.open[x].plan.value.view, s.db, s.open[x].request)
    requires Agreement.Settles(s.open[x].request) ==> s.open[x].plan.value.view.assignments == s.db.assignments
    requires Serializes(cfg, s, committed, ids, run)
    ensures Serializes(cfg, Finished(s, x), committed + [EventOf(s.open[x])], ids, run + [EventOf(s.open[x])])
  {
    hide Consistent, Pending, Accepted, Alike, FinishAll, Events, After, Agreement.Fresh, Agreement.Settles, Finished;
    var e := EventOf(s.open[x]);
    OneMoreSerializes(cfg, s, committed, ids, x, run);
    FinishLast(cfg, s, x, ids);
    FinishAny(s, x);
    assert forall i :: i in ids ==> i in s.open by {
      PendingOpen(s, ids);
    }
    EventsSame(s.open, Finished(s, x).open, ids);
    AlikeVia(After(cfg, run + [e]), Finished(FinishAll(s, ids), x).db, FinishAll(Finished(s, x), ids).db);
  }

  lemma PendingOpen(s: System, ids: seq<nat>)
    requires Pending(s, ids)
    ensures forall i :: i in ids ==> i in s.open && Planning(s, i) && IsSettling(s, i)
  {
  }

  /** A settlement that finishes has been counted already. */
  lemma SettledSerializes(cfg: Config, s: System, committed: seq<Event>, ids: seq<nat>, x: nat, run: seq<Event>)
    requires IsSettling(s, x) && x !in ids && Pending(s, ids)
    requires Serializes(cfg, s, committed, [x] + ids, run)
    ensures Serializes(cfg, Finished(s, x), committed + [EventOf(s.open[x])], ids, run)
  {
    hide Pending, Accepted, Alike, After, Finished, Agreement.Settles;
    FinishOne(s, x);
    assert ([x] + ids)[1..] == ids;
    PendingOpen(s, ids);
    EventsSame(s.open, Finished(s, x).open, ids);
  }

  lemma DecideSerializes(cfg: Config, s: System, committed: seq<Event>, pre: seq<nat>, x: nat, post: seq<nat>,
                         run: seq<Event>)
    requires Consistent(cfg, s) && Pending(s, pre + [x] + post)
    requires x in s.open && s.open[x].plan.Some? && s.open[x].plan.value.view.assignments == s.db.assignments
    requires Serializes(cfg, s, committed, pre + post, run)
    ensures Serializes(cfg, s, committed, pre + [x] + post, run + [EventOf(s.open[x])])
  {
    hide Consistent, Pending, Accepted, Alike, FinishAll, Events, After, Agreement.Fresh, Agreement.Settles, Finished;
    var e := EventOf(s.open[x]);
    Without(s, pre, x, post);
    FinishOne(s, x);
    OneMoreSerializes(cfg, s, committed, pre + post, x, run);
    EventsWithout(s.open, pre, x, post);
    MoveToEnd(cfg, s, pre, x, post);
    AlikeVia(After(cfg, run + [e]), Finished(FinishAll(s, pre + post), x).db, FinishAll(s, pre + [x] + post).db);
  }

  // ----- a request served in one step is a transaction of an instant ------------------------

  lemma AcceptedIsFresh(cfg: Config, db: Db, now: Time, r: Request)
    requires Handle(cfg, db, now, r).Ok?
    ensures Agreement.Fresh(db, db, r)
  {
    hide Campaigns.SlugInUse, Profiles.UsernameTakenBy, Profiles.Upsert, Campaigns.Create, Campaigns.Launch;
    hide Workflow.Apply, Workflow.Submit, Workflow.Escalate, Campaigns.Update, Campaigns.UpsertContract;
    hide Campaigns.Publish, Campaigns.Transition, Workflow.Accept, Workflow.Decline, Workflow.Withdraw, Workflow.Start;
    hide Workflow.RecordSession, Workflow.Examine, Moderation.Claim, Moderation.Resolve, Commit, Then;
    match r
    case UpsertProfile(user, username, enabled) => Success.NameWasFree(db, cfg, user, username, enabled);
    case CreateCampaign(id, owner, fields) => Success.Create(db, id, owner, fields);
    case LaunchCampaign(id, owner, fields, terms) =>
      Success.LaunchChain(db, now, id, owner, fields, terms);
      Success.Create(db, id, owner, fields);
    case Apply(id, c, tester) => Success.Apply(db, id, c, tester);
    case Submit(id, a, tester, evidence) => Success.Submit(db, now, id, a, tester, evidence);
    case Escalate(id, a, user, s) => Success.Escalate(db, now, id, a, user, s);
    case _ =>
  }

  function Instant(cfg: Config, s: System, r: Request): Transaction
    requires Handle(cfg, s.db, s.clock, r).Ok?
  {
    Transaction(r, Locks(s.db, r), NOTHING, Some(Plan(s.db, s.clock, Handle(cfg, s.db, s.clock, r).value)))
  }

  lemma InstantFits(cfg: Config, s: System, r: Request)
    requires Inv(cfg, s.db, s.clock) && Handle(cfg, s.db, s.clock, r).Ok?
    ensures TransactionFits(cfg, s.db, s.clock, Instant(cfg, s, r))
  {
    hide Inv, Evolves, Handle, Locks, Exists;
    Lookups.Links(cfg, s.db, s.clock);
    Lookups.LocksExist(cfg, s.db, s.clock, r);
    Unchanged(s.db, Locks(s.db, r));
    NothingSeen(s.db, Locks(s.db, r));
    hide Current;
  }

  lemma NothingSeen(db: Db, held: set<Row>)
    ensures Current(db, NOTHING, held)
  {
  }

  lemma WithInstant(cfg: Config, s: System, r: Request, n: nat)
    requires Consistent(cfg, s) && Handle(cfg, s.db, s.clock, r).Ok? && Free(s.open, Locks(s.db, r)) && n !in s.open
    ensures Consistent(cfg, s.(open := s.open[n := Instant(cfg, s, r)]))
  {
    hide Inv, TransactionFits, Handle, Locks;
    InstantFits(cfg, s, r);
  }

  lemma Unused(open: map<nat, Transaction>) returns (n: nat)
    ensures n !in open
  {
    var used := set i: nat | i in open :: i as int;
    n := if |used| > 0 && Sets.Max(used) >= 0 then Sets.Max(used) + 1 else 0;
    assert n in open ==> n as int in used;
  }

  lemma ServeSerializes(cfg: Config, s: System, committed: seq<Event>, ids: seq<nat>, r: Request, run: seq<Event>)
    requires Consistent(cfg, s) && Pending(s, ids) && Free(s.open, Locks(s.db, r))
    requires Handle(cfg, s.db, s.clock, r).Ok? && Serializes(cfg, s, committed, ids, run)
    ensures Serializes(cfg, RowLocks.Served(cfg, s, r), committed + [Event(s.clock, r)], ids, run + [Event(s.clock, r)])
  {
    hide Consistent, Pending, Serializes, Agreement.Fresh, Agreement.Settles, Finished, Free, Handle, Locks, Commit;
    var n := Unused(s.open);
    var t := s.(open := s.open[n := Instant(cfg, s, r)]);
    WithInstant(cfg, s, r, n);
    PendingOpen(s, ids);
    AlsoPending(s, t, ids);
    QuietSerializes(cfg, s, t, committed, ids, run);
    AcceptedIsFresh(cfg, s.db, s.clock, r);
    FinishSerializes(cfg, t, committed, ids, n, run);
    FinishAny(t, n);
    StepIs(cfg, s.db, s.clock, r);
    assert t.open - {n} == s.open;
  }

  lemma AlsoPending(s: System, t: System, ids: seq<nat>)
    requires Pending(s, ids) && forall i :: i in ids ==> i in s.open && i in t.open && s.open[i] == t.open[i]
    ensures Pending(t, ids)
  {
  }

  // ----- every history ----------------------------------------------------------------------

  /** A transaction that decides has seen the assignments there are. */
  lemma DecidedNow(cfg: Config, s: System, x: nat)
    requires Consistent(cfg, s) && x in s.open && s.open[x].plan.None? && Planning(Decided(cfg, s, x), x)
    ensures var t := Decided(cfg, s, x);
            && t.db == s.db && t.open[x].plan.value.view == s.db
            && forall i :: i in s.open && i != x ==> i in t.open && t.open[i] == s.open[i]
  {
    hide Inv, Handle, Locks, Commit, Planned, Current;
    CurrentIsNow(s.db, s.open[x].seen, s.open[x].held);
  }

  /** Whether an action commits something or makes a settlement of `ids` pending. */
  ghost predicate Calm(cfg: Config, s: System, x: Action, ids: seq<nat>) {
    && CommittedBy(cfg, s, x) == []
    && (x.Decide? && x.id in ids ==> Planning(s, x.id))
  }

  lemma CalmIsQuiet(cfg: Config, s: System, x: Action, ids: seq<nat>)
    requires Calm(cfg, s, x, ids) && Pending(Do(cfg, s, x), ids)
    ensures Quiet(s, Do(cfg, s, x), ids)
  {
    hide Handle, Locks, Free, Agreement.Fresh, Agreement.Settles, Exists;
    PendingOpen(Do(cfg, s, x), ids);
    StepIs(cfg, s.db, s.clock, if x.Serve? then x.request else Withdraw(0, 0));
    hide Step, Commit;
  }

  /** Whatever run serializes the state `s` does so for the state `t` when `more` is appended to it. */
  ghost predicate Carries(cfg: Config, s: System, committed: seq<Event>, ids: seq<nat>, more: seq<Event>, t: System,
                          after: seq<Event>, later: seq<nat>) {
    forall run :: Serializes(cfg, s, committed, ids, run) ==> Serializes(cfg, t, after, later, run + more)
  }

  /** The settlements to be finished before an action for `ids` to be finished after it, and what the
      action adds to the run. */
  lemma OneAction(cfg: Config, s: System, x: Action, committed: seq<Event>, ids: seq<nat>)
    returns (earlier: seq<nat>, more: seq<Event>)
    requires Consistent(cfg, s) && Pending(Do(cfg, s, x), ids)
    ensures Pending(s, earlier)
    ensures Carries(cfg, s, committed, earlier, more, Do(cfg, s, x), committed + CommittedBy(cfg, s, x), ids)
  {
    hide Consistent, Pending, Carries, Quiet, Calm, Do, CommittedBy, Decided, Finished, RowLocks.Served, Planning;
    hide Free, Locks, Handle, Agreement.Fresh;
    DoIs(cfg, s, x);
    if Calm(cfg, s, x, ids) {
      earlier, more := ids, [];
      CalmAction(cfg, s, x, committed, ids);
    } else {
      DoKeeps(cfg, s, x);
      NotCalm(cfg, s, x, ids);
      if x.Decide? {
        earlier, more := DecideAction(cfg, s, x.id, committed, ids);
      } else if x.Finish? {
        earlier, more := FinishAction(cfg, s, x.id, committed, ids);
      } else {
        earlier, more := ids, [Event(s.clock, x.request)];
        ServeAction(cfg, s, x.request, committed, ids);
      }
    }
  }

  lemma DoIs(cfg: Config, s: System, x: Action)
    ensures x.Decide? ==> Do(cfg, s, x) == Decided(cfg, s, x.id)
    ensures x.Finish? ==> Do(cfg, s, x) == Finished(s, x.id)
    ensures x.Serve? ==> Do(cfg, s, x) == RowLocks.Served(cfg, s, x.request)
  {
    hide Decided, Finished, RowLocks.Served;
  }

  lemma NotCalm(cfg: Config, s: System, x: Action, ids: seq<nat>)
    requires !Calm(cfg, s, x, ids)
    ensures x.Decide? || x.Finish? || x.Serve?
    ensures x.Decide? ==> x.id in ids && !Planning(s, x.id) && CommittedBy(cfg, s, x) == []
    ensures x.Finish? ==>
              && Planning(s, x.id) && CommittedBy(cfg, s, x) == [EventOf(s.open[x.id])]
              && Agreement.Fresh(s.open[x.id].plan.value.view, s.db, s.open[x.id].request)
    ensures x.Serve? ==>
              && Free(s.open, Locks(s.db, x.request)) && Handle(cfg, s.db, s.clock, x.request).Ok?
              && CommittedBy(cfg, s, x) == [Event(s.clock, x.request)]
  {
    hide Agreement.Fresh, Free, Locks, Handle;
  }

  lemma CalmAction(cfg: Config, s: System, x: Action, committed: seq<Event>, ids: seq<nat>)
    requires Calm(cfg, s, x, ids) && Pending(Do(cfg, s, x), ids)
    ensures Pending(s, ids)
    ensures Carries(cfg, s, committed, ids, [], Do(cfg, s, x), committed + CommittedBy(cfg, s, x), ids)
  {
    hide Pending, Quiet, Do, CommittedBy, Serializes, Planning;
    CalmIsQuiet(cfg, s, x, ids);
    QuietPending(s, Do(cfg, s, x), ids);
    assert committed + [] == committed;
    forall run | Serializes(cfg, s, committed, ids, run)
      ensures Serializes(cfg, Do(cfg, s, x), committed + CommittedBy(cfg, s, x), ids, run + [])
    {
      assert run + [] == run;
      QuietSerializes(cfg, s, Do(cfg, s, x), committed, ids, run);
    }
  }

  lemma DecideAction(cfg: Config, s: System, x: nat, committed: seq<Event>, ids: seq<nat>)
    returns (earlier: seq<nat>, more: seq<Event>)
    requires Consistent(cfg, s) && Consistent(cfg, Decided(cfg, s, x)) && Pending(Decided(cfg, s, x), ids)
    requires x in ids && !Planning(s, x)
    ensures Pending(s, earlier)
    ensures Carries(cfg, s, committed, earlier, more, Decided(cfg, s, x), committed + [], ids)
  {
    hide Consistent, Pending, Serializes, Decided;
    var t := Decided(cfg, s, x);
    PendingOpen(t, ids);
    WasOpen(cfg, s, x);
    DecidedNow(cfg, s, x);
    var k :| 0 <= k < |ids| && ids[k] == x;
    var pre, post := ids[..k], ids[k + 1..];
    assert ids == pre + [x] + post;
    earlier := pre + post;
    Without(t, pre, x, post);
    PendingOpen(t, earlier);
    StillSame(cfg, s, x, earlier);
    QuietPending(s, t, earlier);
    more := [EventOf(t.open[x])];
    assert committed + [] == committed;
    forall run | Serializes(cfg, s, committed, earlier, run)
      ensures Serializes(cfg, t, committed + [], ids, run + more)
    {
      QuietSerializes(cfg, s, t, committed, earlier, run);
      DecideSerializes(cfg, t, committed, pre, x, post, run);
    }
  }

  lemma WasOpen(cfg: Config, s: System, x: nat)
    requires Planning(Decided(cfg, s, x), x) && !Planning(s, x)
    ensures x in s.open && s.open[x].plan.None?
  {
    hide Handle, Locks, Commit;
  }

  /** Deciding leaves the other transactions alone. */
  lemma StillSame(cfg: Config, s: System, x: nat, ids: seq<nat>)
    requires x !in ids && forall i :: i in ids ==> i in Decided(cfg, s, x).open
    ensures Quiet(s, Decided(cfg, s, x), ids)
  {
    hide Handle, Locks, Commit;
  }

  lemma FinishAction(cfg: Config, s: System, x: nat, committed: seq<Event>, ids: seq<nat>)
    returns (earlier: seq<nat>, more: seq<Event>)
    requires Consistent(cfg, s) && Planning(s, x) && Pending(Finished(s, x), ids)
    requires Agreement.Fresh(s.open[x].plan.value.view, s.db, s.open[x].request)
    ensures Pending(s, earlier)
    ensures Carries(cfg, s, committed, earlier, more, Finished(s, x), committed + [EventOf(s.open[x])], ids)
  {
    hide Consistent, Pending, Serializes, Finished, Agreement.Fresh, Agreement.Settles;
    PendingOpen(Finished(s, x), ids);
    FinishAny(s, x);
    AlsoPending(Finished(s, x), s, ids);
    if Agreement.Settles(s.open[x].request) {
      earlier, more := [x] + ids, [];
      OneMorePending(s, x, ids);
      forall run | Serializes(cfg, s, committed, earlier, run)
        ensures Serializes(cfg, Finished(s, x), committed + [EventOf(s.open[x])], ids, run + more)
      {
        assert run + [] == run;
        SettledSerializes(cfg, s, committed, ids, x, run);
      }
    } else {
      earlier, more := ids, [EventOf(s.open[x])];
      forall run | Serializes(cfg, s, committed, ids, run)
        ensures Serializes(cfg, Finished(s, x), committed + [EventOf(s.open[x])], ids, run + more)
      {
        FinishSerializes(cfg, s, committed, ids, x, run);
      }
    }
  }

  lemma OneMorePending(s: System, x: nat, ids: seq<nat>)
    requires Pending(s, ids) && IsSettling(s, x) && x !in ids
    ensures Pending(s, [x] + ids)
  {
  }

  lemma ServeAction(cfg: Config, s: System, r: Request, committed: seq<Event>, ids: seq<nat>)
    requires Consistent(cfg, s) && Pending(RowLocks.Served(cfg, s, r), ids) && Free(s.open, Locks(s.db, r))
    requires Handle(cfg, s.db, s.clock, r).Ok?
    ensures Pending(s, ids)
    ensures Carries(cfg, s, committed, ids, [Event(s.clock, r)], RowLocks.Served(cfg, s, r),
                    committed + [Event(s.clock, r)], ids)
  {
    hide Consistent, Pending, Serializes, Free, Locks, Handle, Step;
    PendingOpen(RowLocks.Served(cfg, s, r), ids);
    AlsoPending(RowLocks.Served(cfg, s, r), s, ids);
    forall run | Serializes(cfg, s, committed, ids, run)
      ensures Serializes(cfg, RowLocks.Served(cfg, s, r), committed + [Event(s.clock, r)], ids,
                         run + [Event(s.clock, r)])
    {
      ServeSerializes(cfg, s, committed, ids, r, run);
    }
  }

  /** A beginning of the run serves what is committed at the end of `actions` and, besides, only
      settlements that transactions open then have decided on. */
  ghost predicate Reaches(cfg: Config, start: Time, actions: seq<Action>, run: seq<Event>) {
    exists n, ids: seq<nat> :: 0 <= n <= |run| && ServedBy(cfg, start, actions, ids, run[..n])
  }

  ghost predicate ServedBy(cfg: Config, start: Time, actions: seq<Action>, ids: seq<nat>, run: seq<Event>) {
    && Pending(AfterAll(cfg, start, actions), ids)
    && Serializes(cfg, AfterAll(cfg, start, actions), Committed(cfg, start, actions), ids, run)
  }

  lemma ReachesStill(cfg: Config, start: Time, actions: seq<Action>, run: seq<Event>, more: seq<Event>)
    requires Reaches(cfg, start, actions, run)
    ensures Reaches(cfg, start, actions, run + more)
  {
    hide ServedBy;
    var n, ids: seq<nat> :| 0 <= n <= |run| && ServedBy(cfg, start, actions, ids, run[..n]);
    assert (run + more)[..n] == run[..n];
  }

  lemma ReachesEnd(cfg: Config, start: Time, actions: seq<Action>, ids: seq<nat>, run: seq<Event>)
    requires ServedBy(cfg, start, actions, ids, run)
    ensures Reaches(cfg, start, actions, run)
  {
    hide ServedBy;
    assert run[..|run|] == run;
  }

  /** For every history, whichever settlements of open transactions are finished now: the committed
      requests and those settlements, served one after the other, lead to the same database; and so
      it was at every earlier moment, for a beginning of the same run. */
  lemma {:induction false} EverySettlementSerializes(cfg: Config, start: Time, actions: seq<Action>, ids: seq<nat>)
    returns (run: seq<Event>)
    requires Pending(AfterAll(cfg, start, actions), ids)
    ensures ServedBy(cfg, start, actions, ids, run)
    ensures forall k :: 0 <= k <= |actions| ==> Reaches(cfg, start, actions[..k], run)
    decreases |actions|
  {
    hide Consistent, Pending, Do, CommittedBy, Reaches, Serializes;
    if actions == [] {
      run := [];
      NothingPending(cfg, start, ids);
      ReachesEnd(cfg, start, actions, ids, run);
    } else {
      var before, x := actions[..|actions| - 1], actions[|actions| - 1];
      EveryInterleavingKeeps(cfg, start, before);
      var earlier, more := OneAction(cfg, AfterAll(cfg, start, before), x, Committed(cfg, start, before), ids);
      var first := EverySettlementSerializes(cfg, start, before, earlier);
      run := first + more;
      ReachesEnd(cfg, start, actions, ids, run);
      forall k | 0 <= k <= |actions|
        ensures Reaches(cfg, start, actions[..k], run)
      {
        if k == |actions| {
          assert actions[..k] == actions;
        } else {
          assert actions[..k] == before[..k];
          ReachesStill(cfg, start, before[..k], first, more);
        }
      }
    }
  }

  lemma HasFirst(ids: seq<nat>)
    ensures ids == [] || ids[0] in ids
  {
  }

  lemma NothingPending(cfg: Config, start: Time, ids: seq<nat>)
    requires Pending(AfterAll(cfg, start, []), ids)
    ensures ServedBy(cfg, start, [], ids, [])
  {
    HasFirst(ids);
    AlikeSelf(Initial(cfg));
    assert After(cfg, []) == Initial(cfg);
    var none: seq<Event> := [];
    assert Serializes(cfg, AfterAll(cfg, start, []), none, ids, none);
  }

  /** However transactions interleave: there is an order in which the committed requests, served one
      after the other at the moments they were decided, are all accepted and lead to the committed
      database, up to the order of its ledger. The order respects time: at every moment, what is
      committed by then has been served by a beginning of the run, which holds besides that only
      requests of transactions that are open then. */
  lemma EveryHistoryIsSerializable(cfg: Config, start: Time, actions: seq<Action>) returns (run: seq<Event>)
    ensures multiset(run) == multiset(Committed(cfg, start, actions))
    ensures Accepted(cfg, run)
    ensures Alike(After(cfg, run), AfterAll(cfg, start, actions).db)
    ensures forall k :: 0 <= k <= |actions| ==> Reaches(cfg, start, actions[..k], run)
  {
    hide Accepted, Alike, After, AfterAll, Committed, Reaches;
    run := EverySettlementSerializes(cfg, start, actions, []);
  }
}
