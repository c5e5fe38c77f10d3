/** What holds along a whole history of interleaved transactions. */
module Histories {
  import opened Model
  import opened Invariants
  import opened Evolution
  import opened Requests
  import opened RowLocks
  import Agreement
  import Guarantees
  import Lifecycles
  import Profiles
  import Workflow

  type Config = Profiles.Config

  /** A database some history of the system reaches, and the time it is then. */
  ghost predicate Reachable(cfg: Config, db: Db, t: Time) {
    exists start, actions :: AfterAll(cfg, start, actions).db == db && AfterAll(cfg, start, actions).clock == t
  }

  lemma ReachableHolds(cfg: Config, db: Db, t: Time)
    requires Reachable(cfg, db, t)
    ensures Inv(cfg, db, t)
  {
    var start, actions :| AfterAll(cfg, start, actions).db == db && AfterAll(cfg, start, actions).clock == t;
    EveryInterleavingKeeps(cfg, start, actions);
    hide Inv, AfterAll, AllFit, Exclusive;
  }

  // ----- runs of one request after the other ------------------------------------------------

  /** A serial run as a history: the clock moves on, then the request is served. */
  function Served(run: seq<Event>): seq<Action> {
    if run == [] then []
    else Served(run[..|run| - 1]) + [Tick(run[|run| - 1].now), Serve(run[|run| - 1].request)]
  }

  lemma Extend(cfg: Config, start: Time, actions: seq<Action>, x: Action)
    ensures AfterAll(cfg, start, actions + [x]) == Do(cfg, AfterAll(cfg, start, actions), x)
  {
    assert (actions + [x])[..|actions + [x]| - 1] == actions;
  }

  /** Serving requests one after the other is one of the histories. */
  lemma {:induction false} SerialRunsAreHistories(cfg: Config, start: Time, run: seq<Event>)
    requires Ordered(run) && (run != [] ==> start <= run[0].now)
    ensures AfterAll(cfg, start, Served(run)) == System(After(cfg, run), if run == [] then start else Clock(run), map[])
  {
    if run != [] {
      var before, e := run[..|run| - 1], run[|run| - 1];
      SerialRunsAreHistories(cfg, start, before);
      var actions := Served(before);
      assert actions + [Tick(e.now), Serve(e.request)] == (actions + [Tick(e.now)]) + [Serve(e.request)];
      hide Step, Locks, Commit, AfterAll;
      Extend(cfg, start, actions, Tick(e.now));
      Extend(cfg, start, actions + [Tick(e.now)], Serve(e.request));
    }
  }

  /** The state before the last action, and after it. */
  lemma LastAction(cfg: Config, start: Time, actions: seq<Action>)
    requires actions != []
    ensures AfterAll(cfg, start, actions) ==
            Do(cfg, AfterAll(cfg, start, actions[..|actions| - 1]), actions[|actions| - 1])
  {
    hide Do;
  }

  // ----- one action -------------------------------------------------------------------------

  lemma LateAdvances(db: Db, mine: Writes, serial: Writes, c: Id)
    requires Agreement.Late(db, mine, serial, c) && Lifecycles.Advances(db, Commit(db, serial))
    ensures Lifecycles.Advances(db, Commit(db, mine))
  {
    Agreement.LateShape(db, mine, serial, c);
    hide *;
    SameTables(db, Commit(db, serial), Commit(db, mine), c);
  }

  lemma SameTables(db: Db, good: Db, late: Db, c: Id)
    requires Lifecycles.Advances(db, good) && late == good.(campaigns := late.campaigns)
    requires c in good.campaigns && c in db.campaigns && db.campaigns[c].status != Completed
    requires late.campaigns == good.campaigns + map[c := good.campaigns[c].(status := Closed)]
    ensures Lifecycles.Advances(db, late)
  {
    hide Lifecycles.AssignmentsFollow, Lifecycles.NewAssignmentsFollow, Lifecycles.DisputesFollow;
    hide Lifecycles.ReviewsFollow, Lifecycles.CampaignsFollow;
    SameWorkFollows(db, good, late);
    SameReviewsFollow(db, good, late);
    LateCampaignsFollow(db.campaigns, good.campaigns, late.campaigns, c);
  }

  lemma SameWorkFollows(db: Db, good: Db, late: Db)
    requires Lifecycles.AssignmentsFollow(db, good) && Lifecycles.NewAssignmentsFollow(db, good)
    requires late.assignments == good.assignments && late.submissions == good.submissions
    ensures Lifecycles.AssignmentsFollow(db, late) && Lifecycles.NewAssignmentsFollow(db, late)
  {
    hide Lifecycles.Turns, Lifecycles.Arrow, Workflow.HasActiveDispute;
    forall a | a in db.assignments
      ensures Lifecycles.Follows(db, late, a)
    {
      assert Lifecycles.Follows(db, good, a);
    }
  }

  lemma SameReviewsFollow(db: Db, good: Db, late: Db)
    requires Lifecycles.ReviewsFollow(db, good) && late.reviews == good.reviews
    ensures Lifecycles.ReviewsFollow(db, late)
  {
    hide Lifecycles.Undisputed;
  }

  lemma LateCampaignsFollow(before: map<Id, Campaign>, good: map<Id, Campaign>, late: map<Id, Campaign>, c: Id)
    requires Lifecycles.CampaignsFollow(before, good) && c in good && c in before && before[c].status != Completed
    requires late == good + map[c := good[c].(status := Closed)]
    ensures Lifecycles.CampaignsFollow(before, late)
  {
  }

  lemma FinishAdvances(cfg: Config, db: Db, clock: Time, x: Transaction)
    requires Inv(cfg, db, clock) && TransactionFits(cfg, db, clock, x) && x.plan.Some?
    requires Agreement.Fresh(x.plan.value.view, db, x.request)
    ensures Lifecycles.Advances(db, Commit(db, x.plan.value.writes))
  {
    var p := x.plan.value;
    hide Inv, Current, Evolves, Handle, Locks, Commit, Exists, Agreement.Late, Agreement.Fresh;
    hide Lifecycles.Advances;
    Agreement.Agrees(cfg, p.view, db, p.decidedAt, clock, x.request, x.held);
    var serial := Handle(cfg, db, p.decidedAt, x.request).value;
    Lifecycles.HandleAdvances(cfg, db, clock, p.decidedAt, x.request);
    if p.writes != serial {
      var c :| Agreement.Late(db, p.writes, serial, c);
      LateAdvances(db, p.writes, serial, c);
    }
  }

  /** Every action advances assignments, disputes, reviews and campaigns only along their arrows,
      and changes nothing that is frozen. */
  lemma DoAdvances(cfg: Config, s: System, x: Action)
    requires Consistent(cfg, s)
    ensures Lifecycles.Advances(s.db, Do(cfg, s, x).db)
    ensures Evolves(s.db, Do(cfg, s, x).db, {})
  {
    Lifecycles.NothingHappens(s.db);
    Unchanged(s.db, {});
    hide Inv, Evolves, Lifecycles.Advances, Handle, Locks, TransactionFits, Agreement.Fresh, Commit, Exists;
    if x.Finish? && x.id in s.open && s.open[x.id].plan.Some? &&
       Agreement.Fresh(s.open[x.id].plan.value.view, s.db, s.open[x.id].request) {
      FinishAdvances(cfg, s.db, s.clock, s.open[x.id]);
      FinishEvolves(cfg, s.db, s.clock, s.open[x.id], {});
    } else if x.Serve? && Handle(cfg, s.db, s.clock, x.request).Ok? {
      Lifecycles.HandleAdvances(cfg, s.db, s.clock, s.clock, x.request);
      Guarantees.Guarantee(cfg, s.db, s.clock, s.clock, x.request, {});
    }
  }

  // ----- from any point of a history to its end ---------------------------------------------

  /** Whatever was committed after the first `k` actions has only evolved since. */
  lemma {:induction false} Onwards(cfg: Config, start: Time, actions: seq<Action>, k: nat)
    requires k <= |actions|
    ensures Evolves(AfterAll(cfg, start, actions[..k]).db, AfterAll(cfg, start, actions).db, {})
  {
    var now := AfterAll(cfg, start, actions);
    if k == |actions| {
      assert actions[..k] == actions;
      Unchanged(now.db, {});
    } else {
      var before := actions[..|actions| - 1];
      assert before[..k] == actions[..k];
      Onwards(cfg, start, before, k);
      EveryInterleavingKeeps(cfg, start, before);
      hide Consistent, Evolves, Do;
      DoAdvances(cfg, AfterAll(cfg, start, before), actions[|actions| - 1]);
      Transitive(AfterAll(cfg, start, actions[..k]).db, AfterAll(cfg, start, before).db, now.db, {});
    }
  }
}
