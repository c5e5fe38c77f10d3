/** Joining the public beta. */
module Profiles {
  import opened Results
  import opened Model
  import Credits

  /** The settings of a deployment. `seeded` says whether its migrations have put the seat counter in
      place; a database created from the bare table definitions has none. */
  datatype Config = Config(signupGrant: nat, maxUsers: nat, seeded: bool)

  predicate UsernameTakenBy(profiles: map<Id, string>, username: string, user: Id) {
    exists u | u in profiles :: profiles[u] == username && u != user
  }

  function ClaimedSeats(db: Db): int {
    if db.seats.Some? then db.seats.value else |db.profiles|
  }

  function Upsert(db: Db, cfg: Config, user: Id, username: string, enabled: bool): Result<Writes> {
    var _ :- Need(!UsernameTakenBy(db.profiles, username, user), UsernameTaken);
    var saved := NOTHING.(profiles := map[user := username]);
    if user in db.profiles then Ok(saved)
    else
      var _ :- Need(enabled, RegistrationPaused);
      var _ :- Need(ClaimedSeats(db) < cfg.maxUsers, BetaFull);
      var admitted := saved.(seats := Some(ClaimedSeats(db) + 1),
                             accounts := map[user := Credits.AccountBalance(db.accounts, user)]);
      var granted :- Grant(Commit(db, admitted), cfg, user);
      Ok(Then(admitted, granted))
  }

  function Grant(db: Db, cfg: Config, user: Id): Result<Writes> {
    if cfg.signupGrant > 0 then Credits.Record(db, Entry(user, cfg.signupGrant, SignupGrant, SignupKey(user)))
    else Ok(NOTHING)
  }

  /** Claimed seats, remaining seats, and whether the beta is closed to newcomers. */
  function BetaStatus(db: Db, cfg: Config, enabled: bool): (int, int, bool) {
    var claimed := ClaimedSeats(db);
    (claimed,
     if enabled then (if cfg.maxUsers > claimed then cfg.maxUsers - claimed else 0) else 0,
     !enabled || claimed >= cfg.maxUsers)
  }
}
