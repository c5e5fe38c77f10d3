/** Credit accounts and the append-only ledger. */
module Credits {
  import opened Results
  import opened Model

  predicate HasKey(ledger: seq<Entry>, key: EntryKey) {
    exists i | 0 <= i < |ledger| :: ledger[i].key == key
  }

  function AccountBalance(accounts: map<Id, int>, user: Id): int {
    if user in accounts then accounts[user] else 0
  }

  /** Post one entry: a known key is left alone, a zero delta or an overdraft is refused. */
  function Record(db: Db, e: Entry): Result<Writes> {
    if HasKey(db.ledger, e.key) then Ok(NOTHING)
    else
      var _ :- Need(e.delta != 0, ZeroCredit);
      var balance := AccountBalance(db.accounts, e.user) + e.delta;
      var _ :- Need(balance >= 0, InsufficientCredits);
      Ok(NOTHING.(accounts := map[e.user := balance], entries := [e]))
  }

  function RewardEntry(assignment: Id, tester: Id, reward: int): Entry {
    Entry(tester, reward, Reward, RewardKey(assignment))
  }

  /** What the ledger says a user owns. */
  function Balance(ledger: seq<Entry>, user: Id): int {
    if ledger == [] then 0
    else
      var e := ledger[|ledger| - 1];
      Balance(ledger[..|ledger| - 1], user) + if e.user == user then e.delta else 0
  }

  /** The sum of every delta in the ledger. */
  function Total(ledger: seq<Entry>): int {
    if ledger == [] then 0 else Total(ledger[..|ledger| - 1]) + ledger[|ledger| - 1].delta
  }

  /** The sum of the signup grants in the ledger. */
  function Grants(ledger: seq<Entry>): int {
    if ledger == [] then 0
    else
      var e := ledger[|ledger| - 1];
      Grants(ledger[..|ledger| - 1]) + if e.kind == SignupGrant then e.delta else 0
  }

  lemma Append(ledger: seq<Entry>, e: Entry)
    ensures forall u :: Balance(ledger + [e], u) == Balance(ledger, u) + if e.user == u then e.delta else 0
    ensures Total(ledger + [e]) == Total(ledger) + e.delta
    ensures Grants(ledger + [e]) == Grants(ledger) + if e.kind == SignupGrant then e.delta else 0
    ensures forall k :: HasKey(ledger + [e], k) <==> HasKey(ledger, k) || e.key == k
  {
    var after := ledger + [e];
    assert after[..|after| - 1] == ledger;
    forall k
      ensures HasKey(after, k) <==> HasKey(ledger, k) || e.key == k
    {
      if HasKey(ledger, k) {
        var i :| 0 <= i < |ledger| && ledger[i].key == k;
        assert after[i].key == k;
      }
      assert after[|ledger|] == e;
    }
  }

  /** A key is posted at most once, whoever asks again and for how much; otherwise the entry goes to the
      end of the ledger and moves one balance, which stays at zero or above. */
  lemma KeysPostOnce(db: Db, e: Entry, again: Entry)
    ensures var r := Record(db, e);
            var balance := (if e.user in db.accounts then db.accounts[e.user] else 0) + e.delta;
            if exists i | 0 <= i < |db.ledger| :: db.ledger[i].key == e.key then r == Ok(NOTHING)
            else if e.delta == 0 then r == Err(ZeroCredit)
            else if balance < 0 then r == Err(InsufficientCredits)
            else
              && r.Ok?
              && Commit(db, r.value) == db.(accounts := db.accounts[e.user := balance], ledger := db.ledger + [e])
    ensures Record(db, e).Ok? && again.key == e.key ==> Record(Commit(db, Record(db, e).value), again) == Ok(NOTHING)
  {
    hide Commit, HasKey, Record;
    HasKeyMeans(db.ledger, e.key);
    RecordIs(db, e);
    if HasKey(db.ledger, e.key) {
      NothingChanges(db);
      RecordIs(db, again);
    } else if Record(db, e).Ok? {
      Posted(db, e);
      HasLast(db.ledger, e);
      RecordIs(Commit(db, Record(db, e).value), again);
    }
  }

  lemma HasKeyMeans(ledger: seq<Entry>, key: EntryKey)
    ensures HasKey(ledger, key) <==> exists i | 0 <= i < |ledger| :: ledger[i].key == key
  {
  }

  lemma HasLast(ledger: seq<Entry>, e: Entry)
    ensures HasKey(ledger + [e], e.key)
  {
    assert (ledger + [e])[|ledger|] == e;
  }

  lemma RecordIs(db: Db, e: Entry)
    ensures HasKey(db.ledger, e.key) ==> Record(db, e) == Ok(NOTHING)
    ensures !HasKey(db.ledger, e.key) ==>
              var balance := AccountBalance(db.accounts, e.user) + e.delta;
              Record(db, e) ==
              if e.delta == 0 then Err(ZeroCredit) else if balance < 0 then Err(InsufficientCredits)
              else Ok(NOTHING.(accounts := map[e.user := balance], entries := [e]))
  {
    hide HasKey, AccountBalance;
  }

  lemma Posted(db: Db, e: Entry)
    ensures var balance := AccountBalance(db.accounts, e.user) + e.delta;
            Commit(db, NOTHING.(accounts := map[e.user := balance], entries := [e])) ==
            db.(accounts := db.accounts[e.user := balance], ledger := db.ledger + [e])
  {
    hide AccountBalance;
    var w := NOTHING.(accounts := map[e.user := AccountBalance(db.accounts, e.user) + e.delta], entries := [e]);
    Untouched(db, w);
    PlusOne(db.accounts, e.user, AccountBalance(db.accounts, e.user) + e.delta);
  }
}
