/** The trade handler as a machine: one step per call that reaches Redis, with its local variables in the frame. */
module TradeHandler {
  import opened Domain
  import opened RedisDb

  const MAX_COMPARE_AND_SET_ATTEMPTS := 5

  datatype Frame =
    | Check
    | FindOwner
    | MapOwner
    | ReadQuantity
    | Cas(attempt: nat, current: Option<real>)
    | Sync(changed: bool, after: Option<real>)
    | ReadLegacy(changed: bool)
    | WritePortfolio(changed: bool, legacy: real)
    | Project(stockValue: Option<real>)
    | WriteUser
    | MarkProcessed
    | ReadPurchased
    | ReadValue(pv: int)
    | ReadFallback(pv: int)
    | ReadCount(pv: int, value: real)
    | SavePortfolio(pv: int, value: real, ac: int)
    | ReadUserPurchased
    | ReadUserValue(pv: int)
    | ReadUserFallback(pv: int)
    | ReadUserCount(pv: int, value: real)
    | SaveUser(pv: int, value: real, pc: int)
    | Done
    | GaveUp

  /** What the next store call of a handler of trade t does to the store. */
  function Effect(db: Db, id: TradeId, t: Trade, f: Frame): Db {
    match f
    case MapOwner => MapPortfolioToUserFromTrade(db, t.portfolio, t.user)
    case Cas(_, current) => StoreQuantity(db, id, t, current).0
    case Sync(_, after) => SyncHoldingIndexes(db, t.Key(), after)
    case WritePortfolio(changed, legacy) => WriteTotals(db, id, t, changed, legacy).0
    case Project(stockValue) => ProjectStockValue(db, t.portfolio, t.stock, stockValue)
    case WriteUser => ApplyUserTotals(db, t.user, TradeEvent(id), t.UserDelta())
    case MarkProcessed => db.(processed := db.processed + {id})
    case SavePortfolio(pv, value, ac) => SavePortfolioValuation(db, t.portfolio, pv, value, ac)
    case SaveUser(pv, value, pc) => SaveUserValuation(db, t.user, pv, value, pc)
    case _ => db
  }

  function StoreQuantity(db: Db, id: TradeId, t: Trade, current: Option<real>): (Db, Reply) {
    var (next, changed) := NextQuantity(t, current);
    CompareAndSet(db, t.Key(), TradeEvent(id), current, next, changed)
  }

  function WriteTotals(db: Db, id: TradeId, t: Trade, changed: bool, legacy: real): (Db, Option<real>) {
    ApplyPortfolioTradeTotals(db, t.portfolio, t.stock, TradeEvent(id), TradeTotals(t, changed), legacy)
  }

  /** What a connection lost in the middle of the call can leave: the pipelines of two commands may end after the first.
      Scripts and transactions run whole. */
  function Torn(db: Db, t: Trade, f: Frame): Db {
    match f
    case MapOwner => db.WithPortfolio(t.portfolio, db.Portfolio(t.portfolio).(owner := Some(t.user), pending := true))
    case Sync(_, after) => db.(stockIndex := SyncHoldingIndexes(db, t.Key(), after).stockIndex)
    case _ => db
  }

  /** Where the handler goes with the reply of that call. */
  function Next(db: Db, id: TradeId, t: Trade, f: Frame): Frame {
    match f
    case Check => if id in db.processed then ReadPurchased else FindOwner
    case FindOwner => if db.Portfolio(t.portfolio).owner.None? then MapOwner else ReadQuantity
    case MapOwner => ReadQuantity
    case ReadQuantity => Cas(0, Lookup(db.quantity, t.Key()))
    case Cas(attempt, current) => AfterReply(attempt, StoreQuantity(db, id, t, current).1)
    case Sync(changed, _) => ReadLegacy(changed)
    case ReadLegacy(changed) => WritePortfolio(changed, GetOr(db.Portfolio(t.portfolio).legacy, t.stock, 0.0))
    case WritePortfolio(changed, legacy) => Project(WriteTotals(db, id, t, changed, legacy).1)
    case Project(_) => WriteUser
    case WriteUser => MarkProcessed
    case MarkProcessed => ReadPurchased
    case ReadPurchased => ReadValue(db.Portfolio(t.portfolio).pv)
    case ReadValue(pv) =>
      var cvp := db.Portfolio(t.portfolio).cvp;
      if cvp.Some? then ReadCount(pv, cvp.value) else ReadFallback(pv)
    case ReadFallback(pv) => ReadCount(pv, db.Portfolio(t.portfolio).cv as real)
    case ReadCount(pv, value) => SavePortfolio(pv, value, db.Portfolio(t.portfolio).ac)
    case SavePortfolio(_, _, _) => ReadUserPurchased
    case ReadUserPurchased => ReadUserValue(db.User(t.user).pv)
    case ReadUserValue(pv) =>
      var cvp := db.User(t.user).cvp;
      if cvp.Some? then ReadUserCount(pv, cvp.value) else ReadUserFallback(pv)
    case ReadUserFallback(pv) => ReadUserCount(pv, db.User(t.user).cv as real)
    case ReadUserCount(pv, value) => SaveUser(pv, value, db.User(t.user).pc)
    case SaveUser(_, _, _) => Done
    case Done => Done
    case GaveUp => GaveUp
  }

  function AfterReply(attempt: nat, reply: Reply): Frame {
    match reply
    case Applied(changed, after) => Sync(changed, after)
    case Stored(changed, after) => Sync(changed, after)
    case Conflict(current) =>
      if attempt + 1 < MAX_COMPARE_AND_SET_ATTEMPTS then Cas(attempt + 1, current) else GaveUp
  }

  /** Reads whose failure the code does not notice: it goes on as if the field were not there. */
  predicate Swallows(f: Frame) {
    || f.FindOwner? || f.ReadLegacy?
    || f.ReadPurchased? || f.ReadValue? || f.ReadFallback? || f.ReadCount?
    || f.ReadUserPurchased? || f.ReadUserValue? || f.ReadUserFallback? || f.ReadUserCount?
  }

  /** Where such a read leads when its answer is lost. */
  function NextBlind(f: Frame): Frame
    requires Swallows(f)
  {
    match f
    case FindOwner => MapOwner
    case ReadLegacy(changed) => WritePortfolio(changed, 0.0)
    case ReadPurchased => ReadValue(0)
    case ReadValue(pv) => ReadFallback(pv)
    case ReadFallback(pv) => ReadCount(pv, 0.0)
    case ReadCount(pv, value) => SavePortfolio(pv, value, 0)
    case ReadUserPurchased => ReadUserValue(0)
    case ReadUserValue(pv) => ReadUserFallback(pv)
    case ReadUserFallback(pv) => ReadUserCount(pv, 0.0)
    case ReadUserCount(pv, value) => SaveUser(pv, value, 0)
  }

  /** One invocation: each element of the schedule is one more call, after the interference it holds. A lost answer ends
      the invocation unless the code does not notice; when the schedule runs out the handler has been cut. */
  function Run(db: Db, id: TradeId, t: Trade, f: Frame, schedule: seq<Call>): (Db, Frame)
    decreases |schedule|
  {
    if schedule == [] || f.Done? || f.GaveUp? then (db, f)
    else
      var met := schedule[0].others(db);
      if !schedule[0].lost then Run(Effect(met, id, t, f), id, t, Next(met, id, t, f), schedule[1..])
      else if Swallows(f) then Run(met, id, t, NextBlind(f), schedule[1..])
      else (met, f)
  }

  // ---- giving up ---------------------------------------------------------------------------

  predicate BeforeStored(f: Frame) {
    f.Check? || f.FindOwner? || f.MapOwner? || f.ReadQuantity? || f.Cas? || f.GaveUp?
  }

  /** Once its quantity is stored a handler no longer gives up. */
  lemma {:induction false} StoredNeverGivesUp(db: Db, id: TradeId, t: Trade, f: Frame, schedule: seq<Call>)
    requires !BeforeStored(f)
    ensures !BeforeStored(Run(db, id, t, f, schedule).1)
    decreases |schedule|
  {
    if schedule != [] && !f.Done? {
      var met := schedule[0].others(db);
      if !schedule[0].lost {
        StoredNeverGivesUp(Effect(met, id, t, f), id, t, Next(met, id, t, f), schedule[1..]);
      } else if Swallows(f) {
        StoredNeverGivesUp(met, id, t, NextBlind(f), schedule[1..]);
      }
    }
  }

  /** What the others do, without the handler. */
  function Others(db: Db, schedule: seq<Call>): Db
    decreases |schedule|
  {
    if schedule == [] then db else Others(schedule[0].others(db), schedule[1..])
  }

  /** A call that gives up has lost all its attempts, and has changed nothing. */
  lemma {:induction false} GivingUpChangesNothing(db: Db, id: TradeId, t: Trade, attempt: nat, current: Option<real>,
                                                  schedule: seq<Call>)
    requires attempt < MAX_COMPARE_AND_SET_ATTEMPTS && Run(db, id, t, Cas(attempt, current), schedule).1.GaveUp?
    ensures var left := MAX_COMPARE_AND_SET_ATTEMPTS - attempt;
      |schedule| >= left && Run(db, id, t, Cas(attempt, current), schedule).0 == Others(db, schedule[..left])
    decreases |schedule|
  {
    var met, left := schedule[0].others(db), MAX_COMPARE_AND_SET_ATTEMPTS - attempt;
    var f := Next(met, id, t, Cas(attempt, current));
    if !BeforeStored(f) {
      StoredNeverGivesUp(Effect(met, id, t, Cas(attempt, current)), id, t, f, schedule[1..]);
    } else {
      assert Effect(met, id, t, Cas(attempt, current)) == met;
      if f.Cas? {
        GivingUpChangesNothing(met, id, t, f.attempt, f.current, schedule[1..]);
        assert schedule[..left][1..] == schedule[1..][..left - 1];
      } else {
        assert schedule[..left] == [schedule[0]];
      }
    }
  }
}
