/** The trade handler as the service runs it, against the store object. Beside its result each method returns the
    machine frame it has reached. */
module CacheService {
  import opened Domain
  import opened RedisDb
  import opened RedisStore
  import opened TradeHandler

  /** The invocation went on from frame f to frame g: what is left of it is what was left before. */
  twostate predicate Advanced(store: Store, id: TradeId, t: Trade, f: Frame, g: Frame)
    reads store
  {
    Run(old(store.State()), id, t, f, old(store.schedule)) == Run(store.State(), id, t, g, store.schedule)
  }

  /** The invocation goes no further: a call was lost, or compare-and-set gave up. */
  ghost predicate Stopped(store: Store, g: Frame)
    reads store
  {
    g.GaveUp? || (store.schedule == [] && !g.Done?)
  }

  /** One run of the compare-and-set script. */
  method TryCompareAndSet(store: Store, id: TradeId, t: Trade, attempt: nat, current: Option<real>)
      returns (r: Result<Reply>, ghost g: Frame)
    modifies store
    ensures Advanced(store, id, t, Cas(attempt, current), g)
    ensures r.Err? ==> store.schedule == [] && g == Cas(attempt, current)
    ensures r.Ok? ==> g == AfterReply(attempt, r.value)
  {
    g := Cas(attempt, current);
    var (next, changed) := NextQuantity(t, current);
    r := store.EvalCompareAndSet(t.Key(), TradeEvent(id), current, next, changed);
    if r.Ok? {
      g := AfterReply(attempt, r.value);
    }
  }

  /** Compares and sets until the quantity is stored or already applied, at most five times. */
  method RetryCompareAndSet(store: Store, id: TradeId, t: Trade, first: Option<real>)
      returns (r: Result<(bool, Option<real>)>, ghost g: Frame)
    modifies store
    ensures Advanced(store, id, t, Cas(0, first), g)
    ensures r.Err? ==> Stopped(store, g)
    ensures r.Ok? ==> g == Sync(r.value.0, r.value.1)
  {
    var attempt, current := 0, first;
    g := Cas(0, current);
    while attempt < MAX_COMPARE_AND_SET_ATTEMPTS
      invariant 0 <= attempt <= MAX_COMPARE_AND_SET_ATTEMPTS
      invariant Advanced(store, id, t, Cas(0, first), g)
      invariant g == if attempt < MAX_COMPARE_AND_SET_ATTEMPTS then Cas(attempt, current) else GaveUp
    {
      var reply;
      reply, g :- TryCompareAndSet(store, id, t, attempt, current);
      if !reply.Conflict? {
        return Ok((reply.changed, reply.after)), g;
      }
      current := reply.current;
      attempt := attempt + 1;
    }
    return Err, g;
  }

  method CompareAndSetQuantity(store: Store, id: TradeId, t: Trade)
      returns (r: Result<(bool, Option<real>)>, ghost g: Frame)
    modifies store
    ensures Advanced(store, id, t, ReadQuantity, g)
    ensures r.Err? ==> Stopped(store, g)
    ensures r.Ok? ==> g == Sync(r.value.0, r.value.1)
  {
    g := ReadQuantity;
    var current :- store.GetQuantity(t.Key());
    r, g := RetryCompareAndSet(store, id, t, current);
  }

  method SyncIndexes(store: Store, id: TradeId, t: Trade, changed: bool, after: Option<real>)
      returns (r: Result<()>, ghost g: Frame)
    modifies store
    ensures Advanced(store, id, t, Sync(changed, after), g)
    ensures r.Err? ==> Stopped(store, g)
    ensures r.Ok? ==> g == ReadLegacy(changed)
  {
    g := Sync(changed, after);
    r := store.SyncIndexes(t.Key(), after);
    if r.Ok? {
      g := ReadLegacy(changed);
    }
  }

  /** Increases or decreases the quantity once, and brings the indexes in line with the quantity after it. */
  method ChangeStockQuantity(store: Store, id: TradeId, t: Trade) returns (r: Result<bool>, ghost g: Frame)
    modifies store
    ensures Advanced(store, id, t, ReadQuantity, g)
    ensures r.Err? ==> Stopped(store, g)
    ensures r.Ok? ==> g == ReadLegacy(r.value)
  {
    var stored;
    stored, g :- CompareAndSetQuantity(store, id, t);
    var unit;
    unit, g :- SyncIndexes(store, id, t, stored.0, stored.1);
    return Ok(stored.0), g;
  }

  method ReadLegacyValue(store: Store, id: TradeId, t: Trade, changed: bool) returns (r: Result<real>, ghost g: Frame)
    modifies store
    ensures Advanced(store, id, t, ReadLegacy(changed), g)
    ensures r.Err? ==> Stopped(store, g)
    ensures r.Ok? ==> g == WritePortfolio(changed, r.value)
  {
    g := ReadLegacy(changed);
    r := store.GetLegacyValue(t.Key());
    if r.Ok? {
      g := WritePortfolio(changed, r.value);
    }
  }

  method WriteHash(store: Store, id: TradeId, t: Trade, changed: bool, legacy: real)
      returns (r: Result<Option<real>>, ghost g: Frame)
    modifies store
    ensures Advanced(store, id, t, WritePortfolio(changed, legacy), g)
    ensures r.Err? ==> Stopped(store, g)
    ensures r.Ok? ==> g == Project(r.value)
  {
    g := WritePortfolio(changed, legacy);
    r := store.EvalPortfolioTradeTotals(t.portfolio, t.stock, TradeEvent(id), TradeTotals(t, changed), legacy);
    if r.Ok? {
      g := Project(r.value);
    }
  }

  /** Reads the compatibility key and writes the portfolio hash. */
  method WritePortfolioTotals(store: Store, id: TradeId, t: Trade, changed: bool)
      returns (r: Result<Option<real>>, ghost g: Frame)
    modifies store
    ensures Advanced(store, id, t, ReadLegacy(changed), g)
    ensures r.Err? ==> Stopped(store, g)
    ensures r.Ok? ==> g == Project(r.value)
  {
    var legacy;
    legacy, g :- ReadLegacyValue(store, id, t, changed);
    r, g := WriteHash(store, id, t, changed, legacy);
  }

  method ProjectValue(store: Store, id: TradeId, t: Trade, stockValue: Option<real>)
      returns (r: Result<()>, ghost g: Frame)
    modifies store
    ensures Advanced(store, id, t, Project(stockValue), g)
    ensures r.Err? ==> Stopped(store, g)
    ensures r.Ok? ==> g == WriteUser
  {
    g := Project(stockValue);
    r := store.SetLegacyValue(t.Key(), stockValue);
    if r.Ok? {
      g := WriteUser;
    }
  }

  /** The portfolio write, with the compatibility key brought in line after it. */
  method ApplyTradeToPortfolio(store: Store, id: TradeId, t: Trade, changed: bool)
      returns (r: Result<()>, ghost g: Frame)
    modifies store
    ensures Advanced(store, id, t, ReadLegacy(changed), g)
    ensures r.Err? ==> Stopped(store, g)
    ensures r.Ok? ==> g == WriteUser
  {
    var stockValue;
    stockValue, g :- WritePortfolioTotals(store, id, t, changed);
    r, g := ProjectValue(store, id, t, stockValue);
  }

  /** applyPortfolio: maps the portfolio if nobody owns it yet, then buys or sells. */
  method ApplyPortfolio(store: Store, id: TradeId, t: Trade) returns (r: Result<()>, ghost g: Frame)
    modifies store
    ensures Advanced(store, id, t, FindOwner, g)
    ensures r.Err? ==> Stopped(store, g)
    ensures r.Ok? ==> g == MarkProcessed
  {
    g := FindOwner;
    var owner :- store.FindUserIDByPortfolioID(t.portfolio);
    if owner.None? {
      g := MapOwner;
      var _ :- store.MapFromTrade(t.portfolio, t.user);
    }
    assert Advanced(store, id, t, FindOwner, ReadQuantity);
    var unit;
    unit, g :- Trade(store, id, t);
    return Ok(()), g;
  }

  /** The quantity and portfolio writes of buy and sell. */
  method TradePortfolio(store: Store, id: TradeId, t: Trade) returns (r: Result<()>, ghost g: Frame)
    modifies store
    ensures Advanced(store, id, t, ReadQuantity, g)
    ensures r.Err? ==> Stopped(store, g)
    ensures r.Ok? ==> g == WriteUser
  {
    var changed;
    changed, g :- ChangeStockQuantity(store, id, t);
    r, g := ApplyTradeToPortfolio(store, id, t, changed);
  }

  method WriteUserTotals(store: Store, id: TradeId, t: Trade) returns (r: Result<()>, ghost g: Frame)
    modifies store
    ensures Advanced(store, id, t, WriteUser, g)
    ensures r.Err? ==> Stopped(store, g)
    ensures r.Ok? ==> g == MarkProcessed
  {
    g := WriteUser;
    r := store.EvalUserTotals(t.user, TradeEvent(id), t.UserDelta());
    if r.Ok? {
      g := MarkProcessed;
    }
  }

  /** buy and sell: quantity, portfolio, user. */
  method Trade(store: Store, id: TradeId, t: Trade) returns (r: Result<()>, ghost g: Frame)
    modifies store
    ensures Advanced(store, id, t, ReadQuantity, g)
    ensures r.Err? ==> Stopped(store, g)
    ensures r.Ok? ==> g == MarkProcessed
  {
    var unit;
    unit, g :- TradePortfolio(store, id, t);
    r, g := WriteUserTotals(store, id, t);
  }

  method FetchPortfolioPurchased(store: Store, id: TradeId, t: Trade) returns (r: Result<int>, ghost g: Frame)
    modifies store
    ensures Advanced(store, id, t, ReadPurchased, g)
    ensures r.Err? ==> Stopped(store, g)
    ensures r.Ok? ==> g == ReadValue(r.value)
  {
    g := ReadPurchased;
    r := store.FindPortfolioPurchasedValue(t.portfolio);
    if r.Ok? {
      g := ReadValue(r.value);
    }
  }

  method FetchPortfolioTotal(store: Store, id: TradeId, t: Trade, pv: int)
      returns (r: Result<Option<real>>, ghost g: Frame)
    modifies store
    ensures Advanced(store, id, t, ReadValue(pv), g)
    ensures r.Err? ==> Stopped(store, g)
    ensures r.Ok? ==> g == if r.value.Some? then ReadCount(pv, r.value.value) else ReadFallback(pv)
  {
    g := ReadValue(pv);
    r := store.FindPortfolioTotal(t.portfolio);
    if r.Ok? {
      g := if r.value.Some? then ReadCount(pv, r.value.value) else ReadFallback(pv);
    }
  }

  method FetchPortfolioFallback(store: Store, id: TradeId, t: Trade, pv: int) returns (r: Result<int>, ghost g: Frame)
    modifies store
    ensures Advanced(store, id, t, ReadFallback(pv), g)
    ensures r.Err? ==> Stopped(store, g)
    ensures r.Ok? ==> g == ReadCount(pv, r.value as real)
  {
    g := ReadFallback(pv);
    r := store.FindPortfolioSnapshot(t.portfolio);
    if r.Ok? {
      g := ReadCount(pv, r.value as real);
    }
  }

  /** cvp, or cv where there is no cvp. */
  method FetchPortfolioValue(store: Store, id: TradeId, t: Trade, pv: int) returns (r: Result<real>, ghost g: Frame)
    modifies store
    ensures Advanced(store, id, t, ReadValue(pv), g)
    ensures r.Err? ==> Stopped(store, g)
    ensures r.Ok? ==> g == ReadCount(pv, r.value)
  {
    var total;
    total, g :- FetchPortfolioTotal(store, id, t, pv);
    if total.Some? {
      return Ok(total.value), g;
    }
    var fallback;
    fallback, g :- FetchPortfolioFallback(store, id, t, pv);
    return Ok(fallback as real), g;
  }

  method FetchPortfolioCount(store: Store, id: TradeId, t: Trade, pv: int, value: real)
      returns (r: Result<int>, ghost g: Frame)
    modifies store
    ensures Advanced(store, id, t, ReadCount(pv, value), g)
    ensures r.Err? ==> Stopped(store, g)
    ensures r.Ok? ==> g == Frame.SavePortfolio(pv, value, r.value)
  {
    g := ReadCount(pv, value);
    r := store.FindAssetCount(t.portfolio);
    if r.Ok? {
      g := Frame.SavePortfolio(pv, value, r.value);
    }
  }

  method WritePortfolioSnapshot(store: Store, id: TradeId, t: Trade, pv: int, value: real, ac: int)
      returns (r: Result<()>, ghost g: Frame)
    modifies store
    ensures Advanced(store, id, t, Frame.SavePortfolio(pv, value, ac), g)
    ensures r.Err? ==> Stopped(store, g)
    ensures r.Ok? ==> g == ReadUserPurchased
  {
    g := Frame.SavePortfolio(pv, value, ac);
    r := store.SavePortfolio(t.portfolio, pv, value, ac);
    if r.Ok? {
      g := ReadUserPurchased;
    }
  }

  /** Reads the portfolio's numbers and saves what it has read. */
  method SavePortfolioSnapshot(store: Store, id: TradeId, t: Trade) returns (r: Result<()>, ghost g: Frame)
    modifies store
    ensures Advanced(store, id, t, ReadPurchased, g)
    ensures r.Err? ==> Stopped(store, g)
    ensures r.Ok? ==> g == ReadUserPurchased
  {
    var pv, value, ac;
    pv, g :- FetchPortfolioPurchased(store, id, t);
    value, g :- FetchPortfolioValue(store, id, t, pv);
    ac, g :- FetchPortfolioCount(store, id, t, pv, value);
    r, g := WritePortfolioSnapshot(store, id, t, pv, value, ac);
  }

  method FetchUserPurchased(store: Store, id: TradeId, t: Trade) returns (r: Result<int>, ghost g: Frame)
    modifies store
    ensures Advanced(store, id, t, ReadUserPurchased, g)
    ensures r.Err? ==> Stopped(store, g)
    ensures r.Ok? ==> g == ReadUserValue(r.value)
  {
    g := ReadUserPurchased;
    r := store.FindUserPurchasedValue(t.user);
    if r.Ok? {
      g := ReadUserValue(r.value);
    }
  }

  method FetchUserTotal(store: Store, id: TradeId, t: Trade, pv: int) returns (r: Result<Option<real>>, ghost g: Frame)
    modifies store
    ensures Advanced(store, id, t, ReadUserValue(pv), g)
    ensures r.Err? ==> Stopped(store, g)
    ensures r.Ok? ==> g == if r.value.Some? then ReadUserCount(pv, r.value.value) else ReadUserFallback(pv)
  {
    g := ReadUserValue(pv);
    r := store.FindUserTotal(t.user);
    if r.Ok? {
      g := if r.value.Some? then ReadUserCount(pv, r.value.value) else ReadUserFallback(pv);
    }
  }

  method FetchUserFallback(store: Store, id: TradeId, t: Trade, pv: int) returns (r: Result<int>, ghost g: Frame)
    modifies store
    ensures Advanced(store, id, t, ReadUserFallback(pv), g)
    ensures r.Err? ==> Stopped(store, g)
    ensures r.Ok? ==> g == ReadUserCount(pv, r.value as real)
  {
    g := ReadUserFallback(pv);
    r := store.FindUserSnapshot(t.user);
    if r.Ok? {
      g := ReadUserCount(pv, r.value as real);
    }
  }

  /** cvp, or cv where there is no cvp. */
  method FetchUserValue(store: Store, id: TradeId, t: Trade, pv: int) returns (r: Result<real>, ghost g: Frame)
    modifies store
    ensures Advanced(store, id, t, ReadUserValue(pv), g)
    ensures r.Err? ==> Stopped(store, g)
    ensures r.Ok? ==> g == ReadUserCount(pv, r.value)
  {
    var total;
    total, g :- FetchUserTotal(store, id, t, pv);
    if total.Some? {
      return Ok(total.value), g;
    }
    var fallback;
    fallback, g :- FetchUserFallback(store, id, t, pv);
    return Ok(fallback as real), g;
  }

  method FetchUserCount(store: Store, id: TradeId, t: Trade, pv: int, value: real)
      returns (r: Result<int>, ghost g: Frame)
    modifies store
    ensures Advanced(store, id, t, ReadUserCount(pv, value), g)
    ensures r.Err? ==> Stopped(store, g)
    ensures r.Ok? ==> g == Frame.SaveUser(pv, value, r.value)
  {
    g := ReadUserCount(pv, value);
    r := store.FindUserPortfolioCount(t.user);
    if r.Ok? {
      g := Frame.SaveUser(pv, value, r.value);
    }
  }

  method WriteUserSnapshot(store: Store, id: TradeId, t: Trade, pv: int, value: real, pc: int)
      returns (r: Result<()>, ghost g: Frame)
    modifies store
    ensures Advanced(store, id, t, Frame.SaveUser(pv, value, pc), g)
    ensures r.Err? ==> Stopped(store, g)
    ensures r.Ok? ==> g == Done
  {
    g := Frame.SaveUser(pv, value, pc);
    r := store.SaveUser(t.user, pv, value, pc);
    if r.Ok? {
      g := Done;
    }
  }

  /** Reads the user's numbers and saves what it has read. */
  method SaveUserSnapshot(store: Store, id: TradeId, t: Trade) returns (r: Result<()>, ghost g: Frame)
    modifies store
    ensures Advanced(store, id, t, ReadUserPurchased, g)
    ensures r.Err? ==> Stopped(store, g)
    ensures r.Ok? ==> g == Done
  {
    var pv, value, pc;
    pv, g :- FetchUserPurchased(store, id, t);
    value, g :- FetchUserValue(store, id, t, pv);
    pc, g :- FetchUserCount(store, id, t, pv, value);
    r, g := WriteUserSnapshot(store, id, t, pv, value, pc);
  }

  /** One invocation for one trade: whatever the schedule interferes with and wherever it cuts, the store ends where
      the handler machine ends, and success is reported exactly when the machine is done. */
  method UpdatePortfolioCaches(store: Store, id: TradeId, t: Trade) returns (r: Result<()>)
    modifies store
    ensures store.State() == Run(old(store.State()), id, t, Check, old(store.schedule)).0
    ensures r.Ok? <==> Run(old(store.State()), id, t, Check, old(store.schedule)).1.Done?
  {
    ghost var g;
    r, g := ProcessTrade(store, id, t);
  }

  method SaveSnapshots(store: Store, id: TradeId, t: Trade) returns (r: Result<()>, ghost g: Frame)
    modifies store
    ensures Advanced(store, id, t, ReadPurchased, g)
    ensures r.Err? ==> Stopped(store, g)
    ensures r.Ok? ==> g == Done
  {
    var unit;
    unit, g :- SavePortfolioSnapshot(store, id, t);
    r, g := SaveUserSnapshot(store, id, t);
  }

  method MarkDone(store: Store, id: TradeId, t: Trade) returns (r: Result<()>, ghost g: Frame)
    modifies store
    ensures Advanced(store, id, t, MarkProcessed, g)
    ensures r.Err? ==> Stopped(store, g)
    ensures r.Ok? ==> g == ReadPurchased
  {
    g := MarkProcessed;
    r := store.MarkTradeProcessed(id);
    if r.Ok? {
      g := ReadPurchased;
    }
  }

  method ApplyAndMark(store: Store, id: TradeId, t: Trade) returns (r: Result<()>, ghost g: Frame)
    modifies store
    ensures Advanced(store, id, t, FindOwner, g)
    ensures r.Err? ==> Stopped(store, g)
    ensures r.Ok? ==> g == ReadPurchased
  {
    var unit;
    unit, g :- ApplyPortfolio(store, id, t);
    r, g := MarkDone(store, id, t);
  }

  method ProcessTrade(store: Store, id: TradeId, t: Trade) returns (r: Result<()>, ghost g: Frame)
    modifies store
    ensures Advanced(store, id, t, Check, g)
    ensures r.Err? ==> Stopped(store, g)
    ensures r.Ok? ==> g == Done
  {
    g := Check;
    var processed :- store.IsTradeProcessed(id);
    if !processed {
      var unit;
      unit, g :- ApplyAndMark(store, id, t);
    }
    assert Advanced(store, id, t, Check, ReadPurchased);
    r, g := SaveSnapshots(store, id, t);
  }
}
