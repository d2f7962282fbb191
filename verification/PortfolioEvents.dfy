/** The handlers of portfolio creation and deletion as the service runs them. Undisturbed, they leave the store after
    some number of their writes, and after all of them when they succeed. */
module PortfolioEvents {
  import opened Domain
  import opened RedisDb
  import opened RedisStore
  import opened UserAccounts

  const CREATE_WRITES := 3
  const DELETE_WRITES := 5

  /** The store is where some of the writes of the creation have taken it. */
  twostate predicate Created(store: Store, p: PortfolioId, u: UserId, writes: nat)
    reads store
  {
    store.State() == CreateAfter(old(store.State()), p, u, writes)
  }

  twostate predicate Deleted(store: Store, p: PortfolioId, u: UserId, writes: nat)
    reads store
  {
    store.State() == DeleteAfter(old(store.State()), p, u, writes)
  }

  /** It has made at most calls calls, and stops early only where the worker is cut before that many. */
  twostate predicate Within(store: Store, calls: nat, ok: bool)
    reads store
  {
    if ok then |old(store.schedule)| <= |store.schedule| + calls else |old(store.schedule)| < calls
  }

  /** cvp, or cv where there is no cvp. */
  method ReadValue(store: Store, p: PortfolioId) returns (r: Result<real>)
    requires Undisturbed(store)
    modifies store
    ensures Within(store, 2, r.Ok?)
    ensures Undisturbed(store) && store.State() == old(store.State())
    ensures r.Ok? ==> r.value == old(store.State()).Portfolio(p).CurrentValue()
  {
    var total :- store.FindPortfolioTotal(p);
    if total.Some? {
      return Ok(total.value);
    }
    var saved :- store.FindPortfolioSnapshot(p);
    return Ok(saved as real);
  }

  method ReadTotals(store: Store, p: PortfolioId) returns (r: Result<(int, real)>)
    requires Undisturbed(store)
    modifies store
    ensures Within(store, 3, r.Ok?)
    ensures Undisturbed(store) && store.State() == old(store.State())
    ensures r.Ok? ==> r.value == (old(store.State()).Portfolio(p).pv, old(store.State()).Portfolio(p).CurrentValue())
  {
    var pv :- store.FindPortfolioPurchasedValue(p);
    var value :- ReadValue(store, p);
    return Ok((pv, value));
  }

  /** A trade has mapped the portfolio before its creation was counted. */
  method CountPending(store: Store, p: PortfolioId, u: UserId) returns (r: Result<()>, ghost writes: nat)
    requires Undisturbed(store) && store.State().Portfolio(p).owner.Some? && store.State().Portfolio(p).pending
    modifies store
    ensures Within(store, 2, r.Ok?)
    ensures Undisturbed(store) && writes < CREATE_WRITES && Created(store, p, u, writes)
    ensures r.Ok? ==> writes == 2
  {
    writes := 0;
    var _ :- store.EvalUserTotals(u, PortfolioEvent(p, RedisDb.Created), Totals(0, 0.0, 1));
    writes := 1;
    var _ :- store.ClearPending(p);
    return Ok(()), 2;
  }

  method CountNew(store: Store, p: PortfolioId, u: UserId) returns (r: Result<()>, ghost writes: nat)
    requires Undisturbed(store) && store.State().Portfolio(p).owner.None?
    modifies store
    ensures Within(store, 5, r.Ok?)
    ensures Undisturbed(store) && writes < CREATE_WRITES && Created(store, p, u, writes)
    ensures r.Ok? ==> writes == 2
  {
    writes := 0;
    var totals :- ReadTotals(store, p);
    var _ :- store.EvalUserTotals(u, PortfolioEvent(p, RedisDb.Created), Totals(totals.0, totals.1, 1));
    writes := 1;
    var _ :- store.MapToUser(p, u);
    return Ok(()), 2;
  }

  /** createPortfolioMapping: the user's totals first, then the mapping, or the pending flag where a trade has mapped
      it. */
  method CreatePortfolioMapping(store: Store, p: PortfolioId, u: UserId) returns (r: Result<()>, ghost writes: nat)
    requires Undisturbed(store)
    modifies store
    ensures Within(store, 6, r.Ok?)
    ensures Undisturbed(store) && writes < CREATE_WRITES && Created(store, p, u, writes)
    ensures r.Ok? ==> writes == 2
  {
    writes := 0;
    var existing :- store.FindUserIDByPortfolioID(p);
    if existing.Some? {
      var pending :- store.IsPortfolioCountPending(p);
      if !pending {
        return Ok(()), 2;
      }
      r, writes := CountPending(store, p, u);
    } else {
      r, writes := CountNew(store, p, u);
    }
  }

  /** The user's totals, while the portfolio is still mapped. */
  method SubtractPortfolio(store: Store, p: PortfolioId, u: UserId) returns (r: Result<()>, ghost writes: nat)
    requires Undisturbed(store)
    modifies store
    ensures Within(store, 6, r.Ok?)
    ensures Undisturbed(store) && writes <= 1 && Deleted(store, p, u, writes)
    ensures r.Ok? ==> writes == 1
  {
    writes := 0;
    var existing :- store.FindUserIDByPortfolioID(p);
    if existing.Some? {
      var totals :- ReadTotals(store, p);
      var pending :- store.IsPortfolioCountPending(p);
      var _ :- store.EvalUserTotals(u, PortfolioEvent(p, RedisDb.Deleted),
                                    Totals(-totals.0, -totals.1, if pending then 0 else -1));
    }
    return Ok(()), 1;
  }

  /** deletePortfolioMapping: the totals, then the mapping, the deletion flag and the state. The later steps run again
      on a retry that finds the mapping gone. */
  method DeletePortfolioMapping(store: Store, p: PortfolioId, u: UserId) returns (r: Result<()>, ghost writes: nat)
    requires Undisturbed(store)
    modifies store
    ensures Within(store, 10, r.Ok?)
    ensures Undisturbed(store) && writes < DELETE_WRITES && Deleted(store, p, u, writes)
    ensures r.Ok? ==> writes == 4
  {
    var unit;
    unit, writes :- SubtractPortfolio(store, p, u);
    var _ :- store.RemoveMapping(p, u);
    writes := 2;
    var _ :- store.MarkDeleted(p);
    writes := 3;
    var stocks :- store.FindPortfolioStocks(p);
    var _ :- store.DeleteStocks(p, stocks);
    return Ok(()), 4;
  }

  /** saveUserSnapshot: what it saves is what it has just read. */
  method ReadUserValue(store: Store, u: UserId) returns (r: Result<real>)
    requires Undisturbed(store)
    modifies store
    ensures Within(store, 2, r.Ok?)
    ensures Undisturbed(store) && store.State() == old(store.State())
    ensures r.Ok? ==> r.value == old(store.State()).User(u).CurrentValue()
  {
    var total :- store.FindUserTotal(u);
    if total.Some? {
      return Ok(total.value);
    }
    var saved :- store.FindUserSnapshot(u);
    return Ok(saved as real);
  }

  method SaveSnapshot(store: Store, u: UserId) returns (r: Result<()>)
    requires Undisturbed(store)
    modifies store
    ensures Within(store, 5, r.Ok?)
    ensures Undisturbed(store)
    ensures store.State() == if r.Ok? then SaveUserSnapshot(old(store.State()), u) else old(store.State())
  {
    var pv :- store.FindUserPurchasedValue(u);
    var value :- ReadUserValue(store, u);
    var pc :- store.FindUserPortfolioCount(u);
    r := store.SaveUser(u, pv, value, pc);
  }

  /** UpdateUserCaches for one event. */
  method UpdateUserCaches(store: Store, p: PortfolioId, kind: UserChange, u: UserId)
      returns (r: Result<()>, ghost writes: nat)
    requires Undisturbed(store)
    modifies store
    ensures Within(store, if kind.Created? then 11 else 15, r.Ok?)
    ensures kind.Created? ==>
      writes <= CREATE_WRITES && Created(store, p, u, writes) && (r.Ok? ==> writes == CREATE_WRITES)
    ensures kind.Deleted? ==>
      writes <= DELETE_WRITES && Deleted(store, p, u, writes) && (r.Ok? ==> writes == DELETE_WRITES)
  {
    var unit;
    if kind.Created? {
      unit, writes :- CreatePortfolioMapping(store, p, u);
    } else {
      unit, writes :- DeletePortfolioMapping(store, p, u);
    }
    r := SaveSnapshot(store, u);
    if r.Ok? {
      writes := writes + 1;
    }
  }
}
