/** The store as the object the handlers call. Each method is one call: it takes effect after the interference that
    comes before it, unless the schedule has run out or the call is lost. Methods named Find and GetLegacyValue do not
    report a lost answer: they return what an empty field reads as. */
module RedisStore {
  import opened Domain
  import opened RedisDb
  import opened PriceBatch
  import opened Revaluation
  import opened Valuation

  datatype Result<+T> = Ok(value: T) | Err
  {
    predicate IsFailure() { Err? }

    function PropagateFailure<U>(): Result<U>
      requires Err?
    {
      Err
    }

    function Extract(): T
      requires Ok?
    {
      value
    }
  }

  /** The body of the trade script on one pf hash, field by field. */
  method CountTrade(before: Portfolio, s: StockId, totals: PortfolioTradeTotals, legacy: real)
      returns (pf: Portfolio, stockValue: Option<real>)
    ensures (pf, stockValue) == ApplyTradeTotals(before, s, totals, legacy)
  {
    var pv, cvp, ac, scv, sv := before.pv, before.cvp, before.ac, before.scv, before.sv;
    if totals.delta.purchased != 0 {
      pv := pv + totals.delta.purchased;
    }
    if totals.delta.value != 0.0 {
      cvp := Some((if cvp.Some? then cvp.value else 0.0) + totals.delta.value);
    }
    stockValue := None;
    if totals.removeStockValue {
      scv, sv := scv - {s}, sv - {s};
    } else {
      var value := (if s in scv then scv[s] else legacy) + totals.stockValue;
      if totals.dropNonPositive && value <= 0.0 {
        scv, sv := scv - {s}, sv - {s};
      } else {
        scv, stockValue := scv[s := value], Some(value);
      }
    }
    if totals.delta.count != 0 {
      ac := ac + totals.delta.count;
    }
    pf := before.(pv := pv, cvp := cvp, ac := ac, scv := scv, sv := sv);
  }

  ghost predicate Idle(others: Interference) {
    forall db: Db :: others(db) == db
  }

  /** Nobody else touches the store, and no call is lost. */
  ghost predicate Undisturbed(store: Store)
    reads store
  {
    forall i :: 0 <= i < |store.schedule| ==> Idle(store.schedule[i].others) && !store.schedule[i].lost
  }

  class Store {
    var quantity: map<Holding, real>
    var stockIndex: set<Holding>
    var holdingIndex: set<Holding>
    var portfolios: map<PortfolioId, Portfolio>
    var users: map<UserId, User>
    var members: set<Membership>
    var marks: map<Mark, bool>
    var processed: set<TradeId>

    /** One element for each call that is still made: what other workers do before it, and whether it is lost. */
    var schedule: seq<Call>

    function State(): Db
      reads this
    {
      Db(quantity, stockIndex, holdingIndex, portfolios, users, members, marks, processed)
    }

    constructor (db: Db, schedule: seq<Call>)
      ensures State() == db && this.schedule == schedule
    {
      quantity, stockIndex, holdingIndex := db.quantity, db.stockIndex, db.holdingIndex;
      portfolios, users, members := db.portfolios, db.users, db.members;
      marks, processed := db.marks, db.processed;
      this.schedule := schedule;
    }

    /** The worker has been cut: no call is made any more. */
    twostate predicate Cut()
      reads this
    {
      old(schedule) == [] && schedule == [] && State() == old(State())
    }

    /** The handler goes no further: it has been cut, or this call failed. */
    twostate predicate Lost()
      reads this
    {
      if old(schedule) == [] then schedule == [] && State() == old(State())
      else old(schedule)[0].lost && schedule == [] && State() == Met()
    }

    twostate predicate Arrived()
      reads this
    {
      old(schedule) != [] && !old(schedule)[0].lost && schedule == old(schedule)[1..]
    }

    /** A read whose failure the handler does not notice. */
    twostate predicate Asked()
      reads this
    {
      old(schedule) != [] && schedule == old(schedule)[1..] && State() == Met()
    }

    /** The answer to it is lost. */
    twostate predicate Unanswered()
      reads this
    {
      old(schedule) != [] && old(schedule)[0].lost
    }

    /** The state the call meets. */
    twostate function Met(): Db
      requires old(schedule) != []
      reads this
    {
      old(schedule)[0].others(old(State()))
    }

    method Meet()
      requires schedule != []
      modifies this
      ensures schedule == old(schedule)[1..] && State() == Met()
    {
      var db := schedule[0].others(State());
      quantity, stockIndex, holdingIndex := db.quantity, db.stockIndex, db.holdingIndex;
      portfolios, users, members := db.portfolios, db.users, db.members;
      marks, processed := db.marks, db.processed;
      schedule := schedule[1..];
    }

    method Arrive() returns (r: Result<()>)
      modifies this
      ensures r.Err? ==> Lost()
      ensures r.Ok? ==> Arrived() && State() == Met()
    {
      if schedule == [] {
        return Err;
      }
      var lost := schedule[0].lost;
      Meet();
      if lost {
        schedule := [];
        return Err;
      }
      return Ok(());
    }

    /** Whether the answer arrives. */
    method Ask() returns (r: Result<bool>)
      modifies this
      ensures r.Err? ==> Cut()
      ensures r.Ok? ==> Asked() && r.value == !Unanswered()
    {
      if schedule == [] {
        return Err;
      }
      var lost := schedule[0].lost;
      Meet();
      return Ok(!lost);
    }

    method Portfolio(p: PortfolioId) returns (pf: Portfolio)
      ensures pf == State().Portfolio(p)
    {
      pf := if p in portfolios then portfolios[p] else EMPTY_PORTFOLIO;
    }

    method User(u: UserId) returns (usr: User)
      ensures usr == State().User(u)
    {
      usr := if u in users then users[u] else EMPTY_USER;
    }

    // ---- trade markers ---------------------------------------------------------------------

    method IsTradeProcessed(id: TradeId) returns (r: Result<bool>)
      modifies this
      ensures r.Err? ==> Lost()
      ensures r.Ok? ==> Arrived() && State() == Met() && r.value == (id in Met().processed)
    {
      var _ :- Arrive();
      return Ok(id in processed);
    }

    method MarkTradeProcessed(id: TradeId) returns (r: Result<()>)
      modifies this
      ensures r.Err? ==> Lost()
      ensures r.Ok? ==> Arrived() && State() == Met().(processed := Met().processed + {id})
    {
      var _ :- Arrive();
      processed := processed + {id};
      return Ok(());
    }

    // ---- quantity --------------------------------------------------------------------------

    method GetQuantity(h: Holding) returns (r: Result<Option<real>>)
      modifies this
      ensures r.Err? ==> Lost()
      ensures r.Ok? ==> Arrived() && State() == Met() && r.value == Lookup(Met().quantity, h)
    {
      var _ :- Arrive();
      return Ok(if h in quantity then Some(quantity[h]) else None);
    }

    method EvalCompareAndSet(h: Holding, e: Event, expected: Option<real>, next: Option<real>, changed: bool)
        returns (r: Result<Reply>)
      modifies this
      ensures r.Err? ==> Lost()
      ensures r.Ok? ==> Arrived() && (State(), r.value) == CompareAndSet(Met(), h, e, expected, next, changed)
    {
      var _ :- Arrive();
      var current := if h in quantity then Some(quantity[h]) else None;
      if QuantityMark(h, e) in marks {
        return Ok(Applied(marks[QuantityMark(h, e)], current));
      }
      if current != expected {
        return Ok(Conflict(current));
      }
      if next.None? {
        quantity := quantity - {h};
      } else {
        quantity := quantity[h := next.value];
      }
      marks := marks[QuantityMark(h, e) := changed];
      return Ok(Stored(changed, next));
    }

    method SyncIndexes(h: Holding, after: Option<real>) returns (r: Result<()>)
      modifies this
      ensures r.Err? ==> Lost()
      ensures r.Ok? ==> Arrived() && State() == SyncHoldingIndexes(Met(), h, after)
    {
      var _ :- Arrive();
      if after.Some? && after.value > 0.0 {
        stockIndex := stockIndex + {h};
        holdingIndex := holdingIndex + {h};
      } else {
        stockIndex := stockIndex - {h};
        holdingIndex := holdingIndex - {h};
      }
      return Ok(());
    }

    // ---- portfolio hash ----------------------------------------------------------------------

    method GetLegacyValue(h: Holding) returns (r: Result<real>)
      modifies this
      ensures r.Err? ==> Cut()
      ensures r.Ok? ==>
        Asked() && r.value == if Unanswered() then 0.0 else GetOr(Met().Portfolio(h.portfolio).legacy, h.stock, 0.0)
    {
      var answered :- Ask();
      var pf := Portfolio(h.portfolio);
      return Ok(if !answered then 0.0 else if h.stock in pf.legacy then pf.legacy[h.stock] else 0.0);
    }

    method EvalPortfolioTradeTotals(p: PortfolioId, s: StockId, e: Event, totals: PortfolioTradeTotals, legacy: real)
        returns (r: Result<Option<real>>)
      modifies this
      ensures r.Err? ==> Lost()
      ensures r.Ok? ==> Arrived() && (State(), r.value) == ApplyPortfolioTradeTotals(Met(), p, s, e, totals, legacy)
    {
      var _ :- Arrive();
      var pf := Portfolio(p);
      if PortfolioMark(p, e) in marks {
        return Ok(if s in pf.scv then Some(pf.scv[s]) else None);
      }
      var stockValue;
      pf, stockValue := CountTrade(pf, s, totals, legacy);
      portfolios := portfolios[p := pf];
      marks := marks[PortfolioMark(p, e) := true];
      return Ok(stockValue);
    }

    method SetLegacyValue(h: Holding, stockValue: Option<real>) returns (r: Result<()>)
      modifies this
      ensures r.Err? ==> Lost()
      ensures r.Ok? ==> Arrived() && State() == ProjectStockValue(Met(), h.portfolio, h.stock, stockValue)
    {
      var _ :- Arrive();
      var pf := Portfolio(h.portfolio);
      if stockValue.Some? {
        pf := pf.(legacy := pf.legacy[h.stock := stockValue.value]);
      } else {
        pf := pf.(legacy := pf.legacy - {h.stock});
      }
      portfolios := portfolios[h.portfolio := pf];
      return Ok(());
    }

    method FindPortfolioPurchasedValue(p: PortfolioId) returns (r: Result<int>)
      modifies this
      ensures r.Err? ==> Cut()
      ensures r.Ok? ==> Asked() && r.value == if Unanswered() then 0 else Met().Portfolio(p).pv
    {
      var answered :- Ask();
      var pf := Portfolio(p);
      return Ok(if !answered then 0 else pf.pv);
    }

    /** cvp, which a portfolio without a total does not have. */
    method FindPortfolioTotal(p: PortfolioId) returns (r: Result<Option<real>>)
      modifies this
      ensures r.Err? ==> Cut()
      ensures r.Ok? ==> Asked() && r.value == if Unanswered() then None else Met().Portfolio(p).cvp
    {
      var answered :- Ask();
      var pf := Portfolio(p);
      return Ok(if !answered then None else pf.cvp);
    }

    /** cv */
    method FindPortfolioSnapshot(p: PortfolioId) returns (r: Result<int>)
      modifies this
      ensures r.Err? ==> Cut()
      ensures r.Ok? ==> Asked() && r.value == if Unanswered() then 0 else Met().Portfolio(p).cv
    {
      var answered :- Ask();
      var pf := Portfolio(p);
      return Ok(if !answered then 0 else pf.cv);
    }

    method FindAssetCount(p: PortfolioId) returns (r: Result<int>)
      modifies this
      ensures r.Err? ==> Cut()
      ensures r.Ok? ==> Asked() && r.value == if Unanswered() then 0 else Met().Portfolio(p).ac
    {
      var answered :- Ask();
      var pf := Portfolio(p);
      return Ok(if !answered then 0 else pf.ac);
    }

    method SavePortfolio(p: PortfolioId, pv: int, value: real, ac: int) returns (r: Result<()>)
      modifies this
      ensures r.Err? ==> Lost()
      ensures r.Ok? ==> Arrived() && State() == SavePortfolioValuation(Met(), p, pv, value, ac)
    {
      var _ :- Arrive();
      var pf := Portfolio(p);
      portfolios := portfolios[p := pf.(pv := pv, cv := RoundToInt64(value), ac := ac, deleted := false)];
      return Ok(());
    }

    // ---- user hash ---------------------------------------------------------------------------

    method EvalUserTotals(u: UserId, e: Event, d: Totals) returns (r: Result<()>)
      modifies this
      ensures r.Err? ==> Lost()
      ensures r.Ok? ==> Arrived() && State() == ApplyUserTotals(Met(), u, e, d)
    {
      var _ :- Arrive();
      if UserMark(u, e) in marks {
        return Ok(());
      }
      var usr := User(u);
      if d.purchased != 0 {
        usr := usr.(pv := usr.pv + d.purchased);
      }
      if d.value != 0.0 {
        usr := usr.(cvp := Some((if usr.cvp.Some? then usr.cvp.value else 0.0) + d.value));
      }
      if d.count != 0 {
        usr := usr.(pc := usr.pc + d.count);
      }
      users := users[u := usr];
      marks := marks[UserMark(u, e) := true];
      return Ok(());
    }

    method FindUserPurchasedValue(u: UserId) returns (r: Result<int>)
      modifies this
      ensures r.Err? ==> Cut()
      ensures r.Ok? ==> Asked() && r.value == if Unanswered() then 0 else Met().User(u).pv
    {
      var answered :- Ask();
      var usr := User(u);
      return Ok(if !answered then 0 else usr.pv);
    }

    /** cvp, which a user without a total does not have. */
    method FindUserTotal(u: UserId) returns (r: Result<Option<real>>)
      modifies this
      ensures r.Err? ==> Cut()
      ensures r.Ok? ==> Asked() && r.value == if Unanswered() then None else Met().User(u).cvp
    {
      var answered :- Ask();
      var usr := User(u);
      return Ok(if !answered then None else usr.cvp);
    }

    /** cv */
    method FindUserSnapshot(u: UserId) returns (r: Result<int>)
      modifies this
      ensures r.Err? ==> Cut()
      ensures r.Ok? ==> Asked() && r.value == if Unanswered() then 0 else Met().User(u).cv
    {
      var answered :- Ask();
      var usr := User(u);
      return Ok(if !answered then 0 else usr.cv);
    }

    method FindUserPortfolioCount(u: UserId) returns (r: Result<int>)
      modifies this
      ensures r.Err? ==> Cut()
      ensures r.Ok? ==> Asked() && r.value == if Unanswered() then 0 else Met().User(u).pc
    {
      var answered :- Ask();
      var usr := User(u);
      return Ok(if !answered then 0 else usr.pc);
    }

    method SaveUser(u: UserId, pv: int, value: real, pc: int) returns (r: Result<()>)
      modifies this
      ensures r.Err? ==> Lost()
      ensures r.Ok? ==> Arrived() && State() == SaveUserValuation(Met(), u, pv, value, pc)
    {
      var _ :- Arrive();
      var usr := User(u);
      users := users[u := usr.(pv := pv, cv := RoundToInt64(value), pc := pc)];
      return Ok(());
    }

    // ---- ownership ---------------------------------------------------------------------------

    method FindUserIDByPortfolioID(p: PortfolioId) returns (r: Result<Option<UserId>>)
      modifies this
      ensures r.Err? ==> Cut()
      ensures r.Ok? ==> Asked() && r.value == if Unanswered() then None else Met().Portfolio(p).owner
    {
      var answered :- Ask();
      var pf := Portfolio(p);
      return Ok(if !answered then None else pf.owner);
    }

    method MapFromTrade(p: PortfolioId, u: UserId) returns (r: Result<()>)
      modifies this
      ensures r.Err? ==> Lost()
      ensures r.Ok? ==> Arrived() && State() == MapPortfolioToUserFromTrade(Met(), p, u)
    {
      var _ :- Arrive();
      var pf := Portfolio(p);
      portfolios := portfolios[p := pf.(owner := Some(u), pending := true)];
      members := members + {Membership(u, p)};
      return Ok(());
    }

    method IsPortfolioCountPending(p: PortfolioId) returns (r: Result<bool>)
      modifies this
      ensures r.Err? ==> Cut()
      ensures r.Ok? ==> Asked() && r.value == if Unanswered() then false else Met().Portfolio(p).pending
    {
      var answered :- Ask();
      var pf := Portfolio(p);
      return Ok(if !answered then false else pf.pending);
    }

    method MapToUser(p: PortfolioId, u: UserId) returns (r: Result<()>)
      modifies this
      ensures r.Err? ==> Lost()
      ensures r.Ok? ==> Arrived() && State() == MapPortfolioToUser(Met(), p, u)
    {
      var _ :- Arrive();
      var pf := Portfolio(p);
      portfolios := portfolios[p := pf.(owner := Some(u))];
      members := members + {Membership(u, p)};
      return Ok(());
    }

    method ClearPending(p: PortfolioId) returns (r: Result<()>)
      modifies this
      ensures r.Err? ==> Lost()
      ensures r.Ok? ==> Arrived() && State() == ClearPortfolioCountPending(Met(), p)
    {
      var _ :- Arrive();
      var pf := Portfolio(p);
      portfolios := portfolios[p := pf.(pending := false)];
      return Ok(());
    }

    method RemoveMapping(p: PortfolioId, u: UserId) returns (r: Result<()>)
      modifies this
      ensures r.Err? ==> Lost()
      ensures r.Ok? ==> Arrived() && State() == RemovePortfolioUserMapping(Met(), p, u)
    {
      var _ :- Arrive();
      var pf := Portfolio(p);
      portfolios := portfolios[p := pf.(owner := None, pending := false)];
      members := members - {Membership(u, p)};
      return Ok(());
    }

    method MarkDeleted(p: PortfolioId) returns (r: Result<()>)
      modifies this
      ensures r.Err? ==> Lost()
      ensures r.Ok? ==> Arrived() && State() == MarkPortfolioValuationDeleted(Met(), p)
    {
      var _ :- Arrive();
      var pf := Portfolio(p);
      portfolios := portfolios[p := pf.(deleted := true)];
      return Ok(());
    }

    /** portfolio:<p>:stocks */
    method FindPortfolioStocks(p: PortfolioId) returns (r: Result<set<StockId>>)
      modifies this
      ensures r.Err? ==> Cut()
      ensures r.Ok? ==> Asked() && r.value == if Unanswered() then {} else PortfolioStocks(Met(), p)
    {
      var answered :- Ask();
      return Ok(if !answered then {} else set h | h in holdingIndex && h.portfolio == p :: h.stock);
    }

    /** Deletes quantity, stock value, compatibility key and reverse-index entry of each stock, and then the index of
        p. */
    method DeleteStocks(p: PortfolioId, stocks: set<StockId>) returns (r: Result<()>)
      modifies this
      ensures r.Err? ==> Lost()
      ensures r.Ok? ==> Arrived() && State() == DeleteHoldings(Met(), p, stocks)
    {
      var _ :- Arrive();
      var pf := Portfolio(p);
      var dropped := set s | s in stocks :: Holding(p, s);
      portfolios := portfolios[p := pf.(scv := pf.scv - stocks, legacy := pf.legacy - stocks)];
      quantity := quantity - dropped;
      stockIndex := stockIndex - dropped;
      holdingIndex := set h | h in holdingIndex && h.portfolio != p;
      return Ok(());
    }

    // ---- bulk calls of the price handler -----------------------------------------------------

    method BulkFindPortfolioIDs(stockIDs: seq<StockId>) returns (r: Result<map<StockId, set<PortfolioId>>>)
      modifies this
      ensures r.Err? ==> Lost()
      ensures r.Ok? ==> Arrived() && State() == Met()
      ensures r.Ok? ==>
        forall i :: 0 <= i < |stockIDs| ==> Lookup(r.value, stockIDs[i]) == Some(IndexedPortfolios(Met(), stockIDs[i]))
    {
      var _ :- Arrive();
      var out: map<StockId, set<PortfolioId>> := map[];
      for i := 0 to |stockIDs|
        invariant forall k :: 0 <= k < i ==> Lookup(out, stockIDs[k]) == Some(IndexedPortfolios(State(), stockIDs[k]))
      {
        out := out[stockIDs[i] := set h | h in stockIndex && h.stock == stockIDs[i] :: h.portfolio];
      }
      return Ok(out);
    }

    /** Quantity and value of each holding. */
    method BulkFetchStockHoldings(keys: seq<Holding>) returns (r: Result<map<Holding, (real, real)>>)
      modifies this
      ensures r.Err? ==> Lost()
      ensures r.Ok? ==> Arrived() && State() == Met()
      ensures r.Ok? ==> forall i :: 0 <= i < |keys| ==>
        Lookup(r.value, keys[i]) ==
          Some((GetOr(Met().quantity, keys[i], 0.0), Met().Portfolio(keys[i].portfolio).StockValue(keys[i].stock)))
    {
      var _ :- Arrive();
      var out: map<Holding, (real, real)> := map[];
      for i := 0 to |keys|
        modifies {}
        invariant forall k :: 0 <= k < i ==>
          Lookup(out, keys[k]) ==
            Some((GetOr(quantity, keys[k], 0.0), State().Portfolio(keys[k].portfolio).StockValue(keys[k].stock)))
      {
        var h := keys[i];
        var pf := Portfolio(h.portfolio);
        var value := if h.stock in pf.scv then pf.scv[h.stock] else if h.stock in pf.legacy then pf.legacy[h.stock]
          else 0.0;
        out := out[h := (if h in quantity then quantity[h] else 0.0, value)];
      }
      return Ok(out);
    }

    /** Runs the replacement script once for each portfolio. */
    method BulkReplaceStockCurrentValues(replacements: map<PortfolioId, seq<Replacement>>)
        returns (r: Result<map<PortfolioId, Snapshot>>)
      modifies this
      ensures r.Err? ==> Lost()
      ensures r.Ok? ==> Arrived() && State() == Met().(portfolios := ReplaceAll(Met().portfolios, replacements))
      ensures r.Ok? ==>
        r.value == map p | p in replacements :: SnapshotOf(Replaced(Hash(Met().portfolios, p), replacements[p]))
    {
      var _ :- Arrive();
      var after := ReplaceEach(portfolios, replacements);
      portfolios := portfolios + after;
      return Ok(map p | p in after :: SnapshotOf(after[p]));
    }

    method BulkSetStockCurrentValues(values: map<PortfolioId, map<StockId, real>>) returns (r: Result<()>)
      modifies this
      ensures r.Err? ==> Lost()
      ensures r.Ok? ==> Arrived() && State() == Met().(portfolios := SetLegacyValues(Met().portfolios, values))
    {
      var _ :- Arrive();
      var before := portfolios;
      portfolios := portfolios + map p | p in values :: Hash(before, p).(legacy := Hash(before, p).legacy + values[p]);
      return Ok(());
    }

    method BulkSavePortfolioValuations(vals: map<PortfolioId, Totals>) returns (r: Result<()>)
      modifies this
      ensures r.Err? ==> Lost()
      ensures r.Ok? ==> Arrived() && State() == Met().(portfolios := SaveAllPortfolios(Met().portfolios, vals))
    {
      var _ :- Arrive();
      var before := portfolios;
      portfolios := before + map p | p in vals :: SavedAs(Hash(before, p), vals[p]);
      return Ok(());
    }

    method FindUserPortfolios(ids: set<UserId>) returns (r: Result<map<UserId, set<PortfolioId>>>)
      modifies this
      ensures r.Err? ==> Lost()
      ensures r.Ok? ==> Arrived() && State() == Met() && r.value == map u | u in ids :: PortfoliosOf(Met().members, u)
    {
      var _ :- Arrive();
      return Ok(map u | u in ids :: set m | m in members && m.user == u :: m.portfolio);
    }

    method FetchCurrentValues(ids: set<PortfolioId>) returns (r: Result<map<PortfolioId, real>>)
      modifies this
      ensures r.Err? ==> Lost()
      ensures r.Ok? ==>
        Arrived() && State() == Met() && r.value == map p | p in ids :: Hash(Met().portfolios, p).CurrentValue()
    {
      var _ :- Arrive();
      return Ok(map p | p in ids :: Hash(portfolios, p).CurrentValue());
    }

    /** Sets the sums, and answers the purchased value and portfolio count of each user. */
    method SetUserCurrentValues(totals: map<UserId, real>) returns (r: Result<map<UserId, (int, int)>>)
      modifies this
      ensures r.Err? ==> Lost()
      ensures r.Ok? ==> Arrived() && State() == Met().(users := SetUserValues(Met().users, totals))
      ensures r.Ok? ==> r.value == map u | u in totals :: (Met().User(u).pv, Met().User(u).pc)
    {
      var _ :- Arrive();
      var before := users;
      users := users + map u | u in totals :: GetOr(before, u, EMPTY_USER).(cvp := Some(totals[u]));
      return Ok(map u | u in totals :: (GetOr(before, u, EMPTY_USER).pv, GetOr(before, u, EMPTY_USER).pc));
    }

    method BulkSaveUserValuations(vals: map<UserId, Totals>) returns (r: Result<()>)
      modifies this
      ensures r.Err? ==> Lost()
      ensures r.Ok? ==> Arrived() && State() == Met().(users := SaveAllUsers(Met().users, vals))
    {
      var _ :- Arrive();
      var before := users;
      users := before + map u | u in vals :: UserSavedAs(GetOr(before, u, EMPTY_USER), vals[u]);
      return Ok(());
    }
  }
}
