/** The part of Redis the worker writes, as a value, and the atomic steps it performs on it.

    A missing pv, ac or pc field reads as zero and HINCRBY starts it at zero, so those are plain integers here.
    A missing cvp differs from zero (readers fall back to cv), so it stays an option.
 */
module RedisDb {
  import opened Domain

  datatype UserChange = Created | Deleted

  /** What an idempotency marker names as its cause. */
  datatype Event = TradeEvent(id: TradeId) | PortfolioEvent(portfolio: PortfolioId, kind: UserChange)

  /** Marker keys: the data key they guard and the event that wrote it. Module MarkerKeys shows the strings are
      distinct. */
  datatype Mark =
    | QuantityMark(holding: Holding, event: Event)
    | PortfolioMark(portfolio: PortfolioId, event: Event)
    | UserMark(user: UserId, event: Event)

  datatype Membership = Membership(user: UserId, portfolio: PortfolioId)

  /** The pf hash, and next to it the legacy current-value keys of the same portfolio. */
  datatype Portfolio = Portfolio(
    pv: int, cvp: Option<real>, cv: int, ac: int, deleted: bool,
    owner: Option<UserId>, pending: bool,
    scv: map<StockId, real>, sv: map<StockId, int>, legacy: map<StockId, real>)
  {
    /** What a reader sees: cvp, or cv where cvp is missing. */
    function CurrentValue(): real {
      if cvp.Some? then cvp.value else cv as real
    }

    /** Where HINCRBYFLOAT starts: a missing field counts as zero, whatever cv holds. */
    function IncrementBase(): real {
      if cvp.Some? then cvp.value else 0.0
    }

    /** The value of one stock: scv, else the legacy key. */
    function StockValue(s: StockId): real {
      GetOr(scv, s, GetOr(legacy, s, 0.0))
    }
  }

  const EMPTY_PORTFOLIO := Portfolio(0, None, 0, 0, false, None, false, map[], map[], map[])

  datatype User = User(pv: int, cvp: Option<real>, cv: int, pc: int)
  {
    function CurrentValue(): real {
      if cvp.Some? then cvp.value else cv as real
    }

    function IncrementBase(): real {
      if cvp.Some? then cvp.value else 0.0
    }
  }

  const EMPTY_USER := User(0, None, 0, 0)

  datatype Db = Db(
    quantity: map<Holding, real>,
    stockIndex: set<Holding>,    // h is here when h.portfolio is in stock:<h.stock>:portfolios
    holdingIndex: set<Holding>,  // h is here when h.stock is in portfolio:<h.portfolio>:stocks
    portfolios: map<PortfolioId, Portfolio>,
    users: map<UserId, User>,
    members: set<Membership>,    // user:<u>:portfolios
    marks: map<Mark, bool>,
    processed: set<TradeId>)
  {
    function Portfolio(p: PortfolioId): Portfolio {
      GetOr(portfolios, p, EMPTY_PORTFOLIO)
    }

    function User(u: UserId): User {
      GetOr(users, u, EMPTY_USER)
    }

    function WithPortfolio(p: PortfolioId, pf: Portfolio): Db {
      this.(portfolios := portfolios[p := pf])
    }

    function WithUser(u: UserId, usr: User): Db {
      this.(users := users[u := usr])
    }
  }

  /** What other workers do to the store between two calls of one handler. */
  type Interference = Db -> Db

  /** One call of a handler: what the others do before it, and whether its answer gets lost. */
  datatype Call = Call(others: Interference, lost: bool)

  // ---- quantity -------------------------------------------------------------------------

  /** The reply of the compare-and-set script. */
  datatype Reply =
    | Applied(changed: bool, after: Option<real>)
    | Conflict(current: Option<real>)
    | Stored(changed: bool, after: Option<real>)

  function CompareAndSet(db: Db, h: Holding, e: Event, expected: Option<real>, next: Option<real>, changed: bool):
      (Db, Reply) {
    var current := Lookup(db.quantity, h);
    if QuantityMark(h, e) in db.marks then
      (db, Applied(db.marks[QuantityMark(h, e)], current))
    else if current != expected then
      (db, Conflict(current))
    else
      var after := db.(quantity := Put(db.quantity, h, next), marks := db.marks[QuantityMark(h, e) := changed]);
      (after, Stored(changed, next))
  }

  /** A buy adds and reports a new holding; a sell subtracts and reports a holding that ends at or below zero. */
  function NextQuantity(t: Trade, current: Option<real>): (Option<real>, bool) {
    var previous := if current.Some? then current.value else 0.0;
    if t.kind.Buy? then
      (Some(previous + t.quantity), previous == 0.0)
    else if previous - t.quantity <= 0.0 then
      (None, true)
    else
      (Some(previous - t.quantity), false)
  }

  function SyncHoldingIndexes(db: Db, h: Holding, after: Option<real>): Db {
    if after.Some? && after.value > 0.0 then
      db.(stockIndex := db.stockIndex + {h}, holdingIndex := db.holdingIndex + {h})
    else
      db.(stockIndex := db.stockIndex - {h}, holdingIndex := db.holdingIndex - {h})
  }

  // ---- portfolio hash -------------------------------------------------------------------

  datatype PortfolioTradeTotals = PortfolioTradeTotals(
    delta: Totals, stockValue: real, removeStockValue: bool, dropNonPositive: bool)

  function TradeTotals(t: Trade, changed: bool): PortfolioTradeTotals {
    PortfolioTradeTotals(t.PortfolioDelta(changed), t.SignedAmount(), t.kind.Sell? && changed, t.kind.Sell?)
  }

  /** The trade script on one pf hash; legacy is the value its caller read from the compatibility key.
      Returns the new hash and the stock value left in it. */
  function ApplyTradeTotals(pf: Portfolio, s: StockId, totals: PortfolioTradeTotals, legacy: real):
      (Portfolio, Option<real>) {
    var d := totals.delta;
    var counted := pf.(pv := pf.pv + d.purchased,
                       cvp := if d.value != 0.0 then Some(pf.IncrementBase() + d.value) else pf.cvp,
                       ac := pf.ac + d.count);
    var stockValue := GetOr(pf.scv, s, legacy) + totals.stockValue;
    if totals.removeStockValue || (totals.dropNonPositive && stockValue <= 0.0) then
      (counted.(scv := pf.scv - {s}, sv := pf.sv - {s}), None)
    else
      (counted.(scv := pf.scv[s := stockValue]), Some(stockValue))
  }

  function ApplyPortfolioTradeTotals(db: Db, p: PortfolioId, s: StockId, e: Event, totals: PortfolioTradeTotals,
                                     legacy: real): (Db, Option<real>) {
    var pf := db.Portfolio(p);
    if PortfolioMark(p, e) in db.marks then
      (db, Lookup(pf.scv, s))
    else
      var (after, stockValue) := ApplyTradeTotals(pf, s, totals, legacy);
      (db.WithPortfolio(p, after).(marks := db.marks[PortfolioMark(p, e) := true]), stockValue)
  }

  /** Brings the compatibility key in line with the stock value the script returned. */
  function ProjectStockValue(db: Db, p: PortfolioId, s: StockId, stockValue: Option<real>): Db {
    db.WithPortfolio(p, db.Portfolio(p).(legacy := Put(db.Portfolio(p).legacy, s, stockValue)))
  }

  function SavePortfolioValuation(db: Db, p: PortfolioId, pv: int, value: real, ac: int): Db {
    db.WithPortfolio(p, db.Portfolio(p).(pv := pv, cv := RoundToInt64(value), ac := ac, deleted := false))
  }

  // ---- user hash ------------------------------------------------------------------------

  function AddUserTotals(usr: User, d: Totals): User {
    usr.(pv := usr.pv + d.purchased,
         cvp := if d.value != 0.0 then Some(usr.IncrementBase() + d.value) else usr.cvp,
         pc := usr.pc + d.count)
  }

  function ApplyUserTotals(db: Db, u: UserId, e: Event, d: Totals): Db {
    if UserMark(u, e) in db.marks then db
    else db.WithUser(u, AddUserTotals(db.User(u), d)).(marks := db.marks[UserMark(u, e) := true])
  }

  function SaveUserValuation(db: Db, u: UserId, pv: int, value: real, pc: int): Db {
    db.WithUser(u, db.User(u).(pv := pv, cv := RoundToInt64(value), pc := pc))
  }

  // ---- ownership ------------------------------------------------------------------------

  function MapPortfolioToUser(db: Db, p: PortfolioId, u: UserId): Db {
    db.WithPortfolio(p, db.Portfolio(p).(owner := Some(u))).(members := db.members + {Membership(u, p)})
  }

  function MapPortfolioToUserFromTrade(db: Db, p: PortfolioId, u: UserId): Db {
    var mapped := db.WithPortfolio(p, db.Portfolio(p).(owner := Some(u), pending := true));
    mapped.(members := db.members + {Membership(u, p)})
  }

  function ClearPortfolioCountPending(db: Db, p: PortfolioId): Db {
    db.WithPortfolio(p, db.Portfolio(p).(pending := false))
  }

  function RemovePortfolioUserMapping(db: Db, p: PortfolioId, u: UserId): Db {
    db.WithPortfolio(p, db.Portfolio(p).(owner := None, pending := false)).(members := db.members - {Membership(u, p)})
  }

  function MarkPortfolioValuationDeleted(db: Db, p: PortfolioId): Db {
    db.WithPortfolio(p, db.Portfolio(p).(deleted := true))
  }

  /** portfolio:<p>:stocks */
  function PortfolioStocks(db: Db, p: PortfolioId): set<StockId> {
    set h | h in db.holdingIndex && h.portfolio == p :: h.stock
  }

  /** Forgets the quantities, stock values and index entries of p's holdings in these stocks; sv and the totals stay. */
  function DeleteHoldings(db: Db, p: PortfolioId, stocks: set<StockId>): Db {
    var dropped := set s | s in stocks :: Holding(p, s);
    var pf := db.Portfolio(p);
    db.WithPortfolio(p, pf.(scv := pf.scv - stocks, legacy := pf.legacy - stocks))
      .(quantity := db.quantity - dropped, stockIndex := db.stockIndex - dropped,
        holdingIndex := set h | h in db.holdingIndex && h.portfolio != p)
  }

  function DeletePortfolioState(db: Db, p: PortfolioId): Db {
    DeleteHoldings(db, p, PortfolioStocks(db, p))
  }
}
