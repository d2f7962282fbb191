/** The asset count against the quantities actually held. */
module AssetCount {
  import opened Domain
  import opened RedisDb
  import opened TradeHandler
  import opened Ledger
  import opened TradeSystem
  import opened ExactlyOnce
  import opened HoldingIndexes

  /** The holdings of p that have a stored quantity. */
  function Held(q: map<Holding, real>, p: PortfolioId): set<Holding> {
    set h | h in q && h.portfolio == p
  }

  /** Sells of the log that found nothing to sell in p. */
  function EmptySells(ev: Trades, b: Books, log: seq<TradeId>, p: PortfolioId): nat
    requires Known(ev, log)
  {
    if log == [] then 0
    else
      var rest, t := log[..|log| - 1], ev[log[|log| - 1]];
      EmptySells(ev, b, rest, p) + if SellsNothing(PostAll(ev, b, rest).quantity, t, p) then 1 else 0
  }

  /** What a trade still owes p's asset count: it has moved its quantity but not yet its portfolio. */
  function Owes(ev: Trades, marks: map<Mark, bool>, id: TradeId, p: PortfolioId): int
    requires id in ev
  {
    if ev[id].portfolio == p && PMark(ev, id) !in marks then ev[id].CountDelta(GetOr(marks, QMark(ev, id), false))
      else 0
  }

  function PendingCount(ev: Trades, marks: map<Mark, bool>, log: seq<TradeId>, p: PortfolioId): int
    requires Known(ev, log)
  {
    if log == [] then 0
    else PendingCount(ev, marks, log[..|log| - 1], p) + Owes(ev, marks, log[|log| - 1], p)
  }

  /** Whether t finds nothing to sell in p. */
  predicate SellsNothing(q: map<Holding, real>, t: Trade, p: PortfolioId) {
    t.portfolio == p && t.kind.Sell? && t.Key() !in q
  }

  lemma HeldAfter(b: Books, t: Trade, p: PortfolioId)
    requires t.quantity > 0.0 && PositiveQuantities(b.quantity)
    ensures var before, after := Held(b.quantity, p), Held(Post(b, t).quantity, p);
      if t.portfolio != p then after == before
      else if t.kind.Buy? then after == before + {t.Key()}
      else after == before || after == before - {t.Key()}
  {}

  lemma AddOne(before: set<Holding>, h: Holding)
    ensures |before + {h}| == if h in before then |before| else |before| + 1
    ensures |before - {h}| == if h in before then |before| - 1 else |before|
  {
    if h in before {
      assert before + {h} == before;
    } else {
      assert before - {h} == before;
    }
  }

  /** One posting moves the balance's count by what it does to the holdings, less one for a sell of nothing. */
  lemma PostCounts(b: Books, t: Trade, p: PortfolioId)
    requires t.quantity > 0.0 && PositiveQuantities(b.quantity)
    ensures Post(b, t).Balance(OfPortfolio(p)).count - b.Balance(OfPortfolio(p)).count
      == |Held(Post(b, t).quantity, p)| - |Held(b.quantity, p)| - if SellsNothing(b.quantity, t, p) then 1 else 0
  {
    HeldAfter(b, t, p);
    var h, before := t.Key(), Held(b.quantity, p);
    assert t.portfolio == p ==> (h in before <==> h in b.quantity);
    AddOne(before, h);
  }

  lemma {:induction false} LedgerCounts(ev: Trades, b: Books, log: seq<TradeId>, p: PortfolioId)
    requires Known(ev, log) && Positive(ev) && PositiveQuantities(b.quantity)
    ensures PostAll(ev, b, log).Balance(OfPortfolio(p)).count - b.Balance(OfPortfolio(p)).count
      == |Held(PostAll(ev, b, log).quantity, p)| - |Held(b.quantity, p)| - EmptySells(ev, b, log, p)
  {
    if log != [] {
      var rest, id := log[..|log| - 1], log[|log| - 1];
      LedgerCounts(ev, b, rest, p);
      QuantitiesStayPositive(ev, b, rest);
      assert id in ev;
      PostCounts(PostAll(ev, b, rest), ev[id], p);
    }
  }

  /** A trade's share and its debt together are what its posting moved. */
  lemma SharePlusDebt(ev: Trades, b: Books, id: TradeId, marks: map<Mark, bool>, p: PortfolioId)
    requires id in ev && QMark(ev, id) in marks
    requires marks[QMark(ev, id)] == NextQuantity(ev[id], Lookup(b.quantity, ev[id].Key())).1
    ensures Share(ev, marks, id, OfPortfolio(p)).count + Owes(ev, marks, id, p)
      == Post(b, ev[id]).Balance(OfPortfolio(p)).count - b.Balance(OfPortfolio(p)).count
  {}

  lemma OneShareMore(ev: Trades, b: Books, rest: seq<TradeId>, id: TradeId, log: seq<TradeId>, marks: map<Mark, bool>,
                     p: PortfolioId)
    requires Known(ev, log) && ResultsMarked(ev, b, log, marks) && log == rest + [id]
    ensures var a := OfPortfolio(p);
      Total(ev, marks, log, a).count + PendingCount(ev, marks, log, p)
        - Total(ev, marks, rest, a).count - PendingCount(ev, marks, rest, p)
      == PostAll(ev, b, log).Balance(a).count - PostAll(ev, b, rest).Balance(a).count
  {
    assert log[..|log| - 1] == rest && log[|log| - 1] == id;
    TotalSnoc(ev, marks, rest, id, OfPortfolio(p));
    SharePlusDebt(ev, PostAll(ev, b, rest), id, marks, p);
    CountsChain(Total(ev, marks, rest, OfPortfolio(p)), Total(ev, marks, log, OfPortfolio(p)),
                Share(ev, marks, id, OfPortfolio(p)));
  }

  /** The markers that are set and the ones still missing together make up the ledger's count. */
  lemma {:induction false} SharesPlusPending(ev: Trades, b: Books, log: seq<TradeId>, marks: map<Mark, bool>,
                                             p: PortfolioId)
    requires Known(ev, log) && ResultsMarked(ev, b, log, marks)
    ensures Total(ev, marks, log, OfPortfolio(p)).count + PendingCount(ev, marks, log, p)
      == PostAll(ev, b, log).Balance(OfPortfolio(p)).count - b.Balance(OfPortfolio(p)).count
  {
    if log != [] {
      var rest, id := log[..|log| - 1], log[|log| - 1];
      assert log == rest + [id];
      ResultsMarkedPrefix(ev, b, rest, id, marks);
      SharesPlusPending(ev, b, rest, marks, p);
      OneShareMore(ev, b, rest, id, log, marks, p);
    }
  }

  lemma CountsChain(total: Totals, total': Totals, d: Totals)
    requires total'.IsSum(total, d)
    ensures total'.count == total.count + d.count
  {}

  /** In every reachable state, ac plus what is still pending is the number of stocks with a stored quantity, less the
      sells that found nothing, up to where the portfolio started. */
  lemma AssetCountIsHoldings(ev: Trades, s: System, actions: seq<Action>, r: System, p: PortfolioId)
    requires Initial(ev, s) && FreshRun(ev, s, actions) && r == Exec(ev, s, actions)
    requires Positive(ev) && PositiveQuantities(s.db.quantity)
    ensures Known(ev, r.log)
    ensures r.db.Portfolio(p).ac - s.db.Portfolio(p).ac + PendingCount(ev, r.db.marks, r.log, p)
      == |Held(r.db.quantity, p)| - |Held(s.db.quantity, p)| - EmptySells(ev, Open(s.db), r.log, p)
    ensures PositiveQuantities(r.db.quantity)
  {
    InvReachable(ev, s, actions);
    OpenBalance(s.db, OfPortfolio(p));
    var b := Open(s.db);
    SharesPlusPending(ev, b, r.log, r.db.marks, p);
    CountIsTotal(ev, b, r, p);
    LedgerCounts(ev, b, r.log, p);
    QuantitiesStayPositive(ev, b, r.log);
  }

  lemma CountIsTotal(ev: Trades, b: Books, r: System, p: PortfolioId)
    requires Known(ev, r.log) && AccountsInv(ev, Shifted(b, r.revalued), r.log, r.db)
    ensures var a := OfPortfolio(p);
      AccountIn(r.db, a).count == b.Balance(a).count + Total(ev, r.db.marks, r.log, a).count
  {
    ShiftedBalance(b, r.revalued, OfPortfolio(p));
  }
}
