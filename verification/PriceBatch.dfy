/** A batch of accepted price ticks: which holdings it revalues, and what the store looks like after each call. */
module PriceBatch {
  import opened Domain
  import opened RedisDb
  import opened PriceTicks
  import L = PriceLock
  import opened Coalescing
  import opened Valuation
  import opened Revaluation

  /** stock:<s>:portfolios */
  function IndexedPortfolios(db: Db, s: StockId): set<PortfolioId> {
    set h | h in db.stockIndex && h.stock == s :: h.portfolio
  }

  /** A holding a tick revalues: indexed under its stock, with a quantity that is not zero. */
  predicate Valued(db: Db, h: Holding) {
    h in db.stockIndex && GetOr(db.quantity, h, 0.0) != 0.0
  }

  function NewValue(db: Db, p: PortfolioId, r: Request): Replacement {
    Replacement(r.stock, db.Portfolio(p).StockValue(r.stock),
                Worth(r.price, GetOr(db.quantity, Holding(p, r.stock), 0.0)), r.EffectiveVersion())
  }

  /** The new values for p: one for each requested stock it is indexed under and holds a quantity of. */
  function Replacements(db: Db, rs: seq<Request>, p: PortfolioId): seq<Replacement> {
    if rs == [] then []
    else
      var rest, r := Replacements(db, rs[..|rs| - 1], p), rs[|rs| - 1];
      if Valued(db, Holding(p, r.stock)) then rest + [NewValue(db, p, r)] else rest
  }

  function Touched(db: Db, rs: seq<Request>): set<PortfolioId> {
    set h | h in db.stockIndex && Replacements(db, rs, h.portfolio) != [] :: h.portfolio
  }

  function PlanFor(db: Db, rs: seq<Request>): Plan {
    map p | p in Touched(db, rs) :: Replacements(db, rs, p)
  }

  /** The store after the first calls of an undisturbed batch; reading calls change nothing. */
  ghost function After(db: Db, rs: seq<Request>, calls: nat): Db {
    var pfs := Carried(db.portfolios, PlanFor(db, rs), calls);
    db.(portfolios := pfs, users := Summed(db.users, Owners(db.portfolios, PlanFor(db, rs)), pfs, db.members, calls))
  }

  // ---- the plan ---------------------------------------------------------------------------------

  lemma {:induction false} FindNewValue(db: Db, rs: seq<Request>, p: PortfolioId, s: StockId)
    ensures var r := RequestFor(rs, s);
      Find(Replacements(db, rs, p), s) ==
        if r.Some? && Valued(db, Holding(p, s)) then Some(NewValue(db, p, r.value)) else None
  {
    if rs != [] {
      FindNewValue(db, rs[..|rs| - 1], p, s);
      var rest := Replacements(db, rs[..|rs| - 1], p);
      if Valued(db, Holding(p, rs[|rs| - 1].stock)) {
        assert (rest + [NewValue(db, p, rs[|rs| - 1])])[..|rest|] == rest;
      }
    }
  }

  lemma {:induction false} NewValuesDistinct(db: Db, rs: seq<Request>, p: PortfolioId)
    requires L.OnePerStock(rs)
    ensures DistinctStocks(Replacements(db, rs, p))
    ensures forall i :: 0 <= i < |Replacements(db, rs, p)| ==>
      Replacements(db, rs, p)[i].previous == db.Portfolio(p).StockValue(Replacements(db, rs, p)[i].stock)
  {
    if rs != [] {
      var rest, r := rs[..|rs| - 1], rs[|rs| - 1];
      NewValuesDistinct(db, rest, p);
      FindNewValue(db, rest, p, r.stock);
      assert RequestFor(rest, r.stock).None? by {
        assert forall k :: 0 <= k < |rest| ==> rest[k].stock != r.stock;
      }
      assert Find(Replacements(db, rest, p), r.stock).None?;
      assert forall k :: 0 <= k < |Replacements(db, rest, p)| ==>
        Replacements(db, rest, p)[k] in Replacements(db, rest, p);
    }
  }

  lemma {:induction false} ReplacementsNeedHolding(db: Db, rs: seq<Request>, p: PortfolioId)
    ensures Replacements(db, rs, p) != [] ==> exists s :: Holding(p, s) in db.stockIndex
  {
    if rs != [] {
      ReplacementsNeedHolding(db, rs[..|rs| - 1], p);
      if Valued(db, Holding(p, rs[|rs| - 1].stock)) { assert Holding(p, rs[|rs| - 1].stock) in db.stockIndex; }
    }
  }

  lemma TouchedIff(db: Db, rs: seq<Request>, p: PortfolioId)
    ensures p in Touched(db, rs) <==> Replacements(db, rs, p) != []
  {
    ReplacementsNeedHolding(db, rs, p);
    if Replacements(db, rs, p) != [] {
      var s :| Holding(p, s) in db.stockIndex;
      assert Holding(p, s).portfolio in Touched(db, rs);
    }
  }

  /** The portfolio after the calls, touched or not. */
  lemma PortfolioInAfter(db: Db, rs: seq<Request>, calls: nat, p: PortfolioId)
    ensures After(db, rs, calls).Portfolio(p) ==
      if Replacements(db, rs, p) != [] then PortfolioAfter(db.Portfolio(p), Replacements(db, rs, p), calls)
        else db.Portfolio(p)
  {
    TouchedIff(db, rs, p);
    CarriedAt(db.portfolios, PlanFor(db, rs), calls, p);
  }

  /** What a reader finds of one holding after a batch: its stock value, its compatibility value and its version. */
  ghost predicate Repriced(db: Db, r: Request, h: Holding, found: (Option<real>, Option<real>, Option<int>)) {
    && h in db.quantity
    && found.0 == Some(r.price as real * db.quantity[h]) && found.1 == found.0
    && found.2 == Some(if r.version > 0 then r.version else (r.at - 32_400) * 1_000_000)
  }

  /** After a complete batch exactly the indexed holdings of the batch with a quantity have stock value price times
      quantity and the tick's version, in the hash and in the compatibility key; every other holding is as before. */
  lemma HoldingsRevalued(db: Db, rs: seq<Request>, h: Holding)
    ensures var r, found := RequestFor(rs, h.stock), StockIn(After(db, rs, CALLS).Portfolio(h.portfolio), h.stock);
      if r.Some? && h in db.stockIndex && GetOr(db.quantity, h, 0.0) != 0.0 then Repriced(db, r.value, h, found)
      else found == StockIn(db.Portfolio(h.portfolio), h.stock)
  {
    PortfolioInAfter(db, rs, CALLS, h.portfolio);
    HoldingRevalued(db, rs, h, After(db, rs, CALLS).Portfolio(h.portfolio));
  }

  lemma NewValueIsProduct(db: Db, h: Holding, r: Request)
    requires h in db.quantity && r.stock == h.stock
    ensures NewValue(db, h.portfolio, r).value == r.price as real * db.quantity[h]
    ensures NewValue(db, h.portfolio, r).version == if r.version > 0 then r.version else (r.at - 32_400) * 1_000_000
  {
    assert h == Holding(h.portfolio, h.stock);
  }

  lemma FoundRepriced(db: Db, r: Request, h: Holding, v: Replacement, found: (Option<real>, Option<real>, Option<int>))
    requires h in db.quantity && r.stock == h.stock && v == NewValue(db, h.portfolio, r)
    requires found == (Some(v.value), Some(v.value), Some(v.version))
    ensures Repriced(db, r, h, found)
  {
    NewValueIsProduct(db, h, r);
  }

  lemma HoldingRevalued(db: Db, rs: seq<Request>, h: Holding, after: Portfolio)
    requires var reps := Replacements(db, rs, h.portfolio);
      after == if reps != [] then PortfolioAfter(db.Portfolio(h.portfolio), reps, CALLS) else db.Portfolio(h.portfolio)
    ensures var r, found := RequestFor(rs, h.stock), StockIn(after, h.stock);
      if r.Some? && h in db.stockIndex && GetOr(db.quantity, h, 0.0) != 0.0 then Repriced(db, r.value, h, found)
      else found == StockIn(db.Portfolio(h.portfolio), h.stock)
  {
    var reps := Replacements(db, rs, h.portfolio);
    assert h == Holding(h.portfolio, h.stock);
    FindNewValue(db, rs, h.portfolio, h.stock);
    if reps == [] {
      assert Find(reps, h.stock).None?;
    } else {
      StockRevalued(db.Portfolio(h.portfolio), reps, h.stock);
      if RequestFor(rs, h.stock).Some? && Valued(db, h) {
        var r := RequestFor(rs, h.stock).value;
        NewValueIsProduct(db, h, r);
        var v := NewValue(db, h.portfolio, r);
        assert Find(reps, h.stock) == Some(v);
        assert StockIn(after, h.stock) == (Some(v.value), Some(v.value), Some(v.version));
        FoundRepriced(db, r, h, v, StockIn(after, h.stock));
      }
    }
  }

  /** Three shares at 20. */
  lemma ThreeSharesAtTwenty(db: Db, h: Holding, version: int)
    requires h in db.stockIndex && Lookup(db.quantity, h) == Some(3.0) && version > 0
    ensures StockIn(After(db, [Request(h.stock, 20, 0, version)], CALLS).Portfolio(h.portfolio), h.stock)
      == (Some(60.0), Some(60.0), Some(version))
  {
    var rs := [Request(h.stock, 20, 0, version)];
    assert rs[0] in rs;
    HoldingsRevalued(db, rs, h);
    assert RequestFor(rs, h.stock) == Some(rs[0]);
  }

  /** Each total moves by the sum of the differences, so it stays as far from the sum of its stock values as it was;
      the other totals of the portfolio do not move. */
  lemma TotalsRevalued(db: Db, rs: seq<Request>, p: PortfolioId, after: Portfolio)
    requires L.OnePerStock(rs) && after == After(db, rs, CALLS).Portfolio(p)
    ensures var before := db.Portfolio(p);
      && after.CurrentValue() == before.CurrentValue() + Differences(before, Replacements(db, rs, p))
      && Drift(after) == Drift(before)
      && after.pv == before.pv && after.ac == before.ac && after.owner == before.owner
        && after.pending == before.pending
  {
    PortfolioInAfter(db, rs, CALLS, p);
    TotalRevalued(db, rs, p, after);
  }

  lemma TotalRevalued(db: Db, rs: seq<Request>, p: PortfolioId, after: Portfolio)
    requires L.OnePerStock(rs)
    requires after ==
      if Replacements(db, rs, p) != [] then PortfolioAfter(db.Portfolio(p), Replacements(db, rs, p), CALLS)
        else db.Portfolio(p)
    ensures var before := db.Portfolio(p);
      && after.CurrentValue() == before.CurrentValue() + Differences(before, Replacements(db, rs, p))
      && Drift(after) == Drift(before)
      && after.pv == before.pv && after.ac == before.ac && after.owner == before.owner
        && after.pending == before.pending
  {
    NewValuesDistinct(db, rs, p);
    PortfolioRevalued(db.Portfolio(p), Replacements(db, rs, p));
  }

  /** Each touched owner's total is the sum over the owner's portfolios as they are then; other users are as before. */
  lemma UsersRevalued(db: Db, rs: seq<Request>, u: UserId, after: Db)
    requires after == After(db, rs, CALLS)
    ensures var total := ReSum(after.portfolios, after.members, u);
      after.User(u) ==
      if u in Owners(db.portfolios, PlanFor(db, rs)) then db.User(u).(cvp := Some(total), cv := RoundToInt64(total))
        else db.User(u)
  {
    SummedAt(db.users, Owners(db.portfolios, PlanFor(db, rs)), after.portfolios, db.members, CALLS, u);
  }

  // ---- running a batch again --------------------------------------------------------------------

  lemma {:induction false} NewValuesAgain(db: Db, db': Db, rs: seq<Request>, p: PortfolioId)
    requires db'.stockIndex == db.stockIndex && db'.quantity == db.quantity
    ensures SameNewValues(Replacements(db, rs, p), Replacements(db', rs, p))
    ensures db'.Portfolio(p) == db.Portfolio(p) ==> Replacements(db', rs, p) == Replacements(db, rs, p)
  {
    if rs != [] { NewValuesAgain(db, db', rs[..|rs| - 1], p); }
  }

  lemma PlanAgain(db: Db, rs: seq<Request>, calls: nat, mid: Db)
    requires mid.stockIndex == db.stockIndex && mid.quantity == db.quantity
    requires calls < 3 ==> mid.portfolios == db.portfolios
    ensures SamePlan(PlanFor(db, rs), PlanFor(mid, rs)) && (calls < 3 ==> PlanFor(mid, rs) == PlanFor(db, rs))
  {
    forall p
      ensures SameNewValues(Replacements(db, rs, p), Replacements(mid, rs, p))
      ensures p in PlanFor(db, rs) <==> p in PlanFor(mid, rs)
      ensures calls < 3 ==> Replacements(mid, rs, p) == Replacements(db, rs, p)
    {
      NewValuesAgain(db, mid, rs, p);
      TouchedIff(db, rs, p);
      TouchedIff(mid, rs, p);
    }
    assert PlanFor(db, rs).Keys == PlanFor(mid, rs).Keys;
  }

  lemma PlanIsDistinct(db: Db, rs: seq<Request>)
    requires L.OnePerStock(rs)
    ensures forall p :: p in PlanFor(db, rs) ==> DistinctStocks(PlanFor(db, rs)[p])
  {
    forall p | p in PlanFor(db, rs) ensures DistinctStocks(PlanFor(db, rs)[p]) { NewValuesDistinct(db, rs, p); }
  }

  /** A batch that was cut after any of its calls and is run again leaves the store as one complete run does. */
  lemma RevaluingAgain(db: Db, rs: seq<Request>, calls: nat, mid: Db)
    requires L.OnePerStock(rs) && mid == After(db, rs, calls)
    ensures After(mid, rs, CALLS) == After(db, rs, CALLS)
  {
    PlanAgain(db, rs, calls, mid);
    PlanIsDistinct(db, rs);
    var plan, plan' := PlanFor(db, rs), PlanFor(mid, rs);
    PlannedAgain(db.portfolios, plan, plan', calls, mid.portfolios);
    OwnersAgain(db.portfolios, plan, plan', calls, mid.portfolios);
    CarriedAgain(db.portfolios, plan, plan', calls, mid.portfolios);
    SummedAgain(db.users, Owners(db.portfolios, plan), mid.portfolios, Carried(db.portfolios, plan, CALLS), db.members,
                calls, mid.users);
  }
}
