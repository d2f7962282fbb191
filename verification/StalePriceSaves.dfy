/** A price worker saves the counters that came back with its script. Where a trade has moved them in between, the save
    takes the trade back. */
module StalePriceSaves {
  import opened Domain
  import opened RedisDb
  import opened TradeHandler
  import opened Ledger
  import opened TradeSystem
  import opened ExactlyOnce
  import R = Refinement
  import opened DoubleCount
  import opened LostReads

  /** A save keeps a store on the books exactly when the counters it brings are the current ones. */
  lemma SaveStaysOnTheBooksIff(ev: Trades, b: Books, s: System, v: Worker, r: System)
    requires OnTheBooks(ev, b, s) && v in s.captured && r == Apply(ev, s, SaveCaptured(v))
    ensures OnTheBooks(ev, b, r) <==> FreshCaptured(s.db, s.captured[v])
  {
    CapturedKeepsAccountsIffFresh(s.db, s.captured[v]);
    PriceStepKeeps(ev, s, SaveCaptured(v));
    var a := s.captured[v].account;
    assert AccountIn(r.db, a).purchased == s.captured[v].purchased && AccountIn(r.db, a).count == s.captured[v].count;
    assert AccountIn(s.db, a) == PostAll(ev, b, s.log).Balance(a);
    if FreshCaptured(s.db, s.captured[v]) {
      forall c ensures AccountIn(r.db, c) == PostAll(ev, b, r.log).Balance(c) {
        assert AccountIn(s.db, c) == PostAll(ev, b, s.log).Balance(c);
      }
    }
  }

  lemma {:induction false} FreshInParts(ev: Trades, s: System, first: seq<Action>, second: seq<Action>)
    requires FreshRun(ev, s, first) && FreshRun(ev, Exec(ev, s, first), second)
    ensures FreshRun(ev, s, first + second)
  {
    if second == [] {
      assert first + second == first;
    } else {
      var rest := second[..|second| - 1];
      assert (first + second)[..|first + second| - 1] == first + rest;
      FreshInParts(ev, s, first, rest);
      R.ExecConcat(ev, s, first, rest);
    }
  }

  /** The price worker reads first, and then the only trade there is gets handled. */
  function Overlapping(v: Worker, w: Worker, id: TradeId, p: PortfolioId): seq<Action> {
    [Capture(v, OfPortfolio(p))] + Once(w, id)
  }

  lemma CapturingIsFresh(ev: Trades, s: System, v: Worker, a: Account)
    ensures FreshRun(ev, s, [Capture(v, a)]) && Exec(ev, s, [Capture(v, a)]) == Apply(ev, s, Capture(v, a))
  {
    var one := [Capture(v, a)];
    assert one[..|one| - 1] == [];
    assert FreshRun(ev, s, []) && FreshAction(ev, Exec(ev, s, []), one[|one| - 1]);
  }

  lemma CapturedThenOnce(ev: Trades, s: System, v: Worker, w: Worker, id: TradeId, a: Account, captured: System,
                         r: System)
    requires s.jobs == map[] && id in ev && captured == Apply(ev, s, Capture(v, a))
    requires r == Exec(ev, captured, Once(w, id))
    ensures FreshRun(ev, captured, Once(w, id)) && w in r.jobs && r.jobs[w] == Job(id, Done)
    ensures r.revalued == s.revalued && v in r.captured && r.captured[v] == Read(s.db, a)
  {
    OnceFinishes(ev, captured, w, id, r);
  }

  lemma OverlappingFinishes(ev: Trades, s: System, v: Worker, w: Worker, id: TradeId, p: PortfolioId, r: System)
    requires s.jobs == map[] && id in ev && r == Exec(ev, s, Overlapping(v, w, id, p))
    ensures FreshRun(ev, s, Overlapping(v, w, id, p)) && w in r.jobs && r.jobs[w] == Job(id, Done)
    ensures r.revalued == s.revalued && v in r.captured && r.captured[v] == Read(s.db, OfPortfolio(p))
  {
    var first, captured := [Capture(v, OfPortfolio(p))], Apply(ev, s, Capture(v, OfPortfolio(p)));
    CapturingIsFresh(ev, s, v, OfPortfolio(p));
    R.ExecConcat(ev, s, first, Once(w, id));
    CapturedThenOnce(ev, s, v, w, id, OfPortfolio(p), captured, r);
    FreshInParts(ev, s, first, Once(w, id));
  }

  lemma OverlappingCounts(ev: Trades, s: System, v: Worker, w: Worker, id: TradeId, p: PortfolioId, r: System)
    requires Initial(ev, s) && ev.Keys == {id} && ev[id].kind.Buy? && Blank(s.db, ev[id]) && p == ev[id].portfolio
    requires r == Exec(ev, s, Overlapping(v, w, id, p))
    ensures OnTheBooks(ev, Open(s.db), r) && AccountIn(r.db, OfPortfolio(p)) == ev[id].PortfolioDelta(true)
    ensures v in r.captured && r.captured[v] == Read(s.db, OfPortfolio(p))
  {
    OverlappingFinishes(ev, s, v, w, id, p, r);
    OnlyTradeCounts(ev, s, Overlapping(v, w, id, p), w, id, r);
    FirstBuyIsCounted(ev, Open(s.db), s.db, id, r);
  }

  lemma SavesOverIt(ev: Trades, b: Books, before: Db, v: Worker, id: TradeId, r: System, saved: System)
    requires id in ev && ev[id].kind.Buy? && Blank(before, ev[id]) && OnTheBooks(ev, b, r)
    requires AccountIn(r.db, OfPortfolio(ev[id].portfolio)) == ev[id].PortfolioDelta(true)
    requires v in r.captured && r.captured[v] == Read(before, OfPortfolio(ev[id].portfolio))
    requires saved == Apply(ev, r, SaveCaptured(v))
    ensures r.db.Portfolio(ev[id].portfolio).pv == ev[id].SignedPurchase()
    ensures saved.db.Portfolio(ev[id].portfolio).pv == 0 && !OnTheBooks(ev, b, saved)
  {
    assert AccountIn(before, OfPortfolio(ev[id].portfolio)) == ZERO;
    SaveStaysOnTheBooksIff(ev, b, r, v, saved);
  }

  /** From any blank start: the trade is counted, and the price worker then takes it back. */
  lemma StaleSaveDestroysTheCounter(ev: Trades, s: System, v: Worker, w: Worker, id: TradeId, r: System, saved: System)
    requires Initial(ev, s) && ev.Keys == {id} && ev[id].kind.Buy? && Blank(s.db, ev[id])
    requires r == Exec(ev, s, Overlapping(v, w, id, ev[id].portfolio)) && saved == Apply(ev, r, SaveCaptured(v))
    ensures OnTheBooks(ev, Open(s.db), r) && r.db.Portfolio(ev[id].portfolio).pv == ev[id].SignedPurchase()
    ensures saved.db.Portfolio(ev[id].portfolio).pv == 0 && !OnTheBooks(ev, Open(s.db), saved)
  {
    OverlappingCounts(ev, s, v, w, id, ev[id].portfolio, r);
    SavesOverIt(ev, Open(s.db), s.db, v, id, r, saved);
  }
}
