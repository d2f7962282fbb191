/** What a price worker does to one account, as actions of the system of all workers. With nothing in between it is what
    a batch does to that account. */
module PriceWorkers {
  import opened Domain
  import opened RedisDb
  import opened Ledger
  import opened TradeSystem
  import opened Valuation
  import opened Revaluation
  import L = LostReads

  /** The script answers with the counters it leaves, the values are projected, and the counters are saved. */
  function OnPortfolio(w: Worker, p: PortfolioId, rs: seq<Replacement>): seq<Action> {
    [Price(w, PriceCall.Replace(p, rs)), Capture(w, OfPortfolio(p)), Price(w, ProjectAll(p, NewValues(rs))),
     SaveCaptured(w)]
  }

  /** Setting the new sum answers with the counters, which are saved with it. */
  function OnUser(w: Worker, u: UserId, total: real): seq<Action> {
    [Price(w, ReSum(u, total)), Capture(w, OfUser(u)), SaveCaptured(w)]
  }

  lemma ThreeActions(ev: Trades, s: System, a: Action, b: Action, c: Action)
    ensures Exec(ev, s, [a, b, c]) == Apply(ev, Apply(ev, Apply(ev, s, a), b), c)
  {
    L.ExecSnoc(ev, s, [], a);
    L.ExecSnoc(ev, s, [a], b);
    L.ExecSnoc(ev, s, [a, b], c);
    assert [] + [a] == [a] && [a] + [b] == [a, b] && [a, b] + [c] == [a, b, c];
  }

  lemma FourActions(ev: Trades, s: System, a: Action, b: Action, c: Action, d: Action)
    ensures Exec(ev, s, [a, b, c, d]) == Apply(ev, Apply(ev, Apply(ev, Apply(ev, s, a), b), c), d)
  {
    ThreeActions(ev, s, a, b, c);
    L.ExecSnoc(ev, s, [a, b, c], d);
    assert [a, b, c] + [d] == [a, b, c, d];
  }

  lemma Rewritten(db: Db, p: PortfolioId, pf: Portfolio, pf': Portfolio)
    ensures db.WithPortfolio(p, pf).WithPortfolio(p, pf') == db.WithPortfolio(p, pf')
    ensures db.WithPortfolio(p, pf).Portfolio(p) == pf
  {
    assert db.portfolios[p := pf][p := pf'] == db.portfolios[p := pf'];
  }

  /** The script and its answer. */
  lemma ReplacedAndRead(ev: Trades, s: System, w: Worker, p: PortfolioId, rs: seq<Replacement>, r: System)
    requires r == Apply(ev, Apply(ev, s, Price(w, PriceCall.Replace(p, rs))), Capture(w, OfPortfolio(p)))
    ensures var pf := Replaced(s.db.Portfolio(p), rs);
      && r.db == s.db.WithPortfolio(p, pf)
      && r.captured == s.captured[w := Captured(OfPortfolio(p), pf.pv, pf.CurrentValue(), pf.ac)]
      && GetOr(r.revalued, OfPortfolio(p), 0.0) ==
        GetOr(s.revalued, OfPortfolio(p), 0.0) + pf.CurrentValue() - s.db.Portfolio(p).IncrementBase()
    ensures r.log == s.log && r.jobs == s.jobs
  {}

  lemma ProjectedAndSaved(ev: Trades, s: System, w: Worker, p: PortfolioId, pf: Portfolio, values: map<StockId, real>,
                          r: System)
    requires s.db.Portfolio(p) == pf && w in s.captured
    requires s.captured[w] == Captured(OfPortfolio(p), pf.pv, pf.CurrentValue(), pf.ac)
    requires r == Apply(ev, Apply(ev, s, Price(w, ProjectAll(p, values))), SaveCaptured(w))
    ensures var projected := pf.(legacy := pf.legacy + values);
      r.db == s.db.WithPortfolio(p, projected)
        .WithPortfolio(p, projected.(cv := RoundToInt64(pf.CurrentValue()), deleted := false))
    ensures GetOr(r.revalued, OfPortfolio(p), 0.0) == GetOr(s.revalued, OfPortfolio(p), 0.0)
    ensures r.log == s.log && r.jobs == s.jobs && w !in r.captured
  {}

  /** The hash ends as after the fifth call of a batch, the total has moved by what is recorded, and nothing else
      moves. */
  lemma PortfolioBatchIsRun(ev: Trades, s: System, w: Worker, p: PortfolioId, rs: seq<Replacement>, r: System)
    requires r == Exec(ev, s, OnPortfolio(w, p, rs))
    ensures r.db == s.db.WithPortfolio(p, PortfolioAfter(s.db.Portfolio(p), rs, 5))
    ensures GetOr(r.revalued, OfPortfolio(p), 0.0) == GetOr(s.revalued, OfPortfolio(p), 0.0)
      + r.db.Portfolio(p).CurrentValue() - s.db.Portfolio(p).IncrementBase()
    ensures r.log == s.log && r.jobs == s.jobs && w !in r.captured
  {
    var a, pf := OnPortfolio(w, p, rs), Replaced(s.db.Portfolio(p), rs);
    FourActions(ev, s, a[0], a[1], a[2], a[3]);
    var replaced := Apply(ev, Apply(ev, s, a[0]), a[1]);
    ReplacedAndRead(ev, s, w, p, rs, replaced);
    ProjectedAndSaved(ev, replaced, w, p, pf, NewValues(rs), r);
    var projected := PortfolioAfter(s.db.Portfolio(p), rs, 4);
    Rewritten(s.db, p, pf, projected);
    Rewritten(s.db, p, projected, PortfolioAfter(s.db.Portfolio(p), rs, 5));
  }

  /** The same for the user, after the ninth call. */
  lemma UserBatchIsRun(ev: Trades, s: System, w: Worker, u: UserId, total: real, r: System)
    requires r == Exec(ev, s, OnUser(w, u, total))
    ensures r.db == s.db.WithUser(u, UserAfter(s.db.User(u), total, 9))
    ensures GetOr(r.revalued, OfUser(u), 0.0) ==
      GetOr(s.revalued, OfUser(u), 0.0) + total - s.db.User(u).IncrementBase()
    ensures r.log == s.log && r.jobs == s.jobs && w !in r.captured
  {
    var usr, a := s.db.User(u), OnUser(w, u, total);
    ThreeActions(ev, s, a[0], a[1], a[2]);
    var summed := Apply(ev, Apply(ev, s, a[0]), a[1]);
    assert summed.db == s.db.WithUser(u, UserAfter(usr, total, 8));
    assert summed.captured[w] == Captured(OfUser(u), usr.pv, total, usr.pc);
    assert r.db == summed.db.WithUser(u, UserAfter(usr, total, 9));
    assert s.db.users[u := UserAfter(usr, total, 8)][u := UserAfter(usr, total, 9)] ==
      s.db.users[u := UserAfter(usr, total, 9)];
  }
}
