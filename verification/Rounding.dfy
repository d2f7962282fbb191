/** What trades come to in plain arithmetic: current values are the signed sums of price times quantity, purchased
    values are rounded trade by trade, and user counts stay. */
module Rounding {
  import opened Domain
  import opened RedisDb
  import opened Ledger
  import T = TradeSystem
  import opened ExactlyOnce

  lemma FloorIs(x: real, n: int)
    requires n as real <= x < n as real + 1.0
    ensures x.Floor == n
  {}

  /** Off by at most a half. */
  lemma RoundingIsClose(v: real)
    ensures -0.5 <= RoundToInt64(v) as real - v <= 0.5
  {
    if v >= 0.0 {
      assert (v + 0.5).Floor as real <= v + 0.5 < (v + 0.5).Floor as real + 1.0;
    } else {
      assert (0.5 - v).Floor as real <= 0.5 - v < (0.5 - v).Floor as real + 1.0;
    }
  }

  lemma RoundingIsOdd(v: real)
    ensures RoundToInt64(-v) == -RoundToInt64(v)
  {
    if v > 0.0 {
      assert 0.5 - (-v) == v + 0.5;
    } else if v < 0.0 {
      assert -v + 0.5 == 0.5 - v;
    } else {
      FloorIs(0.5, 0);
    }
  }

  /** Integers stay, and ties go away from zero. */
  lemma RoundingOfIntegersAndTies(n: int)
    ensures RoundToInt64(n as real) == n
    ensures RoundToInt64(n as real + 0.5) == if n >= 0 then n + 1 else n
  {
    if n >= 0 {
      FloorIs(n as real + 0.5, n);
      FloorIs(n as real + 0.5 + 0.5, n + 1);
    } else {
      FloorIs(0.5 - n as real, -n);
      FloorIs(0.5 - (n as real + 0.5), -n);
    }
  }

  predicate On(t: Trade, a: Account) {
    match a
    case OfPortfolio(p) => t.portfolio == p
    case OfUser(u) => t.user == u
  }

  /** How many trades of the log post to the account. */
  function Postings(ev: Trades, log: seq<TradeId>, a: Account): nat
    requires Known(ev, log)
  {
    if log == [] then 0
    else Postings(ev, log[..|log| - 1], a) + if On(ev[log[|log| - 1]], a) then 1 else 0
  }

  /** The signed price times quantity of a trade on the account. */
  function Exact(t: Trade, a: Account): real {
    if !On(t, a) then 0.0 else if t.kind.Buy? then t.price as real * t.quantity else -(t.price as real * t.quantity)
  }

  /** The exact signed sum of price times quantity of those trades. */
  function ExactSum(ev: Trades, log: seq<TradeId>, a: Account): real
    requires Known(ev, log)
  {
    if log == [] then 0.0
    else ExactSum(ev, log[..|log| - 1], a) + Exact(ev[log[|log| - 1]], a)
  }

  lemma SignedRounding(t: Trade, a: Account)
    ensures if On(t, a) then -0.5 <= t.SignedPurchase() as real - Exact(t, a) <= 0.5 else Exact(t, a) == 0.0
  {
    RoundingIsClose(t.Amount());
  }

  /** The moved value is within half a unit for each of the postings of the exact sum. */
  predicate Within(moved: int, exact: real, postings: nat) {
    -(postings as real) <= 2.0 * (moved as real - exact) <= postings as real
  }

  lemma OneMorePosting(moved: int, exact: real, postings: nat, purchase: int, part: real, on: bool)
    requires Within(moved, exact, postings)
    requires if on then -0.5 <= purchase as real - part <= 0.5 else part == 0.0
    ensures Within(moved + (if on then purchase else 0), exact + part, postings + (if on then 1 else 0))
  {}

  /** Each posting adds at most a half. */
  lemma {:induction false} LedgerIsWithinHalves(ev: Trades, b: Books, log: seq<TradeId>, a: Account)
    requires Known(ev, log)
    ensures Within(PostAll(ev, b, log).Balance(a).purchased - b.Balance(a).purchased, ExactSum(ev, log, a),
                   Postings(ev, log, a))
  {
    if log != [] {
      var rest, id := log[..|log| - 1], log[|log| - 1];
      assert Known(ev, log) && id in ev;
      var t := ev[id];
      LedgerIsWithinHalves(ev, b, rest, a);
      SignedRounding(t, a);
      PostingMoves(PostAll(ev, b, rest), t, a);
      OneMorePosting(PostAll(ev, b, rest).Balance(a).purchased - b.Balance(a).purchased, ExactSum(ev, rest, a),
                     Postings(ev, rest, a),
                     t.SignedPurchase(), Exact(t, a), On(t, a));
    }
  }

  lemma PostingMoves(b: Books, t: Trade, a: Account)
    ensures Post(b, t).Balance(a).purchased == b.Balance(a).purchased + if On(t, a) then t.SignedPurchase() else 0
    ensures Post(b, t).Balance(a).value == b.Balance(a).value + Exact(t, a)
    ensures a.OfUser? ==> Post(b, t).Balance(a).count == b.Balance(a).count
  {}

  /** Values are not rounded, and a user's portfolio count is none of a trade's business. */
  lemma {:induction false} LedgerValueIsExact(ev: Trades, b: Books, log: seq<TradeId>, a: Account)
    requires Known(ev, log)
    ensures PostAll(ev, b, log).Balance(a).value == b.Balance(a).value + ExactSum(ev, log, a)
    ensures a.OfUser? ==> PostAll(ev, b, log).Balance(a).count == b.Balance(a).count
  {
    if log != [] {
      LedgerValueIsExact(ev, b, log[..|log| - 1], a);
      PostingMoves(PostAll(ev, b, log[..|log| - 1]), ev[log[|log| - 1]], a);
    }
  }

  /** After any run with fresh snapshots and every trade complete, a current value has moved by the exact signed sum of
      price times quantity and by what price batches have moved it, and a user's portfolio count is as before. */
  lemma CurrentValueIsExactSum(ev: Trades, s: T.System, actions: seq<T.Action>, r: T.System, a: Account)
    requires T.Initial(ev, s) && FreshRun(ev, s, actions) && r == T.Exec(ev, s, actions)
    requires forall k :: 0 <= k < |r.log| ==> r.log[k] in r.db.processed
    ensures Known(ev, r.log) && Distinct(r.log)
    ensures T.AccountIn(r.db, a).value ==
      T.AccountIn(s.db, a).value + ExactSum(ev, r.log, a) + GetOr(r.revalued, a, 0.0)
    ensures a.OfUser? ==> T.AccountIn(r.db, a).count == T.AccountIn(s.db, a).count
  {
    TradesCountExactlyOnce(ev, s, actions, r);
    LedgerValueIsExact(ev, Shifted(T.Open(s.db), r.revalued), r.log, a);
    ShiftedBalance(T.Open(s.db), r.revalued, a);
    T.OpenBalance(s.db, a);
  }

  /** After any run with fresh snapshots and every trade complete, a purchased value is within half a unit per distinct
      trade of the exact signed sum of price times quantity, from where it started. */
  lemma PurchasedValueIsWithinHalfPerTrade(ev: Trades, s: T.System, actions: seq<T.Action>, r: T.System, a: Account)
    requires T.Initial(ev, s) && FreshRun(ev, s, actions) && r == T.Exec(ev, s, actions)
    requires forall k :: 0 <= k < |r.log| ==> r.log[k] in r.db.processed
    ensures Known(ev, r.log) && Distinct(r.log)
    ensures Within(T.AccountIn(r.db, a).purchased - T.AccountIn(s.db, a).purchased, ExactSum(ev, r.log, a),
                   Postings(ev, r.log, a))
  {
    TradesCountExactlyOnce(ev, s, actions, r);
    LedgerIsWithinHalves(ev, Shifted(T.Open(s.db), r.revalued), r.log, a);
    ShiftedBalance(T.Open(s.db), r.revalued, a);
    T.OpenBalance(s.db, a);
  }

  /** A buy and a sell of the same amount on one account leave its purchased value and current value where they were. */
  lemma EqualBuyAndSellCancel(b: Books, buy: Trade, sell: Trade, a: Account)
    requires buy.kind.Buy? && sell.kind.Sell? && Exact(buy, a) == -Exact(sell, a) && On(buy, a) && On(sell, a)
    ensures Post(Post(b, buy), sell).Balance(a).purchased == b.Balance(a).purchased
    ensures Post(Post(b, buy), sell).Balance(a).value == b.Balance(a).value
  {
    PostingMoves(b, buy, a);
    PostingMoves(Post(b, buy), sell, a);
  }
}
