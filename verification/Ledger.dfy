/** A plain ledger: every trade posted once, in one go. The cached numbers are proved against it. */
module Ledger {
  import opened Domain
  import opened RedisDb

  datatype Account = OfPortfolio(portfolio: PortfolioId) | OfUser(user: UserId)

  datatype Books = Books(quantity: map<Holding, real>, accounts: map<Account, Totals>)
  {
    function Balance(a: Account): Totals {
      GetOr(accounts, a, ZERO)
    }
  }

  /** The events a topic holds: the content of a trade is fixed by its id. */
  type Trades = map<TradeId, Trade>

  ghost predicate Known(ev: Trades, log: seq<TradeId>) {
    forall k :: 0 <= k < |log| ==> log[k] in ev
  }

  /** Only trades of a positive quantity reach a handler. */
  ghost predicate Positive(ev: Trades) {
    forall id :: id in ev ==> ev[id].quantity > 0.0
  }

  function Post(b: Books, t: Trade): Books {
    var (next, changed) := NextQuantity(t, Lookup(b.quantity, t.Key()));
    var p, u := OfPortfolio(t.portfolio), OfUser(t.user);
    Books(Put(b.quantity, t.Key(), next),
          b.accounts[p := b.Balance(p).Plus(t.PortfolioDelta(changed))][u := b.Balance(u).Plus(t.UserDelta())])
  }

  function PostAll(ev: Trades, b: Books, log: seq<TradeId>): Books
    requires Known(ev, log)
  {
    if log == [] then b
    else Post(PostAll(ev, b, log[..|log| - 1]), ev[log[|log| - 1]])
  }

  /** Whether the k-th posting changed ownership, computed from the quantities before it. */
  function ChangedAt(ev: Trades, b: Books, log: seq<TradeId>, k: nat): bool
    requires Known(ev, log) && k < |log|
  {
    NextQuantity(ev[log[k]], Lookup(PostAll(ev, b, log[..k]).quantity, ev[log[k]].Key())).1
  }

  lemma PostAllSnoc(ev: Trades, b: Books, log: seq<TradeId>, id: TradeId)
    requires Known(ev, log) && id in ev
    ensures Known(ev, log + [id])
    ensures PostAll(ev, b, log + [id]) == Post(PostAll(ev, b, log), ev[id])
    ensures forall k :: 0 <= k < |log| ==> ChangedAt(ev, b, log + [id], k) == ChangedAt(ev, b, log, k)
    ensures ChangedAt(ev, b, log + [id], |log|) ==
      NextQuantity(ev[id], Lookup(PostAll(ev, b, log).quantity, ev[id].Key())).1
  {
    assert (log + [id])[..|log|] == log;
    forall k | 0 <= k < |log|
      ensures ChangedAt(ev, b, log + [id], k) == ChangedAt(ev, b, log, k)
    {
      assert (log + [id])[..k] == log[..k];
    }
  }

  // ---- moves that come from elsewhere --------------------------------------------------------

  /** The same books, with the value of each account moved. */
  function Shifted(b: Books, moved: map<Account, real>): Books {
    b.(accounts := map a | a in b.accounts.Keys + moved.Keys :: Shift(b.Balance(a), GetOr(moved, a, 0.0)))
  }

  function Shift(t: Totals, moved: real): Totals {
    t.(value := t.value + moved)
  }

  lemma ShiftedBalance(b: Books, moved: map<Account, real>, a: Account)
    ensures Shifted(b, moved).Balance(a) == Shift(b.Balance(a), GetOr(moved, a, 0.0))
  {}

  lemma ShiftedByNothing(b: Books)
    ensures Shifted(b, map[]) == b
  {
    var c := Shifted(b, map[]);
    forall a: Account ensures Lookup(c.accounts, a) == Lookup(b.accounts, a) {
      assert Shift(b.Balance(a), 0.0) == b.Balance(a);
    }
    SameMap(c.accounts, b.accounts);
  }

  /** What is posted depends on the quantities alone. */
  lemma {:induction false} SameQuantities(ev: Trades, b: Books, c: Books, log: seq<TradeId>)
    requires Known(ev, log) && b.quantity == c.quantity
    ensures PostAll(ev, b, log).quantity == PostAll(ev, c, log).quantity
  {
    if log != [] { SameQuantities(ev, b, c, log[..|log| - 1]); }
  }
}
