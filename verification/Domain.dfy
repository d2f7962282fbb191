/** The values the worker moves around: trades, holdings, and the three totals every hash carries. */
module Domain {

  datatype Option<+T> = None | Some(value: T)

  type PortfolioId = int
  type StockId = int
  type TradeId = int
  type UserId = int

  /** One (portfolio, stock) pair; it owns one quantity key and one scv field. */
  datatype Holding = Holding(portfolio: PortfolioId, stock: StockId)

  datatype TradeType = Buy | Sell

  /** What a quantity is worth at a price. */
  function Worth(price: int, quantity: real): real {
    price as real * quantity
  }

  /** A decoded trade that names its user. */
  datatype Trade = Trade(
    user: UserId, portfolio: PortfolioId, stock: StockId, kind: TradeType, price: int, quantity: real)
  {
    function Amount(): real {
      Worth(price, quantity)
    }

    function Key(): Holding {
      Holding(portfolio, stock)
    }

    /** The amount with the sign a buy or a sell gives it. */
    function SignedAmount(): real {
      if kind.Buy? then Amount() else -Amount()
    }

    function SignedPurchase(): int {
      if kind.Buy? then RoundToInt64(Amount()) else -RoundToInt64(Amount())
    }

    /** The asset count moves by one exactly when the quantity step reported a change of ownership. */
    function CountDelta(changed: bool): int {
      if !changed then 0 else if kind.Buy? then 1 else -1
    }

    /** The trade's share of its portfolio's totals. */
    function PortfolioDelta(changed: bool): Totals {
      Totals(SignedPurchase(), SignedAmount(), CountDelta(changed))
    }

    /** The trade's share of its user's totals. */
    function UserDelta(): Totals {
      Totals(SignedPurchase(), SignedAmount(), 0)
    }
  }

  /** Rounding half away from zero, on exact values. */
  function RoundToInt64(v: real): int {
    if v >= 0.0 then (v + 0.5).Floor else -(0.5 - v).Floor
  }

  /** Purchased value, current value and a count, added component by component. */
  datatype Totals = Totals(purchased: int, value: real, count: int)
  {
    function Plus(that: Totals): Totals {
      Totals(purchased + that.purchased, value + that.value, count + that.count)
    }

    /** this == x.Plus(y), component by component. */
    ghost predicate IsSum(x: Totals, y: Totals) {
      && purchased == x.purchased + y.purchased
      && value == x.value + y.value
      && count == x.count + y.count
    }

    function Minus(that: Totals): Totals {
      Totals(purchased - that.purchased, value - that.value, count - that.count)
    }
  }

  const ZERO := Totals(0, 0.0, 0)

  function GetOr<K, V>(m: map<K, V>, k: K, default: V): V {
    if k in m then m[k] else default
  }

  function Lookup<K, V>(m: map<K, V>, k: K): Option<V> {
    if k in m then Some(m[k]) else None
  }

  /** Sets the key to Some value, or removes it for None. */
  function Put<K, V>(m: map<K, V>, k: K, v: Option<V>): map<K, V> {
    if v.Some? then m[k := v.value] else m - {k}
  }

  lemma SameMap<K(!new), V>(m: map<K, V>, m': map<K, V>)
    requires forall k: K :: Lookup(m, k) == Lookup(m', k)
    ensures m == m'
  {
    forall k: K ensures k in m <==> k in m' {
      assert Lookup(m, k) == Lookup(m', k);
    }
    forall k: K | k in m ensures m[k] == m'[k] {
      assert Lookup(m, k) == Lookup(m', k);
    }
  }

  /** Some element of the set, in no particular order. */
  method Pick<T(==)>(s: set<T>) returns (x: T)
    requires s != {}
    ensures x in s
  {
    x :| x in s;
  }

  ghost predicate Distinct<T(!new)>(s: seq<T>) {
    forall i, j :: 0 <= i < j < |s| ==> s[i] != s[j]
  }
}

/** Sums over finite maps, taken in any order. */
module Sums {
  import opened Domain

  ghost function Sum<K>(m: map<K, Totals>): Totals {
    if m == map[] then ZERO
    else
      var k :| k in m;
      Sum(m - {k}).Plus(m[k])
  }

  lemma {:induction false} SumRemove<K>(m: map<K, Totals>, k: K)
    requires k in m
    ensures Sum(m) == Sum(m - {k}).Plus(m[k])
    decreases |m|
  {
    var chosen :| chosen in m && Sum(m) == Sum(m - {chosen}).Plus(m[chosen]);
    if chosen != k {
      assert m - {chosen} - {k} == m - {k} - {chosen};
      SumRemove(m - {chosen}, k);
      SumRemove(m - {k}, chosen);
      var rest := Sum(m - {k} - {chosen});
      assert Sum(m) == rest.Plus(m[k]).Plus(m[chosen]) == rest.Plus(m[chosen]).Plus(m[k]);
    }
  }

  /** Setting one entry moves the sum by the difference, whether or not the key was there. */
  lemma SumSet<K>(m: map<K, Totals>, k: K, v: Totals)
    ensures Sum(m[k := v]) == Sum(m).Minus(GetOr(m, k, ZERO)).Plus(v)
  {
    SumRemove(m[k := v], k);
    assert m[k := v] - {k} == m - {k};
    if k in m {
      SumRemove(m, k);
    } else {
      assert m - {k} == m;
    }
  }

  lemma SumDrop<K>(m: map<K, Totals>, k: K)
    ensures Sum(m - {k}) == Sum(m).Minus(GetOr(m, k, ZERO))
  {
    if k in m {
      SumRemove(m, k);
    } else {
      assert m - {k} == m;
    }
  }

  /** Sum of a sequence, element by element. */
  function SumSeq(s: seq<Totals>): Totals {
    if s == [] then ZERO else SumSeq(s[..|s| - 1]).Plus(s[|s| - 1])
  }

  lemma SumSeqSnoc(s: seq<Totals>, last: Totals)
    ensures SumSeq(s + [last]) == SumSeq(s).Plus(last)
  {
    assert (s + [last])[..|s|] == s;
  }

  /** When one element moves, the sum moves with it. */
  lemma {:induction false} SumSeqShift(s: seq<Totals>, s': seq<Totals>, k: nat, d: Totals)
    requires k < |s| == |s'| && s'[k].IsSum(s[k], d)
    requires forall j :: 0 <= j < |s| && j != k ==> s'[j] == s[j]
    ensures SumSeq(s').IsSum(SumSeq(s), d)
  {
    var rest, rest' := s[..|s| - 1], s'[..|s| - 1];
    if k == |s| - 1 {
      assert rest == rest';
    } else {
      SumSeqShift(rest, rest', k, d);
    }
  }
}
