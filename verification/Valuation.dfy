/** The portfolio total and the stock values below it: the replacement script, and what every write does to the
    difference between the two. */
module Valuation {
  import opened Domain
  import opened Sums
  import opened RedisDb

  /** A new value for one stock; previous is what its caller read, for a hash that has no value of the stock yet. */
  datatype Replacement = Replacement(stock: StockId, previous: real, value: real, version: int)

  /** One turn of the script's loop; a missing total has been filled in from cv before. */
  function ReplaceOne(pf: Portfolio, r: Replacement): Portfolio {
    pf.(cvp := Some(pf.CurrentValue() + (r.value - GetOr(pf.scv, r.stock, r.previous))),
        scv := pf.scv[r.stock := r.value],
        sv := pf.sv[r.stock := r.version])
  }

  /** The replacement script on one pf hash: each stock value is replaced, and the total moves by the difference. */
  function Replaced(pf: Portfolio, rs: seq<Replacement>): (after: Portfolio)
    ensures after.cvp.Some?
    ensures after.pv == pf.pv && after.ac == pf.ac && after.cv == pf.cv && after.legacy == pf.legacy
    ensures after.owner == pf.owner && after.pending == pf.pending && after.deleted == pf.deleted
  {
    if rs == [] then pf.(cvp := Some(pf.CurrentValue()))
    else ReplaceOne(Replaced(pf, rs[..|rs| - 1]), rs[|rs| - 1])
  }

  lemma ReplacedOne(pf: Portfolio, r: Replacement)
    ensures Replaced(pf, [r]) == ReplaceOne(pf, r)
  {
    assert [r][..0] == [];
  }

  /** The script, field by field. */
  method ReplaceStockCurrentValues(before: Portfolio, rs: seq<Replacement>) returns (pf: Portfolio)
    ensures pf == Replaced(before, rs)
  {
    var cvp := if before.cvp.Some? then before.cvp.value else before.cv as real;
    var scv, sv, totalDelta := before.scv, before.sv, 0.0;
    for i := 0 to |rs|
      invariant before.(cvp := Some(cvp + totalDelta), scv := scv, sv := sv) == Replaced(before, rs[..i])
    {
      assert rs[..i + 1][..i] == rs[..i];
      var previous := if rs[i].stock in scv then scv[rs[i].stock] else rs[i].previous;
      totalDelta := totalDelta + (rs[i].value - previous);
      scv, sv := scv[rs[i].stock := rs[i].value], sv[rs[i].stock := rs[i].version];
    }
    assert rs[..|rs|] == rs;
    if totalDelta != 0.0 {
      cvp := cvp + totalDelta;
    }
    pf := before.(cvp := Some(cvp), scv := scv, sv := sv);
  }

  predicate DistinctStocks(rs: seq<Replacement>) {
    forall i, j :: 0 <= i < j < |rs| ==> rs[i].stock != rs[j].stock
  }

  predicate Disjoint(rs: seq<Replacement>, rs': seq<Replacement>) {
    forall i, j :: 0 <= i < |rs| && 0 <= j < |rs'| ==> rs[i].stock != rs'[j].stock
  }

  /** The replacement of s, the last one if there are several. */
  function Find(rs: seq<Replacement>, s: StockId): (r: Option<Replacement>)
    ensures r.Some? ==> r.value in rs && r.value.stock == s
    ensures r.None? ==> forall q :: q in rs ==> q.stock != s
  {
    if rs == [] then None
    else
      assert rs == rs[..|rs| - 1] + [rs[|rs| - 1]];
      if rs[|rs| - 1].stock == s then Some(rs[|rs| - 1]) else Find(rs[..|rs| - 1], s)
  }

  /** Exactly the replaced stocks have the new values and versions. */
  lemma {:induction false} ReplacedStock(pf: Portfolio, rs: seq<Replacement>, s: StockId)
    ensures var r := Find(rs, s);
      && Lookup(Replaced(pf, rs).scv, s) == (if r.Some? then Some(r.value.value) else Lookup(pf.scv, s))
      && Lookup(Replaced(pf, rs).sv, s) == (if r.Some? then Some(r.value.version) else Lookup(pf.sv, s))
  {
    if rs != [] { ReplacedStock(pf, rs[..|rs| - 1], s); }
  }

  /** The differences a script of distinct stocks adds up. */
  function Differences(pf: Portfolio, rs: seq<Replacement>): real {
    if rs == [] then 0.0
    else Differences(pf, rs[..|rs| - 1]) + (rs[|rs| - 1].value - GetOr(pf.scv, rs[|rs| - 1].stock,
                                                                       rs[|rs| - 1].previous))
  }

  /** The total moves by the sum of the differences. */
  lemma {:induction false} ReplacedTotal(pf: Portfolio, rs: seq<Replacement>)
    requires DistinctStocks(rs)
    ensures Replaced(pf, rs).CurrentValue() == pf.CurrentValue() + Differences(pf, rs)
  {
    if rs != [] {
      ReplacedTotal(pf, rs[..|rs| - 1]);
      ReplacedStock(pf, rs[..|rs| - 1], rs[|rs| - 1].stock);
      assert Find(rs[..|rs| - 1], rs[|rs| - 1].stock).None?;
      assert Lookup(Replaced(pf, rs[..|rs| - 1]).scv, rs[|rs| - 1].stock) == Lookup(pf.scv, rs[|rs| - 1].stock);
    }
  }

  /** A script that finds all its values in place changes nothing. */
  lemma {:induction false} ReplacingSameValues(pf: Portfolio, rs: seq<Replacement>)
    requires pf.cvp.Some?
    requires forall i :: 0 <= i < |rs| ==>
      Lookup(pf.scv, rs[i].stock) == Some(rs[i].value) && Lookup(pf.sv, rs[i].stock) == Some(rs[i].version)
    ensures Replaced(pf, rs) == pf
  {
    if rs != [] {
      ReplacingSameValues(pf, rs[..|rs| - 1]);
      var r := rs[|rs| - 1];
      assert Lookup(pf.scv, r.stock) == Some(r.value) && Lookup(pf.sv, r.stock) == Some(r.version);
      assert pf.scv[r.stock := r.value] == pf.scv && pf.sv[r.stock := r.version] == pf.sv;
    }
  }

  /** Running the script again is harmless, whatever previous values the second run brings. */
  lemma ReplacingTwice(pf: Portfolio, rs: seq<Replacement>, again: seq<Replacement>)
    requires DistinctStocks(rs) && |again| == |rs|
    requires forall i :: 0 <= i < |rs| ==> again[i] == rs[i].(previous := again[i].previous)
    ensures Replaced(Replaced(pf, rs), again) == Replaced(pf, rs)
  {
    forall i | 0 <= i < |again|
      ensures Lookup(Replaced(pf, rs).scv, again[i].stock) == Some(again[i].value)
      ensures Lookup(Replaced(pf, rs).sv, again[i].stock) == Some(again[i].version)
    {
      ReplacedStock(pf, rs, rs[i].stock);
      assert rs[i] in rs && Find(rs, rs[i].stock).value == rs[i];
    }
    ReplacingSameValues(Replaced(pf, rs), again);
  }

  lemma ReplaceOnesSwap(pf: Portfolio, a: Replacement, b: Replacement)
    requires a.stock != b.stock
    ensures ReplaceOne(ReplaceOne(pf, a), b) == ReplaceOne(ReplaceOne(pf, b), a)
  {
    assert pf.scv[a.stock := a.value][b.stock := b.value] == pf.scv[b.stock := b.value][a.stock := a.value];
    assert pf.sv[a.stock := a.version][b.stock := b.version] == pf.sv[b.stock := b.version][a.stock := a.version];
  }

  /** One replacement after a script is the same as before it, when the script leaves its stock alone. */
  lemma {:induction false} ReplacementsSwap(pf: Portfolio, rs: seq<Replacement>, r: Replacement)
    requires forall i :: 0 <= i < |rs| ==> rs[i].stock != r.stock
    ensures Replaced(ReplaceOne(pf, r), rs) == ReplaceOne(Replaced(pf, rs), r)
  {
    if rs != [] {
      var rest, last := rs[..|rs| - 1], rs[|rs| - 1];
      ReplacementsSwap(pf, rest, r);
      ReplaceOnesSwap(Replaced(pf, rest), last, r);
    }
  }

  lemma {:induction false} ReplacingInParts(pf: Portfolio, rs: seq<Replacement>, rs': seq<Replacement>)
    ensures Replaced(Replaced(pf, rs), rs') == Replaced(pf, rs + rs')
  {
    if rs' == [] {
      assert rs + rs' == rs;
    } else {
      ReplacingInParts(pf, rs, rs'[..|rs'| - 1]);
      assert (rs + rs')[..|rs + rs'| - 1] == rs + rs'[..|rs'| - 1];
    }
  }

  /** Scripts for different stocks of one portfolio commute. */
  lemma {:induction false} ScriptsCommute(pf: Portfolio, rs: seq<Replacement>, rs': seq<Replacement>)
    requires Disjoint(rs, rs')
    ensures Replaced(Replaced(pf, rs), rs') == Replaced(Replaced(pf, rs'), rs)
    decreases |rs'|
  {
    if rs' == [] {
      assert Replaced(Replaced(pf, rs), []) == Replaced(pf, rs);
      ReplacingInParts(pf, [], rs);
      assert [] + rs == rs;
    } else {
      var rest, last := rs'[..|rs'| - 1], rs'[|rs'| - 1];
      ScriptsCommute(pf, rs, rest);
      ReplacementsSwap(Replaced(pf, rest), rs, last);
    }
  }

  // ---- conservation ----------------------------------------------------------------------

  /** The stock values a reader adds up: scv, else the legacy key. */
  function StockValues(pf: Portfolio): map<StockId, Totals> {
    map s | s in pf.scv.Keys + pf.legacy.Keys :: Totals(0, pf.StockValue(s), 0)
  }

  /** How far the portfolio total is from the sum of its stock values. */
  ghost function Drift(pf: Portfolio): real {
    pf.CurrentValue() - Sum(StockValues(pf)).value
  }

  /** Setting or dropping one stock's value moves the sum by the difference. */
  lemma StockValueMoves(pf: Portfolio, pf': Portfolio, s: StockId)
    requires forall x :: x != s ==> Lookup(StockValues(pf'), x) == Lookup(StockValues(pf), x)
    ensures Sum(StockValues(pf')).value == Sum(StockValues(pf)).value - pf.StockValue(s) + pf'.StockValue(s)
  {
    var before, after := StockValues(pf), StockValues(pf');
    SumDrop(before, s);
    SumDrop(after, s);
    assert before - {s} == after - {s} by {
      forall x ensures x in (before - {s}) <==> x in (after - {s}) {
        assert x != s ==> Lookup(after, x) == Lookup(before, x);
      }
      forall x | x in (before - {s}) ensures (before - {s})[x] == (after - {s})[x] {
        assert Lookup(after, x) == Lookup(before, x);
      }
    }
  }

  /** A replacement keeps the difference exactly when the base it uses is the value a reader sees. */
  lemma ReplacementDrift(pf: Portfolio, r: Replacement)
    ensures Drift(Replaced(pf, [r])) - Drift(pf) == pf.StockValue(r.stock) - GetOr(pf.scv, r.stock, r.previous)
    ensures Drift(Replaced(pf, [r])) == Drift(pf) <==> r.stock in pf.scv || r.previous == GetOr(pf.legacy, r.stock, 0.0)
  {
    ReplacedOne(pf, r);
    StockValueMoves(pf, ReplaceOne(pf, r), r.stock);
  }

  /** One trade on the hash: the script with the legacy value of its stock, and the projection after it. */
  function Traded(pf: Portfolio, t: Trade, changed: bool): Portfolio {
    var (after, stockValue) := ApplyTradeTotals(pf, t.stock, TradeTotals(t, changed), GetOr(pf.legacy, t.stock, 0.0));
    after.(legacy := Put(after.legacy, t.stock, stockValue))
  }

  /** Whether the trade deletes the stock's value: a sell that ends the holding, or leaves nothing of the value. */
  predicate Deletes(pf: Portfolio, t: Trade, changed: bool) {
    t.kind.Sell? && (changed || pf.StockValue(t.stock) - t.Amount() <= 0.0)
  }

  /** What a deleting sell leaves in the difference: its amount goes off the total and the whole value off the sum. */
  function Residue(pf: Portfolio, t: Trade, changed: bool): real {
    if Deletes(pf, t, changed) then pf.StockValue(t.stock) - t.Amount() else 0.0
  }

  lemma OtherValuesKept(pf: Portfolio, t: Trade, changed: bool, x: StockId)
    requires x != t.stock
    ensures Lookup(StockValues(Traded(pf, t, changed)), x) == Lookup(StockValues(pf), x)
  {
    var after := Traded(pf, t, changed);
    assert Lookup(after.scv, x) == Lookup(pf.scv, x) && Lookup(after.legacy, x) == Lookup(pf.legacy, x);
    SameValueAt(pf, after, x);
  }

  lemma SameValueAt(pf: Portfolio, pf': Portfolio, x: StockId)
    requires Lookup(pf'.scv, x) == Lookup(pf.scv, x) && Lookup(pf'.legacy, x) == Lookup(pf.legacy, x)
    ensures Lookup(StockValues(pf'), x) == Lookup(StockValues(pf), x)
  {}

  lemma OwnValueTraded(pf: Portfolio, t: Trade, changed: bool)
    ensures Traded(pf, t, changed).StockValue(t.stock) ==
      if Deletes(pf, t, changed) then 0.0 else pf.StockValue(t.stock) + t.SignedAmount()
  {}

  lemma TotalTraded(pf: Portfolio, t: Trade, changed: bool)
    ensures Traded(pf, t, changed).CurrentValue() ==
      if t.Amount() != 0.0 then pf.IncrementBase() + t.SignedAmount() else pf.CurrentValue()
  {}

  /** What a trade loses of the value a reader sees: a total that is still missing starts at zero and not at cv. */
  function Forgotten(pf: Portfolio, t: Trade): real {
    if t.Amount() != 0.0 then pf.CurrentValue() - pf.IncrementBase() else 0.0
  }

  /** A buy, and a sell that leaves a positive stock value, keep the difference; a deleting sell moves it by its
      residue, and the first trade of a portfolio without a total by what it forgets. */
  lemma TradeDrift(pf: Portfolio, t: Trade, changed: bool)
    ensures Drift(Traded(pf, t, changed)) - Drift(pf) == Residue(pf, t, changed) - Forgotten(pf, t)
  {
    OwnValueTraded(pf, t, changed);
    TotalTraded(pf, t, changed);
    forall x | x != t.stock ensures Lookup(StockValues(Traded(pf, t, changed)), x) == Lookup(StockValues(pf), x) {
      OtherValuesKept(pf, t, changed, x);
    }
    StockValueMoves(pf, Traded(pf, t, changed), t.stock);
  }

  /** The two writes of a trade that has not reached the hash yet come to Traded. */
  lemma TradeWritesOnce(db: Db, e: Event, t: Trade, changed: bool)
    requires PortfolioMark(t.portfolio, e) !in db.marks
    ensures var pf := db.Portfolio(t.portfolio);
      var (db', stockValue) :=
        ApplyPortfolioTradeTotals(db, t.portfolio, t.stock, e, TradeTotals(t, changed), GetOr(pf.legacy, t.stock, 0.0));
      ProjectStockValue(db', t.portfolio, t.stock, stockValue).Portfolio(t.portfolio) == Traded(pf, t, changed)
  {}

  /** A whole script keeps the difference when its previous values are the ones a reader sees. */
  lemma {:induction false} ScriptDrift(pf: Portfolio, rs: seq<Replacement>)
    requires forall i :: 0 <= i < |rs| ==> rs[i].previous == pf.StockValue(rs[i].stock)
    ensures Drift(Replaced(pf, rs)) == Drift(pf)
  {
    if rs == [] {
      assert StockValues(Replaced(pf, rs)) == StockValues(pf);
    } else {
      var rest, r := rs[..|rs| - 1], rs[|rs| - 1];
      ScriptDrift(pf, rest);
      ReplacedStock(pf, rest, r.stock);
      assert r.previous == pf.StockValue(r.stock);
      var before := Replaced(pf, rest);
      assert r.stock in before.scv <==> Lookup(before.scv, r.stock).Some?;
      assert r.stock in pf.scv <==> Lookup(pf.scv, r.stock).Some?;
      ReplacementDrift(before, r);
      ReplacedOne(before, r);
    }
  }

  // ---- serial runs ------------------------------------------------------------------------

  datatype Change = Replace(r: Replacement) | TradeChange(t: Trade, changed: bool)

  function Changed(pf: Portfolio, c: Change): Portfolio {
    match c
    case Replace(r) => Replaced(pf, [r])
    case TradeChange(t, changed) => Traded(pf, t, changed)
  }

  function AllChanged(pf: Portfolio, cs: seq<Change>): Portfolio {
    if cs == [] then pf else Changed(AllChanged(pf, cs[..|cs| - 1]), cs[|cs| - 1])
  }

  function ChangeResidue(pf: Portfolio, c: Change): real {
    match c
    case Replace(r) => pf.StockValue(r.stock) - GetOr(pf.scv, r.stock, r.previous)
    case TradeChange(t, changed) => Residue(pf, t, changed) - Forgotten(pf, t)
  }

  function Residues(pf: Portfolio, cs: seq<Change>): real {
    if cs == [] then 0.0
    else Residues(pf, cs[..|cs| - 1]) + ChangeResidue(AllChanged(pf, cs[..|cs| - 1]), cs[|cs| - 1])
  }

  /** Over any serial run the total drifts from the sum of its stock values by exactly the residues of the run. */
  lemma {:induction false} DriftIsResidues(pf: Portfolio, cs: seq<Change>)
    ensures Drift(AllChanged(pf, cs)) == Drift(pf) + Residues(pf, cs)
  {
    if cs != [] {
      var rest, c := cs[..|cs| - 1], cs[|cs| - 1];
      DriftIsResidues(pf, rest);
      var before := AllChanged(pf, rest);
      match c
      case Replace(r) => ReplacementDrift(before, r);
      case TradeChange(t, changed) => TradeDrift(before, t, changed);
    }
  }

  // ---- versions of stock values --------------------------------------------------------------

  /** A stock has a version only while it has a value. */
  predicate Versioned(pf: Portfolio) {
    pf.sv.Keys <= pf.scv.Keys
  }

  /** A trade deletes its stock's version together with the value, and otherwise leaves every version alone. */
  lemma TradeKeepsVersions(pf: Portfolio, t: Trade, changed: bool)
    ensures Traded(pf, t, changed).sv == if Deletes(pf, t, changed) then pf.sv - {t.stock} else pf.sv
    ensures t.stock in Traded(pf, t, changed).scv <==> !Deletes(pf, t, changed)
  {}

  /** Replacements and trades keep versions with values over any serial run. */
  lemma {:induction false} RunsStayVersioned(pf: Portfolio, cs: seq<Change>)
    requires Versioned(pf)
    ensures Versioned(AllChanged(pf, cs))
  {
    if cs != [] {
      var rest, c := AllChanged(pf, cs[..|cs| - 1]), cs[|cs| - 1];
      RunsStayVersioned(pf, cs[..|cs| - 1]);
      match c
      case Replace(r) => ReplacedOne(rest, r);
      case TradeChange(t, changed) => TradeKeepsVersions(rest, t, changed); OthersKeptByTrade(rest, t, changed);
    }
  }

  lemma OthersKeptByTrade(pf: Portfolio, t: Trade, changed: bool)
    ensures pf.scv.Keys - {t.stock} == Traded(pf, t, changed).scv.Keys - {t.stock}
  {}

  /** Deleting a portfolio's state deletes values and leaves versions, so it keeps them together exactly when none of
      the stocks it deletes has a version. */
  lemma DeletionStaysVersionedIff(db: Db, p: PortfolioId)
    requires Versioned(db.Portfolio(p))
    ensures Versioned(DeletePortfolioState(db, p).Portfolio(p)) <==> PortfolioStocks(db, p) !! db.Portfolio(p).sv.Keys
  {
    var before, after, stocks := db.Portfolio(p), DeletePortfolioState(db, p).Portfolio(p), PortfolioStocks(db, p);
    assert after.sv == before.sv && after.scv == before.scv - stocks;
    assert after.scv.Keys == before.scv.Keys - stocks;
  }
}
