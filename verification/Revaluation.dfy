/** Carrying out a plan of replacements: hashes, compatibility keys, valuations and the totals of the owners. */
module Revaluation {
  import opened Domain
  import opened Sums
  import opened RedisDb
  import opened Valuation

  type Portfolios = map<PortfolioId, Portfolio>

  /** The new values of a batch, by portfolio. */
  type Plan = map<PortfolioId, seq<Replacement>>

  function Hash(pfs: Portfolios, p: PortfolioId): Portfolio {
    GetOr(pfs, p, EMPTY_PORTFOLIO)
  }

  function NewValues(rs: seq<Replacement>): map<StockId, real> {
    if rs == [] then map[] else NewValues(rs[..|rs| - 1])[rs[|rs| - 1].stock := rs[|rs| - 1].value]
  }

  // ---- bulk writes -----------------------------------------------------------------------

  function ReplaceAll(pfs: Portfolios, plan: Plan): Portfolios {
    pfs + map p | p in plan :: Replaced(Hash(pfs, p), plan[p])
  }

  /** Runs the replacement script on each hash, in any order: each script works on a hash of its own. */
  method ReplaceEach(pfs: Portfolios, plan: Plan) returns (after: Portfolios)
    ensures after == map p | p in plan :: Replaced(Hash(pfs, p), plan[p])
  {
    after := map[];
    var rest := plan.Keys;
    while rest != {}
      invariant rest <= plan.Keys && after.Keys == plan.Keys - rest
      invariant forall p :: p in after ==> after[p] == Replaced(Hash(pfs, p), plan[p])
    {
      var p := Pick(rest);
      var pf := ReplaceStockCurrentValues(Hash(pfs, p), plan[p]);
      after := after[p := pf];
      rest := rest - {p};
    }
  }

  function SetLegacyValues(pfs: Portfolios, values: map<PortfolioId, map<StockId, real>>): Portfolios {
    pfs + map p | p in values :: Hash(pfs, p).(legacy := Hash(pfs, p).legacy + values[p])
  }

  /** The hash with this purchased value, current value and count saved in it. */
  function SavedAs(pf: Portfolio, t: Totals): Portfolio {
    pf.(pv := t.purchased, cv := RoundToInt64(t.value), ac := t.count, deleted := false)
  }

  function SaveAllPortfolios(pfs: Portfolios, vals: map<PortfolioId, Totals>): Portfolios {
    pfs + map p | p in vals :: SavedAs(Hash(pfs, p), vals[p])
  }

  type Users = map<UserId, User>

  function SetUserValues(users: Users, totals: map<UserId, real>): Users {
    users + map u | u in totals :: GetOr(users, u, EMPTY_USER).(cvp := Some(totals[u]))
  }

  function UserSavedAs(usr: User, t: Totals): User {
    usr.(pv := t.purchased, cv := RoundToInt64(t.value), pc := t.count)
  }

  function SaveAllUsers(users: Users, vals: map<UserId, Totals>): Users {
    users + map u | u in vals :: UserSavedAs(GetOr(users, u, EMPTY_USER), vals[u])
  }

  // ---- the portfolios of a user --------------------------------------------------------------

  function PortfoliosOf(members: set<Membership>, u: UserId): set<PortfolioId> {
    set m | m in members && m.user == u :: m.portfolio
  }

  /** What a portfolio brings to its owner's totals; it is counted once its creation has been. */
  function MemberTotal(pf: Portfolio): Totals {
    Totals(pf.pv, pf.CurrentValue(), if pf.pending then 0 else 1)
  }

  function MemberTotals(pfs: Portfolios, members: set<Membership>, u: UserId): map<PortfolioId, Totals> {
    map p | p in PortfoliosOf(members, u) :: MemberTotal(Hash(pfs, p))
  }

  ghost function ReSum(pfs: Portfolios, members: set<Membership>, u: UserId): real {
    Sum(MemberTotals(pfs, members, u)).value
  }

  /** What the replacement script answers for a portfolio. */
  datatype Snapshot = Snapshot(totals: Totals, owner: Option<UserId>)

  function SnapshotOf(pf: Portfolio): Snapshot {
    Snapshot(Totals(pf.pv, pf.CurrentValue(), pf.ac), pf.owner)
  }

  // ---- the calls of one batch ------------------------------------------------------------------

  /** A touched portfolio after the first calls of the batch: replacing is the third, projecting the fourth and saving
      the fifth. */
  function PortfolioAfter(pf: Portfolio, rs: seq<Replacement>, calls: nat): Portfolio {
    var replaced := if calls < 3 then pf else Replaced(pf, rs);
    var projected := if calls < 4 then replaced else replaced.(legacy := replaced.legacy + NewValues(rs));
    if calls < 5 then projected else projected.(cv := RoundToInt64(projected.CurrentValue()), deleted := false)
  }

  function Planned(pfs: Portfolios, plan: Plan, calls: nat): Portfolios {
    map p | p in plan :: PortfolioAfter(Hash(pfs, p), plan[p], calls)
  }

  function Carried(pfs: Portfolios, plan: Plan, calls: nat): Portfolios {
    if calls < 3 then pfs else pfs + Planned(pfs, plan, calls)
  }

  /** A touched user: setting the new sum is the eighth call, saving the ninth. */
  function UserAfter(usr: User, total: real, calls: nat): User {
    var summed := if calls < 8 then usr else usr.(cvp := Some(total));
    if calls < 9 then summed else summed.(cv := RoundToInt64(total))
  }

  const CALLS := 9

  function Owners(pfs: Portfolios, plan: Plan): set<UserId> {
    set p | p in plan && Hash(pfs, p).owner.Some? :: Hash(pfs, p).owner.value
  }

  ghost function Summed(users: Users, owners: set<UserId>, pfs: Portfolios, members: set<Membership>, calls: nat):
      Users {
    if calls < 8 then users
    else users + map u | u in owners :: UserAfter(GetOr(users, u, EMPTY_USER), ReSum(pfs, members, u), calls)
  }

  lemma CarriedAt(pfs: Portfolios, plan: Plan, calls: nat, p: PortfolioId)
    ensures Hash(Carried(pfs, plan, calls), p) ==
      if p in plan then PortfolioAfter(Hash(pfs, p), plan[p], calls) else Hash(pfs, p)
  {}

  lemma SummedAt(users: Users, owners: set<UserId>, pfs: Portfolios, members: set<Membership>, calls: nat, u: UserId)
    ensures GetOr(Summed(users, owners, pfs, members, calls), u, EMPTY_USER) ==
      if u in owners then UserAfter(GetOr(users, u, EMPTY_USER), ReSum(pfs, members, u), calls)
        else GetOr(users, u, EMPTY_USER)
  {}

  lemma Overwritten<K, V>(before: map<K, V>, first: map<K, V>, second: map<K, V>)
    requires first.Keys == second.Keys
    ensures before + first + second == before + second
  {
    assert (before + first + second).Keys == (before + second).Keys;
  }

  /** The next write of the plan, on top of the ones before. */
  lemma CarriedOn(pfs: Portfolios, plan: Plan, calls: nat, mid: Portfolios, written: Portfolios)
    requires calls >= 2 && mid == Carried(pfs, plan, calls)
    requires written.Keys == plan.Keys
    requires forall p :: p in written ==> written[p] == PortfolioAfter(Hash(pfs, p), plan[p], calls + 1)
    ensures mid + written == Carried(pfs, plan, calls + 1)
  {
    assert written == Planned(pfs, plan, calls + 1);
    if calls >= 3 { Overwritten(pfs, Planned(pfs, plan, calls), written); }
  }

  lemma ReplacedStage(pfs: Portfolios, plan: Plan)
    ensures ReplaceAll(pfs, plan) == Carried(pfs, plan, 3)
  {
    CarriedOn(pfs, plan, 2, pfs, map p | p in plan :: Replaced(Hash(pfs, p), plan[p]));
  }

  lemma ProjectedStage(pfs: Portfolios, plan: Plan, values: map<PortfolioId, map<StockId, real>>, mid: Portfolios)
    requires mid == Carried(pfs, plan, 3) && values == map p | p in plan :: NewValues(plan[p])
    ensures SetLegacyValues(mid, values) == Carried(pfs, plan, 4)
  {
    var written := map p | p in values :: Hash(mid, p).(legacy := Hash(mid, p).legacy + values[p]);
    forall p | p in written
      ensures written[p] == PortfolioAfter(Hash(pfs, p), plan[p], 4) { CarriedAt(pfs, plan, 3, p); }
    CarriedOn(pfs, plan, 3, mid, written);
  }

  /** What the replacement script answers is still what is there when the valuation is saved. */
  lemma SavedPortfolio(pf: Portfolio, rs: seq<Replacement>)
    ensures SavedAs(PortfolioAfter(pf, rs, 4), SnapshotOf(Replaced(pf, rs)).totals) == PortfolioAfter(pf, rs, 5)
  {}

  lemma SavedAt(pfs: Portfolios, plan: Plan, mid: Portfolios, p: PortfolioId, totals: Totals)
    requires p in plan && mid == Carried(pfs, plan, 4)
    requires totals == SnapshotOf(Replaced(Hash(pfs, p), plan[p])).totals
    ensures SavedAs(Hash(mid, p), totals) == PortfolioAfter(Hash(pfs, p), plan[p], 5)
  {
    CarriedAt(pfs, plan, 4, p);
    SavedPortfolio(Hash(pfs, p), plan[p]);
  }

  lemma SavedStage(pfs: Portfolios, plan: Plan, vals: map<PortfolioId, Totals>, mid: Portfolios)
    requires mid == Carried(pfs, plan, 4)
    requires vals == map p | p in plan :: SnapshotOf(Replaced(Hash(pfs, p), plan[p])).totals
    ensures SaveAllPortfolios(mid, vals) == Carried(pfs, plan, 5)
  {
    var written := map p | p in vals :: SavedAs(Hash(mid, p), vals[p]);
    forall p | p in written ensures written[p] == PortfolioAfter(Hash(pfs, p), plan[p], 5) {
      SavedAt(pfs, plan, mid, p, vals[p]);
    }
    CarriedOn(pfs, plan, 4, mid, written);
  }

  lemma CarriedEnds(pfs: Portfolios, plan: Plan, calls: nat)
    requires calls >= 5
    ensures Carried(pfs, plan, calls) == Carried(pfs, plan, 5)
  {
    assert Planned(pfs, plan, calls) == Planned(pfs, plan, 5);
  }

  // ---- properties of one plan ------------------------------------------------------------------

  lemma {:induction false} NewValuesAt(rs: seq<Replacement>, s: StockId)
    ensures Lookup(NewValues(rs), s) == var r := Find(rs, s); if r.Some? then Some(r.value.value) else None
  {
    if rs != [] { NewValuesAt(rs[..|rs| - 1], s); }
  }

  /** One portfolio's stock values after a complete batch: the new ones where there are any, the old ones elsewhere. */
  lemma StockRevalued(pf: Portfolio, reps: seq<Replacement>, s: StockId)
    ensures var after, r := PortfolioAfter(pf, reps, CALLS), Find(reps, s);
      && Lookup(after.scv, s) == (if r.Some? then Some(r.value.value) else Lookup(pf.scv, s))
      && Lookup(after.legacy, s) == (if r.Some? then Some(r.value.value) else Lookup(pf.legacy, s))
      && Lookup(after.sv, s) == (if r.Some? then Some(r.value.version) else Lookup(pf.sv, s))
  {
    ReplacedStock(pf, reps, s);
    NewValuesAt(reps, s);
    assert Lookup(pf.legacy + NewValues(reps), s) ==
      if s in NewValues(reps) then Lookup(NewValues(reps), s) else Lookup(pf.legacy, s);
  }

  /** The stock's value, compatibility value and version in a portfolio hash. */
  function StockIn(pf: Portfolio, s: StockId): (Option<real>, Option<real>, Option<int>) {
    (Lookup(pf.scv, s), Lookup(pf.legacy, s), Lookup(pf.sv, s))
  }

  lemma ProjectingKeepsValues(before: Portfolio, reps: seq<Replacement>)
    ensures var replaced := Replaced(before, reps);
      StockValues(replaced.(legacy := replaced.legacy + NewValues(reps))) == StockValues(replaced)
  {
    var replaced := Replaced(before, reps);
    forall s | s in NewValues(reps) ensures s in replaced.scv {
      NewValuesAt(reps, s);
      ReplacedStock(before, reps, s);
      assert Lookup(replaced.scv, s).Some?;
    }
  }

  lemma PortfolioRevalued(pf: Portfolio, reps: seq<Replacement>)
    requires DistinctStocks(reps) && forall i :: 0 <= i < |reps| ==> reps[i].previous == pf.StockValue(reps[i].stock)
    ensures var after := PortfolioAfter(pf, reps, CALLS);
      && after.CurrentValue() == pf.CurrentValue() + Differences(pf, reps)
      && Drift(after) == Drift(pf)
      && after.pv == pf.pv && after.ac == pf.ac && after.owner == pf.owner && after.pending == pf.pending
  {
    ReplacedTotal(pf, reps);
    ScriptDrift(pf, reps);
    ProjectingKeepsValues(pf, reps);
    var replaced := Replaced(pf, reps);
    assert StockValues(PortfolioAfter(pf, reps, CALLS)) ==
      StockValues(replaced.(legacy := replaced.legacy + NewValues(reps)));
  }

  // ---- carrying a plan out again ----------------------------------------------------------------

  /** Two lists of new values that differ at most in the previous values they bring. */
  ghost predicate SameNewValues(rs: seq<Replacement>, rs': seq<Replacement>) {
    |rs| == |rs'| && forall i :: 0 <= i < |rs| ==> rs'[i] == rs[i].(previous := rs'[i].previous)
  }

  lemma {:induction false} SameNewValuesMap(rs: seq<Replacement>, rs': seq<Replacement>)
    requires SameNewValues(rs, rs')
    ensures NewValues(rs') == NewValues(rs)
  {
    if rs != [] { SameNewValuesMap(rs[..|rs| - 1], rs'[..|rs'| - 1]); }
  }

  lemma ValuesInPlace(pf: Portfolio, reps: seq<Replacement>, again: seq<Replacement>)
    requires DistinctStocks(reps) && SameNewValues(reps, again)
    ensures var after := Replaced(pf, reps);
      forall i :: 0 <= i < |again| ==>
        Lookup(after.scv, again[i].stock) == Some(again[i].value)
          && Lookup(after.sv, again[i].stock) == Some(again[i].version)
  {
    forall i | 0 <= i < |again|
      ensures Lookup(Replaced(pf, reps).scv, again[i].stock) == Some(again[i].value)
      ensures Lookup(Replaced(pf, reps).sv, again[i].stock) == Some(again[i].version)
    {
      ReplacedStock(pf, reps, reps[i].stock);
      assert reps[i] in reps && Find(reps, reps[i].stock).value == reps[i];
    }
  }

  /** Finishing a portfolio that an earlier, interrupted run has left part of the way. */
  lemma PortfolioFinished(pf: Portfolio, reps: seq<Replacement>, again: seq<Replacement>, calls: nat)
    requires DistinctStocks(reps) && SameNewValues(reps, again) && (calls < 3 ==> again == reps)
    ensures PortfolioAfter(PortfolioAfter(pf, reps, calls), again, CALLS) == PortfolioAfter(pf, reps, CALLS)
  {
    if calls >= 3 {
      ValuesInPlace(pf, reps, again);
      ReplacingSameValues(PortfolioAfter(pf, reps, calls), again);
      SameNewValuesMap(reps, again);
      ProjectedTwice(pf.legacy, NewValues(reps));
    }
  }

  lemma ProjectedTwice(legacy: map<StockId, real>, values: map<StockId, real>)
    ensures legacy + values + values == legacy + values
  {}

  /** Plans for the same portfolios that differ at most in previous values. */
  ghost predicate SamePlan(plan: Plan, plan': Plan) {
    plan.Keys == plan'.Keys && forall p :: p in plan ==> SameNewValues(plan[p], plan'[p])
  }

  lemma PlannedAgain(pfs: Portfolios, plan: Plan, plan': Plan, calls: nat, mid: Portfolios)
    requires mid == Carried(pfs, plan, calls) && SamePlan(plan, plan') && (calls < 3 ==> plan' == plan)
    requires forall p :: p in plan ==> DistinctStocks(plan[p])
    ensures Planned(mid, plan', CALLS) == Planned(pfs, plan, CALLS)
  {
    forall p | p in plan
      ensures PortfolioAfter(Hash(mid, p), plan'[p], CALLS) == PortfolioAfter(Hash(pfs, p), plan[p], CALLS)
    {
      CarriedAt(pfs, plan, calls, p);
      PortfolioFinished(Hash(pfs, p), plan[p], plan'[p], calls);
    }
  }

  lemma OwnersAgain(pfs: Portfolios, plan: Plan, plan': Plan, calls: nat, mid: Portfolios)
    requires mid == Carried(pfs, plan, calls) && SamePlan(plan, plan')
    ensures Owners(mid, plan') == Owners(pfs, plan)
  {
    forall p ensures Hash(mid, p).owner == Hash(pfs, p).owner { CarriedAt(pfs, plan, calls, p); }
  }

  lemma CarriedAgain(pfs: Portfolios, plan: Plan, plan': Plan, calls: nat, mid: Portfolios)
    requires mid == Carried(pfs, plan, calls) && Planned(mid, plan', CALLS) == Planned(pfs, plan, CALLS)
    ensures Carried(mid, plan', CALLS) == Carried(pfs, plan, CALLS)
  {
    if calls >= 3 { Overwritten(pfs, Planned(pfs, plan, calls), Planned(pfs, plan, CALLS)); }
  }

  lemma UserFinished(usr: User, total: real, total': real, calls: nat)
    ensures UserAfter(UserAfter(usr, total', calls), total, CALLS) == UserAfter(usr, total, CALLS)
  {}

  lemma SummedAgain(users: Users, owners: set<UserId>, early: Portfolios, pfs: Portfolios, members: set<Membership>,
                    calls: nat, mid: Users)
    requires mid == Summed(users, owners, early, members, calls)
    ensures Summed(mid, owners, pfs, members, CALLS) == Summed(users, owners, pfs, members, CALLS)
  {
    var once := map u | u in owners :: UserAfter(GetOr(users, u, EMPTY_USER), ReSum(pfs, members, u), CALLS);
    var twice := map u | u in owners :: UserAfter(GetOr(mid, u, EMPTY_USER), ReSum(pfs, members, u), CALLS);
    forall u | u in owners ensures twice[u] == once[u] {
      SummedAt(users, owners, early, members, calls, u);
      UserFinished(GetOr(users, u, EMPTY_USER), ReSum(pfs, members, u), ReSum(early, members, u), calls);
    }
    assert twice == once;
    if calls >= 8 {
      Overwritten(users, map u | u in owners :: UserAfter(GetOr(users, u, EMPTY_USER), ReSum(early, members, u), calls),
                  once);
    }
  }
}
