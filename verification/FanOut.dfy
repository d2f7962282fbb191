/** Applying a batch of accepted ticks: from the reverse index to the users' totals. */
module FanOut {
  import opened Domain
  import opened Sums
  import opened RedisDb
  import opened PriceTicks
  import C = Coalescing
  import L = PriceLock
  import opened Valuation
  import opened Revaluation
  import opened PriceBatch
  import opened RedisStore

  datatype Task = Task(portfolio: PortfolioId, request: Request)

  /** The requests of p's tasks, in order. */
  function TasksFor(tasks: seq<Task>, p: PortfolioId): seq<Request> {
    if tasks == [] then []
    else
      var rest, t := TasksFor(tasks[..|tasks| - 1], p), tasks[|tasks| - 1];
      if t.portfolio == p then rest + [t.request] else rest
  }

  function Indexed(db: Db, rs: seq<Request>, p: PortfolioId): seq<Request> {
    if rs == [] then []
    else
      var rest, r := Indexed(db, rs[..|rs| - 1], p), rs[|rs| - 1];
      if Holding(p, r.stock) in db.stockIndex then rest + [r] else rest
  }

  lemma TasksForSnoc(tasks: seq<Task>, t: Task, p: PortfolioId)
    ensures TasksFor(tasks + [t], p) ==
      if t.portfolio == p then TasksFor(tasks, p) + [t.request] else TasksFor(tasks, p)
  {
    assert (tasks + [t])[..|tasks|] == tasks;
  }

  lemma ReplacementsSnoc(db: Db, rs: seq<Request>, r: Request, p: PortfolioId)
    ensures Replacements(db, rs + [r], p) ==
      if Valued(db, Holding(p, r.stock)) then Replacements(db, rs, p) + [NewValue(db, p, r)]
        else Replacements(db, rs, p)
  {
    assert (rs + [r])[..|rs|] == rs;
  }

  /** Requests outside the index bring no new value. */
  lemma {:induction false} OnlyIndexedCount(db: Db, rs: seq<Request>, p: PortfolioId)
    ensures Replacements(db, Indexed(db, rs, p), p) == Replacements(db, rs, p)
  {
    if rs != [] {
      OnlyIndexedCount(db, rs[..|rs| - 1], p);
      ReplacementsSnoc(db, Indexed(db, rs[..|rs| - 1], p), rs[|rs| - 1], p);
    }
  }

  // ---- building the batch ----------------------------------------------------------------------

  /** One task for each request and each portfolio the reverse index has for it. */
  method BuildTasks(db: Db, rs: seq<Request>, portfoliosByStock: map<StockId, set<PortfolioId>>)
      returns (tasks: seq<Task>)
    requires forall i :: 0 <= i < |rs| ==>
      Lookup(portfoliosByStock, rs[i].stock) == Some(IndexedPortfolios(db, rs[i].stock))
    ensures forall p :: TasksFor(tasks, p) == Indexed(db, rs, p)
  {
    tasks := [];
    for i := 0 to |rs|
      invariant forall p :: TasksFor(tasks, p) == Indexed(db, rs[..i], p)
    {
      assert Lookup(portfoliosByStock, rs[i].stock) == Some(IndexedPortfolios(db, rs[i].stock));
      tasks := AddTasks(db, tasks, rs[i], portfoliosByStock[rs[i].stock]);
      assert rs[..i + 1][..i] == rs[..i];
      forall p ensures p in IndexedPortfolios(db, rs[i].stock) <==> Holding(p, rs[i].stock) in db.stockIndex {
        if Holding(p, rs[i].stock) in db.stockIndex { assert Holding(p, rs[i].stock).portfolio == p; }
      }
    }
    assert rs[..|rs|] == rs;
  }

  method AddTasks(db: Db, before: seq<Task>, r: Request, portfolios: set<PortfolioId>) returns (tasks: seq<Task>)
    ensures forall p :: TasksFor(tasks, p) == if p in portfolios then TasksFor(before, p) + [r] else TasksFor(before, p)
  {
    tasks := before;
    var rest := portfolios;
    while rest != {}
      invariant rest <= portfolios
      invariant forall p ::
        TasksFor(tasks, p) == if p in portfolios - rest then TasksFor(before, p) + [r] else TasksFor(before, p)
    {
      var p := Pick(rest);
      forall q { TasksForSnoc(tasks, Task(p, r), q); }
      tasks := tasks + [Task(p, r)];
      rest := rest - {p};
    }
    assert portfolios - rest == portfolios;
  }

  /** Quantity and value of each task's holding, as fetched. */
  ghost predicate Fetched(db: Db, tasks: seq<Task>, holdings: map<Holding, (real, real)>) {
    forall k :: 0 <= k < |tasks| ==>
      var h := Holding(tasks[k].portfolio, tasks[k].request.stock);
      h in db.stockIndex
      && Lookup(holdings, h) == Some((GetOr(db.quantity, h, 0.0), db.Portfolio(h.portfolio).StockValue(h.stock)))
  }

  /** The new values of the tasks with a quantity, by portfolio. */
  ghost predicate Computed(db: Db, tasks: seq<Task>, replacements: map<PortfolioId, seq<Replacement>>,
                           stockCV: map<PortfolioId, map<StockId, real>>) {
    (forall p :: GetOr(replacements, p, []) == Replacements(db, TasksFor(tasks, p), p))
      && Shadowed(replacements, stockCV)
  }

  /** The values for the compatibility keys are those of the plan. */
  ghost predicate Shadowed(plan: Plan, stockCV: map<PortfolioId, map<StockId, real>>) {
    && (forall p :: p in plan ==> plan[p] != [])
    && (forall p :: p in plan <==> p in stockCV)
    && (forall p :: p in plan ==> stockCV[p] == NewValues(plan[p]))
  }

  lemma ShadowedMore(plan: Plan, stockCV: map<PortfolioId, map<StockId, real>>, p: PortfolioId, v: Replacement)
    requires Shadowed(plan, stockCV)
    ensures Shadowed(plan[p := GetOr(plan, p, []) + [v]], stockCV[p := GetOr(stockCV, p, map[])[v.stock := v.value]])
  {
    var before := GetOr(plan, p, []);
    assert (before + [v])[..|before|] == before;
    assert NewValues(before + [v]) == NewValues(before)[v.stock := v.value];
  }

  lemma TaskAdds(db: Db, tasks: seq<Task>, t: Task, q: PortfolioId)
    ensures Replacements(db, TasksFor(tasks + [t], q), q) ==
      if q == t.portfolio && Valued(db, Holding(q, t.request.stock)) then
        Replacements(db, TasksFor(tasks, q), q) + [NewValue(db, q, t.request)]
      else Replacements(db, TasksFor(tasks, q), q)
  {
    TasksForSnoc(tasks, t, q);
    ReplacementsSnoc(db, TasksFor(tasks, q), t.request, q);
  }

  lemma ComputedSame(db: Db, tasks: seq<Task>, t: Task, replacements: Plan,
                     stockCV: map<PortfolioId, map<StockId, real>>)
    requires Computed(db, tasks, replacements, stockCV) && !Valued(db, Holding(t.portfolio, t.request.stock))
    ensures Computed(db, tasks + [t], replacements, stockCV)
  {
    forall q ensures GetOr(replacements, q, []) == Replacements(db, TasksFor(tasks + [t], q), q) {
      TaskAdds(db, tasks, t, q);
    }
  }

  lemma ComputedMore(db: Db, tasks: seq<Task>, t: Task, replacements: Plan,
                     stockCV: map<PortfolioId, map<StockId, real>>, v: Replacement)
    requires Computed(db, tasks, replacements, stockCV) && Valued(db, Holding(t.portfolio, t.request.stock))
    requires v == NewValue(db, t.portfolio, t.request)
    ensures Computed(db, tasks + [t], replacements[t.portfolio := GetOr(replacements, t.portfolio, []) + [v]],
                     stockCV[t.portfolio := GetOr(stockCV, t.portfolio, map[])[v.stock := v.value]])
  {
    var before := GetOr(replacements, t.portfolio, []);
    var after := replacements[t.portfolio := before + [v]];
    forall q ensures GetOr(after, q, []) == Replacements(db, TasksFor(tasks + [t], q), q) {
      TaskAdds(db, tasks, t, q);
    }
    ShadowedMore(replacements, stockCV, t.portfolio, v);
  }

  /** The value is price times quantity, for the last task of the holding. */
  ghost predicate TaskPriced(db: Db, tasks: seq<Task>, h: Holding, value: real) {
    var r := C.RequestFor(TasksFor(tasks, h.portfolio), h.stock);
    r.Some? && h in db.quantity && db.quantity[h] != 0.0 && value == r.value.price as real * db.quantity[h]
  }

  lemma ComputedAt(db: Db, tasks: seq<Task>, h: Holding, cvs: map<StockId, real>)
    requires cvs == NewValues(Replacements(db, TasksFor(tasks, h.portfolio), h.portfolio))
    ensures h.stock in cvs ==> TaskPriced(db, tasks, h, cvs[h.stock])
    ensures h.stock in cvs <==> C.RequestFor(TasksFor(tasks, h.portfolio), h.stock).Some? && Valued(db, h)
  {
    var rs := TasksFor(tasks, h.portfolio);
    FindNewValue(db, rs, h.portfolio, h.stock);
    NewValuesAt(Replacements(db, rs, h.portfolio), h.stock);
    assert h == Holding(h.portfolio, h.stock);
    assert h.stock in cvs <==> Lookup(cvs, h.stock).Some?;
  }

  /** The quantity stored for the holding of a task, zero without one. */
  function QuantityOf(db: Db, task: Task): real {
    GetOr(db.quantity, Holding(task.portfolio, task.request.stock), 0.0)
  }

  lemma ComputedIsPriced(db: Db, tasks: seq<Task>, replacements: map<PortfolioId, seq<Replacement>>,
                         stockCV: map<PortfolioId, map<StockId, real>>)
    requires Computed(db, tasks, replacements, stockCV)
    requires forall k :: 0 <= k < |tasks| ==> Holding(tasks[k].portfolio, tasks[k].request.stock) in db.stockIndex
    ensures forall p, v :: p in stockCV && v in stockCV[p] ==> TaskPriced(db, tasks, Holding(p, v), stockCV[p][v])
    ensures forall k :: 0 <= k < |tasks| && QuantityOf(db, tasks[k]) != 0.0 ==>
      tasks[k].portfolio in stockCV && tasks[k].request.stock in stockCV[tasks[k].portfolio]
  {
    forall p, v | p in stockCV && v in stockCV[p] ensures TaskPriced(db, tasks, Holding(p, v), stockCV[p][v]) {
      assert GetOr(replacements, p, []) == Replacements(db, TasksFor(tasks, p), p);
      ComputedAt(db, tasks, Holding(p, v), stockCV[p]);
    }
    forall k | 0 <= k < |tasks| && QuantityOf(db, tasks[k]) != 0.0
      ensures tasks[k].portfolio in stockCV && tasks[k].request.stock in stockCV[tasks[k].portfolio]
    {
      var h := Holding(tasks[k].portfolio, tasks[k].request.stock);
      var rs := TasksFor(tasks, h.portfolio);
      TaskIsFor(tasks, k);
      assert tasks[k].request in rs && C.RequestFor(rs, h.stock).Some?;
      FindNewValue(db, rs, h.portfolio, h.stock);
      assert Replacements(db, rs, h.portfolio) != [];
      assert GetOr(replacements, h.portfolio, []) == Replacements(db, rs, h.portfolio);
      ComputedAt(db, tasks, h, stockCV[h.portfolio]);
    }
  }

  method ComputeValues(db: Db, tasks: seq<Task>, holdings: map<Holding, (real, real)>)
      returns (replacements: map<PortfolioId, seq<Replacement>>, stockCV: map<PortfolioId, map<StockId, real>>)
    requires Fetched(db, tasks, holdings)
    ensures Computed(db, tasks, replacements, stockCV)
    ensures forall p, v :: p in stockCV && v in stockCV[p] ==> TaskPriced(db, tasks, Holding(p, v), stockCV[p][v])
    ensures forall k :: 0 <= k < |tasks| && QuantityOf(db, tasks[k]) != 0.0 ==>
      tasks[k].portfolio in stockCV && tasks[k].request.stock in stockCV[tasks[k].portfolio]
  {
    replacements, stockCV := map[], map[];
    for k := 0 to |tasks|
      invariant Computed(db, tasks[..k], replacements, stockCV)
    {
      var Task(p, r) := tasks[k];
      var h := Holding(p, r.stock);
      assert tasks[..k + 1] == tasks[..k] + [tasks[k]];
      assert Lookup(holdings, h).Some?;
      var (quantity, value) := holdings[h];
      if quantity == 0.0 {
        ComputedSame(db, tasks[..k], tasks[k], replacements, stockCV);
        continue;
      }
      var newCV := Worth(r.price, quantity);
      var rs := if p in replacements then replacements[p] else [];
      var cvs := if p in stockCV then stockCV[p] else map[];
      ComputedMore(db, tasks[..k], tasks[k], replacements, stockCV,
                   Replacement(r.stock, value, newCV, r.EffectiveVersion()));
      replacements := replacements[p := rs + [Replacement(r.stock, value, newCV, r.EffectiveVersion())]];
      stockCV := stockCV[p := cvs[r.stock := newCV]];
    }
    assert tasks[..|tasks|] == tasks;
    ComputedIsPriced(db, tasks, replacements, stockCV);
  }

  lemma CollectedFromTasks(db: Db, rs: seq<Request>, tasks: seq<Task>, replacements: Plan,
                           stockCV: map<PortfolioId, map<StockId, real>>)
    requires forall p :: TasksFor(tasks, p) == Indexed(db, rs, p)
    requires Computed(db, tasks, replacements, stockCV)
    ensures replacements == PlanFor(db, rs) && stockCV == map p | p in PlanFor(db, rs) :: NewValues(PlanFor(db, rs)[p])
  {
    var plan := PlanFor(db, rs);
    var values := map p | p in plan :: NewValues(plan[p]);
    forall p
      ensures Lookup(replacements, p) == Lookup(plan, p)
      ensures Lookup(stockCV, p) == Lookup(values, p)
    {
      OnlyIndexedCount(db, rs, p);
      TouchedIff(db, rs, p);
      assert GetOr(replacements, p, []) == Replacements(db, Indexed(db, rs, p), p);
    }
    SameMap(replacements, plan);
    SameMap(stockCV, values);
  }

  lemma {:induction false} TasksAreIndexed(db: Db, rs: seq<Request>, tasks: seq<Task>)
    requires forall p :: TasksFor(tasks, p) == Indexed(db, rs, p)
    ensures forall k :: 0 <= k < |tasks| ==> Holding(tasks[k].portfolio, tasks[k].request.stock) in db.stockIndex
  {
    forall k | 0 <= k < |tasks| ensures Holding(tasks[k].portfolio, tasks[k].request.stock) in db.stockIndex {
      TaskIsFor(tasks, k);
      IndexedHoldings(db, rs, tasks[k].portfolio);
    }
  }

  lemma {:induction false} TaskIsFor(tasks: seq<Task>, k: nat)
    requires k < |tasks|
    ensures tasks[k].request in TasksFor(tasks, tasks[k].portfolio)
  {
    if k < |tasks| - 1 { TaskIsFor(tasks[..|tasks| - 1], k); }
  }

  lemma {:induction false} IndexedHoldings(db: Db, rs: seq<Request>, p: PortfolioId)
    ensures forall r :: r in Indexed(db, rs, p) ==> Holding(p, r.stock) in db.stockIndex
  {
    if rs != [] { IndexedHoldings(db, rs[..|rs| - 1], p); }
  }

  /** The plan of the batch, and the same values for the compatibility keys. */
  method CollectValues(store: Store, rs: seq<Request>) returns (r: Result<(Plan, map<PortfolioId, map<StockId, real>>)>)
    requires Undisturbed(store)
    modifies store
    ensures Undisturbed(store) && store.State() == old(store.State())
    ensures r.Err? ==> |old(store.schedule)| < 2
    ensures r.Ok? ==>
      r.value.0 == PlanFor(store.State(), rs) && r.value.1 == map p | p in r.value.0 :: NewValues(r.value.0[p])
    ensures r.Ok? ==>
      r.value.0 == map[] || (|old(store.schedule)| >= 2 && |store.schedule| == |old(store.schedule)| - 2)
  {
    ghost var db := store.State();
    var stockIDs := seq(|rs|, i requires 0 <= i < |rs| => rs[i].stock);
    var portfoliosByStock :- store.BulkFindPortfolioIDs(stockIDs);
    assert forall i :: 0 <= i < |rs| ==> stockIDs[i] == rs[i].stock;
    var tasks := BuildTasks(store.State(), rs, portfoliosByStock);
    TasksAreIndexed(db, rs, tasks);
    if tasks == [] {
      CollectedFromTasks(db, rs, tasks, map[], map[]);
      return Ok((map[], map[]));
    }
    var keys := seq(|tasks|, k requires 0 <= k < |tasks| => Holding(tasks[k].portfolio, tasks[k].request.stock));
    var holdings :- store.BulkFetchStockHoldings(keys);
    assert forall k :: 0 <= k < |tasks| ==> keys[k] == Holding(tasks[k].portfolio, tasks[k].request.stock);
    var replacements, stockCV := ComputeValues(store.State(), tasks, holdings);
    CollectedFromTasks(db, rs, tasks, replacements, stockCV);
    return Ok((replacements, stockCV));
  }

  // ---- writing the portfolios ------------------------------------------------------------------

  /** The answers of the replacement scripts. */
  ghost predicate Answers(pfs: Portfolios, plan: Plan, states: map<PortfolioId, Snapshot>) {
    states == map p | p in plan :: SnapshotOf(Replaced(Hash(pfs, p), plan[p]))
  }

  ghost function CarriedDb(db: Db, plan: Plan, calls: nat): Db {
    db.(portfolios := Carried(db.portfolios, plan, calls))
  }

  lemma ReplacedDb(db: Db, plan: Plan)
    ensures CarriedDb(db, plan, 2) == db
    ensures db.(portfolios := ReplaceAll(db.portfolios, plan)) == CarriedDb(db, plan, 3)
  {
    ReplacedStage(db.portfolios, plan);
  }

  lemma ProjectedDb(db: Db, plan: Plan, values: map<PortfolioId, map<StockId, real>>, mid: Db)
    requires mid == CarriedDb(db, plan, 3) && values == map p | p in plan :: NewValues(plan[p])
    ensures mid.(portfolios := SetLegacyValues(mid.portfolios, values)) == CarriedDb(db, plan, 4)
  {
    ProjectedStage(db.portfolios, plan, values, mid.portfolios);
  }

  lemma SavedDb(db: Db, plan: Plan, states: map<PortfolioId, Snapshot>, vals: map<PortfolioId, Totals>, mid: Db)
    requires mid == CarriedDb(db, plan, 4) && Answers(db.portfolios, plan, states)
    requires vals == map p | p in states :: states[p].totals
    ensures mid.(portfolios := SaveAllPortfolios(mid.portfolios, vals)) == CarriedDb(db, plan, 5)
  {
    SavedStage(db.portfolios, plan, vals, mid.portfolios);
  }

  method ReplaceAndProject(store: Store, plan: Plan, stockCV: map<PortfolioId, map<StockId, real>>)
      returns (r: Result<map<PortfolioId, Snapshot>>)
    requires Undisturbed(store) && stockCV == map p | p in plan :: NewValues(plan[p])
    modifies store
    ensures Undisturbed(store)
    ensures r.Ok? <==> |old(store.schedule)| >= 2
    ensures r.Ok? ==>
      |store.schedule| == |old(store.schedule)| - 2 && Answers(old(store.State()).portfolios, plan, r.value)
    ensures r.Ok? ==> store.State() == CarriedDb(old(store.State()), plan, 4)
    ensures r.Err? ==> store.State() == CarriedDb(old(store.State()), plan, 2 + |old(store.schedule)|)
  {
    ghost var db := store.State();
    ReplacedDb(db, plan);
    var replaced := store.BulkReplaceStockCurrentValues(plan);
    if replaced.Err? {
      assert 2 + |old(store.schedule)| == 2;
      return Err;
    }
    ProjectedDb(db, plan, stockCV, store.State());
    var projected := store.BulkSetStockCurrentValues(stockCV);
    if projected.Err? {
      assert 2 + |old(store.schedule)| == 3;
      return Err;
    }
    return replaced;
  }

  method SavePortfolios(store: Store, states: map<PortfolioId, Snapshot>, ghost db: Db, ghost plan: Plan)
      returns (r: Result<()>)
    requires Undisturbed(store) && store.State() == CarriedDb(db, plan, 4) && Answers(db.portfolios, plan, states)
    modifies store
    ensures Undisturbed(store)
    ensures r.Ok? <==> |old(store.schedule)| >= 1
    ensures r.Ok? ==> |store.schedule| == |old(store.schedule)| - 1 && store.State() == CarriedDb(db, plan, 5)
    ensures r.Err? ==> store.State() == CarriedDb(db, plan, 4)
  {
    var vals := map p | p in states :: states[p].totals;
    SavedDb(db, plan, states, vals, store.State());
    r := store.BulkSavePortfolioValuations(vals);
  }

  method WritePortfolios(store: Store, plan: Plan, stockCV: map<PortfolioId, map<StockId, real>>)
      returns (r: Result<map<PortfolioId, Snapshot>>)
    requires Undisturbed(store) && stockCV == map p | p in plan :: NewValues(plan[p])
    modifies store
    ensures Undisturbed(store)
    ensures r.Ok? <==> |old(store.schedule)| >= 3
    ensures r.Ok? ==>
      |store.schedule| == |old(store.schedule)| - 3 && Answers(old(store.State()).portfolios, plan, r.value)
    ensures r.Ok? ==> store.State() == CarriedDb(old(store.State()), plan, 5)
    ensures r.Err? ==> store.State() == CarriedDb(old(store.State()), plan, 2 + |old(store.schedule)|)
  {
    ghost var db := store.State();
    var states :- ReplaceAndProject(store, plan, stockCV);
    var saved := SavePortfolios(store, states, db, plan);
    if saved.Err? {
      assert 2 + |old(store.schedule)| == 4;
      return Err;
    }
    return Ok(states);
  }

  // ---- writing the users -------------------------------------------------------------------------

  lemma AnsweredOwners(pfs: Portfolios, plan: Plan, states: map<PortfolioId, Snapshot>)
    requires Answers(pfs, plan, states)
    ensures (set p | p in states && states[p].owner.Some? :: states[p].owner.value) == Owners(pfs, plan)
  {
    assert forall p :: p in states ==> states[p].owner == Hash(pfs, p).owner;
  }

  /** The sum of the fetched values over the portfolios of u. */
  method SumValues(ghost pfs: Portfolios, ghost members: set<Membership>, u: UserId, portfolios: set<PortfolioId>,
                   values: map<PortfolioId, real>)
      returns (total: real)
    requires portfolios == PortfoliosOf(members, u) && portfolios <= values.Keys
    requires forall p :: p in portfolios ==> values[p] == Hash(pfs, p).CurrentValue()
    ensures total == ReSum(pfs, members, u)
  {
    ghost var totals := MemberTotals(pfs, members, u);
    total := 0.0;
    var rest := portfolios;
    while rest != {}
      invariant rest <= portfolios
      invariant total == Sum(totals - rest).value
    {
      var p := Pick(rest);
      SumRemove(totals - (rest - {p}), p);
      assert totals - (rest - {p}) - {p} == totals - rest;
      total := total + values[p];
      rest := rest - {p};
    }
    assert totals - rest == totals;
  }

  method SumUsers(ghost pfs: Portfolios, ghost members: set<Membership>, portfolioSets: map<UserId, set<PortfolioId>>,
                  values: map<PortfolioId, real>)
      returns (totals: map<UserId, real>)
    requires forall u :: u in portfolioSets ==>
      portfolioSets[u] == PortfoliosOf(members, u) && portfolioSets[u] <= values.Keys
    requires forall p :: p in values ==> values[p] == Hash(pfs, p).CurrentValue()
    ensures totals.Keys == portfolioSets.Keys && forall u :: u in totals ==> totals[u] == ReSum(pfs, members, u)
  {
    totals := map[];
    var rest := portfolioSets.Keys;
    while rest != {}
      invariant rest <= portfolioSets.Keys && totals.Keys == portfolioSets.Keys - rest
      invariant forall u :: u in totals ==> totals[u] == ReSum(pfs, members, u)
    {
      var u := Pick(rest);
      var total := SumValues(pfs, members, u, portfolioSets[u], values);
      totals := totals[u := total];
      rest := rest - {u};
    }
  }

  lemma SummedStage(users: Users, owners: set<UserId>, pfs: Portfolios, members: set<Membership>,
                    totals: map<UserId, real>)
    requires totals.Keys == owners && forall u :: u in totals ==> totals[u] == ReSum(pfs, members, u)
    ensures SetUserValues(users, totals) == Summed(users, owners, pfs, members, 8)
  {}

  lemma UserSaved(usr: User, total: real)
    ensures UserSavedAs(UserAfter(usr, total, 8), Totals(usr.pv, total, usr.pc)) == UserAfter(usr, total, 9)
  {}

  lemma UserSavedAt(users: Users, owners: set<UserId>, pfs: Portfolios, members: set<Membership>, mid: Users, u: UserId,
                    total: real, saved: Totals)
    requires mid == Summed(users, owners, pfs, members, 8) && u in owners && total == ReSum(pfs, members, u)
    requires saved == Totals(GetOr(users, u, EMPTY_USER).pv, total, GetOr(users, u, EMPTY_USER).pc)
    ensures UserSavedAs(GetOr(mid, u, EMPTY_USER), saved) == UserAfter(GetOr(users, u, EMPTY_USER), total, 9)
  {
    SummedAt(users, owners, pfs, members, 8, u);
    UserSaved(GetOr(users, u, EMPTY_USER), total);
  }

  lemma UsersSavedStage(users: Users, owners: set<UserId>, pfs: Portfolios, members: set<Membership>, mid: Users,
                        vals: map<UserId, Totals>)
    requires mid == Summed(users, owners, pfs, members, 8) && vals.Keys == owners
    requires forall u :: u in vals ==>
      vals[u] == Totals(GetOr(users, u, EMPTY_USER).pv, ReSum(pfs, members, u), GetOr(users, u, EMPTY_USER).pc)
    ensures SaveAllUsers(mid, vals) == Summed(users, owners, pfs, members, 9)
  {
    var written := map u | u in vals :: UserSavedAs(GetOr(mid, u, EMPTY_USER), vals[u]);
    var second := map u | u in owners :: UserAfter(GetOr(users, u, EMPTY_USER), ReSum(pfs, members, u), 9);
    forall u ensures Lookup(written, u) == Lookup(second, u) {
      if u in owners { UserSavedAt(users, owners, pfs, members, mid, u, ReSum(pfs, members, u), vals[u]); }
    }
    SameMap(written, second);
    SummedKeys(users, owners, pfs, members, mid, second);
  }

  lemma SummedKeys(users: Users, owners: set<UserId>, pfs: Portfolios, members: set<Membership>, mid: Users,
                   second: Users)
    requires mid == Summed(users, owners, pfs, members, 8) && second.Keys == owners
    ensures mid + second == users + second
  {
    var first := map u | u in owners :: UserAfter(GetOr(users, u, EMPTY_USER), ReSum(pfs, members, u), 8);
    Overwritten(users, first, second);
  }

  /** Reads the owners' portfolios and sums their values. */
  method FetchTotals(store: Store, owners: set<UserId>) returns (r: Result<map<UserId, real>>)
    requires Undisturbed(store)
    modifies store
    ensures Undisturbed(store) && store.State() == old(store.State())
    ensures r.Ok? <==> |old(store.schedule)| >= 2
    ensures r.Ok? ==> |store.schedule| == |old(store.schedule)| - 2
    ensures r.Ok? ==>
      r.value.Keys == owners && forall u :: u in owners ==> r.value[u] == ReSum(store.portfolios, store.members, u)
  {
    var portfolioSets :- store.FindUserPortfolios(owners);
    var ids := set u, p | u in portfolioSets && p in portfolioSets[u] :: p;
    var values :- store.FetchCurrentValues(ids);
    var totals := SumUsers(store.portfolios, store.members, portfolioSets, values);
    return Ok(totals);
  }

  ghost function SummedDb(db: Db, owners: set<UserId>, calls: nat): Db {
    db.(users := Summed(db.users, owners, db.portfolios, db.members, calls))
  }

  lemma SummedDbs(db: Db, owners: set<UserId>, totals: map<UserId, real>)
    requires totals.Keys == owners && forall u :: u in totals ==> totals[u] == ReSum(db.portfolios, db.members, u)
    ensures SummedDb(db, owners, 7) == db
    ensures db.(users := SetUserValues(db.users, totals)) == SummedDb(db, owners, 8)
  {
    SummedStage(db.users, owners, db.portfolios, db.members, totals);
  }

  lemma SavedDbs(db: Db, owners: set<UserId>, vals: map<UserId, Totals>, mid: Db)
    requires mid == SummedDb(db, owners, 8) && vals.Keys == owners
    requires forall u :: u in vals ==>
      vals[u] == Totals(db.User(u).pv, ReSum(db.portfolios, db.members, u), db.User(u).pc)
    ensures mid.(users := SaveAllUsers(mid.users, vals)) == SummedDb(db, owners, 9)
  {
    UsersSavedStage(db.users, owners, db.portfolios, db.members, mid.users, vals);
  }

  /** Sets the sums, and saves them with the counters that came back. */
  method SetTotals(store: Store, owners: set<UserId>, totals: map<UserId, real>) returns (r: Result<()>)
    requires Undisturbed(store) && totals.Keys == owners
    requires forall u :: u in owners ==> totals[u] == ReSum(store.portfolios, store.members, u)
    modifies store
    ensures Undisturbed(store)
    ensures r.Ok? <==> |old(store.schedule)| >= 2
    ensures r.Ok? ==> store.State() == SummedDb(old(store.State()), owners, 9)
    ensures r.Err? ==> store.State() == SummedDb(old(store.State()), owners, 7 + |old(store.schedule)|)
  {
    ghost var db := store.State();
    SummedDbs(db, owners, totals);
    var meta := store.SetUserCurrentValues(totals);
    if meta.Err? {
      assert 7 + |old(store.schedule)| == 7;
      return Err;
    }
    var vals := map u | u in totals :: Totals(meta.value[u].0, totals[u], meta.value[u].1);
    SavedDbs(db, owners, vals, store.State());
    var saved := store.BulkSaveUserValuations(vals);
    if saved.Err? {
      assert 7 + |old(store.schedule)| == 8;
      return Err;
    }
    return Ok(());
  }

  lemma NotSummedYet(db: Db, owners: set<UserId>, calls: nat)
    requires calls < 8
    ensures SummedDb(db, owners, calls) == db
  {}

  method WriteUsers(store: Store, owners: set<UserId>) returns (r: Result<()>)
    requires Undisturbed(store)
    modifies store
    ensures Undisturbed(store)
    ensures r.Ok? <==> |old(store.schedule)| >= 4
    ensures r.Ok? ==> store.State() == SummedDb(old(store.State()), owners, 9)
    ensures r.Err? ==> store.State() == SummedDb(old(store.State()), owners, 5 + |old(store.schedule)|)
  {
    ghost var db, n := store.State(), |store.schedule|;
    if n < 2 { NotSummedYet(db, owners, 5 + n); }
    var totals :- FetchTotals(store, owners);
    assert 7 + |store.schedule| == 5 + n;
    r := SetTotals(store, owners, totals);
  }

  // ---- the whole batch -----------------------------------------------------------------------------

  lemma AfterPortfolios(db: Db, rs: seq<Request>, calls: nat)
    requires calls < 8
    ensures After(db, rs, calls) == CarriedDb(db, PlanFor(db, rs), calls)
  {}

  lemma NothingTouched(db: Db, rs: seq<Request>, calls: nat)
    requires PlanFor(db, rs) == map[]
    ensures After(db, rs, calls) == db
  {}

  lemma AfterUsers(db: Db, rs: seq<Request>, calls: nat, mid: Db)
    requires calls >= 5 && mid == CarriedDb(db, PlanFor(db, rs), 5)
    ensures SummedDb(mid, Owners(db.portfolios, PlanFor(db, rs)), calls) == After(db, rs, calls)
  {
    CarriedEnds(db.portfolios, PlanFor(db, rs), calls);
  }

  lemma NoOwners(db: Db, calls: nat)
    ensures SummedDb(db, {}, calls) == db
  {}

  method CarryPortfolios(store: Store, plan: Plan, stockCV: map<PortfolioId, map<StockId, real>>)
      returns (r: Result<set<UserId>>)
    requires Undisturbed(store) && stockCV == map p | p in plan :: NewValues(plan[p])
    modifies store
    ensures Undisturbed(store)
    ensures r.Ok? <==> |old(store.schedule)| >= 3
    ensures r.Ok? ==>
      |store.schedule| == |old(store.schedule)| - 3 && r.value == Owners(old(store.State()).portfolios, plan)
    ensures r.Ok? ==> store.State() == CarriedDb(old(store.State()), plan, 5)
    ensures r.Err? ==> store.State() == CarriedDb(old(store.State()), plan, 2 + |old(store.schedule)|)
  {
    ghost var pfs := store.portfolios;
    var states :- WritePortfolios(store, plan, stockCV);
    AnsweredOwners(pfs, plan, states);
    return Ok(set p | p in states && states[p].owner.Some? :: states[p].owner.value);
  }

  method CarryOut(store: Store, ghost db: Db, ghost rs: seq<Request>, plan: Plan,
                  stockCV: map<PortfolioId, map<StockId, real>>) returns (r: Result<()>)
    requires Undisturbed(store) && store.State() == db && plan == PlanFor(db, rs)
    requires stockCV == map p | p in plan :: NewValues(plan[p])
    modifies store
    ensures r.Err? ==> |old(store.schedule)| < 7
    ensures r.Ok? ==> store.State() == After(db, rs, CALLS)
    ensures r.Err? ==> store.State() == After(db, rs, 2 + |old(store.schedule)|)
  {
    ghost var n := |store.schedule|;
    if n < 6 { AfterPortfolios(db, rs, 2 + n); }
    var owners :- CarryPortfolios(store, plan, stockCV);
    ghost var mid := store.State();
    AfterUsers(db, rs, CALLS, mid);
    if owners == {} {
      NoOwners(mid, CALLS);
      return Ok(());
    }
    AfterUsers(db, rs, 2 + n, mid);
    assert 5 + |store.schedule| == 2 + n;
    r := WriteUsers(store, owners);
  }

  /** Undisturbed, a batch leaves the store as far along as its calls got; a complete one succeeds. */
  method ApplyStockPriceChanges(store: Store, rs: seq<Request>) returns (r: Result<()>)
    requires Undisturbed(store)
    modifies store
    ensures store.State() == After(old(store.State()), rs, if r.Ok? then CALLS else |old(store.schedule)|)
    ensures r.Err? ==> |old(store.schedule)| < CALLS
  {
    ghost var db, n := store.State(), |store.schedule|;
    if n < 2 { AfterPortfolios(db, rs, n); }
    var collected :- CollectValues(store, rs);
    var plan := collected.0;
    if |plan| == 0 {
      assert plan == map[];
      NothingTouched(db, rs, CALLS);
      return Ok(());
    }
    r := CarryOut(store, db, rs, plan, collected.1);
  }
}
