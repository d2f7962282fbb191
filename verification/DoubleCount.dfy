/** An undisturbed trade handler finishes; what happens when a price batch re-sums a user between the two writes of a
    trade, and when a batch is cut before its re-sum. */
module DoubleCount {
  import opened Domain
  import opened Sums
  import opened RedisDb
  import opened TradeHandler
  import opened Ledger
  import T = TradeSystem
  import opened ExactlyOnce
  import X = ExclusiveHandlers
  import opened PriceTicks
  import Valuation
  import opened Revaluation
  import opened PriceBatch
  import opened UserAccounts
  import opened UserAggregates

  const HANDLER_CALLS := 21

  /** Calls that a handler at f still makes when nobody disturbs it, at most. */
  function CallsLeft(f: Frame): nat {
    match f
    case Check => HANDLER_CALLS
    case FindOwner => 20
    case MapOwner => 19
    case ReadQuantity => 18
    case Cas(_, _) => 17
    case Sync(_, _) => 16
    case ReadLegacy(_) => 15
    case WritePortfolio(_, _) => 14
    case Project(_) => 13
    case WriteUser => 12
    case MarkProcessed => 11
    case ReadPurchased => 10
    case ReadValue(_) => 9
    case ReadFallback(_) => 8
    case ReadCount(_, _) => 7
    case SavePortfolio(_, _, _) => 6
    case ReadUserPurchased => 5
    case ReadUserValue(_) => 4
    case ReadUserFallback(_) => 3
    case ReadUserCount(_, _) => 2
    case SaveUser(_, _, _) => 1
    case Done => 0
    case GaveUp => 0
  }

  /** The quantity the handler compares with is the one it has just read. */
  predicate Current(db: Db, t: Trade, f: Frame) {
    (f.Cas? ==> f.current == Lookup(db.quantity, t.Key())) && !f.GaveUp?
  }

  lemma {:induction false} UndisturbedHandlerFinishes(db: Db, id: TradeId, t: Trade, f: Frame, calls: nat)
    requires Current(db, t, f) && CallsLeft(f) <= calls
    ensures Alone(db, id, t, f, calls).1.Done?
    decreases calls
  {
    if calls > 0 && !f.Done? {
      UndisturbedStep(db, id, t, f);
      UndisturbedHandlerFinishes(Effect(db, id, t, f), id, t, Next(db, id, t, f), calls - 1);
    }
  }

  lemma UndisturbedStep(db: Db, id: TradeId, t: Trade, f: Frame)
    requires Current(db, t, f) && !f.Done?
    ensures Current(Effect(db, id, t, f), t, Next(db, id, t, f)) && CallsLeft(Next(db, id, t, f)) < CallsLeft(f)
  {}

  /** Who owns what, and what has been counted of it. */
  ghost predicate SameOwnership(owners: OwnerOf, db: Db, db': Db) {
    forall q :: q in owners ==>
      && db'.Portfolio(q).owner == db.Portfolio(q).owner && db'.Portfolio(q).pending == db.Portfolio(q).pending
      && (CreatedMark(owners, q) in db'.marks <==> CreatedMark(owners, q) in db.marks)
      && (DeletedMark(owners, q) in db'.marks <==> DeletedMark(owners, q) in db.marks)
  }

  lemma StepKeepsOwners(db: Db, id: TradeId, t: Trade, f: Frame, q: PortfolioId)
    requires !f.MapOwner?
    ensures var db' := Effect(db, id, t, f);
      db'.Portfolio(q).owner == db.Portfolio(q).owner && db'.Portfolio(q).pending == db.Portfolio(q).pending
  {}

  lemma StepKeepsOwnership(owners: OwnerOf, db: Db, id: TradeId, t: Trade, f: Frame, db': Db)
    requires !f.MapOwner? && db' == Effect(db, id, t, f)
    ensures SameOwnership(owners, db, db')
  {
    StepHasMarksEffect(db, id, t, f);
    forall q
      ensures db'.Portfolio(q).owner == db.Portfolio(q).owner && db'.Portfolio(q).pending == db.Portfolio(q).pending
    {
      StepKeepsOwners(db, id, t, f, q);
    }
  }

  lemma MappedTradeStaysMapped(db: Db, id: TradeId, t: Trade, f: Frame)
    requires db.Portfolio(t.portfolio).owner.Some? && !f.MapOwner?
    ensures Effect(db, id, t, f).Portfolio(t.portfolio).owner.Some? && !Next(db, id, t, f).MapOwner?
  {
    StepKeepsOwners(db, id, t, f, t.portfolio);
    PlacedFollows(db, id, t, f);
  }

  lemma OwnershipKeptTwice(owners: OwnerOf, db: Db, mid: Db, db': Db)
    requires SameOwnership(owners, db, mid) && SameOwnership(owners, mid, db')
    ensures SameOwnership(owners, db, db')
  {}

  lemma {:induction false} MappedTradeKeepsOwnership(owners: OwnerOf, db: Db, id: TradeId, t: Trade, f: Frame,
                                                     calls: nat)
    requires t.portfolio in owners && db.Portfolio(t.portfolio).owner.Some? && !f.MapOwner?
    ensures SameOwnership(owners, db, Alone(db, id, t, f, calls).0)
    decreases calls
  {
    if calls > 0 && !f.Done? && !f.GaveUp? {
      var mid, g := Effect(db, id, t, f), Next(db, id, t, f);
      StepKeepsOwnership(owners, db, id, t, f, mid);
      MappedTradeStaysMapped(db, id, t, f);
      MappedTradeKeepsOwnership(owners, mid, id, t, g, calls - 1);
      OwnershipKeptTwice(owners, db, mid, Alone(mid, id, t, g, calls - 1).0);
    }
  }

  /** The handler leaves the markers of other trades alone. */
  lemma {:induction false} OtherTradesKept(ev: Trades, db: Db, id: TradeId, f: Frame, calls: nat)
    requires id in ev
    ensures forall j :: j in ev && j != id ==>
      var db' := Alone(db, id, ev[id], f, calls).0;
      (T.PMark(ev, j) in db'.marks <==> T.PMark(ev, j) in db.marks)
        && (T.UMark(ev, j) in db'.marks <==> T.UMark(ev, j) in db.marks)
    decreases calls
  {
    if calls > 0 && !f.Done? && !f.GaveUp? {
      StepHasMarksEffect(db, id, ev[id], f);
      OtherTradesKept(ev, Effect(db, id, ev[id], f), id, Next(db, id, ev[id], f), calls - 1);
    }
  }

  /** u is finished but for the trade id, which has reached its portfolio only. */
  ghost predicate OnlyOpen(owners: OwnerOf, ev: Trades, db: Db, id: TradeId, u: UserId) {
    && id in ev && ev[id].user == u && T.PMark(ev, id) in db.marks && T.UMark(ev, id) !in db.marks
    && ev[id].portfolio in owners && db.Portfolio(ev[id].portfolio).owner.Some?
      && DeletedMark(owners, ev[id].portfolio) !in db.marks
    && Finished(owners, ev, db.(marks := db.marks[T.UMark(ev, id) := true]), u)
  }

  lemma ClosedIsSound(owners: OwnerOf, ev: Trades, db: Db, id: TradeId, closed: Db)
    requires Sound(owners, ev, db) && id in ev && T.PMark(ev, id) in db.marks
    requires closed == db.(marks := db.marks[T.UMark(ev, id) := true])
    ensures Sound(owners, ev, closed)
  {
    forall p ensures PortfolioOk(owners, closed, p) { assert PortfolioOk(owners, db, p); }
    forall v ensures UserOk(closed, v) { assert UserOk(db, v); }
  }

  lemma ClosingMoves(owners: OwnerOf, ev: Trades, db: Db, id: TradeId, closed: Db, u: UserId)
    requires id in ev && ev[id].user == u && T.PMark(ev, id) in db.marks && T.UMark(ev, id) !in db.marks
    requires closed == db.(marks := db.marks[T.UMark(ev, id) := true])
    ensures PartMoves(Sum(OpenTrades(ev, db.marks, u)), Sum(OpenTrades(ev, closed.marks, u)), ev[id].UserDelta(), ZERO)
    ensures Dues(owners, closed, u) == Dues(owners, db, u)
  {
    SumMovesAt(OpenTrades(ev, db.marks, u), OpenTrades(ev, closed.marks, u), id);
  }

  lemma OpenIsOneTrade(owners: OwnerOf, ev: Trades, db: Db, id: TradeId, u: UserId)
    requires Sound(owners, ev, db) && OnlyOpen(owners, ev, db, id, u)
    ensures HalfDone(owners, ev, db, u) == -ev[id].SignedAmount()
  {
    var closed := db.(marks := db.marks[T.UMark(ev, id) := true]);
    ClosedIsSound(owners, ev, db, id, closed);
    FinishedDues(owners, ev, closed, u);
    ClosingMoves(owners, ev, db, id, closed, u);
    GapOfOne(Sum(Dues(owners, db, u)), Sum(OpenTrades(ev, db.marks, u)), Sum(OpenTrades(ev, closed.marks, u)),
             ev[id].UserDelta());
  }

  lemma GapOfOne(dues: Totals, open: Totals, closed: Totals, d: Totals)
    requires PartMoves(open, closed, d, ZERO) && closed == ZERO
    ensures Gap(dues, open, dues) == -d.value
  {}

  /** A trade is cut after its portfolio write, a complete price batch re-sums its user, and the trade is run again to
      its end: the user's value ends above the sum of the portfolios by the amount of the trade (below it, for a sell),
      although every handler is finished. */
  lemma ReSumBetweenTheWritesCountsTwice(owners: OwnerOf, ev: Trades, db: Db, rs: seq<Request>, mid: Db, id: TradeId,
                                         r: Db, u: UserId)
    requires Sound(owners, ev, db) && mid == After(db, rs, CALLS) && u in Owners(db.portfolios, PlanFor(db, rs))
    requires OnlyOpen(owners, ev, mid, id, u) && r == Alone(mid, id, ev[id], Check, HANDLER_CALLS).0
    ensures Finished(owners, ev, r, u)
    ensures r.User(u).CurrentValue() == ReSum(r.portfolios, r.members, u) + ev[id].SignedAmount()
  {
    SoundAfterTick(owners, ev, db, rs, CALLS, mid);
    ReSumSets(db, rs, CALLS, mid, u);
    OffByTheTrade(owners, ev, mid, id, r, u);
  }

  lemma OffByTheTrade(owners: OwnerOf, ev: Trades, mid: Db, id: TradeId, r: Db, u: UserId)
    requires Sound(owners, ev, mid) && OnlyOpen(owners, ev, mid, id, u)
    requires r == Alone(mid, id, ev[id], Check, HANDLER_CALLS).0
    requires mid.User(u).CurrentValue() == ReSum(mid.portfolios, mid.members, u)
    ensures Finished(owners, ev, r, u)
    ensures r.User(u).CurrentValue() == ReSum(r.portfolios, r.members, u) + ev[id].SignedAmount()
  {
    AfterTheTrade(owners, ev, mid, id, r, u);
    AloneKeeps(owners, ev, mid, id, Check, HANDLER_CALLS);
    OffByHalfDone(owners, ev, mid, r, u);
    OpenIsOneTrade(owners, ev, mid, id, u);
  }

  lemma AfterTheTrade(owners: OwnerOf, ev: Trades, mid: Db, id: TradeId, r: Db, u: UserId)
    requires Sound(owners, ev, mid) && OnlyOpen(owners, ev, mid, id, u)
    requires r == Alone(mid, id, ev[id], Check, HANDLER_CALLS).0
    ensures Finished(owners, ev, r, u)
  {
    AloneKeeps(owners, ev, mid, id, Check, HANDLER_CALLS);
    UndisturbedHandlerFinishes(mid, id, ev[id], Check, HANDLER_CALLS);
    MappedTradeKeepsOwnership(owners, mid, id, ev[id], Check, HANDLER_CALLS);
    OtherTradesKept(ev, mid, id, Check, HANDLER_CALLS);
    var closed := mid.(marks := mid.marks[T.UMark(ev, id) := true]);
    forall j | j in ev && ev[j].user == u && T.PMark(ev, j) in r.marks ensures T.UMark(ev, j) in r.marks {
      if j != id { assert T.PMark(ev, j) in closed.marks; }
    }
    forall p | p in owners && owners[p] == u
      ensures if DeletedMark(owners, p) in r.marks then r.Portfolio(p).owner.None?
              else CreatedMark(owners, p) in r.marks ==> r.Portfolio(p).owner.Some? && !r.Portfolio(p).pending
    {
      assert DeletedMark(owners, p) in closed.marks <==> DeletedMark(owners, p) in mid.marks;
      assert CreatedMark(owners, p) in closed.marks <==> CreatedMark(owners, p) in mid.marks;
      assert closed.Portfolio(p) == mid.Portfolio(p);
    }
  }

  // ---- a concrete store ------------------------------------------------------------------------

  const ONE := Holding(1, 1)

  /** User 1 has bought one share of stock 1 for 10 in portfolio 1, as trade 7. */
  const EVENTS := map[7 := Trade(1, 1, 1, Buy, 10, 1.0)]

  const OWNERS: OwnerOf := map[1 := 1]

  /** Trade 7 has reached quantity, indexes and portfolio, and was cut before its user write. */
  const CUT := Db(
    map[ONE := 1.0], {ONE}, {ONE},
    map[1 := Portfolio(10, Some(10.0), 0, 1, false, Some(1), false, map[1 := 10.0], map[], map[1 := 10.0])],
    map[], {Membership(1, 1)},
    map[QuantityMark(ONE, TradeEvent(7)) := true, PortfolioMark(1, TradeEvent(7)) := true], {})

  /** A tick of stock 1 at an unchanged price. */
  const TICK := [Request(1, 10, 0, 5)]

  lemma CutIsSound()
    ensures Sound(OWNERS, EVENTS, CUT) && 1 in Owners(CUT.portfolios, PlanFor(CUT, TICK))
  {
    forall p ensures PortfolioOk(OWNERS, CUT, p) {}
    forall u ensures UserOk(CUT, u) {}
    assert TICK[..0] == [];
    assert Valued(CUT, Holding(1, 1));
    assert Replacements(CUT, TICK, 1) == [NewValue(CUT, 1, TICK[0])];
    TouchedIff(CUT, TICK, 1);
    assert 1 in PlanFor(CUT, TICK) && Hash(CUT.portfolios, 1).owner == Some(1);
  }

  lemma TickedIsOpen(mid: Db)
    requires mid.marks == CUT.marks
    requires forall p ::
      mid.Portfolio(p).owner == CUT.Portfolio(p).owner && mid.Portfolio(p).pending == CUT.Portfolio(p).pending
    ensures OnlyOpen(OWNERS, EVENTS, mid, 7, 1)
  {}

  lemma TickOnCut(mid: Db)
    requires mid == After(CUT, TICK, CALLS)
    ensures mid.marks == CUT.marks
    ensures forall p ::
      mid.Portfolio(p).owner == CUT.Portfolio(p).owner && mid.Portfolio(p).pending == CUT.Portfolio(p).pending
  {
    CutIsSound();
    forall p
      ensures mid.Portfolio(p).owner == CUT.Portfolio(p).owner && mid.Portfolio(p).pending == CUT.Portfolio(p).pending
    {
      assert PortfolioOk(OWNERS, CUT, p);
      TickPortfolio(OWNERS, CUT, TICK, CALLS, p);
    }
  }

  /** One cut, one tick, one repetition: the user ends 10 above the only portfolio. */
  lemma OneTickBetweenTheWrites(mid: Db, r: Db)
    requires mid == After(CUT, TICK, CALLS) && r == Alone(mid, 7, EVENTS[7], Check, HANDLER_CALLS).0
    ensures Finished(OWNERS, EVENTS, r, 1)
    ensures r.User(1).CurrentValue() == ReSum(r.portfolios, r.members, 1) + 10.0
  {
    CutIsSound();
    TickOnCut(mid);
    TickedIsOpen(mid);
    ReSumBetweenTheWritesCountsTwice(OWNERS, EVENTS, CUT, TICK, mid, 7, r, 1);
    assert EVENTS[7].SignedAmount() == 10.0;
  }

  // ---- a batch that is given up before its re-sum --------------------------------------------------

  /** The same purchase with everything finished: portfolio 1 and user 1 stand at 10. */
  const SETTLED := Db(
    map[ONE := 1.0], {ONE}, {ONE},
    map[1 := Portfolio(10, Some(10.0), 10, 1, false, Some(1), false, map[1 := 10.0], map[], map[1 := 10.0])],
    map[1 := User(10, Some(10.0), 10, 1)], {Membership(1, 1)},
    map[UserMark(1, PortfolioEvent(1, Created)) := true], {})

  /** Stock 1 rises to 20. */
  const RISE := [Request(1, 20, 0, 5)]

  lemma SettledIsSound()
    ensures Sound(OWNERS, map[], SETTLED)
  {
    forall p ensures PortfolioOk(OWNERS, SETTLED, p) {}
    forall u ensures UserOk(SETTLED, u) {}
  }

  lemma SettledPortfolio()
    ensures SETTLED.Portfolio(1) ==
      Portfolio(10, Some(10.0), 10, 1, false, Some(1), false, map[1 := 10.0], map[], map[1 := 10.0])
    ensures UserTotals(SETTLED.User(1)) == Totals(10, 10.0, 1)
    ensures CreatedMark(OWNERS, 1) in SETTLED.marks && DeletedMark(OWNERS, 1) !in SETTLED.marks
  {}

  lemma FinishedWhenMapped(db: Db)
    requires CreatedMark(OWNERS, 1) in db.marks && DeletedMark(OWNERS, 1) !in db.marks
    requires db.Portfolio(1).owner.Some? && !db.Portfolio(1).pending
    ensures Finished(OWNERS, map[], db, 1)
  {}

  lemma NothingOwed(owed: Totals, members: Totals, total: Totals)
    requires Balances(owed, members, ZERO, total) && members == total
    ensures owed == ZERO
  {}

  lemma SettledOwesNothing()
    ensures Finished(OWNERS, map[], SETTLED, 1) && Owed(OWNERS, map[], SETTLED, 1) == ZERO
  {
    SettledIsSound();
    SettledPortfolio();
    FinishedWhenMapped(SETTLED);
    OnlyPortfolioOne(SETTLED);
    FinishedOwes(OWNERS, map[], SETTLED, 1);
    NothingOwed(Owed(OWNERS, map[], SETTLED, 1), Sum(MemberTotals(SETTLED.portfolios, SETTLED.members, 1)),
                UserTotals(SETTLED.User(1)));
  }

  lemma OnlyPortfolioOne(db: Db)
    requires db.members == {Membership(1, 1)} && !db.Portfolio(1).pending
    ensures Sum(MemberTotals(db.portfolios, db.members, 1)) ==
      Totals(db.Portfolio(1).pv, db.Portfolio(1).CurrentValue(), 1)
  {
    var one := MemberTotals(db.portfolios, db.members, 1);
    assert Membership(1, 1).portfolio in PortfoliosOf(db.members, 1);
    assert one.Keys == {1};
    SumRemove(one, 1);
    assert one - {1} == map[];
  }

  lemma RisesOne(calls: nat, r: Db)
    requires 3 <= calls < 8 && r == After(SETTLED, RISE, calls)
    ensures r.Portfolio(1).CurrentValue() == 20.0 && !r.Portfolio(1).pending && r.members == SETTLED.members
  {
    assert RISE[..0] == [];
    assert Valued(SETTLED, Holding(1, 1));
    var rep := NewValue(SETTLED, 1, RISE[0]);
    assert rep.previous == 10.0 && rep.value == 20.0;
    assert Replacements(SETTLED, RISE, 1) == [rep];
    assert [rep][..0] == [];
    PortfolioInAfter(SETTLED, RISE, calls, 1);
    assert Valuation.Replaced(SETTLED.Portfolio(1), [rep]).cvp == Some(20.0);
  }

  /** The batch has replaced the stock value and is then given up: the portfolio stands at 20 and its user at 10, with
      every handler finished. */
  lemma GivenUpBatchLeavesDebt(calls: nat, r: Db)
    requires 3 <= calls < 8 && r == InvokeAll(OWNERS, map[], SETTLED, [TickCall(RISE, calls)])
    ensures Owed(OWNERS, map[], SETTLED, 1) == ZERO && Finished(OWNERS, map[], r, 1)
    ensures ReSum(r.portfolios, r.members, 1) == 20.0 && r.User(1).CurrentValue() == 10.0
    ensures Debt(OWNERS, map[], SETTLED, [TickCall(RISE, calls)], 1) == 10.0
  {
    var run := [TickCall(RISE, calls)];
    assert run[..0] == [];
    assert r == After(SETTLED, RISE, calls);
    SettledIsSound();
    SettledOwesNothing();
    CutTick(calls, r);
    assert AllowedRun(OWNERS, map[], SETTLED, run);
    ValueIsOffByDebt(OWNERS, map[], SETTLED, run, r, 1);
  }

  lemma CutTick(calls: nat, r: Db)
    requires 3 <= calls < 8 && r == After(SETTLED, RISE, calls)
    ensures Finished(OWNERS, map[], r, 1)
    ensures ReSum(r.portfolios, r.members, 1) == 20.0 && r.User(1).CurrentValue() == 10.0
  {
    RisesOne(calls, r);
    OnlyPortfolioOne(r);
    UserWithoutReSum(SETTLED, RISE, calls, r, 1);
    SettledPortfolio();
    SettledIsSound();
    TickPortfolio(OWNERS, SETTLED, RISE, calls, 1);
    FinishedWhenMapped(r);
  }
}
