/** User totals over whole serial runs: trades, creations, deletions and price batches, each cut anywhere and run
    again. */
module UserAggregates {
  import opened Domain
  import opened Sums
  import opened RedisDb
  import opened TradeHandler
  import opened Ledger
  import T = TradeSystem
  import opened ExactlyOnce
  import X = ExclusiveHandlers
  import opened PriceTicks
  import L = PriceLock
  import Valuation
  import opened Revaluation
  import opened PriceBatch
  import opened UserAccounts

  // ---- creations and deletions -------------------------------------------------------------

  lemma CreateKeeps(owners: OwnerOf, ev: Trades, db: Db, p: PortfolioId, writes: nat)
    requires p in owners && WellFormed(owners, db) && DeletedMark(owners, p) !in db.marks
    ensures Keeps(owners, ev, db, CreateAfter(db, p, owners[p], writes))
  {
    if writes < 3 {
      CreateWritesKeep(owners, ev, db, p, writes);
    } else {
      var written := CreateWrites(db, p, owners[p], 2);
      CreateWritesKeep(owners, ev, db, p, 2);
      SnapshotKeeps(owners, ev, written, p);
      KeepsTwice(owners, ev, db, written, SaveUserSnapshot(written, owners[p]));
    }
  }

  lemma CreateWritesKeep(owners: OwnerOf, ev: Trades, db: Db, p: PortfolioId, writes: nat)
    requires p in owners && WellFormed(owners, db) && DeletedMark(owners, p) !in db.marks && writes < 3
    ensures Keeps(owners, ev, db, CreateWrites(db, p, owners[p], writes))
  {
    KeepsItself(owners, ev, db);
    if writes > 0 {
      if db.Portfolio(p).owner.None? {
        CreateNewKeeps(owners, ev, db, p, writes);
      } else if db.Portfolio(p).pending {
        CreatePendingKeeps(owners, ev, db, p, writes);
      }
    }
  }

  lemma CreateNewKeeps(owners: OwnerOf, ev: Trades, db: Db, p: PortfolioId, writes: nat)
    requires p in owners && WellFormed(owners, db) && DeletedMark(owners, p) !in db.marks && 0 < writes < 3
    requires db.Portfolio(p).owner.None?
    ensures Keeps(owners, ev, db, CreateNew(db, p, owners[p], writes))
  {
    var applied := CreateNew(db, p, owners[p], 1);
    NewIsCounted(owners, ev, db, p, applied);
    if writes == 2 {
      MappingKeeps(owners, ev, applied, p);
      KeepsTwice(owners, ev, db, applied, MapPortfolioToUser(applied, p, owners[p]));
    }
  }

  lemma NewIsCounted(owners: OwnerOf, ev: Trades, db: Db, p: PortfolioId, applied: Db)
    requires p in owners && WellFormed(owners, db) && DeletedMark(owners, p) !in db.marks && db.Portfolio(p).owner.None?
    requires applied == CreateNew(db, p, owners[p], 1)
    ensures Keeps(owners, ev, db, applied) && applied.Portfolio(p) == db.Portfolio(p)
    ensures CreatedMark(owners, p) in applied.marks
  {
    var d := Totals(db.Portfolio(p).pv, db.Portfolio(p).CurrentValue(), 1);
    assert PortfolioOk(owners, db, p);
    EventApplied(owners, ev, db, p, Created, d, applied);
  }

  lemma CreatePendingKeeps(owners: OwnerOf, ev: Trades, db: Db, p: PortfolioId, writes: nat)
    requires p in owners && WellFormed(owners, db) && DeletedMark(owners, p) !in db.marks && 0 < writes < 3
    requires db.Portfolio(p).owner.Some? && db.Portfolio(p).pending
    ensures Keeps(owners, ev, db, CreatePending(db, p, owners[p], writes))
  {
    var applied := CreatePending(db, p, owners[p], 1);
    EventApplied(owners, ev, db, p, Created, Totals(0, 0.0, 1), applied);
    if writes == 2 {
      ClearingKeeps(owners, ev, applied, p);
      KeepsTwice(owners, ev, db, applied, ClearPortfolioCountPending(applied, p));
    }
  }

  /** A deletion needs the creation of its portfolio to be either whole or absent. */
  predicate CreationWhole(owners: OwnerOf, db: Db, p: PortfolioId)
    requires p in owners
  {
    DeletedMark(owners, p) in db.marks || !(CreatedMark(owners, p) in db.marks && db.Portfolio(p).pending)
  }

  lemma DeleteApplied(owners: OwnerOf, ev: Trades, db: Db, p: PortfolioId, applied: Db)
    requires p in owners && WellFormed(owners, db) && CreationWhole(owners, db, p)
    requires applied == Subtracted(db, p, owners[p])
    ensures Keeps(owners, ev, db, applied)
    ensures applied.Portfolio(p).owner.Some? ==> DeletedMark(owners, p) in applied.marks
  {
    KeepsItself(owners, ev, db);
    var pf := db.Portfolio(p);
    if pf.owner.Some? {
      EventApplied(owners, ev, db, p, Deleted, Totals(-pf.pv, -pf.CurrentValue(), if pf.pending then 0 else -1),
                   applied);
    }
  }

  lemma DeleteKeeps(owners: OwnerOf, ev: Trades, db: Db, p: PortfolioId, writes: nat)
    requires p in owners && WellFormed(owners, db) && CreationWhole(owners, db, p)
    ensures Keeps(owners, ev, db, DeleteAfter(db, p, owners[p], writes))
  {
    if writes == 0 {
      KeepsItself(owners, ev, db);
    } else {
      var u := owners[p];
      var applied := Subtracted(db, p, u);
      DeleteApplied(owners, ev, db, p, applied);
      if writes > 1 {
        RestOfDeletionKeeps(owners, ev, applied, p, writes);
        KeepsTwice(owners, ev, db, applied, Cleanup(RemovePortfolioUserMapping(applied, p, u), p, u, writes));
      }
    }
  }

  lemma UncountedIsLocal(owners: OwnerOf, ev: Trades, db: Db, p: PortfolioId, applied: Db)
    requires p in owners && WellFormed(owners, db) && !CreationWhole(owners, db, p)
    requires applied == Subtracted(db, p, owners[p])
    ensures WellFormed(owners, applied) && DeletedMark(owners, p) in applied.marks
    ensures Local(owners, db, applied, p) && LocalMarks(owners, ev, db.marks, applied.marks, p, None)
    ensures UserTotals(applied.User(owners[p])).count == UserTotals(db.User(owners[p])).count
  {
    assert PortfolioOk(owners, db, p) && UserOk(db, owners[p]);
    var d := Totals(-db.Portfolio(p).pv, -db.Portfolio(p).CurrentValue(), 0);
    EventIsLocal(owners, ev, db, p, Deleted, d, applied);
    AddedTotals(db.User(owners[p]), d);
    WellFormedKept(owners, db, applied, p);
  }

  /** A deletion that finds its portfolio counted and marked as not counted yet does not take the count back. */
  lemma UncountedDeletion(owners: OwnerOf, ev: Trades, db: Db, p: PortfolioId, applied: Db)
    requires p in owners && WellFormed(owners, db) && !CreationWhole(owners, db, p)
    requires applied == Subtracted(db, p, owners[p])
    ensures WellFormed(owners, applied) && DeletedMark(owners, p) in applied.marks
    ensures Owed(owners, ev, applied, owners[p]).count == Owed(owners, ev, db, owners[p]).count - 1
  {
    var u := owners[p];
    UncountedIsLocal(owners, ev, db, p, applied);
    DuesMove(owners, ev, db, applied, p, None, u);
    OpenTradesMove(owners, ev, db.marks, applied.marks, p, None, u);
    OwedBalances(owners, ev, db, u);
    OwedBalances(owners, ev, applied, u);
    assert Due(owners, db, p).count == 1 && Due(owners, applied, p).count == 0;
  }

  /** What a deletion does after its first write keeps what users owe, once that write is there. */
  lemma RestOfDeletionKeeps(owners: OwnerOf, ev: Trades, applied: Db, p: PortfolioId, writes: nat)
    requires p in owners && WellFormed(owners, applied) && writes > 1
    requires applied.Portfolio(p).owner.Some? ==> DeletedMark(owners, p) in applied.marks
    ensures Keeps(owners, ev, applied, Cleanup(RemovePortfolioUserMapping(applied, p, owners[p]), p, owners[p], writes))
  {
    RemovingKeeps(owners, ev, applied, p);
    var removed := RemovePortfolioUserMapping(applied, p, owners[p]);
    CleanupKeeps(owners, ev, removed, p, writes);
    KeepsTwice(owners, ev, applied, removed, Cleanup(removed, p, owners[p], writes));
  }

  /** Such a deletion leaves its user one portfolio too many. */
  lemma UncountedDeletionLeavesOne(owners: OwnerOf, ev: Trades, db: Db, p: PortfolioId, writes: nat, r: Db)
    requires p in owners && WellFormed(owners, db) && !CreationWhole(owners, db, p) && writes > 0
    requires r == DeleteAfter(db, p, owners[p], writes)
    ensures WellFormed(owners, r)
    ensures Owed(owners, ev, r, owners[p]).count == Owed(owners, ev, db, owners[p]).count - 1
  {
    var applied := Subtracted(db, p, owners[p]);
    UncountedDeletion(owners, ev, db, p, applied);
    if writes > 1 { RestOfDeletionKeeps(owners, ev, applied, p, writes); }
  }

  /** A deletion keeps what users owe exactly when the creation of its portfolio is whole or absent. */
  lemma DeleteKeepsIff(owners: OwnerOf, ev: Trades, db: Db, p: PortfolioId, writes: nat)
    requires p in owners && WellFormed(owners, db) && writes > 0
    ensures Keeps(owners, ev, db, DeleteAfter(db, p, owners[p], writes)) <==> CreationWhole(owners, db, p)
  {
    if CreationWhole(owners, db, p) {
      DeleteKeeps(owners, ev, db, p, writes);
    } else {
      UncountedDeletionLeavesOne(owners, ev, db, p, writes, DeleteAfter(db, p, owners[p], writes));
    }
  }

  lemma KeepsItself(owners: OwnerOf, ev: Trades, db: Db)
    requires WellFormed(owners, db)
    ensures Keeps(owners, ev, db, db)
  {}

  lemma CleanupKeeps(owners: OwnerOf, ev: Trades, db: Db, p: PortfolioId, writes: nat)
    requires p in owners && WellFormed(owners, db)
    ensures Keeps(owners, ev, db, Cleanup(db, p, owners[p], writes))
  {
    KeepsItself(owners, ev, db);
    if writes >= 3 {
      var marked := MarkPortfolioValuationDeleted(db, p);
      MarkingDeletedKeeps(owners, ev, db, p);
      if writes >= 4 {
        var deleted := DeletePortfolioState(marked, p);
        DeletingStateKeeps(owners, ev, marked, p);
        KeepsTwice(owners, ev, db, marked, deleted);
        if writes >= 5 {
          SnapshotKeeps(owners, ev, deleted, p);
          KeepsTwice(owners, ev, db, deleted, SaveUserSnapshot(deleted, owners[p]));
        }
      }
    }
  }

  // ---- one step of a trade -------------------------------------------------------------------

  /** What a handler of t may rely on while it runs alone, before its portfolio's deletion. */
  ghost predicate TradeReady(owners: OwnerOf, ev: Trades, db: Db, id: TradeId, f: Frame) {
    && id in ev && Named(owners, ev) && WellFormed(owners, db)
    && ChainInv(ev, db.marks, db.processed) && FrameOk(ev, db.marks, db.processed, id, f) && X.ReadOk(db, ev[id], f)
      && ValueRead(db, ev[id], f)
    && DeletedMark(owners, ev[id].portfolio) !in db.marks
    && Placed(owners, db, ev[id], f)
  }

  /** The portfolio is unmapped exactly until it gets mapped; a portfolio that a trade maps before its creation has been
      counted starts at zero. */
  ghost predicate Placed(owners: OwnerOf, db: Db, t: Trade, f: Frame)
    requires t.portfolio in owners
  {
    var pf := db.Portfolio(t.portfolio);
    && (pf.owner.None? && CreatedMark(owners, t.portfolio) !in db.marks ==> pf.pv == 0 && pf.CurrentValue() == 0.0)
    && (f.MapOwner? ==> pf.owner.None?)
    && (f.ReadQuantity? || f.Cas? || f.Sync? || f.ReadLegacy? || f.WritePortfolio? ==> pf.owner.Some?)
  }

  lemma TradeMapIsLocal(owners: OwnerOf, ev: Trades, db: Db, p: PortfolioId, db': Db)
    requires p in owners && PortfolioOk(owners, db, p) && UserOk(db, owners[p])
    requires db' == MapPortfolioToUserFromTrade(db, p, owners[p])
    ensures Local(owners, db, db', p) && LocalMarks(owners, ev, db.marks, db'.marks, p, None)
    ensures PortfolioOk(owners, db', p)
    ensures db'.users == db.users && db'.marks == db.marks
    ensures db'.Portfolio(p) == db.Portfolio(p).(owner := Some(owners[p]), pending := true)
  {}

  lemma MapStepKeeps(owners: OwnerOf, ev: Trades, db: Db, id: TradeId, f: Frame, db': Db)
    requires TradeReady(owners, ev, db, id, f) && f.MapOwner? && db' == Effect(db, id, ev[id], f)
    ensures Keeps(owners, ev, db, db')
  {
    var p := ev[id].portfolio;
    assert PortfolioOk(owners, db, p) && UserOk(db, owners[p]);
    TradeMapIsLocal(owners, ev, db, p, db');
    assert Due(owners, db', p) == Due(owners, db, p);
    KeepsAll(owners, ev, db, db', p, None);
  }

  lemma TradeMovesHash(pf: Portfolio, s: StockId, totals: PortfolioTradeTotals, legacy: real)
    requires pf.cvp.Some? || pf.cv == 0
    ensures var after := ApplyTradeTotals(pf, s, totals, legacy).0;
      && after.pv == pf.pv + totals.delta.purchased && after.CurrentValue() == pf.CurrentValue() + totals.delta.value
      && after.owner == pf.owner && after.pending == pf.pending
  {}

  lemma WriteTotalsHash(db: Db, id: TradeId, t: Trade, changed: bool, legacy: real)
    requires PortfolioMark(t.portfolio, TradeEvent(id)) !in db.marks
    ensures var db' := WriteTotals(db, id, t, changed, legacy).0;
      && db'.Portfolio(t.portfolio) ==
        ApplyTradeTotals(db.Portfolio(t.portfolio), t.stock, TradeTotals(t, changed), legacy).0
      && db'.marks == db.marks[PortfolioMark(t.portfolio, TradeEvent(id)) := true]
  {}

  /** A trade's portfolio write moves the due and the open part of its portfolio and trade together. */
  lemma PortfolioWriteSettles(owners: OwnerOf, ev: Trades, db: Db, id: TradeId, changed: bool, legacy: real, db': Db)
    requires id in ev && Named(owners, ev) && PortfolioOk(owners, db, ev[id].portfolio)
    requires db.Portfolio(ev[id].portfolio).owner.Some?
    requires DeletedMark(owners, ev[id].portfolio) !in db.marks
    requires (T.UMark(ev, id) in db.marks ==> T.PMark(ev, id) in db.marks)
    requires db' == WriteTotals(db, id, ev[id], changed, legacy).0
    ensures var p := ev[id].portfolio;
      && Due(owners, db', p).purchased - Due(owners, db, p).purchased ==
        OpenTrade(ev, db'.marks, id).purchased - OpenTrade(ev, db.marks, id).purchased
      && Due(owners, db', p).value - Due(owners, db, p).value ==
        OpenTrade(ev, db'.marks, id).value - OpenTrade(ev, db.marks, id).value
      && Due(owners, db', p).count - Due(owners, db, p).count ==
        OpenTrade(ev, db'.marks, id).count - OpenTrade(ev, db.marks, id).count
  {
    var t := ev[id];
    if T.PMark(ev, id) !in db.marks {
      WriteTotalsHash(db, id, t, changed, legacy);
      TradeMovesHash(db.Portfolio(t.portfolio), t.stock, TradeTotals(t, changed), legacy);
    }
  }

  lemma PortfolioWriteIsLocal(owners: OwnerOf, ev: Trades, db: Db, id: TradeId, changed: bool, legacy: real, db': Db)
    requires id in ev && Named(owners, ev) && PortfolioOk(owners, db, ev[id].portfolio)
    requires db' == WriteTotals(db, id, ev[id], changed, legacy).0
    ensures var p := ev[id].portfolio;
      Local(owners, db, db', p) && LocalMarks(owners, ev, db.marks, db'.marks, p, Some(id))
        && PortfolioOk(owners, db', p) && db'.users == db.users
  {}

  lemma PortfolioStepKeeps(owners: OwnerOf, ev: Trades, db: Db, id: TradeId, f: Frame, db': Db)
    requires TradeReady(owners, ev, db, id, f) && f.WritePortfolio? && db' == Effect(db, id, ev[id], f)
    ensures Keeps(owners, ev, db, db')
  {
    var p := ev[id].portfolio;
    assert PortfolioOk(owners, db, p) && UserOk(db, owners[p]);
    PortfolioWriteSettles(owners, ev, db, id, f.changed, f.legacy, db');
    PortfolioWriteIsLocal(owners, ev, db, id, f.changed, f.legacy, db');
    KeepsAll(owners, ev, db, db', p, Some(id));
  }

  lemma UserWriteIsLocal(owners: OwnerOf, ev: Trades, db: Db, id: TradeId, db': Db)
    requires id in ev && Named(owners, ev) && PortfolioOk(owners, db, ev[id].portfolio) && UserOk(db, ev[id].user)
    requires db' == ApplyUserTotals(db, ev[id].user, TradeEvent(id), ev[id].UserDelta())
    ensures var p := ev[id].portfolio;
      Local(owners, db, db', p) && LocalMarks(owners, ev, db.marks, db'.marks, p, Some(id))
        && PortfolioOk(owners, db', p) && UserOk(db', owners[p])
  {}

  lemma UserWriteSettles(owners: OwnerOf, ev: Trades, db: Db, id: TradeId, db': Db)
    requires id in ev && Named(owners, ev) && UserOk(db, ev[id].user) && T.PMark(ev, id) in db.marks
    requires db' == ApplyUserTotals(db, ev[id].user, TradeEvent(id), ev[id].UserDelta())
    ensures var p := ev[id].portfolio;
      Settles(Due(owners, db, p), Due(owners, db', p), OpenTrade(ev, db.marks, id), OpenTrade(ev, db'.marks, id),
              UserTotals(db.User(owners[p])), UserTotals(db'.User(owners[p])))
  {}

  lemma UserStepKeeps(owners: OwnerOf, ev: Trades, db: Db, id: TradeId, f: Frame, db': Db)
    requires TradeReady(owners, ev, db, id, f) && f.WriteUser? && db' == Effect(db, id, ev[id], f)
    ensures Keeps(owners, ev, db, db')
  {
    var p := ev[id].portfolio;
    assert PortfolioOk(owners, db, p) && UserOk(db, owners[p]);
    UserWriteSettles(owners, ev, db, id, db');
    UserWriteIsLocal(owners, ev, db, id, db');
    KeepsAll(owners, ev, db, db', p, Some(id));
  }

  /** Nothing that counts towards u's totals moves, except that a hash may be rewritten with what it held. */
  ghost predicate Quiet(owners: OwnerOf, ev: Trades, db: Db, db': Db, p: PortfolioId)
    requires p in owners
  {
    && Local(owners, db, db', p) && LocalMarks(owners, ev, db.marks, db'.marks, p, None) && PortfolioOk(owners, db', p)
      && UserOk(db', owners[p])
    && Due(owners, db', p) == Due(owners, db, p) && UserTotals(db'.User(owners[p])) == UserTotals(db.User(owners[p]))
  }

  predicate Rewrites(f: Frame) {
    f.Project? || f.SavePortfolio? || f.SaveUser?
  }

  lemma SilentEffect(db: Db, id: TradeId, t: Trade, f: Frame, db': Db)
    requires !f.MapOwner? && !f.WritePortfolio? && !f.WriteUser? && !Rewrites(f) && db' == Effect(db, id, t, f)
    ensures db'.portfolios == db.portfolios && db'.users == db.users && db'.members == db.members
    ensures forall m: Mark :: !m.QuantityMark? ==> (m in db'.marks <==> m in db.marks)
  {}

  lemma SilentStep(owners: OwnerOf, ev: Trades, db: Db, id: TradeId, f: Frame, db': Db)
    requires id in ev && Named(owners, ev) && PortfolioOk(owners, db, ev[id].portfolio) && UserOk(db, ev[id].user)
    requires !f.MapOwner? && !f.WritePortfolio? && !f.WriteUser? && !Rewrites(f) && db' == Effect(db, id, ev[id], f)
    ensures Quiet(owners, ev, db, db', ev[id].portfolio)
  {
    SilentEffect(db, id, ev[id], f, db');
    SilentIsQuiet(owners, ev, db, db', ev[id].portfolio);
  }

  lemma SilentIsQuiet(owners: OwnerOf, ev: Trades, db: Db, db': Db, p: PortfolioId)
    requires p in owners && PortfolioOk(owners, db, p) && UserOk(db, owners[p])
    requires db'.portfolios == db.portfolios && db'.users == db.users && db'.members == db.members
    requires forall m: Mark :: !m.QuantityMark? ==> (m in db'.marks <==> m in db.marks)
    ensures Quiet(owners, ev, db, db', p)
  {}

  lemma ProjectingStep(owners: OwnerOf, ev: Trades, db: Db, id: TradeId, f: Frame, db': Db)
    requires id in ev && Named(owners, ev) && PortfolioOk(owners, db, ev[id].portfolio) && UserOk(db, ev[id].user)
    requires f.Project? && db' == Effect(db, id, ev[id], f)
    ensures Quiet(owners, ev, db, db', ev[id].portfolio)
  {
    assert db'.Portfolio(ev[id].portfolio).CurrentValue() == db.Portfolio(ev[id].portfolio).CurrentValue();
  }

  lemma SavingStep(owners: OwnerOf, ev: Trades, db: Db, id: TradeId, f: Frame, db': Db)
    requires id in ev && Named(owners, ev) && PortfolioOk(owners, db, ev[id].portfolio) && UserOk(db, ev[id].user)
    requires (f.SavePortfolio? || f.SaveUser?) && X.ReadOk(db, ev[id], f) && ValueRead(db, ev[id], f)
    requires db' == Effect(db, id, ev[id], f)
    ensures Quiet(owners, ev, db, db', ev[id].portfolio)
  {
    if f.SavePortfolio? {
      assert db'.Portfolio(ev[id].portfolio).CurrentValue() == db.Portfolio(ev[id].portfolio).CurrentValue();
    } else {
      assert db'.User(ev[id].user).CurrentValue() == db.User(ev[id].user).CurrentValue();
    }
  }

  lemma QuietKeeps(owners: OwnerOf, ev: Trades, db: Db, db': Db, p: PortfolioId)
    requires p in owners && WellFormed(owners, db) && Quiet(owners, ev, db, db', p)
    ensures Keeps(owners, ev, db, db')
  {
    KeepsAll(owners, ev, db, db', p, None);
  }

  lemma QuietStepKeeps(owners: OwnerOf, ev: Trades, db: Db, id: TradeId, f: Frame, db': Db)
    requires TradeReady(owners, ev, db, id, f) && !f.MapOwner? && !f.WritePortfolio? && !f.WriteUser?
    requires db' == Effect(db, id, ev[id], f)
    ensures Keeps(owners, ev, db, db')
  {
    assert PortfolioOk(owners, db, ev[id].portfolio) && UserOk(db, ev[id].user);
    if f.Project? {
      ProjectingStep(owners, ev, db, id, f, db');
    } else if Rewrites(f) {
      SavingStep(owners, ev, db, id, f, db');
    } else {
      SilentStep(owners, ev, db, id, f, db');
    }
    QuietKeeps(owners, ev, db, db', ev[id].portfolio);
  }

  /** The value a snapshot saves is the one the store still holds. */
  ghost predicate ValueRead(db: Db, t: Trade, f: Frame) {
    && (f.ReadCount? || f.SavePortfolio? ==> f.value == db.Portfolio(t.portfolio).CurrentValue())
    && (f.ReadUserCount? || f.SaveUser? ==> f.value == db.User(t.user).CurrentValue())
    && (f.ReadFallback? ==> db.Portfolio(t.portfolio).cvp.None?)
    && (f.ReadUserFallback? ==> db.User(t.user).cvp.None?)
  }

  lemma StepKeeps(owners: OwnerOf, ev: Trades, db: Db, id: TradeId, f: Frame, db': Db)
    requires TradeReady(owners, ev, db, id, f) && db' == Effect(db, id, ev[id], f)
    ensures Keeps(owners, ev, db, db')
  {
    if f.MapOwner? {
      MapStepKeeps(owners, ev, db, id, f, db');
    } else if f.WritePortfolio? {
      PortfolioStepKeeps(owners, ev, db, id, f, db');
    } else if f.WriteUser? {
      UserStepKeeps(owners, ev, db, id, f, db');
    } else {
      QuietStepKeeps(owners, ev, db, id, f, db');
    }
  }

  // ---- a trade handler on its own ------------------------------------------------------------

  /** What the next frame may rely on about the place of the portfolio. */
  lemma PlacedNext(owners: OwnerOf, ev: Trades, db: Db, id: TradeId, f: Frame)
    requires TradeReady(owners, ev, db, id, f)
    ensures Placed(owners, Effect(db, id, ev[id], f), ev[id], Next(db, id, ev[id], f))
  {
    StepKeepsEventMarks(db, id, ev[id], f);
    if !f.MapOwner? && !f.WritePortfolio? {
      assert PortfolioOk(owners, db, ev[id].portfolio);
      StepKeepsHash(db, id, ev[id], f);
      PlacedFollows(db, id, ev[id], f);
    }
  }

  lemma StepKeepsEventMarks(db: Db, id: TradeId, t: Trade, f: Frame)
    ensures forall m: Mark :: m.event.PortfolioEvent? ==> (m in Effect(db, id, t, f).marks <==> m in db.marks)
  {
    StepHasMarksEffect(db, id, t, f);
  }

  lemma StepKeepsHash(db: Db, id: TradeId, t: Trade, f: Frame)
    requires !f.MapOwner? && !f.WritePortfolio? && X.ReadOk(db, t, f) && ValueRead(db, t, f)
    requires db.Portfolio(t.portfolio).cvp.Some? || db.Portfolio(t.portfolio).cv == 0
    ensures var pf, pf' := db.Portfolio(t.portfolio), Effect(db, id, t, f).Portfolio(t.portfolio);
      pf'.owner == pf.owner && pf'.pv == pf.pv && pf'.CurrentValue() == pf.CurrentValue()
  {}

  lemma PlacedFollows(db: Db, id: TradeId, t: Trade, f: Frame)
    ensures Next(db, id, t, f).MapOwner? ==> f.FindOwner? && db.Portfolio(t.portfolio).owner.None?
    ensures var g := Next(db, id, t, f);
      (g.ReadQuantity? ==> f.MapOwner? || db.Portfolio(t.portfolio).owner.Some?)
      && (g.Cas? || g.Sync? || g.ReadLegacy? || g.WritePortfolio? ==>
        f.ReadQuantity? || f.Cas? || f.Sync? || f.ReadLegacy?)
  {}

  lemma ValueReadNext(db: Db, id: TradeId, t: Trade, f: Frame)
    requires ValueRead(db, t, f)
    ensures ValueRead(Effect(db, id, t, f), t, Next(db, id, t, f))
  {}

  lemma ReadyNext(owners: OwnerOf, ev: Trades, db: Db, id: TradeId, f: Frame, db': Db)
    requires TradeReady(owners, ev, db, id, f) && db' == Effect(db, id, ev[id], f)
    ensures Keeps(owners, ev, db, db') && TradeReady(owners, ev, db', id, Next(db, id, ev[id], f))
  {
    StepKeeps(owners, ev, db, id, f, db');
    StepHasMarksEffect(db, id, ev[id], f);
    ChainKept(ev, db, id, f, db');
    OwnFrameKept(ev, db, id, f);
    X.OwnReadKept(db, id, ev[id], f);
    ValueReadNext(db, id, ev[id], f);
    PlacedNext(owners, ev, db, id, f);
  }

  /** The first calls of an invocation that nobody disturbs. */
  function Alone(db: Db, id: TradeId, t: Trade, f: Frame, calls: nat): (Db, Frame)
    decreases calls
  {
    if calls == 0 || f.Done? || f.GaveUp? then (db, f)
    else Alone(Effect(db, id, t, f), id, t, Next(db, id, t, f), calls - 1)
  }

  const UNDISTURBED := Call((db: Db) => db, false)

  /** It is the run of the handler machine under a schedule of that many idle elements. */
  lemma {:induction false} AloneIsRun(db: Db, id: TradeId, t: Trade, f: Frame, calls: nat)
    ensures Alone(db, id, t, f, calls) == Run(db, id, t, f, seq(calls, _ => UNDISTURBED))
    decreases calls
  {
    var schedule := seq(calls, _ => UNDISTURBED);
    if calls > 0 && !f.Done? && !f.GaveUp? {
      AloneIsRun(Effect(db, id, t, f), id, t, Next(db, id, t, f), calls - 1);
      assert schedule[1..] == seq(calls - 1, _ => UNDISTURBED);
    }
  }

  lemma {:induction false} AloneKeeps(owners: OwnerOf, ev: Trades, db: Db, id: TradeId, f: Frame, calls: nat)
    requires TradeReady(owners, ev, db, id, f)
    ensures var (db', f') := Alone(db, id, ev[id], f, calls);
      Keeps(owners, ev, db, db') && TradeReady(owners, ev, db', id, f')
    decreases calls
  {
    KeepsItself(owners, ev, db);
    if calls > 0 && !f.Done? && !f.GaveUp? {
      var db1, f1 := Effect(db, id, ev[id], f), Next(db, id, ev[id], f);
      ReadyNext(owners, ev, db, id, f, db1);
      AloneKeeps(owners, ev, db1, id, f1, calls - 1);
      KeepsTwice(owners, ev, db, db1, Alone(db1, id, ev[id], f1, calls - 1).0);
    }
  }

  // ---- price batches ---------------------------------------------------------------------------

  /** Sums of maps with the same purchased values and counts, whatever their values. */
  lemma {:induction false} SameCounts<K>(m: map<K, Totals>, m': map<K, Totals>)
    requires m'.Keys == m.Keys && forall k :: k in m ==> m'[k].purchased == m[k].purchased && m'[k].count == m[k].count
    ensures Sum(m').purchased == Sum(m).purchased && Sum(m').count == Sum(m).count
    decreases |m|
  {
    if m != map[] {
      var k :| k in m;
      SumRemove(m, k);
      SumRemove(m', k);
      SameCounts(m - {k}, m' - {k});
    } else {
      assert m' == map[];
    }
  }

  lemma TickHash(pf: Portfolio, reps: seq<Valuation.Replacement>, calls: nat)
    requires pf.cvp.Some? || pf.cv == 0
    ensures var after := PortfolioAfter(pf, reps, calls);
      && after.pv == pf.pv && after.owner == pf.owner && after.pending == pf.pending
        && (after.cvp.Some? || after.cv == 0)
  {}

  lemma TickPortfolio(owners: OwnerOf, db: Db, rs: seq<Request>, calls: nat, p: PortfolioId)
    requires PortfolioOk(owners, db, p)
    ensures PortfolioOk(owners, After(db, rs, calls), p)
    ensures var before, after := db.Portfolio(p), After(db, rs, calls).Portfolio(p);
      after.pv == before.pv && after.owner == before.owner && after.pending == before.pending
  {
    PortfolioInAfter(db, rs, calls, p);
    TickHash(db.Portfolio(p), Replacements(db, rs, p), calls);
  }

  lemma TickUser(db: Db, rs: seq<Request>, calls: nat, u: UserId)
    requires UserOk(db, u)
    ensures var before, after := db.User(u), After(db, rs, calls).User(u);
      after.pv == before.pv && after.pc == before.pc && UserOk(After(db, rs, calls), u)
  {
    var pfs := Carried(db.portfolios, PlanFor(db, rs), calls);
    SummedAt(db.users, Owners(db.portfolios, PlanFor(db, rs)), pfs, db.members, calls, u);
  }

  lemma TickKeepsRelations(owners: OwnerOf, db: Db, rs: seq<Request>, calls: nat, db': Db)
    requires WellFormed(owners, db) && db' == After(db, rs, calls)
    ensures WellFormed(owners, db')
  {
    forall p ensures PortfolioOk(owners, db', p) {
      assert PortfolioOk(owners, db, p);
      TickPortfolio(owners, db, rs, calls, p);
    }
    forall v ensures UserOk(db', v) {
      assert UserOk(db, v);
      TickUser(db, rs, calls, v);
    }
  }

  lemma SameCountsBalance(owed: Totals, owed': Totals, due: Totals, due': Totals, open: Totals, total: Totals,
                          total': Totals)
    requires Balances(owed, due, open, total) && Balances(owed', due', open, total')
    requires due'.purchased == due.purchased && due'.count == due.count && total'.purchased == total.purchased
    requires total'.count == total.count
    ensures owed'.purchased == owed.purchased && owed'.count == owed.count
  {}

  /** A batch moves nothing but values. */
  lemma TickKeeps(owners: OwnerOf, ev: Trades, db: Db, rs: seq<Request>, calls: nat, db': Db, u: UserId)
    requires WellFormed(owners, db) && db' == After(db, rs, calls)
    ensures Owed(owners, ev, db', u).purchased == Owed(owners, ev, db, u).purchased
    ensures Owed(owners, ev, db', u).count == Owed(owners, ev, db, u).count
  {
    assert UserOk(db, u);
    TickUser(db, rs, calls, u);
    TickDues(owners, db, rs, calls, db', u);
    OwedBalances(owners, ev, db, u);
    OwedBalances(owners, ev, db', u);
    SameCountsBalance(Owed(owners, ev, db, u), Owed(owners, ev, db', u), Sum(Dues(owners, db, u)),
                      Sum(Dues(owners, db', u)),
                      Sum(OpenTrades(ev, db.marks, u)), UserTotals(db.User(u)), UserTotals(db'.User(u)));
  }

  lemma TickDues(owners: OwnerOf, db: Db, rs: seq<Request>, calls: nat, db': Db, u: UserId)
    requires WellFormed(owners, db) && db' == After(db, rs, calls)
    ensures Sum(Dues(owners, db', u)).purchased == Sum(Dues(owners, db, u)).purchased
    ensures Sum(Dues(owners, db', u)).count == Sum(Dues(owners, db, u)).count
  {
    forall p | p in owners && owners[p] == u
      ensures Due(owners, db', p).purchased == Due(owners, db, p).purchased
      ensures Due(owners, db', p).count == Due(owners, db, p).count
    {
      assert PortfolioOk(owners, db, p);
      TickPortfolio(owners, db, rs, calls, p);
    }
    SameCounts(Dues(owners, db, u), Dues(owners, db', u));
  }

  /** Once its re-sum has run, a touched owner's value is the sum over the owner's portfolios. */
  lemma ReSumSets(db: Db, rs: seq<Request>, calls: nat, db': Db, u: UserId)
    requires calls >= 8 && db' == After(db, rs, calls) && u in Owners(db.portfolios, PlanFor(db, rs))
    ensures db'.User(u).CurrentValue() == ReSum(db'.portfolios, db'.members, u)
  {
    SummedAt(db.users, Owners(db.portfolios, PlanFor(db, rs)), db'.portfolios, db.members, calls, u);
  }

  // ---- serial runs --------------------------------------------------------------------------------

  /** One invocation, with the number of calls or writes it gets through before it is cut. */
  datatype Invocation =
    | TradeCall(id: TradeId, calls: nat)
    | CreateCall(p: PortfolioId, writes: nat)
    | DeleteCall(p: PortfolioId, writes: nat)
    | TickCall(rs: seq<Request>, calls: nat)

  ghost function Invoke(owners: OwnerOf, ev: Trades, db: Db, i: Invocation): Db {
    match i
    case TradeCall(id, calls) => if id in ev then Alone(db, id, ev[id], Check, calls).0 else db
    case CreateCall(p, writes) => if p in owners then CreateAfter(db, p, owners[p], writes) else db
    case DeleteCall(p, writes) => if p in owners then DeleteAfter(db, p, owners[p], writes) else db
    case TickCall(rs, calls) => After(db, rs, calls)
  }

  ghost function InvokeAll(owners: OwnerOf, ev: Trades, db: Db, run: seq<Invocation>): Db {
    if run == [] then db else Invoke(owners, ev, InvokeAll(owners, ev, db, run[..|run| - 1]), run[|run| - 1])
  }

  /** No trade and no creation once a deletion has subtracted its portfolio, no deletion of a half-counted creation, and
      a trade that maps its portfolio finds it at zero. */
  ghost predicate Allowed(owners: OwnerOf, ev: Trades, db: Db, i: Invocation) {
    match i
    case TradeCall(id, _) => id in ev && ev[id].portfolio in owners ==>
      DeletedMark(owners, ev[id].portfolio) !in db.marks && Placed(owners, db, ev[id], Check)
    case CreateCall(p, _) => p in owners ==> DeletedMark(owners, p) !in db.marks
    case DeleteCall(p, _) => p in owners ==> CreationWhole(owners, db, p)
    case TickCall(_, _) => true
  }

  ghost predicate AllowedRun(owners: OwnerOf, ev: Trades, db: Db, run: seq<Invocation>) {
    run == []
      || (AllowedRun(owners, ev, db, run[..|run| - 1])
        && Allowed(owners, ev, InvokeAll(owners, ev, db, run[..|run| - 1]), run[|run| - 1]))
  }

  ghost predicate Sound(owners: OwnerOf, ev: Trades, db: Db) {
    Named(owners, ev) && WellFormed(owners, db) && ChainInv(ev, db.marks, db.processed)
  }

  /** The markers of trades are as before. */
  ghost predicate SameTradeMarks(db: Db, db': Db) {
    db'.processed == db.processed
    && forall m: Mark :: m.event.TradeEvent? ==> (m in db'.marks <==> m in db.marks)
  }

  lemma EventKeepsTradeMarks(db: Db, u: UserId, p: PortfolioId, kind: UserChange, d: Totals)
    ensures SameTradeMarks(db, ApplyUserTotals(db, u, PortfolioEvent(p, kind), d))
  {}

  lemma CreateNewKeepsTradeMarks(db: Db, p: PortfolioId, u: UserId, writes: nat)
    ensures SameTradeMarks(db, CreateNew(db, p, u, writes))
  {
    var pf := db.Portfolio(p);
    EventKeepsTradeMarks(db, u, p, Created, Totals(pf.pv, pf.CurrentValue(), 1));
  }

  lemma CreatePendingKeepsTradeMarks(db: Db, p: PortfolioId, u: UserId, writes: nat)
    ensures SameTradeMarks(db, CreatePending(db, p, u, writes))
  {
    EventKeepsTradeMarks(db, u, p, Created, Totals(0, 0.0, 1));
  }

  lemma CreateKeepsTradeMarks(db: Db, p: PortfolioId, u: UserId, writes: nat)
    ensures SameTradeMarks(db, CreateAfter(db, p, u, writes))
  {
    var counted := if writes < 3 then writes else 2;
    CreateNewKeepsTradeMarks(db, p, u, counted);
    CreatePendingKeepsTradeMarks(db, p, u, counted);
    var written := CreateWrites(db, p, u, counted);
    assert SameTradeMarks(db, written);
  }

  lemma CleanupKeepsMarks(db: Db, p: PortfolioId, u: UserId, writes: nat)
    ensures Cleanup(db, p, u, writes).marks == db.marks && Cleanup(db, p, u, writes).processed == db.processed
  {}

  lemma DeleteKeepsTradeMarks(db: Db, p: PortfolioId, u: UserId, writes: nat)
    ensures SameTradeMarks(db, DeleteAfter(db, p, u, writes))
  {
    var pf := db.Portfolio(p);
    EventKeepsTradeMarks(db, u, p, Deleted, Totals(-pf.pv, -pf.CurrentValue(), if pf.pending then 0 else -1));
    CleanupKeepsMarks(RemovePortfolioUserMapping(Subtracted(db, p, u), p, u), p, u, writes);
  }

  lemma ChainFollowsMarks(ev: Trades, db: Db, db': Db)
    requires ChainInv(ev, db.marks, db.processed) && SameTradeMarks(db, db')
    ensures ChainInv(ev, db'.marks, db'.processed)
  {
    forall id | id in ev
      ensures && (id in db'.processed ==> T.UMark(ev, id) in db'.marks)
              && (T.UMark(ev, id) in db'.marks ==> T.PMark(ev, id) in db'.marks)
              && (T.PMark(ev, id) in db'.marks ==> T.QMark(ev, id) in db'.marks)
    {
      assert T.UMark(ev, id).event.TradeEvent? && T.PMark(ev, id).event.TradeEvent?
        && T.QMark(ev, id).event.TradeEvent?;
    }
  }

  lemma InvocationKeeps(owners: OwnerOf, ev: Trades, db: Db, i: Invocation)
    requires Sound(owners, ev, db) && Allowed(owners, ev, db, i) && !i.TickCall?
    ensures Keeps(owners, ev, db, Invoke(owners, ev, db, i)) && Sound(owners, ev, Invoke(owners, ev, db, i))
  {
    KeepsItself(owners, ev, db);
    match i
    case TradeCall(id, calls) =>
      if id in ev { AloneKeeps(owners, ev, db, id, Check, calls); }
    case CreateCall(p, writes) =>
      if p in owners {
        CreateKeeps(owners, ev, db, p, writes);
        CreateKeepsTradeMarks(db, p, owners[p], writes);
        ChainFollowsMarks(ev, db, CreateAfter(db, p, owners[p], writes));
      }
    case DeleteCall(p, writes) =>
      if p in owners {
        DeleteKeeps(owners, ev, db, p, writes);
        DeleteKeepsTradeMarks(db, p, owners[p], writes);
        ChainFollowsMarks(ev, db, DeleteAfter(db, p, owners[p], writes));
      }
  }

  lemma InvocationKeepsCounts(owners: OwnerOf, ev: Trades, db: Db, i: Invocation, u: UserId)
    requires Sound(owners, ev, db) && Allowed(owners, ev, db, i)
    ensures var db' := Invoke(owners, ev, db, i);
      && Sound(owners, ev, db')
      && Owed(owners, ev, db', u).purchased == Owed(owners, ev, db, u).purchased
        && Owed(owners, ev, db', u).count == Owed(owners, ev, db, u).count
  {
    if i.TickCall? {
      TickKeepsRelations(owners, db, i.rs, i.calls, Invoke(owners, ev, db, i));
      TickKeeps(owners, ev, db, i.rs, i.calls, Invoke(owners, ev, db, i), u);
    } else {
      InvocationKeeps(owners, ev, db, i);
    }
  }

  lemma {:induction false} RunKeepsCounts(owners: OwnerOf, ev: Trades, db: Db, run: seq<Invocation>, u: UserId)
    requires Sound(owners, ev, db) && AllowedRun(owners, ev, db, run)
    ensures var r := InvokeAll(owners, ev, db, run);
      && Sound(owners, ev, r)
      && Owed(owners, ev, r, u).purchased == Owed(owners, ev, db, u).purchased
        && Owed(owners, ev, r, u).count == Owed(owners, ev, db, u).count
  {
    if run != [] {
      RunKeepsCounts(owners, ev, db, run[..|run| - 1], u);
      InvocationKeepsCounts(owners, ev, InvokeAll(owners, ev, db, run[..|run| - 1]), run[|run| - 1], u);
    }
  }

  // ---- finished users --------------------------------------------------------------------------

  /** No handler of u's events is half done: deletions have removed the mapping, creations have mapped and counted their
      portfolio, and trades that reached their portfolio reached their user. */
  ghost predicate Finished(owners: OwnerOf, ev: Trades, db: Db, u: UserId) {
    && (forall p :: p in owners && owners[p] == u ==>
          var pf := db.Portfolio(p);
          if DeletedMark(owners, p) in db.marks then pf.owner.None?
          else CreatedMark(owners, p) in db.marks ==> pf.owner.Some? && !pf.pending)
    && (forall id :: id in ev && ev[id].user == u && T.PMark(ev, id) in db.marks ==> T.UMark(ev, id) in db.marks)
  }

  /** Entries at zero do not count. */
  lemma {:induction false} SumOfPart<K>(m: map<K, Totals>, part: map<K, Totals>)
    requires part.Keys <= m.Keys && forall k :: k in m ==> m[k] == GetOr(part, k, ZERO)
    ensures Sum(m) == Sum(part)
    decreases |m|
  {
    if m == map[] {
      assert part == map[];
    } else {
      var k :| k in m;
      SumRemove(m, k);
      SumDrop(part, k);
      SumOfPart(m - {k}, part - {k});
    }
  }

  lemma FinishedDues(owners: OwnerOf, ev: Trades, db: Db, u: UserId)
    requires Sound(owners, ev, db) && Finished(owners, ev, db, u)
    ensures Sum(Dues(owners, db, u)) == Sum(MemberTotals(db.portfolios, db.members, u))
    ensures Sum(OpenTrades(ev, db.marks, u)) == ZERO
  {
    var dues, members := Dues(owners, db, u), MemberTotals(db.portfolios, db.members, u);
    forall p
      ensures p in PortfoliosOf(db.members, u) <==> Membership(u, p) in db.members
      ensures p in members ==> p in dues
      ensures p in dues ==> dues[p] == GetOr(members, p, ZERO)
    {
      assert PortfolioOk(owners, db, p);
      if Membership(u, p) in db.members { assert Membership(u, p).portfolio == p; }
    }
    SumOfPart(dues, members);
    SumOfPart(OpenTrades(ev, db.marks, u), map[]);
  }

  /** What a finished user's totals lack is exactly what they owe. */
  lemma FinishedOwes(owners: OwnerOf, ev: Trades, db: Db, u: UserId)
    requires Sound(owners, ev, db) && Finished(owners, ev, db, u)
    ensures Balances(Owed(owners, ev, db, u), Sum(MemberTotals(db.portfolios, db.members, u)), ZERO,
                     UserTotals(db.User(u)))
  {
    OwedBalances(owners, ev, db, u);
    FinishedDues(owners, ev, db, u);
  }

  /** After any serial run of trades, creations, deletions and price batches, cut and repeated in any way, a finished
      user has the purchased values of the portfolios mapped to the user and their number, and the owner fields and
      user:<u>:portfolios are inverse. */
  lemma PurchasesAndCountsAddUp(owners: OwnerOf, ev: Trades, db: Db, run: seq<Invocation>, r: Db, u: UserId)
    requires Sound(owners, ev, db) && AllowedRun(owners, ev, db, run) && r == InvokeAll(owners, ev, db, run)
    requires Owed(owners, ev, db, u) == ZERO && Finished(owners, ev, r, u)
    ensures r.User(u).pv == Sum(MemberTotals(r.portfolios, r.members, u)).purchased
    ensures r.User(u).pc == Sum(MemberTotals(r.portfolios, r.members, u)).count
    ensures forall p, v :: Membership(v, p) in r.members <==> r.Portfolio(p).owner == Some(v)
  {
    RunKeepsCounts(owners, ev, db, run, u);
    FinishedOwes(owners, ev, r, u);
    forall p, v
      ensures Membership(v, p) in r.members <==> r.Portfolio(p).owner == Some(v) { assert PortfolioOk(owners, r, p); }
  }

  /** The value of u's events that were half done, as a re-sum found it: what had been counted for u's portfolios, less
      what was still to come, against what the portfolios held. */
  ghost function HalfDone(owners: OwnerOf, ev: Trades, db: Db, u: UserId): real {
    Gap(Sum(Dues(owners, db, u)), Sum(OpenTrades(ev, db.marks, u)), Sum(MemberTotals(db.portfolios, db.members, u)))
  }

  function Gap(dues: Totals, open: Totals, members: Totals): real {
    dues.value - open.value - members.value
  }

  /** What the portfolios of u stand above u's value once everything is finished: events settle themselves, a batch that
      re-sums u leaves what it found half done, and one that does not (it was cut first, or its portfolios are unmapped)
      leaves what it moved. */
  ghost function Debt(owners: OwnerOf, ev: Trades, db: Db, run: seq<Invocation>, u: UserId): real {
    if run == [] then Owed(owners, ev, db, u).value
    else
      var before, i := InvokeAll(owners, ev, db, run[..|run| - 1]), run[|run| - 1];
      var debt := Debt(owners, ev, db, run[..|run| - 1], u);
      if !i.TickCall? then debt
      else DebtAfterTick(owners, ev, before, i.rs, i.calls, After(before, i.rs, i.calls), u, debt)
  }

  ghost function DebtAfterTick(owners: OwnerOf, ev: Trades, db: Db, rs: seq<Request>, calls: nat, db': Db, u: UserId,
                               debt: real): real {
    if ReSums(db, rs, calls, u) then HalfDone(owners, ev, db', u)
    else debt + Sum(Dues(owners, db', u)).value - Sum(Dues(owners, db, u)).value
  }

  /** The batch gets as far as setting u's value. */
  predicate ReSums(db: Db, rs: seq<Request>, calls: nat, u: UserId) {
    calls >= 8 && u in Owners(db.portfolios, PlanFor(db, rs))
  }

  lemma UserWithoutReSum(db: Db, rs: seq<Request>, calls: nat, db': Db, u: UserId)
    requires db' == After(db, rs, calls) && !ReSums(db, rs, calls, u)
    ensures db'.User(u).CurrentValue() == db.User(u).CurrentValue() && db'.marks == db.marks
  {
    SummedAt(db.users, Owners(db.portfolios, PlanFor(db, rs)), Carried(db.portfolios, PlanFor(db, rs), calls),
             db.members, calls, u);
  }

  lemma ReSummedOwes(owed: Totals, dues: Totals, open: Totals, total: Totals, members: Totals)
    requires Balances(owed, dues, open, total) && total.value == members.value
    ensures owed.value == Gap(dues, open, members)
  {}

  lemma ReSumOwes(owners: OwnerOf, ev: Trades, db: Db, u: UserId)
    requires db.User(u).CurrentValue() == ReSum(db.portfolios, db.members, u)
    ensures Owed(owners, ev, db, u).value == HalfDone(owners, ev, db, u)
  {
    OwedBalances(owners, ev, db, u);
    ReSummedOwes(Owed(owners, ev, db, u), Sum(Dues(owners, db, u)), Sum(OpenTrades(ev, db.marks, u)),
                 UserTotals(db.User(u)),
                 Sum(MemberTotals(db.portfolios, db.members, u)));
  }

  lemma DuesOwe(owners: OwnerOf, ev: Trades, db: Db, db': Db, u: UserId)
    requires db'.User(u).CurrentValue() == db.User(u).CurrentValue() && db'.marks == db.marks
    ensures Owed(owners, ev, db', u).value - Owed(owners, ev, db, u).value ==
      Sum(Dues(owners, db', u)).value - Sum(Dues(owners, db, u)).value
  {
    OwedBalances(owners, ev, db, u);
    OwedBalances(owners, ev, db', u);
  }

  lemma TickMovesDebt(owners: OwnerOf, ev: Trades, db: Db, rs: seq<Request>, calls: nat, db': Db, u: UserId)
    requires db' == After(db, rs, calls)
    ensures Owed(owners, ev, db', u).value ==
      DebtAfterTick(owners, ev, db, rs, calls, db', u, Owed(owners, ev, db, u).value)
  {
    if ReSums(db, rs, calls, u) {
      ReSumSets(db, rs, calls, db', u);
      ReSumOwes(owners, ev, db', u);
    } else {
      UserWithoutReSum(db, rs, calls, db', u);
      DuesOwe(owners, ev, db, db', u);
    }
  }

  lemma {:induction false} OwedIsDebt(owners: OwnerOf, ev: Trades, db: Db, run: seq<Invocation>, u: UserId)
    requires Sound(owners, ev, db) && AllowedRun(owners, ev, db, run)
    ensures Owed(owners, ev, InvokeAll(owners, ev, db, run), u).value == Debt(owners, ev, db, run, u)
  {
    if run != [] {
      var rest, i := run[..|run| - 1], run[|run| - 1];
      var before := InvokeAll(owners, ev, db, rest);
      OwedIsDebt(owners, ev, db, rest, u);
      RunKeepsCounts(owners, ev, db, rest, u);
      if i.TickCall? {
        TickMovesDebt(owners, ev, before, i.rs, i.calls, After(before, i.rs, i.calls), u);
      } else {
        InvocationKeeps(owners, ev, before, i);
      }
    }
  }

  /** After any serial run, cut and repeated in any way, a finished user's value is the sum of the user's portfolios
      less the debt of the run: it is right exactly when the run leaves no debt. */
  lemma ValueIsOffByDebt(owners: OwnerOf, ev: Trades, db: Db, run: seq<Invocation>, r: Db, u: UserId)
    requires Sound(owners, ev, db) && AllowedRun(owners, ev, db, run) && r == InvokeAll(owners, ev, db, run)
    requires Finished(owners, ev, r, u)
    ensures ReSum(r.portfolios, r.members, u) - r.User(u).CurrentValue() == Debt(owners, ev, db, run, u)
    ensures r.User(u).CurrentValue() == ReSum(r.portfolios, r.members, u) <==> Debt(owners, ev, db, run, u) == 0.0
  {
    OwedIsDebt(owners, ev, db, run, u);
    RunKeepsCounts(owners, ev, db, run, u);
    FinishedOwes(owners, ev, r, u);
  }

  lemma SoundAfterTick(owners: OwnerOf, ev: Trades, db: Db, rs: seq<Request>, calls: nat, mid: Db)
    requires Sound(owners, ev, db) && mid == After(db, rs, calls)
    ensures Sound(owners, ev, mid)
  {
    TickKeepsRelations(owners, db, rs, calls, mid);
  }

  lemma OffByHalfDone(owners: OwnerOf, ev: Trades, mid: Db, r: Db, u: UserId)
    requires Sound(owners, ev, mid) && Sound(owners, ev, r) && Finished(owners, ev, r, u)
    requires Owed(owners, ev, r, u) == Owed(owners, ev, mid, u)
    requires mid.User(u).CurrentValue() == ReSum(mid.portfolios, mid.members, u)
    ensures ReSum(r.portfolios, r.members, u) - r.User(u).CurrentValue() == HalfDone(owners, ev, mid, u)
    ensures Finished(owners, ev, mid, u) ==> HalfDone(owners, ev, mid, u) == 0.0
  {
    OwedBalances(owners, ev, mid, u);
    FinishedOwes(owners, ev, r, u);
    OffByGap(Owed(owners, ev, mid, u), Sum(Dues(owners, mid, u)), Sum(OpenTrades(ev, mid.marks, u)),
             UserTotals(mid.User(u)), Sum(MemberTotals(mid.portfolios, mid.members, u)),
             Sum(MemberTotals(r.portfolios, r.members, u)), UserTotals(r.User(u)));
    if Finished(owners, ev, mid, u) { NothingHalfDone(owners, ev, mid, u); }
  }

  lemma NothingHalfDone(owners: OwnerOf, ev: Trades, db: Db, u: UserId)
    requires Sound(owners, ev, db) && Finished(owners, ev, db, u)
    ensures HalfDone(owners, ev, db, u) == 0.0
  {
    FinishedDues(owners, ev, db, u);
  }

  lemma OffByGap(owed: Totals, dues: Totals, open: Totals, total: Totals, members: Totals, members': Totals,
                 total': Totals)
    requires Balances(owed, dues, open, total) && Balances(owed, members', ZERO, total') && total.value == members.value
    ensures members'.value - total'.value == Gap(dues, open, members)
  {}
}
