/** A mapping that is cut between its two commands, by a trade or by a creation: the hash names an owner whose set does
    not hold the portfolio. Every later handler finds the owner and leaves the set alone; only a deletion ends it. */
module TornMapping {
  import opened Domain
  import opened RedisDb
  import opened TradeHandler
  import opened Ledger
  import T = TradeSystem
  import opened LostReads
  import opened PriceTicks
  import opened Valuation
  import opened PriceBatch
  import opened Revaluation
  import opened UserAccounts
  import opened UserAggregates
  import opened DoubleCount

  /** Owned, and in nobody's set. */
  ghost predicate HalfMapped(db: Db, p: PortfolioId) {
    db.Portfolio(p).owner.Some? && forall u :: Membership(u, p) !in db.members
  }

  // ---- how it comes about --------------------------------------------------------------------

  /** A trade handler that is torn at its mapping. */
  lemma TearingHalfMaps(ev: Trades, s: T.System, w: T.Worker, id: TradeId, r: T.System)
    requires w in s.jobs && s.jobs[w] == T.Job(id, MapOwner) && id in ev && r == T.Apply(ev, s, T.Tear(w))
    requires forall u :: Membership(u, ev[id].portfolio) !in s.db.members
    ensures HalfMapped(r.db, ev[id].portfolio)
  {}

  /** Started for a trade of a portfolio nobody owns, stepped twice, and torn. */
  function TornRun(w: T.Worker, id: TradeId): seq<T.Action> {
    [T.Start(w, id)] + [T.Advance(w)] + [T.Advance(w)] + [T.Tear(w)]
  }

  lemma UpToTheMapping(ev: Trades, s: T.System, w: T.Worker, id: TradeId, r: T.System)
    requires w !in s.jobs && id in ev && id !in s.db.processed && s.db.Portfolio(ev[id].portfolio).owner.None?
    requires r == T.Exec(ev, s, [T.Start(w, id)] + [T.Advance(w)] + [T.Advance(w)])
    ensures r.db == s.db && w in r.jobs && r.jobs[w] == T.Job(id, MapOwner)
  {
    ExecSnoc(ev, s, [], T.Start(w, id));
    assert [] + [T.Start(w, id)] == [T.Start(w, id)];
    ExecSnoc(ev, s, [T.Start(w, id)], T.Advance(w));
    ExecSnoc(ev, s, [T.Start(w, id)] + [T.Advance(w)], T.Advance(w));
  }

  /** From any store in which the portfolio has no owner and is in no set. */
  lemma TornRunHalfMaps(ev: Trades, s: T.System, w: T.Worker, id: TradeId, r: T.System)
    requires w !in s.jobs && id in ev && id !in s.db.processed && s.db.Portfolio(ev[id].portfolio).owner.None?
    requires forall u :: Membership(u, ev[id].portfolio) !in s.db.members
    requires r == T.Exec(ev, s, TornRun(w, id))
    ensures HalfMapped(r.db, ev[id].portfolio)
  {
    var before := [T.Start(w, id)] + [T.Advance(w)] + [T.Advance(w)];
    UpToTheMapping(ev, s, w, id, T.Exec(ev, s, before));
    ExecSnoc(ev, s, before, T.Tear(w));
    TearingHalfMaps(ev, T.Exec(ev, s, before), w, id, r);
  }

  /** From the empty store. */
  lemma OneTornTrade(r: T.System)
    requires r == T.Exec(EVENTS, START, TornRun(1, 7))
    ensures T.Initial(EVENTS, START) && HalfMapped(r.db, 1)
  {
    PurchaseOfTen();
    assert START.db.Portfolio(1) == EMPTY_PORTFOLIO;
    TornRunHalfMaps(EVENTS, START, 1, 7, r);
  }

  /** The mapping of a creation, torn: the totals have been applied, the owner is set, and the set is as before. */
  function TornCreation(db: Db, p: PortfolioId, u: UserId): Db {
    var applied := CreateNew(db, p, u, 1);
    applied.WithPortfolio(p, applied.Portfolio(p).(owner := Some(u)))
  }

  /** The creation is then taken for whole: run again, however far, it writes nothing but the user's snapshot. */
  lemma TornCreationHalfMaps(db: Db, p: PortfolioId, u: UserId, writes: nat)
    requires db.Portfolio(p).owner.None? && !db.Portfolio(p).pending && forall v :: Membership(v, p) !in db.members
    ensures HalfMapped(TornCreation(db, p, u), p)
    ensures CreateWrites(TornCreation(db, p, u), p, u, writes) == TornCreation(db, p, u)
  {}

  // ---- and how it ends -----------------------------------------------------------------------

  /** Some deletion has removed the mapping. */
  predicate Unmaps(owners: OwnerOf, i: Invocation, p: PortfolioId) {
    i.DeleteCall? && i.p == p && p in owners && i.writes >= 2
  }

  lemma StepLeavesHalfMapped(db: Db, id: TradeId, t: Trade, f: Frame, p: PortfolioId)
    requires HalfMapped(db, p) ==> (t.portfolio == p ==> !f.MapOwner?)
    ensures HalfMapped(Effect(db, id, t, f), p) <==> HalfMapped(db, p)
    ensures HalfMapped(db, p) ==> (t.portfolio == p ==> !Next(db, id, t, f).MapOwner?)
  {
    if !f.MapOwner? {
      StepKeepsOwners(db, id, t, f, p);
      StepKeepsMembers(db, id, t, f);
    } else {
      MappingIsWhole(db, t, p);
    }
    if t.portfolio == p { PlacedFollows(db, id, t, f); }
  }

  lemma MappingIsWhole(db: Db, t: Trade, p: PortfolioId)
    requires HalfMapped(db, p) ==> t.portfolio != p
    ensures HalfMapped(MapPortfolioToUserFromTrade(db, t.portfolio, t.user), p) <==> HalfMapped(db, p)
  {
    var after := MapPortfolioToUserFromTrade(db, t.portfolio, t.user);
    if t.portfolio == p {
      assert Membership(t.user, p) in after.members;
    } else {
      assert forall u :: Membership(u, p) in after.members <==> Membership(u, p) in db.members;
    }
  }

  lemma StepKeepsMembers(db: Db, id: TradeId, t: Trade, f: Frame)
    requires !f.MapOwner?
    ensures Effect(db, id, t, f).members == db.members
  {}

  lemma {:induction false} TradeLeavesHalfMapped(db: Db, id: TradeId, t: Trade, f: Frame, calls: nat, p: PortfolioId)
    requires HalfMapped(db, p) ==> (t.portfolio == p ==> !f.MapOwner?)
    ensures HalfMapped(Alone(db, id, t, f, calls).0, p) <==> HalfMapped(db, p)
    decreases calls
  {
    if calls > 0 && !f.Done? && !f.GaveUp? {
      StepLeavesHalfMapped(db, id, t, f, p);
      TradeLeavesHalfMapped(Effect(db, id, t, f), id, t, Next(db, id, t, f), calls - 1, p);
    }
  }

  lemma CreateLeavesHalfMapped(db: Db, q: PortfolioId, u: UserId, writes: nat, p: PortfolioId)
    ensures HalfMapped(CreateAfter(db, q, u, writes), p) <==> HalfMapped(db, p)
  {
    var counted := if writes < 3 then writes else 2;
    var written := CreateWrites(db, q, u, counted);
    CreateWritesLeaveHalfMapped(db, q, u, counted, p, written);
    assert SaveUserSnapshot(written, u).members == written.members
      && SaveUserSnapshot(written, u).portfolios == written.portfolios;
  }

  lemma EventLeavesMapping(db: Db, u: UserId, e: Event, d: Totals)
    ensures ApplyUserTotals(db, u, e, d).portfolios == db.portfolios
    ensures ApplyUserTotals(db, u, e, d).members == db.members
  {}

  lemma CreateNewLeavesHalfMapped(db: Db, q: PortfolioId, u: UserId, writes: nat, p: PortfolioId)
    requires db.Portfolio(q).owner.None?
    ensures HalfMapped(CreateNew(db, q, u, writes), p) <==> HalfMapped(db, p)
  {
    var pf, written := db.Portfolio(q), CreateNew(db, q, u, writes);
    EventLeavesMapping(db, u, PortfolioEvent(q, Created), Totals(pf.pv, pf.CurrentValue(), 1));
    if q == p {
      assert writes != 1 ==> Membership(u, p) in written.members;
    } else {
      assert forall v :: Membership(v, p) in written.members <==> Membership(v, p) in db.members;
    }
  }

  lemma CreatePendingLeavesHalfMapped(db: Db, q: PortfolioId, u: UserId, writes: nat, p: PortfolioId)
    ensures HalfMapped(CreatePending(db, q, u, writes), p) <==> HalfMapped(db, p)
  {
    EventLeavesMapping(db, u, PortfolioEvent(q, Created), Totals(0, 0.0, 1));
  }

  lemma CreateWritesLeaveHalfMapped(db: Db, q: PortfolioId, u: UserId, writes: nat, p: PortfolioId, written: Db)
    requires written == CreateWrites(db, q, u, writes)
    ensures HalfMapped(written, p) <==> HalfMapped(db, p)
  {
    if db.Portfolio(q).owner.None? {
      CreateNewLeavesHalfMapped(db, q, u, writes, p);
    } else {
      CreatePendingLeavesHalfMapped(db, q, u, writes, p);
    }
  }

  lemma DeletingStateLeavesMapping(db: Db, q: PortfolioId, p: PortfolioId)
    ensures DeletePortfolioState(db, q).Portfolio(p).owner == db.Portfolio(p).owner
    ensures DeletePortfolioState(db, q).members == db.members
  {}

  lemma CleanupLeavesMapping(db: Db, q: PortfolioId, u: UserId, writes: nat, p: PortfolioId)
    ensures var after := Cleanup(db, q, u, writes);
      after.Portfolio(p).owner == db.Portfolio(p).owner && after.members == db.members
  {
    var marked := if writes >= 3 then MarkPortfolioValuationDeleted(db, q) else db;
    assert marked.Portfolio(p).owner == db.Portfolio(p).owner && marked.members == db.members;
    DeletingStateLeavesMapping(marked, q, p);
  }

  lemma SubtractingLeavesMapping(db: Db, q: PortfolioId, u: UserId)
    ensures Subtracted(db, q, u).portfolios == db.portfolios && Subtracted(db, q, u).members == db.members
  {}

  lemma DeleteLeavesHalfMapped(db: Db, q: PortfolioId, u: UserId, writes: nat, p: PortfolioId)
    ensures HalfMapped(DeleteAfter(db, q, u, writes), p) <==> HalfMapped(db, p) && !(q == p && writes >= 2)
  {
    SubtractingLeavesMapping(db, q, u);
    var removed := RemovePortfolioUserMapping(Subtracted(db, q, u), q, u);
    CleanupLeavesMapping(removed, q, u, writes, p);
    if q == p {
      assert removed.Portfolio(p).owner.None?;
    } else {
      assert forall v :: Membership(v, p) in removed.members <==> Membership(v, p) in db.members;
    }
  }

  /** The removal can be torn as well, after the owner field. A deletion run again finishes it. */
  lemma TornRemovalIsRepaired(db: Db, p: PortfolioId, u: UserId, writes: nat)
    requires writes >= 2
    ensures Membership(u, p) !in DeleteAfter(db, p, u, writes).members
    ensures DeleteAfter(db, p, u, writes).Portfolio(p).owner.None?
  {
    var removed := RemovePortfolioUserMapping(Subtracted(db, p, u), p, u);
    CleanupLeavesMapping(removed, p, u, writes, p);
  }

  lemma TickLeavesHalfMapped(db: Db, rs: seq<Request>, calls: nat, p: PortfolioId)
    ensures HalfMapped(After(db, rs, calls), p) <==> HalfMapped(db, p)
  {
    PortfolioInAfter(db, rs, calls, p);
    OwnerAfter(db.Portfolio(p), Replacements(db, rs, p), calls);
  }

  lemma OwnerAfter(pf: Portfolio, reps: seq<Replacement>, calls: nat)
    ensures PortfolioAfter(pf, reps, calls).owner == pf.owner
  {}

  lemma InvocationLeavesHalfMapped(owners: OwnerOf, ev: Trades, db: Db, i: Invocation, p: PortfolioId)
    ensures HalfMapped(Invoke(owners, ev, db, i), p) <==> HalfMapped(db, p) && !Unmaps(owners, i, p)
  {
    match i
    case TradeCall(id, calls) => if id in ev { TradeLeavesHalfMapped(db, id, ev[id], Check, calls, p); }
    case CreateCall(q, writes) => if q in owners { CreateLeavesHalfMapped(db, q, owners[q], writes, p); }
    case DeleteCall(q, writes) => if q in owners { DeleteLeavesHalfMapped(db, q, owners[q], writes, p); }
    case TickCall(rs, calls) => TickLeavesHalfMapped(db, rs, calls, p);
  }

  /** Over any run of trades, creations, deletions and price batches, cut anywhere: the portfolio is half mapped in the
      end exactly when it was in the beginning and no deletion has removed its mapping since. */
  lemma {:induction false} HalfMappedIff(owners: OwnerOf, ev: Trades, db: Db, run: seq<Invocation>, r: Db,
                                         p: PortfolioId)
    requires r == InvokeAll(owners, ev, db, run)
    ensures HalfMapped(r, p) <==> HalfMapped(db, p) && forall k :: 0 <= k < |run| ==> !Unmaps(owners, run[k], p)
  {
    if run != [] {
      var rest, i := run[..|run| - 1], run[|run| - 1];
      var before := InvokeAll(owners, ev, db, rest);
      HalfMappedIff(owners, ev, db, rest, before, p);
      InvocationLeavesHalfMapped(owners, ev, before, i, p);
      assert run == rest + [i];
    }
  }

  /** Until then the portfolio is out of its owner's set, and so out of every re-sum of the owner's value. */
  lemma TornMappingIsNeverRepaired(owners: OwnerOf, ev: Trades, db: Db, run: seq<Invocation>, r: Db, p: PortfolioId)
    requires HalfMapped(db, p) && forall k :: 0 <= k < |run| ==> !Unmaps(owners, run[k], p)
    requires r == InvokeAll(owners, ev, db, run)
    ensures HalfMapped(r, p) && forall u :: p !in MemberTotals(r.portfolios, r.members, u)
  {
    HalfMappedIff(owners, ev, db, run, r, p);
    NotAMember(r, p);
  }

  lemma NotAMember(db: Db, p: PortfolioId)
    requires HalfMapped(db, p)
    ensures forall u :: p !in MemberTotals(db.portfolios, db.members, u)
  {
    forall m | m in db.members ensures m.portfolio != p { assert m == Membership(m.user, m.portfolio); }
    assert forall u :: p !in PortfoliosOf(db.members, u);
  }
}
