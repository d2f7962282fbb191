/** A trade handler that gets no answer about the owner maps the portfolio again and marks its count as pending. Where
    the portfolio has been counted, its deletion then does not take the count back. */
module LostOwners {
  import opened Domain
  import opened Sums
  import opened RedisDb
  import opened TradeHandler
  import opened Ledger
  import T = TradeSystem
  import opened ExactlyOnce
  import opened Revaluation
  import opened UserAccounts
  import opened UserAggregates
  import opened DoubleCount

  const UNANSWERED := Call(UNDISTURBED.others, true)

  /** The handler up to its mapping: the check is answered, the question for the owner is not. */
  const BLIND_MAPPING := [UNDISTURBED, UNANSWERED, UNDISTURBED]

  lemma MapsAgain(db: Db, id: TradeId, t: Trade)
    requires id !in db.processed
    ensures Run(db, id, t, Check, BLIND_MAPPING) == (MapPortfolioToUserFromTrade(db, t.portfolio, t.user), ReadQuantity)
  {
    var rest, last := BLIND_MAPPING[1..], BLIND_MAPPING[2..];
    assert rest == [UNANSWERED, UNDISTURBED] && rest[1..] == last == [UNDISTURBED];
    assert Run(db, id, t, MapOwner, last) == (Effect(db, id, t, MapOwner), ReadQuantity);
    assert Run(db, id, t, FindOwner, rest) == Run(db, id, t, MapOwner, last);
  }

  /** Mapping a counted portfolio again keeps what users owe, but no longer lets its creation look whole. */
  lemma MappingAgainKeeps(owners: OwnerOf, ev: Trades, db: Db, p: PortfolioId, mapped: Db)
    requires p in owners && WellFormed(owners, db) && CreatedMark(owners, p) in db.marks
    requires mapped == MapPortfolioToUserFromTrade(db, p, owners[p])
    ensures Keeps(owners, ev, db, mapped) && mapped.Portfolio(p).owner.Some? && mapped.marks == db.marks
    ensures mapped.processed == db.processed
    ensures CreationWhole(owners, mapped, p) <==> DeletedMark(owners, p) in db.marks
  {
    assert PortfolioOk(owners, db, p) && UserOk(db, owners[p]);
    TradeMapIsLocal(owners, ev, db, p, mapped);
    assert Due(owners, mapped, p) == Due(owners, db, p);
    KeepsAll(owners, ev, db, mapped, p, None);
  }

  /** The handler goes on undisturbed. */
  lemma GoingOnKeeps(owners: OwnerOf, ev: Trades, mapped: Db, id: TradeId, calls: nat, mid: Db)
    requires Sound(owners, ev, mapped) && id in ev && mid == Alone(mapped, id, ev[id], ReadQuantity, calls).0
    requires mapped.Portfolio(ev[id].portfolio).owner.Some? && DeletedMark(owners, ev[id].portfolio) !in mapped.marks
    ensures Keeps(owners, ev, mapped, mid)
    ensures CreationWhole(owners, mid, ev[id].portfolio) <==> CreationWhole(owners, mapped, ev[id].portfolio)
  {
    AloneKeeps(owners, ev, mapped, id, ReadQuantity, calls);
    MappedTradeKeepsOwnership(owners, mapped, id, ev[id], ReadQuantity, calls);
  }

  /** For any counted portfolio: after a trade that missed the owner's answer, however far it got, the deletion leaves
      the user one portfolio too many. With the answer it would have left none. */
  lemma LostOwnerMiscounts(owners: OwnerOf, ev: Trades, db: Db, id: TradeId, calls: nat, mid: Db, writes: nat, r: Db)
    requires Sound(owners, ev, db) && id in ev && id !in db.processed && writes > 0
    requires CreatedMark(owners, ev[id].portfolio) in db.marks && DeletedMark(owners, ev[id].portfolio) !in db.marks
    requires var (mapped, f) := Run(db, id, ev[id], Check, BLIND_MAPPING); mid == Alone(mapped, id, ev[id], f, calls).0
    requires r == DeleteAfter(mid, ev[id].portfolio, ev[id].user, writes)
    ensures Owed(owners, ev, r, ev[id].user).count == Owed(owners, ev, db, ev[id].user).count - 1
  {
    var p, u := ev[id].portfolio, ev[id].user;
    MapsAgain(db, id, ev[id]);
    var mapped := MapPortfolioToUserFromTrade(db, p, u);
    MappingAgainKeeps(owners, ev, db, p, mapped);
    GoingOnKeeps(owners, ev, mapped, id, calls, mid);
    KeepsTwice(owners, ev, db, mapped, mid);
    UncountedDeletionLeavesOne(owners, ev, mid, p, writes, r);
  }

  // ---- one run ---------------------------------------------------------------------------------

  lemma SettledMapsAgain(mapped: Db)
    requires mapped == MapPortfolioToUserFromTrade(SETTLED, 1, 1)
    ensures mapped.Portfolio(1).owner == Some(1) && mapped.Portfolio(1).pending && mapped.members == {Membership(1, 1)}
    ensures mapped.User(1) == User(10, Some(10.0), 10, 1) && DeletedMark(OWNERS, 1) !in mapped.marks
  {}

  /** The user owned one portfolio, which is then deleted: the count stays at one. */
  lemma DeletedAndStillCounted(mapped: Db, r: Db)
    requires mapped == Run(SETTLED, 7, EVENTS[7], Check, BLIND_MAPPING).0 && r == DeleteAfter(mapped, 1, 1, 5)
    ensures r.Portfolio(1).owner == None && r.members == {} && r.User(1).pc == 1
  {
    MapsAgain(SETTLED, 7, EVENTS[7]);
    SettledMapsAgain(mapped);
    WholeDeletion(mapped, r);
  }

  lemma WholeDeletion(mapped: Db, r: Db)
    requires mapped.Portfolio(1).owner == Some(1) && mapped.Portfolio(1).pending && mapped.members == {Membership(1, 1)}
    requires UserMark(1, PortfolioEvent(1, Deleted)) !in mapped.marks && r == DeleteAfter(mapped, 1, 1, 5)
    ensures r.Portfolio(1).owner == None && r.members == {} && r.User(1).pc == mapped.User(1).pc
  {
    var applied := Subtracted(mapped, 1, 1);
    assert applied.User(1).pc == mapped.User(1).pc && applied.members == mapped.members;
    var removed := RemovePortfolioUserMapping(applied, 1, 1);
    assert removed.Portfolio(1).owner == None && removed.members == {};
  }
}
