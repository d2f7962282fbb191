/** What a user's totals owe to the portfolios behind them. */
module UserAccounts {
  import opened Domain
  import opened Sums
  import opened RedisDb
  import opened TradeHandler
  import opened Ledger
  import T = TradeSystem
  import opened Revaluation

  /** The one user that every event of a portfolio names. */
  type OwnerOf = map<PortfolioId, UserId>

  function CreatedMark(owners: OwnerOf, p: PortfolioId): Mark
    requires p in owners
  {
    UserMark(owners[p], PortfolioEvent(p, Created))
  }

  function DeletedMark(owners: OwnerOf, p: PortfolioId): Mark
    requires p in owners
  {
    UserMark(owners[p], PortfolioEvent(p, Deleted))
  }

  /** What a portfolio has brought to its user's totals so far: nothing before it is created or mapped and nothing once
      its deletion has been subtracted. It counts as one once its creation has been counted. */
  function DueOf(pf: Portfolio, created: bool, deleted: bool): Totals {
    if deleted || (pf.owner.None? && !created) then ZERO
    else Totals(pf.pv, pf.CurrentValue(), if created || !pf.pending then 1 else 0)
  }

  function Due(owners: OwnerOf, db: Db, p: PortfolioId): Totals
    requires p in owners
  {
    DueOf(db.Portfolio(p), CreatedMark(owners, p) in db.marks, DeletedMark(owners, p) in db.marks)
  }

  function Dues(owners: OwnerOf, db: Db, u: UserId): map<PortfolioId, Totals> {
    map p | p in owners && owners[p] == u :: Due(owners, db, p)
  }

  /** A trade that has reached its portfolio but not its user. */
  function OpenTrade(ev: Trades, marks: map<Mark, bool>, id: TradeId): Totals
    requires id in ev
  {
    if T.PMark(ev, id) in marks && T.UMark(ev, id) !in marks then ev[id].UserDelta() else ZERO
  }

  function OpenTrades(ev: Trades, marks: map<Mark, bool>, u: UserId): map<TradeId, Totals> {
    map id | id in ev && ev[id].user == u :: OpenTrade(ev, marks, id)
  }

  function UserTotals(usr: User): Totals {
    Totals(usr.pv, usr.CurrentValue(), usr.pc)
  }

  /** The part of what u's portfolios have brought that u's totals lack. */
  ghost function Owed(owners: OwnerOf, ev: Trades, db: Db, u: UserId): Totals {
    Difference(Sum(Dues(owners, db, u)), Sum(OpenTrades(ev, db.marks, u)), UserTotals(db.User(u)))
  }

  function Difference(due: Totals, open: Totals, total: Totals): Totals {
    due.Minus(open).Minus(total)
  }

  /** Every event of a portfolio names its user. */
  ghost predicate Named(owners: OwnerOf, ev: Trades) {
    forall id :: id in ev ==> ev[id].portfolio in owners && owners[ev[id].portfolio] == ev[id].user
  }

  /** The hash and user:<u>:portfolios agree on who owns the portfolio, it is the user its events name, and a total that
      is still missing stands for zero. */
  ghost predicate PortfolioOk(owners: OwnerOf, db: Db, p: PortfolioId) {
    var pf := db.Portfolio(p);
    && (pf.cvp.Some? || pf.cv == 0)
    && (pf.owner.Some? ==> p in owners && pf.owner.value == owners[p])
    && (pf.pending ==> pf.owner.Some?)
    && (forall u :: Membership(u, p) in db.members <==> pf.owner == Some(u))
  }

  ghost predicate UserOk(db: Db, u: UserId) {
    db.User(u).cvp.Some? || db.User(u).cv == 0
  }

  ghost predicate WellFormed(owners: OwnerOf, db: Db) {
    (forall p :: PortfolioOk(owners, db, p)) && (forall u :: UserOk(db, u))
  }

  /** Only p's hash and membership and the hash of its user change. */
  ghost predicate Local(owners: OwnerOf, db: Db, db': Db, p: PortfolioId)
    requires p in owners
  {
    && (forall q :: q != p ==> db'.Portfolio(q) == db.Portfolio(q))
    && (forall v :: v != owners[p] ==> db'.User(v) == db.User(v))
    && (forall u, q :: q != p ==> (Membership(u, q) in db'.members <==> Membership(u, q) in db.members))
  }

  lemma WellFormedKept(owners: OwnerOf, db: Db, db': Db, p: PortfolioId)
    requires p in owners && WellFormed(owners, db) && Local(owners, db, db', p)
    requires PortfolioOk(owners, db', p) && UserOk(db', owners[p])
    ensures WellFormed(owners, db')
  {
    forall q ensures PortfolioOk(owners, db', q) {
      if q != p { assert PortfolioOk(owners, db, q); }
    }
    forall v ensures UserOk(db', v) {
      if v != owners[p] { assert UserOk(db, v); }
    }
  }

  // ---- moving one entry ----------------------------------------------------------------------

  lemma MovesAt<K, V>(m: map<K, V>, m': map<K, V>, k: K)
    requires m'.Keys == m.Keys && forall x :: x in m && x != k ==> m'[x] == m[x]
    ensures m' == if k in m then m[k := m'[k]] else m
  {}

  /** The sum moves from before to after when one of its parts moves from part to part'. */
  ghost predicate PartMoves(before: Totals, after: Totals, part: Totals, part': Totals) {
    && after.purchased - before.purchased == part'.purchased - part.purchased
    && after.value - before.value == part'.value - part.value
    && after.count - before.count == part'.count - part.count
  }

  lemma SumMovesAt<K>(m: map<K, Totals>, m': map<K, Totals>, k: K)
    requires k in m && m'.Keys == m.Keys && forall x :: x in m && x != k ==> m'[x] == m[x]
    ensures PartMoves(Sum(m), Sum(m'), m[k], m'[k])
  {
    MovesAt(m, m', k);
    SumSet(m, k, m'[k]);
  }

  /** The user's totals move by what the portfolio's due moves, less what the trade's open part moves. */
  ghost predicate Settles(due: Totals, due': Totals, open: Totals, open': Totals, total: Totals, total': Totals) {
    && total'.purchased - total.purchased == (due'.purchased - due.purchased) - (open'.purchased - open.purchased)
    && total'.value - total.value == (due'.value - due.value) - (open'.value - open.value)
    && total'.count - total.count == (due'.count - due.count) - (open'.count - open.count)
  }

  /** The marks of trades other than id, and of the events of portfolios other than p, are as before. */
  ghost predicate LocalMarks(owners: OwnerOf, ev: Trades, marks: map<Mark, bool>, marks': map<Mark, bool>,
                             p: PortfolioId, id: Option<TradeId>) {
    && (forall q :: q in owners && q != p ==>
          (CreatedMark(owners, q) in marks' <==> CreatedMark(owners, q) in marks)
            && (DeletedMark(owners, q) in marks' <==> DeletedMark(owners, q) in marks))
    && (forall j :: j in ev && Some(j) != id ==>
          (T.PMark(ev, j) in marks' <==> T.PMark(ev, j) in marks)
            && (T.UMark(ev, j) in marks' <==> T.UMark(ev, j) in marks))
    && (id.Some? ==> id.value in ev && p in owners && ev[id.value].user == owners[p])
  }

  function OpenOr(ev: Trades, marks: map<Mark, bool>, id: Option<TradeId>): Totals
    requires id.Some? ==> id.value in ev
  {
    if id.Some? then OpenTrade(ev, marks, id.value) else ZERO
  }

  lemma DuesMove(owners: OwnerOf, ev: Trades, db: Db, db': Db, p: PortfolioId, id: Option<TradeId>, u: UserId)
    requires p in owners && Local(owners, db, db', p) && LocalMarks(owners, ev, db.marks, db'.marks, p, id)
    ensures if owners[p] == u then
      PartMoves(Sum(Dues(owners, db, u)), Sum(Dues(owners, db', u)), Due(owners, db, p), Due(owners, db', p))
            else Dues(owners, db', u) == Dues(owners, db, u)
  {
    forall q | q in owners && q != p ensures Due(owners, db', q) == Due(owners, db, q) {}
    if owners[p] == u { SumMovesAt(Dues(owners, db, u), Dues(owners, db', u), p); }
  }

  lemma OpenTradesMove(owners: OwnerOf, ev: Trades, marks: map<Mark, bool>, marks': map<Mark, bool>, p: PortfolioId,
                       id: Option<TradeId>, u: UserId)
    requires p in owners && LocalMarks(owners, ev, marks, marks', p, id)
    ensures if owners[p] == u then
      PartMoves(Sum(OpenTrades(ev, marks, u)), Sum(OpenTrades(ev, marks', u)), OpenOr(ev, marks, id),
                OpenOr(ev, marks', id))
            else OpenTrades(ev, marks', u) == OpenTrades(ev, marks, u)
  {
    forall j | j in ev && Some(j) != id ensures OpenTrade(ev, marks', j) == OpenTrade(ev, marks, j) {}
    if owners[p] == u && id.Some? {
      SumMovesAt(OpenTrades(ev, marks, u), OpenTrades(ev, marks', u), id.value);
    } else {
      assert OpenTrades(ev, marks', u) == OpenTrades(ev, marks, u);
    }
  }

  /** owed == due - open - total, component by component. */
  ghost predicate Balances(owed: Totals, due: Totals, open: Totals, total: Totals) {
    && owed.purchased == due.purchased - open.purchased - total.purchased
    && owed.value == due.value - open.value - total.value
    && owed.count == due.count - open.count - total.count
  }

  lemma OwedBalances(owners: OwnerOf, ev: Trades, db: Db, u: UserId)
    ensures Balances(Owed(owners, ev, db, u), Sum(Dues(owners, db, u)), Sum(OpenTrades(ev, db.marks, u)),
                     UserTotals(db.User(u)))
  {
    DifferenceBalances(Sum(Dues(owners, db, u)), Sum(OpenTrades(ev, db.marks, u)), UserTotals(db.User(u)));
  }

  lemma DifferenceBalances(due: Totals, open: Totals, total: Totals)
    ensures Balances(Difference(due, open, total), due, open, total)
  {}

  lemma BalanceKept(owed: Totals, owed': Totals, due: Totals, due': Totals, open: Totals, open': Totals, total: Totals,
                    total': Totals,
                    part: Totals, part': Totals, piece: Totals, piece': Totals)
    requires Balances(owed, due, open, total) && Balances(owed', due', open', total')
    requires PartMoves(due, due', part, part') && PartMoves(open, open', piece, piece')
    requires Settles(part, part', piece, piece', total, total')
    ensures owed' == owed
  {}

  lemma OwedKept(owners: OwnerOf, ev: Trades, db: Db, db': Db, p: PortfolioId, id: Option<TradeId>, u: UserId)
    requires p in owners && Local(owners, db, db', p) && LocalMarks(owners, ev, db.marks, db'.marks, p, id)
    requires Settles(Due(owners, db, p), Due(owners, db', p), OpenOr(ev, db.marks, id), OpenOr(ev, db'.marks, id),
                     UserTotals(db.User(owners[p])), UserTotals(db'.User(owners[p])))
    ensures Owed(owners, ev, db', u) == Owed(owners, ev, db, u)
  {
    DuesMove(owners, ev, db, db', p, id, u);
    OpenTradesMove(owners, ev, db.marks, db'.marks, p, id, u);
    if owners[p] == u {
      OwedBalances(owners, ev, db, u);
      OwedBalances(owners, ev, db', u);
      BalanceKept(Owed(owners, ev, db, u), Owed(owners, ev, db', u), Sum(Dues(owners, db, u)),
                  Sum(Dues(owners, db', u)), Sum(OpenTrades(ev, db.marks, u)), Sum(OpenTrades(ev, db'.marks, u)),
                  UserTotals(db.User(u)), UserTotals(db'.User(u)),
                  Due(owners, db, p), Due(owners, db', p), OpenOr(ev, db.marks, id), OpenOr(ev, db'.marks, id));
    }
  }

  // ---- the writes of the portfolio handlers ----------------------------------------------------

  /** CREATED, for a portfolio without an owner: the user's totals, then the mapping. */
  function CreateNew(db: Db, p: PortfolioId, u: UserId, writes: nat): Db {
    var pf := db.Portfolio(p);
    var applied := ApplyUserTotals(db, u, PortfolioEvent(p, Created), Totals(pf.pv, pf.CurrentValue(), 1));
    if writes == 1 then applied else MapPortfolioToUser(applied, p, u)
  }

  /** CREATED, for a portfolio that a trade has mapped: the count, then the pending flag. */
  function CreatePending(db: Db, p: PortfolioId, u: UserId, writes: nat): Db {
    var applied := ApplyUserTotals(db, u, PortfolioEvent(p, Created), Totals(0, 0.0, 1));
    if writes == 1 then applied else ClearPortfolioCountPending(applied, p)
  }

  function CreateWrites(db: Db, p: PortfolioId, u: UserId, writes: nat): Db {
    var pf := db.Portfolio(p);
    if writes == 0 then db
    else if pf.owner.None? then CreateNew(db, p, u, writes)
    else if pf.pending then CreatePending(db, p, u, writes)
    else db
  }

  function CreateAfter(db: Db, p: PortfolioId, u: UserId, writes: nat): Db {
    if writes < 3 then CreateWrites(db, p, u, writes) else SaveUserSnapshot(CreateWrites(db, p, u, 2), u)
  }

  /** DELETED: the user's totals, while the mapping is there. */
  function Subtracted(db: Db, p: PortfolioId, u: UserId): Db {
    var pf := db.Portfolio(p);
    if pf.owner.None? then db
    else ApplyUserTotals(db, u, PortfolioEvent(p, Deleted), Totals(-pf.pv, -pf.CurrentValue(), if pf.pending then 0
      else -1))
  }

  /** What a deletion does after it has removed the mapping. */
  function Cleanup(db: Db, p: PortfolioId, u: UserId, writes: nat): Db {
    var marked := if writes >= 3 then MarkPortfolioValuationDeleted(db, p) else db;
    var deleted := if writes >= 4 then DeletePortfolioState(marked, p) else marked;
    if writes >= 5 then SaveUserSnapshot(deleted, u) else deleted
  }

  function DeleteAfter(db: Db, p: PortfolioId, u: UserId, writes: nat): Db {
    if writes == 0 then db
    else if writes == 1 then Subtracted(db, p, u)
    else Cleanup(RemovePortfolioUserMapping(Subtracted(db, p, u), p, u), p, u, writes)
  }

  function SaveUserSnapshot(db: Db, u: UserId): Db {
    SaveUserValuation(db, u, db.User(u).pv, db.User(u).CurrentValue(), db.User(u).pc)
  }

  // ---- each write keeps what is owed -------------------------------------------------------------

  /** What a write leaves as it was, for every user, together with the relations between hashes and sets. */
  ghost predicate Keeps(owners: OwnerOf, ev: Trades, db: Db, db': Db) {
    WellFormed(owners, db') && forall u :: Owed(owners, ev, db', u) == Owed(owners, ev, db, u)
  }

  lemma KeepsAll(owners: OwnerOf, ev: Trades, db: Db, db': Db, p: PortfolioId, id: Option<TradeId>)
    requires p in owners && WellFormed(owners, db) && Local(owners, db, db', p)
    requires LocalMarks(owners, ev, db.marks, db'.marks, p, id)
    requires PortfolioOk(owners, db', p) && UserOk(db', owners[p])
    requires Settles(Due(owners, db, p), Due(owners, db', p), OpenOr(ev, db.marks, id), OpenOr(ev, db'.marks, id),
                     UserTotals(db.User(owners[p])), UserTotals(db'.User(owners[p])))
    ensures Keeps(owners, ev, db, db')
  {
    WellFormedKept(owners, db, db', p);
    forall u ensures Owed(owners, ev, db', u) == Owed(owners, ev, db, u) { OwedKept(owners, ev, db, db', p, id, u); }
  }

  lemma KeepsTwice(owners: OwnerOf, ev: Trades, db: Db, mid: Db, db': Db)
    requires Keeps(owners, ev, db, mid) && Keeps(owners, ev, mid, db')
    ensures Keeps(owners, ev, db, db')
  {
    forall u ensures Owed(owners, ev, db', u) == Owed(owners, ev, db, u) {
      assert Owed(owners, ev, mid, u) == Owed(owners, ev, db, u);
    }
  }

  lemma SnapshotKeeps(owners: OwnerOf, ev: Trades, db: Db, p: PortfolioId)
    requires p in owners && WellFormed(owners, db)
    ensures Keeps(owners, ev, db, SaveUserSnapshot(db, owners[p]))
  {
    assert PortfolioOk(owners, db, p) && UserOk(db, owners[p]);
    KeepsAll(owners, ev, db, SaveUserSnapshot(db, owners[p]), p, None);
  }

  lemma AddedTotals(usr: User, d: Totals)
    requires usr.cvp.Some? || usr.cv == 0
    ensures UserTotals(AddUserTotals(usr, d)).IsSum(UserTotals(usr), d)
    ensures AddUserTotals(usr, d).cvp.Some? || AddUserTotals(usr, d).cv == 0
  {}

  lemma EventIsLocal(owners: OwnerOf, ev: Trades, db: Db, p: PortfolioId, kind: UserChange, d: Totals, db': Db)
    requires p in owners && PortfolioOk(owners, db, p) && UserMark(owners[p], PortfolioEvent(p, kind)) !in db.marks
    requires db' == ApplyUserTotals(db, owners[p], PortfolioEvent(p, kind), d)
    ensures Local(owners, db, db', p) && LocalMarks(owners, ev, db.marks, db'.marks, p, None)
    ensures PortfolioOk(owners, db', p)
    ensures db'.User(owners[p]) == AddUserTotals(db.User(owners[p]), d)
    ensures forall id :: id in ev ==> OpenTrade(ev, db'.marks, id) == OpenTrade(ev, db.marks, id)
  {}

  /** A user write for one of p's own events: the totals move by d, and p's due has to move with them. */
  lemma EventApplied(owners: OwnerOf, ev: Trades, db: Db, p: PortfolioId, kind: UserChange, d: Totals, db': Db)
    requires p in owners && WellFormed(owners, db) && db' == ApplyUserTotals(db, owners[p], PortfolioEvent(p, kind), d)
    requires UserMark(owners[p], PortfolioEvent(p, kind)) !in db.marks ==>
      Due(owners, db', p).IsSum(Due(owners, db, p), d)
    ensures Keeps(owners, ev, db, db')
  {
    if UserMark(owners[p], PortfolioEvent(p, kind)) !in db.marks {
      assert PortfolioOk(owners, db, p) && UserOk(db, owners[p]);
      EventIsLocal(owners, ev, db, p, kind, d, db');
      AddedTotals(db.User(owners[p]), d);
      EventSettles(owners, ev, db, p, d, db');
    }
  }

  lemma EventSettles(owners: OwnerOf, ev: Trades, db: Db, p: PortfolioId, d: Totals, db': Db)
    requires p in owners && WellFormed(owners, db) && Local(owners, db, db', p)
    requires LocalMarks(owners, ev, db.marks, db'.marks, p, None)
    requires PortfolioOk(owners, db', p) && UserOk(db', owners[p])
    requires Due(owners, db', p).IsSum(Due(owners, db, p), d)
    requires UserTotals(db'.User(owners[p])).IsSum(UserTotals(db.User(owners[p])), d)
    ensures Keeps(owners, ev, db, db')
  {
    KeepsAll(owners, ev, db, db', p, None);
  }

  lemma MappingKeeps(owners: OwnerOf, ev: Trades, db: Db, p: PortfolioId)
    requires p in owners && WellFormed(owners, db) && db.Portfolio(p).owner.None? && CreatedMark(owners, p) in db.marks
    ensures Keeps(owners, ev, db, MapPortfolioToUser(db, p, owners[p]))
  {
    assert PortfolioOk(owners, db, p) && UserOk(db, owners[p]);
    KeepsAll(owners, ev, db, MapPortfolioToUser(db, p, owners[p]), p, None);
  }

  lemma ClearingKeeps(owners: OwnerOf, ev: Trades, db: Db, p: PortfolioId)
    requires p in owners && WellFormed(owners, db) && CreatedMark(owners, p) in db.marks
    ensures Keeps(owners, ev, db, ClearPortfolioCountPending(db, p))
  {
    assert PortfolioOk(owners, db, p) && UserOk(db, owners[p]);
    KeepsAll(owners, ev, db, ClearPortfolioCountPending(db, p), p, None);
  }

  lemma RemovingKeeps(owners: OwnerOf, ev: Trades, db: Db, p: PortfolioId)
    requires p in owners && WellFormed(owners, db)
    requires (db.Portfolio(p).owner.Some? ==> DeletedMark(owners, p) in db.marks)
    ensures Keeps(owners, ev, db, RemovePortfolioUserMapping(db, p, owners[p]))
  {
    assert PortfolioOk(owners, db, p) && UserOk(db, owners[p]);
    KeepsAll(owners, ev, db, RemovePortfolioUserMapping(db, p, owners[p]), p, None);
  }

  lemma MarkingDeletedKeeps(owners: OwnerOf, ev: Trades, db: Db, p: PortfolioId)
    requires p in owners && WellFormed(owners, db)
    ensures Keeps(owners, ev, db, MarkPortfolioValuationDeleted(db, p))
  {
    assert PortfolioOk(owners, db, p) && UserOk(db, owners[p]);
    KeepsAll(owners, ev, db, MarkPortfolioValuationDeleted(db, p), p, None);
  }

  lemma DeletingStateKeeps(owners: OwnerOf, ev: Trades, db: Db, p: PortfolioId)
    requires p in owners && WellFormed(owners, db)
    ensures Keeps(owners, ev, db, DeletePortfolioState(db, p))
  {
    assert PortfolioOk(owners, db, p) && UserOk(db, owners[p]);
    KeepsAll(owners, ev, db, DeletePortfolioState(db, p), p, None);
  }
}
