/** Exactly-once trades: whatever was cut, repeated or reordered, every account holds each marked trade's share once. */
module ExactlyOnce {
  import opened Domain
  import opened Sums
  import opened RedisDb
  import opened TradeHandler
  import opened Ledger
  import opened TradeSystem

  // ---- the marker chain ------------------------------------------------------------------

  /** processed implies user-marked implies portfolio-marked implies quantity-marked. */
  ghost predicate ChainInv(ev: Trades, marks: map<Mark, bool>, processed: set<TradeId>) {
    forall id :: id in ev ==>
      && (id in processed ==> UMark(ev, id) in marks)
      && (UMark(ev, id) in marks ==> PMark(ev, id) in marks)
      && (PMark(ev, id) in marks ==> QMark(ev, id) in marks)
  }

  /** What the frame of a running handler already knows about the store. */
  ghost predicate FrameOk(ev: Trades, marks: map<Mark, bool>, processed: set<TradeId>, id: TradeId, f: Frame)
    requires id in ev
  {
    match f
    case Sync(changed, _) => QMark(ev, id) in marks && marks[QMark(ev, id)] == changed
    case ReadLegacy(changed) => QMark(ev, id) in marks && marks[QMark(ev, id)] == changed
    case WritePortfolio(changed, _) => QMark(ev, id) in marks && marks[QMark(ev, id)] == changed
    case Project(_) => PMark(ev, id) in marks
    case WriteUser => PMark(ev, id) in marks
    case MarkProcessed => UMark(ev, id) in marks
    case ReadPurchased => id in processed
    case ReadValue(_) => id in processed
    case ReadFallback(_) => id in processed
    case ReadCount(_, _) => id in processed
    case SavePortfolio(_, _, _) => id in processed
    case ReadUserPurchased => id in processed
    case ReadUserValue(_) => id in processed
    case ReadUserFallback(_) => id in processed
    case ReadUserCount(_, _) => id in processed
    case SaveUser(_, _, _) => id in processed
    case Done => id in processed
    case _ => true
  }

  ghost predicate JobsInv(ev: Trades, db: Db, jobs: map<Worker, Job>) {
    forall w :: w in jobs ==> jobs[w].id in ev && FrameOk(ev, db.marks, db.processed, jobs[w].id, jobs[w].frame)
  }

  /** A step adds at most the marker its frame is about, overwrites none, and only MarkProcessed adds to processed. */
  ghost predicate MarksEffect(db: Db, id: TradeId, t: Trade, f: Frame, db': Db) {
    && (forall m :: m in db.marks ==> m in db'.marks && db'.marks[m] == db.marks[m])
    && (forall m :: m in db'.marks && m !in db.marks ==>
          || (f.Cas? && m == QuantityMark(t.Key(), TradeEvent(id)))
          || (f.WritePortfolio? && m == PortfolioMark(t.portfolio, TradeEvent(id)))
          || (f.WriteUser? && m == UserMark(t.user, TradeEvent(id))))
    && db'.processed == if f.MarkProcessed? then db.processed + {id} else db.processed
  }

  lemma StepHasMarksEffect(db: Db, id: TradeId, t: Trade, f: Frame)
    ensures MarksEffect(db, id, t, f, Effect(db, id, t, f))
  {}

  lemma ChainKept(ev: Trades, db: Db, id: TradeId, f: Frame, db': Db)
    requires id in ev && ChainInv(ev, db.marks, db.processed) && FrameOk(ev, db.marks, db.processed, id, f)
    requires MarksEffect(db, id, ev[id], f, db')
    ensures ChainInv(ev, db'.marks, db'.processed)
  {
    forall i | i in ev
      ensures && (i in db'.processed ==> UMark(ev, i) in db'.marks)
              && (UMark(ev, i) in db'.marks ==> PMark(ev, i) in db'.marks)
              && (PMark(ev, i) in db'.marks ==> QMark(ev, i) in db'.marks)
    {}
  }

  lemma OwnFrameKept(ev: Trades, db: Db, id: TradeId, f: Frame)
    requires id in ev && FrameOk(ev, db.marks, db.processed, id, f)
    ensures var db' := Effect(db, id, ev[id], f); FrameOk(ev, db'.marks, db'.processed, id, Next(db, id, ev[id], f))
  {}

  lemma JobsKept(ev: Trades, s: System, w: Worker, f': Frame, db': Db)
    requires w in s.jobs && JobsInv(ev, s.db, s.jobs)
    requires MarksEffect(s.db, s.jobs[w].id, ev[s.jobs[w].id], s.jobs[w].frame, db')
    requires FrameOk(ev, db'.marks, db'.processed, s.jobs[w].id, f')
    ensures JobsInv(ev, db', s.jobs[w := Job(s.jobs[w].id, f')])
  {
    forall v | v in s.jobs && v != w
      ensures FrameOk(ev, db'.marks, db'.processed, s.jobs[v].id, s.jobs[v].frame)
    {}
  }

  // ---- every interleaving, whatever snapshots it saves -----------------------------------------

  /** The part of the invariant that no snapshot can break: quantities, the marker chain, and what handlers know. */
  ghost predicate MarkerInv(ev: Trades, b: Books, s: System) {
    && QuantityInv(ev, b, s.log, s.db.quantity, s.db.marks)
    && ChainInv(ev, s.db.marks, s.db.processed)
    && JobsInv(ev, s.db, s.jobs)
  }

  lemma BlindFrameKept(ev: Trades, marks: map<Mark, bool>, processed: set<TradeId>, id: TradeId, f: Frame)
    requires id in ev && FrameOk(ev, marks, processed, id, f) && Swallows(f)
    ensures FrameOk(ev, marks, processed, id, NextBlind(f))
  {}

  lemma MarkersKept(ev: Trades, b: Books, s: System, a: Action)
    requires MarkerInv(ev, b, s)
    ensures MarkerInv(ev, b, Apply(ev, s, a))
  {
    if a.Advance? && a.w in s.jobs {
      var Job(id, f) := s.jobs[a.w];
      var db', f' := Effect(s.db, id, ev[id], f), Next(s.db, id, ev[id], f);
      StepHasMarksEffect(s.db, id, ev[id], f);
      StepHasQuantityEffect(s.db, id, ev[id], f);
      OwnFrameKept(ev, s.db, id, f);
      MarkersKeptByEffect(ev, b, s, a.w, db', f');
    } else if a.Blind? && a.w in s.jobs && Swallows(s.jobs[a.w].frame) {
      BlindFrameKept(ev, s.db.marks, s.db.processed, s.jobs[a.w].id, s.jobs[a.w].frame);
    } else if a.Tear? && a.w in s.jobs {
      TornKeeps(s.db, ev[s.jobs[a.w].id], s.jobs[a.w].frame);
    } else if a.Price? || a.Capture? || a.SaveCaptured? {
      PriceStepKeeps(ev, s, a);
    }
  }

  lemma MarkersKeptByEffect(ev: Trades, b: Books, s: System, w: Worker, db': Db, f': Frame)
    requires MarkerInv(ev, b, s) && w in s.jobs
    requires MarksEffect(s.db, s.jobs[w].id, ev[s.jobs[w].id], s.jobs[w].frame, db')
    requires QuantityEffect(s.db, s.jobs[w].id, ev[s.jobs[w].id], db')
    requires FrameOk(ev, db'.marks, db'.processed, s.jobs[w].id, f')
    ensures MarkerInv(ev, b, AfterStep(ev, s, w, s.jobs[w].id, s.jobs[w].frame, db', f'))
  {
    ChainKept(ev, s.db, s.jobs[w].id, s.jobs[w].frame, db');
    JobsKept(ev, s, w, f', db');
    QuantitiesKeptByEffect(ev, b, s, w, db', f');
  }

  lemma {:induction false} MarkersReachable(ev: Trades, s: System, actions: seq<Action>)
    requires Initial(ev, s)
    ensures MarkerInv(ev, Open(s.db), Exec(ev, s, actions))
  {
    if actions != [] {
      MarkersReachable(ev, s, actions[..|actions| - 1]);
      MarkersKept(ev, Open(s.db), Exec(ev, s, actions[..|actions| - 1]), actions[|actions| - 1]);
    }
  }

  // ---- accounts --------------------------------------------------------------------------

  /** The part of a trade that the markers say has reached account a. */
  function Share(ev: Trades, marks: map<Mark, bool>, id: TradeId, a: Account): Totals
    requires id in ev
  {
    match a
    case OfPortfolio(p) =>
      if ev[id].portfolio == p && PMark(ev, id) in marks then ev[id].PortfolioDelta(GetOr(marks, QMark(ev, id), false))
        else ZERO
    case OfUser(u) =>
      if ev[id].user == u && UMark(ev, id) in marks then ev[id].UserDelta() else ZERO
  }

  function Shares(ev: Trades, marks: map<Mark, bool>, log: seq<TradeId>, a: Account): (shares: seq<Totals>)
    requires Known(ev, log)
    ensures |shares| == |log| && forall k :: 0 <= k < |log| ==> shares[k] == Share(ev, marks, log[k], a)
  {
    seq(|log|, k requires 0 <= k < |log| => Share(ev, marks, log[k], a))
  }

  function Total(ev: Trades, marks: map<Mark, bool>, log: seq<TradeId>, a: Account): Totals
    requires Known(ev, log)
  {
    SumSeq(Shares(ev, marks, log, a))
  }

  ghost predicate AccountsInv(ev: Trades, b: Books, log: seq<TradeId>, db: Db)
    requires Known(ev, log)
  {
    forall a :: AccountIn(db, a).IsSum(b.Balance(a), Total(ev, db.marks, log, a))
  }

  /** A snapshot about to be saved still holds the current counters. */
  predicate Fresh(db: Db, t: Trade, f: Frame) {
    && (f.SavePortfolio? ==> f.pv == db.Portfolio(t.portfolio).pv && f.ac == db.Portfolio(t.portfolio).ac)
    && (f.SaveUser? ==> f.pv == db.User(t.user).pv && f.pc == db.User(t.user).pc)
  }

  /** What one step adds to an account. */
  function Added(db: Db, id: TradeId, t: Trade, f: Frame, a: Account): Totals {
    if f.WritePortfolio? && PortfolioMark(t.portfolio, TradeEvent(id)) !in db.marks
      && a == OfPortfolio(t.portfolio) then
      t.PortfolioDelta(f.changed)
    else if f.WriteUser? && UserMark(t.user, TradeEvent(id)) !in db.marks && a == OfUser(t.user) then
      t.UserDelta()
    else ZERO
  }

  lemma QuietStepAdds(db: Db, id: TradeId, t: Trade, f: Frame, a: Account)
    requires !f.WritePortfolio? && !f.WriteUser? && !f.SavePortfolio? && !f.SaveUser?
    ensures AccountIn(Effect(db, id, t, f), a) == AccountIn(db, a)
  {}

  lemma SaveAdds(db: Db, id: TradeId, t: Trade, f: Frame, a: Account)
    requires (f.SavePortfolio? || f.SaveUser?) && Fresh(db, t, f)
    ensures AccountIn(Effect(db, id, t, f), a) == AccountIn(db, a)
  {}

  lemma PortfolioWriteAdds(db: Db, p: PortfolioId, s: StockId, e: Event, totals: PortfolioTradeTotals, legacy: real,
                           a: Account)
    ensures AccountIn(ApplyPortfolioTradeTotals(db, p, s, e, totals, legacy).0, a) ==
      if PortfolioMark(p, e) !in db.marks && a == OfPortfolio(p) then AccountIn(db, a).Plus(totals.delta)
        else AccountIn(db, a)
  {}

  lemma UserWriteAdds(db: Db, u: UserId, e: Event, d: Totals, a: Account)
    ensures AccountIn(ApplyUserTotals(db, u, e, d), a) ==
      if UserMark(u, e) !in db.marks && a == OfUser(u) then AccountIn(db, a).Plus(d) else AccountIn(db, a)
  {}

  lemma WriteAdds(db: Db, id: TradeId, t: Trade, f: Frame, a: Account)
    requires f.WritePortfolio? || f.WriteUser?
    ensures AccountIn(Effect(db, id, t, f), a).IsSum(AccountIn(db, a), Added(db, id, t, f, a))
  {
    if f.WritePortfolio? {
      PortfolioWriteAdds(db, t.portfolio, t.stock, TradeEvent(id), TradeTotals(t, f.changed), f.legacy, a);
    } else {
      UserWriteAdds(db, t.user, TradeEvent(id), t.UserDelta(), a);
    }
  }

  lemma StepAdds(db: Db, id: TradeId, t: Trade, f: Frame, db': Db, a: Account)
    requires Fresh(db, t, f) && db' == Effect(db, id, t, f)
    ensures AccountIn(db', a).IsSum(AccountIn(db, a), Added(db, id, t, f, a))
  {
    if f.WritePortfolio? || f.WriteUser? {
      WriteAdds(db, id, t, f, a);
    } else if f.SavePortfolio? || f.SaveUser? {
      SaveAdds(db, id, t, f, a);
    } else {
      QuietStepAdds(db, id, t, f, a);
    }
  }

  /** Saving a snapshot keeps the counters exactly when nothing moved them since they were read. */
  lemma SnapshotKeepsAccountsIffFresh(db: Db, id: TradeId, t: Trade, f: Frame)
    requires f.SavePortfolio? || f.SaveUser?
    ensures (forall a :: AccountIn(Effect(db, id, t, f), a) == AccountIn(db, a)) <==> Fresh(db, t, f)
  {
    var db' := Effect(db, id, t, f);
    if Fresh(db, t, f) {
      forall a ensures AccountIn(db', a) == AccountIn(db, a) { SaveAdds(db, id, t, f, a); }
    } else if f.SavePortfolio? {
      assert AccountIn(db', OfPortfolio(t.portfolio)) != AccountIn(db, OfPortfolio(t.portfolio));
    } else {
      assert AccountIn(db', OfUser(t.user)) != AccountIn(db, OfUser(t.user));
    }
  }

  lemma OtherSharesKept(ev: Trades, db: Db, id: TradeId, f: Frame, db': Db, a: Account)
    requires id in ev && MarksEffect(db, id, ev[id], f, db')
    ensures forall j :: j in ev && j != id ==> Share(ev, db'.marks, j, a) == Share(ev, db.marks, j, a)
  {}

  /** The handler's own share moves by exactly what the step adds. */
  lemma OwnShareMoves(ev: Trades, db: Db, id: TradeId, f: Frame, db': Db, a: Account)
    requires id in ev && ChainInv(ev, db.marks, db.processed) && FrameOk(ev, db.marks, db.processed, id, f)
    requires MarksEffect(db, id, ev[id], f, db')
    requires f.WritePortfolio? ==> PMark(ev, id) in db'.marks
    requires f.WriteUser? ==> UMark(ev, id) in db'.marks
    ensures Share(ev, db'.marks, id, a).IsSum(Share(ev, db.marks, id, a), Added(db, id, ev[id], f, a))
  {}

  lemma NothingAddedBeforeQuantity(ev: Trades, db: Db, id: TradeId, f: Frame, a: Account)
    requires id in ev && ChainInv(ev, db.marks, db.processed) && FrameOk(ev, db.marks, db.processed, id, f)
    requires QMark(ev, id) !in db.marks
    ensures Added(db, id, ev[id], f, a) == ZERO
  {}

  lemma MarksWritten(db: Db, id: TradeId, t: Trade, f: Frame)
    ensures f.WritePortfolio? ==> PortfolioMark(t.portfolio, TradeEvent(id)) in Effect(db, id, t, f).marks
    ensures f.WriteUser? ==> UserMark(t.user, TradeEvent(id)) in Effect(db, id, t, f).marks
  {}

  /** Only the entry of id moves, by d. */
  ghost predicate EntryMoves(log: seq<TradeId>, shares: seq<Totals>, shares': seq<Totals>, id: TradeId, d: Totals) {
    && |log| == |shares| == |shares'|
    && (forall j :: 0 <= j < |log| ==> if log[j] == id then shares'[j].IsSum(shares[j], d) else shares'[j] == shares[j])
    && (id !in log ==> d == ZERO)
  }

  lemma StepMovesEntry(ev: Trades, log: seq<TradeId>, db: Db, id: TradeId, f: Frame, db': Db, a: Account)
    requires id in ev && Known(ev, log) && (QMark(ev, id) in db.marks ==> id in log)
    requires ChainInv(ev, db.marks, db.processed) && FrameOk(ev, db.marks, db.processed, id, f)
    requires MarksEffect(db, id, ev[id], f, db')
    requires f.WritePortfolio? ==> PMark(ev, id) in db'.marks
    requires f.WriteUser? ==> UMark(ev, id) in db'.marks
    ensures EntryMoves(log, Shares(ev, db.marks, log, a), Shares(ev, db'.marks, log, a), id,
                       Added(db, id, ev[id], f, a))
  {
    OtherSharesKept(ev, db, id, f, db', a);
    OwnShareMoves(ev, db, id, f, db', a);
    if id !in log {
      NothingAddedBeforeQuantity(ev, db, id, f, a);
    }
  }

  /** The sum moves by what its one entry moved. */
  lemma SumMoves(log: seq<TradeId>, shares: seq<Totals>, shares': seq<Totals>, id: TradeId, d: Totals)
    requires Distinct(log) && EntryMoves(log, shares, shares', id, d)
    ensures SumSeq(shares').IsSum(SumSeq(shares), d)
  {
    if id in log {
      var k :| 0 <= k < |log| && log[k] == id;
      SumSeqShift(shares, shares', k, d);
    } else {
      assert shares' == shares;
    }
  }

  // ---- the invariant of every reachable state ----------------------------------------------

  ghost predicate Inv(ev: Trades, b: Books, s: System) {
    MarkerInv(ev, b, s) && AccountsInv(ev, Shifted(b, s.revalued), s.log, s.db)
  }

  predicate FreshAction(ev: Trades, s: System, a: Action) {
    && (a.Advance? && a.w in s.jobs && s.jobs[a.w].id in ev ==> Fresh(s.db, ev[s.jobs[a.w].id], s.jobs[a.w].frame))
    && (a.SaveCaptured? && a.w in s.captured ==> FreshCaptured(s.db, s.captured[a.w]))
  }

  /** Every snapshot saved during the run is fresh when it is saved. */
  predicate FreshRun(ev: Trades, s: System, actions: seq<Action>) {
    actions == [] ||
    (FreshRun(ev, s, actions[..|actions| - 1])
      && FreshAction(ev, Exec(ev, s, actions[..|actions| - 1]), actions[|actions| - 1]))
  }

  /** Everything the invariant needs to know about a step. */
  ghost predicate StepEffect(db: Db, id: TradeId, t: Trade, f: Frame, db': Db) {
    && QuantityEffect(db, id, t, db')
    && MarksEffect(db, id, t, f, db')
    && (f.WritePortfolio? ==> PortfolioMark(t.portfolio, TradeEvent(id)) in db'.marks)
    && (f.WriteUser? ==> UserMark(t.user, TradeEvent(id)) in db'.marks)
    && (forall a :: AccountIn(db', a).IsSum(AccountIn(db, a), Added(db, id, t, f, a)))
  }

  lemma StepHasEffect(db: Db, id: TradeId, t: Trade, f: Frame, db': Db)
    requires Fresh(db, t, f) && db' == Effect(db, id, t, f)
    ensures StepEffect(db, id, t, f, db')
  {
    StepHasQuantityEffect(db, id, t, f);
    StepHasMarksEffect(db, id, t, f);
    MarksWritten(db, id, t, f);
    forall a ensures AccountIn(db', a).IsSum(AccountIn(db, a), Added(db, id, t, f, a)) {
      StepAdds(db, id, t, f, db', a);
    }
  }

  lemma AccountsKept(ev: Trades, b: Books, log: seq<TradeId>, db: Db, id: TradeId, f: Frame, db': Db)
    requires id in ev && StepEffect(db, id, ev[id], f, db')
    requires Known(ev, log) && Distinct(log) && (forall i :: i in ev && QMark(ev, i) in db.marks ==> i in log)
    requires ChainInv(ev, db.marks, db.processed) && FrameOk(ev, db.marks, db.processed, id, f)
    requires AccountsInv(ev, b, log, db)
    ensures AccountsInv(ev, b, log, db')
  {
    forall a ensures AccountIn(db', a).IsSum(b.Balance(a), Total(ev, db'.marks, log, a)) {
      StepMovesEntry(ev, log, db, id, f, db', a);
      SumMoves(log, Shares(ev, db.marks, log, a), Shares(ev, db'.marks, log, a), id, Added(db, id, ev[id], f, a));
    }
  }

  lemma TotalSnoc(ev: Trades, marks: map<Mark, bool>, log: seq<TradeId>, id: TradeId, a: Account)
    requires id in ev && Known(ev, log) && Known(ev, log + [id])
    ensures Total(ev, marks, log + [id], a).IsSum(Total(ev, marks, log, a), Share(ev, marks, id, a))
  {
    assert Shares(ev, marks, log + [id], a) == Shares(ev, marks, log, a) + [Share(ev, marks, id, a)];
    SumSeqSnoc(Shares(ev, marks, log, a), Share(ev, marks, id, a));
  }

  /** A trade that has only just been quantity-marked has no share anywhere yet. */
  lemma AccountsExtended(ev: Trades, b: Books, log: seq<TradeId>, id: TradeId, db: Db)
    requires id in ev && Known(ev, log) && Known(ev, log + [id])
    requires AccountsInv(ev, b, log, db) && PMark(ev, id) !in db.marks && UMark(ev, id) !in db.marks
    ensures AccountsInv(ev, b, log + [id], db)
  {
    forall a ensures AccountIn(db, a).IsSum(b.Balance(a), Total(ev, db.marks, log + [id], a)) {
      TotalSnoc(ev, db.marks, log, id, a);
      assert Share(ev, db.marks, id, a) == ZERO;
    }
  }

  lemma AccountsKeptByStep(ev: Trades, b: Books, c: Books, s: System, w: Worker, db': Db, f': Frame)
    requires MarkerInv(ev, b, s) && AccountsInv(ev, c, s.log, s.db) && w in s.jobs
    requires StepEffect(s.db, s.jobs[w].id, ev[s.jobs[w].id], s.jobs[w].frame, db')
    requires Known(ev, AfterStep(ev, s, w, s.jobs[w].id, s.jobs[w].frame, db', f').log)
    ensures AccountsInv(ev, c, AfterStep(ev, s, w, s.jobs[w].id, s.jobs[w].frame, db', f').log, db')
  {
    var Job(id, f) := s.jobs[w];
    AccountsKept(ev, c, s.log, s.db, id, f, db');
    if QMark(ev, id) in db'.marks && QMark(ev, id) !in s.db.marks {
      assert PMark(ev, id) !in db'.marks && UMark(ev, id) !in db'.marks;
      AccountsExtended(ev, c, s.log, id, db');
    }
  }

  lemma TornKeepsAccount(db: Db, t: Trade, f: Frame, a: Account)
    ensures AccountIn(Torn(db, t, f), a) == AccountIn(db, a)
  {
    TornKeeps(db, t, f);
  }

  lemma SameAccounts(ev: Trades, b: Books, log: seq<TradeId>, db: Db, db': Db)
    requires Known(ev, log) && AccountsInv(ev, b, log, db)
    requires db'.marks == db.marks && forall a :: AccountIn(db', a) == AccountIn(db, a)
    ensures AccountsInv(ev, b, log, db')
  {
    forall a ensures AccountIn(db', a).IsSum(b.Balance(a), Total(ev, db'.marks, log, a)) {
      assert AccountIn(db, a).IsSum(b.Balance(a), Total(ev, db.marks, log, a));
    }
  }

  lemma TornKeepsAccounts(ev: Trades, b: Books, log: seq<TradeId>, db: Db, t: Trade, f: Frame, db': Db)
    requires Known(ev, log) && AccountsInv(ev, b, log, db) && db' == Torn(db, t, f)
    ensures AccountsInv(ev, b, log, db')
  {
    TornKeeps(db, t, f);
    forall a ensures AccountIn(db', a) == AccountIn(db, a) { TornKeepsAccount(db, t, f, a); }
    SameAccounts(ev, b, log, db, db');
  }

  // ---- price workers -----------------------------------------------------------------------

  /** What a price worker is about to save still holds the current counters. */
  predicate FreshCaptured(db: Db, c: Captured) {
    c.purchased == AccountIn(db, c.account).purchased && c.count == AccountIn(db, c.account).count
  }

  /** Saving what came back with a price write keeps the counters exactly when nothing has moved them since. */
  lemma CapturedKeepsAccountsIffFresh(db: Db, c: Captured)
    ensures (forall a :: AccountIn(Saved(db, c), a) == AccountIn(db, a)) <==> FreshCaptured(db, c)
  {
    assert AccountIn(Saved(db, c), c.account).purchased == c.purchased
      && AccountIn(Saved(db, c), c.account).count == c.count;
    if FreshCaptured(db, c) {
      forall a ensures AccountIn(Saved(db, c), a) == AccountIn(db, a) { SavedAccount(db, c, a); }
    }
  }

  lemma SavedAccount(db: Db, c: Captured, a: Account)
    requires FreshCaptured(db, c)
    ensures AccountIn(Saved(db, c), a) == AccountIn(db, a)
  {}

  /** The counters stay, and the value moves where the call has written. */
  ghost predicate TotalMoves(x: Totals, x': Totals, written: bool) {
    x'.purchased == x.purchased && x'.count == x.count && (!written ==> x'.value == x.value)
  }

  /** A price write moves one total, and no counter. */
  lemma PriceMovesTotal(db: Db, call: PriceCall, a: Account)
    ensures TotalMoves(AccountIn(db, a), AccountIn(PriceEffect(db, call), a), a == PricedAccount(call))
  {}

  lemma ShiftedSum(x: Totals, x': Totals, start: Totals, moved: real, moved': real, total: Totals)
    requires x.IsSum(Shift(start, moved), total) && x'.purchased == x.purchased && x'.count == x.count
    requires x'.value - x.value == moved' - moved
    ensures x'.IsSum(Shift(start, moved'), total)
  {}

  lemma MovedBy(s: System, call: PriceCall, db': Db, s': System, a: Account)
    requires s' == Priced(s, call, db') && TotalMoves(AccountIn(s.db, a), AccountIn(db', a), a == PricedAccount(call))
    ensures GetOr(s'.revalued, a, 0.0) - GetOr(s.revalued, a, 0.0) == AccountIn(db', a).value - AccountIn(s.db, a).value
  {}

  lemma PriceKeepsAccount(b: Books, s: System, call: PriceCall, db': Db, s': System, a: Account, total: Totals)
    requires s' == Priced(s, call, db') && TotalMoves(AccountIn(s.db, a), AccountIn(db', a), a == PricedAccount(call))
    requires AccountIn(s.db, a).IsSum(Shifted(b, s.revalued).Balance(a), total)
    ensures AccountIn(db', a).IsSum(Shifted(b, s'.revalued).Balance(a), total)
  {
    ShiftedBalance(b, s.revalued, a);
    ShiftedBalance(b, s'.revalued, a);
    MovedBy(s, call, db', s', a);
    ShiftedSum(AccountIn(s.db, a), AccountIn(db', a), b.Balance(a), GetOr(s.revalued, a, 0.0),
               GetOr(s'.revalued, a, 0.0), total);
  }

  lemma PriceKeepsAccounts(ev: Trades, b: Books, s: System, call: PriceCall, db': Db, s': System)
    requires Known(ev, s.log) && AccountsInv(ev, Shifted(b, s.revalued), s.log, s.db)
    requires db' == PriceEffect(s.db, call) && db'.marks == s.db.marks && s' == Priced(s, call, db')
    ensures AccountsInv(ev, Shifted(b, s'.revalued), s.log, db')
  {
    forall a ensures AccountIn(db', a).IsSum(Shifted(b, s'.revalued).Balance(a), Total(ev, db'.marks, s.log, a)) {
      PriceMovesTotal(s.db, call, a);
      PriceKeepsAccount(b, s, call, db', s', a, Total(ev, s.db.marks, s.log, a));
    }
  }

  lemma PriceStepKeepsAccounts(ev: Trades, b: Books, s: System, a: Action, s': System)
    requires Inv(ev, b, s) && FreshAction(ev, s, a) && (a.Price? || a.Capture? || a.SaveCaptured?)
    requires s' == Apply(ev, s, a) && s'.log == s.log && s'.db.marks == s.db.marks
    ensures AccountsInv(ev, Shifted(b, s'.revalued), s'.log, s'.db)
  {
    if a.Price? {
      PriceKeepsAccounts(ev, b, s, a.call, s'.db, s');
    } else if a.SaveCaptured? && a.w in s.captured {
      CapturedKeepsAccountsIffFresh(s.db, s.captured[a.w]);
      SameAccounts(ev, Shifted(b, s.revalued), s.log, s.db, s'.db);
    }
  }

  lemma ActionKeepsAccounts(ev: Trades, b: Books, s: System, a: Action, s': System)
    requires Inv(ev, b, s) && FreshAction(ev, s, a) && s' == Apply(ev, s, a) && Known(ev, s'.log)
    ensures AccountsInv(ev, Shifted(b, s'.revalued), s'.log, s'.db)
  {
    var c := Shifted(b, s.revalued);
    if a.Advance? && a.w in s.jobs {
      var Job(id, f) := s.jobs[a.w];
      var db' := Effect(s.db, id, ev[id], f);
      StepHasEffect(s.db, id, ev[id], f, db');
      AccountsKeptByStep(ev, b, c, s, a.w, db', Next(s.db, id, ev[id], f));
    } else if a.Tear? && a.w in s.jobs {
      TornKeepsAccounts(ev, c, s.log, s.db, ev[s.jobs[a.w].id], s.jobs[a.w].frame, s'.db);
    } else if a.Price? || a.Capture? || a.SaveCaptured? {
      PriceStepKeeps(ev, s, a);
      PriceStepKeepsAccounts(ev, b, s, a, s');
    } else {
      assert s'.log == s.log && s'.db == s.db;
    }
  }

  lemma InvKeptTo(ev: Trades, b: Books, s: System, a: Action, s': System)
    requires Inv(ev, b, s) && FreshAction(ev, s, a) && s' == Apply(ev, s, a) && MarkerInv(ev, b, s')
    ensures Inv(ev, b, s')
  {
    ActionKeepsAccounts(ev, b, s, a, s');
  }

  lemma InvKept(ev: Trades, b: Books, s: System, a: Action)
    requires Inv(ev, b, s) && FreshAction(ev, s, a)
    ensures Inv(ev, b, Apply(ev, s, a))
  {
    MarkersKept(ev, b, s, a);
    InvKeptTo(ev, b, s, a, Apply(ev, s, a));
  }

  lemma {:induction false} InvReachable(ev: Trades, s: System, actions: seq<Action>)
    requires Initial(ev, s) && FreshRun(ev, s, actions)
    ensures Inv(ev, Open(s.db), Exec(ev, s, actions))
  {
    if actions == [] {
      forall a
        ensures AccountIn(s.db, a).IsSum(Shifted(Open(s.db), s.revalued).Balance(a), Total(ev, s.db.marks, s.log, a))
      {
        OpenBalance(s.db, a);
        ShiftedBalance(Open(s.db), s.revalued, a);
      }
    } else {
      InvReachable(ev, s, actions[..|actions| - 1]);
      InvKept(ev, Open(s.db), Exec(ev, s, actions[..|actions| - 1]), actions[|actions| - 1]);
    }
  }

  // ---- the theorem -----------------------------------------------------------------------

  /** Every trade of the log has all its markers, with the result its own posting computed. */
  ghost predicate Complete(ev: Trades, b: Books, log: seq<TradeId>, marks: map<Mark, bool>)
    requires Known(ev, log)
  {
    && ResultsMarked(ev, b, log, marks)
    && (forall k :: 0 <= k < |log| ==> PMark(ev, log[k]) in marks && UMark(ev, log[k]) in marks)
  }

  lemma PostMovesBalance(ev: Trades, b: Books, id: TradeId, marks: map<Mark, bool>, a: Account)
    requires id in ev && PMark(ev, id) in marks && UMark(ev, id) in marks && QMark(ev, id) in marks
    requires marks[QMark(ev, id)] == NextQuantity(ev[id], Lookup(b.quantity, ev[id].Key())).1
    ensures Post(b, ev[id]).Balance(a).IsSum(b.Balance(a), Share(ev, marks, id, a))
  {}

  lemma CompletePrefix(ev: Trades, b: Books, rest: seq<TradeId>, id: TradeId, marks: map<Mark, bool>)
    requires id in ev && Known(ev, rest) && Known(ev, rest + [id]) && Complete(ev, b, rest + [id], marks)
    ensures Complete(ev, b, rest, marks) && PMark(ev, id) in marks && UMark(ev, id) in marks && QMark(ev, id) in marks
    ensures marks[QMark(ev, id)] == NextQuantity(ev[id], Lookup(PostAll(ev, b, rest).quantity, ev[id].Key())).1
  {
    ResultsMarkedPrefix(ev, b, rest, id, marks);
    assert forall k :: 0 <= k < |rest| ==> (rest + [id])[k] == rest[k];
    assert (rest + [id])[|rest|] == id;
  }

  lemma SumsChain(x: Totals, x': Totals, start: Totals, total: Totals, total': Totals, d: Totals)
    requires x.IsSum(start, total) && x'.IsSum(x, d) && total'.IsSum(total, d)
    ensures x'.IsSum(start, total')
  {}

  /** When every share has arrived, the totals are those of the ledger. */
  lemma {:induction false} FullTotalIsLedger(ev: Trades, b: Books, log: seq<TradeId>, marks: map<Mark, bool>,
                                             a: Account)
    requires Known(ev, log) && Complete(ev, b, log, marks)
    ensures PostAll(ev, b, log).Balance(a).IsSum(b.Balance(a), Total(ev, marks, log, a))
  {
    if log != [] {
      var rest, id := log[..|log| - 1], log[|log| - 1];
      assert log == rest + [id];
      CompletePrefix(ev, b, rest, id, marks);
      FullTotalIsLedger(ev, b, rest, marks, a);
      PostMovesBalance(ev, PostAll(ev, b, rest), id, marks, a);
      TotalSnoc(ev, marks, rest, id, a);
      SumsChain(PostAll(ev, b, rest).Balance(a), PostAll(ev, b, log).Balance(a), b.Balance(a),
                Total(ev, marks, rest, a), Total(ev, marks, log, a), Share(ev, marks, id, a));
    }
  }

  lemma SumIsUnique(x: Totals, y: Totals, a: Totals, b: Totals)
    requires x.IsSum(a, b) && y.IsSum(a, b)
    ensures x == y
  {}

  /** Quantities and accounts are those of a ledger that posted each trade of the log exactly once,
      and no other trade counts as processed. */
  ghost predicate OnTheBooks(ev: Trades, b: Books, s: System) {
    && Known(ev, s.log) && Distinct(s.log)
    && (forall id :: id in ev && id in s.db.processed ==> id in s.log)
    && s.db.quantity == PostAll(ev, b, s.log).quantity
    && (forall a :: AccountIn(s.db, a) == PostAll(ev, b, s.log).Balance(a))
  }

  lemma SameResults(ev: Trades, b: Books, c: Books, log: seq<TradeId>, marks: map<Mark, bool>)
    requires Known(ev, log) && b.quantity == c.quantity && ResultsMarked(ev, b, log, marks)
    ensures ResultsMarked(ev, c, log, marks)
  {
    forall k | 0 <= k < |log|
      ensures QMark(ev, log[k]) in marks && marks[QMark(ev, log[k])] == ChangedAt(ev, c, log, k)
    {
      SameQuantities(ev, b, c, log[..k]);
    }
  }

  /** The ledger they are compared with opens where the run started, moved by what price batches have moved. */
  lemma ProcessedTradesAreOnTheBooks(ev: Trades, b: Books, s: System)
    requires Inv(ev, b, s) && (forall k :: 0 <= k < |s.log| ==> s.log[k] in s.db.processed)
    ensures OnTheBooks(ev, Shifted(b, s.revalued), s)
  {
    var c := Shifted(b, s.revalued);
    SameQuantities(ev, b, c, s.log);
    SameResults(ev, b, c, s.log, s.db.marks);
    assert Complete(ev, c, s.log, s.db.marks);
    forall a ensures AccountIn(s.db, a) == PostAll(ev, c, s.log).Balance(a) {
      FullTotalIsLedger(ev, c, s.log, s.db.marks, a);
      SumIsUnique(AccountIn(s.db, a), PostAll(ev, c, s.log).Balance(a), c.Balance(a), Total(ev, s.db.marks, s.log, a));
    }
  }

  /** Once every trade that left a trace has one complete invocation, whatever else was cut, repeated or reordered,
      and whatever price batches wrote in between, the store is on the books. */
  lemma TradesCountExactlyOnce(ev: Trades, s: System, actions: seq<Action>, r: System)
    requires Initial(ev, s) && FreshRun(ev, s, actions) && r == Exec(ev, s, actions)
    requires forall k :: 0 <= k < |r.log| ==> r.log[k] in r.db.processed
    ensures OnTheBooks(ev, Shifted(Open(s.db), r.revalued), r)
  {
    InvReachable(ev, s, actions);
    ProcessedTradesAreOnTheBooks(ev, Open(s.db), r);
  }
}
