/** The holding indexes follow the quantities when no two handlers overlap on one holding, whatever else overlaps and
    whatever snapshots they save. */
module HoldingIndexes {
  import opened Domain
  import opened RedisDb
  import opened TradeHandler
  import opened Ledger
  import opened TradeSystem
  import opened ExactlyOnce

  /** Handlers that run at the same time are about different holdings. */
  ghost predicate OnePerHolding(ev: Trades, jobs: map<Worker, Job>) {
    forall v, w :: v in jobs && w in jobs && v != w && jobs[v].id in ev && jobs[w].id in ev ==>
      ev[jobs[v].id].Key() != ev[jobs[w].id].Key()
  }

  ghost predicate OnePerHoldingRun(ev: Trades, s: System, actions: seq<Action>) {
    OnePerHolding(ev, Exec(ev, s, actions).jobs)
    && (actions != [] ==> OnePerHoldingRun(ev, s, actions[..|actions| - 1]))
  }

  // ---- quantities --------------------------------------------------------------------------

  ghost predicate PositiveQuantities(q: map<Holding, real>) {
    forall h :: h in q ==> q[h] > 0.0
  }

  lemma {:induction false} QuantitiesStayPositive(ev: Trades, b: Books, log: seq<TradeId>)
    requires Known(ev, log) && Positive(ev) && PositiveQuantities(b.quantity)
    ensures PositiveQuantities(PostAll(ev, b, log).quantity)
  {
    if log != [] {
      QuantitiesStayPositive(ev, b, log[..|log| - 1]);
      var id := log[|log| - 1];
      assert id in ev;
      PostKeepsPositive(PostAll(ev, b, log[..|log| - 1]), ev[id]);
    }
  }

  lemma PostKeepsPositive(b: Books, t: Trade)
    requires t.quantity > 0.0 && PositiveQuantities(b.quantity)
    ensures PositiveQuantities(Post(b, t).quantity)
  {
    var (next, _) := NextQuantity(t, Lookup(b.quantity, t.Key()));
    assert next.Some? ==> next.value > 0.0;
  }

  // ---- what a handler is about to sync -----------------------------------------------------

  /** The quantity a handler brings the indexes in line with is the stored one. */
  ghost predicate SyncOk(db: Db, t: Trade, f: Frame) {
    f.Sync? ==> f.after == Lookup(db.quantity, t.Key())
  }

  ghost predicate SyncInv(ev: Trades, db: Db, jobs: map<Worker, Job>) {
    forall w :: w in jobs && jobs[w].id in ev ==> SyncOk(db, ev[jobs[w].id], jobs[w].frame)
  }

  /** A step of t stays within its own holding. */
  ghost predicate OwnHolding(db: Db, t: Trade, db': Db) {
    forall h :: h != t.Key() ==>
      && Lookup(db'.quantity, h) == Lookup(db.quantity, h)
      && (h in db'.stockIndex <==> h in db.stockIndex) && (h in db'.holdingIndex <==> h in db.holdingIndex)
  }

  lemma StepStaysInHolding(db: Db, id: TradeId, t: Trade, f: Frame)
    ensures OwnHolding(db, t, Effect(db, id, t, f))
  {}

  lemma OwnSyncKept(db: Db, id: TradeId, t: Trade, f: Frame)
    ensures SyncOk(Effect(db, id, t, f), t, Next(db, id, t, f))
  {}

  lemma SyncKept(ev: Trades, db: Db, jobs: map<Worker, Job>, w: Worker, db': Db, f': Frame)
    requires w in jobs && jobs[w].id in ev && OnePerHolding(ev, jobs) && SyncInv(ev, db, jobs)
    requires OwnHolding(db, ev[jobs[w].id], db') && SyncOk(db', ev[jobs[w].id], f')
    ensures SyncInv(ev, db', jobs[w := Job(jobs[w].id, f')])
  {
    forall v | v in jobs && v != w && jobs[v].id in ev ensures SyncOk(db', ev[jobs[v].id], jobs[v].frame) {
      assert ev[jobs[v].id].Key() != ev[jobs[w].id].Key();
    }
  }

  lemma {:induction false} SyncReachable(ev: Trades, s: System, actions: seq<Action>)
    requires Initial(ev, s) && OnePerHoldingRun(ev, s, actions)
    ensures var r := Exec(ev, s, actions); SyncInv(ev, r.db, r.jobs)
  {
    if actions != [] {
      var before, a := Exec(ev, s, actions[..|actions| - 1]), actions[|actions| - 1];
      SyncReachable(ev, s, actions[..|actions| - 1]);
      if a.Advance? && a.w in before.jobs && before.jobs[a.w].id in ev {
        var Job(id, f) := before.jobs[a.w];
        StepStaysInHolding(before.db, id, ev[id], f);
        OwnSyncKept(before.db, id, ev[id], f);
        SyncKept(ev, before.db, before.jobs, a.w, Effect(before.db, id, ev[id], f), Next(before.db, id, ev[id], f));
      } else if a.Tear? && a.w in before.jobs && before.jobs[a.w].id in ev {
        TornKeeps(before.db, ev[before.jobs[a.w].id], before.jobs[a.w].frame);
      } else if a.Price? || a.Capture? || a.SaveCaptured? {
        PriceStepKeeps(ev, before, a);
      }
    }
  }

  // ---- indexes -------------------------------------------------------------------------------

  ghost predicate Agrees(db: Db, h: Holding) {
    (h in db.stockIndex <==> h in db.quantity) && (h in db.holdingIndex <==> h in db.quantity)
  }

  /** Some trade of the log on h has not written its portfolio yet. */
  ghost predicate Owed(ev: Trades, log: seq<TradeId>, marks: map<Mark, bool>, h: Holding) {
    exists k :: 0 <= k < |log| && log[k] in ev && ev[log[k]].Key() == h && PMark(ev, log[k]) !in marks
  }

  predicate HasSynced(f: Frame) {
    f.ReadLegacy? || f.WritePortfolio?
  }

  /** Outside unsynced the indexes follow the quantities. A holding leaves unsynced before its trade writes the
      portfolio, so what is left in it belongs to a trade that has not. */
  ghost predicate IndexInv(ev: Trades, s: System) {
    && (forall h :: h !in s.unsynced ==> Agrees(s.db, h))
    && (forall h :: h in s.unsynced ==> Owed(ev, s.log, s.db.marks, h))
    && (forall w :: w in s.jobs && s.jobs[w].id in ev && HasSynced(s.jobs[w].frame) ==>
          ev[s.jobs[w].id].Key() !in s.unsynced)
  }

  /** How a step moves quantities and indexes of its own holding. */
  ghost predicate IndexEffect(db: Db, id: TradeId, t: Trade, f: Frame, db': Db) {
    if QuantityMark(t.Key(), TradeEvent(id)) in db'.marks && QuantityMark(t.Key(), TradeEvent(id)) !in db.marks then
      f.Cas?
    else if f.Sync? then f.after == Lookup(db.quantity, t.Key()) && PositiveQuantities(db.quantity) ==>
      Agrees(db', t.Key())
    else Agrees(db, t.Key()) ==> Agrees(db', t.Key())
  }

  lemma StepHasIndexEffect(db: Db, id: TradeId, t: Trade, f: Frame)
    ensures IndexEffect(db, id, t, f, Effect(db, id, t, f))
  {}

  lemma FollowsSync(db: Db, id: TradeId, t: Trade, f: Frame)
    ensures Next(db, id, t, f).ReadLegacy? ==> f.Sync?
    ensures Next(db, id, t, f).WritePortfolio? ==> f.ReadLegacy?
  {}

  /** A lost answer writes nothing, and leads to the portfolio write only from behind the sync. */
  lemma BlindFollowsSync(ev: Trades, s: System, w: Worker)
    requires IndexInv(ev, s)
    ensures IndexInv(ev, Apply(ev, s, Blind(w)))
  {}

  /** Half a sync leaves a synced holding as it was: its entries already follow the quantity it was about to write. */
  lemma TornKeepsIndexes(ev: Trades, s: System, w: Worker)
    requires w in s.jobs && IndexInv(ev, s) && SyncInv(ev, s.db, s.jobs) && PositiveQuantities(s.db.quantity)
    ensures IndexInv(ev, Apply(ev, s, Tear(w)))
  {
    if s.jobs[w].id in ev {
      var t, f := ev[s.jobs[w].id], s.jobs[w].frame;
      TornKeeps(s.db, t, f);
      forall h | h !in s.unsynced ensures Agrees(Torn(s.db, t, f), h) {
        TornAgrees(s.db, t, f, h);
      }
    }
  }

  lemma TornAgrees(db: Db, t: Trade, f: Frame, h: Holding)
    requires Agrees(db, h) && SyncOk(db, t, f) && PositiveQuantities(db.quantity)
    ensures Agrees(Torn(db, t, f), h)
  {}

  lemma AgreementKept(ev: Trades, s: System, w: Worker, db': Db, f': Frame)
    requires w in s.jobs && s.jobs[w].id in ev && IndexInv(ev, s) && PositiveQuantities(s.db.quantity)
    requires SyncOk(s.db, ev[s.jobs[w].id], s.jobs[w].frame) && OwnHolding(s.db, ev[s.jobs[w].id], db')
    requires IndexEffect(s.db, s.jobs[w].id, ev[s.jobs[w].id], s.jobs[w].frame, db')
    ensures var s' := AfterStep(ev, s, w, s.jobs[w].id, s.jobs[w].frame, db', f');
      forall h :: h !in s'.unsynced ==> Agrees(s'.db, h)
  {
    var Job(id, f) := s.jobs[w];
    var s' := AfterStep(ev, s, w, id, f, db', f');
    forall h | h !in s'.unsynced ensures Agrees(db', h) {
      if h != ev[id].Key() {
        assert h !in s.unsynced;
        assert h in db'.quantity <==> Lookup(db'.quantity, h).Some?;
        assert h in s.db.quantity <==> Lookup(s.db.quantity, h).Some?;
      }
    }
  }

  lemma OwedKept(ev: Trades, log: seq<TradeId>, log': seq<TradeId>, db: Db, id: TradeId, f: Frame, db': Db, h: Holding)
    requires id in ev && MarksEffect(db, id, ev[id], f, db') && log <= log'
    requires Owed(ev, log, db.marks, h) && (f.WritePortfolio? ==> ev[id].Key() != h)
    ensures Owed(ev, log', db'.marks, h)
  {
    var k :| 0 <= k < |log| && log[k] in ev && ev[log[k]].Key() == h && PMark(ev, log[k]) !in db.marks;
    assert log'[k] == log[k] && PMark(ev, log[k]) !in db'.marks;
  }

  lemma UnsyncedKept(ev: Trades, s: System, w: Worker, db': Db, f': Frame)
    requires w in s.jobs && s.jobs[w].id in ev && IndexInv(ev, s) && ChainInv(ev, s.db.marks, s.db.processed)
    requires MarksEffect(s.db, s.jobs[w].id, ev[s.jobs[w].id], s.jobs[w].frame, db')
    ensures var s' := AfterStep(ev, s, w, s.jobs[w].id, s.jobs[w].frame, db', f');
      forall h :: h in s'.unsynced ==> Owed(ev, s'.log, db'.marks, h)
  {
    var Job(id, f) := s.jobs[w];
    var s' := AfterStep(ev, s, w, id, f, db', f');
    forall h | h in s'.unsynced ensures Owed(ev, s'.log, db'.marks, h) {
      if h in s.unsynced {
        OwedKept(ev, s.log, s'.log, s.db, id, f, db', h);
      } else {
        assert s'.log[|s.log|] == id && PMark(ev, id) !in db'.marks;
      }
    }
  }

  lemma SyncedJobsKept(ev: Trades, s: System, w: Worker, db': Db, f': Frame)
    requires w in s.jobs && s.jobs[w].id in ev && IndexInv(ev, s) && OnePerHolding(ev, s.jobs)
    requires IndexEffect(s.db, s.jobs[w].id, ev[s.jobs[w].id], s.jobs[w].frame, db')
    requires f'.ReadLegacy? ==> s.jobs[w].frame.Sync?
    requires f'.WritePortfolio? ==> s.jobs[w].frame.ReadLegacy?
    ensures var s' := AfterStep(ev, s, w, s.jobs[w].id, s.jobs[w].frame, db', f');
      forall v :: v in s'.jobs && s'.jobs[v].id in ev && HasSynced(s'.jobs[v].frame) ==>
        ev[s'.jobs[v].id].Key() !in s'.unsynced
  {
    var Job(id, f) := s.jobs[w];
    forall v | v in s.jobs && v != w && s.jobs[v].id in ev ensures ev[s.jobs[v].id].Key() != ev[id].Key() {}
  }

  lemma {:induction false} IndexReachable(ev: Trades, s: System, actions: seq<Action>)
    requires Initial(ev, s) && OnePerHoldingRun(ev, s, actions)
    requires Positive(ev) && PositiveQuantities(s.db.quantity) && (forall h :: Agrees(s.db, h))
    ensures IndexInv(ev, Exec(ev, s, actions))
  {
    if actions != [] {
      var before, a := Exec(ev, s, actions[..|actions| - 1]), actions[|actions| - 1];
      IndexReachable(ev, s, actions[..|actions| - 1]);
      if a.Advance? && a.w in before.jobs {
        SyncReachable(ev, s, actions[..|actions| - 1]);
        MarkersReachable(ev, s, actions[..|actions| - 1]);
        QuantitiesStayPositive(ev, Open(s.db), before.log);
        IndexKept(ev, Open(s.db), before, a.w);
      } else if a.Blind? {
        BlindFollowsSync(ev, before, a.w);
      } else if a.Tear? && a.w in before.jobs {
        SyncReachable(ev, s, actions[..|actions| - 1]);
        MarkersReachable(ev, s, actions[..|actions| - 1]);
        QuantitiesStayPositive(ev, Open(s.db), before.log);
        TornKeepsIndexes(ev, before, a.w);
      } else if a.Price? || a.Capture? || a.SaveCaptured? {
        PriceStepKeeps(ev, before, a);
      }
    }
  }

  lemma IndexKept(ev: Trades, b: Books, s: System, w: Worker)
    requires w in s.jobs && MarkerInv(ev, b, s) && IndexInv(ev, s)
    requires OnePerHolding(ev, s.jobs) && SyncInv(ev, s.db, s.jobs) && PositiveQuantities(s.db.quantity)
    ensures IndexInv(ev, Apply(ev, s, Advance(w)))
  {
    var Job(id, f) := s.jobs[w];
    var db', f' := Effect(s.db, id, ev[id], f), Next(s.db, id, ev[id], f);
    StepHasIndexEffect(s.db, id, ev[id], f);
    StepHasMarksEffect(s.db, id, ev[id], f);
    StepStaysInHolding(s.db, id, ev[id], f);
    FollowsSync(s.db, id, ev[id], f);
    AgreementKept(ev, s, w, db', f');
    UnsyncedKept(ev, s, w, db', f');
    SyncedJobsKept(ev, s, w, db', f');
  }

  /** Once every trade that left a trace has a complete invocation, a portfolio is in stock:s:portfolios exactly when
      the stock is in portfolio:p:stocks, exactly when a quantity is held, and that quantity is positive. Late replays
      of old trades are among the actions. */
  lemma IndexesFollowQuantities(ev: Trades, s: System, actions: seq<Action>, r: System)
    requires Initial(ev, s) && OnePerHoldingRun(ev, s, actions) && r == Exec(ev, s, actions)
    requires Positive(ev) && PositiveQuantities(s.db.quantity) && (forall h :: Agrees(s.db, h))
    requires forall k :: 0 <= k < |r.log| ==> r.log[k] in r.db.processed
    ensures forall h :: Agrees(r.db, h)
    ensures PositiveQuantities(r.db.quantity)
  {
    IndexReachable(ev, s, actions);
    MarkersReachable(ev, s, actions);
    QuantitiesStayPositive(ev, Open(s.db), r.log);
    ProcessedTradesAreSynced(ev, Open(s.db), r);
  }

  lemma ProcessedTradesAreSynced(ev: Trades, b: Books, s: System)
    requires MarkerInv(ev, b, s) && IndexInv(ev, s) && (forall k :: 0 <= k < |s.log| ==> s.log[k] in s.db.processed)
    ensures forall h :: Agrees(s.db, h)
  {
    assert forall k :: 0 <= k < |s.log| ==> PMark(ev, s.log[k]) in s.db.marks;
    assert forall h :: h !in s.unsynced;
  }

  /** Whether a stock's set of portfolios and a portfolio's set of stocks have the holding. */
  function Indexed(db: Db, h: Holding): (bool, bool) {
    (h in db.stockIndex, h in db.holdingIndex)
  }

  /** A torn sync brings the stock's set of portfolios in line and leaves the portfolio's set of stocks behind, and a
      sync that runs after it brings in line both. */
  lemma TornSyncIsRepaired(ev: Trades, s: System, w: Worker, changed: bool, after: Option<real>, r: System)
    requires w in s.jobs && s.jobs[w].id in ev && s.jobs[w].frame == Sync(changed, after)
    requires r == Apply(ev, s, Tear(w))
    ensures var t, held := ev[s.jobs[w].id], after.Some? && after.value > 0.0;
      var h := Holding(t.portfolio, t.stock);
      && Indexed(r.db, h) == (held, h in s.db.holdingIndex)
      && Indexed(Effect(r.db, s.jobs[w].id, t, Sync(changed, after)), h) == (held, held)
      && (forall k :: k != h ==> Indexed(r.db, k) == Indexed(s.db, k))
    ensures r.db == s.db.(stockIndex := r.db.stockIndex) && w !in r.jobs
  {}
}
