/** Any number of trade handlers over one store: started for any event any number of times, advanced one store
    call at a time in any order, and stopped anywhere. Price workers write the same hashes between their steps. */
module TradeSystem {
  import opened Domain
  import opened RedisDb
  import opened TradeHandler
  import opened Ledger
  import V = Valuation

  type Worker = int

  datatype Job = Job(id: TradeId, frame: Frame)

  /** The writes of a price batch on one hash, whatever values it brings: the replacement script, the projection to the
      compatibility keys, and the re-sum of a user. */
  datatype PriceCall =
    | Replace(p: PortfolioId, rs: seq<V.Replacement>)
    | ProjectAll(p: PortfolioId, values: map<StockId, real>)
    | ReSum(u: UserId, value: real)

  /** The numbers that came back with such a write, to be saved later. */
  datatype Captured = Captured(account: Account, purchased: int, value: real, count: int)

  /** log records the order in which quantity markers were first written; unsynced the holdings whose quantity
      was written after their index entries; captured what price workers are about to save; revalued what price
      batches have moved each total by. */
  datatype System = System(
    db: Db, log: seq<TradeId>, jobs: map<Worker, Job>, unsynced: set<Holding>,
    captured: map<Worker, Captured>, revalued: map<Account, real>)

  /** Blind lets a call of w through whose answer is lost without the code noticing; Tear cuts w inside one. */
  datatype Action =
    | Start(w: Worker, id: TradeId)
    | Advance(w: Worker)
    | Blind(w: Worker)
    | Tear(w: Worker)
    | Stop(w: Worker)
    | Price(w: Worker, call: PriceCall)
    | Capture(w: Worker, account: Account)
    | SaveCaptured(w: Worker)

  function QMark(ev: Trades, id: TradeId): Mark
    requires id in ev
  {
    QuantityMark(ev[id].Key(), TradeEvent(id))
  }

  function PMark(ev: Trades, id: TradeId): Mark
    requires id in ev
  {
    PortfolioMark(ev[id].portfolio, TradeEvent(id))
  }

  function UMark(ev: Trades, id: TradeId): Mark
    requires id in ev
  {
    UserMark(ev[id].user, TradeEvent(id))
  }

  function Apply(ev: Trades, s: System, a: Action): System {
    match a
    case Start(w, id) =>
      if w in s.jobs || id !in ev then s else s.(jobs := s.jobs[w := Job(id, Check)])
    case Stop(w) => s.(jobs := s.jobs - {w})
    case Blind(w) =>
      if w !in s.jobs || !Swallows(s.jobs[w].frame) then s
      else s.(jobs := s.jobs[w := s.jobs[w].(frame := NextBlind(s.jobs[w].frame))])
    case Tear(w) =>
      if w !in s.jobs || s.jobs[w].id !in ev then s
      else s.(db := Torn(s.db, ev[s.jobs[w].id], s.jobs[w].frame), jobs := s.jobs - {w})
    case Advance(w) =>
      if w !in s.jobs || s.jobs[w].id !in ev then s
      else
        var Job(id, f) := s.jobs[w];
        AfterStep(ev, s, w, id, f, Effect(s.db, id, ev[id], f), Next(s.db, id, ev[id], f))
    case Price(w, call) => Priced(s, call, PriceEffect(s.db, call))
    case Capture(w, a) => s.(captured := s.captured[w := Read(s.db, a)])
    case SaveCaptured(w) =>
      if w !in s.captured then s else s.(db := Saved(s.db, s.captured[w]), captured := s.captured - {w})
  }

  function PriceEffect(db: Db, call: PriceCall): Db {
    match call
    case Replace(p, rs) => db.WithPortfolio(p, V.Replaced(db.Portfolio(p), rs))
    case ProjectAll(p, values) =>
      var pf := db.Portfolio(p);
      db.WithPortfolio(p, pf.(legacy := pf.legacy + values))
    case ReSum(u, value) => db.WithUser(u, db.User(u).(cvp := Some(value)))
  }

  function PricedAccount(call: PriceCall): Account {
    match call
    case Replace(p, _) => OfPortfolio(p)
    case ProjectAll(p, _) => OfPortfolio(p)
    case ReSum(u, _) => OfUser(u)
  }

  /** Puts the outcome of a price write back, and records by how much it has moved the total. */
  function Priced(s: System, call: PriceCall, db: Db): System {
    var a := PricedAccount(call);
    var moved := AccountIn(db, a).value - AccountIn(s.db, a).value;
    s.(db := db, revalued := s.revalued[a := GetOr(s.revalued, a, 0.0) + moved])
  }

  function Read(db: Db, a: Account): Captured {
    match a
    case OfPortfolio(p) => Captured(a, db.Portfolio(p).pv, db.Portfolio(p).CurrentValue(), db.Portfolio(p).ac)
    case OfUser(u) => Captured(a, db.User(u).pv, db.User(u).CurrentValue(), db.User(u).pc)
  }

  function Saved(db: Db, c: Captured): Db {
    match c.account
    case OfPortfolio(p) => SavePortfolioValuation(db, p, c.purchased, c.value, c.count)
    case OfUser(u) => SaveUserValuation(db, u, c.purchased, c.value, c.count)
  }

  /** Puts the outcome of a step back, and records whether it wrote a quantity or an index entry. */
  function AfterStep(ev: Trades, s: System, w: Worker, id: TradeId, f: Frame, db: Db, f': Frame): System
    requires id in ev
  {
    var stored := QMark(ev, id) in db.marks && QMark(ev, id) !in s.db.marks;
    var h := ev[id].Key();
    s.(db := db,
       log := if stored then s.log + [id] else s.log,
       jobs := s.jobs[w := Job(id, f')],
       unsynced := if stored then s.unsynced + {h} else if f.Sync? then s.unsynced - {h} else s.unsynced)
  }

  function Exec(ev: Trades, s: System, actions: seq<Action>): System {
    if actions == [] then s
    else Apply(ev, Exec(ev, s, actions[..|actions| - 1]), actions[|actions| - 1])
  }

  /** No trade of ev has left a trace yet; everything else in the store is arbitrary. */
  ghost predicate Initial(ev: Trades, s: System) {
    && s.log == [] && s.jobs == map[] && s.unsynced == {} && s.captured == map[] && s.revalued == map[]
    && (forall id :: id in ev ==>
      QMark(ev, id) !in s.db.marks && PMark(ev, id) !in s.db.marks && UMark(ev, id) !in s.db.marks)
    && (forall id :: id in ev ==> id !in s.db.processed)
  }

  // ---- the store's own view of the ledger accounts --------------------------------------

  function AccountIn(db: Db, a: Account): Totals {
    match a
    case OfPortfolio(p) => Totals(db.Portfolio(p).pv, db.Portfolio(p).IncrementBase(), db.Portfolio(p).ac)
    case OfUser(u) => Totals(db.User(u).pv, db.User(u).IncrementBase(), db.User(u).pc)
  }

  function Open(db: Db): Books {
    Books(db.quantity,
          (map p | p in db.portfolios.Keys :: OfPortfolio(p) := AccountIn(db, OfPortfolio(p)))
          + (map u | u in db.users.Keys :: OfUser(u) := AccountIn(db, OfUser(u))))
  }

  lemma OpenBalance(db: Db, a: Account)
    ensures Open(db).Balance(a) == AccountIn(db, a)
  {}

  // ---- quantities: every interleaving ----------------------------------------------------

  /** Each marker of the log holds the result its own posting computes from the quantities before it. */
  ghost predicate ResultsMarked(ev: Trades, b: Books, log: seq<TradeId>, marks: map<Mark, bool>)
    requires Known(ev, log)
  {
    forall k :: 0 <= k < |log| ==> QMark(ev, log[k]) in marks && marks[QMark(ev, log[k])] == ChangedAt(ev, b, log, k)
  }

  lemma ResultsMarkedPrefix(ev: Trades, b: Books, log: seq<TradeId>, id: TradeId, marks: map<Mark, bool>)
    requires id in ev && Known(ev, log) && Known(ev, log + [id]) && ResultsMarked(ev, b, log + [id], marks)
    ensures ResultsMarked(ev, b, log, marks)
    ensures QMark(ev, id) in marks
    ensures marks[QMark(ev, id)] == NextQuantity(ev[id], Lookup(PostAll(ev, b, log).quantity, ev[id].Key())).1
  {
    PostAllSnoc(ev, b, log, id);
    forall k | 0 <= k < |log|
      ensures QMark(ev, log[k]) in marks && marks[QMark(ev, log[k])] == ChangedAt(ev, b, log, k)
    {
      assert (log + [id])[k] == log[k];
    }
    assert (log + [id])[|log|] == id;
  }

  /** Stored quantities are the fold of the log, and each marker holds the result of its own fold step. */
  ghost predicate QuantityInv(ev: Trades, b: Books, log: seq<TradeId>, quantity: map<Holding, real>,
                              marks: map<Mark, bool>) {
    && Known(ev, log) && Distinct(log)
    && quantity == PostAll(ev, b, log).quantity
    && ResultsMarked(ev, b, log, marks)
    && (forall id :: id in ev && QMark(ev, id) in marks ==> id in log)
  }

  /** A step of t either stores the next quantity with its marker, or leaves quantities and their markers alone. */
  ghost predicate QuantityEffect(db: Db, id: TradeId, t: Trade, db': Db) {
    var m := QuantityMark(t.Key(), TradeEvent(id));
    if m !in db.marks && m in db'.marks then
      var (next, changed) := NextQuantity(t, Lookup(db.quantity, t.Key()));
      db'.quantity == Put(db.quantity, t.Key(), next) && db'.marks == db.marks[m := changed]
    else
      db'.quantity == db.quantity
      && (forall q: Mark :: q.QuantityMark? ==>
        (q in db'.marks <==> q in db.marks) && (q in db.marks ==> db'.marks[q] == db.marks[q]))
  }

  lemma AttemptHasQuantityEffect(db: Db, id: TradeId, t: Trade, current: Option<real>)
    ensures QuantityEffect(db, id, t, StoreQuantity(db, id, t, current).0)
  {}

  lemma OtherStepsLeaveQuantities(db: Db, id: TradeId, t: Trade, f: Frame)
    requires !f.Cas?
    ensures Effect(db, id, t, f).quantity == db.quantity
    ensures forall q: Mark :: q.QuantityMark? ==>
      Lookup(Effect(db, id, t, f).marks, q) == Lookup(db.marks, q)
  {}

  lemma StepHasQuantityEffect(db: Db, id: TradeId, t: Trade, f: Frame)
    ensures QuantityEffect(db, id, t, Effect(db, id, t, f))
  {
    if f.Cas? {
      AttemptHasQuantityEffect(db, id, t, f.current);
    } else {
      OtherStepsLeaveQuantities(db, id, t, f);
      assert QuantityMark(t.Key(), TradeEvent(id)).QuantityMark?;
    }
  }

  lemma ResultStored(ev: Trades, b: Books, log: seq<TradeId>, marks: map<Mark, bool>, id: TradeId, changed: bool)
    requires id in ev && Known(ev, log) && Known(ev, log + [id]) && id !in log && ResultsMarked(ev, b, log, marks)
    requires changed == ChangedAt(ev, b, log + [id], |log|)
    ensures ResultsMarked(ev, b, log + [id], marks[QMark(ev, id) := changed])
  {
    PostAllSnoc(ev, b, log, id);
    var log', marks' := log + [id], marks[QMark(ev, id) := changed];
    forall k | 0 <= k < |log'|
      ensures QMark(ev, log'[k]) in marks' && marks'[QMark(ev, log'[k])] == ChangedAt(ev, b, log', k)
    {
      if k < |log| {
        assert log'[k] == log[k];
        assert QMark(ev, log[k]) != QMark(ev, id);
      }
    }
  }

  /** What a storing step does. */
  lemma EffectStored(db: Db, id: TradeId, t: Trade, db': Db)
    requires QuantityEffect(db, id, t, db')
    requires QuantityMark(t.Key(), TradeEvent(id)) !in db.marks && QuantityMark(t.Key(), TradeEvent(id)) in db'.marks
    ensures var (next, changed) := NextQuantity(t, Lookup(db.quantity, t.Key()));
      db'.quantity == Put(db.quantity, t.Key(), next)
      && db'.marks == db.marks[QuantityMark(t.Key(), TradeEvent(id)) := changed]
  {}

  lemma DistinctAfter(log: seq<TradeId>, id: TradeId)
    requires Distinct(log) && id !in log
    ensures Distinct(log + [id])
  {}

  lemma MarkedAfter(ev: Trades, log: seq<TradeId>, marks: map<Mark, bool>, id: TradeId, changed: bool)
    requires id in ev && Known(ev, log)
    requires forall i :: i in ev && QMark(ev, i) in marks ==> i in log
    ensures forall i :: i in ev && QMark(ev, i) in marks[QMark(ev, id) := changed] ==> i in log + [id]
  {}

  lemma QuantityPosted(ev: Trades, b: Books, log: seq<TradeId>, quantity: map<Holding, real>, marks: map<Mark, bool>,
                       id: TradeId, next: Option<real>, changed: bool)
    requires id in ev && QuantityInv(ev, b, log, quantity, marks) && QMark(ev, id) !in marks
    requires (next, changed) == NextQuantity(ev[id], Lookup(quantity, ev[id].Key()))
    ensures QuantityInv(ev, b, log + [id], Put(quantity, ev[id].Key(), next), marks[QMark(ev, id) := changed])
  {
    PostAllSnoc(ev, b, log, id);
    assert id !in log;
    DistinctAfter(log, id);
    ResultStored(ev, b, log, marks, id, changed);
    MarkedAfter(ev, log, marks, id, changed);
  }

  lemma QuantityStored(ev: Trades, b: Books, log: seq<TradeId>, db: Db, id: TradeId, db': Db)
    requires id in ev && QuantityEffect(db, id, ev[id], db') && QMark(ev, id) !in db.marks && QMark(ev, id) in db'.marks
    requires QuantityInv(ev, b, log, db.quantity, db.marks)
    ensures QuantityInv(ev, b, log + [id], db'.quantity, db'.marks)
  {
    EffectStored(db, id, ev[id], db');
    var (next, changed) := NextQuantity(ev[id], Lookup(db.quantity, ev[id].Key()));
    QuantityPosted(ev, b, log, db.quantity, db.marks, id, next, changed);
  }

  lemma QuantityUntouched(ev: Trades, b: Books, log: seq<TradeId>, db: Db, id: TradeId, db': Db)
    requires id in ev && QuantityEffect(db, id, ev[id], db')
    requires (QMark(ev, id) in db.marks || QMark(ev, id) !in db'.marks)
    requires QuantityInv(ev, b, log, db.quantity, db.marks)
    ensures QuantityInv(ev, b, log, db'.quantity, db'.marks)
  {
    forall k | 0 <= k < |log|
      ensures QMark(ev, log[k]) in db'.marks && db'.marks[QMark(ev, log[k])] == ChangedAt(ev, b, log, k)
    {
      assert QMark(ev, log[k]).QuantityMark?;
    }
  }

  lemma QuantitiesFollow(ev: Trades, b: Books, log: seq<TradeId>, db: Db, id: TradeId, db': Db)
    requires id in ev && QuantityInv(ev, b, log, db.quantity, db.marks) && QuantityEffect(db, id, ev[id], db')
    ensures var stored := QMark(ev, id) in db'.marks && QMark(ev, id) !in db.marks;
      QuantityInv(ev, b, if stored then log + [id] else log, db'.quantity, db'.marks)
  {
    if QMark(ev, id) in db'.marks && QMark(ev, id) !in db.marks {
      QuantityStored(ev, b, log, db, id, db');
    } else {
      QuantityUntouched(ev, b, log, db, id, db');
    }
  }

  lemma QuantitiesKeptByEffect(ev: Trades, b: Books, s: System, w: Worker, db': Db, f': Frame)
    requires w in s.jobs && s.jobs[w].id in ev && QuantityInv(ev, b, s.log, s.db.quantity, s.db.marks)
    requires QuantityEffect(s.db, s.jobs[w].id, ev[s.jobs[w].id], db')
    ensures var s' := AfterStep(ev, s, w, s.jobs[w].id, s.jobs[w].frame, db', f');
      QuantityInv(ev, b, s'.log, s'.db.quantity, s'.db.marks)
  {
    QuantitiesFollow(ev, b, s.log, s.db, s.jobs[w].id, db');
  }

  /** Half a pipeline moves neither quantities nor markers nor counters. */
  lemma TornKeeps(db: Db, t: Trade, f: Frame)
    ensures var db' := Torn(db, t, f);
      && db'.quantity == db.quantity && db'.marks == db.marks && db'.processed == db.processed && db'.users == db.users
      && forall p ::
           db'.Portfolio(p) == db.Portfolio(p) ||
           (f.MapOwner? && p == t.portfolio
             && db'.Portfolio(p) == db.Portfolio(p).(owner := Some(t.user), pending := true))
  {}

  /** Price workers touch neither quantities, markers nor indexes. */
  predicate SameHoldings(db: Db, db': Db) {
    && db'.quantity == db.quantity && db'.marks == db.marks && db'.processed == db.processed
    && db'.stockIndex == db.stockIndex && db'.holdingIndex == db.holdingIndex
  }

  lemma PriceStepKeeps(ev: Trades, s: System, a: Action)
    requires a.Price? || a.Capture? || a.SaveCaptured?
    ensures var s' := Apply(ev, s, a);
      SameHoldings(s.db, s'.db) && s'.log == s.log && s'.jobs == s.jobs && s'.unsynced == s.unsynced
  {}

  lemma ActionKeepsQuantities(ev: Trades, b: Books, s: System, a: Action)
    requires QuantityInv(ev, b, s.log, s.db.quantity, s.db.marks)
    ensures var r := Apply(ev, s, a); QuantityInv(ev, b, r.log, r.db.quantity, r.db.marks)
  {
    if a.Advance? && a.w in s.jobs && s.jobs[a.w].id in ev {
      var Job(id, f) := s.jobs[a.w];
      StepHasQuantityEffect(s.db, id, ev[id], f);
      QuantitiesKeptByEffect(ev, b, s, a.w, Effect(s.db, id, ev[id], f), Next(s.db, id, ev[id], f));
    } else if a.Tear? && a.w in s.jobs && s.jobs[a.w].id in ev {
      TornKeeps(s.db, ev[s.jobs[a.w].id], s.jobs[a.w].frame);
    } else if a.Price? || a.Capture? || a.SaveCaptured? {
      PriceStepKeeps(ev, s, a);
    }
  }

  lemma {:induction false} QuantityReachable(ev: Trades, s: System, actions: seq<Action>)
    requires Initial(ev, s)
    ensures var r := Exec(ev, s, actions); QuantityInv(ev, Open(s.db), r.log, r.db.quantity, r.db.marks)
  {
    if actions != [] {
      QuantityReachable(ev, s, actions[..|actions| - 1]);
      ActionKeepsQuantities(ev, Open(s.db), Exec(ev, s, actions[..|actions| - 1]), actions[|actions| - 1]);
    }
  }
}
