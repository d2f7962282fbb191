/** Handlers that do not overlap on a portfolio or a user, with each other or with a price worker that is about to save
    one, and lose no answer that matters: their snapshots are fresh. */
module ExclusiveHandlers {
  import opened Domain
  import opened RedisDb
  import opened TradeHandler
  import opened Ledger
  import opened TradeSystem
  import opened ExactlyOnce

  ghost predicate Exclusive(ev: Trades, jobs: map<Worker, Job>) {
    forall v, w :: v in jobs && w in jobs && v != w && jobs[v].id in ev && jobs[w].id in ev ==>
      ev[jobs[v].id].portfolio != ev[jobs[w].id].portfolio && ev[jobs[v].id].user != ev[jobs[w].id].user
  }

  /** No handler works on an account whose numbers a price worker has read and not saved yet. */
  ghost predicate ApartFromPrices(ev: Trades, jobs: map<Worker, Job>, captured: map<Worker, Captured>) {
    forall v, w :: v in captured && w in jobs && jobs[w].id in ev ==> Apart(captured[v].account, ev[jobs[w].id])
  }

  predicate Apart(a: Account, t: Trade) {
    a != OfPortfolio(t.portfolio) && a != OfUser(t.user)
  }

  /** A counter that the lost answer would have shown to be zero. */
  predicate NothingMissed(db: Db, t: Trade, f: Frame) {
    match f
    case ReadPurchased => db.Portfolio(t.portfolio).pv == 0
    case ReadCount(_, _) => db.Portfolio(t.portfolio).ac == 0
    case ReadUserPurchased => db.User(t.user).pv == 0
    case ReadUserCount(_, _) => db.User(t.user).pc == 0
    case _ => true
  }

  predicate SeeingAction(ev: Trades, s: System, a: Action) {
    a.Blind? && a.w in s.jobs && s.jobs[a.w].id in ev ==> NothingMissed(s.db, ev[s.jobs[a.w].id], s.jobs[a.w].frame)
  }

  /** Handlers do not overlap, and no answer about a non-zero counter gets lost. Owners, compatibility keys and values
      may get lost. */
  ghost predicate ExclusiveRun(ev: Trades, s: System, actions: seq<Action>) {
    && Exclusive(ev, Exec(ev, s, actions).jobs)
    && ApartFromPrices(ev, Exec(ev, s, actions).jobs, Exec(ev, s, actions).captured)
    && (actions != [] ==>
          ExclusiveRun(ev, s, actions[..|actions| - 1])
            && SeeingAction(ev, Exec(ev, s, actions[..|actions| - 1]), actions[|actions| - 1]))
  }

  /** What the handler has read is still what the store holds. */
  ghost predicate ReadOk(db: Db, t: Trade, f: Frame) {
    match f
    case ReadValue(pv) => pv == db.Portfolio(t.portfolio).pv
    case ReadFallback(pv) => pv == db.Portfolio(t.portfolio).pv
    case ReadCount(pv, _) => pv == db.Portfolio(t.portfolio).pv
    case SavePortfolio(pv, _, ac) => pv == db.Portfolio(t.portfolio).pv && ac == db.Portfolio(t.portfolio).ac
    case ReadUserValue(pv) => pv == db.User(t.user).pv
    case ReadUserFallback(pv) => pv == db.User(t.user).pv
    case ReadUserCount(pv, _) => pv == db.User(t.user).pv
    case SaveUser(pv, _, pc) => pv == db.User(t.user).pv && pc == db.User(t.user).pc
    case _ => true
  }

  ghost predicate ReadsInv(ev: Trades, db: Db, jobs: map<Worker, Job>) {
    forall w :: w in jobs ==> jobs[w].id in ev && ReadOk(db, ev[jobs[w].id], jobs[w].frame)
  }

  /** A step of t stays within its own portfolio and user. */
  ghost predicate Local(db: Db, t: Trade, db': Db) {
    && (forall p :: p != t.portfolio ==> db'.Portfolio(p) == db.Portfolio(p))
    && (forall u :: u != t.user ==> db'.User(u) == db.User(u))
  }

  lemma StepIsLocal(db: Db, id: TradeId, t: Trade, f: Frame)
    ensures Local(db, t, Effect(db, id, t, f))
  {}

  lemma OwnReadKept(db: Db, id: TradeId, t: Trade, f: Frame)
    requires ReadOk(db, t, f)
    ensures ReadOk(Effect(db, id, t, f), t, Next(db, id, t, f))
  {}

  lemma BlindReadKept(db: Db, t: Trade, f: Frame)
    requires ReadOk(db, t, f) && Swallows(f) && NothingMissed(db, t, f)
    ensures ReadOk(db, t, NextBlind(f))
  {}

  lemma OtherReadKept(db: Db, t: Trade, db': Db, other: Trade, f: Frame)
    requires Local(db, t, db') && other.portfolio != t.portfolio && other.user != t.user && ReadOk(db, other, f)
    ensures ReadOk(db', other, f)
  {}

  lemma ReadsKept(ev: Trades, db: Db, jobs: map<Worker, Job>, w: Worker, db': Db, f': Frame)
    requires w in jobs && Exclusive(ev, jobs) && ReadsInv(ev, db, jobs)
    requires Local(db, ev[jobs[w].id], db') && ReadOk(db', ev[jobs[w].id], f')
    ensures ReadsInv(ev, db', jobs[w := Job(jobs[w].id, f')])
  {
    forall v | v in jobs && v != w ensures ReadOk(db', ev[jobs[v].id], jobs[v].frame) {
      OtherReadKept(db, ev[jobs[w].id], db', ev[jobs[v].id], jobs[v].frame);
    }
  }

  ghost predicate CapturedInv(db: Db, captured: map<Worker, Captured>) {
    forall v :: v in captured ==> FreshCaptured(db, captured[v])
  }

  /** What a step of t writes does not concern the accounts that are about to be saved. */
  lemma CapturedKept(ev: Trades, db: Db, jobs: map<Worker, Job>, captured: map<Worker, Captured>, w: Worker, db': Db)
    requires w in jobs && jobs[w].id in ev && ApartFromPrices(ev, jobs, captured) && CapturedInv(db, captured)
    requires Local(db, ev[jobs[w].id], db')
    ensures CapturedInv(db', captured)
  {
    forall v | v in captured ensures FreshCaptured(db', captured[v]) {
      assert Apart(captured[v].account, ev[jobs[w].id]);
      assert AccountIn(db', captured[v].account) == AccountIn(db, captured[v].account);
    }
  }

  /** No counter moves. */
  ghost predicate SameCounters(db: Db, db': Db) {
    forall a :: AccountIn(db', a).purchased == AccountIn(db, a).purchased
      && AccountIn(db', a).count == AccountIn(db, a).count
  }

  lemma SameCountersRead(db: Db, db': Db, t: Trade, f: Frame)
    requires ReadOk(db, t, f) && SameCounters(db, db')
    ensures ReadOk(db', t, f)
  {
    var p, u := OfPortfolio(t.portfolio), OfUser(t.user);
    assert AccountIn(db', p).purchased == AccountIn(db, p).purchased
      && AccountIn(db', u).purchased == AccountIn(db, u).purchased;
  }

  lemma SameCountersKeep(ev: Trades, db: Db, db': Db, jobs: map<Worker, Job>, captured: map<Worker, Captured>)
    requires ReadsInv(ev, db, jobs) && CapturedInv(db, captured) && SameCounters(db, db')
    ensures ReadsInv(ev, db', jobs) && CapturedInv(db', captured)
  {
    forall v | v in jobs ensures ReadOk(db', ev[jobs[v].id], jobs[v].frame) {
      SameCountersRead(db, db', ev[jobs[v].id], jobs[v].frame);
    }
  }

  lemma TornKeepsCounters(db: Db, t: Trade, f: Frame)
    ensures SameCounters(db, Torn(db, t, f))
  {
    forall a ensures AccountIn(Torn(db, t, f), a) == AccountIn(db, a) { TornKeepsAccount(db, t, f, a); }
  }

  lemma PriceKeepsCounters(db: Db, call: PriceCall)
    ensures SameCounters(db, PriceEffect(db, call))
  {
    forall a ensures TotalMoves(AccountIn(db, a), AccountIn(PriceEffect(db, call), a), a == PricedAccount(call)) {
      PriceMovesTotal(db, call, a);
    }
  }

  /** A price worker saves what is still there. */
  lemma PriceStepKeepsReads(ev: Trades, s: System, a: Action, s': System)
    requires (a.Price? || a.Capture? || a.SaveCaptured?) && s' == Apply(ev, s, a) && s'.jobs == s.jobs
    requires ReadsInv(ev, s.db, s.jobs) && CapturedInv(s.db, s.captured)
    ensures ReadsInv(ev, s'.db, s'.jobs) && CapturedInv(s'.db, s'.captured)
  {
    if a.Price? {
      PriceKeepsCounters(s.db, a.call);
      SameCountersKeep(ev, s.db, s'.db, s.jobs, s.captured);
    } else if a.SaveCaptured? && a.w in s.captured {
      CapturedKeepsAccountsIffFresh(s.db, s.captured[a.w]);
      SameCountersKeep(ev, s.db, s'.db, s.jobs, s'.captured);
    }
  }

  lemma {:induction false} ReadsReachable(ev: Trades, s: System, actions: seq<Action>)
    requires Initial(ev, s) && ExclusiveRun(ev, s, actions)
    ensures var r := Exec(ev, s, actions); ReadsInv(ev, r.db, r.jobs) && CapturedInv(r.db, r.captured)
    ensures FreshRun(ev, s, actions)
  {
    if actions != [] {
      var before, a := Exec(ev, s, actions[..|actions| - 1]), actions[|actions| - 1];
      ReadsReachable(ev, s, actions[..|actions| - 1]);
      ActionKeepsReads(ev, before, a);
    }
  }

  lemma StepKeepsReads(ev: Trades, s: System, w: Worker, id: TradeId, f: Frame, db': Db, f': Frame)
    requires w in s.jobs && s.jobs[w] == Job(id, f) && Exclusive(ev, s.jobs) && ApartFromPrices(ev, s.jobs, s.captured)
    requires ReadsInv(ev, s.db, s.jobs) && CapturedInv(s.db, s.captured)
    requires Local(s.db, ev[id], db') && ReadOk(db', ev[id], f')
    ensures ReadsInv(ev, db', s.jobs[w := Job(id, f')]) && CapturedInv(db', s.captured)
  {
    ReadsKept(ev, s.db, s.jobs, w, db', f');
    CapturedKept(ev, s.db, s.jobs, s.captured, w, db');
  }

  lemma ActionKeepsReads(ev: Trades, s: System, a: Action)
    requires Exclusive(ev, s.jobs) && ApartFromPrices(ev, s.jobs, s.captured) && SeeingAction(ev, s, a)
    requires ReadsInv(ev, s.db, s.jobs) && CapturedInv(s.db, s.captured)
    ensures var r := Apply(ev, s, a); ReadsInv(ev, r.db, r.jobs) && CapturedInv(r.db, r.captured)
    ensures FreshAction(ev, s, a)
  {
    if a.Advance? && a.w in s.jobs {
      var Job(id, f) := s.jobs[a.w];
      StepIsLocal(s.db, id, ev[id], f);
      OwnReadKept(s.db, id, ev[id], f);
      StepKeepsReads(ev, s, a.w, id, f, Effect(s.db, id, ev[id], f), Next(s.db, id, ev[id], f));
    } else if a.Blind? && a.w in s.jobs && Swallows(s.jobs[a.w].frame) {
      BlindReadKept(s.db, ev[s.jobs[a.w].id], s.jobs[a.w].frame);
    } else if a.Tear? && a.w in s.jobs {
      var t, f := ev[s.jobs[a.w].id], s.jobs[a.w].frame;
      TornKeepsCounters(s.db, t, f);
      SameCountersKeep(ev, s.db, Torn(s.db, t, f), s.jobs - {a.w}, s.captured);
    } else if a.Price? || a.Capture? || a.SaveCaptured? {
      PriceStepKeeps(ev, s, a);
      PriceStepKeepsReads(ev, s, a, Apply(ev, s, a));
    }
  }

  /** Without overlap no snapshot is ever stale, so trades count exactly once, whatever price batches write. */
  lemma ExclusiveTradesCountExactlyOnce(ev: Trades, s: System, actions: seq<Action>, r: System)
    requires Initial(ev, s) && ExclusiveRun(ev, s, actions) && r == Exec(ev, s, actions)
    requires forall k :: 0 <= k < |r.log| ==> r.log[k] in r.db.processed
    ensures OnTheBooks(ev, Shifted(Open(s.db), r.revalued), r)
  {
    ReadsReachable(ev, s, actions);
    TradesCountExactlyOnce(ev, s, actions, r);
  }
}
