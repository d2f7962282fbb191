/** A read whose answer gets lost counts as zero, and the snapshot after it writes that zero over the counter. */
module LostReads {
  import opened Domain
  import opened RedisDb
  import opened TradeHandler
  import opened Ledger
  import opened TradeSystem
  import opened ExactlyOnce
  import opened ExclusiveHandlers
  import R = Refinement
  import opened UserAggregates
  import opened DoubleCount

  /** A repeated delivery of a processed trade whose first read, of pv, gets no answer, up to its portfolio snapshot. */
  function Redelivery(w: Worker, id: TradeId): seq<Action> {
    [Start(w, id)] + [Advance(w)] + [Blind(w)] + [Advance(w)] + [Advance(w)] + [Advance(w)]
  }

  lemma ExecSnoc(ev: Trades, s: System, actions: seq<Action>, a: Action)
    ensures Exec(ev, s, actions + [a]) == Apply(ev, Exec(ev, s, actions), a)
  {
    assert (actions + [a])[..|actions|] == actions;
  }

  /** Up to the read, and past it with nothing. */
  lemma ReadsNothing(ev: Trades, s: System, w: Worker, id: TradeId, r: System)
    requires w !in s.jobs && id in ev && id in s.db.processed
    requires r == Exec(ev, s, [Start(w, id)] + [Advance(w)] + [Blind(w)])
    ensures r.db == s.db && r.log == s.log && w in r.jobs && r.jobs[w] == Job(id, ReadValue(0))
  {
    ExecSnoc(ev, s, [], Start(w, id));
    assert [] + [Start(w, id)] == [Start(w, id)];
    ExecSnoc(ev, s, [Start(w, id)], Advance(w));
    ExecSnoc(ev, s, [Start(w, id)] + [Advance(w)], Blind(w));
  }

  lemma QuietAdvance(ev: Trades, s: System, w: Worker, db: Db, f': Frame)
    requires w in s.jobs && s.jobs[w].id in ev && db.marks == s.db.marks
    requires db == Effect(s.db, s.jobs[w].id, ev[s.jobs[w].id], s.jobs[w].frame)
    requires f' == Next(s.db, s.jobs[w].id, ev[s.jobs[w].id], s.jobs[w].frame)
    ensures var r := Apply(ev, s, Advance(w));
      r.db == db && r.log == s.log && w in r.jobs && r.jobs[w] == Job(s.jobs[w].id, f')
  {}

  lemma SavesNothing(ev: Trades, s: System, w: Worker, id: TradeId, r: System)
    requires w in s.jobs && id in ev && s.jobs[w] == Job(id, ReadValue(0)) && s.db.Portfolio(ev[id].portfolio).cvp.Some?
    requires r == Apply(ev, Apply(ev, Apply(ev, s, Advance(w)), Advance(w)), Advance(w))
    ensures var pf := s.db.Portfolio(ev[id].portfolio);
      r.log == s.log && r.db == s.db.WithPortfolio(ev[id].portfolio, SavedZero(pf))
  {
    var pf := s.db.Portfolio(ev[id].portfolio);
    var s1 := Apply(ev, s, Advance(w));
    QuietAdvance(ev, s, w, s.db, ReadCount(0, pf.cvp.value));
    var s2 := Apply(ev, s1, Advance(w));
    QuietAdvance(ev, s1, w, s.db, SavePortfolio(0, pf.cvp.value, pf.ac));
    QuietAdvance(ev, s2, w, s.db.WithPortfolio(ev[id].portfolio, SavedZero(pf)), ReadUserPurchased);
  }

  function SavedZero(pf: Portfolio): Portfolio {
    pf.(pv := 0, cv := RoundToInt64(pf.CurrentValue()), deleted := false)
  }

  /** Wherever a processed trade is delivered once more: the lost answer zeroes the purchased value and changes nothing
      else that is counted. */
  lemma LostReadZeroesPurchased(ev: Trades, s: System, w: Worker, id: TradeId, r: System)
    requires w !in s.jobs && id in ev && id in s.db.processed && s.db.Portfolio(ev[id].portfolio).cvp.Some?
    requires r == Exec(ev, s, Redelivery(w, id))
    ensures r.log == s.log && r.db == s.db.WithPortfolio(ev[id].portfolio, SavedZero(s.db.Portfolio(ev[id].portfolio)))
  {
    var read := [Start(w, id)] + [Advance(w)] + [Blind(w)];
    ReadsNothing(ev, s, w, id, Exec(ev, s, read));
    ExecSnoc(ev, s, read, Advance(w));
    ExecSnoc(ev, s, read + [Advance(w)], Advance(w));
    ExecSnoc(ev, s, read + [Advance(w)] + [Advance(w)], Advance(w));
    SavesNothing(ev, Exec(ev, s, read), w, id, r);
  }

  /** So the store leaves the books, unless the counter was zero anyway. */
  lemma LostReadLeavesTheBooks(ev: Trades, b: Books, s: System, w: Worker, id: TradeId, r: System)
    requires w !in s.jobs && id in ev && id in s.db.processed && s.db.Portfolio(ev[id].portfolio).cvp.Some?
    requires OnTheBooks(ev, b, s) && r == Exec(ev, s, Redelivery(w, id))
    ensures OnTheBooks(ev, b, r) <==> s.db.Portfolio(ev[id].portfolio).pv == 0
  {
    LostReadZeroesPurchased(ev, s, w, id, r);
    var a := OfPortfolio(ev[id].portfolio);
    assert AccountIn(s.db, a) == PostAll(ev, b, s.log).Balance(a);
    assert AccountIn(r.db, a).purchased == 0;
    if s.db.Portfolio(ev[id].portfolio).pv == 0 {
      forall c ensures AccountIn(r.db, c) == PostAll(ev, b, r.log).Balance(c) {
        assert AccountIn(r.db, c) == AccountIn(s.db, c);
      }
    }
  }

  // ---- one run ---------------------------------------------------------------------------------

  function Steps(w: Worker, n: nat): seq<Action> {
    seq(n, _ => Advance(w))
  }

  lemma FirstStep(ev: Trades, s: System, w: Worker, n: nat)
    requires n > 0
    ensures Exec(ev, s, Steps(w, n)) == Exec(ev, Apply(ev, s, Advance(w)), Steps(w, n - 1))
  {
    assert Steps(w, n) == [Advance(w)] + Steps(w, n - 1);
    R.ExecConcat(ev, s, [Advance(w)], Steps(w, n - 1));
    ExecSnoc(ev, s, [], Advance(w));
    assert [] + [Advance(w)] == [Advance(w)];
  }

  lemma AloneFirstStep(db: Db, id: TradeId, t: Trade, f: Frame, n: nat)
    requires n > 0
    ensures Alone(db, id, t, f, n) == Alone(Effect(db, id, t, f), id, t, Next(db, id, t, f), n - 1)
  {}

  lemma AdvancedJob(ev: Trades, s: System, w: Worker, id: TradeId, f: Frame, mid: System)
    requires w in s.jobs && s.jobs[w] == Job(id, f) && id in ev && mid == Apply(ev, s, Advance(w))
    ensures mid.db == Effect(s.db, id, ev[id], f) && w in mid.jobs && mid.jobs[w] == Job(id, Next(s.db, id, ev[id], f))
  {}

  /** Advancing one worker is the undisturbed handler. */
  lemma {:induction false} StepsAreAlone(ev: Trades, s: System, w: Worker, id: TradeId, f: Frame, n: nat, r: System)
    requires w in s.jobs && s.jobs[w] == Job(id, f) && id in ev && r == Exec(ev, s, Steps(w, n))
    ensures w in r.jobs && r.jobs[w].id == id && (r.db, r.jobs[w].frame) == Alone(s.db, id, ev[id], f, n)
    decreases n
  {
    if n > 0 {
      var mid := Apply(ev, s, Advance(w));
      FirstStep(ev, s, w, n);
      AdvancedJob(ev, s, w, id, f, mid);
      AloneFirstStep(s.db, id, ev[id], f, n);
      StepsAreAlone(ev, mid, w, id, mid.jobs[w].frame, n - 1, r);
    }
  }

  /** Starts, stops and steps of w. */
  ghost predicate OnlyBy(w: Worker, actions: seq<Action>) {
    forall k :: 0 <= k < |actions| ==>
      actions[k].w == w && (actions[k].Start? || actions[k].Advance? || actions[k].Stop?)
  }

  /** One worker that loses no answer has nobody to disturb it, so what it saves is fresh. */
  lemma {:induction false} OneWorkerIsFresh(ev: Trades, s: System, w: Worker, actions: seq<Action>)
    requires s.jobs == map[] && OnlyBy(w, actions)
    ensures var r := Exec(ev, s, actions);
      r.jobs.Keys <= {w} && ReadsInv(ev, r.db, r.jobs) && r.captured == s.captured && r.revalued == s.revalued
    ensures FreshRun(ev, s, actions)
  {
    if actions != [] {
      var before, a := Exec(ev, s, actions[..|actions| - 1]), actions[|actions| - 1];
      OneWorkerIsFresh(ev, s, w, actions[..|actions| - 1]);
      if a.Advance? && a.w in before.jobs {
        var Job(id, f) := before.jobs[a.w];
        StepIsLocal(before.db, id, ev[id], f);
        OwnReadKept(before.db, id, ev[id], f);
        ReadsKept(ev, before.db, before.jobs, w, Effect(before.db, id, ev[id], f), Next(before.db, id, ev[id], f));
      }
    }
  }

  /** Trade id, handled once by w and undisturbed. */
  function Once(w: Worker, id: TradeId): seq<Action> {
    [Start(w, id)] + Steps(w, HANDLER_CALLS)
  }

  lemma OnceFinishes(ev: Trades, s: System, w: Worker, id: TradeId, r: System)
    requires s.jobs == map[] && id in ev && r == Exec(ev, s, Once(w, id))
    ensures w in r.jobs && r.jobs[w] == Job(id, Done) && FreshRun(ev, s, Once(w, id))
    ensures r.captured == s.captured && r.revalued == s.revalued
  {
    var started := Apply(ev, s, Start(w, id));
    ExecSnoc(ev, s, [], Start(w, id));
    assert [] + [Start(w, id)] == [Start(w, id)];
    R.ExecConcat(ev, s, [Start(w, id)], Steps(w, HANDLER_CALLS));
    StepsAreAlone(ev, started, w, id, Check, HANDLER_CALLS, r);
    UndisturbedHandlerFinishes(s.db, id, ev[id], Check, HANDLER_CALLS);
    OneWorkerIsFresh(ev, s, w, Once(w, id));
  }

  /** Where id is the only trade there is, a run that completes it leaves exactly it on the books. */
  lemma OnlyTradeCounts(ev: Trades, s: System, actions: seq<Action>, w: Worker, id: TradeId, r: System)
    requires Initial(ev, s) && FreshRun(ev, s, actions) && r == Exec(ev, s, actions) && ev.Keys == {id}
    requires w in r.jobs && r.jobs[w] == Job(id, Done) && r.revalued == map[]
    ensures OnTheBooks(ev, Open(s.db), r) && id in r.db.processed && r.log == [id]
  {
    MarkersReachable(ev, s, actions);
    OnlyOneProcessed(ev, Open(s.db), w, id, r);
    TradesCountExactlyOnce(ev, s, actions, r);
    ShiftedByNothing(Open(s.db));
    OnlyOne(ev, r.log, id);
  }

  lemma OnlyOneProcessed(ev: Trades, b: Books, w: Worker, id: TradeId, r: System)
    requires ev.Keys == {id} && MarkerInv(ev, b, r) && w in r.jobs && r.jobs[w] == Job(id, Done)
    ensures id in r.db.processed && forall k :: 0 <= k < |r.log| ==> r.log[k] in r.db.processed
  {
    forall k | 0 <= k < |r.log| ensures r.log[k] in r.db.processed { assert r.log[k] in ev; }
  }

  lemma OnlyOne(ev: Trades, log: seq<TradeId>, id: TradeId)
    requires ev.Keys == {id} && Known(ev, log) && Distinct(log) && id in log
    ensures log == [id]
  {
    forall k | 0 <= k < |log| ensures log[k] == id { assert log[k] in ev; }
    assert log[0] == log[|log| - 1];
  }

  lemma FirstBuyPosts(ev: Trades, b: Books, id: TradeId)
    requires id in ev && ev[id].kind.Buy? && ev[id].Key() !in b.quantity
    ensures var a := OfPortfolio(ev[id].portfolio);
      PostAll(ev, b, [id]).Balance(a).IsSum(b.Balance(a), ev[id].PortfolioDelta(true))
  {
    assert [id][..0] == [];
    assert PostAll(ev, b, []) == b;
  }

  /** A store in which the portfolio of id stands at nothing and its stock is not held. */
  ghost predicate Blank(db: Db, t: Trade) {
    t.Key() !in db.quantity && AccountIn(db, OfPortfolio(t.portfolio)) == ZERO
  }

  lemma FirstBuyIsCounted(ev: Trades, b: Books, db: Db, id: TradeId, r: System)
    requires id in ev && ev[id].kind.Buy? && Blank(db, ev[id]) && b == Open(db) && OnTheBooks(ev, b, r) && r.log == [id]
    ensures AccountIn(r.db, OfPortfolio(ev[id].portfolio)) == ev[id].PortfolioDelta(true)
  {
    FirstBuyPosts(ev, b, id);
    OpenBalance(db, OfPortfolio(ev[id].portfolio));
  }

  lemma OnceHasCounted(ev: Trades, s: System, w: Worker, id: TradeId, r: System)
    requires Initial(ev, s) && ev.Keys == {id} && ev[id].kind.Buy? && Blank(s.db, ev[id])
    requires r == Exec(ev, s, Once(w, id))
    ensures OnTheBooks(ev, Open(s.db), r) && id in r.db.processed && w in r.jobs && r.jobs[w] == Job(id, Done)
    ensures AccountIn(r.db, OfPortfolio(ev[id].portfolio)) == ev[id].PortfolioDelta(true)
  {
    OnceFinishes(ev, s, w, id, r);
    OnlyTradeCounts(ev, s, Once(w, id), w, id, r);
    FirstBuyIsCounted(ev, Open(s.db), s.db, id, r);
  }

  lemma Stopped(ev: Trades, b: Books, w: Worker, s: System, r: System)
    requires OnTheBooks(ev, b, s) && r == Apply(ev, s, Stop(w))
    ensures OnTheBooks(ev, b, r) && w !in r.jobs && r.db == s.db && r.log == s.log
  {}

  /** A redelivery of the counted buy after it has been stopped. */
  lemma LostReadAfterwards(ev: Trades, b: Books, w: Worker, id: TradeId, once: System, again: System)
    requires id in ev && w !in once.jobs && id in once.db.processed && OnTheBooks(ev, b, once)
    requires ev[id].kind.Buy? && ev[id].SignedAmount() != 0.0
    requires AccountIn(once.db, OfPortfolio(ev[id].portfolio)) == ev[id].PortfolioDelta(true)
    requires again == Exec(ev, once, Redelivery(w, id))
    ensures once.db.Portfolio(ev[id].portfolio).pv == ev[id].SignedPurchase()
    ensures again.db.Portfolio(ev[id].portfolio).pv == 0 && again.db.processed == once.db.processed
    ensures OnTheBooks(ev, b, again) <==> ev[id].SignedPurchase() == 0
  {
    assert once.db.Portfolio(ev[id].portfolio).cvp.Some?;
    LostReadZeroesPurchased(ev, once, w, id, again);
    LostReadLeavesTheBooks(ev, b, once, w, id, again);
  }

  /** Handled once, a first buy leaves its amount. Delivered once more, with the read of pv lost, it leaves zero. */
  lemma LostReadDestroysTheCounter(ev: Trades, s: System, w: Worker, id: TradeId, once: System, again: System)
    requires Initial(ev, s) && ev.Keys == {id} && ev[id].kind.Buy? && Blank(s.db, ev[id])
    requires ev[id].SignedAmount() != 0.0
    requires once == Exec(ev, s, Once(w, id) + [Stop(w)]) && again == Exec(ev, once, Redelivery(w, id))
    ensures OnTheBooks(ev, Open(s.db), once) && once.db.Portfolio(ev[id].portfolio).pv == ev[id].SignedPurchase()
    ensures again.db.Portfolio(ev[id].portfolio).pv == 0 && again.db.processed == once.db.processed
    ensures OnTheBooks(ev, Open(s.db), again) <==> ev[id].SignedPurchase() == 0
  {
    var done := Exec(ev, s, Once(w, id));
    ExecSnoc(ev, s, Once(w, id), Stop(w));
    OnceHasCounted(ev, s, w, id, done);
    Stopped(ev, Open(s.db), w, done, once);
    LostReadAfterwards(ev, Open(s.db), w, id, once, again);
  }

  const NOTHING := Db(map[], {}, {}, map[], map[], {}, map[], {})
  const START := System(NOTHING, [], map[], {}, map[], map[])

  lemma PurchaseOfTen()
    ensures EVENTS.Keys == {7} && EVENTS[7].portfolio == 1 && EVENTS[7].kind.Buy?
    ensures EVENTS[7].SignedPurchase() == 10 && EVENTS[7].SignedAmount() == 10.0
    ensures Initial(EVENTS, START) && Blank(NOTHING, EVENTS[7])
  {}

  /** From an empty store: the purchase of 10 is counted, and then it is gone. */
  lemma OneLostReadDestroysTheCounter(once: System, again: System)
    requires once == Exec(EVENTS, START, Once(1, 7) + [Stop(1)]) && again == Exec(EVENTS, once, Redelivery(1, 7))
    ensures Initial(EVENTS, START)
    ensures OnTheBooks(EVENTS, Open(NOTHING), once) && once.db.Portfolio(1).pv == 10
    ensures again.db.Portfolio(1).pv == 0 && !OnTheBooks(EVENTS, Open(NOTHING), again)
  {
    PurchaseOfTen();
    LostReadDestroysTheCounter(EVENTS, START, 1, 7, once, again);
  }
}
