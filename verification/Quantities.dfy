/** Quantities in plain arithmetic: what one posting and one storing step do, and what whole runs come to. */
module Quantities {
  import opened Domain
  import opened RedisDb
  import opened TradeHandler
  import opened Ledger
  import opened TradeSystem

  /** The quantity of h after t, as a number; a missing key is zero. */
  function Moved(quantity: real, t: Trade, h: Holding): real {
    if t.portfolio != h.portfolio || t.stock != h.stock then quantity
    else if t.kind.Buy? then quantity + t.quantity
    else if quantity - t.quantity > 0.0 then quantity - t.quantity
    else 0.0
  }

  /** A buy stores the sum. A sell stores the difference while that is positive, and otherwise removes the key. No other
      key changes. */
  ghost predicate Traded(before: map<Holding, real>, t: Trade, after: map<Holding, real>) {
    var h := Holding(t.portfolio, t.stock);
    var left := GetOr(before, h, 0.0) - t.quantity;
    && (t.kind.Buy? ==> Lookup(after, h) == Some(GetOr(before, h, 0.0) + t.quantity))
    && (t.kind.Sell? ==> Lookup(after, h) == if left > 0.0 then Some(left) else None)
    && forall k: Holding :: k != h ==> Lookup(after, k) == Lookup(before, k)
  }

  lemma PostingTrades(b: Books, t: Trade)
    ensures Traded(b.quantity, t, Post(b, t).quantity)
  {}

  /** The step of a handler that stores does the same, and records whether the holding was new or is now gone. Every
      other attempt leaves all quantities alone. */
  lemma AttemptTrades(db: Db, id: TradeId, t: Trade, attempt: nat, current: Option<real>)
    ensures var h, db' := Holding(t.portfolio, t.stock), Effect(db, id, t, Cas(attempt, current));
      var m, held := QuantityMark(h, TradeEvent(id)), GetOr(db.quantity, h, 0.0);
      if m !in db.marks && current == Lookup(db.quantity, h) then
        Traded(db.quantity, t, db'.quantity)
        && Lookup(db'.marks, m) == Some(if t.kind.Buy? then held == 0.0 else held <= t.quantity)
      else db'.quantity == db.quantity && db'.marks == db.marks
  {}

  /** Where an attempt leads: on to the indexes with the result that was stored first, or round again with the value
      found. */
  lemma AttemptLeadsTo(db: Db, id: TradeId, t: Trade, attempt: nat, current: Option<real>)
    ensures var h, f := Holding(t.portfolio, t.stock), Next(db, id, t, Cas(attempt, current));
      var m, db' := QuantityMark(h, TradeEvent(id)), Effect(db, id, t, Cas(attempt, current));
      if m in db.marks then f == Sync(db.marks[m], Lookup(db.quantity, h))
      else if current != Lookup(db.quantity, h) then
        f == (if attempt < 4 then Cas(attempt + 1, Lookup(db.quantity, h)) else GaveUp)
      else m in db'.marks && f == Sync(db'.marks[m], Lookup(db'.quantity, h))
  {}

  /** So a handler tries five times. */
  lemma FifthConflictGivesUp(db: Db, id: TradeId, t: Trade, attempt: nat, current: Option<real>)
    ensures Next(db, id, t, Cas(attempt, current)).GaveUp? <==>
      attempt >= 4 && QuantityMark(Holding(t.portfolio, t.stock), TradeEvent(id)) !in db.marks
      && current != Lookup(db.quantity, Holding(t.portfolio, t.stock))
  {
    AttemptLeadsTo(db, id, t, attempt, current);
  }

  lemma TradedMoves(before: map<Holding, real>, t: Trade, after: map<Holding, real>, h: Holding)
    requires Traded(before, t, after)
    ensures GetOr(after, h, 0.0) == Moved(GetOr(before, h, 0.0), t, h)
  {
    assert h != Holding(t.portfolio, t.stock) ==> Lookup(after, h) == Lookup(before, h);
  }

  // ---- whole logs ----------------------------------------------------------------------------

  /** The quantity of h after the trades of the log, one after the other. */
  function Running(ev: Trades, start: real, log: seq<TradeId>, h: Holding): real
    requires Known(ev, log)
  {
    if log == [] then start else Moved(Running(ev, start, log[..|log| - 1], h), ev[log[|log| - 1]], h)
  }

  lemma {:induction false} LedgerRuns(ev: Trades, b: Books, log: seq<TradeId>, h: Holding)
    requires Known(ev, log)
    ensures GetOr(PostAll(ev, b, log).quantity, h, 0.0) == Running(ev, GetOr(b.quantity, h, 0.0), log, h)
  {
    if log != [] {
      var rest, t := log[..|log| - 1], ev[log[|log| - 1]];
      LedgerRuns(ev, b, rest, h);
      PostingTrades(PostAll(ev, b, rest), t);
      TradedMoves(PostAll(ev, b, rest).quantity, t, PostAll(ev, b, log).quantity, h);
    }
  }

  /** Buys less sells of h. */
  function SignedSum(ev: Trades, log: seq<TradeId>, h: Holding): real
    requires Known(ev, log)
  {
    if log == [] then 0.0
    else
      var t := ev[log[|log| - 1]];
      SignedSum(ev, log[..|log| - 1], h) +
      if t.portfolio != h.portfolio || t.stock != h.stock then 0.0
      else if t.kind.Buy? then t.quantity
      else -t.quantity
  }

  predicate Sells(t: Trade, h: Holding) {
    t.kind.Sell? && t.portfolio == h.portfolio && t.stock == h.stock
  }

  /** No sell of the log takes h down to nothing. */
  ghost predicate NeverEmptied(ev: Trades, start: real, log: seq<TradeId>, h: Holding)
    requires Known(ev, log)
  {
    forall k :: 0 < k <= |log| && Sells(ev[log[k - 1]], h) ==> start + SignedSum(ev, log[..k], h) > 0.0
  }

  lemma NeverEmptiedPrefix(ev: Trades, start: real, log: seq<TradeId>, h: Holding)
    requires Known(ev, log) && log != [] && NeverEmptied(ev, start, log, h)
    ensures NeverEmptied(ev, start, log[..|log| - 1], h)
  {
    var rest := log[..|log| - 1];
    forall k | 0 < k <= |rest| ensures rest[..k] == log[..k] && rest[k - 1] == log[k - 1] {}
  }

  lemma {:induction false} RunningIsSum(ev: Trades, start: real, log: seq<TradeId>, h: Holding)
    requires Known(ev, log) && NeverEmptied(ev, start, log, h)
    ensures Running(ev, start, log, h) == start + SignedSum(ev, log, h)
  {
    if log != [] {
      NeverEmptiedPrefix(ev, start, log, h);
      RunningIsSum(ev, start, log[..|log| - 1], h);
      assert log[..|log|] == log;
    }
  }

  /** In every reachable state, under every interleaving, a stored quantity is what its distinct stored events come to
      one after the other; where no sell has emptied the holding that is the opening quantity and their signed sum. */
  lemma StoredQuantityIsRunning(ev: Trades, s: System, actions: seq<Action>, r: System, h: Holding)
    requires Initial(ev, s) && r == Exec(ev, s, actions)
    ensures Known(ev, r.log) && Distinct(r.log)
    ensures GetOr(r.db.quantity, h, 0.0) == Running(ev, GetOr(s.db.quantity, h, 0.0), r.log, h)
    ensures NeverEmptied(ev, GetOr(s.db.quantity, h, 0.0), r.log, h) ==>
      GetOr(r.db.quantity, h, 0.0) == GetOr(s.db.quantity, h, 0.0) + SignedSum(ev, r.log, h)
  {
    QuantityReachable(ev, s, actions);
    LedgerRuns(ev, Open(s.db), r.log, h);
    if NeverEmptied(ev, GetOr(s.db.quantity, h, 0.0), r.log, h) {
      RunningIsSum(ev, GetOr(s.db.quantity, h, 0.0), r.log, h);
    }
  }
}
