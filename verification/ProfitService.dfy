/** One call of the price service from locks to commit, and one batch of price messages. The fan-out between them is
    module Revaluation's; here it succeeds or fails. */
module ProfitService {
  import opened Domain
  import opened PriceTicks
  import L = PriceLock
  import opened PriceLockSet
  import opened Coalescing

  /** What becomes of the commands of one call. */
  datatype Network = Network(
    setting: StockId -> Delivery, readAnswered: bool, refreshing: StockId -> Delivery,
    committing: StockId -> Delivery, releasing: StockId -> Delivery)

  function StocksOf(requests: seq<Request>): (stocks: seq<StockId>)
    ensures forall s :: s in stocks <==> exists r :: r in requests && r.stock == s
  {
    if requests == [] then []
    else
      assert requests == requests[..|requests| - 1] + [requests[|requests| - 1]];
      StocksOf(requests[..|requests| - 1]) + [requests[|requests| - 1].stock]
  }

  /** The states the commit is given. */
  function StatesOf(requests: seq<Request>): map<StockId, AppliedPrice> {
    Committed(map[], requests)
  }

  lemma {:induction false} StatesAreCommitted(applied: map<StockId, AppliedPrice>, requests: seq<Request>, s: StockId)
    ensures s in StatesOf(requests) <==> exists r :: r in requests && r.stock == s
    ensures Lookup(Committed(applied, requests), s) ==
      if s in StatesOf(requests) then Some(StatesOf(requests)[s]) else Lookup(applied, s)
  {
    if requests != [] {
      assert requests == requests[..|requests| - 1] + [requests[|requests| - 1]];
      StatesAreCommitted(applied, requests[..|requests| - 1], s);
    }
  }

  lemma {:induction false} FreshAreRequests(applied: map<StockId, AppliedPrice>, requests: seq<Request>)
    ensures forall r :: r in Fresh(applied, requests) ==> r in requests
  {
    if requests != [] {
      assert requests == requests[..|requests| - 1] + [requests[|requests| - 1]];
      FreshAreRequests(applied, requests[..|requests| - 1]);
    }
  }

  /** Every stock is as before or as in the target. */
  ghost predicate Between(now: map<StockId, AppliedPrice>, before: map<StockId, AppliedPrice>,
                          target: map<StockId, AppliedPrice>) {
    forall s :: Lookup(now, s) == Lookup(before, s) || Lookup(now, s) == Lookup(target, s)
  }

  /** Success means the states are those of the filtered requests; a failure leaves each stock there or where it was,
      and moves none when the fan-out failed. */
  ghost predicate Updated(ok: bool, now: map<StockId, AppliedPrice>, before: map<StockId, AppliedPrice>,
                          requests: seq<Request>, fanOut: bool) {
    && (ok ==> now == Filtered(before, requests))
    && Between(now, before, Filtered(before, requests))
    && (!fanOut && Fresh(before, requests) != [] ==> !ok && now == before)
  }

  function Filtered(applied: map<StockId, AppliedPrice>, requests: seq<Request>): map<StockId, AppliedPrice> {
    Committed(applied, Fresh(applied, requests))
  }

  ghost predicate Covers(leases: seq<Lease>, requests: seq<Request>) {
    forall r :: r in requests ==> exists k :: 0 <= k < |leases| && leases[k].stock == r.stock
  }

  ghost predicate OnlyFor(leases: seq<Lease>, requests: seq<Request>) {
    forall k :: 0 <= k < |leases| ==> leases[k].stock in L.Stocks(requests)
  }

  predicate AllOwned(locks: map<StockId, L.Token>, leases: seq<Lease>) {
    forall k :: 0 <= k < |leases| ==> L.Holds(locks, leases[k].stock, leases[k].token)
  }

  // ---- what one call comes to ----------------------------------------------------------------

  /** Every lock is acquired. */
  ghost predicate Locked(requests: seq<Request>, found: map<StockId, L.Token>, net: Network) {
    forall r :: r in requests ==> r.stock !in found && net.setting(r.stock).Answered?
  }

  /** Under its locks, the call gets as far as the commit. */
  ghost predicate Passes(requests: seq<Request>, before: map<StockId, AppliedPrice>, net: Network, fanOut: bool) {
    && net.readAnswered && (fanOut || Fresh(before, requests) == [])
    && AllAnswered(requests, net.refreshing)
  }

  predicate Timed(requests: seq<Request>) {
    forall k :: 0 <= k < |requests| ==> requests[k].at != ZERO_TIME
  }

  ghost predicate Reaches(requests: seq<Request>, found: map<StockId, L.Token>, before: map<StockId, AppliedPrice>,
                          net: Network, fanOut: bool) {
    requests != [] && Timed(requests) && Locked(requests, found, net) && Passes(requests, before, net, fanOut)
  }

  predicate AllAnswered(accepted: seq<Request>, committing: StockId -> Delivery) {
    forall r :: r in accepted ==> committing(r.stock).Answered?
  }

  ghost predicate Succeeds(requests: seq<Request>, found: map<StockId, L.Token>, before: map<StockId, AppliedPrice>,
                           net: Network, fanOut: bool) {
    || requests == []
    || (Reaches(requests, found, before, net, fanOut) && AllAnswered(Fresh(before, requests), net.committing))
  }

  /** The commit of s is carried out. */
  predicate Commits(accepted: seq<Request>, committing: StockId -> Delivery, s: StockId) {
    s in L.Stocks(accepted) && !committing(s).NotSent?
  }

  /** A call that reaches its commit stores exactly the accepted states whose commit is carried out; any other stores
      nothing. */
  ghost predicate Stored(now: map<StockId, AppliedPrice>, before: map<StockId, AppliedPrice>, accepted: seq<Request>,
                         committing: StockId -> Delivery, reaches: bool) {
    forall s ::
      Lookup(now, s) ==
        if reaches && Commits(accepted, committing, s) then Lookup(Committed(before, accepted), s)
          else Lookup(before, s)
  }

  /** And it drops exactly their locks. */
  ghost predicate Dropped(now: map<StockId, L.Token>, owned: map<StockId, L.Token>, accepted: seq<Request>,
                          committing: StockId -> Delivery, reaches: bool) {
    forall s ::
      Lookup(now, s) == if reaches && Commits(accepted, committing, s) then None else Lookup(owned, s)
  }

  /** A SETNX is carried out without an answer, or its lock is not released. */
  predicate Unreleased(net: Network, s: StockId) {
    net.setting(s).Unanswered? || (net.setting(s).Answered? && net.releasing(s).NotSent?)
  }

  /** The lock of a stock that had none is left behind: its SETNX was carried out without an answer, or answered, and
      the release after it was not carried out, and no commit dropped it. */
  ghost predicate LeavesLock(requests: seq<Request>, found: map<StockId, L.Token>, before: map<StockId, AppliedPrice>,
                             net: Network,
                             fanOut: bool, s: StockId) {
    && requests != [] && Timed(requests) && s in L.Stocks(requests) && Unreleased(net, s)
    && !(Reaches(requests, found, before, net, fanOut) && Commits(Fresh(before, requests), net.committing, s))
  }

  /** Locks found stay; a stock that had none has none afterwards, except where one is left behind. */
  ghost predicate Unlocked(now: map<StockId, L.Token>, requests: seq<Request>, found: map<StockId, L.Token>,
                           before: map<StockId, AppliedPrice>, net: Network, fanOut: bool) {
    && (forall s :: s in found ==> Lookup(now, s) == Some(found[s]))
    && (forall s :: s !in found ==> (s in now <==> LeavesLock(requests, found, before, net, fanOut, s)))
  }

  /** The stored ticks, field by field. */
  ghost predicate Ticked(now: map<StockId, AppliedPrice>, before: map<StockId, AppliedPrice>, requests: seq<Request>) {
    && (forall r :: r in requests ==>
          if Newer(r, Lookup(before, r.stock)) then r.stock in now && HoldsTick(now[r.stock], r)
          else Lookup(now, r.stock) == Lookup(before, r.stock))
    && (forall s :: s !in L.Stocks(requests) ==> Lookup(now, s) == Lookup(before, s))
  }

  lemma FilteredTicks(before: map<StockId, AppliedPrice>, requests: seq<Request>)
    requires L.OnePerStock(requests)
    ensures Ticked(Filtered(before, requests), before, requests)
  {
    forall r | r in requests
      ensures var now := Filtered(before, requests);
        if Newer(r, Lookup(before, r.stock)) then r.stock in now && HoldsTick(now[r.stock], r)
        else Lookup(now, r.stock) == Lookup(before, r.stock)
    {
      CommittedAt(before, before, requests, r.stock);
      assert RequestFor(requests, r.stock) == Some(r);
      CommitsWholeTick(r);
      AcceptedIsNewer(r, Lookup(before, r.stock));
      var now := Filtered(before, requests);
      assert r.stock in now <==> Lookup(now, r.stock).Some?;
    }
    forall s | s !in L.Stocks(requests) ensures Lookup(Filtered(before, requests), s) == Lookup(before, s) {
      CommittedAt(before, before, requests, s);
    }
  }

  /** Filters the requests against the applied states and commits the accepted ones under the locks. It succeeds exactly
      when it reaches its commit and every commit is answered, stores what is carried out, and leaves no lock behind but
      through lost commands. */
  method UpdateProfitsByStockPriceChanges(store: PriceStore, requests: seq<Request>, net: Network, fanOut: bool)
      returns (ok: bool)
    requires store.TokensMade()
    modifies store
    ensures store.TokensMade()
    ensures ok <==> Succeeds(requests, old(store.locks), old(store.applied), net, fanOut)
    ensures Stored(store.applied, old(store.applied), Fresh(old(store.applied), requests), net.committing,
                   Reaches(requests, old(store.locks), old(store.applied), net, fanOut))
    ensures Unlocked(store.locks, requests, old(store.locks), old(store.applied), net, fanOut)
    ensures Updated(ok, store.applied, old(store.applied), requests, fanOut)
    ensures ok && L.OnePerStock(requests) ==> Ticked(store.applied, old(store.applied), requests)
    ensures (forall s :: s in L.Stocks(requests) ==> net.setting(s).Answered? && net.releasing(s).Answered?) ==>
      store.locks == old(store.locks)
  {
    ghost var found, before := store.locks, store.applied;
    if requests == [] {
      FilteredTicks(before, requests);
      return true;
    }
    for i := 0 to |requests|
      invariant forall k :: 0 <= k < i ==> requests[k].at != ZERO_TIME
    {
      if requests[i].at == ZERO_TIME {
        assert !Timed(requests);
        NothingHappened(false, requests, found, before, net, fanOut);
        return false;
      }
    }
    ok := UpdateUnderLocks(store, requests, net, fanOut);
    StoredIsUpdated(ok, store.applied, before, requests, net, fanOut, Reaches(requests, found, before, net, fanOut));
    if ok && L.OnePerStock(requests) { FilteredTicks(before, requests); }
    NoLockLeft(store.locks, requests, found, before, net, fanOut);
  }

  lemma NothingHappened(ok: bool, requests: seq<Request>, found: map<StockId, L.Token>,
                        before: map<StockId, AppliedPrice>,
                        net: Network, fanOut: bool)
    requires !Timed(requests) && !ok
    ensures Unlocked(found, requests, found, before, net, fanOut)
    ensures Updated(ok, before, before, requests, fanOut)
  {}

  lemma NoLockLeft(now: map<StockId, L.Token>, requests: seq<Request>, found: map<StockId, L.Token>,
                   before: map<StockId, AppliedPrice>, net: Network, fanOut: bool)
    requires Unlocked(now, requests, found, before, net, fanOut)
    ensures (forall s :: s in L.Stocks(requests) ==> net.setting(s).Answered? && net.releasing(s).Answered?) ==>
      now == found
  {
    if forall s :: s in L.Stocks(requests) ==> net.setting(s).Answered? && net.releasing(s).Answered? {
      forall s: StockId ensures Lookup(now, s) == Lookup(found, s) {
        assert !LeavesLock(requests, found, before, net, fanOut, s);
      }
      SameMap(now, found);
    }
  }

  lemma FreshStocks(before: map<StockId, AppliedPrice>, requests: seq<Request>, s: StockId)
    ensures s in StatesOf(Fresh(before, requests)) <==> s in L.Stocks(Fresh(before, requests))
  {
    StatesAreCommitted(before, Fresh(before, requests), s);
  }

  lemma StoredIsUpdated(ok: bool, now: map<StockId, AppliedPrice>, before: map<StockId, AppliedPrice>,
                        requests: seq<Request>,
                        net: Network, fanOut: bool, reaches: bool)
    requires Stored(now, before, Fresh(before, requests), net.committing, reaches)
    requires ok <==> reaches && AllAnswered(Fresh(before, requests), net.committing)
    requires reaches ==> fanOut || Fresh(before, requests) == []
    ensures Updated(ok, now, before, requests, fanOut)
  {
    var accepted := Fresh(before, requests);
    if ok {
      forall s: StockId ensures Lookup(now, s) == Lookup(Filtered(before, requests), s) {
        StatesAreCommitted(before, accepted, s);
      }
      SameMap(now, Filtered(before, requests));
    }
    if !reaches {
      forall s: StockId ensures Lookup(now, s) == Lookup(before, s) {}
      SameMap(now, before);
    }
  }

  lemma {:induction false} StocksOfRequests(requests: seq<Request>, s: StockId)
    ensures s in StocksOf(requests) <==> s in L.Stocks(requests)
  {
    if requests != [] {
      assert requests == requests[..|requests| - 1] + [requests[|requests| - 1]];
      StocksOfRequests(requests[..|requests| - 1], s);
      assert requests[|requests| - 1] in requests;
    }
  }

  /** One lease for each requested stock, each owning a lock that was free. */
  ghost predicate Leased(leases: seq<Lease>, requests: seq<Request>, now: map<StockId, L.Token>,
                         found: map<StockId, L.Token>) {
    && DistinctStocks(leases) && AllOwned(now, leases) && Covers(leases, requests) && OnlyFor(leases, requests)
    && (forall s :: s in L.Stocks(requests) ==> s !in found)
    && (forall s :: s !in L.Stocks(requests) ==> Lookup(now, s) == Lookup(found, s))
  }

  /** No lease: what the failed acquisition leaves behind. */
  ghost predicate NotLeased(requests: seq<Request>, now: map<StockId, L.Token>, found: map<StockId, L.Token>,
                            net: Network) {
    && (forall s :: s in found ==> Lookup(now, s) == Some(found[s]))
    && (forall s :: s !in found ==> (s in now <==> s in L.Stocks(requests) && Unreleased(net, s)))
  }

  lemma AcquiredLeases(stocks: seq<StockId>, requests: seq<Request>, now: map<StockId, L.Token>,
                       found: map<StockId, L.Token>,
                       leases: seq<Lease>, first: L.Token)
    requires Acquired(found, now, stocks, leases, first) && forall s :: s in stocks <==> s in L.Stocks(requests)
    ensures Leased(leases, requests, now, found)
  {
    forall r | r in requests ensures exists k :: 0 <= k < |leases| && leases[k].stock == r.stock {
      assert r.stock in L.Stocks(requests) && r.stock in stocks;
    }
  }

  method LockRequests(store: PriceStore, requests: seq<Request>, net: Network) returns (ok: bool, leases: seq<Lease>)
    requires store.TokensMade()
    modifies store
    ensures store.TokensMade() && store.applied == old(store.applied)
    ensures ok <==> Locked(requests, old(store.locks), net)
    ensures if ok then Leased(leases, requests, store.locks, old(store.locks))
            else NotLeased(requests, store.locks, old(store.locks), net)
  {
    ghost var found, first := store.locks, store.nextToken;
    var ids := StocksOf(requests);
    var outcome;
    outcome, leases := store.AcquireStockPriceLocks(ids, net.setting, net.releasing);
    ok := outcome.Done?;
    forall s ensures s in ids <==> s in L.Stocks(requests) { StocksOfRequests(requests, s); }
    if ok { AcquiredLeases(ids, requests, store.locks, found, leases, first); }
  }

  /** After the call under its locks and the release: the stock's lock is gone unless its release was not carried
      out. */
  lemma ReleasedUnlocks(requests: seq<Request>, found: map<StockId, L.Token>, acquired: map<StockId, L.Token>,
                        now: map<StockId, L.Token>, before: map<StockId, AppliedPrice>, leases: seq<Lease>,
                        net: Network, fanOut: bool)
    requires requests != [] && Timed(requests) && Locked(requests, found, net)
    requires Leased(leases, requests, acquired, found)
    requires Dropped(now, acquired, Fresh(before, requests), net.committing, Passes(requests, before, net, fanOut))
    ensures Unlocked(ReleaseAll(now, leases, net.releasing), requests, found, before, net, fanOut)
  {
    FreshAreRequests(before, requests);
    var after := ReleaseAll(now, leases, net.releasing);
    forall s
      ensures s in found ==> Lookup(after, s) == Some(found[s])
      ensures s !in found ==> (s in after <==> LeavesLock(requests, found, before, net, fanOut, s))
    {
      ReleaseAllAt(now, leases, net.releasing, s);
      LeaseOf(leases, requests, acquired, found, s);
      assert Lookup(now, s) != Lookup(acquired, s) ==> Commits(Fresh(before, requests), net.committing, s);
      assert s in L.Stocks(requests) ==> net.setting(s).Answered?;
    }
  }

  /** The lock of a requested stock is the one its lease owns. */
  lemma LeaseOf(leases: seq<Lease>, requests: seq<Request>, acquired: map<StockId, L.Token>,
                found: map<StockId, L.Token>, s: StockId)
    requires Leased(leases, requests, acquired, found)
    ensures if s in L.Stocks(requests) then s in acquired && Lease(s, acquired[s]) in leases
            else Lookup(acquired, s) == Lookup(found, s) && forall t :: Lease(s, t) !in leases
  {
    if s in L.Stocks(requests) {
      var r :| r in requests && r.stock == s;
      var k :| 0 <= k < |leases| && leases[k].stock == s;
      assert leases[k] == Lease(s, acquired[s]);
    } else {
      forall t ensures Lease(s, t) !in leases {
        if k :| 0 <= k < |leases| && leases[k] == Lease(s, t) { assert leases[k].stock in L.Stocks(requests); }
      }
    }
  }

  method UpdateUnderLocks(store: PriceStore, requests: seq<Request>, net: Network, fanOut: bool) returns (ok: bool)
    requires store.TokensMade() && requests != [] && Timed(requests)
    modifies store
    ensures store.TokensMade()
    ensures ok <==> Succeeds(requests, old(store.locks), old(store.applied), net, fanOut)
    ensures Stored(store.applied, old(store.applied), Fresh(old(store.applied), requests), net.committing,
                   Reaches(requests, old(store.locks), old(store.applied), net, fanOut))
    ensures Unlocked(store.locks, requests, old(store.locks), old(store.applied), net, fanOut)
  {
    ghost var found, before := store.locks, store.applied;
    var locked, leases := LockRequests(store, requests, net);
    if !locked {
      return false;
    }
    ghost var acquired := store.locks;
    ok := ApplyUnderLocks(store, leases, requests, net, fanOut);
    ReleasedUnlocks(requests, found, acquired, store.locks, before, leases, net, fanOut);
    var _ := store.Release(leases, net.releasing);
  }

  /** What is carried out under the locks: the accepted states whose commit is carried out are stored and their locks
      dropped; nothing else moves. */
  ghost predicate Carried(reaches: bool, accepted: seq<Request>, committing: StockId -> Delivery,
                          before: map<StockId, AppliedPrice>,
                          now: map<StockId, AppliedPrice>, owned: map<StockId, L.Token>, locks: map<StockId, L.Token>) {
    Stored(now, before, accepted, committing, reaches) && Dropped(locks, owned, accepted, committing, reaches)
  }

  method ApplyUnderLocks(store: PriceStore, leases: seq<Lease>, requests: seq<Request>, net: Network, fanOut: bool)
      returns (ok: bool)
    requires store.TokensMade() && DistinctStocks(leases) && AllOwned(store.locks, leases)
    requires Covers(leases, requests) && OnlyFor(leases, requests)
    modifies store
    ensures store.TokensMade()
    ensures ok <==>
      Passes(requests, old(store.applied), net, fanOut)
        && AllAnswered(Fresh(old(store.applied), requests), net.committing)
    ensures Carried(Passes(requests, old(store.applied), net, fanOut), Fresh(old(store.applied), requests),
                    net.committing,
                    old(store.applied), store.applied, old(store.locks), store.locks)
  {
    if !net.readAnswered {
      return false;
    }
    FreshAreRequests(store.applied, requests);
    var accepted, _, _, _ := FilterFresh(store.applied, requests);
    if accepted != [] && !fanOut {
      return false;
    }
    RefreshesAll(leases, requests, net.refreshing);
    var refreshed := store.Refresh(leases, net.refreshing);
    if !refreshed.Done? {
      return false;
    }
    ok := CommitAccepted(store, leases, accepted, net.committing);
  }

  predicate AllRefreshed(leases: seq<Lease>, refreshing: StockId -> Delivery) {
    forall k :: 0 <= k < |leases| ==> refreshing(leases[k].stock).Answered?
  }

  lemma RefreshesAll(leases: seq<Lease>, requests: seq<Request>, refreshing: StockId -> Delivery)
    requires Covers(leases, requests) && OnlyFor(leases, requests)
    ensures AllRefreshed(leases, refreshing) <==> AllAnswered(requests, refreshing)
  {
    if AllRefreshed(leases, refreshing) {
      forall r | r in requests ensures refreshing(r.stock).Answered? {
        var k :| 0 <= k < |leases| && leases[k].stock == r.stock;
      }
    }
    if AllAnswered(requests, refreshing) {
      forall k | 0 <= k < |leases| ensures refreshing(leases[k].stock).Answered? {
        assert leases[k].stock in L.Stocks(requests);
        var r :| r in requests && r.stock == leases[k].stock;
      }
    }
  }

  method CommitAccepted(store: PriceStore, leases: seq<Lease>, accepted: seq<Request>, committing: StockId -> Delivery)
      returns (ok: bool)
    requires store.TokensMade() && DistinctStocks(leases) && AllOwned(store.locks, leases) && Covers(leases, accepted)
    modifies store
    ensures store.TokensMade()
    ensures ok <==> AllAnswered(accepted, committing)
    ensures Carried(true, accepted, committing, old(store.applied), store.applied, old(store.locks), store.locks)
  {
    ghost var before, owned := store.applied, store.locks;
    var byStock: map<StockId, AppliedPrice> := map[];
    for i := 0 to |accepted|
      invariant byStock == StatesOf(accepted[..i])
    {
      assert accepted[..i + 1][..i] == accepted[..i];
      byStock := byStock[accepted[i].stock := accepted[i].Applied()];
    }
    assert accepted[..|accepted|] == accepted;
    var outcome := store.Commit(leases, byStock, committing);
    forall s ensures s in byStock <==> s in L.Stocks(accepted) { StatesAreCommitted(before, accepted, s); }
    CommitCarries(leases, accepted, byStock, committing, before, store.applied, owned, store.locks);
    return outcome.Done?;
  }

  lemma CommitCarries(leases: seq<Lease>, accepted: seq<Request>, byStock: map<StockId, AppliedPrice>,
                      committing: StockId -> Delivery,
                      before: map<StockId, AppliedPrice>, now: map<StockId, AppliedPrice>,
                      owned: map<StockId, L.Token>, locks: map<StockId, L.Token>)
    requires DistinctStocks(leases) && AllOwned(owned, leases) && Covers(leases, accepted)
    requires byStock == StatesOf(accepted)
    requires (locks, now) == CommitAll((owned, before), leases, byStock, committing)
    requires forall s :: s in byStock <==> s in L.Stocks(accepted)
    ensures Carried(true, accepted, committing, before, now, owned, locks)
    ensures (forall k :: 0 <= k < |leases| && leases[k].stock in byStock ==> committing(leases[k].stock).Answered?) <==>
      AllAnswered(accepted, committing)
  {
    forall s
      ensures Lookup(now, s) ==
        if Commits(accepted, committing, s) then Lookup(Committed(before, accepted), s) else Lookup(before, s)
      ensures Lookup(locks, s) == if Commits(accepted, committing, s) then None else Lookup(owned, s)
    {
      CommitAllAt((owned, before), leases, byStock, committing, s);
      StatesAreCommitted(before, accepted, s);
      if s in L.Stocks(accepted) {
        var r :| r in accepted && r.stock == s;
        var k :| 0 <= k < |leases| && leases[k].stock == s;
        assert leases[k] == Lease(s, owned[s]);
      }
    }
    CommitsAll(leases, accepted, byStock, committing);
  }

  lemma CommitsAll(leases: seq<Lease>, accepted: seq<Request>, byStock: map<StockId, AppliedPrice>,
                   committing: StockId -> Delivery)
    requires Covers(leases, accepted) && forall s :: s in byStock <==> s in L.Stocks(accepted)
    ensures (forall k :: 0 <= k < |leases| && leases[k].stock in byStock ==> committing(leases[k].stock).Answered?) <==>
      AllAnswered(accepted, committing)
  {
    if forall k :: 0 <= k < |leases| && leases[k].stock in byStock ==> committing(leases[k].stock).Answered? {
      forall r | r in accepted ensures committing(r.stock).Answered? {
        var k :| 0 <= k < |leases| && leases[k].stock == r.stock;
        assert r.stock in L.Stocks(accepted);
      }
    }
    if AllAnswered(accepted, committing) {
      forall k | 0 <= k < |leases| && leases[k].stock in byStock ensures committing(leases[k].stock).Answered? {
        assert leases[k].stock in L.Stocks(accepted);
        var r :| r in accepted && r.stock == leases[k].stock;
      }
    }
  }

  /** One batch of price messages. It succeeds exactly when the call for its requests does. When it succeeds on integer
      prices, every stock is where the messages would have taken it one at a time. */
  method HandleStockMessages(store: PriceStore, msgs: seq<Message>, net: Network, fanOut: bool) returns (ok: bool)
    requires store.TokensMade()
    modifies store
    ensures store.TokensMade()
    ensures var requests := RequestsOf(msgs, Order(msgs));
      && (ok <==> Succeeds(requests, old(store.locks), old(store.applied), net, fanOut))
      && Unlocked(store.locks, requests, old(store.locks), old(store.applied), net, fanOut)
    ensures ok ==> store.applied == Batch(old(store.applied), msgs)
    ensures ok && (forall i :: 0 <= i < |msgs| && msgs[i].Valid() ==> msgs[i].Exact()) ==>
      forall s :: Lookup(store.applied, s) == Lookup(OneByOne(old(store.applied), msgs), s)
    ensures Between(store.applied, old(store.applied), Batch(old(store.applied), msgs))
  {
    ghost var before := store.applied;
    var requests := CoalesceBatch(msgs);
    ok := UpdateProfitsByStockPriceChanges(store, requests, net, fanOut);
    if forall i :: 0 <= i < |msgs| && msgs[i].Valid() ==> msgs[i].Exact() {
      CoalescingPreservesMeaning(before, msgs);
    }
  }
}
