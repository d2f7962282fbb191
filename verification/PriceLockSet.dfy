/** The lock set as the price service uses it: acquiring all locks of a batch or none, refreshing, committing and
    releasing. One call at a time; module PriceLock covers what other workers do in between. */
module PriceLockSet {
  import opened Domain
  import opened PriceTicks
  import opened PriceLock

  /** What becomes of one command of a pipeline. */
  datatype Delivery = Answered | Unanswered | NotSent

  datatype Outcome = Done | Busy(stock: StockId) | Lost(stock: StockId) | Failed

  datatype Lease = Lease(stock: StockId, token: Token)

  predicate Increasing(ids: seq<StockId>) {
    forall i, j :: 0 <= i < j < |ids| ==> ids[i] < ids[j]
  }

  predicate Ascending(ids: seq<StockId>) {
    forall i, j :: 0 <= i < j < |ids| ==> ids[i] <= ids[j]
  }

  function Inserted(ids: seq<StockId>, s: StockId): (r: seq<StockId>)
    requires Ascending(ids)
    ensures |r| == |ids| + 1 && Ascending(r) && (forall x :: x in r <==> x in ids || x == s)
    ensures r[0] == if ids == [] || s <= ids[0] then s else ids[0]
  {
    if ids == [] then [s]
    else if s <= ids[0] then [s] + ids
    else
      assert ids == [ids[0]] + ids[1..];
      var rest := Inserted(ids[1..], s);
      assert ids[0] <= rest[0];
      [ids[0]] + rest
  }

  function Sorted(ids: seq<StockId>): (r: seq<StockId>)
    ensures Ascending(r) && forall x :: x in r <==> x in ids
  {
    if ids == [] then []
    else
      assert forall x :: x in ids <==> x == ids[0] || x in ids[1..];
      Inserted(Sorted(ids[1..]), ids[0])
  }

  /** Sorts and drops duplicates. */
  method UniqueIDs(stockIDs: seq<StockId>) returns (unique: seq<StockId>)
    ensures Increasing(unique) && forall s :: s in unique <==> s in stockIDs
  {
    var ids := Sorted(stockIDs);
    unique := [];
    for i := 0 to |ids|
      invariant Increasing(unique)
      invariant forall s :: s in unique <==> s in ids[..i]
      invariant i == 0 ==> unique == []
      invariant i > 0 ==> ids[i - 1] in unique && forall k :: 0 <= k < |unique| ==> unique[k] <= ids[i - 1]
    {
      assert ids[..i + 1] == ids[..i] + [ids[i]];
      if i > 0 && ids[i] == ids[i - 1] {
        continue;
      }
      unique := unique + [ids[i]];
    }
    assert ids[..|ids|] == ids;
  }

  predicate DistinctStocks(leases: seq<Lease>) {
    forall i, j :: 0 <= i < j < |leases| ==> leases[i].stock != leases[j].stock
  }

  /** Sorts the replies out: the leases acquired, whether an answer is missing, and the first stock that was taken. */
  method ReadReplies(candidates: seq<Lease>, replies: seq<Option<bool>>)
      returns (held: seq<Lease>, failed: bool, busy: Option<StockId>)
    requires |candidates| == |replies| && DistinctStocks(candidates)
    ensures forall lease :: lease in held <==>
      exists i :: 0 <= i < |candidates| && candidates[i] == lease && replies[i] == Some(true)
    ensures DistinctStocks(held)
    ensures failed <==> None in replies
    ensures busy.None? <==> Some(false) !in replies
    ensures busy.Some? ==>
      exists i :: 0 <= i < |candidates| && candidates[i].stock == busy.value && replies[i] == Some(false)
        && Some(false) !in replies[..i]
  {
    held, failed, busy := [], false, None;
    for i := 0 to |candidates|
      invariant forall lease :: lease in held <==>
        exists k :: 0 <= k < i && candidates[k] == lease && replies[k] == Some(true)
      invariant DistinctStocks(held)
      invariant failed <==> None in replies[..i]
      invariant busy.None? <==> Some(false) !in replies[..i]
      invariant busy.Some? ==>
        exists k :: 0 <= k < i && candidates[k].stock == busy.value && replies[k] == Some(false)
          && Some(false) !in replies[..k]
    {
      assert replies[..i + 1] == replies[..i] + [replies[i]];
      assert Some(false) in replies[..i + 1] <==> Some(false) in replies[..i] || replies[i] == Some(false);
      if replies[i].None? {
        failed := true;
      } else if replies[i].value {
        assert forall k :: 0 <= k < |held| ==> held[k] in held && held[k].stock != candidates[i].stock;
        held := held + [candidates[i]];
      } else if busy.None? {
        busy := Some(candidates[i].stock);
      }
    }
    assert replies[..|candidates|] == replies;
  }

  /** What a pipeline of SETNX commands leaves behind and answers. */
  ghost predicate LocksSet(before: map<StockId, Token>, after: map<StockId, Token>, ids: seq<StockId>,
                           candidates: seq<Lease>, replies: seq<Option<bool>>, setting: StockId -> Delivery)
  {
    && |candidates| == |replies| == |ids|
    && (forall i :: 0 <= i < |ids| ==> candidates[i].stock == ids[i])
    && (forall i :: 0 <= i < |ids| ==>
      replies[i] == if setting(ids[i]).Answered? then Some(ids[i] !in before) else None)
    && (forall i :: 0 <= i < |ids| && ids[i] !in before && !setting(ids[i]).NotSent? ==>
      Holds(after, ids[i], candidates[i].token))
    && (forall s :: s in before ==> s in after && after[s] == before[s])
    && (forall s :: s in after && s !in before ==> s in ids && !setting(s).NotSent?)
  }

  /** One lease with a new token for each distinct id, each owning its lock; the other locks are as before. */
  ghost predicate Acquired(before: map<StockId, Token>, after: map<StockId, Token>, stockIDs: seq<StockId>,
                           held: seq<Lease>, first: Token) {
    && DistinctStocks(held)
    && (forall s :: s in stockIDs ==> s !in before && exists k :: 0 <= k < |held| && held[k].stock == s)
    && (forall k :: 0 <= k < |held| ==>
      held[k].stock in stockIDs && Holds(after, held[k].stock, held[k].token) && first <= held[k].token)
    && (forall s :: s !in stockIDs ==> Lookup(after, s) == Lookup(before, s))
  }

  /** A failed call leaves a lock behind exactly where a SETNX ran without its answer arriving, or where the release of
      an acquired lock was not sent. Where neither happens it leaves none. Locks of others are as before. */
  ghost predicate Abandoned(before: map<StockId, Token>, after: map<StockId, Token>, stockIDs: seq<StockId>,
                            setting: StockId -> Delivery, releasing: StockId -> Delivery)
  {
    && (forall s :: s in before ==> Lookup(after, s) == Some(before[s]))
    && (forall s :: s !in before ==> (s in after <==>
          s in stockIDs && (setting(s).Unanswered? || (setting(s).Answered? && releasing(s).NotSent?))))
  }

  ghost predicate FirstTaken(before: map<StockId, Token>, stockIDs: seq<StockId>, s: StockId) {
    s in stockIDs && s in before && forall x :: x in stockIDs && x < s ==> x !in before
  }

  /** What the replies say about the locks before. */
  lemma RepliesTell(before: map<StockId, Token>, after: map<StockId, Token>, ids: seq<StockId>,
                    candidates: seq<Lease>, replies: seq<Option<bool>>, setting: StockId -> Delivery)
    requires Increasing(ids) && LocksSet(before, after, ids, candidates, replies, setting)
    ensures None in replies <==> exists s :: s in ids && !setting(s).Answered?
    ensures Some(false) in replies <==> exists s :: s in ids && setting(s).Answered? && s in before
    ensures None !in replies ==>
      forall i :: 0 <= i < |ids| && replies[i] == Some(false) && Some(false) !in replies[..i] ==>
        FirstTaken(before, ids, ids[i])
  {
    assert forall i :: 0 <= i < |ids| ==> replies[i] in replies && ids[i] in ids;
    forall i, j | 0 <= j < i < |ids| && Some(false) !in replies[..i] ensures replies[j] != Some(false) {
      assert replies[..i][j] == replies[j];
    }
  }

  lemma AllAcquired(before: map<StockId, Token>, after: map<StockId, Token>, ids: seq<StockId>, candidates: seq<Lease>,
                    replies: seq<Option<bool>>, held: seq<Lease>, setting: StockId -> Delivery, first: Token)
    requires Increasing(ids) && LocksSet(before, after, ids, candidates, replies, setting) && None !in replies
    requires Some(false) !in replies
    requires DistinctStocks(held) && forall i :: 0 <= i < |ids| ==> first <= candidates[i].token
    requires forall lease :: lease in held <==>
      exists i :: 0 <= i < |candidates| && candidates[i] == lease && replies[i] == Some(true)
    ensures Acquired(before, after, ids, held, first)
  {
    forall s | s in ids ensures s !in before && exists k :: 0 <= k < |held| && held[k].stock == s {
      var i :| 0 <= i < |ids| && ids[i] == s;
      assert replies[i] in replies && candidates[i] in held;
    }
    forall k | 0 <= k < |held|
      ensures held[k].stock in ids && Holds(after, held[k].stock, held[k].token) && first <= held[k].token
    {
      assert held[k] in held;
    }
  }

  // ---- pipelines of release and commit scripts ---------------------------------------------

  function ReleaseAll(locks: map<StockId, Token>, leases: seq<Lease>, releasing: StockId -> Delivery):
      map<StockId, Token> {
    if leases == [] then locks
    else
      var before, lease := ReleaseAll(locks, leases[..|leases| - 1], releasing), leases[|leases| - 1];
      if releasing(lease.stock).NotSent? then before else Unlock(before, lease.stock, lease.token)
  }

  /** A lock goes exactly when a release that is sent carries its token; every other lock stays as it was. */
  lemma {:induction false} ReleaseAllAt(locks: map<StockId, Token>, leases: seq<Lease>, releasing: StockId -> Delivery,
                                        s: StockId)
    ensures Lookup(ReleaseAll(locks, leases, releasing), s) ==
      if s in locks && Lease(s, locks[s]) in leases && !releasing(s).NotSent? then None else Lookup(locks, s)
  {
    if leases != [] {
      var rest, lease := leases[..|leases| - 1], leases[|leases| - 1];
      ReleaseAllAt(locks, rest, releasing, s);
      assert leases == rest + [lease];
    }
  }

  /** Releasing what was acquired leaves a lock of this call exactly where its SETNX ran unanswered, or was answered
      but its release was not sent. */
  lemma LeftBehind(before: map<StockId, Token>, locked: map<StockId, Token>, ids: seq<StockId>, candidates: seq<Lease>,
                   replies: seq<Option<bool>>, held: seq<Lease>, setting: StockId -> Delivery,
                   releasing: StockId -> Delivery, s: StockId)
    requires Increasing(ids) && LocksSet(before, locked, ids, candidates, replies, setting)
    requires forall lease :: lease in held <==>
      exists i :: 0 <= i < |candidates| && candidates[i] == lease && replies[i] == Some(true)
    ensures Lookup(ReleaseAll(locked, held, releasing), s) ==
      if s in before then Some(before[s])
      else if s in ids && (setting(s).Unanswered? || (setting(s).Answered? && releasing(s).NotSent?)) then
        Some(locked[s])
      else None
  {
    ReleaseAllAt(locked, held, releasing, s);
    if s !in before && s in ids && !setting(s).NotSent? {
      var i :| 0 <= i < |ids| && ids[i] == s;
      assert candidates[i] == Lease(s, locked[s]);
    }
  }

  lemma ReleasedBehind(before: map<StockId, Token>, locked: map<StockId, Token>, ids: seq<StockId>,
                       candidates: seq<Lease>, replies: seq<Option<bool>>, held: seq<Lease>,
                       setting: StockId -> Delivery, releasing: StockId -> Delivery)
    requires Increasing(ids) && LocksSet(before, locked, ids, candidates, replies, setting)
    requires forall lease :: lease in held <==>
      exists i :: 0 <= i < |candidates| && candidates[i] == lease && replies[i] == Some(true)
    ensures Abandoned(before, ReleaseAll(locked, held, releasing), ids, setting, releasing)
  {
    var after := ReleaseAll(locked, held, releasing);
    forall s
      ensures s in before ==> Lookup(after, s) == Some(before[s])
      ensures s !in before ==>
        (s in after <==> s in ids && (setting(s).Unanswered? || (setting(s).Answered? && releasing(s).NotSent?)))
    {
      LeftBehind(before, locked, ids, candidates, replies, held, setting, releasing, s);
    }
  }

  function CommitAll(state: (map<StockId, Token>, map<StockId, AppliedPrice>), leases: seq<Lease>,
                     byStock: map<StockId, AppliedPrice>, committing: StockId -> Delivery):
    (map<StockId, Token>, map<StockId, AppliedPrice>)
  {
    if leases == [] then state
    else
      var before, lease := CommitAll(state, leases[..|leases| - 1], byStock, committing), leases[|leases| - 1];
      if lease.stock in byStock && !committing(lease.stock).NotSent? && Holds(before.0, lease.stock, lease.token) then
        (Unlock(before.0, lease.stock, lease.token), before.1[lease.stock := byStock[lease.stock]])
      else before
  }

  /** A stock's state is stored and its lock dropped exactly when a commit that is sent carries the lock's token. */
  lemma {:induction false} CommitAllAt(state: (map<StockId, Token>, map<StockId, AppliedPrice>), leases: seq<Lease>,
                                       byStock: map<StockId, AppliedPrice>, committing: StockId -> Delivery, s: StockId)
    requires DistinctStocks(leases)
    ensures (var after := CommitAll(state, leases, byStock, committing);
      if s in state.0 && Lease(s, state.0[s]) in leases && s in byStock && !committing(s).NotSent?
      then Lookup(after.0, s) == None && Lookup(after.1, s) == Some(byStock[s])
      else Lookup(after.0, s) == Lookup(state.0, s) && Lookup(after.1, s) == Lookup(state.1, s))
  {
    if leases != [] {
      var rest, lease := leases[..|leases| - 1], leases[|leases| - 1];
      CommitAllAt(state, rest, byStock, committing, s);
      assert leases == rest + [lease];
      assert forall k :: 0 <= k < |rest| ==> leases[k].stock != lease.stock;
    }
  }

  class PriceStore {
    var locks: map<StockId, Token>
    var applied: map<StockId, AppliedPrice>
    /** Every token made so far is below this one; the source draws 128 random bits. */
    var nextToken: Token

    constructor (locks: map<StockId, Token>, applied: map<StockId, AppliedPrice>, nextToken: Token)
      requires forall s :: s in locks ==> locks[s] < nextToken
      ensures this.locks == locks && this.applied == applied && this.nextToken == nextToken && TokensMade()
    {
      this.locks, this.applied, this.nextToken := locks, applied, nextToken;
    }

    ghost predicate TokensMade()
      reads this
    {
      forall s :: s in locks ==> locks[s] < nextToken
    }

    /** The lease still holds its lock. */
    predicate Owns(lease: Lease)
      reads this
    {
      Holds(locks, lease.stock, lease.token)
    }

    /** Queues one SETNX per id with a token of its own, and runs the pipeline. */
    method SetLocks(ids: seq<StockId>, setting: StockId -> Delivery)
        returns (candidates: seq<Lease>, replies: seq<Option<bool>>)
      requires TokensMade() && Increasing(ids)
      modifies this
      ensures TokensMade() && applied == old(applied)
      ensures LocksSet(old(locks), locks, ids, candidates, replies, setting)
      ensures forall i :: 0 <= i < |ids| ==> candidates[i].token == old(nextToken) + i
    {
      candidates, replies := [], [];
      for i := 0 to |ids|
        invariant TokensMade() && applied == old(applied) && nextToken == old(nextToken) + i
        invariant |candidates| == |replies| == i
        invariant forall k :: 0 <= k < i ==> candidates[k] == Lease(ids[k], old(nextToken) + k)
        invariant forall k :: 0 <= k < i ==>
          replies[k] == if setting(ids[k]).Answered? then Some(ids[k] !in old(locks)) else None
        invariant forall k :: 0 <= k < i && ids[k] !in old(locks) && !setting(ids[k]).NotSent? ==> Owns(candidates[k])
        invariant forall k :: i <= k < |ids| ==> (ids[k] in locks <==> ids[k] in old(locks))
        invariant forall s :: s in old(locks) ==> s in locks && locks[s] == old(locks)[s]
        invariant forall s :: s in locks && s !in old(locks) ==> s in ids && !setting(s).NotSent?
      {
        var s := ids[i];
        candidates := candidates + [Lease(s, nextToken)];
        replies := replies + [if setting(s).Answered? then Some(s !in locks) else None];
        if !setting(s).NotSent? {
          locks := TryLock(locks, s, nextToken);
        }
        nextToken := nextToken + 1;
      }
    }

    /** All locks of the distinct ids, one fresh token each, or none; a busy answer names the least taken id. */
    method AcquireStockPriceLocks(stockIDs: seq<StockId>, setting: StockId -> Delivery, releasing: StockId -> Delivery)
        returns (r: Outcome, held: seq<Lease>)
      requires TokensMade()
      modifies this
      ensures TokensMade() && applied == old(applied)
      ensures r.Done? <==> forall s :: s in stockIDs ==> s !in old(locks) && setting(s).Answered?
      ensures r.Done? ==> Acquired(old(locks), locks, stockIDs, held, old(nextToken))
      ensures !r.Done? ==> held == [] && Abandoned(old(locks), locks, stockIDs, setting, releasing)
      ensures r.Busy? ==> FirstTaken(old(locks), stockIDs, r.stock)
      ensures r.Lost? || r.Busy? ==> r.Busy? && forall s :: s in stockIDs ==> setting(s).Answered?
      ensures r.Failed? <==> exists s :: s in stockIDs && !setting(s).Answered?
    {
      var ids := UniqueIDs(stockIDs);
      r, held := AcquireEach(ids, setting, releasing);
    }

    method AcquireEach(ids: seq<StockId>, setting: StockId -> Delivery, releasing: StockId -> Delivery)
        returns (r: Outcome, held: seq<Lease>)
      requires TokensMade() && Increasing(ids)
      modifies this
      ensures TokensMade() && applied == old(applied)
      ensures r.Done? <==> forall s :: s in ids ==> s !in old(locks) && setting(s).Answered?
      ensures r.Done? ==> Acquired(old(locks), locks, ids, held, old(nextToken))
      ensures !r.Done? ==> held == [] && Abandoned(old(locks), locks, ids, setting, releasing)
      ensures r.Busy? ==> FirstTaken(old(locks), ids, r.stock)
      ensures r.Lost? || r.Busy? ==> r.Busy? && forall s :: s in ids ==> setting(s).Answered?
      ensures r.Failed? <==> exists s :: s in ids && !setting(s).Answered?
    {
      var candidates, replies := SetLocks(ids, setting);
      var failed, busy;
      held, failed, busy := ReadReplies(candidates, replies);
      RepliesTell(old(locks), locks, ids, candidates, replies, setting);
      if failed || busy.Some? {
        ReleasedBehind(old(locks), locks, ids, candidates, replies, held, setting, releasing);
        var _ := Release(held, releasing);
        return if failed then Failed else Busy(busy.value), [];
      }
      AllAcquired(old(locks), locks, ids, candidates, replies, held, setting, old(nextToken));
      return Done, held;
    }

    /** Runs a release script for each lease. */
    method Release(leases: seq<Lease>, releasing: StockId -> Delivery) returns (r: Outcome)
      requires TokensMade()
      modifies `locks
      ensures TokensMade()
      ensures locks == ReleaseAll(old(locks), leases, releasing)
      ensures r == if forall k :: 0 <= k < |leases| ==> releasing(leases[k].stock).Answered? then Done else Failed
    {
      r := Done;
      for i := 0 to |leases|
        invariant TokensMade()
        invariant locks == ReleaseAll(old(locks), leases[..i], releasing)
        invariant r == if forall k :: 0 <= k < i ==> releasing(leases[k].stock).Answered? then Done else Failed
      {
        var lease := leases[i];
        assert leases[..i + 1][..i] == leases[..i];
        if !releasing(lease.stock).NotSent? && Owns(lease) {
          locks := locks - {lease.stock};
        }
        if !releasing(lease.stock).Answered? {
          r := Failed;
        }
      }
      assert leases[..|leases|] == leases;
    }

    /** Succeeds exactly when every answer arrives and every lock is still owned; reports the first one that is not. */
    method Refresh(leases: seq<Lease>, refreshing: StockId -> Delivery) returns (r: Outcome)
      ensures r.Failed? <==> exists k :: 0 <= k < |leases| && !refreshing(leases[k].stock).Answered?
      ensures r.Done? <==> forall k :: 0 <= k < |leases| ==> refreshing(leases[k].stock).Answered? && Owns(leases[k])
      ensures r.Lost? ==>
        exists k :: 0 <= k < |leases| && leases[k].stock == r.stock && !Owns(leases[k])
          && forall j :: 0 <= j < k ==> Owns(leases[j])
      ensures !r.Busy?
    {
      for i := 0 to |leases|
        invariant forall k :: 0 <= k < i ==> refreshing(leases[k].stock).Answered?
      {
        if !refreshing(leases[i].stock).Answered? {
          return Failed;
        }
      }
      for i := 0 to |leases|
        invariant forall k :: 0 <= k < i ==> Owns(leases[k])
      {
        if !Owns(leases[i]) {
          return Lost(leases[i].stock);
        }
      }
      return Done;
    }

    /** Runs a commit script for each lease that has a state, and succeeds exactly when each of those leases still
        owned its lock and its answer arrived. */
    method Commit(leases: seq<Lease>, byStock: map<StockId, AppliedPrice>, committing: StockId -> Delivery)
        returns (r: Outcome)
      requires TokensMade() && DistinctStocks(leases)
      modifies `locks, `applied
      ensures TokensMade()
      ensures (locks, applied) == CommitAll((old(locks), old(applied)), leases, byStock, committing)
      ensures r.Done? <==>
        forall k :: 0 <= k < |leases| && leases[k].stock in byStock ==>
          old(Owns(leases[k])) && committing(leases[k].stock).Answered?
    {
      var lost, failed := None, false;
      for i := 0 to |leases|
        invariant TokensMade()
        invariant (locks, applied) == CommitAll((old(locks), old(applied)), leases[..i], byStock, committing)
        invariant !failed && lost.None? <==>
          forall k :: 0 <= k < i && leases[k].stock in byStock ==>
            old(Owns(leases[k])) && committing(leases[k].stock).Answered?
      {
        var lease := leases[i];
        var s := lease.stock;
        assert leases[..i + 1][..i] == leases[..i];
        if s !in byStock {
          continue;
        }
        var owned := Owns(lease);
        assert owned == old(Owns(lease)) by {
          CommitAllAt((old(locks), old(applied)), leases[..i], byStock, committing, s);
          assert Lookup(locks, s) == Lookup(old(locks), s);
          assert Owns(lease) <==> Lookup(locks, s) == Some(lease.token);
          assert old(Owns(lease)) <==> Lookup(old(locks), s) == Some(lease.token);
        }
        if owned && !committing(s).NotSent? {
          applied := applied[s := byStock[s]];
          locks := locks - {s};
        }
        if !committing(s).Answered? {
          failed := true;
        } else if !owned && lost.None? {
          lost := Some(s);
        }
      }
      assert leases[..|leases|] == leases;
      return if failed then Failed else if lost.Some? then Lost(lost.value) else Done;
    }
  }
}
