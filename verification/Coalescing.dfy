/** One batch of price messages: folded to one tick per stock, then filtered. The meaning it has to keep is that of
    passing the messages through the filter one at a time. */
module Coalescing {
  import opened Domain
  import opened PriceTicks
  import opened PriceLock

  /** The zero time, as a decoder leaves it. */
  const ZERO_TIME := -62_135_596_800

  datatype Message = Garbled | Tick(stock: StockId, price: real, at: int, priceVersion: int)
  {
    predicate Valid() {
      Tick? && stock != 0 && at != ZERO_TIME
    }

    function Version(): int
      requires Tick?
    {
      if priceVersion > 0 then priceVersion else VersionFromWallClock(at)
    }

    predicate Exact()
      requires Tick?
    {
      price == price.Floor as real
    }

    function ToRequest(): Request
      requires Tick?
    {
      Request(stock, price.Floor, at, Version())
    }
  }

  /** The request keeps the version of its message, even where both fall back to the wall clock. */
  lemma RequestKeepsVersion(m: Message)
    requires m.Tick?
    ensures m.ToRequest().EffectiveVersion() == m.Version()
  {}

  // ---- what the loop computes ----------------------------------------------------------------

  predicate Counts(m: Message, s: StockId, exactOnly: bool) {
    m.Valid() && m.stock == s && (exactOnly ==> m.Exact())
  }

  /** The tick the loop keeps for s among the messages, all valid ones or only those with an integer price. */
  function Winner(msgs: seq<Message>, s: StockId, exactOnly: bool): (w: Option<Message>)
    ensures w.Some? ==> w.value.Tick? && Counts(w.value, s, exactOnly)
  {
    if msgs == [] then None
    else
      var w, m := Winner(msgs[..|msgs| - 1], s, exactOnly), msgs[|msgs| - 1];
      if Counts(m, s, exactOnly) && (w.None? || m.Version() > w.value.Version()) then Some(m) else w
  }

  /** Stocks in the order of their first valid message. */
  function Order(msgs: seq<Message>): (order: seq<StockId>)
    ensures Distinct(order) && forall s :: s in order <==> Winner(msgs, s, false).Some?
  {
    if msgs == [] then []
    else
      var order, m := Order(msgs[..|msgs| - 1]), msgs[|msgs| - 1];
      if m.Valid() && m.stock !in order then order + [m.stock] else order
  }

  /** The kept tick is the first one whose version no other reaches. */
  ghost predicate FirstNewest(msgs: seq<Message>, s: StockId, exactOnly: bool, i: nat)
    requires i < |msgs| && Counts(msgs[i], s, exactOnly)
  {
    forall j :: 0 <= j < |msgs| && Counts(msgs[j], s, exactOnly) ==>
      msgs[j].Version() <= msgs[i].Version() && (j < i ==> msgs[j].Version() < msgs[i].Version())
  }

  lemma {:induction false} WinnerIsFirstNewest(msgs: seq<Message>, s: StockId, exactOnly: bool)
    ensures Winner(msgs, s, exactOnly).None? <==> forall j :: 0 <= j < |msgs| ==> !Counts(msgs[j], s, exactOnly)
    ensures Winner(msgs, s, exactOnly).Some? ==>
      exists i :: 0 <= i < |msgs| && Counts(msgs[i], s, exactOnly) && FirstNewest(msgs, s, exactOnly, i)
        && msgs[i] == Winner(msgs, s, exactOnly).value
  {
    if msgs != [] {
      var rest, m := msgs[..|msgs| - 1], msgs[|msgs| - 1];
      WinnerIsFirstNewest(rest, s, exactOnly);
      var w, w' := Winner(rest, s, exactOnly), Winner(msgs, s, exactOnly);
      if w'.Some? {
        if w' == w {
          var i :| 0 <= i < |rest| && Counts(rest[i], s, exactOnly) && FirstNewest(rest, s, exactOnly, i)
            && rest[i] == w.value;
          assert forall j :: 0 <= j < |rest| ==> msgs[j] == rest[j];
          assert FirstNewest(msgs, s, exactOnly, i);
        } else {
          assert forall j :: 0 <= j < |rest| ==> msgs[j] == rest[j];
          assert FirstNewest(msgs, s, exactOnly, |rest|);
        }
      }
    }
  }

  /** One request for each kept tick with an integer price. */
  function RequestsOf(msgs: seq<Message>, order: seq<StockId>): (rs: seq<Request>)
    requires Distinct(order) && forall s :: s in order ==> Winner(msgs, s, false).Some?
    ensures OnePerStock(rs)
    ensures forall r :: r in rs <==>
      r.stock in order && Winner(msgs, r.stock, false).value.Exact()
        && r == Winner(msgs, r.stock, false).value.ToRequest()
  {
    if order == [] then []
    else
      var rest, s := RequestsOf(msgs, order[..|order| - 1]), order[|order| - 1];
      assert order == order[..|order| - 1] + [s];
      assert forall k :: 0 <= k < |rest| ==> rest[k] in rest && rest[k].stock != s;
      var w := Winner(msgs, s, false).value;
      if w.Exact() then rest + [w.ToRequest()] else rest
  }

  /** The handler's two loops: the newest tick of each stock, then its request. */
  method CoalesceBatch(msgs: seq<Message>) returns (requests: seq<Request>)
    ensures requests == RequestsOf(msgs, Order(msgs))
  {
    var latest: map<StockId, Message>, order := map[], [];
    for i := 0 to |msgs|
      invariant order == Order(msgs[..i])
      invariant forall s :: Lookup(latest, s) == Winner(msgs[..i], s, false)
    {
      var m := msgs[i];
      assert msgs[..i + 1][..i] == msgs[..i];
      if !m.Valid() {
        continue;
      }
      assert m.stock in latest <==> Lookup(latest, m.stock).Some?;
      if m.stock !in latest {
        order := order + [m.stock];
        latest := latest[m.stock := m];
      } else if m.Version() > latest[m.stock].Version() {
        latest := latest[m.stock := m];
      }
    }
    assert msgs[..|msgs|] == msgs;
    requests := [];
    for k := 0 to |order|
      invariant requests == RequestsOf(msgs, order[..k])
    {
      assert order[..k + 1][..k] == order[..k];
      assert Lookup(latest, order[k]) == Winner(msgs, order[k], false);
      var m := latest[order[k]];
      if m.Exact() {
        requests := requests + [m.ToRequest()];
      }
    }
    assert order[..|order|] == order;
  }

  // ---- the freshness filter ------------------------------------------------------------------

  function Fresh(applied: map<StockId, AppliedPrice>, rs: seq<Request>): seq<Request> {
    if rs == [] then []
    else
      var rest, r := Fresh(applied, rs[..|rs| - 1]), rs[|rs| - 1];
      if Judge(Lookup(applied, r.stock), r).Accepted? then rest + [r] else rest
  }

  /** How many requests the filter puts under a verdict. */
  function Tally(applied: map<StockId, AppliedPrice>, rs: seq<Request>, v: Verdict): nat {
    if rs == [] then 0
    else
      var r := rs[|rs| - 1];
      Tally(applied, rs[..|rs| - 1], v) + if Judge(Lookup(applied, r.stock), r) == v then 1 else 0
  }

  lemma {:induction false} EveryRequestIsTallied(applied: map<StockId, AppliedPrice>, rs: seq<Request>)
    ensures |Fresh(applied, rs)| == Tally(applied, rs, Accepted)
    ensures |rs| == Tally(applied, rs, Accepted) + Tally(applied, rs, Stale) + Tally(applied, rs, Duplicate)
      + Tally(applied, rs, VersionConflict)
  {
    if rs != [] { EveryRequestIsTallied(applied, rs[..|rs| - 1]); }
  }

  /** The filter loop: accepted requests in order, skipped ones counted by reason. */
  method FilterFresh(applied: map<StockId, AppliedPrice>, requests: seq<Request>)
      returns (accepted: seq<Request>, stale: nat, duplicate: nat, conflict: nat)
    ensures accepted == Fresh(applied, requests)
    ensures stale == Tally(applied, requests, Stale)
    ensures duplicate == Tally(applied, requests, Duplicate)
    ensures conflict == Tally(applied, requests, VersionConflict)
  {
    accepted, stale, duplicate, conflict := [], 0, 0, 0;
    for i := 0 to |requests|
      invariant accepted == Fresh(applied, requests[..i])
      invariant stale == Tally(applied, requests[..i], Stale)
      invariant duplicate == Tally(applied, requests[..i], Duplicate)
      invariant conflict == Tally(applied, requests[..i], VersionConflict)
    {
      var r := requests[i];
      assert requests[..i + 1][..i] == requests[..i];
      if r.stock !in applied || r.EffectiveVersion() > applied[r.stock].Version() {
        accepted := accepted + [r];
        continue;
      }
      if r.EffectiveVersion() < applied[r.stock].Version() {
        stale := stale + 1;
        continue;
      }
      if r.price == applied[r.stock].price {
        duplicate := duplicate + 1;
        continue;
      }
      conflict := conflict + 1;
    }
    assert requests[..|requests|] == requests;
  }

  /** The applied states after committing the requests in order. */
  function Committed(applied: map<StockId, AppliedPrice>, accepted: seq<Request>): map<StockId, AppliedPrice> {
    if accepted == [] then applied
    else
      var r := accepted[|accepted| - 1];
      Committed(applied, accepted[..|accepted| - 1])[r.stock := r.Applied()]
  }

  /** The whole batch at once. */
  function Batch(applied: map<StockId, AppliedPrice>, msgs: seq<Message>): map<StockId, AppliedPrice> {
    Committed(applied, Fresh(applied, RequestsOf(msgs, Order(msgs))))
  }

  /** The same messages one at a time. */
  function OneByOne(applied: map<StockId, AppliedPrice>, msgs: seq<Message>): map<StockId, AppliedPrice> {
    if msgs == [] then applied
    else
      var before, m := OneByOne(applied, msgs[..|msgs| - 1]), msgs[|msgs| - 1];
      if m.Valid() && m.Exact() && Judge(Lookup(before, m.stock), m.ToRequest()).Accepted?
      then before[m.stock := m.ToRequest().Applied()]
      else before
  }

  /** Where one winner takes a stock's state. */
  function Outcome(applied: Option<AppliedPrice>, w: Option<Message>): Option<AppliedPrice>
    requires w.Some? ==> w.value.Tick?
  {
    if w.Some? && Judge(applied, w.value.ToRequest()).Accepted? then Some(w.value.ToRequest().Applied()) else applied
  }

  lemma {:induction false} OneByOneAt(applied: map<StockId, AppliedPrice>, msgs: seq<Message>, s: StockId)
    ensures Lookup(OneByOne(applied, msgs), s) == Outcome(Lookup(applied, s), Winner(msgs, s, true))
  {
    if msgs != [] {
      var rest, m := msgs[..|msgs| - 1], msgs[|msgs| - 1];
      OneByOneAt(applied, rest, s);
      if m.Tick? { RequestKeepsVersion(m); }
      var w := Winner(rest, s, true);
      if w.Some? { RequestKeepsVersion(w.value); }
    }
  }

  /** The request for s, if there is one. */
  function RequestFor(rs: seq<Request>, s: StockId): (r: Option<Request>)
    ensures r.None? ==> forall q :: q in rs ==> q.stock != s
    ensures r.Some? ==> r.value in rs && r.value.stock == s
  {
    if rs == [] then None
    else
      assert rs == rs[..|rs| - 1] + [rs[|rs| - 1]];
      if rs[|rs| - 1].stock == s then Some(rs[|rs| - 1]) else RequestFor(rs[..|rs| - 1], s)
  }

  lemma {:induction false} CommittedAt(before: map<StockId, AppliedPrice>, applied: map<StockId, AppliedPrice>,
                                       rs: seq<Request>, s: StockId)
    requires OnePerStock(rs)
    ensures var r := RequestFor(rs, s);
      Lookup(Committed(before, Fresh(applied, rs)), s) ==
      if r.Some? && Judge(Lookup(applied, s), r.value).Accepted? then Some(r.value.Applied()) else Lookup(before, s)
  {
    if rs != [] {
      var rest, last := rs[..|rs| - 1], rs[|rs| - 1];
      CommittedAt(before, applied, rest, s);
      if RequestFor(rest, s).Some? {
        assert exists k :: 0 <= k < |rest| && rs[k].stock == s;
      }
      assert (Fresh(applied, rest) + [last])[..|Fresh(applied, rest)|] == Fresh(applied, rest);
    }
  }

  lemma BatchAt(applied: map<StockId, AppliedPrice>, msgs: seq<Message>, s: StockId)
    ensures var w := Winner(msgs, s, false);
      Lookup(Batch(applied, msgs), s) ==
        if w.Some? && w.value.Exact() then Outcome(Lookup(applied, s), w) else Lookup(applied, s)
  {
    CommittedAt(applied, applied, RequestsOf(msgs, Order(msgs)), s);
    var w := Winner(msgs, s, false);
    if w.Some? && w.value.Exact() {
      assert w.value.ToRequest() in RequestsOf(msgs, Order(msgs));
    }
  }

  /** Leaving out the ticks without an integer price never promotes a newer one, and keeps a winner that has one. */
  lemma {:induction false} ExactWinner(msgs: seq<Message>, s: StockId)
    ensures var all, exact := Winner(msgs, s, false), Winner(msgs, s, true);
      && (exact.Some? ==> all.Some? && exact.value.Version() <= all.value.Version())
      && (all.Some? && all.value.Exact() ==> exact == all)
  {
    if msgs != [] { ExactWinner(msgs[..|msgs| - 1], s); }
  }

  /** Where every price is an integer, a batch does exactly what its messages would do one at a time. */
  lemma CoalescingPreservesMeaning(applied: map<StockId, AppliedPrice>, msgs: seq<Message>)
    requires forall i :: 0 <= i < |msgs| && msgs[i].Valid() ==> msgs[i].Exact()
    ensures forall s :: Lookup(Batch(applied, msgs), s) == Lookup(OneByOne(applied, msgs), s)
  {
    forall s ensures Lookup(Batch(applied, msgs), s) == Lookup(OneByOne(applied, msgs), s) {
      WinnerIsFirstNewest(msgs, s, false);
      CoalescingPreservesIff(applied, msgs, s);
    }
  }

  /** In general a stock comes out the same exactly when its winner has an integer price, or none of its ticks with an
      integer price is fresh: the fold comes before the integer check, so a winner that fails the check hides them. */
  lemma CoalescingPreservesIff(applied: map<StockId, AppliedPrice>, msgs: seq<Message>, s: StockId)
    ensures Lookup(Batch(applied, msgs), s) == Lookup(OneByOne(applied, msgs), s) <==>
      || (Winner(msgs, s, false).Some? ==> Winner(msgs, s, false).value.Exact())
      || (forall i :: 0 <= i < |msgs| && Counts(msgs[i], s, true) ==>
        !Judge(Lookup(applied, s), msgs[i].ToRequest()).Accepted?)
  {
    BatchAt(applied, msgs, s);
    OneByOneAt(applied, msgs, s);
    ExactWinner(msgs, s);
    WinnerIsFirstNewest(msgs, s, true);
    var w := Winner(msgs, s, true);
    if w.Some? {
      var i :| 0 <= i < |msgs| && Counts(msgs[i], s, true) && FirstNewest(msgs, s, true, i) && msgs[i] == w.value;
      forall j | 0 <= j < |msgs| && Counts(msgs[j], s, true) && Judge(Lookup(applied, s), msgs[j].ToRequest()).Accepted?
        ensures Judge(Lookup(applied, s), w.value.ToRequest()).Accepted?
      {
        RequestKeepsVersion(msgs[j]);
        RequestKeepsVersion(w.value);
      }
    }
  }

  // ---- the same in plain terms -----------------------------------------------------------------

  /** A tick of s that the handler takes: it can be decoded, names a stock, and has a time. */
  predicate TickOf(m: Message, s: StockId) {
    m.Tick? && m.stock == s && s != 0 && m.at != -62_135_596_800
  }

  /** Its version, or the epoch second of the market's wall clock in millionths. */
  function VersionIn(m: Message): int
    requires m.Tick?
  {
    if m.priceVersion > 0 then m.priceVersion else (m.at - 32_400) * 1_000_000
  }

  /** The first tick of s whose version no other exceeds. */
  ghost predicate Leads(msgs: seq<Message>, s: StockId, i: nat) {
    && i < |msgs| && TickOf(msgs[i], s)
    && forall j :: 0 <= j < |msgs| && TickOf(msgs[j], s) ==>
      VersionIn(msgs[j]) <= VersionIn(msgs[i]) && (j < i ==> VersionIn(msgs[j]) < VersionIn(msgs[i]))
  }

  lemma TickInPlainTerms(m: Message, s: StockId)
    ensures Counts(m, s, false) <==> TickOf(m, s)
    ensures m.Tick? ==> m.Version() == VersionIn(m)
    ensures m.Tick? && m.Exact() ==> m.ToRequest().price as real == m.price
    ensures m.Tick? ==> m.ToRequest().stock == m.stock && m.ToRequest().at == m.at
    ensures m.Tick? ==> m.ToRequest().EffectiveVersion() == VersionIn(m)
    ensures m.Tick? ==> (m.Exact() <==> m.price.Floor as real == m.price)
  {
    if m.Tick? && m.Exact() { assert m.price == m.price.Floor as real; }
  }

  lemma LeaderWins(msgs: seq<Message>, s: StockId, i: nat)
    requires Leads(msgs, s, i)
    ensures Winner(msgs, s, false) == Some(msgs[i])
  {
    WinnerIsFirstNewest(msgs, s, false);
    forall j | 0 <= j < |msgs| ensures Counts(msgs[j], s, false) <==> TickOf(msgs[j], s)
                               ensures msgs[j].Tick? ==> msgs[j].Version() == VersionIn(msgs[j])
    {
      TickInPlainTerms(msgs[j], s);
    }
    var w := Winner(msgs, s, false);
    assert Counts(msgs[i], s, false);
    var k :| 0 <= k < |msgs| && Counts(msgs[k], s, false) && FirstNewest(msgs, s, false, k) && msgs[k] == w.value;
    assert k == i;
  }

  /** A stock without a tick in the batch keeps its state. Otherwise the batch stores price, time and version of the
      first newest tick, if its price is an integer and it is newer than what is applied, and else nothing. */
  lemma BatchInPlainTerms(applied: map<StockId, AppliedPrice>, msgs: seq<Message>, s: StockId, i: nat)
    ensures (forall j :: 0 <= j < |msgs| ==> !TickOf(msgs[j], s)) ==>
      Lookup(Batch(applied, msgs), s) == Lookup(applied, s)
    ensures Leads(msgs, s, i) ==>
      var m, before, after := msgs[i], Lookup(applied, s), Lookup(Batch(applied, msgs), s);
      if m.price.Floor as real == m.price && (before.Some? ==> VersionIn(m) > VersionOf(before.value)) then
        after.Some? && after.value.price as real == m.price && after.value.at == m.at
          && after.value.ver == Some(VersionIn(m))
      else after == before
  {
    BatchAt(applied, msgs, s);
    if forall j :: 0 <= j < |msgs| ==> !TickOf(msgs[j], s) {
      WinnerIsFirstNewest(msgs, s, false);
      forall j | 0 <= j < |msgs| ensures !Counts(msgs[j], s, false) { TickInPlainTerms(msgs[j], s); }
    }
    if Leads(msgs, s, i) {
      LeaderWins(msgs, s, i);
      TickInPlainTerms(msgs[i], s);
      CommitsWholeTick(msgs[i].ToRequest());
      AcceptedIsNewer(msgs[i].ToRequest(), Lookup(applied, s));
    }
  }

  /** The version of a stored state; one from before versions existed counts by its wall clock. */
  function VersionOf(a: AppliedPrice): int {
    if a.ver.Some? then a.ver.value else (a.at - 32_400) * 1_000_000
  }

  /** One stock: first an integer price, then a newer tick at ten and a half. */
  const HIDDEN := [Tick(1, 10.0, 0, 1), Tick(1, 10.5, 0, 2)]

  /** One at a time the first tick is applied; as a batch the second wins the fold and fails the check. */
  lemma FractionalWinnerHidesTick()
    ensures Lookup(OneByOne(map[], HIDDEN), 1) == Some(AppliedPrice(10, 0, Some(1)))
    ensures Lookup(Batch(map[], HIDDEN), 1) == None
  {
    HiddenWinners();
    OneByOneAt(map[], HIDDEN, 1);
    BatchAt(map[], HIDDEN, 1);
    assert HIDDEN[0].price.Floor == 10;
  }

  lemma HiddenWinners()
    ensures Winner(HIDDEN, 1, true) == Some(HIDDEN[0]) && Winner(HIDDEN, 1, false) == Some(HIDDEN[1])
    ensures !HIDDEN[1].Exact()
  {
    var first := HIDDEN[..1];
    assert first == [HIDDEN[0]] && first[..0] == [];
    assert HIDDEN[0].price.Floor == 10 && HIDDEN[1].price.Floor == 10;
    assert Winner(first, 1, true) == Some(HIDDEN[0]) && Winner(first, 1, false) == Some(HIDDEN[0]);
  }
}
