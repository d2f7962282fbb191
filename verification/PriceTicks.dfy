/** Price ticks, the version that orders them, and the freshness filter. */
module PriceTicks {
  import opened Domain

  /** The market's clock is nine hours ahead of UTC all year. */
  const MARKET_OFFSET := 32_400

  /** A version is the epoch second of the trade times this, plus a sequence number within the second. */
  const SEQUENCES := 1_000_000

  /** The version of sequence 0 of a wall-clock second of the market; at counts that wall clock as if it were UTC. */
  function VersionFromWallClock(at: int): int {
    (at - MARKET_OFFSET) * SEQUENCES
  }

  /** The epoch second of a version. The division of the source truncates toward zero. */
  function VersionTime(version: int): int {
    if version >= 0 then version / SEQUENCES else -(-version / SEQUENCES)
  }

  datatype Request = Request(stock: StockId, price: int, at: int, version: int)
  {
    function EffectiveVersion(): int {
      if version > 0 then version else VersionFromWallClock(at)
    }

    /** What a commit of this request stores. */
    function Applied(): AppliedPrice {
      AppliedPrice(price, at, Some(EffectiveVersion()))
    }
  }

  /** The application hash of one stock; states written before versions existed have no ver. */
  datatype AppliedPrice = AppliedPrice(price: int, at: int, ver: Option<int>)
  {
    function Version(): int {
      if ver.Some? then ver.value else VersionFromWallClock(at)
    }
  }

  /** The application hash holds this tick: its price, its time, and its version, which for a tick without one is the
      epoch second of the market's wall clock, in millionths. */
  predicate HoldsTick(a: AppliedPrice, r: Request) {
    && a.price == r.price && a.at == r.at
    && a.ver == Some(if r.version > 0 then r.version else (r.at - 32_400) * 1_000_000)
  }

  lemma CommitsWholeTick(r: Request)
    ensures HoldsTick(r.Applied(), r) && r.Applied().Version() == r.EffectiveVersion()
    ensures r.EffectiveVersion() == if r.version > 0 then r.version else (r.at - 32_400) * 1_000_000
  {}

  /** States written before versions existed count by their wall clock. */
  lemma VersionOfState(a: AppliedPrice)
    ensures a.Version() == if a.ver.Some? then a.ver.value else (a.at - 32_400) * 1_000_000
  {}

  /** The tick is newer than what is applied. */
  predicate Newer(r: Request, applied: Option<AppliedPrice>) {
    var version := if r.version > 0 then r.version else (r.at - 32_400) * 1_000_000;
    match applied
    case None => true
    case Some(a) => version > if a.ver.Some? then a.ver.value else (a.at - 32_400) * 1_000_000
  }

  lemma AcceptedIsNewer(r: Request, applied: Option<AppliedPrice>)
    ensures Judge(applied, r).Accepted? <==> Newer(r, applied)
  {}

  datatype Verdict = Accepted | Stale | Duplicate | VersionConflict

  /** The freshness filter on one request. */
  function Judge(applied: Option<AppliedPrice>, r: Request): Verdict {
    if applied.None? || r.EffectiveVersion() > applied.value.Version() then Accepted
    else if r.EffectiveVersion() < applied.value.Version() then Stale
    else if r.price == applied.value.price then Duplicate
    else VersionConflict
  }

  /** A tick without a version sorts before the versioned ticks of its second and after those of earlier seconds. */
  lemma WallClockVersionOrder(at: int, second: int, sequence: int)
    requires 0 <= sequence < SEQUENCES
    ensures VersionFromWallClock(at) <= second * SEQUENCES + sequence <==> at - MARKET_OFFSET <= second
    ensures at >= MARKET_OFFSET ==> VersionTime(VersionFromWallClock(at)) == at - MARKET_OFFSET
    ensures second >= 0 ==> VersionTime(second * SEQUENCES + sequence) == second
  {}
}
