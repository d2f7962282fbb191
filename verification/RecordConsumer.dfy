/** The loops of one record consumer: retrying a record, waiting with its partitions paused, rewinding what is left of a
    batch. Each method says which actions of the consumer group it has taken. */
module RecordConsumers {
  import opened Domain
  import opened Offsets

  /** Times are in milliseconds. */
  datatype RetryPolicy = RetryPolicy(initial: nat, max: nat, elapsed: nat, priceRetries: nat)
  {
    predicate Valid() {
      0 < initial <= max
    }
  }

  const DEFAULT_RETRY_POLICY := RetryPolicy(1_000, 30_000, 300_000, 2)

  /** The wait after attempt k: doubled each time, up to the maximum. */
  function Backoff(policy: RetryPolicy, k: nat): nat {
    if k == 0 then policy.initial else Min(2 * Backoff(policy, k - 1), policy.max)
  }

  function Min(a: nat, b: nat): nat {
    if a <= b then a else b
  }

  lemma {:induction false} BackoffGrowsWithinBounds(policy: RetryPolicy, k: nat)
    requires policy.Valid()
    ensures policy.initial <= Backoff(policy, k) <= policy.max
    ensures Backoff(policy, k) <= Backoff(policy, k + 1)
  {
    if k > 0 { BackoffGrowsWithinBounds(policy, k - 1); }
  }

  /** The default policy waits one second first, and thirty seconds from the sixth wait on. */
  lemma {:induction false} DefaultWaits(k: nat)
    ensures Backoff(DEFAULT_RETRY_POLICY, 0) == 1_000 && Backoff(DEFAULT_RETRY_POLICY, 4) == 16_000
    ensures k >= 5 ==> Backoff(DEFAULT_RETRY_POLICY, k) == 30_000
  {
    assert Backoff(DEFAULT_RETRY_POLICY, 2) == 4_000;
    assert Backoff(DEFAULT_RETRY_POLICY, 4) == 16_000;
    if k > 5 { DefaultWaits(k - 1); }
  }

  /** What a Poll during a wait brings, and how long it takes. A rebalance takes or gives several partitions at once;
      put tells whether the Seek that puts a message back works. */
  datatype PollEvent =
    | Nothing
    | Data(p: Partition, put: bool)
    | Revoked(ps: seq<Partition>)
    | Assigned(ps: seq<Partition>)

  datatype PollReply = PollReply(event: PollEvent, took: nat)

  datatype HandlerOutcome = Handled | Failed | Invalid

  /** One turn of the retry loop: how the handler ends and how long it runs, whether the worker is shutting down by
      then, whether publishing and committing would work, and what the wait brings. A wait whose list of polls ends
      early ends with the shutdown of the worker. */
  datatype Attempt = Attempt(
    outcome: HandlerOutcome, took: nat, cancelled: bool, publishes: bool, commits: bool, polls: seq<PollReply>)

  predicate Decodable(attempts: seq<Attempt>) {
    forall k :: 0 <= k < |attempts| ==> !attempts[k].outcome.Invalid?
  }

  predicate Publishable(attempts: seq<Attempt>) {
    forall k :: 0 <= k < |attempts| ==> attempts[k].publishes
  }

  /** How long the first n polls of a wait take: each at most the rest of the wait, at most a tenth of a second, and one
      more millisecond. */
  function Elapsed(wait: nat, polls: seq<PollReply>, n: nat): nat
    requires n <= |polls|
  {
    if n == 0 then 0
    else
      var e := Elapsed(wait, polls, n - 1);
      if e >= wait then e else e + Min(polls[n - 1].took, Min(wait - e, 100) + 1)
  }

  predicate Takes(event: PollEvent, p: Partition) {
    event.Revoked? && p in event.ps
  }

  /** One of the first n polls takes the partition away. */
  predicate TakenBy(polls: seq<PollReply>, n: nat, p: Partition)
    requires n <= |polls|
  {
    n > 0 && (TakenBy(polls, n - 1, p) || Takes(polls[n - 1].event, p))
  }

  /** One of the polls of the first n waits does. */
  predicate TakenIn(attempts: seq<Attempt>, n: nat, p: Partition)
    requires n <= |attempts|
  {
    n > 0 && (TakenIn(attempts, n - 1, p) || TakenBy(attempts[n - 1].polls, |attempts[n - 1].polls|, p))
  }

  /** A poll made before the time is up takes the partition away. */
  ghost predicate Removes(wait: nat, polls: seq<PollReply>, p: Partition) {
    exists n :: 0 <= n < |polls| && Elapsed(wait, polls, n) < wait && Takes(polls[n].event, p)
  }

  /** The wait of a record of p ends by itself: its polls last, and none of them takes the partition away. */
  ghost predicate Completes(wait: nat, polls: seq<PollReply>, p: Partition) {
    Elapsed(wait, polls, |polls|) >= wait && !Removes(wait, polls, p)
  }

  /** Once the time is up nothing more is polled. */
  lemma {:induction false} TimeIsUp(wait: nat, polls: seq<PollReply>, n: nat, m: nat)
    requires n <= m <= |polls| && Elapsed(wait, polls, n) >= wait
    ensures Elapsed(wait, polls, m) == Elapsed(wait, polls, n)
    decreases m
  {
    if n < m { TimeIsUp(wait, polls, n, m - 1); }
  }

  lemma {:induction false} TakenByOneOf(polls: seq<PollReply>, i: nat, n: nat, p: Partition)
    requires n < i <= |polls| && Takes(polls[n].event, p)
    ensures TakenBy(polls, i, p)
  {
    if n < i - 1 { TakenByOneOf(polls, i - 1, n, p); }
  }

  lemma {:induction false} TakenInTime(wait: nat, polls: seq<PollReply>, i: nat, p: Partition)
    requires i <= |polls| && TakenBy(polls, i, p) && forall n :: 0 <= n < i ==> Elapsed(wait, polls, n) < wait
    ensures Removes(wait, polls, p)
  {
    if !Takes(polls[i - 1].event, p) { TakenInTime(wait, polls, i - 1, p); }
  }

  /** i polls are made, each with time left, and the wait goes on: what is assigned now, of what was assigned before. */
  ghost predicate Waiting(wait: nat, polls: seq<PollReply>, i: nat, p: Partition, before: set<Partition>,
                          mine: set<Partition>, spent: int) {
    && i <= |polls| && spent == Elapsed(wait, polls, i) && spent <= wait + 1
    && (forall n :: 0 <= n < i ==> Elapsed(wait, polls, n) < wait)
    && (i > 0 || p in before ==> p in mine)
    && (p in before ==> !TakenBy(polls, i, p))
    && Kept(polls, i, before, mine)
  }

  /** What was assigned and has not been taken away is still assigned. */
  ghost predicate Kept(polls: seq<PollReply>, i: nat, before: set<Partition>, mine: set<Partition>)
    requires i <= |polls|
  {
    forall q :: q in before && !TakenBy(polls, i, q) ==> q in mine
  }

  lemma KeptMore(polls: seq<PollReply>, i: nat, before: set<Partition>, mine: set<Partition>, mine': set<Partition>)
    requires i < |polls| && Kept(polls, i, before, mine)
    requires forall q :: q in mine ==> (q in mine' <==> !Takes(polls[i].event, q))
    ensures Kept(polls, i + 1, before, mine')
  {}

  lemma {:induction false} KeptAtLast(polls: seq<PollReply>, i: nat, n: nat, before: set<Partition>,
                                      mine: set<Partition>)
    requires i <= n <= |polls| && Kept(polls, i, before, mine)
    ensures Kept(polls, n, before, mine)
    decreases n
  {
    if i < n { KeptAtLast(polls, i, n - 1, before, mine); }
  }

  /** One more poll. */
  lemma WaitingMore(wait: nat, polls: seq<PollReply>, i: nat, p: Partition, before: set<Partition>,
                    mine: set<Partition>,
                    mine': set<Partition>, spent: int, spent': int)
    requires Waiting(wait, polls, i, p, before, mine, spent) && i < |polls| && spent < wait
    requires spent' == spent + Min(polls[i].took, Min(wait - spent, 100) + 1)
    requires forall q :: q in mine ==> (q in mine' <==> !Takes(polls[i].event, q))
    ensures p in mine' ==> Waiting(wait, polls, i + 1, p, before, mine', spent')
    ensures p !in mine' ==> spent' == Elapsed(wait, polls, i + 1) && spent' <= wait + 1
    ensures p !in mine' ==> (forall n :: 0 <= n < i + 1 ==> Elapsed(wait, polls, n) < wait)
    ensures p !in mine' && p in before ==> Removes(wait, polls, p)
    ensures Kept(polls, i + 1, before, mine')
  {
    KeptMore(polls, i, before, mine, mine');
    if p !in mine' && p in before { TakenInTime(wait, polls, i + 1, p); }
  }

  /** Where the first i polls have used up the time, or there are no others, and none has taken p. */
  lemma WaitOver(wait: nat, polls: seq<PollReply>, i: nat, p: Partition)
    requires i <= |polls| && (Elapsed(wait, polls, i) >= wait || i == |polls|)
    ensures Elapsed(wait, polls, |polls|) == Elapsed(wait, polls, i)
    ensures !TakenBy(polls, i, p) ==> (Completes(wait, polls, p) <==> Elapsed(wait, polls, |polls|) >= wait)
  {
    if Elapsed(wait, polls, i) >= wait { TimeIsUp(wait, polls, i, |polls|); }
    if !TakenBy(polls, i, p) {
      forall n | 0 <= n < |polls| && Elapsed(wait, polls, n) < wait ensures !Takes(polls[n].event, p) {
        if n < i {
          if Takes(polls[n].event, p) { TakenByOneOf(polls, i, n, p); }
        } else {
          TimeIsUp(wait, polls, i, n);
        }
      }
    }
  }

  /** What the polls of a wait do. */
  function EventActions(c: ConsumerId, event: PollEvent): seq<Action> {
    match event
    case Nothing => []
    case Data(p, put) => [PollDuringWait(c, p, put)]
    case Revoked(ps) => seq(|ps|, i requires 0 <= i < |ps| => Revoke(c, ps[i]))
    case Assigned(ps) => seq(|ps|, i requires 0 <= i < |ps| => Assign(c, ps[i]))
  }

  function WaitActions(c: ConsumerId, polls: seq<PollReply>, n: nat): seq<Action>
    requires n <= |polls|
  {
    if n == 0 then [] else WaitActions(c, polls, n - 1) + EventActions(c, polls[n - 1].event)
  }

  /** How long the wait after the k-th turn lasts. */
  function Waited(policy: RetryPolicy, attempts: seq<Attempt>, k: nat): nat
    requires k < |attempts|
  {
    Elapsed(Backoff(policy, k), attempts[k].polls, |attempts[k].polls|)
  }

  /** When the k-th handler run ends, counted from the start of the record, if every wait before it lasts. */
  function RanAt(policy: RetryPolicy, attempts: seq<Attempt>, k: nat): nat
    requires k < |attempts|
  {
    attempts[k].took +
    if k == 0 then 0 else RanAt(policy, attempts, k - 1) + Waited(policy, attempts, k - 1)
  }

  /** A turn settles its record: the handler succeeds, or the record is due for the dead letter topic and gets there. */
  predicate Settles(policy: RetryPolicy, a: Attempt, ran: int) {
    a.outcome.Handled? || (Tries(policy, a, ran) && a.publishes)
  }

  /** The k-th turn neither settles the record nor ends with the worker, and its wait lasts. */
  ghost predicate GoesOn(policy: RetryPolicy, attempts: seq<Attempt>, p: Partition, k: nat)
    requires k < |attempts|
  {
    && !Settles(policy, attempts[k], RanAt(policy, attempts, k)) && !attempts[k].cancelled
    && Completes(Backoff(policy, k), attempts[k].polls, p)
  }

  lemma RanNext(policy: RetryPolicy, attempts: seq<Attempt>, k: nat, ran: nat, since: nat)
    requires k < |attempts| && ran == RanAt(policy, attempts, k)
    requires since == ran + Waited(policy, attempts, k)
    ensures k + 1 < |attempts| ==> since + attempts[k + 1].took == RanAt(policy, attempts, k + 1)
  {}

  lemma TryNext(policy: RetryPolicy, attempts: seq<Attempt>, k: nat, ran: nat, before: Option<nat>, after: Option<nat>)
    requires k < |attempts| && ran == RanAt(policy, attempts, k) && before == FirstTry(policy, attempts, k)
    requires after == if before.None? && Tries(policy, attempts[k], ran) then Some(ran) else before
    ensures after == FirstTry(policy, attempts, k + 1)
  {}

  /** The first turn that tries the dead letter topic. */
  function FirstTry(policy: RetryPolicy, attempts: seq<Attempt>, n: nat): Option<nat>
    requires n <= |attempts|
  {
    if n == 0 then None
    else
      var before := FirstTry(policy, attempts, n - 1);
      var ran := RanAt(policy, attempts, n - 1);
      if before.None? && Tries(policy, attempts[n - 1], ran) then Some(ran) else before
  }

  /** The dead letter topic has first been tried at firstPublish when the n-th turn, if there is one, is over. */
  ghost predicate TriedFirst(policy: RetryPolicy, attempts: seq<Attempt>, n: nat, firstPublish: Option<nat>) {
    if n < |attempts| then firstPublish == FirstTry(policy, attempts, n + 1)
    else n == |attempts| && firstPublish == FirstTry(policy, attempts, n)
  }

  lemma OneMore(i: nat, step: nat)
    ensures (i + 1) * step == i * step + step
  {}

  /** The waits are the backoff sequence; the first attempt at the dead letter topic for a decodable record comes no
      earlier than the allowed time, and at most one wait and one handler run later; while publishing works, the number
      of waits is bounded by that time. */
  ghost predicate Paced(policy: RetryPolicy, attempts: seq<Attempt>, waits: seq<nat>, firstPublish: Option<nat>,
                        slowest: nat) {
    && |waits| <= |attempts| && (forall k :: 0 <= k < |waits| ==> waits[k] == Backoff(policy, k))
    && (firstPublish.Some? && Decodable(attempts) ==>
      policy.elapsed <= firstPublish.value <= policy.elapsed + policy.max + slowest)
    && (Publishable(attempts) && waits != [] ==> |waits| * policy.initial < policy.elapsed + policy.initial)
  }

  /** Where the clock stands between two turns. */
  ghost predicate InTime(policy: RetryPolicy, attempts: seq<Attempt>, waits: seq<nat>, firstPublish: Option<nat>,
                         since: int) {
    && |waits| * policy.initial <= since
    && (firstPublish.None? && Decodable(attempts) ==> since <= policy.elapsed + policy.max)
  }

  /** Whether a turn tries the dead letter topic. */
  predicate Tries(policy: RetryPolicy, a: Attempt, ran: int) {
    !a.outcome.Handled? && !a.cancelled && (a.outcome.Invalid? || ran >= policy.elapsed)
  }

  lemma PacedTry(policy: RetryPolicy, attempts: seq<Attempt>, waits: seq<nat>, before: Option<nat>, since: nat,
                 tried: bool, after: Option<nat>, slowest: nat)
    requires |waits| < |attempts| && attempts[|waits|].took <= slowest
    requires Paced(policy, attempts, waits, before, slowest) && InTime(policy, attempts, waits, before, since)
    requires tried <==> Tries(policy, attempts[|waits|], since + attempts[|waits|].took)
    requires after == if tried && before.None? then Some(since + attempts[|waits|].took) else before
    ensures Paced(policy, attempts, waits, after, slowest)
  {}

  lemma PacedWait(policy: RetryPolicy, attempts: seq<Attempt>, waits: seq<nat>, before: Option<nat>, since: nat,
                  tried: bool, after: Option<nat>, slowest: nat, since': nat)
    requires policy.Valid() && |waits| < |attempts| && Paced(policy, attempts, waits, after, slowest)
    requires InTime(policy, attempts, waits, before, since)
    requires var a := attempts[|waits|];
      && (tried <==> Tries(policy, a, since + a.took)) && !a.outcome.Handled? && !a.cancelled && !(tried && a.publishes)
      && since + a.took + Backoff(policy, |waits|) <= since' <= since + a.took + Backoff(policy, |waits|) + 1
    requires after == if tried && before.None? then Some(since + attempts[|waits|].took) else before
    ensures Paced(policy, attempts, waits + [Backoff(policy, |waits|)], after, slowest)
    ensures InTime(policy, attempts, waits + [Backoff(policy, |waits|)], after, since')
  {
    BackoffGrowsWithinBounds(policy, |waits|);
    OneMore(|waits|, policy.initial);
  }

  /** How a turn of the retry loop ends. */
  datatype Turn = Settled | Stopped | Waited

  const POLL_LIMIT := 100

  lemma {:induction false} ExecConcat(g: Group, first: seq<Action>, second: seq<Action>)
    ensures Exec(g, first + second) == Exec(Exec(g, first), second)
  {
    if second == [] {
      assert first + second == first;
    } else {
      assert (first + second)[..|first + second| - 1] == first + second[..|second| - 1];
      ExecConcat(g, first, second[..|second| - 1]);
    }
  }

  /** Actions that keep a batch in hand. */
  predicate Keeping(a: Action) {
    !a.Rewind? && !a.FetchFails?
  }

  predicate AllKeep(trace: seq<Action>) {
    forall k :: 0 <= k < |trace| ==> Keeping(trace[k])
  }

  function FirstOf(ps: seq<Partition>, n: nat): set<Partition>
    requires n <= |ps|
  {
    if n == 0 then {} else FirstOf(ps, n - 1) + {ps[n - 1]}
  }

  lemma {:induction false} AllOf(ps: seq<Partition>, n: nat)
    requires n <= |ps|
    ensures forall p :: p in FirstOf(ps, n) <==> exists j :: 0 <= j < n && ps[j] == p
  {
    if n > 0 {
      AllOf(ps, n - 1);
    }
  }

  method EarliestOffsets(batch: seq<Record>) returns (earliest: map<Partition, nat>)
    ensures earliest == Earliest(batch)
  {
    earliest := map[];
    for i := 0 to |batch|
      invariant earliest == Earliest(batch[..i])
    {
      var r := batch[i];
      assert batch[..i + 1][..i] == batch[..i];
      if r.partition !in earliest || r.offset < earliest[r.partition] {
        earliest := earliest[r.partition := r.offset];
      }
    }
    assert batch[..|batch|] == batch;
  }

  lemma Rewound(g: Group, c: ConsumerId, k: Consumer, order: seq<Partition>, failing: set<Partition>, g': Group)
    requires c in g.consumers && g.consumers[c] == k
    requires g' == g.(consumers := g.consumers[c := SeekAll(k, Earliest(k.batch), order, failing).(batch := [])])
    ensures g' == Apply(g, Rewind(c, order, failing))
  {}

  lemma VisitsAll(batch: seq<Record>, order: seq<Partition>)
    requires Distinct(order) && (forall p :: p in Earliest(batch) ==> p in order)
    requires forall j :: 0 <= j < |order| ==> order[j] in Earliest(batch)
    ensures Visits(batch, order)
  {
    EarliestIsLeast(batch);
    forall i | 0 <= i < |batch| ensures batch[i].partition in order { assert batch[i].partition in Earliest(batch); }
  }

  lemma {:induction false} WaitKeeps(c: ConsumerId, polls: seq<PollReply>, n: nat)
    requires n <= |polls|
    ensures AllKeep(WaitActions(c, polls, n))
  {
    if n > 0 { WaitKeeps(c, polls, n - 1); }
  }

  /** The first n turns went on. The partition of the record may be gone before the first of them. */
  ghost predicate WentOn(policy: RetryPolicy, attempts: seq<Attempt>, r: Record, mine: set<Partition>, n: nat) {
    && n <= |attempts|
    && (forall k :: 0 <= k < n ==>
          !Settles(policy, attempts[k], RanAt(policy, attempts, k)) && !attempts[k].cancelled)
    && (r.partition in mine ==> forall k :: 0 <= k < n ==> GoesOn(policy, attempts, r.partition, k))
  }

  /** n turns went on, and the next one decides: the record is settled exactly when that turn settles it. Otherwise
      there is no next turn, or the worker shuts down, or its wait does not last. */
  ghost predicate Decided(policy: RetryPolicy, attempts: seq<Attempt>, r: Record, mine: set<Partition>, settled: bool,
                          n: nat,
                          firstPublish: Option<nat>) {
    && WentOn(policy, attempts, r, mine, n)
    && (settled <==> n < |attempts| && Settles(policy, attempts[n], RanAt(policy, attempts, n)))
    && (r.partition in mine && n < |attempts| ==> !GoesOn(policy, attempts, r.partition, n))
    && TriedFirst(policy, attempts, n, firstPublish)
  }

  /** Some turn settles the record, and every turn before it leaves the worker running and waits its whole time out. */
  ghost predicate SettlesInTime(policy: RetryPolicy, attempts: seq<Attempt>, p: Partition) {
    exists k :: 0 <= k < |attempts| && SettlesAt(policy, attempts, p, k)
  }

  ghost predicate SettlesAt(policy: RetryPolicy, attempts: seq<Attempt>, p: Partition, k: nat)
    requires k < |attempts|
  {
    Settling(policy, attempts[k], RanAt(policy, attempts, k))
      && forall j :: 0 <= j < k ==> Lasts(policy, attempts, p, j)
  }

  /** The handler succeeds; or the worker is running, the record cannot be decoded or its time is up, and publishing
      works. */
  predicate Settling(policy: RetryPolicy, a: Attempt, ran: int) {
    a.outcome.Handled? || (!a.cancelled && a.publishes && (a.outcome.Invalid? || ran >= policy.elapsed))
  }

  /** The worker is running after the j-th run of the handler and until its wait is over, and has the partition. */
  ghost predicate Lasts(policy: RetryPolicy, attempts: seq<Attempt>, p: Partition, j: nat)
    requires j < |attempts|
  {
    !attempts[j].cancelled && Completes(Backoff(policy, j), attempts[j].polls, p)
  }

  lemma SettlingIsSettles(policy: RetryPolicy, a: Attempt, ran: int)
    ensures Settling(policy, a, ran) <==> Settles(policy, a, ran)
  {}

  lemma GoesOnIff(policy: RetryPolicy, attempts: seq<Attempt>, p: Partition, j: nat)
    requires j < |attempts|
    ensures GoesOn(policy, attempts, p, j) <==>
      Lasts(policy, attempts, p, j) && !Settles(policy, attempts[j], RanAt(policy, attempts, j))
  {}

  lemma LastSettles(policy: RetryPolicy, attempts: seq<Attempt>, p: Partition, n: nat)
    requires n < |attempts| && Settles(policy, attempts[n], RanAt(policy, attempts, n))
    requires forall j :: 0 <= j < n ==> GoesOn(policy, attempts, p, j)
    ensures SettlesAt(policy, attempts, p, n)
  {
    forall j | 0 <= j < n ensures Lasts(policy, attempts, p, j) { GoesOnIff(policy, attempts, p, j); }
    SettlingIsSettles(policy, attempts[n], RanAt(policy, attempts, n));
  }

  lemma GoesOnBefore(policy: RetryPolicy, attempts: seq<Attempt>, p: Partition, k: nat, n: nat)
    requires k < |attempts| && n < |attempts| && SettlesAt(policy, attempts, p, k)
    ensures !GoesOn(policy, attempts, p, k)
    ensures n < k && !Settles(policy, attempts[n], RanAt(policy, attempts, n)) ==> GoesOn(policy, attempts, p, n)
    ensures n == k ==> Settles(policy, attempts[n], RanAt(policy, attempts, n))
  {
    SettlingIsSettles(policy, attempts[k], RanAt(policy, attempts, k));
    GoesOnIff(policy, attempts, p, n);
    GoesOnIff(policy, attempts, p, k);
  }

  /** A record whose partition is assigned is settled exactly when some turn settles it in time. */
  lemma SettledIff(policy: RetryPolicy, attempts: seq<Attempt>, r: Record, mine: set<Partition>, settled: bool, n: nat,
                   firstPublish: Option<nat>)
    requires Decided(policy, attempts, r, mine, settled, n, firstPublish) && r.partition in mine
    ensures settled <==> SettlesInTime(policy, attempts, r.partition)
    ensures settled ==> n < |attempts| && SettlesAt(policy, attempts, r.partition, n)
  {
    if settled {
      LastSettles(policy, attempts, r.partition, n);
    } else if SettlesInTime(policy, attempts, r.partition) {
      var k :| 0 <= k < |attempts| && SettlesAt(policy, attempts, r.partition, k);
      GoesOnBefore(policy, attempts, r.partition, k, if n < |attempts| then n else k);
    }
  }

  /** The k-th run of the handler comes after the waits before it. */
  lemma {:induction false} RunsAfterWaits(policy: RetryPolicy, attempts: seq<Attempt>, k: nat)
    requires k < |attempts|
    requires forall j :: 0 <= j < k ==> Waited(policy, attempts, j) >= Backoff(policy, j)
    ensures RanAt(policy, attempts, k) >= BackoffBefore(policy, k)
  {
    if k > 0 { RunsAfterWaits(policy, attempts, k - 1); }
  }

  function BackoffBefore(policy: RetryPolicy, k: nat): nat {
    if k == 0 then 0 else BackoffBefore(policy, k - 1) + Backoff(policy, k - 1)
  }

  lemma {:induction false} DefaultBackoffBefore(k: nat)
    requires k >= 5
    ensures BackoffBefore(DEFAULT_RETRY_POLICY, k) == 31_000 + 30_000 * (k - 5)
  {
    DefaultWaits(k);
    if k == 5 {
      var policy := DEFAULT_RETRY_POLICY;
      assert Backoff(policy, 2) == 4_000;
      assert Backoff(policy, 4) == 16_000;
      assert BackoffBefore(policy, 2) == 3_000;
      assert BackoffBefore(policy, 4) == 15_000;
    } else {
      DefaultWaits(k - 1);
      DefaultBackoffBefore(k - 1);
    }
  }

  lemma FifteenthSettles(attempts: seq<Attempt>, p: Partition)
    requires 14 < |attempts| && !attempts[14].cancelled && attempts[14].publishes
    requires forall j :: 0 <= j < 14 ==> GoesOn(DEFAULT_RETRY_POLICY, attempts, p, j)
    ensures Settles(DEFAULT_RETRY_POLICY, attempts[14], RanAt(DEFAULT_RETRY_POLICY, attempts, 14))
  {
    var policy := DEFAULT_RETRY_POLICY;
    forall j | 0 <= j < 14 ensures Waited(policy, attempts, j) >= Backoff(policy, j) {
      assert GoesOn(policy, attempts, p, j);
    }
    RunsAfterWaits(policy, attempts, 14);
    DefaultBackoffBefore(14);
  }

  /** Under the default policy, while publishing works, a record waits at most fourteen times. */
  lemma FourteenWaits(attempts: seq<Attempt>, r: Record, mine: set<Partition>, settled: bool, n: nat,
                      firstPublish: Option<nat>)
    requires Decided(DEFAULT_RETRY_POLICY, attempts, r, mine, settled, n, firstPublish)
    requires r.partition in mine && Publishable(attempts)
    ensures n <= 14
  {
    if n > 14 {
      FifteenthSettles(attempts, r.partition);
    }
  }

  lemma {:induction false} TenPolls(polls: seq<PollReply>, n: nat)
    requires |polls| == 10 && (forall i :: 0 <= i < 10 ==> polls[i] == PollReply(Nothing, 101)) && n <= 10
    ensures Elapsed(1_000, polls, n) == if n == 10 then 1_001 else 101 * n
  {
    if n > 0 { TenPolls(polls, n - 1); }
  }

  /** A record whose first run fails waits a second and is handled by the next one. */
  lemma OneRetry(polls: seq<PollReply>, p: Partition)
    requires |polls| == 10 && forall i :: 0 <= i < 10 ==> polls[i] == PollReply(Nothing, 101)
    ensures SettlesInTime(DEFAULT_RETRY_POLICY,
              [Attempt(Failed, 0, false, true, true, polls), Attempt(Handled, 0, false, true, true, [])], p)
  {
    var attempts := [Attempt(Failed, 0, false, true, true, polls), Attempt(Handled, 0, false, true, true, [])];
    TenPolls(polls, 10);
    assert !Removes(1_000, polls, p);
    assert SettlesAt(DEFAULT_RETRY_POLICY, attempts, p, 1);
  }

  /** What was assigned and has not been taken away in n waits is still assigned. */
  ghost predicate KeptThrough(attempts: seq<Attempt>, n: nat, before: set<Partition>, mine: set<Partition>)
    requires n <= |attempts|
  {
    forall q :: q in before && !TakenIn(attempts, n, q) ==> q in mine
  }

  lemma {:induction false} KeptToTheEnd(attempts: seq<Attempt>, n: nat, before: set<Partition>, mine: set<Partition>)
    requires n <= |attempts| && KeptThrough(attempts, n, before, mine)
    ensures KeptThrough(attempts, |attempts|, before, mine)
    decreases |attempts| - n
  {
    if n < |attempts| { KeptToTheEnd(attempts, n + 1, before, mine); }
  }

  /** n turns went on. What is assigned now and when the next turn starts. */
  ghost predicate Retrying(policy: RetryPolicy, attempts: seq<Attempt>, r: Record, before: set<Partition>, n: nat,
                           mine: set<Partition>, since: int, firstPublish: Option<nat>) {
    && WentOn(policy, attempts, r, before, n) && KeptThrough(attempts, n, before, mine)
    && (n > 0 || r.partition in before ==> r.partition in mine)
    && (n < |attempts| ==> since + attempts[n].took == RanAt(policy, attempts, n))
    && firstPublish == FirstTry(policy, attempts, n)
  }

  /** What a turn ensures about its end. */
  ghost predicate Turned(policy: RetryPolicy, a: Attempt, wait: nat, p: Partition, mine: set<Partition>,
                         mine': set<Partition>, ran: int, turn: Turn, since': int) {
    && (turn.Settled? <==> Settles(policy, a, ran))
    && Kept(a.polls, |a.polls|, mine, mine')
    && (turn.Waited? ==> !a.cancelled && p in mine' && since' == ran + Elapsed(wait, a.polls, |a.polls|))
    && (p in mine && turn.Stopped? ==> a.cancelled || !Completes(wait, a.polls, p))
    && (p in mine && turn.Waited? ==> Completes(wait, a.polls, p))
  }

  lemma KeptTurn(attempts: seq<Attempt>, n: nat, before: set<Partition>, mine: set<Partition>, mine': set<Partition>)
    requires n < |attempts| && KeptThrough(attempts, n, before, mine)
    requires Kept(attempts[n].polls, |attempts[n].polls|, mine, mine')
    ensures KeptThrough(attempts, n + 1, before, mine')
  {}

  /** The turn that ends the loop. */
  lemma DecidingTurn(policy: RetryPolicy, attempts: seq<Attempt>, r: Record, before: set<Partition>, n: nat,
                     mine: set<Partition>, mine': set<Partition>, since: int, turn: Turn, since': int,
                     first: Option<nat>, first': Option<nat>)
    requires n < |attempts| && Retrying(policy, attempts, r, before, n, mine, since, first)
    requires Turned(policy, attempts[n], Backoff(policy, n), r.partition, mine, mine', since + attempts[n].took, turn,
      since') && !turn.Waited?
    requires first' == FirstTry(policy, attempts, n + 1)
    ensures Decided(policy, attempts, r, before, turn.Settled?, n, first')
    ensures KeptThrough(attempts, |attempts|, before, mine')
  {
    KeptTurn(attempts, n, before, mine, mine');
    KeptToTheEnd(attempts, n + 1, before, mine');
  }

  lemma WentOnMore(policy: RetryPolicy, attempts: seq<Attempt>, r: Record, before: set<Partition>, n: nat)
    requires n < |attempts| && WentOn(policy, attempts, r, before, n)
    requires !Settles(policy, attempts[n], RanAt(policy, attempts, n)) && !attempts[n].cancelled
    requires r.partition in before ==> Completes(Backoff(policy, n), attempts[n].polls, r.partition)
    ensures WentOn(policy, attempts, r, before, n + 1)
  {}

  /** A turn that goes on. */
  lemma AnotherTurn(policy: RetryPolicy, attempts: seq<Attempt>, r: Record, before: set<Partition>, n: nat,
                    mine: set<Partition>, mine': set<Partition>, since: int, turn: Turn, since': int,
                    first: Option<nat>, first': Option<nat>)
    requires n < |attempts| && Retrying(policy, attempts, r, before, n, mine, since, first)
    requires Turned(policy, attempts[n], Backoff(policy, n), r.partition, mine, mine', since + attempts[n].took, turn,
      since') && turn.Waited?
    requires first' == FirstTry(policy, attempts, n + 1)
    ensures Retrying(policy, attempts, r, before, n + 1, mine', since', first')
  {
    KeptTurn(attempts, n, before, mine, mine');
    WentOnMore(policy, attempts, r, before, n);
    RanNext(policy, attempts, n, RanAt(policy, attempts, n), since');
  }

  /** The pace between two turns. */
  ghost predicate InPace(policy: RetryPolicy, attempts: seq<Attempt>, waits: seq<nat>, since: int, first: Option<nat>,
                         slowest: nat) {
    Paced(policy, attempts, waits, first, slowest) && InTime(policy, attempts, waits, first, since)
  }

  /** When the dead letter topic has first been tried after a turn whose handler has run by ran. */
  ghost predicate TriedAfter(policy: RetryPolicy, a: Attempt, ran: int, tried: bool, first: Option<nat>,
                             first': Option<nat>) {
    (tried <==> Tries(policy, a, ran)) && first' == if tried && first.None? then Some(ran) else first
  }

  lemma LastPaced(policy: RetryPolicy, attempts: seq<Attempt>, n: nat, waits: seq<nat>, since: nat, ran: nat,
                  tried: bool,
                  first: Option<nat>, first': Option<nat>, slowest: nat)
    requires n == |waits| && n < |attempts| && attempts[n].took <= slowest && ran == since + attempts[n].took
    requires InPace(policy, attempts, waits, since, first, slowest)
    requires TriedAfter(policy, attempts[n], ran, tried, first, first')
    ensures Paced(policy, attempts, waits, first', slowest)
  {
    PacedTry(policy, attempts, waits, first, since, tried, first', slowest);
  }

  lemma NextPaced(policy: RetryPolicy, attempts: seq<Attempt>, n: nat, waits: seq<nat>, since: nat, ran: nat,
                  tried: bool,
                  first: Option<nat>, first': Option<nat>, slowest: nat, wait: nat, since': nat)
    requires n == |waits| && n < |attempts| && attempts[n].took <= slowest && ran == since + attempts[n].took
    requires InPace(policy, attempts, waits, since, first, slowest)
    requires TriedAfter(policy, attempts[n], ran, tried, first, first')
    requires !attempts[n].outcome.Handled? && !attempts[n].cancelled && !(tried && attempts[n].publishes)
    requires policy.Valid() && wait == Backoff(policy, n) && ran + wait <= since' <= ran + wait + 1
    ensures InPace(policy, attempts, waits + [wait], since', first', slowest)
  {
    PacedTry(policy, attempts, waits, first, since, tried, first', slowest);
    PacedWait(policy, attempts, waits, first, since, tried, first', slowest, since');
  }

  lemma LastTurn(policy: RetryPolicy, attempts: seq<Attempt>, r: Record, before: set<Partition>, n: nat,
                 mine: set<Partition>,
                 mine': set<Partition>, since: nat, ran: nat, turn: Turn, since': int, tried: bool, first: Option<nat>,
                 first': Option<nat>, wait: nat)
    requires n < |attempts| && Retrying(policy, attempts, r, before, n, mine, since, first)
    requires ran == since + attempts[n].took && wait == Backoff(policy, n)
    requires Turned(policy, attempts[n], wait, r.partition, mine, mine', ran, turn, since') && !turn.Waited?
    requires TriedAfter(policy, attempts[n], ran, tried, first, first')
    ensures Decided(policy, attempts, r, before, turn.Settled?, n, first')
    ensures KeptThrough(attempts, |attempts|, before, mine')
  {
    TryNext(policy, attempts, n, ran, first, first');
    DecidingTurn(policy, attempts, r, before, n, mine, mine', since, turn, since', first, first');
  }

  /** No turn is left. */
  lemma NoTurnLeft(policy: RetryPolicy, attempts: seq<Attempt>, r: Record, before: set<Partition>, mine: set<Partition>,
                   since: nat, first: Option<nat>)
    requires Retrying(policy, attempts, r, before, |attempts|, mine, since, first)
    ensures Decided(policy, attempts, r, before, false, |attempts|, first)
    ensures KeptThrough(attempts, |attempts|, before, mine)
  {}

  lemma NextTurn(policy: RetryPolicy, attempts: seq<Attempt>, r: Record, before: set<Partition>, n: nat,
                 mine: set<Partition>,
                 mine': set<Partition>, since: nat, ran: nat, turn: Turn, since': int, tried: bool, first: Option<nat>,
                 first': Option<nat>, wait: nat)
    requires n < |attempts| && Retrying(policy, attempts, r, before, n, mine, since, first)
    requires ran == since + attempts[n].took && wait == Backoff(policy, n)
    requires Turned(policy, attempts[n], wait, r.partition, mine, mine', ran, turn, since') && turn.Waited?
    requires TriedAfter(policy, attempts[n], ran, tried, first, first')
    ensures Retrying(policy, attempts, r, before, n + 1, mine', since', first')
  {
    TryNext(policy, attempts, n, ran, first, first');
    AnotherTurn(policy, attempts, r, before, n, mine, mine', since, turn, since', first, first');
  }

  lemma AtStart(policy: RetryPolicy, attempts: seq<Attempt>, r: Record, mine: set<Partition>, slowest: nat)
    ensures InPace(policy, attempts, [], 0, None, slowest)
    ensures Retrying(policy, attempts, r, mine, 0, mine, 0, None)
  {}

  lemma NextBackoff(policy: RetryPolicy, n: nat, wait: nat)
    requires policy.Valid() && wait == Backoff(policy, n)
    ensures Min(wait * 2, policy.max) == Backoff(policy, n + 1) && Backoff(policy, n + 1) > 0
  {
    BackoffGrowsWithinBounds(policy, n + 1);
  }

  class RecordConsumer {
    const c: ConsumerId
    const start: map<Partition, nat>
    var committed: map<Partition, nat>
    var others: map<ConsumerId, Consumer>
    var position: map<Partition, nat>
    var stored: map<Partition, nat>
    /** The part of the batch that has not been processed. */
    var batch: seq<Record>
    var handled: set<Record>
    var dead: set<Record>
    var now: nat

    constructor (c: ConsumerId, g: Group, now: nat)
      ensures this.c == c && this.now == now
      ensures State() == g.With(c, g.Consumer(c))
    {
      this.c, this.now := c, now;
      start, committed, others := g.start, g.committed, g.consumers;
      var k := g.Consumer(c);
      position, stored, batch := k.position, k.stored, k.batch;
      handled, dead := g.handled, g.dead;
    }

    function State(): Group
      reads this
    {
      Group(start, committed, others[c := Consumer(position, stored, batch)], handled, dead)
    }

    method StoreMessage(r: Record)
      modifies `stored
      ensures Consumer(position, stored, batch) == StoreOffset(old(Consumer(position, stored, batch)), r)
    {
      if r.partition in position {
        stored := stored[r.partition := r.offset + 1];
      }
    }

    /** The handler of the head of the batch returned nil. */
    method FinishHandled(ghost g: Group, ghost sofar: seq<Action>) returns (ghost trace: seq<Action>)
      requires batch != [] && State() == Exec(g, sofar) && AllKeep(sofar)
      modifies `handled, `stored, `batch
      ensures State() == Exec(g, trace) && AllKeep(trace)
      ensures batch == old(batch)[1..] && handled == old(handled) + {old(batch)[0]}
    {
      ExecSnoc(g, sofar, Handle(c));
      handled := handled + {batch[0]};
      StoreMessage(batch[0]);
      batch := batch[1..];
      trace := sofar + [Handle(c)];
    }

    /** Its publication to the dead letter topic succeeded. */
    method FinishDead(ghost g: Group, ghost sofar: seq<Action>) returns (ghost trace: seq<Action>)
      requires batch != [] && State() == Exec(g, sofar) && AllKeep(sofar)
      modifies `dead, `stored, `batch
      ensures State() == Exec(g, trace) && AllKeep(trace)
      ensures batch == old(batch)[1..] && dead == old(dead) + {old(batch)[0]}
    {
      ExecSnoc(g, sofar, DeadLetter(c));
      dead := dead + {batch[0]};
      StoreMessage(batch[0]);
      batch := batch[1..];
      trace := sofar + [DeadLetter(c)];
    }

    /** A commit that fails leaves the stored offsets for the next one. */
    method CommitOffsets(works: bool) returns (ghost trace: seq<Action>)
      modifies `committed
      ensures State() == Exec(old(State()), trace) && AllKeep(trace)
      ensures committed == if works then old(committed) + stored else old(committed)
    {
      trace := [];
      if works {
        committed := committed + stored;
        trace := [Commit(c)];
        assert [Commit(c)][..0] == [];
      }
    }

    method LosePartition(p: Partition, ghost g: Group, ghost sofar: seq<Action>)
      requires State() == Exec(g, sofar)
      modifies `position, `stored
      ensures State() == Exec(g, sofar + [Revoke(c, p)])
      ensures position.Keys == old(position).Keys - {p}
    {
      ExecSnoc(g, sofar, Revoke(c, p));
      position, stored := position - {p}, stored - {p};
    }

    method LosePartitions(ps: seq<Partition>) returns (ghost trace: seq<Action>)
      modifies `position, `stored
      ensures State() == Exec(old(State()), trace) && trace == EventActions(c, Revoked(ps))
      ensures forall p :: p in old(position) ==> (p in position <==> p !in ps)
    {
      trace := [];
      for i := 0 to |ps|
        invariant State() == Exec(old(State()), trace)
        invariant |trace| == i && forall j :: 0 <= j < i ==> trace[j] == Revoke(c, ps[j])
        invariant position.Keys == old(position).Keys - FirstOf(ps, i)
      {
        LosePartition(ps[i], old(State()), trace);
        trace := trace + [Revoke(c, ps[i])];
      }
      AllOf(ps, |ps|);
    }

    /** An assigned partition starts at its committed offset. */
    method TakePartition(p: Partition, ghost g: Group, ghost sofar: seq<Action>)
      requires State() == Exec(g, sofar)
      modifies `position, `stored
      ensures State() == Exec(g, sofar + [Assign(c, p)])
      ensures forall q :: q in old(position) ==> q in position
    {
      ExecSnoc(g, sofar, Assign(c, p));
      if p in committed {
        position, stored := position[p := committed[p]], stored - {p};
      }
    }

    method TakePartitions(ps: seq<Partition>) returns (ghost trace: seq<Action>)
      modifies `position, `stored
      ensures State() == Exec(old(State()), trace) && trace == EventActions(c, Assigned(ps))
      ensures forall q :: q in old(position) ==> q in position
    {
      trace := [];
      for i := 0 to |ps|
        invariant State() == Exec(old(State()), trace)
        invariant |trace| == i && forall j :: 0 <= j < i ==> trace[j] == Assign(c, ps[j])
        invariant forall q :: q in old(position) ==> q in position
      {
        TakePartition(ps[i], old(State()), trace);
        trace := trace + [Assign(c, ps[i])];
      }
    }

    /** A message of a partition assigned meanwhile is put back by a Seek, whose error is ignored. */
    method PutBack(p: Partition, put: bool) returns (ghost trace: seq<Action>)
      modifies `position
      ensures State() == Exec(old(State()), trace) && trace == [PollDuringWait(c, p, put)]
      ensures (put ==> position == old(position)) && position.Keys == old(position).Keys
    {
      trace := [PollDuringWait(c, p, put)];
      assert trace[..0] == [];
      if p in position {
        var seen := position[p];
        position := position[p := seen + 1];
        if put {
          position := position[p := seen];
        }
      }
    }

    /** What one Poll of a wait does. */
    method Receive(event: PollEvent) returns (ghost trace: seq<Action>)
      modifies `position, `stored
      ensures State() == Exec(old(State()), trace) && trace == EventActions(c, event)
      ensures forall p :: p in old(position) ==> (p in position <==> !Takes(event, p))
    {
      match event
      case Nothing => trace := [];
      case Data(p, put) => trace := PutBack(p, put);
      case Revoked(ps) => trace := LosePartitions(ps);
      case Assigned(ps) => trace := TakePartitions(ps);
    }

    /** The i-th Poll of a wait that has limit left. */
    method PollOnce(polls: seq<PollReply>, i: nat, limit: nat, ghost g: Group)
      requires i < |polls| && State() == Exec(g, WaitActions(c, polls, i))
      modifies `position, `stored, `now
      ensures State() == Exec(g, WaitActions(c, polls, i + 1))
      ensures now == old(now) + Min(polls[i].took, Min(limit, 100) + 1)
      ensures forall p :: p in old(position).Keys ==> (p in position.Keys <==> !Takes(polls[i].event, p))
    {
      ghost var trace := Receive(polls[i].event);
      ExecConcat(g, WaitActions(c, polls, i), trace);
      now := now + Min(polls[i].took, Min(limit, POLL_LIMIT) + 1);
    }

    /** Polls until the wait is over. Gives up exactly when the partition of the record in hand is taken away, or on
        shutdown, which is where the polls end early. used polls are made, each while there is time left. */
    method WaitPaused(wait: nat, polls: seq<PollReply>) returns (ended: bool, ghost used: nat, ghost trace: seq<Action>)
      requires batch != []
      modifies `position, `stored, `now
      ensures used <= |polls| && forall n :: 0 <= n < used ==> Elapsed(wait, polls, n) < wait
      ensures State() == Exec(old(State()), trace) && trace == WaitActions(c, polls, used)
      ensures now == old(now) + Elapsed(wait, polls, used) && now <= old(now) + wait + 1
      ensures ended ==> now >= old(now) + wait && now == old(now) + Elapsed(wait, polls, |polls|)
      ensures ended && wait > 0 ==> batch[0].partition in position
      ensures !ended ==> batch[0].partition !in position || (used == |polls| && Elapsed(wait, polls, |polls|) < wait)
      ensures batch[0].partition in old(position) ==> (ended <==> Completes(wait, polls, batch[0].partition))
      ensures Kept(polls, |polls|, old(position).Keys, position.Keys)
    {
      var deadline := now + wait;
      var p := batch[0].partition;
      ghost var g, started, before := State(), now, position.Keys;
      var i := 0;
      while now < deadline && i < |polls|
        invariant i <= |polls| && State() == Exec(g, WaitActions(c, polls, i))
        invariant Waiting(wait, polls, i, p, before, position.Keys, now - started)
      {
        ghost var mine, spent := position.Keys, now - started;
        PollOnce(polls, i, deadline - now, g);
        WaitingMore(wait, polls, i, p, before, mine, position.Keys, spent, now - started);
        i := i + 1;
        if p !in position {
          KeptAtLast(polls, i, |polls|, before, position.Keys);
          return false, i, WaitActions(c, polls, i);
        }
      }
      WaitOver(wait, polls, i, p);
      KeptAtLast(polls, i, |polls|, before, position.Keys);
      return now >= deadline, i, WaitActions(c, polls, i);
    }

    /** One turn of the retry loop. tried tells whether the dead letter topic was tried, right after the handler ran.
        The offsets of earlier records are committed before a wait. */
    method TryOnce(policy: RetryPolicy, a: Attempt, started: nat, wait: nat, ghost g: Group, ghost sofar: seq<Action>)
        returns (turn: Turn, tried: bool, ghost trace: seq<Action>)
      requires batch != [] && started <= now && wait > 0
      requires State() == Exec(g, sofar) && AllKeep(sofar)
      modifies this
      ensures State() == Exec(g, trace) && AllKeep(trace)
      ensures batch == if turn.Settled? then old(batch)[1..] else old(batch)
      ensures handled == if a.outcome.Handled? then old(handled) + {old(batch)[0]} else old(handled)
      ensures dead == if tried && a.publishes then old(dead) + {old(batch)[0]} else old(dead)
      ensures tried <==> Tries(policy, a, old(now) + a.took - started)
      ensures Turned(policy, a, wait, old(batch)[0].partition, old(position).Keys, position.Keys,
        old(now) + a.took - started, turn, now - started)
      ensures turn.Waited? ==> old(now) + a.took + wait <= now <= old(now) + a.took + wait + 1
      ensures committed ==
        if !turn.Settled? && !a.cancelled && a.commits then old(committed) + old(stored) else old(committed)
    {
      now := now + a.took;
      tried := false;
      if a.outcome.Handled? {
        trace := FinishHandled(g, sofar);
        return Settled, tried, trace;
      }
      if a.cancelled {
        return Stopped, tried, sofar;
      }
      if a.outcome.Invalid? || now - started >= policy.elapsed {
        tried := true;
        if a.publishes {
          trace := FinishDead(g, sofar);
          return Settled, tried, trace;
        }
      }
      var ended;
      ended, trace := CommitAndWait(a.commits, wait, a.polls, g, sofar);
      turn := if ended then Waited else Stopped;
    }

    method CommitAndWait(commits: bool, wait: nat, polls: seq<PollReply>, ghost g: Group, ghost sofar: seq<Action>)
        returns (ended: bool, ghost trace: seq<Action>)
      requires batch != [] && wait > 0
      requires State() == Exec(g, sofar) && AllKeep(sofar)
      modifies `committed, `position, `stored, `now
      ensures State() == Exec(g, trace) && AllKeep(trace)
      ensures ended ==> old(now) + wait <= now <= old(now) + wait + 1 && now == old(now) + Elapsed(wait, polls, |polls|)
      ensures ended ==> batch[0].partition in position
      ensures batch[0].partition in old(position) ==> (ended <==> Completes(wait, polls, batch[0].partition))
      ensures committed == if commits then old(committed) + old(stored) else old(committed)
      ensures Kept(polls, |polls|, old(position).Keys, position.Keys)
    {
      ghost var committing := CommitOffsets(commits);
      ExecConcat(g, sofar, committing);
      ghost var used;
      ended, used, trace := WaitPaused(wait, polls);
      WaitKeeps(c, polls, used);
      ExecConcat(g, sofar + committing, trace);
      trace := sofar + committing + trace;
    }

    /** The i-th turn of a record that has started at started: when the dead letter topic has first been tried, and
        where the loop stands after it. */
    method TakeTurn(policy: RetryPolicy, attempts: seq<Attempt>, i: nat, started: nat, wait: nat,
                    firstPublish: Option<nat>, ghost r: Record, ghost mine: set<Partition>, ghost waits: seq<nat>,
                    ghost slowest: nat, ghost g: Group, ghost sofar: seq<Action>)
        returns (turn: Turn, first: Option<nat>, ghost trace: seq<Action>)
      requires policy.Valid() && i == |waits| && i < |attempts| && attempts[i].took <= slowest
      requires batch != [] && r == batch[0] && started <= now && wait == Backoff(policy, i) && wait > 0
      requires State() == Exec(g, sofar) && AllKeep(sofar)
      requires InPace(policy, attempts, waits, now - started, firstPublish, slowest)
      requires Retrying(policy, attempts, r, mine, i, position.Keys, now - started, firstPublish)
      modifies this
      ensures State() == Exec(g, trace) && AllKeep(trace)
      ensures batch == if turn.Settled? then old(batch)[1..] else old(batch)
      ensures handled == if turn.Settled? && attempts[i].outcome.Handled? then old(handled) + {r} else old(handled)
      ensures dead == if turn.Settled? && !attempts[i].outcome.Handled? then old(dead) + {r} else old(dead)
      ensures !turn.Waited? ==> Paced(policy, attempts, waits, first, slowest)
      ensures !turn.Waited? ==> Decided(policy, attempts, r, mine, turn.Settled?, i, first)
      ensures !turn.Waited? ==> KeptThrough(attempts, |attempts|, mine, position.Keys)
      ensures turn.Waited? ==> started <= now && InPace(policy, attempts, waits + [wait], now - started, first, slowest)
      ensures turn.Waited? ==> Retrying(policy, attempts, r, mine, i + 1, position.Keys, now - started, first)
    {
      ghost var since, had := now - started, position.Keys;
      var ran := now + attempts[i].took - started;
      var tried;
      turn, tried, trace := TryOnce(policy, attempts[i], started, wait, g, sofar);
      first := if tried && firstPublish.None? then Some(ran) else firstPublish;
      ghost var since' := now - started;
      if turn.Waited? {
        NextPaced(policy, attempts, i, waits, since, ran, tried, firstPublish, first, slowest, wait, since');
        NextTurn(policy, attempts, r, mine, i, had, position.Keys, since, ran, turn, since', tried, firstPublish, first,
          wait);
      } else {
        LastPaced(policy, attempts, i, waits, since, ran, tried, firstPublish, first, slowest);
        LastTurn(policy, attempts, r, mine, i, had, position.Keys, since, ran, turn, since', tried, firstPublish, first,
          wait);
      }
    }

    /** Retries the record at the head of the batch until its handler succeeds or, when it cannot be decoded or its
        time is up, until it reaches the dead letter topic. It stops early only on shutdown or when its partition is
        gone. waits counts the turns that went on, and the turn after them decides. The waits are the backoff sequence;
        the first attempt at the dead letter topic for a valid record comes no earlier than the allowed time, and at
        most one wait and one handler run later; and while publishing works, the number of waits is bounded by that
        time. */
    method ProcessRecord(policy: RetryPolicy, attempts: seq<Attempt>, ghost slowest: nat)
        returns (settled: bool, waits: seq<nat>, firstPublish: Option<nat>, ghost trace: seq<Action>)
      requires policy.Valid() && batch != []
      requires forall k :: 0 <= k < |attempts| ==> attempts[k].took <= slowest
      modifies this
      ensures State() == Exec(old(State()), trace) && AllKeep(trace)
      ensures batch == if settled then old(batch)[1..] else old(batch)
      ensures Paced(policy, attempts, waits, firstPublish, slowest)
      ensures Decided(policy, attempts, old(batch)[0], old(position).Keys, settled, |waits|, firstPublish)
      ensures handled ==
        if settled && attempts[|waits|].outcome.Handled? then old(handled) + {old(batch)[0]} else old(handled)
      ensures dead == if settled && !attempts[|waits|].outcome.Handled? then old(dead) + {old(batch)[0]} else old(dead)
      ensures KeptThrough(attempts, |attempts|, old(position).Keys, position.Keys)
    {
      var started, wait := now, policy.initial;
      ghost var r, mine := batch[0], position.Keys;
      waits, firstPublish, trace := [], None, [];
      AtStart(policy, attempts, r, mine, slowest);
      for i := 0 to |attempts|
        invariant batch == old(batch) && started <= now && handled == old(handled) && dead == old(dead)
        invariant State() == Exec(old(State()), trace) && AllKeep(trace)
        invariant |waits| == i && wait == Backoff(policy, i) && wait > 0
        invariant InPace(policy, attempts, waits, now - started, firstPublish, slowest)
        invariant Retrying(policy, attempts, r, mine, i, position.Keys, now - started, firstPublish)
      {
        var turn;
        turn, firstPublish, trace := TakeTurn(policy, attempts, i, started, wait, firstPublish, r, mine, waits, slowest,
          old(State()), trace);
        if !turn.Waited? {
          return turn.Settled?, waits, firstPublish, trace;
        }
        NextBackoff(policy, i, wait);
        waits, wait := waits + [wait], Min(wait * 2, policy.max);
      }
      NoTurnLeft(policy, attempts, r, mine, position.Keys, now - started, firstPublish);
      return false, waits, firstPublish, trace;
    }

    /** rewindBatch: the earliest offset of each partition, and a Seek for each until one fails. order is the order in
        which the map happened to be visited. */
    method RewindBatch(failing: set<Partition>) returns (ghost order: seq<Partition>)
      modifies `position, `batch
      ensures Visits(old(batch), order) && State() == Apply(old(State()), Rewind(c, order, failing)) && batch == []
    {
      ghost var before, k := State(), Consumer(position, stored, batch);
      var earliest := EarliestOffsets(batch);
      order := SeekEach(earliest, failing);
      VisitsAll(batch, order);
      batch := [];
      Rewound(before, c, k, order, failing, State());
    }

    method SeekEach(earliest: map<Partition, nat>, failing: set<Partition>) returns (ghost order: seq<Partition>)
      modifies `position
      ensures Distinct(order) && (forall p :: p in earliest ==> p in order)
      ensures forall j :: 0 <= j < |order| ==> order[j] in earliest
      ensures Consumer(position, stored, batch) ==
        SeekAll(old(Consumer(position, stored, batch)), earliest, order, failing)
    {
      var rest, failed := earliest.Keys, false;
      ghost var before := Consumer(position, stored, batch);
      order := [];
      while rest != {}
        invariant rest <= earliest.Keys && Distinct(order) && forall p :: p in order <==> p in earliest && p !in rest
        invariant forall j :: 0 <= j < |order| ==> order[j] in earliest
        invariant Consumer(position, stored, batch) == SeekAll(before, earliest, order, failing)
        invariant failed <==> exists p :: p in order && !Seekable(before, failing, p)
        invariant position.Keys == before.position.Keys
      {
        var p := Pick(rest);
        SeekOneMore(before, earliest, order, failing, p);
        if !failed {
          if p in position && p !in failing {
            position := position[p := earliest[p]];
          } else {
            failed := true;
          }
        }
        order := order + [p];
        rest := rest - {p};
      }
    }

    /** The i-th record of the batch, which is its head by now. */
    method ProcessNext(policy: RetryPolicy, attempts: seq<seq<Attempt>>, i: nat, ghost all: seq<Record>,
                       ghost mine: set<Partition>, ghost g: Group, ghost sofar: seq<Action>)
        returns (settled: bool, ghost trace: seq<Action>)
      requires policy.Valid() && i < |all| && batch == all[i..] && State() == Exec(g, sofar) && AllKeep(sofar)
      requires SettledSoFar(policy, attempts, all, mine, i) && StillMine(attempts, i, mine, position.Keys)
      modifies this
      ensures State() == Exec(g, trace) && AllKeep(trace)
      ensures batch == if settled then all[i + 1..] else all[i..]
      ensures old(handled + dead) <= handled + dead && (settled ==> all[i] in handled + dead)
      ensures settled ==> SettledSoFar(policy, attempts, all, mine, i + 1)
      ensures !settled ==> Progress(policy, attempts, all, mine, i)
      ensures StillMine(attempts, i + 1, mine, position.Keys)
    {
      ghost var had := position.Keys;
      var turns := if i < |attempts| then attempts[i] else [];
      var waits, firstPublish;
      settled, waits, firstPublish, trace := ProcessRecord(policy, turns, Slowest(turns));
      ExecConcat(g, sofar, trace);
      trace := sofar + trace;
      OneRecord(policy, attempts, all, mine, i, had, position.Keys, settled, |waits|, firstPublish);
    }

    /** The rewind after the actions of sofar. */
    method RewindRest(failing: set<Partition>, ghost g: Group, ghost sofar: seq<Action>)
        returns (ghost order: seq<Partition>)
      requires State() == Exec(g, sofar)
      modifies `position, `batch
      ensures State() == Exec(g, sofar + [Rewind(c, order, failing)]) && batch == []
      ensures Exec(g, sofar).Consumer(c).batch == old(batch) && Visits(old(batch), order)
    {
      order := RewindBatch(failing);
      ExecSnoc(g, sofar, Rewind(c, order, failing));
    }

    /** processRecords: one record after the other, and then the offsets are committed; what is left when one cannot be
        settled is rewound. done records are settled, each of them, while its partition has not been taken away, by a
        turn in time; and the next one is not. */
    method ProcessRecords(policy: RetryPolicy, attempts: seq<seq<Attempt>>, commits: bool, failing: set<Partition>)
        returns (ghost trace: seq<Action>, ghost rewind: Option<seq<Partition>>, ghost done: nat)
      requires policy.Valid()
      modifies this
      ensures batch == []
      ensures AllKeep(trace)
      ensures rewind.None? ==> State() == Exec(old(State()), trace)
      ensures rewind.Some? ==> State() == Exec(old(State()), trace + [Rewind(c, rewind.value, failing)])
      ensures rewind.Some? ==> Visits(Exec(old(State()), trace).Consumer(c).batch, rewind.value)
      ensures done <= |old(batch)| && (rewind.None? <==> done == |old(batch)|)
      ensures forall i :: 0 <= i < done ==> old(batch)[i] in handled + dead
      ensures rewind.Some? ==> Exec(old(State()), trace).Consumer(c).batch == old(batch)[done..]
      ensures Progress(policy, attempts, old(batch), old(position).Keys, done)
      ensures rewind.None? && commits ==> forall p :: p in stored ==> Lookup(committed, p) == Some(stored[p])
    {
      trace, rewind, done := [], None, 0;
      var i := 0;
      ghost var all, mine := batch, position.Keys;
      while batch != []
        invariant i <= |all| && batch == all[i..]
        invariant State() == Exec(old(State()), trace) && AllKeep(trace)
        invariant forall k :: 0 <= k < i ==> all[k] in handled + dead
        invariant SettledSoFar(policy, attempts, all, mine, i) && StillMine(attempts, i, mine, position.Keys)
        decreases |batch|
      {
        var settled;
        settled, trace := ProcessNext(policy, attempts, i, all, mine, old(State()), trace);
        if !settled {
          ghost var order := RewindRest(failing, old(State()), trace);
          return trace, Some(order), i;
        }
        i := i + 1;
      }
      ghost var committing := CommitOffsets(commits);
      ExecConcat(old(State()), trace, committing);
      trace, done := trace + committing, i;
    }
  }

  /** The turns of the i-th record of a batch. */
  function Turns(attempts: seq<seq<Attempt>>, i: nat): seq<Attempt> {
    if i < |attempts| then attempts[i] else []
  }

  /** A poll of a wait of one of the first n records takes the partition away. */
  predicate TakenBefore(attempts: seq<seq<Attempt>>, n: nat, p: Partition) {
    n > 0 && (TakenBefore(attempts, n - 1, p) || TakenIn(Turns(attempts, n - 1), |Turns(attempts, n - 1)|, p))
  }

  ghost predicate StillMine(attempts: seq<seq<Attempt>>, n: nat, before: set<Partition>, mine: set<Partition>) {
    forall q :: q in before && !TakenBefore(attempts, n, q) ==> q in mine
  }

  /** The partition of the i-th record is assigned when its turn comes. */
  predicate Reached(attempts: seq<seq<Attempt>>, batch: seq<Record>, before: set<Partition>, i: nat)
    requires i < |batch|
  {
    batch[i].partition in before && !TakenBefore(attempts, i, batch[i].partition)
  }

  ghost predicate SettledSoFar(policy: RetryPolicy, attempts: seq<seq<Attempt>>, batch: seq<Record>,
                               before: set<Partition>, n: nat)
    requires n <= |batch|
  {
    forall i :: 0 <= i < n && Reached(attempts, batch, before, i) ==>
      SettlesInTime(policy, Turns(attempts, i), batch[i].partition)
  }

  /** Of the records whose partitions are assigned when their turn comes, the first done are settled in time and the
      next one is not. */
  ghost predicate Progress(policy: RetryPolicy, attempts: seq<seq<Attempt>>, batch: seq<Record>, before: set<Partition>,
                           done: nat) {
    && done <= |batch| && SettledSoFar(policy, attempts, batch, before, done)
    && (done < |batch| && Reached(attempts, batch, before, done) ==>
      !SettlesInTime(policy, Turns(attempts, done), batch[done].partition))
  }

  lemma OneRecord(policy: RetryPolicy, attempts: seq<seq<Attempt>>, batch: seq<Record>, before: set<Partition>, i: nat,
                  mine: set<Partition>, mine': set<Partition>, settled: bool, n: nat, firstPublish: Option<nat>)
    requires i < |batch| && SettledSoFar(policy, attempts, batch, before, i) && StillMine(attempts, i, before, mine)
    requires Decided(policy, Turns(attempts, i), batch[i], mine, settled, n, firstPublish)
    requires KeptThrough(Turns(attempts, i), |Turns(attempts, i)|, mine, mine')
    ensures settled ==> SettledSoFar(policy, attempts, batch, before, i + 1)
    ensures !settled ==> Progress(policy, attempts, batch, before, i)
    ensures StillMine(attempts, i + 1, before, mine')
  {
    if Reached(attempts, batch, before, i) {
      SettledIff(policy, Turns(attempts, i), batch[i], mine, settled, n, firstPublish);
    }
  }

  /** A batch whose records all keep their partitions and are all settled in time is not rewound. */
  lemma NothingIsRewound(policy: RetryPolicy, attempts: seq<seq<Attempt>>, batch: seq<Record>, before: set<Partition>,
                         done: nat)
    requires Progress(policy, attempts, batch, before, done)
    requires forall i :: 0 <= i < |batch| ==>
      Reached(attempts, batch, before, i) && SettlesInTime(policy, Turns(attempts, i), batch[i].partition)
    ensures done == |batch|
  {}

  /** The longest handler run of the attempts. */
  function Slowest(attempts: seq<Attempt>): (slowest: nat)
    ensures forall k :: 0 <= k < |attempts| ==> attempts[k].took <= slowest
  {
    if attempts == [] then 0
    else
      var rest, last := Slowest(attempts[..|attempts| - 1]), attempts[|attempts| - 1].took;
      if rest < last then last else rest
  }

  /** One more Seek after those of order: it is not reached when an earlier one has failed. */
  lemma {:induction false} SeekOneMore(k: Consumer, earliest: map<Partition, nat>, order: seq<Partition>,
                                       failing: set<Partition>, p: Partition)
    requires p in earliest && forall j :: 0 <= j < |order| ==> order[j] in earliest
    ensures var k' := SeekAll(k, earliest, order, failing);
      SeekAll(k, earliest, order + [p], failing) ==
        if (exists q :: q in order && !Seekable(k, failing, q)) || !Seekable(k, failing, p) then k'
        else k'.(position := k'.position[p := earliest[p]])
    decreases |order|
  {
    if order == [] {
      assert [p][1..] == [];
    } else {
      assert (order + [p])[1..] == order[1..] + [p];
      assert order == [order[0]] + order[1..];
      if Seekable(k, failing, order[0]) {
        var next := k.(position := k.position[order[0] := earliest[order[0]]]);
        assert forall q :: Seekable(next, failing, q) <==> Seekable(k, failing, q);
        SeekOneMore(next, earliest, order[1..], failing, p);
      }
    }
  }

  // ---- safety of the loops -----------------------------------------------------------------

  /** The actions of a batch, with the rewind that may end it. */
  function WholeTrace(c: ConsumerId, trace: seq<Action>, rewind: Option<seq<Partition>>, failing: set<Partition>):
      seq<Action> {
    if rewind.Some? then trace + [Rewind(c, rewind.value, failing)] else trace
  }

  lemma {:induction false} KeepingIsPossible(g: Group, trace: seq<Action>)
    requires AllKeep(trace)
    ensures PossibleRun(g, trace)
  {
    if trace != [] { KeepingIsPossible(g, trace[..|trace| - 1]); }
  }

  /** Whatever happens while a batch is processed, the offsets stay safe throughout exactly when its trace is proper:
      when no message of a wait is passed over and the rewind that may end it leaves nothing polled and unsettled
      behind. */
  lemma ProcessingKeepsOffsetsSafe(g: Group, c: ConsumerId, trace: seq<Action>, rewind: Option<seq<Partition>>,
                                   failing: set<Partition>)
    requires Safe(g) && AllKeep(trace)
    requires rewind.Some? ==> Visits(Exec(g, trace).Consumer(c).batch, rewind.value)
    ensures SafeThroughout(g, WholeTrace(c, trace, rewind, failing)) <==>
      ProperRun(g, WholeTrace(c, trace, rewind, failing))
  {
    KeepingIsPossible(g, trace);
    var whole := WholeTrace(c, trace, rewind, failing);
    if rewind.Some? {
      assert whole[..|whole| - 1] == trace;
    }
    RunsAreSafeIff(g, whole);
  }

  lemma {:induction false} PutBackIsProper(g: Group, trace: seq<Action>)
    requires forall k :: 0 <= k < |trace| ==> Keeping(trace[k]) && (trace[k].PollDuringWait? ==> trace[k].put)
    ensures ProperRun(g, trace)
  {
    if trace != [] {
      PutBackIsProper(g, trace[..|trace| - 1]);
      var last := trace[|trace| - 1];
      assert Keeping(last) && (last.PollDuringWait? ==> last.put);
    }
  }

  /** Where every message of a wait is put back, that is decided by the rewind alone. */
  lemma RewindDecides(g: Group, c: ConsumerId, trace: seq<Action>, order: seq<Partition>, failing: set<Partition>)
    requires Safe(g)
    requires forall k :: 0 <= k < |trace| ==> Keeping(trace[k]) && (trace[k].PollDuringWait? ==> trace[k].put)
    requires Visits(Exec(g, trace).Consumer(c).batch, order)
    ensures Safe(Exec(g, trace + [Rewind(c, order, failing)])) <==>
      LeavesSettled(Exec(g, trace), Exec(g, trace).Consumer(c), order, failing)
  {
    PutBackIsProper(g, trace);
    OffsetsAreSafe(g, trace);
    ExecSnoc(g, trace, Rewind(c, order, failing));
    StepSafeIff(Exec(g, trace), Rewind(c, order, failing));
  }

  // ---- price batches -----------------------------------------------------------------------

  /** One run of a price handler: whether it succeeds, and whether the worker shuts down right after it or while it
      sleeps. */
  datatype PriceAttempt = PriceAttempt(succeeds: bool, cancelled: bool, sleeps: bool)

  /** Storing the offsets of a batch, one after the other. */
  function StoreAll(k: Consumer, batch: seq<Record>): Consumer {
    if batch == [] then k else StoreOffset(StoreAll(k, batch[..|batch| - 1]), batch[|batch| - 1])
  }

  /** Every partition of the batch that is still assigned ends with the offset after its last record stored. */
  lemma {:induction false} StoredAfterBatch(k: Consumer, batch: seq<Record>, i: nat)
    requires i < |batch| && batch[i].partition in k.position
    requires forall j :: i < j < |batch| ==> batch[j].partition != batch[i].partition
    ensures Lookup(StoreAll(k, batch).stored, batch[i].partition) == Some(batch[i].offset + 1)
  {
    StoringKeepsPositions(k, batch[..|batch| - 1]);
    if i < |batch| - 1 { StoredAfterBatch(k, batch[..|batch| - 1], i); }
  }

  lemma {:induction false} StoringKeepsPositions(k: Consumer, batch: seq<Record>)
    ensures StoreAll(k, batch).position == k.position
  {
    if batch != [] { StoringKeepsPositions(k, batch[..|batch| - 1]); }
  }

  /** The runs of a price handler before the n-th fail, leave the worker running and sleep their time out. */
  predicate RunsAgain(attempts: seq<PriceAttempt>, n: nat)
    requires n <= |attempts|
  {
    forall i :: 0 <= i < n ==> !attempts[i].succeeds && !attempts[i].cancelled && attempts[i].sleeps
  }

  /** The handler has run calls times: the last time it succeeded or was the last one allowed, which finishes the
      batch; or the worker shut down then or in the sleep after it; or there is no other run. */
  predicate BatchEnds(policy: RetryPolicy, attempts: seq<PriceAttempt>, calls: nat, finished: bool) {
    && calls <= |attempts| && calls <= policy.priceRetries + 1
    && if calls == 0 then attempts == [] && !finished
       else
         var last := attempts[calls - 1];
         && RunsAgain(attempts, calls - 1)
         && (finished <==> last.succeeds || (!last.cancelled && calls == policy.priceRetries + 1))
         && (!finished ==> last.cancelled || !last.sleeps || calls == |attempts|)
  }

  /** Runs the handler at most priceRetries + 1 times and then gives the batch up: unless the worker shuts down, its
      offsets are stored and committed whether or not the handler succeeded. */
  method ProcessPriceBatch(policy: RetryPolicy, k: Consumer, committed: map<Partition, nat>, batch: seq<Record>,
                           attempts: seq<PriceAttempt>, commits: bool)
      returns (k': Consumer, committed': map<Partition, nat>, calls: nat, finished: bool)
    ensures BatchEnds(policy, attempts, calls, finished)
    ensures finished ==> k' == StoreAll(k, batch) && committed' == if commits then committed + k'.stored else committed
    ensures !finished ==> k' == k && committed' == committed
  {
    k', committed', calls, finished := k, committed, 0, false;
    while calls < |attempts| && !finished
      invariant calls <= policy.priceRetries + 1 && calls <= |attempts| && k' == k && committed' == committed
      invariant !finished ==> calls <= policy.priceRetries && RunsAgain(attempts, calls)
      invariant finished ==> BatchEnds(policy, attempts, calls, finished)
      decreases |attempts| - calls, !finished
    {
      var a := attempts[calls];
      calls := calls + 1;
      if a.succeeds {
        finished := true;
      } else if a.cancelled {
        return;
      } else if calls - 1 >= policy.priceRetries {
        finished := true;
      } else if !a.sleeps {
        return;
      }
    }
    if finished {
      for i := 0 to |batch|
        invariant k' == StoreAll(k, batch[..i])
      {
        assert batch[..i + 1][..i] == batch[..i];
        k' := StoreOffset(k', batch[i]);
      }
      assert batch[..|batch|] == batch;
      if commits {
        committed' := committed + k'.stored;
      }
    }
  }

  /** With the default policy a price batch whose handler keeps failing is given up after its third run. */
  lemma ThreePriceRuns(attempts: seq<PriceAttempt>, calls: nat, finished: bool)
    requires BatchEnds(DEFAULT_RETRY_POLICY, attempts, calls, finished)
    requires |attempts| >= 3 && RunsAgain(attempts, 3)
    ensures calls == 3 && finished
  {}
}
