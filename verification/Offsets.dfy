/** The consumer group of a record topic: positions, stored and committed offsets, the batch in hand, and what became
    of each record. */
module Offsets {
  import opened Domain

  type Partition = int
  type ConsumerId = int

  datatype Record = Record(partition: Partition, offset: nat)

  /** A consumer is assigned the partitions it has a position for; batch is the part of its batch not processed yet. */
  datatype Consumer = Consumer(position: map<Partition, nat>, stored: map<Partition, nat>, batch: seq<Record>)

  const NEW_CONSUMER := Consumer(map[], map[], [])

  /** start is where the group's committed offsets stood in the beginning. */
  datatype Group = Group(
    start: map<Partition, nat>, committed: map<Partition, nat>, consumers: map<ConsumerId, Consumer>,
    handled: set<Record>, dead: set<Record>)
  {
    /** Its handler returned nil, or its publication to the dead letter topic succeeded. */
    predicate Settled(r: Record) {
      r in handled || r in dead
    }

    function Consumer(c: ConsumerId): Consumer {
      GetOr(consumers, c, NEW_CONSUMER)
    }

    function With(c: ConsumerId, k: Consumer): Group {
      this.(consumers := consumers[c := k])
    }
  }

  /** put tells whether the Seek that puts a polled message back works; failing are the partitions whose Seek fails in a
      rewind although they are assigned. */
  datatype Action =
    | Assign(c: ConsumerId, p: Partition)
    | Revoke(c: ConsumerId, p: Partition)
    | Poll(c: ConsumerId, p: Partition)
    | PollDuringWait(c: ConsumerId, p: Partition, put: bool)
    | FetchFails(c: ConsumerId)
    | Handle(c: ConsumerId)
    | DeadLetter(c: ConsumerId)
    | Commit(c: ConsumerId)
    | Rewind(c: ConsumerId, order: seq<Partition>, failing: set<Partition>)
    | Crash(c: ConsumerId)

  /** StoreMessage works only while the partition is assigned; its error is logged and ignored. */
  function StoreOffset(k: Consumer, r: Record): Consumer {
    if r.partition in k.position then k.(stored := k.stored[r.partition := r.offset + 1]) else k
  }

  /** A Seek of a partition that is not assigned fails; any other may fail. */
  function Seek(k: Consumer, p: Partition, o: nat, works: bool): Option<Consumer> {
    if works && p in k.position then Some(k.(position := k.position[p := o])) else None
  }

  /** The earliest offset of each partition among the records. */
  function Earliest(batch: seq<Record>): map<Partition, nat> {
    if batch == [] then map[]
    else
      var rest, r := Earliest(batch[..|batch| - 1]), batch[|batch| - 1];
      if r.partition !in rest || r.offset < rest[r.partition] then rest[r.partition := r.offset] else rest
  }

  /** Seeks partition by partition and stops at the first failure. */
  function SeekAll(k: Consumer, earliest: map<Partition, nat>, order: seq<Partition>, failing: set<Partition>): Consumer
    decreases |order|
  {
    if order == [] || order[0] !in earliest then k
    else
      match Seek(k, order[0], earliest[order[0]], order[0] !in failing)
      case None => k
      case Some(next) => SeekAll(next, earliest, order[1..], failing)
  }

  function Apply(g: Group, a: Action): Group {
    var k := g.Consumer(a.c);
    match a
    case Assign(c, p) =>
      if p in g.committed then g.With(c, k.(position := k.position[p := g.committed[p]], stored := k.stored - {p}))
        else g
    case Revoke(c, p) => g.With(c, k.(position := k.position - {p}, stored := k.stored - {p}))
    case Poll(c, p) =>
      if p !in k.position then g
      else g.With(c, k.(position := k.position[p := k.position[p] + 1], batch := k.batch + [Record(p, k.position[p])]))
    case PollDuringWait(c, p, put) =>
      if p !in k.position then g
      else
        var polled := k.(position := k.position[p := k.position[p] + 1]);
        var back := Seek(polled, p, k.position[p], put);
        g.With(c, if back.Some? then back.value else polled)
    case FetchFails(c) => g.With(c, k.(batch := []))
    case Handle(c) =>
      if k.batch == [] then g
      else g.With(c, StoreOffset(k, k.batch[0]).(batch := k.batch[1..])).(handled := g.handled + {k.batch[0]})
    case DeadLetter(c) =>
      if k.batch == [] then g
      else g.With(c, StoreOffset(k, k.batch[0]).(batch := k.batch[1..])).(dead := g.dead + {k.batch[0]})
    case Commit(c) => g.(committed := g.committed + k.stored)
    case Rewind(c, order, failing) => g.With(c, SeekAll(k, Earliest(k.batch), order, failing).(batch := []))
    case Crash(c) => g.(consumers := g.consumers - {c})
  }

  function Exec(g: Group, actions: seq<Action>): Group {
    if actions == [] then g
    else Apply(Exec(g, actions[..|actions| - 1]), actions[|actions| - 1])
  }

  // ---- safety ----------------------------------------------------------------------------

  /** Every record of p from the start up to o is settled. */
  ghost predicate SettledBelow(g: Group, p: Partition, o: nat) {
    p in g.start && g.start[p] <= o && forall x: nat :: g.start[p] <= x < o ==> g.Settled(Record(p, x))
  }

  /** Every record of p from the start up to o is settled or among the given ones. */
  ghost predicate CoveredBelow(g: Group, p: Partition, o: nat, pending: seq<Record>) {
    p in g.start && g.start[p] <= o
      && forall x: nat :: g.start[p] <= x < o ==> g.Settled(Record(p, x)) || Record(p, x) in pending
  }

  ghost predicate PositionsSafe(g: Group, k: Consumer) {
    forall p :: p in k.position ==> CoveredBelow(g, p, k.position[p], k.batch)
  }

  ghost predicate BatchSafe(g: Group, batch: seq<Record>) {
    forall i :: 0 <= i < |batch| ==> CoveredBelow(g, batch[i].partition, batch[i].offset, batch[..i])
  }

  ghost predicate StoredSafe(g: Group, k: Consumer) {
    forall p :: p in k.stored ==> SettledBelow(g, p, k.stored[p])
  }

  ghost predicate ConsumerSafe(g: Group, k: Consumer) {
    PositionsSafe(g, k) && BatchSafe(g, k.batch) && StoredSafe(g, k)
  }

  ghost predicate Safe(g: Group) {
    && (forall p :: p in g.committed ==> SettledBelow(g, p, g.committed[p]))
    && (forall c :: c in g.consumers ==> ConsumerSafe(g, g.consumers[c]))
  }

  /** The order visits every partition of the batch, and no other. */
  ghost predicate Visits(batch: seq<Record>, order: seq<Partition>) {
    && (forall i :: 0 <= i < |batch| ==> batch[i].partition in order)
    && (forall j :: 0 <= j < |order| ==> order[j] in Earliest(batch))
    && Distinct(order)
  }

  predicate Seekable(k: Consumer, failing: set<Partition>, p: Partition) {
    p in k.position && p !in failing
  }

  /** The Seek of p works, and so do those before it. */
  ghost predicate Reached(k: Consumer, order: seq<Partition>, failing: set<Partition>, p: Partition) {
    exists j :: 0 <= j < |order| && order[j] == p && forall i :: 0 <= i <= j ==> Seekable(k, failing, order[i])
  }

  /** Already polled, and not to be polled again. */
  predicate Passed(k: Consumer, r: Record) {
    r.partition in k.position && r.offset < k.position[r.partition]
  }

  /** What a fetch that fails after polling lets go of is settled. */
  ghost predicate DropsSettled(g: Group, k: Consumer) {
    forall i :: 0 <= i < |k.batch| && Passed(k, k.batch[i]) ==> g.Settled(k.batch[i])
  }

  /** What a rewind does not reach is settled. */
  ghost predicate LeavesSettled(g: Group, k: Consumer, order: seq<Partition>, failing: set<Partition>) {
    forall i :: 0 <= i < |k.batch| && Passed(k, k.batch[i]) && !Reached(k, order, failing, k.batch[i].partition) ==>
      g.Settled(k.batch[i])
  }

  /** A message of a partition assigned during the wait that is not put back is settled or in hand. */
  ghost predicate SkipsSettled(g: Group, k: Consumer, p: Partition) {
    p in k.position ==> g.Settled(Record(p, k.position[p])) || Record(p, k.position[p]) in k.batch
  }

  /** A rewind seeks the partitions of the batch, in the order in which a map happens to be visited. */
  ghost predicate Possible(g: Group, a: Action) {
    a.Rewind? ==> Visits(g.Consumer(a.c).batch, a.order)
  }

  ghost predicate PossibleRun(g: Group, actions: seq<Action>) {
    actions == [] ||
    (PossibleRun(g, actions[..|actions| - 1]) && Possible(Exec(g, actions[..|actions| - 1]), actions[|actions| - 1]))
  }

  /** What safety needs beyond the code. */
  ghost predicate Proper(g: Group, a: Action) {
    && Possible(g, a)
    && (a.Rewind? ==> LeavesSettled(g, g.Consumer(a.c), a.order, a.failing))
    && (a.PollDuringWait? && !a.put ==> SkipsSettled(g, g.Consumer(a.c), a.p))
    && (a.FetchFails? ==> DropsSettled(g, g.Consumer(a.c)))
  }

  ghost predicate ProperRun(g: Group, actions: seq<Action>) {
    actions == [] ||
    (ProperRun(g, actions[..|actions| - 1]) && Proper(Exec(g, actions[..|actions| - 1]), actions[|actions| - 1]))
  }

  ghost predicate Initial(g: Group) {
    g.committed == g.start && g.consumers == map[]
  }

  /** Settling more records keeps everything safe. */
  lemma MoreSettled(g: Group, g': Group, k: Consumer)
    requires g'.start == g.start && g.handled <= g'.handled && g.dead <= g'.dead && ConsumerSafe(g, k)
    ensures ConsumerSafe(g', k)
  {
    forall p | p in k.position ensures CoveredBelow(g', p, k.position[p], k.batch) {
      assert CoveredBelow(g, p, k.position[p], k.batch);
    }
    forall i | 0 <= i < |k.batch| ensures CoveredBelow(g', k.batch[i].partition, k.batch[i].offset, k.batch[..i]) {
      assert CoveredBelow(g, k.batch[i].partition, k.batch[i].offset, k.batch[..i]);
    }
    forall p | p in k.stored ensures SettledBelow(g', p, k.stored[p]) {
      assert SettledBelow(g, p, k.stored[p]);
    }
  }

  /** Replacing one consumer by a safe one, after settling more records, keeps the group safe. */
  lemma ReplaceConsumer(g: Group, g': Group, c: ConsumerId, k: Consumer)
    requires Safe(g) && ConsumerSafe(g', k)
    requires g'.start == g.start && g.handled <= g'.handled && g.dead <= g'.dead
    requires g'.committed == g.committed && g'.consumers == g.consumers[c := k]
    ensures Safe(g')
  {
    forall d | d in g'.consumers ensures ConsumerSafe(g', g'.consumers[d]) {
      if d != c { MoreSettled(g, g', g.consumers[d]); }
    }
    forall p | p in g'.committed ensures SettledBelow(g', p, g'.committed[p]) {
      assert SettledBelow(g, p, g.committed[p]);
    }
  }

  function Polled(k: Consumer, p: Partition): Consumer
    requires p in k.position
  {
    k.(position := k.position[p := k.position[p] + 1], batch := k.batch + [Record(p, k.position[p])])
  }

  lemma PollSafe(g: Group, k: Consumer, p: Partition)
    requires ConsumerSafe(g, k) && p in k.position
    ensures ConsumerSafe(g, Polled(k, p))
  {
    var r := Record(p, k.position[p]);
    var batch := k.batch + [r];
    forall i | 0 <= i < |batch| ensures CoveredBelow(g, batch[i].partition, batch[i].offset, batch[..i]) {
      assert batch[..i] == k.batch[..i];
      if i == |k.batch| { assert k.batch[..i] == k.batch; }
    }
    forall q | q in k.position ensures CoveredBelow(g, q, if q == p then k.position[p] + 1 else k.position[q], batch) {
      assert CoveredBelow(g, q, k.position[q], k.batch);
      assert forall x :: x in k.batch ==> x in batch;
      assert r in batch;
    }
  }

  /** Settling the head of the batch makes everything up to it safe to store. */
  lemma SettleSafe(g: Group, g': Group, k: Consumer)
    requires ConsumerSafe(g, k) && k.batch != []
    requires g'.start == g.start && g.handled <= g'.handled && g.dead <= g'.dead && g'.Settled(k.batch[0])
    ensures ConsumerSafe(g', StoreOffset(k, k.batch[0]).(batch := k.batch[1..]))
  {
    var r, rest := k.batch[0], k.batch[1..];
    assert k.batch == [r] + rest;
    forall p | p in k.position ensures CoveredBelow(g', p, k.position[p], rest) {
      assert CoveredBelow(g, p, k.position[p], k.batch);
    }
    forall i | 0 <= i < |rest| ensures CoveredBelow(g', rest[i].partition, rest[i].offset, rest[..i]) {
      assert CoveredBelow(g, k.batch[i + 1].partition, k.batch[i + 1].offset, k.batch[..i + 1]);
      assert k.batch[..i + 1] == [r] + rest[..i];
    }
    assert SettledBelow(g', r.partition, r.offset + 1) by {
      assert CoveredBelow(g, r.partition, r.offset, k.batch[..0]);
    }
    forall p | p in k.stored ensures SettledBelow(g', p, k.stored[p]) {
      assert SettledBelow(g, p, k.stored[p]);
    }
  }

  // ---- rewinding -------------------------------------------------------------------------

  lemma {:induction false} EarliestIsLeast(batch: seq<Record>)
    ensures forall i :: 0 <= i < |batch| ==>
      batch[i].partition in Earliest(batch) && Earliest(batch)[batch[i].partition] <= batch[i].offset
    ensures forall p :: p in Earliest(batch) ==> Record(p, Earliest(batch)[p]) in batch
  {
    if batch != [] {
      EarliestIsLeast(batch[..|batch| - 1]);
      assert batch == batch[..|batch| - 1] + [batch[|batch| - 1]];
    }
  }

  lemma ReachedFromNext(k: Consumer, next: Consumer, order: seq<Partition>, failing: set<Partition>, p: Partition)
    requires order != [] && next.position.Keys == k.position.Keys
    ensures Reached(k, order, failing, p) <==>
      Seekable(k, failing, order[0]) && (p == order[0] || Reached(next, order[1..], failing, p))
  {
    if Seekable(k, failing, order[0]) && p != order[0] && Reached(next, order[1..], failing, p) {
      var rest := order[1..];
      var j :| 0 <= j < |rest| && rest[j] == p && forall i :: 0 <= i <= j ==> Seekable(next, failing, rest[i]);
      assert order[j + 1] == p;
      forall i | 0 <= i <= j + 1 ensures Seekable(k, failing, order[i]) {
        if i > 0 { assert order[i] == rest[i - 1]; }
      }
    }
    if Reached(k, order, failing, p) && p != order[0] {
      var j :| 0 <= j < |order| && order[j] == p && forall i :: 0 <= i <= j ==> Seekable(k, failing, order[i]);
      assert order[1..][j - 1] == p;
      forall i | 0 <= i <= j - 1
        ensures Seekable(next, failing, order[1..][i]) { assert order[1..][i] == order[i + 1]; }
    }
  }

  /** Positions after the seeks: the earliest offset where a seek reached, the old position elsewhere. */
  lemma {:induction false} SeekAllPositions(k: Consumer, earliest: map<Partition, nat>, order: seq<Partition>,
                                            failing: set<Partition>)
    requires Distinct(order) && forall j :: 0 <= j < |order| ==> order[j] in earliest
    ensures var k' := SeekAll(k, earliest, order, failing);
      && k'.stored == k.stored && k'.batch == k.batch && k'.position.Keys == k.position.Keys
      && (forall p :: p in k.position ==>
            if Reached(k, order, failing, p) then p in earliest && k'.position[p] == earliest[p]
            else k'.position[p] == k.position[p])
    decreases |order|
  {
    if order != [] {
      var seeks := Seekable(k, failing, order[0]);
      var next := if seeks then k.(position := k.position[order[0] := earliest[order[0]]]) else k;
      forall p
        ensures Reached(k, order, failing, p) <==> seeks && (p == order[0] || Reached(next, order[1..], failing, p))
      {
        ReachedFromNext(k, next, order, failing, p);
      }
      if seeks {
        SeekAllPositions(next, earliest, order[1..], failing);
      }
    }
  }

  /** Below the earliest record of a partition in the batch, everything is settled. */
  lemma SettledBelowEarliest(g: Group, batch: seq<Record>, p: Partition)
    requires BatchSafe(g, batch) && p in Earliest(batch)
    ensures SettledBelow(g, p, Earliest(batch)[p])
  {
    EarliestIsLeast(batch);
    var i :| 0 <= i < |batch| && batch[i] == Record(p, Earliest(batch)[p]);
    assert CoveredBelow(g, p, batch[i].offset, batch[..i]);
    assert forall x: nat :: x < batch[i].offset ==> Record(p, x) !in batch;
  }

  /** Letting go of a batch is safe exactly when every record of it below an assigned position is settled. */
  lemma DroppingIsSafeIff(g: Group, k: Consumer)
    requires ConsumerSafe(g, k)
    ensures ConsumerSafe(g, k.(batch := [])) <==> DropsSettled(g, k)
  {
    var k' := k.(batch := []);
    if ConsumerSafe(g, k') {
      forall i | 0 <= i < |k.batch| && Passed(k, k.batch[i]) ensures g.Settled(k.batch[i]) {
        assert CoveredBelow(g, k.batch[i].partition, k.batch[i].offset, k.batch[..i]);
        assert CoveredBelow(g, k.batch[i].partition, k'.position[k.batch[i].partition], []);
      }
    }
    if DropsSettled(g, k) {
      forall p | p in k.position ensures CoveredBelow(g, p, k.position[p], []) {
        assert CoveredBelow(g, p, k.position[p], k.batch);
      }
    }
  }

  /** Seeking back is safe as long as the batch is still in hand. */
  lemma SeekingIsSafe(g: Group, k: Consumer, order: seq<Partition>, failing: set<Partition>)
    requires ConsumerSafe(g, k) && Visits(k.batch, order)
    ensures ConsumerSafe(g, SeekAll(k, Earliest(k.batch), order, failing))
  {
    var k' := SeekAll(k, Earliest(k.batch), order, failing);
    SeekAllPositions(k, Earliest(k.batch), order, failing);
    forall p | p in k'.position ensures CoveredBelow(g, p, k'.position[p], k'.batch) {
      if Reached(k, order, failing, p) {
        SettledBelowEarliest(g, k.batch, p);
      } else {
        assert CoveredBelow(g, p, k.position[p], k.batch);
      }
    }
  }

  /** A rewind, in whatever order its seeks run and whichever fail, is safe exactly when every polled record of a
      partition that they do not reach is settled. */
  lemma RewindIsSafeIff(g: Group, k: Consumer, order: seq<Partition>, failing: set<Partition>)
    requires ConsumerSafe(g, k) && Visits(k.batch, order)
    ensures ConsumerSafe(g, SeekAll(k, Earliest(k.batch), order, failing).(batch := [])) <==>
      LeavesSettled(g, k, order, failing)
  {
    var k' := SeekAll(k, Earliest(k.batch), order, failing);
    SeekingIsSafe(g, k, order, failing);
    DroppingIsSafeIff(g, k');
    SeekAllPositions(k, Earliest(k.batch), order, failing);
    EarliestIsLeast(k.batch);
    forall i | 0 <= i < |k.batch|
      ensures Passed(k', k.batch[i]) <==> Passed(k, k.batch[i]) && !Reached(k, order, failing, k.batch[i].partition)
    {}
  }

  /** So a rewind whose seeks all work is safe. */
  lemma RewindSafe(g: Group, k: Consumer, order: seq<Partition>, failing: set<Partition>)
    requires ConsumerSafe(g, k) && Visits(k.batch, order)
    requires forall i :: 0 <= i < |order| ==> Seekable(k, failing, order[i])
    ensures ConsumerSafe(g, SeekAll(k, Earliest(k.batch), order, failing).(batch := []))
  {
    forall i | 0 <= i < |k.batch| ensures Reached(k, order, failing, k.batch[i].partition) {
      assert k.batch[i].partition in order;
      var j :| 0 <= j < |order| && order[j] == k.batch[i].partition;
    }
    RewindIsSafeIff(g, k, order, failing);
  }

  /** A message that is not put back is passed over: safe exactly when it is settled or in hand. */
  lemma SkippingIsSafeIff(g: Group, k: Consumer, p: Partition)
    requires ConsumerSafe(g, k) && p in k.position
    ensures ConsumerSafe(g, k.(position := k.position[p := k.position[p] + 1])) <==> SkipsSettled(g, k, p)
  {
    var k' := k.(position := k.position[p := k.position[p] + 1]);
    assert CoveredBelow(g, p, k.position[p], k.batch);
    if ConsumerSafe(g, k') {
      assert CoveredBelow(g, p, k'.position[p], k.batch);
    }
    if SkipsSettled(g, k, p) {
      forall q | q in k'.position ensures CoveredBelow(g, q, k'.position[q], k.batch) {
        assert CoveredBelow(g, q, k.position[q], k.batch);
      }
    }
  }

  // ---- every action ------------------------------------------------------------------------

  /** An action of one consumer that settles nothing. */
  lemma ConsumerStepSafe(g: Group, c: ConsumerId, k: Consumer)
    requires Safe(g) && ConsumerSafe(g, k)
    ensures Safe(g.With(c, k))
  {
    MoreSettled(g, g.With(c, k), k);
    ReplaceConsumer(g, g.With(c, k), c, k);
  }

  lemma SafeConsumer(g: Group, c: ConsumerId)
    requires Safe(g)
    ensures ConsumerSafe(g, g.Consumer(c))
  {}

  lemma AssignSafe(g: Group, c: ConsumerId, p: Partition)
    requires Safe(g)
    ensures Safe(Apply(g, Assign(c, p)))
  {
    SafeConsumer(g, c);
    if p in g.committed {
      var k := g.Consumer(c);
      assert SettledBelow(g, p, g.committed[p]);
      ConsumerStepSafe(g, c, k.(position := k.position[p := g.committed[p]], stored := k.stored - {p}));
    }
  }

  lemma RevokeSafe(g: Group, c: ConsumerId, p: Partition)
    requires Safe(g)
    ensures Safe(Apply(g, Revoke(c, p)))
  {
    SafeConsumer(g, c);
    var k := g.Consumer(c);
    ConsumerStepSafe(g, c, k.(position := k.position - {p}, stored := k.stored - {p}));
  }

  lemma PollingSafe(g: Group, c: ConsumerId, p: Partition)
    requires Safe(g)
    ensures Safe(Apply(g, Poll(c, p)))
  {
    SafeConsumer(g, c);
    var k := g.Consumer(c);
    if p in k.position {
      PollSafe(g, k, p);
      ConsumerStepSafe(g, c, Polled(k, p));
    }
  }

  lemma PollDuringWaitSafeIff(g: Group, c: ConsumerId, p: Partition, put: bool)
    requires Safe(g)
    ensures Safe(Apply(g, PollDuringWait(c, p, put))) <==> put || SkipsSettled(g, g.Consumer(c), p)
  {
    SafeConsumer(g, c);
    var k, g' := g.Consumer(c), Apply(g, PollDuringWait(c, p, put));
    if p in k.position {
      if put {
        assert k.(position := k.position[p := k.position[p] + 1][p := k.position[p]]) == k;
        ConsumerStepSafe(g, c, k);
      } else {
        var k' := k.(position := k.position[p := k.position[p] + 1]);
        SkippingIsSafeIff(g, k, p);
        if SkipsSettled(g, k, p) { ConsumerStepSafe(g, c, k'); }
        if Safe(g') {
          SafeConsumer(g', c);
          MoreSettled(g', g, k');
        }
      }
    }
  }

  lemma FetchFailsSafeIff(g: Group, c: ConsumerId)
    requires Safe(g)
    ensures Safe(Apply(g, FetchFails(c))) <==> DropsSettled(g, g.Consumer(c))
  {
    SafeConsumer(g, c);
    var k, g' := g.Consumer(c), Apply(g, FetchFails(c));
    DroppingIsSafeIff(g, k);
    if DropsSettled(g, k) { ConsumerStepSafe(g, c, k.(batch := [])); }
    if Safe(g') {
      SafeConsumer(g', c);
      MoreSettled(g', g, k.(batch := []));
    }
  }

  lemma SettlingSafe(g: Group, a: Action)
    requires Safe(g) && (a.Handle? || a.DeadLetter?)
    ensures Safe(Apply(g, a))
  {
    SafeConsumer(g, a.c);
    var k := g.Consumer(a.c);
    if k.batch != [] {
      SettleSafe(g, Apply(g, a), k);
      ReplaceConsumer(g, Apply(g, a), a.c, StoreOffset(k, k.batch[0]).(batch := k.batch[1..]));
    }
  }

  lemma CommitSafe(g: Group, c: ConsumerId)
    requires Safe(g)
    ensures Safe(Apply(g, Commit(c)))
  {
    SafeConsumer(g, c);
    var g' := Apply(g, Commit(c));
    forall d | d in g'.consumers ensures ConsumerSafe(g', g'.consumers[d]) { MoreSettled(g, g', g.consumers[d]); }
    forall p | p in g'.committed ensures SettledBelow(g', p, g'.committed[p]) {
      if p in g.Consumer(c).stored {
        assert SettledBelow(g, p, g.Consumer(c).stored[p]);
      } else {
        assert SettledBelow(g, p, g.committed[p]);
      }
    }
  }

  lemma RewindingSafeIff(g: Group, c: ConsumerId, order: seq<Partition>, failing: set<Partition>)
    requires Safe(g) && Visits(g.Consumer(c).batch, order)
    ensures Safe(Apply(g, Rewind(c, order, failing))) <==> LeavesSettled(g, g.Consumer(c), order, failing)
  {
    SafeConsumer(g, c);
    var k, g' := g.Consumer(c), Apply(g, Rewind(c, order, failing));
    var k' := SeekAll(k, Earliest(k.batch), order, failing).(batch := []);
    RewindIsSafeIff(g, k, order, failing);
    if LeavesSettled(g, k, order, failing) { ConsumerStepSafe(g, c, k'); }
    if Safe(g') {
      SafeConsumer(g', c);
      MoreSettled(g', g, k');
    }
  }

  lemma CrashSafe(g: Group, c: ConsumerId)
    requires Safe(g)
    ensures Safe(Apply(g, Crash(c)))
  {
    var g' := Apply(g, Crash(c));
    forall d | d in g'.consumers ensures ConsumerSafe(g', g'.consumers[d]) { MoreSettled(g, g', g.consumers[d]); }
    forall p | p in g'.committed
      ensures SettledBelow(g', p, g'.committed[p]) { assert SettledBelow(g, p, g.committed[p]); }
  }

  /** An action keeps the offsets safe exactly when it is proper. */
  lemma StepSafeIff(g: Group, a: Action)
    requires Safe(g) && Possible(g, a)
    ensures Safe(Apply(g, a)) <==> Proper(g, a)
  {
    match a
    case Assign(c, p) => AssignSafe(g, c, p);
    case Revoke(c, p) => RevokeSafe(g, c, p);
    case Poll(c, p) => PollingSafe(g, c, p);
    case PollDuringWait(c, p, put) => PollDuringWaitSafeIff(g, c, p, put);
    case FetchFails(c) => FetchFailsSafeIff(g, c);
    case Handle(c) => SettlingSafe(g, a);
    case DeadLetter(c) => SettlingSafe(g, a);
    case Commit(c) => CommitSafe(g, c);
    case Rewind(c, order, failing) => RewindingSafeIff(g, c, order, failing);
    case Crash(c) => CrashSafe(g, c);
  }

  ghost predicate SafeThroughout(g: Group, actions: seq<Action>) {
    Safe(Exec(g, actions)) && (actions != [] ==> SafeThroughout(g, actions[..|actions| - 1]))
  }

  /** The runs of the code that keep the offsets safe throughout are exactly the proper ones. */
  lemma {:induction false} RunsAreSafeIff(g: Group, actions: seq<Action>)
    requires Safe(g) && PossibleRun(g, actions)
    ensures SafeThroughout(g, actions) <==> ProperRun(g, actions)
  {
    if actions != [] {
      RunsAreSafeIff(g, actions[..|actions| - 1]);
      if SafeThroughout(g, actions[..|actions| - 1]) {
        StepSafeIff(Exec(g, actions[..|actions| - 1]), actions[|actions| - 1]);
      }
    }
  }

  lemma {:induction false} ProperIsPossible(g: Group, actions: seq<Action>)
    requires ProperRun(g, actions)
    ensures PossibleRun(g, actions)
  {
    if actions != [] { ProperIsPossible(g, actions[..|actions| - 1]); }
  }

  /** In every proper run, each offset below a stored or committed offset belongs to a settled record. */
  lemma OffsetsAreSafe(g: Group, actions: seq<Action>)
    requires (Initial(g) || Safe(g)) && ProperRun(g, actions)
    ensures Safe(Exec(g, actions))
  {
    ProperIsPossible(g, actions);
    RunsAreSafeIff(g, actions);
  }

  // ---- what an improper action can lead to -----------------------------------------------------

  /** A committed offset has passed a record that is not settled. */
  ghost predicate CommittedOver(g: Group) {
    exists r: Record :: r.partition in g.committed && r.partition in g.start
      && g.start[r.partition] <= r.offset < g.committed[r.partition] && !g.Settled(r)
  }

  lemma SafeIsNotCommittedOver(g: Group)
    requires Safe(g)
    ensures !CommittedOver(g)
  {
    forall r: Record | r.partition in g.committed && r.partition in g.start
        && g.start[r.partition] <= r.offset < g.committed[r.partition]
      ensures g.Settled(r)
    {
      assert SettledBelow(g, r.partition, g.committed[r.partition]);
      assert r == Record(r.partition, r.offset);
    }
  }

  /** A record that consumer c has passed, that is not settled, and that it does not hold. */
  ghost predicate Missing(g: Group, c: ConsumerId, r: Record) {
    var k := g.Consumer(c);
    && Passed(k, r) && r.partition in g.start && g.start[r.partition] <= r.offset && !g.Settled(r)
    && forall i :: 0 <= i < |k.batch| ==> k.batch[i] != r
  }

  lemma SkippedMisses(g: Group, a: Action) returns (r: Record)
    requires Safe(g) && a.PollDuringWait? && !Proper(g, a)
    ensures Missing(Apply(g, a), a.c, r)
  {
    SafeConsumer(g, a.c);
    r := Record(a.p, g.Consumer(a.c).position[a.p]);
    assert CoveredBelow(g, a.p, g.Consumer(a.c).position[a.p], g.Consumer(a.c).batch);
  }

  lemma DroppedMisses(g: Group, a: Action) returns (r: Record)
    requires Safe(g) && a.FetchFails? && !Proper(g, a)
    ensures Missing(Apply(g, a), a.c, r)
  {
    var k := g.Consumer(a.c);
    SafeConsumer(g, a.c);
    var i :| 0 <= i < |k.batch| && Passed(k, k.batch[i]) && !g.Settled(k.batch[i]);
    r := k.batch[i];
    assert CoveredBelow(g, r.partition, r.offset, k.batch[..i]);
  }

  lemma LeftMisses(g: Group, a: Action) returns (r: Record)
    requires Safe(g) && a.Rewind? && Possible(g, a) && !Proper(g, a)
    ensures Missing(Apply(g, a), a.c, r)
  {
    var k := g.Consumer(a.c);
    SafeConsumer(g, a.c);
    var i :| 0 <= i < |k.batch| && Passed(k, k.batch[i]) && !Reached(k, a.order, a.failing, k.batch[i].partition)
      && !g.Settled(k.batch[i]);
    SeekAllPositions(k, Earliest(k.batch), a.order, a.failing);
    r := k.batch[i];
    assert CoveredBelow(g, r.partition, r.offset, k.batch[..i]);
  }

  lemma ImproperMisses(g: Group, a: Action) returns (r: Record)
    requires Safe(g) && Possible(g, a) && !Proper(g, a)
    ensures Missing(Apply(g, a), a.c, r)
  {
    if a.PollDuringWait? {
      r := SkippedMisses(g, a);
    } else if a.FetchFails? {
      r := DroppedMisses(g, a);
    } else {
      r := LeftMisses(g, a);
    }
  }

  function Handles(c: ConsumerId, n: nat): seq<Action> {
    seq(n, _ => Handle(c))
  }

  /** Handling what is in hand settles nothing that is missing. */
  lemma {:induction false} StillMissing(g: Group, c: ConsumerId, r: Record, n: nat)
    requires Missing(g, c, r) && n <= |g.Consumer(c).batch|
    ensures var g' := Exec(g, Handles(c, n)); Missing(g', c, r) && g'.Consumer(c).batch == g.Consumer(c).batch[n..]
  {
    if n > 0 {
      assert Handles(c, n)[..n - 1] == Handles(c, n - 1);
      StillMissing(g, c, r, n - 1);
    }
  }

  /** From there one more message of the partition is enough. */
  lemma NextCommitsOver(g: Group, c: ConsumerId, r: Record)
    requires Missing(g, c, r) && g.Consumer(c).batch == []
    ensures CommittedOver(Apply(Apply(Apply(g, Poll(c, r.partition)), Handle(c)), Commit(c)))
  {
    var p, k := r.partition, g.Consumer(c);
    var polled := Apply(g, Poll(c, p));
    assert polled.Consumer(c).batch == [Record(p, k.position[p])];
    var handled := Apply(polled, Handle(c));
    assert handled.Consumer(c).stored[p] == k.position[p] + 1;
    var committed := Apply(handled, Commit(c));
    assert committed.committed[p] == k.position[p] + 1 && !committed.Settled(r);
  }

  /** Everything in hand is handled, then one more message. */
  function Continuation(c: ConsumerId, p: Partition, n: nat): seq<Action> {
    Handles(c, n) + [Poll(c, p)] + [Handle(c)] + [Commit(c)]
  }

  lemma {:induction false} PlainRunIsProper(g: Group, actions: seq<Action>)
    requires forall i :: 0 <= i < |actions| ==> actions[i].Poll? || actions[i].Handle? || actions[i].Commit?
    ensures ProperRun(g, actions)
  {
    if actions != [] {
      PlainRunIsProper(g, actions[..|actions| - 1]);
      assert actions[|actions| - 1].Poll? || actions[|actions| - 1].Handle? || actions[|actions| - 1].Commit?;
    }
  }

  lemma ExecSnoc(g: Group, actions: seq<Action>, a: Action)
    ensures Exec(g, actions + [a]) == Apply(Exec(g, actions), a)
  {
    assert (actions + [a])[..|actions|] == actions;
  }

  lemma MissingIsCommittedOver(g: Group, c: ConsumerId, r: Record)
    requires Missing(g, c, r)
    ensures var next := Continuation(c, r.partition, |g.Consumer(c).batch|);
      ProperRun(g, next) && CommittedOver(Exec(g, next))
  {
    var n, p := |g.Consumer(c).batch|, r.partition;
    StillMissing(g, c, r, n);
    NextCommitsOver(Exec(g, Handles(c, n)), c, r);
    ContinuationSteps(g, c, p, n);
    ContinuationIsProper(g, c, p, n);
  }

  lemma ContinuationIsProper(g: Group, c: ConsumerId, p: Partition, n: nat)
    ensures ProperRun(g, Continuation(c, p, n))
  {
    PlainRunIsProper(g, Continuation(c, p, n));
  }

  lemma ContinuationSteps(g: Group, c: ConsumerId, p: Partition, n: nat)
    ensures Exec(g, Continuation(c, p, n)) ==
      Apply(Apply(Apply(Exec(g, Handles(c, n)), Poll(c, p)), Handle(c)), Commit(c))
  {
    ExecSnoc(g, Handles(c, n), Poll(c, p));
    ExecSnoc(g, Handles(c, n) + [Poll(c, p)], Handle(c));
    ExecSnoc(g, Handles(c, n) + [Poll(c, p)] + [Handle(c)], Commit(c));
  }

  /** No proper run from here commits over a record that is not settled. */
  ghost predicate NothingIsLost(g: Group) {
    forall next :: ProperRun(g, next) ==> !CommittedOver(Exec(g, next))
  }

  /** An action is proper exactly when no proper continuation of it commits over a record that is not settled. */
  lemma ProperIffNothingIsLost(g: Group, a: Action)
    requires Safe(g) && Possible(g, a)
    ensures Proper(g, a) <==> NothingIsLost(Apply(g, a))
  {
    var g' := Apply(g, a);
    if Proper(g, a) {
      StepSafeIff(g, a);
      forall next | ProperRun(g', next) ensures !CommittedOver(Exec(g', next)) {
        OffsetsAreSafe(g', next);
        SafeIsNotCommittedOver(Exec(g', next));
      }
    } else {
      var r := ImproperMisses(g, a);
      var next := Continuation(a.c, r.partition, |g'.Consumer(a.c).batch|);
      MissingIsCommittedOver(g', a.c, r);
      assert ProperRun(g', next);
    }
  }

  // ---- where the code itself is not safe ---------------------------------------------------

  /** One partition, nothing consumed yet. */
  const ONE_PARTITION := Group(map[0 := 0], map[0 := 0], map[], {}, {})

  lemma AssignAndPoll(g: Group)
    requires g == ONE_PARTITION
    ensures var r := Apply(Apply(g, Assign(0, 0)), Poll(0, 0));
      r.Consumer(0) == Consumer(map[0 := 1], map[], [Record(0, 0)]) && r.handled == {} && r.dead == {}
  {
    assert Apply(g, Assign(0, 0)).Consumer(0) == Consumer(map[0 := 0], map[], []);
  }

  lemma FailAndGoOn(g: Group)
    requires g.Consumer(0) == Consumer(map[0 := 1], map[], [Record(0, 0)]) && g.handled == {} && g.dead == {}
    ensures var r := Apply(Apply(Apply(Apply(g, FetchFails(0)), Poll(0, 0)), Handle(0)), Commit(0));
      0 in r.committed && r.committed[0] == 2 && !r.Settled(Record(0, 0))
  {
    var failed := Apply(g, FetchFails(0));
    assert failed.Consumer(0) == Consumer(map[0 := 1], map[], []);
    var polled := Apply(failed, Poll(0, 0));
    assert polled.Consumer(0) == Consumer(map[0 := 2], map[], [Record(0, 1)]);
    assert Apply(polled, Handle(0)).Consumer(0).stored == map[0 := 2];
  }

  /** A run of the code that loses a record: the fetch fails after its first Poll, the polled record is dropped, and the
      next one is committed over it. */
  lemma FailedFetchLosesRecord()
    ensures Initial(ONE_PARTITION)
    ensures var fetched := Apply(Apply(ONE_PARTITION, Assign(0, 0)), Poll(0, 0));
      var r := Apply(Apply(Apply(Apply(fetched, FetchFails(0)), Poll(0, 0)), Handle(0)), Commit(0));
      0 in r.committed && r.committed[0] == 2 && !r.Settled(Record(0, 0))
  {
    AssignAndPoll(ONE_PARTITION);
    FailAndGoOn(Apply(Apply(ONE_PARTITION, Assign(0, 0)), Poll(0, 0)));
  }

  /** A failing Seek in a wait: the message is passed over, and the next one of its partition is committed over it. */
  lemma FailedPutBackLosesRecord(g: Group, c: ConsumerId, p: Partition)
    requires Safe(g) && p in g.Consumer(c).position
    ensures var k, g' := g.Consumer(c), Apply(g, PollDuringWait(c, p, false));
      SkipsSettled(g, k, p) || CommittedOver(Exec(g', Continuation(c, p, |k.batch|)))
  {
    if !SkipsSettled(g, g.Consumer(c), p) {
      SafeConsumer(g, c);
      assert CoveredBelow(g, p, g.Consumer(c).position[p], g.Consumer(c).batch);
      MissingIsCommittedOver(Apply(g, PollDuringWait(c, p, false)), c, Record(p, g.Consumer(c).position[p]));
    }
  }

  /** Two partitions, nothing consumed yet. */
  const TWO_PARTITIONS := Group(map[0 := 0, 1 := 0], map[0 := 0, 1 := 0], map[], {}, {})

  const BOTH_HEADS := [Record(0, 0), Record(1, 0)]

  lemma AssignBoth(g: Group)
    requires g == TWO_PARTITIONS
    ensures var r := Apply(Apply(g, Assign(0, 0)), Assign(0, 1));
      r.Consumer(0) == Consumer(map[0 := 0, 1 := 0], map[], []) && r.handled == {} && r.dead == {}
  {
    assert Apply(g, Assign(0, 0)).Consumer(0).position == map[0 := 0];
  }

  lemma PollBoth(g: Group)
    requires g.Consumer(0) == Consumer(map[0 := 0, 1 := 0], map[], [])
    ensures var r := Apply(Apply(g, Poll(0, 0)), Poll(0, 1));
      r.Consumer(0) == Consumer(map[0 := 1, 1 := 1], map[], BOTH_HEADS) && r.handled == g.handled && r.dead == g.dead
  {
    assert Apply(g, Poll(0, 0)).Consumer(0).position == map[0 := 1, 1 := 0];
  }

  lemma RevokeThenRewind(g: Group)
    requires g.Consumer(0) == Consumer(map[0 := 1, 1 := 1], map[], BOTH_HEADS)
    ensures Visits(Apply(g, Revoke(0, 0)).Consumer(0).batch, [0, 1])
    ensures var r := Apply(Apply(g, Revoke(0, 0)), Rewind(0, [0, 1], {}));
      r.Consumer(0) == Consumer(map[1 := 1], map[], []) && r.handled == g.handled && r.dead == g.dead
  {
    EarliestIsLeast(BOTH_HEADS);
    assert Apply(g, Revoke(0, 0)).Consumer(0) == Consumer(map[1 := 1], map[], BOTH_HEADS);
  }

  lemma CommitOver(g: Group)
    requires g.Consumer(0) == Consumer(map[1 := 1], map[], []) && g.handled == {} && g.dead == {}
    ensures var r := Apply(Apply(Apply(g, Poll(0, 1)), Handle(0)), Commit(0));
      1 in r.committed && r.committed[1] == 2 && !r.Settled(Record(1, 0))
  {
    assert Apply(g, Poll(0, 1)).Consumer(0) == Consumer(map[1 := 2], map[], [Record(1, 1)]);
    assert Apply(Apply(g, Poll(0, 1)), Handle(0)).Consumer(0).stored == map[1 := 2];
  }

  /** A run of the code that loses a record: partition 0 is revoked during a wait, its Seek fails first, partition 1 is
      not rewound, and its next record is committed over the one that was in hand. */
  lemma RevokedSeekLosesRecord()
    ensures Initial(TWO_PARTITIONS)
    ensures var ready := Apply(Apply(TWO_PARTITIONS, Assign(0, 0)), Assign(0, 1));
      var fetched := Apply(Apply(ready, Poll(0, 0)), Poll(0, 1));
      var revoked := Apply(fetched, Revoke(0, 0));
      var rewound := Apply(revoked, Rewind(0, [0, 1], {}));
      var r := Apply(Apply(Apply(rewound, Poll(0, 1)), Handle(0)), Commit(0));
      && Visits(revoked.Consumer(0).batch, [0, 1])
      && 1 in r.committed && r.committed[1] == 2 && !r.Settled(Record(1, 0))
  {
    AssignBoth(TWO_PARTITIONS);
    var ready := Apply(Apply(TWO_PARTITIONS, Assign(0, 0)), Assign(0, 1));
    PollBoth(ready);
    var fetched := Apply(Apply(ready, Poll(0, 0)), Poll(0, 1));
    RevokeThenRewind(fetched);
    CommitOver(Apply(Apply(fetched, Revoke(0, 0)), Rewind(0, [0, 1], {})));
  }

  /** After a crash, whoever gets the partition polls from the committed offset on, with nothing in hand: what was
      polled and not committed comes again. */
  lemma CrashRedelivers(g: Group, c: ConsumerId, p: Partition)
    requires p in g.committed
    ensures var again := Apply(Apply(g, Crash(c)), Assign(c, p));
      again.Consumer(c) == Consumer(map[p := g.committed[p]], map[], [])
      && Apply(again, Poll(c, p)).Consumer(c).batch == [Record(p, g.committed[p])]
  {
    var crashed := Apply(g, Crash(c));
    assert crashed.Consumer(c) == Consumer(map[], map[], []);
    assert Apply(crashed, Assign(c, p)).Consumer(c).position == map[p := g.committed[p]];
  }
}
