/** The consumer group and the trade handlers together: what a committed offset says about the totals. */
module EndToEnd {
  import opened Domain
  import opened RedisDb
  import opened TradeHandler
  import opened Ledger
  import T = TradeSystem
  import opened ExactlyOnce
  import O = Offsets

  /** The trade each well-formed record holds; a record that is missing here cannot be decoded. */
  type Content = map<O.Record, TradeId>

  /** Consumer c handles the head of its batch as worker c. */
  datatype World = World(trades: T.System, group: O.Group)

  datatype Action = OnStore(a: T.Action) | OnGroup(k: O.Action)

  /** The handler of the record returned nil: worker c ran the record's trade to its end. */
  predicate Succeeded(content: Content, w: World, c: O.ConsumerId) {
    var batch := w.group.Consumer(c).batch;
    && batch != [] && batch[0] in content
    && c in w.trades.jobs && w.trades.jobs[c] == T.Job(content[batch[0]], Done)
  }

  /** A record counts as handled only when its handler succeeded; everything else may happen at any time. */
  function Apply(ev: Trades, content: Content, w: World, a: Action): World {
    match a
    case OnStore(t) => w.(trades := T.Apply(ev, w.trades, t))
    case OnGroup(k) => if k.Handle? && !Succeeded(content, w, k.c) then w else w.(group := O.Apply(w.group, k))
  }

  function Exec(ev: Trades, content: Content, w: World, actions: seq<Action>): World {
    if actions == [] then w
    else Apply(ev, content, Exec(ev, content, w, actions[..|actions| - 1]), actions[|actions| - 1])
  }

  /** Group actions are proper. */
  ghost predicate ProperRun(ev: Trades, content: Content, w: World, actions: seq<Action>) {
    actions == [] ||
    var before, a := Exec(ev, content, w, actions[..|actions| - 1]), actions[|actions| - 1];
    ProperRun(ev, content, w, actions[..|actions| - 1]) && (a.OnGroup? ==> O.Proper(before.group, a.k))
  }

  /** Snapshots are fresh when they are saved. */
  ghost predicate FreshWorld(ev: Trades, content: Content, w: World, actions: seq<Action>) {
    actions == [] ||
    var before, a := Exec(ev, content, w, actions[..|actions| - 1]), actions[|actions| - 1];
    FreshWorld(ev, content, w, actions[..|actions| - 1]) && (a.OnStore? ==> FreshAction(ev, before.trades, a.a))
  }

  ghost predicate Initial(ev: Trades, content: Content, w: World) {
    && T.Initial(ev, w.trades) && O.Initial(w.group) && w.group.handled == {}
    && forall r :: r in content ==> content[r] in ev
  }

  /** Every handled record's trade has been processed to the end. */
  ghost predicate Linked(content: Content, w: World) {
    forall r :: r in w.group.handled ==> r in content && content[r] in w.trades.db.processed
  }

  ghost predicate WorldInv(ev: Trades, b: Books, content: Content, w: World) {
    MarkerInv(ev, b, w.trades) && O.Safe(w.group) && Linked(content, w)
  }

  lemma ProcessedGrows(ev: Trades, s: T.System, a: T.Action)
    ensures s.db.processed <= T.Apply(ev, s, a).db.processed
  {
    if a.Advance? && a.w in s.jobs && s.jobs[a.w].id in ev {
      StepHasMarksEffect(s.db, s.jobs[a.w].id, ev[s.jobs[a.w].id], s.jobs[a.w].frame);
    } else if a.Tear? && a.w in s.jobs && s.jobs[a.w].id in ev {
      T.TornKeeps(s.db, ev[s.jobs[a.w].id], s.jobs[a.w].frame);
    } else if a.Price? || a.Capture? || a.SaveCaptured? {
      T.PriceStepKeeps(ev, s, a);
    }
  }

  lemma HandledGrows(g: O.Group, k: O.Action)
    ensures O.Apply(g, k).handled ==
      if k.Handle? && g.Consumer(k.c).batch != [] then g.handled + {g.Consumer(k.c).batch[0]} else g.handled
  {}

  lemma DoneIsProcessed(ev: Trades, b: Books, s: T.System, c: T.Worker)
    requires MarkerInv(ev, b, s) && c in s.jobs && s.jobs[c].frame.Done?
    ensures s.jobs[c].id in s.db.processed
  {}

  lemma WorldStep(ev: Trades, b: Books, content: Content, w: World, a: Action)
    requires WorldInv(ev, b, content, w)
    requires a.OnGroup? ==> O.Proper(w.group, a.k)
    ensures WorldInv(ev, b, content, Apply(ev, content, w, a))
  {
    if a.OnStore? {
      MarkersKept(ev, b, w.trades, a.a);
      ProcessedGrows(ev, w.trades, a.a);
    } else if !a.k.Handle? || Succeeded(content, w, a.k.c) {
      O.StepSafeIff(w.group, a.k);
      HandledGrows(w.group, a.k);
      if a.k.Handle? { DoneIsProcessed(ev, b, w.trades, a.k.c); }
    }
  }

  lemma {:induction false} WorldReachable(ev: Trades, content: Content, w: World, actions: seq<Action>)
    requires Initial(ev, content, w) && ProperRun(ev, content, w, actions)
    ensures WorldInv(ev, T.Open(w.trades.db), content, Exec(ev, content, w, actions))
  {
    if actions == [] {
      MarkersReachable(ev, w.trades, []);
      O.OffsetsAreSafe(w.group, []);
    } else {
      WorldReachable(ev, content, w, actions[..|actions| - 1]);
      WorldStep(ev, T.Open(w.trades.db), content, Exec(ev, content, w, actions[..|actions| - 1]),
                actions[|actions| - 1]);
    }
  }

  lemma {:induction false} AccountsReachable(ev: Trades, content: Content, w: World, actions: seq<Action>)
    requires Initial(ev, content, w) && FreshWorld(ev, content, w, actions)
    ensures Inv(ev, T.Open(w.trades.db), Exec(ev, content, w, actions).trades)
  {
    if actions == [] {
      InvReachable(ev, w.trades, []);
    } else {
      AccountsReachable(ev, content, w, actions[..|actions| - 1]);
      var before, a := Exec(ev, content, w, actions[..|actions| - 1]), actions[|actions| - 1];
      if a.OnStore? { InvKept(ev, T.Open(w.trades.db), before.trades, a.a); }
    }
  }

  /** The trade is one entry of the log, and the whole of it has reached its portfolio and its user. */
  ghost predicate Counted(ev: Trades, s: T.System, id: TradeId)
    requires id in ev
  {
    && id in s.log && T.QMark(ev, id) in s.db.marks
    && Share(ev, s.db.marks, id, OfPortfolio(ev[id].portfolio)) == ev[id].PortfolioDelta(s.db.marks[T.QMark(ev, id)])
    && Share(ev, s.db.marks, id, OfUser(ev[id].user)) == ev[id].UserDelta()
  }

  lemma ProcessedIsCounted(ev: Trades, b: Books, s: T.System, id: TradeId)
    requires MarkerInv(ev, b, s) && id in ev && id in s.db.processed
    ensures Counted(ev, s, id)
  {
    assert T.UMark(ev, id) in s.db.marks && T.PMark(ev, id) in s.db.marks && T.QMark(ev, id) in s.db.marks;
  }

  /** Every record below a committed offset is in the dead letter topic or counted, under every interleaving. Counting
      is exactly once: log entries are distinct, and with fresh snapshots each account is where it started plus the
      shares of the log. A trade that was given up has at most the first of its writes: a user share only with a
      portfolio share, that only with its quantity. */
  lemma CommittedRecordsAreCountedOrDead(ev: Trades, content: Content, w: World, actions: seq<Action>, r: World,
                                         b: Books)
    requires Initial(ev, content, w) && ProperRun(ev, content, w, actions) && r == Exec(ev, content, w, actions)
    requires b == T.Open(w.trades.db)
    ensures forall p :: p in r.group.committed ==> p in r.group.start
    ensures forall p, x: nat :: p in r.group.committed && r.group.start[p] <= x < r.group.committed[p] ==>
      O.Record(p, x) in r.group.dead || (O.Record(p, x) in content && Counted(ev, r.trades, content[O.Record(p, x)]))
    ensures Known(ev, r.trades.log) && Distinct(r.trades.log)
    ensures ChainInv(ev, r.trades.db.marks, r.trades.db.processed)
    ensures FreshWorld(ev, content, w, actions) ==>
      AccountsInv(ev, Shifted(b, r.trades.revalued), r.trades.log, r.trades.db)
  {
    WorldReachable(ev, content, w, actions);
    if FreshWorld(ev, content, w, actions) { AccountsReachable(ev, content, w, actions); }
    forall p | p in r.group.committed ensures p in r.group.start {
      assert O.SettledBelow(r.group, p, r.group.committed[p]);
    }
    forall p, x: nat | p in r.group.committed && r.group.start[p] <= x < r.group.committed[p]
      ensures O.Record(p, x) in r.group.dead
        || (O.Record(p, x) in content && Counted(ev, r.trades, content[O.Record(p, x)]))
    {
      var rec := O.Record(p, x);
      assert O.SettledBelow(r.group, p, r.group.committed[p]);
      if rec in r.group.handled {
        ProcessedIsCounted(ev, b, r.trades, content[rec]);
      }
    }
  }
}
