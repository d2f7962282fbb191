/** Locks and fan-out together. The scripts that write stock values do not check the lock, so a call whose lock has
    expired still writes. index is the set of indexed holdings of the stocks. */
module FanOutWrites {
  import opened Domain
  import opened PriceTicks
  import L = PriceLock

  /** A call's token for a stock: the token it commits the stock under. */
  datatype Stamp = Stamp(stock: StockId, token: L.Token)

  /** The value of a holding was last written by the call with that token, from that request: sv is its version. */
  datatype Written = Written(token: L.Token, request: Request)

  /** wrote holds what each running call has written, committing the calls that are past their fan-out, stored the
      stamps under which a state has been committed. */
  datatype World = World(
    base: L.System, last: map<Holding, Written>, wrote: map<L.Worker, set<Holding>>, committing: set<L.Worker>,
    stored: set<Stamp>)
  {
    function Wrote(w: L.Worker): set<Holding> {
      GetOr(wrote, w, {})
    }
  }

  datatype Action = OnLocks(a: L.Action) | WriteHolding(w: L.Worker, h: Holding)

  function StampOf(h: Holding, v: Written): Stamp {
    Stamp(h.stock, v.token)
  }

  /** The request whose value the call writes for the stock. */
  function Accepted(j: L.Job, s: StockId): Option<Request> {
    if s in j.read then L.Chosen(j.requests, j.read[s], s) else None
  }

  predicate MayWrite(index: set<Holding>, x: World, w: L.Worker, h: Holding) {
    w in x.base.jobs && h in index && w !in x.committing && h.stock in x.base.jobs[w].tokens
      && L.AllRead(x.base.jobs[w])
    && Accepted(x.base.jobs[w], h.stock).Some?
  }

  predicate Commits(a: L.Action) {
    a.Commit? || a.CommitUnanswered?
  }

  /** The fan-out comes before the first commit, and covers every holding of every accepted stock. */
  ghost predicate FannedOut(index: set<Holding>, x: World, w: L.Worker) {
    w in x.base.jobs ==>
      forall h :: h in index && h.stock in x.base.jobs[w].tokens && Accepted(x.base.jobs[w], h.stock).Some? ==>
        h in x.Wrote(w)
  }

  /** The commit stores a state. */
  predicate Stores(y: L.System, a: L.Action) {
    Commits(a) && L.MayCommit(y, a.w, a.s) && Accepted(y.jobs[a.w], a.s).Some?
      && L.Holds(y.locks, a.s, y.jobs[a.w].tokens[a.s])
  }

  ghost function Apply(index: set<Holding>, x: World, act: Action): World {
    match act
    case WriteHolding(w, h) =>
      if !MayWrite(index, x, w, h) then x
      else
        x.(last := x.last[h := Written(x.base.jobs[w].tokens[h.stock], Accepted(x.base.jobs[w], h.stock).value)],
           wrote := x.wrote[w := x.Wrote(w) + {h}])
    case OnLocks(a) =>
      if Commits(a) && !FannedOut(index, x, a.w) then x
      else
        var begins := a.Begin? && a.w !in x.base.jobs;
        World(L.Apply(x.base, a), x.last,
              if begins then x.wrote[a.w := {}] else x.wrote,
              if begins then x.committing - {a.w} else if Commits(a) then x.committing + {a.w} else x.committing,
              if Stores(x.base, a) then x.stored + {Stamp(a.s, x.base.jobs[a.w].tokens[a.s])} else x.stored)
  }

  ghost function Exec(index: set<Holding>, x: World, actions: seq<Action>): World {
    if actions == [] then x
    else Apply(index, Exec(index, x, actions[..|actions| - 1]), actions[|actions| - 1])
  }

  ghost predicate Initial(x: World) {
    L.Initial(x.base) && x.last == map[] && x.wrote == map[] && x.stored == {}
  }

  // ---- the invariant -----------------------------------------------------------------------

  ghost predicate StampsUsed(index: set<Holding>, x: World) {
    && (forall p :: p in x.stored ==> p.token in x.base.used)
    && (forall h :: h in x.last ==> h in index && x.last[h].token in x.base.used)
  }

  /** Only a call that has read everything writes. */
  predicate HasRead(x: World, w: L.Worker, h: Holding)
    requires w in x.base.jobs
  {
    h.stock in x.base.jobs[w].tokens && L.AllRead(x.base.jobs[w]) && h in x.last
  }

  ghost predicate CallsInv(x: World) {
    && (forall w, h :: w in x.base.jobs && h in x.Wrote(w) ==> HasRead(x, w, h))
    && (forall w, s :: w in x.base.jobs && s in x.base.jobs[w].tokens && w !in x.committing ==>
      Stamp(s, x.base.jobs[w].tokens[s]) !in x.stored)
  }

  /** The last write of h is by the running call w. */
  predicate WroteLast(x: World, w: L.Worker, h: Holding)
    requires w in x.base.jobs && h in x.last
  {
    h.stock in x.base.jobs[w].tokens && x.last[h].token == x.base.jobs[w].tokens[h.stock]
  }

  /** What a running call has written last is what it has accepted. */
  ghost predicate LastInv(x: World) {
    forall w, h :: w in x.base.jobs && h in x.last && WroteLast(x, w, h) ==>
      Accepted(x.base.jobs[w], h.stock) == Some(x.last[h].request) && L.AllRead(x.base.jobs[w])
  }

  /** The lock of the holding's stock still carries the token of w. */
  predicate HoldsFor(x: World, w: L.Worker, h: Holding)
    requires w in x.base.jobs
  {
    h.stock in x.base.jobs[w].tokens && L.Holds(x.base.locks, h.stock, x.base.jobs[w].tokens[h.stock])
  }

  /** While a call holds its lock, no committed call has written over it. */
  ghost predicate NotOverwritten(x: World) {
    forall w, h :: w in x.base.jobs && h in x.Wrote(w) && h in x.last && HoldsFor(x, w, h) ==>
      x.last[h].token == x.base.jobs[w].tokens[h.stock] || StampOf(h, x.last[h]) !in x.stored
  }

  /** Where the last writer has committed, the value belongs to the applied state. */
  ghost predicate WritersInv(x: World) {
    forall h :: h in x.last && StampOf(h, x.last[h]) in x.stored ==>
      Lookup(x.base.applied, h.stock) == Some(x.last[h].request.Applied())
  }

  ghost predicate WorldInv(index: set<Holding>, x: World) {
    L.LockInv(x.base) && StampsUsed(index, x) && CallsInv(x) && LastInv(x) && NotOverwritten(x) && WritersInv(x)
  }

  /** A write of w: what it changes, its stamp not stored, and its token no other running call's. */
  ghost predicate Writes(index: set<Holding>, x: World, w: L.Worker, h: Holding, x': World) {
    && MayWrite(index, x, w, h)
    && x' == x.(last := x.last[h := Written(x.base.jobs[w].tokens[h.stock], Accepted(x.base.jobs[w], h.stock).value)],
                wrote := x.wrote[w := x.Wrote(w) + {h}])
    && Stamp(h.stock, x.base.jobs[w].tokens[h.stock]) !in x.stored
    && (forall v :: v in x.base.jobs && v != w && h.stock in x.base.jobs[v].tokens ==>
          x.base.jobs[v].tokens[h.stock] != x.base.jobs[w].tokens[h.stock])
  }

  lemma StepWrites(index: set<Holding>, x: World, w: L.Worker, h: Holding)
    requires L.LockInv(x.base) && CallsInv(x) && MayWrite(index, x, w, h)
    ensures Writes(index, x, w, h, Apply(index, x, WriteHolding(w, h)))
  {}

  lemma WriteKeepsStamps(index: set<Holding>, x: World, w: L.Worker, h: Holding, x': World)
    requires L.TokensInv(x.base) && StampsUsed(index, x) && Writes(index, x, w, h, x')
    ensures StampsUsed(index, x')
  {}

  lemma WroteGrows(x: World, w: L.Worker, h: Holding, x': World)
    requires x'.wrote == x.wrote[w := x.Wrote(w) + {h}]
    ensures forall v :: x'.Wrote(v) == if v == w then x.Wrote(w) + {h} else x.Wrote(v)
  {}

  lemma WriteKeepsCalls(index: set<Holding>, x: World, w: L.Worker, h: Holding, x': World)
    requires CallsInv(x) && Writes(index, x, w, h, x')
    ensures CallsInv(x')
  {
    WroteGrows(x, w, h, x');
    forall v, g | v in x'.base.jobs && g in x'.Wrote(v)
      ensures HasRead(x', v, g)
    {
      assert (v == w && g == h) || g in x.Wrote(v);
    }
  }

  lemma WriteKeepsLast(index: set<Holding>, x: World, w: L.Worker, h: Holding, x': World)
    requires LastInv(x) && Writes(index, x, w, h, x')
    ensures LastInv(x')
  {}

  lemma WriteKeepsWriters(index: set<Holding>, x: World, w: L.Worker, h: Holding, x': World)
    requires NotOverwritten(x) && WritersInv(x) && Writes(index, x, w, h, x')
    ensures NotOverwritten(x') && WritersInv(x')
  {}

  lemma WriteKeeps(index: set<Holding>, x: World, w: L.Worker, h: Holding)
    requires WorldInv(index, x)
    ensures WorldInv(index, Apply(index, x, WriteHolding(w, h)))
  {
    if MayWrite(index, x, w, h) {
      var x' := Apply(index, x, WriteHolding(w, h));
      StepWrites(index, x, w, h);
      WriteKeepsStamps(index, x, w, h, x');
      WriteKeepsCalls(index, x, w, h, x');
      WriteKeepsLast(index, x, w, h, x');
      WriteKeepsWriters(index, x, w, h, x');
    }
  }

  /** What a step of the lock machine leaves of the running calls that have read everything. */
  ghost predicate CallsStep(y: L.System, a: L.Action, y': L.System) {
    && (forall w :: w in y'.jobs ==>
          if w in y.jobs then
            y'.jobs[w].tokens == y.jobs[w].tokens && y'.jobs[w].requests == y.jobs[w].requests
            && (L.AllRead(y.jobs[w]) ==> y'.jobs[w].read == y.jobs[w].read)
          else a.Begin? && a.w == w && L.Fresh(y, y'.jobs[w].tokens))
    && (forall s :: !(Stores(y, a) && a.s == s) ==> Lookup(y'.applied, s) == Lookup(y.applied, s))
    && (Stores(y, a) ==>
      a.s !in y'.locks && Lookup(y'.applied, a.s) == Some(Accepted(y.jobs[a.w], a.s).value.Applied()))
  }

  lemma StepLeavesOwnCall(y: L.System, a: L.Action)
    requires !a.Expire? && a.w in y.jobs && a.w in L.Apply(y, a).jobs && L.JobOk(y, y.jobs[a.w])
    ensures var j, j' := y.jobs[a.w], L.Apply(y, a).jobs[a.w];
      j'.tokens == j.tokens && j'.requests == j.requests && (L.AllRead(j) ==> j'.read == j.read)
  {
    L.StepIsJobStep(y, a);
  }

  lemma NewCallIsFresh(y: L.System, a: L.Action)
    requires !a.Expire? && a.w !in y.jobs && a.w in L.Apply(y, a).jobs
    ensures a.Begin? && L.Fresh(y, L.Apply(y, a).jobs[a.w].tokens)
  {}

  lemma StepLeavesCalls(y: L.System, a: L.Action, w: L.Worker)
    requires L.LockInv(y) && w in L.Apply(y, a).jobs
    ensures if w in y.jobs then
        L.Apply(y, a).jobs[w].tokens == y.jobs[w].tokens && L.Apply(y, a).jobs[w].requests == y.jobs[w].requests
        && (L.AllRead(y.jobs[w]) ==> L.Apply(y, a).jobs[w].read == y.jobs[w].read)
      else a.Begin? && a.w == w && L.Fresh(y, L.Apply(y, a).jobs[w].tokens)
  {
    if a.Expire? || w != a.w {
      L.OtherJobs(y, a, w);
    } else if w in y.jobs {
      StepLeavesOwnCall(y, a);
    } else {
      NewCallIsFresh(y, a);
    }
  }

  lemma StepMovesApplied(y: L.System, a: L.Action, s: StockId)
    ensures !(Stores(y, a) && a.s == s) ==> Lookup(L.Apply(y, a).applied, s) == Lookup(y.applied, s)
    ensures Stores(y, a) && a.s == s ==>
      s !in L.Apply(y, a).locks && Lookup(L.Apply(y, a).applied, s) == Some(Accepted(y.jobs[a.w], s).value.Applied())
  {}

  lemma StepIsCallsStep(y: L.System, a: L.Action, y': L.System)
    requires L.LockInv(y) && y' == L.Apply(y, a)
    ensures CallsStep(y, a, y')
  {
    forall w | w in y'.jobs
      ensures if w in y.jobs then
          y'.jobs[w].tokens == y.jobs[w].tokens && y'.jobs[w].requests == y.jobs[w].requests
          && (L.AllRead(y.jobs[w]) ==> y'.jobs[w].read == y.jobs[w].read)
        else a.Begin? && a.w == w && L.Fresh(y, y'.jobs[w].tokens)
    {
      StepLeavesCalls(y, a, w);
    }
    forall s
      ensures !(Stores(y, a) && a.s == s) ==> Lookup(y'.applied, s) == Lookup(y.applied, s)
      ensures Stores(y, a) && a.s == s ==>
        s !in y'.locks && Lookup(y'.applied, s) == Some(Accepted(y.jobs[a.w], s).value.Applied())
    {
      StepMovesApplied(y, a, s);
    }
  }

  /** The world around a step of the lock machine. */
  ghost predicate Around(index: set<Holding>, x: World, a: L.Action, x': World) {
    && L.LockStep(x.base, a, x'.base) && CallsStep(x.base, a, x'.base)
    && x'.last == x.last
    && (Commits(a) ==> FannedOut(index, x, a.w))
    && (forall w :: w in x.base.jobs ==> x'.Wrote(w) == x.Wrote(w) && (w in x.committing ==> w in x'.committing))
    && (forall w :: w in x'.base.jobs && w !in x.base.jobs ==> x'.Wrote(w) == {})
    && (Stores(x.base, a) ==> a.w in x'.committing)
    && x'.stored == if Stores(x.base, a) then x.stored + {Stamp(a.s, x.base.jobs[a.w].tokens[a.s])} else x.stored
  }

  lemma LocksStepIsAround(index: set<Holding>, x: World, a: L.Action)
    requires L.LockInv(x.base) && (Commits(a) ==> FannedOut(index, x, a.w))
    ensures Around(index, x, a, Apply(index, x, OnLocks(a)))
  {
    var y' := L.Apply(x.base, a);
    L.StepIsLockStep(x.base, a);
    StepIsCallsStep(x.base, a, y');
  }

  lemma StampsKept(index: set<Holding>, x: World, a: L.Action, x': World)
    requires WorldInv(index, x) && Around(index, x, a, x')
    ensures StampsUsed(index, x')
  {}

  lemma WroteKept(index: set<Holding>, x: World, a: L.Action, x': World, w: L.Worker, h: Holding)
    requires CallsInv(x) && Around(index, x, a, x') && w in x'.base.jobs && h in x'.Wrote(w)
    ensures HasRead(x', w, h)
  {
    assert w in x.base.jobs;
    assert HasRead(x, w, h);
  }

  lemma CallsKept(index: set<Holding>, x: World, a: L.Action, x': World)
    requires WorldInv(index, x) && Around(index, x, a, x')
    ensures CallsInv(x')
  {
    forall w, h | w in x'.base.jobs && h in x'.Wrote(w) ensures HasRead(x', w, h) { WroteKept(index, x, a, x', w, h); }
    forall w, s | w in x'.base.jobs && s in x'.base.jobs[w].tokens && w !in x'.committing
      ensures Stamp(s, x'.base.jobs[w].tokens[s]) !in x'.stored
    {
      if w !in x.base.jobs {
        assert x'.base.jobs[w].tokens[s] !in x.base.used;
      } else if Stores(x.base, a) && s == a.s {
        assert w != a.w && x.base.jobs[w].tokens[s] != x.base.jobs[a.w].tokens[s];
      }
    }
  }

  lemma LastKept(index: set<Holding>, x: World, a: L.Action, x': World)
    requires WorldInv(index, x) && Around(index, x, a, x')
    ensures LastInv(x')
  {
    forall w, h | w in x'.base.jobs && h in x'.last && WroteLast(x', w, h)
      ensures Accepted(x'.base.jobs[w], h.stock) == Some(x'.last[h].request) && L.AllRead(x'.base.jobs[w])
    {
      assert w in x.base.jobs;
    }
  }

  /** A call that has written holds its lock only if it held it before. */
  lemma StillHeld(index: set<Holding>, x: World, a: L.Action, x': World, w: L.Worker, h: Holding)
    requires WorldInv(index, x) && Around(index, x, a, x') && w in x'.base.jobs && h in x'.Wrote(w)
    requires HoldsFor(x', w, h)
    ensures w in x.base.jobs && h in x.Wrote(w) && HoldsFor(x, w, h)
    ensures Stores(x.base, a) ==> a.s != h.stock
  {
    assert w in x.base.jobs && h in x.Wrote(w);
    assert L.JobOk(x.base, x.base.jobs[w]) && h.stock in x.base.jobs[w].read && h.stock in x.base.jobs[w].tried;
  }

  lemma OverwritingKept(index: set<Holding>, x: World, a: L.Action, x': World)
    requires WorldInv(index, x) && Around(index, x, a, x')
    ensures NotOverwritten(x')
  {
    forall w, h | w in x'.base.jobs && h in x'.Wrote(w) && h in x'.last && HoldsFor(x', w, h)
      ensures x'.last[h].token == x'.base.jobs[w].tokens[h.stock] || StampOf(h, x'.last[h]) !in x'.stored
    {
      StillHeld(index, x, a, x', w, h);
    }
  }

  lemma WritersKept(index: set<Holding>, x: World, a: L.Action, x': World)
    requires WorldInv(index, x) && Around(index, x, a, x')
    ensures WritersInv(x')
  {
    forall h | h in x'.last && StampOf(h, x'.last[h]) in x'.stored
      ensures Lookup(x'.base.applied, h.stock) == Some(x'.last[h].request.Applied())
    {
      if Stores(x.base, a) && a.s == h.stock {
        assert h in x.Wrote(a.w);
        assert x.last[h].token == x.base.jobs[a.w].tokens[a.s];
      }
    }
  }

  lemma LocksStepKeeps(index: set<Holding>, x: World, a: L.Action)
    requires WorldInv(index, x)
    ensures WorldInv(index, Apply(index, x, OnLocks(a)))
  {
    if Commits(a) ==> FannedOut(index, x, a.w) {
      var x' := Apply(index, x, OnLocks(a));
      LocksStepIsAround(index, x, a);
      L.LockInvKept(x.base, a);
      StampsKept(index, x, a, x');
      CallsKept(index, x, a, x');
      LastKept(index, x, a, x');
      OverwritingKept(index, x, a, x');
      WritersKept(index, x, a, x');
    }
  }

  lemma {:induction false} WorldReachable(index: set<Holding>, x: World, actions: seq<Action>)
    requires Initial(x)
    ensures WorldInv(index, Exec(index, x, actions))
  {
    if actions != [] {
      WorldReachable(index, x, actions[..|actions| - 1]);
      var before := Exec(index, x, actions[..|actions| - 1]);
      match actions[|actions| - 1]
      case WriteHolding(w, h) => WriteKeeps(index, before, w, h);
      case OnLocks(a) => LocksStepKeeps(index, before, a);
    }
  }

  /** In every run, whatever expires: where the call that wrote a holding last has committed its stock, the value is the
      one of the applied state, so sv is the applied version. */
  lemma CommittedWriterIsApplied(index: set<Holding>, x: World, actions: seq<Action>, r: World, h: Holding)
    requires Initial(x) && r == Exec(index, x, actions) && h in r.last && StampOf(h, r.last[h]) in r.stored
    ensures Lookup(r.base.applied, h.stock) == Some(r.last[h].request.Applied())
    ensures r.base.applied[h.stock].Version() == r.last[h].request.EffectiveVersion()
  {
    WorldReachable(index, x, actions);
  }

  // ---- when a value falls behind -------------------------------------------------------------

  /** The value is older than the applied state of its stock. */
  predicate Behind(y: L.System, h: Holding, v: Written) {
    h.stock in y.applied && v.request.EffectiveVersion() < y.applied[h.stock].Version()
  }

  ghost predicate NoneBehind(x: World) {
    forall h :: h in x.last ==> !Behind(x.base, h, x.last[h])
  }

  ghost predicate NeverBehind(index: set<Holding>, x: World, actions: seq<Action>) {
    NoneBehind(Exec(index, x, actions)) && (actions != [] ==> NeverBehind(index, x, actions[..|actions| - 1]))
  }

  /** What would have to be checked before an action: a write is at least as new as the applied state, and a commit at
      most as new as the values of its stock. */
  ghost predicate Timely(index: set<Holding>, x: World, act: Action) {
    match act
    case WriteHolding(w, h) =>
      MayWrite(index, x, w, h) && h.stock in x.base.applied ==>
        x.base.applied[h.stock].Version() <= Accepted(x.base.jobs[w], h.stock).value.EffectiveVersion()
    case OnLocks(a) =>
      Stores(x.base, a) && FannedOut(index, x, a.w) ==>
        forall h :: h in x.last && h.stock == a.s ==>
          Accepted(x.base.jobs[a.w], a.s).value.EffectiveVersion() <= x.last[h].request.EffectiveVersion()
  }

  ghost predicate TimelyRun(index: set<Holding>, x: World, actions: seq<Action>) {
    actions == [] ||
    var rest := actions[..|actions| - 1];
    TimelyRun(index, x, rest) && Timely(index, Exec(index, x, rest), actions[|actions| - 1])
  }

  lemma WriteIsTimelyIff(index: set<Holding>, x: World, w: L.Worker, h: Holding)
    requires NoneBehind(x)
    ensures NoneBehind(Apply(index, x, WriteHolding(w, h))) <==> Timely(index, x, WriteHolding(w, h))
  {
    if MayWrite(index, x, w, h) {
      var x' := Apply(index, x, WriteHolding(w, h));
      assert h in x'.last && x'.last[h].request == Accepted(x.base.jobs[w], h.stock).value;
      assert forall g :: g in x'.last && g != h ==> g in x.last && x'.last[g] == x.last[g];
    }
  }

  lemma LocksStepIsTimelyIff(index: set<Holding>, x: World, a: L.Action)
    requires NoneBehind(x)
    ensures NoneBehind(Apply(index, x, OnLocks(a))) <==> Timely(index, x, OnLocks(a))
  {
    if Commits(a) ==> FannedOut(index, x, a.w) {
      var y' := L.Apply(x.base, a);
      forall h | h in x.last
        ensures Behind(y', h, x.last[h]) <==>
          Stores(x.base, a) && h.stock == a.s
          && x.last[h].request.EffectiveVersion() < Accepted(x.base.jobs[a.w], a.s).value.EffectiveVersion()
      {
        StepMovesApplied(x.base, a, h.stock);
        SameBehind(x.base, y', h, x.last[h]);
        assert !Behind(x.base, h, x.last[h]);
      }
    }
  }

  lemma SameBehind(y: L.System, y': L.System, h: Holding, v: Written)
    ensures Lookup(y'.applied, h.stock) == Lookup(y.applied, h.stock) ==> (Behind(y', h, v) <==> Behind(y, h, v))
    ensures forall r: Request :: Lookup(y'.applied, h.stock) == Some(r.Applied()) ==>
      (Behind(y', h, v) <==> v.request.EffectiveVersion() < r.EffectiveVersion())
  {}

  /** In every run, whatever expires: no value ever falls behind the applied state exactly when every write and every
      commit is timely. */
  lemma {:induction false} NeverBehindIff(index: set<Holding>, x: World, actions: seq<Action>)
    requires Initial(x)
    ensures NeverBehind(index, x, actions) <==> TimelyRun(index, x, actions)
  {
    if actions != [] {
      var rest := actions[..|actions| - 1];
      NeverBehindIff(index, x, rest);
      if NeverBehind(index, x, rest) {
        match actions[|actions| - 1]
        case WriteHolding(w, h) => WriteIsTimelyIff(index, Exec(index, x, rest), w, h);
        case OnLocks(a) => LocksStepIsTimelyIff(index, Exec(index, x, rest), a);
      }
    }
  }

  // ---- writes under the lock -----------------------------------------------------------------

  ghost predicate Guarded(index: set<Holding>, x: World, act: Action) {
    act.WriteHolding? && MayWrite(index, x, act.w, act.h) ==> HoldsFor(x, act.w, act.h)
  }

  /** No lock expires before its call has finished writing. */
  ghost predicate GuardedRun(index: set<Holding>, x: World, actions: seq<Action>) {
    actions == [] ||
    (GuardedRun(index, x, actions[..|actions| - 1])
      && Guarded(index, Exec(index, x, actions[..|actions| - 1]), actions[|actions| - 1]))
  }

  /** The value is newer than the applied state of its stock. */
  predicate Ahead(y: L.System, h: Holding, v: Written) {
    h.stock !in y.applied || v.request.EffectiveVersion() > y.applied[h.stock].Version()
  }

  ghost predicate GuardInv(x: World) {
    && (forall w, h :: w in x.base.jobs && h in x.Wrote(w) && h in x.last && HoldsFor(x, w, h) ==>
          x.last[h].token == x.base.jobs[w].tokens[h.stock])
    && (forall h :: h in x.last && StampOf(h, x.last[h]) !in x.stored ==> Ahead(x.base, h, x.last[h]))
  }

  lemma GuardedWriteIsAhead(index: set<Holding>, x: World, w: L.Worker, h: Holding, x': World)
    requires L.LeaseInv(x.base) && Writes(index, x, w, h, x') && HoldsFor(x, w, h)
    ensures h in x'.last && Ahead(x'.base, h, x'.last[h])
  {
    assert x.base.jobs[w].read[h.stock] == Lookup(x.base.applied, h.stock);
  }

  lemma GuardedWriteKeeps(index: set<Holding>, x: World, w: L.Worker, h: Holding, x': World)
    requires WorldInv(index, x) && GuardInv(x) && Writes(index, x, w, h, x') && HoldsFor(x, w, h)
    ensures GuardInv(x')
  {
    GuardedWriteIsAhead(index, x, w, h, x');
    WroteGrows(x, w, h, x');
    forall v, g | v in x'.base.jobs && g in x'.Wrote(v) && g in x'.last && HoldsFor(x', v, g)
      ensures x'.last[g].token == x'.base.jobs[v].tokens[g.stock]
    {
      assert g == h || (g in x.Wrote(v) && HoldsFor(x, v, g));
    }
  }

  lemma GuardKept(index: set<Holding>, x: World, a: L.Action, x': World)
    requires WorldInv(index, x) && GuardInv(x) && Around(index, x, a, x')
    ensures GuardInv(x')
  {
    forall w, h | w in x'.base.jobs && h in x'.Wrote(w) && h in x'.last && HoldsFor(x', w, h)
      ensures x'.last[h].token == x'.base.jobs[w].tokens[h.stock]
    {
      StillHeld(index, x, a, x', w, h);
    }
    forall h | h in x'.last ensures StampOf(h, x'.last[h]) in x'.stored || Ahead(x'.base, h, x'.last[h]) {
      if Stores(x.base, a) && a.s == h.stock {
        OwnWriteIsStored(index, x, a, x', h);
      } else {
        assert Lookup(x'.base.applied, h.stock) == Lookup(x.base.applied, h.stock);
      }
    }
  }

  lemma OwnWriteIsStored(index: set<Holding>, x: World, a: L.Action, x': World, h: Holding)
    requires WorldInv(index, x) && GuardInv(x) && Around(index, x, a, x') && Stores(x.base, a) && a.s == h.stock
    requires h in x.last
    ensures StampOf(h, x.last[h]) in x'.stored
  {
    assert h in x.Wrote(a.w);
  }

  lemma {:induction false} GuardReachable(index: set<Holding>, x: World, actions: seq<Action>)
    requires Initial(x) && GuardedRun(index, x, actions)
    ensures GuardInv(Exec(index, x, actions))
  {
    if actions != [] {
      var before := Exec(index, x, actions[..|actions| - 1]);
      GuardReachable(index, x, actions[..|actions| - 1]);
      WorldReachable(index, x, actions[..|actions| - 1]);
      match actions[|actions| - 1]
      case WriteHolding(w, h) =>
        if MayWrite(index, before, w, h) {
          StepWrites(index, before, w, h);
          GuardedWriteKeeps(index, before, w, h, Apply(index, before, WriteHolding(w, h)));
        }
      case OnLocks(a) =>
        if Commits(a) ==> FannedOut(index, before, a.w) {
          LocksStepIsAround(index, before, a);
          GuardKept(index, before, a, Apply(index, before, OnLocks(a)));
        }
    }
  }

  lemma GuardedIsNotBehind(index: set<Holding>, x: World)
    requires WorldInv(index, x) && GuardInv(x)
    ensures NoneBehind(x)
  {
    forall h | h in x.last ensures !Behind(x.base, h, x.last[h]) {
      if StampOf(h, x.last[h]) in x.stored {
        assert Lookup(x.base.applied, h.stock) == Some(x.last[h].request.Applied());
      } else {
        assert Ahead(x.base, h, x.last[h]);
      }
    }
  }

  /** A run that writes under its locks is timely. */
  lemma {:induction false} GuardedRunsAreTimely(index: set<Holding>, x: World, actions: seq<Action>)
    requires Initial(x) && GuardedRun(index, x, actions)
    ensures NeverBehind(index, x, actions) && TimelyRun(index, x, actions)
  {
    if actions != [] { GuardedRunsAreTimely(index, x, actions[..|actions| - 1]); }
    WorldReachable(index, x, actions);
    GuardReachable(index, x, actions);
    GuardedIsNotBehind(index, Exec(index, x, actions));
    NeverBehindIff(index, x, actions);
  }

  /** In such a run the version of a value is the applied one exactly when its writer has committed, and newer
      otherwise. */
  lemma GuardedValueIsAppliedIff(index: set<Holding>, x: World, actions: seq<Action>, r: World, h: Holding)
    requires Initial(x) && GuardedRun(index, x, actions) && r == Exec(index, x, actions) && h in r.last
    ensures StampOf(h, r.last[h]) in r.stored <==>
      h.stock in r.base.applied && r.base.applied[h.stock].Version() == r.last[h].request.EffectiveVersion()
    ensures StampOf(h, r.last[h]) !in r.stored ==> Ahead(r.base, h, r.last[h])
  {
    WorldReachable(index, x, actions);
    GuardReachable(index, x, actions);
  }

  /** A call of one request that has read and still has to write. */
  ghost predicate Reading(x: World, w: L.Worker, r: Request, token: L.Token, before: map<StockId, AppliedPrice>) {
    w in x.base.jobs && w !in x.committing
    && x.base.jobs[w] ==
      L.Job([r], map[r.stock := token], {r.stock}, {r.stock}, map[r.stock := Lookup(before, r.stock)], {})
  }

  /** What the calls of others, the stored states and the values look like afterwards: as before. */
  ghost predicate OthersAsBefore(x: World, y: World, w: L.Worker) {
    y.base.applied == x.base.applied && y.last == x.last
      && (forall v :: v in y.base.jobs && v != w <==> v in x.base.jobs && v != w)
    && (forall v :: v in x.base.jobs && v != w ==>
      y.base.jobs[v] == x.base.jobs[v] && (v in y.committing <==> v in x.committing))
  }

  lemma Begins(index: set<Holding>, x: World, w: L.Worker, r: Request, token: L.Token, y: World)
    requires w !in x.base.jobs && token !in x.base.used
    requires y == Apply(index, x, OnLocks(L.Begin(w, [r], map[r.stock := token])))
    ensures w in y.base.jobs && y.base.jobs[w] == L.Job([r], map[r.stock := token], {}, {}, map[], {})
    ensures w !in y.committing
    ensures OthersAsBefore(x, y, w) && y.base.locks == x.base.locks && token in y.base.used
    ensures y.base.used <= x.base.used + {token}
  {
    assert [r][0] in [r];
    assert L.Stocks([r]) == {r.stock} == map[r.stock := token].Keys;
  }

  lemma Locks(index: set<Holding>, x: World, w: L.Worker, r: Request, token: L.Token, y: World)
    requires w in x.base.jobs && x.base.jobs[w] == L.Job([r], map[r.stock := token], {}, {}, map[], {})
    requires r.stock !in x.base.locks
    requires y == Apply(index, x, OnLocks(L.SetNX(w, r.stock)))
    ensures w in y.base.jobs && y.base.jobs[w] == L.Job([r], map[r.stock := token], {r.stock}, {r.stock}, map[], {})
    ensures OthersAsBefore(x, y, w) && y.committing == x.committing && L.Holds(y.base.locks, r.stock, token)
    ensures y.base.used == x.base.used
  {}

  lemma Reads(index: set<Holding>, x: World, w: L.Worker, r: Request, token: L.Token, y: World)
    requires w in x.base.jobs && x.base.jobs[w] == L.Job([r], map[r.stock := token], {r.stock}, {r.stock}, map[], {})
    requires w !in x.committing
    requires y == Apply(index, x, OnLocks(L.Read(w, r.stock)))
    ensures Reading(y, w, r, token, x.base.applied) && OthersAsBefore(x, y, w)
    ensures y.base.locks == x.base.locks && y.base.used == x.base.used
  {}

  /** Begin, SETNX and read, with nobody in between. */
  ghost function Started(index: set<Holding>, x: World, w: L.Worker, r: Request, token: L.Token): World {
    var begun := Apply(index, x, OnLocks(L.Begin(w, [r], map[r.stock := token])));
    Apply(index, Apply(index, begun, OnLocks(L.SetNX(w, r.stock))), OnLocks(L.Read(w, r.stock)))
  }

  lemma Starts(index: set<Holding>, x: World, w: L.Worker, r: Request, token: L.Token, y: World)
    requires w !in x.base.jobs && token !in x.base.used && r.stock !in x.base.locks
    requires y == Started(index, x, w, r, token)
    ensures Reading(y, w, r, token, x.base.applied) && OthersAsBefore(x, y, w) && L.Holds(y.base.locks, r.stock, token)
    ensures y.base.used <= x.base.used + {token}
  {
    var begun := Apply(index, x, OnLocks(L.Begin(w, [r], map[r.stock := token])));
    var locked := Apply(index, begun, OnLocks(L.SetNX(w, r.stock)));
    Begins(index, x, w, r, token, begun);
    Locks(index, begun, w, r, token, locked);
    Reads(index, locked, w, r, token, y);
  }

  lemma AcceptsOne(j: L.Job, r: Request, token: L.Token, applied: Option<AppliedPrice>)
    requires j.requests == [r] && j.read == map[r.stock := applied] && j.tokens == map[r.stock := token]
    requires Judge(applied, r).Accepted?
    ensures L.AllRead(j) && Accepted(j, r.stock) == Some(r)
  {
    assert [r][0] in [r];
  }

  /** It writes the one holding of its stock and commits. */
  lemma WritesAndCommits(index: set<Holding>, x: World, w: L.Worker, r: Request, token: L.Token, h: Holding, y: World)
    requires Reading(x, w, r, token, x.base.applied) && L.Holds(x.base.locks, r.stock, token)
    requires Judge(Lookup(x.base.applied, r.stock), r).Accepted?
    requires h.stock == r.stock && h in index && forall g :: g in index && g.stock == r.stock ==> g == h
    requires y == Apply(index, Apply(index, x, WriteHolding(w, h)), OnLocks(L.Commit(w, r.stock)))
    ensures Lookup(y.base.applied, r.stock) == Some(r.Applied())
    ensures forall v :: v in x.base.jobs && v != w ==>
      v in y.base.jobs && y.base.jobs[v] == x.base.jobs[v] && (v in y.committing <==> v in x.committing)
  {
    var written := Apply(index, x, WriteHolding(w, h));
    AcceptsOne(x.base.jobs[w], r, token, Lookup(x.base.applied, r.stock));
    assert written.base == x.base && h in written.Wrote(w) && written.committing == x.committing;
    assert FannedOut(index, written, w);
    StepMovesApplied(written.base, L.Commit(w, r.stock), r.stock);
  }

  lemma LateWrite(index: set<Holding>, x: World, w: L.Worker, r: Request, token: L.Token, h: Holding,
                  before: map<StockId, AppliedPrice>, y: World)
    requires Reading(x, w, r, token, before) && Judge(Lookup(before, r.stock), r).Accepted? && h.stock == r.stock
    requires h in index
    requires y == Apply(index, x, WriteHolding(w, h))
    ensures h in y.last && y.last[h].request == r && y.base.applied == x.base.applied
  {
    AcceptsOne(x.base.jobs[w], r, token, Lookup(before, r.stock));
  }

  /** The lock expires; the call goes on with what it has read. */
  lemma Expires(index: set<Holding>, x: World, w: L.Worker, r: Request, token: L.Token,
                before: map<StockId, AppliedPrice>, y: World)
    requires Reading(x, w, r, token, before) && y == Apply(index, x, OnLocks(L.Expire(r.stock)))
    ensures Reading(y, w, r, token, before) && y.base.applied == x.base.applied && r.stock !in y.base.locks
    ensures y.base.jobs == x.base.jobs && y.base.used == x.base.used
  {}

  lemma TwoCallsReading(index: set<Holding>, x: World, older: Request, newer: Request, first: World, expired: World,
                        second: World)
    requires Initial(x) && older.stock == newer.stock && older.stock !in x.base.locks && x.base.used == {}
    requires first == Started(index, x, 1, older, 100) && expired == Apply(index, first, OnLocks(L.Expire(older.stock)))
    requires second == Started(index, expired, 2, newer, 200)
    ensures Reading(second, 1, older, 100, x.base.applied) && Reading(second, 2, newer, 200, x.base.applied)
    ensures L.Holds(second.base.locks, newer.stock, 200) && second.base.applied == x.base.applied
  {
    Starts(index, x, 1, older, 100, first);
    Expires(index, first, 1, older, 100, x.base.applied, expired);
    Starts(index, expired, 2, newer, 200, second);
  }

  /** Call 2 runs to its end, and call 1 goes on. */
  lemma LateWriteAfterCommit(x: World, older: Request, newer: Request, h: Holding, second: World, committed: World,
                             r: World)
    requires older.stock == newer.stock == h.stock && older.EffectiveVersion() < newer.EffectiveVersion()
    requires Judge(Lookup(x.base.applied, h.stock), older).Accepted?
    requires Reading(second, 1, older, 100, x.base.applied) && Reading(second, 2, newer, 200, second.base.applied)
    requires L.Holds(second.base.locks, newer.stock, 200) && second.base.applied == x.base.applied
    requires committed == Apply({h}, Apply({h}, second, WriteHolding(2, h)), OnLocks(L.Commit(2, h.stock)))
    requires r == Apply({h}, committed, WriteHolding(1, h))
    ensures Lookup(r.base.applied, h.stock) == Some(newer.Applied())
    ensures h in r.last && r.last[h].request == older
  {
    WritesAndCommits({h}, second, 2, newer, 200, h, committed);
    LateWrite({h}, committed, 1, older, 100, h, x.base.applied, r);
  }

  /** Without the guard: call 1 reads, its lock expires, call 2 handles a newer tick from start to commit, and then
      call 1 writes. The applied state is the newer tick's and the value of the holding the older one's. */
  lemma LateWriteFallsBehind(x: World, older: Request, newer: Request, h: Holding,
                             first: World, expired: World, second: World, committed: World, r: World)
    requires Initial(x) && x.base.locks == map[] && x.base.used == {}
    requires older.stock == newer.stock == h.stock && older.EffectiveVersion() < newer.EffectiveVersion()
    requires Judge(Lookup(x.base.applied, h.stock), older).Accepted?
    requires first == Started({h}, x, 1, older, 100) && expired == Apply({h}, first, OnLocks(L.Expire(h.stock)))
    requires second == Started({h}, expired, 2, newer, 200)
    requires committed == Apply({h}, Apply({h}, second, WriteHolding(2, h)), OnLocks(L.Commit(2, h.stock)))
    requires r == Apply({h}, committed, WriteHolding(1, h))
    ensures Lookup(r.base.applied, h.stock) == Some(newer.Applied())
    ensures h in r.last && r.last[h].request == older && Behind(r.base, h, r.last[h])
  {
    TwoCallsReading({h}, x, older, newer, first, expired, second);
    LateWriteAfterCommit(x, older, newer, h, second, committed, r);
  }
}
