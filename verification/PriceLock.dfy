/** The lease locks on stock prices: any number of workers, one Redis command at a time, locks that may expire at
    any moment, workers that may crash or give up anywhere. Refreshing a lock only delays its expiry, so it is no
    step here: nothing proved below relies on it. */
module PriceLock {
  import opened Domain
  import opened PriceTicks

  type Worker = int
  type Token = int

  /** One call of the price service. tokens holds the token made for each stock, held the stocks whose SETNX
      answered yes, read the applied states fetched, committed the stocks whose commit script answered 1. */
  datatype Job = Job(
    requests: seq<Request>, tokens: map<StockId, Token>, tried: set<StockId>, held: set<StockId>,
    read: map<StockId, Option<AppliedPrice>>, committed: set<StockId>)

  /** offered records every request a call was made for, settled those of the calls that succeeded. */
  datatype System = System(
    locks: map<StockId, Token>, applied: map<StockId, AppliedPrice>, jobs: map<Worker, Job>,
    used: set<Token>, offered: set<Request>, settled: set<Request>)

  datatype Action =
    | Begin(w: Worker, requests: seq<Request>, tokens: map<StockId, Token>)
    | SetNX(w: Worker, s: StockId)
    | SetNXUnanswered(w: Worker, s: StockId)
    | Read(w: Worker, s: StockId)
    | Commit(w: Worker, s: StockId)
    | CommitUnanswered(w: Worker, s: StockId)
    | Release(w: Worker, s: StockId)
    | Succeed(w: Worker)
    | GiveUp(w: Worker)
    | Expire(s: StockId)

  function Stocks(requests: seq<Request>): set<StockId> {
    set r | r in requests :: r.stock
  }

  /** The handler makes one request per stock; module Coalescing shows that it does. */
  ghost predicate OnePerStock(requests: seq<Request>) {
    forall i, j :: 0 <= i < j < |requests| ==> requests[i].stock != requests[j].stock
  }

  // ---- the three scripts on one lock -------------------------------------------------------

  function TryLock(locks: map<StockId, Token>, s: StockId, token: Token): map<StockId, Token> {
    if s in locks then locks else locks[s := token]
  }

  predicate Holds(locks: map<StockId, Token>, s: StockId, token: Token) {
    s in locks && locks[s] == token
  }

  function Unlock(locks: map<StockId, Token>, s: StockId, token: Token): map<StockId, Token> {
    if Holds(locks, s, token) then locks - {s} else locks
  }

  // ---- the machine -------------------------------------------------------------------------

  /** The request a commit of s would store: the last one the filter accepts. */
  function Chosen(requests: seq<Request>, applied: Option<AppliedPrice>, s: StockId): (r: Option<Request>)
    ensures r.Some? ==> r.value in requests && r.value.stock == s && Judge(applied, r.value).Accepted?
    ensures r.None? ==> forall q :: q in requests && q.stock == s ==> !Judge(applied, q).Accepted?
  {
    if requests == [] then None
    else
      var rest, last := requests[..|requests| - 1], requests[|requests| - 1];
      assert requests == rest + [last];
      if last.stock == s && Judge(applied, last).Accepted? then Some(last) else Chosen(rest, applied, s)
  }

  predicate AllRead(j: Job) {
    j.tokens.Keys <= j.read.Keys
  }

  /** Every request is skipped by the filter or its stock is committed. */
  predicate AllCommitted(j: Job) {
    AllRead(j) && forall s | s in j.tokens :: Chosen(j.requests, j.read[s], s).Some? ==> s in j.committed
  }

  predicate Fresh(y: System, tokens: map<StockId, Token>) {
    forall s | s in tokens :: tokens[s] !in y.used
  }

  function WithJob(y: System, w: Worker, j: Job): System {
    y.(jobs := y.jobs[w := j])
  }

  /** The commit script of s for w: stores the accepted request and drops the lock, if the lock is still w's. */
  function CommitScript(y: System, j: Job, s: StockId): System
    requires s in j.tokens && s in j.read
  {
    var chosen := Chosen(j.requests, j.read[s], s);
    if chosen.Some? && Holds(y.locks, s, j.tokens[s]) then
      y.(applied := y.applied[s := chosen.value.Applied()], locks := Unlock(y.locks, s, j.tokens[s]))
    else y
  }

  predicate MaySetNX(y: System, w: Worker, s: StockId) {
    w in y.jobs && s in y.jobs[w].tokens && s !in y.jobs[w].tried
  }

  predicate MayCommit(y: System, w: Worker, s: StockId) {
    w in y.jobs && s in y.jobs[w].tokens && AllRead(y.jobs[w])
  }

  function Apply(y: System, a: Action): System {
    match a
    case Begin(w, requests, tokens) =>
      if w in y.jobs || tokens.Keys != Stocks(requests) || !Fresh(y, tokens) then y
      else
        WithJob(y, w, Job(requests, tokens, {}, {}, map[], {}))
          .(used := y.used + tokens.Values, offered := y.offered + (set r | r in requests))
    case SetNX(w, s) =>
      if !MaySetNX(y, w, s) then y
      else
        var j := y.jobs[w];
        WithJob(y, w, j.(tried := j.tried + {s}, held := if s in y.locks then j.held else j.held + {s}))
          .(locks := TryLock(y.locks, s, j.tokens[s]))
    case SetNXUnanswered(w, s) =>
      if !MaySetNX(y, w, s) then y
      else
        var j := y.jobs[w];
        WithJob(y, w, j.(tried := j.tried + {s})).(locks := TryLock(y.locks, s, j.tokens[s]))
    case Read(w, s) =>
      if w !in y.jobs || s !in y.jobs[w].tokens || s in y.jobs[w].read
        || !(y.jobs[w].tokens.Keys <= y.jobs[w].held) then y
      else WithJob(y, w, y.jobs[w].(read := y.jobs[w].read[s := Lookup(y.applied, s)]))
    case Commit(w, s) =>
      if !MayCommit(y, w, s) then y
      else
        var j, after := y.jobs[w], CommitScript(y, y.jobs[w], s);
        if Holds(y.locks, s, j.tokens[s]) then WithJob(after, w, j.(committed := j.committed + {s})) else after
    case CommitUnanswered(w, s) =>
      if !MayCommit(y, w, s) then y else CommitScript(y, y.jobs[w], s)
    case Release(w, s) =>
      if w !in y.jobs || s !in y.jobs[w].tokens then y else y.(locks := Unlock(y.locks, s, y.jobs[w].tokens[s]))
    case Succeed(w) =>
      if w !in y.jobs || !AllCommitted(y.jobs[w]) then y
      else y.(jobs := y.jobs - {w}, settled := y.settled + (set r | r in y.jobs[w].requests))
    case GiveUp(w) => y.(jobs := y.jobs - {w})
    case Expire(s) => y.(locks := y.locks - {s})
  }

  function Exec(y: System, actions: seq<Action>): System {
    if actions == [] then y
    else Apply(Exec(y, actions[..|actions| - 1]), actions[|actions| - 1])
  }

  /** Nothing is running; the applied states and leftover locks are arbitrary. */
  ghost predicate Initial(y: System) {
    y.jobs == map[] && y.locks.Values <= y.used && y.offered == {} && y.settled == {}
  }

  // ---- the key invariant -------------------------------------------------------------------

  ghost predicate TokensInv(y: System) {
    && y.locks.Values <= y.used
    && (forall w, s :: w in y.jobs && s in y.jobs[w].tokens ==> y.jobs[w].tokens[s] in y.used)
    && (forall v, w, s :: v in y.jobs && w in y.jobs && v != w && s in y.jobs[v].tokens && s in y.jobs[w].tokens ==>
          y.jobs[v].tokens[s] != y.jobs[w].tokens[s])
  }

  ghost predicate JobOk(y: System, j: Job) {
    && j.tokens.Keys == Stocks(j.requests) && j.held <= j.tried && j.committed <= j.read.Keys <= j.tokens.Keys
    && (forall s :: s in j.read ==> j.tokens.Keys <= j.held)
    && (forall r :: r in j.requests ==> r in y.offered)
  }

  /** While a lock still holds the token of the worker that has read, the applied state is the one it read. */
  ghost predicate LeaseInv(y: System) {
    forall w, s :: w in y.jobs && s in y.jobs[w].read && s in y.jobs[w].tokens ==>
      (Holds(y.locks, s, y.jobs[w].tokens[s]) ==> y.jobs[w].read[s] == Lookup(y.applied, s))
  }

  ghost predicate LockInv(y: System) {
    TokensInv(y) && LeaseInv(y) && forall w :: w in y.jobs ==> JobOk(y, y.jobs[w])
  }

  /** Which locks a step can set, and what it leaves of the running jobs. */
  ghost predicate LockStep(y: System, a: Action, y': System) {
    && y.used <= y'.used
    && (forall s :: s in y'.locks ==>
          || (s in y.locks && y'.locks[s] == y.locks[s])
          || ((a.SetNX? || a.SetNXUnanswered?) && MaySetNX(y, a.w, s) && a.s == s
            && y'.locks[s] == y.jobs[a.w].tokens[s]))
    && (forall w :: w in y'.jobs ==>
          || (w in y.jobs && y'.jobs[w].tokens == y.jobs[w].tokens)
          || (a.Begin? && w !in y.jobs && a.w == w && y'.jobs[w].tokens == a.tokens && Fresh(y, a.tokens)
            && a.tokens.Values <= y'.used))
  }

  lemma StepIsLockStep(y: System, a: Action)
    ensures LockStep(y, a, Apply(y, a))
  {}

  lemma TokensKept(y: System, a: Action, y': System)
    requires TokensInv(y) && LockStep(y, a, y')
    ensures TokensInv(y')
  {
    forall s | s in y'.locks ensures y'.locks[s] in y'.used {
      if s in y.locks && y'.locks[s] == y.locks[s] { assert y.locks[s] in y.locks.Values; }
    }
    forall w, s | w in y'.jobs && s in y'.jobs[w].tokens ensures y'.jobs[w].tokens[s] in y'.used {
      if w !in y.jobs || y'.jobs[w].tokens != y.jobs[w].tokens { assert a.tokens[s] in a.tokens.Values; }
    }
  }

  lemma JobsKept(y: System, a: Action, w: Worker)
    requires LockInv(y) && w in Apply(y, a).jobs
    ensures JobOk(Apply(y, a), Apply(y, a).jobs[w])
  {
    if a.Expire? || w != a.w || w !in y.jobs {
      OtherJobKept(y, a, w);
    } else {
      OwnJobKept(y, a);
    }
  }

  lemma OtherJobKept(y: System, a: Action, w: Worker)
    requires LockInv(y) && w in Apply(y, a).jobs && (a.Expire? || w != a.w || w !in y.jobs)
    ensures JobOk(Apply(y, a), Apply(y, a).jobs[w])
  {
    assert w in y.jobs ==> JobOk(y, y.jobs[w]);
  }

  lemma OwnJobKept(y: System, a: Action)
    requires !a.Expire? && a.w in y.jobs && JobOk(y, y.jobs[a.w]) && a.w in Apply(y, a).jobs
    ensures JobOk(Apply(y, a), Apply(y, a).jobs[a.w])
  {}

  /** What a step does to the applied states and to what jobs have read. */
  ghost predicate ReadStep(y: System, a: Action, y': System) {
    && (forall w, s :: w in y'.jobs && s in y'.jobs[w].read ==>
          || (w in y.jobs && y'.jobs[w].tokens == y.jobs[w].tokens && s in y.jobs[w].read
            && y'.jobs[w].read[s] == y.jobs[w].read[s])
          || y'.jobs[w].read[s] == Lookup(y'.applied, s))
    && (forall s :: Lookup(y'.applied, s) != Lookup(y.applied, s) ==> s !in y'.locks)
  }

  lemma StepKeepsReads(y: System, a: Action, w: Worker, s: StockId)
    requires w in Apply(y, a).jobs && s in Apply(y, a).jobs[w].read
    ensures var j' := Apply(y, a).jobs[w];
      || (w in y.jobs && j'.tokens == y.jobs[w].tokens && s in y.jobs[w].read && j'.read[s] == y.jobs[w].read[s])
      || j'.read[s] == Lookup(Apply(y, a).applied, s)
  {}

  lemma CommitDropsLock(y: System, a: Action, s: StockId)
    requires Lookup(Apply(y, a).applied, s) != Lookup(y.applied, s)
    ensures s !in Apply(y, a).locks
  {}

  lemma StepIsReadStep(y: System, a: Action, y': System)
    requires y' == Apply(y, a)
    ensures ReadStep(y, a, y')
  {
    forall w, s | w in y'.jobs && s in y'.jobs[w].read
      ensures || (w in y.jobs && y'.jobs[w].tokens == y.jobs[w].tokens && s in y.jobs[w].read
        && y'.jobs[w].read[s] == y.jobs[w].read[s])
              || y'.jobs[w].read[s] == Lookup(y'.applied, s)
    {
      StepKeepsReads(y, a, w, s);
    }
    forall s | Lookup(y'.applied, s) != Lookup(y.applied, s) ensures s !in y'.locks { CommitDropsLock(y, a, s); }
  }

  lemma LeaseKept(y: System, a: Action, y': System)
    requires LockInv(y) && LockStep(y, a, y') && ReadStep(y, a, y')
    ensures LeaseInv(y')
  {
    forall w, s | w in y'.jobs && s in y'.jobs[w].read && s in y'.jobs[w].tokens
      && Holds(y'.locks, s, y'.jobs[w].tokens[s])
      ensures y'.jobs[w].read[s] == Lookup(y'.applied, s)
    {
      if y'.jobs[w].read[s] != Lookup(y'.applied, s) {
        assert JobOk(y, y.jobs[w]);
        assert s in y.locks && y'.locks[s] == y.locks[s];
        assert Holds(y.locks, s, y.jobs[w].tokens[s]);
      }
    }
  }

  lemma LockInvKept(y: System, a: Action)
    requires LockInv(y)
    ensures LockInv(Apply(y, a))
  {
    StepIsLockStep(y, a);
    StepIsReadStep(y, a, Apply(y, a));
    TokensKept(y, a, Apply(y, a));
    LeaseKept(y, a, Apply(y, a));
    forall w | w in Apply(y, a).jobs ensures JobOk(Apply(y, a), Apply(y, a).jobs[w]) { JobsKept(y, a, w); }
  }

  // ---- versions only rise ------------------------------------------------------------------

  /** v is the whole state of one offered request that the filter accepts over the state v replaces. */
  ghost predicate AcceptedOver(y: System, s: StockId, v: AppliedPrice) {
    exists r :: r in y.offered && r.stock == s && HoldsTick(v, r) && Newer(r, Lookup(y.applied, s))
  }

  /** Every change of an applied state stores one request accepted over exactly the state it replaces. So price, time
      and version are never mixed, and the version rises at every commit. */
  lemma CommitsAreAccepted(y: System, a: Action, s: StockId)
    requires LockInv(y) && Lookup(Apply(y, a).applied, s) != Lookup(y.applied, s)
    ensures s in Apply(y, a).applied && AcceptedOver(y, s, Apply(y, a).applied[s])
    ensures s in y.applied ==> Apply(y, a).applied[s].Version() > y.applied[s].Version()
  {
    var j := y.jobs[a.w];
    assert JobOk(y, j) && Holds(y.locks, s, j.tokens[s]) && j.read[s] == Lookup(y.applied, s);
    var r := Chosen(j.requests, j.read[s], s).value;
    assert r in y.offered;
    CommitsWholeTick(r);
    AcceptedIsNewer(r, Lookup(y.applied, s));
  }

  lemma {:induction false} LockInvReachable(y: System, actions: seq<Action>)
    requires Initial(y)
    ensures LockInv(Exec(y, actions))
  {
    if actions != [] {
      LockInvReachable(y, actions[..|actions| - 1]);
      LockInvKept(Exec(y, actions[..|actions| - 1]), actions[|actions| - 1]);
    }
  }

  /** Where the applied states come from, seen from the states the run started with. */
  ghost predicate Origin(before: map<StockId, AppliedPrice>, y: System) {
    && (forall s :: s in before ==> s in y.applied)
    && (forall s :: s in y.applied ==> (s in before && y.applied[s] == before[s]) || FromOffer(before, y, s))
  }

  ghost predicate FromOffer(before: map<StockId, AppliedPrice>, y: System, s: StockId)
    requires s in y.applied
  {
    exists r :: r in y.offered && r.stock == s && HoldsTick(y.applied[s], r) && Newer(r, Lookup(before, s))
  }

  lemma OfferedGrows(y: System, a: Action)
    ensures y.offered <= Apply(y, a).offered
  {}

  lemma AppliedGrows(y: System, a: Action, s: StockId)
    ensures s in y.applied ==> s in Apply(y, a).applied
  {}

  /** What is newer than the present state is newer than the one it came from. */
  lemma NewerStill(before: map<StockId, AppliedPrice>, y: System, s: StockId, r: Request)
    requires Origin(before, y) && Newer(r, Lookup(y.applied, s))
    ensures Newer(r, Lookup(before, s))
  {
    if s in before && y.applied[s] != before[s] {
      assert FromOffer(before, y, s);
      VersionOfState(before[s]);
      VersionOfState(y.applied[s]);
    }
  }

  lemma OriginKept(before: map<StockId, AppliedPrice>, y: System, a: Action)
    requires LockInv(y) && Origin(before, y)
    ensures Origin(before, Apply(y, a))
  {
    var y' := Apply(y, a);
    OfferedGrows(y, a);
    forall s | s in before ensures s in y'.applied { AppliedGrows(y, a, s); }
    forall s | s in y'.applied ensures (s in before && y'.applied[s] == before[s]) || FromOffer(before, y', s) {
      if Lookup(y'.applied, s) != Lookup(y.applied, s) {
        CommitsAreAccepted(y, a, s);
        var r :| r in y.offered && r.stock == s && HoldsTick(y'.applied[s], r) && Newer(r, Lookup(y.applied, s));
        NewerStill(before, y, s, r);
        assert r in y'.offered;
      } else if s !in before || y.applied[s] != before[s] {
        assert FromOffer(before, y, s);
      }
    }
  }

  // ---- settled requests ----------------------------------------------------------------------

  predicate AtLeast(y: System, s: StockId, version: int) {
    s in y.applied && y.applied[s].Version() >= version
  }

  ghost predicate JobProgress(y: System, j: Job) {
    && OnePerStock(j.requests) && j.tokens.Keys == Stocks(j.requests)
    && (forall s :: s in j.read && j.read[s].Some? ==> AtLeast(y, s, j.read[s].value.Version()))
    && (forall s :: s in j.committed ==> s in j.read && (Chosen(j.requests, j.read[s], s).Some? ==>
          AtLeast(y, s, Chosen(j.requests, j.read[s], s).value.EffectiveVersion())))
  }

  ghost predicate SettledInv(y: System) {
    && (forall r :: r in y.settled ==> AtLeast(y, r.stock, r.EffectiveVersion()))
    && (forall w :: w in y.jobs ==> JobProgress(y, y.jobs[w]))
  }

  lemma AtLeastKept(y: System, a: Action, s: StockId, version: int)
    requires LockInv(y) && AtLeast(y, s, version)
    ensures AtLeast(Apply(y, a), s, version)
  {
    AppliedGrows(y, a, s);
    if Lookup(Apply(y, a).applied, s) != Lookup(y.applied, s) { CommitsAreAccepted(y, a, s); }
  }

  lemma ProgressKept(y: System, a: Action, j: Job)
    requires LockInv(y) && JobProgress(y, j)
    ensures JobProgress(Apply(y, a), j)
  {
    forall s | s in j.read && j.read[s].Some? ensures AtLeast(Apply(y, a), s, j.read[s].value.Version()) {
      AtLeastKept(y, a, s, j.read[s].value.Version());
    }
    forall s | s in j.committed && Chosen(j.requests, j.read[s], s).Some?
      ensures AtLeast(Apply(y, a), s, Chosen(j.requests, j.read[s], s).value.EffectiveVersion())
    {
      AtLeastKept(y, a, s, Chosen(j.requests, j.read[s], s).value.EffectiveVersion());
    }
  }

  /** A request whose stock was skipped or committed is not newer than what is applied. */
  lemma DoneJobIsSettled(y: System, j: Job, r: Request)
    requires JobProgress(y, j) && AllCommitted(j) && r in j.requests
    ensures AtLeast(y, r.stock, r.EffectiveVersion())
  {
    var s := r.stock;
    assert s in j.tokens && s in j.read;
    if Chosen(j.requests, j.read[s], s).Some? {
      assert Chosen(j.requests, j.read[s], s).value == r;
    }
  }

  /** How a step changes its own job: a lock tried, one state read, or one stock committed. */
  ghost predicate JobStep(y: System, a: Action, j: Job, j': Job) {
    && j'.requests == j.requests && j'.tokens == j.tokens
    && (|| (j'.read == j.read && j'.committed == j.committed)
        || (a.Read? && a.s !in j.read && j'.read == j.read[a.s := Lookup(y.applied, a.s)]
          && j'.committed == j.committed)
        || (a.Commit? && j'.read == j.read && j'.committed == j.committed + {a.s} && a.s in j.tokens && AllRead(j)
            && Holds(y.locks, a.s, j.tokens[a.s])))
  }

  lemma StepIsJobStep(y: System, a: Action)
    requires !a.Expire? && a.w in y.jobs && a.w in Apply(y, a).jobs
    ensures JobStep(y, a, y.jobs[a.w], Apply(y, a).jobs[a.w])
    ensures a.Read? ==> Apply(y, a).applied == y.applied
  {}

  lemma CommitReaches(y: System, a: Action)
    requires a.Commit? && MayCommit(y, a.w, a.s) && Holds(y.locks, a.s, y.jobs[a.w].tokens[a.s])
    ensures var chosen := Chosen(y.jobs[a.w].requests, y.jobs[a.w].read[a.s], a.s);
      chosen.Some? ==> Lookup(Apply(y, a).applied, a.s) == Some(chosen.value.Applied())
  {}

  lemma OwnProgress(y: System, a: Action, j: Job, j': Job, y': System)
    requires JobStep(y, a, j, j') && JobProgress(y', j) && j.committed <= j.read.Keys
    requires a.Read? ==> y'.applied == y.applied
    requires a.Commit? && AllRead(j) && a.s in j.tokens && Holds(y.locks, a.s, j.tokens[a.s]) ==>
      var chosen := Chosen(j.requests, j.read[a.s], a.s);
      chosen.Some? ==> Lookup(y'.applied, a.s) == Some(chosen.value.Applied())
    ensures JobProgress(y', j')
  {}

  lemma NewJobProgress(y: System, a: Action)
    requires a.Begin? && a.w !in y.jobs && a.w in Apply(y, a).jobs && OnePerStock(a.requests)
    ensures JobProgress(Apply(y, a), Apply(y, a).jobs[a.w])
  {}

  lemma OtherJobs(y: System, a: Action, w: Worker)
    requires w in Apply(y, a).jobs && (a.Expire? || w != a.w)
    ensures w in y.jobs && Apply(y, a).jobs[w] == y.jobs[w]
  {}

  lemma SettledKept(y: System, a: Action)
    requires LockInv(y) && SettledInv(y) && (a.Begin? ==> OnePerStock(a.requests))
    ensures SettledInv(Apply(y, a))
  {
    var y' := Apply(y, a);
    forall w | w in y'.jobs ensures JobProgress(y', y'.jobs[w]) {
      if a.Expire? || w != a.w {
        OtherJobs(y, a, w);
        ProgressKept(y, a, y.jobs[w]);
      } else if w in y.jobs {
        ProgressKept(y, a, y.jobs[w]);
        StepIsJobStep(y, a);
        if a.Commit? && MayCommit(y, w, a.s) && Holds(y.locks, a.s, y.jobs[w].tokens[a.s]) { CommitReaches(y, a); }
        OwnProgress(y, a, y.jobs[w], y'.jobs[w], y');
      } else {
        NewJobProgress(y, a);
      }
    }
    forall r | r in y'.settled ensures AtLeast(y', r.stock, r.EffectiveVersion()) {
      if r in y.settled {
        AtLeastKept(y, a, r.stock, r.EffectiveVersion());
      } else {
        DoneJobIsSettled(y, y.jobs[a.w], r);
      }
    }
  }

  // ---- convergence ---------------------------------------------------------------------------

  ghost predicate Coalesced(actions: seq<Action>) {
    forall k :: 0 <= k < |actions| && actions[k].Begin? ==> OnePerStock(actions[k].requests)
  }

  lemma {:induction false} HistoryReachable(y: System, actions: seq<Action>)
    requires Initial(y) && Coalesced(actions)
    ensures var r := Exec(y, actions); LockInv(r) && Origin(y.applied, r) && SettledInv(r)
  {
    if actions != [] {
      var rest, a := actions[..|actions| - 1], actions[|actions| - 1];
      assert a == actions[|actions| - 1];
      HistoryReachable(y, rest);
      LockInvKept(Exec(y, rest), a);
      OriginKept(y.applied, Exec(y, rest), a);
      SettledKept(Exec(y, rest), a);
    }
  }

  /** m is the newest tick of its stock: every other offered one has a smaller version. */
  ghost predicate Newest(offered: set<Request>, m: Request) {
    forall q :: q in offered && q.stock == m.stock && q != m ==> q.EffectiveVersion() < m.EffectiveVersion()
  }

  /** In whatever order, how often and through whichever consumer the ticks of a stock are delivered, once the newest
      of them has been processed successfully its state is the applied one, unless the state found in the beginning
      was already as new, and then that one stays. Later deliveries are more actions of the same run. */
  lemma NewestTickIsApplied(y: System, actions: seq<Action>, r: System, m: Request)
    requires Initial(y) && Coalesced(actions) && r == Exec(y, actions)
    requires m in r.settled && Newest(r.offered, m)
    ensures Lookup(r.applied, m.stock) ==
      if m.stock in y.applied && y.applied[m.stock].Version() >= m.EffectiveVersion() then Some(y.applied[m.stock])
        else Some(m.Applied())
    ensures m.stock in r.applied && (Newer(m, Lookup(y.applied, m.stock)) ==> HoldsTick(r.applied[m.stock], m))
  {
    HistoryReachable(y, actions);
    var s := m.stock;
    assert AtLeast(r, s, m.EffectiveVersion());
    CommitsWholeTick(m);
    AcceptedIsNewer(m, Lookup(y.applied, s));
    if s !in y.applied || r.applied[s] != y.applied[s] {
      var q :| q in r.offered && q.stock == s && HoldsTick(r.applied[s], q) && Newer(q, Lookup(y.applied, s));
      CommitsWholeTick(q);
      AcceptedIsNewer(q, Lookup(y.applied, s));
      VersionOfState(r.applied[s]);
      assert q == m;
      assert r.applied[s] == m.Applied();
    }
  }

  /** The service itself does not coalesce: two requests for one stock are both accepted, and the last one is stored
      even where the other is newer. */
  lemma LastOfTwoIsStored(s: StockId, older: Request, newer: Request)
    requires older.stock == newer.stock == s && older.EffectiveVersion() < newer.EffectiveVersion()
    ensures Judge(None, newer).Accepted? && Chosen([newer, older], None, s) == Some(older)
  {}
}
