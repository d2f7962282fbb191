/** The pipelines of the lock set as runs of the lock machine: each command is one action of the call's worker, so what
    PriceLock proves of every interleaving holds with any other workers' actions between them. */
module PriceLockRuns {
  import opened Domain
  import opened PriceTicks
  import L = PriceLock
  import opened PriceLockSet

  lemma ExecSnoc(y: L.System, actions: seq<L.Action>, a: L.Action)
    ensures L.Exec(y, actions + [a]) == L.Apply(L.Exec(y, actions), a)
  {
    assert (actions + [a])[..|actions|] == actions;
  }

  // ---- acquiring -------------------------------------------------------------------------------

  function SetActions(w: L.Worker, ids: seq<StockId>, setting: StockId -> Delivery): seq<L.Action> {
    if ids == [] then []
    else
      var rest, s := SetActions(w, ids[..|ids| - 1], setting), ids[|ids| - 1];
      match setting(s)
      case Answered => rest + [L.SetNX(w, s)]
      case Unanswered => rest + [L.SetNXUnanswered(w, s)]
      case NotSent => rest
  }

  /** A lock is set where it was free and the command was sent. */
  function SetAt(locks: map<StockId, L.Token>, tokens: map<StockId, L.Token>, ids: seq<StockId>,
                 setting: StockId -> Delivery, s: StockId): Option<L.Token> {
    if s in ids && s in tokens && s !in locks && !setting(s).NotSent? then Some(tokens[s]) else Lookup(locks, s)
  }

  /** The stocks whose SETNX answered yes. */
  function Won(locks: map<StockId, L.Token>, ids: seq<StockId>, setting: StockId -> Delivery): set<StockId> {
    set s | s in ids && s !in locks && setting(s).Answered?
  }

  /** One SETNX that is sent. */
  lemma SetStep(y: L.System, w: L.Worker, s: StockId, answered: bool, r: L.System)
    requires L.MaySetNX(y, w, s) && r == L.Apply(y, if answered then L.SetNX(w, s) else L.SetNXUnanswered(w, s))
    ensures r.applied == y.applied && w in r.jobs && r.jobs[w].tokens == y.jobs[w].tokens
    ensures r.jobs[w].tried == y.jobs[w].tried + {s}
    ensures r.jobs[w].held == if answered && s !in y.locks then y.jobs[w].held + {s} else y.jobs[w].held
    ensures r.locks == if s in y.locks then y.locks else y.locks[s := y.jobs[w].tokens[s]]
  {}

  /** What the first commands of the pipeline have done. */
  ghost predicate SoFar(y: L.System, w: L.Worker, ids: seq<StockId>, setting: StockId -> Delivery, r: L.System)
    requires w in y.jobs
  {
    && (forall s :: Lookup(r.locks, s) == SetAt(y.locks, y.jobs[w].tokens, ids, setting, s))
    && r.applied == y.applied && w in r.jobs && r.jobs[w].tokens == y.jobs[w].tokens
    && r.jobs[w].held == y.jobs[w].held + Won(y.locks, ids, setting)
    && (forall s :: s in r.jobs[w].tried ==> s in y.jobs[w].tried || s in ids)
  }

  lemma OneMoreSet(y: L.System, w: L.Worker, rest: seq<StockId>, s: StockId, setting: StockId -> Delivery,
                   mid: L.System, r: L.System)
    requires w in y.jobs && SoFar(y, w, rest, setting, mid) && s !in rest && s in y.jobs[w].tokens
    requires s !in y.jobs[w].tried
    requires r == match setting(s)
                  case Answered => L.Apply(mid, L.SetNX(w, s))
                  case Unanswered => L.Apply(mid, L.SetNXUnanswered(w, s))
                  case NotSent => mid
    ensures SoFar(y, w, rest + [s], setting, r)
  {
    assert s in mid.locks <==> s in y.locks by {
      assert Lookup(mid.locks, s) == Lookup(y.locks, s);
    }
    assert forall x :: x in rest + [s] <==> x in rest || x == s;
    if !setting(s).NotSent? { SetStep(mid, w, s, setting(s).Answered?, r); }
    forall x ensures Lookup(r.locks, x) == SetAt(y.locks, y.jobs[w].tokens, rest + [s], setting, x) {
      assert Lookup(mid.locks, x) == SetAt(y.locks, y.jobs[w].tokens, rest, setting, x);
    }
    assert Won(y.locks, rest + [s], setting) ==
      Won(y.locks, rest, setting) + if s !in y.locks && setting(s).Answered? then {s} else {};
  }

  lemma {:induction false} SetsLocks(y: L.System, w: L.Worker, ids: seq<StockId>, setting: StockId -> Delivery)
    requires w in y.jobs && Increasing(ids)
    requires forall i :: 0 <= i < |ids| ==> ids[i] in y.jobs[w].tokens && ids[i] !in y.jobs[w].tried
    ensures SoFar(y, w, ids, setting, L.Exec(y, SetActions(w, ids, setting)))
  {
    if ids != [] {
      var rest, s := ids[..|ids| - 1], ids[|ids| - 1];
      SetsLocks(y, w, rest, setting);
      var sofar := SetActions(w, rest, setting);
      ExecSnoc(y, sofar, L.SetNX(w, s));
      ExecSnoc(y, sofar, L.SetNXUnanswered(w, s));
      OneMoreSet(y, w, rest, s, setting, L.Exec(y, sofar), L.Exec(y, SetActions(w, ids, setting)));
      assert rest + [s] == ids;
    }
  }

  /** The pipeline of SETNX commands leaves the locks where the machine's actions do, and its answers are the locks
      won. */
  lemma SettingIsARun(y: L.System, w: L.Worker, ids: seq<StockId>, after: map<StockId, L.Token>, candidates: seq<Lease>,
                      replies: seq<Option<bool>>, setting: StockId -> Delivery)
    requires w in y.jobs && Increasing(ids) && LocksSet(y.locks, after, ids, candidates, replies, setting)
    requires forall i :: 0 <= i < |ids| ==>
      Lookup(y.jobs[w].tokens, ids[i]) == Some(candidates[i].token) && ids[i] !in y.jobs[w].tried
    ensures var r := L.Exec(y, SetActions(w, ids, setting));
      && r.locks == after && r.applied == y.applied && w in r.jobs
      && (forall i :: 0 <= i < |ids| && ids[i] !in y.jobs[w].held ==>
        (ids[i] in r.jobs[w].held <==> replies[i] == Some(true)))
  {
    forall i | 0 <= i < |ids| ensures ids[i] in y.jobs[w].tokens {
      assert Lookup(y.jobs[w].tokens, ids[i]).Some?;
    }
    SetsLocks(y, w, ids, setting);
    var r := L.Exec(y, SetActions(w, ids, setting));
    forall s ensures Lookup(after, s) == Lookup(r.locks, s) {
      if s in ids {
        var i :| 0 <= i < |ids| && ids[i] == s;
      }
    }
    SameMap(r.locks, after);
  }

  // ---- committing and releasing ------------------------------------------------------------------

  /** The lease carries the call's token, and byStock what the call has accepted. */
  ghost predicate LeasedTo(j: L.Job, leases: seq<Lease>) {
    forall k :: 0 <= k < |leases| ==> Lookup(j.tokens, leases[k].stock) == Some(leases[k].token)
  }

  ghost predicate AcceptedBy(j: L.Job, byStock: map<StockId, AppliedPrice>) {
    L.AllRead(j) && forall s :: s in j.tokens ==>
      Lookup(byStock, s) ==
        if L.Chosen(j.requests, j.read[s], s).Some? then Some(L.Chosen(j.requests, j.read[s], s).value.Applied())
          else None
  }

  function CommitActions(w: L.Worker, leases: seq<Lease>, byStock: map<StockId, AppliedPrice>,
                         committing: StockId -> Delivery): seq<L.Action> {
    if leases == [] then []
    else
      var rest, s := CommitActions(w, leases[..|leases| - 1], byStock, committing), leases[|leases| - 1].stock;
      if s !in byStock || committing(s).NotSent? then rest
      else if committing(s).Answered? then rest + [L.Commit(w, s)]
      else rest + [L.CommitUnanswered(w, s)]
  }

  /** The same call, with more stocks committed. */
  predicate SameCall(j: L.Job, j': L.Job) {
    j' == j.(committed := j'.committed)
  }

  lemma CommitStep(y: L.System, w: L.Worker, lease: Lease, byStock: map<StockId, AppliedPrice>, a: L.Action)
    requires w in y.jobs && Lookup(y.jobs[w].tokens, lease.stock) == Some(lease.token) && AcceptedBy(y.jobs[w], byStock)
    requires lease.stock in byStock
    requires a == L.Commit(w, lease.stock) || a == L.CommitUnanswered(w, lease.stock)
    ensures var r := L.Apply(y, a);
      && w in r.jobs && SameCall(y.jobs[w], r.jobs[w])
      && (if L.Holds(y.locks, lease.stock, lease.token) then
            r.locks == L.Unlock(y.locks, lease.stock, lease.token)
            && r.applied == y.applied[lease.stock := byStock[lease.stock]]
          else r.locks == y.locks && r.applied == y.applied)
  {
    assert lease.stock in y.jobs[w].tokens && y.jobs[w].tokens[lease.stock] == lease.token;
    assert Lookup(byStock, lease.stock) == Some(byStock[lease.stock]);
  }

  /** The pipeline of commit scripts is the machine's commits. */
  lemma {:induction false} CommittingIsARun(y: L.System, w: L.Worker, leases: seq<Lease>,
                                            byStock: map<StockId, AppliedPrice>, committing: StockId -> Delivery)
    requires w in y.jobs && LeasedTo(y.jobs[w], leases) && AcceptedBy(y.jobs[w], byStock)
    ensures var r := L.Exec(y, CommitActions(w, leases, byStock, committing));
      && w in r.jobs && SameCall(y.jobs[w], r.jobs[w])
      && (r.locks, r.applied) == CommitAll((y.locks, y.applied), leases, byStock, committing)
  {
    if leases != [] {
      var rest, lease := leases[..|leases| - 1], leases[|leases| - 1];
      CommittingIsARun(y, w, rest, byStock, committing);
      var sofar := CommitActions(w, rest, byStock, committing);
      var mid := L.Exec(y, sofar);
      if lease.stock in byStock && !committing(lease.stock).NotSent? {
        var a := if committing(lease.stock).Answered? then L.Commit(w, lease.stock)
          else L.CommitUnanswered(w, lease.stock);
        ExecSnoc(y, sofar, a);
        CommitStep(mid, w, lease, byStock, a);
      }
    }
  }

  function ReleaseActions(w: L.Worker, leases: seq<Lease>, releasing: StockId -> Delivery): seq<L.Action> {
    if leases == [] then []
    else
      var rest, s := ReleaseActions(w, leases[..|leases| - 1], releasing), leases[|leases| - 1].stock;
      if releasing(s).NotSent? then rest else rest + [L.Release(w, s)]
  }

  /** The pipeline of release scripts is the machine's releases. */
  lemma {:induction false} ReleasingIsARun(y: L.System, w: L.Worker, leases: seq<Lease>, releasing: StockId -> Delivery)
    requires w in y.jobs && LeasedTo(y.jobs[w], leases)
    ensures var r := L.Exec(y, ReleaseActions(w, leases, releasing));
      r.jobs == y.jobs && r.applied == y.applied && r.locks == ReleaseAll(y.locks, leases, releasing)
  {
    if leases != [] {
      var rest, lease := leases[..|leases| - 1], leases[|leases| - 1];
      ReleasingIsARun(y, w, rest, releasing);
      assert Lookup(y.jobs[w].tokens, lease.stock) == Some(lease.token);
      if !releasing(lease.stock).NotSent? {
        ExecSnoc(y, ReleaseActions(w, rest, releasing), L.Release(w, lease.stock));
      }
    }
  }

  // ---- one whole call ------------------------------------------------------------------------------

  /** A call for one request, before it has read, and after. */
  function OneJob(r: Request, token: L.Token, held: set<StockId>, read: map<StockId, Option<AppliedPrice>>): L.Job {
    L.Job([r], map[r.stock := token], held, held, read, {})
  }

  lemma OneCallBegins(y: L.System, w: L.Worker, r: Request, token: L.Token, z: L.System)
    requires w !in y.jobs && token !in y.used && z == L.Apply(y, L.Begin(w, [r], map[r.stock := token]))
    ensures z.jobs == y.jobs[w := OneJob(r, token, {}, map[])] && z.used == y.used + {token}
    ensures z.locks == y.locks && z.applied == y.applied && z.offered == y.offered + {r} && z.settled == y.settled
  {
    assert [r][0] in [r];
    assert L.Stocks([r]) == {r.stock} && (set q | q in [r]) == {r};
    assert map[r.stock := token].Values == {token};
  }

  /** The call has acquired the lock of its stock and read the applied state. */
  lemma OneCallReads(y: L.System, w: L.Worker, r: Request, token: L.Token, z: L.System)
    requires w in y.jobs && y.jobs[w] == OneJob(r, token, {}, map[]) && r.stock !in y.locks
    requires z == L.Apply(L.Apply(y, L.SetNX(w, r.stock)), L.Read(w, r.stock))
    ensures z.jobs == y.jobs[w := OneJob(r, token, {r.stock}, map[r.stock := Lookup(y.applied, r.stock)])]
    ensures z.locks == y.locks[r.stock := token] && z.applied == y.applied
    ensures z.offered == y.offered && z.settled == y.settled
  {
    assert {} + {r.stock} == {r.stock};
  }

  lemma ChosenAlone(r: Request, applied: Option<AppliedPrice>)
    ensures L.Chosen([r], applied, r.stock) == if Newer(r, applied) then Some(r) else None
  {
    AcceptedIsNewer(r, applied);
    assert [r][..0] == [];
  }

  /** A commit under the lock stores the tick and drops the lock; one without it stores nothing. */
  lemma OneCallCommits(y: L.System, w: L.Worker, r: Request, token: L.Token, read: Option<AppliedPrice>, z: L.System)
    requires w in y.jobs && y.jobs[w] == OneJob(r, token, {r.stock}, map[r.stock := read]) && Newer(r, read)
    requires z == L.Apply(y, L.Commit(w, r.stock))
    ensures z.offered == y.offered && z.settled == y.settled
    ensures Lookup(y.locks, r.stock) == Some(token) ==>
      && z.locks == y.locks - {r.stock} && z.applied == y.applied[r.stock := r.Applied()]
      && z.jobs == y.jobs[w := y.jobs[w].(committed := {r.stock})]
    ensures r.stock !in y.locks ==> z == y
  {
    ChosenAlone(r, read);
    assert {} + {r.stock} == {r.stock};
  }

  /** The call succeeds exactly when its tick is committed. */
  lemma OneCallSucceeds(y: L.System, w: L.Worker, r: Request, token: L.Token, read: Option<AppliedPrice>,
                        committed: set<StockId>, z: L.System)
    requires w in y.jobs && Newer(r, read)
    requires y.jobs[w] == OneJob(r, token, {r.stock}, map[r.stock := read]).(committed := committed)
    requires z == L.Apply(y, L.Succeed(w))
    ensures z.locks == y.locks && z.applied == y.applied && z.offered == y.offered
    ensures r.stock in committed ==> z.settled == y.settled + {r} && z.jobs == y.jobs - {w}
    ensures r.stock !in committed ==> z == y
  {
    ChosenAlone(r, read);
    assert (set q | q in [r]) == {r} by { assert [r][0] in [r]; }
  }

  lemma LockComesAndGoes(locks: map<StockId, L.Token>, s: StockId, token: L.Token)
    requires s !in locks
    ensures locks[s := token] - {s} == locks
  {}

  /** Undisturbed, a newer tick of a free stock is applied and settled, and its lock is gone. Where the lock expires
      before the commit, nothing is stored and the call does not succeed. */
  lemma OneCall(y: L.System, w: L.Worker, r: Request, token: L.Token, ready: L.System, z: L.System, late: L.System)
    requires w !in y.jobs && r.stock !in y.locks && token !in y.used && Newer(r, Lookup(y.applied, r.stock))
    requires ready == L.Apply(L.Apply(L.Apply(y, L.Begin(w, [r], map[r.stock := token])), L.SetNX(w, r.stock)),
                              L.Read(w, r.stock))
    requires z == L.Apply(L.Apply(ready, L.Commit(w, r.stock)), L.Succeed(w))
    requires late == L.Apply(L.Apply(L.Apply(ready, L.Expire(r.stock)), L.Commit(w, r.stock)), L.Succeed(w))
    ensures z.locks == y.locks && z.settled == y.settled + {r} && z.offered == y.offered + {r} && w !in z.jobs
    ensures r.stock in z.applied && HoldsTick(z.applied[r.stock], r)
    ensures forall s :: s != r.stock ==> Lookup(z.applied, s) == Lookup(y.applied, s)
    ensures late.locks == y.locks && late.applied == y.applied && late.settled == y.settled && w in late.jobs
  {
    var begun, read := L.Apply(y, L.Begin(w, [r], map[r.stock := token])), Lookup(y.applied, r.stock);
    OneCallBegins(y, w, r, token, begun);
    OneCallReads(begun, w, r, token, ready);
    OneCallCommits(ready, w, r, token, read, L.Apply(ready, L.Commit(w, r.stock)));
    OneCallSucceeds(L.Apply(ready, L.Commit(w, r.stock)), w, r, token, read, {r.stock}, z);
    CommitsWholeTick(r);
    LockComesAndGoes(y.locks, r.stock, token);
    var expired := L.Apply(ready, L.Expire(r.stock));
    OneCallCommits(expired, w, r, token, read, L.Apply(expired, L.Commit(w, r.stock)));
    OneCallSucceeds(L.Apply(expired, L.Commit(w, r.stock)), w, r, token, read, {}, late);
  }

  /** The lock of a worker that gives up keeps every other worker out until it expires. */
  lemma AbandonedLockBlocks(y: L.System, w: L.Worker, v: L.Worker, s: StockId, gone: L.System)
    requires w in y.jobs && s in y.locks && v != w && L.MaySetNX(y, v, s) && s !in y.jobs[v].held
    requires gone == L.Apply(y, L.GiveUp(w))
    ensures w !in gone.jobs && gone.locks == y.locks && gone.applied == y.applied
    ensures var tried := L.Apply(gone, L.SetNX(v, s)); s !in tried.jobs[v].held && tried.locks == y.locks
    ensures var taken := L.Apply(L.Apply(gone, L.Expire(s)), L.SetNX(v, s));
      s in taken.jobs[v].held && Lookup(taken.locks, s) == Some(y.jobs[v].tokens[s])
  {}
}
