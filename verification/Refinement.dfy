/** An invocation of the service under interference by other workers is a run of the system of all workers. */
module Refinement {
  import opened Domain
  import opened RedisDb
  import opened TradeHandler
  import opened Ledger
  import opened TradeSystem

  ghost predicate ByOthers(w: Worker, actions: seq<Action>) {
    forall k :: 0 <= k < |actions| ==> actions[k].w != w
  }

  /** What the others do before one call of w, and whether the call's answer gets lost. */
  datatype Turn = Turn(others: seq<Action>, lost: bool)

  predicate Running(s: System, w: Worker) {
    w in s.jobs && !s.jobs[w].frame.Done? && !s.jobs[w].frame.GaveUp?
  }

  /** A lost answer ends the invocation, unless the code does not notice. */
  predicate Ends(s: System, w: Worker, turn: Turn)
    requires w in s.jobs
  {
    turn.lost && !Swallows(s.jobs[w].frame)
  }

  function Played(w: Worker, turn: Turn): seq<Action> {
    turn.others + [if turn.lost then Blind(w) else Advance(w)]
  }

  /** w's calls woven between what the others do before each of them. */
  function Weave(ev: Trades, s: System, w: Worker, turns: seq<Turn>): seq<Action>
    decreases |turns|
  {
    if turns == [] || !Running(s, w) then []
    else if Ends(s, w, turns[0]) then turns[0].others
    else Played(w, turns[0]) + Weave(ev, Exec(ev, s, Played(w, turns[0])), w, turns[1..])
  }

  /** The same interference as w's calls see it: a state for each call. */
  function Calls(ev: Trades, s: System, w: Worker, turns: seq<Turn>): seq<Call>
    decreases |turns|
  {
    if turns == [] || !Running(s, w) then []
    else
      var met := Exec(ev, s, turns[0].others).db;
      [Call(_ => met, turns[0].lost)] + if Ends(s, w, turns[0]) then []
        else Calls(ev, Exec(ev, s, Played(w, turns[0])), w, turns[1..])
  }

  lemma {:induction false} ExecConcat(ev: Trades, s: System, first: seq<Action>, second: seq<Action>)
    ensures Exec(ev, s, first + second) == Exec(ev, Exec(ev, s, first), second)
  {
    if second == [] {
      assert first + second == first;
    } else {
      assert (first + second)[..|first + second| - 1] == first + second[..|second| - 1];
      ExecConcat(ev, s, first, second[..|second| - 1]);
    }
  }

  lemma {:induction false} OthersLeaveJobAlone(ev: Trades, s: System, w: Worker, actions: seq<Action>)
    requires w in s.jobs && ByOthers(w, actions)
    ensures w in Exec(ev, s, actions).jobs && Exec(ev, s, actions).jobs[w] == s.jobs[w]
  {
    if actions != [] {
      OthersLeaveJobAlone(ev, s, w, actions[..|actions| - 1]);
      assert actions[|actions| - 1].w != w;
    }
  }

  /** One call of w after the others' actions. */
  lemma CallAdvances(ev: Trades, s: System, w: Worker, turn: Turn)
    requires w in s.jobs && s.jobs[w].id in ev && ByOthers(w, turn.others) && !Ends(s, w, turn)
    ensures var Job(id, f) := s.jobs[w];
      var met, after := Exec(ev, s, turn.others).db, Exec(ev, s, Played(w, turn));
      && after.db == (if turn.lost then met else Effect(met, id, ev[id], f))
      && w in after.jobs && after.jobs[w] == Job(id, if turn.lost then NextBlind(f) else Next(met, id, ev[id], f))
  {
    OthersLeaveJobAlone(ev, s, w, turn.others);
    assert Played(w, turn)[..|turn.others|] == turn.others;
  }

  lemma {:induction false} InvocationIsARun(ev: Trades, s: System, w: Worker, turns: seq<Turn>)
    requires w in s.jobs && s.jobs[w].id in ev
    requires forall k :: 0 <= k < |turns| ==> ByOthers(w, turns[k].others)
    ensures var Job(id, f) := s.jobs[w];
      var after := Exec(ev, s, Weave(ev, s, w, turns));
      w in after.jobs && Run(s.db, id, ev[id], f, Calls(ev, s, w, turns)) == (after.db, after.jobs[w].frame)
    decreases |turns|
  {
    if turns != [] && Running(s, w) {
      var Job(id, f) := s.jobs[w];
      var met := Exec(ev, s, turns[0].others).db;
      if Ends(s, w, turns[0]) {
        OthersLeaveJobAlone(ev, s, w, turns[0].others);
      } else {
        var mid := Exec(ev, s, Played(w, turns[0]));
        CallAdvances(ev, s, w, turns[0]);
        InvocationIsARun(ev, mid, w, turns[1..]);
        ExecConcat(ev, s, Played(w, turns[0]), Weave(ev, mid, w, turns[1..]));
        RunFirstCall(s.db, id, ev[id], f, Call(_ => met, turns[0].lost), Calls(ev, mid, w, turns[1..]));
      }
    }
  }

  lemma RunFirstCall(db: Db, id: TradeId, t: Trade, f: Frame, first: Call, rest: seq<Call>)
    requires !f.Done? && !f.GaveUp? && (first.lost ==> Swallows(f))
    ensures var met := first.others(db);
      Run(db, id, t, f, [first] + rest) ==
        if first.lost then Run(met, id, t, NextBlind(f), rest)
          else Run(Effect(met, id, t, f), id, t, Next(met, id, t, f), rest)
  {
    assert ([first] + rest)[1..] == rest;
  }
}
