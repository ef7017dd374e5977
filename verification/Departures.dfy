/** How a peer leaves: in whatever order the others are told, each of them is told once, and all
    threads come to rest without the peer and its device. */
module Departures {
  import opened Options
  import opened PeerThreads
  import opened PeerThreadsProof
  import opened Broadcasts

  /** The sequence lists the set, each element once. */
  ghost predicate InOrder(order: seq<nat>, todo: set<nat>) {
    (forall t :: t in todo <==> t in order) && forall i, j :: 0 <= i < j < |order| ==> order[i] != order[j]
  }

  lemma OrderRest(order: seq<nat>, todo: set<nat>)
    requires InOrder(order, todo) && order != []
    ensures order[0] in todo && order[0] !in order[1..] && InOrder(order[1..], todo - {order[0]})
  {
    assert forall i :: 1 <= i < |order| ==> order[i] in order[1..] && order[i] == order[1..][i - 1];
    forall t ensures t in todo - {order[0]} <==> t in order[1..] {
      if t in order && t != order[0] {
        var i :| 0 <= i < |order| && order[i] == t;
      }
    }
  }

  /** Connection `c` is telling these that it is gone, and nobody else holds a semaphore. */
  ghost predicate TellingThese(s: State, c: nat, todo: set<nat>) {
    && CalmBut(s, {c}) && c in s.conns && s.conns[c].phase == Telling(todo)
    && c !in todo && forall t :: t in todo ==> t in s.conns
  }

  /** These lines have gained the removal; otherwise only the phase of `c` differs. */
  ghost predicate ToldThese(s: State, s': State, c: nat, told: set<nat>) {
    && c in s.conns && s'.dd == s.dd && s'.conns.Keys == s.conns.Keys
    && (forall d :: d in s.conns ==> s'.conns[d].dev == s.conns[d].dev)
    && (forall d :: d in s.conns && d != c ==> s'.conns[d].phase == s.conns[d].phase)
    && (forall d :: d in s.conns ==>
          s'.conns[d].line == if d in told then s.conns[d].line + [Del(s.conns[c].dev, c)] else s.conns[d].line)
  }

  lemma TellFirst(s: State, c: nat, t: nat, todo: set<nat>)
    requires TellingThese(s, c, todo) && t in todo
    ensures Enabled(s, TellOne(c, t))
    ensures var s1 := Step(s, TellOne(c, t)); TellingThese(s1, c, todo - {t}) && ToldThese(s, s1, c, {t})
  {
  }

  lemma ToldJoin(s: State, s1: State, s2: State, c: nat, t: nat, todo: set<nat>)
    requires t in todo && ToldThese(s, s1, c, {t}) && ToldThese(s1, s2, c, todo - {t})
    ensures ToldThese(s, s2, c, todo)
  {
  }

  lemma {:induction false} TellAll(s: State, c: nat, order: seq<nat>, todo: set<nat>) returns (run: seq<Action>)
    requires TellingThese(s, c, todo) && InOrder(order, todo)
    ensures Legal(s, run) && ToldThese(s, After(s, run), c, todo) && TellingThese(After(s, run), c, {})
    decreases |order|
  {
    if order == [] {
      run := [];
      assert todo == {};
    } else {
      OrderRest(order, todo);
      var t := order[0];
      TellFirst(s, c, t, todo);
      var s1 := Step(s, TellOne(c, t));
      RunOne(s, TellOne(c, t));
      hide TellingThese, ToldThese, Step, Enabled, Legal, After, InOrder;
      var rest := TellAll(s1, c, order[1..], todo - {t});
      RunConcat(s, [TellOne(c, t)], rest);
      run := [TellOne(c, t)] + rest;
      ToldJoin(s, s1, After(s1, rest), c, t, todo);
    }
  }

  /** A connection that was listed has ended: its device is out of the directory, every other listed
      peer has been told once, and nothing else has changed. */
  ghost predicate Left(s: State, s': State, c: nat) {
    && c in s.conns && Quiet(s') && s'.dd == s.dd - {s.conns[c].dev} && s'.conns.Keys == s.conns.Keys
    && s'.conns[c] == s.conns[c].(phase := Gone)
    && (forall d :: d in s.conns && d != c ==>
          s'.conns[d] == if Listed(s, d) then s.conns[d].(line := s.conns[d].line + [Del(s.conns[c].dev, c)])
                         else s.conns[d])
  }

  /** Off the list, out of the directory, and about to tell the others. */
  ghost predicate Leaving(s: State, s1: State, c: nat) {
    && c in s.conns && s1.dd == s.dd - {s.conns[c].dev}
    && s1.conns == s.conns[c := s.conns[c].(phase := Telling(Peers(s) - {c}))]
  }

  lemma StartLeaving(s: State, c: nat) returns (run: seq<Action>)
    requires Quiet(s) && Listed(s, c)
    ensures Legal(s, run) && Leaving(s, After(s, run), c)
  {
    var a, b, d := Unlist(c), DropDir(c), StartTelling(c);
    RunOne(s, a);
    var s1 := Step(s, a);
    RunOne(s1, b);
    var s2 := Step(s1, b);
    RunOne(s2, d);
    var s3 := Step(s2, d);
    assert Peers(s2) == Peers(s) - {c};
    assert Leaving(s, s3, c);
    hide Leaving, Legal, After, Step, Enabled;
    RunConcat(s, [a], [b]);
    RunConcat(s, [a] + [b], [d]);
    run := [a] + [b] + [d];
  }

  lemma LeavingTells(s: State, s1: State, c: nat)
    requires Quiet(s) && Listed(s, c) && Leaving(s, s1, c)
    ensures TellingThese(s1, c, Peers(s) - {c})
  {
  }

  lemma LeftAtLast(s: State, s1: State, s2: State, c: nat)
    requires Quiet(s) && Listed(s, c) && Leaving(s, s1, c) && ToldThese(s1, s2, c, Peers(s) - {c})
    requires TellingThese(s2, c, {})
    ensures Enabled(s2, EndTelling(c)) && Left(s, Step(s2, EndTelling(c)), c)
  {
    var s3 := Step(s2, EndTelling(c));
    forall d | d in s.conns && d != c ensures
      s3.conns[d] == if Listed(s, d) then s.conns[d].(line := s.conns[d].line + [Del(s.conns[c].dev, c)]) else s.conns[d]
    {
      assert d in Peers(s) - {c} <==> Listed(s, d);
      assert s3.conns[d] == s2.conns[d];
    }
  }

  /** From every state at rest a listed peer can leave, the others being told in whatever order, and
      all threads come to rest again. */
  lemma Goodbye(s: State, c: nat, order: seq<nat>) returns (run: seq<Action>)
    requires Inv(s) && Quiet(s) && Listed(s, c) && InOrder(order, Peers(s) - {c})
    ensures Legal(s, run) && Inv(After(s, run)) && Left(s, After(s, run), c)
  {
    hide Inv, Legal, After, Leaving, TellingThese, ToldThese, Left, InOrder, Quiet, Peers;
    var r1 := StartLeaving(s, c);
    var s1 := After(s, r1);
    LeavingTells(s, s1, c);
    var r2 := TellAll(s1, c, order, Peers(s) - {c});
    var s2 := After(s1, r2);
    LeftAtLast(s, s1, s2, c);
    RunOne(s2, EndTelling(c));
    hide Step, Enabled;
    RunConcat(s1, r2, [EndTelling(c)]);
    RunConcat(s, r1, r2 + [EndTelling(c)]);
    run := r1 + (r2 + [EndTelling(c)]);
    RunKeeps(s, run);
  }
}
