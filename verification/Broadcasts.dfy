/** How a broadcast of the master runs when nobody else holds a semaphore: message by message,
    in any prescribed order, and what that does to what a line shows. */
module Broadcasts {
  import opened Options
  import opened PeerThreads
  import opened PeerThreadsProof

  // ------------------------------------------------------------------ runs

  lemma {:induction false} RunConcat(s: State, a: seq<Action>, b: seq<Action>)
    requires Legal(s, a) && Legal(After(s, a), b)
    ensures Legal(s, a + b) && After(s, a + b) == After(After(s, a), b)
    decreases |a|
  {
    if a == [] {
      assert a + b == b;
    } else {
      assert (a + b)[0] == a[0] && (a + b)[1..] == a[1..] + b;
      RunConcat(Step(s, a[0]), a[1..], b);
    }
  }

  lemma RunOne(s: State, a: Action)
    requires Enabled(s, a)
    ensures Legal(s, [a]) && After(s, [a]) == Step(s, a)
  {
    assert [a][1..] == [];
    assert Legal(Step(s, a), []);
  }

  type Pair = (nat, nat)

  /** The pairs of source and target that thread `c` takes up in a run, in order. */
  function Picks(run: seq<Action>, c: nat): seq<Pair> {
    if run == [] then []
    else (if run[0].Pick? && run[0].conn == c then [(run[0].src, run[0].dst)] else []) + Picks(run[1..], c)
  }

  lemma {:induction false} PicksConcat(a: seq<Action>, b: seq<Action>, c: nat)
    ensures Picks(a + b, c) == Picks(a, c) + Picks(b, c)
  {
    if a == [] {
      assert a + b == b;
    } else {
      assert (a + b)[1..] == a[1..] + b;
      PicksConcat(a[1..], b, c);
    }
  }

  /** The sequence lists the set, each element once. */
  ghost predicate Lists(order: seq<Pair>, work: set<Pair>) {
    (forall w :: w in work <==> w in order) && NoneTwice(order)
  }

  ghost predicate NoneTwice(order: seq<Pair>) { forall i, j :: 0 <= i < j < |order| ==> order[i] != order[j] }

  lemma ListsRest(order: seq<Pair>, work: set<Pair>)
    requires Lists(order, work) && order != []
    ensures order[0] in work && order[0] !in order[1..] && Lists(order[1..], work - {order[0]})
  {
    assert forall i :: 1 <= i < |order| ==> order[i] in order[1..] && order[i] == order[1..][i - 1];
    forall w ensures w in work - {order[0]} <==> w in order[1..] {
      if w in order && w != order[0] {
        var i :| 0 <= i < |order| && order[i] == w;
      }
    }
  }

  lemma {:induction false} SomeOrder(work: set<Pair>) returns (order: seq<Pair>)
    ensures Lists(order, work)
    decreases |work|
  {
    if work == {} {
      order := [];
    } else {
      var w :| w in work;
      var rest := SomeOrder(work - {w});
      order := [w] + rest;
    }
  }

  // ------------------------------------------------------------------ sending

  /** No thread holds a semaphore. */
  ghost predicate Calm(s: State) { CalmBut(s, {}) }

  ghost predicate CalmBut(s: State, who: set<nat>) {
    forall d :: d in s.conns && d !in who ==>
      !s.conns[d].phase.Hold? && !s.conns[d].phase.Post? && !s.conns[d].phase.Telling?
  }

  ghost predicate Sending(s: State, c: nat) { c in s.conns && s.conns[c].phase.Send? && Calm(s) }

  /** Only the work of `c` and the contents of lines differ. */
  ghost predicate OnlySent(s: State, s': State, c: nat) {
    && s'.dd == s.dd && s'.conns.Keys == s.conns.Keys
    && (forall d :: d in s.conns ==> s'.conns[d].dev == s.conns[d].dev)
    && (forall d :: d in s.conns && d != c ==> s'.conns[d].phase == s.conns[d].phase)
    && c in s.conns && s.conns[c].phase.Send? && s'.conns[c].phase.Send?
    && s'.conns[c].phase.job == s.conns[c].phase.job.(work := s'.conns[c].phase.job.work)
  }

  lemma SomeLookup(s: State, dev: nat) returns (found: Option<nat>)
    ensures Finds(s, dev, found)
  {
    if c :| Listed(s, c) && s.conns[c].dev == dev {
      found := Some(c);
    } else {
      found := None;
    }
  }

  /** The state after `c` has dealt with pair `w`: a message to `u`, or none. */
  function Sent(s: State, c: nat, w: Pair, m: Option<(nat, Msg)>): State
    requires c in s.conns && s.conns[c].phase.Send? && (m.Some? ==> m.value.0 in s.conns)
  {
    var job := s.conns[c].phase.job;
    var s1 := Move(s, c, Send(job.(work := job.work - {w})));
    if m.Some? then Append(s1, m.value.0, m.value.1) else s1
  }

  /** A message of the job that gives the flag of `src` out of its copy. */
  predicate Carries(job: Job, src: nat, m: Msg) {
    !m.Del? && m.dev == src && src in job.copy && m.flag == job.copy[src] && (m.Add? <==> job.add)
  }

  /** A message for pair `w`. */
  predicate Bears(s: State, job: Job, w: Pair, m: (nat, Msg)) {
    Listed(s, m.0) && s.conns[m.0].dev == w.1 && Carries(job, w.0, m.1)
  }

  predicate Known(s: State, k: nat, who: nat) { k == PORT || (Listed(s, who) && s.conns[who].dev == k) }

  ghost predicate Reachable(s: State, k: nat) { exists who :: Known(s, k, who) }

  /** A step that neither changes a flag nor lists a peer. */
  predicate Plain(a: Action) { !a.SetFlag? && !a.Enlist? }

  /** All steps of the run are plain steps of thread `c`. */
  ghost predicate By(run: seq<Action>, c: nat) { forall i :: 0 <= i < |run| ==> run[i].conn == c && Plain(run[i]) }

  lemma ByConcat(a: seq<Action>, b: seq<Action>, c: nat)
    requires By(a, c) && By(b, c)
    ensures By(a + b, c)
  {
  }

  lemma OtherPicks(run: seq<Action>, c: nat, d: nat)
    requires d != c && By(run, c)
    ensures Picks(run, d) == []
    decreases |run|
  {
    if run != [] {
      assert run[0].conn == c;
      assert forall i :: 0 <= i < |run[1..]| ==> run[1..][i] == run[i + 1];
      OtherPicks(run[1..], c, d);
    }
  }

  /** The steps after the target's semaphore is asked for. */
  lemma LockPair(s: State, c: nat, src: nat, u: nat, job: Job) returns (run: seq<Action>, m: Option<Msg>)
    requires c in s.conns && s.conns[c].phase == Lock(src, u, job) && u in s.conns && src in job.copy
    requires CalmBut(s, {c})
    ensures Legal(s, run) && Picks(run, c) == [] && By(run, c)
    ensures m.Some? ==> Carries(job, src, m.value)
    ensures After(s, run) == if m.Some? then Append(Move(s, c, Send(job)), u, m.value) else Move(s, c, Send(job))
    ensures m.None? ==> src != PORT && forall d :: Listed(s, d) ==> s.conns[d].dev != src
  {
    RunOne(s, Take(c));
    run := [Take(c)];
    if !job.add {
      m := Some(FSet(src, job.copy[src]));
    } else if src == PORT {
      m := Some(Add(PORT, None, job.copy[src]));
    } else {
      var s1 := Step(s, Take(c));
      var r2;
      r2, m := HoldPair(s1, c, src, u, job);
      RunConcat(s, run, r2);
      PicksConcat(run, r2, c);
      ByConcat(run, r2, c);
      assert Move(s1, c, Send(job)) == Move(s, c, Send(job));
      assert forall d :: Listed(s, d) ==> Listed(s1, d) && s1.conns[d].dev == s.conns[d].dev;
      run := run + r2;
    }
  }

  lemma HoldPair(s: State, c: nat, src: nat, u: nat, job: Job) returns (run: seq<Action>, m: Option<Msg>)
    requires c in s.conns && s.conns[c].phase == Hold(src, u, job) && u in s.conns && src in job.copy && job.add
    requires CalmBut(s, {c})
    ensures Legal(s, run) && Picks(run, c) == [] && By(run, c)
    ensures m.Some? ==> Carries(job, src, m.value)
    ensures After(s, run) == if m.Some? then Append(Move(s, c, Send(job)), u, m.value) else Move(s, c, Send(job))
    ensures m.None? ==> forall d :: Listed(s, d) ==> s.conns[d].dev != src
  {
    var found := SomeLookup(s, src);
    RunOne(s, Look(c, found));
    run := [Look(c, found)];
    m := None;
    if found.Some? {
      var s1 := Step(s, Look(c, found));
      RunOne(s1, Emit(c));
      RunConcat(s, run, [Emit(c)]);
      assert Move(s1, c, Send(job)) == Move(s, c, Send(job));
      m := Some(Add(src, found, job.copy[src]));
      PicksConcat(run, [Emit(c)], c);
      run := run + [Emit(c)];
    }
  }

  /** Take up a pair: the state in which its target's semaphore is asked for, if it is listed. */
  lemma PickPair(s: State, c: nat, w: Pair) returns (run: seq<Action>, found: Option<nat>)
    requires Sending(s, c) && w in s.conns[c].phase.job.work
    ensures Legal(s, run) && Picks(run, c) == [w] && By(run, c) && Finds(s, w.1, found)
    ensures var job := s.conns[c].phase.job;
            var job' := job.(work := job.work - {w});
            After(s, run) == Move(s, c, if found.Some? then Lock(w.0, found.value, job') else Send(job'))
  {
    found := SomeLookup(s, w.1);
    var a := Pick(c, w.0, w.1, found);
    RunOne(s, a);
    run := [a];
    assert run[1..] == [];
  }

  /** Deal with one pair of the work list; its target and source, if listed, get through. */
  lemma SendPair(s: State, c: nat, w: Pair) returns (run: seq<Action>, m: Option<(nat, Msg)>)
    requires Sending(s, c) && GoodJob(s.conns[c].phase.job) && w in s.conns[c].phase.job.work
    ensures Legal(s, run) && Picks(run, c) == [w] && By(run, c)
    ensures m.Some? ==> Bears(s, s.conns[c].phase.job, w, m.value)
    ensures After(s, run) == Sent(s, c, w, m)
    ensures m.None? ==> !Reachable(s, w.0) || forall d :: Listed(s, d) ==> s.conns[d].dev != w.1
  {
    hide Legal, After, Picks, Step, Enabled;
    var job := s.conns[c].phase.job;
    var job' := job.(work := job.work - {w});
    var found;
    run, found := PickPair(s, c, w);
    m := None;
    if found.Some? {
      var s1 := After(s, run);
      assert forall d :: Listed(s, d) ==> Listed(s1, d) && s1.conns[d].dev == s.conns[d].dev;
      var r2, msg := LockPair(s1, c, w.0, found.value, job');
      RunConcat(s, run, r2);
      PicksConcat(run, r2, c);
      ByConcat(run, r2, c);
      assert Move(s1, c, Send(job')) == Move(s, c, Send(job'));
      if msg.Some? {
        m := Some((found.value, msg.value));
      }
      run := run + r2;
    }
  }

  // ------------------------------------------------------------------ what a line shows

  /** What `v` becomes when the flag `f` is sent, or not, by an announcement or an update. */
  predicate Effect(v: Option<set<nat>>, v': Option<set<nat>>, sent: bool, add: bool, f: nat) {
    && (!sent ==> v' == v)
    && (sent && (v.Some? || add) ==> v'.Some? && f in v'.value)
    && (v.Some? ==> v'.Some?)
    && (add && v.Some? ==> v'.Some? && v.value <= v'.value)
  }

  lemma EffectJoin(v: Option<set<nat>>, v1: Option<set<nat>>, v2: Option<set<nat>>,
                   sent1: bool, sent2: bool, add: bool, f: nat)
    requires Effect(v, v1, sent1, add, f) && Effect(v1, v2, sent2, add, f) && !(sent1 && sent2)
    ensures Effect(v, v2, sent1 || sent2, add, f)
  {
  }

  lemma EffectOf(line: seq<Msg>, m: Msg, k: nat)
    requires !m.Del?
    ensures Effect(Value(line, k), Value(line + [m], k), m.dev == k, m.Add?, m.flag)
  {
    assert (line + [m])[..|line + [m]| - 1] == line;
  }

  function CopyFlag(job: Job, k: nat): nat { if k in job.copy then job.copy[k] else 0 }

  lemma StaysReachable(s: State, s': State, k: nat)
    requires Reachable(s, k) && forall d :: Listed(s, d) ==> Listed(s', d) && s'.conns[d].dev == s.conns[d].dev
    ensures Reachable(s', k)
  {
    var who :| Known(s, k, who);
    assert Known(s', k, who);
  }

  /** What a thread's messages do to what line `t` shows about the reachable device `k`. */
  ghost predicate Shows1(s: State, s': State, job: Job, sent: bool, t: nat, k: nat) {
    Listed(s, t) && Reachable(s, k) ==>
      && Listed(s', t) && Reachable(s', k)
      && Effect(Value(s.conns[t].line, k), Value(s'.conns[t].line, k), sent, job.add, CopyFlag(job, k))
  }

  lemma SentShows(s: State, c: nat, w: Pair, m: Option<(nat, Msg)>, t: nat, k: nat)
    requires OneLive(s) && Sending(s, c)
    requires m.Some? ==> Bears(s, s.conns[c].phase.job, w, m.value)
    requires m.None? ==> !Reachable(s, w.0) || forall d :: Listed(s, d) ==> s.conns[d].dev != w.1
    ensures t in s.conns ==> Shows1(s, Sent(s, c, w, m), s.conns[c].phase.job, w == (k, s.conns[t].dev), t, k)
  {
    if Listed(s, t) && Reachable(s, k) {
      StaysReachable(s, Sent(s, c, w, m), k);
      if m.Some? {
        EffectOf(s.conns[t].line, m.value.1, k);
        if s.conns[t].dev == w.1 {
          assert Live(s, t) && Live(s, m.value.0);
        }
      }
    }
  }

  lemma ShowsJoin(s: State, s1: State, s2: State, job: Job, a: bool, b: bool, t: nat, k: nat)
    requires Shows1(s, s1, job, a, t, k) && Shows1(s1, s2, job, b, t, k) && !(a && b)
    ensures Shows1(s, s2, job, a || b, t, k)
  {
    hide Reachable, Value, Effect;
    if Listed(s, t) && Reachable(s, k) {
      EffectJoin(Value(s.conns[t].line, k), Value(s1.conns[t].line, k), Value(s2.conns[t].line, k),
                 a, b, job.add, CopyFlag(job, k));
    }
  }

  // ------------------------------------------------------------------ a whole broadcast

  lemma SentOnly(s: State, c: nat, w: Pair, m: Option<(nat, Msg)>)
    requires Sending(s, c) && (m.Some? ==> m.value.0 in s.conns)
    ensures var s' := Sent(s, c, w, m);
            && OnlySent(s, s', c) && Sending(s', c)
            && s'.conns[c].phase.job.work == s.conns[c].phase.job.work - {w}
  {
  }

  /** A run of `c` alone that takes up these pairs, in this order. */
  ghost predicate Follows(s: State, run: seq<Action>, c: nat, order: seq<Pair>) {
    Legal(s, run) && Picks(run, c) == order && By(run, c)
  }

  lemma FollowsConcat(s: State, r1: seq<Action>, r2: seq<Action>, c: nat, o1: seq<Pair>, o2: seq<Pair>)
    requires Follows(s, r1, c, o1) && Follows(After(s, r1), r2, c, o2)
    ensures Follows(s, r1 + r2, c, o1 + o2) && After(s, r1 + r2) == After(After(s, r1), r2)
  {
    hide Legal, After, Picks, By;
    RunConcat(s, r1, r2);
    PicksConcat(r1, r2, c);
    ByConcat(r1, r2, c);
  }

  lemma LegalOf(s: State, run: seq<Action>, c: nat, order: seq<Pair>)
    requires Follows(s, run, c, order)
    ensures Legal(s, run) && Picks(run, c) == order && By(run, c)
  {
  }

  ghost predicate PairIn(s: State, order: seq<Pair>, t: nat, k: nat) { t in s.conns && (k, s.conns[t].dev) in order }

  /** What working off these pairs leaves behind. */
  ghost predicate Worked(s: State, s': State, c: nat, order: seq<Pair>, t: nat, k: nat) {
    && Inv(s') && Sending(s', c) && OnlySent(s, s', c)
    && Shows1(s, s', s.conns[c].phase.job, PairIn(s, order, t, k), t, k)
  }

  lemma DrainOne(s: State, c: nat, w: Pair, t: nat, k: nat) returns (run: seq<Action>)
    requires Inv(s) && Sending(s, c) && w in s.conns[c].phase.job.work
    ensures Follows(s, run, c, [w])
    ensures var s' := After(s, run);
            && Worked(s, s', c, [w], t, k) && Inv(s') && Sending(s', c)
            && s'.conns[c].phase.job.work == s.conns[c].phase.job.work - {w}
  {
    hide Inv, Legal, After, Picks, Value, Calm, Shows1;
    InvFacts(s, c);
    var m;
    run, m := SendPair(s, c, w);
    SentOnly(s, c, w, m);
    SentShows(s, c, w, m, t, k);
    RunKeeps(s, run);
    hide Sent, Bears, Reachable;
    if t !in s.conns {
      NotListed(s, After(s, run), s.conns[c].phase.job, t, k);
    }
  }

  lemma NotListed(s: State, s': State, job: Job, t: nat, k: nat)
    requires t !in s.conns
    ensures Shows1(s, s', job, false, t, k)
  {
  }

  lemma InvFacts(s: State, c: nat)
    requires Inv(s) && c in s.conns && s.conns[c].phase.Send?
    ensures OneLive(s) && GoodJob(s.conns[c].phase.job)
  {
    assert GoodPhase(s, c);
  }

  ghost predicate Drained(s: State, run: seq<Action>, c: nat, order: seq<Pair>, t: nat, k: nat) {
    Follows(s, run, c, order) && Worked(s, After(s, run), c, order, t, k) && After(s, run).conns[c].phase.job.work == {}
  }

  lemma NothingToDrain(s: State, c: nat, t: nat, k: nat)
    requires Inv(s) && Sending(s, c) && Lists([], s.conns[c].phase.job.work)
    ensures Drained(s, [], c, [], t, k)
  {
    hide Inv;
    assert Picks([], c) == [];
  }

  lemma WorkedJoin(s: State, s1: State, s2: State, c: nat, w: Pair, rest: seq<Pair>, t: nat, k: nat)
    requires w !in rest && Worked(s, s1, c, [w], t, k) && Worked(s1, s2, c, rest, t, k)
    ensures Worked(s, s2, c, [w] + rest, t, k)
  {
    hide Inv, Shows1, Calm;
    assert forall v :: v in [w] + rest <==> v == w || v in rest;
    ShowsJob(s1, s2, s1.conns[c].phase.job, s.conns[c].phase.job, PairIn(s1, rest, t, k), t, k);
    ShowsJoin(s, s1, s2, s.conns[c].phase.job, PairIn(s, [w], t, k), PairIn(s1, rest, t, k), t, k);
  }

  /** Only the kind and the copy of a job matter for what it says. */
  lemma ShowsJob(s: State, s': State, job: Job, job': Job, sent: bool, t: nat, k: nat)
    requires Shows1(s, s', job, sent, t, k) && job'.add == job.add && job'.copy == job.copy
    ensures Shows1(s, s', job', sent, t, k)
  {
  }

  lemma DrainMore(s: State, r1: seq<Action>, r2: seq<Action>, c: nat, w: Pair, rest: seq<Pair>, t: nat, k: nat)
    requires w !in rest && Follows(s, r1, c, [w]) && Worked(s, After(s, r1), c, [w], t, k)
    requires Drained(After(s, r1), r2, c, rest, t, k)
    ensures Drained(s, r1 + r2, c, [w] + rest, t, k)
  {
    var s1 := After(s, r1);
    var s2 := After(s1, r2);
    hide Follows, After, Worked;
    FollowsConcat(s, r1, r2, c, [w], rest);
    WorkedJoin(s, s1, s2, c, w, rest, t, k);
  }

  /** Work off a broadcast in the given order. */
  lemma {:induction false} Drain(s: State, c: nat, order: seq<Pair>, t: nat, k: nat) returns (run: seq<Action>)
    requires Inv(s) && Sending(s, c) && Lists(order, s.conns[c].phase.job.work)
    ensures Drained(s, run, c, order, t, k)
    decreases |order|
  {
    hide Drained, After, Worked, Inv, Calm;
    if order == [] {
      run := [];
      NothingToDrain(s, c, t, k);
    } else {
      ListsRest(order, s.conns[c].phase.job.work);
      var r1 := DrainOne(s, c, order[0], t, k);
      var r2 := Drain(After(s, r1), c, order[1..], t, k);
      DrainMore(s, r1, r2, c, order[0], order[1..], t, k);
      assert [order[0]] + order[1..] == order;
      run := r1 + r2;
    }
  }

  /** Everything but lines, and `c` at rest. */
  ghost predicate CameToRest(s: State, s': State, c: nat) {
    && s'.dd == s.dd && s'.conns.Keys == s.conns.Keys
    && (forall d :: d in s.conns ==> s'.conns[d].dev == s.conns[d].dev)
    && (forall d :: d in s.conns ==> s'.conns[d].phase == if d == c then Idle else s.conns[d].phase)
  }

  lemma EndJob(s: State, c: nat) returns (run: seq<Action>)
    requires Sending(s, c) && s.conns[c].phase.job.work == {}
    ensures Follows(s, run, c, []) && After(s, run) == Move(s, c, Idle)
  {
    RunOne(s, Finish(c));
    run := [Finish(c)];
    assert Picks(run, c) == [];
  }

  lemma RestAfter(s: State, s1: State, c: nat, order: seq<Pair>, t: nat, k: nat)
    requires Worked(s, s1, c, order, t, k)
    ensures CameToRest(s, Move(s1, c, Idle), c)
    ensures Shows1(s, Move(s1, c, Idle), s.conns[c].phase.job, PairIn(s, order, t, k), t, k)
  {
    hide Inv, Value, Effect;
    if Listed(s, t) && Reachable(s, k) {
      StaysReachable(s1, Move(s1, c, Idle), k);
    }
  }

  /** Work off a broadcast and come to rest. */
  lemma SendAll(s: State, c: nat, order: seq<Pair>, t: nat, k: nat) returns (run: seq<Action>)
    requires Inv(s) && Sending(s, c) && Lists(order, s.conns[c].phase.job.work)
    ensures Follows(s, run, c, order)
    ensures var s' := After(s, run);
            Inv(s') && CameToRest(s, s', c) && Shows1(s, s', s.conns[c].phase.job, PairIn(s, order, t, k), t, k)
  {
    var r1 := Drain(s, c, order, t, k);
    var s1 := After(s, r1);
    RestAfter(s, s1, c, order, t, k);
    hide Inv, Shows1, OnlySent, CameToRest, Lists, Calm;
    var r2 := EndJob(s1, c);
    FollowsConcat(s, r1, r2, c, order, []);
    RunKeeps(s1, r2);
    hide Follows, After;
    assert order + [] == order;
    run := r1 + r2;
  }

  // ------------------------------------------------------------------ finishing what was begun

  /** Past the pair that `c` has taken up: a message to its target, or none. */
  function Past(s: State, c: nat, m: Option<Msg>): State
    requires c in s.conns && (s.conns[c].phase.Lock? || s.conns[c].phase.Hold? || s.conns[c].phase.Post?)
    requires s.conns[c].phase.tgt in s.conns
  {
    var ph := s.conns[c].phase;
    if m.Some? then Append(Move(s, c, Send(ph.job)), ph.tgt, m.value) else Move(s, c, Send(ph.job))
  }

  predicate Taken(s: State, c: nat) {
    && c in s.conns && (s.conns[c].phase.Lock? || s.conns[c].phase.Hold? || s.conns[c].phase.Post?)
    && s.conns[c].phase.tgt in s.conns && s.conns[c].phase.src in s.conns[c].phase.job.copy
    && (s.conns[c].phase.Lock? || (s.conns[c].phase.job.add && s.conns[c].phase.src != PORT))
  }

  /** Get the pair that has been taken up out of the way. */
  lemma GetPast(s: State, c: nat) returns (run: seq<Action>, m: Option<Msg>)
    requires Taken(s, c) && CalmBut(s, {c})
    ensures Follows(s, run, c, []) && After(s, run) == Past(s, c, m)
    ensures var ph := s.conns[c].phase;
            m.Some? ==> Carries(ph.job, ph.src, m.value)
    ensures m.None? ==> !Reachable(s, s.conns[c].phase.src)
  {
    var ph := s.conns[c].phase;
    if ph.Lock? {
      run, m := LockPair(s, c, ph.src, ph.tgt, ph.job);
    } else if ph.Hold? {
      run, m := HoldPair(s, c, ph.src, ph.tgt, ph.job);
    } else {
      RunOne(s, Emit(c));
      run, m := [Emit(c)], Some(Add(ph.src, Some(ph.who), ph.job.copy[ph.src]));
      assert Picks(run, c) == [];
    }
  }

  lemma TakenFacts(s: State, c: nat)
    requires Inv(s) && c in s.conns && (s.conns[c].phase.Lock? || s.conns[c].phase.Hold? || s.conns[c].phase.Post?)
    ensures Taken(s, c)
  {
    assert GoodPhase(s, c);
  }

  lemma PastShows(s: State, c: nat, m: Option<Msg>, t: nat, k: nat)
    requires Taken(s, c)
    requires var ph := s.conns[c].phase;
             m.Some? ==> Carries(ph.job, ph.src, m.value)
    requires m.None? ==> !Reachable(s, s.conns[c].phase.src)
    ensures var ph := s.conns[c].phase;
            Shows1(s, Past(s, c, m), ph.job, ph.src == k && ph.tgt == t, t, k)
  {
    if Listed(s, t) && Reachable(s, k) {
      StaysReachable(s, Past(s, c, m), k);
      if m.Some? {
        EffectOf(s.conns[t].line, m.value, k);
      }
    }
  }

  /** Only `c` has moved on, to sending, with its job as it was. */
  ghost predicate OnlyPast(s: State, s': State, c: nat) {
    && s'.dd == s.dd && s'.conns.Keys == s.conns.Keys && c in s.conns
    && (forall d :: d in s.conns ==> s'.conns[d].dev == s.conns[d].dev)
    && (forall d :: d in s.conns && d != c ==> s'.conns[d].phase == s.conns[d].phase)
    && HasJob(s.conns[c].phase) && s'.conns[c].phase == Send(s.conns[c].phase.job)
  }

  /** The thread has taken up this very pair. */
  predicate AtPair(ph: Phase, k: nat, t: nat) { (ph.Lock? || ph.Hold? || ph.Post?) && ph.src == k && ph.tgt == t }

  lemma AfterPast(s: State, c: nat, m: Option<Msg>)
    requires Taken(s, c) && CalmBut(s, {c})
    ensures OnlyPast(s, Past(s, c, m), c) && Calm(Past(s, c, m))
  {
    hide Past;
    PastPhases(s, c, m);
  }

  lemma PastPhases(s: State, c: nat, m: Option<Msg>)
    requires Taken(s, c)
    ensures var s' := Past(s, c, m);
            && s'.dd == s.dd && s'.conns.Keys == s.conns.Keys
            && (forall d :: d in s.conns ==> s'.conns[d].dev == s.conns[d].dev)
            && (forall d :: d in s.conns ==>
                  s'.conns[d].phase == if d == c then Send(s.conns[c].phase.job) else s.conns[d].phase)
  {
  }

  /** Get past the pair taken up. */
  lemma PassPair(s: State, c: nat, t: nat, k: nat) returns (run: seq<Action>)
    requires Inv(s) && CalmBut(s, {c}) && c in s.conns && HasJob(s.conns[c].phase) && !s.conns[c].phase.Send?
    ensures Follows(s, run, c, [])
    ensures var s' := After(s, run);
            && Inv(s') && OnlyPast(s, s', c) && Calm(s')
            && Shows1(s, s', s.conns[c].phase.job, AtPair(s.conns[c].phase, k, t), t, k)
  {
    hide Inv, CalmBut, Calm, Legal, After, Picks, By, OnlyPast, Shows1, Reachable, Past;
    TakenFacts(s, c);
    var m;
    run, m := GetPast(s, c);
    RunKeeps(s, run);
    PastShows(s, c, m, t, k);
    AfterPast(s, c, m);
  }

  lemma NothingToPass(s: State, c: nat, t: nat, k: nat)
    requires CalmBut(s, {c}) && c in s.conns && (s.conns[c].phase.Send? || s.conns[c].phase.Lock?)
    ensures Follows(s, [], c, []) && After(s, []) == s && Calm(s)
    ensures Shows1(s, s, s.conns[c].phase.job, false, t, k)
    ensures s.conns[c].phase.Send? ==> OnlyPast(s, s, c)
  {
    assert Picks([], c) == [];
  }

  lemma GetToSend(s: State, c: nat, t: nat, k: nat) returns (run: seq<Action>)
    requires Inv(s) && CalmBut(s, {c}) && c in s.conns && HasJob(s.conns[c].phase)
    ensures Follows(s, run, c, [])
    ensures var s' := After(s, run);
            && Inv(s') && OnlyPast(s, s', c) && Calm(s')
            && Shows1(s, s', s.conns[c].phase.job, AtPair(s.conns[c].phase, k, t), t, k)
  {
    hide Inv, CalmBut, Calm, Follows, After, OnlyPast, Shows1;
    if s.conns[c].phase.Send? {
      run := [];
      NothingToPass(s, c, t, k);
    } else {
      run := PassPair(s, c, t, k);
    }
  }

  /** Line `t` will hear of `k` from this thread. */
  predicate WillSay(s: State, ph: Phase, k: nat, t: nat) {
    t in s.conns && HasJob(ph) && ((k, s.conns[t].dev) in ph.job.work || AtPair(ph, k, t))
  }

  /** What is left of a broadcast, whatever its order, ends with the flag of its copy at each
      line it was to tell; what a line shows is kept, and grows if only announcements come. */
  ghost predicate Delivered(s: State, s': State, c: nat, t: nat, k: nat)
    requires c in s.conns && HasJob(s.conns[c].phase)
  {
    var ph := s.conns[c].phase;
    Listed(s, t) && Reachable(s, k) ==>
      && Listed(s', t) && Reachable(s', k)
      && var v, v' := Value(s.conns[t].line, k), Value(s'.conns[t].line, k);
         && (WillSay(s, ph, k, t) && (v.Some? || ph.job.add) ==> v'.Some? && CopyFlag(ph.job, k) in v'.value)
         && (!WillSay(s, ph, k, t) ==> v' == v)
         && (v.Some? ==> v'.Some?) && (ph.job.add && v.Some? ==> v'.Some? && v.value <= v'.value)
  }

  lemma DeliveredJoin(s: State, s1: State, s2: State, c: nat, order: seq<Pair>, t: nat, k: nat)
    requires c in s.conns && HasJob(s.conns[c].phase) && OnlyPast(s, s1, c) && CameToRest(s1, s2, c)
    requires Lists(order, s.conns[c].phase.job.work)
    requires Shows1(s, s1, s.conns[c].phase.job, AtPair(s.conns[c].phase, k, t), t, k)
    requires Shows1(s1, s2, s.conns[c].phase.job, PairIn(s1, order, t, k), t, k)
    ensures Delivered(s, s2, c, t, k) && CameToRest(s, s2, c)
  {
    hide Value, Reachable, NoneTwice;
  }

  lemma ReadyToSend(s: State, s1: State, c: nat)
    requires OnlyPast(s, s1, c) && Calm(s1)
    ensures Sending(s1, c) && s1.conns[c].phase.job == s.conns[c].phase.job
  {
  }

  /** Work off all that is left of a broadcast, in the given order, and come to rest. */
  lemma FinishJob(s: State, c: nat, order: seq<Pair>, t: nat, k: nat) returns (run: seq<Action>)
    requires Inv(s) && CalmBut(s, {c}) && c in s.conns && HasJob(s.conns[c].phase)
    requires Lists(order, s.conns[c].phase.job.work)
    ensures Follows(s, run, c, order)
    ensures var s' := After(s, run); Inv(s') && CameToRest(s, s', c) && Delivered(s, s', c, t, k)
  {
    hide Inv, Follows, Legal, After, Shows1, Lists, Calm, CalmBut, OnlyPast, CameToRest, Delivered, Picks, By;
    var r1 := GetToSend(s, c, t, k);
    LegalOf(s, r1, c, []);
    var s1 := After(s, r1);
    ReadyToSend(s, s1, c);
    var r2 := SendAll(s1, c, order, t, k);
    LegalOf(s1, r2, c, order);
    var s2 := After(s1, r2);
    FollowsConcat(s, r1, r2, c, [], order);
    DeliveredJoin(s, s1, s2, c, order, t, k);
    assert [] + order == order;
    run := r1 + r2;
  }
}
