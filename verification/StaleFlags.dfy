/** Membership survives every interleaving of the peer threads; flags do not, and the guard
    under which they do is exact.

    A broadcast sends the copy of the directory it took when it started.  If a flag changes, or
    a peer is listed, while a thread still has something wrong to send, it can arrive last.
    The runs shown here send the messages of each broadcast in any prescribed order, so they
    include the order of the directory. */
module StaleFlags {
  import opened Options
  import opened PeerThreads
  import opened PeerThreadsProof
  import opened Broadcasts
  import opened FlagAgreement

  // ------------------------------------------------------------------ two threads in turn

  /** No step of the run changes a flag or lists a peer. */
  ghost predicate Harmless(run: seq<Action>) { forall i :: 0 <= i < |run| ==> Plain(run[i]) }

  /** A harmless run in which `c` and `r` take up these pairs, in these orders. */
  ghost predicate Weaves(s: State, run: seq<Action>, c: nat, o1: seq<Pair>, r: nat, o2: seq<Pair>) {
    Legal(s, run) && Harmless(run) && Picks(run, c) == o1 && Picks(run, r) == o2
  }

  lemma WeaveOne(s: State, run: seq<Action>, c: nat, r: nat, order: seq<Pair>)
    requires c != r && Follows(s, run, c, order)
    ensures Weaves(s, run, c, order, r, []) && Weaves(s, run, r, [], c, order)
  {
    OtherPicks(run, c, r);
  }

  lemma WeaveMore(s: State, a: seq<Action>, b: seq<Action>, c: nat, o1: seq<Pair>, o1': seq<Pair>,
                  r: nat, o2: seq<Pair>, o2': seq<Pair>)
    requires Weaves(s, a, c, o1, r, o2) && Weaves(After(s, a), b, c, o1', r, o2')
    ensures Weaves(s, a + b, c, o1 + o1', r, o2 + o2') && After(s, a + b) == After(After(s, a), b)
  {
    RunConcat(s, a, b);
    PicksConcat(a, b, c);
    PicksConcat(a, b, r);
    hide Picks, Legal, After;
  }

  lemma WeaveLegal(s: State, run: seq<Action>, c: nat, o1: seq<Pair>, r: nat, o2: seq<Pair>)
    requires Weaves(s, run, c, o1, r, o2)
    ensures Legal(s, run)
  {
  }

  // ------------------------------------------------------------------ a handler from its start

  /** The thread is about to copy the directory, or to enter it first. */
  predicate Starting(s: State, c: nat) { c in s.conns && (s.conns[c].phase.Enter? || s.conns[c].phase.Copy?) }

  /** The directory of which its broadcast will be a copy. */
  function Full(s: State, c: nat): map<nat, nat>
    requires c in s.conns
  {
    if s.conns[c].phase.Enter? then s.dd[s.conns[c].dev := OK] else s.dd
  }

  function JobOf(s: State, c: nat): Job
    requires Starting(s, c)
  {
    Job(s.conns[c].phase.Enter? || s.conns[c].phase.add, Full(s, c), Pairs(Full(s, c)))
  }

  /** Everything but lines, `c` in the directory and at rest. */
  ghost predicate Handled(s: State, s': State, c: nat) {
    && Starting(s, c) && s'.dd == Full(s, c) && s'.conns.Keys == s.conns.Keys
    && (forall d :: d in s.conns ==> s'.conns[d].dev == s.conns[d].dev)
    && (forall d :: d in s.conns ==> s'.conns[d].phase == if d == c then Idle else s.conns[d].phase)
  }

  /** `c` has copied the directory. */
  ghost predicate Copied(s: State, s1: State, c: nat) {
    Starting(s, c) && s1.dd == Full(s, c) && s1.conns == s.conns[c := s.conns[c].(phase := Send(JobOf(s, c)))]
  }

  lemma CopyFirst(s: State, c: nat) returns (run: seq<Action>)
    requires Starting(s, c)
    ensures Follows(s, run, c, []) && Copied(s, After(s, run), c)
  {
    if s.conns[c].phase.Copy? {
      RunOne(s, CopyDir(c));
      run := [CopyDir(c)];
      assert Picks(run, c) == [];
    } else {
      var s1 := Step(s, EnterDir(c));
      RunOne(s, EnterDir(c));
      RunOne(s1, CopyDir(c));
      RunConcat(s, [EnterDir(c)], [CopyDir(c)]);
      run := [EnterDir(c)] + [CopyDir(c)];
      PicksConcat([EnterDir(c)], [CopyDir(c)], c);
      assert Picks([EnterDir(c)], c) == [] && Picks([CopyDir(c)], c) == [];
    }
  }

  lemma CopiedFacts(s: State, s1: State, c: nat, t: nat, k: nat)
    requires Copied(s, s1, c) && Calm(s)
    ensures Sending(s1, c) && s1.conns[c].phase.job == JobOf(s, c)
    ensures Shows1(s, s1, JobOf(s, c), false, t, k)
  {
    hide Value;
    if Listed(s, t) && Reachable(s, k) {
      StaysReachable(s, s1, k);
    }
  }

  lemma HandledAfter(s: State, s1: State, s2: State, c: nat, order: seq<Pair>, t: nat, k: nat)
    requires Copied(s, s1, c) && CameToRest(s1, s2, c) && Shows1(s, s1, JobOf(s, c), false, t, k)
    requires Shows1(s1, s2, JobOf(s, c), PairIn(s1, order, t, k), t, k)
    ensures Handled(s, s2, c) && Shows1(s, s2, JobOf(s, c), PairIn(s, order, t, k), t, k)
  {
    hide Value, Reachable, Pairs, Effect;
    assert PairIn(s1, order, t, k) == PairIn(s, order, t, k);
    ShowsJoin(s, s1, s2, JobOf(s, c), false, PairIn(s, order, t, k), t, k);
  }

  /** The handler runs to its end. */
  lemma Handle(s: State, c: nat, order: seq<Pair>, t: nat, k: nat) returns (run: seq<Action>)
    requires Inv(s) && Starting(s, c) && Calm(s) && Lists(order, Pairs(Full(s, c)))
    ensures Follows(s, run, c, order)
    ensures var s' := After(s, run);
            Inv(s') && Handled(s, s', c) && Shows1(s, s', JobOf(s, c), PairIn(s, order, t, k), t, k)
  {
    hide Inv, Calm, Follows, After, Legal, Picks, By, Copied, CameToRest, Shows1, Lists, Handled, Pairs;
    var r1 := CopyFirst(s, c);
    LegalOf(s, r1, c, []);
    var s1 := After(s, r1);
    RunKeeps(s, r1);
    CopiedFacts(s, s1, c, t, k);
    var r2 := SendAll(s1, c, order, t, k);
    LegalOf(s1, r2, c, order);
    var s2 := After(s1, r2);
    HandledAfter(s, s1, s2, c, order, t, k);
    FollowsConcat(s, r1, r2, c, [], order);
    assert [] + order == order;
    run := r1 + r2;
  }

  // ------------------------------------------------------------------ what was begun comes last

  /** `r` is in the middle of a broadcast, `c` is about to copy the directory, and everybody
      else is at rest. */
  ghost predicate Racing(s: State, c: nat, r: nat) {
    && Starting(s, c) && r in s.conns && r != c && HasJob(s.conns[r].phase)
    && forall d :: d in s.conns && d != c && d != r ==> AtRest(s.conns[d].phase)
  }

  /** `r` is about to tell `t` a flag of `k` that is not the directory's, or will not be once
      `c` has entered it. */
  ghost predicate Late(s: State, c: nat, r: nat, t: nat, k: nat) {
    && Racing(s, c, r) && Listed(s, t) && Reachable(s, k) && k != s.conns[t].dev
    && var ph, dd := s.conns[r].phase, Full(s, c);
       && k in dd && k in ph.job.copy && ph.job.copy[k] != dd[k]
       && (Pending(s, ph, k, t) || (Holding(ph, k, t) && ph.job.add && JobOf(s, c).add))
  }

  /** What slave `t` will hold for device `k` is not the master's flag, or not only that. */
  ghost predicate Wrong(s: State, t: nat, k: nat) {
    && Listed(s, t) && k in s.dd && k != s.conns[t].dev
    && Value(s.conns[t].line, k).Some? && Value(s.conns[t].line, k) != Some({s.dd[k]})
  }

  /** `r` holds no semaphore any more; otherwise only a line has changed. */
  ghost predicate Cleared(s: State, s1: State, r: nat) {
    && r in s.conns && HasJob(s.conns[r].phase) && s1.dd == s.dd && s1.conns.Keys == s.conns.Keys
    && (forall d :: d in s.conns ==> s1.conns[d].dev == s.conns[d].dev)
    && (forall d :: d in s.conns && d != r ==> s1.conns[d].phase == s.conns[d].phase)
    && var ph := s.conns[r].phase;
       s1.conns[r].phase == if ph.Hold? || ph.Post? then Send(ph.job) else ph
  }

  lemma RacingCalm(s: State, c: nat, r: nat)
    requires Racing(s, c, r)
    ensures CalmBut(s, {r})
  {
  }

  lemma PassedIsCleared(s: State, s1: State, r: nat)
    requires OnlyPast(s, s1, r) && (s.conns[r].phase.Hold? || s.conns[r].phase.Post?)
    ensures Cleared(s, s1, r)
  {
  }

  /** Let `r` give back the semaphores it holds. */
  lemma Clear(s: State, r: nat, t: nat, k: nat) returns (run: seq<Action>)
    requires Inv(s) && CalmBut(s, {r}) && r in s.conns && HasJob(s.conns[r].phase)
    ensures Follows(s, run, r, [])
    ensures var s1 := After(s, run);
            && Inv(s1) && Cleared(s, s1, r) && Calm(s1)
            && Shows1(s, s1, s.conns[r].phase.job, Holding(s.conns[r].phase, k, t), t, k)
  {
    hide Inv, CalmBut, Calm, Follows, After, OnlyPast, Shows1;
    if s.conns[r].phase.Hold? || s.conns[r].phase.Post? {
      run := PassPair(s, r, t, k);
      LegalOf(s, run, r, []);
      PassedIsCleared(s, After(s, run), r);
    } else {
      run := [];
      NothingToPass(s, r, t, k);
    }
  }

  /** Nobody but `r`, which sends updates only, is at work: what should be shown is shown. */
  lemma ShownByNow(s: State, r: nat, t: nat, k: nat)
    requires Inv(s) && r in s.conns && (s.conns[r].phase.Send? || s.conns[r].phase.Lock?) && !s.conns[r].phase.job.add
    requires forall d :: d in s.conns && d != r ==> AtRest(s.conns[d].phase)
    requires Listed(s, t) && Reachable(s, k) && k != s.conns[t].dev
    ensures Value(s.conns[t].line, k).Some?
  {
    hide Shape, Exclusive, DelsAreOver, PostsAreEarly, Ordered, Sound, Value;
    var who :| Known(s, k, who);
    assert InDir(s, t) && Established(s, k);
    assert !SomeDue(s, t, k);
    ValueShows(s.conns[t].line, k);
  }

  /** `c`'s handler has ended, `r`'s has not. */
  lemma Midway(s: State, s1: State, s2: State, c: nat, r: nat, t: nat, k: nat)
    requires Racing(s, c, r) && Cleared(s, s1, r) && Handled(s1, s2, c)
    ensures Racing(s1, c, r) && Full(s1, c) == Full(s, c) && JobOf(s1, c) == JobOf(s, c)
    ensures r in s2.conns && s2.conns[r].phase == s1.conns[r].phase && s2.dd == Full(s, c)
    ensures forall d :: d in s2.conns && d != r ==> AtRest(s2.conns[d].phase)
    ensures Pending(s, s.conns[r].phase, k, t) ==> WillSay(s2, s2.conns[r].phase, k, t)
    ensures s2.conns[r].phase.job == s.conns[r].phase.job && (s2.conns[r].phase.Send? || s2.conns[r].phase.Lock?)
  {
  }

  lemma RestIsQuiet(s: State, s': State, r: nat)
    requires CameToRest(s, s', r) && forall d :: d in s.conns && d != r ==> AtRest(s.conns[d].phase)
    ensures Quiet(s')
  {
  }

  /** The flag is among those that `t` will hold for `k`. */
  predicate Includes(s: State, t: nat, k: nat, f: nat) {
    t in s.conns && Value(s.conns[t].line, k).Some? && f in Value(s.conns[t].line, k).value
  }

  /** `c` is at rest too, and `r`'s flag of `k` is still to come at `t`, or has arrived to stay. */
  ghost predicate Ripe(s: State, s2: State, c: nat, r: nat, t: nat, k: nat)
    requires Racing(s, c, r)
  {
    && r in s2.conns && HasJob(s2.conns[r].phase) && (forall d :: d in s2.conns && d != r ==> AtRest(s2.conns[d].phase))
    && Listed(s2, t) && Reachable(s2, k) && t in s.conns && s2.conns[t].dev == s.conns[t].dev && s2.dd == Full(s, c)
    && var ph, job := s.conns[r].phase, s.conns[r].phase.job;
       && s2.conns[r].phase.job == job && (job.add || Value(s2.conns[t].line, k).Some?)
       && (Pending(s, ph, k, t) ==> WillSay(s2, s2.conns[r].phase, k, t))
       && (Holding(ph, k, t) && job.add && JobOf(s, c).add ==> Includes(s2, t, k, CopyFlag(job, k)))
  }

  lemma Ripens(s: State, s1: State, s2: State, c: nat, r: nat, order: seq<Pair>, t: nat, k: nat)
    requires Late(s, c, r, t, k) && Cleared(s, s1, r) && Handled(s1, s2, c) && Inv(s2)
    requires Shows1(s, s1, s.conns[r].phase.job, Holding(s.conns[r].phase, k, t), t, k)
    requires Shows1(s1, s2, JobOf(s1, c), PairIn(s1, order, t, k), t, k)
    ensures Ripe(s, s2, c, r, t, k)
  {
    hide Inv, Value, Reachable;
    Midway(s, s1, s2, c, r, t, k);
    hide Pending, WillSay;
    if !s.conns[r].phase.job.add {
      ShownByNow(s2, r, t, k);
    }
  }

  lemma LateEnds(s: State, s2: State, s3: State, c: nat, r: nat, t: nat, k: nat)
    requires Late(s, c, r, t, k) && Ripe(s, s2, c, r, t, k) && CameToRest(s2, s3, r) && Delivered(s2, s3, r, t, k)
    ensures Quiet(s3) && Wrong(s3, t, k)
  {
    RestIsQuiet(s2, s3, r);
    hide Value, Reachable, Pending, WillSay, Quiet;
    var f, v := CopyFlag(s.conns[r].phase.job, k), Value(s3.conns[t].line, k);
    assert v.Some? && f in v.value;
    assert f !in {s3.dd[k]};
  }

  lemma RipeFacts(s: State, s2: State, c: nat, r: nat, t: nat, k: nat)
    requires Racing(s, c, r) && Ripe(s, s2, c, r, t, k)
    ensures r in s2.conns && HasJob(s2.conns[r].phase) && s2.conns[r].phase.job == s.conns[r].phase.job
    ensures CalmBut(s2, {r})
  {
  }

  lemma LateFacts(s: State, c: nat, r: nat, t: nat, k: nat)
    requires Late(s, c, r, t, k)
    ensures Racing(s, c, r) && CalmBut(s, {r}) && r in s.conns && HasJob(s.conns[r].phase) && r != c
  {
  }

  /** `c`'s whole handler, then what is left of `r`'s broadcast. */
  lemma Overtake(s: State, c: nat, r: nat, t: nat, k: nat, o1: seq<Pair>, o2: seq<Pair>) returns (run: seq<Action>)
    requires Inv(s) && Late(s, c, r, t, k)
    requires Lists(o1, Pairs(Full(s, c))) && Lists(o2, s.conns[r].phase.job.work)
    ensures Weaves(s, run, c, o1, r, o2)
    ensures var s' := After(s, run); Inv(s') && Quiet(s') && Wrong(s', t, k)
  {
    hide Inv, CalmBut, Calm, Follows, After, Legal, Picks, By, Lists, Cleared, Handled, Shows1, Late, Pairs;
    hide Weaves, Wrong, Quiet, Delivered, CameToRest, Ripe;
    LateFacts(s, c, r, t, k);
    var r1 := Clear(s, r, t, k);
    LegalOf(s, r1, r, []);
    var s1 := After(s, r1);
    ClearedRacing(s, s1, c, r);
    var r2 := Handle(s1, c, o1, t, k);
    LegalOf(s1, r2, c, o1);
    var s2 := After(s1, r2);
    Ripens(s, s1, s2, c, r, o1, t, k);
    RipeFacts(s, s2, c, r, t, k);
    var r3 := FinishJob(s2, r, o2, t, k);
    LegalOf(s2, r3, r, o2);
    LateEnds(s, s2, After(s2, r3), c, r, t, k);
    run := ThreeParts(s, r1, r2, r3, c, o1, r, o2);
  }

  lemma ClearedRacing(s: State, s1: State, c: nat, r: nat)
    requires Racing(s, c, r) && Cleared(s, s1, r)
    ensures Racing(s1, c, r) && Full(s1, c) == Full(s, c)
  {
  }

  lemma ThreeParts(s: State, r1: seq<Action>, r2: seq<Action>, r3: seq<Action>,
                   c: nat, o1: seq<Pair>, r: nat, o2: seq<Pair>)
    returns (run: seq<Action>)
    requires c != r && Follows(s, r1, r, []) && Follows(After(s, r1), r2, c, o1)
    requires Follows(After(After(s, r1), r2), r3, r, o2)
    ensures Weaves(s, run, c, o1, r, o2) && After(s, run) == After(After(After(s, r1), r2), r3)
  {
    WeaveOne(s, r1, r, c, []);
    WeaveOne(After(s, r1), r2, c, r, o1);
    WeaveOne(After(After(s, r1), r2), r3, r, c, o2);
    hide Weaves, Follows, After;
    WeaveMore(s, r1, r2, c, [], o1, r, [], []);
    WeaveMore(s, r1 + r2, r3, c, [] + o1, [], r, [] + [], o2);
    assert [] + o1 + [] == o1 && [] + [] + o2 == o2;
    run := r1 + r2 + r3;
  }

  // ------------------------------------------------------------------ what a newcomer was told wrongly

  /** `p` has been told, before it entered the directory, something of `k` that is no longer
      the directory's flag. */
  ghost predicate Misinformed(s: State, c: nat, p: nat, k: nat) {
    && Starting(s, c) && s.conns[c].phase.Copy? && p in s.conns && p != c && s.conns[p].phase.Enter?
    && (forall d :: d in s.conns && d != c && d != p ==> AtRest(s.conns[d].phase))
    && k in s.dd && k != s.conns[p].dev && s.conns[p].dev !in s.dd && Reachable(s, k)
    && Value(s.conns[p].line, k).Some? && Value(s.conns[p].line, k) != Some({s.dd[k]})
  }

  lemma {:induction false} SomeFlag(line: seq<Msg>, k: nat)
    ensures Value(line, k).Some? ==> Value(line, k).value != {}
    decreases |line|
  {
    if line != [] {
      SomeFlag(line[..|line| - 1], k);
    }
  }

  lemma NotAlone(v: set<nat>, f: nat) returns (x: nat)
    requires v != {} && v != {f}
    ensures x in v && x != f
  {
    x :| x in v;
    if x == f {
      assert exists y :: y in v && y != f by {
        assert forall y :: y in {f} ==> y in v;
      }
      x :| x in v && x != f;
    }
  }

  lemma MisinformedFacts(s: State, c: nat, p: nat, k: nat)
    requires Misinformed(s, c, p, k)
    ensures Calm(s) && Starting(s, c) && Starting(s, p) && p != c && p in s.conns
  {
  }

  lemma StillMisinformed(s: State, s1: State, c: nat, p: nat, k: nat, order: seq<Pair>)
    requires Misinformed(s, c, p, k) && Handled(s, s1, c) && Lists(order, Pairs(Full(s, c)))
    requires Shows1(s, s1, JobOf(s, c), PairIn(s, order, p, k), p, k)
    ensures Value(s1.conns[p].line, k) == Value(s.conns[p].line, k) && Listed(s1, p) && Reachable(s1, k)
    ensures Calm(s1) && Starting(s1, p) && Full(s1, p) == Full(s, p) && s1.conns[p].dev == s.conns[p].dev
    ensures JobOf(s1, p).add && forall d :: d in s1.conns && d != p ==> AtRest(s1.conns[d].phase)
  {
    hide Value, Reachable;
    assert !PairIn(s, order, p, k);
  }

  lemma MisinformedEnds(s: State, s1: State, s2: State, c: nat, p: nat, k: nat, sent: bool)
    requires Misinformed(s, c, p, k) && Starting(s1, p) && Handled(s1, s2, p) && Full(s1, p) == Full(s, p)
    requires Value(s1.conns[p].line, k) == Value(s.conns[p].line, k) && Listed(s1, p) && Reachable(s1, k)
    requires s1.conns[p].dev == s.conns[p].dev
    requires JobOf(s1, p).add && forall d :: d in s1.conns && d != p ==> AtRest(s1.conns[d].phase)
    requires Shows1(s1, s2, JobOf(s1, p), sent, p, k)
    ensures Quiet(s2) && Wrong(s2, p, k)
  {
    SomeFlag(s.conns[p].line, k);
    hide Value, Reachable;
    var x := NotAlone(Value(s.conns[p].line, k).value, s.dd[k]);
    assert x in Value(s2.conns[p].line, k).value && x !in {s2.dd[k]};
  }

  /** `c`'s whole handler, then the newcomer's. */
  lemma Mislead(s: State, c: nat, p: nat, k: nat, o1: seq<Pair>, o2: seq<Pair>) returns (run: seq<Action>)
    requires Inv(s) && Misinformed(s, c, p, k)
    requires Lists(o1, Pairs(Full(s, c))) && Lists(o2, Pairs(Full(s, p)))
    ensures Weaves(s, run, c, o1, p, o2)
    ensures var s' := After(s, run); Inv(s') && Quiet(s') && Wrong(s', p, k)
  {
    hide Inv, Calm, Follows, After, Legal, Picks, By, Lists, Handled, Shows1, Pairs, Misinformed, Weaves, Wrong, Quiet;
    hide Value, Reachable;
    MisinformedFacts(s, c, p, k);
    var r1 := Handle(s, c, o1, p, k);
    LegalOf(s, r1, c, o1);
    var s1 := After(s, r1);
    StillMisinformed(s, s1, c, p, k, o1);
    var r2 := Handle(s1, p, o2, p, k);
    LegalOf(s1, r2, p, o2);
    MisinformedEnds(s, s1, After(s1, r2), c, p, k, PairIn(s1, o2, p, k));
    WeaveOne(s, r1, c, p, o1);
    WeaveOne(s1, r2, p, c, o2);
    WeaveMore(s, r1, r2, c, o1, [], p, [], o2);
    assert o1 + [] == o1 && [] + o2 == o2;
    run := r1 + r2;
  }

  // ------------------------------------------------------------------ every violation

  /** All threads but `r` are at rest. */
  ghost predicate RestBut(s: State, r: nat) { forall d :: d in s.conns && d != r ==> AtRest(s.conns[d].phase) }

  lemma OnlyWorker(s: State, r: nat, d: nat)
    requires RestBut(s, r) && d in s.conns && (HasJob(s.conns[d].phase) || Newcomer(s, d))
    ensures d == r
  {
  }

  /** What the thread at work sends is well-formed. */
  lemma WellFormed(s: State, r: nat, k: nat, t: nat)
    requires Phases(s) && r in s.conns && t in s.conns && Unsent(s, s.conns[r].phase, k, t)
    ensures HasJob(s.conns[r].phase) && k != s.conns[t].dev && k in s.conns[r].phase.job.copy
    ensures Holding(s.conns[r].phase, k, t) ==> s.conns[r].phase.job.add
  {
    assert GoodPhase(s, r);
  }

  /** Everybody in the directory is listed. */
  lemma DirReachable(s: State, r: nat, k: nat)
    requires DirMatches(s) && RestBut(s, r) && r in s.conns && HasJob(s.conns[r].phase) && k in s.dd
    ensures Reachable(s, k)
  {
    if k == PORT {
      assert Known(s, k, r);
    } else {
      var d :| InDir(s, d) && s.conns[d].dev == k;
      assert Known(s, k, d);
    }
  }

  lemma FlagLate(s: State, q: nat, f: nat, r: nat, t: nat)
    requires Phases(s) && Enabled(s, SetFlag(q, f)) && RestBut(s, r) && r in s.conns && Listed(s, t)
    requires Unprotected(s, s.conns[r].phase, s.conns[q].dev, t) && !Says(s.conns[r].phase, s.conns[q].dev, f)
    ensures Late(Step(s, SetFlag(q, f)), q, r, t, s.conns[q].dev)
  {
    var s1, b, ph := Step(s, SetFlag(q, f)), s.conns[q].dev, s.conns[r].phase;
    WellFormed(s, r, b, t);
    hide Phases;
    assert Known(s1, b, q);
    assert Pending(s, ph, b, t) && Pending(s1, ph, b, t);
    hide Pending;
  }

  lemma FlagMisinforms(s: State, q: nat, f: nat, p: nat)
    requires Shape(s) && Enabled(s, SetFlag(q, f)) && RestBut(s, p) && Newcomer(s, p)
    requires Value(s.conns[p].line, s.conns[q].dev).Some? && Value(s.conns[p].line, s.conns[q].dev) != Some({f})
    ensures Misinformed(Step(s, SetFlag(q, f)), q, p, s.conns[q].dev)
  {
    var s1, b := Step(s, SetFlag(q, f)), s.conns[q].dev;
    hide Value;
    assert GoodPhase(s, p);
    hide GoodPhase;
    assert Known(s1, b, q) && InDir(s, q) && Live(s, q) && Live(s, p);
    OutsiderAbsent(s, p);
    hide Shape, OneLive, DirMatches, Phases;
  }

  lemma WantedIsThere(s: State, r: nat, k: nat)
    requires RestBut(s, r) && r in s.conns && HasJob(s.conns[r].phase) && Want(s, k).Some?
    ensures k in s.dd && Want(s, k).value == s.dd[k]
  {
  }

  lemma ListLate(s: State, c: nat, r: nat, k: nat)
    requires Phases(s) && DirMatches(s) && c in s.conns && s.conns[c].phase.Fresh? && RestBut(s, r) && r in s.conns
    requires HasWork(s.conns[r].phase, k, s.conns[c].dev)
    requires Want(s, k).Some? && !Says(s.conns[r].phase, k, Want(s, k).value)
    ensures Late(Move(s, c, Enter), c, r, c, k)
  {
    hide Phases, DirMatches, Reachable;
    var s1, ph := Move(s, c, Enter), s.conns[r].phase;
    assert Pending(s, ph, k, c) && Pending(s1, ph, k, c);
    WellFormed(s, r, k, c);
    hide Pending, Want;
    WantedIsThere(s, r, k);
    DirReachable(s, r, k);
    StaysReachable(s, s1, k);
  }

  lemma ListLateOf(s: State, c: nat, r: nat, t: nat)
    requires Phases(s) && c in s.conns && s.conns[c].phase.Fresh? && RestBut(s, r) && r in s.conns && Listed(s, t)
    requires Unsent(s, s.conns[r].phase, s.conns[c].dev, t) && !Says(s.conns[r].phase, s.conns[c].dev, OK)
    ensures Late(Move(s, c, Enter), c, r, t, s.conns[c].dev)
  {
    var s1, b, ph := Move(s, c, Enter), s.conns[c].dev, s.conns[r].phase;
    WellFormed(s, r, b, t);
    hide Phases;
    assert Known(s1, b, c) && Pending(s1, ph, b, t) == Pending(s, ph, b, t);
    hide Pending;
  }

  /** The pairs that `r` has still to deal with. */
  function Left(s: State, r: nat): set<Pair>
    requires r in s.conns
  {
    if HasJob(s.conns[r].phase) then s.conns[r].phase.job.work
    else if s.conns[r].phase.Enter? then Pairs(Full(s, r))
    else {}
  }

  /** `r` can still spoil what `t` will hold for `k`. */
  ghost predicate Harms(s: State, c: nat, r: nat, t: nat, k: nat) {
    Late(s, c, r, t, k) || (t == r && Misinformed(s, c, r, k))
  }

  lemma Harm(s: State, c: nat, r: nat, t: nat, k: nat, o1: seq<Pair>, o2: seq<Pair>) returns (run: seq<Action>)
    requires Inv(s) && Harms(s, c, r, t, k) && c in s.conns && r in s.conns
    requires Lists(o1, Pairs(Full(s, c))) && Lists(o2, Left(s, r))
    ensures Weaves(s, run, c, o1, r, o2)
    ensures var s' := After(s, run); Inv(s') && Quiet(s') && Wrong(s', t, k)
  {
    hide Inv, After, Weaves, Wrong, Quiet, Pairs, Lists, Legal;
    if Late(s, c, r, t, k) {
      LateFacts(s, c, r, t, k);
      hide Late, Misinformed;
      run := Overtake(s, c, r, t, k, o1, o2);
    } else {
      run := Mislead(s, c, r, k, o1, o2);
    }
    WeaveLegal(s, run, c, o1, r, o2);
  }

  lemma FlagViolation(s: State, q: nat, f: nat, r: nat) returns (t: nat, k: nat)
    requires Inv(s) && Enabled(s, SetFlag(q, f)) && RestBut(s, r) && !FlagGuard(s, s.conns[q].dev, f)
    ensures r in s.conns && Harms(Step(s, SetFlag(q, f)), q, r, t, k)
  {
    hide Shape, Exclusive, DelsAreOver, PostsAreEarly, Ordered, Sound, Complete;
    hide Late, Misinformed, Value, Unprotected, Says;
    InvParts(s);
    hide Inv;
    k := s.conns[q].dev;
    if d, u :| d in s.conns && Listed(s, u) && Unprotected(s, s.conns[d].phase, k, u) && !Says(s.conns[d].phase, k, f) {
      UnsentByWorker(s, r, d, k, u);
      t := u;
      FlagLate(s, q, f, r, t);
    } else {
      var p :| Newcomer(s, p) && !(Value(s.conns[p].line, k).None? || Value(s.conns[p].line, k) == Some({f}));
      OnlyWorker(s, r, p);
      t := r;
      FlagMisinforms(s, q, f, r);
    }
  }

  lemma UnsentByWorker(s: State, r: nat, d: nat, k: nat, t: nat)
    requires RestBut(s, r) && d in s.conns
    requires Unprotected(s, s.conns[d].phase, k, t) || Unsent(s, s.conns[d].phase, k, t)
    ensures d == r
  {
  }

  lemma ListViolation(s: State, c: nat, r: nat) returns (t: nat, k: nat)
    requires Inv(s) && Enabled(s, Enlist(c)) && RestBut(s, r) && !ListGuard(s, s.conns[c].dev)
    ensures r in s.conns && Harms(Step(s, Enlist(c)), c, r, t, k)
  {
    hide Exclusive, DelsAreOver, PostsAreEarly, Ordered, Sound, Complete, Late, Misinformed, Want, Unsent, Says;
    InvParts(s);
    hide Inv, Shape;
    var b := s.conns[c].dev;
    if d, j :| d in s.conns && HasWork(s.conns[d].phase, j, b)
               && Want(s, j).Some? && !Says(s.conns[d].phase, j, Want(s, j).value) {
      OnlyWorker(s, r, d);
      t, k := c, j;
      ListLate(s, c, r, k);
    } else {
      var d, u :| d in s.conns && Listed(s, u) && Unsent(s, s.conns[d].phase, b, u) && !Says(s.conns[d].phase, b, OK);
      UnsentByWorker(s, r, d, b, u);
      t, k := u, b;
      ListLateOf(s, c, r, t);
    }
  }

  /** The state that a change of a flag, or the listing of a peer, leads to, and the pairs that
      its handler will then deal with. */
  lemma Begins(s: State, a: Action)
    requires Enabled(s, a) && !Plain(a)
    ensures Starting(Step(s, a), a.conn) && Step(s, a).conns.Keys == s.conns.Keys
  {
  }

  /** With all threads but one at rest, whatever orders the broadcasts follow: a change of a flag,
      or the listing of a peer, that violates the guard can be followed by a run, without further
      such steps, to rest and a wrong flag. */
  lemma Disagreement(s: State, a: Action, r: nat, o1: seq<Pair>, o2: seq<Pair>)
    returns (run: seq<Action>, t: nat, k: nat)
    requires Inv(s) && Enabled(s, a) && !Plain(a) && RestBut(s, r) && !Guarded(s, a)
    requires a.conn in Step(s, a).conns && Lists(o1, Pairs(Full(Step(s, a), a.conn)))
    requires r in s.conns ==> r in Step(s, a).conns && Lists(o2, Left(Step(s, a), r))
    ensures Weaves(Step(s, a), run, a.conn, o1, r, o2)
    ensures var s' := After(Step(s, a), run); Inv(s') && Quiet(s') && Wrong(s', t, k)
  {
    hide Inv, FlagGuard, ListGuard, RestBut, Harms, Lists, Pairs, Full, Left, Wrong, Quiet, Weaves, Legal, After;
    Begins(s, a);
    StepKeeps(s, a);
    if a.SetFlag? {
      t, k := FlagViolation(s, a.conn, a.flag, r);
    } else {
      t, k := ListViolation(s, a.conn, r);
    }
    var s1 := Step(s, a);
    hide Step, Enabled, Guarded;
    run := Harm(s1, a.conn, r, t, k, o1, o2);
    WeaveLegal(s1, run, a.conn, o1, r, o2);
  }

  // ------------------------------------------------------------------ the guard is exact

  /** However the threads go on from here without changing flags or listing peers, at rest no
      slave holds a wrong flag. */
  ghost predicate EndsRight(s: State) {
    forall run :: Legal(s, run) && Harmless(run) && Quiet(After(s, run)) ==> AllFlagsRight(After(s, run))
  }

  ghost predicate AllFlagsRight(s: State) { forall t, k :: !Wrong(s, t, k) }

  lemma {:induction false} HarmlessIsGuarded(s: State, run: seq<Action>)
    requires Legal(s, run) && Harmless(run)
    ensures GuardedRun(s, run)
    decreases |run|
  {
    if run != [] {
      assert Plain(run[0]);
      assert forall i :: 0 <= i < |run[1..]| ==> run[1..][i] == run[i + 1];
      HarmlessIsGuarded(Step(s, run[0]), run[1..]);
    }
  }

  lemma RightAtRest(s: State)
    requires AllRight(s) && Quiet(s)
    ensures AllFlagsRight(s)
  {
    forall t, k ensures !Wrong(s, t, k) {
      QuietExcuse(s, t, k);
      assert Listed(s, t) && k in s.dd && k != s.conns[t].dev ==> Entitled(s, t, k);
    }
  }

  lemma GuardedEndsRight(s: State, a: Action, run: seq<Action>)
    requires Inv(s) && FlagInv(s) && Enabled(s, a) && Guarded(s, a)
    requires Legal(Step(s, a), run) && Harmless(run) && Quiet(After(Step(s, a), run))
    ensures AllFlagsRight(After(Step(s, a), run))
  {
    hide Inv, FlagInv, Guarded, Enabled, Step, Legal, After, Quiet, AllFlagsRight, Harmless, AllRight;
    StepKeeps(s, a);
    StepFlags(s, a);
    HarmlessIsGuarded(Step(s, a), run);
    RunFlags(Step(s, a), run);
    FlagParts(After(Step(s, a), run));
    RightAtRest(After(Step(s, a), run));
  }

  lemma FlagParts(s: State)
    requires FlagInv(s)
    ensures AllRight(s)
  {
  }

  lemma SpoiltEnd(s: State, run: seq<Action>, c: nat, o1: seq<Pair>, r: nat, o2: seq<Pair>, t: nat, k: nat)
    requires Weaves(s, run, c, o1, r, o2) && Quiet(After(s, run)) && Wrong(After(s, run), t, k)
    ensures !EndsRight(s)
  {
    hide Legal, After, Quiet, Wrong, Picks, Harmless;
    assert !AllFlagsRight(After(s, run));
  }

  /** All threads but one at rest and no wrong flag shown or on its way: a change of a flag or the
      listing of a peer satisfies the guard if and only if however the threads finish what they
      have begun, no wrong flag remains. */
  lemma GuardExact(s: State, a: Action, r: nat)
    requires Inv(s) && FlagInv(s) && Enabled(s, a) && !Plain(a) && RestBut(s, r)
    ensures Guarded(s, a) <==> EndsRight(Step(s, a))
  {
    hide Inv, FlagInv, RestBut, Guarded, Wrong, Quiet, Weaves, Legal, After, AllFlagsRight, Left, Full, Pairs, Harmless;
    var s1 := Step(s, a);
    if Guarded(s, a) {
      forall run | Legal(s1, run) && Harmless(run) && Quiet(After(s1, run)) ensures AllFlagsRight(After(s1, run)) {
        GuardedEndsRight(s, a, run);
      }
    } else {
      Begins(s, a);
      hide Step, Enabled;
      var o1 := SomeOrder(Pairs(Full(s1, a.conn)));
      var o2 := SomeOrder(if r in s1.conns then Left(s1, r) else {});
      var run, t, k := Disagreement(s, a, r, o1, o2);
      WeaveLegal(s1, run, a.conn, o1, r, o2);
      SpoiltEnd(s1, run, a.conn, o1, r, o2, t, k);
    }
  }

  // ------------------------------------------------------------------ from rest

  /** Two connections at rest are of different devices of the directory. */
  lemma TwoDevices(s: State, p: nat, q: nat)
    requires Inv(s) && Quiet(s) && Listed(s, p) && Listed(s, q) && p != q
    ensures s.conns[p].dev in s.dd && s.conns[q].dev in s.dd && s.conns[p].dev != s.conns[q].dev
    ensures s.conns[p].dev != PORT && s.conns[q].dev != PORT
  {
    hide Exclusive, DelsAreOver, PostsAreEarly, Ordered, Sound, Complete, GoodPhase;
    assert Live(s, p) && Live(s, q) && InDir(s, p) && InDir(s, q);
  }

  /** `p` has reported its flag once more and copied the directory. */
  ghost predicate Reported(s: State, s1: State, p: nat) {
    && p in s.conns && s1.dd == s.dd
    && s1.conns == s.conns[p := s.conns[p].(phase := Send(Job(false, s.dd, Pairs(s.dd))))]
  }

  lemma Report(s: State, p: nat) returns (run: seq<Action>)
    requires p in s.conns && s.conns[p].phase.Idle? && s.conns[p].dev in s.dd
    ensures Legal(s, run) && Reported(s, After(s, run), p) && forall c :: Picks(run, c) == []
  {
    var a := SetFlag(p, s.dd[s.conns[p].dev]);
    var s1 := Step(s, a);
    assert s1.dd == s.dd;
    RunOne(s, a);
    RunOne(s1, CopyDir(p));
    RunConcat(s, [a], [CopyDir(p)]);
    run := [a] + [CopyDir(p)];
    forall c ensures Picks(run, c) == [] {
      PicksConcat([a], [CopyDir(p)], c);
      assert Picks([a], c) == [] && Picks([CopyDir(p)], c) == [];
    }
  }

  lemma SamePairs(dd: map<nat, nat>, dd': map<nat, nat>, a: nat, b: nat)
    requires dd'.Keys == dd.Keys && a in dd && b in dd && a != b && b != PORT
    ensures Pairs(dd') == Pairs(dd) && (a, b) in Pairs(dd)
  {
  }

  /** The old flag of `q` is still on its way to `p` when `q` changes it. */
  lemma OldFlagComesLast(s: State, s1: State, p: nat, q: nat, f: nat)
    requires Inv(s) && Quiet(s) && Listed(s, p) && Listed(s, q) && p != q && Reported(s, s1, p)
    requires s.conns[q].dev in s.dd && f != s.dd[s.conns[q].dev]
    ensures Enabled(s1, SetFlag(q, f))
    ensures var s2, k := Step(s1, SetFlag(q, f)), s.conns[q].dev;
            && Late(s2, q, p, p, k) && Left(s2, p) == Pairs(s.dd) && Pairs(Full(s2, q)) == Pairs(s.dd)
  {
    hide Inv, Pairs;
    TwoDevices(s, p, q);
    var s2, k := Step(s1, SetFlag(q, f)), s.conns[q].dev;
    SamePairs(s.dd, s2.dd, k, s.conns[p].dev);
    assert Known(s2, k, q);
    assert Pending(s2, s2.conns[p].phase, k, p);
  }

  lemma JoinRuns(s: State, a: seq<Action>, b: seq<Action>, c: nat, r: nat)
    requires Legal(s, a) && Legal(After(s, a), b)
    ensures Legal(s, a + b) && After(s, a + b) == After(After(s, a), b)
    ensures Picks(a + b, c) == Picks(a, c) + Picks(b, c) && Picks(a + b, r) == Picks(a, r) + Picks(b, r)
  {
    RunConcat(s, a, b);
    PicksConcat(a, b, c);
    PicksConcat(a, b, r);
  }

  /** From every state at rest with two connected peers, in whatever order broadcasts send,
      some run ends at rest with one slave holding a flag for the other that is not the
      master's. */
  lemma FlagsDisagree(s: State, p: nat, q: nat, f: nat, o1: seq<Pair>, o2: seq<Pair>) returns (run: seq<Action>)
    requires Inv(s) && Quiet(s) && Listed(s, p) && Listed(s, q) && p != q
    requires s.conns[q].dev in s.dd ==> f != s.dd[s.conns[q].dev]
    requires Lists(o1, Pairs(s.dd)) && Lists(o2, Pairs(s.dd))
    ensures Legal(s, run) && Picks(run, p) == o1 && Picks(run, q) == o2
    ensures var s' := After(s, run); Inv(s') && Quiet(s') && Wrong(s', p, s.conns[q].dev)
  {
    hide Inv, Legal, After, Picks, Lists, Pairs, Value, Late, Wrong, Weaves, Reported;
    TwoDevices(s, p, q);
    var r1 := Report(s, p);
    RunKeeps(s, r1);
    var s1, a := After(s, r1), SetFlag(q, f);
    OldFlagComesLast(s, s1, p, q, f);
    RunOne(s1, a);
    RunKeeps(s1, [a]);
    var s2 := Step(s1, a);
    LateFacts(s2, q, p, p, s.conns[q].dev);
    hide Step, Enabled, Quiet;
    var r2 := Overtake(s2, q, p, p, s.conns[q].dev, o2, o1);
    WeaveFacts(s2, r2, q, o2, p, o1);
    NoPicks(a, p, q);
    JoinRuns(s, r1, [a], p, q);
    JoinRuns(s, r1 + [a], r2, p, q);
    assert [] + [] + o1 == o1 && [] + [] + o2 == o2;
    run := r1 + [a] + r2;
  }

  lemma NoPicks(a: Action, p: nat, q: nat)
    requires !a.Pick?
    ensures Picks([a], p) == [] && Picks([a], q) == []
  {
  }

  lemma WeaveFacts(s: State, run: seq<Action>, c: nat, o1: seq<Pair>, r: nat, o2: seq<Pair>)
    requires Weaves(s, run, c, o1, r, o2)
    ensures Legal(s, run) && Picks(run, c) == o1 && Picks(run, r) == o2
  {
  }

  // ------------------------------------------------------------------ from the start

  /** One more peer, connected and at rest. */
  ghost predicate Joined(s: State, s': State, c: nat, dev: nat) {
    && Quiet(s') && Listed(s', c) && s'.conns.Keys == s.conns.Keys + {c} && s'.conns[c].dev == dev
    && s'.dd == s.dd[dev := OK]
    && (forall d :: d in s.conns ==> s'.conns[d].dev == s.conns[d].dev && s'.conns[d].phase == s.conns[d].phase)
  }

  /** A peer is connected and listed. */
  lemma Arrive(s: State, c: nat, dev: nat) returns (run: seq<Action>)
    requires Quiet(s) && c !in s.conns && dev != PORT
    requires forall d :: d in s.conns && !s.conns[d].phase.Gone? ==> s.conns[d].dev != dev
    ensures Legal(s, run) && forall d :: Picks(run, d) == []
    ensures After(s, run) == s.(conns := s.conns[c := Peer(dev, Enter, [])])
  {
    var a, b := Connect(c, dev), Enlist(c);
    RunOne(s, a);
    var s1 := Step(s, a);
    RunOne(s1, b);
    RunConcat(s, [a], [b]);
    run := [a] + [b];
    forall d ensures Picks(run, d) == [] {
      PicksConcat([a], [b], d);
      NoPicks(a, d, d);
      NoPicks(b, d, d);
    }
  }

  lemma JoinedAtRest(s: State, s1: State, s2: State, c: nat, dev: nat)
    requires Quiet(s) && c !in s.conns && s1 == s.(conns := s.conns[c := Peer(dev, Enter, [])]) && Handled(s1, s2, c)
    ensures Joined(s, s2, c, dev)
  {
  }

  /** A whole hello, in whatever order its broadcast sends: from rest to rest, with one more
      connected peer. */
  lemma Hello(s: State, c: nat, dev: nat, order: seq<Pair>) returns (run: seq<Action>)
    requires Inv(s) && Quiet(s) && c !in s.conns && dev != PORT
    requires forall d :: d in s.conns && !s.conns[d].phase.Gone? ==> s.conns[d].dev != dev
    requires Lists(order, Pairs(s.dd[dev := OK]))
    ensures Legal(s, run) && Picks(run, c) == order && forall d :: d != c ==> Picks(run, d) == []
    ensures Inv(After(s, run)) && Joined(s, After(s, run), c, dev)
  {
    hide Inv, Legal, After, Pairs, Lists, Joined, Handled, Picks, By, Follows;
    var r1 := Arrive(s, c, dev);
    var s1 := After(s, r1);
    RunKeeps(s, r1);
    assert Calm(s1);
    var r2 := Handle(s1, c, order, c, PORT);
    LegalOf(s1, r2, c, order);
    JoinedAtRest(s, s1, After(s1, r2), c, dev);
    hide Quiet, Calm;
    RunConcat(s, r1, r2);
    run := r1 + r2;
    PicksConcat(r1, r2, c);
    assert [] + order == order;
    forall d | d != c ensures Picks(run, d) == [] {
      PicksConcat(r1, r2, d);
      OtherPicks(r2, c, d);
    }
  }

  lemma AtStart(start: State)
    requires Init(start)
    ensures Inv(start) && Quiet(start)
  {
    InitInv(start);
  }

  lemma OnePeer(start: State, s: State, dev: nat)
    requires Init(start) && Joined(start, s, 1, dev)
    ensures Quiet(s) && s.conns.Keys == {1} && s.conns[1].dev == dev && Listed(s, 1) && s.dd == start.dd[dev := OK]
  {
  }

  lemma SecondPeer(s: State, s': State, dev: nat)
    requires Joined(s, s', 2, dev) && Listed(s, 1) && 2 !in s.conns
    ensures Quiet(s') && Listed(s', 1) && Listed(s', 2) && s'.conns[1].dev == s.conns[1].dev && s'.conns[2].dev == dev
    ensures s'.dd == s.dd[dev := OK]
  {
  }

  /** Two peers connect. */
  lemma TwoPeers(start: State, d1: nat, d2: nat, h1: seq<Pair>, h2: seq<Pair>) returns (run: seq<Action>)
    requires Init(start) && d1 != PORT && d2 != PORT && d1 != d2
    requires Lists(h1, Pairs(start.dd[d1 := OK])) && Lists(h2, Pairs(start.dd[d1 := OK][d2 := OK]))
    ensures Legal(start, run) && Picks(run, 1) == h1 && Picks(run, 2) == h2
    ensures var s := After(start, run);
            && Inv(s) && Quiet(s) && Listed(s, 1) && Listed(s, 2) && s.conns[1].dev == d1 && s.conns[2].dev == d2
            && s.dd == start.dd[d1 := OK][d2 := OK]
  {
    hide Inv, Legal, After, Quiet, Picks, Lists, Pairs, Joined;
    AtStart(start);
    var r1 := Hello(start, 1, d1, h1);
    var s1 := After(start, r1);
    OnePeer(start, s1, d1);
    var r2 := Hello(s1, 2, d2, h2);
    SecondPeer(s1, After(s1, r2), d2);
    JoinRuns(start, r1, r2, 1, 2);
    assert h1 + [] == h1 && [] + h2 == h2;
    run := r1 + r2;
  }

  /** From the start of the master two peers connect and their flags go out of step, in whatever
      order the two hellos and the two flag reports send. */
  lemma ReachedFromStart(start: State, d1: nat, d2: nat, f: nat,
                         h1: seq<Pair>, h2: seq<Pair>, o1: seq<Pair>, o2: seq<Pair>)
    returns (run: seq<Action>)
    requires Init(start) && d1 != PORT && d2 != PORT && d1 != d2 && f != OK
    requires Lists(h1, Pairs(start.dd[d1 := OK])) && Lists(h2, Pairs(start.dd[d1 := OK][d2 := OK]))
    requires Lists(o1, Pairs(start.dd[d1 := OK][d2 := OK])) && Lists(o2, Pairs(start.dd[d1 := OK][d2 := OK]))
    ensures Legal(start, run) && Picks(run, 1) == h1 + o1 && Picks(run, 2) == h2 + o2
    ensures Quiet(After(start, run)) && Wrong(After(start, run), 1, d2)
  {
    hide Inv, Legal, After, Quiet, Value, Pairs, Lists, Picks, Wrong;
    var r1 := TwoPeers(start, d1, d2, h1, h2);
    var s := After(start, r1);
    var r2 := FlagsDisagree(s, 1, 2, f, o1, o2);
    JoinRuns(start, r1, r2, 1, 2);
    run := r1 + r2;
  }
}
