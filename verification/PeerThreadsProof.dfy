/** Under every interleaving of the peer threads: announcements never follow the removal of
    the same connection, and whenever no thread is in the middle of anything, every
    connected slave's channel ends in exactly the master's membership. */
module PeerThreadsProof {
  import opened Options
  import opened PeerThreads

  /** Moving one thread on, possibly with a new directory. */
  function Moved(s: State, c: nat, ph: Phase, dd: map<nat, nat>): State
    requires c in s.conns
  {
    Move(s, c, ph).(dd := dd)
  }

  // ------------------------------------------------------------------ moving a thread on

  /** A change of phase that respects the semaphores and the order of a connection's life. */
  ghost predicate Lawful(s: State, c: nat, ph': Phase)
    requires c in s.conns
  {
    var ph := s.conns[c].phase;
    && !ph'.Fresh? && !ph.Gone?
    && (ph'.Telling? ==> ph.Telling? || PeersFree(s))
    && (forall t :: Holds(ph', t) ==> Holds(ph, t) || TxFree(s, t))
    && (ListedPhase(ph) && !ListedPhase(ph') ==> PeersFree(s))
    && (ListedPhase(ph') && !ListedPhase(ph) ==> ph.Fresh?)
  }

  /** Moreover one that owes removals to the same peers as before, and announces only the listed. */
  ghost predicate Smooth(s: State, c: nat, ph': Phase)
    requires c in s.conns
  {
    var ph := s.conns[c].phase;
    && Lawful(s, c, ph')
    && (forall p :: Untold(ph', p) && !ph.Fresh? ==> Untold(ph, p))
    && (forall p :: Untold(ph, p) && Listed(s, p) ==> Untold(ph', p))
    && (ph'.Post? ==> ph' == ph || Listed(s, ph'.who))
  }

  lemma MovePhases(s: State, c: nat, ph': Phase, dd': map<nat, nat>)
    requires Phases(s) && c in s.conns && Lawful(s, c, ph')
    requires GoodPhase(Moved(s, c, ph', dd'), c)
    ensures Phases(Moved(s, c, ph', dd'))
  {
    var s' := Moved(s, c, ph', dd');
    forall d | d in s'.conns ensures GoodPhase(s', d) {
      if d != c {
        assert GoodPhase(s, d);
        var ph := s'.conns[d].phase;
        if ph.Telling? {
          forall t | t in ph.todo ensures Listed(s', t) {
            assert Listed(s, t);
          }
        }
      }
    }
  }

  lemma MoveLive(s: State, c: nat, ph': Phase, dd': map<nat, nat>)
    requires OneLive(s) && c in s.conns && !s.conns[c].phase.Gone?
    ensures OneLive(Moved(s, c, ph', dd'))
  {
    assert forall d :: Live(Moved(s, c, ph', dd'), d) ==> Live(s, d);
  }

  lemma MoveShape(s: State, c: nat, ph': Phase, dd': map<nat, nat>)
    requires Shape(s) && c in s.conns && Lawful(s, c, ph')
    requires GoodPhase(Moved(s, c, ph', dd'), c)
    requires DirMatches(Moved(s, c, ph', dd'))
    ensures Shape(Moved(s, c, ph', dd'))
  {
    MovePhases(s, c, ph', dd');
    MoveLive(s, c, ph', dd');
  }

  lemma MoveExclusive(s: State, c: nat, ph': Phase, dd': map<nat, nat>)
    requires Exclusive(s) && c in s.conns && Lawful(s, c, ph')
    ensures Exclusive(Moved(s, c, ph', dd'))
  {
  }

  lemma MoveLines(s: State, c: nat, ph': Phase, dd': map<nat, nat>)
    requires DelsAreOver(s) && PostsAreEarly(s) && Ordered(s) && Shape(s) && c in s.conns && Smooth(s, c, ph')
    requires GoodPhase(Moved(s, c, ph', dd'), c)
    ensures DelsAreOver(Moved(s, c, ph', dd')) && PostsAreEarly(Moved(s, c, ph', dd')) && Ordered(Moved(s, c, ph', dd'))
  {
    var s' := Moved(s, c, ph', dd');
    forall p, m | p in s'.conns && m in s'.conns[p].line && m.Del?
      ensures m.conn in s'.conns && !Untold(s'.conns[m.conn].phase, p) && !s'.conns[m.conn].phase.Fresh?
    {
      assert m in s.conns[p].line;
    }
    forall r | r in s'.conns && s'.conns[r].phase.Post?
      ensures var ph := s'.conns[r].phase;
              ph.tgt in s'.conns && ph.who in s'.conns
              && NoDelYet(s'.conns[ph.tgt].line, ph.who)
              && (Listed(s', ph.tgt) ==> Untold(s'.conns[ph.who].phase, ph.tgt))
    {
      MovePost(s, c, ph', dd', r);
    }
  }

  lemma MovePost(s: State, c: nat, ph': Phase, dd': map<nat, nat>, r: nat)
    requires DelsAreOver(s) && PostsAreEarly(s) && Phases(s) && c in s.conns && Smooth(s, c, ph')
    requires GoodPhase(Moved(s, c, ph', dd'), c)
    requires r in s.conns && Moved(s, c, ph', dd').conns[r].phase.Post?
    ensures var s' := Moved(s, c, ph', dd');
            var ph := s'.conns[r].phase;
            ph.tgt in s'.conns && ph.who in s'.conns
            && NoDelYet(s'.conns[ph.tgt].line, ph.who)
            && (Listed(s', ph.tgt) ==> Untold(s'.conns[ph.who].phase, ph.tgt))
  {
    var s' := Moved(s, c, ph', dd');
    var ph := s'.conns[r].phase;
    assert GoodPhase(s, r);
    if r == c && ph' != s.conns[c].phase {
      assert Listed(s, ph.who);
      forall m | m in s.conns[ph.tgt].line && m.Del? ensures m.conn != ph.who {
      }
    } else {
      assert ph == s.conns[r].phase;
    }
  }

  lemma MoveSound(s: State, c: nat, ph': Phase, dd': map<nat, nat>)
    requires Sound(s) && Shape(s) && c in s.conns && Smooth(s, c, ph')
    ensures Sound(Moved(s, c, ph', dd'))
  {
    var s' := Moved(s, c, ph', dd');
    forall p, k | Listed(s', p) && k != PORT && Shows(s'.conns[p].line, k) ensures Backed(s', p, k) {
      assert GoodPhase(s, p);
      assert Listed(s, p);
      assert Backed(s, p, k);
      var d :| d in s.conns && s.conns[d].dev == k && Untold(s.conns[d].phase, p);
      assert Untold(s'.conns[d].phase, p);
    }
  }

  /** The thread keeps every debt that still matters. */
  ghost predicate KeepsDebts(s: State, ph: Phase, ph': Phase) {
    forall p, k ::
      (Listed(s, p) && InDir(s, p) && Established(s, k) && k != s.conns[p].dev && Due(ph, p, s.conns[p].dev, k))
      ==> Due(ph', p, s.conns[p].dev, k) || Shows(s.conns[p].line, k)
  }

  /** Completeness survives when the moving thread keeps every debt that still matters and
      nobody becomes newly entitled. */
  lemma MoveComplete(s: State, c: nat, ph': Phase, dd': map<nat, nat>)
    requires Complete(s) && c in s.conns
    requires forall k :: Established(Moved(s, c, ph', dd'), k) ==> Established(s, k)
    requires forall p :: Listed(Moved(s, c, ph', dd'), p) && InDir(Moved(s, c, ph', dd'), p) ==> Listed(s, p) && InDir(s, p)
    requires KeepsDebts(s, s.conns[c].phase, ph')
    ensures Complete(Moved(s, c, ph', dd'))
  {
    var s' := Moved(s, c, ph', dd');
    forall p, k | Listed(s', p) && InDir(s', p) && Established(s', k) && k != s'.conns[p].dev
      ensures Shows(s'.conns[p].line, k) || SomeDue(s', p, k)
    {
      if !Shows(s.conns[p].line, k) {
        assert SomeDue(s, p, k);
        var r :| r in s.conns && Due(s.conns[r].phase, p, s.conns[p].dev, k);
        assert Due(s'.conns[r].phase, p, s'.conns[p].dev, k);
      }
    }
  }

  lemma MoveDir(s: State, c: nat, ph': Phase)
    requires DirMatches(s) && c in s.conns && InDirPhase(ph') == InDirPhase(s.conns[c].phase)
    ensures DirMatches(Moved(s, c, ph', s.dd))
  {
    var s' := Moved(s, c, ph', s.dd);
    forall k | k in s.dd && k != PORT ensures exists d :: InDir(s', d) && s'.conns[d].dev == k {
      var d :| InDir(s, d) && s.conns[d].dev == k;
      assert InDir(s', d);
    }
    forall d | InDir(s', d) ensures s'.conns[d].dev in s'.dd {
      assert InDir(s, d);
    }
  }

  lemma MoveShapeSameDir(s: State, c: nat, ph': Phase)
    requires Shape(s) && c in s.conns && Lawful(s, c, ph') && GoodPhase(Moved(s, c, ph', s.dd), c)
    requires InDirPhase(ph') == InDirPhase(s.conns[c].phase)
    ensures Shape(Moved(s, c, ph', s.dd))
  {
    MoveDir(s, c, ph');
    MoveShape(s, c, ph', s.dd);
  }

  lemma MoveCompleteNobodyNew(s: State, c: nat, ph': Phase, dd': map<nat, nat>)
    requires Complete(s) && c in s.conns
    requires ListedPhase(ph') && InDirPhase(ph') ==> Listed(s, c) && InDir(s, c)
    requires KeepsDebts(s, s.conns[c].phase, ph')
    ensures Complete(Moved(s, c, ph', dd'))
  {
    forall k | Established(Moved(s, c, ph', dd'), k) ensures Established(s, k) {
      EstablishedBefore(s, c, ph', dd', k);
    }
    MoveComplete(s, c, ph', dd');
  }

  /** All of it together, for a move that leaves the directory alone and keeps its debts. */
  lemma MoveKeeps(s: State, c: nat, ph': Phase)
    requires Inv(s) && c in s.conns && Smooth(s, c, ph')
    requires GoodPhase(Moved(s, c, ph', s.dd), c)
    requires InDirPhase(ph') == InDirPhase(s.conns[c].phase)
    requires ListedPhase(ph') && InDirPhase(ph') ==> ListedPhase(s.conns[c].phase)
    requires KeepsDebts(s, s.conns[c].phase, ph')
    ensures Inv(Moved(s, c, ph', s.dd))
  {
    assert Lawful(s, c, ph');
    hide Shape, Exclusive, DelsAreOver, PostsAreEarly, Ordered, Sound, Complete, Smooth, GoodPhase, KeepsDebts, Moved;
    MoveShapeSameDir(s, c, ph');
    MoveExclusive(s, c, ph', s.dd);
    MoveLines(s, c, ph', s.dd);
    MoveSound(s, c, ph', s.dd);
    MoveCompleteNobodyNew(s, c, ph', s.dd);
  }

  /** All that a change of phase needs to keep the invariant. */
  ghost predicate Ready(s: State, c: nat, ph': Phase) {
    && c in s.conns && Smooth(s, c, ph') && GoodPhase(Moved(s, c, ph', s.dd), c)
    && InDirPhase(ph') == InDirPhase(s.conns[c].phase)
    && (ListedPhase(ph') && InDirPhase(ph') ==> ListedPhase(s.conns[c].phase))
    && KeepsDebts(s, s.conns[c].phase, ph')
  }

  lemma ReadyKeeps(s: State, c: nat, ph': Phase)
    requires Inv(s) && Ready(s, c, ph')
    ensures Inv(Moved(s, c, ph', s.dd))
  {
    hide Inv, Smooth, GoodPhase, KeepsDebts;
    MoveKeeps(s, c, ph');
  }

  lemma EstablishedBefore(s: State, c: nat, ph': Phase, dd': map<nat, nat>, k: nat)
    requires c in s.conns && Established(Moved(s, c, ph', dd'), k)
    requires ListedPhase(ph') && InDirPhase(ph') ==> Listed(s, c) && InDir(s, c)
    ensures Established(s, k)
  {
    var s' := Moved(s, c, ph', dd');
    if k != PORT {
      var d :| Listed(s', d) && InDir(s', d) && s'.conns[d].dev == k;
      assert Listed(s, d) && InDir(s, d) && s.conns[d].dev == k;
    }
  }

  /** The same for a move that changes the directory. */
  lemma MoveKeepsWithDir(s: State, c: nat, ph': Phase, dd': map<nat, nat>)
    requires Inv(s) && c in s.conns && Smooth(s, c, ph')
    requires GoodPhase(Moved(s, c, ph', dd'), c) && Shape(Moved(s, c, ph', dd')) && Complete(Moved(s, c, ph', dd'))
    ensures Inv(Moved(s, c, ph', dd'))
  {
    assert Lawful(s, c, ph');
    hide Shape, Exclusive, DelsAreOver, PostsAreEarly, Ordered, Sound, Complete, Smooth, GoodPhase, Moved;
    MoveExclusive(s, c, ph', dd');
    MoveLines(s, c, ph', dd');
    MoveSound(s, c, ph', dd');
  }

  // ------------------------------------------------------------------ adding to a line

  lemma AppendPhase(s: State, t: nat, m: Msg, d: nat)
    requires d in s.conns && GoodPhase(s, d) && t in s.conns && !s.conns[t].phase.Fresh?
    ensures GoodPhase(Append(s, t, m), d)
  {
    var s' := Append(s, t, m);
    if s.conns[d].phase.Telling? {
      forall x | x in s.conns[d].phase.todo ensures Listed(s', x) {
        assert Listed(s, x);
      }
    }
  }

  lemma AppendShape(s: State, t: nat, m: Msg)
    requires Shape(s) && t in s.conns && !s.conns[t].phase.Fresh?
    ensures Shape(Append(s, t, m))
  {
    AppendPhases(s, t, m);
    AppendLive(s, t, m);
    AppendDir(s, t, m);
  }

  lemma AppendPhases(s: State, t: nat, m: Msg)
    requires Phases(s) && t in s.conns && !s.conns[t].phase.Fresh?
    ensures Phases(Append(s, t, m))
  {
    forall d | d in s.conns ensures GoodPhase(Append(s, t, m), d) {
      AppendPhase(s, t, m, d);
    }
  }

  lemma AppendLive(s: State, t: nat, m: Msg)
    requires OneLive(s) && t in s.conns
    ensures OneLive(Append(s, t, m))
  {
    assert forall c :: Live(Append(s, t, m), c) ==> Live(s, c);
  }

  lemma AppendDir(s: State, t: nat, m: Msg)
    requires DirMatches(s) && t in s.conns
    ensures DirMatches(Append(s, t, m))
  {
    var s' := Append(s, t, m);
    forall k | k in s'.dd && k != PORT ensures exists c :: InDir(s', c) && s'.conns[c].dev == k {
      var c :| InDir(s, c) && s.conns[c].dev == k;
      assert InDir(s', c);
    }
    forall c | InDir(s', c) ensures s'.conns[c].dev in s'.dd {
      assert InDir(s, c);
    }
  }

  lemma AppendLines(s: State, t: nat, m: Msg)
    requires DelsAreOver(s) && PostsAreEarly(s) && Ordered(s) && t in s.conns && !m.Del?
    requires m.Add? && m.who.Some? ==> NoDelYet(s.conns[t].line, m.who.value)
    ensures DelsAreOver(Append(s, t, m)) && PostsAreEarly(Append(s, t, m)) && Ordered(Append(s, t, m))
  {
    var s' := Append(s, t, m);
    forall p, x | p in s'.conns && x in s'.conns[p].line && x.Del?
      ensures x in s.conns[p].line
    {
    }
  }

  lemma AppendSound(s: State, t: nat, m: Msg)
    requires Sound(s) && t in s.conns && !m.Del?
    requires m.Add? && m.dev != PORT && Listed(s, t) ==> Backed(s, t, m.dev)
    ensures Sound(Append(s, t, m))
  {
    var s' := Append(s, t, m);
    forall p, k | Listed(s', p) && k != PORT && Shows(s'.conns[p].line, k) ensures Backed(s', p, k) {
      ShowsSnoc(s.conns[t].line, m, k);
      assert Backed(s, p, k);
      var d :| d in s.conns && s.conns[d].dev == k && Untold(s.conns[d].phase, p);
      assert Untold(s'.conns[d].phase, p);
    }
  }

  lemma AppendComplete(s: State, t: nat, m: Msg)
    requires Complete(s) && t in s.conns && !m.Del?
    ensures Complete(Append(s, t, m))
  {
    var s' := Append(s, t, m);
    forall p, k | Listed(s', p) && InDir(s', p) && Established(s', k) && k != s'.conns[p].dev
      ensures Shows(s'.conns[p].line, k) || SomeDue(s', p, k)
    {
      ShowsSnoc(s.conns[t].line, m, k);
      assert Established(s, k) by {
        if k != PORT {
          var c :| Listed(s', c) && InDir(s', c) && s'.conns[c].dev == k;
          assert Listed(s, c) && InDir(s, c) && s.conns[c].dev == k;
        }
      }
      if !Shows(s.conns[p].line, k) {
        assert SomeDue(s, p, k);
        var r :| r in s.conns && Due(s.conns[r].phase, p, s.conns[p].dev, k);
        assert Due(s'.conns[r].phase, p, s'.conns[p].dev, k);
      }
    }
  }

  lemma AppendExclusive(s: State, t: nat, m: Msg)
    requires Exclusive(s) && t in s.conns
    ensures Exclusive(Append(s, t, m))
  {
  }

  lemma AppendKeeps(s: State, t: nat, m: Msg)
    requires Inv(s) && t in s.conns && !s.conns[t].phase.Fresh? && !m.Del?
    requires m.Add? && m.who.Some? ==> NoDelYet(s.conns[t].line, m.who.value)
    requires m.Add? && m.dev != PORT && Listed(s, t) ==> Backed(s, t, m.dev)
    ensures Inv(Append(s, t, m))
  {
    hide Shape, Exclusive, DelsAreOver, PostsAreEarly, Ordered, Sound, Complete, Append, NoDelYet, Backed;
    AppendShape(s, t, m);
    AppendExclusive(s, t, m);
    AppendLines(s, t, m);
    AppendSound(s, t, m);
    AppendComplete(s, t, m);
  }

  // ------------------------------------------------------------------ the steps, one by one

  lemma ConnectKeeps(s: State, c: nat, dev: nat)
    requires Inv(s) && Enabled(s, Connect(c, dev))
    ensures Inv(Step(s, Connect(c, dev)))
  {
    ConnectShape(s, c, dev);
    ConnectLines(s, c, dev);
    ConnectExclusive(s, c, dev);
    ConnectSound(s, c, dev);
    ConnectComplete(s, c, dev);
  }

  lemma ConnectLines(s: State, c: nat, dev: nat)
    requires Phases(s) && DelsAreOver(s) && PostsAreEarly(s) && Ordered(s) && Enabled(s, Connect(c, dev))
    ensures var s' := Step(s, Connect(c, dev));
            DelsAreOver(s') && PostsAreEarly(s') && Ordered(s')
  {
    var s' := Step(s, Connect(c, dev));
    forall r | r in s'.conns && s'.conns[r].phase.Post? ensures r in s.conns && GoodPhase(s, r) {
    }
  }

  lemma ConnectExclusive(s: State, c: nat, dev: nat)
    requires Exclusive(s) && Enabled(s, Connect(c, dev))
    ensures Exclusive(Step(s, Connect(c, dev)))
  {
  }

  lemma ConnectSound(s: State, c: nat, dev: nat)
    requires Sound(s) && Enabled(s, Connect(c, dev))
    ensures Sound(Step(s, Connect(c, dev)))
  {
    var s' := Step(s, Connect(c, dev));
    forall p, k | Listed(s', p) && k != PORT && Shows(s'.conns[p].line, k) ensures Backed(s', p, k) {
      assert Backed(s, p, k);
      var d :| d in s.conns && s.conns[d].dev == k && Untold(s.conns[d].phase, p);
      assert Untold(s'.conns[d].phase, p);
    }
  }

  lemma ConnectShape(s: State, c: nat, dev: nat)
    requires Shape(s) && Enabled(s, Connect(c, dev))
    ensures Shape(Step(s, Connect(c, dev)))
  {
    ConnectPhases(s, c, dev);
    ConnectDir(s, c, dev);
    ConnectLive(s, c, dev);
  }

  lemma ConnectPhases(s: State, c: nat, dev: nat)
    requires Phases(s) && Enabled(s, Connect(c, dev))
    ensures Phases(Step(s, Connect(c, dev)))
  {
    var s' := Step(s, Connect(c, dev));
    forall d | d in s'.conns ensures GoodPhase(s', d) {
      if d != c {
        assert GoodPhase(s, d);
        if s.conns[d].phase.Telling? {
          forall t | t in s.conns[d].phase.todo ensures Listed(s', t) {
            assert Listed(s, t);
          }
        }
      }
    }
  }

  lemma ConnectLive(s: State, c: nat, dev: nat)
    requires OneLive(s) && Enabled(s, Connect(c, dev))
    ensures OneLive(Step(s, Connect(c, dev)))
  {
    assert forall d :: Live(Step(s, Connect(c, dev)), d) ==> d == c || Live(s, d);
  }

  lemma ConnectDir(s: State, c: nat, dev: nat)
    requires DirMatches(s) && Enabled(s, Connect(c, dev))
    ensures DirMatches(Step(s, Connect(c, dev)))
  {
    var s' := Step(s, Connect(c, dev));
    forall k | k in s'.dd && k != PORT ensures exists d :: InDir(s', d) && s'.conns[d].dev == k {
      var d :| InDir(s, d) && s.conns[d].dev == k;
      assert InDir(s', d);
    }
    forall d | InDir(s', d) ensures s'.conns[d].dev in s'.dd {
      assert InDir(s, d);
    }
  }

  lemma ConnectComplete(s: State, c: nat, dev: nat)
    requires Complete(s) && Enabled(s, Connect(c, dev))
    ensures Complete(Step(s, Connect(c, dev)))
  {
    var s' := Step(s, Connect(c, dev));
    forall p, k | Listed(s', p) && InDir(s', p) && Established(s', k) && k != s'.conns[p].dev
      ensures Shows(s'.conns[p].line, k) || SomeDue(s', p, k)
    {
      assert Established(s, k) by {
        if k != PORT {
          var d :| Listed(s', d) && InDir(s', d) && s'.conns[d].dev == k;
          assert Listed(s, d) && InDir(s, d) && s.conns[d].dev == k;
        }
      }
      if !Shows(s.conns[p].line, k) {
        assert SomeDue(s, p, k);
        var r :| r in s.conns && Due(s.conns[r].phase, p, s.conns[p].dev, k);
        assert Due(s'.conns[r].phase, p, s'.conns[p].dev, k);
      }
    }
  }

  lemma EnterDirMatches(s: State, c: nat)
    requires DirMatches(s) && c in s.conns
    ensures DirMatches(Moved(s, c, Copy(true), s.dd[s.conns[c].dev := OK]))
  {
    var s' := Moved(s, c, Copy(true), s.dd[s.conns[c].dev := OK]);
    forall k | k in s'.dd && k != PORT ensures exists d :: InDir(s', d) && s'.conns[d].dev == k {
      if k == s.conns[c].dev {
        assert InDir(s', c);
      } else {
        var d :| InDir(s, d) && s.conns[d].dev == k;
        assert InDir(s', d);
      }
    }
    forall d | InDir(s', d) ensures s'.conns[d].dev in s'.dd {
      assert d == c || InDir(s, d);
    }
  }

  lemma EnterShape(s: State, c: nat)
    requires Shape(s) && c in s.conns && s.conns[c].phase.Enter?
    ensures Shape(Moved(s, c, Copy(true), s.dd[s.conns[c].dev := OK]))
  {
    EnterDirMatches(s, c);
    MoveShape(s, c, Copy(true), s.dd[s.conns[c].dev := OK]);
  }

  lemma EnterComplete(s: State, c: nat, dd': map<nat, nat>)
    requires c in s.conns
    ensures Complete(Moved(s, c, Copy(true), dd'))
  {
    var s' := Moved(s, c, Copy(true), dd');
    forall p, k | Listed(s', p) ensures SomeDue(s', p, k) {
      assert Due(s'.conns[c].phase, p, s'.conns[p].dev, k);
    }
  }

  lemma EnterKeeps(s: State, c: nat)
    requires Inv(s) && c in s.conns && s.conns[c].phase.Enter?
    ensures Inv(Moved(s, c, Copy(true), s.dd[s.conns[c].dev := OK]))
  {
    EnterShape(s, c);
    EnterComplete(s, c, s.dd[s.conns[c].dev := OK]);
    MoveKeepsWithDir(s, c, Copy(true), s.dd[s.conns[c].dev := OK]);
  }

  lemma CopyDebts(s: State, add: bool)
    requires Shape(s)
    ensures KeepsDebts(s, Copy(add), Send(Job(add, s.dd, Pairs(s.dd))))
  {
    var ph' := Send(Job(add, s.dd, Pairs(s.dd)));
    forall p, k | Listed(s, p) && InDir(s, p) && Established(s, k) && k != s.conns[p].dev && add
      ensures Due(ph', p, s.conns[p].dev, k)
    {
      assert s.conns[p].dev in s.dd && s.conns[p].dev != PORT;
      assert k in s.dd;
      assert (k, s.conns[p].dev) in Pairs(s.dd);
    }
  }

  lemma CopyKeeps(s: State, c: nat)
    requires Inv(s) && c in s.conns && s.conns[c].phase.Copy?
    ensures Inv(Moved(s, c, Send(Job(s.conns[c].phase.add, s.dd, Pairs(s.dd))), s.dd))
  {
    CopyDebts(s, s.conns[c].phase.add);
    MoveKeeps(s, c, Send(Job(s.conns[c].phase.add, s.dd, Pairs(s.dd))));
  }

  /** Dropping a pair from the work list, or taking it up, keeps the job in order. */
  lemma PickReady(s: State, c: nat, src: nat, dst: nat, found: Option<nat>)
    requires Phases(s) && OneLive(s) && Enabled(s, Pick(c, src, dst, found))
    ensures var ph := s.conns[c].phase;
            var job' := ph.job.(work := ph.job.work - {(src, dst)});
            var ph' := if found.Some? then Lock(src, found.value, job') else Send(job');
            Smooth(s, c, ph') && GoodPhase(Moved(s, c, ph', s.dd), c)
  {
    assert GoodPhase(s, c);
  }

  lemma PickKeeps(s: State, c: nat, src: nat, dst: nat, found: Option<nat>)
    requires Inv(s) && Enabled(s, Pick(c, src, dst, found))
    ensures Inv(Step(s, Pick(c, src, dst, found)))
  {
    var ph := s.conns[c].phase;
    var job' := ph.job.(work := ph.job.work - {(src, dst)});
    var ph' := if found.Some? then Lock(src, found.value, job') else Send(job');
    PickDebts(s, c, src, dst, found);
    PickReady(s, c, src, dst, found);
    hide Inv, Smooth, GoodPhase, KeepsDebts;
    assert Ready(s, c, ph');
    ReadyKeeps(s, c, ph');
  }

  lemma PickDebts(s: State, c: nat, src: nat, dst: nat, found: Option<nat>)
    requires Shape(s) && Enabled(s, Pick(c, src, dst, found))
    ensures var job := s.conns[c].phase.job;
            var job' := job.(work := job.work - {(src, dst)});
            KeepsDebts(s, s.conns[c].phase, if found.Some? then Lock(src, found.value, job') else Send(job'))
  {
    PickFinds(s, dst, found);
    hide Shape;
  }

  lemma PickFinds(s: State, dst: nat, found: Option<nat>)
    requires Shape(s) && Finds(s, dst, found)
    ensures forall p :: Listed(s, p) && s.conns[p].dev == dst ==> found == Some(p)
  {
    forall p | Listed(s, p) && s.conns[p].dev == dst ensures found == Some(p) {
      assert found.Some? ==> Live(s, p) && Live(s, found.value);
    }
  }

  lemma TakeKeeps(s: State, c: nat)
    requires Inv(s) && Enabled(s, Take(c))
    ensures Inv(Step(s, Take(c)))
  {
    var ph := s.conns[c].phase;
    assert GoodPhase(s, c);
    if ph.job.add && ph.src != PORT {
      TakeHold(s, c);
    } else {
      var m := if ph.job.add then Add(PORT, None, ph.job.copy[ph.src]) else FSet(ph.src, ph.job.copy[ph.src]);
      SendOff(s, c, m);
    }
  }

  lemma HoldReady(s: State, c: nat)
    requires Phases(s) && Enabled(s, Take(c)) && s.conns[c].phase.job.add && s.conns[c].phase.src != PORT
    ensures var ph := s.conns[c].phase; Ready(s, c, Hold(ph.src, ph.tgt, ph.job))
  {
    assert GoodPhase(s, c);
  }

  lemma TakeHold(s: State, c: nat)
    requires Inv(s) && Enabled(s, Take(c)) && s.conns[c].phase.job.add && s.conns[c].phase.src != PORT
    ensures var ph := s.conns[c].phase;
            Inv(Moved(s, c, Hold(ph.src, ph.tgt, ph.job), s.dd))
  {
    HoldReady(s, c);
    hide Inv, Ready;
    ReadyKeeps(s, c, Hold(s.conns[c].phase.src, s.conns[c].phase.tgt, s.conns[c].phase.job));
  }

  /** Sending the message a thread holds ready for its target, and going on with the job. */
  lemma SendOff(s: State, c: nat, m: Msg)
    requires Inv(s) && c in s.conns && (s.conns[c].phase.Lock? || s.conns[c].phase.Post?)
    requires s.conns[c].phase.tgt in s.conns && !m.Del?
    requires var ph := s.conns[c].phase;
             && (m.Add? && m.who.Some? ==> NoDelYet(s.conns[ph.tgt].line, m.who.value))
             && (m.Add? && m.dev != PORT && Listed(s, ph.tgt) ==> Backed(s, ph.tgt, m.dev))
             && (ph.job.add ==> m.Add? && m.dev == ph.src)
    ensures var ph := s.conns[c].phase;
            Inv(Append(Move(s, c, Send(ph.job)), ph.tgt, m))
  {
    var ph := s.conns[c].phase;
    assert GoodPhase(s, c);
    AppendKeeps(s, ph.tgt, m);
    SendOffDebts(s, c, m);
    SendOffOrder(s, c, m);
    hide Inv, KeepsDebts, GoodPhase, Append, Moved, Move, NoDelYet, Backed;
    SendOffMove(Append(s, ph.tgt, m), c);
  }

  lemma SendOffOrder(s: State, c: nat, m: Msg)
    requires c in s.conns && (s.conns[c].phase.Lock? || s.conns[c].phase.Post?) && s.conns[c].phase.tgt in s.conns
    ensures var ph := s.conns[c].phase;
            var s1 := Append(s, ph.tgt, m);
            && c in s1.conns && s1.conns[c].phase == ph
            && Moved(s1, c, Send(ph.job), s1.dd) == Append(Move(s, c, Send(ph.job)), ph.tgt, m)
  {
  }

  lemma SendOffDebts(s: State, c: nat, m: Msg)
    requires c in s.conns && (s.conns[c].phase.Lock? || s.conns[c].phase.Post?) && s.conns[c].phase.tgt in s.conns
    requires s.conns[c].phase.Post? ==> s.conns[c].phase.job.add
    requires s.conns[c].phase.job.add ==> m.Add? && m.dev == s.conns[c].phase.src
    ensures var ph := s.conns[c].phase;
            KeepsDebts(Append(s, ph.tgt, m), ph, Send(ph.job))
  {
    var ph := s.conns[c].phase;
    ShowsSnoc(s.conns[ph.tgt].line, m, ph.src);
  }

  lemma SendOffMove(s: State, c: nat)
    requires Inv(s) && c in s.conns && (s.conns[c].phase.Lock? || s.conns[c].phase.Post?)
    requires KeepsDebts(s, s.conns[c].phase, Send(s.conns[c].phase.job))
    ensures Inv(Moved(s, c, Send(s.conns[c].phase.job), s.dd))
  {
    SendPhase(s, c);
    hide Shape, Exclusive, DelsAreOver, PostsAreEarly, Ordered, Sound, Complete, Smooth, GoodPhase, KeepsDebts;
    MoveKeeps(s, c, Send(s.conns[c].phase.job));
  }

  lemma SendPhase(s: State, c: nat)
    requires Phases(s) && c in s.conns && (s.conns[c].phase.Lock? || s.conns[c].phase.Post?)
    ensures var ph' := Send(s.conns[c].phase.job); Smooth(s, c, ph') && GoodPhase(Moved(s, c, ph', s.dd), c)
  {
    assert GoodPhase(s, c);
  }

  lemma LookKeeps(s: State, c: nat, found: Option<nat>)
    requires Inv(s) && Enabled(s, Look(c, found))
    ensures Inv(Step(s, Look(c, found)))
  {
    var ph := s.conns[c].phase;
    var ph' := if found.Some? then Post(ph.src, found.value, ph.tgt, ph.job) else Send(ph.job);
    LookDebts(s, c, found);
    LookPhase(s, c, found);
    hide Shape, Exclusive, DelsAreOver, PostsAreEarly, Ordered, Sound, Complete, Smooth, GoodPhase, KeepsDebts;
    MoveKeeps(s, c, ph');
  }

  lemma LookPhase(s: State, c: nat, found: Option<nat>)
    requires Phases(s) && Enabled(s, Look(c, found))
    ensures var ph := s.conns[c].phase;
            var ph' := if found.Some? then Post(ph.src, found.value, ph.tgt, ph.job) else Send(ph.job);
            Smooth(s, c, ph') && GoodPhase(Moved(s, c, ph', s.dd), c)
  {
    assert GoodPhase(s, c);
  }

  /** If the lookup fails the source is no longer a peer, so nobody is owed an announcement. */
  lemma LookDebts(s: State, c: nat, found: Option<nat>)
    requires Shape(s) && Enabled(s, Look(c, found))
    ensures var ph := s.conns[c].phase;
            KeepsDebts(s, ph, if found.Some? then Post(ph.src, found.value, ph.tgt, ph.job) else Send(ph.job))
  {
    assert GoodPhase(s, c);
    hide Shape, PeersFree;
  }

  lemma EmitKeeps(s: State, c: nat)
    requires Inv(s) && Enabled(s, Emit(c))
    ensures Inv(Step(s, Emit(c)))
  {
    var ph := s.conns[c].phase;
    assert GoodPhase(s, c);
    if Listed(s, ph.tgt) {
      assert Untold(s.conns[ph.who].phase, ph.tgt);
      assert Backed(s, ph.tgt, ph.src);
    }
    SendOff(s, c, Add(ph.src, Some(ph.who), ph.job.copy[ph.src]));
  }

  // ------------------------------------------------------------------ leaving

  lemma RefuseReady(s: State, c: nat)
    requires Phases(s) && Enabled(s, Refuse(c))
    ensures Ready(s, c, Gone)
  {
    assert GoodPhase(s, c);
  }

  lemma RefuseKeeps(s: State, c: nat)
    requires Inv(s) && Enabled(s, Refuse(c))
    ensures Inv(Step(s, Refuse(c)))
  {
    RefuseReady(s, c);
    hide Inv, Ready;
    ReadyKeeps(s, c, Gone);
  }

  lemma EnlistReady(s: State, c: nat)
    requires Phases(s) && Enabled(s, Enlist(c))
    ensures Ready(s, c, Enter)
  {
    assert GoodPhase(s, c);
  }

  lemma EnlistKeeps(s: State, c: nat)
    requires Inv(s) && Enabled(s, Enlist(c))
    ensures Inv(Step(s, Enlist(c)))
  {
    EnlistReady(s, c);
    hide Inv, Ready;
    ReadyKeeps(s, c, Enter);
  }

  lemma FinishReady(s: State, c: nat)
    requires Phases(s) && Enabled(s, Finish(c))
    ensures Ready(s, c, Idle)
  {
    assert GoodPhase(s, c);
  }

  lemma FinishKeeps(s: State, c: nat)
    requires Inv(s) && Enabled(s, Finish(c))
    ensures Inv(Step(s, Finish(c)))
  {
    FinishReady(s, c);
    hide Inv, Ready;
    ReadyKeeps(s, c, Idle);
  }

  lemma UnlistReady(s: State, c: nat)
    requires Phases(s) && Enabled(s, Unlist(c))
    ensures Ready(s, c, Drop)
  {
    assert GoodPhase(s, c);
  }

  lemma UnlistKeeps(s: State, c: nat)
    requires Inv(s) && Enabled(s, Unlist(c))
    ensures Inv(Step(s, Unlist(c)))
  {
    UnlistReady(s, c);
    hide Inv, Ready;
    ReadyKeeps(s, c, Drop);
  }

  lemma StartTellingReady(s: State, c: nat)
    requires Phases(s) && Enabled(s, StartTelling(c))
    ensures Ready(s, c, Telling(Peers(s)))
  {
    assert GoodPhase(s, c);
  }

  lemma StartTellingKeeps(s: State, c: nat)
    requires Inv(s) && Enabled(s, StartTelling(c))
    ensures Inv(Step(s, StartTelling(c)))
  {
    StartTellingReady(s, c);
    hide Inv, Ready;
    ReadyKeeps(s, c, Telling(Peers(s)));
  }

  lemma EndTellingReady(s: State, c: nat)
    requires Phases(s) && Enabled(s, EndTelling(c))
    ensures Ready(s, c, Gone)
  {
    assert GoodPhase(s, c);
  }

  lemma EndTellingKeeps(s: State, c: nat)
    requires Inv(s) && Enabled(s, EndTelling(c))
    ensures Inv(Step(s, EndTelling(c)))
  {
    EndTellingReady(s, c);
    hide Inv, Ready;
    ReadyKeeps(s, c, Gone);
  }

  lemma SetFlagReady(s: State, c: nat, f: nat)
    requires Phases(s) && DirMatches(s) && Enabled(s, SetFlag(c, f))
    ensures Ready(s, c, Copy(false)) && s.conns[c].dev in s.dd
  {
    assert GoodPhase(s, c) && InDir(s, c);
  }

  lemma SetFlagKeeps(s: State, c: nat, f: nat)
    requires Inv(s) && Enabled(s, SetFlag(c, f))
    ensures Inv(Step(s, SetFlag(c, f)))
  {
    SetFlagReady(s, c, f);
    hide Inv, Ready;
    ReadyKeeps(s, c, Copy(false));
    SameKeysKeep(Moved(s, c, Copy(false), s.dd), s.dd[s.conns[c].dev := f]);
  }

  /** Nothing depends on the flags themselves. */
  lemma SameKeysKeep(s: State, dd': map<nat, nat>)
    requires Inv(s) && dd'.Keys == s.dd.Keys
    ensures Inv(s.(dd := dd'))
  {
    SameKeysShape(s, dd');
    SameKeysComplete(s, dd');
    SameKeysSound(s, dd');
    SameKeysLines(s, dd');
  }

  lemma SameKeysComplete(s: State, dd': map<nat, nat>)
    requires Complete(s)
    ensures Complete(s.(dd := dd'))
  {
    var s' := s.(dd := dd');
    forall p, k | Listed(s', p) && InDir(s', p) && Established(s', k) && k != s'.conns[p].dev
      ensures Shows(s'.conns[p].line, k) || SomeDue(s', p, k)
    {
      assert Established(s, k) by {
        if k != PORT {
          var d :| Listed(s', d) && InDir(s', d) && s'.conns[d].dev == k;
          assert Listed(s, d) && InDir(s, d) && s.conns[d].dev == k;
        }
      }
      assert Listed(s, p) && InDir(s, p);
    }
  }

  lemma SameKeysSound(s: State, dd': map<nat, nat>)
    requires Sound(s)
    ensures Sound(s.(dd := dd'))
  {
    var s' := s.(dd := dd');
    forall p, k | Listed(s', p) && k != PORT && Shows(s'.conns[p].line, k) ensures Backed(s', p, k) {
      assert Listed(s, p) && Backed(s, p, k);
    }
  }

  lemma SameKeysLines(s: State, dd': map<nat, nat>)
    requires Exclusive(s) && DelsAreOver(s) && PostsAreEarly(s) && Ordered(s)
    ensures var s' := s.(dd := dd'); Exclusive(s') && DelsAreOver(s') && PostsAreEarly(s') && Ordered(s')
  {
  }

  lemma SameKeysShape(s: State, dd': map<nat, nat>)
    requires Shape(s) && dd'.Keys == s.dd.Keys
    ensures Shape(s.(dd := dd'))
  {
    SameKeysPhases(s, dd');
    SameKeysDir(s, dd');
    SameKeysLive(s, dd');
  }

  lemma SameKeysPhases(s: State, dd': map<nat, nat>)
    requires Phases(s)
    ensures Phases(s.(dd := dd'))
  {
    forall c | c in s.conns ensures GoodPhase(s.(dd := dd'), c) {
      assert GoodPhase(s, c);
    }
  }

  lemma SameKeysLive(s: State, dd': map<nat, nat>)
    requires OneLive(s)
    ensures OneLive(s.(dd := dd'))
  {
    assert forall c :: Live(s.(dd := dd'), c) ==> Live(s, c);
  }

  lemma SameKeysDir(s: State, dd': map<nat, nat>)
    requires DirMatches(s) && dd'.Keys == s.dd.Keys
    ensures DirMatches(s.(dd := dd'))
  {
    var s' := s.(dd := dd');
    assert forall k :: k in dd' <==> k in s.dd;
    forall k | k in dd' && k != PORT ensures exists c :: InDir(s', c) && s'.conns[c].dev == k {
      var c :| InDir(s, c) && s.conns[c].dev == k;
      assert InDir(s', c);
    }
    forall c | InDir(s', c) ensures s'.conns[c].dev in dd' {
      assert InDir(s, c);
    }
  }

  lemma DropSmooth(s: State, c: nat)
    requires Phases(s) && Enabled(s, DropDir(c))
    ensures Smooth(s, c, Tell) && GoodPhase(Moved(s, c, Tell, s.dd - {s.conns[c].dev}), c)
  {
  }

  lemma DropComplete(s: State, c: nat)
    requires Complete(s) && Enabled(s, DropDir(c))
    ensures Complete(Moved(s, c, Tell, s.dd - {s.conns[c].dev}))
  {
    MoveCompleteNobodyNew(s, c, Tell, s.dd - {s.conns[c].dev});
  }

  lemma DropKeeps(s: State, c: nat)
    requires Inv(s) && Enabled(s, DropDir(c))
    ensures Inv(Step(s, DropDir(c)))
  {
    DropShape(s, c);
    DropComplete(s, c);
    DropSmooth(s, c);
    hide Inv, Smooth, GoodPhase, Shape, Complete;
    MoveKeepsWithDir(s, c, Tell, s.dd - {s.conns[c].dev});
  }

  lemma DropDirMatches(s: State, c: nat)
    requires DirMatches(s) && Phases(s) && OneLive(s) && c in s.conns && s.conns[c].phase.Drop?
    ensures DirMatches(Moved(s, c, Tell, s.dd - {s.conns[c].dev}))
  {
    hide GoodPhase;
    var s' := Moved(s, c, Tell, s.dd - {s.conns[c].dev});
    assert s.conns[c].dev != PORT;
    assert forall d :: d in s.conns && d != c ==> s'.conns[d] == s.conns[d];
    hide Phases, Moved;
    forall k | k in s'.dd && k != PORT ensures exists d :: InDir(s', d) && s'.conns[d].dev == k {
      var d :| InDir(s, d) && s.conns[d].dev == k;
      assert InDir(s', d);
    }
    forall d | InDir(s', d) ensures s'.conns[d].dev in s'.dd {
      assert InDir(s, d) && Live(s, d) && Live(s, c) && d != c;
    }
  }

  lemma DropShape(s: State, c: nat)
    requires Shape(s) && c in s.conns && s.conns[c].phase.Drop?
    ensures Shape(Moved(s, c, Tell, s.dd - {s.conns[c].dev}))
  {
    DropDirMatches(s, c);
    MoveShape(s, c, Tell, s.dd - {s.conns[c].dev});
  }

  // ------------------------------------------------------------------ telling one peer

  /** The state after connection `c` has told `t`. */
  function Told(s: State, c: nat, t: nat): State
    requires c in s.conns && t in s.conns && s.conns[c].phase.Telling?
  {
    Append(Move(s, c, Telling(s.conns[c].phase.todo - {t})), t, Del(s.conns[c].dev, c))
  }

  lemma ToldPhase(s: State, c: nat, t: nat)
    requires Phases(s) && Enabled(s, TellOne(c, t))
    ensures var ph' := Telling(s.conns[c].phase.todo - {t});
            GoodPhase(Moved(s, c, ph', s.dd), c) && Lawful(s, c, ph') && Listed(s, t)
  {
    assert GoodPhase(s, c);
  }

  lemma ToldShape(s: State, c: nat, t: nat)
    requires Shape(s) && Exclusive(s) && Enabled(s, TellOne(c, t))
    ensures Shape(Told(s, c, t)) && Exclusive(Told(s, c, t))
  {
    var ph' := Telling(s.conns[c].phase.todo - {t});
    var s1 := Moved(s, c, ph', s.dd);
    ToldPhase(s, c, t);
    hide Shape, Exclusive, GoodPhase, Lawful;
    MoveShapeSameDir(s, c, ph');
    MoveExclusive(s, c, ph', s.dd);
    AppendShape(s1, t, Del(s.conns[c].dev, c));
    AppendExclusive(s1, t, Del(s.conns[c].dev, c));
  }

  lemma ToldDels(s: State, c: nat, t: nat)
    requires DelsAreOver(s) && Enabled(s, TellOne(c, t))
    ensures DelsAreOver(Told(s, c, t))
  {
    var s' := Told(s, c, t);
    forall p, m | p in s'.conns && m in s'.conns[p].line && m.Del?
      ensures m.conn in s'.conns && !Untold(s'.conns[m.conn].phase, p) && !s'.conns[m.conn].phase.Fresh?
    {
      assert m in s.conns[p].line || (p == t && m.conn == c);
    }
  }

  lemma ToldPosts(s: State, c: nat, t: nat)
    requires PostsAreEarly(s) && Enabled(s, TellOne(c, t))
    ensures PostsAreEarly(Told(s, c, t))
  {
    var s' := Told(s, c, t);
    forall r | r in s'.conns && s'.conns[r].phase.Post?
      ensures var ph := s'.conns[r].phase;
              ph.tgt in s'.conns && ph.tgt != t && s'.conns[ph.tgt].line == s.conns[ph.tgt].line
    {
      assert !Holds(s.conns[r].phase, t);
    }
  }

  lemma ToldLines(s: State, c: nat, t: nat)
    requires DelsAreOver(s) && PostsAreEarly(s) && Ordered(s) && Enabled(s, TellOne(c, t))
    ensures DelsAreOver(Told(s, c, t)) && PostsAreEarly(Told(s, c, t)) && Ordered(Told(s, c, t))
  {
    ToldDels(s, c, t);
    ToldPosts(s, c, t);
    hide DelsAreOver, PostsAreEarly;
  }

  lemma ToldSound(s: State, c: nat, t: nat)
    requires Sound(s) && Enabled(s, TellOne(c, t))
    ensures Sound(Told(s, c, t))
  {
    var s' := Told(s, c, t);
    forall p, k | Listed(s', p) && k != PORT && Shows(s'.conns[p].line, k) ensures Backed(s', p, k) {
      ShowsSnoc(s.conns[t].line, Del(s.conns[c].dev, c), k);
      assert Listed(s, p) && Shows(s.conns[p].line, k);
      assert Backed(s, p, k);
      var d :| d in s.conns && s.conns[d].dev == k && Untold(s.conns[d].phase, p);
      assert Untold(s'.conns[d].phase, p);
    }
  }

  /** What telling `t` changes: nothing but the sender's to-do set and the line of `t`. */
  lemma ToldFacts(s: State, c: nat, t: nat)
    requires Enabled(s, TellOne(c, t))
    ensures var s' := Told(s, c, t);
            && (forall d :: Listed(s', d) == Listed(s, d) && InDir(s', d) == InDir(s, d))
            && s'.conns.Keys == s.conns.Keys
            && (forall d :: d in s.conns ==> s'.conns[d].dev == s.conns[d].dev)
            && (forall d :: d in s.conns && d != c ==> s'.conns[d].phase == s.conns[d].phase)
            && s'.conns[c].phase.Telling? && s.conns[c].phase.Telling?
            && (forall p :: p in s.conns && p != t ==> s'.conns[p].line == s.conns[p].line)
            && s'.conns[t].line == s.conns[t].line + [Del(s.conns[c].dev, c)]
  {
  }

  lemma TellerIsAlone(s: State, c: nat, d: nat)
    requires Shape(s) && c in s.conns && s.conns[c].phase.Telling? && Listed(s, d)
    ensures s.conns[d].dev != s.conns[c].dev
  {
    hide Phases, DirMatches;
    assert Live(s, c) && Live(s, d);
  }

  /** Whoever is established now was before, and is not the device that is leaving. */
  lemma ToldEstablished(s: State, c: nat, t: nat, k: nat)
    requires Shape(s) && Enabled(s, TellOne(c, t)) && Established(Told(s, c, t), k)
    ensures Established(s, k) && k != s.conns[c].dev
  {
    var s' := Told(s, c, t);
    assert s.conns[c].dev != PORT;
    ToldFacts(s, c, t);
    hide Told, Shape, Enabled;
    if k != PORT {
      var d :| Listed(s', d) && InDir(s', d) && s'.conns[d].dev == k;
      TellerIsAlone(s, c, d);
    }
  }

  lemma ToldComplete(s: State, c: nat, t: nat)
    requires Complete(s) && Shape(s) && Enabled(s, TellOne(c, t))
    ensures Complete(Told(s, c, t))
  {
    var s' := Told(s, c, t);
    ToldFacts(s, c, t);
    hide Told, Shape, Enabled, Shows, SomeDue, Established;
    forall p, k | Listed(s', p) && InDir(s', p) && Established(s', k) && k != s'.conns[p].dev
      ensures Shows(s'.conns[p].line, k) || SomeDue(s', p, k)
    {
      ToldEstablished(s, c, t, k);
      ToldOne(s, c, t, p, k);
    }
  }

  lemma ToldOne(s: State, c: nat, t: nat, p: nat, k: nat)
    requires Complete(s) && Enabled(s, TellOne(c, t))
    requires Listed(Told(s, c, t), p) && InDir(Told(s, c, t), p) && Established(s, k)
    requires k != s.conns[p].dev && k != s.conns[c].dev
    ensures Shows(Told(s, c, t).conns[p].line, k) || SomeDue(Told(s, c, t), p, k)
  {
    var s' := Told(s, c, t);
    ToldFacts(s, c, t);
    ShowsSnoc(s.conns[t].line, Del(s.conns[c].dev, c), k);
    hide Told, Shows, Established, Enabled;
    if !Shows(s.conns[p].line, k) {
      assert SomeDue(s, p, k);
      var r :| r in s.conns && Due(s.conns[r].phase, p, s.conns[p].dev, k);
      assert r != c;
      assert Due(s'.conns[r].phase, p, s'.conns[p].dev, k);
    }
  }

  lemma TellOneKeeps(s: State, c: nat, t: nat)
    requires Inv(s) && Enabled(s, TellOne(c, t))
    ensures Inv(Step(s, TellOne(c, t)))
  {
    assert Step(s, TellOne(c, t)) == Told(s, c, t);
    hide Shape, Exclusive, DelsAreOver, PostsAreEarly, Ordered, Sound, Complete, Told, Step;
    ToldShape(s, c, t);
    ToldLines(s, c, t);
    ToldSound(s, c, t);
    ToldComplete(s, c, t);
  }

  // ------------------------------------------------------------------ every interleaving

  lemma StepKeeps(s: State, a: Action)
    requires Inv(s) && Enabled(s, a)
    ensures Inv(Step(s, a))
  {
    hide Inv;
    match a
    case Connect(c, dev) => ConnectKeeps(s, c, dev);
    case Refuse(c) => RefuseKeeps(s, c);
    case Enlist(c) => EnlistKeeps(s, c);
    case EnterDir(c) => EnterKeeps(s, c);
    case CopyDir(c) => CopyKeeps(s, c);
    case Pick(c, src, dst, found) => PickKeeps(s, c, src, dst, found);
    case Take(c) => TakeKeeps(s, c);
    case Look(c, found) => LookKeeps(s, c, found);
    case Emit(c) => EmitKeeps(s, c);
    case Finish(c) => FinishKeeps(s, c);
    case SetFlag(c, f) => SetFlagKeeps(s, c, f);
    case Unlist(c) => UnlistKeeps(s, c);
    case DropDir(c) => DropKeeps(s, c);
    case StartTelling(c) => StartTellingKeeps(s, c);
    case TellOne(c, t) => TellOneKeeps(s, c, t);
    case EndTelling(c) => EndTellingKeeps(s, c);
  }

  ghost predicate Legal(s: State, run: seq<Action>)
    decreases |run|
  {
    run != [] ==> Enabled(s, run[0]) && Legal(Step(s, run[0]), run[1..])
  }

  ghost function After(s: State, run: seq<Action>): State
    requires Legal(s, run)
    decreases |run|
  {
    if run == [] then s else After(Step(s, run[0]), run[1..])
  }

  lemma {:induction false} RunKeeps(s: State, run: seq<Action>)
    requires Inv(s) && Legal(s, run)
    ensures Inv(After(s, run))
    decreases |run|
  {
    if run != [] {
      StepKeeps(s, run[0]);
      RunKeeps(Step(s, run[0]), run[1..]);
    }
  }

  lemma InitInv(s: State)
    requires Init(s)
    ensures Inv(s)
  {
  }

  /** No channel ever carries the announcement of a connection after its removal. */
  lemma NoAddAfterDel(start: State, run: seq<Action>, p: nat, i: nat, j: nat)
    requires Init(start) && Legal(start, run) && p in After(start, run).conns
    requires i < j < |After(start, run).conns[p].line| && After(start, run).conns[p].line[i].Del?
    ensures var line := After(start, run).conns[p].line;
            !(line[j].Add? && line[j].who == Some(line[i].conn))
  {
    InitInv(start);
    RunKeeps(start, run);
    assert AddsFirst(After(start, run).conns[p].line);
  }

  predicate AtRest(ph: Phase) { ph.Fresh? || ph.Idle? || ph.Gone? }

  /** No thread is between two of its steps. */
  ghost predicate Quiet(s: State) { forall c :: c in s.conns ==> AtRest(s.conns[c].phase) }

  lemma NothingDue(s: State, p: nat, k: nat)
    requires Quiet(s) && p in s.conns
    ensures !SomeDue(s, p, k)
  {
  }

  lemma ShowsDirectory(s: State, p: nat, k: nat)
    requires Shape(s) && Complete(s) && Quiet(s) && Listed(s, p) && k in s.dd && k != s.conns[p].dev
    ensures Shows(s.conns[p].line, k)
  {
    NothingDue(s, p, k);
    if k != PORT {
      var c :| InDir(s, c) && s.conns[c].dev == k;
      assert Listed(s, c);
    }
    assert Established(s, k);
  }

  lemma ShowsNothingElse(s: State, p: nat, k: nat)
    requires Shape(s) && Sound(s) && Quiet(s) && Listed(s, p) && Shows(s.conns[p].line, k)
    ensures k in s.dd
  {
    if k != PORT {
      assert Backed(s, p, k);
      var c :| c in s.conns && s.conns[c].dev == k && Untold(s.conns[c].phase, p);
      assert InDir(s, c);
    }
  }

  /** Whenever all threads are at rest, every connected slave has been told exactly the
      directory's other devices. */
  lemma MembershipAgrees(start: State, run: seq<Action>, p: nat, k: nat)
    requires Init(start) && Legal(start, run) && Quiet(After(start, run))
    requires Listed(After(start, run), p) && k != After(start, run).conns[p].dev
    ensures Shows(After(start, run).conns[p].line, k) <==> k in After(start, run).dd
  {
    InitInv(start);
    RunKeeps(start, run);
    var s := After(start, run);
    if k in s.dd {
      ShowsDirectory(s, p, k);
    } else if Shows(s.conns[p].line, k) {
      ShowsNothingElse(s, p, k);
    }
  }
}
