/** When flags do agree.  At rest every connected slave holds exactly the master's flags,
    provided each change of a flag, and each listing of a peer, happens while no message that
    would then be wrong is still on its way to a listed peer.  Everything else may interleave:
    any number of hellos, harmless flag reports and removals. */
module FlagAgreement {
  import opened Options
  import opened PeerThreads
  import opened PeerThreadsProof

  // ------------------------------------------------------------------ what is still to be sent

  /** The thread will still ask for the semaphore of connection `t` to say something of `k`. */
  predicate Pending(s: State, ph: Phase, k: nat, t: nat) {
    && t in s.conns && HasJob(ph)
    && ((k, s.conns[t].dev) in ph.job.work || (ph.Lock? && ph.src == k && ph.tgt == t))
  }

  /** The thread holds that semaphore and is about to announce `k`. */
  predicate Holding(ph: Phase, k: nat, t: nat) { (ph.Hold? || ph.Post?) && ph.src == k && ph.tgt == t }

  predicate HasWork(ph: Phase, k: nat, b: nat) { HasJob(ph) && (k, b) in ph.job.work }

  /** Not yet sent; and no overwriting message can be relied upon to come after it. */
  predicate Unsent(s: State, ph: Phase, k: nat, t: nat) { Pending(s, ph, k, t) || Holding(ph, k, t) }

  predicate Unprotected(s: State, ph: Phase, k: nat, t: nat) {
    Pending(s, ph, k, t) || (Holding(ph, k, t) && !InDir(s, t))
  }

  /** If the thread says anything of `k`, it says flag `f`. */
  predicate Says(ph: Phase, k: nat, f: nat) { HasJob(ph) && k in ph.job.copy ==> ph.job.copy[k] == f }

  ghost predicate Newcomer(s: State, c: nat) { c in s.conns && s.conns[c].phase.Enter? }

  /** The flag that everybody should end up with: the directory's, or the initial one of a
      device about to enter it. */
  ghost function Want(s: State, k: nat): Option<nat> {
    if k in s.dd then Some(s.dd[k])
    else if exists c :: Newcomer(s, c) && s.conns[c].dev == k then Some(OK)
    else None
  }

  /** A flag is changed only when nothing still to be sent, and nothing a newcomer has been
      told, contradicts the new one. */
  ghost predicate FlagGuard(s: State, k: nat, f: nat) {
    && (forall r, t :: r in s.conns && Listed(s, t) && Unprotected(s, s.conns[r].phase, k, t) ==>
          Says(s.conns[r].phase, k, f))
    && (forall p :: Newcomer(s, p) ==> Value(s.conns[p].line, k).None? || Value(s.conns[p].line, k) == Some({f}))
  }

  /** A peer is listed only when what is still to be sent to it is right, and what is still to
      be sent of it gives the initial flag. */
  ghost predicate ListGuard(s: State, b: nat) {
    && (forall r, k :: r in s.conns && HasWork(s.conns[r].phase, k, b) && Want(s, k).Some? ==>
          Says(s.conns[r].phase, k, Want(s, k).value))
    && (forall r, t :: r in s.conns && Listed(s, t) && Unsent(s, s.conns[r].phase, b, t) ==>
          Says(s.conns[r].phase, b, OK))
  }

  ghost predicate Guarded(s: State, a: Action) {
    a.conn in s.conns ==>
      && (a.Enlist? ==> ListGuard(s, s.conns[a.conn].dev))
      && (a.SetFlag? ==> FlagGuard(s, s.conns[a.conn].dev, a.flag))
  }

  // ------------------------------------------------------------------ the invariant

  /** The thread will still overwrite the flag of `k` at connection `p`. */
  predicate Owes(ph: Phase, p: nat, pdev: nat, k: nat) {
    match ph
    case Copy(add) => !add
    case Send(job) => !job.add && (k, pdev) in job.work
    case Lock(src, tgt, job) => !job.add && ((src == k && tgt == p) || (k, pdev) in job.work)
    case _ => false
  }

  /** A wrong flag of `k` at `p` does not matter, for it will be overwritten. */
  ghost predicate Excused(s: State, p: nat, k: nat) {
    && InDir(s, p) && k in s.dd && k != s.conns[p].dev
    && exists r :: r in s.conns && Owes(s.conns[r].phase, p, s.conns[p].dev, k)
  }

  ghost predicate PendingRight(s: State, ph: Phase) {
    forall k, t :: Listed(s, t) && Pending(s, ph, k, t) && Want(s, k).Some? ==> Says(ph, k, Want(s, k).value)
  }

  ghost predicate HoldingRight(s: State, ph: Phase) {
    forall k, t :: Listed(s, t) && Holding(ph, k, t) && Want(s, k).Some? ==>
      Says(ph, k, Want(s, k).value) || Excused(s, t, k)
  }

  ghost predicate AllPending(s: State) { forall r :: r in s.conns ==> PendingRight(s, s.conns[r].phase) }

  ghost predicate AllHolding(s: State) { forall r :: r in s.conns ==> HoldingRight(s, s.conns[r].phase) }

  predicate Shown(v: Option<set<nat>>, f: nat) { v.None? || v == Some({f}) }

  ghost predicate Entitled(s: State, p: nat, k: nat) { Listed(s, p) && k != s.conns[p].dev && Want(s, k).Some? }

  ghost predicate AllRight(s: State) {
    forall p, k :: Entitled(s, p, k) ==> Shown(Value(s.conns[p].line, k), Want(s, k).value) || Excused(s, p, k)
  }

  ghost predicate FlagInv(s: State) { AllPending(s) && AllHolding(s) && AllRight(s) }

  // ------------------------------------------------------------------ moving a thread on

  lemma WantSame(s: State, s': State, k: nat)
    requires s'.dd == s.dd && forall c :: Newcomer(s', c) == Newcomer(s, c)
    requires forall c :: Newcomer(s, c) && Newcomer(s', c) ==> s'.conns[c].dev == s.conns[c].dev
    ensures Want(s', k) == Want(s, k)
  {
    if c :| Newcomer(s, c) && s.conns[c].dev == k {
      assert Newcomer(s', c);
    }
    if c :| Newcomer(s', c) && s'.conns[c].dev == k {
      assert Newcomer(s, c);
    }
  }

  /** What is still owed stays owed, or is right and out of the way of announcements. */
  ghost predicate KeepsOwed(s: State, ph: Phase, ph': Phase) {
    forall p, k :: Listed(s, p) && InDir(s, p) && k in s.dd && k != s.conns[p].dev && Owes(ph, p, s.conns[p].dev, k) ==>
      Owes(ph', p, s.conns[p].dev, k) || (Shown(Value(s.conns[p].line, k), s.dd[k]) && NotHeld(s, p))
  }

  ghost predicate NotHeld(s: State, t: nat) { forall r :: r in s.conns ==> !Holds(s.conns[r].phase, t) }

  /** What a change of phase must respect. */
  ghost predicate Fits(s: State, c: nat, ph': Phase)
    requires c in s.conns
  {
    var ph := s.conns[c].phase;
    && PendingRight(s, ph') && HoldingRight(s, ph') && KeepsOwed(s, ph, ph')
    && (ph'.Hold? || ph'.Post? ==> HasJob(ph) && ph.job.add)
    && !ph.Enter? && !ph'.Enter? && InDirPhase(ph') == InDirPhase(ph) && (ListedPhase(ph') ==> ListedPhase(ph))
  }

  /** An excuse that survives the move, or is no longer needed. */
  lemma MoveExcuse(s: State, c: nat, ph': Phase, p: nat, k: nat)
    requires c in s.conns && KeepsOwed(s, s.conns[c].phase, ph') && InDirPhase(ph') == InDirPhase(s.conns[c].phase)
    requires Listed(s, p) && Excused(s, p, k)
    ensures Excused(Move(s, c, ph'), p, k) || (Shown(Value(s.conns[p].line, k), s.dd[k]) && NotHeld(s, p))
  {
    var s' := Move(s, c, ph');
    var r :| r in s.conns && Owes(s.conns[r].phase, p, s.conns[p].dev, k);
    assert InDir(s', p);
    if r != c || Owes(ph', p, s.conns[p].dev, k) {
      assert Owes(s'.conns[r].phase, p, s'.conns[p].dev, k);
    }
  }

  lemma MoveWant(s: State, c: nat, ph': Phase, k: nat)
    requires c in s.conns && !s.conns[c].phase.Enter? && !ph'.Enter?
    ensures Want(Move(s, c, ph'), k) == Want(s, k)
  {
    WantSame(s, Move(s, c, ph'), k);
  }

  lemma MovePending(s: State, c: nat, ph': Phase)
    requires AllPending(s) && c in s.conns && Fits(s, c, ph')
    ensures AllPending(Move(s, c, ph'))
  {
    hide HoldingRight, KeepsOwed, Value;
    var s' := Move(s, c, ph');
    forall r | r in s'.conns ensures PendingRight(s', s'.conns[r].phase) {
      var q := s'.conns[r].phase;
      assert PendingRight(s, q);
      forall k, t | Listed(s', t) && Pending(s', q, k, t) && Want(s', k).Some? ensures Says(q, k, Want(s', k).value) {
        MoveWant(s, c, ph', k);
        assert Listed(s, t) && Pending(s, q, k, t);
      }
    }
  }

  lemma MoveHolding(s: State, c: nat, ph': Phase)
    requires AllHolding(s) && c in s.conns && Fits(s, c, ph')
    ensures AllHolding(Move(s, c, ph'))
  {
    hide PendingRight, Value;
    var s' := Move(s, c, ph');
    forall r | r in s'.conns ensures HoldingRight(s', s'.conns[r].phase) {
      var q := s'.conns[r].phase;
      assert HoldingRight(s, q);
      forall k, t | Listed(s', t) && Holding(q, k, t) && Want(s', k).Some?
        ensures Says(q, k, Want(s', k).value) || Excused(s', t, k)
      {
        MoveWant(s, c, ph', k);
        assert Listed(s, t);
        if Excused(s, t, k) {
          MoveExcuse(s, c, ph', t, k);
          if !Excused(s', t, k) {
            assert Holds(q, t) && r == c;
            assert NothingOwed(s.conns[c].phase);
            HoldExcuse(s, c, ph', t, k);
          }
        }
      }
    }
  }

  ghost predicate NothingOwed(ph: Phase) { forall p, d, k :: !Owes(ph, p, d, k) }

  lemma HoldExcuse(s: State, c: nat, ph': Phase, p: nat, k: nat)
    requires c in s.conns && NothingOwed(s.conns[c].phase) && InDirPhase(ph') == InDirPhase(s.conns[c].phase)
    requires Excused(s, p, k)
    ensures Excused(Move(s, c, ph'), p, k)
  {
    var s' := Move(s, c, ph');
    var r :| r in s.conns && Owes(s.conns[r].phase, p, s.conns[p].dev, k);
    assert InDir(s', p) && Owes(s'.conns[r].phase, p, s'.conns[p].dev, k);
  }

  lemma MoveRight(s: State, c: nat, ph': Phase)
    requires AllRight(s) && c in s.conns && Fits(s, c, ph')
    ensures AllRight(Move(s, c, ph'))
  {
    hide PendingRight, HoldingRight, Value;
    var s' := Move(s, c, ph');
    forall p, k | Entitled(s', p, k) ensures Shown(Value(s'.conns[p].line, k), Want(s', k).value) || Excused(s', p, k) {
      MoveWant(s, c, ph', k);
      assert Entitled(s, p, k);
      if Excused(s, p, k) {
        MoveExcuse(s, c, ph', p, k);
      }
    }
  }

  lemma MoveFlags(s: State, c: nat, ph': Phase)
    requires FlagInv(s) && c in s.conns && Fits(s, c, ph')
    ensures FlagInv(Move(s, c, ph'))
  {
    hide AllPending, AllHolding, AllRight, Fits;
    MovePending(s, c, ph');
    MoveHolding(s, c, ph');
    MoveRight(s, c, ph');
  }

  // ------------------------------------------------------------------ adding to a line

  lemma AppendWant(s: State, t: nat, m: Msg, k: nat)
    requires t in s.conns
    ensures Want(Append(s, t, m), k) == Want(s, k)
  {
    WantSame(s, Append(s, t, m), k);
  }

  lemma AppendExcuse(s: State, t: nat, m: Msg, p: nat, k: nat)
    requires t in s.conns && Excused(s, p, k)
    ensures Excused(Append(s, t, m), p, k)
  {
    var s' := Append(s, t, m);
    var r :| r in s.conns && Owes(s.conns[r].phase, p, s.conns[p].dev, k);
    assert InDir(s', p) && Owes(s'.conns[r].phase, p, s'.conns[p].dev, k);
  }

  /** A removal; or a message that is right, or that an overwriting one will follow. */
  ghost predicate Sendable(s: State, t: nat, m: Msg)
    requires t in s.conns
  {
    m.Del? || (Listed(s, t) && m.dev != s.conns[t].dev && Want(s, m.dev).Some? ==>
                 m.flag == Want(s, m.dev).value || (m.Add? && Excused(s, t, m.dev)))
  }

  lemma AppendRight(s: State, t: nat, m: Msg)
    requires AllRight(s) && t in s.conns && Sendable(s, t, m)
    ensures AllRight(Append(s, t, m))
  {
    var s' := Append(s, t, m);
    forall p, k | Entitled(s', p, k) ensures Shown(Value(s'.conns[p].line, k), Want(s', k).value) || Excused(s', p, k) {
      AppendWant(s, t, m, k);
      assert Entitled(s, p, k);
      ValueSnoc(s.conns[t].line, m, k);
      if Excused(s, p, k) {
        AppendExcuse(s, t, m, p, k);
      }
    }
  }

  lemma AppendFlags(s: State, t: nat, m: Msg)
    requires FlagInv(s) && t in s.conns && Sendable(s, t, m)
    ensures FlagInv(Append(s, t, m))
  {
    var s' := Append(s, t, m);
    AppendRight(s, t, m);
    hide AllRight, Value, Sendable;
    forall r | r in s'.conns ensures PendingRight(s', s'.conns[r].phase) && HoldingRight(s', s'.conns[r].phase) {
      var q := s'.conns[r].phase;
      assert PendingRight(s, q) && HoldingRight(s, q);
      forall k, u | Listed(s', u) && Pending(s', q, k, u) && Want(s', k).Some? ensures Says(q, k, Want(s', k).value) {
        AppendWant(s, t, m, k);
        assert Listed(s, u) && Pending(s, q, k, u);
      }
      forall k, u | Listed(s', u) && Holding(q, k, u) && Want(s', k).Some?
        ensures Says(q, k, Want(s', k).value) || Excused(s', u, k)
      {
        AppendWant(s, t, m, k);
        assert Listed(s, u);
        if Excused(s, u, k) {
          AppendExcuse(s, t, m, u, k);
        }
      }
    }
  }

  // ------------------------------------------------------------------ steps within a broadcast

  lemma Commute(s: State, c: nat, ph': Phase, t: nat, m: Msg)
    requires c in s.conns && t in s.conns
    ensures Append(Move(s, c, ph'), t, m) == Move(Append(s, t, m), c, ph')
  {
    var a, b := Append(Move(s, c, ph'), t, m), Move(Append(s, t, m), c, ph');
    assert a.conns.Keys == b.conns.Keys;
    assert forall d :: d in a.conns ==> a.conns[d] == b.conns[d];
    assert a.conns == b.conns;
  }

  /** A thread that has nothing to send. */
  lemma IdleFlags(s: State, c: nat, ph': Phase)
    requires FlagInv(s) && c in s.conns && !HasJob(ph') && !ph'.Enter? && !ph'.Copy? && NothingOwed(s.conns[c].phase)
    requires !s.conns[c].phase.Enter? && InDirPhase(ph') == InDirPhase(s.conns[c].phase)
    requires ListedPhase(ph') ==> ListedPhase(s.conns[c].phase)
    ensures FlagInv(Move(s, c, ph'))
  {
    assert Fits(s, c, ph');
    hide Fits, FlagInv;
    MoveFlags(s, c, ph');
  }

  lemma CopyFits(s: State, c: nat)
    requires DirMatches(s) && Phases(s) && Enabled(s, CopyDir(c))
    ensures Fits(s, c, Send(Job(s.conns[c].phase.add, s.dd, Pairs(s.dd))))
  {
    var ph := s.conns[c].phase;
    var ph' := Send(Job(ph.add, s.dd, Pairs(s.dd)));
    forall p: nat, k: nat | Listed(s, p) && InDir(s, p) && k in s.dd && k != s.conns[p].dev
                            && Owes(ph, p, s.conns[p].dev, k)
      ensures Owes(ph', p, s.conns[p].dev, k)
    {
      assert s.conns[p].dev in s.dd && s.conns[p].dev != PORT;
    }
  }

  lemma CopyFlags(s: State, c: nat)
    requires Inv(s) && FlagInv(s) && Enabled(s, CopyDir(c))
    ensures FlagInv(Step(s, CopyDir(c)))
  {
    CopyFits(s, c);
    hide Inv, FlagInv, Fits, Pairs;
    MoveFlags(s, c, Send(Job(s.conns[c].phase.add, s.dd, Pairs(s.dd))));
  }

  lemma PickFits(s: State, c: nat, src: nat, dst: nat, found: Option<nat>)
    requires OneLive(s) && Enabled(s, Pick(c, src, dst, found)) && PendingRight(s, s.conns[c].phase)
    ensures var ph := s.conns[c].phase;
            var job' := ph.job.(work := ph.job.work - {(src, dst)});
            Fits(s, c, if found.Some? then Lock(src, found.value, job') else Send(job'))
  {
    hide Value;
    var ph := s.conns[c].phase;
    var job' := ph.job.(work := ph.job.work - {(src, dst)});
    var ph' := if found.Some? then Lock(src, found.value, job') else Send(job');
    forall p: nat, k: nat | Listed(s, p) && InDir(s, p) && k in s.dd && k != s.conns[p].dev
                            && Owes(ph, p, s.conns[p].dev, k)
      ensures Owes(ph', p, s.conns[p].dev, k)
    {
      if (k, s.conns[p].dev) == (src, dst) && found.Some? {
        assert Live(s, p) && Live(s, found.value);
      }
    }
    forall k, t | Listed(s, t) && Pending(s, ph', k, t) && Want(s, k).Some? ensures Says(ph', k, Want(s, k).value) {
      assert Pending(s, ph, k, t);
    }
  }

  lemma PickFlags(s: State, c: nat, src: nat, dst: nat, found: Option<nat>)
    requires Inv(s) && FlagInv(s) && Enabled(s, Pick(c, src, dst, found))
    ensures FlagInv(Step(s, Pick(c, src, dst, found)))
  {
    var ph := s.conns[c].phase;
    var job' := ph.job.(work := ph.job.work - {(src, dst)});
    assert PendingRight(s, ph);
    PickFits(s, c, src, dst, found);
    hide Inv, FlagInv, Fits;
    MoveFlags(s, c, if found.Some? then Lock(src, found.value, job') else Send(job'));
  }

  /** Going on with the rest of the work after an announcement or its absence. */
  lemma RestFits(s: State, c: nat)
    requires c in s.conns && (s.conns[c].phase.Lock? || s.conns[c].phase.Hold? || s.conns[c].phase.Post?)
    requires s.conns[c].phase.job.add && PendingRight(s, s.conns[c].phase)
    ensures Fits(s, c, Send(s.conns[c].phase.job))
  {
    hide Value;
    var ph := s.conns[c].phase;
    var ph' := Send(ph.job);
    forall k, t | Listed(s, t) && Pending(s, ph', k, t) && Want(s, k).Some? ensures Says(ph', k, Want(s, k).value) {
      assert Pending(s, ph, k, t);
    }
  }

  lemma HoldFits(s: State, c: nat, ph': Phase)
    requires c in s.conns && PendingRight(s, s.conns[c].phase) && HoldingRight(s, s.conns[c].phase)
    requires var ph := s.conns[c].phase;
             && ((ph.Lock? && ph'.Hold?) || (ph.Hold? && ph'.Post?))
             && ph'.src == ph.src && ph'.tgt == ph.tgt && ph'.job == ph.job && ph.job.add
    ensures Fits(s, c, ph')
  {
    hide Value;
    var ph := s.conns[c].phase;
    forall k, t | Listed(s, t) && Pending(s, ph', k, t) && Want(s, k).Some? ensures Says(ph', k, Want(s, k).value) {
      assert Pending(s, ph, k, t);
    }
    forall k, t | Listed(s, t) && Holding(ph', k, t) && Want(s, k).Some?
      ensures Says(ph', k, Want(s, k).value) || Excused(s, t, k)
    {
      assert Pending(s, ph, k, t) || Holding(ph, k, t);
    }
  }

  /** An announcement goes out. */
  lemma AnnounceFlags(s: State, c: nat, m: Msg)
    requires Inv(s) && FlagInv(s) && c in s.conns && (s.conns[c].phase.Lock? || s.conns[c].phase.Post?)
    requires var ph := s.conns[c].phase;
             && ph.job.add && m.Add? && m.dev == ph.src && ph.src in ph.job.copy && m.flag == ph.job.copy[ph.src]
             && ph.tgt in s.conns
    ensures var ph := s.conns[c].phase; FlagInv(Append(Move(s, c, Send(ph.job)), ph.tgt, m))
  {
    var ph := s.conns[c].phase;
    var t := ph.tgt;
    assert PendingRight(s, ph) && HoldingRight(s, ph);
    assert Pending(s, ph, ph.src, t) || Holding(ph, ph.src, t);
    assert Sendable(s, t, m);
    var s1 := Append(s, t, m);
    hide Inv, Sendable, Value;
    AppendFlags(s, t, m);
    Commute(s, c, Send(ph.job), t, m);
    assert s1.conns[c].phase == ph;
    assert PendingRight(s1, ph);
    RestFits(s1, c);
    hide FlagInv, Fits;
    MoveFlags(s1, c, Send(ph.job));
  }

  /** After an update has been sent nothing needs it any more. */
  lemma UpdatedFits(s: State, c: nat, t: nat)
    requires OneLive(s) && c in s.conns && s.conns[c].phase.Lock? && !s.conns[c].phase.job.add && s.conns[c].phase.tgt == t
    requires PendingRight(s, s.conns[c].phase) && NotHeld(s, t) && t in s.conns
    requires var k := s.conns[c].phase.src;
             k != s.conns[t].dev && Listed(s, t) && k in s.dd ==> Shown(Value(s.conns[t].line, k), s.dd[k])
    ensures Fits(s, c, Send(s.conns[c].phase.job))
  {
    hide Value;
    var ph := s.conns[c].phase;
    var ph' := Send(ph.job);
    forall k, u | Listed(s, u) && Pending(s, ph', k, u) && Want(s, k).Some? ensures Says(ph', k, Want(s, k).value) {
      assert Pending(s, ph, k, u);
    }
  }

  /** An update out of a job is right, and the line shows its flag if it shows the device. */
  lemma UpdateSent(s: State, c: nat)
    requires FlagInv(s) && Enabled(s, Take(c)) && !s.conns[c].phase.job.add
    ensures var ph := s.conns[c].phase;
            var m := FSet(ph.src, ph.job.copy[ph.src]);
            var s1 := Append(s, ph.tgt, m);
            && Sendable(s, ph.tgt, m) && NotHeld(s1, ph.tgt) && s1.conns[c].phase == ph
            && (ph.src != s.conns[ph.tgt].dev && Listed(s1, ph.tgt) && ph.src in s1.dd ==>
                  Shown(Value(s1.conns[ph.tgt].line, ph.src), s1.dd[ph.src]))
  {
    var ph := s.conns[c].phase;
    assert PendingRight(s, ph) && Pending(s, ph, ph.src, ph.tgt);
    ValueSnoc(s.conns[ph.tgt].line, FSet(ph.src, ph.job.copy[ph.src]), ph.src);
  }

  lemma UpdateFlags(s: State, c: nat)
    requires OneLive(s) && FlagInv(s) && Enabled(s, Take(c)) && !s.conns[c].phase.job.add
    ensures FlagInv(Step(s, Take(c)))
  {
    var ph := s.conns[c].phase;
    var t, m := ph.tgt, FSet(ph.src, ph.job.copy[ph.src]);
    var s1 := Append(s, t, m);
    UpdateSent(s, c);
    assert OneLive(s1);
    hide Sendable, Value, NotHeld, OneLive;
    AppendFlags(s, t, m);
    Commute(s, c, Send(ph.job), t, m);
    assert PendingRight(s1, ph);
    hide FlagInv, Fits;
    UpdatedFits(s1, c, t);
    MoveFlags(s1, c, Send(ph.job));
  }

  lemma ThreadFacts(s: State, c: nat)
    requires Inv(s) && FlagInv(s) && c in s.conns
    ensures PendingRight(s, s.conns[c].phase) && HoldingRight(s, s.conns[c].phase)
    ensures s.conns[c].phase.Hold? || s.conns[c].phase.Post? ==> s.conns[c].phase.job.add
  {
    assert GoodPhase(s, c);
    hide GoodPhase, PendingRight, HoldingRight;
  }

  lemma TakeFlags(s: State, c: nat)
    requires Inv(s) && FlagInv(s) && Enabled(s, Take(c))
    ensures FlagInv(Step(s, Take(c)))
  {
    hide Inv, FlagInv, Fits, PendingRight, HoldingRight;
    var ph := s.conns[c].phase;
    InvParts(s);
    hide OneLive, Sound, Phases, DirMatches;
    if !ph.job.add {
      UpdateFlags(s, c);
    } else if ph.src == PORT {
      AnnounceFlags(s, c, Add(PORT, None, ph.job.copy[ph.src]));
    } else {
      ThreadFacts(s, c);
      HoldFits(s, c, Hold(ph.src, ph.tgt, ph.job));
      MoveFlags(s, c, Hold(ph.src, ph.tgt, ph.job));
    }
  }

  lemma LookFlags(s: State, c: nat, found: Option<nat>)
    requires Inv(s) && FlagInv(s) && Enabled(s, Look(c, found))
    ensures FlagInv(Step(s, Look(c, found)))
  {
    hide Inv, FlagInv, Fits, PendingRight, HoldingRight;
    var ph := s.conns[c].phase;
    ThreadFacts(s, c);
    if found.Some? {
      HoldFits(s, c, Post(ph.src, found.value, ph.tgt, ph.job));
    } else {
      RestFits(s, c);
    }
    MoveFlags(s, c, if found.Some? then Post(ph.src, found.value, ph.tgt, ph.job) else Send(ph.job));
  }

  lemma EmitFlags(s: State, c: nat)
    requires Inv(s) && FlagInv(s) && Enabled(s, Emit(c))
    ensures FlagInv(Step(s, Emit(c)))
  {
    var ph := s.conns[c].phase;
    assert GoodPhase(s, c);
    AnnounceFlags(s, c, Add(ph.src, Some(ph.who), ph.job.copy[ph.src]));
  }

  lemma TellFlags(s: State, c: nat, t: nat)
    requires FlagInv(s) && Enabled(s, TellOne(c, t))
    ensures FlagInv(Step(s, TellOne(c, t)))
  {
    var ph' := Telling(s.conns[c].phase.todo - {t});
    IdleFlags(s, c, ph');
    AppendFlags(Move(s, c, ph'), t, Del(s.conns[c].dev, c));
  }

  // ------------------------------------------------------------------ steps that change who is expected

  /** Two states that differ only in a thread without a job and want the same. */
  ghost predicate Alike(s: State, s': State, c: nat) {
    && s.conns.Keys <= s'.conns.Keys && c in s'.conns && !HasJob(s'.conns[c].phase)
    && (forall d :: d in s'.conns && d != c ==> d in s.conns && s'.conns[d].phase == s.conns[d].phase)
    && (forall d :: d in s.conns ==> s'.conns[d].dev == s.conns[d].dev && s'.conns[d].line == s.conns[d].line)
    && (forall d :: Listed(s', d) ==> Listed(s, d))
    && (forall k :: Want(s', k) == Want(s, k))
    && (forall p, k :: Listed(s', p) && Excused(s, p, k) ==> Excused(s', p, k))
  }

  lemma AlikeJobs(s: State, s': State, c: nat, r: nat)
    requires AllPending(s) && AllHolding(s) && Alike(s, s', c) && r in s'.conns
    ensures PendingRight(s', s'.conns[r].phase) && HoldingRight(s', s'.conns[r].phase)
  {
    hide Value, Want, Excused;
    if r == c {
      NoJob(s', s'.conns[r].phase);
    } else {
      var q := s'.conns[r].phase;
      assert PendingRight(s, q) && HoldingRight(s, q);
      assert forall k, t :: Listed(s', t) && Pending(s', q, k, t) ==> Pending(s, q, k, t);
    }
  }

  lemma AlikeFlags(s: State, s': State, c: nat)
    requires FlagInv(s) && Alike(s, s', c)
    ensures FlagInv(s')
  {
    forall r | r in s'.conns ensures PendingRight(s', s'.conns[r].phase) && HoldingRight(s', s'.conns[r].phase) {
      AlikeJobs(s, s', c, r);
    }
    hide Value, Want, Excused, AllPending, AllHolding;
    forall p, k | Entitled(s', p, k) ensures Shown(Value(s'.conns[p].line, k), Want(s', k).value) || Excused(s', p, k) {
      assert Entitled(s, p, k);
    }
  }

  lemma ConnectFlags(s: State, c: nat, dev: nat)
    requires FlagInv(s) && Enabled(s, Connect(c, dev))
    ensures FlagInv(Step(s, Connect(c, dev)))
  {
    var s' := Step(s, Connect(c, dev));
    assert forall d :: d in s.conns ==> s'.conns[d] == s.conns[d];
    hide FlagInv, Value, Excused;
    forall k ensures Want(s', k) == Want(s, k) {
      WantSame(s, s', k);
    }
    hide Want;
    forall p, k | Excused(s, p, k) ensures Excused(s', p, k) {
      ExcuseIn(s, p, k);
      SameExcuse(s, s', p, k);
    }
    AlikeFlags(s, s', c);
  }

  lemma ExcuseIn(s: State, p: nat, k: nat)
    requires Excused(s, p, k)
    ensures InDir(s, p) && k in s.dd
  {
  }

  /** An excuse depends only on who is in the directory and what is owed. */
  lemma SameExcuse(s: State, s': State, p: nat, k: nat)
    requires Excused(s, p, k) && s.conns.Keys <= s'.conns.Keys && k in s'.dd && InDir(s', p)
    requires forall d :: d in s.conns ==> s'.conns[d].dev == s.conns[d].dev
    requires forall d :: d in s.conns && !NothingOwed(s.conns[d].phase) ==> s'.conns[d].phase == s.conns[d].phase
    ensures Excused(s', p, k)
  {
    var r :| r in s.conns && Owes(s.conns[r].phase, p, s.conns[p].dev, k);
    assert !NothingOwed(s.conns[r].phase);
    assert Owes(s'.conns[r].phase, p, s'.conns[p].dev, k);
  }

  /** Nobody has been told of a device whose connection is fresh. */
  lemma FreshUnheard(s: State, c: nat, p: nat)
    requires Sound(s) && OneLive(s) && c in s.conns && s.conns[c].phase.Fresh? && s.conns[c].dev != PORT && Listed(s, p)
    ensures Value(s.conns[p].line, s.conns[c].dev).None?
  {
    ValueShows(s.conns[p].line, s.conns[c].dev);
    forall d | d in s.conns && s.conns[d].dev == s.conns[c].dev ensures !Untold(s.conns[d].phase, p) {
      assert Live(s, c) && (Live(s, d) ==> d == c);
    }
  }

  /** A live connection that is not in the directory keeps its device out of it. */
  lemma OutsiderAbsent(s: State, c: nat)
    requires OneLive(s) && DirMatches(s) && Live(s, c) && !InDir(s, c) && s.conns[c].dev != PORT
    ensures s.conns[c].dev !in s.dd
  {
    forall d | InDir(s, d) ensures s.conns[d].dev != s.conns[c].dev {
      assert Live(s, d);
    }
  }

  lemma EnlistWant(s: State, c: nat, k: nat)
    requires c in s.conns && s.conns[c].phase.Fresh? && s.conns[c].dev !in s.dd
    ensures Want(Move(s, c, Enter), k) == if k == s.conns[c].dev then Some(OK) else Want(s, k)
  {
    var s' := Move(s, c, Enter);
    assert Newcomer(s', c);
    assert forall d :: d != c ==> Newcomer(s', d) == Newcomer(s, d);
    if k != s.conns[c].dev {
      if d :| Newcomer(s, d) && s.conns[d].dev == k {
        assert Newcomer(s', d);
      }
      if d :| Newcomer(s', d) && s'.conns[d].dev == k {
        assert Newcomer(s, d);
      }
    }
  }

  lemma EnlistPending(s: State, c: nat, r: nat)
    requires Phases(s) && AllPending(s) && AllHolding(s) && Enabled(s, Enlist(c)) && r in s.conns
    requires ListGuard(s, s.conns[c].dev) && s.conns[c].dev !in s.dd
    ensures var s' := Move(s, c, Enter); PendingRight(s', s'.conns[r].phase) && HoldingRight(s', s'.conns[r].phase)
  {
    var s', q, b := Move(s, c, Enter), s.conns[r].phase, s.conns[c].dev;
    hide Value, Want;
    assert PendingRight(s, q) && HoldingRight(s, q) && GoodPhase(s, r) && GoodPhase(s, c);
    if r != c {
      forall k, t | Listed(s', t) && Pending(s', q, k, t) && Want(s', k).Some? ensures Says(q, k, Want(s', k).value) {
        EnlistWant(s, c, k);
        if t == c {
          assert HasWork(q, k, b);
        } else {
          assert Listed(s, t) && Pending(s, q, k, t) && Unsent(s, q, k, t);
        }
      }
      forall k, t | Listed(s', t) && Holding(q, k, t) && Want(s', k).Some?
        ensures Says(q, k, Want(s', k).value) || Excused(s', t, k)
      {
        EnlistWant(s, c, k);
        assert Listed(s, t) && Unsent(s, q, k, t);
        if Excused(s, t, k) {
          SameExcuse(s, s', t, k);
        }
      }
    }
  }

  lemma EnlistUnheard(s: State, c: nat)
    requires Inv(s) && Enabled(s, Enlist(c))
    ensures s.conns[c].dev != PORT && s.conns[c].dev !in s.dd && s.conns[c].line == []
    ensures forall p :: Listed(s, p) ==> Value(s.conns[p].line, s.conns[c].dev).None?
  {
    assert GoodPhase(s, c) && Live(s, c) && s.conns[c].dev != PORT;
    OutsiderAbsent(s, c);
    hide Inv, GoodPhase, Value;
    assert Sound(s) && OneLive(s) by { InvParts(s); }
    forall p | Listed(s, p) ensures Value(s.conns[p].line, s.conns[c].dev).None? {
      FreshUnheard(s, c, p);
    }
  }

  lemma InvParts(s: State)
    requires Inv(s)
    ensures Sound(s) && OneLive(s) && Phases(s) && DirMatches(s)
  {
  }

  lemma EnlistRight(s: State, c: nat)
    requires AllRight(s) && Enabled(s, Enlist(c)) && s.conns[c].dev !in s.dd && s.conns[c].line == []
    requires forall p :: Listed(s, p) ==> Value(s.conns[p].line, s.conns[c].dev).None?
    ensures AllRight(Move(s, c, Enter))
  {
    var s', b := Move(s, c, Enter), s.conns[c].dev;
    assert Value([], 0).None? && forall k :: Value([], k).None?;
    hide Want;
    forall p, k | Entitled(s', p, k) ensures Shown(Value(s'.conns[p].line, k), Want(s', k).value) || Excused(s', p, k) {
      EnlistWant(s, c, k);
      if p != c && k != b {
        assert Entitled(s, p, k);
        if Excused(s, p, k) {
          SameExcuse(s, s', p, k);
        }
      }
    }
  }

  lemma EnlistFlags(s: State, c: nat)
    requires Inv(s) && FlagInv(s) && Enabled(s, Enlist(c)) && ListGuard(s, s.conns[c].dev)
    ensures FlagInv(Step(s, Enlist(c)))
  {
    EnlistUnheard(s, c);
    InvParts(s);
    hide Inv, Sound, OneLive, DirMatches, Value;
    EnlistRight(s, c);
    hide ListGuard, AllRight, PendingRight, HoldingRight;
    forall r | r in s.conns ensures
      var s' := Move(s, c, Enter); PendingRight(s', s'.conns[r].phase) && HoldingRight(s', s'.conns[r].phase)
    {
      EnlistPending(s, c, r);
    }
  }

  lemma EnterWant(s: State, c: nat, k: nat)
    requires Enabled(s, EnterDir(c))
    ensures Want(Step(s, EnterDir(c)), k) == if k == s.conns[c].dev then Some(OK) else Want(s, k)
  {
    var s' := Step(s, EnterDir(c));
    assert forall d :: d != c ==> Newcomer(s', d) == Newcomer(s, d);
    if k != s.conns[c].dev {
      if d :| Newcomer(s, d) && s.conns[d].dev == k {
        assert Newcomer(s', d);
      }
      if d :| Newcomer(s', d) && s'.conns[d].dev == k {
        assert Newcomer(s, d);
      }
    }
  }

  lemma EnterFlags(s: State, c: nat)
    requires FlagInv(s) && Enabled(s, EnterDir(c)) && s.conns[c].dev !in s.dd
    ensures FlagInv(Step(s, EnterDir(c)))
  {
    var s', b := Step(s, EnterDir(c)), s.conns[c].dev;
    assert Newcomer(s, c);
    forall k ensures Want(s', k) == Want(s, k) {
      EnterWant(s, c, k);
    }
    hide FlagInv, Value, Excused, Want;
    forall p, k | Excused(s, p, k) ensures Excused(s', p, k) {
      ExcuseIn(s, p, k);
      SameExcuse(s, s', p, k);
    }
    AlikeFlags(s, s', c);
  }

  lemma EnterAbsent(s: State, c: nat)
    requires Shape(s) && Enabled(s, EnterDir(c))
    ensures s.conns[c].dev !in s.dd
  {
    assert Live(s, c);
    OutsiderAbsent(s, c);
  }

  lemma SetFlagWant(s: State, c: nat, f: nat, k: nat)
    requires Enabled(s, SetFlag(c, f)) && s.conns[c].dev in s.dd
    ensures Want(Step(s, SetFlag(c, f)), k) == if k == s.conns[c].dev then Some(f) else Want(s, k)
  {
    var s' := Step(s, SetFlag(c, f));
    assert forall d :: Newcomer(s', d) == Newcomer(s, d);
    if d :| Newcomer(s, d) && s.conns[d].dev == k {
      assert Newcomer(s', d);
    }
    if d :| Newcomer(s', d) && s'.conns[d].dev == k {
      assert Newcomer(s, d);
    }
  }

  /** The thread that has just changed a flag owes everybody everything. */
  lemma OwesAll(s: State, c: nat, f: nat, p: nat, k: nat)
    requires Enabled(s, SetFlag(c, f)) && InDir(s, p) && k in s.dd && k != s.conns[p].dev && s.conns[c].dev in s.dd
    ensures Excused(Step(s, SetFlag(c, f)), p, k)
  {
    var s' := Step(s, SetFlag(c, f));
    assert Owes(s'.conns[c].phase, p, s'.conns[p].dev, k) && InDir(s', p);
  }

  lemma SetFlagPending(s: State, c: nat, f: nat, r: nat)
    requires Phases(s) && AllPending(s) && AllHolding(s) && Enabled(s, SetFlag(c, f)) && s.conns[c].dev in s.dd
    requires FlagGuard(s, s.conns[c].dev, f) && r in s.conns && r != c
    ensures var s' := Step(s, SetFlag(c, f)); PendingRight(s', s'.conns[r].phase) && HoldingRight(s', s'.conns[r].phase)
  {
    var s', q, b := Step(s, SetFlag(c, f)), s.conns[r].phase, s.conns[c].dev;
    hide Value, Want;
    assert PendingRight(s, q) && HoldingRight(s, q) && GoodPhase(s, r);
    assert forall t :: Listed(s', t) == Listed(s, t);
    forall k, t | Listed(s', t) && Pending(s', q, k, t) && Want(s', k).Some? ensures Says(q, k, Want(s', k).value) {
      SetFlagWant(s, c, f, k);
      assert Pending(s, q, k, t) && Unprotected(s, q, k, t);
    }
    forall k, t | Listed(s', t) && Holding(q, k, t) && Want(s', k).Some?
      ensures Says(q, k, Want(s', k).value) || Excused(s', t, k)
    {
      SetFlagWant(s, c, f, k);
      if InDir(s, t) && k in s.dd {
        OwesAll(s, c, f, t, k);
      } else {
        assert k == b ==> Unprotected(s, q, k, t);
        assert !Excused(s, t, k);
      }
    }
  }

  lemma SetFlagRight(s: State, c: nat, f: nat)
    requires AllRight(s) && Enabled(s, SetFlag(c, f)) && s.conns[c].dev in s.dd && FlagGuard(s, s.conns[c].dev, f)
    ensures AllRight(Step(s, SetFlag(c, f)))
  {
    var s' := Step(s, SetFlag(c, f));
    hide Want;
    forall p, k | Entitled(s', p, k) ensures Shown(Value(s'.conns[p].line, k), Want(s', k).value) || Excused(s', p, k) {
      SetFlagWant(s, c, f, k);
      assert Listed(s, p);
      if InDir(s, p) && k in s.dd {
        OwesAll(s, c, f, p, k);
      } else if k == s.conns[c].dev {
        assert Newcomer(s, p);
      } else {
        assert Entitled(s, p, k) && !Excused(s, p, k);
      }
    }
  }

  lemma SetFlagUnsent(s: State, c: nat, f: nat)
    requires Phases(s) && AllPending(s) && AllHolding(s) && Enabled(s, SetFlag(c, f)) && s.conns[c].dev in s.dd
    requires FlagGuard(s, s.conns[c].dev, f)
    ensures AllPending(Step(s, SetFlag(c, f))) && AllHolding(Step(s, SetFlag(c, f)))
  {
    var s' := Step(s, SetFlag(c, f));
    hide Phases, FlagGuard, PendingRight, HoldingRight;
    forall r | r in s.conns ensures PendingRight(s', s'.conns[r].phase) && HoldingRight(s', s'.conns[r].phase) {
      if r == c {
        NoJob(s', Copy(false));
      } else {
        SetFlagPending(s, c, f, r);
      }
    }
  }

  lemma InDirOf(s: State, c: nat)
    requires DirMatches(s) && c in s.conns && s.conns[c].phase.Idle?
    ensures s.conns[c].dev in s.dd
  {
    assert InDir(s, c);
  }

  lemma SetFlagFlags(s: State, c: nat, f: nat)
    requires Inv(s) && FlagInv(s) && Enabled(s, SetFlag(c, f)) && FlagGuard(s, s.conns[c].dev, f)
    ensures FlagInv(Step(s, SetFlag(c, f)))
  {
    hide Inv, Phases, DirMatches, FlagGuard, AllPending, AllHolding, AllRight;
    InvParts(s);
    InDirOf(s, c);
    SetFlagRight(s, c, f);
    SetFlagUnsent(s, c, f);
  }

  lemma NoJob(s: State, ph: Phase)
    requires !HasJob(ph)
    ensures PendingRight(s, ph) && HoldingRight(s, ph)
  {
  }

  lemma DropWant(s: State, c: nat, k: nat)
    requires OneLive(s) && Enabled(s, DropDir(c))
    ensures var w := Want(Step(s, DropDir(c)), k); w.None? || (w == Want(s, k) && k != s.conns[c].dev)
  {
    var s' := Step(s, DropDir(c));
    assert forall d :: Newcomer(s', d) == Newcomer(s, d);
    if d :| Newcomer(s', d) && s'.conns[d].dev == k {
      assert Newcomer(s, d) && Live(s, d) && Live(s, c);
    }
  }

  lemma DropFlags(s: State, c: nat)
    requires OneLive(s) && FlagInv(s) && Enabled(s, DropDir(c))
    ensures FlagInv(Step(s, DropDir(c)))
  {
    var s', b := Step(s, DropDir(c)), s.conns[c].dev;
    forall k ensures Want(s', k).None? || (Want(s', k) == Want(s, k) && k != b) {
      DropWant(s, c, k);
    }
    assert forall d :: Listed(s', d) ==> Listed(s, d) && d != c;
    forall p, k | Listed(s', p) && k != b && Excused(s, p, k) ensures Excused(s', p, k) {
      SameExcuse(s, s', p, k);
    }
    hide Value, Want, Excused, OneLive;
    forall r | r in s'.conns ensures PendingRight(s', s'.conns[r].phase) && HoldingRight(s', s'.conns[r].phase) {
      var q := s'.conns[r].phase;
      if r != c {
        assert PendingRight(s, q) && HoldingRight(s, q);
        assert forall k, t :: Listed(s', t) && Pending(s', q, k, t) ==> Pending(s, q, k, t);
      }
    }
    forall p, k | Entitled(s', p, k) ensures Shown(Value(s'.conns[p].line, k), Want(s', k).value) || Excused(s', p, k) {
      assert Entitled(s, p, k);
    }
  }

  // ------------------------------------------------------------------ every step, every run

  lemma RestStep(s: State, a: Action)
    requires FlagInv(s) && Enabled(s, a) && (a.Refuse? || a.Finish? || a.Unlist? || a.StartTelling? || a.EndTelling?)
    ensures FlagInv(Step(s, a))
  {
    hide FlagInv, PeersFree;
    match a
    case Finish(c) => IdleFlags(s, c, Idle);
    case Unlist(c) => IdleFlags(s, c, Drop);
    case StartTelling(c) => IdleFlags(s, c, Telling(Peers(s)));
    case _ => IdleFlags(s, a.conn, Gone);
  }

  lemma StepFlags(s: State, a: Action)
    requires Inv(s) && FlagInv(s) && Enabled(s, a) && Guarded(s, a)
    ensures FlagInv(Step(s, a))
  {
    assert Shape(s) && OneLive(s);
    hide FlagInv, Inv, Shape, OneLive, ListGuard, FlagGuard;
    match a
    case Connect(c, dev) => ConnectFlags(s, c, dev);
    case Enlist(c) => EnlistFlags(s, c);
    case EnterDir(c) => EnterAbsent(s, c); EnterFlags(s, c);
    case CopyDir(c) => CopyFlags(s, c);
    case Pick(c, src, dst, found) => PickFlags(s, c, src, dst, found);
    case Take(c) => TakeFlags(s, c);
    case Look(c, found) => LookFlags(s, c, found);
    case Emit(c) => EmitFlags(s, c);
    case SetFlag(c, f) => SetFlagFlags(s, c, f);
    case DropDir(c) => DropFlags(s, c);
    case TellOne(c, t) => TellFlags(s, c, t);
    case _ => RestStep(s, a);
  }

  ghost predicate GuardedRun(s: State, run: seq<Action>)
    requires Legal(s, run)
    decreases |run|
  {
    run != [] ==> Guarded(s, run[0]) && GuardedRun(Step(s, run[0]), run[1..])
  }

  lemma {:induction false} RunFlags(s: State, run: seq<Action>)
    requires Inv(s) && FlagInv(s) && Legal(s, run) && GuardedRun(s, run)
    ensures FlagInv(After(s, run))
    decreases |run|
  {
    if run != [] {
      hide Inv, FlagInv, Guarded;
      StepKeeps(s, run[0]);
      StepFlags(s, run[0]);
      RunFlags(Step(s, run[0]), run[1..]);
    }
  }

  lemma QuietExcuse(s: State, p: nat, k: nat)
    requires Quiet(s)
    ensures !Excused(s, p, k)
  {
  }

  /** At rest after any guarded run a connected slave holds, for every other device of the
      directory, exactly the master's flag. */
  lemma FlagsAgree(start: State, run: seq<Action>, p: nat, k: nat)
    requires Init(start) && Legal(start, run) && GuardedRun(start, run) && Quiet(After(start, run))
    requires var s := After(start, run); Listed(s, p) && k in s.dd && k != s.conns[p].dev
    ensures var s := After(start, run); Value(s.conns[p].line, k) == Some({s.dd[k]})
  {
    InitInv(start);
    var s := After(start, run);
    RunFlags(start, run);
    MembershipAgrees(start, run, p, k);
    ValueShows(s.conns[p].line, k);
    QuietExcuse(s, p, k);
    assert Entitled(s, p, k);
  }
}
