/** The master's peer threads at the granularity of its semaphores.

    Each connection has a thread.  What a thread does while it holds no semaphore, and
    what it does inside one critical section, are separate steps, so that any number of
    threads may interleave between them.  `peers_mtx` is held by a thread that is telling
    the others about a removal; `tx_mtx` of a connection is held by a thread that looks up
    the device it is about to announce there.  The directory has a lock of its own, held
    only for the duration of a single step.

    Device keys, flags and connection numbers are plain numbers; `PORT` is the master's own
    port.  A connection number is never used twice, so a peer that comes back is a new
    connection of the same device. */
module PeerThreads {
  import opened Options

  const PORT: nat := 0
  const OK: nat := 1

  /** An announcement of `dev`, found listed as connection `who` (the port is not looked up);
      the removal of `dev` because connection `who` ended; a flag update. */
  datatype Msg = Add(dev: nat, who: Option<nat>, flag: nat) | Del(dev: nat, conn: nat) | FSet(dev: nat, flag: nat)

  /** A broadcast under way: announcements or flags, the directory copy, and the pairs of
      source and target still to do. */
  datatype Job = Job(add: bool, copy: map<nat, nat>, work: set<(nat, nat)>)

  datatype Phase =
    | Fresh                                        // connected, HELLO not yet accepted
    | Enter                                        // listed, not yet in the directory
    | Copy(add: bool)                              // about to copy the directory
    | Send(job: Job)                               // between two messages of a broadcast
    | Lock(src: nat, tgt: nat, job: Job)           // about to take the target's tx_mtx
    | Hold(src: nat, tgt: nat, job: Job)           // holds it, about to look up the source
    | Post(src: nat, who: nat, tgt: nat, job: Job) // holds it, found the source, about to send
    | Idle                                         // waiting for the next message
    | Drop                                         // off the list, still in the directory
    | Tell                                         // out of the directory, peers not yet told
    | Telling(todo: set<nat>)                      // holds peers_mtx, telling these
    | Gone

  datatype Peer = Peer(dev: nat, phase: Phase, line: seq<Msg>)

  datatype State = State(conns: map<nat, Peer>, dd: map<nat, nat>)

  predicate ListedPhase(ph: Phase) {
    ph.Enter? || ph.Copy? || ph.Send? || ph.Lock? || ph.Hold? || ph.Post? || ph.Idle?
  }

  predicate InDirPhase(ph: Phase) {
    ph.Copy? || ph.Send? || ph.Lock? || ph.Hold? || ph.Post? || ph.Idle? || ph.Drop?
  }

  /** The thread is in the middle of a broadcast. */
  predicate HasJob(ph: Phase) { ph.Send? || ph.Lock? || ph.Hold? || ph.Post? }

  predicate Listed(s: State, c: nat) { c in s.conns && ListedPhase(s.conns[c].phase) }
  predicate InDir(s: State, c: nat) { c in s.conns && InDirPhase(s.conns[c].phase) }

  /** `l_find` on the peers list: `found` is the listed connection of `dev`, if there is one. */
  ghost predicate Finds(s: State, dev: nat, found: Option<nat>) {
    match found
    case Some(c) => Listed(s, c) && s.conns[c].dev == dev
    case None => forall c :: Listed(s, c) ==> s.conns[c].dev != dev
  }

  ghost predicate PeersFree(s: State) {
    forall c :: c in s.conns ==> !s.conns[c].phase.Telling?
  }

  predicate Holds(ph: Phase, t: nat) { (ph.Hold? || ph.Post?) && ph.tgt == t }

  ghost predicate TxFree(s: State, t: nat) {
    forall c :: c in s.conns ==> !Holds(s.conns[c].phase, t)
  }

  // ------------------------------------------------------------------ steps

  datatype Action =
    | Connect(conn: nat, dev: nat)
    | Refuse(conn: nat)                                        // HELLO denied, or gone before it
    | Enlist(conn: nat)
    | EnterDir(conn: nat)
    | CopyDir(conn: nat)
    | Pick(conn: nat, src: nat, dst: nat, found: Option<nat>)  // unlocked lookup of the target
    | Take(conn: nat)
    | Look(conn: nat, found: Option<nat>)                      // lookup of the source under both locks
    | Emit(conn: nat)
    | Finish(conn: nat)
    | SetFlag(conn: nat, flag: nat)
    | Unlist(conn: nat)
    | DropDir(conn: nat)
    | StartTelling(conn: nat)
    | TellOne(conn: nat, to: nat)
    | EndTelling(conn: nat)

  ghost predicate Enabled(s: State, a: Action) {
    if a.Connect? then
      a.conn !in s.conns && a.dev != PORT
      && forall c :: c in s.conns && !s.conns[c].phase.Gone? ==> s.conns[c].dev != a.dev
    else
      a.conn in s.conns &&
      var ph := s.conns[a.conn].phase;
      match a
      case Refuse(_) => ph.Fresh?
      case Enlist(_) => ph.Fresh? && PeersFree(s)
      case EnterDir(_) => ph.Enter?
      case CopyDir(_) => ph.Copy?
      case Pick(_, src, dst, found) => ph.Send? && (src, dst) in ph.job.work && Finds(s, dst, found)
      case Take(_) => ph.Lock? && ph.tgt in s.conns && ph.src in ph.job.copy && TxFree(s, ph.tgt)
      case Look(_, found) => ph.Hold? && PeersFree(s) && Finds(s, ph.src, found)
      case Emit(_) => ph.Post? && ph.tgt in s.conns && ph.src in ph.job.copy
      case Finish(_) => ph.Send? && ph.job.work == {}
      case SetFlag(_, _) => ph.Idle?
      case Unlist(_) => ph.Idle? && PeersFree(s)
      case DropDir(_) => ph.Drop?
      case StartTelling(_) => ph.Tell? && PeersFree(s)
      case TellOne(_, t) => ph.Telling? && t in ph.todo && t in s.conns && TxFree(s, t)
      case EndTelling(_) => ph.Telling? && ph.todo == {}
  }

  function Move(s: State, c: nat, ph: Phase): State
    requires c in s.conns
  {
    s.(conns := s.conns[c := s.conns[c].(phase := ph)])
  }

  function Append(s: State, t: nat, m: Msg): State
    requires t in s.conns
  {
    s.(conns := s.conns[t := s.conns[t].(line := s.conns[t].line + [m])])
  }

  /** Every source for every other device that is not the port. */
  function Pairs(dd: map<nat, nat>): set<(nat, nat)> {
    set a, b | a in dd && b in dd && a != b && b != PORT :: (a, b)
  }

  ghost function Peers(s: State): set<nat> {
    set c | c in s.conns && Listed(s, c)
  }

  ghost function Step(s: State, a: Action): State
    requires Enabled(s, a)
  {
    var c := a.conn;
    match a
    case Connect(_, dev) => s.(conns := s.conns[c := Peer(dev, Fresh, [])])
    case Refuse(_) => Move(s, c, Gone)
    case Enlist(_) => Move(s, c, Enter)
    case EnterDir(_) => Move(s, c, Copy(true)).(dd := s.dd[s.conns[c].dev := OK])
    case CopyDir(_) => Move(s, c, Send(Job(s.conns[c].phase.add, s.dd, Pairs(s.dd))))
    case Pick(_, src, dst, found) =>
      var job := s.conns[c].phase.job;
      var job' := job.(work := job.work - {(src, dst)});
      Move(s, c, if found.Some? then Lock(src, found.value, job') else Send(job'))
    case Take(_) =>
      var ph := s.conns[c].phase;
      if !ph.job.add then Append(Move(s, c, Send(ph.job)), ph.tgt, FSet(ph.src, ph.job.copy[ph.src]))
      else if ph.src == PORT then Append(Move(s, c, Send(ph.job)), ph.tgt, Add(PORT, None, ph.job.copy[ph.src]))
      else Move(s, c, Hold(ph.src, ph.tgt, ph.job))
    case Look(_, found) =>
      var ph := s.conns[c].phase;
      Move(s, c, if found.Some? then Post(ph.src, found.value, ph.tgt, ph.job) else Send(ph.job))
    case Emit(_) =>
      var ph := s.conns[c].phase;
      Append(Move(s, c, Send(ph.job)), ph.tgt, Add(ph.src, Some(ph.who), ph.job.copy[ph.src]))
    case Finish(_) => Move(s, c, Idle)
    case SetFlag(_, f) => Move(s, c, Copy(false)).(dd := s.dd[s.conns[c].dev := f])
    case Unlist(_) => Move(s, c, Drop)
    case DropDir(_) => Move(s, c, Tell).(dd := s.dd - {s.conns[c].dev})
    case StartTelling(_) => Move(s, c, Telling(Peers(s)))
    case TellOne(_, t) =>
      Append(Move(s, c, Telling(s.conns[c].phase.todo - {t})), t, Del(s.conns[c].dev, c))
    case EndTelling(_) => Move(s, c, Gone)
  }

  predicate Init(s: State) { s.conns == map[] && s.dd.Keys == {PORT} }

  // ------------------------------------------------------------------ what a line will leave behind

  /** After working off `line`, the slave holds an entry for `dev`: the last word on it was
      an announcement. */
  function Shows(line: seq<Msg>, dev: nat): bool {
    if line == [] then false
    else
      var m := line[|line| - 1];
      if m.Add? && m.dev == dev then true
      else if m.Del? && m.dev == dev then false
      else Shows(line[..|line| - 1], dev)
  }

  lemma ShowsSnoc(line: seq<Msg>, m: Msg, dev: nat)
    ensures Shows(line + [m], dev) ==
            if m.Add? && m.dev == dev then true else if m.Del? && m.dev == dev then false else Shows(line, dev)
  {
    assert (line + [m])[..|line + [m]| - 1] == line;
  }

  /** What a slave will hold for `k` after working off `line`: the set of flags ORed together.
      An announcement ORs its flag in, an update overwrites, a removal drops the entry. */
  function Value(line: seq<Msg>, k: nat): Option<set<nat>> {
    if line == [] then None
    else
      var m, v := line[|line| - 1], Value(line[..|line| - 1], k);
      if m.dev != k then v
      else match m
        case Add(_, _, f) => Some((if v.Some? then v.value else {}) + {f})
        case FSet(_, f) => if v.Some? then Some({f}) else None
        case Del(_, _) => None
  }

  lemma ValueSnoc(line: seq<Msg>, m: Msg, k: nat)
    ensures m.dev != k ==> Value(line + [m], k) == Value(line, k)
    ensures m.dev == k && m.Del? ==> Value(line + [m], k) == None
    ensures m.dev == k && m.FSet? ==> Value(line + [m], k) == if Value(line, k).Some? then Some({m.flag}) else None
    ensures m.dev == k && m.Add? && Value(line, k).None? ==> Value(line + [m], k) == Some({m.flag})
    ensures m.dev == k && m.Add? && Value(line, k) == Some({m.flag}) ==> Value(line + [m], k) == Some({m.flag})
  {
    assert (line + [m])[..|line + [m]| - 1] == line;
    assert !m.Del? ==> {} + {m.flag} == {m.flag} && {m.flag} + {m.flag} == {m.flag};
  }

  lemma {:induction false} ValueShows(line: seq<Msg>, k: nat)
    ensures Value(line, k).Some? <==> Shows(line, k)
    decreases |line|
  {
    if line != [] {
      ValueShows(line[..|line| - 1], k);
    }
  }

  // ------------------------------------------------------------------ the invariant

  ghost predicate Live(s: State, c: nat) { c in s.conns && !s.conns[c].phase.Gone? }

  /** The connection has not yet told `p` that it is gone. */
  predicate Untold(ph: Phase, p: nat) {
    ListedPhase(ph) || ph.Drop? || ph.Tell? || (ph.Telling? && p in ph.todo)
  }

  ghost predicate GoodJob(job: Job) {
    forall w :: w in job.work ==> w.0 != w.1 && w.1 != PORT && w.0 in job.copy
  }

  /** The shape of a thread's own state. */
  ghost predicate GoodPhase(s: State, c: nat)
    requires c in s.conns
  {
    var ph := s.conns[c].phase;
    && (ph.Fresh? ==> s.conns[c].line == [])
    && (ph.Send? || ph.Lock? || ph.Hold? || ph.Post? ==> GoodJob(ph.job))
    && (ph.Lock? || ph.Hold? || ph.Post? ==>
          && ph.tgt in s.conns && !s.conns[ph.tgt].phase.Fresh?
          && s.conns[ph.tgt].dev != ph.src && ph.src in ph.job.copy)
    && (ph.Hold? || ph.Post? ==> ph.src != PORT && ph.job.add)
    && (ph.Post? ==> ph.who in s.conns && s.conns[ph.who].dev == ph.src)
    && (ph.Telling? ==> forall t :: t in ph.todo ==> Listed(s, t))
  }

  ghost predicate Phases(s: State) {
    forall c :: c in s.conns ==> GoodPhase(s, c) && s.conns[c].dev != PORT
  }

  /** At most one live connection per device. */
  ghost predicate OneLive(s: State) {
    forall c, d :: Live(s, c) && Live(s, d) && s.conns[c].dev == s.conns[d].dev ==> c == d
  }

  /** The directory holds the port and the devices of the connections that are in it. */
  ghost predicate DirMatches(s: State) {
    && PORT in s.dd
    && (forall k :: k in s.dd && k != PORT ==> exists c :: InDir(s, c) && s.conns[c].dev == k)
    && (forall c :: InDir(s, c) ==> s.conns[c].dev in s.dd)
  }

  ghost predicate Shape(s: State) {
    Phases(s) && OneLive(s) && DirMatches(s)
  }

  /** Both semaphores are binary. */
  ghost predicate Exclusive(s: State) {
    && (forall c, d :: c in s.conns && d in s.conns && s.conns[c].phase.Telling? && s.conns[d].phase.Telling? ==> c == d)
    && (forall c, d, t ::
          c in s.conns && d in s.conns && Holds(s.conns[c].phase, t) && Holds(s.conns[d].phase, t) ==> c == d)
  }

  /** A removal was sent to `p` only by a connection that no longer owes `p` one. */
  ghost predicate DelsAreOver(s: State) {
    forall p, m :: p in s.conns && m in s.conns[p].line && m.Del? ==>
      m.conn in s.conns && !Untold(s.conns[m.conn].phase, p) && !s.conns[m.conn].phase.Fresh?
  }

  ghost predicate NoDelYet(line: seq<Msg>, c: nat) {
    forall m :: m in line && m.Del? ==> m.conn != c
  }

  /** A thread about to announce `who` to `tgt` is ahead of `who`'s removal there. */
  ghost predicate PostsAreEarly(s: State) {
    forall r :: r in s.conns && s.conns[r].phase.Post? ==>
      var ph := s.conns[r].phase;
      ph.tgt in s.conns && ph.who in s.conns
      && NoDelYet(s.conns[ph.tgt].line, ph.who)
      && (Listed(s, ph.tgt) ==> Untold(s.conns[ph.who].phase, ph.tgt))
  }

  ghost predicate AddsFirst(line: seq<Msg>) {
    forall i, j :: 0 <= i < j < |line| && line[i].Del? ==> !(line[j].Add? && line[j].who == Some(line[i].conn))
  }

  ghost predicate Ordered(s: State) {
    forall p :: p in s.conns ==> AddsFirst(s.conns[p].line)
  }

  /** Somebody with this device still owes `p` the removal. */
  ghost predicate Backed(s: State, p: nat, dev: nat) {
    exists c :: c in s.conns && s.conns[c].dev == dev && Untold(s.conns[c].phase, p)
  }

  /** Nothing stale: what `p` will show, somebody backs. */
  ghost predicate Sound(s: State) {
    forall p, k :: Listed(s, p) && k != PORT && Shows(s.conns[p].line, k) ==> Backed(s, p, k)
  }

  /** The thread will still announce `dev` to connection `p`. */
  predicate Due(ph: Phase, p: nat, pdev: nat, dev: nat) {
    match ph
    case Copy(add) => add
    case Send(job) => job.add && (dev, pdev) in job.work
    case Lock(src, tgt, job) => job.add && ((src == dev && tgt == p) || (dev, pdev) in job.work)
    case Hold(src, tgt, job) => (src == dev && tgt == p) || (dev, pdev) in job.work
    case Post(src, _, tgt, job) => (src == dev && tgt == p) || (dev, pdev) in job.work
    case _ => false
  }

  ghost predicate SomeDue(s: State, p: nat, dev: nat)
    requires p in s.conns
  {
    exists r :: r in s.conns && Due(s.conns[r].phase, p, s.conns[p].dev, dev)
  }

  /** The device belongs to a peer that is both listed and in the directory, or is the port. */
  ghost predicate Established(s: State, dev: nat) {
    dev == PORT || exists c :: Listed(s, c) && InDir(s, c) && s.conns[c].dev == dev
  }

  /** Nothing missing: whoever `p` ought to show, it will show or is about to be told of. */
  ghost predicate Complete(s: State) {
    forall p, k :: Listed(s, p) && InDir(s, p) && Established(s, k) && k != s.conns[p].dev ==>
      Shows(s.conns[p].line, k) || SomeDue(s, p, k)
  }

  ghost predicate Inv(s: State) {
    && Shape(s) && Exclusive(s) && DelsAreOver(s) && PostsAreEarly(s) && Ordered(s) && Sound(s) && Complete(s)
  }
}
