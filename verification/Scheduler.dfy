/** The connection scheduler of the file-transfer server.  An acceptor hands each new
    connection to an idle worker or queues it; a worker that finishes takes the next one; a
    pause holds connections back until enough are queued, then releases them in a batch.

    Each critical section is one function on `Sched`; the server at the end of the file
    carries the functions out on its own queue and buffers. */
module Scheduler {
  import opened Options

  const NUM_WRAP: nat := 0x1_0000   // the count of queued connections is sixteen bits wide
  const MAX_WRAP: nat := 0x100      // the queue limit is eight bits wide
  const DEFAULT_MAX: nat := 8

  datatype Slot = Slot(valid: bool, completed: bool, req: Option<nat>)

  /** `handed` lists every socket given to a worker, oldest first. */
  datatype Sched = Sched(slots: seq<Slot>, pending: seq<nat>, num: nat, paused: bool, max: nat, handed: seq<nat>)

  predicate Idle(slot: Slot) { slot.valid && slot.completed }

  predicate WellFormed(s: Sched) { s.num == |s.pending| % NUM_WRAP && s.max < MAX_WRAP }

  // ------------------------------------------------------------------ operations

  function Enqueue(s: Sched, skt: nat): Sched {
    s.(pending := s.pending + [skt], num := (s.num + 1) % NUM_WRAP)
  }

  /** Give a worker's slot the next queued socket, if there is one. */
  function GiveNext(s: Sched, i: nat, completed: bool): Sched
    requires i < |s.slots| && WellFormed(s)
  {
    if s.pending == [] then s.(slots := s.slots[i := s.slots[i].(completed := completed, req := None)])
    else s.(slots := s.slots[i := s.slots[i].(completed := completed, req := Some(s.pending[0]))],
            pending := s.pending[1..], num := (|s.pending| - 1) % NUM_WRAP, handed := s.handed + [s.pending[0]])
  }

  function Fill(s: Sched, i: nat): (r: Sched)
    requires i <= |s.slots| && WellFormed(s)
    ensures WellFormed(r) && |r.slots| == |s.slots|
    decreases |s.slots| - i
  {
    if i == |s.slots| || s.num == 0 then s
    else Fill(if Idle(s.slots[i]) then GiveNext(s, i, false) else s, i + 1)
  }

  /** End the pause and serve idle workers while sockets are queued. */
  function Batch(s: Sched): (r: Sched)
    requires WellFormed(s)
    ensures WellFormed(r)
  {
    Fill(s.(paused := false), 0)
  }

  function FirstIdle(slots: seq<Slot>, i: nat): (r: nat)
    requires i <= |slots|
    ensures i <= r <= |slots| && (r < |slots| ==> Idle(slots[r]))
    ensures forall j :: i <= j < r ==> !Idle(slots[j])
    decreases |slots| - i
  {
    if i == |slots| || Idle(slots[i]) then i else FirstIdle(slots, i + 1)
  }

  /** The acceptor places a new socket; without memory a socket that must wait is lost. */
  function Place(s: Sched, skt: nat, memory: bool): (r: Sched)
    ensures WellFormed(s) ==> WellFormed(r)
  {
    var i := FirstIdle(s.slots, 0);
    if !s.paused && i < |s.slots| then
      s.(slots := s.slots[i := s.slots[i].(completed := false, req := Some(skt))], handed := s.handed + [skt])
    else if memory then Enqueue(s, skt)
    else s
  }

  function Accept(s: Sched, skt: nat, memory: bool): (r: Sched)
    requires WellFormed(s)
    ensures WellFormed(r)
  {
    var t := Place(s, skt, memory);
    if t.paused && t.num >= t.max then Batch(t) else t
  }

  /** A worker ends a transfer.  It looks at the pause flag before it takes the mutex, so it
      may act on an old value; if it saw a pause it stays unmarked. */
  function Finish(s: Sched, i: nat, sawPause: bool): (r: Sched)
    requires WellFormed(s) && i < |s.slots|
    ensures WellFormed(r)
  {
    if sawPause then s.(slots := s.slots[i := s.slots[i].(req := None)])
    else GiveNext(s, i, s.slots[i].completed || s.pending == [])
  }

  /** The arguments of the pause command: none, the flag, or the flag and a queue limit. */
  datatype Args = NoArgs | Flag(on: bool) | FlagMax(on: bool, limit: int)

  function SetPause(s: Sched, args: Args): Sched {
    match args
    case NoArgs => s
    case Flag(on) => s.(paused := on, max := DEFAULT_MAX)
    case FlagMax(on, limit) => s.(paused := on, max := limit % MAX_WRAP)
  }

  predicate MustBatch(s: Sched) { s.num >= s.max || (!s.paused && s.num != 0) }

  function Pause(s: Sched, args: Args): (r: Sched)
    requires WellFormed(s)
    ensures WellFormed(r)
  {
    var t := SetPause(s, args);
    if MustBatch(t) then Batch(t) else t
  }

  lemma FillStep(s: Sched, i: nat)
    requires i < |s.slots| && WellFormed(s) && s.num != 0
    ensures Fill(s, i) == Fill(if Idle(s.slots[i]) then GiveNext(s, i, false) else s, i + 1)
  {
  }

  // ------------------------------------------------------------------ runs

  datatype Act = Arrival(skt: nat, memory: bool) | Finished(i: nat, sawPause: bool) | Command(args: Args)

  predicate Possible(s: Sched, a: Act) { a.Finished? ==> a.i < |s.slots| }

  function Step(s: Sched, a: Act): (r: Sched)
    requires WellFormed(s) && Possible(s, a)
    ensures WellFormed(r)
  {
    match a
    case Arrival(skt, memory) => Accept(s, skt, memory)
    case Finished(i, sawPause) => Finish(s, i, sawPause)
    case Command(args) => Pause(s, args)
  }

  ghost predicate Legal(s: Sched, run: seq<Act>)
    requires WellFormed(s)
    decreases |run|
  {
    run == [] || (Possible(s, run[0]) && Legal(Step(s, run[0]), run[1..]))
  }

  ghost function After(s: Sched, run: seq<Act>): (r: Sched)
    requires WellFormed(s) && Legal(s, run)
    ensures WellFormed(r)
    decreases |run|
  {
    if run == [] then s else After(Step(s, run[0]), run[1..])
  }

  /** All workers have started and wait for work. */
  function Start(valid: seq<bool>): (s: Sched)
    ensures Inv(s) && s.handed == [] && s.pending == []
  {
    Sched(seq(|valid|, i requires 0 <= i < |valid| => Slot(valid[i], true, None)), [], 0, false, 0, [])
  }

  ghost predicate SomeIdle(slots: seq<Slot>) { exists i :: 0 <= i < |slots| && Idle(slots[i]) }

  /** While a worker is idle nothing waits, or a pause is on and fewer wait than its limit.
      So the count is exact whenever it matters, although it wraps in general. */
  ghost predicate Inv(s: Sched) {
    && WellFormed(s) && (s.paused ==> s.max > 0)
    && (SomeIdle(s.slots) ==> if s.paused then |s.pending| < s.max else s.pending == [])
  }

  // ------------------------------------------------------------------ hand-off order

  /** Everything admitted so far: what was handed over, then what waits. */
  function Order(s: Sched): seq<nat> { s.handed + s.pending }

  predicate Lost(s: Sched, a: Act) {
    a.Arrival? && !a.memory && (s.paused || FirstIdle(s.slots, 0) == |s.slots|)
  }

  function Admitted(s: Sched, a: Act): seq<nat> {
    if a.Arrival? && !Lost(s, a) then [a.skt] else []
  }

  ghost function AllAdmitted(s: Sched, run: seq<Act>): seq<nat>
    requires WellFormed(s) && Legal(s, run)
    decreases |run|
  {
    if run == [] then [] else Admitted(s, run[0]) + AllAdmitted(Step(s, run[0]), run[1..])
  }

  function Arrivals(run: seq<Act>): seq<nat> {
    if run == [] then []
    else (if run[0].Arrival? then [run[0].skt] else []) + Arrivals(run[1..])
  }

  lemma GiveNextOrder(s: Sched, i: nat, completed: bool)
    requires i < |s.slots| && WellFormed(s)
    ensures Order(GiveNext(s, i, completed)) == Order(s) && WellFormed(GiveNext(s, i, completed))
  {
    if s.pending != [] {
      assert s.handed + s.pending == s.handed + [s.pending[0]] + s.pending[1..];
    }
  }

  lemma {:induction false} FillOrder(s: Sched, i: nat)
    requires i <= |s.slots| && WellFormed(s)
    ensures Order(Fill(s, i)) == Order(s)
    decreases |s.slots| - i
  {
    if i < |s.slots| && s.num != 0 {
      if Idle(s.slots[i]) {
        GiveNextOrder(s, i, false);
        FillOrder(GiveNext(s, i, false), i + 1);
      } else {
        FillOrder(s, i + 1);
      }
    }
  }

  /** After a batch that found an exact count, no worker is idle or nothing waits. */
  lemma {:induction false} FillConserves(s: Sched, i: nat)
    requires i <= |s.slots| && WellFormed(s) && |s.pending| < NUM_WRAP
    requires forall j :: 0 <= j < i ==> !Idle(s.slots[j])
    ensures var r := Fill(s, i); r.paused == s.paused && r.max == s.max && (r.pending == [] || !SomeIdle(r.slots))
    decreases |s.slots| - i
  {
    if i < |s.slots| && s.num != 0 {
      FillConserves(if Idle(s.slots[i]) then GiveNext(s, i, false) else s, i + 1);
    }
  }

  /** Without idle workers a batch does nothing but end the pause. */
  lemma {:induction false} FillNothing(s: Sched, i: nat)
    requires i <= |s.slots| && WellFormed(s) && !SomeIdle(s.slots)
    ensures Fill(s, i) == s
    decreases |s.slots| - i
  {
    if i < |s.slots| && s.num != 0 {
      FillNothing(s, i + 1);
    }
  }

  lemma BatchKeeps(s: Sched)
    requires WellFormed(s) && (SomeIdle(s.slots) ==> |s.pending| < NUM_WRAP)
    ensures Inv(Batch(s)) && Order(Batch(s)) == Order(s)
  {
    var t := s.(paused := false);
    FillOrder(t, 0);
    if SomeIdle(s.slots) {
      FillConserves(t, 0);
    } else {
      FillNothing(t, 0);
    }
  }

  lemma PlaceOrder(s: Sched, skt: nat, memory: bool)
    requires Inv(s)
    ensures Order(Place(s, skt, memory)) == Order(s) + Admitted(s, Arrival(skt, memory))
  {
    assert s.handed + s.pending + [skt] == s.handed + (s.pending + [skt]);
    if FirstIdle(s.slots, 0) < |s.slots| && !s.paused {
      assert SomeIdle(s.slots);
      assert s.handed + [skt] + [] == s.handed + [] + [skt];
    }
  }

  lemma AcceptKeeps(s: Sched, skt: nat, memory: bool)
    requires Inv(s)
    ensures Inv(Accept(s, skt, memory))
    ensures Order(Accept(s, skt, memory)) == Order(s) + Admitted(s, Arrival(skt, memory))
  {
    PlaceOrder(s, skt, memory);
    var t := Place(s, skt, memory);
    var i := FirstIdle(s.slots, 0);
    if !s.paused && i < |s.slots| {
      assert Idle(s.slots[i]);
    } else {
      assert t.slots == s.slots;
      if t.paused && t.num >= t.max {
        BatchKeeps(t);
      }
    }
  }

  lemma FinishKeeps(s: Sched, i: nat, sawPause: bool)
    requires Inv(s) && i < |s.slots|
    ensures Inv(Finish(s, i, sawPause)) && Order(Finish(s, i, sawPause)) == Order(s)
  {
    GiveNextOrder(s, i, s.slots[i].completed || s.pending == []);
    var r := Finish(s, i, sawPause);
    if SomeIdle(r.slots) && r.pending != [] {
      var j :| 0 <= j < |r.slots| && Idle(r.slots[j]);
      assert Idle(s.slots[j]);
    }
  }

  lemma PauseKeeps(s: Sched, args: Args)
    requires Inv(s)
    ensures Inv(Pause(s, args)) && Order(Pause(s, args)) == Order(s)
  {
    var t := SetPause(s, args);
    assert t.slots == s.slots && t.pending == s.pending;
    if MustBatch(t) {
      BatchKeeps(t);
    }
  }

  /** One critical section keeps the invariant and adds exactly the admitted socket, at the
      end of the order. */
  lemma StepKeeps(s: Sched, a: Act)
    requires Inv(s) && Possible(s, a)
    ensures Inv(Step(s, a)) && Order(Step(s, a)) == Order(s) + Admitted(s, a)
  {
    match a
    case Arrival(skt, memory) => AcceptKeeps(s, skt, memory);
    case Finished(i, sawPause) => FinishKeeps(s, i, sawPause);
    case Command(args) => PauseKeeps(s, args);
  }

  /** In every run the sockets handed to workers, followed by those that wait, are the
      sockets admitted, in order of arrival. */
  lemma {:induction false} RunKeeps(s: Sched, run: seq<Act>)
    requires Inv(s) && Legal(s, run)
    ensures Inv(After(s, run)) && Order(After(s, run)) == Order(s) + AllAdmitted(s, run)
    decreases |run|
  {
    if run != [] {
      StepKeeps(s, run[0]);
      RunKeeps(Step(s, run[0]), run[1..]);
      assert Order(s) + (Admitted(s, run[0]) + AllAdmitted(Step(s, run[0]), run[1..])) == Order(After(s, run));
    }
  }

  lemma {:induction false} EnoughMemory(s: Sched, run: seq<Act>)
    requires WellFormed(s) && Legal(s, run)
    requires forall i :: 0 <= i < |run| && run[i].Arrival? ==> run[i].memory
    ensures AllAdmitted(s, run) == Arrivals(run)
    decreases |run|
  {
    if run != [] {
      EnoughMemory(Step(s, run[0]), run[1..]);
    }
  }

  /** From the start of the server: first come, first handed over, and none lost or doubled
      while memory lasts. */
  lemma FirstComeFirstServed(valid: seq<bool>, run: seq<Act>)
    requires Legal(Start(valid), run)
    ensures var s := After(Start(valid), run);
            && s.handed + s.pending == AllAdmitted(Start(valid), run)
            && ((forall i :: 0 <= i < |run| && run[i].Arrival? ==> run[i].memory) ==> s.handed + s.pending == Arrivals(run))
  {
    RunKeeps(Start(valid), run);
    if forall i :: 0 <= i < |run| && run[i].Arrival? ==> run[i].memory {
      EnoughMemory(Start(valid), run);
    }
  }

  /** In every reachable state without a pause, sockets wait only while no worker is idle;
      under a pause with an idle worker fewer wait than the limit; and the sixteen-bit count
      is the length of the queue exactly while that fits. */
  lemma WorkConserving(valid: seq<bool>, run: seq<Act>)
    requires Legal(Start(valid), run)
    ensures var s := After(Start(valid), run);
            && (!s.paused && s.pending != [] ==> !SomeIdle(s.slots))
            && (s.paused && SomeIdle(s.slots) ==> s.num == |s.pending| < s.max)
            && (s.num == |s.pending| <==> |s.pending| < NUM_WRAP)
  {
    RunKeeps(Start(valid), run);
  }

  /** A pause holds every arrival back until the limit is reached, and then ends. */
  lemma PauseHolds(s: Sched, skt: nat)
    requires Inv(s) && s.paused
    ensures var r := Accept(s, skt, true);
            && (r.paused <==> (|s.pending| + 1) % NUM_WRAP < s.max)
            && (r.paused ==> r.handed == s.handed && r.slots == s.slots && r.pending == s.pending + [skt])
  {
    var t := Place(s, skt, true);
    if t.num >= t.max {
      FillFlags(t.(paused := false), 0);
    }
  }

  /** The pause command sets flag and limit, and the pause ends at once if the limit is reached. */
  lemma PauseAnswers(s: Sched, on: bool, limit: int)
    requires WellFormed(s)
    ensures var r := Pause(s, Flag(on)); r.max == DEFAULT_MAX && (r.paused <==> on && s.num < DEFAULT_MAX)
    ensures var r := Pause(s, FlagMax(on, limit));
            r.max == limit % MAX_WRAP && (r.paused <==> on && s.num < limit % MAX_WRAP)
    ensures var r := Pause(s, NoArgs); r.max == s.max && (r.paused <==> s.paused && s.num < s.max)
  {
    FillFlags(SetPause(s, NoArgs).(paused := false), 0);
    FillFlags(SetPause(s, Flag(on)).(paused := false), 0);
    FillFlags(SetPause(s, FlagMax(on, limit)).(paused := false), 0);
  }

  lemma {:induction false} FillFlags(s: Sched, i: nat)
    requires i <= |s.slots| && WellFormed(s)
    ensures Fill(s, i).paused == s.paused && Fill(s, i).max == s.max
    decreases |s.slots| - i
  {
    if i < |s.slots| && s.num != 0 {
      FillFlags(if Idle(s.slots[i]) then GiveNext(s, i, false) else s, i + 1);
    }
  }

  // ------------------------------------------------------------------ what becomes of a worker

  /** A worker that has not seen a pause takes the socket that waits longest, or is idle again; one
      that has seen a pause is left with nothing, and what waits goes on waiting. */
  lemma FinishAnswers(s: Sched, i: nat)
    requires WellFormed(s) && i < |s.slots|
    ensures var r := Finish(s, i, false);
            if s.pending == [] then
              && r.slots == s.slots[i := s.slots[i].(completed := true, req := None)]
              && r.pending == [] && r.handed == s.handed
            else
              && r.slots == s.slots[i := s.slots[i].(req := Some(s.pending[0]))]
              && r.pending == s.pending[1..] && r.handed == s.handed + [s.pending[0]]
    ensures var r := Finish(s, i, true);
            && r.slots == s.slots[i := s.slots[i].(req := None)]
            && r.pending == s.pending && r.num == s.num && r.handed == s.handed
    ensures forall saw :: Finish(s, i, saw).paused == s.paused && Finish(s, i, saw).max == s.max
  {
  }

  /** A step gives a socket only to a worker that is idle or has just finished. */
  ghost predicate Served(was: Slot, now: Slot) {
    now == was || (Idle(was) && now.valid && !now.completed && now.req.Some?)
  }

  lemma {:induction false} FillServes(s: Sched, i: nat, j: nat)
    requires i <= |s.slots| && j < |s.slots| && WellFormed(s)
    ensures Served(s.slots[j], Fill(s, i).slots[j])
    decreases |s.slots| - i
  {
    if i < |s.slots| && s.num != 0 {
      var t := if Idle(s.slots[i]) then GiveNext(s, i, false) else s;
      FillServes(t, i + 1, j);
    }
  }

  lemma SlotStep(s: Sched, a: Act, j: nat)
    requires WellFormed(s) && Possible(s, a) && j < |s.slots|
    ensures |Step(s, a).slots| == |s.slots| && Step(s, a).slots[j].valid == s.slots[j].valid
    ensures a.Finished? && a.i == j ==>
              var t := Step(s, a).slots[j];
              if a.sawPause then t == s.slots[j].(req := None) else t.completed || t.req.Some?
    ensures !(a.Finished? && a.i == j) ==> Served(s.slots[j], Step(s, a).slots[j])
  {
    match a
    case Arrival(skt, memory) =>
      var t := Place(s, skt, memory);
      if t.paused && t.num >= t.max {
        FillServes(t.(paused := false), 0, j);
      }
    case Finished(_, _) =>
    case Command(args) =>
      var t := SetPause(s, args);
      if MustBatch(t) {
        FillServes(t.(paused := false), 0, j);
      }
  }

  /** Whether worker `i` had seen a pause when it last finished. */
  function Saw(run: seq<Act>, i: nat, before: bool): bool {
    if run == [] then before
    else Saw(run[1..], i, if run[0].Finished? && run[0].i == i then run[0].sawPause else before)
  }

  predicate Explained(slot: Slot, saw: bool) { slot.completed || slot.req.Some? || saw }

  lemma {:induction false} RunExplains(s: Sched, run: seq<Act>, i: nat, saw: bool)
    requires WellFormed(s) && Legal(s, run) && i < |s.slots| && Explained(s.slots[i], saw)
    ensures var r := After(s, run);
            |r.slots| == |s.slots| && r.slots[i].valid == s.slots[i].valid && Explained(r.slots[i], Saw(run, i, saw))
    decreases |run|
  {
    if run != [] {
      SlotStep(s, run[0], i);
      RunExplains(Step(s, run[0]), run[1..], i,
                  if run[0].Finished? && run[0].i == i then run[0].sawPause else saw);
    }
  }

  /** In every reachable state a worker is idle, or holds a socket, or had seen a pause when it last
      finished.  So sockets wait outside a pause only while each valid worker has one or has been
      put out of work by a pause. */
  lemma WaitingIsJustified(valid: seq<bool>, run: seq<Act>, i: nat)
    requires Legal(Start(valid), run) && i < |valid|
    ensures var s := After(Start(valid), run);
            && i < |s.slots| && s.slots[i].valid == valid[i]
            && Explained(s.slots[i], Saw(run, i, false))
            && (!s.paused && s.pending != [] && valid[i] ==> s.slots[i].req.Some? || Saw(run, i, false))
  {
    RunExplains(Start(valid), run, i, false);
    RunKeeps(Start(valid), run);
    var s := After(Start(valid), run);
    assert Idle(s.slots[i]) ==> SomeIdle(s.slots);
  }

  /** A worker finishes only a transfer of a socket that it was given. */
  ghost predicate Working(s: Sched, run: seq<Act>)
    requires WellFormed(s) && Legal(s, run)
    decreases |run|
  {
    run != [] ==> (run[0].Finished? ==> s.slots[run[0].i].req.Some?) && Working(Step(s, run[0]), run[1..])
  }

  /** A worker that a pause has put out of work is never given a socket again. */
  lemma {:induction false} OutOfWork(s: Sched, run: seq<Act>, i: nat)
    requires WellFormed(s) && Legal(s, run) && Working(s, run) && i < |s.slots|
    requires !s.slots[i].completed && s.slots[i].req.None?
    ensures |After(s, run).slots| == |s.slots| && After(s, run).slots[i] == s.slots[i]
    decreases |run|
  {
    if run != [] {
      SlotStep(s, run[0], i);
      OutOfWork(Step(s, run[0]), run[1..], i);
    }
  }

  /** With one worker a single pause at the wrong moment is enough: whatever comes after it, no
      further socket is ever handed over. */
  lemma OnePauseTooMany(first: nat, run: seq<Act>)
    requires var s := After1(first); Legal(s, run) && Working(s, run)
    ensures var prefix := [Arrival(first, true), Command(Flag(true)), Finished(0, true), Command(Flag(false))];
            Legal(Start([true]), prefix) && Working(Start([true]), prefix) && After(Start([true]), prefix) == After1(first)
    ensures After(After1(first), run).handed == [first]
  {
    var s0 := Start([true]);
    var s1 := Sched([Slot(true, false, Some(first))], [], 0, false, 0, [first]);
    var s2 := s1.(paused := true, max := DEFAULT_MAX);
    var s3 := s2.(slots := [Slot(true, false, None)]);
    var a, b, c, d := Arrival(first, true), Command(Flag(true)), Finished(0, true), Command(Flag(false));
    assert FirstIdle(s0.slots, 0) == 0;
    assert Step(s0, a) == s1 && Step(s1, b) == s2 && Step(s2, c) == s3 && Step(s3, d) == After1(first);
    OneStep(s3, d, []);
    OneStep(s2, c, [d]);
    OneStep(s1, b, [c, d]);
    OneStep(s0, a, [b, c, d]);
    assert [a] + [b, c, d] == [a, b, c, d] && [b] + [c, d] == [b, c, d] && [c] + [d] == [c, d] && [d] + [] == [d];
    NothingHanded(After1(first), run);
  }

  function After1(first: nat): (s: Sched)
    ensures WellFormed(s)
  {
    Sched([Slot(true, false, None)], [], 0, false, DEFAULT_MAX, [first])
  }

  lemma OneStep(s: Sched, a: Act, rest: seq<Act>)
    requires WellFormed(s) && Possible(s, a) && Legal(Step(s, a), rest) && Working(Step(s, a), rest)
    requires a.Finished? ==> s.slots[a.i].req.Some?
    ensures Legal(s, [a] + rest) && Working(s, [a] + rest) && After(s, [a] + rest) == After(Step(s, a), rest)
  {
    assert ([a] + rest)[1..] == rest;
  }

  lemma {:induction false} NothingHanded(s: Sched, run: seq<Act>)
    requires WellFormed(s) && Legal(s, run) && Working(s, run) && s.slots == [Slot(true, false, None)]
    ensures After(s, run).handed == s.handed
    decreases |run|
  {
    if run != [] {
      assert !SomeIdle(s.slots);
      SlotStep(s, run[0], 0);
      assert Step(s, run[0]).slots == s.slots;
      HandedStays(s, run[0]);
      NothingHanded(Step(s, run[0]), run[1..]);
    }
  }

  lemma HandedStays(s: Sched, a: Act)
    requires WellFormed(s) && Possible(s, a) && !SomeIdle(s.slots) && !a.Finished?
    ensures Step(s, a).handed == s.handed
  {
    match a
    case Arrival(skt, memory) =>
      var t := Place(s, skt, memory);
      assert FirstIdle(s.slots, 0) == |s.slots|;
      FillNothing(t.(paused := false), 0);
    case Command(args) => FillNothing(SetPause(s, args).(paused := false), 0);
  }

  // ------------------------------------------------------------------ every socket has its worker

  /** How often a socket occurs in a list. */
  function Count(s: seq<nat>, x: nat): nat {
    if s == [] then 0 else Count(s[..|s| - 1], x) + (if s[|s| - 1] == x then 1 else 0)
  }

  lemma CountSnoc(s: seq<nat>, y: nat, x: nat)
    ensures Count(s + [y], x) == Count(s, x) + (if y == x then 1 else 0)
  {
    assert (s + [y])[..|s|] == s;
  }

  function Of(slot: Slot, x: nat): nat { if slot.req == Some(x) then 1 else 0 }

  /** How many workers hold the socket. */
  function Held(slots: seq<Slot>, x: nat): nat {
    if slots == [] then 0 else Held(slots[..|slots| - 1], x) + Of(slots[|slots| - 1], x)
  }

  lemma {:induction false} HeldUpdate(slots: seq<Slot>, i: nat, slot: Slot, x: nat)
    requires i < |slots|
    ensures Held(slots[i := slot], x) + Of(slots[i], x) == Held(slots, x) + Of(slot, x)
    decreases |slots|
  {
    var n := |slots| - 1;
    if i == n {
      assert slots[i := slot][..n] == slots[..n];
    } else {
      assert slots[i := slot][..n] == slots[..n][i := slot];
      HeldUpdate(slots[..n], i, slot, x);
    }
  }

  /** A worker marked as completed holds nothing. */
  ghost predicate Clean(slots: seq<Slot>) { forall i :: 0 <= i < |slots| && slots[i].completed ==> slots[i].req.None? }

  /** What was handed over between two states is held now, in place of what was held and ended. */
  ghost predicate Balance(s: Sched, r: Sched, ended: nat, x: nat) {
    Count(r.handed, x) + Held(s.slots, x) == Count(s.handed, x) + Held(r.slots, x) + ended
  }

  lemma GiveBalance(s: Sched, i: nat, completed: bool, x: nat)
    requires i < |s.slots| && WellFormed(s)
    ensures Balance(s, GiveNext(s, i, completed), Of(s.slots[i], x), x)
  {
    hide Held, Count, WellFormed;
    var slot := s.slots[i].(completed := completed, req := if s.pending == [] then None else Some(s.pending[0]));
    HeldUpdate(s.slots, i, slot, x);
    assert GiveNext(s, i, completed).slots == s.slots[i := slot];
    if s.pending != [] {
      CountSnoc(s.handed, s.pending[0], x);
    }
  }

  lemma GiveClean(s: Sched, i: nat)
    requires i < |s.slots| && WellFormed(s) && Clean(s.slots)
    ensures Clean(GiveNext(s, i, false).slots)
  {
  }

  lemma {:induction false} FillBalance(s: Sched, i: nat, x: nat)
    requires i <= |s.slots| && WellFormed(s) && Clean(s.slots)
    ensures Balance(s, Fill(s, i), 0, x) && Clean(Fill(s, i).slots)
    decreases |s.slots| - i
  {
    if i < |s.slots| && s.num != 0 {
      FillStep(s, i);
      if Idle(s.slots[i]) {
        GiveBalance(s, i, false, x);
        GiveClean(s, i);
        hide GiveNext, Fill, Clean, Held, Count;
        FillBalance(GiveNext(s, i, false), i + 1, x);
      } else {
        FillBalance(s, i + 1, x);
      }
    }
  }

  /** How often a step ends a transfer of the socket. */
  function Ends(s: Sched, a: Act, x: nat): nat
    requires Possible(s, a)
  {
    if a.Finished? then Of(s.slots[a.i], x) else 0
  }

  lemma PlaceBalance(s: Sched, skt: nat, memory: bool, x: nat)
    requires WellFormed(s) && Clean(s.slots)
    ensures Balance(s, Place(s, skt, memory), 0, x) && Clean(Place(s, skt, memory).slots)
  {
    hide Held, Count, FirstIdle, WellFormed;
    var i := FirstIdle(s.slots, 0);
    if !s.paused && i < |s.slots| {
      var slot := s.slots[i].(completed := false, req := Some(skt));
      assert s.slots[i].req.None?;
      HeldUpdate(s.slots, i, slot, x);
      CountSnoc(s.handed, skt, x);
      assert Place(s, skt, memory).slots == s.slots[i := slot];
    }
  }

  lemma FinishBalance(s: Sched, i: nat, saw: bool, x: nat)
    requires WellFormed(s) && i < |s.slots| && Clean(s.slots) && s.slots[i].req.Some?
    ensures Balance(s, Finish(s, i, saw), Of(s.slots[i], x), x) && Clean(Finish(s, i, saw).slots)
  {
    if saw {
      HeldUpdate(s.slots, i, s.slots[i].(req := None), x);
    } else {
      GiveBalance(s, i, s.slots[i].completed || s.pending == [], x);
    }
    hide Held, Count;
  }

  lemma StepBalance(s: Sched, a: Act, x: nat)
    requires WellFormed(s) && Possible(s, a) && Clean(s.slots) && (a.Finished? ==> s.slots[a.i].req.Some?)
    ensures Balance(s, Step(s, a), Ends(s, a, x), x) && Clean(Step(s, a).slots)
  {
    hide Held, Count, Fill, Clean, Place, Finish;
    match a
    case Arrival(skt, memory) =>
      PlaceBalance(s, skt, memory, x);
      var t := Place(s, skt, memory);
      if t.paused && t.num >= t.max {
        FillBalance(t.(paused := false), 0, x);
      }
    case Finished(i, saw) => FinishBalance(s, i, saw, x);
    case Command(args) =>
      var t := SetPause(s, args);
      assert t.slots == s.slots;
      if MustBatch(t) {
        FillBalance(t.(paused := false), 0, x);
      }
  }

  /** How often the run ends a transfer of the socket. */
  ghost function Done(s: Sched, run: seq<Act>, x: nat): nat
    requires WellFormed(s) && Legal(s, run)
    decreases |run|
  {
    if run == [] then 0 else Ends(s, run[0], x) + Done(Step(s, run[0]), run[1..], x)
  }

  lemma {:induction false} RunBalance(s: Sched, run: seq<Act>, x: nat)
    requires WellFormed(s) && Legal(s, run) && Working(s, run) && Clean(s.slots)
    ensures Balance(s, After(s, run), Done(s, run, x), x) && Clean(After(s, run).slots)
    decreases |run|
  {
    if run != [] {
      hide Held, Count, Step, Clean;
      StepBalance(s, run[0], x);
      RunBalance(Step(s, run[0]), run[1..], x);
    }
  }

  lemma {:induction false} NothingHeld(slots: seq<Slot>, x: nat)
    requires forall i :: 0 <= i < |slots| ==> slots[i].req.None?
    ensures Held(slots, x) == 0
    decreases |slots|
  {
    if slots != [] {
      NothingHeld(slots[..|slots| - 1], x);
    }
  }

  /** Every socket handed over is held by a worker until that worker finishes it, and by no other:
      it was handed over as often as it is held now and was finished. */
  lemma HandedIsHeldOrDone(valid: seq<bool>, run: seq<Act>, x: nat)
    requires Legal(Start(valid), run) && Working(Start(valid), run)
    ensures var s := After(Start(valid), run); Count(s.handed, x) == Held(s.slots, x) + Done(Start(valid), run, x)
  {
    var s := Start(valid);
    NothingHeld(s.slots, x);
    RunBalance(s, run, x);
  }

  // ------------------------------------------------------------------ the unprotected flag

  /** The pause command writes the flag before it takes the mutex.  An arrival in between
      overtakes the waiting sockets exactly when the flag was cleared, a worker is idle and
      something waits. */
  lemma OvertakesIff(s: Sched, args: Args, skt: nat)
    requires Inv(s) && skt !in s.pending
    ensures var t := SetPause(s, args);
            Order(Accept(t, skt, true)) != Order(s) + [skt] <==> !t.paused && SomeIdle(s.slots) && s.pending != []
  {
    var t := SetPause(s, args);
    if t.paused || !SomeIdle(s.slots) || s.pending == [] {
      var u := Place(t, skt, true);
      assert s.handed + s.pending + [skt] == s.handed + (s.pending + [skt]);
      if u.paused && u.num >= u.max {
        FillOrder(u.(paused := false), 0);
      }
    } else {
      var u := Accept(t, skt, true);
      assert u.handed == s.handed + [skt];
      assert Order(u)[|s.handed|] == skt;
      assert (Order(s) + [skt])[|s.handed|] == s.pending[0];
    }
  }

  /** Such a state is reachable: with one worker, a pause, a first arrival, then a second one
      just after the flag is cleared. */
  lemma Overtaken(first: nat, second: nat)
    ensures var run := [Command(Flag(true)), Arrival(first, true)];
            && Legal(Start([true]), run)
            && var s := After(Start([true]), run);
               Accept(SetPause(s, Flag(false)), second, true).handed == [second]
  {
    var s0 := Start([true]);
    var s1 := Sched(s0.slots, [], 0, true, DEFAULT_MAX, []);
    var s2 := Sched(s0.slots, [first], 1, true, DEFAULT_MAX, []);
    assert Step(s0, Command(Flag(true))) == s1;
    assert Step(s1, Arrival(first, true)) == s2;
    var run := [Command(Flag(true)), Arrival(first, true)];
    assert run[1..] == [Arrival(first, true)] && run[1..][1..] == [];
    assert Legal(s2, []) && Legal(s1, run[1..]);
    assert After(s1, run[1..]) == s2;
    assert FirstIdle(s2.slots, 0) == 0;
  }

  // ------------------------------------------------------------------ the server

  lemma CountUp(n: nat)
    ensures (n % NUM_WRAP + 1) % NUM_WRAP == (n + 1) % NUM_WRAP
  {
  }

  class Request {
    var next: Request?
    const skt: nat
    constructor (skt: nat)
      ensures this.skt == skt && next == null
    {
      this.skt, next := skt, null;
    }
  }

  /** The linked queue of requests.  When `head` is null, `tail` means nothing. */
  class RequestQueue {
    var head: Request?
    var tail: Request?
    ghost var spine: seq<Request>

    ghost predicate Valid()
      reads this, spine
    {
      && (forall i, j :: 0 <= i < j < |spine| ==> spine[i] != spine[j])
      && (forall i :: 0 <= i < |spine| - 1 ==> spine[i].next == spine[i + 1])
      && (if spine == [] then head == null
          else head == spine[0] && tail == spine[|spine| - 1] && spine[|spine| - 1].next == null)
    }

    ghost function Contents(): (r: seq<nat>)
      reads this, spine
      ensures |r| == |spine|
    {
      seq(|spine|, i requires 0 <= i < |spine| reads this, spine => spine[i].skt)
    }

    constructor ()
      ensures Valid() && spine == [] && Contents() == []
    {
      head, tail, spine := null, null, [];
    }

    /** Append a socket, unless there is no memory for the request. */
    method Add(skt: nat, memory: bool)
      requires Valid()
      modifies this, spine
      ensures Valid() && fresh(set r | r in spine && r !in old(spine))
      ensures Contents() == if memory then old(Contents()) + [skt] else old(Contents())
    {
      if !memory { return; }
      var r := new Request(skt);
      if head == null {
        head, tail := r, r;
      } else {
        tail.next := r;
        tail := r;
      }
      spine := spine + [r];
    }

    method Pop() returns (skt: Option<nat>)
      requires Valid()
      modifies this
      ensures Valid() && forall r :: r in spine ==> r in old(spine)
      ensures old(Contents()) == [] ==> skt == None && Contents() == []
      ensures old(Contents()) != [] ==> skt == Some(old(Contents())[0]) && Contents() == old(Contents())[1..]
    {
      skt := None;
      if head != null {
        skt := Some(head.skt);
        head := head.next;
        spine := spine[1..];
      }
    }
  }

  class Server {
    const valid: array<bool>
    const completed: array<bool>
    const req: array<Option<nat>>
    const queue: RequestQueue
    var num: nat
    var paused: bool
    var max: nat
    ghost var handed: seq<nat>

    ghost function Slots(): (r: seq<Slot>)
      requires completed.Length == req.Length == valid.Length
      reads valid, completed, req
      ensures |r| == valid.Length
      ensures forall i :: 0 <= i < |r| ==> r[i] == Slot(valid[i], completed[i], req[i])
    {
      seq(valid.Length,
          i requires 0 <= i < valid.Length reads valid, completed, req => Slot(valid[i], completed[i], req[i]))
    }

    ghost predicate Valid()
      reads this, valid, completed, req, queue, queue.spine
    {
      && completed.Length == req.Length == valid.Length && valid != completed
      && queue.Valid() && WellFormed(Model())
    }

    ghost function Model(): Sched
      requires completed.Length == req.Length == valid.Length
      reads this, valid, completed, req, queue, queue.spine
    {
      Sched(Slots(), queue.Contents(), num, paused, max, handed)
    }

    constructor (valid: array<bool>)
      ensures Valid() && this.valid == valid && Model() == Start(valid[..])
      ensures fresh(completed) && fresh(req) && fresh(queue) && queue.spine == []
    {
      this.valid := valid;
      completed := new bool[valid.Length](_ => true);
      req := new Option<nat>[valid.Length](_ => None);
      queue := new RequestQueue();
      num, paused, max, handed := 0, false, 0, [];
    }

    method AddConnReq(skt: nat, memory: bool)
      requires Valid()
      modifies this`num, queue, queue.spine
      ensures Valid() && fresh(set r | r in queue.spine && r !in old(queue.spine))
      ensures Model() == if memory then Enqueue(old(Model()), skt) else old(Model())
    {
      hide RequestQueue.Valid, RequestQueue.Contents;
      CountUp(|queue.Contents()|);
      queue.Add(skt, memory);
      if memory {
        num := (num + 1) % NUM_WRAP;
      }
      assert Slots() == old(Slots());
      hide Server.Slots;
    }

    /** Give buffer `i` the next queued socket, if there is one. */
    method TakeNext(i: nat, done: bool)
      requires Valid() && i < valid.Length
      modifies this`num, this`handed, completed, req, queue
      ensures Valid() && forall r :: r in queue.spine ==> r in old(queue.spine)
      ensures Model() == GiveNext(old(Model()), i, done)
    {
      var skt := PopConnReq();
      hide RequestQueue.Valid, RequestQueue.Contents;
      req[i] := skt;
      completed[i] := done;
      assert Slots() == old(Slots())[i := old(Slots())[i].(completed := done, req := skt)];
    }

    method PopConnReq() returns (skt: Option<nat>)
      requires Valid()
      modifies this`num, this`handed, queue
      ensures Valid() && forall r :: r in queue.spine ==> r in old(queue.spine)
      ensures old(queue.Contents()) == [] ==>
                skt == None && queue.Contents() == [] && num == old(num) && handed == old(handed)
      ensures var was := old(queue.Contents());
              was != [] ==> skt == Some(was[0]) && queue.Contents() == was[1..] && num == (|was| - 1) % NUM_WRAP
                            && handed == old(handed) + [was[0]]
    {
      hide RequestQueue.Valid, RequestQueue.Contents;
      skt := queue.Pop();
      assert Slots() == old(Slots());
      if skt.Some? {
        num := (num - 1) % NUM_WRAP;
        handed := handed + [skt.value];
      }
    }

    method BatchStart()
      requires Valid()
      modifies this, completed, req, queue
      ensures Valid() && Model() == Batch(old(Model()))
    {
      hide Fill, RequestQueue.Valid, RequestQueue.Contents;
      paused := false;
      assert Model() == old(Model()).(paused := false);
      FillAll();
    }

    /** Serve idle workers while sockets are queued. */
    method FillAll()
      requires Valid()
      modifies this`num, this`handed, completed, req, queue
      ensures Valid() && Model() == Fill(old(Model()), 0)
    {
      hide RequestQueue.Valid, RequestQueue.Contents;
      var i := 0;
      while i < valid.Length && num != 0
        invariant Valid() && 0 <= i <= valid.Length
        invariant forall r :: r in queue.spine ==> r in old(queue.spine)
        invariant Fill(Model(), i) == Fill(old(Model()), 0)
        decreases valid.Length - i
      {
        hide Fill;
        FillStep(Model(), i);
        if valid[i] && completed[i] {
          TakeNext(i, false);
        }
        i := i + 1;
      }
    }

    method FindIdle() returns (i: nat)
      requires Valid()
      ensures i == FirstIdle(Slots(), 0)
    {
      i := 0;
      while i < valid.Length && !(valid[i] && completed[i])
        invariant 0 <= i <= valid.Length && FirstIdle(Slots(), 0) == FirstIdle(Slots(), i)
      {
        i := i + 1;
      }
    }

    /** The acceptor's critical section. */
    method Dispatch(skt: nat, memory: bool)
      requires Valid()
      modifies this, completed, req, queue, queue.spine
      ensures Valid() && Model() == Accept(old(Model()), skt, memory)
    {
      hide RequestQueue.Valid, RequestQueue.Contents, Fill, FirstIdle;
      PlaceSocket(skt, memory);
      if paused && num >= max {
        BatchStart();
      }
    }

    /** Hand a new socket to an idle worker, or queue it. */
    method PlaceSocket(skt: nat, memory: bool)
      requires Valid()
      modifies this, completed, req, queue, queue.spine
      ensures Valid() && Model() == Place(old(Model()), skt, memory)
      ensures fresh(set r | r in queue.spine && r !in old(queue.spine))
    {
      hide RequestQueue.Valid, RequestQueue.Contents, FirstIdle;
      var i := valid.Length;
      if !paused {
        i := FindIdle();
      }
      if i < valid.Length {
        req[i] := Some(skt);
        completed[i] := false;
        handed := handed + [skt];
        assert Slots() == old(Slots())[i := old(Slots())[i].(completed := false, req := Some(skt))];
      } else {
        AddConnReq(skt, memory);
      }
    }

    /** The worker's critical section after a transfer. */
    method Complete(i: nat, sawPause: bool)
      requires Valid() && i < valid.Length
      modifies this, completed, req, queue
      ensures Valid() && Model() == Finish(old(Model()), i, sawPause)
    {
      if sawPause {
        req[i] := None;
        assert Slots() == old(Slots())[i := old(Slots())[i].(req := None)];
      } else {
        var done := completed[i] || queue.head == null;
        assert queue.Contents() == [] <==> queue.head == null;
        TakeNext(i, done);
      }
    }

    method PauseCmd(args: Args)
      requires Valid()
      modifies this, completed, req, queue
      ensures Valid() && Model() == Pause(old(Model()), args)
    {
      match args {
        case NoArgs =>
        case Flag(on) => paused, max := on, DEFAULT_MAX;
        case FlagMax(on, limit) => paused, max := on, limit % MAX_WRAP;
      }
      assert Slots() == old(Slots());
      assert Model() == SetPause(old(Model()), args);
      if num >= max || (!paused && num != 0) {
        BatchStart();
      }
    }
  }
}
