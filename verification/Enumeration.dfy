/** Network enumeration: a first pass over the devices named in the configuration, then, in
    automatic mode, a second pass over the ports the configuration says nothing about. */
module Enumeration {
  import opened Options
  import opened Fabric
  import DeviceIds
  import opened CompTags
  import opened TagBalance

  /** A heap record remembering a port without configuration. */
  datatype Record = Record(id: nat, pe: nat, port: nat)

  /** How a pass ended; the program itself only reports success or failure. */
  datatype End = Success | OutOfMemory | ProbeFailed | TagUnreadable | TagMismatch | NotConfigured

  /** What a pass remembers of the state it started from. */
  datatype Snap = Snap(known: set<nat>, tag: map<nat, nat>, probed: set<Port>, recorded: set<Port>,
                       open: set<Port>, late: set<nat>, unclaimed: set<nat>,
                       asked: seq<nat>, queue: seq<nat>)

  class Enumerator {
    const net: Network
    const conn: map<(nat, nat), nat>   // configuration: tag expected behind a tag's port
    const devices: set<nat>            // configuration: tags of configured devices
    const auto: bool
    const size: DeviceIds.Size
    const memory: nat -> bool          // which requests for memory are met

    var tags: Tags
    var queue: seq<nat>                // switches still to be searched
    var noCfg: seq<Record>             // records of ports without configuration
    var live: set<nat>                 // records allocated and not yet freed
    var serial: nat                    // requests for memory so far

    ghost var asked: seq<nat>          // switches that were ever queued
    ghost var recorded: set<Port>      // ports that were ever recorded
    ghost var created: set<nat>        // tags created by the automatic pass
    ghost var unclaimed: set<nat>      // devices that a probe labelled and nobody has accepted
    ghost var refused: set<nat>        // tags whose release the allocator refused

    constructor (net: Network, conn: map<(nat, nat), nat>, devices: set<nat>, auto: bool,
                 size: DeviceIds.Size, memory: nat -> bool, tags: Tags)
      requires Good(tags) && net.Valid()
      ensures this.net == net && this.conn == conn && this.devices == devices && this.auto == auto
      ensures this.size == size && this.memory == memory && this.tags == tags
      ensures TagsTaken() ==> AtStart()
    {
      this.net, this.conn, this.devices, this.auto := net, conn, devices, auto;
      this.size, this.memory, this.tags := size, memory, tags;
      queue, noCfg, live, serial := [], [], {}, 0;
      asked, recorded, created, unclaimed, refused := [], {}, {}, {}, {};
    }

    // ---------------------------------------------------------------- records

    /** Every live record is in the list exactly once, and names a known device. */
    ghost predicate Books()
      reads this`noCfg, this`live, this`serial, this`recorded, net`known
    {
      && (forall i, j :: 0 <= i < j < |noCfg| ==> noCfg[i].id != noCfg[j].id)
      && live == (set i | 0 <= i < |noCfg| :: noCfg[i].id)
      && (forall x :: x in live ==> x < serial)
      && (forall i :: 0 <= i < |noCfg| ==> (noCfg[i].pe, noCfg[i].port) in recorded)
      && (forall x :: x in recorded ==> x.0 in net.known)
    }

    /** Record a port, unless memory runs out. */
    method Remember(pe: nat, port: nat) returns (ok: bool)
      requires Books() && pe in net.known
      modifies this`noCfg, this`live, this`serial, this`recorded
      ensures Books() && ok == memory(old(serial)) && serial == old(serial) + 1
      ensures ok ==> recorded == old(recorded) + {(pe, port)} && |noCfg| == old(|noCfg|) + 1
                     && noCfg[..old(|noCfg|)] == old(noCfg)
                     && noCfg[|noCfg| - 1].pe == pe && noCfg[|noCfg| - 1].port == port
      ensures !ok ==> recorded == old(recorded) && noCfg == old(noCfg)
    {
      ok := memory(serial);
      if ok {
        noCfg := noCfg + [Record(serial, pe, port)];
        live := live + {serial};
        recorded := recorded + {(pe, port)};
        assert live == (set i | 0 <= i < |noCfg| :: noCfg[i].id) by {
          assert noCfg[|noCfg| - 1].id == serial;
          assert forall i :: 0 <= i < |noCfg| - 1 ==> noCfg[i] == old(noCfg)[i];
        }
      }
      serial := serial + 1;
    }

    /** Take the first record off the list and free it. */
    method Recall() returns (r: Record)
      requires Books() && noCfg != []
      modifies this`noCfg, this`live
      ensures Books() && r == old(noCfg)[0] && noCfg == old(noCfg)[1..]
      ensures r.id in old(live) && live == old(live) - {r.id}
    {
      r := noCfg[0];
      noCfg := noCfg[1..];
      live := live - {r.id};
      assert forall i :: 0 <= i < |noCfg| ==> noCfg[i] == old(noCfg)[i + 1];
      assert live == (set i | 0 <= i < |noCfg| :: noCfg[i].id) by {
        forall x | x in live ensures x in (set i | 0 <= i < |noCfg| :: noCfg[i].id) {
          var i :| 0 <= i < |old(noCfg)| && old(noCfg)[i].id == x;
          assert noCfg[i - 1].id == x;
        }
      }
    }

    method FreeAll()
      requires Books()
      modifies this`noCfg, this`live
      ensures noCfg == [] && live == {}
    {
      while noCfg != []
        invariant Books()
        decreases |noCfg|
      {
        var _ := Recall();
      }
    }

    // ---------------------------------------------------------------- what has been looked at

    ghost predicate Handled(x: Port)
      reads this`recorded, net`probed
    {
      x in net.probed || x in recorded
    }

    ghost predicate Searched(e: nat, st: nat, cnt: nat)
      reads this`recorded, net`probed
    {
      forall p :: st <= p < cnt ==> Handled((e, p))
    }

    /** What the configuration says of the port has been done: where it names a device the port
        was probed, otherwise it was recorded. */
    ghost predicate Treated(x: Port)
      reads this`recorded, net`probed, net`tag
    {
      x.0 in net.tag && if (net.tag[x.0], x.1) in conn then x in net.probed else x in recorded
    }

    ghost predicate Scanned(e: nat, st: nat, cnt: nat)
      reads this`recorded, net`probed, net`tag
    {
      forall p :: st <= p < cnt ==> Treated((e, p))
    }

    ghost predicate Ready()
      reads this`queue, this`asked, this`noCfg, this`live, this`serial, this`recorded, this`unclaimed,
            net`known, net`tag, net`peer, net`probed
    {
      net.Valid() && Books() && Accounted() && Listed() && Untouched()
    }

    /** The same, but for one port whose record has just been taken off the list. */
    ghost predicate ReadyBut(x: Port)
      reads this`queue, this`asked, this`noCfg, this`live, this`serial, this`recorded, this`unclaimed,
            net`known, net`tag, net`peer, net`probed
    {
      && net.Valid() && Books() && Listed() && Untouched()
      && forall y :: y in recorded ==> y == x || y in net.probed || Awaiting(y)
    }

    /** The queue is what is left of the switches ever queued. */
    ghost predicate Listed()
      reads this`queue, this`asked, net`known
    {
      && |queue| <= |asked| && queue == asked[|asked| - |queue|..]
      && forall i :: 0 <= i < |asked| ==> asked[i] in net.known
    }

    /** A recorded port has been probed or is still in the list. */
    ghost predicate Accounted()
      reads this`recorded, this`noCfg, net`probed
    {
      forall x :: x in recorded ==> x in net.probed || Awaiting(x)
    }

    ghost predicate Awaiting(x: Port)
      reads this`noCfg
    {
      exists i :: 0 <= i < |noCfg| && (noCfg[i].pe, noCfg[i].port) == x
    }

    /** Nothing is done with an unclaimed device: it is not queued, and none of its ports is
        probed or recorded. */
    ghost predicate Untouched()
      reads this`asked, this`recorded, this`unclaimed, net`known, net`probed
    {
      && unclaimed <= net.known
      && (forall x :: Handled(x) ==> x.0 !in unclaimed)
      && (forall i :: 0 <= i < |asked| ==> asked[i] !in unclaimed)
    }

    /** A device with the same tag has been queued. */
    ghost predicate Asked(d: nat)
      reads this`asked, net`tag
    {
      d in net.tag && exists i :: 0 <= i < |asked| && asked[i] in net.tag && net.tag[asked[i]] == net.tag[d]
    }

    /** Nothing known is forgotten or renamed, and nothing handled becomes unhandled. */
    twostate predicate Grows()
      reads this, net
    {
      && old(net.known) <= net.known && old(net.probed) <= net.probed && old(recorded) <= recorded
      && old(net.tag.Keys) <= net.tag.Keys && (forall d :: d in old(net.tag) ==> net.tag[d] == old(net.tag)[d])
      && net.Open() <= old(net.Open()) && old(net.late) <= net.late && (net.NeverLate() ==> net.late == old(net.late))
    }

    /** Besides those of `before`, only devices whose probe failed after the fact are unclaimed,
        and one more when its tag could not be read. */
    ghost predicate Slips(before: set<nat>, end: End)
      reads this`unclaimed, net`late
    {
      if end == TagUnreadable then exists d :: Within(before, d) else unclaimed <= before + net.late
    }

    ghost predicate Within(before: set<nat>, d: nat)
      reads this`unclaimed, net`late
    {
      unclaimed <= before + net.late + {d}
    }

    lemma SlipsJoin(before: set<nat>, mid: set<nat>, late: set<nat>, end: End)
      requires mid <= before + late && late <= net.late && Slips(mid, end)
      ensures Slips(before, end)
    {
      if end == TagUnreadable {
        var d :| Within(mid, d);
        assert Within(before, d);
      }
    }

    lemma FewSlips(before: set<nat>, found: nat, end: End)
      requires unclaimed <= before + net.late + (if end == TagUnreadable then {found} else {})
      ensures Slips(before, end)
    {
      assert Within(before, found) || end != TagUnreadable;
    }

    /** The device was met behind a port for which the configuration gives its label. */
    ghost predicate Directed(d: nat)
      reads net`probed, net`tag
    {
      d in net.tag && exists x :: x in net.probed && Names(x, d)
    }

    ghost predicate Names(x: Port, d: nat)
      reads net`tag
    {
      && d in net.tag && x in net.link && net.link[x].0 == d && x.0 in net.tag && (net.tag[x.0], x.1) in conn
      && net.tag[d] == conn[(net.tag[x.0], x.1)]
    }

    /** The configuration mentions the port of a known device, or does not. */
    ghost predicate Told(x: Port)
      reads net`tag
    {
      x.0 in net.tag && (net.tag[x.0], x.1) in conn
    }

    ghost predicate Untold(x: Port)
      reads net`tag
    {
      x.0 in net.tag && (net.tag[x.0], x.1) !in conn
    }

    ghost function Now(): Snap
      reads this`asked, this`queue, this`recorded, this`unclaimed, net
    {
      Snap(net.known, net.tag, net.probed, recorded, net.Open(), net.late, unclaimed, asked, queue)
    }

    /** Since a state, ports were probed and recorded and devices labelled as the configuration
        says. */
    ghost predicate Labels(b: Snap)
      reads this`recorded, net`probed, net`tag
    {
      && (forall d :: d in net.tag && d !in b.tag ==> Directed(d))
      && (forall x :: x in net.probed && x !in b.probed ==> Told(x))
      && (forall x :: x in recorded && x !in b.recorded ==> Untold(x))
    }

    /** Nothing that stood in an earlier state has been undone. */
    ghost predicate Grown(b: Snap)
      reads this`recorded, net
    {
      && b.known <= net.known && b.probed <= net.probed && b.recorded <= recorded
      && b.late <= net.late && (net.NeverLate() ==> net.late == b.late)
      && b.tag.Keys <= net.tag.Keys && (forall d :: d in b.tag ==> net.tag[d] == b.tag[d]) && net.Open() <= b.open
    }

    twostate lemma GrownJoin(b: Snap)
      requires old(Grown(b)) && Grows()
      ensures Grown(b)
    {
      hide Network.Open;
    }

    twostate lemma GrowsIsGrown()
      requires Grows()
      ensures Grown(old(Now()))
    {
      hide Network.Open;
    }

    twostate lemma GrownIsGrows()
      requires Grown(old(Now()))
      ensures Grows()
    {
      hide Network.Open;
    }

    /** The queue is longer only by switches found through ports that were open. */
    ghost predicate Extends(b: Snap)
      reads this`asked, this`queue, net
    {
      && b.asked <= asked && |asked| - |queue| == |b.asked| - |b.queue|
      && (queue == b.queue || net.Open() < b.open)
    }

    twostate lemma ExtendsJoin(b: Snap)
      requires old(Extends(b)) && old(Grown(b)) && Extends(old(Now())) && Grows()
      ensures Extends(b)
    {
      hide Network.Open, Network.NeverLate;
    }

    twostate lemma TreatedStays()
      requires Grows()
      ensures forall e: nat, p: nat :: old(Treated((e, p))) ==> Treated((e, p))
    {
      hide Network.Open;
    }

    lemma TreatedIsHandled()
      ensures forall x :: Treated(x) ==> Handled(x)
    {
    }

    twostate lemma DirectedStays(d: nat)
      requires old(Directed(d)) && Grows()
      ensures Directed(d)
    {
      hide Network.Open;
      var x :| x in old(net.probed) && old(Names(x, d));
      assert Names(x, d);
    }

    twostate lemma LabelsJoin(b: Snap)
      requires old(Labels(b)) && Labels(old(Now())) && Grows()
      ensures Labels(b)
    {
      forall d | d in net.tag && d !in b.tag ensures Directed(d) {
        if d in old(net.tag) {
          DirectedStays(d);
        }
      }
      hide Directed, Network.Open;
    }

    /** Every switch accepted since shares its tag with one that was queued. */
    ghost predicate NewAsked(before: set<nat>)
      reads this`asked, this`unclaimed, net`known, net`tag
    {
      forall d :: d in net.known && d !in before && d !in unclaimed && d in net.switches ==> Asked(d)
    }

    twostate lemma StillAsked(d: nat)
      requires old(Asked(d)) && Grows() && old(asked) <= asked
      ensures Asked(d)
    {
      var i :| 0 <= i < |old(asked)| && old(asked)[i] in old(net.tag) && old(net.tag)[old(asked)[i]] == old(net.tag)[d];
      assert asked[i] == old(asked)[i];
    }

    twostate lemma NewAskedJoin(before: set<nat>)
      requires old(NewAsked(before)) && NewAsked(old(net.known - unclaimed)) && Grows() && old(asked) <= asked
      ensures NewAsked(before)
    {
      forall d | d in net.known && d !in before && d !in unclaimed && d in net.switches ensures Asked(d) {
        if d in old(net.known - unclaimed) {
          StillAsked(d);
        }
      }
    }

    // ---------------------------------------------------------------- the configured pass

    method InQueue(ct: nat) returns (found: bool)
      requires Ready()
      ensures found <==> exists i :: 0 <= i < |queue| && net.tag[queue[i]] == ct
    {
      found := false;
      var i := 0;
      while i < |queue| && !found
        invariant 0 <= i <= |queue|
        invariant found <==> exists j :: 0 <= j < i && net.tag[queue[j]] == ct
      {
        found := net.tag[queue[i]] == ct;
        i := i + 1;
      }
    }

    /** Put a switch on the queue unless one with its tag is there. */
    method Enqueue(d: nat, ct: nat)
      requires Ready() && d in net.known && d !in unclaimed && net.tag[d] == ct
      modifies this`queue, this`asked
      ensures Ready() && old(asked) <= asked && |asked| - |queue| == old(|asked| - |queue|) && Asked(d)
      ensures queue == if exists i :: 0 <= i < |old(queue)| && net.tag[old(queue)[i]] == ct then old(queue)
                       else old(queue) + [d]
    {
      var already := InQueue(ct);
      if already {
        var i :| 0 <= i < |queue| && net.tag[queue[i]] == ct;
        assert asked[|asked| - |queue| + i] == queue[i];
      } else {
        queue, asked := queue + [d], asked + [d];
        assert asked[|asked| - 1] == d;
      }
    }

    /** Record a port the configuration does not mention. */
    method RecordPort(curr: nat, port: nat) returns (ok: bool)
      requires Ready() && curr in net.known && curr !in unclaimed
      modifies this`noCfg, this`live, this`serial, this`recorded
      ensures Ready() && |noCfg| == old(|noCfg|) + (if ok then 1 else 0)
      ensures ok == memory(old(serial)) && serial == old(serial) + 1
      ensures recorded == if ok then old(recorded) + {(curr, port)} else old(recorded)
      ensures ok ==> noCfg[..old(|noCfg|)] == old(noCfg)
                     && noCfg[|noCfg| - 1].pe == curr && noCfg[|noCfg| - 1].port == port
    {
      ok := Remember(curr, port);
      forall x | x in recorded ensures x in net.probed || Awaiting(x) {
        if ok && x == (curr, port) {
          assert (noCfg[|noCfg| - 1].pe, noCfg[|noCfg| - 1].port) == x;
        } else if old(Awaiting(x)) {
          var i :| 0 <= i < |old(noCfg)| && (old(noCfg)[i].pe, old(noCfg)[i].port) == x;
          assert noCfg[..|old(noCfg)|][i] == noCfg[i];
        }
      }
    }

    /** Probe a port.  A device that is new is unclaimed for now. */
    method ProbePort(curr: nat, port: nat, ct: nat) returns (rc: Rc, found: Option<nat>)
      requires ReadyBut((curr, port)) && curr in net.known && curr !in unclaimed
      modifies this`unclaimed, net
      ensures Ready() && Grows() && net.probed == old(net.probed) + {(curr, port)}
      ensures rc == Failed <==> old(net.Fails(curr, port))
      ensures var r := old(net.Reached(curr, port));
              && (r.None? ==> found == None && net.known == old(net.known) && net.tag == old(net.tag))
              && (r.Some? ==> r.value in net.known && net.known == old(net.known) + {r.value})
              && (r.Some? ==> (curr, port) in net.link && r.value == net.link[(curr, port)].0)
              && (r.Some? ==> (rc, found) == if old(net.fate(net.clock)).Late? then (Io, None) else (Done, r))
              && (r.Some? && r.value in old(net.known) ==> net.tag == old(net.tag))
              && (r.Some? && r.value !in old(net.known) ==>
                    r.value !in old(net.tag) && net.tag == old(net.tag)[r.value := ct])
              && (r.Some? && r.value !in old(net.known) ==>
                    net.peer.Keys == old(net.peer.Keys) + {(curr, port), net.link[(curr, port)]})
              && (r.Some? && (r.value !in old(net.known) || r.value in net.switches) ==> net.Open() < old(net.Open()))
      ensures unclaimed == old(unclaimed) + (net.known - old(net.known))
      ensures unclaimed <= old(unclaimed) + net.late + (if found.Some? then {found.value} else {})
      ensures net.clock == old(net.clock) + 1
    {
      hide Network.Open, Network.NeverLate;
      rc, found := net.Probe(curr, port, ct);
      unclaimed := unclaimed + (net.known - old(net.known));
    }

    /** Deal with a device found where the configuration expects tag `ct`. */
    method Welcome(d: nat, ct: nat) returns (end: End)
      requires Ready() && d in net.known
      modifies this`queue, this`asked, this`unclaimed, net`clock
      ensures Ready() && old(asked) <= asked && |asked| - |queue| == old(|asked| - |queue|)
      ensures end == TagUnreadable <==> !old(net.fate(net.clock)).Works?
      ensures d !in net.switches ==> queue == old(queue)
      ensures unclaimed == if end == Success then old(unclaimed) - {d} else old(unclaimed)
      ensures end == Success && d in net.switches ==> Asked(d)
      ensures end == Success || end == TagUnreadable || end == TagMismatch
      ensures end == TagMismatch <==> old(net.fate(net.clock)).Works? && net.tag[d] != ct
    {
      var readable, have := net.GetTag(d);
      if !readable { return TagUnreadable; }
      if have != ct { return TagMismatch; }
      unclaimed := unclaimed - {d};
      if d in net.switches {
        Enqueue(d, ct);
      }
      return Success;
    }

    /** A probe of this port succeeds and finds a device other than the one it starts from. */
    ghost predicate Finds(curr: nat, port: nat)
      reads net`peer, net`clock
    {
      var r := net.Reached(curr, port);
      r.Some? && r.value != curr && net.fate(net.clock).Works?
    }

    /** Probe a port behind which the configuration expects tag `ct`. */
    method ProbeExpected(curr: nat, port: nat, ct: nat) returns (rc: Rc, found: Option<nat>)
      requires Ready() && curr in net.known && curr !in unclaimed
      modifies this`unclaimed, net
      ensures Ready() && Grows() && net.known - unclaimed == old(net.known - unclaimed)
      ensures net.probed == old(net.probed) + {(curr, port)} && net.clock == old(net.clock) + 1
      ensures rc == Failed <==> old(net.Fails(curr, port))
      ensures found.Some? && found.value != curr <==> old(Finds(curr, port))
      ensures found.Some? ==> rc == Done && found == old(net.Reached(curr, port)) && found.value in net.known
      ensures forall d :: d in net.tag && d !in old(net.tag) ==>
                (curr, port) in net.link && net.link[(curr, port)].0 == d && net.tag[d] == ct
      ensures found.Some? && found.value in net.switches ==> net.Open() < old(net.Open())
      ensures unclaimed <= old(unclaimed) + net.late + (if found.Some? then {found.value} else {})
      ensures found.Some? && net.tag[found.value] != ct ==> unclaimed <= old(unclaimed)
    {
      assert ReadyBut((curr, port));
      assert unclaimed <= net.known;
      hide Books, Accounted, Listed, Untouched, Network.Valid, Network.Open, Network.NeverLate;
      rc, found := ProbePort(curr, port, ct);
    }

    /** The port behind which the configuration expects tag `ct`: the device found must bear it. */
    method ScanExpected(curr: nat, port: nat, ct: nat) returns (end: End)
      requires Ready() && curr in net.known && curr !in unclaimed
      modifies this`queue, this`asked, this`unclaimed, net
      ensures Ready() && Grows() && Extends(old(Now())) && curr !in unclaimed
      ensures net.probed == old(net.probed) + {(curr, port)}
      ensures forall d :: d in net.tag && d !in old(net.tag) ==>
                (curr, port) in net.link && net.link[(curr, port)].0 == d && net.tag[d] == ct
      ensures end == Success ==> NewAsked(old(net.known - unclaimed))
      ensures Slips(old(unclaimed), end)
      // how the scan of the port ends
      ensures end == ProbeFailed <==> old(net.Fails(curr, port))
      ensures end == TagUnreadable <==> old(Finds(curr, port) && !net.fate(net.clock + 1).Works?)
      ensures old(Finds(curr, port)) ==> old(net.Reached(curr, port)).value in net.known
      ensures end == TagMismatch <==> old(Finds(curr, port) && net.fate(net.clock + 1).Works?)
                                      && net.tag[old(net.Reached(curr, port)).value] != ct
      ensures end == Success || end == ProbeFailed || end == TagUnreadable || end == TagMismatch
      ensures old(Finds(curr, port)) && end == Success ==>
                var d := old(net.Reached(curr, port)).value; d !in unclaimed && (d in net.switches ==> Asked(d))
      ensures !old(Finds(curr, port)) ==> queue == old(queue) && asked == old(asked)
    {
      hide Ready, Asked, Slips, Finds, Network.Fails, Network.Reached, Network.Open, Network.NeverLate;
      end := Success;
      var rc, found := ProbeExpected(curr, port, ct);
      assert curr in net.known - unclaimed;
      if rc != Done {
        end := if rc == Failed then ProbeFailed else Success;
      } else if found.Some? && found.value != curr {
        end := Welcome(found.value, ct);
      }
      FewSlips(old(unclaimed), if found.Some? then found.value else 0, end);
    }

    /** The port that the configuration does not mention: it is recorded. */
    method ScanUntold(curr: nat, port: nat) returns (end: End)
      requires Ready() && curr in net.known && curr !in unclaimed && Untold((curr, port))
      modifies this`noCfg, this`live, this`serial, this`recorded
      ensures Ready() && Grows() && Labels(old(Now()))
      ensures end == if memory(old(serial)) then Success else OutOfMemory
      ensures end == Success ==> Treated((curr, port))
      ensures Slips(old(unclaimed), end)
    {
      hide Network.Open, Network.NeverLate;
      var ok := RecordPort(curr, port);
      end := if ok then Success else OutOfMemory;
      FewSlips(old(unclaimed), 0, end);
    }

    /** Probe the port if the configuration mentions it, otherwise record it. */
    method ScanPort(curr: nat, port: nat) returns (end: End)
      requires Ready() && curr in net.known && curr !in unclaimed
      modifies this`queue, this`asked, this`noCfg, this`live, this`serial, this`recorded, this`unclaimed, net
      ensures Ready() && Grows() && Extends(old(Now())) && Labels(old(Now())) && curr !in unclaimed
      ensures end == Success ==> Treated((curr, port)) && NewAsked(old(net.known - unclaimed))
      ensures Slips(old(unclaimed), end)
      ensures end == OutOfMemory <==> !old(Told((curr, port))) && !memory(old(serial))
      ensures end == ProbeFailed <==> old(Told((curr, port)) && net.Fails(curr, port))
      ensures end == TagUnreadable <==> old(Told((curr, port)) && Finds(curr, port) && !net.fate(net.clock + 1).Works?)
      ensures old(Told((curr, port)) && Finds(curr, port)) && end == Success ==>
                var d := old(net.Reached(curr, port)).value;
                && d in net.known && d !in unclaimed && (d in net.switches ==> Asked(d))
                && net.tag[d] == conn[(net.tag[curr], port)]
    {
      hide Asked, Slips, Finds, Accounted, Books, Listed, Untouched;
      hide Network.Fails, Network.Reached, Network.Open, Network.NeverLate;
      if (net.tag[curr], port) in conn {
        end := ScanExpected(curr, port, conn[(net.tag[curr], port)]);
        NamedHere((curr, port));
      } else {
        end := ScanUntold(curr, port);
      }
    }

    lemma NamedHere(x: Port)
      requires x in net.probed
      ensures forall d :: Names(x, d) ==> Directed(d)
    {
    }

    /** The same, added to what has been done since an earlier state. */
    method ScanNext(curr: nat, st: nat, port: nat, ghost b: Snap) returns (end: End)
      requires Ready() && curr in net.known && curr !in unclaimed && st <= port && Scanned(curr, st, port)
      requires Grown(b) && Extends(b) && Labels(b) && NewAsked(b.known - b.unclaimed) && unclaimed <= b.unclaimed + net.late
      modifies this`queue, this`asked, this`noCfg, this`live, this`serial, this`recorded, this`unclaimed, net
      ensures Ready() && Grown(b) && Extends(b) && Labels(b) && curr in net.known && curr !in unclaimed
      ensures Slips(b.unclaimed, end)
      ensures end == Success ==> Scanned(curr, st, port + 1) && NewAsked(b.known - b.unclaimed)
    {
      hide Ready, NewAsked, Labels, Slips, Treated, Told, Finds, Network.Open, Network.NeverLate;
      end := ScanPort(curr, port);
      TreatedStays();
      ExtendsJoin(b);
      GrownJoin(b);
      LabelsJoin(b);
      SlipsJoin(b.unclaimed, old(unclaimed), old(net.late), end);
      if end == Success {
        NewAskedJoin(b.known - b.unclaimed);
      }
    }

    lemma NoneSince(b: Snap, curr: nat, st: nat)
      requires b == Now()
      ensures Grown(b) && Extends(b) && Labels(b) && NewAsked(b.known - b.unclaimed)
      ensures Scanned(curr, st, st) && Slips(b.unclaimed, Success)
    {
    }

    lemma ScannedAll(curr: nat, st: nat, cnt: nat, port: nat)
      requires Scanned(curr, st, port) && cnt <= port
      ensures Scanned(curr, st, cnt)
    {
    }

    lemma FewSlipped(before: set<nat>)
      requires Slips(before, Success)
      ensures unclaimed <= before + net.late
    {
    }

    method ScanPorts(curr: nat, st: nat, cnt: nat) returns (end: End)
      requires Ready() && curr in net.known && curr !in unclaimed
      modifies this`queue, this`asked, this`noCfg, this`live, this`serial, this`recorded, this`unclaimed, net
      ensures Ready() && Grows() && Extends(old(Now())) && Labels(old(Now())) && curr !in unclaimed
      ensures end == Success ==> Scanned(curr, st, cnt) && NewAsked(old(net.known - unclaimed))
      ensures Slips(old(unclaimed), end)
    {
      ghost var b := Now();
      NoneSince(b, curr, st);
      hide Ready, Grown, Extends, NewAsked, Labels, Slips, Scanned, Network.Open, Network.NeverLate;
      end := Success;
      var port := st;
      while port < cnt && end == Success
        invariant Ready() && Grown(b) && Extends(b) && Labels(b) && st <= port && curr in net.known && curr !in unclaimed
        invariant end == Success ==> Scanned(curr, st, port) && NewAsked(b.known - b.unclaimed)
        invariant Slips(b.unclaimed, end)
        decreases cnt - port
      {
        FewSlipped(b.unclaimed);
        end := ScanNext(curr, st, port, b);
        port := port + 1;
      }
      GrownIsGrows();
      if end == Success {
        ScannedAll(curr, st, cnt, port);
      }
    }

    /** The first `n` switches ever queued are configured and have had all their ports treated. */
    ghost predicate Finished(n: int)
      reads this`asked, this`recorded, net`probed, net`tag
    {
      forall i :: 0 <= i < n && i < |asked| ==> SwitchDone(asked[i])
    }

    ghost predicate SwitchDone(e: nat)
      reads this`recorded, net`probed, net`tag
    {
      && e in net.tag && net.tag[e] in devices
      && (e in net.ports ==> Scanned(e, 0, net.ports[e]))
    }

    twostate lemma StillFinished(n: int)
      requires old(Finished(n)) && Grows() && old(asked) <= asked && n <= |old(asked)|
      ensures Finished(n)
    {
      hide Network.Open;
      forall i | 0 <= i < n && i < |asked| ensures SwitchDone(asked[i]) {
        assert asked[i] == old(asked)[i];
        assert old(SwitchDone(asked[i]));
      }
    }

    method Pop() returns (head: Option<nat>)
      requires Ready()
      modifies this`queue
      ensures Ready()
      ensures old(queue) == [] ==> head == None && queue == []
      ensures old(queue) != [] ==>
                |queue| == |old(queue)| - 1 && head == Some(asked[|asked| - |queue| - 1]) && head.value in net.known
    {
      if queue == [] { return None; }
      head := Some(queue[0]);
      queue := queue[1..];
    }

    /** Search the next queued switch. */
    method SearchNext(curr: nat) returns (end: End)
      requires Ready() && |queue| < |asked| && curr == asked[|asked| - |queue| - 1] && Finished(|asked| - |queue| - 1)
      modifies this`queue, this`asked, this`noCfg, this`live, this`serial, this`recorded, this`unclaimed, net
      ensures Ready() && Grows() && Extends(old(Now())) && Labels(old(Now()))
      ensures end == Success ==> Finished(|asked| - |queue|) && NewAsked(old(net.known - unclaimed))
      ensures Slips(old(unclaimed), end)
    {
      if net.tag[curr] !in devices { return NotConfigured; }
      end := ScanPorts(curr, 0, net.ports[curr]);
      StillFinished(|old(asked)| - |old(queue)| - 1);
      assert curr == asked[|asked| - |queue| - 1];
    }

    /** The switch being searched is the last one taken off the queue; when there is none,
        all have been searched. */
    ghost predicate AtWork(curr: Option<nat>)
      reads this`queue, this`asked, this`recorded, net`probed, net`tag
    {
      if curr.None? then queue == [] && Finished(|asked|)
      else |queue| < |asked| && curr.value == asked[|asked| - |queue| - 1] && Finished(|asked| - |queue| - 1)
    }

    method NextSwitch() returns (curr: Option<nat>)
      requires Ready() && |queue| <= |asked| && Finished(|asked| - |queue|)
      modifies this`queue
      ensures Ready() && AtWork(curr)
      ensures if old(queue) == [] then curr == None && queue == [] else curr.Some? && |queue| < |old(queue)|
    {
      hide Books, Accounted, Untouched;
      curr := Pop();
    }

    /** What the configured pass has done since a state, when nothing stopped it. */
    ghost predicate Since(b: Snap)
      reads this`asked, this`unclaimed, net
    {
      NewAsked(b.known - b.unclaimed) && unclaimed <= b.unclaimed + net.late
    }

    twostate lemma SinceJoin(b: Snap)
      requires old(Since(b)) && Since(old(Now())) && Grows() && old(asked) <= asked
      ensures Since(b)
    {
      NewAskedJoin(b.known - b.unclaimed);
      hide NewAsked, Network.Open;
    }

    lemma SinceSlips(b: Snap)
      requires Since(b)
      ensures unclaimed <= b.unclaimed + net.late && Slips(b.unclaimed, Success)
    {
    }

    /** Search one switch and take the next one off the queue. */
    method Turn(curr: nat) returns (end: End, next: Option<nat>)
      requires Ready() && AtWork(Some(curr))
      modifies this`queue, this`asked, this`noCfg, this`live, this`serial, this`recorded, this`unclaimed, net
      ensures Ready() && Grows() && Labels(old(Now())) && old(asked) <= asked
      ensures end == Success ==> AtWork(next) && Since(old(Now()))
      ensures Slips(old(unclaimed), end)
      ensures end == Success ==>
                net.Open() < old(net.Open()) || |queue| < old(|queue|) || (queue == old(queue) && next.None?)
    {
      hide Books, Accounted, Untouched, Asked, Finished, Network.Open, Network.Valid;
      next := None;
      end := SearchNext(curr);
      if end == Success {
        next := NextSwitch();
      }
    }

    /** Work off the queue, `b` being the state at the start of the pass. */
    method WorkOff(first: Option<nat>, ghost b: Snap) returns (end: End)
      requires Ready() && AtWork(first) && Grown(b) && Labels(b) && Since(b)
      modifies this`queue, this`asked, this`noCfg, this`live, this`serial, this`recorded, this`unclaimed, net
      ensures Ready() && Grows() && Grown(b) && Labels(b)
      ensures end == Success ==> AtWork(None) && Since(b)
      ensures Slips(b.unclaimed, end)
    {
      hide Ready, Grown, Labels, Since, AtWork, Slips, Network.Open;
      end := Success;
      var curr := first;
      SinceSlips(b);
      while curr.Some?
        invariant Ready() && Grows() && Grown(b) && Labels(b) && Since(b) && AtWork(curr) && end == Success
        invariant unclaimed <= b.unclaimed + net.late && Slips(b.unclaimed, end)
        decreases net.Open(), |queue|, curr.Some?
      {
        label Before:
        ghost var mid, late := unclaimed, net.late;
        end, curr := Turn(curr.value);
        GrownJoin@Before(b);
        LabelsJoin@Before(b);
        SlipsJoin(b.unclaimed, mid, late, end);
        if end != Success { return; }
        SinceJoin@Before(b);
        SinceSlips(b);
      }
    }

    lemma SinceNow(b: Snap)
      requires Extends(b) && NewAsked(b.known - b.unclaimed) && Slips(b.unclaimed, Success) && b.asked == b.queue
      ensures Since(b) && |queue| <= |asked| && Finished(|asked| - |queue|)
    {
    }

    method ConfiguredPass(pe: nat, st: nat, cnt: nat) returns (end: End)
      requires Ready() && pe in net.known && pe !in unclaimed && queue == [] && asked == []
      modifies this`queue, this`asked, this`noCfg, this`live, this`serial, this`recorded, this`unclaimed, net
      ensures Ready() && Grown(old(Now())) && Labels(old(Now()))
      ensures end == Success ==> Scanned(pe, st, cnt) && AtWork(None) && Since(old(Now()))
      ensures Slips(old(unclaimed), end)
    {
      ghost var b := Now();
      hide Ready, Grows, Grown, Labels, Since, NewAsked, Treated, Slips, Network.Open, Network.NeverLate;
      end := ScanPorts(pe, st, cnt);
      GrowsIsGrown();
      if end == Success {
        SinceNow(b);
        var curr := NextSwitch();
        label Before:
        end := WorkOff(curr, b);
        TreatedStays@Before();
      }
    }

    // ---------------------------------------------------------------- the automatic pass

    /** No device has accepted the tag in hand; one has accepted each of the others. */
    ghost predicate Holding(ct: nat)
      reads this`tags, this`created, this`unclaimed, this`refused, net`tag
    {
      Fair(tags, created, ct, net.tag, unclaimed) && refused == {} && Sized()
    }

    /** A created tag whose id does not fit was made for eight bits and is wider. */
    ghost predicate Sized()
      reads this`created
    {
      forall t :: t in created && !Fitting(t, size) ==> size.Dev08? && TagDid(t) > DeviceIds.LAST_DEV8
    }

    predicate InHand(ct: nat, did: DeviceIds.Did) { ct != UNSET ==> did == DeviceIds.Did(TagDid(ct), size) }

    /** All created tags have come to their end. */
    ghost predicate Ended()
      reads this`tags, this`created, this`unclaimed, this`refused, net`tag
    {
      Balanced(tags, size, created, net.tag, unclaimed, refused) && refused <= created && Sized()
    }

    /** The allocator has no tag to give. */
    ghost predicate Exhausted()
      reads this`tags
    {
      Good(tags) && CreateAll(tags, size).rc != DeviceIds.Ok
    }

    /** Obtain a tag to offer, unless one is in hand; when none can be had the unset tag is
        offered. */
    method TakeTag(ct: nat, did: DeviceIds.Did) returns (ct': nat, did': DeviceIds.Did)
      requires Holding(ct) && InHand(ct, did)
      modifies this`tags, this`created
      ensures Holding(ct') && InHand(ct', did')
      ensures ct != UNSET ==> ct' == ct && did' == did && tags == old(tags) && created == old(created)
      ensures ct == UNSET ==> Made(tags, ct', did', CreateAll(old(tags), size).rc) == CreateAll(old(tags), size)
                              && created == if ct' == UNSET then old(created) else old(created) + {ct'}
      ensures ct == UNSET && ct' != UNSET ==> ct' !in old(created) && NoHolder(ct', net.tag)
      ensures ct' == UNSET ==> Exhausted()
      ensures ct == UNSET && old(Exhausted()) ==> ct' == UNSET
    {
      ct', did' := ct, did;
      if ct == UNSET {
        var made := CreateAll(tags, size);
        if made.rc == DeviceIds.Ok {
          TakeKeeps(tags, size, created, net.tag, unclaimed);
          MadeIsLive(tags, size);
          MadeFits(tags, size);
          created := created + {made.ct};
        } else {
          TakeFails(tags, size, created, net.tag, unclaimed);
          NoneLeft(tags, size);
        }
        hide CreateAll, Fair, Live, NoHolder, Fitting, TagDid;
        tags, ct', did' := made.tags, made.ct, made.did;
      }
    }

    method GiveBack(ct: nat, did: DeviceIds.Did)
      requires Holding(ct) && InHand(ct, did)
      modifies this`tags, this`refused
      ensures Ended() && tags == ReleaseTag(old(tags), ct, did).0 && (ct == UNSET ==> tags == old(tags))
      ensures refused == if ct != UNSET && ReleaseTag(old(tags), ct, did).1 != DeviceIds.Ok then {ct} else {}
    {
      var r := ReleaseTag(tags, ct, did);
      if ct == UNSET {
        assert TagNumber(UNSET) == 0;
        NothingInHand(tags, size, created, net.tag, unclaimed);
      } else {
        ReleaseEnds(tags, size, created, ct, net.tag, unclaimed);
      }
      hide Balanced, ReleaseTag, AllUsed, InUse, TagDid, Fitting;
      tags := r.0;
      refused := if ct != UNSET && r.1 != DeviceIds.Ok then {ct} else {};
    }

    /** Take the first record off the list; its port is now to be probed. */
    method RecallPort() returns (r: Record)
      requires Ready() && noCfg != []
      modifies this`noCfg, this`live
      ensures ReadyBut((r.pe, r.port)) && r == old(noCfg)[0] && noCfg == old(noCfg)[1..]
      ensures r.pe in net.known && r.pe !in unclaimed
    {
      r := Recall();
      forall x | x in recorded && x !in net.probed && x != (r.pe, r.port) ensures Awaiting(x) {
        var i :| 0 <= i < |old(noCfg)| && (old(noCfg)[i].pe, old(noCfg)[i].port) == x;
        assert noCfg[i - 1] == old(noCfg)[i];
      }
      assert Handled((r.pe, r.port));
    }

    /** The first recorded port, and the device that a probe of it gets to. */
    ghost function First(): Port
      requires noCfg != []
      reads this`noCfg
    {
      (noCfg[0].pe, noCfg[0].port)
    }

    ghost predicate SomeAhead()
      reads this`noCfg, net
    {
      noCfg != [] && net.Reached(First().0, First().1).Some?
    }

    ghost function Ahead(): nat
      requires SomeAhead()
      reads this`noCfg, net
    {
      net.Reached(First().0, First().1).value
    }

    ghost predicate NewAhead()
      reads this`noCfg, net
    {
      SomeAhead() && First() in net.link && Ahead() !in net.known
    }

    /** Take the first record off the list, free it and probe its port. */
    method ProbeFirst(ct: nat) returns (curr: nat, rc: Rc, found: Option<nat>)
      requires Ready() && noCfg != []
      modifies this`noCfg, this`live, this`unclaimed, net
      ensures Ready() && Grows() && noCfg == old(noCfg[1..]) && curr in old(net.known) && net.clock == old(net.clock) + 1
      ensures rc == Failed <==> old(net.Fails(First().0, First().1))
      ensures !old(SomeAhead()) ==> found == None
      ensures old(SomeAhead()) ==> old(Ahead()) in net.known
      ensures old(SomeAhead()) ==>
                (rc, found) == if old(net.fate(net.clock)).Late? then (Io, None) else (Done, old(Some(Ahead())))
      ensures !old(NewAhead()) ==> net.known == old(net.known) && net.tag == old(net.tag)
      ensures old(NewAhead()) ==> net.known == old(net.known + {Ahead()}) && net.tag == old(net.tag[Ahead() := ct])
      ensures old(NewAhead()) ==> net.peer.Keys == old(net.peer.Keys + {First(), net.link[First()]})
      ensures old(SomeAhead() && (NewAhead() || Ahead() in net.switches)) ==> net.Open() < old(net.Open())
      ensures unclaimed == old(unclaimed) + (net.known - old(net.known))
      ensures found.None? || !old(NewAhead()) ==> unclaimed <= old(unclaimed) + net.late
    {
      assert unclaimed <= net.known;
      hide Books, Accounted, Listed, Untouched, Awaiting, Network.Valid, Network.Open, Network.NeverLate;
      var r := RecallPort();
      curr := r.pe;
      rc, found := ProbePort(r.pe, r.port, ct);
    }

    /** The same; the balance is kept. */
    method ProbeRecorded(ct: nat) returns (curr: nat, rc: Rc, found: Option<nat>)
      requires Ready() && noCfg != [] && Holding(ct)
      modifies this`noCfg, this`live, this`unclaimed, net
      ensures Ready() && Grows() && noCfg == old(noCfg[1..]) && curr in old(net.known)
      ensures Holding(ct) && net.clock == old(net.clock) + 1 && NewSearched(old(net.known - unclaimed))
      ensures rc == Failed <==> old(net.Fails(First().0, First().1))
      ensures !old(SomeAhead()) ==> found == None
      ensures old(SomeAhead()) ==> old(Ahead()) in net.known
      ensures old(SomeAhead()) ==>
                (rc, found) == if old(net.fate(net.clock)).Late? then (Io, None) else (Done, old(Some(Ahead())))
      ensures !old(NewAhead()) ==> net.known == old(net.known) && net.tag == old(net.tag) && unclaimed == old(unclaimed)
      ensures old(NewAhead()) ==> net.known == old(net.known + {Ahead()}) && net.tag == old(net.tag[Ahead() := ct])
      ensures old(NewAhead()) ==> net.peer.Keys == old(net.peer.Keys + {First(), net.link[First()]})
      ensures old(NewAhead()) ==> unclaimed == old(unclaimed + {Ahead()}) && unclaimed - {old(Ahead())} == old(unclaimed)
      ensures old(SomeAhead() && (NewAhead() || Ahead() in net.switches)) ==> net.Open() < old(net.Open())
      ensures found.None? || !old(NewAhead()) ==> unclaimed <= old(unclaimed) + net.late
    {
      assert unclaimed <= net.known == net.tag.Keys;
      hide Ready, Holding, Network.Open, Network.NeverLate, SomeAhead, Ahead, First;
      ghost var isNew := NewAhead();
      ghost var d := if isNew then Ahead() else 0;
      curr, rc, found := ProbeFirst(ct);
      if isNew {
        assert unclaimed == old(unclaimed) + {d};
        HoldingLabel(d);
      } else {
        assert unclaimed == old(unclaimed);
        HoldingStays(ct);
      }
    }

    twostate lemma HoldingStays(ct: nat)
      requires old(Holding(ct)) && tags == old(tags) && created == old(created) && refused == old(refused)
      requires net.tag == old(net.tag) && unclaimed == old(unclaimed)
      ensures Holding(ct)
    {
      hide Fair;
    }

    /** A device labelled with the tag in hand joins the unclaimed ones. */
    twostate lemma HoldingLabel(d: nat)
      requires d in net.tag && d !in old(net.tag) && net.tag == old(net.tag)[d := net.tag[d]]
      requires unclaimed == old(unclaimed) + {d}
      requires tags == old(tags) && created == old(created) && refused == old(refused)
      requires var ct := net.tag[d]; old(Holding(ct))
      ensures Holding(net.tag[d])
    {
      LabelKeeps(tags, created, net.tag[d], old(net.tag), old(unclaimed), d);
      hide Fair;
    }

    /** Record all ports of a switch. */
    method RecordAll(d: nat) returns (ok: bool)
      requires Ready() && d in net.known && d !in unclaimed
      modifies this`noCfg, this`live, this`serial, this`recorded
      ensures Ready() && old(recorded) <= recorded
      ensures ok ==> Searched(d, 0, net.ports[d])
    {
      ok := true;
      var port: nat := 0;
      while port < net.ports[d] && ok
        invariant Ready() && old(recorded) <= recorded && 0 <= port
        invariant ok ==> Searched(d, 0, port) && port <= net.ports[d]
        decreases net.ports[d] - port
      {
        ok := RecordPort(d, port);
        port := port + 1;
      }
    }

    /** A device bearing the tag in hand is accepted; if a switch, its ports are recorded. */
    method AcceptDevice(d: nat, ct: nat) returns (ok: bool)
      requires Ready() && d in net.known && net.tag[d] == ct && Holding(ct)
      modifies this`unclaimed, this`noCfg, this`live, this`serial, this`recorded
      ensures Ready() && Holding(UNSET) && old(recorded) <= recorded && unclaimed == old(unclaimed) - {d}
      ensures ok && d in net.switches ==> Searched(d, 0, net.ports[d])
      ensures d !in net.switches ==> ok && noCfg == old(noCfg)
    {
      AcceptKeeps(tags, created, ct, net.tag, unclaimed, d);
      unclaimed := unclaimed - {d};
      ok := true;
      hide Fair;
      if d in net.switches {
        ok := RecordAll(d);
      }
    }

    /** Deal with the device found behind a recorded port. */
    method Connected(ct: nat, did: DeviceIds.Did, d: nat, ghost before: set<nat>) returns (end: End, ct': nat)
      requires Ready() && d in net.known && Holding(ct) && InHand(ct, did) && NewSearched(before)
      modifies this`tags, this`refused, this`unclaimed, this`noCfg, this`live, this`serial, this`recorded, net`clock
      ensures Ready() && old(recorded) <= recorded && (end == TagUnreadable <==> !old(net.fate(net.clock)).Works?)
      ensures end != Success ==> Ended()
      ensures end == TagUnreadable ==> unclaimed == old(unclaimed) && tags == ReleaseTag(old(tags), ct, did).0
      ensures end == Success ==> Holding(ct') && ct' == (if net.tag[d] == ct then UNSET else ct) && tags == old(tags)
      ensures end != TagUnreadable ==> unclaimed == if net.tag[d] == ct then old(unclaimed) - {d} else old(unclaimed)
      ensures end == Success ==> NewSearched(before)
      ensures ct == UNSET || end == OutOfMemory ==> tags == old(tags)
      ensures d !in net.switches ==> noCfg == old(noCfg) && (end == Success || end == TagUnreadable)
      ensures end == Success || end == TagUnreadable || end == OutOfMemory
    {
      hide Books, Accounted, Listed, Untouched, Network.Valid, Fair, Balanced;
      var readable, have := net.GetTag(d);
      if !readable {
        GiveBack(ct, did);
        return TagUnreadable, UNSET;
      }
      if have != ct { return Success, ct; }
      var ok := AcceptDevice(d, ct);
      if !ok {
        HandsEmpty();
        return OutOfMemory, UNSET;
      }
      return Success, UNSET;
    }

    /** Every switch accepted since has had all its ports handled. */
    ghost predicate NewSearched(before: set<nat>)
      reads this`recorded, this`unclaimed, net`known, net`probed
    {
      forall d :: d in net.known && d !in before && d !in unclaimed && d in net.switches && d in net.ports ==>
        Searched(d, 0, net.ports[d])
    }

    /** What the automatic pass has done since a state, when nothing stopped it. */
    ghost predicate SinceAuto(b: Snap)
      reads this`recorded, this`unclaimed, net
    {
      && NewSearched(b.known - b.unclaimed) && unclaimed <= b.unclaimed + net.late
      && b.known <= net.known && unclaimed * b.known <= b.unclaimed
    }

    twostate lemma SinceAutoJoin(b: Snap)
      requires old(SinceAuto(b)) && SinceAuto(old(Now())) && Grows()
      ensures SinceAuto(b)
    {
      hide Network.Open;
      forall d | d in net.known && d !in b.known - b.unclaimed && d !in unclaimed && d in net.switches && d in net.ports
        ensures Searched(d, 0, net.ports[d])
      {
        if d in old(net.known - unclaimed) {
          assert old(Searched(d, 0, net.ports[d]));
        }
      }
    }

    /** Act on the answer of a probe from `curr`. */
    method Answer(ct: nat, did: DeviceIds.Did, curr: nat, rc: Rc, found: Option<nat>, ghost before: set<nat>)
      returns (end: End, ct': nat)
      requires Ready() && Holding(ct) && InHand(ct, did) && NewSearched(before)
      requires found.Some? ==> found.value in net.known
      modifies this`tags, this`refused, this`unclaimed, this`noCfg, this`live, this`serial, this`recorded, net`clock
      ensures Ready() && old(recorded) <= recorded
      ensures end != Success ==> Ended()
      ensures end == Success ==> Holding(ct') && (ct' == UNSET || ct' == ct) && NewSearched(before)
      ensures rc == Failed ==> unclaimed == old(unclaimed)
      ensures end == ProbeFailed <==> rc == Failed
      ensures end == Success || end == OutOfMemory || ct == UNSET ==> tags == old(tags)
      ensures rc != Failed && !Meets(curr, rc, found) ==>
                end == Success && ct' == ct && unclaimed == old(unclaimed) && noCfg == old(noCfg)
                && tags == old(tags) && net.clock == old(net.clock)
      ensures Meets(curr, rc, found) ==>
                var d := found.value;
                && (end == TagUnreadable <==> !old(net.fate(net.clock)).Works?)
                && (end == TagUnreadable ==> unclaimed == old(unclaimed))
                && (end == Success ==> ct' == if net.tag[d] == ct then UNSET else ct)
                && (end != TagUnreadable ==>
                      unclaimed == if net.tag[d] == ct then old(unclaimed) - {d} else old(unclaimed))
                && (d !in net.switches ==> noCfg == old(noCfg) && (end == Success || end == TagUnreadable))
    {
      hide Ready, Holding, Ended, NewSearched, ReleaseTag, TagDid;
      ct' := ct;
      end := Success;
      if rc == Failed {
        GiveBack(ct, did);
        end := ProbeFailed;
      } else if rc == Done && found.Some? && found.value != curr {
        end, ct' := Connected(ct, did, found.value, before);
      }
    }

    /** The probe found a device other than the one it started from. */
    predicate Meets(curr: nat, rc: Rc, found: Option<nat>) { rc == Done && found.Some? && found.value != curr }

    /** Deal with the first recorded port, offering the tag in hand. */
    method AutoPort(ct: nat, did: DeviceIds.Did) returns (end: End, ct': nat)
      requires Ready() && noCfg != [] && Holding(ct) && InHand(ct, did)
      modifies this`tags, this`refused, this`unclaimed, this`noCfg, this`live, this`serial, this`recorded, net
      ensures Ready() && Grows()
      ensures end != Success ==> Ended()
      ensures end == Success ==> Holding(ct') && (ct' == UNSET || ct' == ct) && SinceAuto(old(Now()))
      ensures end == Success ==> net.Open() < old(net.Open()) || |noCfg| < old(|noCfg|)
      ensures end == ProbeFailed <==> old(net.Fails(First().0, First().1))
      ensures end == Success || end == OutOfMemory || ct == UNSET ==> tags == old(tags)
      // how a new device fares
      ensures !old(NewAhead()) ==> net.known == old(net.known) && net.tag == old(net.tag)
      ensures old(NewAhead()) ==> net.known == old(net.known + {Ahead()}) && net.tag == old(net.tag[Ahead() := ct])
      ensures old(NewAhead()) ==> net.peer.Keys == old(net.peer.Keys + {First(), net.link[First()]})
      ensures old(NewAhead() && net.fate(net.clock).Late?) ==>
                && end == Success && ct' == ct && unclaimed == old(unclaimed + {Ahead()})
                && noCfg == old(noCfg[1..]) && tags == old(tags) && net.clock == old(net.clock) + 1
      ensures old(NewAhead() && net.fate(net.clock).Works? && !net.fate(net.clock + 1).Works?) ==>
                end == TagUnreadable && unclaimed == old(unclaimed + {Ahead()})
      ensures old(NewAhead() && net.fate(net.clock).Works? && net.fate(net.clock + 1).Works?) ==>
                && end != TagUnreadable && unclaimed == old(unclaimed) && (end == Success ==> ct' == UNSET)
                && (old(Ahead()) !in net.switches ==> end == Success && noCfg == old(noCfg[1..]))
      ensures Slips(old(unclaimed), end)
    {
      hide Ready, Holding, Ended, NewSearched, Slips, ReleaseTag, TagDid, SomeAhead, Ahead, First;
      hide Network.Open, Network.Fails;
      var curr, rc, found := ProbeRecorded(ct);
      end, ct' := Answer(ct, did, curr, rc, found, old(net.known - unclaimed));
      FewSlips(old(unclaimed), if found.Some? then found.value else 0, end);
    }

    lemma HandsEmpty()
      requires Holding(UNSET)
      ensures Ended()
    {
      NothingInHand(tags, size, created, net.tag, unclaimed);
    }

    lemma NothingNew()
      ensures NewSearched(net.known - unclaimed)
    {
    }

    /** New devices bear created tags; one left without a tag found the allocator exhausted, and
        no tag is in hand since. */
    ghost predicate AutoLabels(b: Snap, ct: nat)
      reads this`tags, this`created, net`tag
    {
      forall d :: d in net.tag && d !in b.tag ==>
        net.tag[d] in created || (net.tag[d] == UNSET && ct == UNSET && Exhausted())
    }

    lemma HandIsCreated(ct: nat)
      requires Holding(ct)
      ensures ct == UNSET || ct in created
    {
    }

    /** `ct` was offered to at most one new device. */
    lemma AutoLabelsMore(b: Snap, before: map<nat, nat>, made: set<nat>, ct: nat, ct': nat)
      requires ct in created || (ct == UNSET && Exhausted())
      requires forall d :: d in net.tag ==> (d in before && net.tag[d] == before[d]) || net.tag[d] == ct
      requires forall d :: d in before && d !in b.tag ==>
                 before[d] in made || (before[d] == UNSET && ct == UNSET && Exhausted())
      requires made <= created && (ct == UNSET ==> ct' == UNSET)
      ensures AutoLabels(b, ct')
    {
      hide Exhausted;
    }

    lemma SinceAutoSlips(b: Snap)
      requires SinceAuto(b)
      ensures unclaimed <= b.unclaimed + net.late && Slips(b.unclaimed, Success)
    {
    }

    ghost predicate AllMade(b: Snap)
      reads this`created, net`tag
    {
      forall d :: d in net.tag && d !in b.tag ==> net.tag[d] in created
    }

    lemma HandShowsMade(b: Snap, ct: nat)
      requires AutoLabels(b, ct) && ct != UNSET
      ensures AllMade(b)
    {
    }

    lemma MadeIsLabelled(b: Snap)
      requires AllMade(b)
      ensures AutoLabels(b, UNSET)
    {
    }

    /** Have a tag in hand and deal with the first recorded port. */
    method Offer(ct: nat, did: DeviceIds.Did, ghost b: Snap) returns (end: End, ct': nat, did': DeviceIds.Did)
      requires Ready() && noCfg != [] && Holding(ct) && InHand(ct, did)
      requires SinceAuto(b) && AutoLabels(b, ct) && unclaimed <= b.unclaimed + net.late
      modifies this`tags, this`created, this`refused, this`unclaimed, this`noCfg, this`live, this`serial, this`recorded, net
      ensures Ready() && Grows() && old(created) <= created && Slips(b.unclaimed, end)
      ensures end != Success ==> Ended() && AutoLabels(b, UNSET)
      ensures end == Success ==> Holding(ct') && InHand(ct', did') && SinceAuto(b) && AutoLabels(b, ct')
      ensures end == Success ==> net.Open() < old(net.Open()) || |noCfg| < old(|noCfg|)
    {
      hide Holding, Ended, Ready, NewSearched, SinceAuto, Slips, CreateAll, Exhausted, ReleaseTag, TagDid;
      hide Network.Open, Network.Fails, Network.NeverLate, SomeAhead, Ahead, First;
      var t;
      t, did' := TakeTag(ct, did);
      HandIsCreated(t);
      label Before:
      end, ct' := AutoPort(t, did');
      SlipsJoin(b.unclaimed, old(unclaimed), old(net.late), end);
      AutoLabelsMore(b, old(net.tag), old(created), t, if end == Success then ct' else UNSET);
      if end == Success {
        SinceAutoJoin@Before(b);
      }
    }

    /** The automatic pass: every recorded port is probed, and so is every port of the
        switches accepted on the way. */
    method AutoPass() returns (end: End)
      requires Ready() && Holding(UNSET)
      modifies this`tags, this`created, this`refused, this`unclaimed, this`noCfg, this`live, this`serial, this`recorded, net
      ensures Ready() && Grows() && Ended() && AutoLabels(old(Now()), UNSET) && old(created) <= created
      ensures end == Success ==> noCfg == [] && SinceAuto(old(Now()))
      ensures Slips(old(unclaimed), end)
    {
      hide Holding, Ended, Ready, NewSearched, CreateAll, Exhausted, ReleaseTag, TagDid;
      hide Network.Open, Network.Fails, SomeAhead, NewAhead, Ahead, First;
      ghost var b := Now();
      NothingNew();
      assert SinceAuto(b) && AutoLabels(b, UNSET);
      SinceAutoSlips(b);
      hide SinceAuto, AutoLabels, Slips;
      var ct, did := UNSET, DeviceIds.INVALID_ID;
      while noCfg != []
        invariant Ready() && Grows() && Holding(ct) && InHand(ct, did) && SinceAuto(b)
        invariant AutoLabels(b, ct) && old(created) <= created
        invariant unclaimed <= b.unclaimed + net.late && Slips(b.unclaimed, Success)
        decreases net.Open(), |noCfg|
      {
        end, ct, did := Offer(ct, did, b);
        if end != Success { return; }
        SinceAutoSlips(b);
      }
      if ct != UNSET {
        HandShowsMade(b, ct);
        GiveBack(ct, did);
        MadeIsLabelled(b);
      } else {
        HandsEmpty();
      }
      return Success;
    }

    // ---------------------------------------------------------------- both passes

    /** Some accepted device with this one's tag has had all its ports handled. */
    ghost predicate TagSearched(d: nat)
      reads this`recorded, this`unclaimed, net
    {
      d in net.tag && exists e :: e in net.tag && e in net.ports && e !in unclaimed && net.tag[e] == net.tag[d]
                                  && Searched(e, 0, net.ports[e])
    }

    ghost predicate NewTagSearched(before: set<nat>)
      reads this`recorded, this`unclaimed, net
    {
      forall d :: d in net.known && d !in before && d !in unclaimed && d in net.switches ==> TagSearched(d)
    }

    /** A new switch whose label is none of the configuration's has had its own ports handled. */
    ghost predicate AutoSearched(before: set<nat>)
      reads this`recorded, this`unclaimed, net
    {
      forall d :: d in net.tag && d !in before && d !in unclaimed && d in net.switches && d in net.ports ==>
        net.tag[d] in conn.Values || Searched(d, 0, net.ports[d])
    }

    lemma LabelledIsSearched(b: Snap)
      requires Labels(b) && b.tag.Keys == b.known
      ensures AutoSearched(b.known)
    {
    }

    /** What the second pass adds to the first. */
    twostate lemma AutoSearchedJoin(b: Snap)
      requires old(Labels(b)) && NewSearched(old(net.known - unclaimed)) && Grows() && b.tag.Keys == b.known
      requires old(net.Valid()) && net.Valid()
      ensures AutoSearched(b.known)
    {
      hide Network.Open;
      forall d | d in net.tag && d !in b.known && d !in unclaimed && d in net.switches && d in net.ports
        ensures net.tag[d] in conn.Values || Searched(d, 0, net.ports[d])
      {
        assert d in old(net.tag) ==> net.tag[d] in conn.Values;
      }
    }

    /** No two accepted devices bear the same label. */
    ghost predicate DistinctLabels()
      reads this`unclaimed, net
    {
      forall d, e :: d in net.tag && e in net.tag && d !in unclaimed && e !in unclaimed ==>
        (net.tag[d] == net.tag[e] ==> d == e)
    }

    /** A new switch has had its ports handled exactly when it was accepted, or has none. */
    ghost predicate CoveredIffAccepted(before: set<nat>)
      reads this`recorded, this`unclaimed, net
    {
      forall d :: d in net.known && d !in before && d in net.switches && d in net.ports ==>
        (Searched(d, 0, net.ports[d]) <==> d !in unclaimed || net.ports[d] == 0)
    }

    lemma AskedIsSearched(before: set<nat>)
      requires Ready() && Finished(|asked|) && NewAsked(before)
      ensures NewTagSearched(before)
    {
      TreatedIsHandled();
      forall d | d in net.known && d !in before && d !in unclaimed && d in net.switches ensures TagSearched(d) {
        var i :| 0 <= i < |asked| && asked[i] in net.tag && net.tag[asked[i]] == net.tag[d];
        assert SwitchDone(asked[i]);
        assert Searched(asked[i], 0, net.ports[asked[i]]);
      }
    }

    twostate lemma TagSearchedJoin(before: set<nat>)
      requires old(NewTagSearched(before)) && NewSearched(old(net.known - unclaimed)) && Grows()
      requires old(Ready()) && Ready()
      requires unclaimed * old(net.known) <= old(unclaimed)
      ensures NewTagSearched(before)
    {
      forall d | d in net.known && d !in before && d !in unclaimed && d in net.switches ensures TagSearched(d) {
        if d in old(net.known - unclaimed) {
          var e :| e in old(net.tag) && e in net.ports && e !in old(unclaimed) && old(net.tag)[e] == old(net.tag)[d]
                   && old(Searched(e, 0, net.ports[e]));
          assert Searched(e, 0, net.ports[e]);
        } else {
          assert Searched(d, 0, net.ports[d]);
        }
      }
    }

    lemma OwnPorts(before: set<nat>)
      requires Ready() && NewTagSearched(before) && DistinctLabels()
      ensures CoveredIffAccepted(before)
    {
      forall d | d in net.known && d !in before && d in net.switches && d in net.ports
        ensures Searched(d, 0, net.ports[d]) <==> d !in unclaimed || net.ports[d] == 0
      {
        if d !in unclaimed {
          assert TagSearched(d);
        } else if net.ports[d] > 0 {
          assert !Handled((d, 0));
        }
      }
    }

    /** No tag of the configuration or of a known device can be chosen automatically. */
    ghost predicate TagsTaken()
      reads this`tags, net`tag
    {
      AllUsed(tags, net.tag) && forall ct :: ct in conn.Values ==> Used(tags, ct)
    }

    /** Nothing enumerated yet. */
    ghost predicate AtStart()
      reads this, net
    {
      && Ready() && TagsTaken() && queue == [] && asked == [] && noCfg == []
      && recorded == {} && created == {} && unclaimed == {} && refused == {}
    }

    twostate lemma ConfigIsFair(b: Snap)
      requires old(TagsTaken()) && b.tag == old(net.tag) && Grown(b) && Labels(b)
      requires tags == old(tags) && created == {} && refused == {}
      ensures Holding(UNSET)
    {
      hide Used, Network.Open;
    }

    /** Every created tag is settled, or there are as many devices that a failing call left
        with it as there are refusals of its release; only a tag whose id is too wide for the
        size is ever refused. */
    ghost predicate TagsBalance()
      reads this`tags, this`created, this`unclaimed, this`refused, net`tag
    {
      && (forall t :: t in created ==>
            (Settled(t, tags, net.tag) <==>
               if t in refused then OneSlip(t, net.tag, unclaimed) else NoSlip(t, net.tag, unclaimed)))
      && (forall t :: t in refused ==> t in created && size.Dev08? && TagDid(t) > DeviceIds.LAST_DEV8)
    }

    /** Every created tag is settled, but for one whose release was refused. */
    ghost predicate AllSettled()
      reads this`tags, this`created, this`refused, net`tag
    {
      forall t :: t in created ==> (Settled(t, tags, net.tag) <==> t !in refused)
    }

    lemma NoSlipsAllSettled(end: End)
      requires TagsBalance() && Slips({}, end)
      ensures end != TagUnreadable && net.late == {} ==> unclaimed == {} && AllSettled()
    {
      hide Settled, TagDid;
    }

    lemma ReadyFacts()
      requires Ready()
      ensures Books() && (noCfg == [] ==> recorded <= net.probed)
    {
    }

    lemma EndBalances()
      requires Ended()
      ensures TagsBalance()
    {
      hide Fitting, TagDid, Settled, OneSlip, NoSlip;
      forall t | t in created
        ensures Settled(t, tags, net.tag) <==>
                  if t in refused then OneSlip(t, net.tag, unclaimed) else NoSlip(t, net.tag, unclaimed)
      {
        SettledIff(t, tags, size, net.tag, unclaimed, refused);
      }
    }

    /** A new device bears the label that the configuration gives behind the port where it was
        met, or a created tag; or none, the allocator being exhausted. */
    ghost predicate NewLabels(b: Snap)
      reads this`tags, this`created, net`probed, net`tag
    {
      forall d :: d in net.tag && d !in b.tag ==>
        Directed(d) || (auto && (net.tag[d] in created || (net.tag[d] == UNSET && Exhausted())))
    }

    lemma ConfigLabels(b: Snap)
      requires Labels(b)
      ensures NewLabels(b)
    {
    }

    twostate lemma NewLabelsJoin(b: Snap)
      requires old(Labels(b)) && AutoLabels(old(Now()), UNSET) && Grows() && auto
      ensures NewLabels(b)
    {
      hide Exhausted;
      forall d | d in net.tag && d !in b.tag && d in old(net.tag) ensures Directed(d) {
        DirectedStays(d);
      }
      hide Directed, Network.Open;
    }

    /** What has been scanned stays so. */
    twostate lemma ScansStay()
      requires Grows() && asked == old(asked)
      ensures forall e: nat, p: nat :: old(Treated((e, p))) ==> Treated((e, p))
      ensures old(Finished(|asked|)) ==> Finished(|asked|)
    {
      TreatedStays();
      hide Treated, Network.Open;
      if old(Finished(|asked|)) {
        StillFinished(|asked|);
      }
    }

    /** The automatic pass, after a configured pass that began in state `b`. */
    method SecondPass(pe: nat, st: nat, cnt: nat, ghost b: Snap) returns (end: End)
      requires Ready() && Holding(UNSET) && auto && Grown(b) && Labels(b) && Slips({}, Success)
      requires Scanned(pe, st, cnt) && Finished(|asked|) && NewTagSearched(b.known) && b.tag.Keys == b.known
      modifies this`tags, this`created, this`refused, this`unclaimed, this`noCfg, this`live, this`serial, this`recorded, net
      ensures Ready() && Grown(b) && Ended() && NewLabels(b) && Slips({}, end)
      ensures end == Success ==> noCfg == [] && Scanned(pe, st, cnt) && Finished(|asked|)
      ensures end == Success ==> NewTagSearched(b.known) && AutoSearched(b.known)
    {
      FewSlipped({});
      hide Holding, Ended, Finished, NewTagSearched, NewSearched, AutoSearched, Slips, Grown, Labels, AutoLabels;
      hide NewLabels, Treated, Books, Accounted, Listed, Untouched, Network.Open, Network.NeverLate;
      end := AutoPass();
      SlipsJoin({}, old(unclaimed), old(net.late), end);
      GrownJoin(b);
      ScansStay();
      NewLabelsJoin(b);
      if end == Success {
        TagSearchedJoin(b.known);
        AutoSearchedJoin(b);
      }
    }

    lemma AtWorkFinished()
      requires AtWork(None)
      ensures queue == [] && Finished(|asked|)
    {
    }

    /** The two passes; everything but freeing the records. */
    method Passes(pe: nat, st: nat, cnt: nat) returns (end: End)
      requires AtStart() && pe in net.known
      modifies this`queue, this`asked, this`tags, this`created, this`refused, this`unclaimed,
               this`noCfg, this`live, this`serial, this`recorded, net
      ensures Ready() && Grown(old(Now())) && Ended() && Slips({}, end) && NewLabels(old(Now()))
      ensures end == Success ==> NewTagSearched(old(net.known)) && AutoSearched(old(net.known))
      ensures end == Success ==> Scanned(pe, st, cnt) && Finished(|asked|) && (auto ==> noCfg == [])
      ensures !auto ==> Labels(old(Now())) && created == {} && tags == old(tags)
      ensures end == Success && !auto ==> NewAsked(old(net.known))
    {
      ghost var b := Now();
      assert b.known - b.unclaimed == net.known && b.tag.Keys == b.known;
      hide Ready, Holding, Ended, Finished, AtWork, Since, NewAsked, NewTagSearched, AutoSearched, Slips, Grown;
      hide Scanned, Labels, NewLabels, TagsTaken, Network.Open;
      end := ConfiguredPass(pe, st, cnt);
      ConfigIsFair(b);
      ConfigLabels(b);
      if end == Success {
        SinceAsked(b);
        AtWorkFinished();
        AskedIsSearched(b.known);
        LabelledIsSearched(b);
        if auto && noCfg != [] {
          end := SecondPass(pe, st, cnt, b);
          return;
        }
      }
      HandsEmpty();
    }

    lemma SinceAsked(b: Snap)
      requires Since(b)
      ensures NewAsked(b.known - b.unclaimed)
    {
    }

    /** What an enumeration of these ports that began in state `b` has done.

        On every exit the fate of every created tag is known, every new device bears the label
        it should, and only devices whose probe failed after the fact are unclaimed, but for
        one whose tag could not be read.  On success all ports of the start and of every queued
        switch were treated as the configuration says; every accepted new switch has had its
        ports probed or recorded, or else another switch with its label; and in automatic mode
        every recorded port was probed.  Without automatic mode nothing else was probed and no
        tag was created. */
    ghost predicate Report(b: Snap, pe: nat, st: nat, cnt: nat, end: End)
      reads this`asked, this`tags, this`created, this`unclaimed, this`refused, this`recorded, net
    {
      && Grown(b) && TagsBalance() && Slips({}, end) && NewLabels(b)
      && (end != TagUnreadable && net.late == {} ==> unclaimed == {} && AllSettled())
      && (!auto ==> Labels(b) && created == {})
      && (end == Success ==>
            && Scanned(pe, st, cnt) && Finished(|asked|)
            && NewTagSearched(b.known) && AutoSearched(b.known)
            && (DistinctLabels() ==> CoveredIffAccepted(b.known))
            && (if auto then recorded <= net.probed else NewAsked(b.known)))
    }

    /** The two passes, and what they mean for the created tags and for the switches. */
    method Account(pe: nat, st: nat, cnt: nat) returns (end: End)
      requires AtStart() && pe in net.known
      modifies this`queue, this`asked, this`tags, this`created, this`refused, this`unclaimed,
               this`noCfg, this`live, this`serial, this`recorded, net
      ensures Books() && Report(old(Now()), pe, st, cnt, end) && (!auto ==> tags == old(tags))
    {
      hide AtStart, Ready, Books, Ended, TagsBalance, AllSettled, Slips, Grown, Labels, NewLabels, NewAsked, Scanned;
      hide Finished, NewTagSearched, AutoSearched, DistinctLabels, CoveredIffAccepted, Network.Open, Network.NeverLate;
      end := Passes(pe, st, cnt);
      EndBalances();
      NoSlipsAllSettled(end);
      ReadyFacts();
      if end == Success && DistinctLabels() {
        OwnPorts(old(net.known));
      }
    }

    /** Enumerate from a device, through one port or all of them.  The program reports
        success exactly when both passes end well.  On every exit all records are freed. */
    method Traverse(pe: nat, port: Option<nat>) returns (end: End)
      requires AtStart() && pe in net.known
      modifies this`queue, this`asked, this`tags, this`created, this`refused, this`unclaimed,
               this`noCfg, this`live, this`serial, this`recorded, net
      ensures noCfg == [] && live == {}
      ensures port.None? ==> Report(old(Now()), pe, 0, net.ports[pe], end)
      ensures port.Some? ==> Report(old(Now()), pe, port.value, port.value + 1, end)
      ensures !auto ==> tags == old(tags)
    {
      var st, cnt := if port.None? then 0 else port.value, if port.None? then net.ports[pe] else port.value + 1;
      hide Report, Books, AtStart;
      end := Account(pe, st, cnt);
      FreeAll();
    }
  }
}
