/** The network as enumeration sees it: processing elements joined by links, of which the
    software knows those it has given a handle and a component tag.

    The cabling is any finite one, loops and self-connections included.  What goes wrong on
    the hardware is not ours to decide: `fate` says for every access how it fares. */
module Fabric {
  import opened Options

  /** `NoDev` and `Io` are the failures enumeration tolerates. */
  datatype Rc = Done | NoDev | Io | Failed

  /** How an access fares: well, failing before it has changed anything, or failing at the
      very end, when the device has its handle, its label and its connection. */
  datatype Fate = Works | Absent | Broken | Fatal | Late

  type Port = (nat, nat)

  class Network {
    const ports: map<nat, nat>        // every element, with its number of ports
    const switches: set<nat>
    const link: map<Port, Port>       // what is plugged in where
    const fate: nat -> Fate

    var known: set<nat>               // elements with a handle
    var tag: map<nat, nat>            // their component tags
    var peer: map<Port, Port>         // connections recorded so far
    var probed: set<Port>             // ports probed so far
    var clock: nat                    // accesses so far
    ghost var late: set<nat>          // elements labelled by a probe that then reported failure

    ghost function AllPorts(): set<Port>
    {
      set d, p | d in ports && 0 <= p < ports[d] :: (d, p)
    }

    ghost predicate Valid()
      reads this`known, this`tag, this`peer, this`probed
    {
      && known <= ports.Keys && tag.Keys == known
      && peer.Keys <= AllPorts()
      && (forall x :: x in link ==> link[x] in AllPorts())
      && (forall x :: x in probed ==> x.0 in known)
    }

    /** No access ever fails after the fact. */
    ghost predicate NeverLate() { forall n :: !fate(n).Late? }

    /** Ports with no recorded connection; a new connection always uses one up. */
    ghost function Open(): set<Port>
      reads this`peer
    {
      AllPorts() - peer.Keys
    }

    constructor (ports: map<nat, nat>, switches: set<nat>, link: map<Port, Port>, fate: nat -> Fate,
                 known: set<nat>, tag: map<nat, nat>)
      requires known <= ports.Keys && tag.Keys == known
      requires forall x :: x in link ==> link[x].0 in ports && link[x].1 < ports[link[x].0]
      ensures Valid() && this.ports == ports && this.switches == switches && this.link == link && this.fate == fate
      ensures this.known == known && this.tag == tag && peer == map[] && probed == {} && clock == 0 && late == {}
    {
      this.ports, this.switches, this.link, this.fate := ports, switches, link, fate;
      this.known, this.tag := known, tag;
      peer, probed, clock, late := map[], {}, 0, {};
    }

    /** The device that a probe of this port gets to, if any. */
    function Reached(pe: nat, port: nat): (r: Option<nat>)
      reads this`peer, this`clock
    {
      if pe !in ports || port >= ports[pe] || (pe, port) in peer || (pe, port) !in link then None
      else if fate(clock).Works? || fate(clock).Late? then Some(link[(pe, port)].0)
      else None
    }

    /** A probe of this port reports a failure that enumeration does not tolerate. */
    predicate Fails(pe: nat, port: nat)
      reads this`peer, this`clock
    {
      pe in ports && (port >= ports[pe] || ((pe, port) !in peer && fate(clock).Fatal?))
    }

    /** The connections after one between these two ports is recorded. */
    ghost function Joined(x: Port, y: Port): map<Port, Port>
      reads this`peer
    {
      peer[x := y][y := x]
    }

    /** Look for the device behind a port.  A port already connected yields nothing.  An
        unknown device gets a handle, the offered tag and a connection; a known switch gets
        the connection; a known endpoint is returned as it is.  All this stands even when the
        probe fails at its very end. */
    method Probe(pe: nat, port: nat, offered: nat) returns (rc: Rc, found: Option<nat>)
      requires Valid() && pe in known
      modifies this
      ensures Valid() && probed == old(probed) + {(pe, port)} && clock == old(clock) + 1
      ensures rc == Failed <==> old(Fails(pe, port))
      ensures var r := old(Reached(pe, port));
              && (r.None? ==> found == None && known == old(known) && tag == old(tag))
              && (r.None? ==> peer == old(peer) && late == old(late))
              && (r.Some? ==> r.value in known && (rc, found) == if old(fate(clock)).Late? then (Io, None) else (Done, r))
              && (r.Some? && r.value in old(known) ==> known == old(known) && tag == old(tag) && late == old(late))
              && (r.Some? && r.value !in old(known) ==>
                    && known == old(known) + {r.value} && tag == old(tag)[r.value := offered]
                    && late == old(late) + if rc == Done then {} else {r.value})
              && (r.Some? ==> peer == if r.value !in old(known) || r.value in switches
                                      then old(Joined((pe, port), link[(pe, port)])) else old(peer))
              && (r.Some? && r.value !in old(known) ==> peer.Keys == old(peer.Keys) + {(pe, port), link[(pe, port)]})
              && (r.Some? && (r.value !in old(known) || r.value in switches) ==> Open() < old(Open()))
      ensures Open() <= old(Open()) && (NeverLate() ==> late == old(late))
    {
      ghost var r := Reached(pe, port);
      probed := probed + {(pe, port)};
      clock := clock + 1;
      found := None;
      if port >= ports[pe] { return Failed, None; }
      if (pe, port) in peer { return Done, None; }
      var how := fate(clock - 1);
      if how.Absent? { return NoDev, None; }
      if how.Fatal? { return Failed, None; }
      if how.Broken? || (pe, port) !in link { return Io, None; }
      found := Some(link[(pe, port)].0);
      Meet(pe, port, offered, how.Late?);
      if how.Late? { return Io, None; }
      rc := Done;
    }

    /** The device behind an open port gets its handle and label if it is new, and its
        connection unless it is an endpoint already known. */
    method Meet(pe: nat, port: nat, offered: nat, fails: bool)
      requires Valid() && (pe, port) in link && (pe, port) in AllPorts() && (pe, port) !in peer
      modifies this`known, this`tag, this`peer, this`late
      ensures Valid() && Open() <= old(Open())
      ensures var d := link[(pe, port)].0;
              && d in known && (d in old(known) ==> known == old(known) && tag == old(tag) && late == old(late))
              && (d !in old(known) ==>
                    && known == old(known) + {d} && tag == old(tag)[d := offered]
                    && late == old(late) + if fails then {d} else {})
              && peer == (if d !in old(known) || d in switches then old(Joined((pe, port), link[(pe, port)]))
                          else old(peer))
              && (d !in old(known) || d in switches ==> Open() < old(Open()))
    {
      var (d, back) := link[(pe, port)];
      if d !in known {
        known, tag := known + {d}, tag[d := offered];
        Connect((pe, port), (d, back));
        late := late + if fails then {d} else {};
      } else if d in switches {
        Connect((pe, port), (d, back));
      }
    }

    method Connect(x: Port, y: Port)
      requires x in AllPorts() && y in AllPorts() && x !in peer && peer.Keys <= AllPorts()
      modifies this`peer
      ensures peer == old(Joined(x, y)) && peer.Keys == old(peer.Keys) + {x, y} && Open() < old(Open())
    {
      assert x in Open();
      peer := peer[x := y][y := x];
      assert x !in Open();
    }

    /** Read a device's tag back; the read may fail. */
    method GetTag(pe: nat) returns (ok: bool, ct: nat)
      requires Valid() && pe in known
      modifies this`clock
      ensures Valid() && clock == old(clock) + 1
      ensures ok == old(fate(clock)).Works? && ct == tag[pe]
    {
      ok := fate(clock).Works?;
      ct := tag[pe];
      clock := clock + 1;
    }
  }
}
