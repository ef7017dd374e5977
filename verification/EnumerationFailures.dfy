/** Two small networks on which enumeration leaves a tag unsettled, step by step as the
    automatic pass takes them.  Nothing in them is exotic: one access fails once. */
module EnumerationFailures {
  import opened Options
  import opened Fabric
  import DeviceIds
  import opened CompTags
  import opened TagBalance
  import opened Enumeration

  function FreshTags(): (t: Tags)
    ensures Good(t)
  {
    Tags(seq(NUMBERS, _ => 0), 0, DeviceIds.Pool(seq(DeviceIds.COUNT, _ => DeviceIds.Invalid), 0))
  }

  /** A fresh allocator has a tag to give. */
  lemma FreshMakes()
    ensures CreateAll(FreshTags(), DeviceIds.Dev16).rc == DeviceIds.Ok
  {
    var u := Init(FreshTags());
    assert u.ids[1] == 0;
    assert DeviceIds.Ready(u.pool).ids[1].Invalid?;
  }

  /** Device 0 with two ports: a switch behind the first, an endpoint behind the second. */
  const PORTS: map<nat, nat> := map[0 := 2, 1 := 2, 2 := 1]
  const LINKS: map<Port, Port> := map[(0, 0) := (1, 0), (1, 0) := (0, 0), (0, 1) := (2, 0), (2, 0) := (0, 1)]

  method Cabling(fate: nat -> Fate) returns (net: Network)
    ensures fresh(net) && net.Valid() && net.fate == fate && net.clock == 0
    ensures net.ports == PORTS && net.switches == {1} && net.link == LINKS
    ensures net.known == {0} && net.tag == map[0 := UNSET] && net.peer == map[] && net.probed == {} && net.late == {}
  {
    net := new Network(PORTS, {1}, LINKS, fate, {0}, map[0 := UNSET]);
  }

  /** Automatic enumeration without a configuration, about to begin. */
  method Prepare(net: Network) returns (e: Enumerator)
    requires net.Valid() && net.known == {0} && net.tag == map[0 := UNSET]
    ensures fresh(e) && e.net == net && e.auto && e.conn == map[] && e.size == DeviceIds.Dev16
    ensures e.Ready() && e.Holding(UNSET) && e.tags == FreshTags() && e.noCfg == [] && e.created == {} && e.unclaimed == {}
    ensures forall n :: e.memory(n)
  {
    e := new Enumerator(net, map[], {}, true, DeviceIds.Dev16, _ => true, FreshTags());
    assert e.TagsTaken() by { assert TagNumber(UNSET) == 0; }
  }

  method RecordBoth(e: Enumerator)
    requires e.Ready() && e.noCfg == [] && 0 in e.net.known && e.unclaimed == {} && forall n :: e.memory(n)
    modifies e`noCfg, e`live, e`serial, e`recorded
    ensures e.Ready() && |e.noCfg| == 2
    ensures e.noCfg[0].pe == 0 && e.noCfg[0].port == 0 && e.noCfg[1].pe == 0 && e.noCfg[1].port == 1
  {
    hide Enumerator.Ready;
    var _ := e.RecordPort(0, 0);
    ghost var one := e.noCfg;
    var _ := e.RecordPort(0, 1);
    assert e.noCfg[0] == e.noCfg[..1][0] == one[0];
  }

  /** With a fresh allocator a tag is to be had. */
  method CreateFirst(e: Enumerator) returns (ct: nat, did: DeviceIds.Did)
    requires e.Holding(UNSET) && e.tags == FreshTags() && e.created == {} && e.size == DeviceIds.Dev16
    modifies e`tags, e`created
    ensures e.Holding(ct) && e.InHand(ct, did) && ct != UNSET && e.created == {ct}
  {
    FreshMakes();
    MadeIsLive(FreshTags(), DeviceIds.Dev16);
    hide CreateAll, FreshTags, Enumerator.Holding, Live, NoHolder, TagDid, TagNumber;
    assert e.InHand(UNSET, DeviceIds.INVALID_ID);
    ct, did := e.TakeTag(UNSET, DeviceIds.INVALID_ID);
  }

  /** Both ports of device 0 are recorded and a tag is created. */
  method Begin(net: Network) returns (e: Enumerator, ct: nat, did: DeviceIds.Did)
    requires net.Valid() && net.known == {0} && net.tag == map[0 := UNSET]
    ensures fresh(e) && e.net == net && e.Ready() && e.Holding(ct) && e.InHand(ct, did) && e.size == DeviceIds.Dev16
    ensures ct != UNSET && e.created == {ct} && e.unclaimed == {}
    ensures |e.noCfg| == 2 && e.noCfg[0].pe == 0 && e.noCfg[0].port == 0 && e.noCfg[1].pe == 0 && e.noCfg[1].port == 1
  {
    hide FreshTags, Enumerator.Ready, Enumerator.Holding, Network.Valid;
    e := Prepare(net);
    RecordBoth(e);
    ct, did := CreateFirst(e);
  }

  lemma FirstProbe(e: Enumerator)
    requires e.net.ports == PORTS && e.net.link == LINKS && e.net.known == {0} && e.net.peer == map[]
    requires e.noCfg != [] && e.noCfg[0].pe == 0 && e.noCfg[0].port == 0
    requires e.net.fate(e.net.clock).Works? || e.net.fate(e.net.clock).Late?
    ensures e.NewAhead() && e.Ahead() == 1 && e.First() == (0, 0)
  {
  }

  lemma SecondProbe(e: Enumerator)
    requires e.net.ports == PORTS && e.net.link == LINKS && e.net.known == {0, 1} && e.net.peer.Keys == {(0, 0), (1, 0)}
    requires e.noCfg != [] && e.noCfg[0].pe == 0 && e.noCfg[0].port == 1
    requires e.net.fate(e.net.clock).Works?
    ensures e.NewAhead() && e.Ahead() == 2
  {
  }

  /** Two devices bearing a tag, one of them unclaimed; or a device that was never accepted. */
  lemma Unsettled(e: Enumerator, t: nat, d: nat)
    requires e.Ended() && t in e.created && e.size == DeviceIds.Dev16
    requires d in e.net.tag && e.net.tag[d] == t && d in e.unclaimed
    ensures !Settled(t, e.tags, e.net.tag) && t !in e.refused
  {
    e.EndBalances();
    hide Settled, OneSlip;
  }

  lemma Unsearched(e: Enumerator, d: nat)
    requires e.Ready() && d in e.unclaimed && d in e.net.ports && e.net.ports[d] > 0
    ensures !e.Searched(d, 0, e.net.ports[d])
  {
    assert !e.Handled((d, 0));
  }

  /** The first probe fails at its very end: the switch has the tag, which is still in hand. */
  method FirstSlips() returns (e: Enumerator, t: nat, did: DeviceIds.Did, end: End, ct: nat)
    ensures fresh(e) && fresh(e.net)
    ensures end == Success && ct == t && e.Ready() && e.Holding(ct) && e.InHand(ct, did) && t in e.created && ct != UNSET
    ensures e.net.ports == PORTS && e.net.switches == {1} && e.net.link == LINKS && e.size == DeviceIds.Dev16
    ensures e.net.known == {0, 1} && e.net.peer.Keys == {(0, 0), (1, 0)} && e.net.tag == map[0 := UNSET, 1 := t]
    ensures e.unclaimed == {1} && |e.noCfg| == 1 && e.noCfg[0].pe == 0 && e.noCfg[0].port == 1
    ensures e.net.fate(e.net.clock).Works? && e.net.fate(e.net.clock + 1).Works?
  {
    hide Enumerator.Ready, Enumerator.Holding, Enumerator.Ended, Enumerator.SinceAuto, Network.Valid, Network.Open;
    hide TagDid, Enumerator.NewAhead, Enumerator.Ahead, Enumerator.First;
    var net := Cabling(n => if n == 0 then Late else Works);
    e, t, did := Begin(net);
    FirstProbe(e);
    end, ct := e.AutoPort(t, did);
  }

  /** The tag is then offered again and ends up on two devices, and the switch that got it
      first is never searched; yet the pass ends well. */
  method LateFailure() returns (e: Enumerator, t: nat, end: End)
    ensures end == Success && e.noCfg == [] && t in e.created && t !in e.refused
    ensures 1 in e.net.tag && 2 in e.net.tag && e.net.tag[1] == e.net.tag[2] == t && !Settled(t, e.tags, e.net.tag)
    ensures 1 in e.net.known && 1 in e.net.switches && 1 in e.net.ports && !e.Searched(1, 0, e.net.ports[1])
  {
    hide Enumerator.Ready, Enumerator.Holding, Enumerator.Ended, Enumerator.SinceAuto, Network.Valid, Network.Open;
    hide Settled, TagDid, Enumerator.NewAhead, Enumerator.Ahead, Enumerator.First, Enumerator.Searched;
    var did, ct;
    e, t, did, end, ct := FirstSlips();
    SecondProbe(e);
    end, ct := e.AutoPort(ct, did);
    e.HandsEmpty();
    Unsettled(e, t, 1);
    Unsearched(e, 1);
  }

  /** The tag of the first device found cannot be read back.  The tag is released although the
      device bears it. */
  method UnreadableTag() returns (e: Enumerator, t: nat, end: End)
    ensures end == TagUnreadable && t in e.created && t !in e.refused
    ensures 1 in e.net.tag && e.net.tag[1] == t && !Settled(t, e.tags, e.net.tag)
  {
    hide Enumerator.Ready, Enumerator.Holding, Enumerator.Ended, Enumerator.SinceAuto, Network.Valid, Network.Open;
    hide Settled, TagDid, Enumerator.NewAhead, Enumerator.Ahead, Enumerator.First;
    var net := Cabling(n => if n == 1 then Broken else Works);
    var did, ct;
    e, t, did := Begin(net);
    FirstProbe(e);
    end, ct := e.AutoPort(t, did);
    Unsettled(e, t, 1);
  }
}
