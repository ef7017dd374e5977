/** The replication protocol as a transition system.

    One master directory, one connection per slave with an ordered channel in each
    direction, and one directory per slave.  A step is one message handler, one local
    flag change, or the start or end of a connection.  The invariant speaks about what a
    slave's directory becomes once it has worked off everything still in its channel. */
module Replication {
  import opened Options
  import opened Directory
  import opened Messages
  import opened Convergence

  /** `said`: the slave has sent its HELLO; `heard`: the master has processed it;
      `listed`: the connection is in the master's peers list. */
  datatype Conn = Conn(slave: Dir, said: bool, heard: bool, listed: bool, up: seq<Up>, down: seq<Down>)

  datatype Net = Net(master: Dir, conns: map<Key, Conn>)

  datatype Action =
    | Connect(key: Key, hc: nat, name: string)
    | SayHello(key: Key)
    | MasterReceive(key: Key, known: bool, peName: string)
    | SlaveReceive(key: Key)
    | SlaveApp(key: Key, flag: bv8, raise: bool)
    | MasterApp(flag: bv8, raise: bool)
    | Disconnect(key: Key)

  // ------------------------------------------------------------------ steps

  ghost predicate DistinctConns(conns: map<Key, Conn>) {
    forall k, q :: k in conns && q in conns && k.did == q.did ==> k == q
  }

  function Listed(conns: map<Key, Conn>): set<Key> {
    set k | k in conns && conns[k].listed
  }

  function Dids(conns: map<Key, Conn>): set<nat> {
    set k | k in Listed(conns) :: k.did
  }

  ghost function LinesOf(conns: map<Key, Conn>): (r: Lines)
    requires DistinctConns(conns)
    ensures r.Keys == Dids(conns)
    ensures forall k :: k in conns && conns[k].listed ==> k.did in r && r[k.did] == conns[k].down
  {
    assert forall k :: k in conns && conns[k].listed ==> k in Listed(conns) && k.did in Dids(conns);
    map d | d in Dids(conns) :: (var k :| k in Listed(conns) && k.did == d; conns[k].down)
  }

  /** Send the whole directory to every listed peer: announcements or flag updates. */
  ghost function Spread(net: Net, add: bool): Net
    requires DistinctConns(net.conns)
  {
    var lines := Broadcast(LinesOf(net.conns), net.master.devs, add);
    Net(net.master,
        map k | k in net.conns ::
          if net.conns[k].listed then net.conns[k].(down := lines[k.did]) else net.conns[k])
  }

  function Put(net: Net, k: Key, c: Conn): Net { Net(net.master, net.conns[k := c]) }

  /** A HELLO whose component tag is known registers the peer and announces everybody to
      everybody; otherwise it is refused. */
  ghost function ProcessHello(net: Net, k: Key, c: Conn, known: bool, name: string): Net
    requires DistinctConns(net.conns) && k in net.conns
  {
    var c' := c.(heard := true, listed := known, down := c.down + [RespHello(known)]);
    if !known then Put(net, k, c')
    else Spread(Net(Add(net.master, k, HC_MP, false, FLAG_OK, name).0, net.conns[k := c']), true)
  }

  /** A flag report is accepted only for the sender's own directory entry. */
  ghost function ProcessFlag(net: Net, k: Key, c: Conn, key: Key, flag: bv8): Net
    requires DistinctConns(net.conns) && k in net.conns
  {
    if !c.heard || key != k || Get(net.master.devs, key).None? then Put(net, k, c)
    else Spread(Net(SetFlag(net.master, key, flag), net.conns[k := c]), false)
  }

  /** What a slave reports about itself: its port's application bits. */
  function Report(slave: Dir): seq<Up> {
    if slave.loc >= |slave.devs| then []
    else [FSetUp(slave.devs[slave.loc].key, AddFlag(slave.devs[slave.loc].flag))]
  }

  function SlaveHandle(c: Conn, m: Down): Conn {
    var c' := c.(slave := ApplyDown(c.slave, m));
    match m
    case RespHello(ok) => if ok then c'.(up := c'.up + Report(c'.slave)) else c'
    case ModAdd(_, _, _, _, _) => c'.(up := c'.up + [RespMod])
    case ModDel(_) => c'.(up := c'.up + [RespMod])
    case FSet(_, _) => c'
  }

  /** The identity the master has on file for a connection; blank until its HELLO. */
  function PeerKey(k: Key, c: Conn): Key { if c.heard then k else Key(0, 0) }

  /** Take the connection off the list and, if its device was in the directory, delete it
      there and tell every remaining peer. */
  function Cleanup(net: Net, k: Key): Net
    requires k in net.conns
  {
    var gone := PeerKey(k, net.conns[k]);
    var rest := net.conns - {k};
    var del := Del(net.master, gone);
    if !del.1 then Net(del.0, rest)
    else
      Net(del.0, map q | q in rest :: if rest[q].listed then rest[q].(down := rest[q].down + [ModDel(gone)]) else rest[q])
  }

  ghost predicate Enabled(net: Net, a: Action) {
    match a
    case Connect(k, _, _) =>
      k.did > 0 && |net.master.devs| > 0 && k.did != net.master.devs[0].key.did
      && forall q :: q in net.conns ==> q.did != k.did
    case SayHello(k) => k in net.conns && !net.conns[k].said
    case MasterReceive(k, known, _) =>
      k in net.conns && net.conns[k].up != []
      && (net.conns[k].up[0].Hello? && known ==> |net.master.devs| + 1 < MAX_DEVS)
    case SlaveReceive(k) => k in net.conns && net.conns[k].down != []
    case SlaveApp(k, flag, _) => k in net.conns && AppFlag(flag)
    case MasterApp(flag, _) => AppFlag(flag)
    case Disconnect(k) => k in net.conns
  }

  ghost function Step(net: Net, a: Action): Net
    requires DistinctConns(net.conns) && Enabled(net, a)
  {
    match a
    case Connect(k, hc, name) =>
      Put(net, k, Conn(Dir([Dev(k, hc, true, FLAG_OK_MP, name)], 0), false, false, false, [], []))
    case SayHello(k) =>
      var c := net.conns[k];
      Put(net, k, c.(said := true, up := c.up + [Hello]))
    case MasterReceive(k, known, name) =>
      var c := net.conns[k];
      var c' := c.(up := c.up[1..]);
      (match c.up[0]
       case Hello => ProcessHello(net, k, c', known, name)
       case RespMod => Put(net, k, c')
       case FSetUp(key, flag) => ProcessFlag(net, k, c', key, flag))
    case SlaveReceive(k) =>
      var c := net.conns[k];
      Put(net, k, SlaveHandle(c.(down := c.down[1..]), c.down[0]))
    case SlaveApp(k, flag, raise) =>
      var c := net.conns[k];
      var s := ModMpFlag(c.slave, flag, raise);
      Put(net, k, c.(slave := s, up := c.up + Report(s)))
    case MasterApp(flag, raise) =>
      Spread(Net(ModMpFlag(net.master, flag, raise), net.conns), false)
    case Disconnect(k) => Cleanup(net, k)
  }

  /** The master alone, its port in the directory. */
  predicate Init(net: Net) {
    && net.conns == map[]
    && |net.master.devs| == 1 && PortFirst(net.master, net.master.devs[0].key)
    && net.master.devs[0].flag == FLAG_OK_MP && net.master.devs[0].key.did > 0
  }

  // ------------------------------------------------------------------ the invariant

  /** The flag the master will hold for a slave once it has read everything `up`. */
  function LastFlag(up: seq<Up>, f: bv8): bv8
    decreases |up|
  {
    if up == [] then f else LastFlag(up[1..], if up[0].FSetUp? then up[0].flag else f)
  }

  ghost predicate GoodUp(up: seq<Up>, k: Key) {
    forall i :: 0 <= i < |up| && up[i].FSetUp? ==> up[i].key == k && PeerFlag(up[i].flag)
  }

  /** At most one HELLO, none once it has been heard, none before it was said. */
  ghost predicate OneHello(c: Conn) {
    && (c.heard ==> c.said)
    && (forall i :: 0 <= i < |c.up| && c.up[i].Hello? ==> c.said && !c.heard)
    && (forall i, j :: 0 <= i < j < |c.up| ==> !(c.up[i].Hello? && c.up[j].Hello?))
  }

  ghost predicate NoResp(down: seq<Down>) {
    forall m :: m in down ==> !m.RespHello?
  }

  ghost predicate SlaveOk(k: Key, c: Conn) {
    && PortFirst(c.slave, k) && PortFlag(c.slave.devs[0].flag)
    && AllSpare(c.down, k) && GoodUp(c.up, k) && OneHello(c)
    && (c.listed ==> c.heard && forall m :: m in c.down && m.RespHello? ==> m.ok)
    && (!c.heard ==> c.down == [])
    && (!c.listed ==> |c.slave.devs| == 1 && forall m :: m in c.down ==> m.RespHello?)
  }

  /** A listed connection: its device is in the directory and its slave will hold the
      master's view; after the handshake the master will hold the slave's own report. */
  ghost predicate ConnOk(devs: seq<Dev>, k: Key, c: Conn) {
    && SlaveOk(k, c)
    && (c.listed <==> Get(devs, k).Some?)
    && (c.listed ==> Synced(devs, k, ApplyAll(c.slave, c.down)))
    && (c.listed && NoResp(c.down) ==> LastFlag(c.up, Get(devs, k).value.flag) == AddFlag(c.slave.devs[0].flag))
  }

  ghost predicate MasterOk(net: Net) {
    && GoodMaster(net.master.devs) && net.master.loc == 0
    && (forall i :: 0 <= i < |net.master.devs| ==> net.master.devs[i].key.did > 0)
    && (forall i :: 1 <= i < |net.master.devs| ==> net.master.devs[i].key in net.conns)
    && DistinctConns(net.conns)
    && forall k :: k in net.conns ==> k.did > 0 && k.did != net.master.devs[0].key.did
  }

  ghost predicate Inv(net: Net) {
    && MasterOk(net)
    && forall k :: k in net.conns ==> ConnOk(net.master.devs, k, net.conns[k])
  }
}
