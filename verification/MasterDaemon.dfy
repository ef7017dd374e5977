/** The master daemon's message handlers as they run: a directory table changed in place and
    one transmit line per listed peer.  The lemmas at the end show that what each of them does
    to table and lines is what the protocol's step does. */
module MasterDaemon {
  import opened Options
  import opened Directory
  import opened Messages
  import Replication

  class Master {
    const dd: DeviceTable
    /** The peers list: the lines of the connected peers, by device id. */
    var peers: Lines

    ghost predicate Valid()
      reads this, dd
    {
      dd.Valid()
    }

    constructor (dd: DeviceTable)
      requires dd.Valid()
      ensures Valid() && this.dd == dd && peers == map[]
    {
      this.dd := dd;
      peers := map[];
    }

    /** Copy the directory, then send every device to every other device's peer. */
    method UpdateAll(add: bool)
      requires Valid()
      modifies this
      ensures Valid() && peers == Broadcast(old(peers), dd.devs[..dd.num], add)
    {
      hide Row;
      var devs := dd.devs[..dd.num];
      ghost var start := peers;
      var src := 0;
      while src < |devs|
        invariant src <= |devs| && peers == Rows(start, devs, add, src)
      {
        SendRow(devs, src, add);
        src := src + 1;
      }
    }

    method SendRow(devs: seq<Dev>, src: nat, add: bool)
      requires src < |devs|
      modifies this
      ensures peers == Row(old(peers), devs, add, src, |devs|)
    {
      hide Deliver, Item, Row;
      var tgt := 0;
      RowStart(peers, devs, add, src);
      while tgt < |devs|
        invariant tgt <= |devs| && peers == Row(old(peers), devs, add, src, tgt)
      {
        RowNext(old(peers), devs, add, src, tgt);
        SendItem(devs, src, tgt, add);
        tgt := tgt + 1;
      }
    }

    method SendItem(devs: seq<Dev>, src: nat, tgt: nat, add: bool)
      requires src < |devs| && tgt < |devs|
      modifies this
      ensures peers == Deliver(old(peers), devs[tgt].key.did, Item(devs, old(peers).Keys, add, src, tgt))
    {
      var did := devs[tgt].key.did;
      if src == tgt || devs[tgt].isMast || did !in peers {
        DeliverNothing(peers, did);
      } else if add {
        SendAdd(did, devs[src]);
      } else {
        peers := peers[did := peers[did] + [FSet(devs[src].key, UpdateFlag(devs[src]))]];
      }
    }

    method SendAdd(did: nat, dev: Dev)
      requires did in peers
      modifies this
      ensures peers == Deliver(old(peers), did, Announce(did, dev, old(peers).Keys))
    {
      var flag, isMp, name := AddFlag(dev.flag), false, dev.name;
      if dev.isMast {
        name := MASTER_NAME;
      } else if dev.key.did == did {
        name, isMp, flag := MPORT_NAME, true, flag | FLAG_OK_MP;
      } else if dev.key.did !in peers {
        DeliverNothing(peers, did);
        return;
      }
      peers := peers[did := peers[did] + [ModAdd(dev.key, HC_MP, isMp, flag, name)]];
    }

    /** A HELLO from the peer with this key, whose line so far is `line`.  `known` says that
        its component tag belongs to a configured device, called `name`. */
    method ProcessHello(k: Key, line: seq<Down>, known: bool, name: string) returns (answer: Down)
      requires Valid()
      modifies this, dd, dd.devs
      ensures Valid() && answer == RespHello(known)
      ensures !known ==> peers == old(peers) && dd.Model() == old(dd.Model())
      ensures known ==> dd.Model() == Add(old(dd.Model()), k, HC_MP, false, FLAG_OK, name).0
      ensures known ==> peers == Broadcast(old(peers)[k.did := line + [answer]], dd.Model().devs, true)
    {
      answer := RespHello(known);
      if known {
        peers := peers[k.did := line + [answer]];
        var _ := dd.AddDevice(k, HC_MP, false, FLAG_OK, name);
        UpdateAll(true);
      }
    }

    /** A flag report naming `key`, from the connection on file as `onFile`. */
    method ProcessFlagSet(onFile: Key, key: Key, flag: bv8)
      requires Valid()
      modifies this, dd.devs
      ensures Valid()
      ensures key != onFile || Get(old(dd.Model()).devs, key).None? ==> peers == old(peers) && dd.Model() == old(dd.Model())
      ensures key == onFile && Get(old(dd.Model()).devs, key).Some? ==>
                && dd.Model() == SetFlag(old(dd.Model()), key, flag)
                && peers == Broadcast(old(peers), dd.Model().devs, false)
    {
      if key != onFile { return; }
      var tellPeers := dd.SetDeviceFlag(key, flag);
      if tellPeers {
        UpdateAll(false);
      }
    }

    /** A connection has ended: off the list, out of the directory, and everybody is told. */
    method CleanupPeer(onFile: Key, listed: bool)
      requires Valid()
      modifies this, dd, dd.devs
      ensures Valid()
      ensures dd.Model() == Del(old(dd.Model()), onFile).0
      ensures var rest := if listed then old(peers) - {onFile.did} else old(peers);
              && peers.Keys == rest.Keys
              && forall d :: d in rest ==>
                   peers[d] == if Del(old(dd.Model()), onFile).1 then rest[d] + [ModDel(onFile)] else rest[d]
    {
      if listed {
        peers := peers - {onFile.did};
      }
      var deleted := dd.DelDevice(onFile);
      if deleted {
        SendRemovals(onFile);
      }
    }

    method SendRemovals(gone: Key)
      modifies this
      ensures peers.Keys == old(peers).Keys
      ensures forall d :: d in peers ==> peers[d] == old(peers)[d] + [ModDel(gone)]
    {
      var todo := peers.Keys;
      while todo != {}
        invariant todo <= peers.Keys == old(peers).Keys
        invariant forall d :: d in peers ==> peers[d] == if d in todo then old(peers)[d] else old(peers)[d] + [ModDel(gone)]
        decreases todo
      {
        var d :| d in todo;
        peers := peers[d := peers[d] + [ModDel(gone)]];
        todo := todo - {d};
      }
    }
  }

  // ------------------------------------------------------------------ the protocol's steps

  /** The lines of a protocol state are determined by its listed connections. */
  lemma LinesAre(conns: map<Key, Replication.Conn>, lines: Lines)
    requires Replication.DistinctConns(conns) && lines.Keys == Replication.Dids(conns)
    requires forall k :: k in conns && conns[k].listed ==> k.did in lines && lines[k.did] == conns[k].down
    ensures Replication.LinesOf(conns) == lines
  {
    var r := Replication.LinesOf(conns);
    forall d | d in r ensures r[d] == lines[d] {
      var k :| k in Replication.Listed(conns) && k.did == d;
    }
  }

  /** A broadcast in the protocol is the broadcast over its lines. */
  lemma SpreadLines(net: Replication.Net, add: bool)
    requires Replication.DistinctConns(net.conns)
    ensures var r := Replication.Spread(net, add);
            && Replication.DistinctConns(r.conns) && r.master == net.master
            && Replication.LinesOf(r.conns) == Broadcast(Replication.LinesOf(net.conns), net.master.devs, add)
  {
    var r := Replication.Spread(net, add);
    assert Replication.Listed(r.conns) == Replication.Listed(net.conns);
    LinesAre(r.conns, Broadcast(Replication.LinesOf(net.conns), net.master.devs, add));
  }

  lemma ListLines(conns: map<Key, Replication.Conn>, k: Key, c: Replication.Conn)
    requires Replication.DistinctConns(conns) && k in conns && c.listed
    ensures Replication.DistinctConns(conns[k := c])
    ensures Replication.LinesOf(conns[k := c]) == Replication.LinesOf(conns)[k.did := c.down]
  {
    var after := conns[k := c];
    assert Replication.Listed(after) == Replication.Listed(conns) + {k};
    LinesAre(after, Replication.LinesOf(conns)[k.did := c.down]);
  }

  /** An accepted HELLO: what `ProcessHello` promises of table and lines holds of the step. */
  lemma HelloIsStep(net: Replication.Net, k: Key, c: Replication.Conn, name: string)
    requires Replication.DistinctConns(net.conns) && k in net.conns
    ensures var r := Replication.ProcessHello(net, k, c, true, name);
            && Replication.DistinctConns(r.conns) && r.master == Add(net.master, k, HC_MP, false, FLAG_OK, name).0
            && Replication.LinesOf(r.conns)
               == Broadcast(Replication.LinesOf(net.conns)[k.did := c.down + [RespHello(true)]], r.master.devs, true)
  {
    var c' := c.(heard := true, listed := true, down := c.down + [RespHello(true)]);
    ListLines(net.conns, k, c');
    SpreadLines(Replication.Net(Add(net.master, k, HC_MP, false, FLAG_OK, name).0, net.conns[k := c']), true);
  }

  /** A refused HELLO changes nothing but the peer's own line, which gets the refusal. */
  lemma RefusalIsStep(net: Replication.Net, k: Key, c: Replication.Conn, name: string)
    requires Replication.DistinctConns(net.conns) && k in net.conns && !c.listed
    ensures var r := Replication.ProcessHello(net, k, c, false, name);
            && r.master == net.master && r.conns.Keys == net.conns.Keys
            && (forall q :: q in net.conns && q != k ==> r.conns[q] == net.conns[q])
            && r.conns[k].down == c.down + [RespHello(false)] && !r.conns[k].listed && r.conns[k].heard
            && r.conns[k].slave == c.slave && r.conns[k].up == c.up
  {
  }

  /** A report before the HELLO, for another key, or for a device that is not in the directory changes
      nothing beyond having been read. */
  lemma IgnoredIsStep(net: Replication.Net, k: Key, c: Replication.Conn, key: Key, flag: bv8)
    requires Replication.DistinctConns(net.conns) && k in net.conns
    requires !c.heard || key != k || Get(net.master.devs, key).None?
    ensures var r := Replication.ProcessFlag(net, k, c, key, flag); r.master == net.master && r.conns == net.conns[k := c]
  {
  }

  /** An accepted flag report, likewise for `ProcessFlagSet`. */
  lemma FlagSetIsStep(net: Replication.Net, k: Key, c: Replication.Conn, flag: bv8)
    requires Replication.DistinctConns(net.conns) && k in net.conns && c.heard && Get(net.master.devs, k).Some?
    requires c.listed == net.conns[k].listed && c.down == net.conns[k].down
    ensures var r := Replication.ProcessFlag(net, k, c, k, flag);
            && Replication.DistinctConns(r.conns) && r.master == SetFlag(net.master, k, flag)
            && Replication.LinesOf(r.conns) == Broadcast(Replication.LinesOf(net.conns), r.master.devs, false)
  {
    var conns := net.conns[k := c];
    assert Replication.Listed(conns) == Replication.Listed(net.conns);
    LinesAre(conns, Replication.LinesOf(net.conns));
    SpreadLines(Replication.Net(SetFlag(net.master, k, flag), conns), false);
  }

  lemma UnlistDids(conns: map<Key, Replication.Conn>, rest: map<Key, Replication.Conn>, k: Key)
    requires Replication.DistinctConns(conns) && k in conns && Replication.Listed(rest) == Replication.Listed(conns) - {k}
    ensures Replication.Dids(rest) == if conns[k].listed then Replication.Dids(conns) - {k.did} else Replication.Dids(conns)
  {
    forall d ensures d in Replication.Dids(rest) <==> d in Replication.Dids(conns) && !(conns[k].listed && d == k.did) {
      if d in Replication.Dids(conns) {
        var q :| q in Replication.Listed(conns) && q.did == d;
        assert q != k ==> q in Replication.Listed(rest);
      }
    }
  }

  /** The end of a connection, likewise for `CleanupPeer`. */
  lemma CleanupIsStep(net: Replication.Net, k: Key)
    requires Replication.DistinctConns(net.conns) && k in net.conns
    ensures var r, onFile := Replication.Cleanup(net, k), Replication.PeerKey(k, net.conns[k]);
            var lines := Replication.LinesOf(net.conns);
            var rest := if net.conns[k].listed then lines - {k.did} else lines;
            && Replication.DistinctConns(r.conns) && r.master == Del(net.master, onFile).0
            && Replication.LinesOf(r.conns).Keys == rest.Keys
            && forall d :: d in rest ==>
                 Replication.LinesOf(r.conns)[d]
                 == if Del(net.master, onFile).1 then rest[d] + [ModDel(onFile)] else rest[d]
  {
    var r, onFile := Replication.Cleanup(net, k), Replication.PeerKey(k, net.conns[k]);
    var lines := Replication.LinesOf(net.conns);
    var rest := if net.conns[k].listed then lines - {k.did} else lines;
    assert Replication.Listed(r.conns) == Replication.Listed(net.conns) - {k};
    var told := map d | d in rest :: if Del(net.master, onFile).1 then rest[d] + [ModDel(onFile)] else rest[d];
    UnlistDids(net.conns, r.conns, k);
    hide Del;
    LinesAre(r.conns, told);
  }
}
