/** Every step keeps the replication invariant, hence so does every run; and what the
    invariant says once the channels are empty. */
module ReplicationProof {
  import opened Options
  import opened Directory
  import opened Messages
  import opened Convergence
  import opened Replication

  // ------------------------------------------------------------------ a broadcast restores the invariant

  /** Like `ConnOk`, but with the slave's view only near the master's, as the broadcast that
      is about to be sent will repair. */
  ghost predicate ConnReady(add: bool, devs: seq<Dev>, k: Key, c: Conn) {
    && SlaveOk(k, c)
    && (c.listed <==> Get(devs, k).Some?)
    && (c.listed ==> NearAll(add, devs, k, ApplyAll(c.slave, c.down)))
    && (c.listed && NoResp(c.down) ==> LastFlag(c.up, Get(devs, k).value.flag) == AddFlag(c.slave.devs[0].flag))
  }

  ghost predicate Ready(net: Net, add: bool) {
    && MasterOk(net)
    && forall k :: k in net.conns ==> ConnReady(add, net.master.devs, k, net.conns[k])
  }

  lemma ReadyAllListed(net: Net, add: bool)
    requires Ready(net, add)
    ensures AllListed(net.master.devs, Dids(net.conns))
  {
    var devs := net.master.devs;
    forall i | 1 <= i < |devs| ensures devs[i].key.did in Dids(net.conns) {
      var k := devs[i].key;
      assert ConnReady(add, devs, k, net.conns[k]);
      assert Get(devs, k).Some?;
      assert k in Listed(net.conns);
    }
  }

  lemma SpreadConn(net: Net, add: bool, k: Key)
    requires Ready(net, add) && k in net.conns && net.conns[k].listed
    ensures ConnOk(net.master.devs, k, Spread(net, add).conns[k])
  {
    var devs, dids, c := net.master.devs, Dids(net.conns), net.conns[k];
    assert ConnReady(add, devs, k, c);
    var t := Find(devs, k);
    assert t < |devs| && t != 0;
    ReadyAllListed(net, add);
    var share := Share(devs, dids, add, t, |devs|);
    BroadcastShare(LinesOf(net.conns), devs, add, t);
    assert Spread(net, add).conns[k] == c.(down := c.down + share);
    ShareSyncs(ApplyAll(c.slave, c.down), devs, dids, add, t);
    ApplyAllSplit(c.slave, c.down, share);
    SpareConcat(c.down, share, k);
  }

  lemma SpareConcat(a: seq<Down>, b: seq<Down>, k: Key)
    requires AllSpare(a, k) && AllSpare(b, k) && NoResp(b)
    ensures AllSpare(a + b, k) && (NoResp(a + b) <==> NoResp(a))
    ensures forall m :: m in a + b && m.RespHello? ==> m in a
  {
    assert forall m :: m in a ==> m in a + b;
  }

  lemma SpreadRestores(net: Net, add: bool)
    requires Ready(net, add)
    ensures Inv(Spread(net, add))
  {
    var net' := Spread(net, add);
    forall k | k in net'.conns ensures ConnOk(net.master.devs, k, net'.conns[k]) {
      if net.conns[k].listed {
        SpreadConn(net, add, k);
      } else {
        assert ConnReady(add, net.master.devs, k, net.conns[k]);
      }
    }
  }

  /** Replacing one connection keeps the invariant when the new one is in order. */
  lemma PutKeeps(net: Net, k: Key, c: Conn)
    requires Inv(net) && k in net.conns && ConnOk(net.master.devs, k, c)
    ensures Inv(Put(net, k, c))
  {
    hide ConnOk, GoodMaster;
    var net' := Put(net, k, c);
    assert net'.conns.Keys == net.conns.Keys;
    forall q | q in net'.conns ensures ConnOk(net.master.devs, q, net'.conns[q]) {
      assert q != k ==> ConnOk(net.master.devs, q, net.conns[q]);
    }
  }

  // ------------------------------------------------------------------ HELLO

  lemma NotInMaster(net: Net, k: Key)
    requires MasterOk(net)
    requires k.did != net.master.devs[0].key.did
    requires forall q :: q in net.conns && q.did == k.did ==> q == k && Get(net.master.devs, k).None?
    ensures forall i :: 0 <= i < |net.master.devs| ==> net.master.devs[i].key.did != k.did
    ensures Get(net.master.devs, k).None?
  {
    var devs := net.master.devs;
    forall i | 0 <= i < |devs| ensures devs[i].key.did != k.did {
      assert i == 0 || devs[i].key in net.conns;
    }
  }

  lemma HelloMaster(net: Net, k: Key, c: Conn, name: string)
    requires MasterOk(net) && k in net.conns && Get(net.master.devs, k).None? && |net.master.devs| + 1 < MAX_DEVS
    ensures var m := Add(net.master, k, HC_MP, false, FLAG_OK, name).0;
            && MasterOk(Net(m, net.conns[k := c]))
            && Get(m.devs, k) == Some(Dev(k, HC_MP, false, FLAG_OK, name))
            && forall q :: q != k ==> Get(m.devs, q) == Get(net.master.devs, q)
  {
    NotInMaster(net, k);
    GoodMasterIsUnique(net.master.devs);
    AddRefinesInsert(net.master, k, HC_MP, false, FLAG_OK, name);
    assert PeerFlag(FLAG_OK);
  }

  lemma HelloOther(devs: seq<Dev>, devs': seq<Dev>, k: Key, q: Key, c: Conn)
    requires ConnOk(devs, q, c) && q != k && Get(devs, k).None?
    requires forall x :: x != k ==> Get(devs', x) == Get(devs, x)
    ensures ConnReady(true, devs', q, c)
  {
    if c.listed {
      var eff := ApplyAll(c.slave, c.down);
      forall x | x != q ensures Near(true, Get(eff.devs, x), Want(devs', x)) {
        assert Get(eff.devs, x) == Want(devs, x);
      }
    }
  }

  lemma HelloNew(devs': seq<Dev>, k: Key, c: Conn)
    requires SlaveOk(k, c) && c.up != [] && c.up[0].Hello? && Get(devs', k).Some?
    ensures ConnReady(true, devs', k,
                      c.(up := c.up[1..], heard := true, listed := true, down := c.down + [RespHello(true)]))
  {
    assert c.down + [RespHello(true)] == [RespHello(true)];
    var c' := c.(up := c.up[1..], heard := true, listed := true, down := [RespHello(true)]);
    assert RespHello(true) in c'.down;
    assert ApplyAll(c'.slave, c'.down) == ApplyAll(c'.slave, []) == c'.slave;
    assert forall i :: 0 <= i < |c'.up| ==> c'.up[i] == c.up[i + 1];
    forall x | x != k ensures Get(c.slave.devs, x) == None {
    }
  }

  lemma HelloReady(net: Net, k: Key, name: string)
    requires Inv(net) && k in net.conns && net.conns[k].up != [] && net.conns[k].up[0].Hello?
    requires |net.master.devs| + 1 < MAX_DEVS
    ensures var c := net.conns[k];
            var c' := c.(up := c.up[1..], heard := true, listed := true, down := c.down + [RespHello(true)]);
            Ready(Net(Add(net.master, k, HC_MP, false, FLAG_OK, name).0, net.conns[k := c']), true)
  {
    var c := net.conns[k];
    assert ConnOk(net.master.devs, k, c);
    var c' := c.(up := c.up[1..], heard := true, listed := true, down := c.down + [RespHello(true)]);
    HelloMaster(net, k, c', name);
    var m := Add(net.master, k, HC_MP, false, FLAG_OK, name).0;
    var net1 := Net(m, net.conns[k := c']);
    forall q | q in net1.conns ensures ConnReady(true, m.devs, q, net1.conns[q]) {
      if q == k {
        HelloNew(m.devs, k, c);
      } else {
        HelloOther(net.master.devs, m.devs, k, q, net.conns[q]);
      }
    }
  }

  lemma HelloRefused(devs: seq<Dev>, k: Key, c: Conn)
    requires ConnOk(devs, k, c) && c.up != [] && c.up[0].Hello?
    ensures ConnOk(devs, k, c.(up := c.up[1..], heard := true, listed := false, down := c.down + [RespHello(false)]))
  {
    var c' := c.(up := c.up[1..], heard := true, listed := false, down := c.down + [RespHello(false)]);
    assert forall i :: 0 <= i < |c'.up| ==> c'.up[i] == c.up[i + 1];
    assert c'.down == [RespHello(false)];
  }

  lemma HelloKeeps(net: Net, k: Key, known: bool, name: string)
    requires Inv(net) && k in net.conns && net.conns[k].up != [] && net.conns[k].up[0].Hello?
    requires known ==> |net.master.devs| + 1 < MAX_DEVS
    ensures Inv(ProcessHello(net, k, net.conns[k].(up := net.conns[k].up[1..]), known, name))
  {
    var c := net.conns[k];
    var c' := c.(up := c.up[1..], heard := true, listed := known, down := c.down + [RespHello(known)]);
    if known {
      HelloReady(net, k, name);
      SpreadRestores(Net(Add(net.master, k, HC_MP, false, FLAG_OK, name).0, net.conns[k := c']), true);
    } else {
      HelloRefused(net.master.devs, k, c);
      PutKeeps(net, k, c');
    }
  }

  // ------------------------------------------------------------------ flag changes

  /** Changing the flag of one directory entry leaves every slave's view near. */
  lemma FlagOther(devs: seq<Dev>, devs': seq<Dev>, k: Key, f: bv8, q: Key, c: Conn)
    requires ConnOk(devs, q, c) && q != k && Get(devs, k).Some?
    requires Get(devs', k) == Some(Get(devs, k).value.(flag := f))
    requires forall x :: x != k ==> Get(devs', x) == Get(devs, x)
    ensures ConnReady(false, devs', q, c)
  {
    if c.listed {
      var eff := ApplyAll(c.slave, c.down);
      forall x | x != q ensures Near(false, Get(eff.devs, x), Want(devs', x)) {
        assert Get(eff.devs, x) == Want(devs, x);
      }
    }
  }

  lemma FlagOwn(devs: seq<Dev>, devs': seq<Dev>, k: Key, c: Conn)
    requires ConnOk(devs, k, c) && c.listed && c.up != [] && c.up[0].FSetUp?
    requires Get(devs', k) == Some(Get(devs, k).value.(flag := c.up[0].flag))
    requires forall x :: x != k ==> Get(devs', x) == Get(devs, x)
    ensures ConnReady(false, devs', k, c.(up := c.up[1..]))
  {
    var c', eff := c.(up := c.up[1..]), ApplyAll(c.slave, c.down);
    assert forall i :: 0 <= i < |c'.up| ==> c'.up[i] == c.up[i + 1];
    forall x | x != k ensures Near(false, Get(eff.devs, x), Want(devs', x)) {
      assert Get(eff.devs, x) == Want(devs, x);
    }
  }

  lemma SetFlagMaster(net: Net, k: Key, f: bv8, c: Conn)
    requires MasterOk(net) && k in net.conns && Get(net.master.devs, k).Some? && PeerFlag(f)
    ensures var m := SetFlag(net.master, k, f);
            && MasterOk(Net(m, net.conns[k := c]))
            && Get(m.devs, k) == Some(Get(net.master.devs, k).value.(flag := f))
            && forall x :: x != k ==> Get(m.devs, x) == Get(net.master.devs, x)
  {
    GoodMasterIsUnique(net.master.devs);
    SetFlagRefinesUpdate(net.master, k, f);
  }

  lemma FlagReady(net: Net, k: Key)
    requires Inv(net) && k in net.conns && net.conns[k].up != [] && net.conns[k].up[0].FSetUp?
    requires Get(net.master.devs, k).Some?
    ensures var c := net.conns[k];
            Ready(Net(SetFlag(net.master, k, c.up[0].flag), net.conns[k := c.(up := c.up[1..])]), false)
  {
    var c, devs := net.conns[k], net.master.devs;
    var f, c' := c.up[0].flag, c.(up := c.up[1..]);
    assert ConnOk(devs, k, c);
    SetFlagMaster(net, k, f, c');
    var net1 := Net(SetFlag(net.master, k, f), net.conns[k := c']);
    forall q | q in net1.conns ensures ConnReady(false, net1.master.devs, q, net1.conns[q]) {
      if q == k {
        FlagOwn(devs, net1.master.devs, k, c);
      } else {
        FlagOther(devs, net1.master.devs, k, f, q, net.conns[q]);
      }
    }
  }

  /** Reading a message that does not change the master's flag for the sender. */
  lemma DropUp(devs: seq<Dev>, k: Key, c: Conn)
    requires ConnOk(devs, k, c) && c.up != [] && !c.up[0].Hello? && (c.up[0].FSetUp? ==> !c.listed)
    ensures ConnOk(devs, k, c.(up := c.up[1..]))
  {
    var c' := c.(up := c.up[1..]);
    assert forall i :: 0 <= i < |c'.up| ==> c'.up[i] == c.up[i + 1];
  }

  lemma FlagKeeps(net: Net, k: Key)
    requires Inv(net) && k in net.conns && net.conns[k].up != [] && net.conns[k].up[0].FSetUp?
    ensures var c := net.conns[k];
            Inv(ProcessFlag(net, k, c.(up := c.up[1..]), c.up[0].key, c.up[0].flag))
  {
    var c := net.conns[k];
    assert ConnOk(net.master.devs, k, c);
    if Get(net.master.devs, k).Some? {
      FlagReady(net, k);
      SpreadRestores(Net(SetFlag(net.master, k, c.up[0].flag), net.conns[k := c.(up := c.up[1..])]), false);
    } else {
      DropUp(net.master.devs, k, c);
      PutKeeps(net, k, c.(up := c.up[1..]));
    }
  }

  lemma ModFlagMaster(net: Net, flag: bv8, raise: bool)
    requires MasterOk(net) && AppFlag(flag)
    ensures var m := ModMpFlag(net.master, flag, raise);
            && MasterOk(Net(m, net.conns))
            && (exists f :: m.devs == net.master.devs[0 := net.master.devs[0].(flag := f)])
            && |m.devs| == |net.master.devs|
  {
    var m, e := ModMpFlag(net.master, flag, raise), net.master.devs[0];
    AppFlagKeepsPort(e.flag, flag);
    assert m.devs == net.master.devs[0 := e.(flag := m.devs[0].flag)];
  }

  lemma MasterAppKeeps(net: Net, flag: bv8, raise: bool)
    requires Inv(net) && AppFlag(flag)
    ensures Inv(Spread(Net(ModMpFlag(net.master, flag, raise), net.conns), false))
  {
    ModFlagMaster(net, flag, raise);
    var m, devs := ModMpFlag(net.master, flag, raise), net.master.devs;
    var f :| m.devs == devs[0 := devs[0].(flag := f)];
    GoodMasterIsUnique(devs);
    ReplaceAt(devs, 0, devs[0].(flag := f));
    FindIs(devs, 0);
    forall q | q in net.conns ensures ConnReady(false, m.devs, q, net.conns[q]) {
      FlagOther(devs, m.devs, devs[0].key, f, q, net.conns[q]);
    }
    SpreadRestores(Net(m, net.conns), false);
  }

  // ------------------------------------------------------------------ the slave's steps

  lemma {:induction false} LastFlagSnoc(up: seq<Up>, m: Up, f: bv8)
    ensures LastFlag(up + [m], f) == if m.FSetUp? then m.flag else LastFlag(up, f)
    decreases |up|
  {
    if up == [] {
      assert (up + [m])[1..] == [];
    } else {
      assert (up + [m])[1..] == up[1..] + [m];
      LastFlagSnoc(up[1..], m, if up[0].FSetUp? then up[0].flag else f);
    }
  }

  /** Sending anything but a HELLO keeps the order of a slave's upstream channel. */
  lemma UpSnoc(k: Key, c: Conn, m: Up)
    requires SlaveOk(k, c) && (m.FSetUp? ==> m.key == k && PeerFlag(m.flag)) && (m.Hello? ==> !c.said)
    ensures SlaveOk(k, c.(up := c.up + [m], said := c.said || m.Hello?))
  {
  }

  lemma SlaveReceiveOk(k: Key, c: Conn)
    requires SlaveOk(k, c) && c.down != []
    ensures var c' := c.(slave := ApplyDown(c.slave, c.down[0]), down := c.down[1..]);
            SlaveOk(k, c') && c'.slave.devs[0] == c.slave.devs[0]
            && (NoResp(c'.down) && !c.down[0].RespHello? ==> NoResp(c.down))
  {
    var m := c.down[0];
    SpareStep(c.slave, c.slave, m, k);
    assert c.down == [m] + c.down[1..];
    assert m in c.down;
    assert forall i :: 0 <= i < |c.down| - 1 ==> c.down[1..][i] == c.down[i + 1];
  }

  /** Working off the next message, before any answer is sent. */
  lemma Receive(devs: seq<Dev>, k: Key, c: Conn)
    requires ConnOk(devs, k, c) && c.down != [] && !c.down[0].RespHello?
    ensures ConnOk(devs, k, c.(slave := ApplyDown(c.slave, c.down[0]), down := c.down[1..]))
  {
    SlaveReceiveOk(k, c);
    hide ApplyDown, SlaveOk, Synced;
  }

  lemma ReceiveHello(devs: seq<Dev>, k: Key, c: Conn)
    requires ConnOk(devs, k, c) && c.down != [] && c.down[0].RespHello?
    ensures ConnOk(devs, k, SlaveHandle(c.(down := c.down[1..]), c.down[0]))
  {
    var c' := c.(down := c.down[1..]);
    SlaveReceiveOk(k, c);
    AddFlagIsPeerFlag(c'.slave.devs[0].flag);
    var r := FSetUp(k, AddFlag(c'.slave.devs[0].flag));
    UpSnoc(k, c', r);
    assert c.down[0] in c.down;
    hide SlaveOk, Synced;
    if c.listed {
      LastFlagSnoc(c'.up, r, Get(devs, k).value.flag);
    }
  }

  lemma SlaveReceiveKeeps(devs: seq<Dev>, k: Key, c: Conn)
    requires ConnOk(devs, k, c) && c.down != []
    ensures ConnOk(devs, k, SlaveHandle(c.(down := c.down[1..]), c.down[0]))
  {
    var m := c.down[0];
    if m.RespHello? {
      ReceiveHello(devs, k, c);
    } else {
      Receive(devs, k, c);
      var c' := c.(slave := ApplyDown(c.slave, m), down := c.down[1..]);
      hide ApplyDown, Synced;
      if !m.FSet? {
        UpSnoc(k, c', RespMod);
        hide SlaveOk;
        if c.listed {
          LastFlagSnoc(c'.up, RespMod, Get(devs, k).value.flag);
        }
      }
    }
  }

  lemma SlaveAppKeeps(devs: seq<Dev>, k: Key, c: Conn, flag: bv8, raise: bool)
    requires ConnOk(devs, k, c) && AppFlag(flag)
    ensures var s := ModMpFlag(c.slave, flag, raise);
            ConnOk(devs, k, c.(slave := s, up := c.up + Report(s)))
  {
    var s := ModMpFlag(c.slave, flag, raise);
    AppFlagKeepsPort(c.slave.devs[0].flag, flag);
    AddFlagIsPeerFlag(s.devs[0].flag);
    var r := FSetUp(k, AddFlag(s.devs[0].flag));
    UpSnoc(k, c.(slave := s), r);
    if c.listed {
      OwnFlagAside(devs, k, c, s);
      LastFlagSnoc(c.up, r, Get(devs, k).value.flag);
    }
  }

  /** The slave's own flag plays no part in what it will hold about others. */
  lemma OwnFlagAside(devs: seq<Dev>, k: Key, c: Conn, s: Dir)
    requires PortFirst(c.slave, k) && SameButFirst(c.slave, s) && AllSpare(c.down, k)
    requires Synced(devs, k, ApplyAll(c.slave, c.down))
    ensures Synced(devs, k, ApplyAll(s, c.down))
  {
    SpareAll(c.slave, s, c.down, k);
    var a, b := ApplyAll(c.slave, c.down), ApplyAll(s, c.down);
    assert forall i :: 0 <= i < |a.devs| ==> a.devs[i].key == b.devs[i].key;
    forall q | q != k ensures Get(b.devs, q) == Get(a.devs, q) {
      SamePlaces(a.devs, b.devs, k, q);
    }
  }

  // ------------------------------------------------------------------ connections come and go

  lemma ConnectKeeps(net: Net, k: Key, hc: nat, name: string)
    requires Inv(net) && Enabled(net, Connect(k, hc, name))
    ensures Inv(Step(net, Connect(k, hc, name)))
  {
    var net' := Step(net, Connect(k, hc, name));
    NotInMaster(net, k);
    assert net'.conns.Keys == net.conns.Keys + {k};
    NewConn(net.master.devs, k, hc, name);
    hide ConnOk;
    forall q | q in net'.conns ensures ConnOk(net'.master.devs, q, net'.conns[q]) {
      assert q != k ==> ConnOk(net.master.devs, q, net.conns[q]);
    }
  }

  lemma NewConn(devs: seq<Dev>, k: Key, hc: nat, name: string)
    requires Get(devs, k).None?
    ensures ConnOk(devs, k, Conn(Dir([Dev(k, hc, true, FLAG_OK_MP, name)], 0), false, false, false, [], []))
  {
    assert PortFlag(FLAG_OK_MP);
  }

  lemma SayHelloKeeps(devs: seq<Dev>, k: Key, c: Conn)
    requires ConnOk(devs, k, c) && !c.said
    ensures ConnOk(devs, k, c.(said := true, up := c.up + [Hello]))
  {
    UpSnoc(k, c, Hello);
  }

  /** Deleting any entry but the port's leaves a good table with the port first. */
  lemma WithoutGood(devs: seq<Dev>, i: nat)
    requires GoodMaster(devs) && 0 < i < |devs|
    ensures GoodMaster(Without(devs, i)) && Without(devs, i)[0] == devs[0]
  {
  }

  lemma CleanupMaster(net: Net, k: Key)
    requires MasterOk(net) && k in net.conns && Get(net.master.devs, k).Some?
    ensures var m := Del(net.master, k);
            && m.1 && GoodMaster(m.0.devs) && m.0.loc == 0 && m.0.devs[0] == net.master.devs[0]
            && (forall i :: 0 <= i < |m.0.devs| ==> m.0.devs[i].key.did > 0)
            && (forall i :: 1 <= i < |m.0.devs| ==> m.0.devs[i].key in net.conns - {k})
            && Get(m.0.devs, k).None?
            && forall q :: q != k ==> Get(m.0.devs, q) == Get(net.master.devs, q)
  {
    var devs, i := net.master.devs, Find(net.master.devs, k);
    GoodMasterIsUnique(devs);
    DelRefinesRemove(net.master, k);
    assert i != 0 && i < |devs| < MAX_DEVS;
    WithoutGood(devs, i);
    assert Del(net.master, k) == (Dir(Without(devs, i), 0), true);
    assert forall j :: 0 <= j < |devs| && j != i ==> devs[j].key != k by {
      assert forall j :: 0 <= j < |devs| && j != i ==> devs[j].key.did != devs[i].key.did;
    }
    hide Del, Get, GoodMaster, DistinctConns;
  }

  lemma CleanupOther(devs: seq<Dev>, devs': seq<Dev>, k: Key, q: Key, c: Conn)
    requires ConnOk(devs, q, c) && q != k && |devs| < MAX_DEVS && Unique(devs)
    requires Get(devs', k).None? && forall x :: x != k ==> Get(devs', x) == Get(devs, x)
    ensures c.listed ==> ConnOk(devs', q, c.(down := c.down + [ModDel(k)]))
    ensures !c.listed ==> ConnOk(devs', q, c)
  {
    if c.listed {
      var eff := ApplyAll(c.slave, c.down);
      ApplyAllSnoc(c.slave, c.down, ModDel(k));
      NoLonger(eff.devs, devs);
      DelRefinesRemove(eff, k);
      SpareStep(eff, eff, ModDel(k), q);
      SpareConcat(c.down, [ModDel(k)], q);
    }
  }

  lemma CleanupListed(net: Net, k: Key)
    requires Inv(net) && k in net.conns && net.conns[k].listed
    ensures Inv(Cleanup(net, k))
  {
    assert ConnOk(net.master.devs, k, net.conns[k]);
    CleanupMaster(net, k);
    GoodMasterIsUnique(net.master.devs);
    var net' := Cleanup(net, k);
    assert net'.conns.Keys == net.conns.Keys - {k};
    forall q | q in net'.conns ensures ConnOk(net'.master.devs, q, net'.conns[q]) {
      CleanupOther(net.master.devs, net'.master.devs, k, q, net.conns[q]);
    }
  }

  lemma CleanupUnlisted(net: Net, k: Key)
    requires Inv(net) && k in net.conns && !net.conns[k].listed
    ensures Inv(Cleanup(net, k))
  {
    var devs := net.master.devs;
    assert ConnOk(devs, k, net.conns[k]);
    assert Get(devs, PeerKey(k, net.conns[k])).None?;
    var net' := Cleanup(net, k);
    assert net' == Net(net.master, net.conns - {k});
    forall i | 1 <= i < |devs| ensures devs[i].key in net'.conns {
      assert devs[i].key != k;
    }
    forall q | q in net'.conns ensures ConnOk(devs, q, net'.conns[q]) {
      assert ConnOk(devs, q, net.conns[q]);
    }
  }

  // ------------------------------------------------------------------ every step, every run

  lemma InvOf(net: Net, k: Key)
    requires Inv(net) && k in net.conns
    ensures DistinctConns(net.conns) && ConnOk(net.master.devs, k, net.conns[k])
  {
  }

  lemma MasterReceiveKeeps(net: Net, k: Key, known: bool, name: string)
    requires Inv(net) && DistinctConns(net.conns) && Enabled(net, MasterReceive(k, known, name))
    ensures Inv(Step(net, MasterReceive(k, known, name)))
  {
    hide Inv, ConnOk, Spread, Add, SetFlag, ProcessHello, ProcessFlag;
    InvOf(net, k);
    match net.conns[k].up[0] {
      case Hello =>
        HelloKeeps(net, k, known, name);
      case RespMod =>
        DropUp(net.master.devs, k, net.conns[k]);
        PutKeeps(net, k, net.conns[k].(up := net.conns[k].up[1..]));
      case FSetUp(_, _) =>
        FlagKeeps(net, k);
    }
  }

  /** The steps that concern one connection only. */
  lemma SlaveStepKeeps(net: Net, a: Action)
    requires Inv(net) && DistinctConns(net.conns) && Enabled(net, a) && (a.SayHello? || a.SlaveReceive? || a.SlaveApp?)
    ensures Inv(Step(net, a))
  {
    hide Inv, ConnOk, SlaveHandle, ModMpFlag, Report, Put;
    var k, devs, c := a.key, net.master.devs, net.conns[a.key];
    InvOf(net, k);
    match a
    case SayHello(_) =>
      SayHelloKeeps(devs, k, c);
      PutKeeps(net, k, c.(said := true, up := c.up + [Hello]));
    case SlaveReceive(_) =>
      SlaveReceiveKeeps(devs, k, c);
      PutKeeps(net, k, SlaveHandle(c.(down := c.down[1..]), c.down[0]));
    case SlaveApp(_, flag, raise) =>
      var s := ModMpFlag(c.slave, flag, raise);
      SlaveAppKeeps(devs, k, c, flag, raise);
      PutKeeps(net, k, c.(slave := s, up := c.up + Report(s)));
  }

  lemma StepKeeps(net: Net, a: Action)
    requires Inv(net) && Enabled(net, a)
    ensures Inv(Step(net, a))
  {
    assert DistinctConns(net.conns);
    hide Inv, ConnOk, MasterOk, ModMpFlag, Spread, Cleanup;
    match a
    case Connect(k, hc, name) => ConnectKeeps(net, k, hc, name);
    case MasterReceive(k, known, name) => MasterReceiveKeeps(net, k, known, name);
    case MasterApp(flag, raise) => MasterAppKeeps(net, flag, raise);
    case Disconnect(k) =>
      if net.conns[k].listed {
        CleanupListed(net, k);
      } else {
        CleanupUnlisted(net, k);
      }
    case _ => SlaveStepKeeps(net, a);
  }

  ghost predicate Legal(net: Net, run: seq<Action>)
    decreases |run|
  {
    run != [] ==> DistinctConns(net.conns) && Enabled(net, run[0]) && Legal(Step(net, run[0]), run[1..])
  }

  ghost function After(net: Net, run: seq<Action>): Net
    requires Legal(net, run)
    decreases |run|
  {
    if run == [] then net else After(Step(net, run[0]), run[1..])
  }

  lemma InitInv(net: Net)
    requires Init(net)
    ensures Inv(net)
  {
    assert PortFlag(FLAG_OK_MP);
  }

  lemma {:induction false} RunKeeps(net: Net, run: seq<Action>)
    requires Inv(net) && Legal(net, run)
    ensures Inv(After(net, run))
    decreases |run|
  {
    if run != [] {
      StepKeeps(net, run[0]);
      RunKeeps(Step(net, run[0]), run[1..]);
    }
  }

  /** After any run, for every listed slave: working off its channel leaves it with the
      master's devices and the master's view of each of them. */
  lemma SlavesConverge(start: Net, run: seq<Action>, k: Key)
    requires Init(start) && Legal(start, run)
    requires k in After(start, run).conns && After(start, run).conns[k].listed
    ensures var net := After(start, run);
            var d := ApplyAll(net.conns[k].slave, net.conns[k].down).devs;
            && Keys(d) == Keys(net.master.devs)
            && forall q :: q != k ==> Get(d, q) == Want(net.master.devs, q)
  {
    InitInv(start);
    RunKeeps(start, run);
    var net := After(start, run);
    assert ConnOk(net.master.devs, k, net.conns[k]);
    var d := ApplyAll(net.conns[k].slave, net.conns[k].down).devs;
    forall q ensures q in Keys(d) <==> q in Keys(net.master.devs) {
      KeysAreGettable(d, q);
      KeysAreGettable(net.master.devs, q);
      if q != k {
        assert Get(d, q) == Want(net.master.devs, q);
      }
    }
  }

  lemma KeysAreGettable(devs: seq<Dev>, q: Key)
    ensures q in Keys(devs) <==> Get(devs, q).Some?
  {
    var i := Find(devs, q);
    if i < |devs| {
      assert devs[i].key in Keys(devs);
    }
  }

  lemma ReportArrives(net: Net, observer: Key, reporter: Key)
    requires Inv(net) && observer in net.conns && reporter in net.conns && observer != reporter
    requires net.conns[observer].listed && net.conns[reporter].listed
    requires net.conns[observer].down == [] && net.conns[reporter].up == [] && NoResp(net.conns[reporter].down)
    ensures var seen := Get(net.conns[observer].slave.devs, reporter);
            && seen.Some? && PortFirst(net.conns[reporter].slave, reporter)
            && seen.value.flag == AddFlag(net.conns[reporter].slave.devs[0].flag)
  {
    assert ConnOk(net.master.devs, observer, net.conns[observer]);
    assert ConnOk(net.master.devs, reporter, net.conns[reporter]);
    AddFlagIsPeerFlag(net.conns[reporter].slave.devs[0].flag);
  }

  /** End to end: once the reporter's channel up and the observer's channel down are empty,
      the observer sees exactly the flags the reporter's applications have raised. */
  lemma FlagsArrive(start: Net, run: seq<Action>, observer: Key, reporter: Key)
    requires Init(start) && Legal(start, run)
    requires var net := After(start, run);
             && observer in net.conns && reporter in net.conns && observer != reporter
             && net.conns[observer].listed && net.conns[reporter].listed
             && net.conns[observer].down == [] && net.conns[reporter].up == [] && NoResp(net.conns[reporter].down)
    ensures var net := After(start, run);
            var seen := Get(net.conns[observer].slave.devs, reporter);
            seen.Some? && Report(net.conns[reporter].slave) == [FSetUp(reporter, seen.value.flag)]
  {
    InitInv(start);
    RunKeeps(start, run);
    ReportArrives(After(start, run), observer, reporter);
  }

  /** The step neither ends the connection nor changes a flag on its slave's node. */
  predicate Leaves(a: Action, k: Key) { a != Disconnect(k) && !(a.SlaveApp? && a.key == k) }

  lemma SpreadSlaves(net: Net, add: bool, k: Key)
    requires DistinctConns(net.conns) && k in net.conns
    ensures k in Spread(net, add).conns && Spread(net, add).conns[k].slave == net.conns[k].slave
  {
  }

  lemma ReceiveSlaves(net: Net, a: Action, k: Key)
    requires DistinctConns(net.conns) && Enabled(net, a) && a.MasterReceive? && k in net.conns
    ensures k in Step(net, a).conns && Step(net, a).conns[k].slave == net.conns[k].slave
  {
    var q, c := a.key, net.conns[a.key];
    var c' := c.(up := c.up[1..]);
    hide Spread, Add, SetFlag, LinesOf;
    match c.up[0]
    case Hello =>
      if a.known {
        var c'' := c'.(heard := true, listed := true, down := c'.down + [RespHello(true)]);
        SpreadSlaves(Net(Add(net.master, q, HC_MP, false, FLAG_OK, a.peName).0, net.conns[q := c'']), true, k);
      }
    case RespMod =>
    case FSetUp(key, flag) =>
      if c'.heard && key == q && Get(net.master.devs, key).Some? {
        SpreadSlaves(Net(SetFlag(net.master, key, flag), net.conns[q := c']), false, k);
      }
  }

  lemma OwnSlave(net: Net, k: Key)
    requires Inv(net) && k in net.conns
    ensures DistinctConns(net.conns) && SlaveOk(k, net.conns[k]) && net.conns[k].slave.devs != []
  {
    assert ConnOk(net.master.devs, k, net.conns[k]);
  }

  lemma SomeEntry(k: Key, c: Conn)
    requires SlaveOk(k, c)
    ensures c.slave.devs != []
  {
  }

  lemma OwnEntryStep(net: Net, a: Action, k: Key)
    requires Inv(net) && Enabled(net, a) && k in net.conns && Leaves(a, k)
    ensures k in Step(net, a).conns && Step(net, a).conns[k].slave.devs != []
    ensures net.conns[k].slave.devs != [] && Step(net, a).conns[k].slave.devs[0] == net.conns[k].slave.devs[0]
  {
    hide ConnOk, MasterOk, Inv, Spread, SlaveOk, Report, Add, Del, SetFlag, ModMpFlag;
    OwnSlave(net, k);
    match a
    case MasterReceive(_, _, _) => ReceiveSlaves(net, a, k);
    case MasterApp(flag, raise) => SpreadSlaves(Net(ModMpFlag(net.master, flag, raise), net.conns), false, k);
    case SlaveReceive(q) =>
      if q == k {
        var c := net.conns[k];
        SlaveReceiveOk(k, c);
        SomeEntry(k, c.(slave := ApplyDown(c.slave, c.down[0]), down := c.down[1..]));
      }
    case _ =>
  }

  lemma {:induction false} OwnEntryStays(net: Net, run: seq<Action>, k: Key)
    requires Inv(net) && Legal(net, run) && k in net.conns && forall i :: 0 <= i < |run| ==> Leaves(run[i], k)
    ensures k in After(net, run).conns && After(net, run).conns[k].slave.devs != []
    ensures net.conns[k].slave.devs != [] && After(net, run).conns[k].slave.devs[0] == net.conns[k].slave.devs[0]
    decreases |run|
  {
    if run == [] {
      assert ConnOk(net.master.devs, k, net.conns[k]);
    } else {
      hide Inv, Enabled, Step;
      StepKeeps(net, run[0]);
      OwnEntryStep(net, run[0], k);
      OwnEntryStays(Step(net, run[0]), run[1..], k);
    }
  }

  /** The bits `g` are set, or clear, and the others as they were. */
  predicate Turned(now: bv8, f: bv8, g: bv8, raise: bool) {
    now & g == (if raise then g else NO_FLAG) && now | g == f | g
  }

  lemma LocalChangeOf(net: Net, k: Key, g: bv8, raise: bool)
    requires Inv(net) && k in net.conns && AppFlag(g) && g != NO_FLAG
    ensures var f, s := net.conns[k].slave.devs, ModMpFlag(net.conns[k].slave, g, raise);
            f != [] && s.devs != [] && Turned(s.devs[0].flag, f[0].flag, g, raise)
  {
    assert ConnOk(net.master.devs, k, net.conns[k]);
    assert g != ANY_FLAG;
    LocalChange(net.conns[k].slave, g, raise);
  }

  lemma SeenBits(now: bv8, f: bv8, g: bv8, raise: bool)
    requires AppFlag(g) && Turned(now, f, g, raise)
    ensures AppBits(AddFlag(now), f, g, raise)
  {
  }

  /** Once the change at `k` has drained, as the observer sees it. */
  ghost predicate Drained(net: Net, k: Key, observer: Key) {
    && observer in net.conns && k in net.conns && observer != k
    && net.conns[observer].listed && net.conns[k].listed
    && net.conns[observer].down == [] && net.conns[k].up == [] && NoResp(net.conns[k].down)
  }

  /** The bits `g` are raised, or dropped, and the other application bits as before. */
  ghost predicate SeenAs(f: bv8, devs: seq<Dev>, k: Key, g: bv8, raise: bool) {
    var seen := Get(devs, k);
    seen.Some? && AppBits(seen.value.flag, f, g, raise)
  }

  predicate AppBits(seen: bv8, f: bv8, g: bv8, raise: bool) {
    seen & g == (if raise then g else NO_FLAG) && (seen | g) & !FLAG_OK_MP == (f | g) & !FLAG_OK_MP
  }

  lemma DrainedShows(f: bv8, end: Net, k: Key, g: bv8, raise: bool, observer: Key)
    requires Inv(end) && Drained(end, k, observer) && AppFlag(g) && end.conns[k].slave.devs != []
    requires Turned(end.conns[k].slave.devs[0].flag, f, g, raise)
    ensures SeenAs(f, end.conns[observer].slave.devs, k, g, raise)
  {
    hide Inv, AddFlag, AppFlag, Turned, AppBits;
    ReportArrives(end, observer, k);
    SeenBits(end.conns[k].slave.devs[0].flag, f, g, raise);
  }

  lemma ChangeStays(net: Net, k: Key, g: bv8, raise: bool, later: seq<Action>)
    requires Inv(net) && Legal(net, [SlaveApp(k, g, raise)] + later) && k in net.conns && AppFlag(g) && g != NO_FLAG
    requires forall i :: 0 <= i < |later| ==> Leaves(later[i], k)
    ensures var was, end := net.conns[k].slave.devs, After(net, [SlaveApp(k, g, raise)] + later);
            && Inv(end) && was != [] && k in end.conns && end.conns[k].slave.devs != []
            && Turned(end.conns[k].slave.devs[0].flag, was[0].flag, g, raise)
  {
    var a := SlaveApp(k, g, raise);
    assert ([a] + later)[0] == a && ([a] + later)[1..] == later;
    LocalChangeOf(net, k, g, raise);
    assert Step(net, a).conns[k].slave == ModMpFlag(net.conns[k].slave, g, raise);
    hide Inv, Step, Enabled, ModMpFlag, AppFlag, Turned;
    StepKeeps(net, a);
    RunKeeps(Step(net, a), later);
    OwnEntryStays(Step(net, a), later, k);
  }

  /** End to end: when an application on a slave's node raises or drops a flag and nothing else is
      changed there, then once the change has drained every other slave sees those bits set, or
      clear, and the other application bits as they were. */
  lemma LocalChangeArrives(start: Net, run: seq<Action>, k: Key, g: bv8, raise: bool, later: seq<Action>, observer: Key)
    requires Init(start) && Legal(start, run) && k in After(start, run).conns && AppFlag(g) && g != NO_FLAG
    requires Legal(After(start, run), [SlaveApp(k, g, raise)] + later)
    requires forall i :: 0 <= i < |later| ==> Leaves(later[i], k)
    requires Drained(After(After(start, run), [SlaveApp(k, g, raise)] + later), k, observer)
    ensures var was := After(start, run).conns[k].slave.devs;
            var end := After(After(start, run), [SlaveApp(k, g, raise)] + later);
            was != [] && SeenAs(was[0].flag, end.conns[observer].slave.devs, k, g, raise)
  {
    InitInv(start);
    hide Inv, Init, Legal, After, Drained, SeenAs;
    RunKeeps(start, run);
    var net := After(start, run);
    ChangeStays(net, k, g, raise, later);
    DrainedShows(net.conns[k].slave.devs[0].flag, After(net, [SlaveApp(k, g, raise)] + later), k, g, raise, observer);
  }

  /** In every run the local port stays where `loc` says it is, in the master and in every
      slave, and no message from the master changes a slave's own entry. */
  lemma LocalPortStays(start: Net, run: seq<Action>, k: Key)
    requires Init(start) && Legal(start, run)
    ensures PortFirst(After(start, run).master, start.master.devs[0].key)
    ensures k in After(start, run).conns ==>
              var c := After(start, run).conns[k];
              && PortFirst(c.slave, k)
              && (c.down != [] ==> ApplyDown(c.slave, c.down[0]).loc == c.slave.loc
                                   && |ApplyDown(c.slave, c.down[0]).devs| > 0
                                   && ApplyDown(c.slave, c.down[0]).devs[0] == c.slave.devs[0])
  {
    InitInv(start);
    RunKeeps(start, run);
    MasterPortStays(start, run);
    var net := After(start, run);
    if k in net.conns {
      assert ConnOk(net.master.devs, k, net.conns[k]);
      if net.conns[k].down != [] {
        SlaveReceiveOk(k, net.conns[k]);
      }
    }
  }

  lemma ReceiveMasterPort(net: Net, k: Key, known: bool, name: string)
    requires Inv(net) && Enabled(net, MasterReceive(k, known, name))
    ensures var m := Step(net, MasterReceive(k, known, name)).master;
            |m.devs| > 0 && m.devs[0].key == net.master.devs[0].key
  {
    hide ConnOk, GoodUp, Broadcast;
  }

  lemma StepMasterPort(net: Net, a: Action)
    requires Inv(net) && Enabled(net, a)
    ensures |Step(net, a).master.devs| > 0 && Step(net, a).master.devs[0].key == net.master.devs[0].key
  {
    if a.MasterReceive? {
      ReceiveMasterPort(net, a.key, a.known, a.peName);
    } else if a.Disconnect? {
      assert ConnOk(net.master.devs, a.key, net.conns[a.key]);
      hide ConnOk;
      if net.conns[a.key].listed {
        CleanupMaster(net, a.key);
      } else {
        UnlistedGone(net, a.key);
      }
    }
  }

  /** The identity on file for a connection that is not listed is not in the directory. */
  lemma UnlistedGone(net: Net, k: Key)
    requires Inv(net) && k in net.conns && !net.conns[k].listed
    ensures Get(net.master.devs, PeerKey(k, net.conns[k])).None?
  {
    assert ConnOk(net.master.devs, k, net.conns[k]);
  }

  lemma {:induction false} MasterPortStays(net: Net, run: seq<Action>)
    requires Inv(net) && Legal(net, run)
    ensures Inv(After(net, run)) && PortFirst(After(net, run).master, net.master.devs[0].key)
    decreases |run|
  {
    if run != [] {
      StepKeeps(net, run[0]);
      StepMasterPort(net, run[0]);
      MasterPortStays(Step(net, run[0]), run[1..]);
    }
  }
}
