/** Why one broadcast brings one slave up to date: the messages a slave receives, applied
    to whatever its directory will be when it gets to them, leave it holding the master's
    view of every other device. */
module Convergence {
  import opened Options
  import opened Directory
  import opened Messages

  /** The entry a slave should hold for a device of the master's directory. */
  function View(d: Dev): Dev {
    Dev(d.key, HC_MP, false, AddFlag(d.flag), if d.isMast then MASTER_NAME else d.name)
  }

  function Want(devs: seq<Dev>, q: Key): Option<Dev> {
    var e := Get(devs, q);
    if e.Some? then Some(View(e.value)) else None
  }

  /** A slave directory that agrees with the master about every device but the slave itself. */
  ghost predicate Synced(devs: seq<Dev>, p: Key, d: Dir) {
    && Unique(d.devs) && PortFirst(d, p)
    && forall q :: q != p ==> Get(d.devs, q) == Want(devs, q)
  }

  /** A master directory: its own port first, then connected peers, with room to spare. */
  ghost predicate GoodMaster(devs: seq<Dev>) {
    && 0 < |devs| < MAX_DEVS && DistinctDids(devs)
    && devs[0].isMast && PortFlag(devs[0].flag)
    && forall i :: 1 <= i < |devs| ==> !devs[i].isMast && PeerFlag(devs[i].flag)
  }

  /** Every directory device but the master port has a line in the peers list. */
  ghost predicate AllListed(devs: seq<Dev>, dids: set<nat>) {
    forall i :: 1 <= i < |devs| ==> devs[i].key.did in dids
  }

  lemma GoodMasterIsUnique(devs: seq<Dev>)
    requires DistinctDids(devs)
    ensures Unique(devs)
  {
    forall i, j | 0 <= i < j < |devs| ensures devs[i].key != devs[j].key {
      assert devs[i].key.did != devs[j].key.did;
    }
  }

  // ------------------------------------------------------------------ counting entries

  ghost function Keys(devs: seq<Dev>): set<Key> {
    set i | 0 <= i < |devs| :: devs[i].key
  }

  lemma {:induction false} KeysCount(devs: seq<Dev>)
    ensures |Keys(devs)| <= |devs|
    ensures Unique(devs) ==> |Keys(devs)| == |devs|
    decreases |devs|
  {
    if devs != [] {
      var init, last := devs[..|devs| - 1], devs[|devs| - 1];
      KeysCount(init);
      assert Keys(devs) == Keys(init) + {last.key} by {
        assert forall i :: 0 <= i < |init| ==> devs[i] == init[i];
      }
      if Unique(devs) {
        assert last.key !in Keys(init);
      }
    }
  }

  /** A table without duplicates whose keys all occur in another is no longer than it. */
  lemma NoLonger(a: seq<Dev>, b: seq<Dev>)
    requires Unique(a)
    requires forall q :: Get(a, q).Some? ==> Get(b, q).Some?
    ensures |a| <= |b|
  {
    forall k | k in Keys(a) ensures k in Keys(b) {
      var i :| 0 <= i < |a| && a[i].key == k;
      assert Get(a, k).Some?;
      var e := Get(b, k).value;
      var j :| 0 <= j < |b| && b[j] == e;
    }
    KeysCount(a);
    KeysCount(b);
    SubsetSize(Keys(a), Keys(b));
  }

  lemma SubsetSize(a: set<Key>, b: set<Key>)
    requires a <= b
    ensures |a| <= |b|
  {
    assert |b| == |a| + |b - a| by { assert b == a + (b - a); }
  }

  // ------------------------------------------------------------------ one message

  /** How far an entry may be from the wanted one when a broadcast starts: an announcing
      broadcast finds it missing or right, a flag broadcast finds only the flag out of date. */
  predicate Near(add: bool, x: Option<Dev>, w: Option<Dev>) {
    if add then x == None || x == w
    else x.Some? == w.Some? && (x.Some? ==> x.value.(flag := w.value.flag) == w.value)
  }

  ghost predicate NearAll(add: bool, devs: seq<Dev>, p: Key, d: Dir) {
    && Unique(d.devs) && PortFirst(d, p)
    && forall q :: q != p ==> Near(add, Get(d.devs, q), Want(devs, q))
  }

  lemma WantIs(devs: seq<Dev>, i: nat)
    requires DistinctDids(devs) && i < |devs|
    ensures Want(devs, devs[i].key) == Some(View(devs[i]))
  {
    GoodMasterIsUnique(devs);
    FindIs(devs, i);
  }

  /** The message about the device at `src` carries that device's view. */
  lemma ItemCarriesView(devs: seq<Dev>, dids: set<nat>, add: bool, src: nat, t: nat)
    requires GoodMaster(devs) && AllListed(devs, dids) && 0 < t < |devs| && src < |devs| && src != t
    ensures var v := View(devs[src]);
            Item(devs, dids, add, src, t) == Some(Bearing(v, add))
  {
    UpdateCarriesAddFlag(devs[src]);
  }

  /** Getting one entry right and leaving the others alone keeps a directory near. */
  lemma NearStep(add: bool, devs: seq<Dev>, p: Key, d: Dir, r: Dir, v: Dev)
    requires NearAll(add, devs, p, d) && v.key != p && Want(devs, v.key) == Some(v)
    requires Unique(r.devs) && PortFirst(r, p) && Get(r.devs, v.key) == Some(v)
    requires forall q :: q != v.key ==> Get(r.devs, q) == Get(d.devs, q)
    ensures NearAll(add, devs, p, r)
  {
    hide Get, Want, Unique, PortFirst;
  }

  lemma AddIsView(d: Dir, devs: seq<Dev>, p: Key, v: Dev)
    requires NearAll(true, devs, p, d) && |devs| < MAX_DEVS && Get(devs, p).Some?
    requires v.key != p && !v.isMast && Want(devs, v.key) == Some(v)
    ensures var r := Add(d, v.key, v.hc, false, v.flag, v.name).0;
            && Unique(r.devs) && Get(r.devs, v.key) == Some(v)
            && forall q :: q != v.key ==> Get(r.devs, q) == Get(d.devs, q)
  {
    NoLonger(d.devs, devs);
    OrIdem(v.flag);
    hide Add;
    AddRefinesInsert(d, v.key, v.hc, false, v.flag, v.name);
  }

  lemma AddBringsView(d: Dir, devs: seq<Dev>, p: Key, v: Dev)
    requires NearAll(true, devs, p, d) && |devs| < MAX_DEVS && Get(devs, p).Some?
    requires v.key != p && !v.isMast && Want(devs, v.key) == Some(v)
    ensures var r := ApplyDown(d, ModAdd(v.key, v.hc, v.isMast, v.flag, v.name));
            NearAll(true, devs, p, r) && Get(r.devs, v.key) == Some(v)
            && forall q :: q != v.key ==> Get(r.devs, q) == Get(d.devs, q)
  {
    hide Add, Get, Want;
    var m := ModAdd(v.key, v.hc, v.isMast, v.flag, v.name);
    assert v.flag & ANY_FLAG == v.flag;
    AddIsView(d, devs, p, v);
    SpareStep(d, d, m, p);
    NearStep(true, devs, p, d, ApplyDown(d, m), v);
  }

  lemma UpdateBringsView(d: Dir, devs: seq<Dev>, p: Key, v: Dev)
    requires NearAll(false, devs, p, d)
    requires v.key != p && Want(devs, v.key) == Some(v)
    ensures var r := ApplyDown(d, FSet(v.key, v.flag));
            NearAll(false, devs, p, r) && Get(r.devs, v.key) == Some(v)
            && forall q :: q != v.key ==> Get(r.devs, q) == Get(d.devs, q)
  {
    var m := FSet(v.key, v.flag);
    assert v.flag & ANY_FLAG == v.flag;
    SetFlagRefinesUpdate(d, v.key, v.flag);
    SpareStep(d, d, m, p);
    NearStep(false, devs, p, d, ApplyDown(d, m), v);
  }

  function Bearing(v: Dev, add: bool): Down {
    if add then ModAdd(v.key, v.hc, v.isMast, v.flag, v.name) else FSet(v.key, v.flag)
  }

  lemma MessageBringsView(d: Dir, devs: seq<Dev>, add: bool, t: nat, src: nat)
    requires GoodMaster(devs) && t < |devs| && src < |devs| && src != t
    requires NearAll(add, devs, devs[t].key, d)
    ensures var v := View(devs[src]);
            var r := ApplyDown(d, Bearing(v, add));
            && NearAll(add, devs, devs[t].key, r) && Get(r.devs, v.key) == Some(v)
            && (forall q :: q != v.key ==> Get(r.devs, q) == Get(d.devs, q))
            && Spares(Bearing(v, add), devs[t].key)
  {
    GoodMasterIsUnique(devs);
    WantIs(devs, src);
    WantIs(devs, t);
    if add {
      AddBringsView(d, devs, devs[t].key, View(devs[src]));
    } else {
      UpdateBringsView(d, devs, devs[t].key, View(devs[src]));
    }
  }

  // ------------------------------------------------------------------ one broadcast

  /** The first `n` messages of a share are about the first `n` devices and spare the receiver. */
  ghost predicate Brought(d: Dir, devs: seq<Dev>, add: bool, t: nat, n: nat, share: seq<Down>)
    requires t < |devs| && n <= |devs|
  {
    var p, r := devs[t].key, ApplyAll(d, share);
    && NearAll(add, devs, p, r)
    && (forall i :: 0 <= i < n && i != t ==> Get(r.devs, devs[i].key) == Some(View(devs[i])))
    && AllSpare(share, p)
    && forall m :: m in share ==> !m.RespHello?
  }

  lemma {:induction false} ShareBrings(d: Dir, devs: seq<Dev>, dids: set<nat>, add: bool, t: nat, n: nat)
    requires GoodMaster(devs) && AllListed(devs, dids) && 0 < t < |devs| && n <= |devs|
    requires NearAll(add, devs, devs[t].key, d)
    ensures Brought(d, devs, add, t, n, Share(devs, dids, add, t, n))
    decreases n
  {
    if n > 0 {
      ShareBrings(d, devs, dids, add, t, n - 1);
      ShareStep(d, devs, dids, add, t, n, Share(devs, dids, add, t, n - 1));
    }
  }

  lemma ShareStep(d: Dir, devs: seq<Dev>, dids: set<nat>, add: bool, t: nat, n: nat, prev: seq<Down>)
    requires GoodMaster(devs) && AllListed(devs, dids) && 0 < t < |devs| && 0 < n <= |devs|
    requires Brought(d, devs, add, t, n - 1, prev)
    ensures Brought(d, devs, add, t, n, prev + Mail(Item(devs, dids, add, n - 1, t)))
  {
    hide ApplyAll, ApplyDown, NearAll, Get, Spares, AllListed, UpdateFlag, Announce;
    if n - 1 == t {
      assert prev + Mail(None) == prev;
    } else {
      ItemCarriesView(devs, dids, add, n - 1, t);
      hide Item;
      MessageBringsView(ApplyAll(d, prev), devs, add, t, n - 1);
      GoodMasterIsUnique(devs);
      BroughtSnoc(d, devs, add, t, n, prev, Bearing(View(devs[n - 1]), add));
    }
  }

  lemma BroughtSnoc(d: Dir, devs: seq<Dev>, add: bool, t: nat, n: nat, prev: seq<Down>, m: Down)
    requires Unique(devs) && t < |devs| && 0 < n <= |devs| && n - 1 != t
    requires Brought(d, devs, add, t, n - 1, prev)
    requires Spares(m, devs[t].key) && !m.RespHello?
    requires var r, v := ApplyDown(ApplyAll(d, prev), m), View(devs[n - 1]);
             && NearAll(add, devs, devs[t].key, r) && Get(r.devs, v.key) == Some(v)
             && forall q :: q != v.key ==> Get(r.devs, q) == Get(ApplyAll(d, prev).devs, q)
    ensures Brought(d, devs, add, t, n, prev + [m])
  {
    hide ApplyAll, ApplyDown, Get, NearAll;
    ApplyAllSnoc(d, prev, m);
  }

  /** A whole broadcast leaves the slave holding exactly the wanted entries. */
  lemma ShareSyncs(d: Dir, devs: seq<Dev>, dids: set<nat>, add: bool, t: nat)
    requires GoodMaster(devs) && AllListed(devs, dids) && 0 < t < |devs|
    requires NearAll(add, devs, devs[t].key, d)
    ensures Synced(devs, devs[t].key, ApplyAll(d, Share(devs, dids, add, t, |devs|)))
    ensures AllSpare(Share(devs, dids, add, t, |devs|), devs[t].key)
    ensures forall m :: m in Share(devs, dids, add, t, |devs|) ==> !m.RespHello?
  {
    ShareBrings(d, devs, dids, add, t, |devs|);
    var p, r := devs[t].key, ApplyAll(d, Share(devs, dids, add, t, |devs|));
    forall q | q != p ensures Get(r.devs, q) == Want(devs, q) {
      var i := Find(devs, q);
      if i < |devs| {
        WantIs(devs, i);
      }
    }
  }
}
