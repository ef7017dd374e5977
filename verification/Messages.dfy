/** The messages between the master daemon and its slaves, what a slave does with each
    one, and which messages a master broadcast puts on which connection. */
module Messages {
  import opened Options
  import opened Directory

  const HC_MP: nat := 0xFF
  const MASTER_NAME: string := "FMD_MAST"
  const MPORT_NAME: string := "MPORT0"

  datatype Down =
    | RespHello(ok: bool)
    | ModAdd(key: Key, hc: nat, isMp: bool, flag: bv8, name: string)
    | ModDel(key: Key)
    | FSet(key: Key, flag: bv8)

  datatype Up = Hello | RespMod | FSetUp(key: Key, flag: bv8)

  // ------------------------------------------------------------------ flags

  /** The flag an ADD carries: the application bits, marked OK and not a master port. */
  function AddFlag(f: bv8): bv8 { (f & !FLAG_OK_MP) | FLAG_OK }

  /** The flag a flag update carries: the master port loses its port bit. */
  function UpdateFlag(d: Dev): bv8 { if d.isMast then d.flag & !FLAG_MP else d.flag }

  /** Flags of a healthy port entry, and of a healthy entry for another node. */
  predicate PortFlag(f: bv8) { f & FLAG_OK_MP == FLAG_OK_MP }
  predicate PeerFlag(f: bv8) { AddFlag(f) == f }
  predicate AppFlag(f: bv8) { f & FLAG_OK_MP == NO_FLAG }

  /** An ADD carries the application bits as they are, the OK bit, and not the port bit. */
  lemma AddFlagBits(f: bv8)
    ensures AddFlag(f) & !FLAG_OK_MP == f & !FLAG_OK_MP && AddFlag(f) & FLAG_OK_MP == FLAG_OK
  {
  }

  lemma AddFlagIsPeerFlag(f: bv8)
    ensures PeerFlag(AddFlag(f))
  {
  }

  lemma UpdateCarriesAddFlag(d: Dev)
    requires if d.isMast then PortFlag(d.flag) else PeerFlag(d.flag)
    ensures UpdateFlag(d) == AddFlag(d.flag)
  {
  }

  lemma AppFlagKeepsPort(f: bv8, g: bv8)
    requires PortFlag(f) && AppFlag(g)
    ensures PortFlag(f | g) && PortFlag(f & !g)
  {
  }

  lemma OrIdem(f: bv8)
    ensures f | f == f
  {
  }

  // ------------------------------------------------------------------ the slave's side

  function ApplyDown(d: Dir, m: Down): Dir {
    match m
    case RespHello(_) => d
    case ModAdd(k, hc, isMp, flag, name) => Add(d, k, hc, isMp, flag & ANY_FLAG, name).0
    case ModDel(k) => Del(d, k).0
    case FSet(k, flag) => SetFlag(d, k, flag & ANY_FLAG)
  }

  function ApplyAll(d: Dir, ms: seq<Down>): Dir
    decreases |ms|
  {
    if ms == [] then d else ApplyAll(ApplyDown(d, ms[0]), ms[1..])
  }

  lemma {:induction false} ApplyAllSplit(d: Dir, a: seq<Down>, b: seq<Down>)
    ensures ApplyAll(d, a + b) == ApplyAll(ApplyAll(d, a), b)
    decreases |a|
  {
    if a == [] {
      assert a + b == b;
    } else {
      assert (a + b)[1..] == a[1..] + b;
      ApplyAllSplit(ApplyDown(d, a[0]), a[1..], b);
    }
  }

  lemma ApplyAllSnoc(d: Dir, a: seq<Down>, m: Down)
    ensures ApplyAll(d, a + [m]) == ApplyDown(ApplyAll(d, a), m)
  {
    ApplyAllSplit(d, a, [m]);
  }

  /** The message does not concern `p`'s own entry. */
  predicate Spares(m: Down, p: Key) {
    match m
    case RespHello(_) => true
    case ModAdd(k, _, isMp, _, _) => k != p && !isMp
    case ModDel(k) => k != p
    case FSet(k, _) => k != p
  }

  ghost predicate AllSpare(ms: seq<Down>, p: Key) {
    forall i :: 0 <= i < |ms| ==> Spares(ms[i], p)
  }

  /** The local port sits first in the table and `loc` designates it. */
  predicate PortFirst(d: Dir, p: Key) {
    d.loc == 0 && |d.devs| > 0 && d.devs[0].key == p && d.devs[0].isMast
  }

  /** Equal but for the flag, name and hop count of the first entry. */
  predicate SameButFirst(a: Dir, b: Dir) {
    && a.loc == b.loc && |a.devs| == |b.devs| > 0
    && a.devs[0].key == b.devs[0].key && a.devs[0].isMast == b.devs[0].isMast
    && forall i :: 1 <= i < |a.devs| ==> a.devs[i] == b.devs[i]
  }

  lemma {:induction false} FindSameKeys(a: seq<Dev>, b: seq<Dev>, k: Key)
    requires |a| == |b| && forall i :: 0 <= i < |a| ==> a[i].key == b[i].key
    ensures Find(a, k) == Find(b, k)
  {
    var i, j := Find(a, k), Find(b, k);
    assert i < |a| ==> b[i].key == k;
    assert j < |b| ==> a[j].key == k;
  }

  lemma SpareAdd(a: Dir, b: Dir, k: Key, hc: nat, flag: bv8, name: string)
    requires SameButFirst(a, b) && a.devs[0].key != k
    ensures var x, y := Add(a, k, hc, false, flag, name).0, Add(b, k, hc, false, flag, name).0;
            SameButFirst(x, y) && x.loc == a.loc && x.devs[0] == a.devs[0] && y.devs[0] == b.devs[0]
    ensures forall p :: PortFirst(a, p) ==> PortFirst(Add(a, k, hc, false, flag, name).0, p)
  {
    FindSameKeys(a.devs, b.devs, k);
  }

  lemma SpareDel(a: Dir, b: Dir, k: Key)
    requires SameButFirst(a, b) && a.devs[0].key != k
    ensures var x, y := Del(a, k).0, Del(b, k).0;
            SameButFirst(x, y) && x.loc == a.loc && x.devs[0] == a.devs[0] && y.devs[0] == b.devs[0]
    ensures forall p :: PortFirst(a, p) ==> PortFirst(Del(a, k).0, p)
  {
    hide Find;
    FindSameKeys(a.devs, b.devs, k);
  }

  lemma SpareSet(a: Dir, b: Dir, k: Key, flag: bv8)
    requires SameButFirst(a, b) && a.devs[0].key != k
    ensures var x, y := SetFlag(a, k, flag), SetFlag(b, k, flag);
            SameButFirst(x, y) && x.loc == a.loc && x.devs[0] == a.devs[0] && y.devs[0] == b.devs[0]
    ensures forall p :: PortFirst(a, p) ==> PortFirst(SetFlag(a, k, flag), p)
  {
    FindSameKeys(a.devs, b.devs, k);
  }

  /** A sparing message leaves the first entry alone, and reads nothing of it but its key. */
  lemma SpareStep(a: Dir, b: Dir, m: Down, p: Key)
    requires PortFirst(a, p) && SameButFirst(a, b) && Spares(m, p)
    ensures PortFirst(ApplyDown(a, m), p)
    ensures ApplyDown(a, m).devs[0] == a.devs[0] && ApplyDown(b, m).devs[0] == b.devs[0]
    ensures SameButFirst(ApplyDown(a, m), ApplyDown(b, m))
  {
    assert a.devs[0].key == p;
    hide Add, Del, SetFlag, SameButFirst, PortFirst;
    match m
    case RespHello(_) =>
    case ModAdd(k, hc, _, flag, name) => SpareAdd(a, b, k, hc, flag & ANY_FLAG, name);
    case ModDel(k) => SpareDel(a, b, k);
    case FSet(k, flag) => SpareSet(a, b, k, flag & ANY_FLAG);
  }

  lemma {:induction false} SpareAll(a: Dir, b: Dir, ms: seq<Down>, p: Key)
    requires PortFirst(a, p) && SameButFirst(a, b) && AllSpare(ms, p)
    ensures PortFirst(ApplyAll(a, ms), p)
    ensures SameButFirst(ApplyAll(a, ms), ApplyAll(b, ms))
    ensures ApplyAll(a, ms).devs[0] == a.devs[0] && ApplyAll(b, ms).devs[0] == b.devs[0]
    decreases |ms|
  {
    if ms != [] {
      SpareStep(a, b, ms[0], p);
      SpareAll(ApplyDown(a, ms[0]), ApplyDown(b, ms[0]), ms[1..], p);
    }
  }

  // ------------------------------------------------------------------ the master's side

  /** The transmit side of every connection in the peers list, by device id. */
  type Lines = map<nat, seq<Down>>

  /** The ADD announcing `dev` to the peer with id `did`, if one is sent: `dids` are the ids
      in the peers list, and only the master port, the peer itself and other listed
      peers are announced. */
  function Announce(did: nat, dev: Dev, dids: set<nat>): Option<Down> {
    var flag := AddFlag(dev.flag);
    if dev.isMast then Some(ModAdd(dev.key, HC_MP, false, flag, MASTER_NAME))
    else if dev.key.did == did then Some(ModAdd(dev.key, HC_MP, true, flag | FLAG_OK_MP, MPORT_NAME))
    else if dev.key.did in dids then Some(ModAdd(dev.key, HC_MP, false, flag, dev.name))
    else None
  }

  /** What the inner loop body of a broadcast sends for one source and one target. */
  function Item(devs: seq<Dev>, dids: set<nat>, add: bool, src: nat, tgt: nat): Option<Down>
    requires src < |devs| && tgt < |devs|
  {
    var did := devs[tgt].key.did;
    if src == tgt || devs[tgt].isMast || did !in dids then None
    else if add then Announce(did, devs[src], dids)
    else Some(FSet(devs[src].key, UpdateFlag(devs[src])))
  }

  function Mail(m: Option<Down>): seq<Down> {
    if m.Some? then [m.value] else []
  }

  lemma DeliverNothing(lines: Lines, did: nat)
    ensures Deliver(lines, did, None) == lines
  {
    var r := Deliver(lines, did, None);
    assert forall d :: d in lines ==> r[d] == lines[d];
  }

  function Deliver(lines: Lines, did: nat, m: Option<Down>): (r: Lines)
    ensures r.Keys == lines.Keys
    ensures forall d :: d in lines ==> r[d] == if d == did then lines[d] + Mail(m) else lines[d]
  {
    if did in lines then lines[did := lines[did] + Mail(m)] else lines
  }

  function Row(lines: Lines, devs: seq<Dev>, add: bool, src: nat, n: nat): (r: Lines)
    requires src < |devs| && n <= |devs|
    ensures r.Keys == lines.Keys
    decreases n
  {
    if n == 0 then lines
    else Deliver(Row(lines, devs, add, src, n - 1), devs[n - 1].key.did, Item(devs, lines.Keys, add, src, n - 1))
  }

  lemma RowStart(lines: Lines, devs: seq<Dev>, add: bool, src: nat)
    requires src < |devs|
    ensures Row(lines, devs, add, src, 0) == lines
  {
  }

  lemma RowNext(lines: Lines, devs: seq<Dev>, add: bool, src: nat, n: nat)
    requires src < |devs| && n < |devs|
    ensures var now := Row(lines, devs, add, src, n);
            Row(lines, devs, add, src, n + 1) == Deliver(now, devs[n].key.did, Item(devs, now.Keys, add, src, n))
  {
  }

  function Rows(lines: Lines, devs: seq<Dev>, add: bool, n: nat): (r: Lines)
    requires n <= |devs|
    ensures r.Keys == lines.Keys
    decreases n
  {
    if n == 0 then lines else Row(Rows(lines, devs, add, n - 1), devs, add, n - 1, |devs|)
  }

  /** One broadcast: for every source, for every target, send the message if there is one. */
  function Broadcast(lines: Lines, devs: seq<Dev>, add: bool): (r: Lines)
    ensures r.Keys == lines.Keys
  {
    Rows(lines, devs, add, |devs|)
  }

  ghost predicate DistinctDids(devs: seq<Dev>) {
    forall i, j :: 0 <= i < j < |devs| ==> devs[i].key.did != devs[j].key.did
  }

  /** What a broadcast sends to the device at position `t`: one message per other device. */
  function Share(devs: seq<Dev>, dids: set<nat>, add: bool, t: nat, n: nat): seq<Down>
    requires t < |devs| && n <= |devs|
    decreases n
  {
    if n == 0 then [] else Share(devs, dids, add, t, n - 1) + Mail(Item(devs, dids, add, n - 1, t))
  }

  lemma RowMiss(lines: Lines, devs: seq<Dev>, add: bool, src: nat, t: nat, n: nat)
    requires DistinctDids(devs) && src < |devs| && t < |devs| && n < |devs| && n != t
    requires devs[t].key.did in lines
    ensures Row(lines, devs, add, src, n + 1)[devs[t].key.did] == Row(lines, devs, add, src, n)[devs[t].key.did]
  {
    assert devs[n].key.did != devs[t].key.did;
    hide Item, Mail;
    RowNext(lines, devs, add, src, n);
    hide Row;
  }

  predicate Grown(after: seq<Down>, before: seq<Down>, more: seq<Down>) { after == before + more }

  lemma RowHit(lines: Lines, devs: seq<Dev>, add: bool, src: nat, t: nat)
    requires src < |devs| && t < |devs| && devs[t].key.did in lines
    ensures Grown(Row(lines, devs, add, src, t + 1)[devs[t].key.did], Row(lines, devs, add, src, t)[devs[t].key.did],
                  Mail(Item(devs, lines.Keys, add, src, t)))
  {
    hide Item, Mail;
    RowNext(lines, devs, add, src, t);
    assert Row(lines, devs, add, src, t).Keys == lines.Keys;
    hide Row;
  }

  /** Before its turn a target's line is untouched. */
  lemma {:induction false} RowWaits(lines: Lines, devs: seq<Dev>, add: bool, src: nat, t: nat, n: nat)
    requires DistinctDids(devs) && src < |devs| && n <= t < |devs| && devs[t].key.did in lines
    ensures Row(lines, devs, add, src, n)[devs[t].key.did] == lines[devs[t].key.did]
    decreases n
  {
    if n == 0 {
      RowStart(lines, devs, add, src);
    } else {
      hide Row, DistinctDids;
      RowWaits(lines, devs, add, src, t, n - 1);
      RowMiss(lines, devs, add, src, t, n - 1);
    }
  }

  /** After its turn it has grown by its message. */
  lemma {:induction false} RowShare(lines: Lines, devs: seq<Dev>, add: bool, src: nat, t: nat, n: nat)
    requires DistinctDids(devs) && src < |devs| && t < n <= |devs| && devs[t].key.did in lines
    ensures Grown(Row(lines, devs, add, src, n)[devs[t].key.did], lines[devs[t].key.did],
                  Mail(Item(devs, lines.Keys, add, src, t)))
    decreases n
  {
    hide Row, Item, Mail, Grown, DistinctDids;
    if n == t + 1 {
      RowWaits(lines, devs, add, src, t, t);
      RowHit(lines, devs, add, src, t);
    } else {
      RowShare(lines, devs, add, src, t, n - 1);
      RowMiss(lines, devs, add, src, t, n - 1);
    }
  }

  lemma GrownTwice(a: seq<Down>, b: seq<Down>, c: seq<Down>, x: seq<Down>, y: seq<Down>)
    requires Grown(b, a, x) && Grown(c, b, y)
    ensures Grown(c, a, x + y)
  {
  }

  lemma RowsStart(lines: Lines, devs: seq<Dev>, add: bool, t: nat, d: nat)
    requires t < |devs| && d in lines
    ensures Grown(Rows(lines, devs, add, 0)[d], lines[d], Share(devs, lines.Keys, add, t, 0))
  {
  }

  lemma RowsNext(lines: Lines, devs: seq<Dev>, add: bool, t: nat, n: nat)
    requires t < |devs| && n < |devs|
    ensures Rows(lines, devs, add, n + 1) == Row(Rows(lines, devs, add, n), devs, add, n, |devs|)
    ensures Share(devs, lines.Keys, add, t, n + 1)
            == Share(devs, lines.Keys, add, t, n) + Mail(Item(devs, lines.Keys, add, n, t))
    ensures Rows(lines, devs, add, n).Keys == lines.Keys
  {
    hide Row, Item, Mail;
  }

  lemma {:induction false} RowsShare(lines: Lines, devs: seq<Dev>, add: bool, t: nat, n: nat)
    requires DistinctDids(devs) && t < |devs| && n <= |devs|
    requires devs[t].key.did in lines
    ensures Grown(Rows(lines, devs, add, n)[devs[t].key.did], lines[devs[t].key.did], Share(devs, lines.Keys, add, t, n))
    decreases n
  {
    hide Row, Rows, Share, Item, Mail, DistinctDids, Grown;
    var d := devs[t].key.did;
    if n == 0 {
      RowsStart(lines, devs, add, t, d);
    } else {
      var before := Rows(lines, devs, add, n - 1);
      RowsNext(lines, devs, add, t, n - 1);
      RowsShare(lines, devs, add, t, n - 1);
      RowShare(before, devs, add, n - 1, t, |devs|);
      GrownTwice(lines[d], before[d], Rows(lines, devs, add, n)[d],
                 Share(devs, lines.Keys, add, t, n - 1), Mail(Item(devs, lines.Keys, add, n - 1, t)));
    }
  }

  /** A broadcast appends to each directory device's line its share, whatever the loop order. */
  lemma BroadcastShare(lines: Lines, devs: seq<Dev>, add: bool, t: nat)
    requires DistinctDids(devs) && t < |devs| && devs[t].key.did in lines
    ensures Broadcast(lines, devs, add)[devs[t].key.did] == lines[devs[t].key.did] + Share(devs, lines.Keys, add, t, |devs|)
  {
    RowsShare(lines, devs, add, t, |devs|);
  }
}
