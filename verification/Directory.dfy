/** The device directory of a fabric-management daemon: the table of devices that the
    master and every slave publish in shared memory.

    The first half gives the directory's operations as functions on a value `Dir`; the
    replication protocol is stated over these.  The second half is the table itself, a
    fixed array searched and shifted in place, proved to compute exactly those functions.
 */
module Directory {
  import opened Options

  const MAX_DEVS: nat := 64

  const FLAG_OK: bv8 := 0x01
  const FLAG_MP: bv8 := 0x02
  const FLAG_OK_MP: bv8 := 0x03
  const NO_FLAG: bv8 := 0x00
  const ANY_FLAG: bv8 := 0xFF

  /** A device is identified by its component tag together with its device id.
      Device ids are compared by value only; their size is ignored. */
  datatype Key = Key(ct: nat, did: nat)

  datatype Dev = Dev(key: Key, hc: nat, isMast: bool, flag: bv8, name: string)

  /** What a zero-filled table slot reads as. */
  const ZERO_DEV := Dev(Key(0, 0), 0, false, 0, "")

  datatype Dir = Dir(devs: seq<Dev>, loc: nat)

  // ------------------------------------------------------------------ searching

  /** The first position holding `k`, or the length of the table. */
  function Find(devs: seq<Dev>, k: Key): (r: nat)
    ensures r <= |devs|
    ensures r < |devs| ==> devs[r].key == k
    ensures forall j :: 0 <= j < r ==> devs[j].key != k
  {
    if devs == [] || devs[0].key == k then 0 else 1 + Find(devs[1..], k)
  }

  function Get(devs: seq<Dev>, k: Key): (r: Option<Dev>)
    ensures r.Some? ==> r.value in devs && r.value.key == k
    ensures r.None? ==> forall j :: 0 <= j < |devs| ==> devs[j].key != k
  {
    var i := Find(devs, k);
    if i < |devs| then Some(devs[i]) else None
  }

  ghost predicate Unique(devs: seq<Dev>) {
    forall i, j :: 0 <= i < j < |devs| ==> devs[i].key != devs[j].key
  }

  lemma FindIs(devs: seq<Dev>, i: nat)
    requires Unique(devs) && i < |devs|
    ensures Find(devs, devs[i].key) == i
    ensures Get(devs, devs[i].key) == Some(devs[i])
  {
  }

  /** Under unique keys, looking up an entry's key gives that entry. */
  lemma GetIs(devs: seq<Dev>, k: Key, d: Dev)
    requires Unique(devs) && d in devs && d.key == k
    ensures Get(devs, k) == Some(d)
  {
    var i :| 0 <= i < |devs| && devs[i] == d;
    FindIs(devs, i);
  }

  // ------------------------------------------------------------------ operations as functions

  /** A flag with some bits raised or dropped. */
  function Changed(f: bv8, flag: bv8, raise: bool): bv8 { if raise then f | flag else f & !flag }

  /** Insert or update.  An update ORs the flag into the old one; an insert into a full
      table is refused.  The second component says whether the call succeeded. */
  function Add(d: Dir, k: Key, hc: nat, mast: bool, flag: bv8, name: string): (Dir, bool)
  {
    var i := Find(d.devs, k);
    if i < |d.devs| then
      (Dir(d.devs[i := Dev(k, hc, mast, Changed(d.devs[i].flag, flag, true), name)], if mast then i else d.loc), true)
    else if |d.devs| >= MAX_DEVS then
      (d, false)
    else
      (Dir(d.devs + [Dev(k, hc, mast, flag, name)], if mast then |d.devs| else d.loc), true)
  }

  function Without(devs: seq<Dev>, i: nat): (r: seq<Dev>)
    requires i < |devs|
    ensures |r| == |devs| - 1
    ensures forall j :: 0 <= j < |r| ==> r[j] == if j < i then devs[j] else devs[j + 1]
  {
    devs[..i] + devs[i + 1..]
  }

  /** Remove.  On a full table the entries are shifted and only then is the call refused,
      so the table keeps its length: the last slot is duplicated, or zero if it was the
      one removed. */
  function Del(d: Dir, k: Key): (Dir, bool)
  {
    var i := Find(d.devs, k);
    if i == |d.devs| then
      (d, false)
    else if |d.devs| >= MAX_DEVS then
      (Dir(Without(d.devs, i) + [if i + 1 == |d.devs| then ZERO_DEV else d.devs[|d.devs| - 1]], d.loc), false)
    else
      (Dir(Without(d.devs, i), d.loc), true)
  }

  function SetFlag(d: Dir, k: Key, flag: bv8): Dir
  {
    var i := Find(d.devs, k);
    if i < |d.devs| then Dir(d.devs[i := d.devs[i].(flag := flag)], d.loc) else d
  }

  /** An application on this node raises or drops a flag of the local port. */
  function ModMpFlag(d: Dir, flag: bv8, raise: bool): Dir
  {
    if flag == NO_FLAG || flag == ANY_FLAG || d.loc >= |d.devs| || !d.devs[d.loc].isMast then d
    else
      var e := d.devs[d.loc];
      Dir(d.devs[d.loc := e.(flag := Changed(e.flag, flag, raise))], d.loc)
  }

  predicate HasPort(d: Dir) { d.loc < |d.devs| && d.devs[d.loc].isMast }

  /** Raising a flag sets its bits in the local port's flag, and dropping it clears them; no other
      bit and no other entry changes. */
  lemma LocalChange(d: Dir, g: bv8, raise: bool)
    requires HasPort(d) && g != NO_FLAG && g != ANY_FLAG
    ensures var r, f := ModMpFlag(d, g, raise), d.devs[d.loc].flag;
            && r.loc == d.loc && |r.devs| == |d.devs|
            && (forall i :: 0 <= i < |d.devs| && i != d.loc ==> r.devs[i] == d.devs[i])
            && var f' := r.devs[d.loc].flag;
               && r.devs[d.loc] == d.devs[d.loc].(flag := f')
               && f' & g == (if raise then g else NO_FLAG) && f' | g == f | g
  {
  }

  /** Without a local port, and for no flag or all flags, nothing changes. */
  lemma LocalChangeRefused(d: Dir, g: bv8, raise: bool)
    requires !HasPort(d) || g == NO_FLAG || g == ANY_FLAG
    ensures ModMpFlag(d, g, raise) == d
  {
  }

  /** Raising a flag that no application had raised and dropping it again restores the directory. */
  lemma RaiseThenDrop(d: Dir, g: bv8)
    requires HasPort(d) && d.devs[d.loc].flag & g == NO_FLAG
    ensures ModMpFlag(ModMpFlag(d, g, true), g, false) == d
  {
    var e := d.devs[d.loc];
    RaisedAndDropped(e.flag, g);
    hide Changed;
    assert e.(flag := e.flag) == e && d.devs[d.loc := e] == d.devs;
  }

  lemma RaisedAndDropped(f: bv8, g: bv8)
    requires f & g == NO_FLAG
    ensures Changed(Changed(f, g, true), g, false) == f
  {
  }

  // ------------------------------------------------------------------ the finite map they implement

  /** With room to spare, `Add` is insert-or-update on the map from keys to entries: one
      key changes, keys stay unique, and every other entry keeps its position. */
  lemma AddRefinesInsert(d: Dir, k: Key, hc: nat, mast: bool, flag: bv8, name: string)
    requires Unique(d.devs)
    requires |d.devs| < MAX_DEVS || Get(d.devs, k).Some?
    ensures var r := Add(d, k, hc, mast, flag, name);
            && r.1
            && Unique(r.0.devs)
            && Get(r.0.devs, k)
               == Some(Dev(k, hc, mast, if Get(d.devs, k).Some? then Get(d.devs, k).value.flag | flag else flag, name))
            && (forall q :: q != k ==> Get(r.0.devs, q) == Get(d.devs, q))
            && |r.0.devs| == |d.devs| + (if Get(d.devs, k).Some? then 0 else 1)
            && (forall i :: 0 <= i < |d.devs| && d.devs[i].key != k ==> r.0.devs[i] == d.devs[i])
            && (if mast then r.0.loc < |r.0.devs| && r.0.devs[r.0.loc].key == k else r.0.loc == d.loc)
  {
    var i := Find(d.devs, k);
    if i < |d.devs| {
      ReplaceAt(d.devs, i, Dev(k, hc, mast, d.devs[i].flag | flag, name));
    } else {
      Append(d.devs, Dev(k, hc, mast, flag, name));
    }
  }

  /** Into a full table only an update succeeds; otherwise nothing changes. */
  lemma AddFullIff(d: Dir, k: Key, hc: nat, mast: bool, flag: bv8, name: string)
    ensures var r := Add(d, k, hc, mast, flag, name);
            && (r.1 <==> |d.devs| < MAX_DEVS || Get(d.devs, k).Some?)
            && (!r.1 ==> r.0 == d)
  {
    hide Changed;
  }

  lemma ReplaceAt(devs: seq<Dev>, i: nat, e: Dev)
    requires Unique(devs) && i < |devs| && e.key == devs[i].key
    ensures var r := devs[i := e];
            && Unique(r) && Get(r, e.key) == Some(e)
            && (forall q :: q != e.key ==> Get(r, q) == Get(devs, q))
  {
    var r := devs[i := e];
    FindIs(r, i);
    forall q | q != e.key ensures Get(r, q) == Get(devs, q) {
      SamePlaces(devs, r, e.key, q);
    }
  }

  lemma Append(devs: seq<Dev>, e: Dev)
    requires Unique(devs) && Get(devs, e.key).None?
    ensures var r := devs + [e];
            && Unique(r) && Get(r, e.key) == Some(e)
            && (forall q :: q != e.key ==> Get(r, q) == Get(devs, q))
  {
    var r := devs + [e];
    FindIs(r, |devs|);
    forall q | q != e.key ensures Get(r, q) == Get(devs, q) {
      SamePlaces(devs, r, e.key, q);
    }
  }

  lemma SamePlaces(a: seq<Dev>, b: seq<Dev>, k: Key, q: Key)
    requires q != k && |a| <= |b|
    requires forall i :: 0 <= i < |a| ==> a[i].key == b[i].key && (a[i].key != k ==> a[i] == b[i])
    requires forall i :: |a| <= i < |b| ==> b[i].key == k
    ensures Get(a, q) == Get(b, q)
  {
    var i, j := Find(a, q), Find(b, q);
    if i < |a| {
      assert b[i].key == q;
    }
    if j < |b| {
      assert b[j].key == q;
    }
  }

  lemma SameEntries(a: seq<Dev>, b: seq<Dev>, k: Key, q: Key)
    requires Unique(a) && Unique(b) && q != k
    requires forall d :: d in b ==> d in a
    requires forall d :: d in a && d.key != k ==> d in b
    ensures Get(a, q) == Get(b, q)
  {
    if Get(a, q).Some? {
      GetIs(b, q, Get(a, q).value);
    } else if Get(b, q).Some? {
      GetIs(a, q, Get(b, q).value);
    }
  }

  lemma WithoutRemoves(devs: seq<Dev>, i: nat, q: Key)
    requires Unique(devs) && i < |devs|
    ensures var r := Without(devs, i);
            Unique(r) && Get(r, q) == if q == devs[i].key then None else Get(devs, q)
  {
    var r := Without(devs, i);
    if q == devs[i].key {
      assert forall j :: 0 <= j < |r| ==> r[j].key != q;
    } else {
      forall e: Dev | e in devs && e.key != devs[i].key ensures e in r {
        var j :| 0 <= j < |devs| && devs[j] == e;
        assert r[if j < i then j else j - 1] == e;
      }
      SameEntries(devs, r, devs[i].key, q);
    }
  }

  /** With room to spare, `Del` is removal from the map, and the rest keeps its order. */
  lemma DelRefinesRemove(d: Dir, k: Key)
    requires Unique(d.devs) && |d.devs| < MAX_DEVS
    ensures var r := Del(d, k);
            && (r.1 <==> Get(d.devs, k).Some?)
            && Unique(r.0.devs)
            && Get(r.0.devs, k) == None
            && (forall q :: q != k ==> Get(r.0.devs, q) == Get(d.devs, q))
            && |r.0.devs| == |d.devs| - (if Get(d.devs, k).Some? then 1 else 0)
            && r.0.loc == d.loc && (Get(d.devs, k).None? ==> r.0 == d)
  {
    var i := Find(d.devs, k);
    if i < |d.devs| {
      hide Unique;
      WithoutRemoves(d.devs, i, k);
      forall q | q != k ensures Get(Without(d.devs, i), q) == Get(d.devs, q) {
        WithoutRemoves(d.devs, i, q);
      }
    }
  }

  lemma SetFlagRefinesUpdate(d: Dir, k: Key, flag: bv8)
    requires Unique(d.devs)
    ensures var r := SetFlag(d, k, flag).devs;
            && Unique(r) && |r| == |d.devs|
            && (Get(r, k) == if Get(d.devs, k).Some? then Some(Get(d.devs, k).value.(flag := flag)) else None)
            && (forall q :: q != k ==> Get(r, q) == Get(d.devs, q))
  {
    var i := Find(d.devs, k);
    if i < |d.devs| {
      ReplaceAt(d.devs, i, d.devs[i].(flag := flag));
    }
  }

  /** Deleting a present key is removal exactly when the table is not full: a full table
      keeps its length, so it still holds some entry once too often. */
  lemma DelIsRemovalIffNotFull(d: Dir, k: Key)
    requires Unique(d.devs) && |d.devs| <= MAX_DEVS && Get(d.devs, k).Some?
    ensures var r := Del(d, k).0.devs;
            (|r| == |d.devs| - 1 && Unique(r) && forall q :: Get(r, q) == if q == k then None else Get(d.devs, q))
            <==> |d.devs| < MAX_DEVS
  {
    if |d.devs| < MAX_DEVS {
      DelRefinesRemove(d, k);
    }
  }

  /** In a full table the entries behind the deleted one have moved up all the same when the call is
      refused; the last slot still holds the last entry, or nothing if that was the one deleted. */
  lemma FullDelShifts(d: Dir, k: Key)
    requires |d.devs| == MAX_DEVS && Get(d.devs, k).Some?
    ensures var r, i := Del(d, k), Find(d.devs, k);
            && !r.1 && r.0.loc == d.loc && |r.0.devs| == MAX_DEVS
            && (forall j :: 0 <= j < MAX_DEVS - 1 ==> r.0.devs[j] == d.devs[if j < i then j else j + 1])
            && r.0.devs[MAX_DEVS - 1] == if i == MAX_DEVS - 1 then ZERO_DEV else d.devs[MAX_DEVS - 1]
  {
  }

  // ------------------------------------------------------------------ the table itself

  class DeviceTable {
    const devs: array<Dev>
    var num: nat
    var loc: nat

    ghost predicate Valid()
      reads this
    {
      devs.Length == MAX_DEVS && num <= MAX_DEVS
    }

    ghost function Model(): Dir
      requires Valid()
      reads this, devs
    {
      Dir(devs[..num], loc)
    }

    constructor ()
      ensures Valid() && Model() == Dir([], 0)
    {
      devs := new Dev[MAX_DEVS](_ => ZERO_DEV);
      num, loc := 0, 0;
    }

    method AddDevice(k: Key, hc: nat, mast: bool, flag: bv8, name: string) returns (ok: bool)
      requires Valid()
      modifies this, devs
      ensures Valid()
      ensures (Model(), ok) == Add(old(Model()), k, hc, mast, flag, name)
    {
      hide Find, Changed;
      var idx := Search(k);
      if idx < num {
        Store(idx, Dev(k, hc, mast, Changed(devs[idx].flag, flag, true), name));
        if mast { loc := idx; }
        return true;
      }
      if num >= MAX_DEVS { return false; }
      AddEntry(Dev(k, hc, mast, flag, name));
      return true;
    }

    /** Put a new entry behind the last; a master port is remembered as the local one. */
    method AddEntry(d: Dev)
      requires Valid() && num < MAX_DEVS
      modifies this, devs
      ensures Valid() && Model() == Dir(old(devs[..num]) + [d], if d.isMast then old(num) else old(loc))
    {
      if d.isMast { loc := num; }
      num := num + 1;
      Store(num - 1, d);
    }

    method Store(i: nat, d: Dev)
      requires Valid() && i < num
      modifies devs
      ensures Valid() && devs[..num] == old(devs[..num])[i := d]
      ensures i == num - 1 ==> devs[..num] == old(devs[..num - 1]) + [d]
    {
      devs[i] := d;
    }

    method Search(k: Key) returns (idx: nat)
      requires Valid()
      ensures idx == Find(devs[..num], k)
    {
      idx := 0;
      while idx < num && devs[idx].key != k
        invariant idx <= num
        invariant forall j :: 0 <= j < idx ==> devs[j].key != k
      {
        idx := idx + 1;
      }
    }

    method DelDevice(k: Key) returns (ok: bool)
      requires Valid()
      modifies this, devs
      ensures Valid()
      ensures (Model(), ok) == Del(old(Model()), k)
    {
      hide Find;
      var found := Search(k);
      if found == num { return false; }
      CloseGap(found);
      hide Without;
      if num >= MAX_DEVS {
        return false;
      }
      num := num - 1;
      return true;
    }

    /** Blank the entry at `found` and move everything after it one place down. */
    method CloseGap(found: nat)
      requires Valid() && found < num
      modifies devs
      ensures Valid() && devs[..num - 1] == Without(old(devs[..num]), found)
      ensures devs[..num] == devs[..num - 1] + [if found + 1 == num then ZERO_DEV else old(devs[..num][num - 1])]
    {
      devs[found] := ZERO_DEV;
      ShiftDown(found);
    }

    method ShiftDown(found: nat)
      requires Valid() && found < num
      modifies devs
      ensures forall j :: 0 <= j < found ==> devs[j] == old(devs[j])
      ensures forall j :: found <= j < num - 1 ==> devs[j] == old(devs[j + 1])
      ensures devs[num - 1] == old(devs[num - 1])
    {
      var idx := found;
      while idx + 1 < num
        invariant found <= idx < num
        invariant forall j :: 0 <= j < found ==> devs[j] == old(devs[j])
        invariant forall j :: found <= j < idx ==> devs[j] == old(devs[j + 1])
        invariant forall j :: idx <= j < num ==> devs[j] == old(devs[j])
      {
        devs[idx] := devs[idx + 1];
        idx := idx + 1;
      }
    }

    method SetDeviceFlag(k: Key, flag: bv8) returns (found: bool)
      requires Valid()
      modifies devs
      ensures Valid()
      ensures found <==> Get(old(devs[..num]), k).Some?
      ensures Model() == SetFlag(old(Model()), k, flag)
    {
      var i := Search(k);
      found := i < num;
      if found {
        devs[i] := devs[i].(flag := flag);
      }
    }

    method ChangeLocalFlag(flag: bv8, raise: bool)
      requires Valid()
      modifies devs
      ensures Valid() && Model() == ModMpFlag(old(Model()), flag, raise)
    {
      hide Changed;
      if flag == NO_FLAG || flag == ANY_FLAG { return; }
      var i := loc;
      if i >= num { return; }
      var e := devs[i];
      if e.isMast {
        Store(i, e.(flag := Changed(e.flag, flag, raise)));
      }
    }
  }
}
