/** The doubly linked list with keys that holds peers, switches to search and unconfigured
    ports.  Operations are given as functions on the sequence of entries; the class carries
    them out on linked nodes. */
module KeyedList {
  import opened Options

  datatype Entry = Entry(key: nat, item: nat)

  // ------------------------------------------------------------------ operations

  function FirstAbove(s: seq<Entry>, key: nat, i: nat): (r: nat)
    requires i <= |s|
    ensures i <= r <= |s| && (r < |s| ==> s[r].key > key)
    ensures forall j :: i <= j < r ==> s[j].key <= key
    decreases |s| - i
  {
    if i == |s| || s[i].key > key then i else FirstAbove(s, key, i + 1)
  }

  /** Where a key goes: at the end if the last key allows it, at the front if the first is
      above it, otherwise before the first key above it after the front. */
  function Place(s: seq<Entry>, key: nat): (r: nat)
    ensures r <= |s|
  {
    if s == [] || s[|s| - 1].key <= key then |s|
    else if s[0].key > key then 0
    else FirstAbove(s, key, 1)
  }

  function InsertAt(s: seq<Entry>, i: nat, e: Entry): seq<Entry>
    requires i <= |s|
  {
    s[..i] + [e] + s[i..]
  }

  function Insert(s: seq<Entry>, e: Entry): seq<Entry> { InsertAt(s, Place(s, e.key), e) }

  function RemoveAt(s: seq<Entry>, i: nat): seq<Entry>
    requires i < |s|
  {
    s[..i] + s[i + 1..]
  }

  function FirstWith(s: seq<Entry>, key: nat, i: nat): (r: nat)
    requires i <= |s|
    ensures i <= r <= |s| && (r < |s| ==> s[r].key == key)
    ensures forall j :: i <= j < r ==> s[j].key != key
    decreases |s| - i
  {
    if i == |s| || s[i].key == key then i else FirstWith(s, key, i + 1)
  }

  // ------------------------------------------------------------------ runs

  function Items(s: seq<Entry>): (r: seq<nat>)
    ensures |r| == |s| && forall i :: 0 <= i < |s| ==> r[i] == s[i].item
  {
    seq(|s|, i requires 0 <= i < |s| => s[i].item)
  }

  datatype Op = Push(item: nat) | Pop | Add(key: nat, item: nat) | Remove(index: nat)

  function Step(s: seq<Entry>, op: Op): seq<Entry> {
    match op
    case Push(item) => s + [Entry(0, item)]
    case Pop => if s == [] then [] else s[1..]
    case Add(key, item) => Insert(s, Entry(key, item))
    case Remove(i) => if i < |s| then RemoveAt(s, i) else s
  }

  ghost function After(s: seq<Entry>, run: seq<Op>): seq<Entry>
    decreases |run|
  {
    if run == [] then s else After(Step(s, run[0]), run[1..])
  }

  ghost predicate Sorted(s: seq<Entry>) { forall i, j :: 0 <= i < j < |s| ==> s[i].key <= s[j].key }

  /** In order of key, and of items where keys are equal. */
  ghost predicate Ordered(s: seq<Entry>) {
    forall i, j :: 0 <= i < j < |s| ==> Before(s[i], s[j])
  }

  ghost predicate Below(s: seq<Entry>, bound: nat) { forall i :: 0 <= i < |s| ==> s[i].item < bound }

  ghost predicate NoPushes(run: seq<Op>) { forall i :: 0 <= i < |run| ==> !run[i].Push? }

  ghost predicate Before(a: Entry, b: Entry) { a.key < b.key || (a.key == b.key && a.item < b.item) }

  lemma PlaceSplits(s: seq<Entry>, key: nat)
    requires Ordered(s)
    ensures forall i :: 0 <= i < Place(s, key) ==> s[i].key <= key
    ensures forall i :: Place(s, key) <= i < |s| ==> s[i].key > key
  {
    var k := Place(s, key);
    forall i | 0 <= i < |s| ensures if i < k then s[i].key <= key else s[i].key > key {
      if i < k {
        assert k == |s| ==> i == |s| - 1 || Before(s[i], s[|s| - 1]);
      } else {
        assert i == k || Before(s[k], s[i]);
      }
    }
  }

  function Shifted(s: seq<Entry>, k: nat, e: Entry, i: nat): Entry
    requires k <= |s| && i <= |s|
  {
    if i < k then s[i] else if i == k then e else s[i - 1]
  }

  lemma InsertOrdered(s: seq<Entry>, e: Entry)
    requires Ordered(s) && Below(s, e.item)
    ensures Ordered(Insert(s, e)) && Below(Insert(s, e), e.item + 1)
  {
    PlaceSplits(s, e.key);
    var k := Place(s, e.key);
    var t := Insert(s, e);
    assert t == InsertAt(s, k, e);
    forall i | 0 <= i < |t| ensures t[i] == Shifted(s, k, e, i) && t[i].item <= e.item {
    }
    hide Place, Insert, InsertAt;
    forall i, j | 0 <= i < j < |t| ensures Before(t[i], t[j]) {
      assert t[i] == Shifted(s, k, e, i) && t[j] == Shifted(s, k, e, j);
    }
  }

  lemma StepOrdered(s: seq<Entry>, op: Op, bound: nat)
    requires Ordered(s) && Below(s, bound) && !op.Push? && (op.Add? ==> bound <= op.item)
    ensures Ordered(Step(s, op)) && Below(Step(s, op), if op.Add? then op.item + 1 else bound)
  {
    if op.Add? {
      InsertOrdered(s, Entry(op.key, op.item));
    }
  }

  // ------------------------------------------------------------------ stamps in place of items

  /** The same list with the entries numbered from the head. */
  function Stamped(s: seq<Entry>): (r: seq<Entry>)
    ensures |r| == |s| && forall i :: 0 <= i < |s| ==> r[i] == Entry(s[i].key, i)
  {
    seq(|s|, i requires 0 <= i < |s| => Entry(s[i].key, i))
  }

  /** The same run with the additions numbered on. */
  function StampRun(run: seq<Op>, n: nat): seq<Op> {
    if run == [] then []
    else if run[0].Add? then [Add(run[0].key, n)] + StampRun(run[1..], n + 1)
    else [run[0]] + StampRun(run[1..], n)
  }

  function Added(run: seq<Op>): seq<nat> {
    if run == [] then [] else if run[0].Add? then [run[0].item] + Added(run[1..]) else Added(run[1..])
  }

  function Name(names: seq<nat>, stamp: nat): nat { if stamp < |names| then names[stamp] else 0 }

  /** Items in place of stamps. */
  function Named(s: seq<Entry>, names: seq<nat>): (r: seq<Entry>)
    ensures |r| == |s| && forall i :: 0 <= i < |s| ==> r[i] == Entry(s[i].key, Name(names, s[i].item))
  {
    seq(|s|, i requires 0 <= i < |s| => Entry(s[i].key, Name(names, s[i].item)))
  }

  lemma {:induction false} SameFirstAbove(s: seq<Entry>, t: seq<Entry>, key: nat, i: nat)
    requires |s| == |t| && i <= |s| && forall j :: 0 <= j < |s| ==> s[j].key == t[j].key
    ensures FirstAbove(s, key, i) == FirstAbove(t, key, i)
    decreases |s| - i
  {
    if i < |s| {
      SameFirstAbove(s, t, key, i + 1);
    }
  }

  /** Where an entry goes does not depend on items. */
  lemma NamedInsert(s: seq<Entry>, e: Entry, names: seq<nat>)
    ensures Insert(Named(s, names), Entry(e.key, Name(names, e.item))) == Named(Insert(s, e), names)
  {
    if s != [] {
      SameFirstAbove(s, Named(s, names), e.key, 1);
    }
    var k := Place(s, e.key);
    assert Place(Named(s, names), e.key) == k;
    hide Place, Name;
    assert InsertAt(Named(s, names), k, Entry(e.key, Name(names, e.item))) == Named(InsertAt(s, k, e), names);
  }

  lemma NamedRemove(s: seq<Entry>, i: nat, names: seq<nat>)
    requires i < |s|
    ensures RemoveAt(Named(s, names), i) == Named(RemoveAt(s, i), names)
  {
    hide Name;
  }

  lemma NamedStep(s: seq<Entry>, op: Op, op': Op, names: seq<nat>)
    requires !op.Push? && if op.Add? then op'.Add? && op'.key == op.key && Name(names, op'.item) == op.item else op' == op
    ensures Step(Named(s, names), op) == Named(Step(s, op'), names)
  {
    hide Insert, RemoveAt, Name;
    match op
    case Add(key, item) => NamedInsert(s, Entry(key, op'.item), names);
    case Remove(i) =>
      if i < |s| {
        NamedRemove(s, i, names);
      }
    case Pop =>
  }

  lemma {:induction false} NamedRun(s: seq<Entry>, run: seq<Op>, n: nat, names: seq<nat>)
    requires NoPushes(run) && n <= |names| && names[n..] == Added(run)
    ensures After(Named(s, names), run) == Named(After(s, StampRun(run, n)), names)
    decreases |run|
  {
    if run != [] {
      var op, op' := run[0], StampRun(run, n)[0];
      if op.Add? {
        assert names[n] == names[n..][0] && names[n + 1..] == names[n..][1..];
      }
      assert StampRun(run, n)[1..] == StampRun(run[1..], if op.Add? then n + 1 else n);
      NamedStep(s, op, op', names);
      NamedRun(Step(s, op'), run[1..], if op.Add? then n + 1 else n, names);
    }
  }

  lemma {:induction false} StampedRun(s: seq<Entry>, run: seq<Op>, n: nat)
    requires Ordered(s) && Below(s, n) && NoPushes(run)
    ensures Ordered(After(s, StampRun(run, n)))
    decreases |run|
  {
    if run != [] {
      var op, m := StampRun(run, n)[0], if run[0].Add? then n + 1 else n;
      assert StampRun(run, n)[1..] == StampRun(run[1..], m);
      StepOrdered(s, op, n);
      StampedRun(Step(s, op), run[1..], m);
    }
  }

  /** Any run of keyed additions, removals and pops leaves the list sorted by key, entries
      with equal keys in the order in which they were added: with every entry stamped when it
      comes to the list, stamps rise among equal keys. */
  lemma SortedAndStable(s: seq<Entry>, run: seq<Op>)
    requires Sorted(s) && NoPushes(run)
    ensures Sorted(After(s, run))
    ensures var stamped := After(Stamped(s), StampRun(run, |s|));
            Ordered(stamped) && After(s, run) == Named(stamped, Items(s) + Added(run))
  {
    var names := Items(s) + Added(run);
    StampedRun(Stamped(s), run, |s|);
    NamedRun(Stamped(s), run, |s|, names);
    assert Named(Stamped(s), names) == s;
  }

  /** What a run of pushes and pops returns from the pops that find something. */
  ghost function Popped(s: seq<Entry>, run: seq<Op>): seq<nat>
    decreases |run|
  {
    if run == [] then []
    else if run[0].Pop? && s != [] then [s[0].item] + Popped(Step(s, run[0]), run[1..])
    else Popped(Step(s, run[0]), run[1..])
  }

  ghost function Pushed(run: seq<Op>): seq<nat>
    decreases |run|
  {
    if run == [] then [] else if run[0].Push? then [run[0].item] + Pushed(run[1..]) else Pushed(run[1..])
  }

  lemma PushOrder(s: seq<Entry>, item: nat, popped: seq<nat>, left: seq<nat>, pushed: seq<nat>)
    requires popped + left == Items(Step(s, Push(item))) + pushed
    ensures popped + left == Items(s) + ([item] + pushed)
  {
    assert Items(Step(s, Push(item))) == Items(s) + [item];
    assert Items(s) + [item] + pushed == Items(s) + ([item] + pushed);
  }

  lemma PopOrder(s: seq<Entry>, popped: seq<nat>, left: seq<nat>, pushed: seq<nat>)
    requires s != [] && popped + left == Items(Step(s, Pop)) + pushed
    ensures [s[0].item] + popped + left == Items(s) + pushed
  {
    assert Items(s) == [s[0].item] + Items(Step(s, Pop));
    assert [s[0].item] + popped + left == [s[0].item] + (popped + left);
    assert [s[0].item] + Items(Step(s, Pop)) + pushed == [s[0].item] + (Items(Step(s, Pop)) + pushed);
  }

  /** Pushing at the tail and popping at the head is first in, first out. */
  lemma {:induction false} FirstInFirstOut(s: seq<Entry>, run: seq<Op>)
    requires forall i :: 0 <= i < |run| ==> run[i].Push? || run[i].Pop?
    ensures Popped(s, run) + Items(After(s, run)) == Items(s) + Pushed(run)
    decreases |run|
  {
    if run != [] {
      var t, rest := Step(s, run[0]), run[1..];
      FirstInFirstOut(t, rest);
      if run[0].Push? {
        PushOrder(s, run[0].item, Popped(t, rest), Items(After(t, rest)), Pushed(rest));
      } else if s != [] {
        PopOrder(s, Popped(t, rest), Items(After(t, rest)), Pushed(rest));
      }
      hide Items;
    }
  }

  // ------------------------------------------------------------------ the list itself

  class Node {
    const key: nat
    const item: nat
    var next: Node?
    var prev: Node?

    constructor (key: nat, item: nat)
      ensures this.key == key && this.item == item && next == null && prev == null
    {
      this.key, this.item, next, prev := key, item, null, null;
    }
  }

  ghost function Nth(s: seq<Node>, i: int): Node? { if 0 <= i < |s| then s[i] else null }

  ghost predicate Distinct(s: seq<Node>) { forall i, j :: 0 <= i < j < |s| ==> s[i] != s[j] }

  /** The next and previous chains are each other's inverse and visit exactly these nodes. */
  ghost predicate Linked(s: seq<Node>)
    reads s
  {
    forall i :: 0 <= i < |s| ==> LinkedAt(s, i)
  }

  ghost predicate LinkedAt(s: seq<Node>, i: int)
    reads s
  {
    0 <= i < |s| && s[i].next == Nth(s, i + 1) && s[i].prev == Nth(s, i - 1)
  }

  ghost function Entries(s: seq<Node>): (r: seq<Entry>)
    ensures |r| == |s| && forall i :: 0 <= i < |s| ==> r[i] == Entry(s[i].key, s[i].item)
  {
    seq(|s|, i requires 0 <= i < |s| => Entry(s[i].key, s[i].item))
  }

  ghost function With(s: seq<Node>, k: nat, n: Node): seq<Node>
    requires k <= |s|
  {
    s[..k] + [n] + s[k..]
  }

  ghost predicate Inserted(r: seq<Node>, s: seq<Node>, k: nat, n: Node) {
    && |r| == |s| + 1 && k <= |s| && Distinct(r)
    && Nth(r, k) == n && (forall i :: i < k ==> Nth(r, i) == Nth(s, i))
    && (forall i :: i > k ==> Nth(r, i) == Nth(s, i - 1))
  }

  lemma WithFacts(s: seq<Node>, k: nat, n: Node)
    requires k <= |s| && Distinct(s) && n !in s
    ensures Inserted(With(s, k, n), s, k, n)
    ensures Entries(With(s, k, n)) == InsertAt(Entries(s), k, Entry(n.key, n.item))
  {
    var r, e, x := With(s, k, n), Entries(s), Entry(n.key, n.item);
    assert forall i :: 0 <= i < |r| ==> r[i] == if i < k then s[i] else if i == k then n else s[i - 1];
    forall i | 0 <= i < |r| ensures Entries(r)[i] == InsertAt(e, k, x)[i] {
      assert i > k ==> InsertAt(e, k, x)[i] == e[i - 1];
    }
  }

  ghost function Without(s: seq<Node>, k: nat): seq<Node>
    requires k < |s|
  {
    s[..k] + s[k + 1..]
  }

  ghost predicate Removed(r: seq<Node>, s: seq<Node>, k: nat) {
    && |r| == |s| - 1 && k < |s| && Distinct(r)
    && (forall i :: i < k ==> Nth(r, i) == Nth(s, i)) && (forall i :: i >= k ==> Nth(r, i) == Nth(s, i + 1))
  }

  lemma WithoutFacts(s: seq<Node>, k: nat)
    requires k < |s| && Distinct(s)
    ensures Removed(Without(s, k), s, k)
    ensures Entries(Without(s, k)) == RemoveAt(Entries(s), k)
  {
    var r, e := Without(s, k), Entries(s);
    assert forall i :: 0 <= i < |r| ==> r[i] == if i < k then s[i] else s[i + 1];
    forall i | 0 <= i < |r| ensures Entries(r)[i] == RemoveAt(e, k)[i] {
      assert i >= k ==> RemoveAt(e, k)[i] == e[i + 1];
    }
  }

  /** The nodes of `s` are linked, with `n` between those at `k - 1` and `k`. */
  ghost predicate Around(s: seq<Node>, k: nat, n: Node)
    requires 0 < k < |s|
    reads s, n
  {
    n.prev == s[k - 1] && n.next == s[k] && forall j :: 0 <= j < |s| ==> AroundAt(s, k, n, j)
  }

  ghost predicate AroundAt(s: seq<Node>, k: nat, n: Node, j: int)
    reads s
  {
    && 0 <= j < |s| && s[j].next == (if j == k - 1 then n else Nth(s, j + 1))
    && s[j].prev == (if j == k then n else Nth(s, j - 1))
  }

  lemma AroundLinks(r: seq<Node>, s: seq<Node>, k: nat, n: Node)
    requires 0 < k < |s| && Inserted(r, s, k, n) && Around(s, k, n)
    ensures Linked(r)
  {
    hide Distinct;
    forall i | 0 <= i < |r| ensures LinkedAt(r, i) {
      assert r[i] == Nth(r, i);
      if i != k {
        assert AroundAt(s, k, n, if i < k then i else i - 1);
      }
    }
  }

  /** The nodes of `s` other than the one at `k` are linked as if that were not there. */
  ghost predicate Bypassed(s: seq<Node>, k: nat)
    reads s
  {
    forall j :: 0 <= j < |s| && j != k ==> BypassedAt(s, k, j)
  }

  ghost predicate BypassedAt(s: seq<Node>, k: nat, j: int)
    reads s
  {
    && 0 <= j < |s| && s[j].next == Nth(s, if j == k - 1 then k + 1 else j + 1)
    && s[j].prev == Nth(s, if j == k + 1 then k - 1 else j - 1)
  }

  lemma BypassLinks(r: seq<Node>, s: seq<Node>, k: nat)
    requires Removed(r, s, k) && Bypassed(s, k)
    ensures Linked(r)
  {
    hide Distinct;
    forall i | 0 <= i < |r| ensures LinkedAt(r, i) {
      assert r[i] == Nth(r, i);
      assert BypassedAt(s, k, if i < k then i else i + 1);
    }
  }

  method PutBetween(n: Node, li: Node, ghost s: seq<Node>, ghost k: nat)
    requires Distinct(s) && Linked(s) && 0 < k < |s| && s[k] == li && n !in s
    modifies s, n
    ensures Around(s, k, n)
  {
    assert LinkedAt(s, k);
    li.prev.next := n;
    n.next := li;
    n.prev := li.prev;
    li.prev := n;
    forall j | 0 <= j < |s| ensures AroundAt(s, k, n, j) {
      assert old(LinkedAt(s, j));
    }
  }

  class List {
    var head: Node?
    var tail: Node?
    var cnt: nat
    ghost var spine: seq<Node>

    ghost predicate Valid()
      reads this, spine
    {
      cnt == |spine| && head == Nth(spine, 0) && tail == Nth(spine, |spine| - 1) && Distinct(spine) && Linked(spine)
    }

    ghost function Contents(): seq<Entry>
      reads this
    {
      Entries(spine)
    }

    constructor ()
      ensures Valid() && Contents() == []
    {
      head, tail, cnt, spine := null, null, 0, [];
    }

    /** Append, unless memory runs out. */
    method PushTail(item: nat, memory: bool)
      requires Valid()
      modifies this, spine
      ensures Valid() && Contents() == if memory then Step(old(Contents()), Push(item)) else old(Contents())
    {
      if memory {
        var n := new Node(0, item);
        Append(n);
      }
    }

    method Append(n: Node)
      requires Valid() && n !in spine && n.next == null && n.prev == null
      modifies this, spine, n
      ensures Valid() && spine == With(old(spine), old(|spine|), n)
    {
      ghost var was := spine;
      WithFacts(was, |was|, n);
      hide With, Entries, Distinct;
      if cnt != 0 {
        tail.next := n;
        n.prev := tail;
        tail := n;
      } else {
        head, tail := n, n;
      }
      cnt := cnt + 1;
      spine := With(was, |was|, n);
      forall i | 0 <= i < |spine| ensures LinkedAt(spine, i) {
        assert i < |was| ==> old(LinkedAt(was, i)) && (i < |was| - 1 ==> was[i] != was[|was| - 1]);
      }
    }

    /** Unlink exactly the given node, at position `k` of the chain. */
    method LRemove(li: Node, ghost k: nat)
      requires Valid() && k < |spine| && spine[k] == li
      modifies this, spine
      ensures Valid() && spine == Without(old(spine), k)
      ensures Contents() == Step(old(Contents()), Remove(k))
    {
      WithoutFacts(spine, k);
      Unlink(li, k, Without(spine, k));
    }

    method Unlink(li: Node, ghost k: nat, ghost now: seq<Node>)
      requires Valid() && k < |spine| && spine[k] == li && Removed(now, spine, k)
      modifies this, spine
      ensures Valid() && spine == now
    {
      ghost var was := spine;
      EndsLeft(was, now, k);
      Bypass(li, k);
      BypassLinks(now, was, k);
      hide Nth, Linked, Distinct, Removed, Bypassed;
      cnt, spine := cnt - 1, now;
    }

    lemma EndsLeft(s: seq<Node>, r: seq<Node>, k: nat)
      requires Removed(r, s, k)
      ensures |r| == |s| - 1 && Distinct(r) && Nth(r, 0) == Nth(s, if k == 0 then 1 else 0)
      ensures Nth(r, |r| - 1) == Nth(s, if k == |s| - 1 then k - 1 else |s| - 1)
    {
    }

    /** Redirect the pointers around the node at position `k`. */
    method Bypass(li: Node, ghost k: nat)
      requires Valid() && k < |spine| && spine[k] == li
      modifies this`head, this`tail, spine
      ensures Bypassed(spine, k) && cnt == |spine|
      ensures head == Nth(spine, if k == 0 then 1 else 0)
      ensures tail == Nth(spine, if k == |spine| - 1 then k - 1 else |spine| - 1)
    {
      assert LinkedAt(spine, k);
      if cnt == 1 {
        head, tail := null, null;
      } else if li == head {
        head.next.prev := null;
        head := head.next;
      } else if li == tail {
        tail.prev.next := null;
        tail := tail.prev;
      } else {
        li.next.prev := li.prev;
        li.prev.next := li.next;
      }
      forall j | 0 <= j < |spine| && j != k ensures BypassedAt(spine, k, j) {
        assert old(LinkedAt(spine, j));
      }
    }

    method PopHead() returns (item: Option<nat>)
      requires Valid()
      modifies this, spine
      ensures Valid() && Contents() == Step(old(Contents()), Pop)
      ensures item == if old(Contents()) == [] then None else Some(old(Contents())[0].item)
    {
      if cnt == 0 { return None; }
      item := Some(head.item);
      ghost var was := spine;
      WithoutFacts(was, 0);
      assert LinkedAt(was, 0);
      hide Without;
      if cnt == 1 {
        head, tail, cnt := null, null, 0;
      } else {
        head.next.prev := null;
        head := head.next;
        cnt := cnt - 1;
      }
      spine := Without(was, 0);
      forall i | 0 <= i < |spine| ensures LinkedAt(spine, i) {
        assert old(LinkedAt(was, i + 1));
      }
    }

    method Prepend(n: Node)
      requires Valid() && cnt != 0 && n !in spine && n.next == null && n.prev == null
      modifies this, spine, n
      ensures Valid() && spine == With(old(spine), 0, n)
    {
      ghost var was := spine;
      WithFacts(was, 0, n);
      hide With, Entries;
      head.prev := n;
      n.next := head;
      head := n;
      cnt := cnt + 1;
      spine := With(was, 0, n);
      forall i | 0 <= i < |spine| ensures LinkedAt(spine, i) {
        assert i > 0 ==> old(LinkedAt(was, i - 1));
      }
    }

    /** Insert a node before the one at position `k`, which has a predecessor. */
    method InsertBefore(n: Node, li: Node, ghost k: nat, ghost now: seq<Node>)
      requires Valid() && 0 < k < |spine| && spine[k] == li && n !in spine
      requires Inserted(now, spine, k, n)
      modifies this, spine, n
      ensures Valid() && spine == now
    {
      ghost var was := spine;
      EndsStay(was, now, k, n);
      assert Linked(was) && Distinct(was) && cnt + 1 == |now| && head == Nth(now, 0) && tail == Nth(now, |now| - 1);
      hide *;
      PutBetween(n, li, was, k);
      AroundLinks(now, was, k, n);
      Recount(now);
    }

    method Recount(ghost now: seq<Node>)
      requires cnt + 1 == |now| && head == Nth(now, 0) && tail == Nth(now, |now| - 1) && Distinct(now) && Linked(now)
      modifies this`cnt, this`spine
      ensures Valid() && spine == now
    {
      cnt, spine := cnt + 1, now;
    }

    lemma EndsStay(s: seq<Node>, r: seq<Node>, k: nat, n: Node)
      requires Inserted(r, s, k, n) && 0 < k < |s|
      ensures |r| == |s| + 1 && Distinct(r) && Nth(r, 0) == Nth(s, 0) && Nth(r, |r| - 1) == Nth(s, |s| - 1)
    {
    }

    /** The first node after the head with a greater key; there is one, because the tail's is. */
    method Seek(key: nat) returns (li: Node, ghost k: nat)
      requires Valid() && cnt != 0 && head.key <= key < tail.key
      ensures 0 < k < |spine| && spine[k] == li && k == FirstAbove(Contents(), key, 1)
    {
      assert LinkedAt(spine, 0);
      var at := head.next;
      k := 1;
      while at.key <= key
        invariant 0 < k < |spine| && at == spine[k] && FirstAbove(Contents(), key, 1) == FirstAbove(Contents(), key, k)
        decreases |spine| - k
      {
        assert LinkedAt(spine, k);
        at := at.next;
        k := k + 1;
      }
      li := at;
    }

    /** Insert by key, unless memory runs out. */
    method AddKey(key: nat, item: nat, memory: bool) returns (li: Node?)
      requires Valid()
      modifies this, spine
      ensures Valid() && (li != null <==> memory)
      ensures Contents() == if memory then Step(old(Contents()), Add(key, item)) else old(Contents())
      ensures memory ==> fresh(li) && spine == With(old(spine), Place(old(Contents()), key), li)
    {
      if !memory { return null; }
      var n := new Node(key, item);
      li := n;
      ghost var k := Place(Contents(), key);
      WithFacts(spine, k, n);
      hide With, InsertAt, Distinct, Linked, Inserted, FirstAbove;
      if cnt == 0 || tail.key <= key {
        Append(n);
      } else if head.key > key {
        Prepend(n);
      } else {
        var next, at := Seek(key);
        InsertBefore(n, next, at, With(spine, at, n));
      }
    }

    /** The first node with the key, if any. */
    method Find(key: nat) returns (li: Node?)
      requires Valid()
      ensures li == Nth(spine, FirstWith(Contents(), key, 0))
    {
      li := head;
      ghost var k := 0;
      while li != null && li.key != key
        invariant 0 <= k <= |spine| && li == Nth(spine, k)
        invariant FirstWith(Contents(), key, 0) == FirstWith(Contents(), key, k)
        decreases |spine| - k
      {
        assert LinkedAt(spine, k);
        li := li.next;
        k := k + 1;
      }
    }

    /** Walking from the head visits every item once, in order. */
    method Walk() returns (items: seq<nat>)
      requires Valid()
      ensures items == Items(Contents())
    {
      items := [];
      var li := head;
      while li != null
        invariant |items| <= |spine| && li == Nth(spine, |items|)
        invariant forall i :: 0 <= i < |items| ==> items[i] == spine[i].item
        decreases |spine| - |items|
      {
        assert LinkedAt(spine, |items|);
        items := items + [li.item];
        li := li.next;
      }
    }
  }
}
