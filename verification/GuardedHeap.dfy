/** The unit-test allocator: every block carries a header and two guards, freeing checks the
    guards, and the list of live blocks shows what a test leaked. */
module GuardedHeap {
  import opened Options

  const GUARD: nat := 16
  const ALIGN: nat := 8
  const HEADER: nat := 72
  const GUARD_PATTERN: bv8 := 0xEF
  const ALLOC_PATTERN: bv8 := 0xBA
  const FREE_PATTERN: bv8 := 0xCD

  /** What a header records: the raw block and the size asked for. */
  datatype Block = Block(base: nat, size: nat)

  type Memory = int -> bv8

  function RawSize(size: nat): nat { size + 2 * GUARD + HEADER + ALIGN }

  /** The address given to the caller: rounded down to the alignment, past header and guard. */
  function Payload(base: nat): (p: nat)
    ensures p % ALIGN == 0 && base + HEADER + GUARD < p <= base + HEADER + GUARD + ALIGN
  {
    var x := base + GUARD + HEADER + ALIGN;
    x - x % ALIGN
  }

  function HeaderOf(ptr: nat): int { ptr - GUARD - HEADER }

  predicate InRaw(b: Block, a: int) { b.base <= a < b.base + RawSize(b.size) }

  predicate Apart(b: Block, c: Block) { b.base + RawSize(b.size) <= c.base || c.base + RawSize(c.size) <= b.base }

  /** Header, front guard, payload and rear guard follow each other inside the raw block. */
  lemma Layout(b: Block)
    ensures var p := Payload(b.base);
            b.base <= HeaderOf(p) && HeaderOf(p) + HEADER == p - GUARD && p + b.size + GUARD <= b.base + RawSize(b.size)
  {
  }

  ghost predicate Holds(m: Memory, lo: int, n: nat, v: bv8) { forall a :: lo <= a < lo + n ==> m(a) == v }

  ghost predicate Guarded(m: Memory, b: Block) {
    Holds(m, Payload(b.base) - GUARD, GUARD, GUARD_PATTERN) && Holds(m, Payload(b.base) + b.size, GUARD, GUARD_PATTERN)
  }

  function Fill(m: Memory, lo: int, n: nat, v: bv8): Memory { a => if lo <= a < lo + n then v else m(a) }

  function Copy(m: Memory, to: nat, from: nat, n: nat): Memory {
    a => if to <= a < to + n then m(from + a - to) else m(a)
  }

  /** The raw block has been overwritten. */
  ghost predicate Erased(m: Memory, b: Block) { forall a :: InRaw(b, a) ==> m(a) == FREE_PATTERN }

  /** Nothing outside these two blocks differs. */
  ghost predicate SameBesides(m: Memory, n: Memory, b: Block, c: Block) {
    forall a :: !InRaw(b, a) && !InRaw(c, a) ==> n(a) == m(a)
  }

  ghost predicate SameOutside(m: Memory, n: Memory, b: Block) { forall a :: !InRaw(b, a) ==> n(a) == m(a) }

  /** Only the payload of this block differs. */
  ghost predicate SameButPayload(m: Memory, n: Memory, b: Block) {
    forall a :: !(Payload(b.base) <= a < Payload(b.base) + b.size) ==> n(a) == m(a)
  }

  function Byte(m: Memory, p: int, i: int): bv8 { m(p + i) }

  /** The `n` bytes at `q` in one memory are those at `p` in the other. */
  ghost predicate Moved(m: Memory, p: int, k: Memory, q: int, n: nat) {
    forall i :: 0 <= i < n ==> Byte(k, q, i) == Byte(m, p, i)
  }

  lemma GuardsElsewhere(m: Memory, n: Memory, b: Block, c: Block)
    requires SameOutside(m, n, c) && Apart(b, c)
    ensures Guarded(m, b) <==> Guarded(n, b)
  {
    Layout(b);
    assert forall a :: Payload(b.base) - GUARD <= a < Payload(b.base) + b.size + GUARD ==> n(a) == m(a);
  }

  lemma GuardsStay(m: Memory, n: Memory, b: Block)
    requires SameButPayload(m, n, b)
    ensures Guarded(m, b) <==> Guarded(n, b)
    ensures SameOutside(m, n, b)
  {
    Layout(b);
    assert forall a :: Payload(b.base) - GUARD <= a < Payload(b.base) ==> n(a) == m(a);
    assert forall a :: Payload(b.base) + b.size <= a < Payload(b.base) + b.size + GUARD ==> n(a) == m(a);
  }

  lemma PayloadUntouched(m0: Memory, m1: Memory, was: Block, b: Block, n: nat)
    requires Apart(was, b) && SameOutside(m0, m1, b) && n <= was.size
    ensures Moved(m0, Payload(was.base), m1, Payload(was.base), n)
  {
    Layout(was);
    forall i | 0 <= i < n ensures Byte(m1, Payload(was.base), i) == Byte(m0, Payload(was.base), i) {
      assert !InRaw(b, Payload(was.base) + i);
    }
  }

  lemma CopyByte(m: Memory, p: nat, q: nat, n: nat, i: nat)
    requires i < n
    ensures Byte(Copy(m, q, p, n), q, i) == Byte(m, p, i)
  {
    assert p + (q + i) - q == p + i;
  }

  lemma CopyMoves(m0: Memory, m1: Memory, p: nat, q: nat, n: nat)
    requires Moved(m0, p, m1, p, n)
    ensures Moved(m0, p, Copy(m1, q, p, n), q, n)
  {
    hide Copy, Byte;
    forall i | 0 <= i < n ensures Byte(Copy(m1, q, p, n), q, i) == Byte(m0, p, i) {
      CopyByte(m1, p, q, n, i);
    }
  }

  /** Copying between the payloads of two blocks, the second of them new. */
  lemma CopyEffect(m0: Memory, m1: Memory, was: Block, b: Block, n: nat)
    requires Apart(was, b) && SameOutside(m0, m1, b) && Guarded(m1, b) && n <= was.size && n <= b.size
    ensures var m2 := Copy(m1, Payload(b.base), Payload(was.base), n);
            (Guarded(m2, was) <==> Guarded(m0, was)) && Guarded(m2, b)
            && Moved(m0, Payload(was.base), m2, Payload(b.base), n)
  {
    hide Guarded, SameOutside, Moved, Payload;
    var p, q := Payload(was.base), Payload(b.base);
    var m2 := Copy(m1, q, p, n);
    PayloadUntouched(m0, m1, was, b, n);
    CopyMoves(m0, m1, p, q, n);
    assert SameButPayload(m1, m2, b);
    hide Copy, SameButPayload;
    GuardsElsewhere(m0, m1, was, b);
    GuardsStay(m1, m2, b);
    GuardsElsewhere(m1, m2, was, b);
  }

  /** Freeing the first block then leaves the second alone. */
  lemma FreeEffect(m0: Memory, m2: Memory, m3: Memory, was: Block, b: Block, p: nat, n: nat)
    requires Apart(was, b) && SameOutside(m2, m3, was) && Guarded(m2, b) && n <= b.size
    requires Moved(m0, p, m2, Payload(b.base), n)
    ensures Guarded(m3, b) && Moved(m0, p, m3, Payload(b.base), n)
  {
    Layout(b);
    GuardsElsewhere(m2, m3, b, was);
  }

  /** Copying into the new block changes nothing outside the two. */
  lemma CopyBesides(m0: Memory, m1: Memory, was: Block, b: Block, n: nat)
    requires SameOutside(m0, m1, b) && n <= b.size
    ensures SameBesides(m0, Copy(m1, Payload(b.base), Payload(was.base), n), was, b)
  {
    Layout(b);
    assert forall a :: !InRaw(b, a) ==> !(Payload(b.base) <= a < Payload(b.base) + n);
  }

  lemma FreeBesides(m0: Memory, m2: Memory, m3: Memory, was: Block, b: Block)
    requires SameBesides(m0, m2, was, b) && SameOutside(m2, m3, was)
    ensures SameBesides(m0, m3, was, b)
  {
  }

  function Removed(s: seq<int>, h: int): seq<int> {
    if s == [] then [] else if s[0] == h then s[1..] else [s[0]] + Removed(s[1..], h)
  }

  lemma {:induction false} RemovedIs(s: seq<int>, h: int) returns (k: nat)
    requires h in s
    ensures k < |s| && s[k] == h && Removed(s, h) == s[..k] + s[k + 1..]
  {
    if s[0] == h {
      k := 0;
    } else {
      var j := RemovedIs(s[1..], h);
      k := j + 1;
      assert s[..k] == [s[0]] + s[1..][..j];
    }
  }

  // ------------------------------------------------------------------ leaks

  datatype Event = Alloc(h: int) | Release(h: int)

  function After(s: seq<int>, run: seq<Event>): seq<int>
    decreases |run|
  {
    if run == [] then s
    else After(Next(s, run[0]), run[1..])
  }

  function Next(s: seq<int>, e: Event): seq<int> {
    match e
    case Alloc(h) => s + [h]
    case Release(h) => Removed(s, h)
  }

  lemma {:induction false} AfterConcat(s: seq<int>, a: seq<Event>, b: seq<Event>)
    ensures After(s, a + b) == After(After(s, a), b)
    decreases |a|
  {
    if a == [] {
      assert a + b == b;
    } else {
      assert (a + b)[1..] == a[1..] + b;
      AfterConcat(Next(s, a[0]), a[1..], b);
    }
  }

  lemma AfterSnoc(s: seq<int>, run: seq<Event>, e: Event)
    ensures After(s, run + [e]) == Next(After(s, run), e)
  {
    AfterConcat(s, run, [e]);
    assert [e][1..] == [];
    assert After(Next(After(s, run), e), []) == Next(After(s, run), e);
  }

  /** The live blocks from before a checkpoint, and those allocated since. */
  function Split(before: seq<int>, since: seq<int>, run: seq<Event>): (seq<int>, seq<int>)
    decreases |run|
  {
    if run == [] then (before, since)
    else match run[0]
      case Alloc(h) => Split(before, since + [h], run[1..])
      case Release(h) =>
        if h in before then Split(Removed(before, h), since, run[1..]) else Split(before, Removed(since, h), run[1..])
  }

  lemma {:induction false} RemovedSplit(a: seq<int>, b: seq<int>, h: int)
    requires h !in a
    ensures Removed(a + b, h) == a + Removed(b, h) && Removed(a, h) == a
  {
    if a == [] {
      assert a + b == b;
    } else {
      assert (a + b)[1..] == a[1..] + b;
      RemovedSplit(a[1..], b, h);
    }
  }

  lemma {:induction false} RemovedFirst(a: seq<int>, b: seq<int>, h: int)
    requires h in a
    ensures Removed(a + b, h) == Removed(a, h) + b
  {
    assert (a + b)[1..] == a[1..] + b;
    if a[0] != h {
      RemovedFirst(a[1..], b, h);
    }
  }

  lemma {:induction false} ListIsSplit(a: seq<int>, b: seq<int>, run: seq<Event>)
    ensures After(a + b, run) == Split(a, b, run).0 + Split(a, b, run).1
    decreases |run|
  {
    if run != [] {
      match run[0]
      case Alloc(h) =>
        assert a + b + [h] == a + (b + [h]);
        ListIsSplit(a, b + [h], run[1..]);
      case Release(h) =>
        if h in a {
          RemovedFirst(a, b, h);
          ListIsSplit(Removed(a, h), b, run[1..]);
        } else {
          RemovedSplit(a, b, h);
          ListIsSplit(a, Removed(b, h), run[1..]);
        }
    }
  }

  lemma {:induction false} RemovedKeepsLast(s: seq<int>, h: int)
    requires s != [] && s[|s| - 1] != h
    ensures Removed(s, h) != [] && Removed(s, h)[|Removed(s, h)| - 1] == s[|s| - 1]
  {
    if |s| > 1 && s[0] != h {
      RemovedKeepsLast(s[1..], h);
    }
  }

  lemma {:induction false} CheckpointStays(a: seq<int>, b: seq<int>, run: seq<Event>)
    requires a != [] && forall i :: 0 <= i < |run| ==> run[i] != Release(a[|a| - 1])
    ensures Split(a, b, run).0 != [] && Split(a, b, run).0[|Split(a, b, run).0| - 1] == a[|a| - 1]
    decreases |run|
  {
    if run != [] {
      match run[0]
      case Alloc(h) => CheckpointStays(a, b + [h], run[1..]);
      case Release(h) =>
        if h in a {
          RemovedKeepsLast(a, h);
          CheckpointStays(Removed(a, h), b, run[1..]);
        } else {
          CheckpointStays(a, Removed(b, h), run[1..]);
        }
    }
  }

  /** As long as the block that marks the checkpoint is live, what follows it in the list is
      exactly the live blocks allocated since. */
  lemma LeaksAreNew(s: seq<int>, run: seq<Event>)
    requires s != [] && forall i :: 0 <= i < |run| ==> run[i] != Release(s[|s| - 1])
    ensures var t, since := After(s, run), Split(s, [], run).1;
            var k := |t| - 1 - |since|;
            0 <= k && t[k] == s[|s| - 1] && t[k + 1..] == since
  {
    ListIsSplit(s, [], run);
    assert s + [] == s;
    CheckpointStays(s, [], run);
  }

  function Mark(list: seq<int>): Option<int> { if list == [] then None else Some(list[|list| - 1]) }

  /** The tail of the list behind a checkpoint is the live blocks allocated since. */
  lemma AllocatedSince(list: seq<int>, log: seq<Event>, at: nat)
    requires at <= |log| && list == After([], log)
    requires var c := Mark(After([], log[..at])); c.Some? ==> forall i :: at <= i < |log| ==> log[i] != Release(c.value)
    ensures var c, since := Mark(After([], log[..at])), Split(After([], log[..at]), [], log[at..]).1;
            if c.None? then list == since
            else |since| < |list| && list[|list| - 1 - |since|] == c.value && list[|list| - |since|..] == since
  {
    var s, run := After([], log[..at]), log[at..];
    assert log == log[..at] + run;
    AfterConcat([], log[..at], run);
    if s == [] {
      ListIsSplit([], [], run);
      NothingBefore([], run);
    } else {
      LeaksAreNew(s, run);
    }
  }

  lemma {:induction false} NothingBefore(since: seq<int>, run: seq<Event>)
    ensures Split([], since, run).0 == []
    decreases |run|
  {
    if run != [] {
      NothingBefore(Next(since, run[0]), run[1..]);
    }
  }

  class Heap {
    var mem: Memory
    var headers: map<int, Block>   // the header records, by address
    var list: seq<int>             // addresses of the headers of live blocks, oldest first
    ghost var log: seq<Event>      // all that has happened

    constructor (mem: Memory)
      ensures Valid() && list == [] && this.mem == mem && log == []
    {
      this.mem, headers, list, log := mem, map[], [], [];
    }

    /** Every listed header lies where its block says, and raw blocks do not overlap. */
    ghost predicate Valid()
      reads this
    {
      && list == After([], log)
      && (forall i :: 0 <= i < |list| ==> list[i] in headers && list[i] == HeaderOf(Payload(headers[list[i]].base)))
      && (forall i, j :: 0 <= i < j < |list| ==> Apart(headers[list[i]], headers[list[j]]))
    }

    /** The raw allocator promises `base` to be clear of all live blocks. */
    ghost predicate Clear(b: Block)
      requires Valid()
      reads this
    {
      forall i :: 0 <= i < |list| ==> Apart(b, headers[list[i]])
    }

    method Malloc(size: nat, base: nat) returns (ptr: nat)
      requires Valid() && Clear(Block(base, size))
      modifies this
      ensures Valid() && ptr == Payload(base)
      ensures headers == old(headers)[HeaderOf(ptr) := Block(base, size)] && list == old(list) + [HeaderOf(ptr)]
      ensures HeaderOf(ptr) !in old(list)
      ensures Guarded(mem, Block(base, size)) && Holds(mem, ptr, size, ALLOC_PATTERN)
      ensures SameOutside(old(mem), mem, Block(base, size)) && log == old(log) + [Alloc(HeaderOf(ptr))]
    {
      hide After;
      var b := Block(base, size);
      ptr := Payload(base);
      mem := Fill(mem, ptr - GUARD, GUARD, GUARD_PATTERN);
      mem := Fill(mem, ptr + size, GUARD, GUARD_PATTERN);
      mem := Fill(mem, ptr, size, ALLOC_PATTERN);
      var h := HeaderOf(ptr);
      headers := headers[h := b];
      list := list + [h];
      AfterSnoc([], log, Alloc(h));
      log := log + [Alloc(h)];
    }

    /** Compare a guard with its pattern, byte by byte. */
    method CheckGuard(at: nat) returns (ok: bool)
      ensures ok <==> Holds(mem, at, GUARD, GUARD_PATTERN)
    {
      var j := 0;
      while j < GUARD
        invariant j <= GUARD && Holds(mem, at, j, GUARD_PATTERN)
      {
        if mem(at + j) != GUARD_PATTERN { return false; }
        j := j + 1;
      }
      return true;
    }

    /** Free a live block; a damaged guard fails the test and leaves everything as it is. */
    method Free(ptr: nat) returns (ok: bool)
      requires Valid() && HeaderOf(ptr) in list
      modifies this`mem, this`list, this`log
      ensures ok <==> Guarded(old(mem), headers[HeaderOf(ptr)])
      ensures Valid()
      ensures !ok ==> mem == old(mem) && list == old(list) && log == old(log)
      ensures ok ==> list == Removed(old(list), HeaderOf(ptr)) && log == old(log) + [Release(HeaderOf(ptr))]
      ensures ok ==> SameOutside(old(mem), mem, headers[HeaderOf(ptr)]) && Erased(mem, headers[HeaderOf(ptr)])
    {
      hide After, Holds;
      var h := HeaderOf(ptr);
      var b := headers[h];
      var front := CheckGuard(ptr - GUARD);
      if !front { return false; }
      var rear := CheckGuard(ptr + b.size);
      if !rear { return false; }
      ghost var k := RemovedIs(list, h);
      list := Removed(list, h);
      assert forall i :: 0 <= i < |list| ==> list[i] == old(list)[if i < k then i else i + 1];
      mem := Fill(mem, b.base, RawSize(b.size), FREE_PATTERN);
      assert Erased(mem, b);
      AfterSnoc([], log, Release(h));
      log := log + [Release(h)];
      return true;
    }

    /** Allocate, copy what fits, free the old block. */
    method Move(ptr: nat, size: nat, base: nat) returns (p: nat, ok: bool)
      requires Valid() && HeaderOf(ptr) in list && Clear(Block(base, size))
      modifies this
      ensures Valid() && p == Payload(base) && headers == old(headers)[HeaderOf(p) := Block(base, size)]
      ensures ok <==> Guarded(old(mem), old(headers)[HeaderOf(ptr)])
      ensures ok ==> Guarded(mem, Block(base, size)) && Erased(mem, old(headers)[HeaderOf(ptr)])
      ensures ok ==> var n := old(headers)[HeaderOf(ptr)].size; Moved(old(mem), ptr, mem, p, if n < size then n else size)
      ensures ok ==> list == Removed(old(list) + [HeaderOf(p)], HeaderOf(ptr))
                     && log == old(log) + [Alloc(HeaderOf(p)), Release(HeaderOf(ptr))]
      ensures !ok ==> list == old(list) + [HeaderOf(p)] && log == old(log) + [Alloc(HeaderOf(p))]
      ensures SameBesides(old(mem), mem, old(headers)[HeaderOf(ptr)], Block(base, size))
    {
      var was, b := headers[HeaderOf(ptr)], Block(base, size);
      var n := if was.size < size then was.size else size;
      hide Guarded, Copy, Moved, SameOutside, Erased, SameBesides, After, Removed;
      p := Malloc(size, base);
      CopyEffect(old(mem), mem, was, b, n);
      CopyBesides(old(mem), mem, was, b, n);
      mem := Copy(mem, p, ptr, n);
      ghost var m2 := mem;
      ok := Free(ptr);
      if ok {
        FreeEffect(old(mem), m2, mem, was, b, ptr, n);
        FreeBesides(old(mem), m2, mem, was, b);
        assert old(log) + [Alloc(HeaderOf(p))] + [Release(HeaderOf(ptr))]
               == old(log) + [Alloc(HeaderOf(p)), Release(HeaderOf(ptr))];
      }
    }

    /** A null pointer allocates, a size of zero frees; otherwise the contents move and the old
        block is freed. */
    method Realloc(ptr: Option<nat>, size: nat, base: nat) returns (r: Option<nat>, ok: bool)
      requires Valid() && (ptr.Some? ==> HeaderOf(ptr.value) in list) && Clear(Block(base, size))
      modifies this
      ensures Valid() && (r.Some? ==> r.value == Payload(base))
      ensures ok <==> (ptr.Some? ==> Guarded(old(mem), old(headers)[HeaderOf(ptr.value)]))
      ensures ok ==> (r.Some? <==> ptr.None? || size != 0)
      ensures ok && r.Some? ==> Guarded(mem, Block(base, size)) && HeaderOf(r.value) in headers
                                && headers[HeaderOf(r.value)] == Block(base, size)
      ensures ok && ptr.Some? && r.Some? ==>
                var n := old(headers)[HeaderOf(ptr.value)].size;
                Moved(old(mem), ptr.value, mem, r.value, if n < size then n else size)
      // what becomes of the list, of the events and of all other memory
      ensures ptr.None? ==> r.Some? && list == old(list) + [HeaderOf(r.value)]
                            && log == old(log) + [Alloc(HeaderOf(r.value))] && SameOutside(old(mem), mem, Block(base, size))
      ensures ok && ptr.Some? && size == 0 ==>
                && list == Removed(old(list), HeaderOf(ptr.value)) && log == old(log) + [Release(HeaderOf(ptr.value))]
                && SameOutside(old(mem), mem, old(headers)[HeaderOf(ptr.value)])
      ensures ok && ptr.Some? && size != 0 ==>
                && list == Removed(old(list) + [HeaderOf(r.value)], HeaderOf(ptr.value))
                && log == old(log) + [Alloc(HeaderOf(r.value)), Release(HeaderOf(ptr.value))]
                && SameBesides(old(mem), mem, old(headers)[HeaderOf(ptr.value)], Block(base, size))
      ensures ok && ptr.Some? ==> Erased(mem, old(headers)[HeaderOf(ptr.value)])
      ensures !ok && size == 0 ==> list == old(list) && log == old(log) && mem == old(mem)
    {
      hide Guarded, Moved, Payload, Erased, SameOutside, SameBesides, After, Removed;
      if ptr.None? {
        var p := Malloc(size, base);
        return Some(p), true;
      }
      if size == 0 {
        ok := Free(ptr.value);
        return None, ok;
      }
      var p;
      p, ok := Move(ptr.value, size, base);
      r := Some(p);
    }

    /** A write inside a live block's payload damages no guard. */
    method Store(ptr: nat, i: nat, v: bv8)
      requires Valid() && HeaderOf(ptr) in list && i < headers[HeaderOf(ptr)].size
      modifies this`mem
      ensures Valid() && mem(ptr + i) == v && forall a :: a != ptr + i ==> mem(a) == old(mem)(a)
      ensures forall h :: h in list ==> (Guarded(mem, headers[h]) <==> Guarded(old(mem), headers[h]))
    {
      var b := headers[HeaderOf(ptr)];
      mem := Fill(mem, ptr + i, 1, v);
      GuardsStay(old(mem), mem, b);
      forall h | h in list ensures Guarded(mem, headers[h]) <==> Guarded(old(mem), headers[h]) {
        if h != HeaderOf(ptr) {
          GuardsElsewhere(old(mem), mem, headers[h], b);
        }
      }
    }

    /** The last block in the list marks a checkpoint; in an empty list, the list head does. */
    method CheckPoint() returns (c: Option<int>)
      ensures c == Mark(list)
    {
      c := if list == [] then None else Some(list[|list| - 1]);
    }

    /** The number of live blocks allocated since the checkpoint, which was taken after `at`
        events and whose block has not been freed: the blocks listed after it. */
    method CountSince(checkpoint: Option<int>, ghost at: nat) returns (n: nat)
      requires Valid() && at <= |log| && checkpoint == Mark(After([], log[..at]))
      requires checkpoint.Some? ==> forall i :: at <= i < |log| ==> log[i] != Release(checkpoint.value)
      ensures n == |Split(After([], log[..at]), [], log[at..]).1|
    {
      AllocatedSince(list, log, at);
      ghost var since := Split(After([], log[..at]), [], log[at..]).1;
      var i := 0;
      if checkpoint.Some? {
        i :| 0 <= i < |list| && list[i] == checkpoint.value;
        SameNode(i, |list| - 1 - |since|);
        i := i + 1;
      }
      ghost var start := i;
      n := 0;
      while i < |list|
        invariant start <= i <= |list| && n == i - start
      {
        n := n + 1;
        i := i + 1;
      }
    }

    lemma SameNode(i: nat, j: nat)
      requires Valid() && i < |list| && j < |list| && list[i] == list[j]
      ensures i == j
    {
    }
  }
}
