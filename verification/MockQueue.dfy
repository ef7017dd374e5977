/** The queues of return values that unit tests register for mocked functions.  A value is
    registered with a count: so many times if positive, for ever once reached if negative. */
module MockQueue {
  import opened Options

  datatype Item = Item(value: int, count: int)

  datatype Symbol = Symbol(name: string, items: seq<Item>)

  const ONCE: int := -2   // a negative count stops changing here

  // ------------------------------------------------------------------ one queue

  /** The queue after its first value has been returned once more. */
  function Advance(q: seq<Item>): seq<Item>
    requires q != []
  {
    var head := q[0];
    if head.count == 1 then q[1..]
    else if head.count > ONCE then [head.(count := head.count - 1)] + q[1..]
    else q
  }

  /** Before the check for leftovers a value in for-ever use is dropped, at the head only. */
  function DropFirst(q: seq<Item>): seq<Item> {
    if q != [] && q[0].count < -1 then q[1..] else q
  }

  /** The value that call number `k` should get from these registrations. */
  function ValueAt(regs: seq<Item>, k: nat): Option<int>
    decreases |regs|
  {
    if regs == [] then None
    else if regs[0].count < 0 || k < regs[0].count then Some(regs[0].value)
    else ValueAt(regs[1..], k - regs[0].count)
  }

  /** What should be left of these registrations after `k` calls. */
  function Left(regs: seq<Item>, k: nat): seq<Item>
    decreases |regs|
  {
    if regs == [] || k == 0 then regs
    else if regs[0].count < 0 then [regs[0].(count := if regs[0].count == -1 then ONCE else regs[0].count)] + regs[1..]
    else if k < regs[0].count then [regs[0].(count := regs[0].count - k)] + regs[1..]
    else Left(regs[1..], k - regs[0].count)
  }

  predicate Fits(regs: seq<Item>, k: nat)
    decreases |regs|
  {
    k == 0 || (regs != [] && (regs[0].count < 0 || k <= regs[0].count || Fits(regs[1..], k - regs[0].count)))
  }

  predicate Counted(q: seq<Item>) { forall i :: 0 <= i < |q| ==> q[i].count != 0 }

  lemma {:induction false} AdvanceLeft(regs: seq<Item>, k: nat)
    requires Counted(regs) && Fits(regs, k) && Left(regs, k) != []
    ensures Advance(Left(regs, k)) == Left(regs, k + 1) && Fits(regs, k + 1)
    ensures ValueAt(regs, k) == Some(Left(regs, k)[0].value)
    decreases |regs|
  {
    if regs[0].count > 0 && k >= regs[0].count {
      AdvanceLeft(regs[1..], k - regs[0].count);
    } else if regs[0].count == 1 {
      assert Left(regs, 1) == Left(regs[1..], 0);
    }
  }

  lemma {:induction false} RegisterLeft(regs: seq<Item>, x: Item, k: nat)
    requires Counted(regs) && Fits(regs, k)
    ensures Left(regs + [x], k) == Left(regs, k) + [x] && Fits(regs + [x], k)
    decreases |regs|
  {
    if regs != [] {
      assert (regs + [x])[1..] == regs[1..] + [x];
      if regs[0].count > 0 && k >= regs[0].count {
        RegisterLeft(regs[1..], x, k - regs[0].count);
      }
    }
  }

  lemma {:induction false} RegisterValue(regs: seq<Item>, x: Item, k: nat, j: nat)
    requires Counted(regs) && Fits(regs, k) && j < k
    ensures ValueAt(regs + [x], j) == ValueAt(regs, j)
    decreases |regs|
  {
    assert (regs + [x])[1..] == regs[1..] + [x];
    if regs[0].count > 0 && j >= regs[0].count {
      RegisterValue(regs[1..], x, k - regs[0].count, j - regs[0].count);
    }
  }

  function Sum(q: seq<Item>): int {
    if q == [] then 0 else q[0].count + Sum(q[1..])
  }

  predicate AllPositive(q: seq<Item>) { forall i :: 0 <= i < |q| ==> q[i].count > 0 }

  /** All registrations are used up by `k` calls: every count but the last is positive and
      was met, and the last was met exactly, or was reached if it stands for ever, or was
      never owed a call. */
  predicate UsedUp(regs: seq<Item>, k: nat) {
    regs == [] ||
    var n := |regs| - 1;
    && AllPositive(regs[..n])
    && (if regs[n].count > 0 then k == Sum(regs[..n]) + regs[n].count
        else k > Sum(regs[..n]) || (k == Sum(regs[..n]) && regs[n].count < -1))
  }

  lemma {:induction false} SumPositive(q: seq<Item>)
    requires AllPositive(q)
    ensures Sum(q) >= 0
  {
    if q != [] {
      SumPositive(q[1..]);
    }
  }

  lemma {:induction false} UsedUpIff(regs: seq<Item>, k: nat)
    requires Counted(regs) && Fits(regs, k)
    ensures DropFirst(Left(regs, k)) == [] <==> UsedUp(regs, k)
    decreases |regs|
  {
    if |regs| > 1 {
      var n, rest := |regs| - 1, regs[1..];
      assert regs[..n][1..] == rest[..n - 1] && regs[..n][0] == regs[0];
      if regs[0].count > 0 {
        if AllPositive(rest[..n - 1]) {
          SumPositive(rest[..n - 1]);
        }
        assert AllPositive(regs[..n]) <==> AllPositive(rest[..n - 1]) by {
          assert forall i :: 1 <= i < n ==> regs[..n][i] == rest[..n - 1][i - 1];
        }
        if k >= regs[0].count {
          UsedUpIff(rest, k - regs[0].count);
        }
      }
    }
  }

  // ------------------------------------------------------------------ the table of queues

  function Find(s: seq<Symbol>, name: string, i: nat): (r: nat)
    requires i <= |s|
    ensures i <= r <= |s| && (r < |s| ==> s[r].name == name)
    ensures forall j :: i <= j < r ==> s[j].name != name
    decreases |s| - i
  {
    if i == |s| || s[i].name == name then i else Find(s, name, i + 1)
  }

  function Queue(s: seq<Symbol>, name: string): seq<Item> {
    var i := Find(s, name, 0);
    if i < |s| then s[i].items else []
  }

  ghost predicate WellFormed(s: seq<Symbol>) {
    && (forall i, j :: 0 <= i < j < |s| ==> s[i].name != s[j].name)
    && (forall i :: 0 <= i < |s| ==> s[i].items != [])
  }

  function Register(s: seq<Symbol>, name: string, x: Item): seq<Symbol> {
    var i := Find(s, name, 0);
    if i < |s| then s[i := Symbol(name, s[i].items + [x])] else s + [Symbol(name, [x])]
  }

  /** Replace one queue; an empty one disappears. */
  function Put(s: seq<Symbol>, i: nat, q: seq<Item>): seq<Symbol>
    requires i < |s|
  {
    if q == [] then s[..i] + s[i + 1..] else s[i := s[i].(items := q)]
  }

  function Take(s: seq<Symbol>, name: string): seq<Symbol>
    requires Queue(s, name) != []
  {
    var i := Find(s, name, 0);
    Put(s, i, Advance(s[i].items))
  }

  /** Drop values in for-ever use, and the queues that this empties, from place `i` on. */
  function Clean(s: seq<Symbol>, i: nat): seq<Symbol>
    requires i <= |s|
    decreases |s| - i
  {
    if i == |s| then s
    else
      var q := DropFirst(s[i].items);
      Clean(Put(s, i, q), if q == [] then i else i + 1)
  }

  lemma FindIs(s: seq<Symbol>, name: string, i: nat)
    requires WellFormed(s) && i < |s| && s[i].name == name
    ensures Find(s, name, 0) == i && Queue(s, name) == s[i].items
  {
  }

  lemma AppendEffect(s: seq<Symbol>, name: string, q: seq<Item>, other: string)
    requires WellFormed(s) && Find(s, name, 0) == |s| && q != []
    ensures WellFormed(s + [Symbol(name, q)])
    ensures Queue(s + [Symbol(name, q)], other) == if other == name then q else Queue(s, other)
  {
    var t, j := s + [Symbol(name, q)], Find(s, other, 0);
    if other == name {
      FindIs(t, name, |s|);
    } else if j < |s| {
      FindIs(t, other, j);
    } else {
      assert Find(t, other, 0) == |t|;
    }
  }

  lemma RegisterEffect(s: seq<Symbol>, name: string, x: Item, other: string)
    requires WellFormed(s)
    ensures WellFormed(Register(s, name, x))
    ensures Queue(Register(s, name, x), other) == if other == name then Queue(s, name) + [x] else Queue(s, other)
  {
    var i := Find(s, name, 0);
    if i < |s| {
      PutEffect(s, i, s[i].items + [x], other);
      assert Register(s, name, x) == Put(s, i, s[i].items + [x]);
    } else {
      AppendEffect(s, name, [x], other);
      assert [] + [x] == [x];
    }
    hide WellFormed, Find;
  }

  function Cut(s: seq<Symbol>, i: nat): (t: seq<Symbol>)
    requires i < |s|
    ensures |t| == |s| - 1 && (forall m :: 0 <= m < i ==> t[m] == s[m]) && (forall m :: i <= m < |t| ==> t[m] == s[m + 1])
  {
    s[..i] + s[i + 1..]
  }

  lemma CutWellFormed(s: seq<Symbol>, i: nat)
    requires WellFormed(s) && i < |s|
    ensures WellFormed(Cut(s, i))
  {
    var t := Cut(s, i);
    hide Cut;
    forall a, b | 0 <= a < b < |t| ensures t[a].name != t[b].name {
      assert t[a] == s[if a < i then a else a + 1] && t[b] == s[if b < i then b else b + 1];
    }
    forall a | 0 <= a < |t| ensures t[a].items != [] {
      assert t[a] == s[if a < i then a else a + 1];
    }
  }

  lemma RemoveEffect(s: seq<Symbol>, i: nat, other: string)
    requires WellFormed(s) && i < |s|
    ensures WellFormed(Put(s, i, []))
    ensures Queue(Put(s, i, []), other) == if other == s[i].name then [] else Queue(s, other)
  {
    var t, j := Cut(s, i), Find(s, other, 0);
    assert Put(s, i, []) == t;
    CutWellFormed(s, i);
    hide Cut, Put;
    if j < |s| && other != s[i].name {
      var n := if j < i then j else j - 1;
      assert t[n] == s[j];
      FindIs(t, other, n);
    } else {
      forall m | 0 <= m < |t| ensures t[m].name != other {
        assert t[m] == s[if m < i then m else m + 1];
      }
    }
  }

  lemma PutEffect(s: seq<Symbol>, i: nat, q: seq<Item>, other: string)
    requires WellFormed(s) && i < |s|
    ensures WellFormed(Put(s, i, q))
    ensures Queue(Put(s, i, q), other) == if other == s[i].name then q else Queue(s, other)
  {
    if q == [] {
      RemoveEffect(s, i, other);
    } else {
      var t, j := Put(s, i, q), Find(s, other, 0);
      if j < |s| {
        FindIs(t, other, j);
      } else {
        assert Find(t, other, 0) == |t|;
      }
    }
  }

  /** Whether a queue comes before the place where cleaning goes on. */
  lemma PutPlace(s: seq<Symbol>, i: nat, q: seq<Item>, name: string)
    requires WellFormed(s) && i < |s|
    ensures var t, next := Put(s, i, q), if q == [] then i else i + 1;
            next <= |t| && (Find(t, name, 0) < next <==> Find(s, name, 0) < next)
    ensures q == [] && name == s[i].name ==> Find(s, name, 0) == i
  {
    var t, j := Put(s, i, q), Find(s, name, 0);
    PutEffect(s, i, q, name);
    if j < |s| {
      FindIs(s, name, j);
    }
    if q != [] {
      if j < |s| {
        FindIs(t, name, j);
      }
    } else if j < i {
      assert t[j] == s[j];
      FindIs(t, name, j);
    } else {
      assert forall m :: 0 <= m < i ==> t[m] == s[m];
    }
    if name == s[i].name {
      FindIs(s, name, i);
    }
  }

  /** Cleaning drops the head of exactly those queues that are in for-ever use. */
  lemma {:induction false} CleanEffect(s: seq<Symbol>, i: nat, name: string)
    requires WellFormed(s) && i <= |s|
    ensures WellFormed(Clean(s, i))
    ensures Queue(Clean(s, i), name) == if Find(s, name, 0) < i then Queue(s, name) else DropFirst(Queue(s, name))
    decreases |s| - i
  {
    if i < |s| {
      var q := DropFirst(s[i].items);
      PutEffect(s, i, q, name);
      PutPlace(s, i, q, name);
      if name == s[i].name {
        FindIs(s, name, i);
      }
      hide WellFormed, Put;
      CleanEffect(Put(s, i, q), if q == [] then i else i + 1, name);
    } else {
      NotFound(s, name);
    }
  }

  lemma NotFound(s: seq<Symbol>, name: string)
    ensures Find(s, name, 0) >= |s| ==> Queue(s, name) == []
  {
  }

  // ------------------------------------------------------------------ runs

  datatype Op = WillReturn(name: string, item: Item) | Mock(name: string)

  predicate Possible(s: seq<Symbol>, op: Op) {
    if op.Mock? then Queue(s, op.name) != [] else op.item.count != 0
  }

  function Step(s: seq<Symbol>, op: Op): seq<Symbol>
    requires Possible(s, op)
  {
    if op.Mock? then Take(s, op.name) else Register(s, op.name, op.item)
  }

  /** No call of the run finds its queue empty. */
  ghost predicate Legal(run: seq<Op>)
    decreases |run|, 0
  {
    run == [] || (Legal(run[..|run| - 1]) && Possible(After(run[..|run| - 1]), run[|run| - 1]))
  }

  ghost function After(run: seq<Op>): seq<Symbol>
    requires Legal(run)
    decreases |run|, 1
  {
    if run == [] then [] else Step(After(run[..|run| - 1]), run[|run| - 1])
  }

  /** What a run registers for a function, and what the function's calls return. */
  ghost function Registered(run: seq<Op>, name: string): seq<Item>
    decreases |run|
  {
    if run == [] then []
    else
      var before, op := Registered(run[..|run| - 1], name), run[|run| - 1];
      if op.WillReturn? && op.name == name then before + [op.item] else before
  }

  ghost function Returned(run: seq<Op>, name: string): seq<int>
    requires Legal(run)
    decreases |run|
  {
    if run == [] then []
    else
      var before, op := run[..|run| - 1], run[|run| - 1];
      if op == Mock(name) then Returned(before, name) + [Queue(After(before), name)[0].value] else Returned(before, name)
  }

  ghost predicate Yields(regs: seq<Item>, values: seq<int>) {
    && Counted(regs) && Fits(regs, |values|)
    && forall j :: 0 <= j < |values| ==> Some(values[j]) == ValueAt(regs, j)
  }

  lemma YieldsMore(regs: seq<Item>, x: Item, values: seq<int>)
    requires Yields(regs, values) && x.count != 0
    ensures Yields(regs + [x], values) && Left(regs + [x], |values|) == Left(regs, |values|) + [x]
  {
    RegisterLeft(regs, x, |values|);
    forall j | 0 <= j < |values| ensures Some(values[j]) == ValueAt(regs + [x], j) {
      RegisterValue(regs, x, |values|, j);
    }
  }

  lemma YieldsNext(regs: seq<Item>, values: seq<int>, v: int)
    requires Yields(regs, values) && Left(regs, |values|) != [] && v == Left(regs, |values|)[0].value
    ensures Yields(regs, values + [v]) && Left(regs, |values + [v]|) == Advance(Left(regs, |values|))
  {
    AdvanceLeft(regs, |values|);
  }

  lemma TakeEffect(s: seq<Symbol>, name: string, other: string)
    requires WellFormed(s) && Queue(s, name) != []
    ensures WellFormed(Take(s, name))
    ensures Queue(Take(s, name), other) == if other == name then Advance(Queue(s, name)) else Queue(s, other)
  {
    var i := Find(s, name, 0);
    PutEffect(s, i, Advance(s[i].items), other);
  }

  /** In every run of registrations and calls, on any number of functions, the calls of each
      function return its registered values in order, each as often as its count says, and
      the queue holds what the counts leave over. */
  lemma {:induction false} EveryRunYields(run: seq<Op>, name: string)
    requires Legal(run)
    ensures WellFormed(After(run)) && Yields(Registered(run, name), Returned(run, name))
    ensures Queue(After(run), name) == Left(Registered(run, name), |Returned(run, name)|)
    decreases |run|
  {
    hide WellFormed, Queue, Left, Yields, Take, Register, Advance;
    if run == [] {
      NothingYields(name);
    } else {
      var before, op := run[..|run| - 1], run[|run| - 1];
      EveryRunYields(before, name);
      var s, regs, values := After(before), Registered(before, name), Returned(before, name);
      if op.WillReturn? {
        RegisterEffect(s, op.name, op.item, name);
        if op.name == name {
          YieldsMore(regs, op.item, values);
        }
      } else {
        TakeEffect(s, op.name, name);
        if op.name == name {
          YieldsNext(regs, values, Queue(s, name)[0].value);
        }
      }
    }
  }

  lemma NothingYields(name: string)
    ensures WellFormed([]) && Yields([], []) && Queue([], name) == Left([], 0)
  {
  }

  /** At the end of a test a function is reported exactly when its registrations are not
      used up by the calls it got. */
  lemma ReportedIff(run: seq<Op>, name: string)
    requires Legal(run)
    ensures WellFormed(Clean(After(run), 0))
    ensures Queue(Clean(After(run), 0), name) != [] <==> !UsedUp(Registered(run, name), |Returned(run, name)|)
  {
    EveryRunYields(run, name);
    CleanEffect(After(run), 0, name);
    UsedUpIff(Registered(run, name), |Returned(run, name)|);
  }

  // ------------------------------------------------------------------ the table itself

  class MockTable {
    var symbols: seq<Symbol>

    constructor ()
      ensures symbols == [] && WellFormed(symbols)
    {
      symbols := [];
    }

    method FindSymbol(name: string) returns (i: nat)
      ensures i == Find(symbols, name, 0)
    {
      i := 0;
      while i < |symbols| && symbols[i].name != name
        invariant i <= |symbols| && Find(symbols, name, 0) == Find(symbols, name, i)
      {
        i := i + 1;
      }
    }

    method Add(name: string, value: int, count: int)
      requires count != 0
      modifies this
      ensures symbols == Register(old(symbols), name, Item(value, count))
    {
      var x := Item(value, count);
      var i := FindSymbol(name);
      if i == |symbols| {
        symbols := symbols + [Symbol(name, [])];
        assert symbols[i := Symbol(name, [x])] == old(symbols) + [Symbol(name, [x])];
        assert symbols[i].items + [x] == [x];
      }
      symbols := symbols[i := symbols[i].(items := symbols[i].items + [x])];
    }

    /** The next value for a function; none if nothing is registered. */
    method Get(name: string) returns (value: Option<int>)
      requires WellFormed(symbols)
      modifies this
      ensures old(Queue(symbols, name)) == [] ==> value == None && symbols == old(symbols)
      ensures old(Queue(symbols, name)) != [] ==> value == Some(old(Queue(symbols, name))[0].value)
                                                  && symbols == Take(old(symbols), name)
    {
      hide Find;
      var i := FindSymbol(name);
      if i == |symbols| { return None; }
      var head := symbols[i].items[0];
      CountDown(i);
      return Some(head.value);
    }

    /** Use the first value of a queue once; an emptied queue disappears. */
    method CountDown(i: nat)
      requires i < |symbols| && symbols[i].items != []
      modifies this
      ensures symbols == Put(old(symbols), i, Advance(old(symbols)[i].items))
    {
      var items := symbols[i].items;
      var head := items[0];
      if head.count - 1 == 0 {
        items := items[1..];
      } else if head.count > ONCE {
        items := [head.(count := head.count - 1)] + items[1..];
      }
      symbols := if items == [] then symbols[..i] + symbols[i + 1..] else symbols[i := symbols[i].(items := items)];
    }

    method RemoveAlwaysReturned()
      modifies this
      ensures symbols == Clean(old(symbols), 0)
    {
      var i := 0;
      while i < |symbols|
        invariant i <= |symbols| && Clean(symbols, i) == Clean(old(symbols), 0)
        decreases |symbols| - i
      {
        var items := symbols[i].items;
        if items != [] && items[0].count < -1 {
          items := items[1..];
        }
        if items == [] {
          symbols := symbols[..i] + symbols[i + 1..];
        } else {
          symbols := symbols[i := symbols[i].(items := items)];
          i := i + 1;
        }
      }
    }

    /** How many functions have values left. */
    method CountLeftover() returns (n: nat)
      requires WellFormed(symbols)
      ensures n == |symbols|
      ensures n == 0 <==> forall name :: Queue(symbols, name) == []
    {
      n := 0;
      var i := 0;
      while i < |symbols|
        invariant i <= |symbols| && n == i
      {
        if symbols[i].items != [] { n := n + 1; }
        i := i + 1;
      }
      if n > 0 {
        FindIs(symbols, symbols[0].name, 0);
      }
    }
  }
}
