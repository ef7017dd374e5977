/** The ring buffer that keeps the latest log lines. */
module RingLog {

  /** The last `n` elements. */
  function Latest<T>(n: nat, s: seq<T>): (r: seq<T>)
    ensures |r| == if |s| < n then |s| else n
    ensures forall i :: 0 <= i < |r| ==> r[i] == s[|s| - |r| + i]
  {
    if |s| <= n then s else s[|s| - n..]
  }

  datatype Op<T> = Push(x: T) | Clear | Dump

  function Step<T>(n: nat, s: seq<T>, op: Op<T>): seq<T> {
    match op
    case Push(x) => Latest(n, s + [x])
    case Clear => []
    case Dump => s
  }

  function After<T>(n: nat, s: seq<T>, run: seq<Op<T>>): seq<T>
    decreases |run|
  {
    if run == [] then s else After(n, Step(n, s, run[0]), run[1..])
  }

  /** Everything pushed since the last clearing. */
  function Since<T>(s: seq<T>, run: seq<Op<T>>): seq<T>
    decreases |run|
  {
    if run == [] then s
    else match run[0]
      case Push(x) => Since(s + [x], run[1..])
      case Clear => Since([], run[1..])
      case Dump => Since(s, run[1..])
  }

  /** After any run the buffer holds the latest values pushed since the last clearing. */
  lemma {:induction false} HoldsTheLatest<T>(n: nat, s: seq<T>, run: seq<Op<T>>)
    ensures After(n, Latest(n, s), run) == Latest(n, Since(s, run))
    decreases |run|
  {
    if run != [] {
      match run[0]
      case Push(x) =>
        assert Latest(n, Latest(n, s) + [x]) == Latest(n, s + [x]);
        HoldsTheLatest(n, s + [x], run[1..]);
      case Clear =>
        var none: seq<T> := [];
        assert Latest(n, none) == none;
        HoldsTheLatest(n, none, run[1..]);
      case Dump => HoldsTheLatest(n, s, run[1..]);
    }
  }

  lemma LatestNext<T>(n: nat, s: seq<T>, x: T)
    requires 0 < n && |s| <= n
    ensures Latest(n, s + [x]) == (if |s| < n then s else s[1..]) + [x]
  {
  }

  class CircBuf<T> {
    const buffer: array<T>
    var head: nat
    var tail: nat
    var n: nat

    /** Position `i` of the buffer, counted from `from`. */
    function At(from: nat, i: nat): (r: nat)
      requires from < buffer.Length && i <= buffer.Length
      ensures r < buffer.Length
    {
      if from + i < buffer.Length then from + i else from + i - buffer.Length
    }

    ghost predicate Valid()
      reads this
    {
      && head < buffer.Length && tail < buffer.Length && n <= buffer.Length
      && (if n == 0 then tail == head else tail == At(head, n - 1))
    }

    ghost function Contents(): (r: seq<T>)
      requires Valid()
      reads this, buffer
      ensures |r| == n && forall i :: 0 <= i < n ==> r[i] == buffer[At(head, i)]
    {
      seq(n, i requires 0 <= i < n && Valid() reads this, buffer => buffer[At(head, i)])
    }

    constructor (buffer: array<T>)
      requires buffer.Length >= 1
      ensures Valid() && this.buffer == buffer && Contents() == []
    {
      this.buffer, head, tail, n := buffer, 0, 0, 0;
    }

    method Increment(i: nat) returns (r: nat)
      requires i < buffer.Length
      ensures r == At(i, 1)
    {
      r := i + 1;
      if r == buffer.Length { r := 0; }
    }

    method PushBack(x: T)
      requires Valid()
      modifies this, buffer
      ensures Valid() && Contents() == Step(buffer.Length, old(Contents()), Push(x))
    {
      ghost var was := Contents();
      LatestNext(buffer.Length, was, x);
      hide Latest, Contents;
      if n == 0 {
        AddFirst(x);
      } else {
        if n == buffer.Length {
          DropOldest();
        }
        AddAtTail(x);
      }
    }

    method AddFirst(x: T)
      requires Valid() && n == 0
      modifies this`n, buffer
      ensures Valid() && Contents() == [x]
    {
      buffer[tail] := x;
      n := n + 1;
    }

    method DropOldest()
      requires Valid() && n == buffer.Length
      modifies this`head, this`n
      ensures Valid() && Contents() == old(Contents())[1..]
    {
      head := Increment(head);
      n := n - 1;
      forall i | 0 <= i < n ensures At(head, i) == At(old(head), i + 1) {
      }
    }

    method AddAtTail(x: T)
      requires Valid() && n < buffer.Length && (n == 0 ==> buffer.Length == 1)
      modifies this`tail, this`n, buffer
      ensures Valid() && Contents() == old(Contents()) + [x]
    {
      tail := Increment(tail);
      buffer[tail] := x;
      n := n + 1;
      forall i | 0 <= i < n - 1 ensures At(head, i) != tail {
      }
    }

    /** Emits the contents, oldest first, and leaves the buffer as it was. */
    method Write() returns (out: seq<T>)
      requires Valid()
      modifies this`head
      ensures Valid() && head == old(head) && out == Contents()
    {
      if n == 0 { return []; }
      if n == 1 { return [buffer[head]]; }
      var start := head;
      out := [];
      while head != tail
        invariant head < buffer.Length && |out| < n && head == At(start, |out|)
        invariant forall i :: 0 <= i < |out| ==> out[i] == buffer[At(start, i)]
        decreases n - |out|
      {
        out := out + [buffer[head]];
        head := Increment(head);
      }
      out := out + [buffer[tail]];
      head := start;
    }

    method Reset()
      requires Valid()
      modifies this
      ensures Valid() && Contents() == []
    {
      head, tail, n := 0, 0, 0;
    }
  }
}
