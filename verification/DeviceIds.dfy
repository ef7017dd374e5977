/** The pool of device ids.  A value is free, or in use with the size it was created for;
    0, 0xFF and 0xFFFF are never handed out. */
module DeviceIds {
  import opened Options

  const COUNT: nat := 0x1_0000
  const LAST_DEV8: nat := 0xFF
  const LAST_DEV16: nat := 0xFFFF

  datatype Size = Invalid | Dev08 | Dev16 | Dev32

  datatype Did = Did(value: nat, size: Size)

  const INVALID_ID := Did(0, Invalid)

  datatype Status = Ok | EInval | EPerm | ENoBufs | ENotUniq | EKeyExpired

  datatype Pool = Pool(ids: seq<Size>, idx: nat)

  /** Reserved values are taken, and the search position is inside the table. */
  predicate GoodPool(p: Pool) {
    && |p.ids| == COUNT && 1 <= p.idx <= COUNT
    && !p.ids[0].Invalid? && !p.ids[LAST_DEV8].Invalid? && !p.ids[LAST_DEV16].Invalid?
  }

  predicate Raw(p: Pool) { |p.ids| == COUNT && (p.idx == 0 || GoodPool(p)) }

  function Blank(): (r: seq<Size>)
    ensures |r| == COUNT
  {
    seq(COUNT, _ => Invalid)
  }

  /** The pool as any operation finds it: set up on first use. */
  function Ready(p: Pool): (r: Pool)
    requires Raw(p)
    ensures GoodPool(r)
  {
    if p.idx == 0 then Pool(Blank()[0 := Dev08][LAST_DEV8 := Dev08][LAST_DEV16 := Dev16], 1) else p
  }

  /** The first free value in `[lo, hi)`, or `hi`. */
  function FirstFree(ids: seq<Size>, lo: nat, hi: nat): (r: nat)
    requires lo <= hi <= |ids|
    ensures lo <= r <= hi
    ensures r < hi ==> ids[r].Invalid?
    ensures forall i :: lo <= i < r ==> !ids[i].Invalid?
    decreases hi - lo
  {
    if lo == hi || ids[lo].Invalid? then lo else FirstFree(ids, lo + 1, hi)
  }

  function Bound(size: Size): nat {
    if size.Dev08? then LAST_DEV8 else LAST_DEV16
  }

  /** Where the search for a free value ends: onward from the position first, then from the
      beginning up to it.  The second search is not limited by the requested size. */
  function Search(p: Pool, size: Size): (r: Option<nat>)
    requires GoodPool(p)
    ensures r.Some? ==> r.value < COUNT && p.ids[r.value].Invalid?
    ensures r.None? ==> forall i :: 1 <= i < Bound(size) ==> !p.ids[i].Invalid?
  {
    var upb := Bound(size);
    var a := if p.idx < upb then FirstFree(p.ids, p.idx, upb) else upb;
    if p.idx < upb && a < upb then Some(a)
    else
      var b := FirstFree(p.ids, 1, p.idx);
      if b < p.idx then Some(b) else None
  }

  function CreateNext(p: Pool, size: Size): (r: (Pool, Did, Status))
    requires Raw(p)
    ensures GoodPool(r.0)
    ensures r.2 != Ok ==> r.0 == Ready(p) && r.1 == INVALID_ID
    ensures r.2 == Ok ==> 0 < r.1.value < LAST_DEV16 && r.1.value != LAST_DEV8 && r.1.size == size
                          && Ready(p).ids[r.1.value].Invalid? && !size.Invalid?
                          && r.0.ids == Ready(p).ids[r.1.value := size]
  {
    var q := Ready(p);
    if !size.Dev08? && !size.Dev16? then (q, INVALID_ID, EPerm)
    else
      match Search(q, size)
      case Some(i) => (Pool(q.ids[i := size], i + 1), Did(i, size), Ok)
      case None => (q, INVALID_ID, ENoBufs)
  }

  /** The sizes and values the explicit operations accept. */
  function Range(value: nat, size: Size): Status {
    if value == 0 || value == LAST_DEV8 then EInval
    else match size
      case Dev08 => if value > LAST_DEV8 then EInval else Ok
      case Dev16 => if value >= LAST_DEV16 then EInval else Ok
      case _ => EPerm
  }

  function CreateValue(p: Pool, value: nat, size: Size): (r: (Pool, Did, Status))
    requires Raw(p)
    ensures GoodPool(r.0)
    ensures r.2 != Ok ==> r.0 == Ready(p) && r.1 == INVALID_ID
    ensures r.2 == Ok ==> r.1 == Did(value, size) && 0 < value < LAST_DEV16 && !size.Invalid?
                          && Ready(p).ids[value].Invalid? && r.0.ids == Ready(p).ids[value := size]
  {
    var q := Ready(p);
    if Range(value, size) != Ok then (q, INVALID_ID, Range(value, size))
    else if q.ids[value].Invalid? then (Pool(q.ids[value := size], q.idx), Did(value, size), Ok)
    else (q, INVALID_ID, ENotUniq)
  }

  function ReleaseId(p: Pool, did: Did): (r: (Pool, Status))
    requires Raw(p)
    ensures Raw(r.0)
    ensures r.1 != Ok ==> r.0 == p
    ensures r.1 == Ok ==> did.value < COUNT && !p.ids[did.value].Invalid? && r.0 == Pool(p.ids[did.value := Invalid], p.idx)
  {
    if Range(did.value, did.size) != Ok then (p, Range(did.value, did.size))
    else if p.ids[did.value].Invalid? then (p, EKeyExpired)
    else (Pool(p.ids[did.value := Invalid], p.idx), Ok)
  }

  function Lookup(p: Pool, value: nat): Status
    requires Raw(p)
  {
    if value == 0 || value == LAST_DEV8 || value >= LAST_DEV16 then EInval
    else if Ready(p).ids[value].Invalid? then EKeyExpired
    else Ok
  }

  /** Releasing a value just created restores the pool exactly when the value fits the size
      it was created for; otherwise the release is refused and the value stays taken. */
  lemma CreateThenRelease(p: Pool, size: Size)
    requires Raw(p) && CreateNext(p, size).2 == Ok
    ensures var c := CreateNext(p, size);
            var r := ReleaseId(c.0, c.1);
            if c.1.value < Bound(size) then r.1 == Ok && r.0.ids == Ready(p).ids else r == (c.0, EInval)
  {
    var c := CreateNext(p, size);
    assert c.0.ids[c.1.value := Invalid] == Ready(p).ids;
  }

  /** An eight-bit request is answered with a value beyond eight bits exactly when the search
      position has moved past them, none of them is free, and a wider value below the
      position is. */
  lemma EightBitOverflowIff(p: Pool)
    requires Raw(p)
    ensures (CreateNext(p, Dev08).2 == Ok && CreateNext(p, Dev08).1.value > LAST_DEV8)
            <==> var q := Ready(p);
                 && (forall i :: 1 <= i < LAST_DEV8 ==> !q.ids[i].Invalid?)
                 && (exists i :: LAST_DEV8 < i < q.idx && i < COUNT && q.ids[i].Invalid?)
  {
    var q := Ready(p);
    var b := FirstFree(q.ids, 1, q.idx);
    if CreateNext(p, Dev08).2 == Ok && CreateNext(p, Dev08).1.value > LAST_DEV8 {
      assert q.ids[b].Invalid?;
    }
  }

  // ------------------------------------------------------------------ what the calls answer

  /** A value that can be an id at all. */
  predicate Proper(value: nat) { 0 < value < LAST_DEV16 && value != LAST_DEV8 }

  /** A value that an explicit operation accepts for this size. */
  predicate Suits(value: nat, size: Size) { Proper(value) && (size.Dev16? || (size.Dev08? && value < LAST_DEV8)) }

  /** A size that ids can have. */
  predicate Sized(size: Size) { size.Dev08? || size.Dev16? }

  datatype IdOp = Next(size: Size) | Explicit(value: nat, size: Size) | Release(did: Did)

  function ApplyId(p: Pool, op: IdOp): (r: Pool)
    requires Raw(p)
    ensures Raw(r)
  {
    match op
    case Next(size) => CreateNext(p, size).0
    case Explicit(value, size) => CreateValue(p, value, size).0
    case Release(did) => ReleaseId(p, did).0
  }

  function AfterIds(p: Pool, run: seq<IdOp>): (r: Pool)
    requires Raw(p)
    ensures Raw(r)
    decreases |run|
  {
    if run == [] then p else AfterIds(ApplyId(p, run[0]), run[1..])
  }

  /** The call reports that it created, or released, this value. */
  predicate CreatesId(p: Pool, op: IdOp, value: nat)
    requires Raw(p)
  {
    match op
    case Next(size) => CreateNext(p, size).2 == Ok && CreateNext(p, size).1.value == value
    case Explicit(v, size) => CreateValue(p, v, size).2 == Ok && v == value
    case Release(_) => false
  }

  predicate ReleasesId(p: Pool, op: IdOp, value: nat)
    requires Raw(p)
  {
    op.Release? && op.did.value == value && ReleaseId(p, op.did).1 == Ok
  }

  /** Whether the last call of the run that created or released the value created it. */
  function Held(p: Pool, run: seq<IdOp>, value: nat, before: bool): bool
    requires Raw(p)
    decreases |run|
  {
    if run == [] then before
    else
      Held(ApplyId(p, run[0]), run[1..], value,
           if CreatesId(p, run[0], value) then true else if ReleasesId(p, run[0], value) then false else before)
  }

  ghost predicate Taken(p: Pool, value: nat)
    requires Raw(p) && value < COUNT
  {
    !Ready(p).ids[value].Invalid?
  }

  lemma TakenStep(p: Pool, op: IdOp, value: nat)
    requires Raw(p) && Proper(value)
    ensures Taken(ApplyId(p, op), value) <==>
              if CreatesId(p, op, value) then true else if ReleasesId(p, op, value) then false else Taken(p, value)
  {
    hide FirstFree, Search;
  }

  lemma {:induction false} TakenIsHeld(p: Pool, run: seq<IdOp>, value: nat)
    requires Raw(p) && Proper(value)
    ensures Taken(AfterIds(p, run), value) <==> Held(p, run, value, Taken(p, value))
    decreases |run|
  {
    if run != [] {
      TakenStep(p, run[0], value);
      TakenIsHeld(ApplyId(p, run[0]), run[1..], value);
    }
  }

  /** From the start, whatever has been created and released: an id is good exactly when it was
      created and not released since, a proper value without that is expired, and any other
      value is refused. */
  lemma LookupTells(p: Pool, run: seq<IdOp>, value: nat)
    requires Raw(p) && p.idx == 0
    ensures Lookup(AfterIds(p, run), value) ==
            if !Proper(value) then EInval else if Held(p, run, value, false) then Ok else EKeyExpired
  {
    if Proper(value) {
      TakenIsHeld(p, run, value);
    }
  }

  /** An explicit creation succeeds exactly when the value suits the size and is not taken. */
  lemma CreateValueIff(p: Pool, value: nat, size: Size)
    requires Raw(p)
    ensures CreateValue(p, value, size).2 == Ok <==> Suits(value, size) && !Taken(p, value)
    ensures CreateValue(p, value, size).2 == ENotUniq <==> Suits(value, size) && Taken(p, value)
    ensures CreateValue(p, value, size).0.idx == Ready(p).idx
    ensures !Suits(value, size) ==>
              CreateValue(p, value, size).2 == if Sized(size) || value == 0 || value == LAST_DEV8 then EInval else EPerm
  {
  }

  /** A release succeeds exactly when the value suits the size named and is taken. */
  lemma ReleaseIff(p: Pool, did: Did)
    requires Raw(p)
    ensures ReleaseId(p, did).1 == Ok <==> Suits(did.value, did.size) && !p.ids[did.value].Invalid?
    ensures ReleaseId(p, did).1 == EKeyExpired <==> Suits(did.value, did.size) && p.ids[did.value].Invalid?
    ensures ReleaseId(p, did).1 == Ok ==> !Taken(ReleaseId(p, did).0, did.value)
    ensures ReleaseId(p, did).0.idx == p.idx
    ensures !Suits(did.value, did.size) ==>
              ReleaseId(p, did).1 == if Sized(did.size) || did.value == 0 || did.value == LAST_DEV8 then EInval else EPerm
  {
  }

  ghost predicate NoneFree(p: Pool, lo: nat, hi: nat)
    requires Raw(p)
  {
    forall i :: lo <= i < hi && Proper(i) ==> Taken(p, i)
  }

  /** The id drawn is the first free one from the position on, below the bound of the size; if
      there is none, the first free one below the position.  Otherwise none can be drawn. */
  lemma DrawnInTurn(p: Pool, size: Size)
    requires Raw(p)
    ensures !Sized(size) ==> CreateNext(p, size).2 == EPerm
    ensures Sized(size) ==>
            var r, q, n := CreateNext(p, size), Ready(p), CreateNext(p, size).1.value;
            && r.2 == (if NoneFree(p, 1, Bound(size)) && NoneFree(p, 1, q.idx) then ENoBufs else Ok)
            && (r.2 == Ok ==>
                  && r.0.idx == n + 1
                  && if q.idx <= n < Bound(size) then NoneFree(p, q.idx, n)
                     else n < q.idx && NoneFree(p, q.idx, Bound(size)) && NoneFree(p, 1, n))
  {
    var q := Ready(p);
    assert forall i :: 0 <= i < COUNT && q.ids[i].Invalid? ==> Proper(i);
  }

  // ------------------------------------------------------------------ the table itself

  class DidTable {
    const ids: array<Size>
    var idx: nat

    ghost predicate Valid()
      reads this, ids
    {
      ids.Length == COUNT && Raw(Model())
    }

    ghost function Model(): Pool
      reads this, ids
    {
      Pool(ids[..], idx)
    }

    constructor ()
      ensures Valid() && fresh(ids) && idx == 0
    {
      ids := new Size[COUNT](_ => Invalid);
      idx := 0;
    }

    method Initialize()
      requires Valid()
      modifies this, ids
      ensures Valid() && Model() == Ready(old(Model()))
    {
      if idx == 0 {
        var i := 0;
        while i < COUNT
          invariant i <= COUNT && idx == 0
          invariant forall j :: 0 <= j < i ==> ids[j].Invalid?
        {
          ids[i] := Invalid;
          i := i + 1;
        }
        ghost var blank := ids[..];
        assert blank == Blank();
        ids[0] := Dev08;
        assert ids[..] == blank[0 := Dev08];
        ids[LAST_DEV8] := Dev08;
        assert ids[..] == blank[0 := Dev08][LAST_DEV8 := Dev08];
        ids[LAST_DEV16] := Dev16;
        idx := 1;
      }
    }

    method FindFree(lo: nat, hi: nat) returns (r: nat)
      requires Valid() && lo <= hi <= COUNT
      ensures r == FirstFree(ids[..], lo, hi)
    {
      r := lo;
      while r < hi && !ids[r].Invalid?
        invariant lo <= r <= hi && FirstFree(ids[..], lo, hi) == FirstFree(ids[..], r, hi)
      {
        r := r + 1;
      }
    }

    method SearchFree(size: Size) returns (r: Option<nat>)
      requires Valid() && idx != 0
      ensures r == Search(Model(), size)
    {
      var upb := Bound(size);
      if idx < upb {
        var a := FindFree(idx, upb);
        if a < upb { return Some(a); }
      }
      var b := FindFree(1, idx);
      return if b < idx then Some(b) else None;
    }

    method CreateDid(size: Size) returns (did: Did, rc: Status)
      requires Valid()
      modifies this, ids
      ensures Valid() && (Model(), did, rc) == CreateNext(old(Model()), size)
    {
      Initialize();
      if !size.Dev08? && !size.Dev16? { return INVALID_ID, EPerm; }
      var found := SearchFree(size);
      if found.None? { return INVALID_ID, ENoBufs; }
      ids[found.value] := size;
      idx := found.value + 1;
      return Did(found.value, size), Ok;
    }

    method CreateDidFromData(value: nat, size: Size) returns (did: Did, rc: Status)
      requires Valid()
      modifies this, ids
      ensures Valid() && (Model(), did, rc) == CreateValue(old(Model()), value, size)
    {
      Initialize();
      rc := Range(value, size);
      if rc != Ok { return INVALID_ID, rc; }
      if !ids[value].Invalid? { return INVALID_ID, ENotUniq; }
      ids[value] := size;
      did := Did(value, size);
    }

    method GetDid(value: nat) returns (rc: Status)
      requires Valid()
      modifies this, ids
      ensures Valid() && Model() == Ready(old(Model())) && rc == Lookup(old(Model()), value)
      ensures rc == Ok <==> Proper(value) && Taken(old(Model()), value)
      ensures rc == EKeyExpired <==> Proper(value) && !Taken(old(Model()), value)
    {
      Initialize();
      if value == 0 || value == LAST_DEV8 || value >= LAST_DEV16 { return EInval; }
      if ids[value].Invalid? { return EKeyExpired; }
      return Ok;
    }

    method ReleaseDid(did: Did) returns (rc: Status)
      requires Valid()
      modifies this, ids
      ensures Valid() && (Model(), rc) == ReleaseId(old(Model()), did)
    {
      rc := Range(did.value, did.size);
      if rc != Ok { return; }
      if ids[did.value].Invalid? { return EKeyExpired; }
      ids[did.value] := Invalid;
    }
  }
}
