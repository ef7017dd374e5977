/** The component-tag allocator.  A tag packs a sixteen-bit number with a device id.  A
    number is free (0), in use by that many tags (1 and up), or expired (-1): once its last
    tag is released it is never used again.

    The operations are given as functions on `Tags`; the table at the end carries them out
    on an array. */
module CompTags {
  import opened Options
  import opened DeviceIds

  const NUMBERS: nat := 0x1_0000
  const UNSET: nat := 0

  /** The tag table, the position after the last automatic choice, and the device-id pool. */
  datatype Tags = Tags(ids: seq<int>, idx: nat, pool: Pool)

  predicate Good(t: Tags) {
    && |t.ids| == NUMBERS && t.idx < NUMBERS && Raw(t.pool)
    && (forall i :: 0 <= i < NUMBERS ==> t.ids[i] >= -1)
    && (t.idx != 0 ==> t.ids[0] == -1)
  }

  // ------------------------------------------------------------------ packing

  function Pack(nr: nat, did: nat): (ct: nat)
    requires nr < NUMBERS
    ensures ct < 0x1_0000_0000
  {
    nr * 0x1_0000 + did % 0x1_0000
  }

  function TagNumber(ct: nat): (nr: nat)
    ensures nr < NUMBERS
  {
    (ct / 0x1_0000) % 0x1_0000
  }

  function TagDid(ct: nat): (did: nat)
    ensures did < COUNT
  {
    ct % 0x1_0000
  }

  /** Packing a number with a device id and unpacking gives both back, and no tag with a
      valid number is the unset tag. */
  lemma PackUnpack(nr: nat, did: nat)
    requires nr < NUMBERS && did < COUNT
    ensures TagNumber(Pack(nr, did)) == nr && TagDid(Pack(nr, did)) == did
    ensures nr != 0 ==> Pack(nr, did) != UNSET
  {
    var ct := nr * 0x1_0000 + did;
    assert did % 0x1_0000 == did;
    assert ct % 0x1_0000 == did && ct / 0x1_0000 == nr;
  }

  lemma PackNumber(nr: nat, did: nat)
    requires nr < NUMBERS
    ensures TagNumber(Pack(nr, did)) == nr
  {
  }

  // ------------------------------------------------------------------ operations

  /** Set up on first use, and again whenever the position has wrapped round to 0. */
  function Init(t: Tags): (r: Tags)
    requires Good(t)
    ensures Good(r) && r.idx != 0
  {
    if t.idx == 0 then t.(ids := t.ids[0 := -1], idx := 1) else t
  }

  function FreeFrom(ids: seq<int>, lo: nat, hi: nat): (r: nat)
    requires lo <= hi <= |ids|
    ensures lo <= r <= hi
    ensures r < hi ==> ids[r] == 0
    ensures forall i :: lo <= i < r ==> ids[i] != 0
    decreases hi - lo
  {
    if lo == hi || ids[lo] == 0 then lo else FreeFrom(ids, lo + 1, hi)
  }

  /** The next free number: from the position to the end, then from the beginning. */
  function NextNumber(t: Tags): (r: Option<nat>)
    requires Good(t) && t.idx != 0
    ensures r.Some? ==> 0 < r.value < NUMBERS && t.ids[r.value] == 0
    ensures r.None? <==> forall i :: 1 <= i < NUMBERS ==> t.ids[i] != 0
  {
    var a := FreeFrom(t.ids, t.idx, NUMBERS);
    if a < NUMBERS then Some(a)
    else
      var b := FreeFrom(t.ids, 1, t.idx);
      if b < t.idx then Some(b) else None
  }

  /** One more tag uses this number.  The position moves on only for automatic choices; it
      is sixteen bits wide and wraps. */
  function Use(t: Tags, nr: nat, auto: bool): (r: Tags)
    requires Good(t) && t.idx != 0 && 0 < nr < NUMBERS && t.ids[nr] >= 0
    ensures Good(r)
  {
    t.(ids := t.ids[nr := t.ids[nr] + 1], idx := if auto then (nr + 1) % NUMBERS else t.idx)
  }

  datatype Made = Made(tags: Tags, ct: nat, did: Did, rc: Status)

  function CreateAll(t: Tags, size: Size): (r: Made)
    requires Good(t)
    ensures Good(r.tags)
  {
    var u := Init(t);
    match NextNumber(u)
    case None => Made(u, UNSET, INVALID_ID, ENoBufs)
    case Some(nr) =>
      var c := CreateNext(u.pool, size);
      var v := u.(pool := c.0);
      if c.2 != Ok then Made(v, UNSET, c.1, c.2)
      else Made(Use(v, nr, true), Pack(nr, c.1.value), c.1, Ok)
  }

  function CreateFromNrAndDid(t: Tags, nr: nat, did: Did): (r: Made)
    requires Good(t) && nr < NUMBERS
    ensures Good(r.tags)
  {
    var u := Init(t);
    if u.ids[nr] == -1 then Made(u, UNSET, did, EKeyExpired)
    else if Lookup(u.pool, did.value) != Ok then Made(u.(pool := Ready(u.pool)), UNSET, did, Lookup(u.pool, did.value))
    else Made(Use(u.(pool := Ready(u.pool)), nr, false), Pack(nr, did.value), did, Ok)
  }

  function CreateFromData(t: Tags, nr: nat, value: nat, size: Size): (r: Made)
    requires Good(t) && nr < NUMBERS
    ensures Good(r.tags)
  {
    var u := Init(t);
    var c := CreateValue(u.pool, value, size);
    if c.2 != Ok then Made(u.(pool := c.0), UNSET, c.1, c.2)
    else
      var m := CreateFromNrAndDid(u.(pool := c.0), nr, c.1);
      if m.rc == Ok then m
      else Made(m.tags.(pool := ReleaseId(m.tags.pool, c.1).0), UNSET, INVALID_ID, m.rc)
  }

  function CreateFromDid(t: Tags, did: Did): (r: Made)
    requires Good(t)
    ensures Good(r.tags)
  {
    var u := Init(t);
    match NextNumber(u)
    case None => Made(u, UNSET, did, ENoBufs)
    case Some(nr) =>
      var v := u.(pool := Ready(u.pool));
      if Lookup(u.pool, did.value) != Ok then Made(v, UNSET, did, Lookup(u.pool, did.value))
      else Made(Use(v, nr, true), Pack(nr, did.value), did, Ok)
  }

  function ReleaseTag(t: Tags, ct: nat, did: Did): (r: (Tags, Status))
    requires Good(t)
    ensures Good(r.0)
  {
    var nr := TagNumber(ct);
    if nr == 0 || t.ids[nr] < 1 then (t, EInval)
    else
      var d := ReleaseId(t.pool, did);
      if d.1 != Ok then (t, d.1)
      else (t.(ids := t.ids[nr := if t.ids[nr] == 1 then -1 else t.ids[nr] - 1], pool := d.0), Ok)
  }

  // ------------------------------------------------------------------ what the calls answer

  ghost predicate SomeFree(t: Tags)
    requires Good(t)
  {
    exists n :: 1 <= n < NUMBERS && t.ids[n] == 0
  }

  /** An id that is in use now. */
  ghost predicate Usable(t: Tags, value: nat)
    requires Good(t)
  {
    Proper(value) && Taken(t.pool, value)
  }

  /** What is wrong with an id, if anything: it is none, or it is not in use. */
  ghost function IdStatus(t: Tags, value: nat): Status
    requires Good(t)
  {
    if Usable(t, value) then Ok else if Proper(value) then EKeyExpired else EInval
  }

  /** A tag for a device id succeeds exactly when a number is free and the id is in use.  It packs
      that id. */
  lemma FromDidIff(t: Tags, did: Did)
    requires Good(t)
    ensures var r := CreateFromDid(t, did);
            && (r.rc == Ok <==> SomeFree(t) && Usable(t, did.value))
            && r.rc == (if !SomeFree(t) then ENoBufs else IdStatus(t, did.value))
            && (r.rc == Ok ==> TagDid(r.ct) == did.value && r.did == did)
  {
    ExhaustedIff(t, did, Dev16);
    if CreateFromDid(t, did).rc == Ok {
      PackUnpack(NextNumber(Init(t)).value, did.value);
    }
    hide NextNumber, Pack, TagDid, Init;
  }

  /** A tag with a given number succeeds exactly when the number is not 0 and has not expired and
      the id is in use.  It packs both. */
  lemma FromNrAndDidIff(t: Tags, nr: nat, did: Did)
    requires Good(t) && nr < NUMBERS
    ensures var r := CreateFromNrAndDid(t, nr, did);
            && (r.rc == Ok <==> nr != 0 && t.ids[nr] != -1 && Usable(t, did.value))
            && r.rc == (if nr == 0 || t.ids[nr] == -1 then EKeyExpired else IdStatus(t, did.value))
            && (r.rc == Ok ==> TagNumber(r.ct) == nr && TagDid(r.ct) == did.value && r.did == did)
            && r.tags.idx == if t.idx == 0 then 1 else t.idx
  {
    if CreateFromNrAndDid(t, nr, did).rc == Ok {
      PackUnpack(nr, did.value);
    }
    hide Pack, TagDid, TagNumber;
  }

  /** A tag with a given number and a new id succeeds exactly when the number is not 0 and has not
      expired, and the value suits the size and is not in use.  It packs both. */
  lemma FromDataIff(t: Tags, nr: nat, value: nat, size: Size)
    requires Good(t) && nr < NUMBERS
    ensures var r := CreateFromData(t, nr, value, size);
            && (r.rc == Ok <==> nr != 0 && t.ids[nr] != -1 && Suits(value, size) && !Taken(t.pool, value))
            && (r.rc == Ok ==> TagNumber(r.ct) == nr && TagDid(r.ct) == value && r.did == Did(value, size))
            && (r.rc == Ok ==> Usable(r.tags, value))
            && (Suits(value, size) && !Taken(t.pool, value) && r.rc != Ok ==> r.rc == EKeyExpired)
            && (Suits(value, size) && Taken(t.pool, value) ==> r.rc == ENotUniq)
  {
    var u := Init(t);
    CreateValueIff(u.pool, value, size);
    var c := CreateValue(u.pool, value, size);
    if c.2 == Ok {
      FromNrAndDidIff(u.(pool := c.0), nr, c.1);
    }
    hide Pack, TagDid, TagNumber, Range, Lookup;
  }

  /** A wholly new tag succeeds exactly when a number is free and an id can be drawn.  It packs
      that id. */
  lemma AllIff(t: Tags, size: Size)
    requires Good(t)
    ensures var r := CreateAll(t, size);
            && (r.rc == Ok <==> SomeFree(t) && CreateNext(t.pool, size).2 == Ok)
            && (r.rc == Ok ==> r.did == CreateNext(t.pool, size).1)
            && (r.rc == Ok ==> TagDid(r.ct) == r.did.value && Usable(r.tags, r.did.value))
  {
    ExhaustedIff(t, INVALID_ID, size);
    if CreateAll(t, size).rc == Ok {
      PackUnpack(NextNumber(Init(t)).value, CreateNext(t.pool, size).1.value);
    }
    hide NextNumber, Pack, TagDid, TagNumber, Search;
  }

  /** A release succeeds exactly when its number is in use and the id can be released: it suits the
      size named and is in use. */
  lemma ReleaseTagIff(t: Tags, ct: nat, did: Did)
    requires Good(t)
    ensures ReleaseTag(t, ct, did).1 == Ok <==>
              && TagNumber(ct) != 0 && t.ids[TagNumber(ct)] >= 1
              && Suits(did.value, did.size) && !t.pool.ids[did.value].Invalid?
    ensures ReleaseTag(t, ct, did).1 == Ok ==> !Taken(ReleaseTag(t, ct, did).0.pool, did.value)
    ensures ReleaseTag(t, ct, did).0.idx == t.idx
    ensures TagNumber(ct) == 0 || t.ids[TagNumber(ct)] < 1 ==> ReleaseTag(t, ct, did).1 == EInval
  {
    ReleaseIff(t.pool, did);
    hide TagNumber, Range;
  }

  /** An automatic choice takes the first free number from the position on, or if there is none the
      first free one before it, and moves the position past it. */
  lemma ChosenInTurn(t: Tags, op: Op)
    requires Good(t) && Chooses(op) && Apply(t, op).rc == Ok
    ensures var n, at := TagNumber(Apply(t, op).ct), if t.idx == 0 then 1 else t.idx;
            && Apply(t, op).tags.idx == (n + 1) % NUMBERS && n != 0
            && (forall i :: 1 <= i < n && (n < at || at <= i) ==> t.ids[i] != 0)
            && (n < at ==> forall i :: at <= i < NUMBERS ==> t.ids[i] != 0)
  {
    var u := Init(t);
    var nr := NextNumber(u).value;
    PackNumber(nr, Apply(t, op).did.value);
    assert forall i :: 1 <= i < NUMBERS ==> u.ids[i] == t.ids[i];
    hide Pack, TagNumber;
  }

  // ------------------------------------------------------------------ failures change nothing

  /** The same table up to the set-up that any call may trigger. */
  predicate SameTags(a: Tags, b: Tags)
    requires Good(a) && Good(b)
  {
    Init(a).ids == Init(b).ids && Ready(a.pool).ids == Ready(b.pool).ids
  }

  /** A call that reports failure leaves every tag number and every device id as it was;
      in particular the id that an explicit creation had already reserved is given back. */
  lemma FailureChangesNothing(t: Tags, op: Op)
    requires Good(t) && Sensible(op) && Apply(t, op).rc != Ok
    ensures SameTags(Apply(t, op).tags, t)
    ensures if op.Free? then Apply(t, op).tags == t else Apply(t, op).ct == UNSET
  {
    if op.FromData? {
      FromDataFails(t, op.nr, op.value, op.size);
    }
  }

  lemma FromDataFails(t: Tags, nr: nat, value: nat, size: Size)
    requires Good(t) && nr < NUMBERS
    ensures CreateFromData(t, nr, value, size).rc != Ok ==>
              SameTags(CreateFromData(t, nr, value, size).tags, t) && CreateFromData(t, nr, value, size).ct == UNSET
  {
    var u := Init(t);
    var c := CreateValue(u.pool, value, size);
    if c.2 == Ok {
      assert c.0.ids[value := Invalid] == Ready(u.pool).ids;
    }
  }

  // ------------------------------------------------------------------ the life of a number

  datatype Op =
    | All(size: Size)
    | FromData(nr: nat, value: nat, size: Size)
    | FromNrAndDid(nr: nat, did: Did)
    | FromDid(did: Did)
    | Free(ct: nat, did: Did)

  predicate Sensible(op: Op) { (op.FromData? || op.FromNrAndDid?) ==> op.nr < NUMBERS }

  function Apply(t: Tags, op: Op): (r: Made)
    requires Good(t) && Sensible(op)
    ensures Good(r.tags)
  {
    match op
    case All(size) => CreateAll(t, size)
    case FromData(nr, value, size) => CreateFromData(t, nr, value, size)
    case FromNrAndDid(nr, did) => CreateFromNrAndDid(t, nr, did)
    case FromDid(did) => CreateFromDid(t, did)
    case Free(ct, did) => var r := ReleaseTag(t, ct, did); Made(r.0, ct, did, r.1)
  }

  /** 0 while free, 1 while in use, 2 once expired. */
  function Life(n: int): nat { if n == 0 then 0 else if n > 0 then 1 else 2 }

  predicate Creates(op: Op) { !op.Free? }
  predicate Chooses(op: Op) { op.All? || op.FromDid? }

  /** One number gains a tag, or loses one and expires with the last; the rest stay put. */
  ghost predicate Gains(a: seq<int>, b: seq<int>, n: nat) {
    && |a| == |b| == NUMBERS && 0 < n < NUMBERS && a[n] >= 0 && b[n] == a[n] + 1
    && forall i :: 1 <= i < NUMBERS && i != n ==> b[i] == a[i]
  }

  ghost predicate Loses(a: seq<int>, b: seq<int>, n: nat) {
    && |a| == |b| == NUMBERS && 0 < n < NUMBERS && a[n] >= 1 && b[n] == (if a[n] == 1 then -1 else a[n] - 1)
    && forall i :: 1 <= i < NUMBERS && i != n ==> b[i] == a[i]
  }

  lemma ChoiceEffect(t: Tags, op: Op)
    requires Good(t) && Chooses(op) && Apply(t, op).rc == Ok
    ensures Gains(t.ids, Apply(t, op).tags.ids, TagNumber(Apply(t, op).ct))
    ensures t.ids[TagNumber(Apply(t, op).ct)] == 0
  {
    var nr := NextNumber(Init(t)).value;
    PackNumber(nr, Apply(t, op).did.value);
    hide Pack, TagNumber;
  }

  lemma ExplicitEffect(t: Tags, nr: nat, did: Did)
    requires Good(t) && nr < NUMBERS && CreateFromNrAndDid(t, nr, did).rc == Ok
    ensures var r := CreateFromNrAndDid(t, nr, did); Gains(t.ids, r.tags.ids, TagNumber(r.ct))
  {
    PackNumber(nr, did.value);
    hide Pack, TagNumber;
  }

  lemma FromDataEffect(t: Tags, nr: nat, value: nat, size: Size)
    requires Good(t) && nr < NUMBERS && CreateFromData(t, nr, value, size).rc == Ok
    ensures var r := CreateFromData(t, nr, value, size); Gains(t.ids, r.tags.ids, TagNumber(r.ct))
  {
    var u := Init(t);
    var c := CreateValue(u.pool, value, size);
    ExplicitEffect(u.(pool := c.0), nr, c.1);
  }

  /** What one call does to the table: nothing but set-up if it fails, otherwise one number
      gains or loses exactly one tag. */
  lemma ApplyEffect(t: Tags, op: Op)
    requires Good(t) && Sensible(op)
    ensures var r := Apply(t, op);
            && (r.rc != Ok ==> forall i :: 1 <= i < NUMBERS ==> r.tags.ids[i] == t.ids[i])
            && (r.rc == Ok && Creates(op) ==> Gains(t.ids, r.tags.ids, TagNumber(r.ct)))
            && (r.rc == Ok && op.Free? ==> Loses(t.ids, r.tags.ids, TagNumber(r.ct)))
  {
    var r := Apply(t, op);
    if r.rc != Ok {
      FailureChangesNothing(t, op);
    } else {
      match op
      case FromNrAndDid(nr, did) => ExplicitEffect(t, nr, did);
      case FromData(nr, value, size) => FromDataEffect(t, nr, value, size);
      case Free(_, _) =>
      case _ => ChoiceEffect(t, op);
    }
  }

  ghost predicate Legal(t: Tags, run: seq<Op>)
    decreases |run|
  {
    Good(t) && (run != [] ==> Sensible(run[0]) && Legal(Apply(t, run[0]).tags, run[1..]))
  }

  ghost function After(t: Tags, run: seq<Op>): (r: Tags)
    requires Legal(t, run)
    ensures Good(r)
    decreases |run|
  {
    if run == [] then t else After(Apply(t, run[0]).tags, run[1..])
  }

  /** Over any run a number only ever moves from free to in use to expired. */
  lemma {:induction false} LifeMovesOn(t: Tags, run: seq<Op>, n: nat)
    requires Legal(t, run) && 0 < n < NUMBERS
    ensures Life(After(t, run).ids[n]) >= Life(t.ids[n])
    decreases |run|
  {
    if run != [] {
      ApplyEffect(t, run[0]);
      LifeMovesOn(Apply(t, run[0]).tags, run[1..], n);
    }
  }

  /** An automatic choice never returns a number that any earlier call of the run returned,
      whatever was created and released in between and however often the position wrapped. */
  lemma NeverReused(t: Tags, first: Op, between: seq<Op>, again: Op)
    requires Good(t) && Sensible(first) && Creates(first) && Apply(t, first).rc == Ok
    requires Legal(Apply(t, first).tags, between)
    requires Chooses(again) && Apply(After(Apply(t, first).tags, between), again).rc == Ok
    ensures var u := After(Apply(t, first).tags, between);
            TagNumber(Apply(u, again).ct) != TagNumber(Apply(t, first).ct)
  {
    var n := TagNumber(Apply(t, first).ct);
    var u := After(Apply(t, first).tags, between);
    ApplyEffect(t, first);
    LifeMovesOn(Apply(t, first).tags, between, n);
    ChoiceEffect(u, again);
  }

  /** An automatic choice reports that there are no numbers left exactly when every one of
      1..65535 is in use or expired; for the variant that also draws a device id, unless the
      ids are what ran out. */
  lemma ExhaustedIff(t: Tags, did: Did, size: Size)
    requires Good(t)
    ensures CreateFromDid(t, did).rc == ENoBufs <==> forall i :: 1 <= i < NUMBERS ==> t.ids[i] != 0
    ensures CreateAll(t, size).rc == ENoBufs <==>
              (forall i :: 1 <= i < NUMBERS ==> t.ids[i] != 0) || CreateNext(t.pool, size).2 == ENoBufs
  {
    var u := Init(t);
    assert forall i :: 1 <= i < NUMBERS ==> u.ids[i] == t.ids[i];
  }

  // ------------------------------------------------------------------ the count of a number

  /** How many calls of the run created, and released, a tag with this number. */
  ghost function Created(t: Tags, run: seq<Op>, n: nat): nat
    requires Legal(t, run)
    decreases |run|
  {
    if run == [] then 0
    else
      var r := Apply(t, run[0]);
      (if Creates(run[0]) && r.rc == Ok && TagNumber(r.ct) == n then 1 else 0) + Created(r.tags, run[1..], n)
  }

  ghost function Released(t: Tags, run: seq<Op>, n: nat): nat
    requires Legal(t, run)
    decreases |run|
  {
    if run == [] then 0
    else
      var r := Apply(t, run[0]);
      (if run[0].Free? && r.rc == Ok && TagNumber(r.ct) == n then 1 else 0) + Released(r.tags, run[1..], n)
  }

  /** The number of tags an entry stands for. */
  function Tally(n: int): int { if n == -1 then 0 else n }

  /** At any point of any run an entry is the creations minus the releases of its number,
      and it has expired exactly when they balance after at least one. */
  lemma {:induction false} EntryCounts(t: Tags, run: seq<Op>, n: nat)
    requires Legal(t, run) && 0 < n < NUMBERS
    ensures Tally(After(t, run).ids[n]) == Tally(t.ids[n]) + Created(t, run, n) - Released(t, run, n)
    ensures t.ids[n] == -1 ==> Created(t, run, n) == 0 && After(t, run).ids[n] == -1
    ensures t.ids[n] >= 1 ==> (After(t, run).ids[n] == -1 <==> t.ids[n] + Created(t, run, n) == Released(t, run, n))
    ensures t.ids[n] == 0 ==> (After(t, run).ids[n] == -1 <==> Created(t, run, n) == Released(t, run, n) > 0)
    decreases |run|
  {
    if run != [] {
      ApplyEffect(t, run[0]);
      EntryCounts(Apply(t, run[0]).tags, run[1..], n);
    }
  }

  // ------------------------------------------------------------------ the table itself

  class TagTable {
    const ids: array<int>
    var idx: nat
    const dids: DidTable

    ghost function Model(): Tags
      reads this, ids, dids, dids.ids
    {
      Tags(ids[..], idx, dids.Model())
    }

    ghost predicate Valid()
      reads this, ids, dids, dids.ids
    {
      ids.Length == NUMBERS && dids.Valid() && Good(Model())
    }

    constructor ()
      ensures Valid() && fresh(ids) && fresh(dids) && fresh(dids.ids)
      ensures idx == 0 && forall i :: 0 <= i < NUMBERS ==> ids[i] == 0
    {
      ids := new int[NUMBERS](_ => 0);
      idx := 0;
      dids := new DidTable();
    }

    method Initialize()
      requires Valid()
      modifies this, ids
      ensures Valid() && Model() == Init(old(Model()))
    {
      if idx == 0 {
        ids[0] := -1;
        idx := 1;
      }
    }

    /** Only finds a number; the caller reserves it. */
    method NextNr() returns (nr: Option<nat>)
      requires Valid() && idx != 0
      ensures nr == NextNumber(Model())
    {
      var i := idx;
      while i < NUMBERS
        invariant idx <= i <= NUMBERS && FreeFrom(ids[..], idx, NUMBERS) == FreeFrom(ids[..], i, NUMBERS)
      {
        if ids[i] == 0 { return Some(i); }
        i := i + 1;
      }
      i := 1;
      while i < idx
        invariant 1 <= i <= idx && FreeFrom(ids[..], 1, idx) == FreeFrom(ids[..], i, idx)
      {
        if ids[i] == 0 { return Some(i); }
        i := i + 1;
      }
      return None;
    }

    method CreateAllTag(size: Size) returns (ct: nat, did: Did, rc: Status)
      requires Valid()
      modifies this, ids, dids, dids.ids
      ensures Valid() && Made(Model(), ct, did, rc) == CreateAll(old(Model()), size)
    {
      hide NextNumber, CreateNext, Pack, Init;
      Initialize();
      var next := NextNr();
      if next.None? { return UNSET, INVALID_ID, ENoBufs; }
      did, rc := dids.CreateDid(size);
      if rc != Ok { return UNSET, did, rc; }
      var nr := next.value;
      ct := Pack(nr, did.value);
      ids[nr] := ids[nr] + 1;
      idx := (nr + 1) % NUMBERS;
    }

    method CreateTagFromNrAndDid(nr: nat, did: Did) returns (ct: nat, rc: Status)
      requires Valid() && nr < NUMBERS
      modifies this, ids, dids, dids.ids
      ensures Valid() && Made(Model(), ct, did, rc) == CreateFromNrAndDid(old(Model()), nr, did)
    {
      hide Lookup, Pack, Ready;
      Initialize();
      if ids[nr] == -1 { return UNSET, EKeyExpired; }
      rc := dids.GetDid(did.value);
      if rc != Ok { return UNSET, rc; }
      ct := Pack(nr, did.value);
      ids[nr] := ids[nr] + 1;
    }

    method CreateTagFromData(nr: nat, value: nat, size: Size) returns (ct: nat, did: Did, rc: Status)
      requires Valid() && nr < NUMBERS
      modifies this, ids, dids, dids.ids
      ensures Valid() && Made(Model(), ct, did, rc) == CreateFromData(old(Model()), nr, value, size)
    {
      Initialize();
      did, rc := dids.CreateDidFromData(value, size);
      if rc != Ok { return UNSET, did, rc; }
      ct, rc := CreateTagFromNrAndDid(nr, did);
      if rc != Ok {
        var _ := dids.ReleaseDid(did);
        ct, did := UNSET, INVALID_ID;
      }
    }

    method CreateTagFromDid(did: Did) returns (ct: nat, rc: Status)
      requires Valid()
      modifies this, ids, dids, dids.ids
      ensures Valid() && Made(Model(), ct, did, rc) == CreateFromDid(old(Model()), did)
    {
      hide NextNumber, Lookup, Pack, Init, Ready;
      Initialize();
      var next := NextNr();
      if next.None? { return UNSET, ENoBufs; }
      rc := dids.GetDid(did.value);
      if rc != Ok { return UNSET, rc; }
      var nr := next.value;
      ct := Pack(nr, did.value);
      ids[nr] := ids[nr] + 1;
      idx := (nr + 1) % NUMBERS;
    }

    method Release(ct: nat, did: Did) returns (rc: Status)
      requires Valid()
      modifies this, ids, dids, dids.ids
      ensures Valid() && (Model(), rc) == ReleaseTag(old(Model()), ct, did)
    {
      var nr := TagNumber(ct);
      if nr == 0 || ids[nr] < 1 { return EInval; }
      rc := dids.ReleaseDid(did);
      if rc != Ok { return; }
      ids[nr] := if ids[nr] == 1 then -1 else ids[nr] - 1;
    }
  }
}
