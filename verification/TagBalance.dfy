/** What becomes of the component tags that enumeration creates, told by the state of the
    allocators and of the devices.

    Enumeration creates a tag, offers it to devices until one accepts it, and releases it if
    none does.  A device may come to bear the tag in hand through a probe that then reports
    failure; such a device is `unclaimed` until it is found again. */
module TagBalance {
  import opened Options
  import opened DeviceIds
  import opened CompTags

  // ------------------------------------------------------------------ one tag in the allocators

  /** In use once, with its device id taken. */
  predicate Live(tags: Tags, t: nat) {
    && Good(tags) && tags.pool.idx != 0 && TagNumber(t) != 0
    && tags.ids[TagNumber(t)] == 1 && !tags.pool.ids[TagDid(t)].Invalid?
  }

  /** Expired, with its device id free again. */
  predicate Gone(tags: Tags, t: nat) {
    Good(tags) && tags.ids[TagNumber(t)] == -1 && tags.pool.ids[TagDid(t)].Invalid?
  }

  /** The tag's device id is one that a release accepts for this size. */
  predicate Fitting(t: nat, size: Size) { Range(TagDid(t), size) == Ok }

  predicate Apart(t: nat, u: nat) { TagNumber(t) != TagNumber(u) && TagDid(t) != TagDid(u) }

  /** A new tag is live, and its id is the one it packs. */
  lemma MadeIsLive(tags: Tags, size: Size)
    requires Good(tags) && CreateAll(tags, size).rc == Ok
    ensures var r := CreateAll(tags, size);
            && Live(r.tags, r.ct) && r.ct != UNSET && r.did == Did(TagDid(r.ct), size)
            && tags.ids[TagNumber(r.ct)] == 0 && Ready(tags.pool).ids[TagDid(r.ct)].Invalid?
  {
    var u := Init(tags);
    var c := CreateNext(u.pool, size);
    PackUnpack(NextNumber(u).value, c.1.value);
    hide Pack, TagNumber, TagDid, Search, FirstFree;
  }

  /** Other tags in use stay so, and share neither number nor id with it. */
  lemma MadeIsApart(tags: Tags, size: Size, u: nat)
    requires Good(tags) && CreateAll(tags, size).rc == Ok && Live(tags, u)
    ensures var r := CreateAll(tags, size); Live(r.tags, u) && Apart(r.ct, u)
  {
    MadeIsLive(tags, size);
    ChoiceEffect(tags, All(size));
    var c := CreateNext(Init(tags).pool, size);
    PackUnpack(NextNumber(Init(tags)).value, c.1.value);
    hide Pack, TagNumber, TagDid, Search, FirstFree, NextNumber;
  }

  /** A sixteen-bit id always fits; an eight-bit request may get one that does not. */
  lemma MadeFits(tags: Tags, size: Size)
    requires Good(tags) && CreateAll(tags, size).rc == Ok
    ensures size.Dev08? || size.Dev16?
    ensures var r := CreateAll(tags, size); !Fitting(r.ct, size) <==> size.Dev08? && r.did.value > LAST_DEV8
  {
    MadeIsLive(tags, size);
    var c := CreateNext(Init(tags).pool, size);
    hide Pack, TagNumber, TagDid, Search, FirstFree, NextNumber;
    assert CreateAll(tags, size).did == c.1;
  }

  lemma FailedKeepsLive(tags: Tags, size: Size, u: nat)
    requires Live(tags, u) && CreateAll(tags, size).rc != Ok
    ensures Live(CreateAll(tags, size).tags, u)
  {
    ApplyEffect(tags, All(size));
    hide TagNumber, TagDid, Search, NextNumber, FreeFrom;
  }

  /** Once no tag can be had, none can be had again. */
  lemma NoneLeft(tags: Tags, size: Size)
    requires Good(tags) && CreateAll(tags, size).rc != Ok
    ensures CreateAll(CreateAll(tags, size).tags, size).rc != Ok
  {
    hide FreeFrom, FirstFree, Pack;
  }

  /** Releasing a tag in use expires it and frees its id exactly when the id fits; otherwise
      the release is refused and changes nothing. */
  lemma ReleaseOwn(tags: Tags, t: nat, size: Size)
    requires Live(tags, t)
    ensures var r := ReleaseTag(tags, t, Did(TagDid(t), size));
            if Fitting(t, size) then r.1 == Ok && Gone(r.0, t) else r.1 != Ok && r.0 == tags
  {
    hide TagNumber, TagDid;
  }

  lemma ReleaseOther(tags: Tags, t: nat, size: Size, u: nat)
    requires Live(tags, u) && Apart(t, u)
    ensures Live(ReleaseTag(tags, t, Did(TagDid(t), size)).0, u)
  {
    hide TagNumber, TagDid;
  }

  // ------------------------------------------------------------------ one tag on the devices

  ghost predicate NoHolder(t: nat, tag: map<nat, nat>) { forall d :: d in tag ==> tag[d] != t }

  ghost predicate OneHolder(t: nat, tag: map<nat, nat>) {
    exists d :: d in tag && tag[d] == t && forall e :: e in tag && tag[e] == t ==> e == d
  }

  /** Exactly one device has accepted the tag; or none has. */
  ghost predicate Claimed(t: nat, tag: map<nat, nat>, unclaimed: set<nat>) {
    exists d :: d in tag && d !in unclaimed && tag[d] == t
                && forall e :: e in tag && e !in unclaimed && tag[e] == t ==> e == d
  }

  ghost predicate NotClaimed(t: nat, tag: map<nat, nat>, unclaimed: set<nat>) {
    forall d :: d in tag && tag[d] == t ==> d in unclaimed
  }

  ghost predicate NoSlip(t: nat, tag: map<nat, nat>, unclaimed: set<nat>) {
    forall d :: d in tag && d in unclaimed ==> tag[d] != t
  }

  ghost predicate OneSlip(t: nat, tag: map<nat, nat>, unclaimed: set<nat>) {
    exists d :: d in tag && d in unclaimed && tag[d] == t
                && forall e :: e in tag && e in unclaimed && tag[e] == t ==> e == d
  }

  // ------------------------------------------------------------------ the balance

  /** In use and borne by exactly one device, or given back and borne by none. */
  ghost predicate Settled(t: nat, tags: Tags, tag: map<nat, nat>) {
    (OneHolder(t, tag) && Live(tags, t)) || (NoHolder(t, tag) && Gone(tags, t))
  }

  /** What enumeration leaves behind for a tag it created. */
  ghost predicate Outcome(t: nat, tags: Tags, size: Size, tag: map<nat, nat>, unclaimed: set<nat>, refused: set<nat>) {
    if Claimed(t, tag, unclaimed) then Live(tags, t) && t !in refused
    else
      && NotClaimed(t, tag, unclaimed) && (t in refused <==> !Fitting(t, size))
      && if Fitting(t, size) then Gone(tags, t) else Live(tags, t)
  }

  /** A tag is settled exactly when as many unclaimed devices bear it as releases of it were
      refused: none, unless its id does not fit. */
  lemma SettledIff(t: nat, tags: Tags, size: Size, tag: map<nat, nat>, unclaimed: set<nat>, refused: set<nat>)
    requires Outcome(t, tags, size, tag, unclaimed, refused)
    ensures Settled(t, tags, tag) <==> if t in refused then OneSlip(t, tag, unclaimed) else NoSlip(t, tag, unclaimed)
  {
    hide Fitting, Live, Gone, NoSlip, OneSlip, NoHolder, OneHolder, NotClaimed;
    NotBoth(tags, t);
    if Claimed(t, tag, unclaimed) {
      var d :| d in tag && d !in unclaimed && tag[d] == t
               && forall e :: e in tag && e !in unclaimed && tag[e] == t ==> e == d;
      ClaimedHolders(t, tag, unclaimed, d);
    } else {
      UnclaimedHolders(t, tag, unclaimed);
    }
  }

  lemma NotBoth(tags: Tags, t: nat)
    ensures !(Live(tags, t) && Gone(tags, t))
  {
  }

  lemma ClaimedHolders(t: nat, tag: map<nat, nat>, unclaimed: set<nat>, d: nat)
    requires d in tag && d !in unclaimed && tag[d] == t && forall e :: e in tag && e !in unclaimed && tag[e] == t ==> e == d
    ensures !NoHolder(t, tag) && (OneHolder(t, tag) <==> NoSlip(t, tag, unclaimed))
  {
  }

  lemma UnclaimedHolders(t: nat, tag: map<nat, nat>, unclaimed: set<nat>)
    requires NotClaimed(t, tag, unclaimed)
    ensures NoHolder(t, tag) <==> NoSlip(t, tag, unclaimed)
    ensures OneHolder(t, tag) <==> OneSlip(t, tag, unclaimed)
  {
    if OneHolder(t, tag) {
      var d :| d in tag && tag[d] == t && forall e :: e in tag && tag[e] == t ==> e == d;
      assert d in unclaimed;
    }
    if OneSlip(t, tag, unclaimed) {
      var d :| d in tag && d in unclaimed && tag[d] == t
               && forall e :: e in tag && e in unclaimed && tag[e] == t ==> e == d;
      assert forall e :: e in tag && tag[e] == t ==> e == d;
    }
  }

  // ------------------------------------------------------------------ while enumeration runs

  /** The number of this tag is not free: no automatic choice can return it. */
  ghost predicate Used(tags: Tags, ct: nat) {
    Good(tags) && (TagNumber(ct) == 0 || tags.ids[TagNumber(ct)] != 0)
  }

  ghost predicate AllUsed(tags: Tags, tag: map<nat, nat>) { Good(tags) && forall d :: d in tag ==> Used(tags, tag[d]) }

  /** Created tags are in use and do not collide. */
  ghost predicate InUse(tags: Tags, created: set<nat>) {
    && UNSET !in created && (forall t :: t in created ==> Live(tags, t))
    && (forall t, u :: t in created && u in created && t != u ==> Apart(t, u))
  }

  /** One device has accepted every created tag but the one in hand, which none has. */
  ghost predicate Placed(created: set<nat>, ct: nat, tag: map<nat, nat>, unclaimed: set<nat>) {
    && (forall t :: t in created && t != ct ==> Claimed(t, tag, unclaimed))
    && (ct != UNSET ==> ct in created && NotClaimed(ct, tag, unclaimed))
  }

  ghost predicate Fair(tags: Tags, created: set<nat>, ct: nat, tag: map<nat, nat>, unclaimed: set<nat>) {
    AllUsed(tags, tag) && InUse(tags, created) && Placed(created, ct, tag, unclaimed)
  }

  lemma UsedStays(tags: Tags, op: Op, ct: nat)
    requires Used(tags, ct) && Sensible(op)
    ensures Used(Apply(tags, op).tags, ct)
  {
    ApplyEffect(tags, op);
    hide Apply, TagNumber;
  }

  lemma AllUsedStays(tags: Tags, op: Op, tag: map<nat, nat>)
    requires AllUsed(tags, tag) && Sensible(op)
    ensures AllUsed(Apply(tags, op).tags, tag)
  {
    hide Apply, Used;
    forall d | d in tag ensures Used(Apply(tags, op).tags, tag[d]) {
      UsedStays(tags, op, tag[d]);
    }
  }

  /** Creating a tag: it is no known label, collides with none created before, and is now
      in hand. */
  lemma TakeKeeps(tags: Tags, size: Size, created: set<nat>, tag: map<nat, nat>, unclaimed: set<nat>)
    requires Fair(tags, created, UNSET, tag, unclaimed) && CreateAll(tags, size).rc == Ok
    ensures var r := CreateAll(tags, size);
            r.ct !in created && NoHolder(r.ct, tag) && Fair(r.tags, created + {r.ct}, r.ct, tag, unclaimed)
  {
    var r := CreateAll(tags, size);
    AllUsedStays(tags, All(size), tag);
    MadeIsLive(tags, size);
    assert !Used(tags, r.ct);
    hide CreateAll, Used, Live, Apart, Claimed;
    forall u | u in created ensures Live(r.tags, u) && Apart(r.ct, u) && Apart(u, r.ct) {
      MadeIsApart(tags, size, u);
      ApartSymmetric(r.ct, u);
    }
    ApartIrreflexive(r.ct);
  }

  lemma ApartSymmetric(t: nat, u: nat)
    requires Apart(t, u)
    ensures Apart(u, t)
  {
  }

  lemma ApartIrreflexive(t: nat)
    ensures !Apart(t, t)
  {
  }

  lemma TakeFails(tags: Tags, size: Size, created: set<nat>, tag: map<nat, nat>, unclaimed: set<nat>)
    requires Fair(tags, created, UNSET, tag, unclaimed) && CreateAll(tags, size).rc != Ok
    ensures var r := CreateAll(tags, size); r.ct == UNSET && Fair(r.tags, created, UNSET, tag, unclaimed)
  {
    AllUsedStays(tags, All(size), tag);
    assert CreateAll(tags, size).ct == UNSET;
    hide CreateAll, Live, Used, Claimed;
    forall u | u in created ensures Live(CreateAll(tags, size).tags, u) {
      FailedKeepsLive(tags, size, u);
    }
  }

  /** A probe labels a new device with the tag in hand. */
  lemma LabelKeeps(tags: Tags, created: set<nat>, ct: nat, tag: map<nat, nat>, unclaimed: set<nat>, d: nat)
    requires Fair(tags, created, ct, tag, unclaimed) && d !in tag
    ensures Fair(tags, created, ct, tag[d := ct], unclaimed + {d})
  {
    assert Used(tags, ct) by { assert TagNumber(UNSET) == 0; }
    hide Live, Apart, Used;
    forall t | t in created && t != ct ensures Claimed(t, tag[d := ct], unclaimed + {d}) {
      var e :| e in tag && e !in unclaimed && tag[e] == t
               && forall f :: f in tag && f !in unclaimed && tag[f] == t ==> f == e;
      assert tag[d := ct][e] == t;
    }
  }

  /** A device bearing the tag in hand is accepted. */
  lemma AcceptKeeps(tags: Tags, created: set<nat>, ct: nat, tag: map<nat, nat>, unclaimed: set<nat>, d: nat)
    requires Fair(tags, created, ct, tag, unclaimed) && d in tag && tag[d] == ct
    ensures Fair(tags, created, UNSET, tag, unclaimed - {d})
  {
    hide Live, Apart, Used;
    forall t | t in created ensures Claimed(t, tag, unclaimed - {d}) {
      if t == ct {
        assert d !in unclaimed - {d};
      } else {
        var e :| e in tag && e !in unclaimed && tag[e] == t
                 && forall f :: f in tag && f !in unclaimed && tag[f] == t ==> f == e;
        assert e !in unclaimed - {d};
      }
    }
  }

  /** Every created tag has come to its end. */
  ghost predicate Balanced(tags: Tags, size: Size, created: set<nat>, tag: map<nat, nat>,
                           unclaimed: set<nat>, refused: set<nat>)
  {
    forall t :: t in created ==> Outcome(t, tags, size, tag, unclaimed, refused)
  }

  lemma NothingInHand(tags: Tags, size: Size, created: set<nat>, tag: map<nat, nat>, unclaimed: set<nat>)
    requires Fair(tags, created, UNSET, tag, unclaimed)
    ensures Balanced(tags, size, created, tag, unclaimed, {})
  {
    hide Live, Apart, Used, Claimed;
  }

  /** Releasing the tag in hand ends its story; the others are not touched. */
  lemma ReleaseEnds(tags: Tags, size: Size, created: set<nat>, ct: nat, tag: map<nat, nat>, unclaimed: set<nat>)
    requires Fair(tags, created, ct, tag, unclaimed) && ct != UNSET
    ensures var r := ReleaseTag(tags, ct, Did(TagDid(ct), size));
            Balanced(r.0, size, created, tag, unclaimed, if r.1 == Ok then {} else {ct})
  {
    var r := ReleaseTag(tags, ct, Did(TagDid(ct), size));
    ReleaseOwn(tags, ct, size);
    hide ReleaseTag, Live, Gone, Apart, Used, Fitting, AllUsed;
    forall t | t in created && t != ct ensures Live(r.0, t) {
      ReleaseOther(tags, ct, size, t);
    }
    assert !Claimed(ct, tag, unclaimed);
  }
}
