/** The slave daemon's message handlers as they run, on a directory table changed in place,
    and why its local port stays where the table says it is. */
module SlaveDaemon {
  import opened Directory
  import opened Messages
  import Replication

  class Slave {
    const dd: DeviceTable
    var up: seq<Up>   // messages sent to the master
    var alive: bool   // the thread still receives

    ghost predicate Valid()
      reads this, dd
    {
      dd.Valid()
    }

    ghost function Model(): Replication.Conn
      requires Valid()
      reads this, dd, dd.devs
    {
      Replication.Conn(dd.Model(), true, true, true, up, [])
    }

    constructor (dd: DeviceTable)
      requires dd.Valid()
      ensures Valid() && this.dd == dd && up == [] && alive
    {
      this.dd, up, alive := dd, [], true;
    }

    /** Report the local port's application flags to the master. */
    method UpdateMasterFlags()
      requires Valid()
      modifies this`up
      ensures Valid() && up == old(up) + Replication.Report(dd.Model())
    {
      if dd.loc >= dd.num { return; }
      var e := dd.devs[dd.loc];
      up := up + [FSetUp(e.key, AddFlag(e.flag))];
    }

    /** `kernel` says that the device is, or can be, registered with the kernel; if not, an
        addition is answered and nothing else. */
    method ProcessMod(m: Down, kernel: bool)
      requires Valid() && (m.ModAdd? || m.ModDel?)
      modifies this`up, dd, dd.devs
      ensures Valid() && up == old(up) + [RespMod]
      ensures kernel || m.ModDel? ==> Model() == Replication.SlaveHandle(old(Model()), m)
      ensures !kernel && m.ModAdd? ==> dd.Model() == old(dd.Model())
    {
      if m.ModDel? {
        var _ := dd.DelDevice(m.key);
      } else if kernel {
        var _ := dd.AddDevice(m.key, m.hc, m.isMp, m.flag & ANY_FLAG, m.name);
      }
      up := up + [RespMod];
    }

    method ProcessFset(m: Down)
      requires Valid() && m.FSet?
      modifies dd.devs
      ensures Valid() && Model() == Replication.SlaveHandle(old(Model()), m)
    {
      var _ := dd.SetDeviceFlag(m.key, m.flag & ANY_FLAG);
    }

    /** A refusal ends the thread. */
    method ProcessHelloResponse(m: Down)
      requires Valid() && m.RespHello?
      modifies this`up, this`alive
      ensures Valid() && Model() == Replication.SlaveHandle(old(Model()), m)
      ensures alive == (old(alive) && m.ok)
    {
      if m.ok {
        UpdateMasterFlags();
      } else {
        alive := false;
      }
    }
  }

  /** What a slave sends in answer: the flags of its port to an accepted HELLO, nothing to a refused
      one or to a flag update, and one response to any other message. */
  lemma AnswersAre(c: Replication.Conn, m: Down)
    ensures var up := Replication.SlaveHandle(c, m).up;
            match m
            case RespHello(false) => up == c.up && Replication.SlaveHandle(c, m) == c
            case RespHello(true) =>
              if c.slave.loc >= |c.slave.devs| then up == c.up
              else |up| == |c.up| + 1 && up[..|c.up|] == c.up
                   && up[|c.up|] == FSetUp(c.slave.devs[c.slave.loc].key, AddFlag(c.slave.devs[c.slave.loc].flag))
            case FSet(_, _) => up == c.up
            case _ => up == c.up + [RespMod]
  {
    assert m.RespHello? ==> ApplyDown(c.slave, m) == c.slave;
    hide ApplyDown, AddFlag;
  }

  // ------------------------------------------------------------------ the local port

  datatype TableOp =
    | Insert(key: Key, hc: nat, mast: bool, flag: bv8, name: string)
    | Remove(key: Key)
    | Flag(key: Key, flag: bv8)
    | Local(flag: bv8, raise: bool)

  function Apply(d: Dir, op: TableOp): Dir {
    match op
    case Insert(k, hc, mast, flag, name) => Add(d, k, hc, mast, flag, name).0
    case Remove(k) => Del(d, k).0
    case Flag(k, flag) => SetFlag(d, k, flag)
    case Local(flag, raise) => ModMpFlag(d, flag, raise)
  }

  function ApplyRun(d: Dir, run: seq<TableOp>): Dir
    decreases |run|
  {
    if run == [] then d else ApplyRun(Apply(d, run[0]), run[1..])
  }

  /** The operation neither removes `p` nor marks another key, and only it, as master port. */
  predicate Keeps(op: TableOp, p: Key) {
    match op
    case Insert(k, _, mast, _, _) => mast <==> k == p
    case Remove(k) => k != p
    case _ => true
  }

  lemma PortStep(d: Dir, op: TableOp, p: Key)
    requires PortFirst(d, p) && Keeps(op, p)
    ensures PortFirst(Apply(d, op), p)
    ensures op.Local? && op.flag != NO_FLAG && op.flag != ANY_FLAG ==>
              var f, f' := d.devs[0].flag, Apply(d, op).devs[0].flag;
              && f' & op.flag == (if op.raise then op.flag else NO_FLAG) && f' | op.flag == f | op.flag
              && Apply(d, op).devs[1..] == d.devs[1..]
  {
    if op.Local? && op.flag != NO_FLAG && op.flag != ANY_FLAG {
      LocalChange(d, op.flag, op.raise);
    }
    hide Changed;
  }

  /** Whatever else is added, removed and shifted, even at the limit of the table, an entry
      added first as the master port stays the one that `loc` designates, so local flag
      changes and reports act on it. */
  lemma {:induction false} PortStays(d: Dir, run: seq<TableOp>, p: Key)
    requires PortFirst(d, p) && forall i :: 0 <= i < |run| ==> Keeps(run[i], p)
    ensures PortFirst(ApplyRun(d, run), p)
    ensures Replication.Report(ApplyRun(d, run)) == [FSetUp(p, AddFlag(ApplyRun(d, run).devs[0].flag))]
    decreases |run|
  {
    if run != [] {
      PortStep(d, run[0], p);
      PortStays(Apply(d, run[0]), run[1..], p);
    }
  }

  lemma FirstAdded(p: Key, hc: nat, flag: bv8, name: string, loc: nat, run: seq<TableOp>)
    requires forall i :: 0 <= i < |run| ==> Keeps(run[i], p)
    ensures PortFirst(ApplyRun(Add(Dir([], loc), p, hc, true, flag, name).0, run), p)
  {
    PortStays(Add(Dir([], loc), p, hc, true, flag, name).0, run, p);
  }
}
