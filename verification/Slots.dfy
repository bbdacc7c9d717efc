/**
 * The core slot table of the driver: platform devices bind to the first free slot of a
 * shared device object, unbind and rebind in any order, and the job side sizes and fills
 * its scheduler list from the same table.
 */
module Slots {
  import opened Common

  /** A platform device; the device tree lists as many of them as there are slots. */
  type DevId = nat

  const ENOMEM: int := -12
  const ENXIO: int := -6

  // ---------- The table as a value ----------

  predicate Distinct(dev: seq<Option<DevId>>) {
    forall i, j :: 0 <= i < j < |dev| && dev[i].Some? && dev[j].Some? ==> dev[i] != dev[j]
  }

  /** The devices that some slot holds. */
  ghost function Bound(dev: seq<Option<DevId>>): set<DevId> {
    set i | 0 <= i < |dev| && dev[i].Some? :: dev[i].value
  }

  function LiveCount(dev: seq<Option<DevId>>): nat {
    if |dev| == 0 then 0
    else LiveCount(dev[..|dev| - 1]) + (if dev[|dev| - 1].Some? then 1 else 0)
  }

  /** The live slots in ascending order. */
  function LiveSlots(dev: seq<Option<DevId>>): seq<nat> {
    if |dev| == 0 then []
    else LiveSlots(dev[..|dev| - 1]) + (if dev[|dev| - 1].Some? then [|dev| - 1] else [])
  }

  /** c is the free slot a bind takes; the table length when there is none. */
  predicate IsFirstFree(dev: seq<Option<DevId>>, c: nat) {
    && c <= |dev|
    && (forall i :: 0 <= i < c ==> dev[i].Some?)
    && (c < |dev| ==> dev[c].None?)
  }

  function FirstFree(dev: seq<Option<DevId>>): (c: nat)
    ensures IsFirstFree(dev, c)
  {
    FirstFreeFrom(dev, 0)
  }

  function FirstFreeFrom(dev: seq<Option<DevId>>, i: nat): (c: nat)
    requires i <= |dev| && forall k :: 0 <= k < i ==> dev[k].Some?
    ensures IsFirstFree(dev, c)
    decreases |dev| - i
  {
    if i == |dev| || dev[i].None? then i else FirstFreeFrom(dev, i + 1)
  }

  /** The slot of d, or -1. */
  function Lookup(dev: seq<Option<DevId>>, d: DevId): (c: int)
    ensures c == -1 || 0 <= c < |dev|
    ensures c == -1 ==> d !in Bound(dev) && forall k :: 0 <= k < |dev| ==> dev[k] != Some(d)
    ensures c >= 0 ==> dev[c] == Some(d) && forall k :: 0 <= k < c ==> dev[k] != Some(d)
  {
    LookupFrom(dev, d, 0)
  }

  function LookupFrom(dev: seq<Option<DevId>>, d: DevId, i: nat): (c: int)
    requires i <= |dev| && forall k :: 0 <= k < i ==> dev[k] != Some(d)
    ensures c == -1 || 0 <= c < |dev|
    ensures c == -1 ==> forall k :: 0 <= k < |dev| ==> dev[k] != Some(d)
    ensures c >= 0 ==> dev[c] == Some(d) && forall k :: 0 <= k < c ==> dev[k] != Some(d)
    decreases |dev| - i
  {
    if i == |dev| then -1 else if dev[i] == Some(d) then i else LookupFrom(dev, d, i + 1)
  }

  /** Lookup inverts binding. */
  lemma LookupOwnSlot(dev: seq<Option<DevId>>, c: nat)
    requires Distinct(dev) && c < |dev| && dev[c].Some?
    ensures Lookup(dev, dev[c].value) == c
  {
    assert dev[c].value in Bound(dev);
  }

  /** Changing one slot moves no device that is on neither side of the change. */
  lemma LookupOthers(dev: seq<Option<DevId>>, c: nat, y: Option<DevId>)
    requires Distinct(dev) && c < |dev| && (y.Some? ==> Lookup(dev, y.value) == -1)
    ensures Distinct(dev[c := y])
    ensures forall x: nat :: Some(x) != dev[c] && Some(x) != y ==> Lookup(dev[c := y], x) == Lookup(dev, x)
    ensures y.Some? ==> Lookup(dev[c := y], y.value) == c
    ensures dev[c].Some? && y != dev[c] ==> Lookup(dev[c := y], dev[c].value) == -1
  {
    var u := dev[c := y];
    if y.Some? {
      LookupOwnSlot(u, c);
    }
    forall x: nat | Some(x) != dev[c] && Some(x) != y ensures Lookup(u, x) == Lookup(dev, x) {
      var j, k := Lookup(dev, x), Lookup(u, x);
      if j >= 0 {
        assert u[j] == Some(x);
        LookupOwnSlot(u, j);
      }
    }
  }

  function Held(x: Option<DevId>): set<DevId> {
    if x.Some? then {x.value} else {}
  }

  lemma BoundUpdate(dev: seq<Option<DevId>>, c: nat, y: Option<DevId>)
    requires Distinct(dev) && c < |dev| && Held(y) !! Bound(dev)
    ensures Bound(dev[c := y]) == Bound(dev) - Held(dev[c]) + Held(y)
  {
    var u := dev[c := y];
    forall x | x in Bound(dev) - Held(dev[c]) + Held(y) ensures x in Bound(u) {
      if Some(x) == y {
        assert u[c] == Some(x);
      } else {
        var k :| 0 <= k < |dev| && dev[k] == Some(x);
        assert u[k] == Some(x);
      }
    }
    forall x | x in Bound(u) ensures x in Bound(dev) - Held(dev[c]) + Held(y) {
      var k :| 0 <= k < |u| && u[k] == Some(x);
      assert k != c ==> dev[k] == Some(x);
    }
  }

  // ---------- Counting ----------

  lemma {:induction false} LiveCountUpdate(dev: seq<Option<DevId>>, c: nat, x: Option<DevId>)
    requires c < |dev|
    ensures LiveCount(dev[c := x]) + (if dev[c].Some? then 1 else 0)
         == LiveCount(dev) + (if x.Some? then 1 else 0)
  {
    var u, m := dev[c := x], |dev| - 1;
    if c == m {
      assert u[..m] == dev[..m];
    } else {
      LiveCountUpdate(dev[..m], c, x);
      assert u[..m] == dev[..m][c := x];
    }
  }

  lemma {:induction false} CountIsBound(dev: seq<Option<DevId>>)
    requires Distinct(dev)
    ensures |Bound(dev)| == LiveCount(dev)
  {
    if |dev| > 0 {
      var m := |dev| - 1;
      CountIsBound(dev[..m]);
      BoundSnoc(dev);
    }
  }

  lemma BoundSnoc(dev: seq<Option<DevId>>)
    requires |dev| > 0
    ensures var m := |dev| - 1; var p := Bound(dev[..m]);
      Bound(dev) == if dev[m].Some? then p + {dev[m].value} else p
  {
    var m := |dev| - 1;
    assert forall i :: 0 <= i < m ==> dev[..m][i] == dev[i];
    forall x | x in Bound(dev[..m]) ensures x in Bound(dev) {
      var i :| 0 <= i < m && dev[..m][i] == Some(x);
      assert dev[i] == Some(x);
    }
  }

  lemma {:induction false} LiveCountExtremes(dev: seq<Option<DevId>>)
    ensures LiveCount(dev) <= |dev|
    ensures LiveCount(dev) == |dev| <==> forall i :: 0 <= i < |dev| ==> dev[i].Some?
    ensures LiveCount(dev) == 0 <==> forall i :: 0 <= i < |dev| ==> dev[i].None?
  {
    if |dev| > 0 {
      LiveCountExtremes(dev[..|dev| - 1]);
      assert forall i :: 0 <= i < |dev| - 1 ==> dev[..|dev| - 1][i] == dev[i];
    }
  }

  /** The devices of an n-core board. */
  function Below(n: nat): (s: set<nat>)
    ensures forall i: nat :: i in s <==> i < n
    ensures |s| == n
  {
    if n == 0 then {} else Below(n - 1) + {n - 1}
  }

  predicate InRange(dev: seq<Option<DevId>>) {
    forall i :: 0 <= i < |dev| && dev[i].Some? ==> dev[i].value < |dev|
  }

  lemma {:induction false} SubsetSize<T>(a: set<T>, b: set<T>)
    requires a <= b
    ensures |a| <= |b|
    ensures |a| == |b| ==> a == b
  {
    assert b == a + (b - a);
    if |a| == |b| {
      assert |b - a| == 0;
    }
  }

  /** Pigeonhole: every slot is taken exactly when every device is bound. */
  lemma FullTable(dev: seq<Option<DevId>>)
    requires Distinct(dev) && InRange(dev)
    ensures (forall i :: 0 <= i < |dev| ==> dev[i].Some?) <==> Bound(dev) == Below(|dev|)
  {
    CountIsBound(dev);
    LiveCountExtremes(dev);
    assert Bound(dev) <= Below(|dev|);
    SubsetSize(Bound(dev), Below(|dev|));
  }

  // ---------- Whole runs of binds and unbinds ----------

  /** present: the shared device object exists; dev: its slots; num: its num_cores. */
  datatype Table = Table(present: bool, dev: seq<Option<DevId>>, num: int)

  /** What the environment decides in a bind. */
  datatype BindEnv = BindEnv(groupOk: bool, deviceErr: int, coreErr: int)

  datatype Op = Bind(d: DevId, env: BindEnv) | Unbind(d: DevId)

  function Empty(n: nat): Table {
    Table(false, seq(n, _ => None), 0)
  }

  function DropIfLast(t: Table): Table {
    if t.num == 0 then Empty(|t.dev|) else t
  }

  function DoBind(t: Table, d: DevId, env: BindEnv): (Table, int) {
    if !t.present && !env.groupOk then (t, ENOMEM)
    else if !t.present && env.deviceErr != 0 then (t, env.deviceErr)
    else
      var t1 := if t.present then t else Empty(|t.dev|).(present := true);
      var c := FirstFree(t1.dev);
      if c == |t1.dev| then (t1, ENXIO)
      else if env.coreErr == 0 then (t1.(dev := t1.dev[c := Some(d)], num := t1.num + 1), 0)
      else (DropIfLast(t1), env.coreErr)
  }

  function DoUnbind(t: Table, d: DevId): Table {
    var c := Lookup(t.dev, d);
    if c < 0 then t else DropIfLast(t.(dev := t.dev[c := None], num := t.num - 1))
  }

  function Do(t: Table, op: Op): Table {
    match op
    case Bind(d, env) => DoBind(t, d, env).0
    case Unbind(d) => DoUnbind(t, d)
  }

  /** The driver core binds only an unbound device and unbinds only a bound one. */
  predicate Allowed(t: Table, op: Op) {
    match op
    case Bind(d, _) => d < |t.dev| && Lookup(t.dev, d) == -1
    case Unbind(d) => Lookup(t.dev, d) >= 0
  }

  predicate ValidOps(t: Table, ops: seq<Op>)
    decreases |ops|
  {
    |ops| == 0 || (Allowed(t, ops[0]) && ValidOps(Do(t, ops[0]), ops[1..]))
  }

  function DoAll(t: Table, ops: seq<Op>): Table
    decreases |ops|
  {
    if |ops| == 0 then t else DoAll(Do(t, ops[0]), ops[1..])
  }

  predicate TableInv(t: Table) {
    && Distinct(t.dev) && InRange(t.dev)
    && t.num == LiveCount(t.dev)
    && (t.present <==> t.num > 0)
  }

  lemma EmptyInv(n: nat)
    ensures TableInv(Empty(n))
  {
    LiveCountExtremes(Empty(n).dev);
  }

  /** A bind of an unbound device always finds a free slot. */
  lemma FreeSlotFound(t: Table, d: DevId)
    requires TableInv(t) && d < |t.dev| && Lookup(t.dev, d) == -1
    ensures FirstFree(t.dev) < |t.dev|
  {
    if FirstFree(t.dev) == |t.dev| {
      FullTable(t.dev);
    }
  }

  /** Claiming the first free slot for an unbound device. */
  lemma ClaimKeepsInv(t: Table, d: DevId)
    requires TableInv(t) && d < |t.dev| && Lookup(t.dev, d) == -1
    ensures var c := FirstFree(t.dev);
      && c < |t.dev|
      && TableInv(Table(true, t.dev[c := Some(d)], t.num + 1))
      && Bound(t.dev[c := Some(d)]) == Bound(t.dev) + {d}
  {
    FreeSlotFound(t, d);
    var c := FirstFree(t.dev);
    LookupOthers(t.dev, c, Some(d));
    LiveCountUpdate(t.dev, c, Some(d));
    BoundUpdate(t.dev, c, Some(d));
  }

  lemma BindKeepsInv(t: Table, d: DevId, env: BindEnv)
    requires TableInv(t) && Allowed(t, Bind(d, env))
    ensures TableInv(DoBind(t, d, env).0)
    ensures DoBind(t, d, env).1 != ENXIO || env.coreErr == ENXIO || env.deviceErr == ENXIO
    ensures DoBind(t, d, env).1 == 0 ==> Bound(DoBind(t, d, env).0.dev) == Bound(t.dev) + {d}
    ensures DoBind(t, d, env).1 != 0 ==> DoBind(t, d, env).0 == t
  {
    EmptyInv(|t.dev|);
    LiveCountExtremes(t.dev);
    if !t.present {
      assert t.dev == Empty(|t.dev|).dev;
    }
    ClaimKeepsInv(t, d);
  }

  /** The core's own set-up is reached: the shared device is there or comes up. */
  predicate DeviceUp(t: Table, env: BindEnv) {
    t.present || (env.groupOk && env.deviceErr == 0)
  }

  /**
   * A bind succeeds exactly when no step of it fails, into the lowest free slot and with every
   * other device where it was; otherwise it reports the first failure and changes nothing.
   */
  lemma BindExact(t: Table, d: DevId, env: BindEnv)
    requires TableInv(t) && Allowed(t, Bind(d, env))
    ensures var (u, ret) := DoBind(t, d, env);
      && (ret == 0 <==> DeviceUp(t, env) && env.coreErr == 0)
      && (!t.present && !env.groupOk ==> ret == ENOMEM)
      && (!t.present && env.groupOk && env.deviceErr != 0 ==> ret == env.deviceErr)
      && (DeviceUp(t, env) ==> ret == env.coreErr)
      && (ret != 0 ==> u == t)
      && (ret == 0 ==> u.present && |u.dev| == |t.dev| && u.num == t.num + 1)
      && (ret == 0 ==> Lookup(u.dev, d) >= 0 && forall i :: 0 <= i < Lookup(u.dev, d) ==> t.dev[i].Some?)
      && (ret == 0 ==> forall x: nat :: x != d ==> Lookup(u.dev, x) == Lookup(t.dev, x))
  {
    BindKeepsInv(t, d, env);
    FreeSlotFound(t, d);
    LiveCountExtremes(t.dev);
    if !t.present {
      assert t.dev == Empty(|t.dev|).dev;
    }
    LookupOthers(t.dev, FirstFree(t.dev), Some(d));
  }

  /** An unbind moves no other device. */
  lemma UnbindSparesOthers(t: Table, d: DevId, x: DevId)
    requires TableInv(t) && Allowed(t, Unbind(d)) && x != d
    ensures Lookup(DoUnbind(t, d).dev, x) == Lookup(t.dev, x) && |DoUnbind(t, d).dev| == |t.dev|
    ensures Lookup(DoUnbind(t, d).dev, d) == -1 && DoUnbind(t, d).num == t.num - 1
  {
    var dev' := t.dev[Lookup(t.dev, d) := None];
    LookupOthers(t.dev, Lookup(t.dev, d), None);
    UnbindKeepsInv(t, d);
    LiveCountUpdate(t.dev, Lookup(t.dev, d), None);
    LiveCountExtremes(dev');
    if t.num == 1 {
      assert dev' == Empty(|t.dev|).dev;
    }
  }

  lemma UnbindKeepsInv(t: Table, d: DevId)
    requires TableInv(t) && Allowed(t, Unbind(d))
    ensures TableInv(DoUnbind(t, d))
    ensures Bound(DoUnbind(t, d).dev) == Bound(t.dev) - {d}
  {
    var c := Lookup(t.dev, d);
    var dev' := t.dev[c := None];
    LiveCountUpdate(t.dev, c, None);
    LiveCountExtremes(dev');
    EmptyInv(|t.dev|);
    if t.num == 1 {
      assert dev' == Empty(|t.dev|).dev;
    }
    BoundUpdate(t.dev, c, None);
  }

  /** Over any order of binds, failed binds, unbinds and rebinds. */
  lemma {:induction false} OpsKeepInv(t: Table, ops: seq<Op>)
    requires TableInv(t) && ValidOps(t, ops)
    ensures TableInv(DoAll(t, ops)) && |DoAll(t, ops).dev| == |t.dev|
    decreases |ops|
  {
    if |ops| > 0 {
      match ops[0] {
        case Bind(d, env) => BindKeepsInv(t, d, env);
        case Unbind(d) => UnbindKeepsInv(t, d);
      }
      OpsKeepInv(Do(t, ops[0]), ops[1..]);
    }
  }

  /** What a maintainer relies on after any history that started from module load. */
  lemma TableAfterAnyHistory(n: nat, ops: seq<Op>)
    requires ValidOps(Empty(n), ops)
    ensures var t := DoAll(Empty(n), ops);
      && |t.dev| == n
      && t.num == |Bound(t.dev)|
      && (t.present <==> Bound(t.dev) != {})
      && (forall c :: 0 <= c < n && t.dev[c].Some? ==> Lookup(t.dev, t.dev[c].value) == c)
      && (forall d :: 0 <= d < n && d !in Bound(t.dev) ==> FirstFree(t.dev) < n)
      && |LiveSlots(t.dev)| == t.num
      && (forall c :: 0 <= c < n ==> (c in LiveSlots(t.dev) <==> t.dev[c].Some?))
  {
    EmptyInv(n);
    OpsKeepInv(Empty(n), ops);
    var t := DoAll(Empty(n), ops);
    CountIsBound(t.dev);
    forall c | 0 <= c < n && t.dev[c].Some? ensures Lookup(t.dev, t.dev[c].value) == c {
      LookupOwnSlot(t.dev, c);
    }
    forall d | 0 <= d < n && d !in Bound(t.dev) ensures FirstFree(t.dev) < n {
      FreeSlotFound(t, d);
    }
    LiveSlotsExact(t.dev);
    forall c | 0 <= c < n && t.dev[c].Some? ensures c in LiveSlots(t.dev) {
      LiveSlotsComplete(t.dev, c);
    }
  }

  const BIND_OK := BindEnv(true, 0, 0)

  const REBINDS: seq<Op> := [Bind(2, BIND_OK), Bind(0, BIND_OK), Unbind(2), Bind(1, BIND_OK)]

  /** A history that happens: devices land in other slots than their own, and a freed slot is reused. */
  lemma Rebinds()
    ensures ValidOps(Empty(3), REBINDS)
    ensures DoAll(Empty(3), REBINDS) == Table(true, [Some(1), Some(0), None], 2)
  {
    var t0, xs := Empty(3), REBINDS;
    var t1 := Table(true, [Some(2), None, None], 1);
    var t2 := Table(true, [Some(2), Some(0), None], 2);
    var t3 := Table(true, [None, Some(0), None], 1);
    var t4 := Table(true, [Some(1), Some(0), None], 2);
    assert t0.dev == [None, None, None];
    assert Do(t0, xs[0]) == t1 by {
      assert FirstFree(t0.dev) == 0;
    }
    assert Do(t1, xs[1]) == t2 by {
      assert FirstFree(t1.dev) == 1;
    }
    assert Do(t2, xs[2]) == t3 by {
      assert Lookup(t2.dev, 2) == 0;
    }
    assert Do(t3, xs[3]) == t4 by {
      assert FirstFree(t3.dev) == 0;
    }
    assert xs[1..][1..] == xs[2..] && xs[2..][1..] == xs[3..] && xs[3..][1..] == [];
    assert DoAll(t3, xs[3..]) == t4 && ValidOps(t3, xs[3..]);
    assert DoAll(t2, xs[2..]) == t4 && ValidOps(t2, xs[2..]);
    assert DoAll(t1, xs[1..]) == t4 && ValidOps(t1, xs[1..]);
  }

  // ---------- The scheduler list ----------

  lemma {:induction false} LiveSlotsExact(dev: seq<Option<DevId>>)
    ensures |LiveSlots(dev)| == LiveCount(dev)
    ensures forall k :: 0 <= k < |LiveSlots(dev)| ==> LiveSlots(dev)[k] < |dev| && dev[LiveSlots(dev)[k]].Some?
    ensures forall j, k :: 0 <= j < k < |LiveSlots(dev)| ==> LiveSlots(dev)[j] < LiveSlots(dev)[k]
  {
    if |dev| > 0 {
      var m := |dev| - 1;
      LiveSlotsExact(dev[..m]);
      assert LiveSlots(dev) == LiveSlots(dev[..m]) + if dev[m].Some? then [m] else [];
    }
  }

  lemma {:induction false} LiveSlotsComplete(dev: seq<Option<DevId>>, c: nat)
    requires c < |dev| && dev[c].Some?
    ensures c in LiveSlots(dev)
  {
    if c < |dev| - 1 {
      LiveSlotsComplete(dev[..|dev| - 1], c);
    }
  }

  lemma {:induction false} LiveCountPrefix(dev: seq<Option<DevId>>, i: nat)
    requires i <= |dev|
    ensures LiveCount(dev[..i]) <= LiveCount(dev)
    decreases |dev| - i
  {
    if i == |dev| {
      assert dev[..i] == dev;
    } else {
      LiveCountPrefix(dev, i + 1);
      assert dev[..i + 1][..i] == dev[..i];
    }
  }

  /** Two slots never share a scheduler address. */
  lemma AddressesDiffer(base: nat, stride: nat, a: nat, b: nat)
    requires stride > 0 && a != b
    ensures base + a * stride != base + b * stride
  {
    if a < b {
      assert b * stride == a * stride + (b - a) * stride;
    } else {
      assert a * stride == b * stride + (a - b) * stride;
    }
  }

  // ---------- The objects the driver updates in place ----------

  /** struct rocket_device: the slots, their count and where their schedulers live. */
  class Device {
    const dev: array<Option<DevId>>
    const base: nat
    const stride: nat
    var numCores: int

    ghost predicate Valid()
      reads this, dev
    {
      stride > 0 && numCores == LiveCount(dev[..])
    }

    constructor (maxCores: nat, base: nat, stride: nat)
      requires stride > 0
      ensures Valid() && fresh(this) && fresh(dev) && dev.Length == maxCores
      ensures numCores == 0 && dev[..] == Empty(maxCores).dev
    {
      dev := new Option<DevId>[maxCores](_ => None);
      this.base, this.stride, numCores := base, stride, 0;
      new;
      assert dev[..] == Empty(maxCores).dev;
      LiveCountExtremes(dev[..]);
    }

    /** Address of the scheduler embedded in a slot. */
    function SchedAddr(core: nat): nat
      reads this
    {
      base + core * stride
    }

    method FindCoreForDev(d: DevId) returns (c: int)
      ensures c == Lookup(dev[..], d)
    {
      for i := 0 to dev.Length
        invariant forall k :: 0 <= k < i ==> dev[..][k] != Some(d)
        invariant LookupFrom(dev[..], d, 0) == LookupFrom(dev[..], d, i)
      {
        if dev[i] == Some(d) {
          return i;
        }
      }
      return -1;
    }

    /** The scan of a probe. */
    method FindFreeSlot() returns (c: nat)
      ensures c == FirstFree(dev[..])
    {
      c := 0;
      while c < dev.Length
        invariant c <= dev.Length
        invariant forall k :: 0 <= k < c ==> dev[k].Some?
      {
        if dev[c].None? {
          break;
        }
        c := c + 1;
      }
      assert IsFirstFree(dev[..], c);
    }

    method Claim(c: nat, d: DevId)
      requires Valid() && c < dev.Length && dev[c].None?
      modifies this`numCores, dev
      ensures Valid() && dev[..] == old(dev[..])[c := Some(d)] && numCores == old(numCores) + 1
    {
      LiveCountUpdate(dev[..], c, Some(d));
      ghost var before := dev[..];
      dev[c] := Some(d);
      numCores := numCores + 1;
      assert dev[..] == before[c := Some(d)];
    }

    method Free(c: nat)
      requires Valid() && c < dev.Length && dev[c].Some?
      modifies this`numCores, dev
      ensures Valid() && dev[..] == old(dev[..])[c := None] && numCores == old(numCores) - 1
    {
      LiveCountUpdate(dev[..], c, None);
      ghost var before := dev[..];
      dev[c] := None;
      numCores := numCores - 1;
      assert dev[..] == before[c := None];
    }

    /** The first live core, which a file open uses for its address space. */
    method FirstLiveCore() returns (c: Option<nat>)
      ensures c.Some? ==> c.value < dev.Length && dev[c.value].Some? && forall k :: 0 <= k < c.value ==> dev[k].None?
      ensures c.None? <==> Bound(dev[..]) == {}
    {
      for i := 0 to dev.Length
        invariant forall k :: 0 <= k < i ==> dev[k].None?
      {
        if dev[i].Some? {
          assert dev[..][i].value in Bound(dev[..]);
          return Some(i);
        }
      }
      return None;
    }

    /** Allocates room for num_cores schedulers and fills it from the live slots. */
    method JobOpen() returns (scheds: array<nat>, n: nat)
      requires Valid()
      ensures fresh(scheds) && n == scheds.Length == numCores == |LiveSlots(dev[..])|
      ensures forall k :: 0 <= k < n ==> scheds[k] == SchedAddr(LiveSlots(dev[..])[k])
    {
      LiveSlotsExact(dev[..]);
      scheds := new nat[numCores];
      n := 0;
      for core := 0 to dev.Length
        invariant n == LiveCount(dev[..core]) <= scheds.Length
        invariant |LiveSlots(dev[..core])| == n
        invariant forall k :: 0 <= k < n ==> scheds[k] == SchedAddr(LiveSlots(dev[..core])[k])
      {
        assert dev[..core + 1][..core] == dev[..core];
        LiveCountPrefix(dev[..], core + 1);
        assert dev[..][..core + 1] == dev[..core + 1];
        if dev[core].Some? {
          scheds[n] := SchedAddr(core);
          n := n + 1;
        }
      }
      assert dev[..dev.Length] == dev[..];
    }

    /** The live core whose scheduler has the given address. */
    method SchedToCore(sched: nat) returns (c: Option<nat>)
      requires Valid()
      ensures c.Some? ==> c.value < dev.Length && dev[c.value].Some? && SchedAddr(c.value) == sched
      ensures forall k :: 0 <= k < dev.Length && dev[k].Some? && SchedAddr(k) == sched ==> c == Some(k)
    {
      for core := 0 to dev.Length
        invariant forall k :: 0 <= k < core && dev[k].Some? ==> SchedAddr(k) != sched
      {
        if dev[core].Some? && SchedAddr(core) == sched {
          forall k | 0 <= k < dev.Length && k != core ensures SchedAddr(k) != sched {
            AddressesDiffer(base, stride, k, core);
          }
          return Some(core);
        }
      }
      return None;
    }
  }

  /** Entry k of the list a file gets maps back to the k-th live core, and to no other. */
  method OpenThenFind(r: Device, k: nat) returns (c: Option<nat>)
    requires r.Valid() && k < r.numCores
    ensures k < |LiveSlots(r.dev[..])| && c == Some(LiveSlots(r.dev[..])[k])
  {
    LiveSlotsExact(r.dev[..]);
    var scheds, n := r.JobOpen();
    c := r.SchedToCore(scheds[k]);
  }

  /** The module's globals: the shared device exists while some core is bound. */
  class Driver {
    const maxCores: nat
    var rdev: Device?

    ghost predicate Valid()
      reads this, rdev, if rdev == null then {} else {rdev.dev}
    {
      rdev != null ==> rdev.Valid() && rdev.dev.Length == maxCores
    }

    ghost function View(): Table
      requires Valid()
      reads this, rdev, if rdev == null then {} else {rdev.dev}
    {
      if rdev == null then Empty(maxCores) else Table(true, rdev.dev[..], rdev.numCores)
    }

    constructor (maxCores: nat)
      ensures Valid() && View() == Empty(maxCores) && this.maxCores == maxCores
    {
      this.maxCores := maxCores;
      rdev := null;
    }

    method Probe(d: DevId, env: BindEnv, base: nat, stride: nat) returns (ret: int)
      requires Valid() && TableInv(View()) && stride > 0
      requires Allowed(View(), Bind(d, env))
      modifies this, rdev, if rdev == null then {} else {rdev.dev}
      ensures Valid() && (View(), ret) == DoBind(old(View()), d, env)
      ensures TableInv(View())
      ensures ret == 0 <==> DeviceUp(old(View()), env) && env.coreErr == 0
      ensures DeviceUp(old(View()), env) ==> ret == env.coreErr
      ensures ret != 0 ==> View() == old(View())
      ensures ret == 0 ==> d in Bound(View().dev)
    {
      ghost var t := View();
      BindExact(t, d, env);
      BindKeepsInv(t, d, env);
      if rdev == null {
        if !env.groupOk {
          return ENOMEM;
        }
        if env.deviceErr != 0 {
          return env.deviceErr;
        }
        rdev := new Device(maxCores, base, stride);
      }
      var core := rdev.FindFreeSlot();
      ghost var before := rdev.dev[..];
      assert before == t.dev;
      if core == maxCores {
        return ENXIO;
      }
      rdev.Claim(core, d);
      ret := env.coreErr;
      if ret != 0 {
        rdev.Free(core);
        assert rdev.dev[..] == before;
        if rdev.numCores == 0 {
          rdev := null;
        }
      }
    }

    method Remove(d: DevId)
      requires Valid() && TableInv(View()) && Allowed(View(), Unbind(d))
      modifies this, rdev, if rdev == null then {} else {rdev.dev}
      ensures Valid() && View() == DoUnbind(old(View()), d)
      ensures TableInv(View())
    {
      UnbindKeepsInv(View(), d);
      var core := rdev.FindCoreForDev(d);
      ghost var before := rdev.dev[..];
      rdev.Free(core);
      if rdev.numCores == 0 {
        rdev := null;
      }
    }
  }
}
