/**
 * The devfreq layer as the code runs it: one object whose fields and notifier table the
 * entry points update in place, proved against the protocol's state machine.
 */
module Devfreq {
  import opened Common
  import opened Slots
  import opened Protocol

  // ---------- Usage counts and wake-ups commute ----------

  lemma UsageStep(s: St, i: nat, k: int)
    requires WF(s) && i < |s.dev|
    ensures s.dev[i].None? ==> AddUsage(s, 0, i + 1, k) == AddUsage(s, 0, i, k)
    ensures s.dev[i].Some? ==> var d := s.dev[i].value; var t := AddUsage(s, 0, i, k);
      AddUsage(s, 0, i + 1, k) == t.(dom := t.dom[d := t.dom[d].(usage := t.dom[d].usage + k)])
  {
    var t, u := AddUsage(s, 0, i, k), AddUsage(s, 0, i + 1, k);
    if s.dev[i].None? {
      assert u.dom == t.dom;
    } else {
      var d := s.dev[i].value;
      LookupOwnSlot(s.dev, i);
      forall x | 0 <= x < |s.dom| && x != d ensures u.dom[x] == t.dom[x] {
      }
      assert u.dom == t.dom[d := t.dom[d].(usage := t.dom[d].usage + k)];
    }
  }

  lemma NoUsage(s: St, k: int)
    requires WF(s)
    ensures AddUsage(s, 0, 0, k) == s
  {
    assert AddUsage(s, 0, 0, k).dom == s.dom;
  }

  lemma HookedIgnoresUsage(s: St, i: nat, k: int, d: DevId)
    requires WF(s)
    ensures Hooked(AddUsage(s, 0, i, k), d) == Hooked(s, d)
  {
    forall b | 0 <= b < MAX_NB ensures ActsOn(AddUsage(s, 0, i, k), b, d) == ActsOn(s, b, d) {
    }
  }

  lemma NotifyCommutes(s: St, i: nat, k: int, d: DevId, wr: Err)
    requires WF(s)
    ensures Notify(AddUsage(s, 0, i, k), d, wr).1 == Notify(s, d, wr).1
    ensures Notify(AddUsage(s, 0, i, k), d, wr).0 == AddUsage(Notify(s, d, wr).0, 0, i, k)
  {
    HookedIgnoresUsage(s, i, k, d);
    assert Notify(AddUsage(s, 0, i, k), d, wr).0.dom == AddUsage(Notify(s, d, wr).0, 0, i, k).dom;
  }

  /** The domain really goes on or off. */
  function Thrown(s: St, d: DevId, hooked: bool): St
    requires d < |s.dom|
  {
    s.(dom := s.dom[d := s.dom[d].(on := !s.dom[d].on)], log := s.log + [Switch(d, s.clk, hooked)])
  }

  /** Switching a domain after raising counts is raising them after the switch. */
  lemma ThrownCommutes(s: St, i: nat, k: int, d: DevId, hooked: bool)
    requires WF(s) && d < |s.dom|
    ensures Thrown(AddUsage(s, 0, i, k), d, hooked) == AddUsage(Thrown(s, d, hooked), 0, i, k)
  {
    assert Thrown(AddUsage(s, 0, i, k), d, hooked).dom == AddUsage(Thrown(s, d, hooked), 0, i, k).dom;
  }

  lemma FlipIsThrown(s: St, d: DevId, wr: Err, honour: bool)
    requires WF(s) && d < |s.dom|
    ensures var (s1, veto) := Notify(s, d, wr);
      Flip(s, d, wr, honour) == if veto != 0 && honour then (s1, veto) else (Thrown(s1, d, Hooked(s, d)), 0)
  {
  }

  lemma FlipCommutes(s: St, i: nat, k: int, d: DevId, wr: Err, honour: bool)
    requires WF(s) && d < |s.dom|
    ensures Flip(AddUsage(s, 0, i, k), d, wr, honour).1 == Flip(s, d, wr, honour).1
    ensures Flip(AddUsage(s, 0, i, k), d, wr, honour).0 == AddUsage(Flip(s, d, wr, honour).0, 0, i, k)
  {
    HookedIgnoresUsage(s, i, k, d);
    NotifyCommutes(s, i, k, d, wr);
    FlipIsThrown(s, d, wr, honour);
    FlipIsThrown(AddUsage(s, 0, i, k), d, wr, honour);
    ThrownCommutes(Notify(s, d, wr).0, i, k, d, Hooked(s, d));
  }

  lemma PowerUpCommutes(s: St, i: nat, k: int, d: DevId, e: PmEnv)
    requires WF(s) && d < |s.dom|
    ensures PowerUp(AddUsage(s, 0, i, k), d, e).1 == PowerUp(s, d, e).1
    ensures PowerUp(AddUsage(s, 0, i, k), d, e).0 == AddUsage(PowerUp(s, d, e).0, 0, i, k)
  {
    FlipCommutes(s, i, k, d, e.wr, true);
    FlipCommutes(Flip(s, d, e.wr, true).0, i, k, d, e.wr2, true);
  }

  lemma PowerUpKeepsUsage(s: St, d: DevId, e: PmEnv)
    requires WF(s) && d < |s.dom|
    ensures forall x :: 0 <= x < |s.dom| ==> PowerUp(s, d, e).0.dom[x].usage == s.dom[x].usage
  {
  }

  lemma {:induction false} WakeKeepsUsage(s: St, i: nat, e: seq<PmEnv>)
    requires WF(s) && |e| == |s.dev| && i <= |s.dev|
    ensures forall x :: 0 <= x < |s.dom| ==> WakeFrom(s, i, e).0.dom[x].usage == s.dom[x].usage
    decreases |s.dev| - i
  {
    if i < |s.dev| {
      if s.dev[i].Some? {
        PowerUpKeepsUsage(s, s.dev[i].value, e[i]);
      }
      WakeKeepsUsage(if s.dev[i].Some? then PowerUp(s, s.dev[i].value, e[i]).0 else s, i + 1, e);
    }
  }

  /** All or nothing, on the counts. */
  lemma HoldCounts(s: St, e: seq<PmEnv>)
    requires WF(s) && |e| == |s.dev|
    ensures forall d :: 0 <= d < |s.dom| ==>
      HoldAll(s, e).0.dom[d].usage == s.dom[d].usage + (if HoldAll(s, e).1 == 0 && Lookup(s.dev, d) >= 0 then 1 else 0)
  {
    WakeKeepsUsage(s, 0, e);
  }

  /** static rocket_df and rocket_df_nb, with the hardware and kernel state they act on. */
  class Devfreq {
    const dev: array<Option<DevId>>
    const nb: array<Nb>
    var owner: Option<nat>
    var reqRate: nat
    var refsHeld: bool
    var unsafe: bool
    var reg: bool
    var clk: nat
    var dom: seq<Domain>
    ghost var log: seq<Switch>

    ghost function Abs(): St
      reads this, dev, nb
    {
      St(dev[..], nb[..], owner, reqRate, refsHeld, unsafe, reg, clk, dom, log)
    }

    ghost predicate Valid()
      reads this, dev, nb
    {
      WF(Abs())
    }

    /** Module load on a board whose firmware left some domains on. */
    constructor (on: seq<bool>)
      ensures Valid() && Abs() == Boot(on) && fresh(dev) && fresh(nb)
    {
      dev := new Option<DevId>[|on|](_ => None);
      nb := new Nb[MAX_NB](_ => Nb(false, None, None));
      owner, reqRate, refsHeld, unsafe, reg, clk := None, SAFE_RATE, false, false, false, SAFE_RATE;
      dom := seq(|on|, d requires 0 <= d < |on| => Domain(0, on[d], false, 0));
      log := [];
      new;
      assert dev[..] == Boot(on).dev;
      assert nb[..] == Boot(on).nb;
    }

    /** clk_set_rate(SAFE_RATE) through any core's handle. */
    method WriteSafe(wr: Err)
      modifies this`clk
      ensures clk == if wr == 0 then SAFE_RATE else old(clk)
    {
      if wr == 0 {
        clk := SAFE_RATE;
      }
    }

    /** rocket_df_notify for block i, before its domain goes on or off. */
    method Notify(i: nat, wr: Err) returns (veto: Err)
      requires Valid() && i < MAX_NB
      modifies this`clk, this`reqRate
      ensures Valid()
      ensures (Abs(), veto)
           == if owner.Some? && LiveBlock(old(Abs()), i) then NotifyAct(old(Abs()), wr) else (old(Abs()), 0)
    {
      veto := 0;
      if nb[i].core.None? || dev[nb[i].core.value].None? || owner.None? {
        return;
      }
      if clk != SAFE_RATE {
        WriteSafe(wr);
        veto := wr;
      }
      if reqRate != SAFE_RATE {
        reqRate := SAFE_RATE;
      }
    }

    /** The blocks in a domain's chain run until one vetoes. */
    method RunChain(d: DevId, wr: Err) returns (veto: Err)
      requires Valid() && d < |dom|
      modifies this`clk, this`reqRate
      ensures Valid() && (Abs(), veto) == Protocol.Notify(old(Abs()), d, wr)
    {
      ghost var s := Abs();
      ghost var hit := false;
      veto := 0;
      var i := 0;
      while i < nb.Length && veto == 0
        invariant i <= nb.Length && Valid()
        invariant hit <==> owner.Some? && exists k :: 0 <= k < i && ActsOn(s, k, d)
        invariant (Abs(), veto) == if hit then NotifyAct(s, wr) else (s, 0)
      {
        if nb[i].armed && nb[i].reg == Some(d) {
          veto := Notify(i, wr);
        }
        hit := hit || (owner.Some? && ActsOn(s, i, d));
        i := i + 1;
      }
      assert hit == Hooked(s, d);
    }

    /** genpd switching a domain: its notifiers first, then the switch unless one vetoed. */
    method SwitchDomain(d: DevId, wr: Err, honour: bool) returns (veto: Err)
      requires Valid() && d < |dom|
      modifies this`clk, this`reqRate, this`dom, this`log
      ensures Valid() && (Abs(), veto) == Flip(old(Abs()), d, wr, honour)
    {
      ghost var hooked := Hooked(Abs(), d);
      veto := RunChain(d, wr);
      if veto == 0 || !honour {
        log := log + [Switch(d, clk, hooked)];
        dom := dom[d := dom[d].(on := !dom[d].on)];
        veto := 0;
      }
    }

    method Resume(d: DevId, e: PmEnv) returns (err: Err)
      requires Valid() && d < |dom|
      modifies this`clk, this`reqRate, this`dom, this`log
      ensures Valid() && (Abs(), err) == PowerUp(old(Abs()), d, e)
    {
      if dom[d].on || e.before < 0 {
        return e.before;
      }
      err := SwitchDomain(d, e.wr, true);
      if err == 0 && e.after < 0 {
        var _ := SwitchDomain(d, e.wr2, true);
        err := e.after;
      }
    }

    /** pm_runtime_put and its relatives: the count drops, any power-off comes later. */
    method AddRef(d: DevId, k: int)
      requires d < |dom|
      modifies this`dom
      ensures dom == old(dom)[d := old(dom)[d].(usage := old(dom)[d].usage + k)]
    {
      dom := dom[d := dom[d].(usage := dom[d].usage + k)];
    }

    /** One turn of the hold loop; w is the state without the references taken so far. */
    method HoldCore(i: nat, e: PmEnv, ghost w: St) returns (err: Err)
      requires WF(w) && i < dev.Length && dev[i].Some? && Abs() == AddUsage(w, 0, i, 1)
      modifies this`clk, this`reqRate, this`dom, this`log
      ensures err == PowerUp(w, dev[i].value, e).1
      ensures Abs() == AddUsage(PowerUp(w, dev[i].value, e).0, 0, if err < 0 then i else i + 1, 1)
    {
      var d := dev[i].value;
      PowerUpCommutes(w, i, 1, d, e);
      err := Resume(d, e);
      ghost var w1 := PowerUp(w, d, e).0;
      assert Abs() == AddUsage(w1, 0, i, 1);
      UsageStep(w1, i, 1);
      if err == 0 {
        AddRef(d, 1);
        assert Abs() == AddUsage(w1, 0, i + 1, 1);
      }
    }

    /** Takes a reference on every live core; on a failure gives back those already taken. */
    method HoldAllCores(e: seq<PmEnv>) returns (err: Err)
      requires Valid() && |e| == dev.Length
      modifies this`clk, this`reqRate, this`dom, this`log
      ensures Valid() && (Abs(), err) == HoldAll(old(Abs()), e)
    {
      ghost var s, w := Abs(), Abs();
      NoUsage(w, 1);
      var i := 0;
      while i < dev.Length
        invariant i <= dev.Length && WF(w) && w.dev == dev[..]
        invariant Abs() == AddUsage(w, 0, i, 1)
        invariant WakeFrom(s, 0, e) == WakeFrom(w, i, e)
      {
        if dev[i].Some? {
          ghost var w1 := PowerUp(w, dev[i].value, e[i]).0;
          err := HoldCore(i, e[i], w);
          w := w1;
          if err < 0 {
            Rollback(i, w);
            return;
          }
        } else {
          UsageStep(w, i, 1);
        }
        i := i + 1;
      }
      err := 0;
    }

    /** The error path of the hold loop, down from slot n - 1. */
    method Rollback(n: nat, ghost w: St)
      requires WF(w) && n <= dev.Length && Abs() == AddUsage(w, 0, n, 1)
      modifies this`dom
      ensures Abs() == w
    {
      var i := n;
      while i > 0
        invariant 0 <= i <= n && Abs() == AddUsage(w, 0, i, 1)
      {
        i := i - 1;
        UsageStep(w, i, 1);
        if dev[i].Some? {
          AddRef(dev[i].value, -1);
          assert dom == AddUsage(w, 0, i, 1).dom;
        }
      }
      NoUsage(w, 1);
    }

    method ReleaseAllCores()
      requires Valid()
      modifies this`dom
      ensures Valid() && Abs() == ReleaseAll(old(Abs()))
    {
      ghost var s := Abs();
      NoUsage(s, -1);
      for i := 0 to dev.Length
        invariant Abs() == AddUsage(s, 0, i, -1)
      {
        UsageStep(s, i, -1);
        if dev[i].Some? {
          AddRef(dev[i].value, -1);
        }
      }
    }

    /** Counts the armed blocks. */
    method EveryCoreGuarded() returns (r: bool)
      requires Valid()
      ensures r == AllGuarded(Abs())
    {
      var armed := 0;
      for i := 0 to nb.Length
        invariant armed == ArmedCount(nb[..i])
      {
        assert nb[..i + 1][..i] == nb[..i];
        if nb[i].armed {
          armed := armed + 1;
        }
      }
      assert nb[..nb.Length] == nb[..];
      r := armed == dev.Length;
    }

    /** rocket_devfreq_target; newFreq is what the devfreq core is told. */
    method SetTarget(freq: nat, e: TargetEnv) returns (ret: int, newFreq: nat)
      requires Valid() && |e.pm| == dev.Length
      modifies this`clk, this`reqRate, this`dom, this`log, this`refsHeld
      ensures TargetOut(Abs(), ret, newFreq) == Target(old(Abs()), freq, e)
    {
      newFreq := freq;
      if e.oppErr != 0 {
        return e.oppErr, freq;
      }
      if owner.None? {
        return ENODEV, freq;
      }
      if freq == reqRate && (freq == SAFE_RATE || !unsafe) && clk == freq {
        return 0, freq;
      }
      if freq > SAFE_RATE {
        var guarded := EveryCoreGuarded();
        if unsafe || !guarded {
          return EAGAIN, freq;
        }
      }
      if freq > HIGH_RATE {
        var uv := if reg then e.uv else ENODEV;
        if uv < VOLT_FOR_HIGH {
          return EPERM, freq;
        }
      }
      ret, newFreq := GrantRate(freq, e);
    }

    /** The granted part: hold, publish, write, then settle which references stay. */
    method GrantRate(freq: nat, e: TargetEnv) returns (ret: int, newFreq: nat)
      requires Valid() && |e.pm| == dev.Length
      modifies this`clk, this`reqRate, this`dom, this`log, this`refsHeld
      ensures TargetOut(Abs(), ret, newFreq) == ChangeRate(old(Abs()), freq, e)
    {
      newFreq := freq;
      ret := HoldAllCores(e.pm);
      if ret < 0 {
        return;
      }
      var previous := reqRate;
      reqRate := freq;
      ret := e.wr;
      if ret == 0 {
        clk := e.got;
        newFreq := e.got;
      } else {
        reqRate := previous;
      }
      SettleRefs();
    }

    method SettleRefs()
      requires Valid()
      modifies this`dom, this`refsHeld
      ensures Abs() == Settle(old(Abs()))
    {
      var took := true;
      if reqRate > SAFE_RATE {
        if refsHeld {
          ReleaseAllCores();
        }
        refsHeld := true;
        took := false;
      } else if refsHeld {
        refsHeld := false;
        ReleaseAllCores();
      }
      if took {
        ReleaseAllCores();
      }
    }

    /** rocket_runtime_suspend's devfreq part: no lock, a write through the core's own handle. */
    method Suspend(idle: bool, wr: Err) returns (err: Err)
      requires Valid()
      modifies this`clk
      ensures Valid() && (Abs(), err) == SuspendCb(old(Abs()), idle, wr)
    {
      if !idle {
        return EBUSY;
      }
      if owner.None? {
        return 0;
      }
      WriteSafe(wr);
      err := if wr != 0 then EBUSY else 0;
    }

    method ShutdownCore(c: nat, wr: Err)
      requires Valid() && c < dev.Length && dev[c].Some?
      modifies this`clk
      ensures Abs() == Shutdown(old(Abs()), dev[c].value, wr)
      ensures owner == Some(c) && dom[dev[c].value].on && wr == 0 ==> clk == SAFE_RATE
    {
      LookupOwnSlot(dev[..], c);
      if owner == Some(c) && dom[dev[c].value].on {
        WriteSafe(wr);
      }
    }

    /** Arms one slot if it needs it; a failure leaves an orphan block and disables boosting for good. */
    method ArmSlot(i: nat, res: Err)
      requires Valid() && i < dev.Length && i < MAX_NB
      modifies this`unsafe, nb
      ensures Valid()
      ensures forall k :: 0 <= k < MAX_NB && k != i ==> nb[k] == old(nb[k])
      ensures nb[i] == if dev[i].None? || old(nb[i].armed) then old(nb[i])
                       else if res == 0 then Nb(true, Some(i), dev[i]) else old(nb[i]).(core := None)
      ensures unsafe == (old(unsafe) || (dev[i].Some? && !old(nb[i].armed) && res != 0))
    {
      if dev[i].Some? && !nb[i].armed {
        nb[i] := nb[i].(core := Some(i));
        if res != 0 {
          nb[i] := nb[i].(core := None);
          unsafe := true;
        } else {
          nb[i] := Nb(true, Some(i), dev[i]);
        }
      }
    }

    /** Arms every live slot that is not armed yet; a failure disables boosting for good. */
    method ArmNotifiers(res: seq<Err>)
      requires Valid() && |res| == MAX_NB
      modifies this`unsafe, nb
      ensures Abs() == Arm(old(Abs()), res)
    {
      ghost var s := Abs();
      var i := 0;
      while i < dev.Length && i < MAX_NB
        invariant i <= MAX_NB && i <= dev.Length && dev[..] == s.dev && Valid()
        invariant forall k :: 0 <= k < i ==> nb[k] == Arm(s, res).nb[k]
        invariant forall k :: i <= k < MAX_NB ==> nb[k] == s.nb[k]
        invariant unsafe == (s.unsafe || exists k :: 0 <= k < i && NeedsArm(s, k) && res[k] != 0)
      {
        ArmSlot(i, res[i]);
        i := i + 1;
      }
      assert nb[..] == Arm(s, res).nb;
    }

    /** rocket_devfreq_init for the core in slot c. */
    method InitDevfreq(c: nat, e: InitEnv)
      requires Valid() && c < dev.Length && dev[c].Some? && |e.arm| == MAX_NB
      modifies this, nb
      ensures Abs() == Init(old(Abs()), c, e)
    {
      if owner.Some? {
        return;
      }
      var err := Resume(dev[c].value, e.pm);
      if err < 0 || clk != SAFE_RATE {
        return;
      }
      reg := e.regErr == 0;
      if e.setupErr != 0 {
        return;
      }
      owner, reqRate, refsHeld := Some(c), SAFE_RATE, false;
      if e.addErr != 0 {
        owner := None;
        return;
      }
      ArmNotifiers(e.arm);
    }

    /** First give up the boost, then disarm the core's own notifier. */
    method CoreRemoved(c: nat, e: RemoveEnv)
      requires Valid() && c < dev.Length
      modifies this`reqRate, this`clk, this`unsafe, this`refsHeld, this`dom, nb
      ensures Abs() == DropBlock(DropBoost(old(Abs()), e.wr), c, e.rm)
    {
      if owner.Some? {
        reqRate := SAFE_RATE;
        if clk != SAFE_RATE {
          WriteSafe(e.wr);
          if e.wr != 0 {
            unsafe := true;
          }
        }
        if refsHeld {
          refsHeld := false;
          ReleaseAllCores();
        }
      }
      DisarmOwn(c, e.rm);
    }

    method DisarmOwn(c: nat, rm: Err)
      requires Valid() && c < dev.Length
      modifies this`unsafe, nb
      ensures Abs() == DropBlock(old(Abs()), c, rm)
    {
      ghost var s := Abs();
      for i := 0 to nb.Length
        invariant Abs() == s
        invariant OwnBlock(s.nb, c) >= i
      {
        if nb[i].armed && nb[i].core == Some(c) {
          if rm != 0 {
            unsafe := true;
          } else {
            nb[i] := Nb(false, None, None);
          }
          return;
        }
      }
    }

    /** fini's last net: every block still armed for a live core. */
    method DisarmNotifiers(rm: seq<Err>)
      requires Valid() && |rm| == MAX_NB
      modifies nb
      ensures Abs() == DisarmAll(old(Abs()), rm)
    {
      ghost var s := Abs();
      for i := 0 to nb.Length
        invariant dev[..] == s.dev
        invariant forall k :: 0 <= k < i ==> nb[k] == DisarmAll(s, rm).nb[k]
        invariant forall k :: i <= k < nb.Length ==> nb[k] == s.nb[k]
      {
        if !nb[i].armed || nb[i].core.None? || dev[nb[i].core.value].None? || rm[i] != 0 {
          continue;
        }
        nb[i] := Nb(false, None, None);
      }
      assert nb[..] == DisarmAll(s, rm).nb;
    }

    /** rocket_devfreq_fini; only the owner's removal does anything. */
    method FiniDevfreq(c: nat, e: RemoveEnv)
      requires Valid() && c < dev.Length && dev[c].Some? && |e.rmAll| == MAX_NB
      modifies this, nb
      ensures Abs() == Fini(old(Abs()), c, e)
    {
      if owner != Some(c) {
        return;
      }
      reqRate := SAFE_RATE;
      if refsHeld {
        refsHeld := false;
        WriteSafe(e.wr2);
        ReleaseAllCores();
      } else if dom[dev[c].value].on {
        WriteSafe(e.wr2);
      }
      owner := None;
      DisarmNotifiers(e.rmAll);
    }

    // ---------- The driver callbacks around it ----------

    /** Runtime suspend of a bound core: the callback, then its domain goes off. */
    method RuntimeSuspend(d: DevId, idle: bool, wr: Err, wr2: Err)
      requires Valid() && d < |dom|
      modifies this`clk, this`reqRate, this`dom, this`log
      ensures Valid() && Abs() == PowerDown(old(Abs()), d, idle, wr, wr2)
    {
      var err := Suspend(idle, wr);
      if err == 0 {
        var _ := SwitchDomain(d, wr2, true);
      }
    }

    /** The part of a probe that touches power domains and the devfreq layer. */
    method ProbeCore(d: DevId, e: ProbeEnv)
      requires Valid() && d < |dom| && Lookup(dev[..], d) < 0 && |e.init.arm| == MAX_NB
      modifies this, nb, dev
      ensures Abs() == DoProbe(old(Abs()), d, e)
    {
      if !dom[d].on {
        var veto := SwitchDomain(d, e.attachWr, true);
        if veto != 0 {
          return;
        }
      }
      var c := 0;
      while c < dev.Length && dev[c].Some?
        invariant c <= dev.Length && forall k :: 0 <= k < c ==> dev[k].Some?
      {
        c := c + 1;
      }
      ghost var before := dev[..];
      assert c == FirstFree(before);
      if c == dev.Length || e.coreErr != 0 {
        return;
      }
      LookupOthers(before, c, Some(d));
      dev[c] := Some(d);
      assert dev[..] == before[c := Some(d)];
      if c == 0 {
        InitDevfreq(c, e.init);
      } else if owner.Some? {
        ArmNotifiers(e.init.arm);
      }
    }

    /** A removal: give up the boost, disarm, hand over to fini, free the slot. */
    method RemoveCore(d: DevId, e: RemoveEnv)
      requires Valid() && Lookup(dev[..], d) >= 0 && |e.rmAll| == MAX_NB
      modifies this, nb, dev
      ensures Abs() == DoRemove(old(Abs()), d, e)
    {
      var c := 0;
      while dev[c] != Some(d)
        invariant c < dev.Length && c <= Lookup(dev[..], d)
        decreases dev.Length - c
      {
        c := c + 1;
      }
      CoreRemoved(c, e);
      FiniDevfreq(c, e);
      ghost var before := dev[..];
      dev[c] := None;
      assert dev[..] == before[c := None];
    }
  }
}
