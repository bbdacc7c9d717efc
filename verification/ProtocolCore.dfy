/**
 * What every run of the clock and power-domain protocol keeps, with no assumption about any
 * clock write: cover by notifiers, the boost's references and the reference balance.
 */
module ProtocolCore {
  import opened Common
  import opened Slots
  import opened Protocol

  // ---------- Domain switches ----------

  /** s1 differs from s by domain switches and safe-rate writes only. */
  predicate Switched(s: St, s1: St) {
    && SameTables(s, s1)
    && (forall d :: 0 <= d < |s.dom| ==> s1.dom[d] == s.dom[d].(on := s1.dom[d].on))
    && (s1.clk == s.clk || s1.clk == SAFE_RATE)
    && (s1.reqRate == s.reqRate || s1.reqRate == SAFE_RATE)
  }

  /** Also, every domain under a notifier, or that found a safe clock, switched at the safe rate. */
  predicate Woken(s: St, s1: St)
    requires WF(s)
  {
    Switched(s, s1) && SafeSince(s, s1.log)
  }

  predicate SafeSince(s: St, log: seq<Switch>)
    requires WF(s)
  {
    && s.log <= log
    && forall k :: |s.log| <= k < |log| ==>
        && log[k].dom < |s.dev|
        && log[k].hooked == Hooked(s, log[k].dom)
        && (log[k].hooked || s.clk == SAFE_RATE ==> log[k].rate == SAFE_RATE)
  }

  lemma HookedSame(s: St, s1: St, d: DevId)
    requires WF(s) && SameTables(s, s1)
    ensures Hooked(s, d) == Hooked(s1, d)
  {
    forall i | 0 <= i < MAX_NB ensures ActsOn(s, i, d) == ActsOn(s1, i, d) {
    }
  }

  lemma WokenTrans(s: St, s1: St, s2: St)
    requires WF(s) && Woken(s, s1) && Woken(s1, s2)
    ensures Woken(s, s2)
  {
    forall k | |s.log| <= k < |s2.log|
      ensures s2.log[k].dom < |s.dev| && s2.log[k].hooked == Hooked(s, s2.log[k].dom)
      ensures s2.log[k].hooked || s.clk == SAFE_RATE ==> s2.log[k].rate == SAFE_RATE
    {
      if k < |s1.log| {
        assert s2.log[k] == s1.log[k];
      } else {
        HookedSame(s, s1, s2.log[k].dom);
      }
    }
  }

  lemma FlipSwitches(s: St, d: DevId, wr: Err, honour: bool)
    requires WF(s) && d < |s.dom|
    ensures Switched(s, Flip(s, d, wr, honour).0)
  {
  }

  lemma FlipWakes(s: St, d: DevId, wr: Err, honour: bool)
    requires WF(s) && d < |s.dom| && (honour || wr == 0 || s.clk == SAFE_RATE || !Hooked(s, d))
    ensures Woken(s, Flip(s, d, wr, honour).0)
  {
  }

  lemma PowerUpWakes(s: St, d: DevId, e: PmEnv)
    requires WF(s) && d < |s.dom|
    ensures Woken(s, PowerUp(s, d, e).0)
    ensures PowerUp(s, d, e).1 == 0 ==> PowerUp(s, d, e).0.dom[d].on
  {
    FlipWakes(s, d, e.wr, true);
    var s1 := Flip(s, d, e.wr, true).0;
    FlipWakes(s1, d, e.wr2, true);
    WokenTrans(s, s1, Flip(s1, d, e.wr2, true).0);
  }

  lemma {:induction false} WakeFromWakes(s: St, i: nat, e: seq<PmEnv>)
    requires WF(s) && |e| == |s.dev| && i <= |s.dev|
    ensures Woken(s, WakeFrom(s, i, e).0)
    decreases |s.dev| - i
  {
    if i < |s.dev| {
      if s.dev[i].None? {
        WakeFromWakes(s, i + 1, e);
      } else {
        var (s1, err) := PowerUp(s, s.dev[i].value, e[i]);
        PowerUpWakes(s, s.dev[i].value, e[i]);
        if err == 0 {
          WakeFromWakes(s1, i + 1, e);
          WokenTrans(s, s1, WakeFrom(s1, i + 1, e).0);
        }
      }
    }
  }

  lemma PowerDownWakes(s: St, d: DevId, idle: bool, wr: Err, wr2: Err)
    requires WF(s) && d < |s.dom|
    ensures Woken(s, PowerDown(s, d, idle, wr, wr2))
  {
    var s1 := SuspendCb(s, idle, wr).0;
    FlipWakes(s1, d, wr2, true);
    WokenTrans(s, s1, Flip(s1, d, wr2, true).0);
  }

  // ---------- The invariant ----------

  /** Every slot is live and under an armed notifier, and no domain escaped supervision. */
  predicate Covered(s: St) {
    && s.owner.Some? && !s.unsafe && |s.dev| <= |s.nb|
    && forall i :: 0 <= i < |s.dev| ==> s.dev[i].Some? && s.nb[i].armed
  }

  predicate NotifierInv(s: St)
    requires WF(s)
  {
    && (s.owner.Some? ==> s.owner == Some(0) && |s.dev| > 0 && s.dev[0].Some?)
    && forall i :: 0 <= i < MAX_NB && s.nb[i].armed ==>
      && i < |s.dev| && s.nb[i].core == Some(i)
      && (!s.unsafe ==> s.dev[i].Some? && s.nb[i].reg == s.dev[i])
  }

  /**
   * Every bound device has k references beside those of its job and of failed job starts;
   * an unbound one has only the latter.
   */
  predicate PmBalance(s: St, k: int)
    requires WF(s)
  {
    forall d :: 0 <= d < |s.dom| ==>
      && s.dom[d].usage == s.dom[d].leaked + (if s.dom[d].inFlight then 1 else 0) + (if IsBound(s, d) then k else 0)
      && (s.dom[d].inFlight ==> IsBound(s, d))
  }

  /** Runtime-PM references, exactly accounted for across both subsystems. */
  predicate PmInv(s: St)
    requires WF(s)
  {
    PmBalance(s, if s.refsHeld then 1 else 0)
  }

  /** A boost and its references exist only under full cover. */
  predicate RefsInv(s: St) {
    (s.reqRate > SAFE_RATE ==> s.refsHeld) && (s.refsHeld ==> Covered(s))
  }

  predicate CoreInv(s: St) {
    WF(s) && NotifierInv(s) && RefsInv(s) && PmInv(s)
  }

  // ---------- Full cover reaches every domain ----------

  lemma {:induction false} ArmedCountBound(nb: seq<Nb>, n: nat)
    requires forall i :: 0 <= i < |nb| && nb[i].armed ==> i < n
    ensures ArmedCount(nb) <= n && ArmedCount(nb) <= |nb|
    ensures ArmedCount(nb) == n <==> n <= |nb| && forall i :: 0 <= i < n ==> nb[i].armed
  {
    if |nb| > 0 {
      var m := |nb| - 1;
      ArmedCountBound(nb[..m], if n <= m then n else m);
      assert forall i :: 0 <= i < m ==> nb[..m][i] == nb[i];
    }
  }

  /** Counting armed blocks does test that every slot is guarded. */
  lemma GuardedMeansCovered(s: St)
    requires WF(s) && NotifierInv(s)
    ensures s.owner.Some? && !s.unsafe && AllGuarded(s) <==> Covered(s)
  {
    ArmedCountBound(s.nb, |s.dev|);
  }

  lemma CoveredBinds(s: St, d: DevId)
    requires WF(s) && Covered(s) && d < |s.dev|
    ensures IsBound(s, d)
  {
    FullTable(s.dev);
    assert d in Below(|s.dev|);
  }

  lemma CoveredHooks(s: St, d: DevId)
    requires WF(s) && NotifierInv(s) && Covered(s) && d < |s.dev|
    ensures Hooked(s, d)
  {
    CoveredBinds(s, d);
    var i := Lookup(s.dev, d);
    assert ActsOn(s, i, d);
  }

  // ---------- Steps that only switch domains ----------

  lemma SwitchedKeepsCore(s: St, s1: St)
    requires CoreInv(s) && Switched(s, s1)
    ensures CoreInv(s1) && Covered(s) == Covered(s1)
  {
  }

  lemma PowerUpKeepsCore(s: St, d: DevId, e: PmEnv)
    requires CoreInv(s) && d < |s.dom|
    ensures CoreInv(PowerUp(s, d, e).0)
  {
    PowerUpWakes(s, d, e);
    SwitchedKeepsCore(s, PowerUp(s, d, e).0);
  }

  lemma PowerDownKeepsCore(s: St, d: DevId, idle: bool, wr: Err, wr2: Err)
    requires CoreInv(s) && d < |s.dom|
    ensures CoreInv(PowerDown(s, d, idle, wr, wr2))
  {
    PowerDownWakes(s, d, idle, wr, wr2);
    SwitchedKeepsCore(s, PowerDown(s, d, idle, wr, wr2));
  }

  lemma FlipKeepsCore(s: St, d: DevId, wr: Err, honour: bool)
    requires CoreInv(s) && d < |s.dom|
    ensures CoreInv(Flip(s, d, wr, honour).0)
  {
    FlipSwitches(s, d, wr, honour);
    SwitchedKeepsCore(s, Flip(s, d, wr, honour).0);
  }

  // ---------- target ----------

  lemma PmShift(s: St, k: int, j: int)
    requires WF(s) && PmBalance(s, k)
    ensures PmBalance(AddUsage(s, 0, |s.dev|, j), k + j)
  {
    var t := AddUsage(s, 0, |s.dev|, j);
    forall d | 0 <= d < |t.dom|
      ensures t.dom[d] == s.dom[d].(usage := s.dom[d].usage + (if IsBound(s, d) then j else 0))
    {
    }
  }

  /** With one set of references too many, the settling phase leaves the exact count. */
  lemma SettleBalances(s: St)
    requires WF(s) && PmBalance(s, if s.refsHeld then 2 else 1)
    ensures PmInv(Settle(s))
  {
    PmShift(s, if s.refsHeld then 2 else 1, -1);
    if s.reqRate <= SAFE_RATE && s.refsHeld {
      var t := ReleaseAll(s.(refsHeld := false));
      assert t == ReleaseAll(s).(refsHeld := false);
      PmShift(t, 1, -1);
    }
  }

  lemma SettleKeepsCore(s: St)
    requires WF(s) && NotifierInv(s) && PmBalance(s, if s.refsHeld then 2 else 1)
    requires s.reqRate > SAFE_RATE ==> Covered(s)
    ensures CoreInv(Settle(s))
  {
    SettleBalances(s);
  }

  lemma WakeKeepsCore(s: St, e: seq<PmEnv>)
    requires CoreInv(s) && |e| == |s.dev|
    ensures CoreInv(WakeFrom(s, 0, e).0) && Covered(s) == Covered(WakeFrom(s, 0, e).0)
  {
    WakeFromWakes(s, 0, e);
    SwitchedKeepsCore(s, WakeFrom(s, 0, e).0);
  }

  /** The invariant, but for one more set of references. */
  predicate Held(h: St) {
    WF(h) && NotifierInv(h) && RefsInv(h) && PmBalance(h, if h.refsHeld then 2 else 1)
  }

  lemma TakeRefs(s: St)
    requires CoreInv(s)
    ensures Held(AddUsage(s, 0, |s.dev|, 1)) && Covered(s) == Covered(AddUsage(s, 0, |s.dev|, 1))
  {
    PmShift(s, if s.refsHeld then 1 else 0, 1);
  }

  lemma HoldKeepsCore(s: St, e: seq<PmEnv>)
    requires CoreInv(s) && |e| == |s.dev|
    ensures var (h, err) := HoldAll(s, e); if err < 0 then CoreInv(h) else Held(h) && Covered(s) == Covered(h)
  {
    WakeKeepsCore(s, e);
    TakeRefs(WakeFrom(s, 0, e).0);
  }

  lemma ChangeRateKeepsCore(s: St, freq: nat, e: TargetEnv)
    requires CoreInv(s) && |e.pm| == |s.dev| && (freq > SAFE_RATE ==> Covered(s))
    ensures CoreInv(ChangeRate(s, freq, e).st)
  {
    HoldKeepsCore(s, e.pm);
    var (h, err) := HoldAll(s, e.pm);
    if err == 0 {
      SettleKeepsCore(if e.wr == 0 then h.(reqRate := freq, clk := e.got) else h);
    }
  }

  /** A request keeps the invariant whatever in it fails and whatever rate results. */
  lemma TargetKeepsCore(s: St, freq: nat, e: TargetEnv)
    requires CoreInv(s) && |e.pm| == |s.dev|
    ensures CoreInv(Target(s, freq, e).st)
  {
    if Target(s, freq, e).st != s {
      GuardedMeansCovered(s);
      ChangeRateKeepsCore(s, freq, e);
    }
  }

  // ---------- Arming and probing ----------

  lemma ArmKeepsCore(s: St, res: seq<Err>)
    requires CoreInv(s) && |res| == MAX_NB && s.owner.Some? && !s.refsHeld
    ensures CoreInv(Arm(s, res))
  {
  }

  lemma BindKeepsCore(s: St, c: nat, d: DevId)
    requires CoreInv(s) && !s.refsHeld && c < |s.dev| && d < |s.dev| && s.dev[c].None? && !IsBound(s, d)
    ensures CoreInv(s.(dev := s.dev[c := Some(d)]))
  {
    LookupOthers(s.dev, c, Some(d));
  }

  lemma InitKeepsCore(s: St, e: InitEnv)
    requires CoreInv(s) && |s.dev| > 0 && s.dev[0].Some? && |e.arm| == MAX_NB
    ensures CoreInv(Init(s, 0, e))
  {
    if s.owner.None? {
      var s1 := PowerUp(s, s.dev[0].value, e.pm).0;
      PowerUpKeepsCore(s, s.dev[0].value, e.pm);
      var s2 := s1.(reg := e.regErr == 0, reqRate := SAFE_RATE);
      assert !s2.refsHeld && CoreInv(s2);
      assert CoreInv(s2.(owner := Some(0)));
      ArmKeepsCore(s2.(owner := Some(0)), e.arm);
    }
  }

  lemma CoreUpKeepsCore(s: St, c: nat, e: InitEnv)
    requires CoreInv(s) && !s.refsHeld && c < |s.dev| && s.dev[c].Some? && |e.arm| == MAX_NB
    ensures CoreInv(CoreUp(s, c, e))
  {
    if c == 0 {
      InitKeepsCore(s, e);
    } else if s.owner.Some? {
      ArmKeepsCore(s, e.arm);
    }
  }

  lemma ProbeKeepsCore(s: St, d: DevId, e: ProbeEnv)
    requires CoreInv(s) && Enabled(s, Probe(d, e))
    ensures CoreInv(DoProbe(s, d, e))
  {
    FlipKeepsCore(s, d, e.attachWr, true);
    var (s1, veto) := Attach(s, d, e.attachWr);
    if Covered(s1) {
      CoveredBinds(s1, d);
    }
    var c := FirstFree(s1.dev);
    if veto == 0 && c < |s1.dev| && e.coreErr == 0 {
      BindKeepsCore(s1, c, d);
      CoreUpKeepsCore(s1.(dev := s1.dev[c := Some(d)]), c, e.init);
    }
  }

  // ---------- Removing ----------

  /** No boost and no boost references; the clock may still be fast. */
  predicate Calm(s: St) {
    WF(s) && NotifierInv(s) && s.reqRate <= SAFE_RATE && !s.refsHeld && PmBalance(s, 0)
  }

  /** Slot c has no armed block left, or boosting is off for good. */
  predicate Unguarded(s: St, c: nat) {
    s.unsafe || forall i :: 0 <= i < |s.nb| && s.nb[i].armed ==> s.nb[i].core != Some(c)
  }

  lemma ReleaseCalms(s: St)
    requires WF(s) && NotifierInv(s) && s.reqRate <= SAFE_RATE && !s.refsHeld && PmBalance(s, 1)
    ensures Calm(ReleaseAll(s))
  {
    PmShift(s, 1, -1);
  }

  lemma DropHeldBoostCalms(s: St, wr: Err)
    requires CoreInv(s) && s.refsHeld
    ensures Calm(DropBoost(s, wr))
  {
    ReleaseCalms(s.(reqRate := SAFE_RATE, clk := if wr == 0 then SAFE_RATE else s.clk,
                    unsafe := s.unsafe || (s.clk != SAFE_RATE && wr != 0), refsHeld := false));
  }

  lemma DropBoostCalms(s: St, wr: Err)
    requires CoreInv(s)
    ensures Calm(DropBoost(s, wr))
  {
    if s.refsHeld {
      DropHeldBoostCalms(s, wr);
    }
  }

  lemma DropBlockUnguards(s: St, c: nat, rm: Err)
    requires WF(s) && NotifierInv(s)
    ensures WF(DropBlock(s, c, rm)) && NotifierInv(DropBlock(s, c, rm)) && Unguarded(DropBlock(s, c, rm), c)
  {
  }

  lemma DropBlockCalms(s: St, c: nat, rm: Err)
    requires Calm(s)
    ensures Calm(DropBlock(s, c, rm)) && Unguarded(DropBlock(s, c, rm), c)
  {
    DropBlockUnguards(s, c, rm);
  }

  lemma DisarmCalms(s: St, c: nat, rm: seq<Err>)
    requires Calm(s) && Unguarded(s, c) && |rm| == MAX_NB
    ensures Calm(DisarmAll(s, rm)) && Unguarded(DisarmAll(s, rm), c)
  {
  }

  lemma FiniCalms(s: St, c: nat, e: RemoveEnv)
    requires Calm(s) && Unguarded(s, c) && c < |s.dev| && s.dev[c].Some? && |e.rmAll| == MAX_NB
    ensures Calm(Fini(s, c, e)) && Unguarded(Fini(s, c, e), c)
    ensures Fini(s, c, e).dev == s.dev && Fini(s, c, e).dom == s.dom && Fini(s, c, e).owner != Some(c)
  {
    if s.owner == Some(c) {
      var clk := if s.dom[s.dev[c].value].on && e.wr2 == 0 then SAFE_RATE else s.clk;
      DisarmCalms(s.(reqRate := SAFE_RATE, clk := clk, owner := None), c, e.rmAll);
    }
  }

  lemma UnbindCalms(s: St, c: nat)
    requires Calm(s) && Unguarded(s, c) && c < |s.dev| && s.dev[c].Some? && s.owner != Some(c)
    requires !s.dom[s.dev[c].value].inFlight
    ensures Calm(s.(dev := s.dev[c := None])) && !Covered(s.(dev := s.dev[c := None]))
  {
    LookupOthers(s.dev, c, None);
  }

  /** Whatever fails in it, a removal leaves no boost and uncovers the board. */
  lemma RemoveCalms(s: St, d: DevId, e: RemoveEnv)
    requires CoreInv(s) && Enabled(s, Remove(d, e))
    ensures Calm(DoRemove(s, d, e)) && !Covered(DoRemove(s, d, e))
  {
    var c := Lookup(s.dev, d);
    var s1 := DropBoost(s, e.wr);
    DropBoostCalms(s, e.wr);
    DropBlockCalms(s1, c, e.rm);
    var s2 := DropBlock(s1, c, e.rm);
    assert s2.dom == s1.dom && s2.dev == s.dev;
    FiniCalms(s2, c, e);
    assert !Fini(s2, c, e).dom[d].inFlight;
    UnbindCalms(Fini(s2, c, e), c);
  }

  // ---------- Jobs ----------

  lemma SetDomain(s: St, k: int, d: DevId, p: Domain)
    requires WF(s) && PmBalance(s, k) && d < |s.dom| && IsBound(s, d)
    requires p.usage - s.dom[d].usage
          == p.leaked - s.dom[d].leaked + (if p.inFlight then 1 else 0) - (if s.dom[d].inFlight then 1 else 0)
    ensures WF(s.(dom := s.dom[d := p])) && PmBalance(s.(dom := s.dom[d := p]), k)
  {
    var t := s.(dom := s.dom[d := p]);
    forall x | 0 <= x < |t.dom|
      ensures t.dom[x].usage
           == t.dom[x].leaked + (if t.dom[x].inFlight then 1 else 0) + (if IsBound(t, x) then k else 0)
      ensures t.dom[x].inFlight ==> IsBound(t, x)
    {
      assert IsBound(t, x) == IsBound(s, x);
    }
  }

  lemma SetDomainKeepsCore(s: St, d: DevId, p: Domain)
    requires CoreInv(s) && d < |s.dom| && IsBound(s, d)
    requires p.usage - s.dom[d].usage
          == p.leaked - s.dom[d].leaked + (if p.inFlight then 1 else 0) - (if s.dom[d].inFlight then 1 else 0)
    ensures CoreInv(s.(dom := s.dom[d := p]))
  {
    SetDomain(s, if s.refsHeld then 1 else 0, d, p);
  }

  lemma StartKeepsCore(s: St, d: DevId, pm: PmEnv, attachErr: Err)
    requires CoreInv(s) && Enabled(s, JobStart(d, pm, attachErr))
    ensures CoreInv(StartJob(s, d, pm, attachErr))
  {
    PowerUpKeepsCore(s, d, pm);
    PowerUpWakes(s, d, pm);
    SetDomainKeepsCore(PowerUp(s, d, pm).0, d, StartJob(s, d, pm, attachErr).dom[d]);
  }

  lemma EndKeepsCore(s: St, d: DevId)
    requires CoreInv(s) && Enabled(s, JobEnd(d))
    ensures CoreInv(Next(s, JobEnd(d)))
  {
    SetDomainKeepsCore(s, d, s.dom[d].(usage := s.dom[d].usage - 1, inFlight := false));
  }

  // ---------- Whole runs ----------

  lemma StepKeepsCore(s: St, x: Step)
    requires CoreInv(s) && Enabled(s, x)
    ensures CoreInv(Next(s, x))
  {
    match x
    case Probe(d, pe) => ProbeKeepsCore(s, d, pe);
    case Remove(d, re) => RemoveCalms(s, d, re);
    case SetTarget(freq, te) => TargetKeepsCore(s, freq, te);
    case RuntimeOff(d, idle, wr, wr2) => PowerDownKeepsCore(s, d, idle, wr, wr2);
    case ForcedOff(d, idle, wr, wr2) => PowerDownKeepsCore(s, d, idle, wr, wr2);
    case ForcedOn(d, wr) => FlipKeepsCore(s, d, wr, false);
    case UnboundSwitch(d, wr) => FlipKeepsCore(s, d, wr, true);
    case JobStart(d, pm, attachErr) => StartKeepsCore(s, d, pm, attachErr);
    case JobEnd(d) => EndKeepsCore(s, d);
    case Reboot(d, wr) => SwitchedKeepsCore(s, Shutdown(s, d, wr));
    case ForeignWrite(_) =>
  }

  lemma BootCore(on: seq<bool>)
    ensures CoreInv(Boot(on))
  {
  }

  predicate Run(s: St, xs: seq<Step>, t: St)
    decreases |xs|
  {
    if |xs| == 0 then s == t
    else WF(s) && Enabled(s, xs[0]) && Run(Next(s, xs[0]), xs[1..], t)
  }

  lemma {:induction false} RunKeepsCore(s: St, xs: seq<Step>, t: St)
    requires CoreInv(s) && Run(s, xs, t)
    ensures CoreInv(t) && |t.dev| == |s.dev|
    decreases |xs|
  {
    if |xs| > 0 {
      StepKeepsCore(s, xs[0]);
      RunKeepsCore(Next(s, xs[0]), xs[1..], t);
    }
  }
}
