/**
 * No domain switches above the safe rate: safety over whole runs, under the few clock writes
 * the code depends on, and exactly when a removal keeps it.
 */
module ProtocolSafety {
  import opened Common
  import opened Slots
  import opened Protocol
  import opened ProtocolCore

  predicate LogSafe(log: seq<Switch>) {
    forall k :: 0 <= k < |log| ==> log[k].rate == SAFE_RATE
  }

  predicate Awake(s: St) {
    forall d :: 0 <= d < |s.dom| ==> s.dom[d].on
  }

  predicate AllLive(s: St) {
    forall c :: 0 <= c < |s.dev| ==> s.dev[c].Some?
  }

  /** Each armed block sits in the chain of the device that its own slot now holds. */
  predicate OwnChains(s: St) {
    forall i :: 0 <= i < |s.nb| && s.nb[i].armed ==>
      i < |s.dev| && s.nb[i].core == Some(i) && s.dev[i].Some? && s.nb[i].reg == s.dev[i]
  }

  /**
   * A fast clock has an owner and finds every slot live, every armed block in its own chain and
   * every domain on; no domain ever switched under one.
   */
  predicate ClockInv(s: St) {
    (s.clk != SAFE_RATE ==> s.owner.Some? && AllLive(s) && OwnChains(s) && Awake(s)) && LogSafe(s.log)
  }

  predicate Inv(s: St) {
    CoreInv(s) && ClockInv(s)
  }

  /** The rate writes the environment is trusted with. */
  predicate Trusted(s: St, x: Step)
    requires WF(s) && Enabled(s, x)
  {
    match x
    case SetTarget(freq, te) => freq == SAFE_RATE ==> te.got == SAFE_RATE
    case Remove(d, re) => RemoveMadeSafe(s, d, re)
    case ForeignWrite(rate) => rate == SAFE_RATE
    case _ => true
  }

  /** Some safe-rate write of the removal succeeded, or none was needed. */
  predicate RemoveMadeSafe(s: St, d: DevId, re: RemoveEnv)
    requires WF(s) && IsBound(s, d)
  {
    s.clk == SAFE_RATE || re.wr == 0
    || (s.owner == Some(Lookup(s.dev, d)) && s.dom[d].on && re.wr2 == 0)
  }

  // ---------- Switches ----------

  /** From a safe clock, switches and safe-rate writes leave it safe. */
  lemma WokenKeepsClock(s: St, s1: St)
    requires Inv(s) && Woken(s, s1) && s.clk == SAFE_RATE
    ensures ClockInv(s1) && s1.clk == SAFE_RATE
  {
    forall k | 0 <= k < |s1.log| ensures s1.log[k].rate == SAFE_RATE {
      if k < |s.log| {
        assert s1.log[k] == s.log[k];
      }
    }
  }

  lemma FlipKeepsClock(s: St, d: DevId, wr: Err, honour: bool)
    requires Inv(s) && d < |s.dom| && s.clk == SAFE_RATE
    ensures ClockInv(Flip(s, d, wr, honour).0) && Flip(s, d, wr, honour).0.clk == SAFE_RATE
  {
    FlipWakes(s, d, wr, honour);
    WokenKeepsClock(s, Flip(s, d, wr, honour).0);
  }

  /** Nothing is resumed under a fast clock, because nothing is off. */
  lemma PowerUpKeepsClock(s: St, d: DevId, e: PmEnv)
    requires Inv(s) && d < |s.dom|
    ensures ClockInv(PowerUp(s, d, e).0)
    ensures s.clk == SAFE_RATE ==> PowerUp(s, d, e).0.clk == SAFE_RATE
  {
    if s.clk == SAFE_RATE {
      PowerUpWakes(s, d, e);
      WokenKeepsClock(s, PowerUp(s, d, e).0);
    }
  }

  lemma SafeWriteKeepsInv(s: St)
    requires Inv(s)
    ensures Inv(s.(clk := SAFE_RATE))
  {
  }

  /** A domain goes off only after the suspend callback made the clock safe, or found it so. */
  lemma PowerDownKeepsClock(s: St, d: DevId, idle: bool, wr: Err, wr2: Err)
    requires Inv(s) && d < |s.dom|
    ensures ClockInv(PowerDown(s, d, idle, wr, wr2))
    ensures s.clk == SAFE_RATE ==> PowerDown(s, d, idle, wr, wr2).clk == SAFE_RATE
  {
    if SuspendCb(s, idle, wr).1 == 0 {
      SafeWriteKeepsInv(s);
      FlipKeepsClock(s.(clk := SAFE_RATE), d, wr2, true);
      assert SuspendCb(s, idle, wr).0 == s.(clk := SAFE_RATE);
    }
  }

  // ---------- target ----------

  lemma PowerUpStaysOn(s: St, d: DevId, e: PmEnv, x: DevId)
    requires WF(s) && d < |s.dom| && x < |s.dom| && s.dom[x].on
    ensures PowerUp(s, d, e).0.dom[x].on
  {
  }

  lemma {:induction false} WakeStaysOn(s: St, i: nat, e: seq<PmEnv>, x: DevId)
    requires WF(s) && |e| == |s.dev| && i <= |s.dev| && x < |s.dom| && s.dom[x].on
    ensures WakeFrom(s, i, e).0.dom[x].on
    decreases |s.dev| - i
  {
    if i < |s.dev| {
      if s.dev[i].None? {
        WakeStaysOn(s, i + 1, e, x);
      } else {
        PowerUpStaysOn(s, s.dev[i].value, e[i], x);
        var (s1, err) := PowerUp(s, s.dev[i].value, e[i]);
        if err == 0 {
          WakeStaysOn(s1, i + 1, e, x);
        }
      }
    }
  }

  /** A hold that succeeds has every live core awake at once. */
  lemma {:induction false} WakeWakesAll(s: St, i: nat, e: seq<PmEnv>)
    requires WF(s) && |e| == |s.dev| && i <= |s.dev| && WakeFrom(s, i, e).1 == 0
    ensures forall j :: i <= j < |s.dev| && s.dev[j].Some? ==> WakeFrom(s, i, e).0.dom[s.dev[j].value].on
    decreases |s.dev| - i
  {
    if i < |s.dev| {
      if s.dev[i].None? {
        WakeWakesAll(s, i + 1, e);
      } else {
        PowerUpWakes(s, s.dev[i].value, e[i]);
        var s1 := PowerUp(s, s.dev[i].value, e[i]).0;
        WakeWakesAll(s1, i + 1, e);
        WakeStaysOn(s1, i + 1, e, s.dev[i].value);
      }
    }
  }

  lemma CoveredWakes(s: St, e: seq<PmEnv>)
    requires WF(s) && Covered(s) && |e| == |s.dev| && WakeFrom(s, 0, e).1 == 0
    ensures Awake(WakeFrom(s, 0, e).0)
  {
    WakeWakesAll(s, 0, e);
    forall d | 0 <= d < |s.dom| ensures WakeFrom(s, 0, e).0.dom[d].on {
      CoveredBinds(s, d);
      assert s.dev[Lookup(s.dev, d)] == Some(d);
    }
  }

  lemma {:induction false} WakeSteady(s: St, i: nat, e: seq<PmEnv>)
    requires WF(s) && Awake(s) && |e| == |s.dev| && i <= |s.dev|
    ensures WakeFrom(s, i, e).0 == s
    decreases |s.dev| - i
  {
    if i < |s.dev| {
      WakeSteady(s, i + 1, e);
    }
  }

  lemma WakeKeepsClock(s: St, e: seq<PmEnv>)
    requires Inv(s) && |e| == |s.dev|
    ensures ClockInv(WakeFrom(s, 0, e).0)
    ensures s.clk == SAFE_RATE ==> WakeFrom(s, 0, e).0.clk == SAFE_RATE
  {
    if s.clk == SAFE_RATE {
      WakeFromWakes(s, 0, e);
      WokenKeepsClock(s, WakeFrom(s, 0, e).0);
    } else {
      WakeSteady(s, 0, e);
    }
  }

  lemma UsageKeepsClock(s: St, k: int)
    requires WF(s) && ClockInv(s)
    ensures ClockInv(AddUsage(s, 0, |s.dev|, k))
  {
  }

  lemma SettleKeepsClock(s: St)
    requires WF(s) && ClockInv(s)
    ensures ClockInv(Settle(s))
  {
    UsageKeepsClock(s, -1);
    UsageKeepsClock(s.(refsHeld := false), -1);
    UsageKeepsClock(ReleaseAll(s.(refsHeld := false)), -1);
  }

  lemma HoldKeepsClock(s: St, e: seq<PmEnv>)
    requires Inv(s) && |e| == |s.dev|
    ensures var (h, err) := HoldAll(s, e);
      ClockInv(h) && (s.clk == SAFE_RATE ==> h.clk == SAFE_RATE) && (Covered(s) && err == 0 ==> Awake(h))
  {
    WakeKeepsClock(s, e);
    WakeFromWakes(s, 0, e);
    UsageKeepsClock(WakeFrom(s, 0, e).0, 1);
    if Covered(s) && HoldAll(s, e).1 == 0 {
      CoveredWakes(s, e);
    }
  }

  lemma ChangeRateKeepsClock(s: St, freq: nat, e: TargetEnv)
    requires Inv(s) && s.owner.Some? && |e.pm| == |s.dev| && freq >= SAFE_RATE
    requires if freq == SAFE_RATE then e.got == SAFE_RATE else Covered(s)
    ensures ClockInv(ChangeRate(s, freq, e).st)
  {
    HoldKeepsClock(s, e.pm);
    HoldKeepsCore(s, e.pm);
    var (h, err) := HoldAll(s, e.pm);
    if err == 0 {
      SettleKeepsClock(if e.wr == 0 then h.(reqRate := freq, clk := e.got) else h);
    }
  }

  lemma TargetKeepsClock(s: St, freq: nat, e: TargetEnv)
    requires Inv(s) && |e.pm| == |s.dev| && freq >= SAFE_RATE
    requires freq == SAFE_RATE ==> e.got == SAFE_RATE
    ensures ClockInv(Target(s, freq, e).st)
  {
    if Target(s, freq, e).st != s {
      GuardedMeansCovered(s);
      ChangeRateKeepsClock(s, freq, e);
    }
  }

  // ---------- Probing and removing ----------

  lemma CoreUpKeepsClock(s: St, c: nat, e: InitEnv)
    requires WF(s) && c < |s.dev| && s.dev[c].Some? && |e.arm| == MAX_NB
    requires s.clk == SAFE_RATE && LogSafe(s.log)
    ensures CoreUp(s, c, e).clk == SAFE_RATE && LogSafe(CoreUp(s, c, e).log)
  {
    PowerUpWakes(s, s.dev[c].value, e.pm);
    var s1 := PowerUp(s, s.dev[c].value, e.pm).0;
    forall k | 0 <= k < |s1.log| ensures s1.log[k].rate == SAFE_RATE {
      if k < |s.log| {
        assert s1.log[k] == s.log[k];
      }
    }
  }

  lemma AllLiveBinds(s: St, d: DevId)
    requires WF(s) && AllLive(s) && d < |s.dom|
    ensures IsBound(s, d)
  {
    FullTable(s.dev);
    assert d in Below(|s.dev|);
  }

  /** While one device is unbound the clock is safe. */
  lemma UnboundMeansSafe(s: St, d: DevId)
    requires Inv(s) && d < |s.dom| && !IsBound(s, d)
    ensures s.clk == SAFE_RATE
  {
    if AllLive(s) {
      AllLiveBinds(s, d);
    }
  }

  lemma ProbeKeepsClock(s: St, d: DevId, e: ProbeEnv)
    requires Inv(s) && Enabled(s, Probe(d, e))
    ensures ClockInv(DoProbe(s, d, e)) && DoProbe(s, d, e).clk == SAFE_RATE
  {
    UnboundMeansSafe(s, d);
    FlipKeepsClock(s, d, e.attachWr, true);
    var (s1, veto) := Attach(s, d, e.attachWr);
    var c := FirstFree(s1.dev);
    if veto == 0 && c < |s1.dev| && e.coreErr == 0 {
      LookupOthers(s1.dev, c, Some(d));
      CoreUpKeepsClock(s1.(dev := s1.dev[c := Some(d)]), c, e.init);
    }
  }

  lemma FiniClock(s: St, c: nat, e: RemoveEnv)
    requires WF(s) && c < |s.dev| && s.dev[c].Some? && |e.rmAll| == MAX_NB && !s.refsHeld
    ensures Fini(s, c, e).clk
         == (if s.owner == Some(c) && s.dom[s.dev[c].value].on && e.wr2 == 0 then SAFE_RATE else s.clk)
  {
  }

  lemma DropBoostClock(s: St, wr: Err)
    requires WF(s) && (s.owner.None? ==> s.clk == SAFE_RATE && !s.refsHeld)
    ensures DropBoost(s, wr).clk == (if wr == 0 then SAFE_RATE else s.clk)
    ensures !DropBoost(s, wr).refsHeld
  {
  }

  lemma RemoveClock(s: St, d: DevId, e: RemoveEnv)
    requires WF(s) && Enabled(s, Remove(d, e)) && (s.owner.None? ==> s.clk == SAFE_RATE && !s.refsHeld)
    ensures DoRemove(s, d, e).clk == (if RemoveMadeSafe(s, d, e) then SAFE_RATE else s.clk)
  {
    var c := Lookup(s.dev, d);
    var s1 := DropBoost(s, e.wr);
    DropBoostClock(s, e.wr);
    var b := DropBlock(s1, c, e.rm);
    assert b.owner == s.owner && b.dom[d].on == s.dom[d].on && b.dev == s.dev;
    FiniClock(b, c, e);
  }

  lemma CalmKeepsClock(s: St, t: St)
    requires Inv(s) && Calm(t) && t.log == s.log && !AllLive(t)
    ensures Inv(t) <==> t.clk == SAFE_RATE
  {
  }

  /** A removal keeps the invariant exactly when one of its safe-rate writes succeeds or none is needed. */
  lemma RemoveExact(s: St, d: DevId, e: RemoveEnv)
    requires Inv(s) && Enabled(s, Remove(d, e))
    ensures Inv(DoRemove(s, d, e)) <==> RemoveMadeSafe(s, d, e)
  {
    RemoveCalms(s, d, e);
    RemoveClock(s, d, e);
    assert DoRemove(s, d, e).dev[Lookup(s.dev, d)].None?;
    CalmKeepsClock(s, DoRemove(s, d, e));
  }

  // ---------- The removed core's domain ----------

  predicate OnlyDisarms(before: seq<Nb>, after: seq<Nb>) {
    |after| == |before| && forall i :: 0 <= i < |after| && after[i].armed ==> after[i] == before[i]
  }

  /** Whatever is disarmed in it, a removal leaves no block that acts on the removed device. */
  lemma RemovedUnseen(s: St, c: nat, t: St, d: DevId)
    requires WF(s) && WF(t) && OwnChains(s) && c < |s.dev| && s.dev[c] == Some(d)
    requires t.dev == s.dev[c := None] && OnlyDisarms(s.nb, t.nb)
    ensures !IsBound(t, d) && !Hooked(t, d)
  {
    LookupOthers(s.dev, c, None);
    forall i | 0 <= i < MAX_NB ensures !ActsOn(t, i, d) {
    }
  }

  lemma DropBlockDisarms(s: St, c: nat, rm: Err)
    requires WF(s)
    ensures OnlyDisarms(s.nb, DropBlock(s, c, rm).nb)
  {
  }

  lemma FiniDisarms(s: St, c: nat, e: RemoveEnv)
    requires WF(s) && c < |s.dev| && s.dev[c].Some? && |e.rmAll| == MAX_NB
    ensures OnlyDisarms(s.nb, Fini(s, c, e).nb)
  {
  }

  lemma RestDisarms(s: St, c: nat, e: RemoveEnv)
    requires WF(s) && c < |s.dev| && s.dev[c].Some? && |e.rmAll| == MAX_NB
    ensures OnlyDisarms(s.nb, RemoveRest(s, c, e).nb)
  {
    DropBlockDisarms(s, c, e.rm);
    FiniDisarms(DropBlock(s, c, e.rm), c, e);
  }

  /** d's domain, on until now, goes off at the rate `fast`, and no notifier sees it. */
  predicate GoesOffUnseen(t: St, d: DevId, wr: Err, fast: nat) {
    && WF(t) && Enabled(t, UnboundSwitch(d, wr)) && t.dom[d].on && fast != SAFE_RATE
    && Next(t, UnboundSwitch(d, wr)).log == t.log + [Switch(d, fast, false)]
  }

  /** d's domain, once its device is unbound, switches at the safe rate. */
  predicate SwitchesSafely(t: St, d: DevId, wr: Err) {
    && WF(t) && Enabled(t, UnboundSwitch(d, wr))
    && LogSafe(Next(t, UnboundSwitch(d, wr)).log)
  }

  lemma SafeClockSwitches(t: St, d: DevId, wr: Err)
    requires WF(t) && Enabled(t, UnboundSwitch(d, wr)) && LogSafe(t.log) && t.clk == SAFE_RATE
    ensures SwitchesSafely(t, d, wr)
  {
  }

  lemma FastClockSwitches(t: St, d: DevId, wr: Err)
    requires WF(t) && Enabled(t, UnboundSwitch(d, wr)) && t.clk != SAFE_RATE && t.dom[d].on && !Hooked(t, d)
    ensures GoesOffUnseen(t, d, wr, t.clk) && !SwitchesSafely(t, d, wr)
  {
    assert Next(t, UnboundSwitch(d, wr)).log[|t.log|].rate == t.clk;
  }

  /** After a second section the removed core's domain switches safely exactly when the clock is safe. */
  lemma RestSwitches(s: St, c: nat, e: RemoveEnv, d: DevId, wr: Err)
    requires WF(s) && ClockInv(s) && c < |s.dev| && s.dev[c] == Some(d) && |e.rmAll| == MAX_NB
    requires WF(RemoveRest(s, c, e))
    requires RemoveRest(s, c, e).clk == SAFE_RATE || RemoveRest(s, c, e).clk == s.clk
    ensures var t := RemoveRest(s, c, e);
      if t.clk == SAFE_RATE then SwitchesSafely(t, d, wr)
      else GoesOffUnseen(t, d, wr, s.clk) && !SwitchesSafely(t, d, wr)
  {
    var t := RemoveRest(s, c, e);
    LookupOthers(s.dev, c, None);
    if t.clk == SAFE_RATE {
      SafeClockSwitches(t, d, wr);
    } else {
      RestDisarms(s, c, e);
      RemovedUnseen(s, c, t, d);
      FastClockSwitches(t, d, wr);
    }
  }

  lemma DropKeepsClock(s: St, wr: Err)
    requires WF(s) && ClockInv(s)
    ensures ClockInv(DropBoost(s, wr)) && WF(DropBoost(s, wr))
  {
  }

  /**
   * The promise itself: the removed core's domain switches safely exactly when one of the
   * removal's safe-rate writes succeeds or none is needed. Otherwise it goes off at the fast
   * rate, and no notifier sees it.
   */
  lemma RemoveSwitchExact(s: St, d: DevId, e: RemoveEnv, wr: Err)
    requires Inv(s) && Enabled(s, Remove(d, e))
    ensures SwitchesSafely(DoRemove(s, d, e), d, wr) <==> RemoveMadeSafe(s, d, e)
    ensures !RemoveMadeSafe(s, d, e) ==> GoesOffUnseen(DoRemove(s, d, e), d, wr, s.clk)
  {
    RemoveCalms(s, d, e);
    RemoveClock(s, d, e);
    DropBoostClock(s, e.wr);
    DropKeepsClock(s, e.wr);
    RestSwitches(DropBoost(s, e.wr), Lookup(s.dev, d), e, d, wr);
  }

  // ---------- Whole runs ----------

  /** Forced resumes need no trust: a domain that is off finds a safe clock. */
  lemma OffMeansSafe(s: St, d: DevId)
    requires Inv(s) && d < |s.dom| && !s.dom[d].on
    ensures s.clk == SAFE_RATE
  {
  }

  lemma StartKeepsClock(s: St, d: DevId, pm: PmEnv, attachErr: Err)
    requires Inv(s) && d < |s.dom|
    ensures ClockInv(StartJob(s, d, pm, attachErr))
    ensures s.clk == SAFE_RATE ==> StartJob(s, d, pm, attachErr).clk == SAFE_RATE
  {
    PowerUpKeepsClock(s, d, pm);
  }

  lemma StepKeepsClock(s: St, x: Step)
    requires Inv(s) && Enabled(s, x) && Trusted(s, x)
    ensures ClockInv(Next(s, x))
  {
    match x
    case Probe(d, pe) => ProbeKeepsClock(s, d, pe);
    case Remove(d, re) => RemoveExact(s, d, re);
    case SetTarget(freq, te) => TargetKeepsClock(s, freq, te);
    case RuntimeOff(d, idle, wr, wr2) => PowerDownKeepsClock(s, d, idle, wr, wr2);
    case ForcedOff(d, idle, wr, wr2) => PowerDownKeepsClock(s, d, idle, wr, wr2);
    case ForcedOn(d, wr) => OffMeansSafe(s, d); FlipKeepsClock(s, d, wr, false);
    case UnboundSwitch(d, wr) => UnboundMeansSafe(s, d); FlipKeepsClock(s, d, wr, true);
    case JobStart(d, pm, attachErr) => StartKeepsClock(s, d, pm, attachErr);
    case JobEnd(_) =>
    case Reboot(_, _) => SafeWriteKeepsInv(s);
    case ForeignWrite(_) => SafeWriteKeepsInv(s);
  }

  lemma BootInv(on: seq<bool>)
    ensures Inv(Boot(on))
  {
    BootCore(on);
  }

  predicate TrustedRun(s: St, xs: seq<Step>)
    decreases |xs|
  {
    |xs| == 0 || (WF(s) && Enabled(s, xs[0]) && Trusted(s, xs[0]) && TrustedRun(Next(s, xs[0]), xs[1..]))
  }

  lemma {:induction false} RunKeepsInv(s: St, xs: seq<Step>, t: St)
    requires Inv(s) && Run(s, xs, t) && TrustedRun(s, xs)
    ensures Inv(t)
    decreases |xs|
  {
    if |xs| > 0 {
      StepKeepsCore(s, xs[0]);
      StepKeepsClock(s, xs[0]);
      RunKeepsInv(Next(s, xs[0]), xs[1..], t);
    }
  }

  // ---------- A fast clock is on the books ----------

  predicate OnBooks(s: St) {
    s.clk != SAFE_RATE ==> s.reqRate > SAFE_RATE
  }

  lemma TargetOnBooks(s: St, freq: nat, e: TargetEnv)
    requires Inv(s) && OnBooks(s) && |e.pm| == |s.dev|
    requires freq >= SAFE_RATE && (freq == SAFE_RATE ==> e.got == SAFE_RATE)
    ensures OnBooks(Target(s, freq, e).st)
  {
    ChangeRateOnBooks(s, freq, e);
  }

  lemma ChangeRateOnBooks(s: St, freq: nat, e: TargetEnv)
    requires Inv(s) && OnBooks(s) && |e.pm| == |s.dev|
    requires freq >= SAFE_RATE && (freq == SAFE_RATE ==> e.got == SAFE_RATE)
    ensures OnBooks(ChangeRate(s, freq, e).st)
  {
    HoldOnBooks(s, e.pm);
    WakeFromWakes(s, 0, e.pm);
  }

  /** A hold under a fast clock changes counts only. */
  lemma HoldOnBooks(s: St, e: seq<PmEnv>)
    requires Inv(s) && OnBooks(s) && |e| == |s.dev|
    ensures OnBooks(HoldAll(s, e).0)
  {
    WakeKeepsClock(s, e);
    if s.clk != SAFE_RATE {
      WakeSteady(s, 0, e);
    }
  }

  /** No trusted step takes the boost off the books and leaves the clock fast. */
  lemma StepOnBooks(s: St, x: Step)
    requires Inv(s) && OnBooks(s) && Enabled(s, x) && Trusted(s, x)
    ensures OnBooks(Next(s, x))
  {
    match x
    case Probe(d, pe) => ProbeKeepsClock(s, d, pe);
    case Remove(d, re) => RemoveClock(s, d, re);
    case SetTarget(freq, te) => TargetOnBooks(s, freq, te);
    case RuntimeOff(d, idle, wr, wr2) => PowerDownOnBooks(s, d, idle, wr, wr2);
    case ForcedOff(d, idle, wr, wr2) => PowerDownOnBooks(s, d, idle, wr, wr2);
    case ForcedOn(d, wr) => OffMeansSafe(s, d); FlipKeepsClock(s, d, wr, false);
    case UnboundSwitch(d, wr) => UnboundMeansSafe(s, d); FlipKeepsClock(s, d, wr, true);
    case JobStart(d, pm, attachErr) => StartKeepsClock(s, d, pm, attachErr);
    case JobEnd(_) =>
    case Reboot(_, _) =>
    case ForeignWrite(_) =>
  }

  lemma PowerDownOnBooks(s: St, d: DevId, idle: bool, wr: Err, wr2: Err)
    requires Inv(s) && OnBooks(s) && d < |s.dom|
    ensures OnBooks(PowerDown(s, d, idle, wr, wr2))
  {
    if SuspendCb(s, idle, wr).1 == 0 {
      SafeWriteKeepsInv(s);
      FlipKeepsClock(s.(clk := SAFE_RATE), d, wr2, true);
      assert SuspendCb(s, idle, wr).0 == s.(clk := SAFE_RATE);
    }
  }

  lemma {:induction false} RunOnBooks(s: St, xs: seq<Step>, t: St)
    requires Inv(s) && OnBooks(s) && Run(s, xs, t) && TrustedRun(s, xs)
    ensures OnBooks(t)
    decreases |xs|
  {
    if |xs| > 0 {
      StepKeepsCore(s, xs[0]);
      StepKeepsClock(s, xs[0]);
      StepOnBooks(s, xs[0]);
      RunOnBooks(Next(s, xs[0]), xs[1..], t);
    }
  }

  /** What a fast clock implies: it is on the books, and every core is guarded, on and held awake. */
  predicate FastIsHeld(s: St) {
    s.clk != SAFE_RATE ==>
      && s.reqRate > SAFE_RATE && s.owner.Some? && !s.unsafe && |s.dev| <= |s.nb|
      && (forall c :: 0 <= c < |s.dev| ==> s.dev[c].Some? && s.nb[c].armed && s.nb[c].reg == s.dev[c])
      && (forall d :: 0 <= d < |s.dom| ==> s.dom[d].on && s.dom[d].usage > 0)
  }

  lemma FastMeansHeld(s: St)
    requires Inv(s) && OnBooks(s)
    ensures FastIsHeld(s)
  {
    if s.clk != SAFE_RATE {
      forall d | 0 <= d < |s.dom| ensures s.dom[d].usage > 0 {
        CoveredBinds(s, d);
      }
      forall c | 0 <= c < |s.dev| ensures s.nb[c].reg == s.dev[c] {
        assert s.nb[c].armed;
      }
    }
  }

  lemma NoForcedOn(s: St)
    requires WF(s) && Awake(s)
    ensures forall d, wr :: !Enabled(s, ForcedOn(d, wr))
  {
  }

  /**
   * Over every run: each domain of the board has only ever switched at the safe rate, the clock
   * is fast only under a boost that guards and holds every core, and a forced resume, whatever
   * its own write does, finds it safe.
   */
  lemma NoSwitchAboveSafe(on: seq<bool>, xs: seq<Step>, t: St)
    requires Run(Boot(on), xs, t) && TrustedRun(Boot(on), xs)
    ensures WF(t) && FastIsHeld(t)
    ensures forall k :: 0 <= k < |t.log| ==> t.log[k].rate == 200_000_000
    ensures t.clk != 200_000_000 ==> forall d, wr :: !Enabled(t, ForcedOn(d, wr))
  {
    BootInv(on);
    RunKeepsInv(Boot(on), xs, t);
    RunOnBooks(Boot(on), xs, t);
    FastMeansHeld(t);
    if t.clk != SAFE_RATE {
      NoForcedOn(t);
    }
  }
}
