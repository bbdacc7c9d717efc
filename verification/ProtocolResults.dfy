/**
 * Consequences of the protocol invariant, and the runs in which the code does not meet its
 * promise, each with the exact condition under which it does.
 */
module ProtocolResults {
  import opened Common
  import opened Slots
  import opened Protocol
  import opened ProtocolCore
  import opened ProtocolSafety

  // ---------- Guarded switches, whatever else goes wrong ----------

  predicate GuardedLog(log: seq<Switch>) {
    forall k :: 0 <= k < |log| && log[k].hooked ==> log[k].rate == SAFE_RATE
  }

  /** t only adds to the log of s, and a notifier saw every new switch at the safe rate, if it saw it. */
  predicate AddsGuarded(s: St, t: St) {
    s.log <= t.log && forall k :: |s.log| <= k < |t.log| && t.log[k].hooked ==> t.log[k].rate == SAFE_RATE
  }

  /** The noirq resume path ignores a veto, so a needed write of an acting notifier must succeed. */
  predicate VetoObeyed(s: St, x: Step)
    requires WF(s)
  {
    x.ForcedOn? ==> s.clk == SAFE_RATE || x.wr == 0 || !Hooked(s, x.d)
  }

  lemma InitGuards(s: St, c: nat, e: InitEnv)
    requires WF(s) && c < |s.dev| && s.dev[c].Some? && |e.arm| == MAX_NB
    ensures WF(Init(s, c, e)) && AddsGuarded(s, Init(s, c, e))
  {
    PowerUpWakes(s, s.dev[c].value, e.pm);
  }

  lemma CoreUpGuards(s: St, c: nat, e: InitEnv)
    requires WF(s) && c < |s.dev| && s.dev[c].Some? && |e.arm| == MAX_NB
    ensures WF(CoreUp(s, c, e)) && AddsGuarded(s, CoreUp(s, c, e))
  {
    if c == 0 {
      InitGuards(s, c, e);
    }
  }

  lemma GuardsTrans(s: St, t: St, u: St)
    requires AddsGuarded(s, t) && AddsGuarded(t, u)
    ensures AddsGuarded(s, u)
  {
    forall k | |s.log| <= k < |u.log| && u.log[k].hooked ensures u.log[k].rate == SAFE_RATE {
      if k < |t.log| {
        assert u.log[k] == t.log[k];
      }
    }
  }

  lemma ProbeGuards(s: St, d: DevId, e: ProbeEnv)
    requires WF(s) && Enabled(s, Probe(d, e))
    ensures WF(DoProbe(s, d, e)) && AddsGuarded(s, DoProbe(s, d, e))
  {
    FlipWakes(s, d, e.attachWr, true);
    var s1 := Attach(s, d, e.attachWr).0;
    var c := FirstFree(s1.dev);
    if c < |s1.dev| {
      LookupOthers(s1.dev, c, Some(d));
      var s2 := s1.(dev := s1.dev[c := Some(d)]);
      CoreUpGuards(s2, c, e.init);
      GuardsTrans(s, s2, CoreUp(s2, c, e.init));
    }
  }

  lemma RestKeepsWF(s: St, c: nat, e: RemoveEnv)
    requires WF(s) && c < |s.dev| && s.dev[c].Some? && |e.rmAll| == MAX_NB
    ensures WF(RemoveRest(s, c, e))
  {
    LookupOthers(s.dev, c, None);
    DropBlockKeepsWF(s, c, e.rm);
    FiniKeepsWF(DropBlock(s, c, e.rm), c, e);
  }

  lemma DropBlockKeepsWF(s: St, c: nat, rm: Err)
    requires WF(s)
    ensures WF(DropBlock(s, c, rm))
  {
  }

  lemma FiniKeepsWF(s: St, c: nat, e: RemoveEnv)
    requires WF(s) && c < |s.dev| && s.dev[c].Some? && |e.rmAll| == MAX_NB
    ensures WF(Fini(s, c, e))
  {
  }

  lemma RemoveGuards(s: St, d: DevId, e: RemoveEnv)
    requires WF(s) && Enabled(s, Remove(d, e))
    ensures WF(DoRemove(s, d, e)) && AddsGuarded(s, DoRemove(s, d, e))
  {
    RestKeepsWF(DropBoost(s, e.wr), Lookup(s.dev, d), e);
  }

  lemma TargetGuards(s: St, freq: nat, e: TargetEnv)
    requires WF(s) && |e.pm| == |s.dev|
    ensures WF(Target(s, freq, e).st) && AddsGuarded(s, Target(s, freq, e).st)
  {
    WakeFromWakes(s, 0, e.pm);
  }

  /** The one step that a notifier sees above the safe rate is a noirq resume whose veto is dropped. */
  lemma IgnoredVetoLogged(s: St, d: DevId, wr: Err)
    requires WF(s) && Enabled(s, ForcedOn(d, wr)) && !VetoObeyed(s, ForcedOn(d, wr))
    ensures WF(Next(s, ForcedOn(d, wr))) && Next(s, ForcedOn(d, wr)).log == s.log + [Switch(d, s.clk, true)]
  {
    FlipSwitches(s, d, wr, false);
    HookedSame(s, NotifyAct(s, wr).0, d);
  }

  lemma StepGuards(s: St, x: Step)
    requires WF(s) && Enabled(s, x) && VetoObeyed(s, x)
    ensures WF(Next(s, x)) && AddsGuarded(s, Next(s, x))
  {
    match x
    case Probe(d, pe) => ProbeGuards(s, d, pe);
    case Remove(d, re) => RemoveGuards(s, d, re);
    case SetTarget(freq, te) => TargetGuards(s, freq, te);
    case RuntimeOff(d, idle, wr, wr2) => PowerDownWakes(s, d, idle, wr, wr2);
    case ForcedOff(d, idle, wr, wr2) => PowerDownWakes(s, d, idle, wr, wr2);
    case ForcedOn(d, wr) => FlipWakes(s, d, wr, false);
    case UnboundSwitch(d, wr) => FlipWakes(s, d, wr, true);
    case JobStart(d, pm, _) => PowerUpWakes(s, d, pm);
    case JobEnd(_) =>
    case Reboot(_, _) =>
    case ForeignWrite(_) =>
  }

  predicate VetoesObeyed(s: St, xs: seq<Step>)
    decreases |xs|
  {
    |xs| == 0 || (WF(s) && Enabled(s, xs[0]) && VetoObeyed(s, xs[0]) && VetoesObeyed(Next(s, xs[0]), xs[1..]))
  }

  /** One step keeps the guarded switches safe exactly when it obeys its veto. */
  lemma StepGuardsExact(s: St, x: Step)
    requires WF(s) && Enabled(s, x)
    ensures WF(Next(s, x)) && s.log <= Next(s, x).log
    ensures GuardedLog(Next(s, x).log) <==> GuardedLog(s.log) && VetoObeyed(s, x)
  {
    var t := Next(s, x);
    if VetoObeyed(s, x) {
      StepGuards(s, x);
      GuardsMeet(s, t);
    } else {
      IgnoredVetoLogged(s, x.d, x.wr);
      assert t.log[|s.log|] == Switch(x.d, s.clk, true);
    }
  }

  lemma GuardsMeet(s: St, t: St)
    requires AddsGuarded(s, t)
    ensures GuardedLog(t.log) <==> GuardedLog(s.log)
  {
    assert forall k :: 0 <= k < |s.log| ==> t.log[k] == s.log[k];
  }

  lemma PrefixGuarded(a: seq<Switch>, b: seq<Switch>)
    requires a <= b && GuardedLog(b)
    ensures GuardedLog(a)
  {
    assert forall k :: 0 <= k < |a| ==> a[k] == b[k];
  }

  /**
   * In any run at all, failed removals and inexact or foreign clock writes included: every
   * switch that a notifier of a live owner saw happened at the safe rate, exactly when no
   * needed veto was ignored.
   */
  lemma {:induction false} GuardedSwitchesExact(s: St, xs: seq<Step>, t: St)
    requires WF(s) && Run(s, xs, t)
    ensures WF(t) && s.log <= t.log
    ensures GuardedLog(t.log) <==> GuardedLog(s.log) && VetoesObeyed(s, xs)
    decreases |xs|
  {
    if |xs| > 0 {
      StepGuardsExact(s, xs[0]);
      GuardedSwitchesExact(Next(s, xs[0]), xs[1..], t);
      if GuardedLog(t.log) {
        PrefixGuarded(s.log, t.log);
      }
    }
  }

  // ---------- Runtime-PM references ----------

  predicate SameJobs(s: St, t: St) {
    |t.dom| == |s.dom| && forall d :: 0 <= d < |s.dom| ==>
      t.dom[d].inFlight == s.dom[d].inFlight && t.dom[d].leaked == s.dom[d].leaked
  }

  lemma ProbeSparesJobs(s: St, d: DevId, e: ProbeEnv)
    requires WF(s) && Enabled(s, Probe(d, e))
    ensures SameJobs(s, DoProbe(s, d, e))
  {
    FlipWakes(s, d, e.attachWr, true);
    var s1 := Attach(s, d, e.attachWr).0;
    var c := FirstFree(s1.dev);
    if c < |s1.dev| {
      LookupOthers(s1.dev, c, Some(d));
      CoreUpSparesJobs(s1.(dev := s1.dev[c := Some(d)]), c, e.init);
    }
  }

  lemma TargetSparesJobs(s: St, freq: nat, e: TargetEnv)
    requires WF(s) && |e.pm| == |s.dev|
    ensures SameJobs(s, Target(s, freq, e).st)
  {
    WakeFromWakes(s, 0, e.pm);
    assert SameJobs(s, HoldAll(s, e.pm).0);
    assert SameJobs(s, ChangeRate(s, freq, e).st);
  }

  lemma CoreUpSparesJobs(s: St, c: nat, e: InitEnv)
    requires WF(s) && c < |s.dev| && s.dev[c].Some? && |e.arm| == MAX_NB
    ensures SameJobs(s, CoreUp(s, c, e))
  {
    PowerUpWakes(s, s.dev[c].value, e.pm);
  }

  /** No clock or power step touches the job side's books. */
  lemma OnlyJobsTouchJobs(s: St, x: Step)
    requires WF(s) && Enabled(s, x) && !x.JobStart? && !x.JobEnd?
    ensures SameJobs(s, Next(s, x))
  {
    match x
    case Probe(d, pe) => ProbeSparesJobs(s, d, pe);
    case Remove(d, re) =>
    case SetTarget(freq, te) => TargetSparesJobs(s, freq, te);
    case RuntimeOff(d, idle, wr, wr2) => PowerDownWakes(s, d, idle, wr, wr2);
    case ForcedOff(d, idle, wr, wr2) => PowerDownWakes(s, d, idle, wr, wr2);
    case ForcedOn(d, wr) =>
    case UnboundSwitch(d, wr) =>
    case Reboot(_, _) =>
    case ForeignWrite(_) =>
  }

  /** A job start that resumes its core and attaches its address space. */
  predicate CleanStart(s: St, x: Step)
    requires WF(s) && Enabled(s, x)
  {
    x.JobStart? ==> PowerUp(s, x.d, x.pm).1 == 0 && x.attachErr == 0
  }

  predicate NoLeaks(s: St) {
    forall d :: 0 <= d < |s.dom| ==> s.dom[d].leaked == 0
  }

  lemma StepLeaks(s: St, x: Step)
    requires WF(s) && Enabled(s, x) && NoLeaks(s)
    ensures NoLeaks(Next(s, x)) <==> CleanStart(s, x)
  {
    if x.JobStart? {
      PowerUpWakes(s, x.d, x.pm);
      assert Next(s, x).dom[x.d].leaked == if CleanStart(s, x) then 0 else 1;
    } else if !x.JobEnd? {
      OnlyJobsTouchJobs(s, x);
    }
  }

  predicate CleanRun(s: St, xs: seq<Step>)
    decreases |xs|
  {
    |xs| == 0 || (WF(s) && Enabled(s, xs[0]) && CleanStart(s, xs[0]) && CleanRun(Next(s, xs[0]), xs[1..]))
  }

  lemma {:induction false} RunLeaks(s: St, xs: seq<Step>, t: St)
    requires CoreInv(s) && NoLeaks(s) && Run(s, xs, t) && CleanRun(s, xs)
    ensures CoreInv(t) && NoLeaks(t)
    decreases |xs|
  {
    if |xs| > 0 {
      StepKeepsCore(s, xs[0]);
      StepLeaks(s, xs[0]);
      RunLeaks(Next(s, xs[0]), xs[1..], t);
    }
  }

  /**
   * Conservation, whatever clock writes fail: a live core is kept awake by the boost and by
   * its job, and by nothing else.
   */
  lemma PmConserved(on: seq<bool>, xs: seq<Step>, t: St)
    requires Run(Boot(on), xs, t) && CleanRun(Boot(on), xs)
    ensures WF(t) && |t.dom| == |t.dev|
    ensures forall d :: 0 <= d < |t.dom| && IsBound(t, d) ==>
      t.dom[d].usage == (if t.refsHeld then 1 else 0) + (if t.dom[d].inFlight then 1 else 0)
    ensures forall d :: 0 <= d < |t.dom| && !IsBound(t, d) ==> t.dom[d].usage == 0
  {
    BootCore(on);
    RunLeaks(Boot(on), xs, t);
  }

  // ---------- A boost implies full cover ----------

  /**
   * While boosted every core of the board is bound, live and guarded, so none can be probed;
   * this takes no trust in any clock write.
   */
  lemma BoostMeansCover(on: seq<bool>, xs: seq<Step>, t: St)
    requires Run(Boot(on), xs, t)
    ensures WF(t) && |t.dev| == |on|
    ensures t.reqRate > SAFE_RATE ==> t.refsHeld
    ensures t.refsHeld ==>
      && !t.unsafe && t.owner == Some(0) && |on| <= 4
      && (forall c :: 0 <= c < |on| ==> t.dev[c].Some? && t.nb[c].armed && t.nb[c].reg == t.dev[c])
      && (forall d: nat, pe :: d < |on| ==> !Enabled(t, Probe(d, pe)))
    ensures |on| > 4 ==> t.reqRate <= SAFE_RATE && !t.refsHeld
  {
    BootCore(on);
    RunKeepsCore(Boot(on), xs, t);
    if Covered(t) {
      forall d: nat | d < |on| ensures IsBound(t, d) {
        CoveredBinds(t, d);
      }
    }
  }

  /** The boost latch closes for good, and with it the clock stays at the safe rate. */
  lemma {:induction false} UnsafeLatch(s: St, xs: seq<Step>, t: St)
    requires Inv(s) && OnBooks(s) && s.unsafe && Run(s, xs, t) && TrustedRun(s, xs)
    ensures t.unsafe && !t.refsHeld && t.reqRate <= SAFE_RATE && t.clk == SAFE_RATE
    decreases |xs|
  {
    if |xs| > 0 {
      StepLatches(s, xs[0]);
      StepKeepsCore(s, xs[0]);
      StepKeepsClock(s, xs[0]);
      StepOnBooks(s, xs[0]);
      UnsafeLatch(Next(s, xs[0]), xs[1..], t);
    }
  }

  lemma StepLatches(s: St, x: Step)
    requires WF(s) && Enabled(s, x) && s.unsafe
    ensures Next(s, x).unsafe
  {
    match x
    case Probe(d, pe) => ProbeLatches(s, d, pe);
    case Remove(d, re) =>
      var s1 := DropBlock(DropBoost(s, re.wr), Lookup(s.dev, d), re.rm);
      assert s1.unsafe;
    case SetTarget(_, _) =>
    case RuntimeOff(d, idle, wr, wr2) => PowerDownWakes(s, d, idle, wr, wr2);
    case ForcedOff(d, idle, wr, wr2) => PowerDownWakes(s, d, idle, wr, wr2);
    case ForcedOn(_, _) =>
    case UnboundSwitch(_, _) =>
    case JobStart(_, _, _) =>
    case JobEnd(_) =>
    case Reboot(_, _) =>
    case ForeignWrite(_) =>
  }

  lemma ProbeLatches(s: St, d: DevId, e: ProbeEnv)
    requires WF(s) && Enabled(s, Probe(d, e)) && s.unsafe
    ensures DoProbe(s, d, e).unsafe
  {
    var s1 := Attach(s, d, e.attachWr).0;
    var c := FirstFree(s1.dev);
    if c < |s1.dev| {
      LookupOthers(s1.dev, c, Some(d));
      var s2 := s1.(dev := s1.dev[c := Some(d)]);
      assert CoreUp(s2, c, e.init).unsafe;
    }
  }

  // ---------- The voltage gate ----------

  /**
   * Books and clock go up above 700 MHz only when the regulator read enough; a request that
   * it refuses changes nothing.
   */
  lemma VoltGate(s: St, freq: nat, e: TargetEnv)
    requires WF(s) && |e.pm| == |s.dev|
    ensures var t := Target(s, freq, e).st;
      && (t.reqRate > HIGH_RATE && t.reqRate != s.reqRate ==> t.reqRate == freq && s.reg && e.uv >= VOLT_FOR_HIGH)
      && (t.clk > HIGH_RATE && t.clk != s.clk && (freq <= HIGH_RATE ==> e.got <= HIGH_RATE) ==>
            s.reg && e.uv >= VOLT_FOR_HIGH)
    ensures s.owner.Some? && e.oppErr == 0 && freq > HIGH_RATE && !EarlyExit(s, freq) ==>
      (s.reg && e.uv >= VOLT_FOR_HIGH) || (Target(s, freq, e).ret < 0 && Target(s, freq, e).st == s)
  {
    WakeFromWakes(s, 0, e.pm);
  }

  // ---------- No false boost ----------

  /** A boost that is on the books is a boost in hardware. */
  predicate Honest(s: St) {
    s.reqRate > SAFE_RATE ==> s.clk == s.reqRate
  }

  /** Rate writes yield what they are asked for, and nobody writes the clock behind the books. */
  predicate Exact(x: Step) {
    && (x.SetTarget? && x.te.wr == 0 ==> x.te.got == x.freq)
    && !x.Reboot? && !x.ForeignWrite?
  }

  lemma FlipHonest(s: St, d: DevId, wr: Err, honour: bool)
    requires CoreInv(s) && Honest(s) && d < |s.dom|
    ensures Honest(Flip(s, d, wr, honour).0)
  {
  }

  lemma PowerUpHonest(s: St, d: DevId, e: PmEnv)
    requires CoreInv(s) && Honest(s) && d < |s.dom|
    ensures Honest(PowerUp(s, d, e).0)
  {
    FlipHonest(s, d, e.wr, true);
    FlipKeepsCore(s, d, e.wr, true);
    FlipHonest(Flip(s, d, e.wr, true).0, d, e.wr2, true);
  }

  lemma HookedDrops(s: St, d: DevId, wr: Err)
    requires WF(s) && d < |s.dom| && Hooked(s, d)
    ensures Flip(s, d, wr, true).0.reqRate == SAFE_RATE
  {
  }

  /** The lock-free suspend write needs the notifier to correct the books behind it. */
  lemma PowerDownHonest(s: St, d: DevId, idle: bool, wr: Err, wr2: Err)
    requires CoreInv(s) && Honest(s) && d < |s.dom|
    ensures Honest(PowerDown(s, d, idle, wr, wr2))
  {
    PowerDownWakes(s, d, idle, wr, wr2);
    var (s1, err) := SuspendCb(s, idle, wr);
    if s.reqRate > SAFE_RATE && err == 0 {
      CoveredHooks(s, d);
      HookedSame(s, s1, d);
      HookedDrops(s1, d, wr2);
    }
  }

  lemma {:induction false} WakeHonest(s: St, i: nat, e: seq<PmEnv>)
    requires CoreInv(s) && Honest(s) && |e| == |s.dev| && i <= |s.dev|
    ensures Honest(WakeFrom(s, i, e).0)
    decreases |s.dev| - i
  {
    if i < |s.dev| {
      if s.dev[i].None? {
        WakeHonest(s, i + 1, e);
      } else {
        PowerUpHonest(s, s.dev[i].value, e[i]);
        PowerUpKeepsCore(s, s.dev[i].value, e[i]);
        var (s1, err) := PowerUp(s, s.dev[i].value, e[i]);
        if err == 0 {
          WakeHonest(s1, i + 1, e);
        }
      }
    }
  }

  lemma TargetHonest(s: St, freq: nat, e: TargetEnv)
    requires CoreInv(s) && Honest(s) && |e.pm| == |s.dev| && (e.wr == 0 ==> e.got == freq)
    ensures Honest(Target(s, freq, e).st)
  {
    WakeHonest(s, 0, e.pm);
  }

  lemma ProbeHonest(s: St, d: DevId, e: ProbeEnv)
    requires CoreInv(s) && Honest(s) && Enabled(s, Probe(d, e))
    ensures Honest(DoProbe(s, d, e))
  {
    FlipHonest(s, d, e.attachWr, true);
    FlipKeepsCore(s, d, e.attachWr, true);
    var (s1, veto) := Attach(s, d, e.attachWr);
    if Covered(s1) {
      CoveredBinds(s1, d);
    }
    var c := FirstFree(s1.dev);
    if veto == 0 && c < |s1.dev| && e.coreErr == 0 {
      BindKeepsCore(s1, c, d);
      var s2 := s1.(dev := s1.dev[c := Some(d)]);
      if s2.owner.None? {
        PowerUpHonest(s2, d, e.init.pm);
      }
    }
  }

  lemma StepHonest(s: St, x: Step)
    requires CoreInv(s) && Honest(s) && Enabled(s, x) && Exact(x)
    ensures Honest(Next(s, x))
  {
    match x
    case Probe(d, pe) => ProbeHonest(s, d, pe);
    case Remove(d, re) => RemoveCalms(s, d, re);
    case SetTarget(freq, te) => TargetHonest(s, freq, te);
    case RuntimeOff(d, idle, wr, wr2) => PowerDownHonest(s, d, idle, wr, wr2);
    case ForcedOff(d, idle, wr, wr2) => PowerDownHonest(s, d, idle, wr, wr2);
    case ForcedOn(d, wr) => FlipHonest(s, d, wr, false);
    case UnboundSwitch(d, wr) => FlipHonest(s, d, wr, true);
    case JobStart(d, pm, _) => PowerUpHonest(s, d, pm);
    case JobEnd(_) =>
  }

  /** Over every run with exact rates, failed writes included, the books never claim a boost the hardware has lost. */
  lemma {:induction false} NoFalseBoost(s: St, xs: seq<Step>, t: St)
    requires CoreInv(s) && Honest(s) && Run(s, xs, t) && forall k :: 0 <= k < |xs| ==> Exact(xs[k])
    ensures t.reqRate > SAFE_RATE ==> t.clk == t.reqRate
    decreases |xs|
  {
    if |xs| > 0 {
      StepHonest(s, xs[0]);
      StepKeepsCore(s, xs[0]);
      NoFalseBoost(Next(s, xs[0]), xs[1..], t);
    }
  }

  // ---------- Registration ----------

  /** The devfreq device appears only when the clock was read, the core awake, at the safe rate. */
  lemma RegistersOnlySafe(s: St, c: nat, e: InitEnv)
    requires WF(s) && c < |s.dev| && s.dev[c].Some? && |e.arm| == MAX_NB && s.owner.None?
    ensures var t := Init(s, c, e); t.owner.Some? ==>
      && t.owner == Some(c) && t.clk == SAFE_RATE && t.reqRate == SAFE_RATE && !t.refsHeld && t.dom[s.dev[c].value].on
    ensures var t := Init(s, c, e); t.owner.Some? && !t.unsafe ==>
      forall i :: 0 <= i < |t.dev| && i < MAX_NB && t.dev[i].Some? ==> t.nb[i].armed
  {
    PowerUpWakes(s, s.dev[c].value, e.pm);
  }

  // ---------- Self-healing and quiescence ----------

  /** Requests for one rate, tick after tick, as the governor makes them. */
  function Ticks(s: St, freq: nat, es: seq<TargetEnv>): St
    requires WF(s) && forall k :: 0 <= k < |es| ==> |es[k].pm| == |s.dev|
    decreases |es|
  {
    if |es| == 0 then s
    else
      var t := Target(s, freq, es[0]).st;
      if WF(t) then Ticks(t, freq, es[1..]) else t
  }

  /** With clock and books at the requested rate a tick changes nothing at all. */
  lemma {:induction false} TicksQuiet(s: St, freq: nat, es: seq<TargetEnv>)
    requires WF(s) && forall k :: 0 <= k < |es| ==> |es[k].pm| == |s.dev|
    requires s.clk == freq && s.reqRate == freq && freq >= SAFE_RATE
    ensures Ticks(s, freq, es) == s
    ensures forall k :: 0 <= k < |es| && es[k].oppErr == 0 && s.owner.Some? ==>
      Target(s, freq, es[k]).ret == (if freq > SAFE_RATE && s.unsafe then EAGAIN else 0)
    decreases |es|
  {
    if |es| > 0 {
      assert Target(s, freq, es[0]).st == s;
      TicksQuiet(s, freq, es[1..]);
      forall k | 0 <= k < |es| ensures es[k] == if k == 0 then es[0] else es[1..][k - 1] {
      }
    }
  }
}
