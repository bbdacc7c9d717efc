/**
 * A removal in the two critical sections it really has. core_removed gives the boost up under
 * the lock; it disarms, and the rest of the removal runs, after the unlock. Anything may happen
 * in between.
 */
module RemovalWindow {
  import opened Common
  import opened Slots
  import opened Protocol
  import opened ProtocolCore
  import opened ProtocolSafety
  import opened ProtocolResults

  // ---------- The second section ----------

  /** fini gives the boost references back when it finds them held. */
  lemma FiniReleases(s: St, c: nat, e: RemoveEnv)
    requires WF(s) && NotifierInv(s) && s.refsHeld && PmBalance(s, 1)
    requires c < |s.dev| && s.dev[c].Some? && s.owner == Some(c) && |e.rmAll| == MAX_NB && Unguarded(s, c)
    ensures Calm(Fini(s, c, e)) && Unguarded(Fini(s, c, e), c) && Fini(s, c, e).owner.None?
    ensures Fini(s, c, e).clk == if e.wr2 == 0 then SAFE_RATE else s.clk
  {
    var q := s.(reqRate := SAFE_RATE, clk := if e.wr2 == 0 then SAFE_RATE else s.clk, refsHeld := false);
    ReleaseCalms(q);
    DisarmCalms(ReleaseAll(q).(owner := None), c, e.rmAll);
  }

  predicate CanFinish(s: St, c: nat, e: RemoveEnv) {
    CoreInv(s) && c < |s.dev| && s.dev[c].Some? && |e.rmAll| == MAX_NB && !s.dom[s.dev[c].value].inFlight
  }

  lemma HeldRest(s: St, c: nat, e: RemoveEnv)
    requires CanFinish(s, c, e) && s.owner == Some(c) && s.refsHeld
    ensures Calm(RemoveRest(s, c, e))
    ensures RemoveRest(s, c, e).clk == if e.wr2 == 0 then SAFE_RATE else s.clk
  {
    var b := DropBlock(s, c, e.rm);
    DropBlockUnguards(s, c, e.rm);
    assert PmBalance(b, 1) && b.dom == s.dom && b.dev == s.dev;
    FiniReleases(b, c, e);
    var f := Fini(b, c, e);
    assert f.dev == s.dev && !f.dom[s.dev[c].value].inFlight;
    UnbindCalms(f, c);
  }

  lemma CalmRest(s: St, c: nat, e: RemoveEnv)
    requires CanFinish(s, c, e) && !s.refsHeld
    ensures Calm(RemoveRest(s, c, e))
    ensures RemoveRest(s, c, e).clk
         == if s.owner == Some(c) && s.dom[s.dev[c].value].on && e.wr2 == 0 then SAFE_RATE else s.clk
  {
    DropBlockCalms(s, c, e.rm);
    FiniCalms(DropBlock(s, c, e.rm), c, e);
    FiniClock(DropBlock(s, c, e.rm), c, e);
    UnbindCalms(Fini(DropBlock(s, c, e.rm), c, e), c);
  }

  lemma OthersRest(s: St, c: nat, e: RemoveEnv)
    requires CanFinish(s, c, e)
    ensures !Covered(RemoveRest(s, c, e)) && !AllLive(RemoveRest(s, c, e))
    ensures s.owner != Some(c) ==> RemoveRest(s, c, e).refsHeld == s.refsHeld
  {
    assert RemoveRest(s, c, e).dev[c].None?;
  }

  /**
   * What the second section must find for the whole invariant to survive: a quiet state, or the
   * owner going and a clock that is or gets safe.
   */
  predicate RestMadeSafe(s: St, c: nat, e: RemoveEnv) {
    if s.owner == Some(c) then s.clk == SAFE_RATE || e.wr2 == 0 else s.clk == SAFE_RATE && !s.refsHeld
  }

  lemma RestExact(s: St, c: nat, e: RemoveEnv)
    requires Inv(s) && CanFinish(s, c, e)
    ensures Inv(RemoveRest(s, c, e)) <==> RestMadeSafe(s, c, e)
  {
    OthersRest(s, c, e);
    if !s.refsHeld {
      CalmRest(s, c, e);
      CalmKeepsClock(s, RemoveRest(s, c, e));
    } else if s.owner == Some(c) {
      HeldRest(s, c, e);
      CalmKeepsClock(s, RemoveRest(s, c, e));
    }
  }

  /** What keeps the removed core's domain safe, whatever becomes of the references. */
  predicate RestClockSafe(s: St, c: nat, e: RemoveEnv) {
    s.clk == SAFE_RATE || (s.owner == Some(c) && e.wr2 == 0)
  }

  lemma RestClock(s: St, c: nat, e: RemoveEnv)
    requires Inv(s) && CanFinish(s, c, e)
    ensures RemoveRest(s, c, e).clk == if RestClockSafe(s, c, e) then SAFE_RATE else s.clk
  {
    if !s.refsHeld {
      CalmRest(s, c, e);
    } else if s.owner == Some(c) {
      HeldRest(s, c, e);
    }
  }

  /**
   * After the second section the removed core's domain switches safely exactly when the section
   * found a safe clock, or was the owner's and its write worked. Otherwise it goes off unseen at
   * the rate the section found.
   */
  lemma RestSwitchExact(s: St, c: nat, e: RemoveEnv, wr: Err)
    requires Inv(s) && CanFinish(s, c, e)
    ensures var t, d := RemoveRest(s, c, e), s.dev[c].value;
      if RestClockSafe(s, c, e) then SwitchesSafely(t, d, wr)
      else GoesOffUnseen(t, d, wr, s.clk) && !SwitchesSafely(t, d, wr)
  {
    RestClock(s, c, e);
    RestKeepsWF(s, c, e);
    RestSwitches(s, c, e, s.dev[c].value, wr);
  }

  // ---------- One request in the window ----------

  /** The request raises the clock: no refusal, no failed hold, no failed write. */
  predicate Granted(s: St, freq: nat, te: TargetEnv)
    requires WF(s) && |te.pm| == |s.dev|
  {
    && te.oppErr == 0 && freq > SAFE_RATE && !EarlyExit(s, freq)
    && Covered(s)
    && (freq > HIGH_RATE ==> s.reg && te.uv >= VOLT_FOR_HIGH)
    && HoldAll(s, te.pm).1 == 0 && te.wr == 0
  }

  predicate Quiet(s: St) {
    s.clk == SAFE_RATE && !s.refsHeld
  }

  /** From a quiet state a boost follows from a granted request and from nothing else. */
  lemma RequestFromQuiet(s: St, freq: nat, te: TargetEnv)
    requires Inv(s) && Quiet(s) && Enabled(s, SetTarget(freq, te)) && Trusted(s, SetTarget(freq, te))
    ensures var t := Target(s, freq, te).st;
      && Inv(t) && t.dev == s.dev && t.owner == s.owner
      && if Granted(s, freq, te) then t.refsHeld && t.clk == te.got else Quiet(t)
  {
    TargetKeepsCore(s, freq, te);
    TargetKeepsClock(s, freq, te);
    GuardedMeansCovered(s);
    WakeFromWakes(s, 0, te.pm);
    WakeKeepsClock(s, te.pm);
  }

  /** The first section keeps the invariant whatever becomes of its write. */
  lemma FirstSection(s: St, d: DevId, wr: Err)
    requires Inv(s) && d < |s.dom| && IsBound(s, d)
    ensures var s1 := DropBoost(s, wr);
      && Inv(s1) && !s1.refsHeld && s1.dev == s.dev && s1.owner == s.owner
      && s1.clk == (if wr == 0 then SAFE_RATE else s.clk)
      && (s1.clk != SAFE_RATE ==> s1.unsafe && s1.reqRate == SAFE_RATE)
  {
    DropBoostCalms(s, wr);
    DropBoostClock(s, wr);
    CalmIsCore(DropBoost(s, wr));
    DropKeepsClock(s, wr);
  }

  lemma CalmIsCore(s: St)
    requires Calm(s)
    ensures CoreInv(s)
  {
  }

  /** Under a clock that the first section could not stop, only a request for 200 MHz does anything. */
  predicate Repairs(s: St, freq: nat, te: TargetEnv)
    requires WF(s) && |te.pm| == |s.dev|
  {
    te.oppErr == 0 && freq == SAFE_RATE && HoldAll(s, te.pm).1 == 0 && te.wr == 0
  }

  predicate Stuck(s: St) {
    Inv(s) && s.clk != SAFE_RATE && s.unsafe && s.reqRate == SAFE_RATE
  }

  lemma RequestWhenStuck(s: St, freq: nat, te: TargetEnv)
    requires Stuck(s) && Enabled(s, SetTarget(freq, te)) && Trusted(s, SetTarget(freq, te))
    ensures var t := Target(s, freq, te).st;
      && Inv(t) && !t.refsHeld && t.dev == s.dev && t.owner == s.owner
      && t.clk == if Repairs(s, freq, te) then SAFE_RATE else s.clk
  {
    TargetKeepsCore(s, freq, te);
    TargetKeepsClock(s, freq, te);
    WakeSteady(s, 0, te.pm);
  }

  /** The invariant and the references survive the window, on its inputs: what was written, what was asked, who goes. */
  predicate WindowHarmless(s: St, d: DevId, e: RemoveEnv, freq: nat, te: TargetEnv)
    requires WF(s) && IsBound(s, d)
    requires WF(DropBoost(s, e.wr)) && |te.pm| == |s.dev|
  {
    var s1 := DropBoost(s, e.wr);
    var ownerGoes := s.owner == Some(Lookup(s.dev, d));
    if s.clk == SAFE_RATE || e.wr == 0 then
      !Granted(s1, freq, te) || (ownerGoes && (te.got == SAFE_RATE || e.wr2 == 0))
    else
      Repairs(s1, freq, te) || (ownerGoes && e.wr2 == 0)
  }

  /**
   * A request between the two sections of a removal, whatever it asks and whatever fails in
   * either: the whole invariant, references included, survives exactly when the window is harmless.
   */
  lemma RequestWindowExact(s: St, d: DevId, e: RemoveEnv, freq: nat, te: TargetEnv)
    requires Inv(s) && Enabled(s, Remove(d, e))
    requires var s1 := DropBoost(s, e.wr);
      WF(s1) && Enabled(s1, SetTarget(freq, te)) && Trusted(s1, SetTarget(freq, te))
    ensures var c, s2 := Lookup(s.dev, d), Target(DropBoost(s, e.wr), freq, te).st;
      && WF(s2) && c >= 0 && s2.dev == s.dev
      && (Inv(RemoveRest(s2, c, e)) <==> WindowHarmless(s, d, e, freq, te))
  {
    var c := Lookup(s.dev, d);
    var s1 := DropBoost(s, e.wr);
    FirstSection(s, d, e.wr);
    TargetSparesJobs(s1, freq, te);
    if s1.clk == SAFE_RATE {
      RequestFromQuiet(s1, freq, te);
    } else {
      RequestWhenStuck(s1, freq, te);
    }
    RestExact(Target(s1, freq, te).st, c, e);
  }

  /** The removed core's domain stays safe, on the window's inputs. */
  predicate WindowClockSafe(s: St, d: DevId, e: RemoveEnv, freq: nat, te: TargetEnv)
    requires WF(s) && IsBound(s, d)
    requires WF(DropBoost(s, e.wr)) && |te.pm| == |s.dev|
  {
    var s1 := DropBoost(s, e.wr);
    var ownerGoes := s.owner == Some(Lookup(s.dev, d));
    if s.clk == SAFE_RATE || e.wr == 0 then
      !Granted(s1, freq, te) || te.got == SAFE_RATE || (ownerGoes && e.wr2 == 0)
    else
      Repairs(s1, freq, te) || (ownerGoes && e.wr2 == 0)
  }

  /**
   * The unsafe switch itself: with a request between the two sections, the removed core's
   * domain switches safely exactly when the window's inputs say so, and goes off unseen at the
   * fast rate otherwise.
   */
  lemma RequestWindowSwitchExact(s: St, d: DevId, e: RemoveEnv, freq: nat, te: TargetEnv, wr: Err)
    requires Inv(s) && Enabled(s, Remove(d, e))
    requires var s1 := DropBoost(s, e.wr);
      WF(s1) && Enabled(s1, SetTarget(freq, te)) && Trusted(s1, SetTarget(freq, te))
    ensures var c, s2 := Lookup(s.dev, d), Target(DropBoost(s, e.wr), freq, te).st;
      && WF(s2) && c >= 0 && s2.dev == s.dev
      && var t := RemoveRest(s2, c, e);
      && (SwitchesSafely(t, d, wr) <==> WindowClockSafe(s, d, e, freq, te))
      && (!WindowClockSafe(s, d, e, freq, te) ==> GoesOffUnseen(t, d, wr, s2.clk))
  {
    var s1 := DropBoost(s, e.wr);
    FirstSection(s, d, e.wr);
    TargetSparesJobs(s1, freq, te);
    if s1.clk == SAFE_RATE {
      RequestFromQuiet(s1, freq, te);
    } else {
      RequestWhenStuck(s1, freq, te);
    }
    RestSwitchExact(Target(s1, freq, te).st, Lookup(s.dev, d), e, wr);
  }

  // ---------- Any window ----------

  /** Any steps in the window: the clock that the second section finds decides, or the owner's write. */
  lemma WindowSwitchExact(s: St, d: DevId, e: RemoveEnv, xs: seq<Step>, t: St, wr: Err)
    requires Inv(s) && Enabled(s, Remove(d, e))
    requires Run(DropBoost(s, e.wr), xs, t) && TrustedRun(DropBoost(s, e.wr), xs)
    requires WF(t) && Enabled(t, Remove(d, e))
    ensures Lookup(t.dev, d) >= 0
    ensures var c := Lookup(t.dev, d); var u := RemoveRest(t, c, e);
      && (SwitchesSafely(u, d, wr) <==> RestClockSafe(t, c, e))
      && (!RestClockSafe(t, c, e) ==> GoesOffUnseen(u, d, wr, t.clk))
  {
    FirstSection(s, d, e.wr);
    RunKeepsInv(DropBoost(s, e.wr), xs, t);
    RestSwitchExact(t, Lookup(t.dev, d), e, wr);
  }

  /**
   * Any steps in the window, the other cores' probes and removals included: the whole invariant
   * survives exactly when the second section finds what it must. If the first section's write
   * worked or was not needed, that is one flag for all but the owner: no boost set held.
   */
  lemma WindowExact(s: St, d: DevId, e: RemoveEnv, xs: seq<Step>, t: St)
    requires Inv(s) && Enabled(s, Remove(d, e))
    requires Run(DropBoost(s, e.wr), xs, t) && TrustedRun(DropBoost(s, e.wr), xs)
    requires WF(t) && Enabled(t, Remove(d, e))
    ensures Lookup(t.dev, d) >= 0
    ensures Inv(RemoveRest(t, Lookup(t.dev, d), e)) <==> RestMadeSafe(t, Lookup(t.dev, d), e)
    ensures s.clk == SAFE_RATE || e.wr == 0 ==>
      (RestMadeSafe(t, Lookup(t.dev, d), e)
       <==> !t.refsHeld || (t.owner == Some(Lookup(t.dev, d)) && (t.clk == SAFE_RATE || e.wr2 == 0)))
  {
    FirstSection(s, d, e.wr);
    RunKeepsInv(DropBoost(s, e.wr), xs, t);
    if s.clk == SAFE_RATE || e.wr == 0 {
      RunOnBooks(DropBoost(s, e.wr), xs, t);
    }
    RestExact(t, Lookup(t.dev, d), e);
  }

  lemma QuietStep(s: St, x: Step)
    requires Inv(s) && Quiet(s) && Enabled(s, x) && Trusted(s, x)
    requires x.SetTarget? ==> !Granted(s, x.freq, x.te)
    ensures Quiet(Next(s, x))
  {
    match x
    case Probe(d, pe) =>
      ProbeKeepsClock(s, d, pe);
      ProbeTakesNoRefs(s, d, pe);
    case Remove(d, re) =>
      RemoveCalms(s, d, re);
      RemoveClock(s, d, re);
    case SetTarget(freq, te) => RequestFromQuiet(s, freq, te);
    case RuntimeOff(d, idle, wr, wr2) => PowerDownKeepsClock(s, d, idle, wr, wr2);
    case ForcedOff(d, idle, wr, wr2) => PowerDownKeepsClock(s, d, idle, wr, wr2);
    case ForcedOn(d, wr) => FlipKeepsClock(s, d, wr, false);
    case UnboundSwitch(d, wr) => FlipKeepsClock(s, d, wr, true);
    case JobStart(d, pm, attachErr) => StartKeepsClock(s, d, pm, attachErr);
    case JobEnd(_) =>
    case Reboot(_, _) =>
    case ForeignWrite(_) =>
  }

  lemma ProbeTakesNoRefs(s: St, d: DevId, e: ProbeEnv)
    requires WF(s) && Enabled(s, Probe(d, e)) && !s.refsHeld
    ensures !DoProbe(s, d, e).refsHeld
  {
    var s1 := Attach(s, d, e.attachWr).0;
    var c := FirstFree(s1.dev);
    if c < |s1.dev| {
      LookupOthers(s1.dev, c, Some(d));
      assert !CoreUp(s1.(dev := s1.dev[c := Some(d)]), c, e.init).refsHeld;
    }
  }

  // ---------- Whole runs with split removals ----------

  /** A step of the protocol, or one section of a removal. */
  datatype Act = Whole(x: Step) | Begin(d: DevId, wr: Err) | Finish(d: DevId, e: RemoveEnv)

  /** going: the devices between the two sections of their removal. */
  datatype Split = Split(st: St, going: set<DevId>)

  predicate CanAct(p: Split, a: Act) {
    WF(p.st) &&
    match a
    case Whole(x) =>
      Enabled(p.st, x) && (x.Remove? ==> x.d !in p.going) && (x.JobStart? ==> x.d !in p.going)
    case Begin(d, _) => d < |p.st.dom| && IsBound(p.st, d) && !p.st.dom[d].inFlight && d !in p.going
    case Finish(d, e) => d in p.going && IsBound(p.st, d) && |e.rmAll| == MAX_NB
  }

  function After(p: Split, a: Act): Split
    requires CanAct(p, a)
  {
    match a
    case Whole(x) => p.(st := Next(p.st, x))
    case Begin(d, wr) => Split(DropBoost(p.st, wr), p.going + {d})
    case Finish(d, e) => Split(RemoveRest(p.st, Lookup(p.st.dev, d), e), p.going - {d})
  }

  /** The writes trusted in the protocol's own steps, and a second section that finds what it must. */
  predicate TrustedAct(p: Split, a: Act)
    requires CanAct(p, a)
  {
    match a
    case Whole(x) => Trusted(p.st, x)
    case Begin(_, _) => true
    case Finish(d, e) => RestMadeSafe(p.st, Lookup(p.st.dev, d), e)
  }

  predicate GoingInv(s: St, going: set<DevId>)
    requires WF(s)
  {
    forall d :: d in going ==> d < |s.dom| && IsBound(s, d) && !s.dom[d].inFlight
  }

  predicate SplitInv(p: Split) {
    Inv(p.st) && GoingInv(p.st, p.going)
  }

  lemma ProbeKeepsBound(s: St, d: DevId, e: ProbeEnv, x: DevId)
    requires WF(s) && Enabled(s, Probe(d, e)) && WF(DoProbe(s, d, e)) && IsBound(s, x)
    ensures IsBound(DoProbe(s, d, e), x)
  {
    var s1 := Attach(s, d, e.attachWr).0;
    var c := FirstFree(s1.dev);
    if c < |s1.dev| {
      LookupOthers(s1.dev, c, Some(d));
    }
  }

  lemma UnbindKeepsBound(s: St, c: nat, t: St, x: DevId)
    requires WF(s) && WF(t) && c < |s.dev| && t.dev == s.dev[c := None] && IsBound(s, x) && s.dev[c] != Some(x)
    ensures IsBound(t, x)
  {
    LookupOthers(s.dev, c, None);
  }

  lemma StepKeepsBound(s: St, x: Step, d: DevId)
    requires WF(s) && Enabled(s, x) && WF(Next(s, x)) && d < |s.dom| && IsBound(s, d)
    requires !(x.Remove? && x.d == d)
    ensures IsBound(Next(s, x), d)
  {
    match x
    case Probe(d', pe) => ProbeKeepsBound(s, d', pe, d);
    case Remove(d', re) => UnbindKeepsBound(s, Lookup(s.dev, d'), DoRemove(s, d', re), d);
    case SetTarget(_, _) =>
    case RuntimeOff(d', idle, wr, wr2) => PowerDownWakes(s, d', idle, wr, wr2);
    case ForcedOff(d', idle, wr, wr2) => PowerDownWakes(s, d', idle, wr, wr2);
    case ForcedOn(_, _) =>
    case UnboundSwitch(_, _) =>
    case JobStart(d', pm, _) => PowerUpWakes(s, d', pm);
    case JobEnd(_) =>
    case Reboot(_, _) =>
    case ForeignWrite(_) =>
  }

  lemma StepKeepsIdle(s: St, x: Step, d: DevId)
    requires WF(s) && Enabled(s, x) && d < |s.dom| && !s.dom[d].inFlight && !(x.JobStart? && x.d == d)
    ensures d < |Next(s, x).dom| && !Next(s, x).dom[d].inFlight
  {
    if x.JobStart? {
      PowerUpWakes(s, x.d, x.pm);
    } else if !x.JobEnd? {
      OnlyJobsTouchJobs(s, x);
    }
  }

  lemma WholeKeepsSplit(p: Split, x: Step)
    requires SplitInv(p) && CanAct(p, Whole(x)) && TrustedAct(p, Whole(x))
    ensures SplitInv(After(p, Whole(x)))
  {
    StepKeepsCore(p.st, x);
    StepKeepsClock(p.st, x);
    forall d | d in p.going
      ensures d < |Next(p.st, x).dom| && IsBound(Next(p.st, x), d) && !Next(p.st, x).dom[d].inFlight
    {
      StepKeepsBound(p.st, x, d);
      StepKeepsIdle(p.st, x, d);
    }
  }

  lemma BeginKeepsSplit(p: Split, d: DevId, wr: Err)
    requires SplitInv(p) && CanAct(p, Begin(d, wr))
    ensures SplitInv(After(p, Begin(d, wr)))
  {
    FirstSection(p.st, d, wr);
    var s1 := DropBoost(p.st, wr);
    forall x | x in p.going + {d} ensures x < |s1.dom| && IsBound(s1, x) && !s1.dom[x].inFlight {
      assert OnlyUsage(p.st, s1);
    }
  }

  /** The second section keeps the invariant exactly when it finds what it must. */
  lemma FinishExact(p: Split, d: DevId, e: RemoveEnv)
    requires SplitInv(p) && CanAct(p, Finish(d, e))
    ensures SplitInv(After(p, Finish(d, e))) <==> TrustedAct(p, Finish(d, e))
  {
    var c := Lookup(p.st.dev, d);
    RestExact(p.st, c, e);
    if RestMadeSafe(p.st, c, e) {
      UnbindKeepsGoing(p.st, c, RemoveRest(p.st, c, e), p.going - {d});
    }
  }

  lemma UnbindKeepsGoing(s: St, c: nat, t: St, going: set<DevId>)
    requires WF(s) && WF(t) && c < |s.dev| && t.dev == s.dev[c := None] && OnlyUsage(s, t)
    requires GoingInv(s, going) && forall x :: x in going ==> s.dev[c] != Some(x)
    ensures GoingInv(t, going)
  {
    forall x | x in going ensures x < |t.dom| && IsBound(t, x) && !t.dom[x].inFlight {
      UnbindKeepsBound(s, c, t, x);
    }
  }

  predicate SplitRun(p: Split, acts: seq<Act>, q: Split)
    decreases |acts|
  {
    if |acts| == 0 then p == q else CanAct(p, acts[0]) && SplitRun(After(p, acts[0]), acts[1..], q)
  }

  predicate TrustedSplitRun(p: Split, acts: seq<Act>)
    decreases |acts|
  {
    |acts| == 0 || (CanAct(p, acts[0]) && TrustedAct(p, acts[0]) && TrustedSplitRun(After(p, acts[0]), acts[1..]))
  }

  lemma {:induction false} SplitRunKeepsInv(p: Split, acts: seq<Act>, q: Split)
    requires SplitInv(p) && SplitRun(p, acts, q) && TrustedSplitRun(p, acts)
    ensures SplitInv(q)
    decreases |acts|
  {
    if |acts| > 0 {
      match acts[0] {
        case Whole(x) => WholeKeepsSplit(p, x);
        case Begin(d, wr) => BeginKeepsSplit(p, d, wr);
        case Finish(d, e) => FinishExact(p, d, e);
      }
      SplitRunKeepsInv(After(p, acts[0]), acts[1..], q);
    }
  }

  /**
   * Over every run whose removals, any number of them at once, give up the lock half-way: if
   * each second section finds what it must, no domain has switched above the safe rate.
   */
  lemma NoSwitchAboveSafeSplit(on: seq<bool>, acts: seq<Act>, q: Split)
    requires SplitRun(Split(Boot(on), {}), acts, q) && TrustedSplitRun(Split(Boot(on), {}), acts)
    ensures forall k :: 0 <= k < |q.st.log| ==> q.st.log[k].rate == SAFE_RATE
    ensures q.st.clk != SAFE_RATE ==> AllLive(q.st) && Awake(q.st)
  {
    BootInv(on);
    SplitRunKeepsInv(Split(Boot(on), {}), acts, q);
  }

  /** The same on inputs alone: first sections whose write works or is not needed, and no boost in a window. */
  predicate Careful(p: Split, a: Act)
    requires CanAct(p, a)
  {
    match a
    case Whole(x) => Trusted(p.st, x) && (x.SetTarget? && p.going != {} ==> !Granted(p.st, x.freq, x.te))
    case Begin(_, wr) => p.st.clk == SAFE_RATE || wr == 0
    case Finish(_, _) => true
  }

  predicate CarefulRun(p: Split, acts: seq<Act>)
    decreases |acts|
  {
    |acts| == 0 || (CanAct(p, acts[0]) && Careful(p, acts[0]) && CarefulRun(After(p, acts[0]), acts[1..]))
  }

  lemma CarefulStep(p: Split, a: Act)
    requires SplitInv(p) && (p.going != {} ==> Quiet(p.st)) && CanAct(p, a) && Careful(p, a)
    ensures TrustedAct(p, a) && SplitInv(After(p, a)) && (After(p, a).going != {} ==> Quiet(After(p, a).st))
  {
    match a
    case Whole(x) =>
      WholeKeepsSplit(p, x);
      if p.going != {} {
        QuietStep(p.st, x);
      }
    case Begin(d, wr) =>
      BeginKeepsSplit(p, d, wr);
      FirstSection(p.st, d, wr);
    case Finish(d, e) =>
      FinishExact(p, d, e);
      CalmRest(p.st, Lookup(p.st.dev, d), e);
  }

  lemma {:induction false} CarefulMeansTrusted(p: Split, acts: seq<Act>)
    requires SplitInv(p) && (p.going != {} ==> Quiet(p.st)) && CarefulRun(p, acts)
    ensures TrustedSplitRun(p, acts)
    decreases |acts|
  {
    if |acts| > 0 {
      CarefulStep(p, acts[0]);
      CarefulMeansTrusted(After(p, acts[0]), acts[1..]);
    }
  }

  /** With no boost granted inside a window, splitting the removals costs no safety. */
  lemma NoBoostInWindowsSafe(on: seq<bool>, acts: seq<Act>, q: Split)
    requires SplitRun(Split(Boot(on), {}), acts, q) && CarefulRun(Split(Boot(on), {}), acts)
    ensures forall k :: 0 <= k < |q.st.log| ==> q.st.log[k].rate == SAFE_RATE
  {
    BootInv(on);
    CarefulMeansTrusted(Split(Boot(on), {}), acts);
    NoSwitchAboveSafeSplit(on, acts, q);
  }
}
