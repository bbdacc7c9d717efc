/**
 * Binding, registering, arming and removing: exactly what each does on its inputs, and that a
 * board whose probes and removals met no failure can always boost once all its cores are bound.
 */
module Lifecycle {
  import opened Common
  import opened Slots
  import opened Protocol
  import opened ProtocolCore
  import opened ProtocolSafety
  import opened ProtocolResults
  import opened Effects

  // ---------- Arming ----------

  predicate LiveSlot(s: St, i: nat) {
    i < |s.dev| && i < MAX_NB && s.dev[i].Some?
  }

  /**
   * Arming adds a block, in the right chain, for exactly the live slots whose registration works
   * and that had none; the latch falls exactly when one of these registrations fails.
   */
  lemma ArmExact(s: St, res: seq<Err>)
    requires WF(s) && |res| == MAX_NB
    ensures var t := Arm(s, res);
      && (forall i: nat :: i < MAX_NB ==>
            (t.nb[i].armed <==> s.nb[i].armed || (LiveSlot(s, i) && res[i] == 0)))
      && (forall i: nat :: i < MAX_NB && s.nb[i].armed ==> t.nb[i] == s.nb[i])
      && (forall i: nat :: i < MAX_NB && !s.nb[i].armed && t.nb[i].armed ==> t.nb[i] == Nb(true, Some(i), s.dev[i]))
      && (forall i: nat :: i < MAX_NB && !t.nb[i].armed ==>
            t.nb[i] == if LiveSlot(s, i) then s.nb[i].(core := None) else s.nb[i])
      && (t.unsafe <==> s.unsafe || exists i: nat :: i < MAX_NB && LiveSlot(s, i) && !s.nb[i].armed && res[i] != 0)
  {
    forall i: nat | i < MAX_NB ensures NeedsArm(s, i) == (LiveSlot(s, i) && !s.nb[i].armed) {
    }
  }

  // ---------- Registering ----------

  /** Nothing in the registration by slot c fails. */
  predicate Registers(s: St, c: nat, e: InitEnv)
    requires WF(s) && c < |s.dev| && s.dev[c].Some?
  {
    Resumes(s, s.dev[c].value, e.pm) && s.clk == SAFE_RATE && e.setupErr == 0 && e.addErr == 0
  }

  /**
   * Without an owner, the devfreq device is registered exactly when nothing fails; the regulator
   * is known exactly when it was found, once the clock has been read safe.
   */
  lemma InitExact(s: St, c: nat, e: InitEnv)
    requires WF(s) && c < |s.dev| && s.dev[c].Some? && |e.arm| == MAX_NB && s.owner.None?
    ensures var t := Init(s, c, e);
      && t.owner == (if Registers(s, c, e) then Some(c) else None)
      && t.reg == (if Resumes(s, s.dev[c].value, e.pm) && s.clk == SAFE_RATE then e.regErr == 0 else s.reg)
      && t.clk == s.clk
      && (t.owner.None? ==> t.nb == s.nb && t.unsafe == s.unsafe)
      && (t.owner.Some? ==> t.nb == Arm(s, e.arm).nb && t.unsafe == Arm(s, e.arm).unsafe)
  {
    PowerUpExact(s, s.dev[c].value, e.pm);
    PowerUpWakes(s, s.dev[c].value, e.pm);
    NoOwnerKeepsClock(s, s.dev[c].value, e.pm);
    var s1 := PowerUp(s, s.dev[c].value, e.pm).0;
    if Registers(s, c, e) {
      var s3 := s1.(reg := e.regErr == 0, reqRate := SAFE_RATE, refsHeld := false, owner := Some(c));
      ArmSame(s, s3, e.arm);
      assert Init(s, c, e) == Arm(s3, e.arm);
    }
  }

  lemma ArmSame(s: St, t: St, res: seq<Err>)
    requires WF(s) && WF(t) && |res| == MAX_NB && t.dev == s.dev && t.nb == s.nb && t.unsafe == s.unsafe
    ensures Arm(t, res).nb == Arm(s, res).nb && Arm(t, res).unsafe == Arm(s, res).unsafe
  {
    assert forall i: nat :: NeedsArm(s, i) == NeedsArm(t, i);
  }

  lemma NoOwnerKeepsClock(s: St, d: DevId, e: PmEnv)
    requires WF(s) && d < |s.dom| && s.owner.None?
    ensures PowerUp(s, d, e).0.clk == s.clk
  {
    FlipExact(s, d, e.wr, true);
    FlipExact(Flip(s, d, e.wr, true).0, d, e.wr2, true);
  }

  // ---------- Probing ----------

  /** d's attach is not vetoed and its core comes up. */
  predicate ComesUp(s: St, d: DevId, e: ProbeEnv)
    requires WF(s) && d < |s.dom|
  {
    (s.dom[d].on || !Vetoes(s, d, e.attachWr)) && e.coreErr == 0
  }

  lemma FreeSlot(s: St, d: DevId)
    requires WF(s) && d < |s.dev| && !IsBound(s, d)
    ensures FirstFree(s.dev) < |s.dev|
  {
    assert d in Below(|s.dev|) && d !in Bound(s.dev);
    FullTable(s.dev);
  }

  /** What the attach leaves, with the device in the lowest free slot. */
  function Attached(s: St, d: DevId, e: ProbeEnv): (t: St)
    requires WF(s) && d < |s.dev| && !IsBound(s, d) && FirstFree(s.dev) < |s.dev|
    ensures WF(t) && t.dev == s.dev[FirstFree(s.dev) := Some(d)] && t.nb == s.nb && t.owner == s.owner
    ensures t.unsafe == s.unsafe && |t.dom| == |s.dom|
  {
    LookupOthers(s.dev, FirstFree(s.dev), Some(d));
    var s1 := Attach(s, d, e.attachWr).0;
    s1.(dev := s1.dev[FirstFree(s1.dev) := Some(d)])
  }

  /**
   * A probe binds its device, into the lowest free slot, exactly when it comes up; then slot 0
   * registers and the others arm.
   */
  lemma ProbeExact(s: St, d: DevId, e: ProbeEnv)
    requires WF(s) && Enabled(s, Probe(d, e))
    ensures var t, c := DoProbe(s, d, e), FirstFree(s.dev);
      && c < |s.dev|
      && t.dev == (if ComesUp(s, d, e) then s.dev[c := Some(d)] else s.dev)
      && (!ComesUp(s, d, e) ==> t.owner == s.owner && t.nb == s.nb && t.unsafe == s.unsafe && t.reg == s.reg)
      && (ComesUp(s, d, e) ==> t == CoreUp(Attached(s, d, e), c, e.init))
  {
    FreeSlot(s, d);
    FlipExact(s, d, e.attachWr, true);
  }

  // ---------- Removing ----------

  /** The first section: the boost is gone; the latch falls exactly when a needed write fails. */
  lemma DropBoostExact(s: St, wr: Err)
    requires WF(s)
    ensures var t := DropBoost(s, wr);
      && (s.owner.Some? ==> t.reqRate == SAFE_RATE && !t.refsHeld && t.clk == if wr == 0 then SAFE_RATE else s.clk)
      && (s.owner.None? ==> t == s)
      && (t.unsafe <==> s.unsafe || (s.owner.Some? && s.clk != SAFE_RATE && wr != 0))
      && t.nb == s.nb && t.owner == s.owner && t.reg == s.reg && t.dev == s.dev
  {
  }

  lemma OwnBlockIs(s: St, c: nat)
    requires WF(s) && NotifierInv(s)
    ensures OwnBlock(s.nb, c) == if c < MAX_NB && s.nb[c].armed then c else MAX_NB
  {
  }

  /** Disarming the removed core's own block frees it, or closes the latch. */
  lemma DropBlockExact(s: St, c: nat, rm: Err)
    requires WF(s) && NotifierInv(s)
    ensures var t := DropBlock(s, c, rm); var own := c < MAX_NB && s.nb[c].armed;
      && t == s.(nb := t.nb, unsafe := t.unsafe) && |t.nb| == MAX_NB
      && (t.unsafe <==> s.unsafe || (own && rm != 0))
      && (forall i: nat :: i < MAX_NB && i != c ==> t.nb[i] == s.nb[i])
      && (own && rm == 0 ==> t.nb[c] == Nb(false, None, None))
      && (c < MAX_NB && !(own && rm == 0) ==> t.nb[c] == s.nb[c])
  {
    OwnBlockIs(s, c);
  }

  /** Only the owner's removal disarms the rest: every live block whose removal works. */
  lemma FiniExact(s: St, c: nat, e: RemoveEnv)
    requires WF(s) && NotifierInv(s) && c < |s.dev| && s.dev[c].Some? && |e.rmAll| == MAX_NB
    ensures var t := Fini(s, c, e); var mine := s.owner == Some(c);
      && t.owner == (if mine then None else s.owner)
      && t.unsafe == s.unsafe && t.reg == s.reg && |t.nb| == MAX_NB
      && (!mine ==> t == s)
      && (mine ==> t.reqRate == SAFE_RATE && !t.refsHeld)
      && (forall i: nat :: i < MAX_NB ==>
            (t.nb[i].armed <==> s.nb[i].armed && !(mine && LiveSlot(s, i) && e.rmAll[i] == 0)))
      && (forall i: nat :: i < MAX_NB && t.nb[i].armed ==> t.nb[i] == s.nb[i])
  {
  }

  /** A whole removal, slot by slot. */
  lemma RemoveExactly(s: St, d: DevId, e: RemoveEnv)
    requires CoreInv(s) && Enabled(s, Remove(d, e))
    ensures var t, c := DoRemove(s, d, e), Lookup(s.dev, d); var mine := s.owner == Some(c);
      && c >= 0 && t.dev == s.dev[c := None] && t.owner == (if mine then None else s.owner) && t.reg == s.reg
      && |t.nb| == MAX_NB
      && (t.unsafe <==> s.unsafe || (s.owner.Some? && s.clk != SAFE_RATE && e.wr != 0)
                        || (c < MAX_NB && s.nb[c].armed && e.rm != 0))
      && (forall i: nat :: i < MAX_NB ==>
            (t.nb[i].armed <==>
               s.nb[i].armed && !(i == c && e.rm == 0) && !(mine && LiveSlot(s, i) && e.rmAll[i] == 0)))
      && (forall i: nat :: i < MAX_NB && t.nb[i].armed ==> t.nb[i] == s.nb[i])
  {
    DropBoostExact(s, e.wr);
    DropBoostCalms(s, e.wr);
    RestExactly(DropBoost(s, e.wr), Lookup(s.dev, d), e);
  }

  lemma RestExactly(s: St, c: nat, e: RemoveEnv)
    requires WF(s) && NotifierInv(s) && c < |s.dev| && s.dev[c].Some? && |e.rmAll| == MAX_NB
    ensures var t := RemoveRest(s, c, e); var mine := s.owner == Some(c);
      && t.owner == (if mine then None else s.owner) && t.reg == s.reg && |t.nb| == MAX_NB
      && (t.unsafe <==> s.unsafe || (c < MAX_NB && s.nb[c].armed && e.rm != 0))
      && (forall i: nat :: i < MAX_NB ==>
            (t.nb[i].armed <==>
               s.nb[i].armed && !(i == c && e.rm == 0) && !(mine && LiveSlot(s, i) && e.rmAll[i] == 0)))
      && (forall i: nat :: i < MAX_NB && t.nb[i].armed ==> t.nb[i] == s.nb[i])
  {
    DropBlockExact(s, c, e.rm);
    DropBlockUnguards(s, c, e.rm);
    FiniExact(DropBlock(s, c, e.rm), c, e);
  }

  // ---------- Lives without failures ----------

  /** Probes that come up also register and arm; removals write and disarm. */
  predicate Smooth(x: Step) {
    match x
    case Probe(_, pe) =>
      pe.coreErr != 0
      || (pe.init.pm.before == 0 && pe.init.pm.after == 0 && pe.init.setupErr == 0 && pe.init.addErr == 0
          && forall i :: 0 <= i < |pe.init.arm| ==> pe.init.arm[i] == 0)
    case Remove(_, re) => re.wr == 0 && re.rm == 0 && forall i :: 0 <= i < |re.rmAll| ==> re.rmAll[i] == 0
    case _ => true
  }

  /** With an owner every live slot is armed; without one nothing is, and slot 0 is free to register again. */
  predicate Ready(s: St) {
    && |s.nb| == MAX_NB && !s.unsafe
    && (s.owner.Some? ==> forall i: nat :: i < MAX_NB && LiveSlot(s, i) ==> s.nb[i].armed)
    && (s.owner.None? ==> (forall i: nat :: i < MAX_NB ==> !s.nb[i].armed) && (|s.dev| > 0 ==> s.dev[0].None?))
  }

  lemma CoreUpReady(s: St, s2: St, c: nat, d: DevId, e: InitEnv)
    requires Ready(s) && WF(s) && WF(s2) && c < |s.dev| && s2.clk == SAFE_RATE && |e.arm| == MAX_NB
    requires s2.dev == s.dev[c := Some(d)] && s2.nb == s.nb && s2.owner == s.owner && s2.unsafe == s.unsafe
    requires forall i :: 0 <= i < MAX_NB ==> e.arm[i] == 0
    requires e.pm.before == 0 && e.pm.after == 0 && e.setupErr == 0 && e.addErr == 0
    requires s.owner.None? <==> c == 0
    ensures Ready(CoreUp(s2, c, e))
  {
    ArmExact(s2, e.arm);
    if s2.owner.None? {
      InitExact(s2, 0, e);
      assert Registers(s2, 0, e);
    }
  }

  lemma ProbeReady(s: St, d: DevId, e: ProbeEnv)
    requires Inv(s) && Ready(s) && Enabled(s, Probe(d, e)) && Smooth(Probe(d, e))
    ensures Ready(DoProbe(s, d, e))
  {
    ProbeExact(s, d, e);
    if ComesUp(s, d, e) {
      UnboundMeansSafe(s, d);
      FlipExact(s, d, e.attachWr, true);
      CoreUpReady(s, Attached(s, d, e), FirstFree(s.dev), d, e.init);
    }
  }

  lemma RemoveReady(s: St, d: DevId, e: RemoveEnv)
    requires CoreInv(s) && Ready(s) && Enabled(s, Remove(d, e)) && Smooth(Remove(d, e))
    ensures Ready(DoRemove(s, d, e))
  {
    RemoveExactly(s, d, e);
  }

  /** The other entry points leave slots, blocks, owner and latch alone. */
  lemma OthersFrame(s: St, x: Step)
    requires WF(s) && Enabled(s, x) && !x.Probe? && !x.Remove?
    ensures var t := Next(s, x);
      t.dev == s.dev && t.nb == s.nb && t.owner == s.owner && t.unsafe == s.unsafe && t.reg == s.reg
  {
    match x
    case SetTarget(_, _) =>
    case RuntimeOff(d, idle, wr, wr2) => PowerDownWakes(s, d, idle, wr, wr2);
    case ForcedOff(d, idle, wr, wr2) => PowerDownWakes(s, d, idle, wr, wr2);
    case ForcedOn(d, wr) => FlipSwitches(s, d, wr, false);
    case UnboundSwitch(d, wr) => FlipSwitches(s, d, wr, true);
    case JobStart(d, pm, _) => PowerUpWakes(s, d, pm);
    case JobEnd(_) =>
    case Reboot(_, _) =>
    case ForeignWrite(_) =>
  }

  lemma StepReady(s: St, x: Step)
    requires Inv(s) && Ready(s) && Enabled(s, x) && Smooth(x)
    ensures Ready(Next(s, x))
  {
    if x.Probe? {
      ProbeReady(s, x.d, x.pe);
    } else if x.Remove? {
      RemoveReady(s, x.d, x.re);
    } else {
      OthersFrame(s, x);
    }
  }

  lemma {:induction false} RunReady(s: St, xs: seq<Step>, t: St)
    requires Inv(s) && Ready(s) && Run(s, xs, t) && TrustedRun(s, xs)
    requires forall k :: 0 <= k < |xs| ==> Smooth(xs[k])
    ensures Inv(t) && Ready(t)
    decreases |xs|
  {
    if |xs| > 0 {
      StepKeepsCore(s, xs[0]);
      StepKeepsClock(s, xs[0]);
      StepReady(s, xs[0]);
      RunReady(Next(s, xs[0]), xs[1..], t);
    }
  }

  /**
   * After any life of binds, unbinds, rebinds, requests, sleeps and jobs whose probes and
   * removals met no failure: once all of at most four cores are bound, a request is granted
   * exactly when the voltage, the resumes and the write allow it.
   */
  lemma AllBoundBoosts(on: seq<bool>, xs: seq<Step>, t: St, freq: nat, e: TargetEnv)
    requires Run(Boot(on), xs, t) && TrustedRun(Boot(on), xs) && forall k :: 0 <= k < |xs| ==> Smooth(xs[k])
    requires 0 < |on| <= 4 && forall d: nat :: d < |on| ==> WF(t) && IsBound(t, d)
    ensures WF(t) && |t.dev| == |on| && Covered(t)
    ensures |e.pm| == |on| && e.oppErr == 0 && !EarlyExit(t, freq) ==>
      (Target(t, freq, e).ret == 0 <==>
         (freq > 700_000_000 ==> t.reg && e.uv >= 850_000) && AllResume(t, 0, e.pm) && e.wr == 0)
  {
    BootInv(on);
    RunReady(Boot(on), xs, t);
    BootCore(on);
    RunKeepsCore(Boot(on), xs, t);
    AllBoundCovers(t);
    if |e.pm| == |on| && e.oppErr == 0 && !EarlyExit(t, freq) {
      TargetSucceeds(t, freq, e);
    }
  }

  lemma AllBoundCovers(s: St)
    requires CoreInv(s) && Ready(s) && 0 < |s.dev| <= MAX_NB && forall d: nat :: d < |s.dev| ==> IsBound(s, d)
    ensures Covered(s)
  {
    forall d | d in Below(|s.dev|) ensures d in Bound(s.dev) {
      assert IsBound(s, d);
      assert s.dev[Lookup(s.dev, d)] == Some(d);
    }
    assert Bound(s.dev) == Below(|s.dev|);
    FullTable(s.dev);
    assert forall i: nat :: i < |s.dev| ==> LiveSlot(s, i);
  }
}
