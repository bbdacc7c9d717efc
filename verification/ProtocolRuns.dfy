/**
 * Concrete runs from module load: a granted boost, a leaked reference, and the runs in which a
 * domain switches above the safe rate.
 */
module ProtocolRuns {
  import opened Common
  import opened Slots
  import opened Protocol
  import opened ProtocolCore
  import opened ProtocolSafety
  import opened ProtocolResults
  import opened RemovalWindow

  const FAST: nat := 600_000_000
  const EIO: int := -5

  const PM_OK := PmEnv(0, 0, 0, 0)
  const ALL_OK: seq<Err> := [0, 0, 0, 0]
  const PROBE_OK := ProbeEnv(0, 0, InitEnv(PM_OK, 0, 0, 0, ALL_OK))
  const FREE := Nb(false, None, None)

  // ---------- One core ----------

  const BOUND1 := St([Some(0)], [Nb(true, Some(0), Some(0)), FREE, FREE, FREE], Some(0), SAFE_RATE, false, false, true,
                     SAFE_RATE, [Domain(0, true, false, 0)], [])

  const FAST1 := BOUND1.(reqRate := FAST, clk := FAST, refsHeld := true, dom := [Domain(1, true, false, 0)])

  const BOOST1 := [Probe(0, PROBE_OK), SetTarget(FAST, TargetEnv(0, [PM_OK], 0, 0, FAST))]

  lemma Bind1()
    ensures Enabled(Boot([true]), BOOST1[0]) && Next(Boot([true]), BOOST1[0]) == BOUND1
  {
    var s := Boot([true]);
    assert s.dev == [None];
    assert s.dom == [Domain(0, true, false, 0)];
    assert FirstFree(s.dev) == 0;
    var s2 := s.(dev := [Some(0)]);
    assert s.dev[0 := Some(0)] == s2.dev;
    var s3 := s2.(reg := true, owner := Some(0));
    assert forall i :: 0 <= i < MAX_NB ==> NeedsArm(s3, i) == (i == 0);
    assert Arm(s3, ALL_OK).nb == BOUND1.nb;
    assert Init(s2, 0, PROBE_OK.init) == Arm(s3, ALL_OK);
  }

  lemma Boost1()
    ensures Enabled(BOUND1, BOOST1[1]) && Next(BOUND1, BOOST1[1]) == FAST1
  {
    ArmedCountBound(BOUND1.nb, 1);
    assert Lookup(BOUND1.dev, 0) == 0;
    var e := BOOST1[1].te;
    assert WakeFrom(BOUND1, 0, e.pm) == (BOUND1, 0) by {
      assert PowerUp(BOUND1, 0, PM_OK) == (BOUND1, 0);
      assert WakeFrom(BOUND1, 1, e.pm) == (BOUND1, 0);
    }
    assert AddUsage(BOUND1, 0, 1, 1).dom == FAST1.dom;
  }

  lemma Steps2(s: St, x: Step, y: Step, t: St)
    requires WF(s) && Enabled(s, x) && WF(Next(s, x)) && Enabled(Next(s, x), y) && Next(Next(s, x), y) == t
    ensures Run(s, [x, y], t)
  {
    assert [x, y][1..] == [y] && [y][1..] == [];
    assert Run(Next(s, x), [y], t);
  }

  lemma {:induction false} RunAppend(s: St, xs: seq<Step>, t: St, ys: seq<Step>, u: St)
    requires Run(s, xs, t) && Run(t, ys, u)
    ensures Run(s, xs + ys, u)
    decreases |xs|
  {
    if |xs| == 0 {
      assert xs + ys == ys;
    } else {
      assert (xs + ys)[1..] == xs[1..] + ys;
      RunAppend(Next(s, xs[0]), xs[1..], t, ys, u);
    }
  }

  /** The boost is really granted, so the safety results are not empty. */
  lemma BoostGranted()
    ensures Run(Boot([true]), BOOST1, FAST1) && TrustedRun(Boot([true]), BOOST1)
  {
    Bind1();
    Boost1();
    Steps2(Boot([true]), BOOST1[0], BOOST1[1], FAST1);
    assert BOOST1[1..] == [BOOST1[1]];
    assert TrustedRun(BOUND1, BOOST1[1..]) by {
      assert BOOST1[1..][1..] == [];
    }
  }

  /** A job start whose attach fails leaves the bound core awake for good, with no job and no boost. */
  lemma LeakedReference()
    ensures var x := JobStart(0, PM_OK, EIO); var t := BOUND1.(dom := [Domain(1, true, false, 1)]);
      && Run(Boot([true]), [BOOST1[0], x], t) && WF(t)
      && !CleanStart(BOUND1, x) && forall idle, wr, wr2 :: !Enabled(t, RuntimeOff(0, idle, wr, wr2))
  {
    Bind1();
    LookupOwnSlot(BOUND1.dev, 0);
    var x := JobStart(0, PM_OK, EIO);
    assert PowerUp(BOUND1, 0, PM_OK) == (BOUND1, 0);
    Steps2(Boot([true]), BOOST1[0], x, BOUND1.(dom := [Domain(1, true, false, 1)]));
  }

  const ASLEEP1 := BOUND1.(dom := [Domain(0, false, false, 0)], log := [Switch(0, SAFE_RATE, true)])

  const WOKEN1 := ASLEEP1.(dom := [Domain(0, true, false, 0)], log := ASLEEP1.log + ASLEEP1.log)

  /** From module load, an idle core goes to sleep. */
  lemma Sleeps()
    ensures Run(Boot([true]), [BOOST1[0], RuntimeOff(0, true, 0, 0)], ASLEEP1)
  {
    Bind1();
    LookupOwnSlot(BOUND1.dev, 0);
    assert ActsOn(BOUND1, 0, 0);
    assert Flip(BOUND1, 0, 0, true).0 == ASLEEP1;
    Steps2(Boot([true]), BOOST1[0], RuntimeOff(0, true, 0, 0), ASLEEP1);
  }

  /** A job wakes it, and once the job has completed it may sleep again. */
  lemma Works()
    ensures Run(ASLEEP1, [JobStart(0, PM_OK, 0), JobEnd(0)], WOKEN1)
    ensures WF(WOKEN1) && Enabled(WOKEN1, RuntimeOff(0, true, 0, 0))
  {
    LookupOwnSlot(ASLEEP1.dev, 0);
    assert ActsOn(ASLEEP1, 0, 0);
    assert Flip(ASLEEP1, 0, 0, true).0 == WOKEN1;
    var working := WOKEN1.(dom := [Domain(1, true, true, 0)]);
    assert StartJob(ASLEEP1, 0, PM_OK, 0) == working;
    Steps2(ASLEEP1, JobStart(0, PM_OK, 0), JobEnd(0), WOKEN1);
  }

  const REMOVE_FAILS := RemoveEnv(EIO, 0, EIO, ALL_OK)

  /** Both safe-rate writes of a removal fail: the domain then goes off at 600 MHz, unseen. */
  lemma FailedRemoval()
    ensures var xs := [Remove(0, REMOVE_FAILS), UnboundSwitch(0, 0)];
      && WF(FAST1) && Enabled(FAST1, xs[0]) && !Trusted(FAST1, xs[0])
      && WF(Next(FAST1, xs[0])) && Enabled(Next(FAST1, xs[0]), xs[1])
      && var t := Next(Next(FAST1, xs[0]), xs[1]);
      && Run(Boot([true]), BOOST1 + xs, t) && t.log == [Switch(0, FAST, false)]
  {
    BootInv([true]);
    BoostGranted();
    RunKeepsInv(Boot([true]), BOOST1, FAST1);
    LookupOwnSlot(FAST1.dev, 0);
    RemoveGuards(FAST1, 0, REMOVE_FAILS);
    RemoveClock(FAST1, 0, REMOVE_FAILS);
    var t := DoRemove(FAST1, 0, REMOVE_FAILS);
    assert t.owner.None? && t.clk == FAST && t.log == [];
    var xs := [Remove(0, REMOVE_FAILS), UnboundSwitch(0, 0)];
    assert Lookup(t.dev, 0) == -1 by {
      LookupOthers(FAST1.dev, 0, None);
    }
    var u := Next(t, xs[1]);
    Steps2(FAST1, xs[0], xs[1], u);
    RunAppend(Boot([true]), BOOST1, FAST1, xs, u);
  }

  const OFF1 := FAST1.(reqRate := SAFE_RATE, clk := SAFE_RATE, dom := [Domain(1, false, false, 0)],
                       log := [Switch(0, SAFE_RATE, true)])

  const RAISED1 := OFF1.(clk := FAST)

  const RESUMED1 := RAISED1.(dom := [Domain(1, true, false, 0)],
                             log := [Switch(0, SAFE_RATE, true), Switch(0, FAST, true)])

  const VETOED: seq<Step> := [ForcedOff(0, true, 0, 0), ForeignWrite(FAST), ForcedOn(0, EIO)]

  lemma SleepRaised()
    ensures WF(FAST1) && Enabled(FAST1, VETOED[0]) && Next(FAST1, VETOED[0]) == OFF1
    ensures WF(OFF1) && Hooked(OFF1, 0) && Lookup(OFF1.dev, 0) == 0
  {
    LookupOwnSlot(FAST1.dev, 0);
    var s := FAST1.(clk := SAFE_RATE);
    assert ActsOn(s, 0, 0) && ActsOn(OFF1, 0, 0);
    assert Flip(s, 0, 0, true).0 == OFF1;
  }

  lemma VetoedRuns()
    ensures Run(FAST1, VETOED, RESUMED1)
  {
    SleepRaised();
    HookedSame(OFF1, RAISED1, 0);
    IgnoredVetoLogged(RAISED1, 0, EIO);
    assert Next(RAISED1, VETOED[2]) == RESUMED1;
    Steps2(OFF1, VETOED[1], VETOED[2], RESUMED1);
    assert VETOED[1..] == [VETOED[1], VETOED[2]];
  }

  /**
   * A system sleep under a boost, a foreign writer that raises the clock meanwhile, and a noirq
   * resume whose notifier fails to lower it: the dropped veto lets the domain come on at 600 MHz.
   */
  lemma IgnoredVeto()
    ensures Run(Boot([true]), BOOST1 + VETOED, RESUMED1) && RESUMED1.log[1] == Switch(0, FAST, true)
    ensures !VetoesObeyed(Boot([true]), BOOST1 + VETOED) && !GuardedLog(RESUMED1.log)
  {
    BoostGranted();
    VetoedRuns();
    RunAppend(Boot([true]), BOOST1, FAST1, VETOED, RESUMED1);
    assert RESUMED1.log[1].hooked && RESUMED1.log[1].rate == FAST;
    BootCore([true]);
    GuardedSwitchesExact(Boot([true]), BOOST1 + VETOED, RESUMED1);
  }

  // ---------- Two cores and the removal window ----------

  const FULL2 := [Nb(true, Some(0), Some(0)), Nb(true, Some(1), Some(1)), FREE, FREE]

  const BOUND2 := St([Some(0), Some(1)], FULL2, Some(0), SAFE_RATE, false, false, true, SAFE_RATE,
                     [Domain(0, true, false, 0), Domain(0, true, false, 0)], [])

  const FAST2 := BOUND2.(reqRate := FAST, clk := FAST, refsHeld := true,
                         dom := [Domain(1, true, false, 0), Domain(1, true, false, 0)])

  const REMOVE_OK := RemoveEnv(0, 0, 0, ALL_OK)

  lemma Boost2()
    ensures WF(BOUND2) && Target(BOUND2, FAST, TargetEnv(0, [PM_OK, PM_OK], 0, 0, FAST)).st == FAST2
  {
    ArmedCountBound(FULL2, 2);
    LookupOwnSlot(BOUND2.dev, 0);
    LookupOwnSlot(BOUND2.dev, 1);
    var pm := [PM_OK, PM_OK];
    assert WakeFrom(BOUND2, 2, pm) == (BOUND2, 0);
    assert WakeFrom(BOUND2, 1, pm) == (BOUND2, 0);
    assert WakeFrom(BOUND2, 0, pm) == (BOUND2, 0);
    assert AddUsage(BOUND2, 0, 2, 1).dom == FAST2.dom;
  }

  lemma RestLeavesFast(s: St)
    requires s == FAST2
    ensures WF(s) && Lookup(s.dev, 1) == 1
    ensures var t := RemoveRest(s, 1, REMOVE_OK);
      WF(t) && t.clk == FAST && Lookup(t.dev, 1) == -1 && !Hooked(t, 1) && t.log == []
  {
    LookupOwnSlot(s.dev, 1);
    LookupOthers(s.dev, 1, None);
    var b := DropBlock(s, 1, 0);
    assert OwnBlock(s.nb, 1) == 1 by {
      assert s.nb[1].armed && s.nb[1].core == Some(1);
    }
    var t := RemoveRest(s, 1, REMOVE_OK);
    assert t.nb == [FULL2[0], FREE, FREE, FREE];
    forall i | 0 <= i < MAX_NB ensures !ActsOn(t, i, 1) {
    }
  }

  // ---------- Two cores from module load ----------

  const LONE2 := BOUND2.(dev := [Some(0), None], nb := [FULL2[0], FREE, FREE, FREE])

  lemma BindFirst()
    ensures WF(Boot([true, true])) && Enabled(Boot([true, true]), Probe(0, PROBE_OK))
    ensures Next(Boot([true, true]), Probe(0, PROBE_OK)) == LONE2
  {
    var s := Boot([true, true]);
    assert s.dev == [None, None];
    assert s.dom == [Domain(0, true, false, 0), Domain(0, true, false, 0)];
    var s2 := s.(dev := [Some(0), None]);
    assert s.dev[0 := Some(0)] == s2.dev;
    LookupOthers(s.dev, 0, Some(0));
    var s3 := s2.(reg := true, owner := Some(0));
    assert forall i :: 0 <= i < MAX_NB ==> NeedsArm(s3, i) == (i == 0);
    assert Arm(s3, ALL_OK).nb == LONE2.nb;
    assert Init(s2, 0, PROBE_OK.init) == Arm(s3, ALL_OK);
  }

  lemma BindSecond()
    ensures WF(LONE2) && Enabled(LONE2, Probe(1, PROBE_OK)) && Next(LONE2, Probe(1, PROBE_OK)) == BOUND2
  {
    LookupOthers(LONE2.dev, 1, Some(1));
    assert LONE2.dev[1 := Some(1)] == BOUND2.dev;
    assert FirstFree(LONE2.dev) == 1;
    var s2 := LONE2.(dev := BOUND2.dev);
    assert forall i :: 0 <= i < MAX_NB ==> NeedsArm(s2, i) == (i == 1);
    assert Arm(s2, ALL_OK).nb == BOUND2.nb;
  }

  const TE2 := TargetEnv(0, [PM_OK, PM_OK], 0, 0, FAST)

  const BIND2: seq<Act> := [Whole(Probe(0, PROBE_OK)), Whole(Probe(1, PROBE_OK))]

  const WINDOW: seq<Act> := [Begin(1, 0), Whole(SetTarget(FAST, TE2)), Finish(1, REMOVE_OK), Whole(UnboundSwitch(1, 0))]

  lemma Acts(p: Split, a: Act, rest: seq<Act>, q: Split)
    requires CanAct(p, a) && SplitRun(After(p, a), rest, q)
    ensures SplitRun(p, [a] + rest, q)
  {
    assert ([a] + rest)[1..] == rest;
  }

  /** The state that the removal's second section leaves, and then the removed core's domain off. */
  function Lost(): (q: Split)
    ensures q.st.log == [Switch(1, FAST, false)]
  {
    RestLeavesFast(FAST2);
    Split(Next(RemoveRest(FAST2, 1, REMOVE_OK), UnboundSwitch(1, 0)), {})
  }

  lemma WindowOpens()
    ensures CanAct(Split(BOUND2, {}), WINDOW[0]) && After(Split(BOUND2, {}), WINDOW[0]) == Split(BOUND2, {1})
    ensures CanAct(Split(BOUND2, {1}), WINDOW[1]) && After(Split(BOUND2, {1}), WINDOW[1]) == Split(FAST2, {1})
  {
    LookupOwnSlot(BOUND2.dev, 1);
    assert DropBoost(BOUND2, 0) == BOUND2;
    Boost2();
  }

  lemma WindowCloses()
    ensures SplitRun(Split(FAST2, {1}), [WINDOW[2], WINDOW[3]], Lost())
  {
    LookupOwnSlot(FAST2.dev, 1);
    RestLeavesFast(FAST2);
    var p := After(Split(FAST2, {1}), WINDOW[2]);
    assert p.going == {};
    assert p == Split(RemoveRest(FAST2, 1, REMOVE_OK), {});
    Acts(p, WINDOW[3], [], Lost());
    Acts(Split(FAST2, {1}), WINDOW[2], [WINDOW[3]], Lost());
  }

  lemma WindowRuns()
    ensures SplitRun(Split(BOUND2, {}), WINDOW, Lost())
  {
    WindowOpens();
    WindowCloses();
    Acts(Split(BOUND2, {1}), WINDOW[1], [WINDOW[2], WINDOW[3]], Lost());
    Acts(Split(BOUND2, {}), WINDOW[0], [WINDOW[1], WINDOW[2], WINDOW[3]], Lost());
  }

  /**
   * Core 1 is being removed, every write succeeding; between the unlock and the disarming a
   * request for 600 MHz is granted. The removed core's domain then goes off at 600 MHz.
   */
  lemma BoostInWindow()
    ensures SplitRun(Split(Boot([true, true]), {}), BIND2 + WINDOW, Lost())
    ensures Lost().st.log == [Switch(1, FAST, false)]
  {
    WindowRuns();
    BindFirst();
    BindSecond();
    Acts(Split(LONE2, {}), Whole(Probe(1, PROBE_OK)), WINDOW, Lost());
    Acts(Split(Boot([true, true]), {}), Whole(Probe(0, PROBE_OK)), [Whole(Probe(1, PROBE_OK))] + WINDOW, Lost());
    assert BIND2 + WINDOW
        == [Whole(Probe(0, PROBE_OK))] + ([Whole(Probe(1, PROBE_OK))] + WINDOW);
  }
}
