/**
 * What each entry point of the protocol achieves, on its inputs: exactly when it succeeds, what
 * it then changes, and what a failure leaves alone.
 */
module Effects {
  import opened Common
  import opened Slots
  import opened Protocol
  import opened ProtocolCore
  import opened ProtocolSafety
  import opened ProtocolResults

  // ---------- Switching one domain ----------

  /** A notifier acts on d, finds a fast clock and cannot lower it. */
  predicate Vetoes(s: St, d: DevId, wr: Err)
    requires WF(s)
  {
    Hooked(s, d) && s.clk != SAFE_RATE && wr != 0
  }

  lemma NotifyExact(s: St, d: DevId, wr: Err)
    requires WF(s)
    ensures Notify(s, d, wr).1 == if Vetoes(s, d, wr) then wr else 0
    ensures Notify(s, d, wr).0.clk == if Hooked(s, d) && wr == 0 then SAFE_RATE else s.clk
    ensures Notify(s, d, wr).0.reqRate == if Hooked(s, d) then SAFE_RATE else s.reqRate
    ensures Notify(s, d, wr).0.dom == s.dom && Notify(s, d, wr).0.log == s.log
  {
  }

  /** d's domain has changed its state once, at the rate `clk`, and no other domain has. */
  predicate Switches(s: St, t: St, d: DevId)
    requires WF(s) && d < |s.dom|
  {
    && t.dom == s.dom[d := s.dom[d].(on := !s.dom[d].on)]
    && t.log == s.log + [Switch(d, t.clk, Hooked(s, d))]
  }

  /** A switch happens unless a veto is given and obeyed. */
  lemma FlipExact(s: St, d: DevId, wr: Err, honour: bool)
    requires WF(s) && d < |s.dom|
    ensures var (t, veto) := Flip(s, d, wr, honour); var refused := honour && Vetoes(s, d, wr);
      && veto == (if refused then wr else 0)
      && t.clk == (if Hooked(s, d) && wr == 0 then SAFE_RATE else s.clk)
      && t.reqRate == (if Hooked(s, d) then SAFE_RATE else s.reqRate)
      && if refused then t.dom == s.dom && t.log == s.log else Switches(s, t, d)
  {
    NotifyExact(s, d, wr);
  }

  // ---------- Resuming and holding ----------

  /** Nothing in the resume of d fails. */
  predicate Resumes(s: St, d: DevId, e: PmEnv)
    requires WF(s) && d < |s.dom|
  {
    e.before == 0 && (s.dom[d].on || (!Vetoes(s, d, e.wr) && e.after == 0))
  }

  /**
   * A resume succeeds exactly when nothing in it fails, and leaves its domain on; a failure
   * leaves every domain as it was.
   */
  lemma PowerUpExact(s: St, d: DevId, e: PmEnv)
    requires WF(s) && d < |s.dom|
    ensures var (t, err) := PowerUp(s, d, e);
      && (err == 0 <==> Resumes(s, d, e))
      && (err == 0 ==> t.dom == s.dom[d := s.dom[d].(on := true)])
      && (err == 0 && !s.dom[d].on ==> t.log == s.log + [Switch(d, t.clk, Hooked(s, d))])
      && (err < 0 ==> t.dom == s.dom && (err == e.before || err == e.wr || err == e.after))
      && (s.dom[d].on || e.before < 0 ==> t == s)
  {
    FlipExact(s, d, e.wr, true);
    var s1 := Flip(s, d, e.wr, true).0;
    HookedSame(s, s1, d);
    FlipExact(s1, d, e.wr2, true);
  }

  /** Every live core from slot i on resumes. */
  predicate AllResume(s: St, i: nat, e: seq<PmEnv>)
    requires WF(s) && |e| == |s.dev|
  {
    forall j :: i <= j < |s.dev| && s.dev[j].Some? ==> Resumes(s, s.dev[j].value, e[j])
  }

  lemma ResumesAgain(s: St, c: nat, e: seq<PmEnv>)
    requires WF(s) && |e| == |s.dev| && c < |s.dev| && s.dev[c].Some?
    requires s.clk == SAFE_RATE && Resumes(s, s.dev[c].value, e[c])
    ensures var t := PowerUp(s, s.dev[c].value, e[c]).0;
      t.clk == SAFE_RATE && (AllResume(t, c + 1, e) <==> AllResume(s, c + 1, e))
  {
    var d := s.dev[c].value;
    PowerUpExact(s, d, e[c]);
    PowerUpWakes(s, d, e[c]);
    var t := PowerUp(s, d, e[c]).0;
    forall j | c + 1 <= j < |s.dev| && s.dev[j].Some?
      ensures Resumes(t, s.dev[j].value, e[j]) == Resumes(s, s.dev[j].value, e[j])
    {
      assert s.dev[j] != s.dev[c];
    }
  }

  /** From a safe clock a hold gets through exactly when every live core resumes, at any holes. */
  lemma {:induction false} WakeExact(s: St, i: nat, e: seq<PmEnv>)
    requires WF(s) && |e| == |s.dev| && i <= |s.dev| && s.clk == SAFE_RATE
    ensures WakeFrom(s, i, e).1 == 0 <==> AllResume(s, i, e)
    decreases |s.dev| - i
  {
    if i < |s.dev| {
      if s.dev[i].None? {
        WakeExact(s, i + 1, e);
        assert AllResume(s, i, e) <==> AllResume(s, i + 1, e);
      } else {
        PowerUpExact(s, s.dev[i].value, e[i]);
        if Resumes(s, s.dev[i].value, e[i]) {
          ResumesAgain(s, i, e);
          WakeExact(PowerUp(s, s.dev[i].value, e[i]).0, i + 1, e);
          assert AllResume(s, i, e) <==> AllResume(s, i + 1, e);
        }
      }
    }
  }

  lemma {:induction false} AwakeExact(s: St, i: nat, e: seq<PmEnv>)
    requires WF(s) && |e| == |s.dev| && i <= |s.dev| && Awake(s)
    ensures WakeFrom(s, i, e).1 == 0 <==> AllResume(s, i, e)
    decreases |s.dev| - i
  {
    if i < |s.dev| {
      AwakeExact(s, i + 1, e);
      if s.dev[i].Some? {
        PowerUpExact(s, s.dev[i].value, e[i]);
      }
      assert AllResume(s, i, e)
        <==> AllResume(s, i + 1, e) && (s.dev[i].Some? ==> Resumes(s, s.dev[i].value, e[i]));
    }
  }

  /** In every state of a trusted run a hold succeeds exactly when each live core's own resume does. */
  lemma HoldExact(s: St, e: seq<PmEnv>)
    requires Inv(s) && |e| == |s.dev|
    ensures HoldAll(s, e).1 == 0 <==> AllResume(s, 0, e)
  {
    if s.clk == SAFE_RATE {
      WakeExact(s, 0, e);
    } else {
      AwakeExact(s, 0, e);
    }
  }

  /** In any state a hold fails only with the error of a live core's own resume. */
  lemma {:induction false} FailingHold(s: St, i: nat, e: seq<PmEnv>) returns (c: nat)
    requires WF(s) && |e| == |s.dev| && i <= |s.dev| && WakeFrom(s, i, e).1 < 0
    ensures i <= c < |s.dev| && s.dev[c].Some?
    ensures WakeFrom(s, i, e).1 in {e[c].before, e[c].wr, e[c].after}
    decreases |s.dev| - i
  {
    if s.dev[i].None? {
      c := FailingHold(s, i + 1, e);
    } else {
      PowerUpExact(s, s.dev[i].value, e[i]);
      var (s1, err) := PowerUp(s, s.dev[i].value, e[i]);
      if err < 0 {
        c := i;
      } else {
        c := FailingHold(s1, i + 1, e);
      }
    }
  }

  // ---------- Suspending ----------

  /** The suspend is not refused: the core is idle and its safe-rate write works or is not its to do. */
  predicate Suspends(s: St, idle: bool, wr: Err) {
    idle && (s.owner.None? || wr == 0)
  }

  /**
   * A suspend takes the domain off, with one switch, exactly when it is not refused; refused, it
   * changes nothing.
   */
  lemma SuspendExact(s: St, d: DevId, idle: bool, wr: Err, wr2: Err)
    requires WF(s) && d < |s.dom| && s.dom[d].on
    ensures var t := PowerDown(s, d, idle, wr, wr2);
      && (!t.dom[d].on <==> Suspends(s, idle, wr))
      && (!Suspends(s, idle, wr) ==> t == s)
      && (Suspends(s, idle, wr) ==>
            && Switches(s, t, d)
            && t.clk == (if s.owner.Some? then SAFE_RATE else s.clk)
            && t.reqRate == (if Hooked(s, d) then SAFE_RATE else s.reqRate))
  {
    var (s1, err) := SuspendCb(s, idle, wr);
    HookedSame(s, s1, d);
    FlipExact(s1, d, wr2, true);
  }

  /** A runtime suspend of a bound idle core, and a forced one, end as their inputs say. */
  lemma RuntimeOffExact(s: St, x: Step)
    requires WF(s) && Enabled(s, x) && (x.RuntimeOff? || x.ForcedOff?)
    ensures x.d < |s.dom|
    ensures !Next(s, x).dom[x.d].on <==> x.idle && (s.owner.None? || x.wr == 0)
    ensures Next(s, x).dom[x.d].on ==> Next(s, x) == s
    ensures !Next(s, x).dom[x.d].on ==> Next(s, x).log == s.log + [Switch(x.d, Next(s, x).clk, Hooked(s, x.d))]
  {
    SuspendExact(s, x.d, x.idle, x.wr, x.wr2);
  }

  // ---------- Rate requests ----------

  /** Every slot of the board is guarded, as far as the driver can count. */
  predicate GuardsPass(s: St, freq: nat) {
    freq > SAFE_RATE ==> !s.unsafe && AllGuarded(s)
  }

  /** No guard refuses the request. */
  predicate Permitted(s: St, freq: nat, e: TargetEnv) {
    && GuardsPass(s, freq)
    && (freq > HIGH_RATE ==> s.reg && e.uv >= VOLT_FOR_HIGH)
  }

  /** The request does what it asks, on its inputs. */
  predicate Succeeds(s: St, freq: nat, e: TargetEnv)
    requires WF(s) && |e.pm| == |s.dev|
  {
    && e.oppErr == 0 && s.owner.Some?
    && (EarlyExit(s, freq) || (Permitted(s, freq, e) && HoldAll(s, e.pm).1 == 0 && e.wr == 0))
  }

  /** What a change of rate ends with, in the caller's view. */
  lemma ChangeRateExact(s: St, freq: nat, e: TargetEnv)
    requires WF(s) && |e.pm| == |s.dev|
    ensures var r := ChangeRate(s, freq, e); var held := HoldAll(s, e.pm).1 == 0;
      && (r.ret == 0 <==> held && e.wr == 0)
      && (r.ret == 0 ==> r.freq == e.got && r.st.clk == e.got && r.st.reqRate == freq)
      && (r.ret == 0 ==> r.st.refsHeld == (freq > SAFE_RATE))
      && (r.ret != 0 ==> r.freq == freq && r.ret == if held then e.wr else HoldAll(s, e.pm).1)
      && (r.ret != 0 ==> r.st.reqRate == HoldAll(s, e.pm).0.reqRate && r.st.clk == HoldAll(s, e.pm).0.clk)
  {
  }

  /**
   * A request returns 0 exactly when it succeeds on its inputs. It then reports the rate the
   * hardware really runs at; a failing one reports the rate it was asked for.
   */
  lemma TargetExact(s: St, freq: nat, e: TargetEnv)
    requires WF(s) && |e.pm| == |s.dev|
    ensures var r := Target(s, freq, e);
      && (r.ret == 0 <==> Succeeds(s, freq, e))
      && (r.ret == 0 ==> r.freq == r.st.clk && r.st.reqRate == freq)
      && (r.ret == 0 && !EarlyExit(s, freq) ==> r.st.clk == e.got && r.st.refsHeld == (freq > SAFE_RATE))
      && (r.ret != 0 ==> r.freq == freq && r.ret < 0)
  {
    if e.oppErr == 0 && s.owner.Some? && !EarlyExit(s, freq) {
      ChangeRateExact(s, freq, e);
    }
  }

  /** Each refusal has its own code, in the order of the checks, and changes nothing. */
  lemma RefusalExact(s: St, freq: nat, e: TargetEnv)
    requires WF(s) && |e.pm| == |s.dev| && !EarlyExit(s, freq)
    ensures var r := Target(s, freq, e);
      && (e.oppErr != 0 ==> r.ret == e.oppErr)
      && (e.oppErr == 0 && s.owner.None? ==> r.ret == ENODEV)
      && (e.oppErr == 0 && s.owner.Some? && !GuardsPass(s, freq) ==> r.ret == EAGAIN)
      && (e.oppErr == 0 && s.owner.Some? && GuardsPass(s, freq) && !Permitted(s, freq, e) ==> r.ret == EPERM)
      && (e.oppErr != 0 || s.owner.None? || !Permitted(s, freq, e) ==> r.st == s)
  {
  }

  /** A failing request leaves clock and books where its wake-ups left them: as before, or safe. */
  lemma FailedRequest(s: St, freq: nat, e: TargetEnv)
    requires WF(s) && |e.pm| == |s.dev| && Target(s, freq, e).ret != 0
    ensures var t := Target(s, freq, e).st;
      && (t.clk == s.clk || t.clk == SAFE_RATE) && (t.reqRate == s.reqRate || t.reqRate == SAFE_RATE)
  {
    WakeFromWakes(s, 0, e.pm);
    TargetExact(s, freq, e);
    if Target(s, freq, e).st != s {
      ChangeRateExact(s, freq, e);
    }
  }

  /** In every state of a trusted run: full cover, the voltage, each core's own resume, and the write. */
  lemma TargetSucceeds(s: St, freq: nat, e: TargetEnv)
    requires Inv(s) && |e.pm| == |s.dev| && e.oppErr == 0 && s.owner.Some? && !EarlyExit(s, freq)
    ensures Target(s, freq, e).ret == 0 <==>
      && (freq > SAFE_RATE ==> Covered(s))
      && (freq > HIGH_RATE ==> s.reg && e.uv >= VOLT_FOR_HIGH)
      && AllResume(s, 0, e.pm) && e.wr == 0
  {
    TargetExact(s, freq, e);
    HoldExact(s, e.pm);
    GuardedMeansCovered(s);
  }

  /**
   * From any books, clock and references, one request that succeeds on its inputs, its write
   * exact, sets clock and books to the requested rate; any number of further requests for it
   * then touch nothing, not even a runtime-PM reference.
   */
  lemma HealsThenQuiet(s: St, freq: nat, e: TargetEnv, es: seq<TargetEnv>)
    requires WF(s) && |e.pm| == |s.dev| && freq >= SAFE_RATE
    requires forall k :: 0 <= k < |es| ==> |es[k].pm| == |s.dev|
    requires Succeeds(s, freq, e) && (EarlyExit(s, freq) || e.got == freq)
    ensures var t := Target(s, freq, e).st;
      && WF(t) && t.dev == s.dev && t.clk == freq && t.reqRate == freq
      && (t == s || t.refsHeld == (freq > SAFE_RATE))
      && Target(s, freq, e).freq == freq
      && Ticks(t, freq, es) == t
      && forall k :: 0 <= k < |es| && es[k].oppErr == 0 ==> Target(t, freq, es[k]).ret == 0
  {
    TargetExact(s, freq, e);
    TargetGuards(s, freq, e);
    TicksQuiet(Target(s, freq, e).st, freq, es);
  }

  // ---------- Jobs ----------

  /** The start resumes its core and attaches its address space. */
  predicate Starts(s: St, d: DevId, e: PmEnv, attachErr: Err)
    requires WF(s) && d < |s.dom|
  {
    Resumes(s, d, e) && attachErr == 0
  }

  /**
   * A start takes one reference on its own core, in flight if nothing failed and leaked if
   * something did; no other core's count, job or power state moves.
   */
  lemma StartExact(s: St, d: DevId, e: PmEnv, attachErr: Err)
    requires WF(s) && d < |s.dom|
    ensures var t := StartJob(s, d, e, attachErr); var clean := Starts(s, d, e, attachErr);
      && |t.dom| == |s.dom| && t.dev == s.dev
      && t.dom[d].usage == s.dom[d].usage + 1
      && (t.dom[d].inFlight <==> clean || s.dom[d].inFlight)
      && t.dom[d].leaked == s.dom[d].leaked + (if clean then 0 else 1)
      && (clean ==> t.dom[d].on)
      && forall x :: 0 <= x < |s.dom| && x != d ==> t.dom[x] == s.dom[x]
  {
    PowerUpExact(s, d, e);
  }

  /** A completion gives that reference back and touches nothing else. */
  lemma EndExact(s: St, d: DevId)
    requires WF(s) && Enabled(s, JobEnd(d))
    ensures var t := Next(s, JobEnd(d));
      && t == s.(dom := t.dom) && |t.dom| == |s.dom|
      && t.dom[d].usage == s.dom[d].usage - 1 && !t.dom[d].inFlight
      && t.dom[d].leaked == s.dom[d].leaked && t.dom[d].on == s.dom[d].on
      && forall x :: 0 <= x < |s.dom| && x != d ==> t.dom[x] == s.dom[x]
  {
  }

  /** After the step core d has a job in flight; `before` says whether it had one. */
  predicate InFlightAfter(s: St, x: Step, d: DevId, before: bool)
    requires WF(s) && Enabled(s, x)
  {
    if x.JobStart? && x.d == d then before || Starts(s, d, x.pm, x.attachErr)
    else if x.JobEnd? && x.d == d then false
    else before
  }

  /** The last start or completion of core d in the run was a clean start. */
  predicate LastJobRuns(s: St, xs: seq<Step>, d: DevId, before: bool)
    decreases |xs|
  {
    if |xs| == 0 || !WF(s) || !Enabled(s, xs[0]) then before
    else LastJobRuns(Next(s, xs[0]), xs[1..], d, InFlightAfter(s, xs[0], d, before))
  }

  lemma StepInFlight(s: St, x: Step, d: DevId)
    requires WF(s) && Enabled(s, x) && d < |s.dom|
    ensures d < |Next(s, x).dom| && (Next(s, x).dom[d].inFlight <==> InFlightAfter(s, x, d, s.dom[d].inFlight))
  {
    if x.JobStart? {
      StartExact(s, x.d, x.pm, x.attachErr);
    } else if x.JobEnd? {
      EndExact(s, x.d);
    } else {
      OnlyJobsTouchJobs(s, x);
    }
  }

  lemma {:induction false} RunInFlight(s: St, xs: seq<Step>, t: St, d: DevId)
    requires CoreInv(s) && Run(s, xs, t) && d < |s.dom|
    ensures d < |t.dom| && (t.dom[d].inFlight <==> LastJobRuns(s, xs, d, s.dom[d].inFlight))
    decreases |xs|
  {
    if |xs| > 0 {
      StepKeepsCore(s, xs[0]);
      StepInFlight(s, xs[0], d);
      RunInFlight(Next(s, xs[0]), xs[1..], t, d);
    }
  }

  /**
   * Conservation, from the history alone: over every run in which job starts succeed, a live
   * core's usage count is one if the boost is held plus one if its last start has not completed.
   */
  lemma PmConservedByHistory(on: seq<bool>, xs: seq<Step>, t: St)
    requires Run(Boot(on), xs, t) && CleanRun(Boot(on), xs)
    ensures WF(t) && |t.dom| == |on|
    ensures forall d :: 0 <= d < |on| && IsBound(t, d) ==>
      t.dom[d].usage == (if t.refsHeld then 1 else 0) + (if LastJobRuns(Boot(on), xs, d, false) then 1 else 0)
    ensures forall d :: 0 <= d < |on| && !IsBound(t, d) ==> t.dom[d].usage == 0 && !LastJobRuns(Boot(on), xs, d, false)
  {
    PmConserved(on, xs, t);
    BootCore(on);
    RunKeepsCore(Boot(on), xs, t);
    forall d | 0 <= d < |on| ensures t.dom[d].inFlight <==> LastJobRuns(Boot(on), xs, d, false) {
      RunInFlight(Boot(on), xs, t, d);
    }
  }

  // ---------- Shutdown ----------

  /** A reboot writes the safe rate exactly when the owner goes down awake, and does nothing else. */
  lemma ShutdownExact(s: St, d: DevId, wr: Err)
    requires WF(s) && d < |s.dom|
    ensures var writes := s.owner.Some? && s.dev[s.owner.value] == Some(d) && s.dom[d].on && wr == 0;
      && Shutdown(s, d, wr) == s.(clk := if writes then SAFE_RATE else s.clk)
      && Next(s, Reboot(d, wr)) == s.(clk := if writes then SAFE_RATE else s.clk)
  {
    if s.owner.Some? && s.dev[s.owner.value] == Some(d) {
      LookupOwnSlot(s.dev, s.owner.value);
    }
  }
}
