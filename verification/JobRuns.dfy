/**
 * What the job path achieves when nothing comes between its steps: a job runs all its tasks,
 * is signalled once and gives its core back; a failed start leaks its reference; a reset takes
 * the job off the core.
 */
module JobRuns {
  import opened Common
  import opened JobMachine

  ghost predicate Can(s: St, t: St) {
    exists xs :: Reaches(s, xs, t)
  }

  lemma Now(s: St)
    ensures Can(s, s)
  {
    assert Reaches(s, [], s);
  }

  lemma {:induction false} Append(s: St, xs: seq<Step>, t: St, ys: seq<Step>, u: St)
    requires Reaches(s, xs, t) && Reaches(t, ys, u)
    ensures Reaches(s, xs + ys, u)
    decreases |xs|
  {
    if |xs| == 0 {
      assert xs + ys == ys;
    } else {
      assert (xs + ys)[1..] == xs[1..] + ys;
      Append(Next(s, xs[0]), xs[1..], t, ys, u);
    }
  }

  lemma Then(s: St, t: St, x: Step, u: St)
    requires Can(s, t) && WF(t) && Guard(t, x) && Next(t, x) == u
    ensures Can(s, u)
  {
    var xs :| Reaches(s, xs, t);
    assert [x][1..] == [];
    assert Reaches(t, [x], u);
    Append(s, xs, t, [x], u);
  }

  /** The core is idle and the scheduler may start job j, which has tasks left. */
  predicate CanStart(s: St, j: nat) {
    && Inv(s) && s.inFlight.None? && s.lock.Free? && s.run.NotRunning? && s.credit && s.reset.NoReset?
    && j < |s.jobs| && s.jobs[j].next < s.jobs[j].count && s.jobs[j].signals == 0
  }

  /** Job j is in flight with its first k tasks started; a is the state it was started from. */
  function Running(a: St, j: nat, k: nat): St
    requires j < |a.jobs|
  {
    a.(jobs := a.jobs[j := a.jobs[j].(next := k, started := UpTo(k))],
       inFlight := Some(j), pm := a.pm + 1, start := 1, credit := false)
  }

  lemma StartRuns(a: St, j: nat)
    requires CanStart(a, j)
    ensures Can(a, Running(a, j, a.jobs[j].next + 1))
  {
    Now(a);
    var s1 := a.(run := Checked(j), credit := false);
    Then(a, a, Check(j, false), s1);
    var s2 := s1.(pm := a.pm + 1, run := Ready(j));
    Then(a, s1, PowerOn(true), s2);
    var s3 := s2.(inFlight := Some(j), lock := RunRecord);
    Then(a, s2, EnterRun, s3);
    var s4 := s3.(start := 1, lock := RunSubmit);
    Then(a, s3, Write(1), s4);
    Then(a, s4, Write(1), Running(a, j, a.jobs[j].next + 1));
  }

  lemma {:induction false} TasksRun(a: St, j: nat, k: nat)
    requires CanStart(a, j) && a.jobs[j].next < k <= a.jobs[j].count
    ensures Can(a, Running(a, j, k))
    decreases k
  {
    if k == a.jobs[j].next + 1 {
      StartRuns(a, j);
    } else {
      TasksRun(a, j, k - 1);
      var s := Running(a, j, k - 1);
      var s1 := s.(lock := IrqContinue);
      Then(a, s, EnterIrq, s1);
      assert s.jobs[j := Submit(s.jobs[j], false)] == Running(a, j, k).jobs;
      Then(a, s1, Write(1), Running(a, j, k));
    }
  }

  /** The job has run and the core is as it was. */
  function Done(a: St, j: nat): St
    requires j < |a.jobs|
  {
    a.(jobs := a.jobs[j := Job(a.jobs[j].count, a.jobs[j].count, UpTo(a.jobs[j].count), 1)])
  }

  /**
   * Undisturbed, a job runs to its end: every task started in order, the fence signalled once,
   * its reference returned, the meter stopped, the scheduler's credit back.
   */
  lemma JobCompletes(a: St, j: nat)
    requires CanStart(a, j)
    ensures Can(a, Done(a, j))
  {
    TasksRun(a, j, a.jobs[j].count);
    var s := Running(a, j, a.jobs[j].count);
    var s1 := s.(lock := IrqSignal);
    Then(a, s, EnterIrq, s1);
    var s2 := s1.(jobs := Done(a, j).jobs, credit := true, lock := IrqPut);
    assert s.jobs[j := s.jobs[j].(signals := 1)] == s2.jobs;
    Then(a, s1, Write(1), s2);
    var s3 := s2.(pm := a.pm, lock := IrqClear);
    Then(a, s2, Write(1), s3);
    var s4 := s3.(inFlight := None, lock := IrqRecord);
    Then(a, s3, Write(1), s4);
    Then(a, s4, Write(1), Done(a, j));
  }

  /** The run callback begins exactly when the job carries no error and has tasks left; else it does nothing. */
  lemma CheckExact(s: St, j: nat, failed: bool)
    requires WF(s) && Guard(s, Check(j, failed))
    ensures j < |s.jobs|
    ensures var begins := !failed && s.jobs[j].next != s.jobs[j].count;
      Next(s, Check(j, failed)) == if begins then s.(run := Checked(j), credit := false) else s
  {
  }

  /** A start whose resume or attach fails takes its reference, leaks it, and starts nothing. */
  lemma FailedStartRuns(a: St, j: nat)
    requires CanStart(a, j)
    ensures Can(a, a.(pm := a.pm + 1, leaked := a.leaked + 1, credit := false))
  {
    Now(a);
    var s1 := a.(run := Checked(j), credit := false);
    Then(a, a, Check(j, false), s1);
    Then(a, s1, PowerOn(false), a.(pm := a.pm + 1, leaked := a.leaked + 1, credit := false));
  }

  /** A timeout of a running job takes it off its core with its reference; its tasks stay as started. */
  lemma ResetRuns(a: St, j: nat, k: nat)
    requires CanStart(a, j) && a.jobs[j].next < k <= a.jobs[j].count
    ensures Can(a, a.(jobs := Running(a, j, k).jobs))
  {
    TasksRun(a, j, k);
    var s := Running(a, j, k);
    var s1 := s.(pending := true, reset := Asked);
    Then(a, s, Timeout, s1);
    var s2 := s1.(reset := Stopped);
    Then(a, s1, StopScheduler, s2);
    var s3 := s2.(lock := ResetPut);
    Then(a, s2, EnterReset, s3);
    var s4 := s3.(pm := a.pm, lock := ResetClear);
    Then(a, s3, Write(1), s4);
    var s5 := s4.(inFlight := None, lock := ResetRecord);
    Then(a, s4, Write(1), s5);
    var s6 := s5.(start := 0, lock := Free, reset := Cleared);
    Then(a, s5, Write(1), s6);
    Then(a, s6, FinishReset(true), a.(jobs := Running(a, j, k).jobs));
  }

  /** A poll moves the start stamp of a running core and leaves an idle one's at 0. */
  lemma PollExact(s: St, now: nat)
    requires WF(s) && Guard(s, Poll(now))
    ensures Next(s, Poll(now)) == s.(start := if s.start != 0 then now else 0)
  {
  }

  // ---------- Completion and signal ----------

  /** The write that takes a completed job off its core. */
  predicate Completes(s: St, x: Step) {
    x.Write? && s.lock.IrqClear?
  }

  /** In any run: a job that leaves its core by completion has been signalled, once, after its last task. */
  lemma CompletionSignalled(counts: seq<nat>, xs: seq<Step>, t: St, x: Step)
    requires Reaches(Fresh(counts), xs, t) && WF(t) && Guard(t, x) && Completes(t, x)
    ensures t.inFlight.Some? && Next(t, x).inFlight.None?
    ensures var b := Next(t, x).jobs[t.inFlight.value]; b.signals == 1 && b.started == UpTo(b.count)
  {
    FreshInv(counts);
    ReachKeepsInv(Fresh(counts), xs, t);
  }

  /** A signal, once given, is given. */
  lemma {:induction false} SignalsStay(s: St, xs: seq<Step>, t: St, j: nat)
    requires Inv(s) && Reaches(s, xs, t) && j < |s.jobs|
    ensures |t.jobs| == |s.jobs| && t.jobs[j].signals >= s.jobs[j].signals
    decreases |xs|
  {
    if |xs| > 0 {
      StepKeepsInv(s, xs[0]);
      SignalsStay(Next(s, xs[0]), xs[1..], t, j);
    }
  }
}
