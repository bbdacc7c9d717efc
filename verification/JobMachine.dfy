/**
 * One core's job path: the scheduler's run callback, the interrupt thread, the timeout reset
 * and the polling governor, interleaved at the granularity of single writes inside the
 * core's job lock.
 */
module JobMachine {
  import opened Common

  /** next: index of the next task; started: the tasks given to the hardware so far. */
  datatype Job = Job(count: nat, next: nat, started: seq<nat>, signals: nat)

  function StartTask(j: Job): Job {
    j.(next := j.next + 1, started := j.started + [j.next])
  }

  /** rocket_job_hw_submit: nothing while a reset is pending. */
  function Submit(j: Job, pending: bool): Job {
    if pending then j else StartTask(j)
  }

  /** The run callback, from its index check to its submit. */
  datatype Run = NotRunning | Checked(j: nat) | Ready(j: nat)

  /** Who is inside the job lock, and which write comes next. */
  datatype Lock =
    | Free
    | RunRecord | RunSubmit
    | IrqContinue | IrqSignal | IrqPut | IrqClear | IrqRecord
    | ResetPut | ResetClear | ResetRecord

  datatype Reset = NoReset | Asked | Stopped | Cleared

  datatype St = St(
    jobs: seq<Job>,
    inFlight: Option<nat>,
    pending: bool,
    pm: int,              // runtime-PM references of the job side
    leaked: nat,          // those of run callbacks that failed half-way
    start: nat,           // the meter's start stamp
    lock: Lock,
    run: Run,
    credit: bool,         // the scheduler's single credit
    reset: Reset)

  datatype Step =
    | Check(j: nat, failed: bool)      // failed: the job's finished fence carries an error
    | PowerOn(ok: bool)                // get_sync and the address-space attach
    | EnterRun
    | EnterIrq
    | EnterReset
    | Write(now: nat)                  // the lock holder's next write
    | Timeout
    | StopScheduler
    | FinishReset(creditBack: bool)
    | Poll(now: nat)

  predicate WF(s: St) {
    && (s.inFlight.Some? ==> s.inFlight.value < |s.jobs|)
    && (!s.run.NotRunning? ==> s.run.j < |s.jobs|)
    && (s.lock.RunRecord? || s.lock.RunSubmit? ==> s.run.Ready?)
    && (s.lock.IrqContinue? || s.lock.IrqSignal? ==> s.inFlight.Some?)
  }

  predicate Guard(s: St, x: Step)
    requires WF(s)
  {
    match x
    case Check(j, _) => j < |s.jobs| && s.run.NotRunning? && s.credit && (s.reset.NoReset? || s.reset.Asked?)
    case PowerOn(_) => s.run.Checked?
    case EnterRun => s.run.Ready? && s.lock.Free?
    case EnterIrq => s.lock.Free?
    case EnterReset => s.reset.Stopped? && s.lock.Free?
    case Write(now) => !s.lock.Free? && now > 0
    case Timeout => s.reset.NoReset?
    case StopScheduler => s.reset.Asked? && s.run.NotRunning?
    case FinishReset(_) => s.reset.Cleared? && s.lock.Free?
    case Poll(now) => now > 0
  }

  function SetJob(s: St, j: nat, b: Job): St
    requires j < |s.jobs|
  {
    s.(jobs := s.jobs[j := b])
  }

  function DoWrite(s: St, now: nat): St
    requires WF(s) && !s.lock.Free?
  {
    match s.lock
    case RunRecord => s.(start := if s.start == 0 then now else s.start, lock := RunSubmit)
    case RunSubmit => SetJob(s, s.run.j, Submit(s.jobs[s.run.j], s.pending)).(lock := Free, run := NotRunning)
    case IrqContinue => SetJob(s, s.inFlight.value, Submit(s.jobs[s.inFlight.value], s.pending)).(lock := Free)
    case IrqSignal =>
      var j := s.inFlight.value;
      SetJob(s, j, s.jobs[j].(signals := s.jobs[j].signals + 1)).(credit := true, lock := IrqPut)
    case IrqPut => s.(pm := s.pm - 1, lock := IrqClear)
    case IrqClear => s.(inFlight := None, lock := IrqRecord)
    case IrqRecord => s.(start := 0, lock := Free)
    case ResetPut => s.(pm := if s.inFlight.Some? then s.pm - 1 else s.pm, lock := ResetClear)
    case ResetClear => s.(inFlight := None, lock := ResetRecord)
    case ResetRecord => s.(start := 0, lock := Free, reset := Cleared)
  }

  function Next(s: St, x: Step): St
    requires WF(s) && Guard(s, x)
  {
    match x
    case Check(j, failed) =>
      if failed || s.jobs[j].next == s.jobs[j].count then s else s.(run := Checked(j), credit := false)
    case PowerOn(ok) =>
      if ok then s.(pm := s.pm + 1, run := Ready(s.run.j))
      else s.(pm := s.pm + 1, leaked := s.leaked + 1, run := NotRunning)
    case EnterRun => s.(inFlight := Some(s.run.j), lock := RunRecord)
    case EnterIrq =>
      if s.inFlight.None? then s
      else if s.jobs[s.inFlight.value].next < s.jobs[s.inFlight.value].count then s.(lock := IrqContinue)
      else s.(lock := IrqSignal)
    case EnterReset => s.(lock := ResetPut)
    case Write(now) => DoWrite(s, now)
    case Timeout => s.(pending := true, reset := Asked)
    case StopScheduler => s.(reset := Stopped)
    case FinishReset(back) => s.(pending := false, reset := NoReset, credit := s.credit || back)
    case Poll(now) => s.(start := if s.start != 0 then now else 0)
  }

  // ---------- The invariant ----------

  function UpTo(n: nat): (r: seq<nat>)
    ensures |r| == n && forall k :: 0 <= k < n ==> r[k] == k
  {
    if n == 0 then [] else UpTo(n - 1) + [n - 1]
  }

  /** Tasks start in order and once each, and the fence is signalled once, after the last. */
  predicate JobInv(j: Job) {
    && j.next <= j.count && j.started == UpTo(j.next)
    && j.signals <= 1 && (j.signals == 1 ==> j.next == j.count)
  }

  /** The lock holder has already dropped the in-flight job's reference. */
  predicate RefDropped(s: St) {
    s.lock.IrqClear? || s.lock.ResetClear?
  }

  predicate InRun(s: St) {
    s.lock.RunRecord? || s.lock.RunSubmit?
  }

  /** References the state itself accounts for. */
  function Refs(s: St): nat {
    (if s.inFlight.Some? && !RefDropped(s) then 1 else 0) + (if s.run.Ready? && !InRun(s) then 1 else 0)
  }

  /** The completion that gives the credit back is still inside the lock. */
  predicate Completing(s: St) {
    s.lock.IrqPut? || s.lock.IrqClear? || s.lock.IrqRecord?
  }

  predicate SchedulerInv(s: St)
    requires WF(s)
  {
    && (s.credit ==> s.run.NotRunning?)
    && (s.inFlight.Some? && !Completing(s) ==> !s.credit)
    && (!s.run.NotRunning? && s.inFlight.Some? ==> InRun(s) || Completing(s))
    && (InRun(s) ==> s.run.Ready? && s.inFlight == Some(s.run.j))
    && (!s.run.NotRunning? ==> s.jobs[s.run.j].next < s.jobs[s.run.j].count)
    && (!s.run.NotRunning? && !InRun(s) ==> s.inFlight != Some(s.run.j))
    && (s.reset.Stopped? || s.reset.Cleared? ==> s.run.NotRunning?)
    && (s.lock.ResetPut? || s.lock.ResetClear? || s.lock.ResetRecord? ==> s.reset.Stopped?)
    && (s.reset.Cleared? ==> s.inFlight.None?)
    && (s.pending <==> !s.reset.NoReset?)
  }

  predicate LockInv(s: St)
    requires WF(s)
  {
    && (s.lock.IrqContinue? ==> s.jobs[s.inFlight.value].next < s.jobs[s.inFlight.value].count)
    && (s.lock.IrqSignal? ==> s.jobs[s.inFlight.value].next == s.jobs[s.inFlight.value].count)
    && (s.lock.IrqPut? || s.lock.IrqClear? ==>
          && s.inFlight.Some? && s.jobs[s.inFlight.value].next == s.jobs[s.inFlight.value].count
          && s.jobs[s.inFlight.value].signals == 1)
    && (s.lock.IrqRecord? || s.lock.ResetRecord? ==> s.inFlight.None?)
    && (s.inFlight.Some? && !Completing(s) ==> s.jobs[s.inFlight.value].signals == 0)
    && (!s.run.NotRunning? ==> s.jobs[s.run.j].signals == 0)
  }

  /** Outside the lock the start stamp is set exactly while a job is in flight. */
  predicate MeterInv(s: St) {
    && (s.lock.RunRecord? ==> s.start == 0)
    && (!s.lock.RunRecord? && !s.lock.IrqRecord? && !s.lock.ResetRecord? ==> (s.start != 0 <==> s.inFlight.Some?))
  }

  predicate Inv(s: St) {
    && WF(s) && SchedulerInv(s) && LockInv(s) && MeterInv(s)
    && (forall j :: 0 <= j < |s.jobs| ==> JobInv(s.jobs[j]))
    && s.pm == s.leaked + Refs(s)
  }

  lemma StartKeepsJob(j: Job, pending: bool)
    requires JobInv(j) && j.next < j.count && j.signals == 0
    ensures JobInv(Submit(j, pending)) && Submit(j, pending).signals == 0
  {
  }

  lemma RunWriteKeepsInv(s: St, now: nat)
    requires Inv(s) && Guard(s, Write(now)) && InRun(s)
    ensures Inv(DoWrite(s, now))
  {
    StartKeepsJob(s.jobs[s.run.j], s.pending);
  }

  lemma ContinueKeepsInv(s: St, now: nat)
    requires Inv(s) && s.lock.IrqContinue?
    ensures Inv(DoWrite(s, now))
  {
    StartKeepsJob(s.jobs[s.inFlight.value], s.pending);
  }

  lemma CompleteKeepsInv(s: St, now: nat)
    requires Inv(s) && (s.lock.IrqSignal? || Completing(s))
    ensures Inv(DoWrite(s, now))
  {
  }

  lemma ResetKeepsInv(s: St, now: nat)
    requires Inv(s) && (s.lock.ResetPut? || s.lock.ResetClear? || s.lock.ResetRecord?)
    ensures Inv(DoWrite(s, now))
  {
  }

  lemma WriteKeepsInv(s: St, now: nat)
    requires Inv(s) && Guard(s, Write(now))
    ensures Inv(DoWrite(s, now)) && |DoWrite(s, now).jobs| == |s.jobs|
  {
    if InRun(s) {
      RunWriteKeepsInv(s, now);
    } else if s.lock.IrqContinue? {
      ContinueKeepsInv(s, now);
    } else if s.lock.IrqSignal? || Completing(s) {
      CompleteKeepsInv(s, now);
    } else {
      ResetKeepsInv(s, now);
    }
  }

  lemma SchedulerKeepsInv(s: St, x: Step)
    requires Inv(s) && Guard(s, x) && (x.Check? || x.PowerOn?)
    ensures Inv(Next(s, x)) && |Next(s, x).jobs| == |s.jobs|
  {
  }

  lemma EnterKeepsInv(s: St, x: Step)
    requires Inv(s) && Guard(s, x) && (x.EnterRun? || x.EnterIrq? || x.EnterReset?)
    ensures Inv(Next(s, x)) && |Next(s, x).jobs| == |s.jobs|
  {
  }

  lemma ResetPhaseKeepsInv(s: St, x: Step)
    requires Inv(s) && Guard(s, x) && (x.Timeout? || x.StopScheduler? || x.FinishReset?)
    ensures Inv(Next(s, x)) && |Next(s, x).jobs| == |s.jobs|
  {
  }

  lemma StepKeepsInv(s: St, x: Step)
    requires Inv(s) && Guard(s, x)
    ensures Inv(Next(s, x)) && |Next(s, x).jobs| == |s.jobs|
  {
    match x
    case Check(_, _) => SchedulerKeepsInv(s, x);
    case PowerOn(_) => SchedulerKeepsInv(s, x);
    case EnterRun => EnterKeepsInv(s, x);
    case EnterIrq => EnterKeepsInv(s, x);
    case EnterReset => EnterKeepsInv(s, x);
    case Write(now) => WriteKeepsInv(s, now);
    case Timeout => ResetPhaseKeepsInv(s, x);
    case StopScheduler => ResetPhaseKeepsInv(s, x);
    case FinishReset(_) => ResetPhaseKeepsInv(s, x);
    case Poll(_) =>
  }

  /** A core with its submitted jobs, nothing started, the scheduler free. */
  function Fresh(counts: seq<nat>): St {
    St(seq(|counts|, k requires 0 <= k < |counts| => Job(counts[k], 0, [], 0)),
       None, false, 0, 0, 0, Free, NotRunning, true, NoReset)
  }

  predicate Reaches(s: St, xs: seq<Step>, t: St)
    decreases |xs|
  {
    if |xs| == 0 then s == t else WF(s) && Guard(s, xs[0]) && Reaches(Next(s, xs[0]), xs[1..], t)
  }

  lemma {:induction false} ReachKeepsInv(s: St, xs: seq<Step>, t: St)
    requires Inv(s) && Reaches(s, xs, t)
    ensures Inv(t) && |t.jobs| == |s.jobs|
    decreases |xs|
  {
    if |xs| > 0 {
      StepKeepsInv(s, xs[0]);
      ReachKeepsInv(Next(s, xs[0]), xs[1..], t);
    }
  }

  lemma FreshInv(counts: seq<nat>)
    ensures Inv(Fresh(counts))
  {
  }

  // ---------- What every interleaving keeps ----------

  /** Across interrupts, skipped submits and resets. */
  lemma TasksInOrderOnce(counts: seq<nat>, xs: seq<Step>, t: St)
    requires Reaches(Fresh(counts), xs, t)
    ensures |t.jobs| == |counts|
    ensures forall j :: 0 <= j < |t.jobs| ==>
      && t.jobs[j].next <= t.jobs[j].count && |t.jobs[j].started| == t.jobs[j].next
      && (forall k :: 0 <= k < |t.jobs[j].started| ==> t.jobs[j].started[k] == k)
      && t.jobs[j].signals <= 1
      && (t.jobs[j].signals == 1 ==> |t.jobs[j].started| == t.jobs[j].count)
  {
    FreshInv(counts);
    ReachKeepsInv(Fresh(counts), xs, t);
  }

  /** Whenever the job lock is free, the meter and the in-flight job agree and references balance. */
  lemma BusyAgreesAndRefsBalance(counts: seq<nat>, xs: seq<Step>, t: St)
    requires Reaches(Fresh(counts), xs, t) && t.lock.Free?
    ensures t.start != 0 <==> t.inFlight.Some?
    ensures !t.run.Ready? ==> t.pm == t.leaked + (if t.inFlight.Some? then 1 else 0)
  {
    FreshInv(counts);
    ReachKeepsInv(Fresh(counts), xs, t);
  }

  predicate NoFinish(xs: seq<Step>) {
    forall k :: 0 <= k < |xs| ==> !xs[k].FinishReset?
  }

  lemma {:induction false} StoppedRuns(s: St, xs: seq<Step>, t: St)
    requires Inv(s) && Reaches(s, xs, t) && NoFinish(xs) && (s.reset.Stopped? || s.reset.Cleared?)
    ensures t.leaked == s.leaked && (t.reset.Stopped? || t.reset.Cleared?)
    decreases |xs|
  {
    if |xs| > 0 {
      StepKeepsInv(s, xs[0]);
      StoppedRuns(Next(s, xs[0]), xs[1..], t);
    }
  }

  /**
   * From the moment the scheduler is stopped, wherever an interrupt thread then is inside the
   * job lock, until the reset has cleared the core, however interrupts and polls interleave:
   * the job's reference, if it still has one, goes exactly once and the core ends idle.
   */
  lemma DroppedOnceWhoeverWins(s: St, xs: seq<Step>, t: St)
    requires Inv(s) && s.reset.Stopped?
    requires Reaches(s, xs, t) && NoFinish(xs) && t.reset.Cleared?
    ensures t.inFlight.None? && t.pm == s.pm - Refs(s)
    ensures Refs(s) == if s.inFlight.Some? && !RefDropped(s) then 1 else 0
    ensures t.lock.Free? ==> t.start == 0
  {
    ReachKeepsInv(s, xs, t);
    StoppedRuns(s, xs, t);
  }

  // ---------- Progress ----------

  function Left(jobs: seq<Job>): int {
    if |jobs| == 0 then 0 else Left(jobs[..|jobs| - 1]) + jobs[|jobs| - 1].count - jobs[|jobs| - 1].next
  }

  lemma {:induction false} LeftUpdate(jobs: seq<Job>, j: nat, b: Job)
    requires j < |jobs|
    ensures Left(jobs[j := b]) == Left(jobs) + (b.count - b.next) - (jobs[j].count - jobs[j].next)
  {
    var m := |jobs| - 1;
    if j == m {
      assert jobs[j := b][..m] == jobs[..m];
    } else {
      LeftUpdate(jobs[..m], j, b);
      assert jobs[j := b][..m] == jobs[..m][j := b];
    }
  }

  /** The step hands a task to the hardware. */
  predicate Starts(s: St, x: Step) {
    x.Write? && (s.lock.RunSubmit? || s.lock.IrqContinue?) && !s.pending
  }

  lemma StepLeft(s: St, x: Step)
    requires WF(s) && Guard(s, x)
    ensures Left(Next(s, x).jobs) == Left(s.jobs) - (if Starts(s, x) then 1 else 0)
  {
    if x.Write? {
      match s.lock
      case RunSubmit => LeftUpdate(s.jobs, s.run.j, Submit(s.jobs[s.run.j], s.pending));
      case IrqContinue => LeftUpdate(s.jobs, s.inFlight.value, Submit(s.jobs[s.inFlight.value], s.pending));
      case IrqSignal =>
        var j := s.inFlight.value;
        LeftUpdate(s.jobs, j, s.jobs[j].(signals := s.jobs[j].signals + 1));
      case _ =>
    }
  }

  function StartCount(s: St, xs: seq<Step>): nat
    decreases |xs|
  {
    if |xs| == 0 || !WF(s) || !Guard(s, xs[0]) then 0
    else (if Starts(s, xs[0]) then 1 else 0) + StartCount(Next(s, xs[0]), xs[1..])
  }

  lemma {:induction false} StartsCounted(s: St, xs: seq<Step>, t: St)
    requires Reaches(s, xs, t)
    ensures StartCount(s, xs) + Left(t.jobs) == Left(s.jobs)
    decreases |xs|
  {
    if |xs| > 0 {
      StepLeft(s, xs[0]);
      StartsCounted(Next(s, xs[0]), xs[1..], t);
    }
  }

  lemma {:induction false} LeftNonNegative(jobs: seq<Job>)
    requires forall j :: 0 <= j < |jobs| ==> JobInv(jobs[j])
    ensures Left(jobs) >= 0
  {
    if |jobs| > 0 {
      LeftNonNegative(jobs[..|jobs| - 1]);
    }
  }

  /** However often cores are interrupted and reset, no more tasks start than were submitted. */
  lemma StartsBounded(counts: seq<nat>, xs: seq<Step>, t: St)
    requires Reaches(Fresh(counts), xs, t)
    ensures StartCount(Fresh(counts), xs) <= Left(Fresh(counts).jobs)
    ensures StartCount(Fresh(counts), xs) == Left(Fresh(counts).jobs) - Left(t.jobs)
  {
    FreshInv(counts);
    ReachKeepsInv(Fresh(counts), xs, t);
    StartsCounted(Fresh(counts), xs, t);
    LeftNonNegative(t.jobs);
  }
}
