/**
 * The job path of one core as the code runs it: jobs and cores are objects whose fields the
 * scheduler callback, the interrupt thread and the reset change in place.
 */
module Job {
  import opened Common
  import BM = BusyMeter
  import JM = JobMachine

  /** struct rocket_job: its task index; `started` and `signals` record what the hardware saw. */
  class RocketJob {
    const count: nat
    var next: nat
    ghost var started: seq<nat>
    ghost var signals: nat

    ghost function View(): JM.Job
      reads this
    {
      JM.Job(count, next, started, signals)
    }

    constructor (count: nat)
      ensures View() == JM.Job(count, 0, [], 0)
    {
      this.count, next, started, signals := count, 0, [], 0;
    }
  }

  /** struct rocket_core, the fields the job path shares with the PM core and the meter. */
  class RocketCore {
    const index: nat
    const meter: BM.BusyTime
    var inFlight: RocketJob?
    var resetPending: bool
    var pm: int

    /** Outside the job lock the meter runs exactly while a job is in flight. */
    ghost predicate Valid()
      reads this, meter, meter.slots
    {
      && meter.Valid()
      && (index < MAX_NB ==> (meter.slots[index].start != 0 <==> inFlight != null))
    }

    constructor (index: nat, meter: BM.BusyTime)
      requires meter.Valid() && (index < MAX_NB ==> meter.slots[index].start == 0)
      ensures Valid() && inFlight == null && !resetPending && pm == 0
    {
      this.index, this.meter := index, meter;
      inFlight, resetPending, pm := null, false, 0;
    }

    /** Hands the job's next task to the hardware, unless a reset is pending. */
    method HwSubmit(job: RocketJob)
      requires job.next < job.count
      modifies job
      ensures job.View() == JM.Submit(old(job.View()), resetPending)
    {
      if resetPending {
        return;
      }
      var task := job.next;
      job.next := job.next + 1;
      job.started := job.started + [task];
    }

    /**
     * The scheduler's run callback; its credit limit of one means no job is in flight.
     * fence says whether a hardware fence is returned. A reference taken before a failure stays.
     */
    method Run(job: RocketJob, finishedErr: bool, fenceErr: bool, pmErr: int, attachErr: int, now: BM.Word)
      returns (fence: bool)
      requires Valid() && inFlight == null && now != 0 && job.next <= job.count
      modifies this`inFlight, this`pm, meter.slots, job
      ensures Valid()
      ensures fence <==> !finishedErr && old(job.next) != job.count && !fenceErr
      ensures pm == old(pm) + (if fence then 1 else 0)
      ensures inFlight == if fence && pmErr >= 0 && attachErr >= 0 then job else null
      ensures job.View() == if inFlight == job then JM.Submit(old(job.View()), resetPending) else old(job.View())
      ensures meter.View()
           == if inFlight == job then BM.Apply(old(meter.View()), BM.Busy(index, now)) else old(meter.View())
    {
      if finishedErr || job.next == job.count {
        return false;
      }
      if fenceErr {
        return false;
      }
      pm := pm + 1;
      if pmErr < 0 {
        return true;
      }
      if attachErr < 0 {
        return true;
      }
      inFlight := job;
      meter.RecordBusy(index, now);
      HwSubmit(job);
      return true;
    }

    /** The interrupt thread: continue the job, or complete it. */
    method HandleIrq(now: BM.Word)
      requires Valid() && (inFlight != null ==> inFlight.next <= inFlight.count)
      modifies this`inFlight, this`pm, meter.slots, inFlight
      ensures Valid()
      ensures old(inFlight) == null ==> inFlight == null && pm == old(pm) && meter.View() == old(meter.View())
      ensures old(inFlight) != null && old(inFlight.next) < old(inFlight).count ==>
        && inFlight == old(inFlight) && pm == old(pm) && meter.View() == old(meter.View())
        && inFlight.View() == JM.Submit(old(inFlight.View()), resetPending)
      ensures old(inFlight) != null && old(inFlight.next) == old(inFlight).count ==>
        && inFlight == null && pm == old(pm) - 1
        && old(inFlight).View() == old(inFlight.View()).(signals := old(inFlight.signals) + 1)
        && meter.View() == BM.Apply(old(meter.View()), BM.Idle(index, now))
    {
      if inFlight != null {
        if inFlight.next < inFlight.count {
          HwSubmit(inFlight);
          return;
        }
        inFlight.signals := inFlight.signals + 1;
        pm := pm - 1;
        inFlight := null;
        meter.RecordIdle(index, now);
      }
    }

    /** Drops whatever was in flight, with its reference, and lets the core run again. */
    method Reset(now: BM.Word)
      requires Valid()
      modifies this, meter.slots
      ensures Valid() && !resetPending
      ensures !old(resetPending) ==> inFlight == old(inFlight) && pm == old(pm) && meter.View() == old(meter.View())
      ensures old(resetPending) ==>
        && inFlight == null && pm == old(pm) - (if old(inFlight) != null then 1 else 0)
        && meter.View() == BM.Apply(old(meter.View()), BM.Idle(index, now))
    {
      if !resetPending {
        return;
      }
      if inFlight != null {
        pm := pm - 1;
      }
      inFlight := null;
      meter.RecordIdle(index, now);
      resetPending := false;
    }

    method TimedOut(now: BM.Word)
      requires Valid()
      modifies this, meter.slots
      ensures Valid() && !resetPending && inFlight == null
      ensures pm == old(pm) - (if old(inFlight) != null then 1 else 0)
      ensures meter.View() == BM.Apply(old(meter.View()), BM.Idle(index, now))
    {
      resetPending := true;
      Reset(now);
    }
  }
}
