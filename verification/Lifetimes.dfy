/**
 * Reference lifetimes of a file's address-space domain and of its jobs, for submissions that
 * get as far as taking the domain reference and buffers whose creation succeeded.
 */
module Lifetimes {
  // ---------- krefs ----------

  /** struct kref with its release: `releases` counts how often the release function ran. */
  class Kref {
    var count: nat
    ghost var releases: nat

    constructor ()
      ensures count == 1 && releases == 0
    {
      count, releases := 1, 0;
    }

    method Get()
      requires count > 0
      modifies this`count
      ensures count == old(count) + 1
    {
      count := count + 1;
    }

    /** released says that the release function ran. */
    method Put() returns (released: bool)
      requires count > 0
      modifies this
      ensures count == old(count) - 1 && (released <==> count == 0)
      ensures releases == old(releases) + (if released then 1 else 0)
    {
      count := count - 1;
      released := count == 0;
      if released {
        releases := releases + 1;
      }
    }
  }

  /** rocket_job_put: the last put frees the job and gives its domain reference back. */
  method JobPut(job: Kref, domain: Kref) returns (freed: bool)
    requires job != domain && job.count > 0 && domain.count > 0
    modifies job, domain
    ensures job.count == old(job.count) - 1 && (freed <==> job.count == 0)
    ensures job.releases == old(job.releases) + (if freed then 1 else 0)
    ensures domain.count == old(domain.count) - (if freed then 1 else 0)
    ensures domain.releases == old(domain.releases) + (if freed && domain.count == 0 then 1 else 0)
  {
    freed := job.Put();
    if freed {
      var _ := domain.Put();
    }
  }

  /**
   * The tail of a submission, from the domain reference on. Pushed, the job lives on with the
   * scheduler's reference; refused, it is freed on the way out and the domain is as before.
   */
  method Submit(domain: Kref, pushErr: int) returns (job: Kref)
    requires domain.count > 0
    modifies domain
    ensures fresh(job) && domain.releases == old(domain.releases)
    ensures pushErr == 0 ==> job.count == 1 && job.releases == 0 && domain.count == old(domain.count) + 1
    ensures pushErr != 0 ==> job.count == 0 && job.releases == 1 && domain.count == old(domain.count)
  {
    job := new Kref();
    domain.Get();
    if pushErr == 0 {
      job.Get();
    }
    var _ := JobPut(job, domain);
  }

  /** A job that was pushed and then freed by the scheduler leaves the domain's count as it was. */
  method SubmitAndComplete(domain: Kref)
    requires domain.count > 0
    modifies domain
    ensures domain.count == old(domain.count) && domain.releases == old(domain.releases)
  {
    var job := Submit(domain, 0);
    var freed := JobPut(job, domain);
    assert freed && job.releases == 1;
  }

  // ---------- The life of one file's domain ----------

  /** Where a submission stands; a job is freed when its submitter and its scheduler are done. */
  datatype JobSt = JobSt(refs: nat, submitter: bool, scheduled: bool, frees: nat)

  datatype St = St(
    fileOpen: bool,
    buffers: set<nat>,
    jobs: map<nat, JobSt>,
    domRefs: nat,
    domFrees: nat)

  datatype Step =
    | CreateBuffer(b: nat)
    | FreeBuffer(b: nat)
    | TakeDomain(j: nat)        // the submission references the domain; its own count is 1
    | Push(j: nat, ok: bool)    // ok: the scheduler gets a reference of its own
    | SubmitterPut(j: nat)
    | SchedulerPut(j: nat)      // the scheduler's free callback
    | Close

  predicate LiveJob(s: St, j: nat) {
    j in s.jobs && s.jobs[j].frees == 0
  }

  predicate Guard(s: St, x: Step) {
    match x
    case CreateBuffer(b) => s.fileOpen && b !in s.buffers
    case FreeBuffer(b) => b in s.buffers
    case TakeDomain(j) => s.fileOpen && j !in s.jobs
    case Push(j, _) => LiveJob(s, j) && s.jobs[j].submitter && !s.jobs[j].scheduled
    case SubmitterPut(j) => j in s.jobs && s.jobs[j].submitter
    case SchedulerPut(j) => j in s.jobs && s.jobs[j].scheduled
    case Close => s.fileOpen
  }

  function GetDomain(s: St): St {
    s.(domRefs := s.domRefs + 1)
  }

  function PutDomain(s: St): St {
    if s.domRefs == 1 then s.(domRefs := 0, domFrees := s.domFrees + 1)
    else if s.domRefs == 0 then s
    else s.(domRefs := s.domRefs - 1)
  }

  /** rocket_job_put: the last holder's put runs the cleanup, which puts the domain. */
  function PutJob(s: St, j: nat, b: JobSt): St
    requires j in s.jobs
  {
    if b.refs == 1 then PutDomain(s.(jobs := s.jobs[j := b.(refs := 0, frees := b.frees + 1)]))
    else if b.refs == 0 then s.(jobs := s.jobs[j := b])
    else s.(jobs := s.jobs[j := b.(refs := b.refs - 1)])
  }

  function Next(s: St, x: Step): St
    requires Guard(s, x)
  {
    match x
    case CreateBuffer(b) => GetDomain(s.(buffers := s.buffers + {b}))
    case FreeBuffer(b) => PutDomain(s.(buffers := s.buffers - {b}))
    case TakeDomain(j) => GetDomain(s.(jobs := s.jobs[j := JobSt(1, true, false, 0)]))
    case Push(j, ok) =>
      if ok then s.(jobs := s.jobs[j := s.jobs[j].(refs := s.jobs[j].refs + 1, scheduled := true)]) else s
    case SubmitterPut(j) => PutJob(s, j, s.jobs[j].(submitter := false))
    case SchedulerPut(j) => PutJob(s, j, s.jobs[j].(scheduled := false))
    case Close => PutDomain(s.(fileOpen := false))
  }

  // ---------- The invariant ----------

  function LiveJobs(s: St): set<nat> {
    set j | j in s.jobs && s.jobs[j].frees == 0
  }

  function Bit(b: bool): nat {
    if b then 1 else 0
  }

  predicate JobInv(b: JobSt) {
    && b.refs == Bit(b.submitter) + Bit(b.scheduled)
    && b.frees == Bit(b.refs == 0)
  }

  /** Holders of the domain: the open file, the live buffers and the live jobs. */
  function Holders(s: St): nat {
    Bit(s.fileOpen) + |s.buffers| + |LiveJobs(s)|
  }

  predicate Inv(s: St) {
    && s.domRefs == Holders(s)
    && s.domFrees == Bit(s.domRefs == 0)
    && forall j :: j in s.jobs ==> JobInv(s.jobs[j])
  }

  /** A step that makes one holder fewer releases the domain exactly if that was the last. */
  lemma PutDomainExact(s: St)
    requires s.domRefs == Holders(s) + 1 && s.domFrees == 0
    ensures PutDomain(s).domRefs == Holders(s) && PutDomain(s).domFrees == Bit(Holders(s) == 0)
  {
    assert LiveJobs(PutDomain(s)) == LiveJobs(s);
  }

  lemma LiveJobsUpdate(s: St, j: nat, b: JobSt)
    ensures var t := s.(jobs := s.jobs[j := b]);
      LiveJobs(t) == if b.frees == 0 then LiveJobs(s) + {j} else LiveJobs(s) - {j}
  {
  }

  lemma PutJobKeepsInv(s: St, j: nat, b: JobSt)
    requires Inv(s) && j in s.jobs && b.refs == s.jobs[j].refs && b.frees == s.jobs[j].frees
    requires s.jobs[j].refs == Bit(b.submitter) + Bit(b.scheduled) + 1
    ensures Inv(PutJob(s, j, b))
  {
    var c := if b.refs == 1 then b.(refs := 0, frees := b.frees + 1) else b.(refs := b.refs - 1);
    var t := s.(jobs := s.jobs[j := c]);
    LiveJobsUpdate(s, j, c);
    assert j in LiveJobs(s);
    if b.refs == 1 {
      PutDomainExact(t);
      assert LiveJobs(PutDomain(t)) == LiveJobs(t);
    } else {
      assert LiveJobs(t) == LiveJobs(s);
    }
  }

  lemma BuffersKeepInv(s: St, x: Step)
    requires Inv(s) && Guard(s, x) && (x.CreateBuffer? || x.FreeBuffer?)
    ensures Inv(Next(s, x))
  {
    assert LiveJobs(Next(s, x)) == LiveJobs(s);
    if x.FreeBuffer? {
      var t := s.(buffers := s.buffers - {x.b});
      assert LiveJobs(t) == LiveJobs(s) && |s.buffers| == |t.buffers| + 1;
      PutDomainExact(t);
    }
  }

  lemma SubmitKeepsInv(s: St, x: Step)
    requires Inv(s) && Guard(s, x) && (x.TakeDomain? || x.Push?)
    ensures Inv(Next(s, x))
  {
    if x.TakeDomain? {
      LiveJobsUpdate(s, x.j, JobSt(1, true, false, 0));
      assert LiveJobs(Next(s, x)) == LiveJobs(s) + {x.j};
    } else if x.ok {
      LiveJobsUpdate(s, x.j, s.jobs[x.j].(refs := s.jobs[x.j].refs + 1, scheduled := true));
      assert LiveJobs(Next(s, x)) == LiveJobs(s);
    }
  }

  lemma CloseKeepsInv(s: St)
    requires Inv(s) && Guard(s, Close)
    ensures Inv(Next(s, Close))
  {
    var t := s.(fileOpen := false);
    assert LiveJobs(t) == LiveJobs(s) && LiveJobs(PutDomain(t)) == LiveJobs(s);
    PutDomainExact(t);
  }

  lemma StepKeepsInv(s: St, x: Step)
    requires Inv(s) && Guard(s, x)
    ensures Inv(Next(s, x))
  {
    match x
    case CreateBuffer(_) => BuffersKeepInv(s, x);
    case FreeBuffer(_) => BuffersKeepInv(s, x);
    case TakeDomain(_) => SubmitKeepsInv(s, x);
    case Push(_, _) => SubmitKeepsInv(s, x);
    case SubmitterPut(j) => PutJobKeepsInv(s, j, s.jobs[j].(submitter := false));
    case SchedulerPut(j) => PutJobKeepsInv(s, j, s.jobs[j].(scheduled := false));
    case Close => CloseKeepsInv(s);
  }

  /** The submitter of job j still has its reference. */
  predicate Submitting(s: St, j: nat) {
    j in s.jobs && s.jobs[j].submitter
  }

  /** The scheduler still has its reference on job j. */
  predicate Scheduled(s: St, j: nat) {
    j in s.jobs && s.jobs[j].scheduled
  }

  lemma StepBuffers(s: St, x: Step)
    requires Guard(s, x)
    ensures Next(s, x).fileOpen <==> s.fileOpen && !x.Close?
    ensures forall b :: b in Next(s, x).buffers <==> x == CreateBuffer(b) || (b in s.buffers && x != FreeBuffer(b))
  {
  }

  lemma StepSubmitters(s: St, x: Step, j: nat)
    requires Guard(s, x)
    ensures j in Next(s, x).jobs <==> x == TakeDomain(j) || j in s.jobs
    ensures Submitting(Next(s, x), j) <==> x == TakeDomain(j) || (Submitting(s, j) && x != SubmitterPut(j))
  {
  }

  lemma StepSchedulers(s: St, x: Step, j: nat)
    requires Guard(s, x)
    ensures Scheduled(Next(s, x), j) <==> x == Push(j, true) || (Scheduled(s, j) && x != SchedulerPut(j))
  {
  }

  /** A freshly opened file. */
  const OPENED := St(true, {}, map[], 1, 0)

  predicate Reaches(s: St, xs: seq<Step>, t: St)
    decreases |xs|
  {
    if |xs| == 0 then s == t else Guard(s, xs[0]) && Reaches(Next(s, xs[0]), xs[1..], t)
  }

  lemma {:induction false} ReachKeepsInv(s: St, xs: seq<Step>, t: St)
    requires Inv(s) && Reaches(s, xs, t)
    ensures Inv(t)
    decreases |xs|
  {
    if |xs| > 0 {
      StepKeepsInv(s, xs[0]);
      ReachKeepsInv(Next(s, xs[0]), xs[1..], t);
    }
  }

  /**
   * Over every interleaving of submitters, the scheduler, buffers and the close: the domain's
   * count is its holders, and the domain and each job are freed exactly once, when the last
   * holder goes.
   */
  lemma LifetimesExact(xs: seq<Step>, t: St)
    requires Reaches(OPENED, xs, t)
    ensures t.domRefs == (if t.fileOpen then 1 else 0) + |t.buffers| + |LiveJobs(t)|
    ensures t.domFrees == if !t.fileOpen && t.buffers == {} && LiveJobs(t) == {} then 1 else 0
    ensures forall j :: j in t.jobs ==>
      t.jobs[j].frees == if !t.jobs[j].submitter && !t.jobs[j].scheduled then 1 else 0
  {
    assert LiveJobs(OPENED) == {};
    ReachKeepsInv(OPENED, xs, t);
  }

  /** Whatever can still happen finds the domain alive; a put finds its job alive. */
  lemma NoUseAfterFree(xs: seq<Step>, t: St, x: Step)
    requires Reaches(OPENED, xs, t) && Guard(t, x)
    ensures t.domFrees == 0 && t.domRefs > 0
    ensures x.SubmitterPut? || x.SchedulerPut? || x.Push? ==> t.jobs[x.j].frees == 0 && t.jobs[x.j].refs > 0
  {
    assert LiveJobs(OPENED) == {};
    ReachKeepsInv(OPENED, xs, t);
    if x.SubmitterPut? || x.SchedulerPut? || x.Push? {
      assert x.j in LiveJobs(t);
    }
  }

  // ---------- The holders, from the history alone ----------

  /** What the last event that concerns it says: a put it there, or b took it away. */
  predicate Stands(xs: seq<Step>, a: Step, b: Step, before: bool) {
    if |xs| == 0 then before
    else
      var x := xs[|xs| - 1];
      if x == a then true else if x == b then false else Stands(xs[..|xs| - 1], a, b, before)
  }

  lemma {:induction false} StandsCons(x: Step, xs: seq<Step>, a: Step, b: Step, before: bool)
    ensures Stands([x] + xs, a, b, before)
         == Stands(xs, a, b, if x == a then true else if x == b then false else before)
  {
    if |xs| == 0 {
      assert ([x] + xs)[..0] == [];
    } else {
      assert ([x] + xs)[..|xs|] == [x] + xs[..|xs| - 1];
      StandsCons(x, xs[..|xs| - 1], a, b, before);
    }
  }

  /** A run's holders are what its puts and gets say, event by event. */
  lemma {:induction false} HoldersFromHistory(s: St, xs: seq<Step>, t: St, b: nat, j: nat)
    requires Reaches(s, xs, t)
    ensures t.fileOpen <==> s.fileOpen && Close !in xs
    ensures b in t.buffers <==> Stands(xs, CreateBuffer(b), FreeBuffer(b), b in s.buffers)
    ensures Submitting(t, j) <==> Stands(xs, TakeDomain(j), SubmitterPut(j), Submitting(s, j))
    ensures Scheduled(t, j) <==> Stands(xs, Push(j, true), SchedulerPut(j), Scheduled(s, j))
    decreases |xs|
  {
    if |xs| > 0 {
      var x, rest := xs[0], xs[1..];
      assert xs == [x] + rest;
      StepBuffers(s, x);
      StepSubmitters(s, x, j);
      StepSchedulers(s, x, j);
      StandsCons(x, rest, CreateBuffer(b), FreeBuffer(b), b in s.buffers);
      StandsCons(x, rest, TakeDomain(j), SubmitterPut(j), Submitting(s, j));
      StandsCons(x, rest, Push(j, true), SchedulerPut(j), Scheduled(s, j));
      HoldersFromHistory(Next(s, x), rest, t, b, j);
    }
  }

  const LIFE: seq<Step> :=
    [CreateBuffer(7), TakeDomain(0), Push(0, true), SubmitterPut(0), Close, SchedulerPut(0), FreeBuffer(7)]

  /** One whole life: the file closes under a running job, and the last buffer takes the domain with it. */
  lemma WholeLife()
    ensures Reaches(OPENED, LIFE, St(false, {}, map[0 := JobSt(0, false, false, 1)], 0, 1))
  {
    var t := St(false, {}, map[0 := JobSt(0, false, false, 1)], 0, 1);
    var s1 := St(true, {7}, map[], 2, 0);
    var s2 := St(true, {7}, map[0 := JobSt(1, true, false, 0)], 3, 0);
    var s3 := s2.(jobs := map[0 := JobSt(2, true, true, 0)]);
    var s4 := s2.(jobs := map[0 := JobSt(1, false, true, 0)]);
    var s5 := s4.(fileOpen := false, domRefs := 2);
    var s6 := St(false, {7}, map[0 := JobSt(0, false, false, 1)], 1, 0);
    assert Next(OPENED, LIFE[0]) == s1 && Next(s1, LIFE[1]) == s2 && Next(s2, LIFE[2]) == s3;
    assert Next(s3, LIFE[3]) == s4 && Next(s4, LIFE[4]) == s5 && Next(s5, LIFE[5]) == s6;
    assert s6.buffers - {7} == {};
    assert Next(s6, LIFE[6]) == t;
    Cons(s6, LIFE[6], [], t);
    Cons(s5, LIFE[5], [LIFE[6]], t);
    Cons(s4, LIFE[4], [LIFE[5], LIFE[6]], t);
    Cons(s3, LIFE[3], [LIFE[4], LIFE[5], LIFE[6]], t);
    Cons(s2, LIFE[2], [LIFE[3], LIFE[4], LIFE[5], LIFE[6]], t);
    Cons(s1, LIFE[1], [LIFE[2], LIFE[3], LIFE[4], LIFE[5], LIFE[6]], t);
    Cons(OPENED, LIFE[0], [LIFE[1], LIFE[2], LIFE[3], LIFE[4], LIFE[5], LIFE[6]], t);
  }

  lemma Cons(s: St, x: Step, xs: seq<Step>, t: St)
    requires Guard(s, x) && Reaches(Next(s, x), xs, t)
    ensures Reaches(s, [x] + xs, t)
  {
    assert ([x] + xs)[1..] == xs;
  }
}
