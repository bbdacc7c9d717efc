/**
 * The phases of one rate change interleaved with the runtime-PM transitions of every core.
 * All cores are bound and guarded; the devfreq mutex makes the rate change a single thread,
 * while suspend callbacks and notifiers run without it.
 */
module Interleaving {
  import opened Common

  /** Where a core's runtime-PM transition stands. */
  datatype Phase =
    | Active
    | Callback      // suspending: about to run the lock-free safe-rate write
    | PreOff        // domain about to go off: the notifier checks and writes
    | PreOffReset   // the notifier looks at the requested rate
    | SwitchOff     // the physical switch is next
    | Suspended
    | PreOn
    | PreOnReset
    | SwitchOn
    | ResumeCb      // domain on: the runtime-resume callback runs

  /** Where the rate-change thread stands; k counts cores. */
  datatype Pc =
    | Idle
    | Hold(f: nat, k: nat)      // cores below k are held
    | Wait(f: nat, k: nat)      // core k's count is raised, its resume is awaited
    | Undo(k: nat)              // a get failed; cores below k go back
    | Publish(f: nat)
    | Write(f: nat, before: nat)
    | Settle
    | DropOldKeepNew(k: nat)    // boosted again: the former boost set goes, core by core
    | DropOld(k: nat)           // boost over: the boost set goes
    | DropNew(k: nat)           // the passing set goes

  datatype St = St(
    pc: Pc,
    reqRate: nat,
    refsHeld: bool,
    clk: nat,
    usage: seq<int>,
    others: seq<nat>,           // references of jobs and other users
    phase: seq<Phase>,
    switches: seq<nat>,         // clock at each physical switch
    lockFree: seq<(nat, nat)>)  // requested rate and clock at each lock-free write

  predicate WF(s: St) {
    |s.usage| == |s.others| == |s.phase|
  }

  function N(s: St): nat {
    |s.phase|
  }

  datatype Step =
    | Start(f: nat)
    | Get(ok: bool)             // raise core k's count; not ok: refused at once
    | Got(ok: bool)             // the awaited core is active, or its resume has failed
    | UndoOne
    | PublishRate
    | WriteRate(ok: bool, got: nat)
    | SettleRefs
    | DropOne
    | BeginSuspend(i: nat)
    | CallbackWrite(i: nat, ok: bool)
    | NotifierWrite(i: nat, ok: bool)
    | NotifierReset(i: nat)
    | Flip(i: nat)
    | ResumeDone(i: nat, ok: bool)   // not ok: the domain goes off again with no suspend callback
    | BeginResume(i: nat)
    | OtherGet(i: nat)
    | OtherPut(i: nat)

  predicate Guard(s: St, x: Step)
    requires WF(s)
  {
    match x
    case Start(f) => s.pc.Idle? && f >= SAFE_RATE
    case Get(_) => s.pc.Hold? && s.pc.k < N(s)
    case Got(ok) => s.pc.Wait? && s.pc.k < N(s) && s.phase[s.pc.k] == (if ok then Active else Suspended)
    case UndoOne => s.pc.Undo? && s.pc.k <= N(s)
    case PublishRate => s.pc.Publish? || (s.pc.Hold? && s.pc.k == N(s))
    case WriteRate(ok, got) => s.pc.Write? && (ok && s.pc.f == SAFE_RATE ==> got == SAFE_RATE)
    case SettleRefs => s.pc.Settle?
    case DropOne => s.pc.DropOldKeepNew? || s.pc.DropOld? || s.pc.DropNew?
    case BeginSuspend(i) => i < N(s) && s.phase[i] == Active && s.usage[i] == 0
    case CallbackWrite(i, _) => i < N(s) && s.phase[i] == Callback
    case NotifierWrite(i, _) => i < N(s) && (s.phase[i] == PreOff || s.phase[i] == PreOn)
    case NotifierReset(i) => i < N(s) && (s.phase[i] == PreOffReset || s.phase[i] == PreOnReset)
    case Flip(i) => i < N(s) && (s.phase[i] == SwitchOff || s.phase[i] == SwitchOn)
    case ResumeDone(i, _) => i < N(s) && s.phase[i] == ResumeCb
    case BeginResume(i) => i < N(s) && s.phase[i] == Suspended && s.usage[i] > 0
    case OtherGet(i) => i < N(s)
    case OtherPut(i) => i < N(s) && s.others[i] > 0
  }

  function Bump(s: St, i: nat, k: int): St
    requires i < |s.usage|
  {
    s.(usage := s.usage[i := s.usage[i] + k])
  }

  function At(s: St, i: nat, p: Phase): St
    requires i < |s.phase|
  {
    s.(phase := s.phase[i := p])
  }

  function Drop(s: St): St
    requires WF(s) && (s.pc.DropOldKeepNew? || s.pc.DropOld? || s.pc.DropNew?)
  {
    if s.pc.k < N(s) then Bump(s, s.pc.k, -1).(pc := s.pc.(k := s.pc.k + 1))
    else
      match s.pc
      case DropOldKeepNew(_) => s.(pc := Idle, refsHeld := true)
      case DropOld(_) => s.(pc := DropNew(0))
      case DropNew(_) => s.(pc := Idle)
  }

  function Next(s: St, x: Step): St
    requires WF(s) && Guard(s, x)
  {
    match x
    case Start(f) => s.(pc := Hold(f, 0))
    case Get(ok) => if ok then Bump(s, s.pc.k, 1).(pc := Wait(s.pc.f, s.pc.k)) else s.(pc := Undo(s.pc.k))
    case Got(ok) => if ok then s.(pc := Hold(s.pc.f, s.pc.k + 1)) else Bump(s, s.pc.k, -1).(pc := Undo(s.pc.k))
    case UndoOne => if s.pc.k == 0 then s.(pc := Idle) else Bump(s, s.pc.k - 1, -1).(pc := Undo(s.pc.k - 1))
    case PublishRate =>
      if s.pc.Hold? then s.(pc := Publish(s.pc.f))
      else s.(pc := Write(s.pc.f, s.reqRate), reqRate := s.pc.f)
    case WriteRate(ok, got) =>
      if ok then s.(pc := Settle, clk := got) else s.(pc := Settle, reqRate := s.pc.before)
    case SettleRefs =>
      if s.reqRate > SAFE_RATE then
        if s.refsHeld then s.(pc := DropOldKeepNew(0)) else s.(pc := Idle, refsHeld := true)
      else if s.refsHeld then s.(pc := DropOld(0), refsHeld := false)
      else s.(pc := DropNew(0))
    case DropOne => Drop(s)
    case BeginSuspend(i) => At(s, i, Callback)
    case CallbackWrite(i, ok) =>
      var w := s.(lockFree := s.lockFree + [(s.reqRate, s.clk)]);
      if ok then At(w.(clk := SAFE_RATE), i, PreOff) else At(w, i, Active)
    case NotifierWrite(i, ok) =>
      var off := s.phase[i] == PreOff;
      if s.clk == SAFE_RATE || ok then At(s.(clk := SAFE_RATE), i, if off then PreOffReset else PreOnReset)
      else At(s, i, if off then Active else Suspended)
    case NotifierReset(i) =>
      At(s.(reqRate := SAFE_RATE), i, if s.phase[i] == PreOffReset then SwitchOff else SwitchOn)
    case Flip(i) =>
      At(s.(switches := s.switches + [s.clk]), i, if s.phase[i] == SwitchOff then Suspended else ResumeCb)
    case ResumeDone(i, ok) => At(s, i, if ok then Active else PreOff)
    case BeginResume(i) => At(s, i, PreOn)
    case OtherGet(i) => Bump(s, i, 1).(others := s.others[i := s.others[i] + 1])
    case OtherPut(i) => Bump(s, i, -1).(others := s.others[i := s.others[i] - 1])
  }

  // ---------- The invariant ----------

  function Bit(b: bool): nat {
    if b then 1 else 0
  }

  /** References the rate-change thread has on core i, boost set included. */
  function Refs(s: St, i: nat): nat {
    match s.pc
    case Idle => Bit(s.refsHeld)
    case Hold(_, k) => Bit(s.refsHeld) + Bit(i < k)
    case Wait(_, k) => Bit(s.refsHeld) + Bit(i <= k)
    case Undo(k) => Bit(s.refsHeld) + Bit(i < k)
    case Publish(_) => Bit(s.refsHeld) + 1
    case Write(_, _) => Bit(s.refsHeld) + 1
    case Settle => Bit(s.refsHeld) + 1
    case DropOldKeepNew(k) => 2 - Bit(i < k)
    case DropOld(k) => 2 - Bit(i < k)
    case DropNew(k) => 1 - Bit(i < k)
  }

  /** Core i is held by a get that has completed. */
  predicate HeldAwake(s: St, i: nat) {
    match s.pc
    case Idle => s.refsHeld
    case Hold(_, k) => s.refsHeld || i < k
    case Wait(_, k) => s.refsHeld || i < k
    case Undo(k) => s.refsHeld || i < k
    case DropNew(k) => i >= k
    case _ => true
  }

  predicate PcInv(s: St) {
    match s.pc
    case Idle => true
    case Hold(f, k) => f >= SAFE_RATE && k <= N(s)
    case Wait(f, k) => f >= SAFE_RATE && k < N(s)
    case Undo(k) => k <= N(s)
    case Publish(f) => f >= SAFE_RATE
    case Write(f, b) => s.reqRate == f >= SAFE_RATE && b >= SAFE_RATE
    case Settle => true
    case DropOldKeepNew(k) => k <= N(s) && s.refsHeld && s.reqRate > SAFE_RATE
    case DropOld(k) => k <= N(s) && !s.refsHeld && s.reqRate == SAFE_RATE
    case DropNew(k) => k <= N(s) && !s.refsHeld && s.reqRate == SAFE_RATE
  }

  /** The requested rate as the clock still knows it: before a write, the rate before it. */
  function Settled(s: St): nat {
    if s.pc.Write? then s.pc.before else s.reqRate
  }

  predicate Inv(s: St) {
    && WF(s) && PcInv(s) && s.reqRate >= SAFE_RATE
    && (forall i :: 0 <= i < N(s) ==> s.usage[i] == s.others[i] + Refs(s, i))
    && (forall i :: 0 <= i < N(s) && HeldAwake(s, i) ==> s.phase[i] == Active)
    && (Settled(s) == SAFE_RATE ==> s.clk == SAFE_RATE)
    && (Settled(s) > SAFE_RATE && !s.pc.Settle? ==> s.refsHeld)
    && (forall k :: 0 <= k < |s.switches| ==> s.switches[k] == SAFE_RATE)
    && (forall k :: 0 <= k < |s.lockFree| ==> s.lockFree[k] == (SAFE_RATE, SAFE_RATE))
  }

  /** A core in transition finds the clock and the request at the safe rate and no boost. */
  lemma InTransition(s: St, i: nat)
    requires Inv(s) && i < N(s) && s.phase[i] != Active
    ensures s.clk == SAFE_RATE && s.reqRate == SAFE_RATE && !s.refsHeld
    ensures !s.pc.Publish? && !s.pc.Write? && !s.pc.Settle?
  {
  }

  lemma GetKeepsInv(s: St, x: Step)
    requires Inv(s) && Guard(s, x) && (x.Start? || x.Get?)
    ensures Inv(Next(s, x))
  {
  }

  lemma GotKeepsInv(s: St, x: Step)
    requires Inv(s) && Guard(s, x) && (x.Got? || x.UndoOne?)
    ensures Inv(Next(s, x))
  {
  }

  lemma RateStepKeepsInv(s: St, x: Step)
    requires Inv(s) && Guard(s, x) && (x.PublishRate? || x.WriteRate? || x.SettleRefs?)
    ensures Inv(Next(s, x))
  {
  }

  lemma DropKeepsInv(s: St)
    requires Inv(s) && Guard(s, DropOne)
    ensures Inv(Next(s, DropOne))
  {
  }

  lemma SuspendKeepsInv(s: St, i: nat)
    requires Inv(s) && Guard(s, BeginSuspend(i))
    ensures Inv(Next(s, BeginSuspend(i)))
  {
    assert s.usage[i] == s.others[i] + Refs(s, i);
    assert !HeldAwake(s, i);
  }

  lemma CoreStepKeepsInv(s: St, x: Step)
    requires Inv(s) && Guard(s, x)
    requires x.CallbackWrite? || x.NotifierWrite? || x.NotifierReset? || x.Flip? || x.ResumeDone? || x.BeginResume?
    ensures Inv(Next(s, x))
  {
    InTransition(s, x.i);
  }

  lemma UserKeepsInv(s: St, x: Step)
    requires Inv(s) && Guard(s, x) && (x.OtherGet? || x.OtherPut?)
    ensures Inv(Next(s, x))
  {
    var t := Next(s, x);
    forall j | 0 <= j < N(t) ensures t.usage[j] == t.others[j] + Refs(t, j) {
      assert Refs(t, j) == Refs(s, j) && s.usage[j] == s.others[j] + Refs(s, j);
    }
    forall j | 0 <= j < N(t) && HeldAwake(t, j) ensures t.phase[j] == Active {
      assert HeldAwake(s, j);
    }
  }

  lemma StepKeepsInv(s: St, x: Step)
    requires Inv(s) && Guard(s, x)
    ensures Inv(Next(s, x))
  {
    match x
    case Start(_) => GetKeepsInv(s, x);
    case Get(_) => GetKeepsInv(s, x);
    case Got(_) => GotKeepsInv(s, x);
    case UndoOne => GotKeepsInv(s, x);
    case PublishRate => RateStepKeepsInv(s, x);
    case WriteRate(_, _) => RateStepKeepsInv(s, x);
    case SettleRefs => RateStepKeepsInv(s, x);
    case DropOne => DropKeepsInv(s);
    case BeginSuspend(i) => SuspendKeepsInv(s, i);
    case CallbackWrite(_, _) => CoreStepKeepsInv(s, x);
    case NotifierWrite(_, _) => CoreStepKeepsInv(s, x);
    case NotifierReset(_) => CoreStepKeepsInv(s, x);
    case Flip(_) => CoreStepKeepsInv(s, x);
    case ResumeDone(_, _) => CoreStepKeepsInv(s, x);
    case BeginResume(_) => CoreStepKeepsInv(s, x);
    case OtherGet(_) => UserKeepsInv(s, x);
    case OtherPut(_) => UserKeepsInv(s, x);
  }

  /** n cores, some asleep, the clock at its boot rate, nobody holding anything. */
  function Boot(asleep: seq<bool>): St {
    St(Idle, SAFE_RATE, false, SAFE_RATE, seq(|asleep|, _ => 0), seq(|asleep|, _ => 0),
       seq(|asleep|, i requires 0 <= i < |asleep| => if asleep[i] then Suspended else Active), [], [])
  }

  predicate Reaches(s: St, xs: seq<Step>, t: St)
    decreases |xs|
  {
    if |xs| == 0 then s == t else WF(s) && Guard(s, xs[0]) && Reaches(Next(s, xs[0]), xs[1..], t)
  }

  lemma {:induction false} RunKeepsInv(s: St, xs: seq<Step>, t: St)
    requires Inv(s) && Reaches(s, xs, t)
    ensures Inv(t)
    decreases |xs|
  {
    if |xs| > 0 {
      StepKeepsInv(s, xs[0]);
      RunKeepsInv(Next(s, xs[0]), xs[1..], t);
    }
  }

  /**
   * In every interleaving: no domain completes a switch while the clock differs from the safe
   * rate, and no lock-free write of a suspend callback lands on a boost.
   */
  lemma InterleavingSafe(asleep: seq<bool>, xs: seq<Step>, t: St)
    requires Reaches(Boot(asleep), xs, t)
    ensures forall k :: 0 <= k < |t.switches| ==> t.switches[k] == SAFE_RATE
    ensures forall k :: 0 <= k < |t.lockFree| ==> t.lockFree[k] == (SAFE_RATE, SAFE_RATE)
    ensures forall i :: 0 <= i < |t.phase| && t.phase[i] != Active ==>
      t.clk == SAFE_RATE && t.reqRate == SAFE_RATE && !t.refsHeld && !t.pc.Publish? && !t.pc.Write? && !t.pc.Settle?
  {
    RunKeepsInv(Boot(asleep), xs, t);
    forall i | 0 <= i < |t.phase| && t.phase[i] != Active
      ensures t.clk == SAFE_RATE && t.reqRate == SAFE_RATE && !t.refsHeld
      ensures !t.pc.Publish? && !t.pc.Write? && !t.pc.Settle?
    {
      InTransition(t, i);
    }
  }

  /** Between rate changes a core's count is exactly its users plus the boost. */
  lemma ReferencesBalance(asleep: seq<bool>, xs: seq<Step>, t: St)
    requires Reaches(Boot(asleep), xs, t) && t.pc.Idle?
    ensures |t.usage| == |t.others| == |t.phase|
    ensures forall i :: 0 <= i < |t.usage| ==> t.usage[i] == t.others[i] + (if t.refsHeld then 1 else 0)
    ensures t.refsHeld ==> forall i :: 0 <= i < |t.phase| ==> t.phase[i] == Active
  {
    RunKeepsInv(Boot(asleep), xs, t);
  }
}
