/**
 * The voltage probe module and the driver's voltage gate: two modules that share a supply
 * rail and agree only through what the driver reads.
 */
module VoltProbe {
  import opened Common

  const VOLT_FLOOR: int := 800_000
  const VOLT_CAP: int := 950_000

  const ENODEV: int := -19
  const EINVAL: int := -22
  const ERANGE: int := -34

  // ---------- The probe module ----------

  /**
   * nodeOk, devOk: device-tree look-ups; regErr: regulator_get; readErr, backErr: failures of
   * the two voltage reads (0 when they work); setErr: the write; setTo: what the rail settles
   * on after a successful write, never below the request; undoErr, undoTo: the restoring write.
   */
  datatype LoadEnv = LoadEnv(nodeOk: bool, devOk: bool, regErr: int, readErr: int,
                             setErr: int, setTo: int, backErr: int, undoErr: int, undoTo: int)

  predicate EnvOk(e: LoadEnv, uv: int, rail: int) {
    && e.regErr <= 0 && e.readErr <= 0 && e.backErr <= 0
    && (e.setErr == 0 ==> e.setTo >= uv)
    && (e.undoErr == 0 ==> e.undoTo >= rail)
  }

  /** Why a load is refused before it writes: 0 when it is not, or when it only reads. */
  function Refusal(e: LoadEnv, uv: int, rail: int): int {
    if !e.nodeOk || !e.devOk then ENODEV
    else if e.regErr != 0 then e.regErr
    else if e.readErr != 0 then e.readErr
    else if uv != 0 && !(VOLT_FLOOR <= uv <= VOLT_CAP && rail <= uv) then EINVAL
    else 0
  }

  /** A whole load: its result and the rail it leaves. */
  function Load(e: LoadEnv, uv: int, rail: int): (int, int) {
    var refused := Refusal(e, uv, rail);
    if refused != 0 || uv == 0 then (refused, rail)
    else if e.setErr != 0 then (e.setErr, rail)
    else if e.backErr == 0 && e.setTo <= VOLT_CAP then (0, e.setTo)
    else (if e.backErr != 0 then e.backErr else ERANGE, if e.undoErr == 0 then e.undoTo else e.setTo)
  }

  /**
   * A load succeeds exactly when everything it looks up and reads is there and, unless it only
   * reads, the request is between 800 mV and the board's 950 mV, is no step down, is written, and
   * reads back at no more than 950 mV. A request out of these bounds never touches the rail.
   */
  lemma LoadExact(e: LoadEnv, uv: int, rail: int)
    requires EnvOk(e, uv, rail)
    ensures var found := e.nodeOk && e.devOk && e.regErr == 0 && e.readErr == 0;
      var sane := 800_000 <= uv <= 950_000 && rail <= uv;
      && (Load(e, uv, rail).0 == 0
          <==> found && (uv == 0 || (sane && e.setErr == 0 && e.backErr == 0 && e.setTo <= 950_000)))
      && (Load(e, uv, rail).0 == 0 && uv != 0 ==> Load(e, uv, rail).1 == e.setTo)
      && (uv == 0 || !found || !sane ==> Load(e, uv, rail).1 == rail)
      && (found && uv != 0 && !sane ==> Load(e, uv, rail).0 == EINVAL)
  {
  }

  /** The supply rail, with the references this module took on it and on the platform device. */
  class Rail {
    var uv: int
    var regRefs: int
    var devRefs: int

    constructor (uv: int)
      ensures this.uv == uv && regRefs == 0 && devRefs == 0
    {
      this.uv, regRefs, devRefs := uv, 0, 0;
    }

    method SetVoltage(err: int, settlesOn: int) returns (ret: int)
      modifies this`uv
      ensures ret == err && uv == if err == 0 then settlesOn else old(uv)
    {
      if err == 0 {
        uv := settlesOn;
      }
      ret := err;
    }
  }

  /** The module's globals. */
  class Probe {
    const uv: int
    const rail: Rail
    var hasReg: bool
    var hasPdev: bool
    var origUv: int

    /** The references held are exactly those the globals stand for. */
    ghost predicate Balanced()
      reads this, rail
    {
      rail.regRefs == (if hasReg then 1 else 0) && rail.devRefs == (if hasPdev then 1 else 0)
    }

    constructor (uv: int, rail: Rail)
      requires rail.regRefs == 0 && rail.devRefs == 0
      ensures Balanced() && !hasReg && !hasPdev && this.rail == rail && this.uv == uv
    {
      this.uv, this.rail, hasReg, hasPdev, origUv := uv, rail, false, false, 0;
    }

    method Unwind()
      requires Balanced() && hasReg && hasPdev
      modifies this`hasReg, this`hasPdev, rail`regRefs, rail`devRefs
      ensures Balanced() && !hasReg && !hasPdev
    {
      rail.regRefs := rail.regRefs - 1;
      hasReg := false;
      PutDevice();
    }

    method PutDevice()
      requires Balanced() && hasPdev
      modifies this`hasPdev, rail`devRefs
      ensures Balanced() && !hasPdev
    {
      rail.devRefs := rail.devRefs - 1;
      hasPdev := false;
    }

    /**
     * Module load. It never lowers the rail; a failed load keeps no reference, and a
     * successful one leaves the rail between the request and the board's limit.
     */
    method Init(e: LoadEnv) returns (ret: int)
      requires Balanced() && !hasReg && !hasPdev && EnvOk(e, uv, rail.uv) && rail.uv >= 0
      modifies this, rail
      ensures Balanced() && rail.uv >= old(rail.uv)
      ensures (ret, rail.uv) == Load(e, uv, old(rail.uv))
      ensures ret != 0 ==> !hasReg && !hasPdev
      ensures ret == 0 ==> hasReg && hasPdev && origUv == old(rail.uv)
      ensures uv == 0 ==> rail.uv == old(rail.uv)
      ensures ret == 0 && uv != 0 ==> VOLT_FLOOR <= uv <= rail.uv <= VOLT_CAP && old(rail.uv) <= uv
      ensures uv != 0 && (uv < VOLT_FLOOR || uv > VOLT_CAP || uv < old(rail.uv)) ==> ret != 0 && rail.uv == old(rail.uv)
    {
      if !e.nodeOk {
        return ENODEV;
      }
      if !e.devOk {
        return ENODEV;
      }
      hasPdev, rail.devRefs := true, rail.devRefs + 1;
      if e.regErr != 0 {
        PutDevice();
        return e.regErr;
      }
      hasReg, rail.regRefs := true, rail.regRefs + 1;
      origUv := if e.readErr != 0 then e.readErr else rail.uv;
      if origUv < 0 {
        ret := origUv;
        Unwind();
        return;
      }
      if uv == 0 {
        return 0;
      }
      if uv < VOLT_FLOOR || uv > VOLT_CAP {
        Unwind();
        return EINVAL;
      }
      if uv < origUv {
        Unwind();
        return EINVAL;
      }
      ret := rail.SetVoltage(e.setErr, e.setTo);
      if ret != 0 {
        Unwind();
        return;
      }
      var got := if e.backErr != 0 then e.backErr else rail.uv;
      if got < 0 || got > VOLT_CAP {
        ret := if got < 0 then got else ERANGE;
        var _ := rail.SetVoltage(e.undoErr, e.undoTo);
        Unwind();
        return;
      }
      return 0;
    }

    /** Module unload: puts the voltage back that it found, if it had changed it. */
    method Exit(setErr: int, setTo: int)
      requires Balanced()
      modifies this, rail
      ensures Balanced() && !hasReg && !hasPdev
      ensures rail.uv == if old(hasReg) && uv != 0 && old(origUv) > 0 && setErr == 0 then setTo else old(rail.uv)
    {
      if hasReg {
        if uv != 0 && origUv > 0 {
          var _ := rail.SetVoltage(setErr, setTo);
        }
        rail.regRefs := rail.regRefs - 1;
        hasReg := false;
      }
      if hasPdev {
        rail.devRefs := rail.devRefs - 1;
        hasPdev := false;
      }
    }
  }

  /**
   * Loading and unloading leaves no reference and never a lower rail, whatever the restoring
   * write does within the regulator's contract; one that hits the found voltage restores it.
   */
  method LoadUnload(rail: Rail, uv: int, e: LoadEnv, exitErr: int, exitTo: int) returns (loaded: bool)
    requires rail.regRefs == 0 && rail.devRefs == 0 && rail.uv > 0 && EnvOk(e, uv, rail.uv)
    requires exitErr == 0 ==> exitTo >= rail.uv
    modifies rail
    ensures rail.regRefs == 0 && rail.devRefs == 0
    ensures loaded <==> Load(e, uv, old(rail.uv)).0 == 0
    ensures rail.uv == if loaded && uv != 0 && exitErr == 0 then exitTo else Load(e, uv, old(rail.uv)).1
    ensures rail.uv >= old(rail.uv)
    ensures uv == 0 || (loaded && exitErr == 0 && exitTo == old(rail.uv)) ==> rail.uv == old(rail.uv)
  {
    var p := new Probe(uv, rail);
    var ret := p.Init(e);
    loaded := ret == 0;
    if loaded {
      p.Exit(exitErr, exitTo);
    }
  }

  // ---------- Two modules on one rail ----------

  /** The driver between its voltage check and the end of the rate change. */
  datatype Driver = Idle | Granted(f: nat) | Published(f: nat, before: nat)

  datatype Loader =
    | Unloaded
    | HasRead(orig: int)
    | HasSet(orig: int, uv: int)
    | MustUndo(orig: int)
    | Loaded(orig: int, uv: int)

  datatype St = St(reqRate: nat, rail: int, drv: Driver, ld: Loader)

  datatype Step =
    | Request(f: nat, readOk: bool)
    | HoldFailed
    | Publish
    | WriteDone(ok: bool)
    | BoostLost                     // a notifier, a removal or fini resets the requested rate
    | LoadRead
    | LoadRefused
    | LoadReadOnly
    | LoadSet(uv: int, ok: bool, settlesOn: int)
    | LoadReadback(readOk: bool)
    | LoadUndo(ok: bool, settlesOn: int)
    | Unload(ok: bool, settlesOn: int)

  predicate Guard(s: St, x: Step) {
    match x
    case Request(f, _) => s.drv.Idle? && f >= SAFE_RATE
    case HoldFailed => s.drv.Granted?
    case Publish => s.drv.Granted?
    case WriteDone(_) => s.drv.Published?
    case BoostLost => true
    case LoadRead => s.ld.Unloaded?
    case LoadRefused => s.ld.HasRead?
    case LoadReadOnly => s.ld.HasRead?
    case LoadSet(uv, ok, v) => s.ld.HasRead? && VOLT_FLOOR <= uv <= VOLT_CAP && uv >= s.ld.orig && v >= uv
    case LoadReadback(_) => s.ld.HasSet?
    case LoadUndo(_, v) => s.ld.MustUndo? && v >= s.ld.orig
    case Unload(_, v) => s.ld.Loaded? && v >= s.ld.orig
  }

  function Next(s: St, x: Step): St
    requires Guard(s, x)
  {
    match x
    case Request(f, readOk) =>
      if f > HIGH_RATE && !(readOk && s.rail >= VOLT_FOR_HIGH) then s else s.(drv := Granted(f))
    case HoldFailed => s.(drv := Idle)
    case Publish => s.(drv := Published(s.drv.f, s.reqRate), reqRate := s.drv.f)
    case WriteDone(ok) => s.(drv := Idle, reqRate := if ok then s.reqRate else s.drv.before)
    case BoostLost => s.(reqRate := SAFE_RATE)
    case LoadRead => s.(ld := HasRead(s.rail))
    case LoadRefused => s.(ld := Unloaded)
    case LoadReadOnly => s.(ld := Loaded(s.ld.orig, 0))
    case LoadSet(uv, ok, v) => if ok then s.(rail := v, ld := HasSet(s.ld.orig, uv)) else s.(ld := Unloaded)
    case LoadReadback(readOk) =>
      if readOk && s.rail <= VOLT_CAP then s.(ld := Loaded(s.ld.orig, s.ld.uv)) else s.(ld := MustUndo(s.ld.orig))
    case LoadUndo(ok, v) => s.(rail := if ok then v else s.rail, ld := Unloaded)
    case Unload(ok, v) => s.(rail := if ok && s.ld.uv != 0 && s.ld.orig > 0 then v else s.rail, ld := Unloaded)
  }

  /** A rate that needs the high voltage is requested, granted, or to be returned to. */
  predicate NeedsVolt(s: St) {
    || s.reqRate > HIGH_RATE
    || (s.drv.Granted? && s.drv.f > HIGH_RATE)
    || (s.drv.Published? && (s.drv.f > HIGH_RATE || s.drv.before > HIGH_RATE))
  }

  predicate VoltCover(s: St) {
    NeedsVolt(s) ==> s.rail >= VOLT_FOR_HIGH
  }

  /** The only other writer of the rail is the probe, one load at a time. */
  predicate RailInv(s: St) {
    && (s.ld.HasRead? ==> s.rail == s.ld.orig)
    && (s.ld.HasSet? || s.ld.MustUndo? || s.ld.Loaded? ==> s.rail >= s.ld.orig)
  }

  /** The step can bring the rail down. */
  predicate Lowers(x: Step) {
    x.Unload? || x.LoadUndo?
  }

  /** The step writes the rail down to an earlier voltage, and the write works. */
  predicate Restores(s: St, x: Step) {
    (x.LoadUndo? && x.ok) || (x.Unload? && x.ok && s.ld.Loaded? && s.ld.uv != 0 && s.ld.orig > 0)
  }

  /** A restoring write, made while the driver needs the voltage, settles high enough. */
  predicate Careful(s: St, x: Step) {
    NeedsVolt(s) && Restores(s, x) ==> x.settlesOn >= VOLT_FOR_HIGH
  }

  /** From cover, one step keeps it exactly when a restoring write, if it is one, is careful. */
  lemma StepExact(s: St, x: Step)
    requires Guard(s, x) && VoltCover(s) && RailInv(s)
    ensures RailInv(Next(s, x))
    ensures VoltCover(Next(s, x)) <==> Careful(s, x)
    ensures !Lowers(x) ==> Next(s, x).rail >= s.rail
  {
  }

  predicate Reaches(s: St, xs: seq<Step>, t: St)
    decreases |xs|
  {
    if |xs| == 0 then s == t else Guard(s, xs[0]) && Reaches(Next(s, xs[0]), xs[1..], t)
  }

  predicate CarefulRun(s: St, xs: seq<Step>)
    decreases |xs|
  {
    |xs| == 0 || (Guard(s, xs[0]) && Careful(s, xs[0]) && CarefulRun(Next(s, xs[0]), xs[1..]))
  }

  /** The cover holds in every state of the run. */
  predicate CoveredRun(s: St, xs: seq<Step>)
    decreases |xs|
  {
    VoltCover(s) && (|xs| == 0 || (Guard(s, xs[0]) && CoveredRun(Next(s, xs[0]), xs[1..])))
  }

  /** A run is covered throughout exactly when each restoring write in it is careful. */
  lemma {:induction false} RunExact(s: St, xs: seq<Step>, t: St)
    requires Reaches(s, xs, t) && VoltCover(s) && RailInv(s)
    ensures CoveredRun(s, xs) <==> CarefulRun(s, xs)
    ensures RailInv(t) && (CarefulRun(s, xs) ==> VoltCover(t))
    decreases |xs|
  {
    if |xs| > 0 {
      StepExact(s, xs[0]);
      if Careful(s, xs[0]) {
        RunExact(Next(s, xs[0]), xs[1..], t);
      } else {
        ReachKeepsRail(Next(s, xs[0]), xs[1..], t);
        assert !CoveredRun(Next(s, xs[0]), xs[1..]);
      }
    }
  }

  lemma {:induction false} ReachKeepsRail(s: St, xs: seq<Step>, t: St)
    requires Reaches(s, xs, t) && RailInv(s)
    ensures RailInv(t)
    decreases |xs|
  {
    if |xs| > 0 {
      ReachKeepsRail(Next(s, xs[0]), xs[1..], t);
    }
  }

  /**
   * From module load: a rate above 700 MHz, requested, granted or to be returned to, has 850 mV
   * in every state of the run exactly when no restoring write goes below that while it is needed.
   */
  lemma HighRateCovered(rail: int, xs: seq<Step>, t: St)
    requires Reaches(St(SAFE_RATE, rail, Idle, Unloaded), xs, t)
    ensures CoveredRun(St(SAFE_RATE, rail, Idle, Unloaded), xs) <==> CarefulRun(St(SAFE_RATE, rail, Idle, Unloaded), xs)
    ensures CarefulRun(St(SAFE_RATE, rail, Idle, Unloaded), xs) ==> (t.reqRate > HIGH_RATE ==> t.rail >= VOLT_FOR_HIGH)
  {
    RunExact(St(SAFE_RATE, rail, Idle, Unloaded), xs, t);
  }

  /** A probe that neither unloads nor undoes a load while the voltage is needed is careful whatever its writes do. */
  predicate Polite(s: St, xs: seq<Step>)
    decreases |xs|
  {
    |xs| == 0 ||
    (Guard(s, xs[0]) && (Lowers(xs[0]) ==> !NeedsVolt(s)) && Polite(Next(s, xs[0]), xs[1..]))
  }

  lemma {:induction false} PoliteIsCareful(s: St, xs: seq<Step>)
    requires Polite(s, xs)
    ensures CarefulRun(s, xs)
    decreases |xs|
  {
    if |xs| > 0 {
      PoliteIsCareful(Next(s, xs[0]), xs[1..]);
    }
  }

  /** One load, up to its verdict, never lowers the rail, whatever the driver does meanwhile. */
  lemma {:induction false} LoadNeverLowers(s: St, xs: seq<Step>, t: St)
    requires Reaches(s, xs, t) && RailInv(s) && s.ld.HasRead?
    requires forall k :: 0 <= k < |xs| ==> !xs[k].Unload? && !xs[k].LoadRead?
    ensures t.rail >= s.rail
    decreases |xs|
  {
    LoadKeepsFloor(s, xs, t, s.ld.orig);
  }

  lemma {:induction false} LoadKeepsFloor(s: St, xs: seq<Step>, t: St, floor: int)
    requires Reaches(s, xs, t) && s.rail >= floor
    requires s.ld.HasRead? || s.ld.HasSet? || s.ld.MustUndo? || s.ld.Loaded? ==> s.ld.orig == floor
    requires forall k :: 0 <= k < |xs| ==> !xs[k].Unload? && !xs[k].LoadRead?
    ensures t.rail >= floor
    decreases |xs|
  {
    if |xs| > 0 {
      assert !xs[0].Unload? && !xs[0].LoadRead?;
      LoadKeepsFloor(Next(s, xs[0]), xs[1..], t, floor);
    }
  }

  /** A load as the steps it takes when nothing comes between them. */
  function LoadSteps(e: LoadEnv, uv: int, rail: int): seq<Step> {
    if !e.nodeOk || !e.devOk || e.regErr != 0 || e.readErr != 0 then []
    else if uv == 0 then [LoadRead, LoadReadOnly]
    else if Refusal(e, uv, rail) != 0 then [LoadRead, LoadRefused]
    else if e.setErr != 0 then [LoadRead, LoadSet(uv, false, uv)]
    else if e.backErr == 0 && e.setTo <= VOLT_CAP then [LoadRead, LoadSet(uv, true, e.setTo), LoadReadback(true)]
    else [LoadRead, LoadSet(uv, true, e.setTo), LoadReadback(e.backErr == 0),
          LoadUndo(e.undoErr == 0, if e.undoErr == 0 then e.undoTo else rail)]
  }

  /** The steps end on the rail that the whole load leaves, loaded exactly when it succeeds. */
  lemma LoadTakesSteps(s: St, e: LoadEnv, uv: int)
    requires s.ld.Unloaded? && EnvOk(e, uv, s.rail)
    ensures var (ret, rail) := Load(e, uv, s.rail);
      Reaches(s, LoadSteps(e, uv, s.rail), s.(rail := rail, ld := if ret == 0 then Loaded(s.rail, uv) else Unloaded))
  {
    var xs := LoadSteps(e, uv, s.rail);
    var (ret, rail) := Load(e, uv, s.rail);
    var t := s.(rail := rail, ld := if ret == 0 then Loaded(s.rail, uv) else Unloaded);
    if |xs| > 0 {
      var s1 := Next(s, xs[0]);
      var s2 := Next(s1, xs[1]);
      if |xs| == 2 {
        Chain(s1, xs[1], [], t);
        Chain(s, xs[0], [xs[1]], t);
      } else {
        var s3 := Next(s2, xs[2]);
        if |xs| == 3 {
          Chain(s2, xs[2], [], t);
          Chain(s1, xs[1], [xs[2]], t);
          Chain(s, xs[0], [xs[1], xs[2]], t);
        } else {
          Chain(s3, xs[3], [], t);
          Chain(s2, xs[2], [xs[3]], t);
          Chain(s1, xs[1], [xs[2], xs[3]], t);
          Chain(s, xs[0], [xs[1], xs[2], xs[3]], t);
        }
      }
    }
  }

  lemma Chain(s: St, x: Step, xs: seq<Step>, t: St)
    requires Guard(s, x) && Reaches(Next(s, x), xs, t)
    ensures Reaches(s, [x] + xs, t)
  {
    assert ([x] + xs)[1..] == xs;
  }

  const GIGA: nat := 1_000_000_000

  const RAISE: seq<Step> := [LoadRead, LoadSet(850_000, true, 850_000)]

  const FAILED_LOAD: seq<Step> :=
    [Request(GIGA, true), Publish, WriteDone(true), LoadReadback(false), LoadUndo(true, 800_000)]

  /**
   * A load raises the rail, the driver grants 1 GHz on it, and the load's readback then fails:
   * the undo leaves 1 GHz running at 800 mV, although nothing was unloaded.
   */
  lemma UndoUnderBoost()
    ensures var xs := RAISE + FAILED_LOAD;
      exists t :: Reaches(St(SAFE_RATE, 800_000, Idle, Unloaded), xs, t) && t.reqRate == GIGA && t.rail == 800_000
  {
    var s0 := St(SAFE_RATE, 800_000, Idle, Unloaded);
    var s1 := s0.(ld := HasRead(800_000));
    var s2 := s1.(rail := 850_000, ld := HasSet(800_000, 850_000));
    var s3 := s2.(drv := Granted(GIGA));
    var s4 := s3.(drv := Published(GIGA, SAFE_RATE), reqRate := GIGA);
    var s5 := s4.(drv := Idle);
    var s6 := s5.(ld := MustUndo(800_000));
    var t := s6.(rail := 800_000, ld := Unloaded);
    Chain(s6, LoadUndo(true, 800_000), [], t);
    var x5 := [LoadReadback(false), LoadUndo(true, 800_000)];
    Chain(s5, LoadReadback(false), [LoadUndo(true, 800_000)], t);
    Chain(s4, WriteDone(true), x5, t);
    Chain(s3, Publish, [WriteDone(true)] + x5, t);
    Chain(s2, Request(GIGA, true), [Publish, WriteDone(true)] + x5, t);
    var x2 := [Request(GIGA, true), Publish, WriteDone(true)] + x5;
    Chain(s1, RAISE[1], x2, t);
    Chain(s0, RAISE[0], [RAISE[1]] + x2, t);
    assert RAISE + x2 == [RAISE[0]] + ([RAISE[1]] + x2);
    assert x2 == FAILED_LOAD;
  }

  const RAISED: seq<Step> := [LoadRead, LoadSet(850_000, true, 850_000), LoadReadback(true)]

  const UNLOADED: seq<Step> := [Request(GIGA, true), Publish, WriteDone(true), Unload(true, 800_000)]

  /** An unload under a granted 1 GHz puts 800 mV back, although the driver is still at 1 GHz. */
  lemma UnloadUnderBoost()
    ensures Reaches(St(SAFE_RATE, 800_000, Idle, Unloaded), RAISED + UNLOADED, St(GIGA, 800_000, Idle, Unloaded))
  {
    var s0 := St(SAFE_RATE, 800_000, Idle, Unloaded);
    var s1 := s0.(ld := HasRead(800_000));
    var s2 := s1.(rail := 850_000, ld := HasSet(800_000, 850_000));
    var s3 := s2.(ld := Loaded(800_000, 850_000));
    var s4 := s3.(drv := Granted(GIGA));
    var s5 := s4.(drv := Published(GIGA, SAFE_RATE), reqRate := GIGA);
    var s6 := s5.(drv := Idle);
    var t := St(GIGA, 800_000, Idle, Unloaded);
    Chain(s6, UNLOADED[3], [], t);
    Chain(s5, UNLOADED[2], [UNLOADED[3]], t);
    Chain(s4, UNLOADED[1], [UNLOADED[2], UNLOADED[3]], t);
    Chain(s3, UNLOADED[0], [UNLOADED[1], UNLOADED[2], UNLOADED[3]], t);
    Chain(s2, RAISED[2], UNLOADED, t);
    Chain(s1, RAISED[1], [RAISED[2]] + UNLOADED, t);
    Chain(s0, RAISED[0], [RAISED[1]] + ([RAISED[2]] + UNLOADED), t);
    assert RAISED + UNLOADED == [RAISED[0]] + ([RAISED[1]] + ([RAISED[2]] + UNLOADED));
  }
}
