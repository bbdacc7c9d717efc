/**
 * The clock protocol and the voltage probe on one rail: every entry point of the driver is a
 * run of the gate's own phases, so the gate's cover holds over joint runs of both modules.
 */
module VoltCover {
  import opened Common
  import opened Slots
  import opened Protocol
  import opened ProtocolCore
  import VP = VoltProbe

  /** What the request was refused for before it reached the gate. */
  predicate Ungated(s: St, freq: nat, e: TargetEnv) {
    || e.oppErr != 0 || s.owner.None? || EarlyExit(s, freq)
    || (freq > SAFE_RATE && (s.unsafe || !AllGuarded(s)))
  }

  /** The hold woke a domain, and its notifier dropped the boost. */
  function Lost(s: St, h: St): seq<VP.Step> {
    if h.reqRate == s.reqRate then [] else [VP.BoostLost]
  }

  /** The gate's phases that a request goes through. */
  function TargetSteps(s: St, freq: nat, e: TargetEnv): seq<VP.Step>
    requires WF(s) && |e.pm| == |s.dev|
  {
    if Ungated(s, freq, e) then []
    else if freq > HIGH_RATE && (if s.reg then e.uv else ENODEV) < VOLT_FOR_HIGH then
      [VP.Request(freq, s.reg && e.uv >= 0)]
    else
      var (h, err) := HoldAll(s, e.pm);
      [VP.Request(freq, s.reg && e.uv >= 0)] + Lost(s, h)
      + if err < 0 then [VP.HoldFailed] else [VP.Publish, VP.WriteDone(e.wr == 0)]
  }

  function GateSteps(s: St, x: Step): seq<VP.Step>
    requires WF(s) && Enabled(s, x)
  {
    if x.SetTarget? then TargetSteps(s, x.freq, x.te) else Lost(s, Next(s, x))
  }

  /** The driver's requested rate is the one the gate knows of. */
  predicate Agree(s: St, v: VP.St) {
    v.reqRate == s.reqRate && v.drv.Idle?
  }

  /** A regulator reading fails with an error code or is the rail that is there. */
  predicate ReadsRail(s: St, x: Step, v: VP.St) {
    x.SetTarget? && s.reg && x.te.uv >= 0 ==> x.te.uv == v.rail
  }

  lemma ChainLost(s: St, h: St, v: VP.St, xs: seq<VP.Step>, t: VP.St)
    requires v.reqRate == s.reqRate && (h.reqRate == s.reqRate || h.reqRate == SAFE_RATE)
    requires VP.Reaches(v.(reqRate := h.reqRate), xs, t)
    ensures VP.Reaches(v, Lost(s, h) + xs, t)
  {
    if h.reqRate == s.reqRate {
      assert Lost(s, h) + xs == xs;
      assert v.(reqRate := h.reqRate) == v;
    } else {
      VP.Chain(v, VP.BoostLost, xs, t);
    }
  }

  /** A granted request: the hold, then the published rate, kept or taken back. */
  lemma GrantedSteps(s: St, freq: nat, e: TargetEnv, v: VP.St)
    requires WF(s) && |e.pm| == |s.dev| && v.reqRate == s.reqRate && v.drv == VP.Granted(freq)
    ensures var (h, err) := HoldAll(s, e.pm);
      VP.Reaches(v, Lost(s, h) + if err < 0 then [VP.HoldFailed] else [VP.Publish, VP.WriteDone(e.wr == 0)],
                 v.(drv := VP.Idle, reqRate := ChangeRate(s, freq, e).st.reqRate))
  {
    WakeFromWakes(s, 0, e.pm);
    var (h, err) := HoldAll(s, e.pm);
    var t := v.(drv := VP.Idle, reqRate := ChangeRate(s, freq, e).st.reqRate);
    var w := v.(reqRate := h.reqRate);
    if err < 0 {
      VP.Chain(w, VP.HoldFailed, [], t);
      ChainLost(s, h, v, [VP.HoldFailed], t);
    } else {
      VP.Chain(VP.Next(w, VP.Publish), VP.WriteDone(e.wr == 0), [], t);
      VP.Chain(w, VP.Publish, [VP.WriteDone(e.wr == 0)], t);
      ChainLost(s, h, v, [VP.Publish, VP.WriteDone(e.wr == 0)], t);
    }
  }

  lemma TargetTakesSteps(s: St, freq: nat, e: TargetEnv, v: VP.St)
    requires WF(s) && |e.pm| == |s.dev| && freq >= SAFE_RATE && Agree(s, v) && (s.reg && e.uv >= 0 ==> e.uv == v.rail)
    ensures VP.Reaches(v, TargetSteps(s, freq, e), v.(reqRate := Target(s, freq, e).st.reqRate))
  {
    if !Ungated(s, freq, e) {
      var x := VP.Request(freq, s.reg && e.uv >= 0);
      if freq > HIGH_RATE && (if s.reg then e.uv else ENODEV) < VOLT_FOR_HIGH {
        VP.Chain(v, x, [], v);
      } else {
        GrantedSteps(s, freq, e, v.(drv := VP.Granted(freq)));
        var (h, err) := HoldAll(s, e.pm);
        var ys := Lost(s, h) + if err < 0 then [VP.HoldFailed] else [VP.Publish, VP.WriteDone(e.wr == 0)];
        VP.Chain(v, x, ys, v.(reqRate := ChangeRate(s, freq, e).st.reqRate));
        assert TargetSteps(s, freq, e) == [x] + ys;
      }
    }
  }

  /** The requested rate is left alone or dropped. */
  predicate Drops(s: St, t: St) {
    t.reqRate == s.reqRate || t.reqRate == SAFE_RATE
  }

  lemma CoreUpDrops(s: St, c: nat, e: InitEnv)
    requires WF(s) && c < |s.dev| && s.dev[c].Some? && |e.arm| == MAX_NB
    ensures Drops(s, CoreUp(s, c, e))
  {
    PowerUpWakes(s, s.dev[c].value, e.pm);
  }

  lemma ProbeDrops(s: St, d: DevId, e: ProbeEnv)
    requires WF(s) && Enabled(s, Probe(d, e))
    ensures Drops(s, DoProbe(s, d, e))
  {
    FlipSwitches(s, d, e.attachWr, true);
    var s1 := Attach(s, d, e.attachWr).0;
    var c := FirstFree(s1.dev);
    if c < |s1.dev| {
      LookupOthers(s1.dev, c, Some(d));
      CoreUpDrops(s1.(dev := s1.dev[c := Some(d)]), c, e.init);
    }
  }

  lemma RemoveDrops(s: St, d: DevId, e: RemoveEnv)
    requires WF(s) && Enabled(s, Remove(d, e))
    ensures Drops(s, DoRemove(s, d, e))
  {
    var b := DropBlock(DropBoost(s, e.wr), Lookup(s.dev, d), e.rm);
    assert Drops(s, b);
    assert Drops(b, Fini(b, Lookup(s.dev, d), e));
  }

  /** No entry point but a rate request raises the requested rate. */
  lemma OthersOnlyDrop(s: St, x: Step)
    requires WF(s) && Enabled(s, x) && !x.SetTarget?
    ensures Drops(s, Next(s, x))
  {
    match x
    case Probe(d, pe) => ProbeDrops(s, d, pe);
    case Remove(d, re) => RemoveDrops(s, d, re);
    case RuntimeOff(d, idle, wr, wr2) => PowerDownWakes(s, d, idle, wr, wr2);
    case ForcedOff(d, idle, wr, wr2) => PowerDownWakes(s, d, idle, wr, wr2);
    case ForcedOn(d, wr) => FlipSwitches(s, d, wr, false);
    case UnboundSwitch(d, wr) => FlipSwitches(s, d, wr, true);
    case JobStart(d, pm, _) => PowerUpWakes(s, d, pm);
    case JobEnd(_) =>
    case Reboot(_, _) =>
    case ForeignWrite(_) =>
  }

  /** Every entry point of the driver moves the gate's state by a run of the gate's own phases. */
  lemma StepTakesSteps(s: St, x: Step, v: VP.St)
    requires WF(s) && Enabled(s, x) && Agree(s, v) && ReadsRail(s, x, v)
    ensures VP.Reaches(v, GateSteps(s, x), v.(reqRate := Next(s, x).reqRate))
  {
    if x.SetTarget? {
      TargetTakesSteps(s, x.freq, x.te, v);
    } else {
      OthersOnlyDrop(s, x);
      var t := v.(reqRate := Next(s, x).reqRate);
      ChainLost(s, Next(s, x), v, [], t);
      assert Lost(s, Next(s, x)) + [] == Lost(s, Next(s, x));
    }
  }

  lemma {:induction false} DriverCareful(v: VP.St, xs: seq<VP.Step>, t: VP.St)
    requires VP.Reaches(v, xs, t) && forall k :: 0 <= k < |xs| ==> !VP.Lowers(xs[k])
    ensures VP.CarefulRun(v, xs)
    decreases |xs|
  {
    if |xs| > 0 {
      DriverCareful(VP.Next(v, xs[0]), xs[1..], t);
    }
  }

  // ---------- Joint runs ----------

  /** Either module moves: the driver by a whole entry point, the probe by one access to the rail. */
  datatype Move = Driver(x: Step) | Rail(y: VP.Step)

  predicate ProbeStep(y: VP.Step) {
    y.LoadRead? || y.LoadRefused? || y.LoadReadOnly? || y.LoadSet? || y.LoadReadback? || y.LoadUndo? || y.Unload?
  }

  predicate CanMove(s: St, v: VP.St, m: Move) {
    WF(s) && Agree(s, v) &&
    match m
    case Driver(x) => Enabled(s, x) && ReadsRail(s, x, v)
    case Rail(y) => ProbeStep(y) && VP.Guard(v, y)
  }

  function Moved(s: St, v: VP.St, m: Move): (St, VP.St)
    requires CanMove(s, v, m)
  {
    match m
    case Driver(x) => (Next(s, x), v.(reqRate := Next(s, x).reqRate))
    case Rail(y) => (s, VP.Next(v, y))
  }

  predicate JointRun(s: St, v: VP.St, ms: seq<Move>, t: St, w: VP.St)
    decreases |ms|
  {
    if |ms| == 0 then s == t && v == w
    else CanMove(s, v, ms[0]) && var (s1, v1) := Moved(s, v, ms[0]); JointRun(s1, v1, ms[1..], t, w)
  }

  /** A restoring write, made while a high rate is on the driver's books, settles high enough. */
  predicate CarefulMove(s: St, v: VP.St, m: Move) {
    m.Rail? && s.reqRate > HIGH_RATE && VP.Restores(v, m.y) ==> m.y.settlesOn >= VOLT_FOR_HIGH
  }

  predicate CarefulMoves(s: St, v: VP.St, ms: seq<Move>)
    decreases |ms|
  {
    |ms| == 0 ||
    (CanMove(s, v, ms[0]) && CarefulMove(s, v, ms[0])
     && var (s1, v1) := Moved(s, v, ms[0]); CarefulMoves(s1, v1, ms[1..]))
  }

  /** A high rate on the driver's books has its voltage. */
  predicate Supplied(s: St, v: VP.St) {
    s.reqRate > HIGH_RATE ==> v.rail >= VOLT_FOR_HIGH
  }

  predicate SuppliedMoves(s: St, v: VP.St, ms: seq<Move>)
    decreases |ms|
  {
    Supplied(s, v) &&
    (|ms| == 0 || (CanMove(s, v, ms[0]) && var (s1, v1) := Moved(s, v, ms[0]); SuppliedMoves(s1, v1, ms[1..])))
  }

  /** No entry point of the driver brings a rate onto the books without its voltage. */
  lemma DriverSupplied(s: St, v: VP.St, x: Step)
    requires WF(s) && Enabled(s, x) && Agree(s, v) && ReadsRail(s, x, v) && Supplied(s, v) && VP.RailInv(v)
    ensures Supplied(Next(s, x), v)
  {
    var w := v.(reqRate := Next(s, x).reqRate);
    StepTakesSteps(s, x, v);
    LowersNothing(s, x);
    GateKeepsCover(v, GateSteps(s, x), w);
  }

  lemma LowersNothing(s: St, x: Step)
    requires WF(s) && Enabled(s, x)
    ensures forall k :: 0 <= k < |GateSteps(s, x)| ==> !VP.Lowers(GateSteps(s, x)[k])
  {
  }

  lemma GateKeepsCover(v: VP.St, xs: seq<VP.Step>, w: VP.St)
    requires VP.Reaches(v, xs, w) && forall k :: 0 <= k < |xs| ==> !VP.Lowers(xs[k])
    requires VP.VoltCover(v) && VP.RailInv(v)
    ensures VP.VoltCover(w)
  {
    DriverCareful(v, xs, w);
    VP.RunExact(v, xs, w);
  }

  lemma MoveExact(s: St, v: VP.St, m: Move)
    requires CanMove(s, v, m) && CoreInv(s) && Supplied(s, v) && VP.RailInv(v)
    ensures var (s1, v1) := Moved(s, v, m);
      CoreInv(s1) && Agree(s1, v1) && VP.RailInv(v1) && (Supplied(s1, v1) <==> CarefulMove(s, v, m))
  {
    match m
    case Driver(x) =>
      StepKeepsCore(s, x);
      DriverSupplied(s, v, x);
    case Rail(y) => VP.StepExact(v, y);
  }

  /**
   * Over every joint run, with any failures in the driver and in the probe: a rate above
   * 700 MHz on the driver's books has 850 mV on the rail throughout, exactly when every
   * restoring write is careful.
   */
  lemma {:induction false} JointExact(s: St, v: VP.St, ms: seq<Move>, t: St, w: VP.St)
    requires JointRun(s, v, ms, t, w) && CoreInv(s) && Agree(s, v) && Supplied(s, v) && VP.RailInv(v)
    ensures SuppliedMoves(s, v, ms) <==> CarefulMoves(s, v, ms)
    ensures CarefulMoves(s, v, ms) ==> Supplied(t, w)
    decreases |ms|
  {
    if |ms| > 0 {
      MoveExact(s, v, ms[0]);
      var (s1, v1) := Moved(s, v, ms[0]);
      if CarefulMove(s, v, ms[0]) {
        JointExact(s1, v1, ms[1..], t, w);
      } else {
        assert !SuppliedMoves(s1, v1, ms[1..]);
      }
    }
  }

  /** From module load, whatever the rail reads then. */
  lemma HighRateHasVolts(on: seq<bool>, rail: int, ms: seq<Move>, t: St, w: VP.St)
    requires JointRun(Boot(on), VP.St(SAFE_RATE, rail, VP.Idle, VP.Unloaded), ms, t, w)
    ensures var v := VP.St(SAFE_RATE, rail, VP.Idle, VP.Unloaded);
      && (SuppliedMoves(Boot(on), v, ms) <==> CarefulMoves(Boot(on), v, ms))
      && (CarefulMoves(Boot(on), v, ms) ==> (t.reqRate > 700_000_000 ==> w.rail >= 850_000))
  {
    BootCore(on);
    JointExact(Boot(on), VP.St(SAFE_RATE, rail, VP.Idle, VP.Unloaded), ms, t, w);
  }
}
