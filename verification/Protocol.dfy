/**
 * The clock and power-domain protocol of the devfreq layer as a state machine: one atomic
 * step per driver entry point, with every clock, runtime-PM, notifier and regulator result
 * chosen by the environment.
 */
module Protocol {
  import opened Common
  import opened Slots

  /** A kernel result: 0 or a negative errno. */
  type Err = x: int | x <= 0

  const ENODEV: int := -19
  const EAGAIN: int := -11
  const EPERM: int := -1
  const EBUSY: int := -16

  /** A notifier block: its bookkeeping, and the device in whose domain's chain it sits. */
  datatype Nb = Nb(armed: bool, core: Option<nat>, reg: Option<DevId>)

  /**
   * Runtime-PM state of one device and its power domain. `leaked` counts the references
   * that failed job starts took and nobody drops.
   */
  datatype Domain = Domain(usage: int, on: bool, inFlight: bool, leaked: nat)

  /** A power domain went on or off while the clock ran at `rate`; `hooked`: a notifier acted first. */
  datatype Switch = Switch(dom: DevId, rate: nat, hooked: bool)

  datatype St = St(
    dev: seq<Option<DevId>>,
    nb: seq<Nb>,
    owner: Option<nat>,
    reqRate: nat,
    refsHeld: bool,
    unsafe: bool,
    reg: bool,
    clk: nat,
    dom: seq<Domain>,
    log: seq<Switch>)

  predicate WF(s: St) {
    && |s.nb| == MAX_NB
    && |s.dom| == |s.dev|
    && Distinct(s.dev) && InRange(s.dev)
    && (forall i :: 0 <= i < MAX_NB && s.nb[i].core.Some? ==> s.nb[i].core.value < |s.dev|)
    && (s.owner.Some? ==> s.owner.value < |s.dev|)
  }

  predicate IsBound(s: St, d: DevId)
    requires WF(s)
  {
    Lookup(s.dev, d) >= 0
  }

  /** Module load on an n-core board: nothing bound, the clock at its boot rate. */
  function Boot(on: seq<bool>): St {
    St(seq(|on|, _ => None), seq(MAX_NB, _ => Nb(false, None, None)), None, SAFE_RATE, false, false, false, SAFE_RATE,
       seq(|on|, d requires 0 <= d < |on| => Domain(0, on[d], false, 0)), [])
  }

  // ---------- Notifiers and domain switches ----------

  /** A block that is not an orphan. */
  predicate LiveBlock(s: St, i: nat)
    requires WF(s) && i < MAX_NB
  {
    s.nb[i].core.Some? && s.dev[s.nb[i].core.value].Some?
  }

  predicate ActsOn(s: St, i: nat, d: DevId)
    requires WF(s) && i < MAX_NB
  {
    s.nb[i].armed && s.nb[i].reg == Some(d) && LiveBlock(s, i)
  }

  /** A switch of d's domain reaches a block that acts on it. */
  predicate Hooked(s: St, d: DevId)
    requires WF(s)
  {
    s.owner.Some? && exists i :: 0 <= i < MAX_NB && ActsOn(s, i, d)
  }

  /** What an acting block does before the domain goes on or off; `ret` is its veto. */
  function NotifyAct(s: St, wr: Err): (St, Err) {
    if s.clk == SAFE_RATE then (s.(reqRate := SAFE_RATE), 0)
    else if wr == 0 then (s.(reqRate := SAFE_RATE, clk := SAFE_RATE), 0)
    else (s.(reqRate := SAFE_RATE), wr)
  }

  function Notify(s: St, d: DevId, wr: Err): (St, Err)
    requires WF(s)
  {
    if Hooked(s, d) then NotifyAct(s, wr) else (s, 0)
  }

  /** genpd switches d's domain; `honour` says whether this path obeys a veto. */
  function Flip(s: St, d: DevId, wr: Err, honour: bool): (r: (St, Err))
    requires WF(s) && d < |s.dom|
    ensures SameTables(s, r.0)
  {
    var (s1, veto) := Notify(s, d, wr);
    if veto != 0 && honour then (s1, veto)
    else (s1.(dom := s1.dom[d := s1.dom[d].(on := !s1.dom[d].on)],
              log := s1.log + [Switch(d, s1.clk, Hooked(s, d))]), 0)
  }

  predicate SameTables(s: St, s1: St) {
    s1 == s.(dom := s1.dom, clk := s1.clk, reqRate := s1.reqRate, log := s1.log) && |s1.dom| == |s.dom|
  }

  // ---------- Runtime PM ----------

  /** before: refused without a switch; wr, wr2: notifier writes; after: the resume callback. */
  datatype PmEnv = PmEnv(before: Err, wr: Err, after: Err, wr2: Err)

  /** Resumes d's device; the usage count is the caller's business. */
  function PowerUp(s: St, d: DevId, e: PmEnv): (r: (St, Err))
    requires WF(s) && d < |s.dom|
    ensures SameTables(s, r.0)
  {
    if s.dom[d].on || e.before < 0 then (s, e.before)
    else
      var (s1, veto) := Flip(s, d, e.wr, true);
      if veto != 0 then (s1, veto)
      else if e.after < 0 then (Flip(s1, d, e.wr2, true).0, e.after)
      else (s1, 0)
  }

  /** Resumes the live cores from slot i on, up to the first failure. */
  function WakeFrom(s: St, i: nat, e: seq<PmEnv>): (r: (St, Err))
    requires WF(s) && |e| == |s.dev| && i <= |s.dev|
    ensures SameTables(s, r.0)
    decreases |s.dev| - i
  {
    if i == |s.dev| then (s, 0)
    else if s.dev[i].None? then WakeFrom(s, i + 1, e)
    else
      var (s1, err) := PowerUp(s, s.dev[i].value, e[i]);
      if err < 0 then (s1, err) else WakeFrom(s1, i + 1, e)
  }

  /** The two states' domains differ in usage counts only. */
  predicate OnlyUsage(s: St, r: St) {
    |r.dom| == |s.dom| && forall d :: 0 <= d < |s.dom| ==> r.dom[d] == s.dom[d].(usage := r.dom[d].usage)
  }

  /** Adds k to the usage count of every device in slots lo to hi - 1. */
  function AddUsage(s: St, lo: nat, hi: nat, k: int): (r: St)
    requires WF(s)
    ensures r == s.(dom := r.dom) && OnlyUsage(s, r)
  {
    s.(dom := seq(|s.dom|, d requires 0 <= d < |s.dom| =>
        if lo <= Lookup(s.dev, d) < hi then s.dom[d].(usage := s.dom[d].usage + k) else s.dom[d]))
  }

  function ReleaseAll(s: St): (r: St)
    requires WF(s)
    ensures r == s.(dom := r.dom) && OnlyUsage(s, r)
  {
    AddUsage(s, 0, |s.dev|, -1)
  }

  /** All or nothing: one reference on every live core, or on none. */
  function HoldAll(s: St, e: seq<PmEnv>): (St, Err)
    requires WF(s) && |e| == |s.dev|
  {
    var (s1, err) := WakeFrom(s, 0, e);
    if err < 0 then (s1, err) else (AddUsage(s1, 0, |s1.dev|, 1), 0)
  }

  lemma ReleaseUndoesHold(s: St)
    requires WF(s)
    ensures ReleaseAll(AddUsage(s, 0, |s.dev|, 1)) == s
  {
    var h := AddUsage(s, 0, |s.dev|, 1);
    assert ReleaseAll(h).dom == s.dom;
  }

  /** Releasing what a successful hold took leaves only its wake-ups. */
  lemma HoldThenRelease(s: St, e: seq<PmEnv>)
    requires WF(s) && |e| == |s.dev|
    ensures HoldAll(s, e).1 == 0 ==> WF(HoldAll(s, e).0) && ReleaseAll(HoldAll(s, e).0) == WakeFrom(s, 0, e).0
  {
    ReleaseUndoesHold(WakeFrom(s, 0, e).0);
  }

  // ---------- target ----------

  function ArmedCount(nb: seq<Nb>): nat {
    if |nb| == 0 then 0 else ArmedCount(nb[..|nb| - 1]) + (if nb[|nb| - 1].armed then 1 else 0)
  }

  predicate AllGuarded(s: St) {
    ArmedCount(s.nb) == |s.dev|
  }

  /** uv: the regulator reading; got: the rate a successful write really yields. */
  datatype TargetEnv = TargetEnv(oppErr: Err, pm: seq<PmEnv>, uv: int, wr: Err, got: nat)

  /** freq is the rate reported back to the devfreq core. */
  datatype TargetOut = TargetOut(st: St, ret: int, freq: nat)

  predicate EarlyExit(s: St, freq: nat) {
    freq == s.reqRate && (freq == SAFE_RATE || !s.unsafe) && s.clk == freq
  }

  /** After the write: keep the new references as the boost set, or drop every set. */
  function Settle(s: St): (r: St)
    requires WF(s)
    ensures r == s.(dom := r.dom, refsHeld := s.reqRate > SAFE_RATE) && |r.dom| == |s.dom|
  {
    if s.reqRate > SAFE_RATE then
      (if s.refsHeld then ReleaseAll(s) else s).(refsHeld := true)
    else
      ReleaseAll(if s.refsHeld then ReleaseAll(s.(refsHeld := false)) else s)
  }

  function Target(s: St, freq: nat, e: TargetEnv): (r: TargetOut)
    requires WF(s) && |e.pm| == |s.dev|
    ensures r.st.dev == s.dev && |r.st.dom| == |s.dom|
  {
    if e.oppErr != 0 then TargetOut(s, e.oppErr, freq)
    else if s.owner.None? then TargetOut(s, ENODEV, freq)
    else if EarlyExit(s, freq) then TargetOut(s, 0, freq)
    else if freq > SAFE_RATE && (s.unsafe || !AllGuarded(s)) then TargetOut(s, EAGAIN, freq)
    else if freq > HIGH_RATE && (if s.reg then e.uv else ENODEV) < VOLT_FOR_HIGH then TargetOut(s, EPERM, freq)
    else ChangeRate(s, freq, e)
  }

  /** A granted request: wake and hold every core, write, settle the references. */
  function ChangeRate(s: St, freq: nat, e: TargetEnv): (r: TargetOut)
    requires WF(s) && |e.pm| == |s.dev|
    ensures r.st == s.(dom := r.st.dom, clk := r.st.clk, reqRate := r.st.reqRate, log := r.st.log,
                       refsHeld := r.st.refsHeld)
    ensures |r.st.dom| == |s.dom|
  {
    var (s1, err) := HoldAll(s, e.pm);
    if err < 0 then TargetOut(s1, err, freq)
    else if e.wr == 0 then TargetOut(Settle(s1.(reqRate := freq, clk := e.got)), 0, e.got)
    else TargetOut(Settle(s1), e.wr, freq)
  }

  // ---------- suspend, shutdown ----------

  /** The driver's part of a runtime suspend; it takes no lock. */
  function SuspendCb(s: St, idle: bool, wr: Err): (St, Err) {
    if !idle then (s, EBUSY)
    else if s.owner.None? then (s, 0)
    else if wr != 0 then (s, EBUSY)
    else (s.(clk := SAFE_RATE), 0)
  }

  /** A suspend callback followed by the domain going off. */
  function PowerDown(s: St, d: DevId, idle: bool, wr: Err, wr2: Err): (r: St)
    requires WF(s) && d < |s.dom|
    ensures SameTables(s, r)
  {
    var (s1, err) := SuspendCb(s, idle, wr);
    if err != 0 then s1 else Flip(s1, d, wr2, true).0
  }

  function Shutdown(s: St, d: DevId, wr: Err): St
    requires WF(s) && d < |s.dom|
  {
    if IsBound(s, d) && s.owner == Some(Lookup(s.dev, d)) && s.dom[d].on && wr == 0
    then s.(clk := SAFE_RATE) else s
  }

  // ---------- Arming ----------

  predicate NeedsArm(s: St, i: nat)
    requires WF(s)
  {
    i < |s.dev| && i < MAX_NB && s.dev[i].Some? && !s.nb[i].armed
  }

  function Arm(s: St, res: seq<Err>): (r: St)
    requires WF(s) && |res| == MAX_NB
    ensures r == s.(nb := r.nb, unsafe := r.unsafe)
  {
    s.(nb := seq(MAX_NB, i requires 0 <= i < MAX_NB =>
          if !NeedsArm(s, i) then s.nb[i]
          else if res[i] == 0 then Nb(true, Some(i), s.dev[i])
          else s.nb[i].(core := None)),
       unsafe := s.unsafe || exists i :: 0 <= i < MAX_NB && NeedsArm(s, i) && res[i] != 0)
  }

  /** pm: baseline read; then the regulator, the OPP set-up, the devfreq device, the notifiers. */
  datatype InitEnv = InitEnv(pm: PmEnv, regErr: Err, setupErr: Err, addErr: Err, arm: seq<Err>)

  function Init(s: St, c: nat, e: InitEnv): (r: St)
    requires WF(s) && c < |s.dev| && s.dev[c].Some? && |e.arm| == MAX_NB
    ensures r.dev == s.dev && |r.dom| == |s.dom|
  {
    if s.owner.Some? then s
    else
      var (s1, err) := PowerUp(s, s.dev[c].value, e.pm);
      if err < 0 || s1.clk != SAFE_RATE then s1
      else
        var s2 := s1.(reg := e.regErr == 0);
        if e.setupErr != 0 then s2
        else
          var s3 := s2.(reqRate := SAFE_RATE, refsHeld := false);
          if e.addErr != 0 then s3 else Arm(s3.(owner := Some(c)), e.arm)
  }

  // ---------- Removal ----------

  /** wr: write in core_removed; rm: own notifier; wr2: write in fini; rmAll: fini's net. */
  datatype RemoveEnv = RemoveEnv(wr: Err, rm: Err, wr2: Err, rmAll: seq<Err>)

  function DropBoost(s: St, wr: Err): (r: St)
    requires WF(s)
    ensures r == s.(dom := r.dom, reqRate := r.reqRate, clk := r.clk, refsHeld := r.refsHeld, unsafe := r.unsafe)
    ensures OnlyUsage(s, r)
  {
    if s.owner.None? then s
    else
      var s1 := s.(reqRate := SAFE_RATE,
                   clk := if wr == 0 then SAFE_RATE else s.clk,
                   unsafe := s.unsafe || (s.clk != SAFE_RATE && wr != 0));
      if s1.refsHeld then ReleaseAll(s1.(refsHeld := false)) else s1
  }

  /** The first armed block of slot c, or MAX_NB. */
  function OwnBlock(nb: seq<Nb>, c: nat): (i: nat)
    ensures i <= |nb|
    ensures i < |nb| ==> nb[i].armed && nb[i].core == Some(c)
    ensures forall k :: 0 <= k < i ==> !(nb[k].armed && nb[k].core == Some(c))
  {
    if |nb| == 0 then 0
    else
      var i := OwnBlock(nb[..|nb| - 1], c);
      if i < |nb| - 1 then i
      else if nb[|nb| - 1].armed && nb[|nb| - 1].core == Some(c) then |nb| - 1 else |nb|
  }

  function DropBlock(s: St, c: nat, rm: Err): (r: St)
    requires WF(s)
    ensures r == s.(nb := r.nb, unsafe := r.unsafe)
  {
    var i := OwnBlock(s.nb, c);
    if i == MAX_NB then s
    else if rm != 0 then s.(unsafe := true)
    else s.(nb := s.nb[i := Nb(false, None, None)])
  }

  function DisarmAll(s: St, rm: seq<Err>): (r: St)
    requires WF(s) && |rm| == MAX_NB
    ensures r == s.(nb := r.nb)
  {
    s.(nb := seq(MAX_NB, i requires 0 <= i < MAX_NB =>
        if s.nb[i].armed && LiveBlock(s, i) && rm[i] == 0 then Nb(false, None, None) else s.nb[i]))
  }

  function Fini(s: St, c: nat, e: RemoveEnv): (r: St)
    requires WF(s) && c < |s.dev| && s.dev[c].Some? && |e.rmAll| == MAX_NB
    ensures r.dev == s.dev && r.log == s.log && OnlyUsage(s, r)
  {
    if s.owner != Some(c) then s
    else
      var s1 := s.(reqRate := SAFE_RATE);
      var s2 := if (s1.refsHeld || s1.dom[s.dev[c].value].on) && e.wr2 == 0 then s1.(clk := SAFE_RATE) else s1;
      var s3 := if s2.refsHeld then ReleaseAll(s2.(refsHeld := false)) else s2;
      DisarmAll(s3.(owner := None), e.rmAll)
  }

  // ---------- Steps ----------

  datatype ProbeEnv = ProbeEnv(attachWr: Err, coreErr: Err, init: InitEnv)

  datatype Step =
    | Probe(d: DevId, pe: ProbeEnv)
    | Remove(d: DevId, re: RemoveEnv)
    | SetTarget(freq: nat, te: TargetEnv)
    | RuntimeOff(d: DevId, idle: bool, wr: Err, wr2: Err)
    | ForcedOff(d: DevId, idle: bool, wr: Err, wr2: Err)
    | ForcedOn(d: DevId, wr: Err)
    | UnboundSwitch(d: DevId, wr: Err)
    | JobStart(d: DevId, pm: PmEnv, attachErr: Err)
    | JobEnd(d: DevId)
    | Reboot(d: DevId, wr: Err)
    | ForeignWrite(rate: nat)

  function Attach(s: St, d: DevId, wr: Err): (r: (St, Err))
    requires WF(s) && d < |s.dom|
    ensures SameTables(s, r.0)
  {
    if s.dom[d].on then (s, 0) else Flip(s, d, wr, true)
  }

  /** The core in slot c has come up; slot 0 registers the devfreq device, the others arm. */
  function CoreUp(s: St, c: nat, e: InitEnv): (r: St)
    requires WF(s) && c < |s.dev| && s.dev[c].Some? && |e.arm| == MAX_NB
    ensures r.dev == s.dev && |r.dom| == |s.dom|
  {
    if c == 0 then Init(s, c, e) else if s.owner.Some? then Arm(s, e.arm) else s
  }

  function DoProbe(s: St, d: DevId, e: ProbeEnv): (r: St)
    requires WF(s) && d < |s.dom| && !IsBound(s, d) && |e.init.arm| == MAX_NB
    ensures |r.dev| == |s.dev| && |r.dom| == |s.dom|
  {
    var (s1, veto) := Attach(s, d, e.attachWr);
    var c := FirstFree(s1.dev);
    if veto != 0 || c == |s1.dev| || e.coreErr != 0 then s1
    else
      LookupOthers(s1.dev, c, Some(d));
      CoreUp(s1.(dev := s1.dev[c := Some(d)]), c, e.init)
  }

  /** What a removal does after core_removed has given up the boost and its lock. */
  function RemoveRest(s: St, c: nat, e: RemoveEnv): (r: St)
    requires WF(s) && c < |s.dev| && s.dev[c].Some? && |e.rmAll| == MAX_NB
    ensures r.dev == s.dev[c := None] && r.log == s.log && OnlyUsage(s, r)
  {
    var s1 := Fini(DropBlock(s, c, e.rm), c, e);
    s1.(dev := s1.dev[c := None])
  }

  function DoRemove(s: St, d: DevId, e: RemoveEnv): (r: St)
    requires WF(s) && IsBound(s, d) && |e.rmAll| == MAX_NB
    ensures r.dev == s.dev[Lookup(s.dev, d) := None] && r.log == s.log && OnlyUsage(s, r)
  {
    RemoveRest(DropBoost(s, e.wr), Lookup(s.dev, d), e)
  }

  /** get_sync keeps its reference whatever it returns; only a full start makes the job the core's. */
  function StartJob(s: St, d: DevId, e: PmEnv, attachErr: Err): St
    requires WF(s) && d < |s.dom|
  {
    var (s1, err) := PowerUp(s, d, e);
    var p := s1.dom[d].(usage := s1.dom[d].usage + 1);
    s1.(dom := s1.dom[d := if err == 0 && attachErr == 0 then p.(inFlight := true) else p.(leaked := p.leaked + 1)])
  }

  predicate Enabled(s: St, x: Step)
    requires WF(s)
  {
    match x
    case Probe(d, pe) => d < |s.dom| && !IsBound(s, d) && |pe.init.arm| == MAX_NB
    case Remove(d, re) => d < |s.dom| && IsBound(s, d) && |re.rmAll| == MAX_NB && !s.dom[d].inFlight
    case SetTarget(freq, te) => |te.pm| == |s.dev| && freq >= SAFE_RATE
    case RuntimeOff(d, _, _, _) => d < |s.dom| && IsBound(s, d) && s.dom[d].on && s.dom[d].usage == 0
    case ForcedOff(d, _, _, _) => d < |s.dom| && IsBound(s, d) && s.dom[d].on
    case ForcedOn(d, _) => d < |s.dom| && IsBound(s, d) && !s.dom[d].on
    case UnboundSwitch(d, _) => d < |s.dom| && !IsBound(s, d)
    case JobStart(d, _, _) => d < |s.dom| && IsBound(s, d) && !s.dom[d].inFlight
    case JobEnd(d) => d < |s.dom| && s.dom[d].inFlight
    case Reboot(d, _) => d < |s.dom|
    case ForeignWrite(_) => true
  }

  function Next(s: St, x: Step): St
    requires WF(s) && Enabled(s, x)
  {
    match x
    case Probe(d, pe) => DoProbe(s, d, pe)
    case Remove(d, re) => DoRemove(s, d, re)
    case SetTarget(freq, te) => Target(s, freq, te).st
    case RuntimeOff(d, idle, wr, wr2) => PowerDown(s, d, idle, wr, wr2)
    case ForcedOff(d, idle, wr, wr2) => PowerDown(s, d, idle, wr, wr2)
    case ForcedOn(d, wr) => Flip(s, d, wr, false).0
    case UnboundSwitch(d, wr) => Flip(s, d, wr, true).0
    case JobStart(d, pm, attachErr) => StartJob(s, d, pm, attachErr)
    case JobEnd(d) => s.(dom := s.dom[d := s.dom[d].(usage := s.dom[d].usage - 1, inFlight := false)])
    case Reboot(d, wr) => Shutdown(s, d, wr)
    case ForeignWrite(rate) => s.(clk := rate)
  }
}
