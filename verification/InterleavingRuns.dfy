/**
 * What the phases add up to when nothing comes between them: a rate change sets the clock and
 * keeps or drops the boost, a suspend takes its core off, a resume brings it back, and each
 * failure leaves what the atomic entry points leave. So the boosts that the interleavings are
 * safe against do occur.
 */
module InterleavingRuns {
  import opened Common
  import opened Interleaving

  ghost predicate Can(s: St, t: St) {
    exists xs :: Reaches(s, xs, t)
  }

  lemma Now(s: St)
    ensures Can(s, s)
  {
    assert Reaches(s, [], s);
  }

  lemma {:induction false} Append(s: St, xs: seq<Step>, t: St, ys: seq<Step>, u: St)
    requires Reaches(s, xs, t) && Reaches(t, ys, u)
    ensures Reaches(s, xs + ys, u)
    decreases |xs|
  {
    if |xs| == 0 {
      assert xs + ys == ys;
    } else {
      assert (xs + ys)[1..] == xs[1..] + ys;
      Append(Next(s, xs[0]), xs[1..], t, ys, u);
    }
  }

  lemma Then(s: St, t: St, x: Step, u: St)
    requires Can(s, t) && WF(t) && Guard(t, x) && Next(t, x) == u
    ensures Can(s, u)
  {
    var xs :| Reaches(s, xs, t);
    assert [x][1..] == [];
    assert Reaches(t, [x], u);
    Append(s, xs, t, [x], u);
  }

  predicate AllActive(s: St) {
    forall i :: 0 <= i < |s.phase| ==> s.phase[i] == Active
  }

  /** The counts of the first k cores are m higher. */
  function Plus(u: seq<int>, k: nat, m: int): seq<int> {
    seq(|u|, i requires 0 <= i < |u| => if i < k then u[i] + m else u[i])
  }

  lemma PlusOneMore(u: seq<int>, k: nat, m: int)
    requires k < |u|
    ensures Plus(u, k + 1, m) == Plus(u, k, m)[k := Plus(u, k, m)[k] + m]
  {
  }

  // ---------- A rate change ----------

  function Holding(s: St, f: nat, k: nat): St {
    s.(pc := Hold(f, k), usage := Plus(s.usage, k, 1))
  }

  lemma {:induction false} HoldRuns(s: St, f: nat, k: nat)
    requires WF(s) && s.pc.Idle? && AllActive(s) && f >= SAFE_RATE && k <= N(s)
    ensures Can(s, Holding(s, f, k))
  {
    if k == 0 {
      Now(s);
      assert Plus(s.usage, 0, 1) == s.usage;
      Then(s, s, Start(f), Holding(s, f, 0));
    } else {
      HoldRuns(s, f, k - 1);
      PlusOneMore(s.usage, k - 1, 1);
      var h := Holding(s, f, k - 1);
      var w := Next(h, Get(true));
      Then(s, h, Get(true), w);
      Then(s, w, Got(true), Holding(s, f, k));
    }
  }

  predicate Dropping(p: Pc) {
    p.DropOldKeepNew? || p.DropOld? || p.DropNew?
  }

  function Dropped(s: St, k: nat): St
    requires Dropping(s.pc)
  {
    s.(pc := s.pc.(k := k), usage := Plus(s.usage, k, -1))
  }

  lemma {:induction false} DropRuns(a: St, s: St, k: nat)
    requires WF(s) && Dropping(s.pc) && s.pc.k == 0 && k <= N(s) && Can(a, s)
    ensures Can(a, Dropped(s, k))
  {
    if k == 0 {
      assert Plus(s.usage, 0, -1) == s.usage;
      assert Dropped(s, 0) == s;
    } else {
      DropRuns(a, s, k - 1);
      PlusOneMore(s.usage, k - 1, -1);
      Then(a, Dropped(s, k - 1), DropOne, Dropped(s, k));
    }
  }

  /** All cores' counts, m higher. */
  function AllPlus(u: seq<int>, m: int): seq<int> {
    Plus(u, |u|, m)
  }

  lemma DropAll(a: St, s: St)
    requires WF(s) && Dropping(s.pc) && s.pc.k == 0 && Can(a, s)
    ensures Can(a, Drop(Dropped(s, N(s)))) && Drop(Dropped(s, N(s))).usage == AllPlus(s.usage, -1)
  {
    DropRuns(a, s, N(s));
    Then(a, Dropped(s, N(s)), DropOne, Drop(Dropped(s, N(s))));
  }

  function Rate(s: St, f: nat, ok: bool): nat {
    if ok then f else s.reqRate
  }

  /** Before the references are settled: one set more than before, the write done or failed. */
  function Written(s: St, f: nat, ok: bool, got: nat): St {
    s.(pc := Settle, usage := AllPlus(s.usage, 1), reqRate := Rate(s, f, ok), clk := if ok then got else s.clk)
  }

  lemma WriteRuns(s: St, f: nat, ok: bool, got: nat)
    requires WF(s) && s.pc.Idle? && AllActive(s) && f >= SAFE_RATE && (ok && f == SAFE_RATE ==> got == SAFE_RATE)
    ensures Can(s, Written(s, f, ok, got))
  {
    HoldRuns(s, f, N(s));
    var h := Holding(s, f, N(s));
    var p := h.(pc := Publish(f));
    Then(s, h, PublishRate, p);
    var w := p.(pc := Write(f, s.reqRate), reqRate := f);
    Then(s, p, PublishRate, w);
    Then(s, w, WriteRate(ok, got), Written(s, f, ok, got));
  }

  /** The rate as written, and the boost set kept or dropped with it. */
  function Changed(s: St, f: nat, ok: bool, got: nat): St {
    var boost := Rate(s, f, ok) > SAFE_RATE;
    s.(reqRate := Rate(s, f, ok), clk := if ok then got else s.clk, refsHeld := boost,
       usage := AllPlus(s.usage, Bit(boost) - Bit(s.refsHeld)))
  }

  lemma SettleRuns(s: St, f: nat, ok: bool, got: nat)
    requires WF(s) && s.pc.Idle? && Can(s, Written(s, f, ok, got))
    ensures Can(s, Changed(s, f, ok, got))
  {
    var w := Written(s, f, ok, got);
    var n := Next(w, SettleRefs);
    Then(s, w, SettleRefs, n);
    if w.reqRate > SAFE_RATE && !s.refsHeld {
      assert n == Changed(s, f, ok, got);
    } else {
      DropAll(s, n);
      var d := Drop(Dropped(n, N(n)));
      if n.pc.DropOld? {
        DropAll(s, d);
        assert Drop(Dropped(d, N(d))).usage == Changed(s, f, ok, got).usage;
        assert Drop(Dropped(d, N(d))) == Changed(s, f, ok, got);
      } else {
        assert d.usage == Changed(s, f, ok, got).usage;
        assert d == Changed(s, f, ok, got);
      }
    }
  }

  /** An undisturbed rate change, whatever its write does. */
  lemma RequestRuns(s: St, f: nat, ok: bool, got: nat)
    requires WF(s) && s.pc.Idle? && AllActive(s) && f >= SAFE_RATE && (ok && f == SAFE_RATE ==> got == SAFE_RATE)
    ensures Can(s, Changed(s, f, ok, got))
  {
    WriteRuns(s, f, ok, got);
    SettleRuns(s, f, ok, got);
  }

  /** Boosts occur: from boot, with all cores awake, any rate above 200 MHz is reached and held. */
  lemma BoostReached(n: nat, f: nat) returns (t: St)
    requires f > SAFE_RATE
    ensures Can(Boot(seq(n, _ => false)), t)
    ensures t.pc.Idle? && t.clk == f && t.reqRate == f && t.refsHeld
    ensures |t.usage| == |t.phase| == n && forall i :: 0 <= i < n ==> t.usage[i] == 1 && t.phase[i] == Active
  {
    var s := Boot(seq(n, _ => false));
    t := Changed(s, f, true, f);
    RequestRuns(s, f, true, f);
  }

  // ---------- Power transitions ----------

  lemma SuspendFinds(s: St, i: nat)
    requires Inv(s) && Guard(s, BeginSuspend(i))
    ensures s.clk == SAFE_RATE && s.reqRate == SAFE_RATE
  {
    SuspendKeepsInv(s, i);
    InTransition(Next(s, BeginSuspend(i)), i);
  }

  lemma AtAgain(s: St, i: nat, p: Phase, q: Phase)
    requires i < |s.phase|
    ensures At(At(s, i, p), i, q) == At(s, i, q)
  {
    assert s.phase[i := p][i := q] == s.phase[i := q];
  }

  /** Core i's domain has switched once more, at the safe rate, and its transition stands at p. */
  function Switched(s: St, i: nat, p: Phase): St
    requires i < |s.phase|
  {
    At(s, i, p).(switches := s.switches + [SAFE_RATE])
  }

  /** The notifier and the switch itself, off or on. */
  lemma NotifierRuns(a: St, s: St, i: nat, off: bool)
    requires Can(a, s) && WF(s) && i < N(s) && s.phase[i] == (if off then PreOff else PreOn)
    requires s.clk == SAFE_RATE && s.reqRate == SAFE_RATE
    ensures Can(a, At(s, i, if off then SwitchOff else SwitchOn))
  {
    var s1 := At(s, i, if off then PreOffReset else PreOnReset);
    Then(a, s, NotifierWrite(i, true), s1);
    AtAgain(s, i, s1.phase[i], if off then SwitchOff else SwitchOn);
    Then(a, s1, NotifierReset(i), At(s, i, if off then SwitchOff else SwitchOn));
  }

  lemma SwitchRuns(a: St, s: St, i: nat, off: bool)
    requires Can(a, s) && WF(s) && i < N(s) && s.phase[i] == (if off then PreOff else PreOn)
    requires s.clk == SAFE_RATE && s.reqRate == SAFE_RATE
    ensures Can(a, Switched(s, i, if off then Suspended else ResumeCb))
  {
    var w := if off then SwitchOff else SwitchOn;
    NotifierRuns(a, s, i, off);
    AtAgain(s, i, w, if off then Suspended else ResumeCb);
    Then(a, At(s, i, w), Flip(i), Switched(s, i, if off then Suspended else ResumeCb));
  }

  /** The lock-free write is on record. */
  function Wrote(s: St): St {
    s.(lockFree := s.lockFree + [(SAFE_RATE, SAFE_RATE)])
  }

  /** An undisturbed suspend of an unused core: one lock-free write, one switch, both at the safe rate. */
  lemma SuspendRuns(s: St, i: nat)
    requires Inv(s) && Guard(s, BeginSuspend(i))
    ensures Can(s, Switched(Wrote(s), i, Suspended))
  {
    SuspendFinds(s, i);
    Now(s);
    Then(s, s, BeginSuspend(i), At(s, i, Callback));
    AtAgain(Wrote(s), i, Callback, PreOff);
    var s2 := At(Wrote(s), i, PreOff);
    Then(s, At(s, i, Callback), CallbackWrite(i, true), s2);
    SwitchRuns(s, s2, i, true);
    AtAgain(Wrote(s), i, PreOff, Suspended);
    assert Switched(s2, i, Suspended) == Switched(Wrote(s), i, Suspended);
  }

  /** A suspend whose write fails is refused: the core stays on, nothing switches. */
  lemma RefusedSuspendRuns(s: St, i: nat)
    requires Inv(s) && Guard(s, BeginSuspend(i))
    ensures Can(s, s.(lockFree := s.lockFree + [(SAFE_RATE, SAFE_RATE)]))
  {
    SuspendFinds(s, i);
    Now(s);
    var s1 := At(s, i, Callback);
    Then(s, s, BeginSuspend(i), s1);
    var t := s.(lockFree := s.lockFree + [(SAFE_RATE, SAFE_RATE)]);
    assert Next(s1, CallbackWrite(i, false)).phase == t.phase;
    Then(s, s1, CallbackWrite(i, false), t);
  }

  /** An undisturbed resume, up to its callback: the domain is on, switched at the safe rate. */
  lemma SwitchedOnRuns(s: St, i: nat)
    requires Inv(s) && Guard(s, BeginResume(i))
    ensures s.clk == SAFE_RATE && s.reqRate == SAFE_RATE
    ensures Can(s, Switched(s, i, ResumeCb))
  {
    InTransition(s, i);
    Now(s);
    var s1 := At(s, i, PreOn);
    Then(s, s, BeginResume(i), s1);
    SwitchRuns(s, s1, i, false);
    AtAgain(s, i, PreOn, ResumeCb);
    assert Switched(s1, i, ResumeCb) == Switched(s, i, ResumeCb);
  }

  lemma ResumeRuns(s: St, i: nat)
    requires Inv(s) && Guard(s, BeginResume(i))
    ensures Can(s, Switched(s, i, Active))
  {
    SwitchedOnRuns(s, i);
    var s1 := Switched(s, i, ResumeCb);
    AtAgain(s, i, ResumeCb, Active);
    Then(s, s1, ResumeDone(i, true), Switched(s, i, Active));
  }

  /** A resume whose callback fails: the domain goes off again, both switches at the safe rate. */
  lemma FailedResumeRuns(s: St, i: nat)
    requires Inv(s) && Guard(s, BeginResume(i))
    ensures Can(s, s.(switches := s.switches + [SAFE_RATE] + [SAFE_RATE]))
  {
    SwitchedOnRuns(s, i);
    var s1 := Switched(s, i, ResumeCb);
    AtAgain(s, i, ResumeCb, PreOff);
    var s2 := Switched(s, i, PreOff);
    Then(s, s1, ResumeDone(i, false), s2);
    SwitchRuns(s, s2, i, true);
    AtAgain(s, i, PreOff, Suspended);
    assert At(s, i, Suspended) == s;
    assert Switched(s2, i, Suspended) == s.(switches := s.switches + [SAFE_RATE] + [SAFE_RATE]);
  }

  /** A job or another user takes or gives one reference on its own core and does nothing else. */
  lemma UsersExact(s: St, x: Step)
    requires WF(s) && Guard(s, x) && (x.OtherGet? || x.OtherPut?)
    ensures var t := Next(s, x); var k := if x.OtherGet? then 1 else -1;
      && t == s.(usage := t.usage, others := t.others)
      && |t.usage| == |s.usage| && |t.others| == |s.others|
      && t.usage[x.i] == s.usage[x.i] + k && t.others[x.i] == s.others[x.i] + k
      && forall j :: 0 <= j < N(s) && j != x.i ==> t.usage[j] == s.usage[j] && t.others[j] == s.others[j]
  {
  }
}
