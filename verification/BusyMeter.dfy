/**
 * The busy-time meter in 64-bit arithmetic, proved against the time each core was really
 * busy: the integral, over a trace of events, of "the last thing recorded was busy".
 */
module BusyMeter {
  import opened Common

  const TWO64: int := 0x1_0000_0000_0000_0000

  /** Kernel time stamps and accumulators: 64-bit words with wrap-around. */
  type Word = x: int | 0 <= x < TWO64

  function Add(a: Word, b: Word): Word {
    (a + b) % TWO64
  }

  function Sub(a: Word, b: Word): Word {
    (a - b) % TWO64
  }

  // ---------- One poll, one record ----------

  /** start: 0 while the core is not busy; busy: time accumulated since the last poll. */
  datatype Slot = Slot(start: Word, busy: Word)

  datatype Meter = Meter(slots: seq<Slot>, last: Word)

  datatype Report = Report(total: Word, busy: Word)

  function MarkBusy(p: Slot, now: Word): Slot {
    if p.start == 0 then p.(start := now) else p
  }

  function MarkIdle(p: Slot, now: Word): Slot {
    if p.start != 0 then Slot(0, Add(p.busy, Sub(now, p.start))) else p
  }

  /** What a poll reads off a slot. */
  function Reading(p: Slot, now: Word): Word {
    if p.start != 0 then Add(p.busy, Sub(now, p.start)) else p.busy
  }

  function Drained(p: Slot, now: Word): Slot {
    Slot(if p.start != 0 then now else 0, 0)
  }

  function Max(a: Word, b: Word): Word {
    if b > a then b else a
  }

  /** The largest reading of the first n slots; 0 when there is none. */
  function MaxReading(slots: seq<Slot>, n: nat, now: Word): (m: Word)
    requires n <= |slots|
    ensures forall i :: 0 <= i < n ==> Reading(slots[i], now) <= m
    ensures m == 0 || exists i :: 0 <= i < n && Reading(slots[i], now) == m
  {
    if n == 0 then 0 else Max(MaxReading(slots, n - 1, now), Reading(slots[n - 1], now))
  }

  function PollSlots(slots: seq<Slot>, n: nat, now: Word): seq<Slot>
    requires n <= |slots|
  {
    seq(|slots|, i requires 0 <= i < |slots| => if i < n then Drained(slots[i], now) else slots[i])
  }

  lemma PollOneMore(slots: seq<Slot>, n: nat, now: Word)
    requires n < |slots|
    ensures PollSlots(slots, n + 1, now) == PollSlots(slots, n, now)[n := Drained(slots[n], now)]
  {
  }

  function ReportOf(m: Meter, n: nat, now: Word): (r: Report)
    requires n <= |m.slots|
    ensures r.total >= 1 && r.busy <= r.total
  {
    var window := Sub(now, m.last);
    var total := if window == 0 then 1 else window;
    var busy := MaxReading(m.slots, n, now);
    Report(total, if busy > total then total else busy)
  }

  function Clamp(x: int, total: int): int {
    if x > total then total else x
  }

  /** A poll on a board of maxCores looks at core i; None when no core owns the device. */
  predicate Looks(maxCores: Option<nat>, i: nat) {
    maxCores.Some? && i < maxCores.value && i < MAX_NB
  }

  /** How many slots a poll looks at: every core's that has one, and none without an owner. */
  function Watched(maxCores: Option<nat>): (n: nat)
    ensures n <= MAX_NB
    ensures forall i: nat :: i < n <==> Looks(maxCores, i)
  {
    if maxCores.None? then 0 else if maxCores.value > MAX_NB then MAX_NB else maxCores.value
  }

  /** rocket_df_busy and rocket_df_busy_last_read. */
  class BusyTime {
    const slots: array<Slot>
    var last: Word

    ghost predicate Valid()
      reads this
    {
      slots.Length == MAX_NB
    }

    ghost function View(): Meter
      reads this, slots
    {
      Meter(slots[..], last)
    }

    constructor (now: Word)
      ensures Valid() && fresh(slots) && View() == Meter(seq(MAX_NB, _ => Slot(0, 0)), now)
    {
      slots := new Slot[MAX_NB](_ => Slot(0, 0));
      last := now;
      new;
      assert slots[..] == seq(MAX_NB, _ => Slot(0, 0));
    }

    /** rocket_devfreq_init begins a window and leaves the counters alone. */
    method RestartWindow(now: Word)
      requires Valid()
      modifies this`last
      ensures View() == Apply(old(View()), Restart(now))
    {
      last := now;
    }

    method RecordBusy(core: nat, now: Word)
      requires Valid()
      modifies slots
      ensures View() == Apply(old(View()), Busy(core, now))
    {
      if core >= MAX_NB {
        return;
      }
      if slots[core].start == 0 {
        slots[core] := slots[core].(start := now);
      }
    }

    method RecordIdle(core: nat, now: Word)
      requires Valid()
      modifies slots
      ensures View() == Apply(old(View()), Idle(core, now))
    {
      if core >= MAX_NB {
        return;
      }
      if slots[core].start != 0 {
        slots[core] := slots[core].(busy := Add(slots[core].busy, Sub(now, slots[core].start)));
        slots[core] := slots[core].(start := 0);
      }
    }

    /** Takes one counter, time in progress included, and lets it measure on from now. */
    method DrainSlot(i: nat, now: Word) returns (b: Word)
      requires Valid() && i < MAX_NB
      modifies slots
      ensures slots[..] == old(slots[..])[i := Drained(old(slots[i]), now)] && b == Reading(old(slots[i]), now)
    {
      b := slots[i].busy;
      if slots[i].start != 0 {
        b := Add(b, Sub(now, slots[i].start));
        slots[i] := slots[i].(start := now);
      }
      slots[i] := slots[i].(busy := 0);
    }

    /** The polling loop: drains the first n counters and keeps the largest. */
    method DrainSlots(n: nat, now: Word) returns (maxBusy: Word)
      requires Valid() && n <= MAX_NB
      modifies slots
      ensures slots[..] == PollSlots(old(slots[..]), n, now) && maxBusy == MaxReading(old(slots[..]), n, now)
    {
      ghost var before := slots[..];
      maxBusy := 0;
      for i := 0 to n
        invariant slots[..] == PollSlots(before, i, now)
        invariant maxBusy == MaxReading(before, i, now)
      {
        assert slots[..][i] == before[i];
        PollOneMore(before, i, now);
        var b := DrainSlot(i, now);
        if b > maxBusy {
          maxBusy := b;
        }
      }
    }

    /** Drains the watched counters; total and busy are what simple_ondemand divides. */
    method GetDevStatus(maxCores: Option<nat>, now: Word) returns (total: Word, busy: Word)
      requires Valid()
      modifies this`last, slots
      ensures View() == Apply(old(View()), Poll(Watched(maxCores), now))
      ensures Report(total, busy) == ReportOf(old(View()), Watched(maxCores), now)
      ensures 1 <= total && busy <= total
      ensures last == now && |View().slots| == |old(View()).slots|
      ensures forall i: nat :: i < MAX_NB && Looks(maxCores, i) ==>
        && slots[i].busy == 0 && (slots[i].start == if old(slots[i].start) == 0 then 0 else now)
        && Clamp(Reading(old(slots[i]), now), total) <= busy
      ensures forall i: nat :: i < MAX_NB && !Looks(maxCores, i) ==> slots[i] == old(slots[i])
      ensures busy == 0
           || exists i: nat :: i < MAX_NB && Looks(maxCores, i) && busy == Clamp(Reading(old(slots[i]), now), total)
    {
      ghost var before := slots[..];
      var maxBusy := DrainSlots(Watched(maxCores), now);
      var window := Sub(now, last);
      last := now;
      total := if window == 0 then 1 else window;
      busy := if maxBusy > total then total else maxBusy;
      assert forall i :: 0 <= i < MAX_NB ==> slots[i] == slots[..][i] && before[i] == old(slots[i]);
    }
  }

  // ---------- Traces ----------

  /** Restart: the devfreq device is registered again; a new window begins, the counters stay. */
  datatype Event =
    | Busy(core: nat, t: Word)
    | Idle(core: nat, t: Word)
    | Poll(n: nat, t: Word)
    | Restart(t: Word)

  function Apply(m: Meter, e: Event): Meter {
    match e
    case Busy(c, t) => if c < |m.slots| then m.(slots := m.slots[c := MarkBusy(m.slots[c], t)]) else m
    case Idle(c, t) => if c < |m.slots| then m.(slots := m.slots[c := MarkIdle(m.slots[c], t)]) else m
    case Poll(n, t) => if n <= |m.slots| then Meter(PollSlots(m.slots, n, t), t) else m
    case Restart(t) => m.(last := t)
  }

  /** The meter after a trace that starts at t0 with clean counters, and what polls took from each slot. */
  function MeterAfter(tr: seq<Event>, t0: Word): (m: Meter)
    ensures |m.slots| == MAX_NB
  {
    if |tr| == 0 then Meter(seq(MAX_NB, _ => Slot(0, 0)), t0)
    else Apply(MeterAfter(tr[..|tr| - 1], t0), tr[|tr| - 1])
  }

  function Taken(tr: seq<Event>, t0: Word, i: nat): nat
    requires i < MAX_NB
  {
    if |tr| == 0 then 0
    else
      var p, e := tr[..|tr| - 1], tr[|tr| - 1];
      Taken(p, t0, i) +
      (if e.Poll? && i < e.n <= MAX_NB then Reading(MeterAfter(p, t0).slots[i], e.t) else 0)
  }

  function Now(tr: seq<Event>, t0: Word): Word {
    if |tr| == 0 then t0 else tr[|tr| - 1].t
  }

  /** Core i is busy after the trace: the last record about it says so. */
  predicate IsBusy(tr: seq<Event>, i: nat) {
    if |tr| == 0 then false
    else
      var e := tr[|tr| - 1];
      if e.Busy? && e.core == i then true
      else if e.Idle? && e.core == i then false
      else IsBusy(tr[..|tr| - 1], i)
  }

  /** The time core i was busy between t0 and the last event. */
  function BusyNs(tr: seq<Event>, t0: Word, i: nat): int {
    if |tr| == 0 then 0
    else
      var p := tr[..|tr| - 1];
      BusyNs(p, t0, i) + (if IsBusy(p, i) then tr[|tr| - 1].t - Now(p, t0) else 0)
  }

  /** Stamps in lock order never go back, and no stamp is the idle mark 0. */
  predicate Ordered(tr: seq<Event>, t0: Word) {
    |tr| == 0 || (Ordered(tr[..|tr| - 1], t0) && tr[|tr| - 1].t >= Now(tr[..|tr| - 1], t0) && tr[|tr| - 1].t > 0)
  }

  lemma {:induction false} BusyNsBounds(tr: seq<Event>, t0: Word, i: nat)
    requires Ordered(tr, t0)
    ensures 0 <= BusyNs(tr, t0, i) <= Now(tr, t0) - t0
  {
    if |tr| > 0 {
      BusyNsBounds(tr[..|tr| - 1], t0, i);
    }
  }

  /** Time in progress, as the slot's start stamp knows it. */
  function InProgress(p: Slot, now: int): int {
    if p.start != 0 then now - p.start else 0
  }

  /**
   * Exact accounting for any ordered trace: drained plus accumulated plus in-progress time is
   * the core's true busy time, and a start stamp is set exactly while the core is busy.
   */
  lemma {:induction false} ExactAccounting(tr: seq<Event>, t0: Word, i: nat)
    requires Ordered(tr, t0) && i < MAX_NB
    ensures var p := MeterAfter(tr, t0).slots[i];
      && (p.start != 0 <==> IsBusy(tr, i))
      && p.start <= Now(tr, t0)
      && Taken(tr, t0, i) + p.busy + InProgress(p, Now(tr, t0)) == BusyNs(tr, t0, i)
  {
    if |tr| > 0 {
      var p, e := tr[..|tr| - 1], tr[|tr| - 1];
      ExactAccounting(p, t0, i);
      BusyNsBounds(p, t0, i);
      var q := MeterAfter(p, t0).slots[i];
      if q.start != 0 {
        NoWrap(q.busy, e.t, q.start);
      }
    }
  }

  lemma NoWrap(busy: Word, now: Word, start: Word)
    requires start <= now && busy + (now - start) < TWO64
    ensures Sub(now, start) == now - start && Add(busy, Sub(now, start)) == busy + (now - start)
  {
  }

  // ---------- Stamps in any order ----------

  /** All the time the meter ever credits to core i. */
  function Total(tr: seq<Event>, t0: Word, i: nat): int
    requires i < MAX_NB
  {
    var p := MeterAfter(tr, t0).slots[i];
    Taken(tr, t0, i) + p.busy + InProgress(p, Now(tr, t0))
  }

  /** Stamps in any order; only the idle mark 0 is none of them. */
  predicate Stamped(tr: seq<Event>) {
    forall k :: 0 <= k < |tr| ==> tr[k].t > 0
  }

  /** The two differ by a whole number of wraps of the 64-bit counters. */
  predicate Wraps(x: int, y: int) {
    (x - y) % TWO64 == 0
  }

  lemma WrapsAdd(x: int, y: int, u: int, v: int)
    requires Wraps(x, y) && Wraps(u, v)
    ensures Wraps(x + u, y + v) && Wraps(x - u, y - v)
  {
  }

  lemma WrapsReading(p: Slot, now: Word)
    ensures Wraps(Reading(p, now), p.busy + InProgress(p, now))
  {
  }

  /** Words that differ by whole wraps from a number are that number exactly when it is a word. */
  lemma WrapsExact(x: Word, y: int)
    requires Wraps(x, y)
    ensures x == y <==> 0 <= y < TWO64
  {
  }

  lemma WrapsTrans(x: int, y: int, z: int)
    requires Wraps(x, y) && Wraps(y, z)
    ensures Wraps(x, z)
  {
    WrapsAdd(x, y, y, z);
  }

  /** What one event adds to a slot's total: the time since the last event if the slot was running. */
  lemma EventAdds(p: Slot, now: Word, t: Word)
    requires t > 0
    ensures var more := if p.start != 0 then t - now else 0; var before := p.busy + InProgress(p, now) + more;
      && Wraps(MarkBusy(p, t).busy + InProgress(MarkBusy(p, t), t), before)
      && Wraps(MarkIdle(p, t).busy + InProgress(MarkIdle(p, t), t), before)
      && Wraps(Reading(p, t) + Drained(p, t).busy + InProgress(Drained(p, t), t), before)
      && p.busy + InProgress(p, t) == before
  {
    WrapsReading(p, t);
  }

  lemma TotalStep(tr: seq<Event>, t0: Word, i: nat)
    requires |tr| > 0 && tr[|tr| - 1].t > 0 && i < MAX_NB
    ensures var p, e := tr[..|tr| - 1], tr[|tr| - 1]; var q := MeterAfter(p, t0).slots[i];
      Wraps(Total(tr, t0, i), Total(p, t0, i) + if q.start != 0 then e.t - Now(p, t0) else 0)
  {
    var p, e := tr[..|tr| - 1], tr[|tr| - 1];
    EventAdds(MeterAfter(p, t0).slots[i], Now(p, t0), e.t);
  }

  /**
   * In any order of stamps the books never drift but by whole wraps: drained plus accumulated
   * plus in-progress time is the core's signed busy time modulo 2^64.
   */
  lemma {:induction false} AccountingWraps(tr: seq<Event>, t0: Word, i: nat)
    requires Stamped(tr) && i < MAX_NB
    ensures MeterAfter(tr, t0).slots[i].start != 0 <==> IsBusy(tr, i)
    ensures Wraps(Total(tr, t0, i), BusyNs(tr, t0, i))
  {
    if |tr| > 0 {
      var p, e := tr[..|tr| - 1], tr[|tr| - 1];
      AccountingWraps(p, t0, i);
      TotalStep(tr, t0, i);
      var more := if IsBusy(p, i) then e.t - Now(p, t0) else 0;
      WrapsTrans(Total(tr, t0, i), Total(p, t0, i) + more, BusyNs(p, t0, i) + more);
    }
  }

  // ---------- Reports ----------

  predicate NoPolls(tr: seq<Event>) {
    forall k :: 0 <= k < |tr| ==> !tr[k].Poll?
  }

  /** No poll, and no new window either. */
  predicate Quiet(tr: seq<Event>) {
    NoPolls(tr) && forall k :: 0 <= k < |tr| ==> !tr[k].Restart?
  }

  lemma {:induction false} QuietLast(a: seq<Event>, b: seq<Event>, t0: Word)
    requires Quiet(b)
    ensures MeterAfter(a + b, t0).last == MeterAfter(a, t0).last
  {
    if |b| == 0 {
      assert a + b == a;
    } else {
      var c := b[..|b| - 1];
      assert (a + b)[..|a + b| - 1] == a + c;
      assert (a + b)[|a + b| - 1] == b[|b| - 1];
      QuietLast(a, c, t0);
    }
  }

  lemma {:induction false} QuietTaken(a: seq<Event>, b: seq<Event>, t0: Word, i: nat)
    requires NoPolls(b) && i < MAX_NB
    ensures Taken(a + b, t0, i) == Taken(a, t0, i)
  {
    if |b| == 0 {
      assert a + b == a;
    } else {
      var c := b[..|b| - 1];
      assert (a + b)[..|a + b| - 1] == a + c;
      assert (a + b)[|a + b| - 1] == b[|b| - 1];
      QuietTaken(a, c, t0, i);
    }
  }

  /** a ends where the counters were last drained: at the start, or at a poll of n or more slots. */
  predicate DrainedAt(a: seq<Event>, n: nat) {
    |a| == 0 || (a[|a| - 1].Poll? && n <= a[|a| - 1].n <= MAX_NB)
  }

  /** The busy time of core i that falls into the window after a. */
  function Overlap(a: seq<Event>, b: seq<Event>, t0: Word, i: nat): int {
    BusyNs(a + b, t0, i) - BusyNs(a, t0, i)
  }

  lemma {:induction false} OverlapBounds(a: seq<Event>, b: seq<Event>, t0: Word, i: nat)
    requires Ordered(a + b, t0)
    ensures Ordered(a, t0) && Now(a, t0) <= Now(a + b, t0)
    ensures 0 <= Overlap(a, b, t0, i) <= Now(a + b, t0) - Now(a, t0)
  {
    if |b| == 0 {
      assert a + b == a;
    } else {
      assert (a + b)[..|a + b| - 1] == a + b[..|b| - 1];
      OverlapBounds(a, b[..|b| - 1], t0, i);
    }
  }

  lemma LastIsNow(a: seq<Event>, t0: Word, n: nat)
    requires DrainedAt(a, n)
    ensures MeterAfter(a, t0).last == Now(a, t0)
  {
  }

  /** Between drains, in any order of stamps: what was counted is the signed overlap modulo 2^64. */
  lemma CountedWraps(a: seq<Event>, b: seq<Event>, t0: Word, n: nat, i: nat)
    requires Stamped(a + b) && DrainedAt(a, n) && i < n <= MAX_NB
    ensures Wraps(Total(a + b, t0, i) - Taken(a, t0, i), Overlap(a, b, t0, i))
  {
    assert Stamped(a) by {
      assert forall k :: 0 <= k < |a| ==> (a + b)[k] == a[k];
    }
    AccountingWraps(a, t0, i);
    AccountingWraps(a + b, t0, i);
    DrainTotal(a, t0, n, i);
    WrapsAdd(Total(a + b, t0, i), BusyNs(a + b, t0, i), Total(a, t0, i), BusyNs(a, t0, i));
  }

  lemma DrainTotal(a: seq<Event>, t0: Word, n: nat, i: nat)
    requires DrainedAt(a, n) && i < n <= MAX_NB
    ensures Total(a, t0, i) == Taken(a, t0, i)
  {
    if |a| > 0 {
      var m := MeterAfter(a[..|a| - 1], t0);
      assert MeterAfter(a, t0).slots[i] == Drained(m.slots[i], Now(a, t0));
    }
  }

  /**
   * A poll reads a slot right exactly when the core's signed busy time in the window is neither
   * negative nor too long for a counter.
   */
  lemma ReadingExact(a: seq<Event>, b: seq<Event>, t0: Word, n: nat, t: Word, i: nat)
    requires Stamped(a + b + [Poll(n, t)]) && DrainedAt(a, n) && NoPolls(b) && i < n <= MAX_NB
    ensures var overlap := Overlap(a, b + [Poll(n, t)], t0, i);
      Reading(MeterAfter(a + b, t0).slots[i], t) == overlap <==> 0 <= overlap < TWO64
  {
    var tr := a + b + [Poll(n, t)];
    assert tr[..|tr| - 1] == a + b;
    assert tr == a + (b + [Poll(n, t)]);
    QuietTaken(a, b, t0, i);
    CountedWraps(a, b + [Poll(n, t)], t0, n, i);
    DrainTotal(tr, t0, n, i);
    assert Taken(tr, t0, i) == Taken(a + b, t0, i) + Reading(MeterAfter(a + b, t0).slots[i], t);
    WrapsExact(Reading(MeterAfter(a + b, t0).slots[i], t), Overlap(a, b + [Poll(n, t)], t0, i));
  }

  /** An idle core's counter, whatever stale stamps went into it, is right under the same condition. */
  lemma IdleExact(a: seq<Event>, b: seq<Event>, t0: Word, n: nat, i: nat)
    requires Stamped(a + b) && DrainedAt(a, n) && NoPolls(b) && i < n <= MAX_NB && !IsBusy(a + b, i)
    ensures var overlap := Overlap(a, b, t0, i);
      MeterAfter(a + b, t0).slots[i].busy == overlap <==> 0 <= overlap < TWO64
  {
    AccountingWraps(a + b, t0, i);
    QuietTaken(a, b, t0, i);
    CountedWraps(a, b, t0, n, i);
    WrapsExact(MeterAfter(a + b, t0).slots[i].busy, Overlap(a, b, t0, i));
  }

  /** A poll reports the window right exactly when its own stamp is not older than the last poll's. */
  lemma WindowTotalExact(a: seq<Event>, b: seq<Event>, t0: Word, n: nat, t: Word)
    requires DrainedAt(a, n) && Quiet(b) && n <= MAX_NB
    ensures var w := t - Now(a, t0);
      ReportOf(MeterAfter(a + b, t0), n, t).total == (if w == 0 then 1 else w) <==> w >= 0
  {
    QuietLast(a, b, t0);
    LastIsNow(a, t0, n);
  }

  /**
   * Whatever the order of the stamps: when no window and no overlap in it comes out negative,
   * a poll reports exactly the window and the largest overlap; the clamp never bites.
   */
  lemma ReportInRange(a: seq<Event>, b: seq<Event>, t0: Word, n: nat, t: Word)
    requires Stamped(a + b + [Poll(n, t)]) && DrainedAt(a, n) && Quiet(b) && n <= MAX_NB
    requires var w := t - Now(a, t0);
      w >= 0 && forall i :: 0 <= i < n ==> 0 <= Overlap(a, b + [Poll(n, t)], t0, i) <= w
    ensures var r := ReportOf(MeterAfter(a + b, t0), n, t); var w := t - Now(a, t0);
      && r.total == (if w == 0 then 1 else w)
      && (forall i :: 0 <= i < n ==> Overlap(a, b + [Poll(n, t)], t0, i) <= r.busy)
      && (r.busy == 0 || exists i :: 0 <= i < n && r.busy == Overlap(a, b + [Poll(n, t)], t0, i))
  {
    WindowTotalExact(a, b, t0, n, t);
    var slots := MeterAfter(a + b, t0).slots;
    forall i | 0 <= i < n ensures Reading(slots[i], t) == Overlap(a, b + [Poll(n, t)], t0, i) {
      ReadingExact(a, b, t0, n, t, i);
    }
    assert MaxReading(slots, n, t) <= t - Now(a, t0);
  }

  lemma {:induction false} OrderedStamped(tr: seq<Event>, t0: Word)
    requires Ordered(tr, t0)
    ensures Stamped(tr)
  {
    if |tr| > 0 {
      OrderedStamped(tr[..|tr| - 1], t0);
      assert forall k :: 0 <= k < |tr| - 1 ==> tr[k] == tr[..|tr| - 1][k];
    }
  }

  /**
   * From clean counters and stamps in order, a poll reports exactly the window and the
   * largest overlap of a core's busy time with it; the clamp to the window never bites.
   */
  lemma ReportExact(a: seq<Event>, b: seq<Event>, t0: Word, n: nat, t: Word)
    requires Ordered(a + b + [Poll(n, t)], t0) && DrainedAt(a, n) && Quiet(b) && n <= MAX_NB
    ensures var r := ReportOf(MeterAfter(a + b, t0), n, t); var w := t - Now(a, t0);
      && w >= 0 && r.total == (if w == 0 then 1 else w)
      && (forall i :: 0 <= i < n ==> 0 <= Overlap(a, b + [Poll(n, t)], t0, i) <= r.busy)
      && (r.busy == 0 || exists i :: 0 <= i < n && r.busy == Overlap(a, b + [Poll(n, t)], t0, i))
  {
    OrderedStamped(a + b + [Poll(n, t)], t0);
    assert a + b + [Poll(n, t)] == a + (b + [Poll(n, t)]);
    OverlapBounds(a, b + [Poll(n, t)], t0, 0);
    forall i | 0 <= i < n ensures 0 <= Overlap(a, b + [Poll(n, t)], t0, i) <= t - Now(a, t0) {
      OverlapBounds(a, b + [Poll(n, t)], t0, i);
    }
    ReportInRange(a, b, t0, n, t);
  }

  /**
   * The same for a board: with an owner and at most four cores every core is measured, and on
   * a larger board the first four.
   */
  lemma BoardReportExact(cores: nat, a: seq<Event>, b: seq<Event>, t0: Word, t: Word)
    requires var n := Watched(Some(cores));
      Ordered(a + b + [Poll(n, t)], t0) && DrainedAt(a, n) && Quiet(b)
    ensures var n := Watched(Some(cores));
      var r := ReportOf(MeterAfter(a + b, t0), n, t); var w := t - Now(a, t0);
      && w >= 0 && r.total == (if w == 0 then 1 else w)
      && (forall i: nat :: i < cores && i < 4 ==> 0 <= Overlap(a, b + [Poll(n, t)], t0, i) <= r.busy)
      && (r.busy == 0 || exists i: nat :: i < cores && i < 4 && r.busy == Overlap(a, b + [Poll(n, t)], t0, i))
  {
    var n := Watched(Some(cores));
    ReportExact(a, b, t0, n, t);
    assert forall i: nat :: i < 4 && i < cores ==> Looks(Some(cores), i);
  }

  // ---------- The first window after a new registration ----------

  /** What core i had counted before the window began: a is drained, the restart ends b. */
  function Stale(a: seq<Event>, b: seq<Event>, r: Word, t0: Word, i: nat): int {
    Overlap(a, b + [Restart(r)], t0, i)
  }

  /** The busy time of core i in the window that began at the restart. */
  function Fresh(a: seq<Event>, b: seq<Event>, r: Word, c: seq<Event>, n: nat, t: Word, t0: Word, i: nat): int {
    Overlap(a + b + [Restart(r)], c + [Poll(n, t)], t0, i)
  }

  function Counted(a: seq<Event>, b: seq<Event>, r: Word, c: seq<Event>, n: nat, t: Word, t0: Word, i: nat): int {
    Stale(a, b, r, t0, i) + Fresh(a, b, r, c, n, t, t0, i)
  }

  lemma Assoc(x: seq<Event>, y: seq<Event>, z: seq<Event>)
    ensures x + y + z == x + (y + z)
  {
  }

  lemma CutTrace(a: seq<Event>, x: seq<Event>, c: seq<Event>, p: seq<Event>)
    ensures a + x + c + p == a + (x + c) + p == a + (x + c + p) == (a + x) + (c + p)
  {
    Assoc(a, x, c);
    Assoc(a, x + c, p);
    Assoc(a + x, c, p);
  }

  /** Busy time adds up, and is never negative in order. */
  lemma CutOverlap(a: seq<Event>, x: seq<Event>, c: seq<Event>, p: seq<Event>, t0: Word, i: nat)
    requires Ordered(a + x + c + p, t0)
    ensures Overlap(a, x + c + p, t0, i) == Overlap(a, x, t0, i) + Overlap(a + x, c + p, t0, i)
    ensures Overlap(a, x, t0, i) >= 0 && Overlap(a + x, c + p, t0, i) >= 0
    ensures Overlap(a, x + c + p, t0, i) < TWO64
  {
    CutTrace(a, x, c, p);
    OverlapBounds(a + x, c + p, t0, i);
    OverlapBounds(a, x, t0, i);
    OverlapBounds(a, x + c + p, t0, i);
  }

  /** A poll reads all that fell between the drain and it, wherever that stretch is cut in two. */
  lemma AnyWindow(a: seq<Event>, x: seq<Event>, c: seq<Event>, t0: Word, n: nat, t: Word, i: nat)
    requires Ordered(a + x + c + [Poll(n, t)], t0)
    requires DrainedAt(a, n) && NoPolls(x) && NoPolls(c) && i < n <= MAX_NB
    ensures Overlap(a, x, t0, i) >= 0 && Overlap(a + x, c + [Poll(n, t)], t0, i) >= 0
    ensures Reading(MeterAfter(a + x + c, t0).slots[i], t)
         == Overlap(a, x, t0, i) + Overlap(a + x, c + [Poll(n, t)], t0, i)
  {
    CutOverlap(a, x, c, [Poll(n, t)], t0, i);
    OrderedStamped(a + x + c + [Poll(n, t)], t0);
    CutTrace(a, x, c, [Poll(n, t)]);
    ReadingOrdered(a, x + c, t0, n, t, i);
    Assoc(a, x, c);
  }

  lemma ReadingOrdered(a: seq<Event>, b: seq<Event>, t0: Word, n: nat, t: Word, i: nat)
    requires Stamped(a + b + [Poll(n, t)]) && DrainedAt(a, n) && NoPolls(b) && i < n <= MAX_NB
    requires 0 <= Overlap(a, b + [Poll(n, t)], t0, i) < TWO64
    ensures Reading(MeterAfter(a + b, t0).slots[i], t) == Overlap(a, b + [Poll(n, t)], t0, i)
  {
    ReadingExact(a, b, t0, n, t, i);
  }

  /**
   * The first poll after a new registration reads the window's busy time and all that the
   * counter still held; so it is right exactly when the core was idle from the last drain on.
   */
  lemma RestartExact(a: seq<Event>, b: seq<Event>, r: Word, c: seq<Event>, t0: Word, n: nat, t: Word, i: nat)
    requires Ordered(a + b + [Restart(r)] + c + [Poll(n, t)], t0)
    requires DrainedAt(a, n) && NoPolls(b) && NoPolls(c) && i < n <= MAX_NB
    ensures var reading := Reading(MeterAfter(a + b + [Restart(r)] + c, t0).slots[i], t);
      && Stale(a, b, r, t0, i) >= 0 && Fresh(a, b, r, c, n, t, t0, i) >= 0
      && reading == Stale(a, b, r, t0, i) + Fresh(a, b, r, c, n, t, t0, i)
      && (reading == Fresh(a, b, r, c, n, t, t0, i) <==> Stale(a, b, r, t0, i) == 0)
  {
    Assoc(a, b, [Restart(r)]);
    AnyWindow(a, b + [Restart(r)], c, t0, n, t, i);
  }

  lemma RestartWindowExact(a: seq<Event>, b: seq<Event>, r: Word, c: seq<Event>, t0: Word, n: nat, t: Word)
    requires Ordered(a + b + [Restart(r)] + c + [Poll(n, t)], t0) && Quiet(c) && n <= MAX_NB
    ensures t >= r
    ensures ReportOf(MeterAfter(a + b + [Restart(r)] + c, t0), n, t).total == if t == r then 1 else t - r
  {
    var h := a + b + [Restart(r)];
    assert h + c + [Poll(n, t)] == h + (c + [Poll(n, t)]);
    OverlapBounds(h, c + [Poll(n, t)], t0, 0);
    QuietLast(h, c, t0);
  }

  /** That poll's report: the new window, and the largest of these readings, clamped to it. */
  lemma RestartReport(a: seq<Event>, b: seq<Event>, r: Word, c: seq<Event>, t0: Word, n: nat, t: Word)
    requires Ordered(a + b + [Restart(r)] + c + [Poll(n, t)], t0)
    requires DrainedAt(a, n) && NoPolls(b) && Quiet(c) && n <= MAX_NB
    ensures t >= r
    ensures var p := ReportOf(MeterAfter(a + b + [Restart(r)] + c, t0), n, t);
      && p.total == (if t == r then 1 else t - r)
      && (forall i :: 0 <= i < n ==> Clamp(Counted(a, b, r, c, n, t, t0, i), p.total) <= p.busy)
      && (p.busy == 0 || exists i :: 0 <= i < n && p.busy == Clamp(Counted(a, b, r, c, n, t, t0, i), p.total))
  {
    RestartWindowExact(a, b, r, c, t0, n, t);
    var slots := MeterAfter(a + b + [Restart(r)] + c, t0).slots;
    forall i | 0 <= i < n ensures Reading(slots[i], t) == Counted(a, b, r, c, n, t, t0, i) {
      RestartExact(a, b, r, c, t0, n, t, i);
    }
  }

  // ---------- Extra polls ----------

  lemma {:induction false} BusyIgnoresPolls(a: seq<Event>, n: nat, t: Word, b: seq<Event>, i: nat)
    ensures IsBusy(a + [Poll(n, t)] + b, i) == IsBusy(a + b, i)
  {
    var x, y := a + [Poll(n, t)] + b, a + b;
    if |b| == 0 {
      assert x[..|x| - 1] == a && y == a;
    } else {
      assert x[..|x| - 1] == a + [Poll(n, t)] + b[..|b| - 1];
      assert y[..|y| - 1] == a + b[..|b| - 1];
      BusyIgnoresPolls(a, n, t, b[..|b| - 1], i);
    }
  }

  lemma {:induction false} BusyNsIgnoresPolls(a: seq<Event>, n: nat, t: Word, b: seq<Event>, t0: Word, i: nat)
    requires |b| > 0
    ensures BusyNs(a + [Poll(n, t)] + b, t0, i) == BusyNs(a + b, t0, i)
  {
    var x, y, c := a + [Poll(n, t)] + b, a + b, b[..|b| - 1];
    assert x[..|x| - 1] == a + [Poll(n, t)] + c;
    assert y[..|y| - 1] == a + c;
    BusyIgnoresPolls(a, n, t, c, i);
    if |c| > 0 {
      BusyNsIgnoresPolls(a, n, t, c, t0, i);
    } else {
      assert a + [Poll(n, t)] + c == a + [Poll(n, t)] && a + c == a;
      assert (a + [Poll(n, t)])[..|a|] == a;
    }
  }

  /** Polling more often, anywhere, changes no core's total. */
  lemma ExtraPollHarmless(a: seq<Event>, n: nat, t: Word, b: seq<Event>, t0: Word, i: nat)
    requires |b| > 0 && i < MAX_NB
    requires Ordered(a + [Poll(n, t)] + b, t0) && Ordered(a + b, t0)
    ensures Total(a + [Poll(n, t)] + b, t0, i) == Total(a + b, t0, i)
  {
    ExactAccounting(a + [Poll(n, t)] + b, t0, i);
    ExactAccounting(a + b, t0, i);
    BusyNsIgnoresPolls(a, n, t, b, t0, i);
  }

  // ---------- Wrong reports ----------

  const STALE: seq<Event> := [Busy(0, 100), Poll(4, 200), Idle(0, 150)]

  /**
   * The idle stamp is taken before the lock. When a poll overtakes it, the counter wraps and
   * the next poll reports a fully busy window for a core that was idle all through it.
   */
  lemma StaleStamp()
    ensures !Ordered(STALE, 50)
    ensures !IsBusy(STALE, 0)
    ensures MeterAfter(STALE, 50).slots[0] == Slot(0, TWO64 - 50)
    ensures ReportOf(MeterAfter(STALE, 50), 4, 300) == Report(100, 100)
  {
    assert STALE[..2] == [Busy(0, 100), Poll(4, 200)];
    assert STALE[..2][..1] == [Busy(0, 100)];
    assert STALE[..2][..1][..0] == [];
    var m0 := MeterAfter([], 50);
    assert m0.slots == [Slot(0, 0), Slot(0, 0), Slot(0, 0), Slot(0, 0)];
    var m1 := MeterAfter(STALE[..2][..1], 50);
    assert m1 == Apply(m0, Busy(0, 100));
    assert m1.slots == [Slot(100, 0), Slot(0, 0), Slot(0, 0), Slot(0, 0)];
    var m2 := MeterAfter(STALE[..2], 50);
    assert m2.slots == [Slot(200, 0), Slot(0, 0), Slot(0, 0), Slot(0, 0)];
    var m3 := MeterAfter(STALE, 50);
    assert m3.slots[0] == Slot(0, TWO64 - 50);
    assert Reading(m3.slots[0], 300) <= MaxReading(m3.slots, 4, 300);
  }

  const EARLY: seq<Event> := [Busy(0, 210), Poll(4, 200)]

  /**
   * A poll's own stamp is taken before its locks too. A job that starts while the poll waits
   * for them makes it report a fully busy window for a core that was busy for none of it.
   */
  lemma StalePoll()
    ensures !Ordered(EARLY, 50) && Stamped(EARLY) && DrainedAt([], 4)
    ensures ReportOf(MeterAfter(EARLY[..1], 50), 4, 200) == Report(150, 150)
    ensures Taken(EARLY, 50, 0) == TWO64 - 10 && Overlap([], EARLY, 50, 0) == -10
  {
    assert EARLY[..1] == [Busy(0, 210)];
    assert EARLY[..1][..0] == [];
    assert [] + EARLY == EARLY;
    var m0 := MeterAfter([], 50);
    assert m0.slots == [Slot(0, 0), Slot(0, 0), Slot(0, 0), Slot(0, 0)];
    var m1 := MeterAfter(EARLY[..1], 50);
    assert m1 == Apply(m0, Busy(0, 210));
    assert m1.slots[0] == Slot(210, 0);
    assert Reading(m1.slots[0], 200) == TWO64 - 10;
    assert Reading(m1.slots[0], 200) <= MaxReading(m1.slots, 4, 200);
    assert BusyNs(EARLY[..1], 50, 0) == 0;
  }

  /** One more event. */
  lemma Extend(p: seq<Event>, e: Event, t0: Word)
    ensures var tr := p + [e];
      && MeterAfter(tr, t0) == Apply(MeterAfter(p, t0), e) && Now(tr, t0) == e.t
      && (Ordered(tr, t0) <==> Ordered(p, t0) && e.t >= Now(p, t0) && e.t > 0)
      && BusyNs(tr, t0, 0) == BusyNs(p, t0, 0) + (if IsBusy(p, 0) then e.t - Now(p, t0) else 0)
      && (IsBusy(tr, 0) <==> e == Busy(0, e.t) || (e != Idle(0, e.t) && IsBusy(p, 0)))
  {
    assert (p + [e])[..|p|] == p;
  }

  const REBOUND: seq<Event> := [Busy(0, 100)] + [Idle(0, 200)]

  /** All stamps in order: a core that has been idle since before the registration reads fully busy. */
  lemma StaleRestart()
    ensures Ordered(REBOUND + [Restart(300)] + [Poll(4, 400)], 50)
    ensures ReportOf(MeterAfter(REBOUND + [Restart(300)], 50), 4, 400) == Report(100, 100)
    ensures Stale([], REBOUND, 300, 50, 0) == 100 && Fresh([], REBOUND, 300, [], 4, 400, 50, 0) == 0
  {
    Extend([], Busy(0, 100), 50);
    assert [] + [Busy(0, 100)] == [Busy(0, 100)];
    Extend([Busy(0, 100)], Idle(0, 200), 50);
    Extend(REBOUND, Restart(300), 50);
    Extend(REBOUND + [Restart(300)], Poll(4, 400), 50);
    assert [] + (REBOUND + [Restart(300)]) == [] + REBOUND + [Restart(300)] == REBOUND + [Restart(300)];
    assert [] + [Poll(4, 400)] == [Poll(4, 400)];
    var m := MeterAfter(REBOUND + [Restart(300)], 50);
    assert MeterAfter([], 50).slots[0] == Slot(0, 0);
    assert m.slots[0] == Slot(0, 100) && m.last == 300;
    assert Reading(m.slots[0], 400) <= MaxReading(m.slots, 4, 400);
  }
}
