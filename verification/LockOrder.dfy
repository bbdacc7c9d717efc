/**
 * Who waits for whom: every entry point as the sequence of locks and power transitions it
 * takes, run as threads in any number and any interleaving.
 */
module LockOrder {
  /**
   * Reset(i): core i's reset workqueue, on which timeouts run. Work(i): core i's scheduler work
   * item, which stopping the scheduler waits out. State: the
   * mutex around the requested rate. Transition(i): core i's runtime-PM transition, which
   * callers wait out. Rate: the mutex around clock writes in notifiers and rate changes.
   * Job(i): core i's job lock. Meter: the spinlock of the busy counters.
   */
  datatype Resource = Reset(core: nat) | Work(core: nat) | State | Transition(core: nat) | Rate | Job(core: nat) | Meter

  function Rank(r: Resource): (k: nat)
    ensures k < TOP
  {
    match r
    case Reset(_) => 0
    case Work(_) => 1
    case State => 2
    case Transition(_) => 3
    case Rate => 4
    case Job(_) => 5
    case Meter => 6
  }

  const TOP: nat := 7

  datatype Action = Take(r: Resource) | Drop(r: Resource)

  datatype Thread = Thread(prog: seq<Action>, pc: nat)

  /** What a thread that has run prog has taken and not yet given back. */
  function Holds(prog: seq<Action>): set<Resource> {
    if |prog| == 0 then {}
    else
      var h, a := Holds(prog[..|prog| - 1]), prog[|prog| - 1];
      if a.Take? then h + {a.r} else h - {a.r}
  }

  /** Each take is ranked above everything held, and in the end nothing is held. */
  predicate Ordered(prog: seq<Action>) {
    && (forall i :: 0 <= i < |prog| && prog[i].Take? ==>
         forall r :: r in Holds(prog[..i]) ==> Rank(r) < Rank(prog[i].r))
    && Holds(prog) == {}
  }

  // ---------- Threads ----------

  predicate WF(ts: seq<Thread>) {
    forall i :: 0 <= i < |ts| ==> ts[i].pc <= |ts[i].prog|
  }

  function HeldBy(t: Thread): set<Resource>
    requires t.pc <= |t.prog|
  {
    Holds(t.prog[..t.pc])
  }

  predicate CanStep(ts: seq<Thread>, i: nat)
    requires WF(ts) && i < |ts|
  {
    && ts[i].pc < |ts[i].prog|
    && (ts[i].prog[ts[i].pc].Take? ==> forall j :: 0 <= j < |ts| ==> ts[i].prog[ts[i].pc].r !in HeldBy(ts[j]))
  }

  function Advance(ts: seq<Thread>, i: nat): seq<Thread>
    requires i < |ts|
  {
    ts[i := ts[i].(pc := ts[i].pc + 1)]
  }

  /** ts is reached from its start by letting the threads in sched step one by one. */
  predicate Runs(ts: seq<Thread>, sched: seq<nat>, us: seq<Thread>)
    decreases |sched|
  {
    if |sched| == 0 then ts == us
    else WF(ts) && sched[0] < |ts| && CanStep(ts, sched[0]) && Runs(Advance(ts, sched[0]), sched[1..], us)
  }

  predicate Exclusive(ts: seq<Thread>)
    requires WF(ts)
  {
    forall i, j :: 0 <= i < j < |ts| ==> HeldBy(ts[i]) !! HeldBy(ts[j])
  }

  predicate Inv(ts: seq<Thread>) {
    WF(ts) && Exclusive(ts) && forall i :: 0 <= i < |ts| ==> Ordered(ts[i].prog)
  }

  lemma StepKeepsInv(ts: seq<Thread>, i: nat)
    requires Inv(ts) && i < |ts| && CanStep(ts, i)
    ensures Inv(Advance(ts, i))
  {
    var us := Advance(ts, i);
    var t, u := ts[i], us[i];
    assert u.prog[..u.pc][..t.pc] == t.prog[..t.pc];
    var a := t.prog[t.pc];
    assert HeldBy(u) == if a.Take? then HeldBy(t) + {a.r} else HeldBy(t) - {a.r};
    forall j | 0 <= j < |us| && j != i ensures HeldBy(us[j]) !! HeldBy(u) {
      assert HeldBy(ts[j]) !! HeldBy(t);
    }
  }

  lemma {:induction false} RunKeepsInv(ts: seq<Thread>, sched: seq<nat>, us: seq<Thread>)
    requires Inv(ts) && Runs(ts, sched, us)
    ensures Inv(us)
    decreases |sched|
  {
    if |sched| > 0 {
      StepKeepsInv(ts, sched[0]);
      RunKeepsInv(Advance(ts, sched[0]), sched[1..], us);
    }
  }

  /** Thread i waits for a resource that thread j holds. */
  predicate Waits(ts: seq<Thread>, i: nat, j: nat)
    requires WF(ts) && i < |ts| && j < |ts|
  {
    && ts[i].pc < |ts[i].prog| && ts[i].prog[ts[i].pc].Take?
    && ts[i].prog[ts[i].pc].r in HeldBy(ts[j])
  }

  /** Along a wait, ranks rise; so a chain of waits never closes. */
  lemma WaitRaisesRank(ts: seq<Thread>, i: nat, j: nat)
    requires Inv(ts) && i < |ts| && j < |ts| && Waits(ts, i, j)
    ensures ts[j].pc < |ts[j].prog|
    ensures ts[j].prog[ts[j].pc].Take? ==> Rank(ts[i].prog[ts[i].pc].r) < Rank(ts[j].prog[ts[j].pc].r)
  {
    assert ts[j].prog[..|ts[j].prog|] == ts[j].prog;
  }

  /** chain[k] waits for chain[k + 1]. */
  predicate WaitChain(ts: seq<Thread>, chain: seq<nat>)
    requires WF(ts)
  {
    && (forall k :: 0 <= k < |chain| ==> chain[k] < |ts|)
    && (forall k :: 0 <= k < |chain| - 1 ==> Waits(ts, chain[k], chain[k + 1]))
  }

  lemma {:induction false} ChainRaisesRank(ts: seq<Thread>, chain: seq<nat>)
    requires Inv(ts) && WaitChain(ts, chain) && |chain| >= 2
    ensures var i, j := chain[0], chain[|chain| - 1];
      && ts[i].pc < |ts[i].prog| && ts[j].pc < |ts[j].prog|
      && (ts[j].prog[ts[j].pc].Take? ==> Rank(ts[i].prog[ts[i].pc].r) < Rank(ts[j].prog[ts[j].pc].r))
    decreases |chain|
  {
    var m := |chain| - 1;
    assert Waits(ts, chain[m - 1], chain[m]);
    WaitRaisesRank(ts, chain[m - 1], chain[m]);
    if |chain| > 2 {
      ChainRaisesRank(ts, chain[..m]);
    }
  }

  /** No wait cycle of any length, in any reachable state. */
  lemma NoWaitCycle(ts: seq<Thread>, sched: seq<nat>, us: seq<Thread>, chain: seq<nat>)
    requires Inv(ts) && Runs(ts, sched, us) && WF(us) && WaitChain(us, chain) && |chain| >= 2
    ensures chain[0] != chain[|chain| - 1]
  {
    RunKeepsInv(ts, sched, us);
    ChainRaisesRank(us, chain);
    assert Waits(us, chain[0], chain[1]);
  }

  lemma {:induction false} SomeoneSteps(ts: seq<Thread>, i: nat) returns (j: nat)
    requires Inv(ts) && i < |ts| && ts[i].pc < |ts[i].prog|
    ensures j < |ts| && CanStep(ts, j)
    decreases if ts[i].prog[ts[i].pc].Take? then TOP - Rank(ts[i].prog[ts[i].pc].r) else 0
  {
    if CanStep(ts, i) {
      j := i;
    } else {
      var k :| 0 <= k < |ts| && ts[i].prog[ts[i].pc].r in HeldBy(ts[k]);
      WaitRaisesRank(ts, i, k);
      j := SomeoneSteps(ts, k);
    }
  }

  /** While any thread is unfinished, some thread can go on. */
  lemma NeverStuck(ts: seq<Thread>, sched: seq<nat>, us: seq<Thread>, i: nat)
    requires Inv(ts) && Runs(ts, sched, us) && i < |us| && us[i].pc < |us[i].prog|
    ensures WF(us) && exists j :: 0 <= j < |us| && CanStep(us, j)
  {
    RunKeepsInv(ts, sched, us);
    var j := SomeoneSteps(us, i);
  }

  // ---------- The entry points ----------

  /** A critical section and those inside it. */
  datatype Block = Use(r: Resource, inside: seq<Block>)

  function Flatten(bs: seq<Block>): seq<Action> {
    if |bs| == 0 then []
    else [Take(bs[0].r)] + Flatten(bs[0].inside) + [Drop(bs[0].r)] + Flatten(bs[1..])
  }

  predicate Rising(bs: seq<Block>, floor: int) {
    |bs| == 0 || (Rank(bs[0].r) > floor && Rising(bs[0].inside, Rank(bs[0].r)) && Rising(bs[1..], floor))
  }

  /** Run after p, every take in q is ranked above what is then held. */
  predicate TakesAbove(p: seq<Action>, q: seq<Action>) {
    forall i :: 0 <= i < |q| && q[i].Take? ==> forall r :: r in Holds(p + q[..i]) ==> Rank(r) < Rank(q[i].r)
  }

  lemma TakesAboveAppend(p: seq<Action>, q1: seq<Action>, q2: seq<Action>)
    requires TakesAbove(p, q1) && TakesAbove(p + q1, q2)
    ensures TakesAbove(p, q1 + q2)
  {
    var q := q1 + q2;
    forall i, r | 0 <= i < |q| && q[i].Take? && r in Holds(p + q[..i]) ensures Rank(r) < Rank(q[i].r) {
      if i < |q1| {
        assert q[..i] == q1[..i];
      } else {
        assert p + q[..i] == p + q1 + q2[..i - |q1|];
      }
    }
  }

  lemma HoldsOne(p: seq<Action>, a: Action)
    ensures Holds(p + [a]) == if a.Take? then Holds(p) + {a.r} else Holds(p) - {a.r}
  {
    assert (p + [a])[..|p|] == p;
  }

  /** A critical section around something safe is safe, and gives back what it took. */
  lemma SectionSafe(p: seq<Action>, r: Resource, inner: seq<Action>)
    requires forall h :: h in Holds(p) ==> Rank(h) < Rank(r)
    requires Holds(p + [Take(r)] + inner) == Holds(p + [Take(r)]) && TakesAbove(p + [Take(r)], inner)
    ensures Holds(p + ([Take(r)] + inner + [Drop(r)])) == Holds(p)
    ensures TakesAbove(p, [Take(r)] + inner + [Drop(r)])
  {
    var head := [Take(r)] + inner;
    assert p + head == p + [Take(r)] + inner;
    assert p + (head + [Drop(r)]) == p + head + [Drop(r)];
    HoldsOne(p, Take(r));
    HoldsOne(p + head, Drop(r));
    assert p + [Take(r)][..0] == p;
    TakesAboveAppend(p, [Take(r)], inner);
    TakesAboveAppend(p, head, [Drop(r)]);
  }

  lemma {:induction false} FlattenSafe(p: seq<Action>, bs: seq<Block>, floor: int)
    requires Rising(bs, floor) && forall r :: r in Holds(p) ==> Rank(r) <= floor
    ensures Holds(p + Flatten(bs)) == Holds(p) && TakesAbove(p, Flatten(bs))
    decreases bs
  {
    if |bs| == 0 {
      assert p + Flatten(bs) == p;
    } else {
      var b := bs[0];
      var section := [Take(b.r)] + Flatten(b.inside) + [Drop(b.r)];
      HoldsOne(p, Take(b.r));
      FlattenSafe(p + [Take(b.r)], b.inside, Rank(b.r));
      SectionSafe(p, b.r, Flatten(b.inside));
      FlattenSafe(p + section, bs[1..], floor);
      TakesAboveAppend(p, section, Flatten(bs[1..]));
      assert p + Flatten(bs) == p + section + Flatten(bs[1..]);
    }
  }

  lemma RisingIsOrdered(bs: seq<Block>)
    requires Rising(bs, -1)
    ensures Ordered(Flatten(bs))
  {
    FlattenSafe([], bs, -1);
    var q := Flatten(bs);
    assert [] + q == q;
    forall i, r | 0 <= i < |q| && q[i].Take? && r in Holds(q[..i]) ensures Rank(r) < Rank(q[i].r) {
      assert [] + q[..i] == q[..i];
    }
  }

  /** A power transition of one core; `switches`: its domain's notifier runs. */
  datatype Wake = Wake(core: nat, switches: bool)

  datatype Entry =
    | SetTarget(wakes: seq<Wake>, granted: bool)  // hold every core, then write the clock
    | Transit(w: Wake)                            // a suspend or resume worker, or a system sleep
    | CoreRemoved
    | Fini(core: nat)                             // fini, runtime PM disabled, scheduler and resets waited out
    | Probe(w: Wake)
    | PollStatus
    | RunJob(w: Wake)
    | Interrupt(core: nat)
    | TimedOut(core: nat)

  function WakeBlock(w: Wake): Block {
    Use(Transition(w.core), if w.switches then [Use(Rate, [])] else [])
  }

  function WakeBlocks(ws: seq<Wake>): seq<Block> {
    if |ws| == 0 then [] else [WakeBlock(ws[0])] + WakeBlocks(ws[1..])
  }

  function JobSection(core: nat): Block {
    Use(Job(core), [Use(Meter, [])])
  }

  function Sections(e: Entry): seq<Block> {
    match e
    case SetTarget(ws, granted) => [Use(State, WakeBlocks(ws) + (if granted then [Use(Rate, [])] else []))]
    case Transit(w) => [WakeBlock(w)]
    case CoreRemoved => [Use(State, [Use(Rate, [])])]
    case Fini(core) => [Use(State, []), Use(Transition(core), []), Use(Work(core), []), Use(Reset(core), [])]
    case Probe(w) => [WakeBlock(w), Use(State, [])]
    case PollStatus => [Use(State, []), Use(Meter, [])]
    case RunJob(w) => [Use(Work(w.core), [WakeBlock(w), JobSection(w.core)])]
    case Interrupt(core) => [JobSection(core)]
    case TimedOut(core) => [Use(Reset(core), [Use(Work(core), []), JobSection(core)])]
  }

  lemma RisingCons(b: Block, rest: seq<Block>, floor: int)
    requires Rank(b.r) > floor && Rising(b.inside, Rank(b.r)) && Rising(rest, floor)
    ensures Rising([b] + rest, floor)
  {
    assert ([b] + rest)[1..] == rest;
  }

  lemma WakeRises(w: Wake, rest: seq<Block>, floor: int)
    requires floor < Rank(Transition(w.core)) && Rising(rest, floor)
    ensures Rising([WakeBlock(w)] + rest, floor)
  {
    RisingCons(Use(Rate, []), [], Rank(Transition(w.core)));
    assert [Use(Rate, [])] + [] == [Use(Rate, [])];
    RisingCons(WakeBlock(w), rest, floor);
  }

  lemma {:induction false} WakesRise(ws: seq<Wake>, tail: seq<Block>)
    requires Rising(tail, Rank(State))
    ensures Rising(WakeBlocks(ws) + tail, Rank(State))
  {
    if |ws| == 0 {
      assert WakeBlocks(ws) + tail == tail;
    } else {
      WakesRise(ws[1..], tail);
      WakeRises(ws[0], WakeBlocks(ws[1..]) + tail, Rank(State));
      assert WakeBlocks(ws) + tail == [WakeBlock(ws[0])] + (WakeBlocks(ws[1..]) + tail);
    }
  }

  lemma JobSectionRises(core: nat, floor: int)
    requires floor < Rank(Job(core))
    ensures Rising([JobSection(core)], floor)
  {
    RisingCons(Use(Meter, []), [], Rank(Job(core)));
    assert [Use(Meter, [])] + [] == [Use(Meter, [])];
    RisingCons(JobSection(core), [], floor);
    assert [JobSection(core)] + [] == [JobSection(core)];
  }

  lemma OneRises(b: Block, floor: int)
    requires Rank(b.r) > floor && Rising(b.inside, Rank(b.r))
    ensures Rising([b], floor)
  {
    RisingCons(b, [], floor);
    assert [b] + [] == [b];
  }

  /** Every entry point takes its locks in rank order. */
  lemma EntriesRise(e: Entry)
    ensures Rising(Sections(e), -1)
  {
    OneRises(Use(Rate, []), Rank(State));
    match e
    case SetTarget(ws, granted) =>
      WakesRise(ws, if granted then [Use(Rate, [])] else []);
      OneRises(Sections(e)[0], -1);
    case Transit(w) =>
      WakeRises(w, [], -1);
      assert [WakeBlock(w)] + [] == Sections(e);
    case CoreRemoved => OneRises(Sections(e)[0], -1);
    case Fini(core) =>
      OneRises(Use(Reset(core), []), -1);
      RisingCons(Use(Work(core), []), Sections(e)[3..], -1);
      RisingCons(Use(Transition(core), []), Sections(e)[2..], -1);
      RisingCons(Use(State, []), Sections(e)[1..], -1);
    case Probe(w) =>
      OneRises(Use(State, []), -1);
      WakeRises(w, [Use(State, [])], -1);
    case PollStatus =>
      OneRises(Use(Meter, []), -1);
      RisingCons(Use(State, []), [Use(Meter, [])], -1);
    case RunJob(w) =>
      JobSectionRises(w.core, Rank(Work(w.core)));
      WakeRises(w, [JobSection(w.core)], Rank(Work(w.core)));
      assert [WakeBlock(w)] + [JobSection(w.core)] == Sections(e)[0].inside;
      OneRises(Sections(e)[0], -1);
    case Interrupt(core) => JobSectionRises(core, -1);
    case TimedOut(core) =>
      JobSectionRises(core, Rank(Reset(core)));
      RisingCons(Use(Work(core), []), [JobSection(core)], Rank(Reset(core)));
      assert [Use(Work(core), [])] + [JobSection(core)] == Sections(e)[0].inside;
      OneRises(Sections(e)[0], -1);
  }

  // ---------- What each entry point takes ----------

  function Cores(ws: seq<Wake>): set<Resource> {
    set w | w in ws :: Transition(w.core)
  }

  predicate Switching(ws: seq<Wake>) {
    exists w :: w in ws && w.switches
  }

  /** The clock mutex, when it is needed. */
  function RateIf(needed: bool): set<Resource> {
    if needed then {Rate} else {}
  }

  function Takes(e: Entry): set<Resource> {
    match e
    case SetTarget(ws, granted) => {State} + Cores(ws) + RateIf(granted || Switching(ws))
    case Transit(w) => {Transition(w.core)} + RateIf(w.switches)
    case CoreRemoved => {State, Rate}
    case Fini(core) => {State, Transition(core), Work(core), Reset(core)}
    case Probe(w) => {State, Transition(w.core)} + RateIf(w.switches)
    case PollStatus => {State, Meter}
    case RunJob(w) => {Work(w.core), Transition(w.core), Job(w.core), Meter} + RateIf(w.switches)
    case Interrupt(core) => {Job(core), Meter}
    case TimedOut(core) => {Reset(core), Work(core), Job(core), Meter}
  }

  /** The resources that some section of the program is about. */
  function BlocksTake(bs: seq<Block>): set<Resource> {
    if |bs| == 0 then {} else {bs[0].r} + BlocksTake(bs[0].inside) + BlocksTake(bs[1..])
  }

  lemma {:induction false} FlattenTakes(bs: seq<Block>, r: Resource)
    ensures Take(r) in Flatten(bs) <==> r in BlocksTake(bs)
    decreases bs
  {
    if |bs| > 0 {
      FlattenTakes(bs[0].inside, r);
      FlattenTakes(bs[1..], r);
    }
  }

  lemma TakesCons(b: Block, rest: seq<Block>)
    ensures BlocksTake([b] + rest) == {b.r} + BlocksTake(b.inside) + BlocksTake(rest)
  {
    assert ([b] + rest)[1..] == rest;
  }

  lemma {:induction false} TakesAppend(p: seq<Block>, q: seq<Block>)
    ensures BlocksTake(p + q) == BlocksTake(p) + BlocksTake(q)
    decreases |p|
  {
    if |p| == 0 {
      assert p + q == q;
    } else {
      assert (p + q)[1..] == p[1..] + q;
      TakesAppend(p[1..], q);
    }
  }

  lemma TakesOne(b: Block)
    ensures BlocksTake([b]) == {b.r} + BlocksTake(b.inside)
  {
  }

  lemma WakeTakes(w: Wake)
    ensures BlocksTake([WakeBlock(w)]) == {Transition(w.core)} + RateIf(w.switches)
  {
    TakesOne(WakeBlock(w));
    TakesOne(Use(Rate, []));
  }

  lemma {:induction false} WakesTake(ws: seq<Wake>)
    ensures BlocksTake(WakeBlocks(ws)) == Cores(ws) + RateIf(Switching(ws))
  {
    if |ws| > 0 {
      WakesTake(ws[1..]);
      WakeTakes(ws[0]);
      TakesAppend([WakeBlock(ws[0])], WakeBlocks(ws[1..]));
      assert ws == [ws[0]] + ws[1..];
      assert Cores(ws) == {Transition(ws[0].core)} + Cores(ws[1..]);
      assert Switching(ws) <==> ws[0].switches || Switching(ws[1..]);
    }
  }

  lemma TargetTakes(ws: seq<Wake>, granted: bool)
    ensures BlocksTake(Sections(SetTarget(ws, granted))) == Takes(SetTarget(ws, granted))
  {
    var tail := if granted then [Use(Rate, [])] else [];
    WakesTake(ws);
    TakesAppend(WakeBlocks(ws), tail);
    TakesOne(Use(Rate, []));
    TakesOne(Sections(SetTarget(ws, granted))[0]);
  }

  lemma JobSectionTakes(core: nat)
    ensures BlocksTake([JobSection(core)]) == {Job(core), Meter}
  {
    TakesOne(JobSection(core));
    TakesOne(Use(Meter, []));
  }

  lemma FiniTakes(core: nat)
    ensures BlocksTake(Sections(Fini(core))) == Takes(Fini(core))
  {
    var bs := Sections(Fini(core));
    TakesOne(Use(Reset(core), []));
    assert bs[3..] == [Use(Reset(core), [])];
    TakesCons(Use(Work(core), []), bs[3..]);
    assert bs[2..] == [Use(Work(core), [])] + bs[3..];
    TakesCons(Use(Transition(core), []), bs[2..]);
    assert bs[1..] == [Use(Transition(core), [])] + bs[2..];
    TakesCons(Use(State, []), bs[1..]);
    assert bs == [Use(State, [])] + bs[1..];
  }

  lemma RunJobTakes(w: Wake)
    ensures BlocksTake(Sections(RunJob(w))) == Takes(RunJob(w))
  {
    WakeTakes(w);
    JobSectionTakes(w.core);
    TakesAppend([WakeBlock(w)], [JobSection(w.core)]);
    assert Sections(RunJob(w))[0].inside == [WakeBlock(w)] + [JobSection(w.core)];
    TakesOne(Sections(RunJob(w))[0]);
  }

  lemma TimedOutTakes(core: nat)
    ensures BlocksTake(Sections(TimedOut(core))) == Takes(TimedOut(core))
  {
    JobSectionTakes(core);
    TakesOne(Use(Work(core), []));
    TakesAppend([Use(Work(core), [])], [JobSection(core)]);
    assert Sections(TimedOut(core))[0].inside == [Use(Work(core), [])] + [JobSection(core)];
    TakesOne(Sections(TimedOut(core))[0]);
  }

  lemma ProbeTakes(w: Wake)
    ensures BlocksTake(Sections(Probe(w))) == Takes(Probe(w))
  {
    WakeTakes(w);
    TakesOne(Use(State, []));
    TakesAppend([WakeBlock(w)], [Use(State, [])]);
    assert Sections(Probe(w)) == [WakeBlock(w)] + [Use(State, [])];
  }

  lemma PollTakes()
    ensures BlocksTake(Sections(PollStatus)) == {State, Meter}
  {
    TakesOne(Use(State, []));
    TakesOne(Use(Meter, []));
    TakesAppend([Use(State, [])], [Use(Meter, [])]);
    assert Sections(PollStatus) == [Use(State, [])] + [Use(Meter, [])];
  }

  lemma CoreRemovedTakes()
    ensures BlocksTake(Sections(CoreRemoved)) == {State, Rate}
  {
    TakesOne(Use(Rate, []));
    TakesOne(Sections(CoreRemoved)[0]);
  }

  lemma SectionsTake(e: Entry)
    ensures BlocksTake(Sections(e)) == Takes(e)
  {
    match e
    case SetTarget(ws, granted) => TargetTakes(ws, granted);
    case Transit(w) => WakeTakes(w);
    case CoreRemoved => CoreRemovedTakes();
    case Fini(core) => FiniTakes(core);
    case Probe(w) => ProbeTakes(w);
    case PollStatus => PollTakes();
    case RunJob(w) => RunJobTakes(w);
    case Interrupt(core) => JobSectionTakes(core);
    case TimedOut(core) => TimedOutTakes(core);
  }

  /** Every entry point takes, some time, exactly the locks and waits of its row. */
  lemma EntryTakes(e: Entry, r: Resource)
    ensures Take(r) in Flatten(Sections(e)) <==> r in Takes(e)
  {
    FlattenTakes(Sections(e), r);
    SectionsTake(e);
  }

  lemma {:induction false} FlattenDrops(bs: seq<Block>, r: Resource)
    ensures Drop(r) in Flatten(bs) <==> r in BlocksTake(bs)
    decreases bs
  {
    if |bs| > 0 {
      FlattenDrops(bs[0].inside, r);
      FlattenDrops(bs[1..], r);
    }
  }

  lemma {:induction false} HeldWhile(r: Resource, inner: seq<Action>, k: nat)
    requires k <= |inner| && Drop(r) !in inner
    ensures r in Holds([Take(r)] + inner[..k])
    decreases k
  {
    if k == 0 {
      HoldsOne([], Take(r));
      assert [Take(r)] + inner[..0] == [] + [Take(r)];
    } else {
      HeldWhile(r, inner, k - 1);
      HoldsOne([Take(r)] + inner[..k - 1], inner[k - 1]);
      assert [Take(r)] + inner[..k] == [Take(r)] + inner[..k - 1] + [inner[k - 1]];
    }
  }

  /** The lock or wait that a rate change, a first removal section, a job run and a timeout hold all along. */
  function Outer(e: Entry): Resource
    requires e.SetTarget? || e.CoreRemoved? || e.RunJob? || e.TimedOut?
  {
    match e
    case SetTarget(_, _) => State
    case CoreRemoved => State
    case RunJob(w) => Work(w.core)
    case TimedOut(core) => Reset(core)
  }

  /** Whatever else such an entry point takes, it takes while it holds that one. */
  lemma OuterHeld(e: Entry, i: nat)
    requires e.SetTarget? || e.CoreRemoved? || e.RunJob? || e.TimedOut?
    requires var q := Flatten(Sections(e)); i < |q| && q[i].Take? && q[i].r != Outer(e)
    ensures Outer(e) in Holds(Flatten(Sections(e))[..i])
  {
    var b, q := Sections(e)[0], Flatten(Sections(e));
    var inner := Flatten(b.inside);
    EntriesRise(e);
    InsideAbove(b.inside, Rank(b.r), b.r);
    FlattenDrops(b.inside, b.r);
    assert Sections(e)[1..] == [] && b.r == Outer(e);
    assert q == [Take(b.r)] + inner + [Drop(b.r)];
    HeldWhile(b.r, inner, i - 1);
    assert q[..i] == [Take(b.r)] + inner[..i - 1];
  }

  /** Sections that rise above r do not take r. */
  lemma {:induction false} InsideAbove(bs: seq<Block>, floor: int, r: Resource)
    requires Rising(bs, floor) && Rank(r) <= floor
    ensures r !in BlocksTake(bs)
    decreases bs
  {
    if |bs| > 0 {
      InsideAbove(bs[0].inside, Rank(bs[0].r), r);
      InsideAbove(bs[1..], floor, r);
    }
  }

  function Threads(es: seq<Entry>): seq<Thread> {
    seq(|es|, i requires 0 <= i < |es| => Thread(Flatten(Sections(es[i])), 0))
  }

  lemma ThreadsInv(es: seq<Entry>)
    ensures Inv(Threads(es))
  {
    forall i | 0 <= i < |es| ensures Ordered(Threads(es)[i].prog) && HeldBy(Threads(es)[i]) == {} {
      EntriesRise(es[i]);
      RisingIsOrdered(Sections(es[i]));
    }
  }

  /**
   * Any number of rate changes, power transitions, removals, probes, polls, jobs, interrupts
   * and resets at once: no wait cycle ever forms, and while one is unfinished some can go on.
   */
  lemma DeadlockFree(es: seq<Entry>, sched: seq<nat>, us: seq<Thread>)
    requires Runs(Threads(es), sched, us)
    ensures WF(us)
    ensures forall chain: seq<nat> :: |chain| >= 2 && WaitChain(us, chain) ==> chain[0] != chain[|chain| - 1]
    ensures (exists i :: 0 <= i < |us| && us[i].pc < |us[i].prog|) ==> exists j :: 0 <= j < |us| && CanStep(us, j)
  {
    ThreadsInv(es);
    RunKeepsInv(Threads(es), sched, us);
    forall chain: seq<nat> | |chain| >= 2 && WaitChain(us, chain) ensures chain[0] != chain[|chain| - 1] {
      NoWaitCycle(Threads(es), sched, us, chain);
    }
    if i :| 0 <= i < |us| && us[i].pc < |us[i].prog| {
      NeverStuck(Threads(es), sched, us, i);
    }
  }

  /** The design the suspend callback avoids: taking the state mutex inside the transition. */
  const LOCKED_SUSPEND: seq<Block> := [Use(Transition(0), [Use(State, []), Use(Rate, [])])]

  function Rejected(): seq<Thread> {
    [Thread(Flatten(Sections(SetTarget([Wake(0, false)], true))), 0), Thread(Flatten(LOCKED_SUSPEND), 0)]
  }

  lemma FlattenFirst(bs: seq<Block>)
    requires |bs| > 0
    ensures |Flatten(bs)| >= 2 + |Flatten(bs[0].inside)|
    ensures Flatten(bs)[..1 + |Flatten(bs[0].inside)|] == [Take(bs[0].r)] + Flatten(bs[0].inside)
  {
  }

  /** A program opens with the take of its first section, then that of the first one inside. */
  lemma FlattenOpens(bs: seq<Block>)
    requires |bs| > 0 && |bs[0].inside| > 0
    ensures |Flatten(bs)| > 2 && Flatten(bs)[0] == Take(bs[0].r) && Flatten(bs)[1] == Take(bs[0].inside[0].r)
  {
    var inner := Flatten(bs[0].inside);
    FlattenFirst(bs);
    FlattenFirst(bs[0].inside);
    assert inner[..1 + |Flatten(bs[0].inside[0].inside)|][0] == inner[0];
    var head := Flatten(bs)[..1 + |inner|];
    assert Flatten(bs)[0] == head[0] && Flatten(bs)[1] == head[1];
  }

  lemma HoldsFirst(prog: seq<Action>)
    requires |prog| >= 2 && prog[0].Take?
    ensures Holds(prog[..0]) == {} && Holds(prog[..1]) == {prog[0].r}
  {
    assert prog[..1] == [] + [prog[0]];
    HoldsOne([], prog[0]);
  }

  /** With it, a rate change and a suspend of one core deadlock after a step each. */
  lemma LockedSuspendDeadlocks()
    ensures var us := Advance(Advance(Rejected(), 0), 1);
      && Runs(Rejected(), [0, 1], us) && WF(us)
      && WaitChain(us, [0, 1, 0]) && !CanStep(us, 0) && !CanStep(us, 1)
  {
    var change := SetTarget([Wake(0, false)], true);
    assert Sections(change)[0].inside[0] == WakeBlock(Wake(0, false));
    FlattenOpens(Sections(change));
    FlattenOpens(LOCKED_SUSPEND);
    var t0 := Rejected();
    var t1 := Advance(t0, 0);
    var us := Advance(t1, 1);
    HoldsFirst(t0[0].prog);
    HoldsFirst(t0[1].prog);
    assert CanStep(t0, 0) && CanStep(t1, 1);
    assert [0, 1][1..] == [1] && [1][1..] == [];
    assert Runs(us, [], us);
    assert Runs(t1, [1], us);
    assert Waits(us, 0, 1) && Waits(us, 1, 0);
  }
}
