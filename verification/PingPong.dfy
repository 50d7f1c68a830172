/**
 scheduler_latency/tester.c: two threads wake each other through two eventfds and log
 every wait and wake-up; the latencies are computed from the two logs, entry by entry.
 */
module PingPong {
  const READ := 0
  const WRITE := 1

  datatype Entry = Entry(value: int, tsc: nat)

  /** The next call in the loop of `sleeper` and of `waker`. */
  datatype SleeperPc = WaitEfd1 | LogWoken | LogReply | SignalEfd2
  datatype WakerPc = LogWake | SignalEfd1 | WaitEfd2 | LogAnswered

  /** A thread's log has room for 2 * count entries. */
  datatype Log = Log(entries: seq<Entry>, overflow: bool)

  datatype State = State(
    count: nat, efd1: nat, efd2: nat, clock: nat,
    sleeper: SleeperPc, slept: nat, slog: Log,
    waker: WakerPc, woken: nat, wlog: Log)

  /** Which thread makes its next call, and how long after the last step. */
  datatype Step = Sleeper(dt: nat) | Waker(dt: nat)

  function Init(count: nat): State {
    State(count, 0, 0, 0, WaitEfd1, 0, Log([], false), LogWake, 0, Log([], false))
  }

  function Append(log: Log, count: nat, e: Entry): Log {
    if |log.entries| < 2 * count then log.(entries := log.entries + [e]) else log.(overflow := true)
  }

  /** A thread can move unless it has finished or waits on a zero counter. */
  predicate Enabled(s: State, step: Step) {
    match step
    case Sleeper(_) => s.slept < s.count && (s.sleeper == WaitEfd1 ==> s.efd1 > 0)
    case Waker(_) => s.woken < s.count && (s.waker == WaitEfd2 ==> s.efd2 > 0)
  }

  function Next(s: State, step: Step): State {
    var t := s.(clock := s.clock + step.dt);
    match step
    case Sleeper(_) =>
      (match s.sleeper
       case WaitEfd1 => t.(efd1 := 0, sleeper := LogWoken)
       case LogWoken => t.(slog := Append(s.slog, s.count, Entry(READ, t.clock)), sleeper := LogReply)
       case LogReply => t.(slog := Append(s.slog, s.count, Entry(WRITE, t.clock)), sleeper := SignalEfd2)
       case SignalEfd2 => t.(efd2 := s.efd2 + 1, sleeper := WaitEfd1, slept := s.slept + 1))
    case Waker(_) =>
      (match s.waker
       case LogWake => t.(wlog := Append(s.wlog, s.count, Entry(WRITE, t.clock)), waker := SignalEfd1)
       case SignalEfd1 => t.(efd1 := s.efd1 + 1, waker := WaitEfd2)
       case WaitEfd2 => t.(efd2 := 0, waker := LogAnswered)
       case LogAnswered =>
         t.(wlog := Append(s.wlog, s.count, Entry(READ, t.clock)), waker := LogWake, woken := s.woken + 1))
  }

  ghost predicate LegalSteps(s: State, steps: seq<Step>)
    decreases |steps|, 0
  {
    steps == [] ||
    (LegalSteps(s, steps[..|steps| - 1]) && Enabled(RunSteps(s, steps[..|steps| - 1]), steps[|steps| - 1]))
  }

  ghost function RunSteps(s: State, steps: seq<Step>): State
    requires LegalSteps(s, steps)
    decreases |steps|, 1
  {
    if steps == [] then s else Next(RunSteps(s, steps[..|steps| - 1]), steps[|steps| - 1])
  }

  /** The logs pair up: where one has WRITE the other has READ, and the READ is no
      earlier; and no entry is later than the clock. */
  ghost predicate Paired(slog: seq<Entry>, wlog: seq<Entry>, clock: nat) {
    && (forall i :: 0 <= i < |wlog| ==> wlog[i].value == (if i % 2 == 0 then WRITE else READ) && wlog[i].tsc <= clock)
    && (forall i :: 0 <= i < |slog| ==> slog[i].value == (if i % 2 == 0 then READ else WRITE) && slog[i].tsc <= clock)
    && (forall i :: 0 <= i < |slog| && i < |wlog| ==>
          if slog[i].value == READ then wlog[i].tsc <= slog[i].tsc else slog[i].tsc <= wlog[i].tsc)
  }

  /** Whose turn it is, and what has been done, after k steps: the hand-off is strict. */
  ghost predicate Turn(s: State, k: nat) {
    var i, r := k / 8, k % 8;
    && s.efd1 == (if r == 2 then 1 else 0) && s.efd2 == (if r == 6 then 1 else 0)
    && s.waker == (if r == 0 then LogWake else if r == 1 then SignalEfd1 else if r == 7 then LogAnswered else WaitEfd2)
    && s.sleeper == (if r == 3 then LogWoken else if r == 4 then LogReply else if r == 5 then SignalEfd2 else WaitEfd1)
    && s.woken == i && s.slept == (if r >= 6 then i + 1 else i)
    && |s.wlog.entries| == 2 * i + (if r >= 1 then 1 else 0)
    && |s.slog.entries| == 2 * i + (if r >= 5 then 2 else if r == 4 then 1 else 0)
    && k <= 8 * s.count && !s.slog.overflow && !s.wlog.overflow
    && Paired(s.slog.entries, s.wlog.entries, s.clock)
  }

  lemma SleeperTurn(s: State, dt: nat, k: nat)
    requires Turn(s, k) && Enabled(s, Sleeper(dt))
    ensures Turn(Next(s, Sleeper(dt)), k + 1)
  {
    var i, r := k / 8, k % 8;
    assert r in {2, 3, 4, 5} && k + 1 == 8 * i + (r + 1);
  }

  lemma WakerTurn(s: State, dt: nat, k: nat)
    requires Turn(s, k) && Enabled(s, Waker(dt))
    ensures Turn(Next(s, Waker(dt)), k + 1)
  {
    var i, r := k / 8, k % 8;
    assert r in {0, 1, 6, 7} && k + 1 == if r == 7 then 8 * (i + 1) else 8 * i + (r + 1);
  }

  lemma TurnStep(s: State, step: Step, k: nat)
    requires Turn(s, k) && Enabled(s, step)
    ensures Turn(Next(s, step), k + 1) && Next(s, step).count == s.count
  {
    match step
    case Sleeper(dt) => SleeperTurn(s, dt, k);
    case Waker(dt) => WakerTurn(s, dt, k);
  }

  lemma {:induction false} TurnAlways(count: nat, steps: seq<Step>)
    requires LegalSteps(Init(count), steps)
    ensures Turn(RunSteps(Init(count), steps), |steps|) && RunSteps(Init(count), steps).count == count
  {
    if steps == [] {
      assert Turn(Init(count), 0);
    } else {
      var steps' := steps[..|steps| - 1];
      TurnAlways(count, steps');
      TurnStep(RunSteps(Init(count), steps'), steps[|steps| - 1], |steps'|);
    }
  }

  /** In every interleaving the counters are 0 or 1, nothing overflows, no run is longer
      than 8 * count steps, and until then exactly one thread can move: there is no
      deadlock, and nothing to choose. */
  lemma NoDeadlock(count: nat, steps: seq<Step>)
    requires LegalSteps(Init(count), steps)
    ensures var s := RunSteps(Init(count), steps);
            && s.efd1 + s.efd2 <= 1 && !s.slog.overflow && !s.wlog.overflow && |steps| <= 8 * count
            && (|steps| < 8 * count ==> (Enabled(s, Sleeper(0)) <==> !Enabled(s, Waker(0))))
            && (|steps| == 8 * count ==> s.slept == s.woken == count)
  {
    TurnAlways(count, steps);
  }

  /** When both threads have returned, both logs are full, and entry by entry one holds
      the WRITE and the other the READ it caused, which is no earlier. */
  lemma LogsPair(count: nat, steps: seq<Step>)
    requires LegalSteps(Init(count), steps)
    requires forall dt :: !Enabled(RunSteps(Init(count), steps), Sleeper(dt))
                       && !Enabled(RunSteps(Init(count), steps), Waker(dt))
    ensures var s := RunSteps(Init(count), steps);
            && |s.slog.entries| == |s.wlog.entries| == 2 * count && Paired(s.slog.entries, s.wlog.entries, s.clock)
            && forall i :: 0 <= i < 2 * count ==> s.slog.entries[i].value + s.wlog.entries[i].value == READ + WRITE
  {
    TurnAlways(count, steps);
    var s := RunSteps(Init(count), steps);
    assert !Enabled(s, Sleeper(0)) && !Enabled(s, Waker(0));
  }

  /** How long the first k steps took. */
  function Elapsed(steps: seq<Step>, k: nat): nat
    requires k <= |steps|
  {
    if k == 0 then 0 else Elapsed(steps, k - 1) + steps[k - 1].dt
  }

  lemma {:induction false} ElapsedPrefix(steps: seq<Step>, step: Step, k: nat)
    requires k <= |steps|
    ensures Elapsed(steps + [step], k) == Elapsed(steps, k)
  {
    if k > 0 {
      ElapsedPrefix(steps, step, k - 1);
    }
  }

  /** The step after which a log's i-th entry carries the time: in every round of eight the
      waker logs first and last, and the sleeper in the fourth and fifth. */
  function WokenAt(i: nat): nat {
    if i % 2 == 0 then 4 * i + 1 else 4 * (i + 1)
  }

  function SleptAt(i: nat): nat {
    if i % 2 == 0 then 4 * i + 4 else 4 * i + 1
  }

  /** Every entry carries the time of the step that logged it. */
  ghost predicate Stamped(s: State, steps: seq<Step>) {
    && s.clock == Elapsed(steps, |steps|)
    && (forall i :: 0 <= i < |s.wlog.entries| ==>
          WokenAt(i) <= |steps| && s.wlog.entries[i].tsc == Elapsed(steps, WokenAt(i)))
    && (forall i :: 0 <= i < |s.slog.entries| ==>
          SleptAt(i) <= |steps| && s.slog.entries[i].tsc == Elapsed(steps, SleptAt(i)))
  }

  lemma StampedStep(s: State, steps: seq<Step>, step: Step)
    requires Turn(s, |steps|) && Enabled(s, step) && Stamped(s, steps)
    ensures Stamped(Next(s, step), steps + [step])
  {
    var t := Next(s, step);
    TurnStep(s, step, |steps|);
    ElapsedPrefix(steps, step, |steps|);
    forall i | 0 <= i < |t.wlog.entries|
      ensures WokenAt(i) <= |steps| + 1 && t.wlog.entries[i].tsc == Elapsed(steps + [step], WokenAt(i))
    {
      if i < |s.wlog.entries| {
        ElapsedPrefix(steps, step, WokenAt(i));
      }
    }
    forall i | 0 <= i < |t.slog.entries|
      ensures SleptAt(i) <= |steps| + 1 && t.slog.entries[i].tsc == Elapsed(steps + [step], SleptAt(i))
    {
      if i < |s.slog.entries| {
        ElapsedPrefix(steps, step, SleptAt(i));
      }
    }
  }

  /** In every run each entry carries the time at which it was logged; so the i-th latency
      is the time of the steps between the i-th WRITE and its READ. */
  lemma {:induction false} LogTimes(count: nat, steps: seq<Step>)
    requires LegalSteps(Init(count), steps)
    ensures Stamped(RunSteps(Init(count), steps), steps)
  {
    if steps != [] {
      var steps' := steps[..|steps| - 1];
      LogTimes(count, steps');
      TurnAlways(count, steps');
      StampedStep(RunSteps(Init(count), steps'), steps', steps[|steps| - 1]);
      assert steps == steps' + [steps[|steps| - 1]];
    }
  }

  const WORD := 0x1_0000_0000_0000_0000

  /** size_t subtraction. */
  function Minus(a: nat, b: nat): nat {
    (a - b) % WORD
  }

  /** The pairing loop of `write_times`. On logs that pair up no subtraction wraps: each
      latency is the time from the WRITE to its READ. */
  method WriteTimes(slog: seq<Entry>, wlog: seq<Entry>, ghost clock: nat) returns (latencies: seq<nat>)
    requires Paired(slog, wlog, clock) && clock < WORD
    ensures |latencies| == if |slog| < |wlog| then |slog| else |wlog|
    ensures forall i :: 0 <= i < |latencies| ==>
              if slog[i].value == READ then slog[i].tsc == wlog[i].tsc + latencies[i]
              else wlog[i].tsc == slog[i].tsc + latencies[i]
  {
    latencies := [];
    var sc, wc := 0, 0;
    while sc != |slog| && wc != |wlog|
      invariant sc == wc == |latencies| <= |slog| && wc <= |wlog|
      invariant forall i :: 0 <= i < sc ==>
                  if slog[i].value == READ then slog[i].tsc == wlog[i].tsc + latencies[i]
                  else wlog[i].tsc == slog[i].tsc + latencies[i]
      decreases |slog| - sc
    {
      var latency :=
        if slog[sc].value == READ then Minus(slog[sc].tsc, wlog[wc].tsc) else Minus(wlog[wc].tsc, slog[sc].tsc);
      latencies := latencies + [latency];
      sc, wc := sc + 1, wc + 1;
    }
  }
}
