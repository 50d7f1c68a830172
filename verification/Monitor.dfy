/**
 One counter of libupcall's batch histogram and the monitor thread that watches it
 (libupcall/upcall.c). The counter belongs to one worker, whose increment is a load and
 then a store; the monitor prints cur - prev, later copies cur to prev, and on request
 zeroes cur and then prev. All five are separate steps, freely interleaved.
 */
module Monitor {
  import opened Wrappers

  /** Between which two of its steps the monitor is. */
  datatype Phase = Watching | Printed | Copied | Zeroed

  /** Whether the last reset of the counter fell inside an increment, between its load of
      a value v > 0 and its store; and if so whether that store is still to come. */
  datatype Caught = Clean | Open(v: nat) | Hit(v: nat)

  /** History since the last reset: `printed` is the sum of the deltas written, `missed`
      what was added to the counter between a print and its copy, `count` the increments
      completed, and `caught` where the reset fell. */
  datatype State = State(
    cur: nat, prev: nat, loaded: Option<nat>, phase: Phase, printed: int, missed: int, count: nat, caught: Caught)

  datatype Step = Load | Store | Print | Copy | ResetCur | ResetPrev | NoReset

  const INIT := State(0, 0, None, Watching, 0, 0, 0, Clean)

  predicate Enabled(s: State, step: Step) {
    match step
    case Load => s.loaded.None?
    case Store => s.loaded.Some?
    case Print => s.phase == Watching
    case Copy => s.phase == Printed
    case ResetCur => s.phase == Copied
    case ResetPrev => s.phase == Zeroed
    case NoReset => s.phase == Copied
  }

  /** What the monitor writes to its file: a uint64_t difference, which must not wrap. */
  function Delta(s: State): int {
    s.cur - s.prev
  }

  function Next(s: State, step: Step): State
    requires Enabled(s, step)
  {
    match step
    case Load => s.(loaded := Some(s.cur))
    case Store =>
      var v := s.loaded.value + 1;
      s.(cur := v, loaded := None, count := s.count + 1,
         missed := if s.phase == Printed then s.missed + (v - s.cur) else s.missed,
         caught := if s.caught.Open? then Hit(s.caught.v) else s.caught)
    case Print => s.(printed := s.printed + Delta(s), phase := Printed)
    case Copy => s.(prev := s.cur, phase := Copied)
    case ResetCur =>
      s.(cur := 0, phase := Zeroed, printed := 0, missed := 0, count := 0,
         caught := if s.loaded.Some? && s.loaded.value > 0 then Open(s.loaded.value) else Clean)
    case ResetPrev => s.(prev := 0, phase := Watching)
    case NoReset => s.(phase := Watching)
  }

  ghost predicate LegalSteps(s: State, steps: seq<Step>)
    decreases |steps|, 0
  {
    steps == [] ||
    (LegalSteps(s, steps[..|steps| - 1]) && Enabled(RunSteps(s, steps[..|steps| - 1]), steps[|steps| - 1]))
  }

  ghost function RunSteps(s: State, steps: seq<Step>): State
    requires LegalSteps(s, steps)
    decreases |steps|, 1
  {
    if steps == [] then s else Next(RunSteps(s, steps[..|steps| - 1]), steps[|steps| - 1])
  }

  /** What the counter has on top of the increments: the value caught by the reset, once
      it has been stored. */
  function Excess(s: State): nat {
    if s.caught.Hit? then s.caught.v else 0
  }

  ghost predicate Inv(s: State) {
    && s.missed >= 0 && s.printed >= 0
    && s.cur == s.count + Excess(s)
    && (match s.caught
        case Clean => s.loaded.Some? ==> s.loaded.value == s.cur
        case Open(v) => v > 0 && s.loaded == Some(v) && s.cur == s.count == 0
        case Hit(v) => v > 0 && (s.loaded.Some? ==> s.loaded.value == s.cur))
    && match s.phase
       case Zeroed => s.printed == s.missed == 0
       case Printed => s.prev <= s.cur && s.printed + s.missed == s.cur && (s.loaded.Some? ==> s.prev <= s.loaded.value)
       case _ => s.prev <= s.cur && s.printed + s.missed == s.prev && (s.loaded.Some? ==> s.prev <= s.loaded.value)
  }

  lemma WorkerInv(s: State, step: Step)
    requires Inv(s) && Enabled(s, step) && (step.Load? || step.Store?)
    ensures Inv(Next(s, step))
  {
  }

  lemma MonitorInv(s: State, step: Step)
    requires Inv(s) && Enabled(s, step) && !step.Load? && !step.Store?
    ensures Inv(Next(s, step))
  {
  }

  lemma InvStep(s: State, step: Step)
    requires Inv(s) && Enabled(s, step)
    ensures Inv(Next(s, step))
  {
    if step.Load? || step.Store? {
      WorkerInv(s, step);
    } else {
      MonitorInv(s, step);
    }
  }

  lemma {:induction false} InvAlways(steps: seq<Step>)
    requires LegalSteps(INIT, steps)
    ensures Inv(RunSteps(INIT, steps))
  {
    if steps != [] {
      InvAlways(steps[..|steps| - 1]);
      InvStep(RunSteps(INIT, steps[..|steps| - 1]), steps[|steps| - 1]);
    }
  }

  /** prev is at most the counter, and at most any value about to be stored, except in the
      middle of a reset, when nothing is printed. */
  ghost predicate Below(s: State) {
    && (s.phase != Zeroed ==> 0 <= Delta(s) && (s.loaded.Some? ==> s.prev <= s.loaded.value + 1))
    && (Enabled(s, Print) ==> s.phase != Zeroed)
  }

  /** The deltas printed, what arrived between a print and its copy, and what has not been
      copied yet add up to the counter. */
  ghost predicate AddsUp(s: State) {
    && s.missed >= 0 && 0 <= s.printed <= s.cur
    && (s.phase == Watching || s.phase == Copied ==> s.printed + s.missed + Delta(s) == s.cur)
    && (s.phase == Printed ==> s.printed + s.missed == s.cur)
  }

  /** The counter is the number of increments since the reset if and only if that reset
      did not fall inside an increment that had loaded more than 0 and has stored since;
      if it did, the counter is too high by the value loaded. */
  ghost predicate Exact(s: State) {
    && (s.cur == s.count <==> !s.caught.Hit?)
    && (s.caught.Hit? ==> s.cur == s.count + s.caught.v)
  }

  lemma InvMeans(s: State)
    requires Inv(s)
    ensures Below(s) && AddsUp(s) && Exact(s)
  {
  }

  /** In every interleaving no printed delta wraps, now or after a pending store; since the
      last reset the printed deltas come to at most the counter, short of it by exactly
      what arrived between a print and its copy and what is not yet copied; and the counter
      is exact unless the reset caught an increment. */
  lemma DeltasCoherent(steps: seq<Step>)
    requires LegalSteps(INIT, steps)
    ensures Below(RunSteps(INIT, steps)) && AddsUp(RunSteps(INIT, steps)) && Exact(RunSteps(INIT, steps))
  {
    InvAlways(steps);
    InvMeans(RunSteps(INIT, steps));
  }

  /** The same history told by the steps alone: the increments completed since the last
      reset of the counter, the values the worker had loaded, and what was printed. */
  ghost function Increments(steps: seq<Step>): nat {
    if steps == [] then 0
    else
      match steps[|steps| - 1]
      case Store => Increments(steps[..|steps| - 1]) + 1
      case ResetCur => 0
      case _ => Increments(steps[..|steps| - 1])
  }

  /** Where the last reset fell: in an increment if the last step of the worker before it
      was a load, of a value that the counter had then. */
  ghost function Fell(steps: seq<Step>): Caught
    requires LegalSteps(INIT, steps)
  {
    if steps == [] then Clean
    else
      var before := steps[..|steps| - 1];
      match steps[|steps| - 1]
      case Store => (match Fell(before) case Open(v) => Hit(v) case other => other)
      case ResetCur => if InHand(before) == Some(0) || InHand(before) == None then Clean else Open(InHand(before).value)
      case _ => Fell(before)
  }

  ghost function InHand(steps: seq<Step>): Option<nat>
    requires LegalSteps(INIT, steps)
  {
    if steps == [] then None
    else
      match steps[|steps| - 1]
      case Load => Some(RunSteps(INIT, steps[..|steps| - 1]).cur)
      case Store => None
      case _ => InHand(steps[..|steps| - 1])
  }

  ghost function Reported(steps: seq<Step>): int
    requires LegalSteps(INIT, steps)
  {
    if steps == [] then 0
    else
      match steps[|steps| - 1]
      case Print => Reported(steps[..|steps| - 1]) + Delta(RunSteps(INIT, steps[..|steps| - 1]))
      case ResetCur => 0
      case _ => Reported(steps[..|steps| - 1])
  }

  ghost predicate Told(s: State, steps: seq<Step>)
    requires LegalSteps(INIT, steps)
  {
    s.count == Increments(steps) && s.loaded == InHand(steps) && s.caught == Fell(steps) && s.printed == Reported(steps)
  }

  lemma ToldStep(steps: seq<Step>, steps': seq<Step>, step: Step)
    requires LegalSteps(INIT, steps) && steps != [] && steps' == steps[..|steps| - 1] && step == steps[|steps| - 1]
    requires Told(RunSteps(INIT, steps'), steps')
    ensures Told(Next(RunSteps(INIT, steps'), step), steps)
  {
  }

  /** What the run did is what its history says: the counter goes up by one for each load
      and store, and every delta is printed. */
  lemma {:induction false} HistoryTrue(steps: seq<Step>)
    requires LegalSteps(INIT, steps)
    ensures Told(RunSteps(INIT, steps), steps)
  {
    if steps != [] {
      HistoryTrue(steps[..|steps| - 1]);
      ToldStep(steps, steps[..|steps| - 1], steps[|steps| - 1]);
    }
  }

  /** The excess, by the steps alone. */
  ghost function Carried(steps: seq<Step>): nat
    requires LegalSteps(INIT, steps)
  {
    if Fell(steps).Hit? then Fell(steps).v else 0
  }

  ghost predicate CounterIs(s: State, steps: seq<Step>)
    requires LegalSteps(INIT, steps)
  {
    s.cur == Increments(steps) + Carried(steps)
  }

  lemma ToldExact(s: State, steps: seq<Step>)
    requires LegalSteps(INIT, steps) && Told(s, steps) && Exact(s)
    ensures CounterIs(s, steps)
  {
  }

  /** So is the counter: the increments of the steps, and what their resets let through. */
  lemma CounterExact(steps: seq<Step>)
    requires LegalSteps(INIT, steps)
    ensures CounterIs(RunSteps(INIT, steps), steps)
  {
    HistoryTrue(steps);
    DeltasCoherent(steps);
    ToldExact(RunSteps(INIT, steps), steps);
  }

  /** What the monitor may do next: it prints, copies, and then resets, the counter before
      the copy, or does not. */
  ghost function Turn(steps: seq<Step>): set<Step> {
    if steps == [] then {Print}
    else
      match steps[|steps| - 1]
      case Print => {Copy}
      case Copy => {ResetCur, NoReset}
      case ResetCur => {ResetPrev}
      case ResetPrev => {Print}
      case NoReset => {Print}
      case _ => Turn(steps[..|steps| - 1])
  }

  ghost predicate Phased(s: State, steps: seq<Step>) {
    match s.phase
    case Watching => Turn(steps) == {Print}
    case Printed => Turn(steps) == {Copy}
    case Copied => Turn(steps) == {ResetCur, NoReset}
    case Zeroed => Turn(steps) == {ResetPrev}
  }

  lemma {:induction false} PhaseTold(steps: seq<Step>)
    requires LegalSteps(INIT, steps)
    ensures Phased(RunSteps(INIT, steps), steps)
  {
    if steps != [] {
      PhaseTold(steps[..|steps| - 1]);
    }
  }

  lemma PhasedTurn(s: State, steps: seq<Step>, step: Step)
    requires LegalSteps(INIT, steps) && Phased(s, steps) && Told(s, steps)
    ensures Enabled(s, step) <==> step in Turn(steps) || step == if InHand(steps) == None then Load else Store
  {
  }

  /** Neither the worker nor the monitor is ever stuck, or does anything out of turn. */
  lemma InTurn(steps: seq<Step>, step: Step)
    requires LegalSteps(INIT, steps)
    ensures Enabled(RunSteps(INIT, steps), step) <==>
              step in Turn(steps) || step == if InHand(steps) == None then Load else Store
  {
    HistoryTrue(steps);
    PhaseTold(steps);
    PhasedTurn(RunSteps(INIT, steps), steps, step);
  }

  ghost predicate Reached(s: State) {
    exists steps :: LegalSteps(INIT, steps) && RunSteps(INIT, steps) == s
  }

  lemma Extend(s: State, step: Step)
    requires Reached(s) && Enabled(s, step)
    ensures Reached(Next(s, step))
  {
    var steps :| LegalSteps(INIT, steps) && RunSteps(INIT, steps) == s;
    assert (steps + [step])[..|steps|] == steps;
    assert LegalSteps(INIT, steps + [step]);
  }

  /** A reset inside the increment of a counter at 1 leaves it at 2 after one increment. */
  lemma ResetInsideIncrement()
    ensures exists s :: Reached(s) && s.cur == 2 && s.count == 1 && s.caught == Hit(1)
  {
    assert LegalSteps(INIT, []) && RunSteps(INIT, []) == INIT;
    Extend(INIT, Load);
    Extend(State(0, 0, Some(0), Watching, 0, 0, 0, Clean), Store);
    Extend(State(1, 0, None, Watching, 0, 0, 1, Clean), Load);
    Extend(State(1, 0, Some(1), Watching, 0, 0, 1, Clean), Print);
    Extend(State(1, 0, Some(1), Printed, 1, 0, 1, Clean), Copy);
    Extend(State(1, 1, Some(1), Copied, 1, 0, 1, Clean), ResetCur);
    Extend(State(0, 1, Some(1), Zeroed, 0, 0, 0, Open(1)), Store);
  }
}
