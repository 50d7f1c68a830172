/**
 Lock-free reservation of log space (event-tester/tsc_logger.h): any number of threads
 run `tsc_buffer_reserve`, one atomic load or compare-and-swap at a time. Addresses
 are natural numbers; the source compares them as unsigned words and so does this.
 */
module TscLog {

  /** Where a thread is: not reserving, about to load `cur`, about to compare-and-swap,
      or told that the log is full and about to set `overflow`. `at` is history: how many
      reservations had been granted when `seen` was loaded. */
  datatype Thread = Idle | Start(bytes: nat) | Loaded(seen: nat, bytes: nat, at: nat) | Full(bytes: nat)

  datatype Grant = Grant(tid: nat, lo: nat, hi: nat)

  datatype State = State(
    start: nat, end: nat, cur: nat, overflow: bool, threads: seq<Thread>, grants: seq<Grant>, failures: nat)

  datatype Step = Begin(t: nat, bytes: nat) | Load(t: nat) | Cas(t: nat) | Overflow(t: nat)

  function Init(n: nat, start: nat, end: nat): State {
    State(start, end, start, false, seq(n, _ => Idle), [], 0)
  }

  predicate Enabled(s: State, step: Step) {
    && step.t < |s.threads|
    && match step
       case Begin(t, bytes) => s.threads[t].Idle? && bytes > 0
       case Load(t) => s.threads[t].Start?
       case Cas(t) => s.threads[t].Loaded?
       case Overflow(t) => s.threads[t].Full?
  }

  function Put(s: State, t: nat, x: Thread): State
    requires t < |s.threads|
  {
    s.(threads := s.threads[t := x])
  }

  function Next(s: State, step: Step): State
    requires Enabled(s, step)
  {
    match step
    case Begin(t, bytes) => Put(s, t, Start(bytes))
    case Load(t) =>
      var bytes := s.threads[t].bytes;
      if s.cur + bytes > s.end then Put(s, t, Full(bytes)) else Put(s, t, Loaded(s.cur, bytes, |s.grants|))
    case Cas(t) =>
      var x := s.threads[t];
      if s.cur == x.seen then
        Put(s, t, Idle).(cur := x.seen + x.bytes, grants := s.grants + [Grant(t, x.seen, x.seen + x.bytes)])
      else Put(s, t, Start(x.bytes)).(failures := s.failures + 1)
    case Overflow(t) => Put(s, t, Idle).(overflow := true)
  }

  ghost predicate LegalSteps(s: State, steps: seq<Step>)
    decreases |steps|, 0
  {
    steps == [] ||
    (LegalSteps(s, steps[..|steps| - 1]) && Enabled(RunSteps(s, steps[..|steps| - 1]), steps[|steps| - 1]))
  }

  ghost function RunSteps(s: State, steps: seq<Step>): State
    requires LegalSteps(s, steps)
    decreases |steps|, 1
  {
    if steps == [] then s else Next(RunSteps(s, steps[..|steps| - 1]), steps[|steps| - 1])
  }

  /** Where the k-th grant begins if the grants tile the log. */
  function Edge(s: State, k: nat): nat
    requires k <= |s.grants|
  {
    if k == 0 then s.start else s.grants[k - 1].hi
  }

  /** The granted ranges are non-empty, follow one another without a gap from `start` to
      `cur`, and stay below `end`. */
  ghost predicate Tiled(s: State) {
    && s.start <= s.cur && (s.grants != [] ==> s.cur <= s.end && s.grants[0].lo == s.start)
    && s.cur == Edge(s, |s.grants|)
    && (forall k :: 0 <= k < |s.grants| ==> s.start <= s.grants[k].lo < s.grants[k].hi <= s.cur)
    && (forall j, k :: 0 <= j < k < |s.grants| ==>
          s.grants[j].hi <= s.grants[k].lo && (k == j + 1 ==> s.grants[j].hi == s.grants[k].lo))
  }

  /** What a thread that has loaded `cur` knows: the edge at that time, and that every
      later grant went to somebody else. */
  ghost predicate ThreadOk(s: State, t: nat)
    requires t < |s.threads|
  {
    match s.threads[t]
    case Idle => true
    case Start(bytes) => bytes > 0
    case Full(bytes) => s.cur + bytes > s.end
    case Loaded(seen, bytes, at) =>
      && at <= |s.grants| && seen == Edge(s, at) && bytes > 0 && seen + bytes <= s.end
      && forall k :: at <= k < |s.grants| ==> s.grants[k].tid != t
  }

  ghost predicate Inv(s: State) {
    Tiled(s) && forall t: nat :: t < |s.threads| ==> ThreadOk(s, t)
  }

  /** An edge below the last one is strictly smaller: `cur` never returns to a value. */
  lemma EdgesGrow(s: State, k: nat)
    requires Tiled(s) && k < |s.grants|
    ensures Edge(s, k) <= s.grants[k].lo < s.cur
  {
    if k > 0 {
      assert s.grants[k - 1].hi <= s.grants[k].lo;
    }
  }

  lemma TiledCas(s: State, t: nat)
    requires Inv(s) && Enabled(s, Cas(t)) && s.cur == s.threads[t].seen
    ensures Tiled(Next(s, Cas(t)))
  {
    assert ThreadOk(s, t);
    if s.threads[t].at < |s.grants| {
      EdgesGrow(s, s.threads[t].at);
    }
  }

  lemma InvCas(s: State, t: nat)
    requires Inv(s) && Enabled(s, Cas(t)) && s.cur == s.threads[t].seen
    ensures Inv(Next(s, Cas(t)))
  {
    var s' := Next(s, Cas(t));
    TiledCas(s, t);
    forall u: nat | u < |s'.threads| ensures ThreadOk(s', u) {
      assert ThreadOk(s, u) && ThreadOk(s, t);
    }
  }

  lemma InvStep(s: State, step: Step)
    requires Inv(s) && Enabled(s, step)
    ensures Inv(Next(s, step))
  {
    if step.Cas? && s.cur == s.threads[step.t].seen {
      InvCas(s, step.t);
    } else {
      var s' := Next(s, step);
      assert ThreadOk(s, step.t) && s'.grants == s.grants;
      forall u: nat | u < |s'.threads| ensures ThreadOk(s', u) {
        assert ThreadOk(s, u);
      }
    }
  }

  ghost predicate Started(s: State, n: nat, start: nat, end: nat) {
    |s.threads| == n && s.start == start && s.end == end
  }

  lemma {:induction false} InvAlways(n: nat, start: nat, end: nat, steps: seq<Step>)
    requires LegalSteps(Init(n, start, end), steps)
    ensures Inv(RunSteps(Init(n, start, end), steps)) && Started(RunSteps(Init(n, start, end), steps), n, start, end)
  {
    if steps != [] {
      var steps' := steps[..|steps| - 1];
      InvAlways(n, start, end, steps');
      InvStep(RunSteps(Init(n, start, end), steps'), steps[|steps| - 1]);
    }
  }

  /** Reservations never overlap, leave no gap and never pass the end. */
  lemma GrantsDisjoint(n: nat, start: nat, end: nat, steps: seq<Step>, i: nat, j: nat)
    requires LegalSteps(Init(n, start, end), steps) && i < j < |RunSteps(Init(n, start, end), steps).grants|
    ensures var s := RunSteps(Init(n, start, end), steps);
            && start <= s.grants[i].lo < s.grants[i].hi <= s.grants[j].lo < s.grants[j].hi <= s.cur <= end
            && s.grants[0].lo == start && s.grants[|s.grants| - 1].hi == s.cur
            && (j == i + 1 ==> s.grants[i].hi == s.grants[j].lo)
  {
    var s := RunSteps(Init(n, start, end), steps);
    InvAlways(n, start, end, steps);
  }

  /** A compare-and-swap fails exactly when another thread has been granted a range since
      this one loaded `cur`; the value cannot come back. */
  lemma CasFailsIffOvertaken(n: nat, start: nat, end: nat, steps: seq<Step>, t: nat)
    requires LegalSteps(Init(n, start, end), steps) && Enabled(RunSteps(Init(n, start, end), steps), Cas(t))
    ensures var s := RunSteps(Init(n, start, end), steps);
            var x := s.threads[t];
            && x.at <= |s.grants|
            && (s.cur != x.seen <==> x.at < |s.grants|)
            && (x.at < |s.grants| ==> s.grants[x.at].tid != t)
  {
    var s := RunSteps(Init(n, start, end), steps);
    InvAlways(n, start, end, steps);
    assert ThreadOk(s, t);
    if s.threads[t].at < |s.grants| {
      EdgesGrow(s, s.threads[t].at);
    }
  }

  /** Threads among the first k whose compare-and-swap is bound to fail. */
  function Stale(s: State, k: nat): nat
    requires k <= |s.threads|
  {
    if k == 0 then 0
    else Stale(s, k - 1) + (if s.threads[k - 1].Loaded? && s.threads[k - 1].seen != s.cur then 1 else 0)
  }

  lemma {:induction false} StaleUpdate(s: State, s': State, t: nat, k: nat)
    requires t < |s.threads| == |s'.threads| && k <= |s.threads| && s'.cur == s.cur
    requires s'.threads == s.threads[t := s'.threads[t]]
    ensures Stale(s', k) == Stale(s, k)
              + (if t < k && s'.threads[t].Loaded? && s'.threads[t].seen != s.cur then 1 else 0)
              - (if t < k && s.threads[t].Loaded? && s.threads[t].seen != s.cur then 1 else 0)
  {
    if k > 0 {
      StaleUpdate(s, s', t, k - 1);
    }
  }

  lemma {:induction false} StaleBound(s: State, t: nat, k: nat)
    requires t < |s.threads| && k <= |s.threads| && s.threads[t] == Idle
    ensures Stale(s, k) <= if t < k then k - 1 else k
  {
    if k > 0 {
      StaleBound(s, t, k - 1);
    }
  }

  /** Failures, past and inevitable, against the reservations that caused them. */
  ghost predicate Paid(s: State) {
    s.threads != [] && s.failures + Stale(s, |s.threads|) <= |s.grants| * (|s.threads| - 1)
  }

  /** One step adds to the failures, past and inevitable, only when it grants a range. */
  lemma PaidStep(s: State, step: Step)
    requires Paid(s) && Enabled(s, step)
    ensures Paid(Next(s, step))
  {
    var s' := Next(s, step);
    if |s'.grants| == |s.grants| {
      StaleUpdate(s, s', step.t, |s.threads|);
    } else {
      StaleBound(s', step.t, |s.threads|);
    }
    assert (|s.grants| + 1) * (|s.threads| - 1) == |s.grants| * (|s.threads| - 1) + (|s.threads| - 1);
  }

  /** Lock-freedom, counted: however the threads are scheduled, the failures so far and
      those already inevitable are at most n - 1 for each reservation granted. */
  lemma {:induction false} FailuresBounded(n: nat, start: nat, end: nat, steps: seq<Step>)
    requires n > 0 && LegalSteps(Init(n, start, end), steps)
    ensures Paid(RunSteps(Init(n, start, end), steps))
  {
    if steps == [] {
      NoneStale(Init(n, start, end), n);
    } else {
      var steps' := steps[..|steps| - 1];
      FailuresBounded(n, start, end, steps');
      PaidStep(RunSteps(Init(n, start, end), steps'), steps[|steps| - 1]);
    }
  }

  lemma {:induction false} NoneStale(s: State, k: nat)
    requires k <= |s.threads| && forall t: nat :: t < |s.threads| ==> s.threads[t] == Idle
    ensures Stale(s, k) == 0
  {
    if k > 0 {
      NoneStale(s, k - 1);
    }
  }

  /** Every reservation is for a record of the same size, as in both users of the log. */
  ghost predicate OneSize(steps: seq<Step>, size: nat) {
    forall step <- steps :: step.Begin? ==> step.bytes == size
  }

  ghost predicate Uniform(s: State, size: nat) {
    && (forall k :: 0 <= k < |s.grants| ==>
          s.grants[k] == Grant(s.grants[k].tid, s.start + k * size, s.start + k * size + size))
    && (forall x <- s.threads :: !x.Idle? ==> x.bytes == size)
    && (s.overflow ==> s.cur + size > s.end)
    && s.cur == s.start + |s.grants| * size
  }

  lemma UniformStep(s: State, step: Step, size: nat)
    requires Inv(s) && Uniform(s, size) && Enabled(s, step) && (step.Begin? ==> step.bytes == size)
    ensures Uniform(Next(s, step), size)
  {
    var t := Next(s, step);
    assert ThreadOk(s, step.t) && s.threads[step.t] in s.threads;
    assert (|s.grants| + 1) * size == |s.grants| * size + size;
  }

  lemma {:induction false} UniformAlways(n: nat, start: nat, end: nat, steps: seq<Step>, size: nat)
    requires LegalSteps(Init(n, start, end), steps) && OneSize(steps, size)
    ensures Uniform(RunSteps(Init(n, start, end), steps), size)
  {
    if steps != [] {
      var steps' := steps[..|steps| - 1];
      UniformAlways(n, start, end, steps', size);
      InvAlways(n, start, end, steps');
      assert steps[|steps| - 1] in steps;
      UniformStep(RunSteps(Init(n, start, end), steps'), steps[|steps| - 1], size);
    }
  }

  /** With one record size the k-th grant is the k-th record; and when `overflow` is set
      there is no room for another, and no pending compare-and-swap will succeed. */
  lemma RecordsInOrder(n: nat, start: nat, end: nat, steps: seq<Step>, size: nat, k: nat)
    requires LegalSteps(Init(n, start, end), steps) && OneSize(steps, size)
    ensures var s := RunSteps(Init(n, start, end), steps);
            && |s.threads| == n && s.cur == start + |s.grants| * size
            && (k < |s.grants| ==> s.grants[k].lo == start + k * size && s.grants[k].hi <= end)
            && (s.overflow ==>
                  s.cur + size > end && forall t: nat :: !(Enabled(s, Cas(t)) && s.threads[t].seen == s.cur))
  {
    var s := RunSteps(Init(n, start, end), steps);
    InvAlways(n, start, end, steps);
    UniformAlways(n, start, end, steps, size);
    if s.overflow {
      forall t: nat | Enabled(s, Cas(t)) ensures s.threads[t].seen != s.cur {
        assert ThreadOk(s, t) && s.threads[t] in s.threads;
      }
    }
  }

  /** Overflow is permanent: however the run goes on, nothing more is granted and the flag
      stays set. */
  lemma {:induction false} OverflowPermanent(n: nat, start: nat, end: nat, steps: seq<Step>, more: seq<Step>, size: nat)
    requires LegalSteps(Init(n, start, end), steps + more) && OneSize(steps + more, size)
    requires LegalSteps(Init(n, start, end), steps) && RunSteps(Init(n, start, end), steps).overflow
    ensures var s, t := RunSteps(Init(n, start, end), steps), RunSteps(Init(n, start, end), steps + more);
            t.overflow && t.grants == s.grants && t.cur == s.cur
  {
    if more == [] {
      assert steps + more == steps;
    } else {
      var more', step := more[..|more| - 1], more[|more| - 1];
      assert (steps + more)[..|steps + more| - 1] == steps + more';
      assert (steps + more)[|steps + more| - 1] == step;
      assert forall x :: x in steps + more' ==> x in steps + more;
      OverflowPermanent(n, start, end, steps, more', size);
      RecordsInOrder(n, start, end, steps + more', size, 0);
      assert step.Cas? ==> Enabled(RunSteps(Init(n, start, end), steps + more'), Cas(step.t));
    }
  }

  /** The reservations by the steps alone: how many thread t has asked for, of how many bytes
      the last, and how many have been refused. */
  function Asked(steps: seq<Step>, t: nat): nat {
    if steps == [] then 0
    else Asked(steps[..|steps| - 1], t) + if steps[|steps| - 1].Begin? && steps[|steps| - 1].t == t then 1 else 0
  }

  function LastAsk(steps: seq<Step>, t: nat): nat {
    if steps == [] then 0
    else if steps[|steps| - 1].Begin? && steps[|steps| - 1].t == t then steps[|steps| - 1].bytes
    else LastAsk(steps[..|steps| - 1], t)
  }

  function Refused(steps: seq<Step>, t: nat): nat {
    if steps == [] then 0
    else Refused(steps[..|steps| - 1], t) + if steps[|steps| - 1] == Overflow(t) then 1 else 0
  }

  /** Who gets what: a compare-and-swap wins exactly if nobody has won since its thread's
      last load, and takes what the thread asked for, behind what was taken before. */
  function Wins(start: nat, steps: seq<Step>): seq<Grant> {
    if steps == [] then []
    else
      var steps', step := steps[..|steps| - 1], steps[|steps| - 1];
      var wins := Wins(start, steps');
      if step.Cas? && |wins| == WinsAtLoad(start, steps', step.t) then
        wins + [Grant(step.t, End(start, wins), End(start, wins) + LastAsk(steps', step.t))]
      else wins
  }

  function WinsAtLoad(start: nat, steps: seq<Step>, t: nat): nat {
    if steps == [] then 0
    else if steps[|steps| - 1] == Load(t) then |Wins(start, steps[..|steps| - 1])|
    else WinsAtLoad(start, steps[..|steps| - 1], t)
  }

  function End(start: nat, grants: seq<Grant>): nat {
    if grants == [] then start else grants[|grants| - 1].hi
  }

  /** How many of the grants are thread t's. */
  function Own(grants: seq<Grant>, t: nat): nat {
    if grants == [] then 0
    else Own(grants[..|grants| - 1], t) + if grants[|grants| - 1].tid == t then 1 else 0
  }

  /** What the steps say of thread t. */
  ghost predicate Told(s: State, start: nat, steps: seq<Step>, t: nat)
    requires t < |s.threads|
  {
    && Asked(steps, t) == Own(s.grants, t) + Refused(steps, t) + (if s.threads[t].Idle? then 0 else 1)
    && (!s.threads[t].Idle? ==> s.threads[t].bytes == LastAsk(steps, t))
    && (s.threads[t].Loaded? ==> s.threads[t].at == WinsAtLoad(start, steps, t))
    && (Refused(steps, t) > 0 ==> s.overflow)
  }

  /** The counts, one step on. */
  lemma StepsMore(start: nat, steps: seq<Step>, step: Step, t: nat)
    ensures Asked(steps + [step], t) == Asked(steps, t) + if step.Begin? && step.t == t then 1 else 0
    ensures LastAsk(steps + [step], t) == if step.Begin? && step.t == t then step.bytes else LastAsk(steps, t)
    ensures Refused(steps + [step], t) == Refused(steps, t) + if step == Overflow(t) then 1 else 0
    ensures WinsAtLoad(start, steps + [step], t) ==
              if step == Load(t) then |Wins(start, steps)| else WinsAtLoad(start, steps, t)
  {
    assert (steps + [step])[..|steps|] == steps;
  }

  lemma OwnMore(s: State, step: Step, t: nat)
    requires Enabled(s, step)
    ensures Own(Next(s, step).grants, t) ==
              Own(s.grants, t) + if |Next(s, step).grants| > |s.grants| && step.t == t then 1 else 0
  {
    if |Next(s, step).grants| > |s.grants| {
      assert Next(s, step).grants[..|s.grants|] == s.grants;
    }
  }

  /** What a step does to a thread. */
  lemma ThreadMore(s: State, step: Step, t: nat)
    requires Enabled(s, step) && t < |s.threads|
    ensures |Next(s, step).threads| == |s.threads| && |Next(s, step).grants| >= |s.grants|
    ensures step.t != t ==> Next(s, step).threads[t] == s.threads[t]
    ensures step.t == t && step.Begin? ==> s.threads[t].Idle? && Next(s, step).threads[t] == Start(step.bytes)
    ensures step.t == t && !step.Begin? ==>
              var x, y := s.threads[t], Next(s, step).threads[t];
              && !x.Idle? && (!y.Idle? ==> y.bytes == x.bytes)
              && (step.Overflow? || |Next(s, step).grants| > |s.grants| <==> y.Idle?)
              && (y.Loaded? ==> step.Load? && y.at == |s.grants|)
    ensures |Next(s, step).grants| > |s.grants| ==> step.Cas?
    ensures Next(s, step).overflow <==> s.overflow || step.Overflow?
  {
  }

  lemma ToldStep(s: State, start: nat, steps: seq<Step>, step: Step, t: nat)
    requires t < |s.threads| && Enabled(s, step) && Told(s, start, steps, t) && s.grants == Wins(start, steps)
    ensures Told(Next(s, step), start, steps + [step], t)
  {
    var s', steps' := Next(s, step), steps + [step];
    ThreadMore(s, step, t);
    StepsMore(start, steps, step, t);
    OwnMore(s, step, t);
    ToldMore(s, s', start, steps, steps', step, t);
  }

  lemma ToldMore(s: State, s': State, start: nat, steps: seq<Step>, steps': seq<Step>, step: Step, t: nat)
    requires t < |s.threads| == |s'.threads| && Told(s, start, steps, t)
    requires var grew := |s'.grants| > |s.grants|;
             && Asked(steps', t) == Asked(steps, t) + (if step.Begin? && step.t == t then 1 else 0)
             && LastAsk(steps', t) == (if step.Begin? && step.t == t then step.bytes else LastAsk(steps, t))
             && Refused(steps', t) == Refused(steps, t) + (if step == Overflow(t) then 1 else 0)
             && WinsAtLoad(start, steps', t) == (if step == Load(t) then |s.grants| else WinsAtLoad(start, steps, t))
             && Own(s'.grants, t) == Own(s.grants, t) + (if grew && step.t == t then 1 else 0)
             && (grew ==> step.Cas?) && (s'.overflow <==> s.overflow || step.Overflow?)
             && var x, y := s.threads[t], s'.threads[t];
                if step.t != t then y == x
                else if step.Begin? then x.Idle? && y == Start(step.bytes)
                else
                  && !x.Idle? && (!y.Idle? ==> y.bytes == x.bytes) && (step.Overflow? || grew <==> y.Idle?)
                  && (y.Loaded? ==> step.Load? && y.at == |s.grants|)
    ensures Told(s', start, steps', t)
  {
  }

  lemma WinsStep(s: State, steps: seq<Step>, step: Step)
    requires Inv(s) && Enabled(s, step) && s.grants == Wins(s.start, steps) && Told(s, s.start, steps, step.t)
    ensures Next(s, step).grants == Wins(s.start, steps + [step])
  {
    assert (steps + [step])[..|steps|] == steps;
    assert ThreadOk(s, step.t);
    if step.Cas? && s.threads[step.t].at < |s.grants| {
      EdgesGrow(s, s.threads[step.t].at);
    }
  }

  lemma {:induction false} OverflowTold(n: nat, start: nat, end: nat, steps: seq<Step>)
    requires LegalSteps(Init(n, start, end), steps)
    ensures RunSteps(Init(n, start, end), steps).overflow <==> exists step <- steps :: step.Overflow?
  {
    if steps != [] {
      OverflowTold(n, start, end, steps[..|steps| - 1]);
      assert steps == steps[..|steps| - 1] + [steps[|steps| - 1]];
    }
  }

  ghost predicate Answered(s: State, n: nat, start: nat, steps: seq<Step>) {
    |s.threads| == n && s.grants == Wins(start, steps) && forall t: nat :: t < n ==> Told(s, start, steps, t)
  }

  lemma AnsweredStep(s: State, n: nat, steps: seq<Step>, step: Step)
    requires Inv(s) && Enabled(s, step) && Answered(s, n, s.start, steps)
    ensures Answered(Next(s, step), n, s.start, steps + [step])
  {
    WinsStep(s, steps, step);
    forall t: nat | t < n ensures Told(Next(s, step), s.start, steps + [step], t) {
      ToldStep(s, s.start, steps, step, t);
    }
  }

  /** Every request is answered as the steps say: the grants of a run are the wins, each of
      the size asked for; a thread's requests are its grants, its refusals, and the one it
      may be waiting for; and the overflow flag is set if and only if anybody was refused. */
  lemma {:induction false} RequestsAnswered(n: nat, start: nat, end: nat, steps: seq<Step>)
    requires LegalSteps(Init(n, start, end), steps)
    ensures Answered(RunSteps(Init(n, start, end), steps), n, start, steps)
    ensures RunSteps(Init(n, start, end), steps).overflow <==> exists step <- steps :: step.Overflow?
  {
    OverflowTold(n, start, end, steps);
    if steps != [] {
      var steps', step := steps[..|steps| - 1], steps[|steps| - 1];
      RequestsAnswered(n, start, end, steps');
      InvAlways(n, start, end, steps');
      AnsweredStep(RunSteps(Init(n, start, end), steps'), n, steps', step);
      assert steps == steps' + [step];
    }
  }

  /** A thread that has asked and has not been answered can always go on, and any other can
      ask for as much as it likes. */
  lemma Moves(n: nat, start: nat, end: nat, steps: seq<Step>, t: nat)
    requires LegalSteps(Init(n, start, end), steps) && t < n
    ensures var s := RunSteps(Init(n, start, end), steps);
            Asked(steps, t) > Own(s.grants, t) + Refused(steps, t) <==>
            Enabled(s, Load(t)) || Enabled(s, Cas(t)) || Enabled(s, Overflow(t))
    ensures var s := RunSteps(Init(n, start, end), steps);
            Asked(steps, t) == Own(s.grants, t) + Refused(steps, t) ==>
            forall bytes: nat :: bytes > 0 ==> Enabled(s, Begin(t, bytes))
  {
    RequestsAnswered(n, start, end, steps);
    assert Told(RunSteps(Init(n, start, end), steps), start, steps, t);
  }

  /** What one `tsclog_4` stores. */
  datatype Record = Record(worker: nat, client: nat, id: nat, event: nat)

  /** TscLogEntrySize(4). */
  const ENTRY := 48

  /** L1_CACHE_BYTES, and the size of the log's header. */
  const CACHE_LINE := 64

  /** Where the k-th record of a log of four-value entries begins. */
  function At(start: nat, k: nat): (a: nat) {
    start + k * ENTRY
  }

  /** Bytes taken by rivals in the first k windows between a load and its
      compare-and-swap; a rival that finds no room takes nothing. */
  function Taken(cur: nat, end: nat, rivals: seq<nat>, k: nat): (c: nat)
    requires k <= |rivals|
    ensures c >= cur && (cur <= end ==> c <= end)
  {
    if k == 0 then cur
    else
      var c := Taken(cur, end, rivals, k - 1);
      if c + rivals[k - 1] <= end then c + rivals[k - 1] else c
  }

  /** One log. `attempts` is history: every record anybody asked to have stored. */
  class Log {
    const start: nat
    const end: nat
    var cur: nat
    var overflow: bool
    var memory: map<nat, Record>
    ghost var attempts: seq<Record>

    /** How many records fit. */
    ghost function Room(): nat {
      if end < start then 0 else (end - start) / ENTRY
    }

    ghost function Kept(): nat
      reads this
    {
      if |attempts| <= Room() then |attempts| else Room()
    }

    /** The log holds the first attempts, one after the other, as many as there is room
        for, and `overflow` says whether any attempt is missing. */
    ghost predicate Valid()
      reads this
    {
      && cur == At(start, Kept())
      && (overflow <==> |attempts| > Room())
      && forall k :: 0 <= k < Kept() ==> At(start, k) in memory && memory[At(start, k)] == attempts[k]
    }

    /** Room for `events` records in an allocation of `CACHE_LINE` bytes for the header,
        the records, and `CACHE_LINE` more to align the whole. */
    constructor (base: nat, events: nat)
      ensures Valid() && attempts == [] && Room() == events
      ensures (start - CACHE_LINE) % CACHE_LINE == 0 && base <= start - CACHE_LINE
      ensures start + events * ENTRY == end <= base + (CACHE_LINE + events * ENTRY + CACHE_LINE)
    {
      var aligned := if base % CACHE_LINE == 0 then base else (base + CACHE_LINE) / CACHE_LINE * CACHE_LINE;
      start, end := aligned + CACHE_LINE, aligned + CACHE_LINE + events * ENTRY;
      cur, overflow, memory, attempts := aligned + CACHE_LINE, false, map[], [];
    }

    /** The retry loop, with what rivals take between a load and its compare-and-swap
        given by `rivals`. It fails only when there is no room; otherwise it returns the
        range that starts where the rivals it lost to have left `cur`. It loses only to
        a rival that took something, so it needs at most one try more than `rivals` has. */
    method TscBufferReserve(bytes: nat, rivals: seq<nat>) returns (entry: nat, ok: bool, ghost lost: nat)
      requires bytes > 0
      modifies this`cur
      ensures lost <= |rivals| && forall i :: 0 <= i < lost ==>
                Taken(old(cur), end, rivals, i) < Taken(old(cur), end, rivals, i + 1)
      ensures var seen := Taken(old(cur), end, rivals, lost);
              && (ok <==> seen + bytes <= end)
              && (ok ==> entry == seen && cur == seen + bytes)
              && (!ok ==> cur == seen)
    {
      var i := 0;
      lost := 0;
      while true
        invariant 0 <= i <= |rivals| && lost == i && cur == Taken(old(cur), end, rivals, i)
        invariant forall k :: 0 <= k < i ==> Taken(old(cur), end, rivals, k) < Taken(old(cur), end, rivals, k + 1)
        decreases |rivals| - i
      {
        var seen := cur;
        var next := seen + bytes;
        if next > end {
          return 0, false, lost;
        }
        if i < |rivals| && cur + rivals[i] <= end {
          cur := cur + rivals[i];
        }
        if cur == seen {
          cur := next;
          return seen, true, lost;
        }
        i, lost := i + 1, lost + 1;
      }
    }

    /** Each worker has its own log, so nobody interferes. */
    method Tsclog4(r: Record)
      requires Valid()
      modifies this
      ensures Valid() && attempts == old(attempts) + [r]
    {
      var e, ok, _ := TscBufferReserve(ENTRY, []);
      attempts := attempts + [r];
      if !ok {
        overflow := true;
        return;
      }
      memory := memory[e := r];
    }

    /** The dump: step a pointer from the first record until it equals `cur`. It gets
        there, and writes out the kept attempts in order. */
    method Dump() returns (rows: seq<Record>)
      requires Valid()
      ensures rows == attempts[..Kept()]
    {
      rows := [];
      var cursor: nat := start;
      while cursor != cur
        invariant |rows| <= Kept() && cursor == At(start, |rows|) && rows == attempts[..|rows|]
        decreases Kept() - |rows|
      {
        assert At(start, |rows|) in memory;
        rows := rows + [memory[cursor]];
        cursor := cursor + ENTRY;
      }
    }
  }
}
