/**
 The start barriers. In event-tester/epoll.c and iouring.c the main thread holds
 `worker_hang_lock` until every worker has counted itself in; in libupcall/upcall.c the
 workers also wait for a go flag. Every lock, wait, signal and unlock is a step; a wait
 releases the mutex and may end without a signal. Workers are numbered from 0.
 */
module Barriers {
  /** Who holds a mutex. */
  datatype Owner = Free | Main | Worker(i: nat)

  /** Workers in the given places, among the first n. */
  function Count(places: seq<bool>, n: nat): nat
    requires n <= |places|
  {
    if n == 0 then 0 else Count(places, n - 1) + if places[n - 1] then 1 else 0
  }

  lemma {:induction false} CountUpdate(places: seq<bool>, i: nat, b: bool, n: nat)
    requires i < |places| && n <= |places|
    ensures Count(places[i := b], n) ==
              Count(places, n) + if i < n then (if b then 1 else 0) - (if places[i] then 1 else 0) else 0
  {
    if n > 0 {
      CountUpdate(places, i, b, n - 1);
    }
  }

  lemma {:induction false} CountAll(places: seq<bool>, n: nat)
    requires n <= |places|
    ensures Count(places, n) <= n
    ensures Count(places, n) == n <==> forall i :: 0 <= i < n ==> places[i]
  {
    if n > 0 {
      CountAll(places, n - 1);
    }
  }

  lemma {:induction false} NoneCounted(places: seq<bool>, n: nat)
    requires n <= |places| && forall i :: 0 <= i < |places| ==> !places[i]
    ensures Count(places, n) == 0
  {
    if n > 0 {
      NoneCounted(places, n - 1);
    }
  }
}

/** epoll.c and iouring.c. */
module HangBarrier {
  import opened Barriers

  /** Main: creating threads with the hang lock held; about to lock `init_lock`; about to
      test the count; asleep on `init_cond`; awake but without the mutex; about to unlock
      the two mutexes; done. */
  datatype MainPc = Creating | LockInit | Test | Asleep | Awake | UnlockInit | UnlockHang | Done

  /** Worker: not created; in its setup, which publishes `threads[i]`; then the calls of
      the barrier in order; then the event loop. */
  datatype WorkerPc =
    | Unborn | Setup | Lock | Increment | Signal | Unlock | LockHang | UnlockHang | Loop

  datatype State = State(
    hang: Owner, init: Owner, count: nat, main: MainPc, created: nat,
    workers: seq<WorkerPc>, counted: seq<bool>)

  datatype Step = Main | Worker(i: nat) | Spurious

  function Init(n: nat): State {
    State(Owner.Main, Free, 0, Creating, 0, seq(n, _ => Unborn), seq(n, _ => false))
  }

  predicate Enabled(s: State, step: Step) {
    match step
    case Main => (
      match s.main
      case LockInit => s.init == Free
      case Awake => s.init == Free
      case Asleep => false
      case Done => false
      case _ => true)
    case Spurious => s.main == Asleep
    case Worker(i) =>
      i < |s.workers| &&
      match s.workers[i]
      case Unborn => false
      case Lock => s.init == Free
      case LockHang => s.hang == Free
      case Loop => false
      case _ => true
  }

  function MainStep(s: State): State
    requires Enabled(s, Step.Main)
  {
    match s.main
    case Creating =>
      if s.created < |s.workers| then
        s.(created := s.created + 1, workers := s.workers[s.created := Setup])
      else s.(main := LockInit)
    case LockInit => s.(init := Owner.Main, main := Test)
    case Awake => s.(init := Owner.Main, main := Test)
    case Test => if s.count < |s.workers| then s.(init := Free, main := Asleep) else s.(main := MainPc.UnlockInit)
    case UnlockInit => s.(init := Free, main := MainPc.UnlockHang)
    case UnlockHang => s.(hang := Free, main := Done)
    case _ => s
  }

  function Put(s: State, i: nat, pc: WorkerPc): State
    requires i < |s.workers|
  {
    s.(workers := s.workers[i := pc])
  }

  function WorkerStep(s: State, i: nat): State
    requires Enabled(s, Step.Worker(i)) && |s.counted| == |s.workers|
  {
    match s.workers[i]
    case Setup => Put(s, i, Lock)
    case Lock => Put(s, i, Increment).(init := Owner.Worker(i))
    case Increment => Put(s, i, Signal).(count := s.count + 1, counted := s.counted[i := true])
    case Signal => Put(s, i, Unlock).(main := if s.main == Asleep then Awake else s.main)
    case Unlock => Put(s, i, LockHang).(init := Free)
    case LockHang => Put(s, i, WorkerPc.UnlockHang).(hang := Owner.Worker(i))
    case UnlockHang => Put(s, i, Loop).(hang := Free)
    case _ => s
  }

  function Next(s: State, step: Step): State
    requires Enabled(s, step) && |s.counted| == |s.workers|
  {
    match step
    case Main => MainStep(s)
    case Worker(i) => WorkerStep(s, i)
    case Spurious => s.(main := Awake)
  }

  /** What the place of one worker says about the rest of the state. */
  ghost predicate WorkerOk(s: State, i: nat)
    requires i < |s.workers| == |s.counted|
  {
    && (s.counted[i] <==> s.workers[i] !in {Unborn, Setup, Lock, Increment})
    && (s.workers[i] in {Increment, Signal, Unlock} <==> s.init == Owner.Worker(i))
    && (s.workers[i] == WorkerPc.UnlockHang <==> s.hang == Owner.Worker(i))
    && (s.workers[i] in {WorkerPc.UnlockHang, Loop} ==> s.main == Done)
    && (s.workers[i] == Unborn <==> i >= s.created)
  }

  ghost predicate Inv(s: State) {
    && |s.counted| == |s.workers| && s.created <= |s.workers|
    && (s.main != Creating ==> s.created == |s.workers|)
    && s.count == Count(s.counted, |s.counted|)
    && (forall i: nat :: i < |s.workers| ==> WorkerOk(s, i))
    && (s.init.Worker? ==> s.init.i < |s.workers|) && (s.hang.Worker? ==> s.hang.i < |s.workers|)
    && (s.init == Owner.Main <==> s.main in {Test, MainPc.UnlockInit})
    && (s.hang == Owner.Main <==> s.main != Done)
    && (s.main in {MainPc.UnlockInit, MainPc.UnlockHang, Done} ==> s.count == |s.workers|)
    // a sleeping main is owed a signal: somebody is yet to count, or is about to signal
    && (s.main == Asleep && s.count == |s.workers| ==> s.init.Worker? && s.workers[s.init.i] == Signal)
  }

  lemma OtherInv(s: State, step: Step)
    requires Inv(s) && Enabled(s, step) && !step.Worker?
    ensures Inv(Next(s, step))
  {
    var t := Next(s, step);
    CountAll(s.counted, |s.counted|);
    forall j: nat | j < |t.workers| ensures WorkerOk(t, j) {
      assert WorkerOk(s, j);
    }
  }

  /** Counting a worker in. */
  lemma CountIn(s: State, i: nat)
    requires Inv(s) && Enabled(s, Step.Worker(i)) && s.workers[i] == Increment
    ensures WorkerStep(s, i).count == Count(WorkerStep(s, i).counted, |s.counted|) && !s.counted[i]
    ensures s.count < |s.workers|
  {
    assert WorkerOk(s, i);
    CountUpdate(s.counted, i, true, |s.counted|);
    CountAll(s.counted, |s.counted|);
  }

  lemma WorkerInv(s: State, i: nat)
    requires Inv(s) && Enabled(s, Step.Worker(i))
    ensures Inv(WorkerStep(s, i))
  {
    var t := WorkerStep(s, i);
    assert WorkerOk(s, i);
    if s.workers[i] == Increment {
      CountIn(s, i);
    }
    CountAll(t.counted, |t.counted|);
    forall j: nat | j < |t.workers| ensures WorkerOk(t, j) {
      assert WorkerOk(s, j);
    }
  }

  ghost predicate LegalSteps(s: State, steps: seq<Step>)
    requires |s.counted| == |s.workers|
    decreases |steps|, 0
  {
    steps == [] ||
    (LegalSteps(s, steps[..|steps| - 1]) && Enabled(RunSteps(s, steps[..|steps| - 1]), steps[|steps| - 1]))
  }

  ghost function RunSteps(s: State, steps: seq<Step>): (t: State)
    requires |s.counted| == |s.workers| && LegalSteps(s, steps)
    ensures |t.counted| == |t.workers| == |s.workers|
    decreases |steps|, 1
  {
    if steps == [] then s else Next(RunSteps(s, steps[..|steps| - 1]), steps[|steps| - 1])
  }

  lemma {:induction false} InvAlways(n: nat, steps: seq<Step>)
    requires LegalSteps(Init(n), steps)
    ensures Inv(RunSteps(Init(n), steps))
  {
    if steps == [] {
      NoneCounted(Init(n).counted, n);
    } else {
      var s := RunSteps(Init(n), steps[..|steps| - 1]);
      InvAlways(n, steps[..|steps| - 1]);
      match steps[|steps| - 1]
      case Worker(i) => WorkerInv(s, i);
      case other => OtherInv(s, other);
    }
  }

  /** A worker in its event loop implies that every worker has finished its setup, so
      every `threads[owner]` is set, and that main has been through the barrier. */
  lemma LoopAfterSetup(n: nat, steps: seq<Step>, i: nat, j: nat)
    requires LegalSteps(Init(n), steps) && i < n && j < n
    requires RunSteps(Init(n), steps).workers[i] == Loop
    ensures var s := RunSteps(Init(n), steps);
            s.main == Done && s.workers[j] !in {Unborn, Setup, Lock, Increment}
  {
    var s := RunSteps(Init(n), steps);
    InvAlways(n, steps);
    assert WorkerOk(s, i) && WorkerOk(s, j);
    CountAll(s.counted, n);
  }

  /** What is still to do: each step of a worker counts three times, because signalling main
      gives it up to two steps again. */
  function WorkerLeft(pc: WorkerPc): nat {
    match pc
    case Unborn => 8
    case Setup => 7
    case Lock => 6
    case Increment => 5
    case Signal => 4
    case Unlock => 3
    case LockHang => 2
    case UnlockHang => 1
    case Loop => 0
  }

  function MainLeft(pc: MainPc): nat {
    match pc
    case Creating => 5
    case LockInit => 4
    case Awake => 4
    case Test => 3
    case Asleep => 2
    case UnlockInit => 2
    case UnlockHang => 1
    case Done => 0
  }

  function WorkersLeft(ws: seq<WorkerPc>, n: nat): nat
    requires n <= |ws|
  {
    if n == 0 then 0 else WorkersLeft(ws, n - 1) + WorkerLeft(ws[n - 1])
  }

  function Left(s: State): nat {
    3 * WorkersLeft(s.workers, |s.workers|) + MainLeft(s.main)
  }

  lemma {:induction false} LeftUpdate(ws: seq<WorkerPc>, i: nat, pc: WorkerPc, n: nat)
    requires i < |ws| && n <= |ws|
    ensures WorkersLeft(ws[i := pc], n) ==
              WorkersLeft(ws, n) + if i < n then WorkerLeft(pc) - WorkerLeft(ws[i]) else 0
  {
    if n > 0 {
      LeftUpdate(ws, i, pc, n - 1);
    }
  }

  lemma {:induction false} LeftInit(n: nat, k: nat)
    requires k <= n
    ensures WorkersLeft(Init(n).workers, k) == 8 * k
  {
    if k > 0 {
      LeftInit(n, k - 1);
    }
  }

  lemma MainCounts(s: State)
    requires Inv(s) && Enabled(s, Step.Main)
    ensures Left(MainStep(s)) < Left(s)
  {
    if s.main == Creating && s.created < |s.workers| {
      assert WorkerOk(s, s.created);
      LeftUpdate(s.workers, s.created, Setup, |s.workers|);
    }
  }

  lemma WorkerCounts(s: State, i: nat)
    requires Inv(s) && Enabled(s, Step.Worker(i))
    ensures Left(WorkerStep(s, i)) < Left(s)
  {
    LeftUpdate(s.workers, i, WorkerStep(s, i).workers[i], |s.workers|);
  }

  /** Every step that is not a spurious wakeup makes progress. */
  lemma StepCounts(s: State, step: Step)
    requires Inv(s) && Enabled(s, step)
    ensures Left(Next(s, step)) < Left(s) + if step == Step.Spurious then 3 else 0
  {
    match step
    case Main => MainCounts(s);
    case Worker(i) => WorkerCounts(s, i);
    case Spurious =>
  }

  function AllSpurious(steps: seq<Step>): nat {
    if steps == [] then 0
    else AllSpurious(steps[..|steps| - 1]) + if steps[|steps| - 1] == Step.Spurious then 1 else 0
  }

  /** The barrier is over after 24 steps for each worker and 5 for main, and at most 3 for
      each spurious wakeup; nobody spins. */
  lemma {:induction false} Bounded(n: nat, steps: seq<Step>)
    requires LegalSteps(Init(n), steps)
    ensures |steps| + Left(RunSteps(Init(n), steps)) <= 24 * n + 5 + 3 * AllSpurious(steps)
  {
    if steps == [] {
      LeftInit(n, n);
    } else {
      var steps' := steps[..|steps| - 1];
      Bounded(n, steps');
      InvAlways(n, steps');
      StepCounts(RunSteps(Init(n), steps'), steps[|steps| - 1]);
    }
  }

  ghost predicate Finished(s: State) {
    s.main == Done && forall i :: 0 <= i < |s.workers| ==> s.workers[i] == Loop
  }

  /** Nobody is stuck: in every reachable state, unless all are through, some thread can
      move without a spurious wakeup, and come closer to the end. */
  lemma NoDeadlock(n: nat, steps: seq<Step>)
    requires LegalSteps(Init(n), steps) && !Finished(RunSteps(Init(n), steps))
    ensures var s := RunSteps(Init(n), steps);
            |s.counted| == |s.workers| &&
            exists step: Step :: step != Step.Spurious && Enabled(s, step) && Left(Next(s, step)) < Left(s)
  {
    InvAlways(n, steps);
    var s := RunSteps(Init(n), steps);
    CountAll(s.counted, |s.counted|);
    if s.init.Worker? {
      assert WorkerOk(s, s.init.i) && Enabled(s, Step.Worker(s.init.i));
      StepCounts(s, Step.Worker(s.init.i));
    } else if s.hang.Worker? {
      assert WorkerOk(s, s.hang.i) && Enabled(s, Step.Worker(s.hang.i));
      StepCounts(s, Step.Worker(s.hang.i));
    } else if s.main == Asleep {
      var i: nat :| i < |s.counted| && !s.counted[i];
      assert WorkerOk(s, i) && Enabled(s, Step.Worker(i));
      StepCounts(s, Step.Worker(i));
    } else if s.main == Done {
      var i: nat :| i < |s.workers| && s.workers[i] != Loop;
      assert WorkerOk(s, i) && Enabled(s, Step.Worker(i));
      StepCounts(s, Step.Worker(i));
    } else {
      assert Enabled(s, Step.Main);
      StepCounts(s, Step.Main);
    }
  }
}

/** libupcall/upcall.c: `upcall_worker_fn`, `upcall_init` and `upcall_workers_go`. */
module GoBarrier {
  import opened Barriers

  /** Main: in `upcall_init` creating threads, then locking, testing, asleep on
      `g_init_cond`, awake without the mutex, unlocking; then in `upcall_workers_go`,
      which the documentation says to call next: locking, setting the flag and waking
      everybody, unlocking; done. */
  datatype MainPc = Creating | LockInit | Test | Asleep | Awake | UnlockInit | LockGo | Go | UnlockGo | Done

  /** Worker: not created; in its setup; then the barrier's calls in order, where Sleeping
      is in the wait on `g_go_cond` and Roused is woken but without the mutex. */
  datatype WorkerPc = Unborn | Setup | Lock | Increment | Signal | TestGo | Sleeping | Roused | Unlock | Loop

  datatype State = State(
    init: Owner, count: nat, go: bool, main: MainPc, created: nat,
    workers: seq<WorkerPc>, counted: seq<bool>)

  datatype Step = Main | Worker(i: nat) | SpuriousMain | SpuriousWorker(i: nat)

  function Init(n: nat): State {
    State(Free, 0, false, Creating, 0, seq(n, _ => Unborn), seq(n, _ => false))
  }

  predicate Enabled(s: State, step: Step) {
    match step
    case Main => (
      match s.main
      case LockInit => s.init == Free
      case Awake => s.init == Free
      case LockGo => s.init == Free
      case Asleep => false
      case Done => false
      case _ => true)
    case SpuriousMain => s.main == Asleep
    case SpuriousWorker(i) => i < |s.workers| && s.workers[i] == Sleeping
    case Worker(i) =>
      i < |s.workers| &&
      match s.workers[i]
      case Unborn => false
      case Sleeping => false
      case Lock => s.init == Free
      case Roused => s.init == Free
      case Loop => false
      case _ => true
  }

  function MainStep(s: State): State
    requires Enabled(s, Step.Main)
  {
    match s.main
    case Creating =>
      if s.created < |s.workers| then s.(created := s.created + 1, workers := s.workers[s.created := Setup])
      else s.(main := LockInit)
    case LockInit => s.(init := Owner.Main, main := Test)
    case Awake => s.(init := Owner.Main, main := Test)
    case Test => if s.count < |s.workers| then s.(init := Free, main := Asleep) else s.(main := UnlockInit)
    case UnlockInit => s.(init := Free, main := LockGo)
    case LockGo => s.(init := Owner.Main, main := Go)
    case Go => s.(go := true, main := UnlockGo,
                  workers := seq(|s.workers|, i requires 0 <= i < |s.workers| =>
                                   if s.workers[i] == Sleeping then Roused else s.workers[i]))
    case UnlockGo => s.(init := Free, main := Done)
    case _ => s
  }

  function Put(s: State, i: nat, pc: WorkerPc): State
    requires i < |s.workers|
  {
    s.(workers := s.workers[i := pc])
  }

  function WorkerStep(s: State, i: nat): State
    requires Enabled(s, Step.Worker(i)) && |s.counted| == |s.workers|
  {
    match s.workers[i]
    case Setup => Put(s, i, Lock)
    case Lock => Put(s, i, Increment).(init := Owner.Worker(i))
    case Increment => Put(s, i, Signal).(count := s.count + 1, counted := s.counted[i := true])
    case Signal => Put(s, i, TestGo).(main := if s.main == Asleep then Awake else s.main)
    case TestGo => if s.go then Put(s, i, Unlock) else Put(s, i, Sleeping).(init := Free)
    case Roused => Put(s, i, TestGo).(init := Owner.Worker(i))
    case Unlock => Put(s, i, Loop).(init := Free)
    case _ => s
  }

  function Next(s: State, step: Step): State
    requires Enabled(s, step) && |s.counted| == |s.workers|
  {
    match step
    case Main => MainStep(s)
    case Worker(i) => WorkerStep(s, i)
    case SpuriousMain => s.(main := Awake)
    case SpuriousWorker(i) => Put(s, i, Roused)
  }

  ghost predicate WorkerOk(s: State, i: nat)
    requires i < |s.workers| == |s.counted|
  {
    && (s.counted[i] <==> s.workers[i] !in {Unborn, Setup, Lock, Increment})
    && (s.workers[i] in {Increment, Signal, TestGo, Unlock} <==> s.init == Owner.Worker(i))
    && (s.workers[i] in {Unlock, Loop} ==> s.go)
    && (s.workers[i] == Sleeping ==> !s.go)
    && (s.workers[i] == Unborn <==> i >= s.created)
  }

  ghost predicate Inv(s: State) {
    && |s.counted| == |s.workers| && s.created <= |s.workers|
    && (s.main != Creating ==> s.created == |s.workers|)
    && s.count == Count(s.counted, |s.counted|)
    && (forall i: nat :: i < |s.workers| ==> WorkerOk(s, i))
    && (s.init.Worker? ==> s.init.i < |s.workers|)
    && (s.init == Owner.Main <==> s.main in {Test, UnlockInit, Go, UnlockGo})
    && (s.main in {UnlockInit, LockGo, Go, UnlockGo, Done} ==> s.count == |s.workers|)
    && (s.go <==> s.main in {UnlockGo, Done})
    // a sleeping main is owed a signal: somebody is yet to count, or is about to signal
    && (s.main == Asleep && s.count == |s.workers| ==> s.init.Worker? && s.workers[s.init.i] == Signal)
  }

  lemma OtherInv(s: State, step: Step)
    requires Inv(s) && Enabled(s, step) && !step.Worker?
    ensures Inv(Next(s, step))
  {
    var t := Next(s, step);
    CountAll(s.counted, |s.counted|);
    forall j: nat | j < |t.workers| ensures WorkerOk(t, j) {
      assert WorkerOk(s, j);
    }
  }

  /** Counting a worker in. */
  lemma CountIn(s: State, i: nat)
    requires Inv(s) && Enabled(s, Step.Worker(i)) && s.workers[i] == Increment
    ensures WorkerStep(s, i).count == Count(WorkerStep(s, i).counted, |s.counted|) && !s.counted[i]
    ensures s.count < |s.workers|
  {
    assert WorkerOk(s, i);
    CountUpdate(s.counted, i, true, |s.counted|);
    CountAll(s.counted, |s.counted|);
  }

  lemma WorkerInv(s: State, i: nat)
    requires Inv(s) && Enabled(s, Step.Worker(i))
    ensures Inv(WorkerStep(s, i))
  {
    var t := WorkerStep(s, i);
    assert WorkerOk(s, i);
    if s.workers[i] == Increment {
      CountIn(s, i);
    }
    CountAll(t.counted, |t.counted|);
    forall j: nat | j < |t.workers| ensures WorkerOk(t, j) {
      assert WorkerOk(s, j);
    }
  }

  ghost predicate LegalSteps(s: State, steps: seq<Step>)
    requires |s.counted| == |s.workers|
    decreases |steps|, 0
  {
    steps == [] ||
    (LegalSteps(s, steps[..|steps| - 1]) && Enabled(RunSteps(s, steps[..|steps| - 1]), steps[|steps| - 1]))
  }

  ghost function RunSteps(s: State, steps: seq<Step>): (t: State)
    requires |s.counted| == |s.workers| && LegalSteps(s, steps)
    ensures |t.counted| == |t.workers| == |s.workers|
    decreases |steps|, 1
  {
    if steps == [] then s else Next(RunSteps(s, steps[..|steps| - 1]), steps[|steps| - 1])
  }

  lemma {:induction false} InvAlways(n: nat, steps: seq<Step>)
    requires LegalSteps(Init(n), steps)
    ensures Inv(RunSteps(Init(n), steps))
  {
    if steps == [] {
      NoneCounted(Init(n).counted, n);
    } else {
      var s, step := RunSteps(Init(n), steps[..|steps| - 1]), steps[|steps| - 1];
      InvAlways(n, steps[..|steps| - 1]);
      match step
      case Worker(i) => WorkerInv(s, i);
      case other => OtherInv(s, other);
    }
  }

  /** A worker in its event loop implies that `upcall_workers_go` has been called and that
      every worker, its setup function included, was set up before. */
  lemma LoopAfterGo(n: nat, steps: seq<Step>, i: nat, j: nat)
    requires LegalSteps(Init(n), steps) && i < n && j < n
    requires RunSteps(Init(n), steps).workers[i] == Loop
    ensures var s := RunSteps(Init(n), steps);
            s.go && s.main in {UnlockGo, Done} && s.workers[j] !in {Unborn, Setup, Lock, Increment}
  {
    var s := RunSteps(Init(n), steps);
    InvAlways(n, steps);
    assert WorkerOk(s, i) && WorkerOk(s, j);
    CountAll(s.counted, n);
  }

  /** What is still to do: each step of a worker counts three times, because signalling main
      gives it up to two steps again; and until main has broadcast, each worker may have to
      be woken from its sleep. */
  function WorkerLeft(pc: WorkerPc): nat {
    match pc
    case Unborn => 7
    case Setup => 6
    case Lock => 5
    case Increment => 4
    case Signal => 3
    case Roused => 3
    case TestGo => 2
    case Sleeping => 1
    case Unlock => 1
    case Loop => 0
  }

  function MainLeft(pc: MainPc): nat {
    match pc
    case Creating => 8
    case LockInit => 7
    case Awake => 7
    case Test => 6
    case Asleep => 5
    case UnlockInit => 5
    case LockGo => 4
    case Go => 3
    case UnlockGo => 1
    case Done => 0
  }

  function WorkersLeft(ws: seq<WorkerPc>, n: nat): nat
    requires n <= |ws|
  {
    if n == 0 then 0 else WorkersLeft(ws, n - 1) + WorkerLeft(ws[n - 1])
  }

  function Left(s: State): nat {
    3 * WorkersLeft(s.workers, |s.workers|) + MainLeft(s.main)
    + if s.main in {UnlockGo, Done} then 0 else 6 * |s.workers|
  }

  lemma {:induction false} LeftUpdate(ws: seq<WorkerPc>, i: nat, pc: WorkerPc, n: nat)
    requires i < |ws| && n <= |ws|
    ensures WorkersLeft(ws[i := pc], n) ==
              WorkersLeft(ws, n) + if i < n then WorkerLeft(pc) - WorkerLeft(ws[i]) else 0
  {
    if n > 0 {
      LeftUpdate(ws, i, pc, n - 1);
    }
  }

  lemma {:induction false} LeftInit(n: nat, k: nat)
    requires k <= n
    ensures WorkersLeft(Init(n).workers, k) == 7 * k
  {
    if k > 0 {
      LeftInit(n, k - 1);
    }
  }

  /** A broadcast wakes sleepers and moves nobody else. */
  lemma {:induction false} LeftRoused(ws: seq<WorkerPc>, us: seq<WorkerPc>, n: nat)
    requires n <= |ws| == |us|
    requires forall i :: 0 <= i < n ==> us[i] == ws[i] || (ws[i] == Sleeping && us[i] == Roused)
    ensures WorkersLeft(us, n) <= WorkersLeft(ws, n) + 2 * n
  {
    if n > 0 {
      LeftRoused(ws, us, n - 1);
    }
  }

  function Spurious(step: Step): nat {
    if step.SpuriousMain? || step.SpuriousWorker? then 1 else 0
  }

  lemma MainCounts(s: State)
    requires Inv(s) && Enabled(s, Step.Main)
    ensures Left(MainStep(s)) < Left(s)
  {
    if s.main == Creating && s.created < |s.workers| {
      assert WorkerOk(s, s.created);
      LeftUpdate(s.workers, s.created, Setup, |s.workers|);
    } else if s.main == Go {
      LeftRoused(s.workers, MainStep(s).workers, |s.workers|);
    }
  }

  lemma WorkerCounts(s: State, i: nat)
    requires Inv(s) && Enabled(s, Step.Worker(i))
    ensures Left(WorkerStep(s, i)) < Left(s)
  {
    LeftUpdate(s.workers, i, WorkerStep(s, i).workers[i], |s.workers|);
  }

  /** Every step that is not a spurious wakeup makes progress. */
  lemma StepCounts(s: State, step: Step)
    requires Inv(s) && Enabled(s, step)
    ensures Left(Next(s, step)) < Left(s) + 7 * Spurious(step)
  {
    match step
    case Main => MainCounts(s);
    case Worker(i) => WorkerCounts(s, i);
    case SpuriousMain =>
    case SpuriousWorker(i) => LeftUpdate(s.workers, i, Roused, |s.workers|);
  }

  function AllSpurious(steps: seq<Step>): nat {
    if steps == [] then 0 else AllSpurious(steps[..|steps| - 1]) + Spurious(steps[|steps| - 1])
  }

  /** The barrier is over after 27 steps for each worker and 8 for main, and at most 7 for
      each spurious wakeup; nobody spins. */
  lemma {:induction false} Bounded(n: nat, steps: seq<Step>)
    requires LegalSteps(Init(n), steps)
    ensures |steps| + Left(RunSteps(Init(n), steps)) <= 27 * n + 8 + 7 * AllSpurious(steps)
  {
    if steps == [] {
      LeftInit(n, n);
    } else {
      var steps' := steps[..|steps| - 1];
      Bounded(n, steps');
      InvAlways(n, steps');
      StepCounts(RunSteps(Init(n), steps'), steps[|steps| - 1]);
    }
  }

  ghost predicate Finished(s: State) {
    s.main == Done && forall i :: 0 <= i < |s.workers| ==> s.workers[i] == Loop
  }

  /** No wakeup is lost: in every reachable state, unless all are through, some thread can
      move without a spurious wakeup, and come closer to the end. */
  lemma NoDeadlock(n: nat, steps: seq<Step>)
    requires LegalSteps(Init(n), steps) && !Finished(RunSteps(Init(n), steps))
    ensures var s := RunSteps(Init(n), steps);
            |s.counted| == |s.workers| &&
            exists step: Step :: Spurious(step) == 0 && Enabled(s, step) && Left(Next(s, step)) < Left(s)
  {
    InvAlways(n, steps);
    var s := RunSteps(Init(n), steps);
    CountAll(s.counted, |s.counted|);
    if s.init.Worker? {
      assert WorkerOk(s, s.init.i) && Enabled(s, Step.Worker(s.init.i));
      StepCounts(s, Step.Worker(s.init.i));
    } else if s.main == Asleep {
      var i: nat :| i < |s.counted| && !s.counted[i];
      assert WorkerOk(s, i) && Enabled(s, Step.Worker(i));
      StepCounts(s, Step.Worker(i));
    } else if s.main == Done {
      var i: nat :| i < |s.workers| && s.workers[i] != Loop;
      assert WorkerOk(s, i) && Enabled(s, Step.Worker(i));
      StepCounts(s, Step.Worker(i));
    } else {
      assert Enabled(s, Step.Main);
      StepCounts(s, Step.Main);
    }
  }
}
