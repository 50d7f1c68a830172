/**
 The event-driven servers (event-tester/epoll.c and event-tester/iouring.c) from the
 moment main begins to create threads: the barrier and a handoff machine in one. A worker
 publishes itself in `threads[]` in its setup and serves only from its loop on; the first
 to get there may accept a connection for any other.
 */
module StartedServers {
  import opened Wrappers
  import B = HangBarrier
  import E = EpollHandoff
  import U = IoUring
  import T = IoUringTable

  datatype Server = Epoll(e: E.State) | Uring(u: U.State)

  /** `threads[i]` says whether that pointer is set; `crashed` records a use of one that
      is not. */
  datatype State = State(boot: B.State, server: Server, threads: seq<bool>, crashed: bool)

  datatype Step = Boot(b: B.Step) | EpollStep(e: E.Step) | UringStep(u: U.Step)

  /** Both servers at their start; the message size is io_uring's alone to keep. */
  predicate Starts(server: Server, n: nat) {
    match server
    case Epoll(e) => e == E.Init(n)
    case Uring(u) => u.size > 0 && u == U.Init(n, u.size)
  }

  function Init(n: nat, server: Server): State {
    State(B.Init(n), server, seq(n, _ => false), false)
  }

  function Workers(server: Server): nat {
    match server
    case Epoll(e) => |e.ws|
    case Uring(u) => |u.ws|
  }

  predicate Sized(s: State, n: nat) {
    |s.boot.counted| == |s.boot.workers| == Workers(s.server) == |s.threads| == n
  }

  /** The worker whose code an io_uring step is; none for the kernel's. */
  function Actor(u: U.Step): Option<nat> {
    if u.WTake? || u.WPush? || u.WNotify? || u.WPop? || u.WInstall? || u.WDrained? || u.WClose? then Some(u.w)
    else None
  }

  /** Workers serve from their loop on. The kernel may complete requests at any time. */
  predicate Enabled(s: State, step: Step)
    requires Sized(s, |s.threads|)
  {
    match step
    case Boot(b) => B.Enabled(s.boot, b)
    case EpollStep(e) => s.server.Epoll? && E.Enabled(s.server.e, e) && s.boot.workers[e.w] == B.Loop
    case UringStep(u) =>
      s.server.Uring? && U.Enabled(s.server.u, u) && (Actor(u).Some? ==> s.boot.workers[Actor(u).value] == B.Loop)
  }

  /** For whom worker w is holding a connection, or whom it has yet to notify of one. */
  function Owner(server: Server, w: nat): Option<nat>
    requires w < Workers(server)
  {
    match server
    case Epoll(e) => if e.ws[w].pc.Push? || e.ws[w].pc.Notify? then Some(e.ws[w].pc.owner) else None
    case Uring(u) =>
      match u.ws[w].pc
      case Accepted(fd) => if fd in u.open then Some(u.open[fd]) else None
      case Pushed(owner) => Some(owner)
      case _ => None
  }

  /** Pushing to an owner's list, and notifying the owner, go through `threads[owner]`. */
  predicate UsesNull(s: State, w: nat)
    requires Sized(s, |s.threads|) && w < |s.threads|
  {
    Owner(s.server, w).Some? && !(Owner(s.server, w).value < |s.threads| && s.threads[Owner(s.server, w).value])
  }

  function Next(s: State, step: Step): State
    requires Sized(s, |s.threads|) && Enabled(s, step)
  {
    match step
    case Boot(b) =>
      s.(boot := B.Next(s.boot, b),
         threads := if b.Worker? && s.boot.workers[b.i] == B.Setup then s.threads[b.i := true] else s.threads)
    case EpollStep(e) =>
      s.(server := Epoll(E.Next(s.server.e, e)),
         crashed := s.crashed || ((e.Pushed? || e.Notified?) && UsesNull(s, e.w)))
    case UringStep(u) =>
      s.(server := Uring(U.Next(s.server.u, u)),
         crashed := s.crashed || ((u.WPush? || u.WNotify?) && UsesNull(s, u.w)))
  }

  ghost predicate LegalSteps(s: State, steps: seq<Step>)
    requires Sized(s, |s.threads|)
    decreases |steps|, 0
  {
    steps == [] ||
    (LegalSteps(s, steps[..|steps| - 1]) && Enabled(RunSteps(s, steps[..|steps| - 1]), steps[|steps| - 1]))
  }

  ghost function RunSteps(s: State, steps: seq<Step>): (t: State)
    requires Sized(s, |s.threads|) && LegalSteps(s, steps)
    ensures Sized(t, |s.threads|)
    decreases |steps|, 1
  {
    if steps == [] then s else Next(RunSteps(s, steps[..|steps| - 1]), steps[|steps| - 1])
  }

  /** A state that the barrier alone, or the handoff alone, can reach. */
  ghost predicate Booted(b: B.State, n: nat) {
    exists steps: seq<B.Step> :: B.LegalSteps(B.Init(n), steps) && B.RunSteps(B.Init(n), steps) == b
  }

  ghost predicate Served(server: Server, n: nat) {
    match server
    case Epoll(e) => exists steps: seq<E.Step> :: E.LegalSteps(E.Init(n), steps) && E.RunSteps(E.Init(n), steps) == e
    case Uring(u) =>
      exists steps: seq<U.Step> :: U.LegalSteps(U.Init(n, u.size), steps) && U.RunSteps(U.Init(n, u.size), steps) == u
  }

  lemma BootedStep(b: B.State, n: nat, step: B.Step)
    requires Booted(b, n) && B.Enabled(b, step) && |b.counted| == |b.workers|
    ensures Booted(B.Next(b, step), n)
  {
    var steps :| B.LegalSteps(B.Init(n), steps) && B.RunSteps(B.Init(n), steps) == b;
    assert (steps + [step])[..|steps|] == steps;
    assert B.LegalSteps(B.Init(n), steps + [step]);
  }

  lemma EpollServed(e: E.State, n: nat, step: E.Step)
    requires Served(Epoll(e), n) && E.Enabled(e, step)
    ensures Served(Epoll(E.Next(e, step)), n)
  {
    var steps :| E.LegalSteps(E.Init(n), steps) && E.RunSteps(E.Init(n), steps) == e;
    assert (steps + [step])[..|steps|] == steps;
    assert E.LegalSteps(E.Init(n), steps + [step]);
  }

  lemma UringServed(u: U.State, n: nat, step: U.Step)
    requires Served(Uring(u), n) && U.Enabled(u, step)
    ensures Served(Uring(U.Next(u, step)), n)
  {
    var steps :| U.LegalSteps(U.Init(n, u.size), steps) && U.RunSteps(U.Init(n, u.size), steps) == u;
    assert (steps + [step])[..|steps|] == steps;
    assert U.LegalSteps(U.Init(n, u.size), steps + [step]);
  }

  lemma StartServed(n: nat, server: Server)
    requires Starts(server, n)
    ensures Booted(B.Init(n), n) && Served(server, n)
  {
    assert B.RunSteps(B.Init(n), []) == B.Init(n);
    match server
    case Epoll(e) => assert E.RunSteps(E.Init(n), []) == e;
    case Uring(u) => assert U.RunSteps(U.Init(n, u.size), []) == u;
  }

  /** The whole server reaches no state of the barrier or of the handoff that these do not
      reach by themselves: what is known of the runs of either holds here. */
  lemma {:induction false} RunsOfBoth(n: nat, server: Server, steps: seq<Step>)
    requires Starts(server, n) && LegalSteps(Init(n, server), steps)
    ensures Booted(RunSteps(Init(n, server), steps).boot, n)
    ensures Served(RunSteps(Init(n, server), steps).server, n)
  {
    if steps == [] {
      StartServed(n, server);
    } else {
      RunsOfBoth(n, server, steps[..|steps| - 1]);
      var s := RunSteps(Init(n, server), steps[..|steps| - 1]);
      match steps[|steps| - 1]
      case Boot(b) => BootedStep(s.boot, n, b);
      case EpollStep(e) => EpollServed(s.server.e, n, e);
      case UringStep(u) => UringServed(s.server.u, n, u);
    }
  }

  /** Waiting for something to handle. */
  predicate Idle(server: Server, w: nat)
    requires w < Workers(server)
  {
    match server
    case Epoll(e) => e.ws[w].pc == E.Wait
    case Uring(u) => u.ws[w].pc == U.Loop
  }

  /** A pointer is set once its worker is through its setup; and a worker that is not yet
      in its loop has not begun to serve. */
  ghost predicate WorkerOk(s: State, i: nat)
    requires Sized(s, |s.threads|) && i < |s.threads|
  {
    && (s.threads[i] <==> s.boot.workers[i] !in {B.Unborn, B.Setup})
    && (s.boot.workers[i] != B.Loop ==> Idle(s.server, i))
  }

  lemma BootKeeps(s: State, b: B.Step, i: nat)
    requires Sized(s, |s.threads|) && i < |s.threads| && B.Inv(s.boot) && WorkerOk(s, i) && Enabled(s, Boot(b))
    ensures WorkerOk(Next(s, Boot(b)), i)
  {
    assert B.WorkerOk(s.boot, i);
  }

  lemma EpollKeeps(s: State, e: E.Step, i: nat)
    requires Sized(s, |s.threads|) && i < |s.threads| && WorkerOk(s, i) && Enabled(s, EpollStep(e))
    ensures WorkerOk(Next(s, EpollStep(e)), i)
  {
  }

  /** Only a worker's own steps move it. */
  lemma TakeMoves(u: U.State, w: nat, i: nat)
    requires U.Enabled(u, U.WTake(w)) && i < |u.ws| && w != i
    ensures U.Take(u, w).ws[i].pc == u.ws[i].pc
  {
    assert U.PopCqe(u, w).ws[i] == u.ws[i];
    match u.ws[w].cq[0]
    case CAccept(fd) => assert U.OnAccept(U.PopCqe(u, w), w, fd).ws[i] == u.ws[i];
    case CEvRead(value) => assert U.OnEvRead(U.PopCqe(u, w), w, value).ws[i] == u.ws[i];
    case CRead(fd, data) => assert U.OnRead(U.PopCqe(u, w), w, fd, data).ws[i] == u.ws[i];
    case CWrite(fd, n) => assert U.OnWrite(U.PopCqe(u, w), w, fd, n).ws[i] == u.ws[i];
    case CEvWrite =>
  }

  lemma UringMoves(u: U.State, step: U.Step, i: nat)
    requires U.Enabled(u, step) && i < |u.ws| && Actor(step) != Some(i)
    ensures U.Next(u, step).ws[i].pc == u.ws[i].pc
  {
    match step
    case WTake(w) => TakeMoves(u, w, i);
    case WPush(w) => assert U.Push(u, w).ws[i].pc == u.ws[i].pc;
    case WNotify(w) => assert U.Notify(u, w).ws[i].pc == u.ws[i].pc;
    case _ =>
  }

  lemma UringKeeps(s: State, u: U.Step, i: nat)
    requires Sized(s, |s.threads|) && i < |s.threads| && WorkerOk(s, i) && Enabled(s, UringStep(u))
    ensures WorkerOk(Next(s, UringStep(u)), i)
  {
    if Actor(u) != Some(i) {
      UringMoves(s.server.u, u, i);
    }
  }

  lemma {:induction false} WorkerAlways(n: nat, server: Server, steps: seq<Step>, i: nat)
    requires Starts(server, n) && LegalSteps(Init(n, server), steps) && i < n
    ensures WorkerOk(RunSteps(Init(n, server), steps), i)
  {
    if steps != [] {
      var steps' := steps[..|steps| - 1];
      var s := RunSteps(Init(n, server), steps');
      WorkerAlways(n, server, steps', i);
      match steps[|steps| - 1]
      case EpollStep(e) => EpollKeeps(s, e, i);
      case UringStep(u) => UringKeeps(s, u, i);
      case Boot(b) =>
        RunsOfBoth(n, server, steps');
        var boots :| B.LegalSteps(B.Init(n), boots) && B.RunSteps(B.Init(n), boots) == s.boot;
        B.InvAlways(n, boots);
        BootKeeps(s, b, i);
    }
  }

  /** Whoever is owed a connection is a worker. */
  lemma OwnerIsWorker(server: Server, n: nat, w: nat)
    requires Served(server, n) && Workers(server) == n && w < n && Owner(server, w).Some?
    requires server.Uring? ==> server.u.size > 0
    ensures Owner(server, w).value < n && !Idle(server, w)
  {
    match server
    case Epoll(e) =>
      var steps :| E.LegalSteps(E.Init(n), steps) && E.RunSteps(E.Init(n), steps) == e;
      E.InvAlways(n, steps);
      assert E.OwnerOk(e, w);
    case Uring(u) =>
      var steps :| U.LegalSteps(U.Init(n, u.size), steps) && U.RunSteps(U.Init(n, u.size), steps) == u;
      T.InvAlways(n, u.size, steps);
      assert T.WorkerOk(u, w);
      if u.ws[w].pc.Accepted? {
        assert T.FdOk(u, u.ws[w].pc.fd);
      }
  }

  lemma {:induction false} SizeKept(n: nat, server: Server, steps: seq<Step>)
    requires Starts(server, n) && LegalSteps(Init(n, server), steps)
    ensures var now := RunSteps(Init(n, server), steps).server;
            now.Uring? == server.Uring? && (now.Uring? ==> now.u.size > 0)
  {
    if steps != [] {
      SizeKept(n, server, steps[..|steps| - 1]);
    }
  }

  /** The first worker to serve is past the barrier, so all are past their setup. */
  lemma OwnerPastSetup(s: State, n: nat, w: nat)
    requires Sized(s, n) && Booted(s.boot, n) && Served(s.server, n) && w < n
    requires s.server.Uring? ==> s.server.u.size > 0
    requires forall i: nat :: i < n ==> WorkerOk(s, i)
    ensures var owner := Owner(s.server, w); owner.Some? ==> owner.value < n && s.threads[owner.value]
  {
    if Owner(s.server, w).Some? {
      var owner := Owner(s.server, w).value;
      OwnerIsWorker(s.server, n, w);
      assert WorkerOk(s, w) && WorkerOk(s, owner);
      var boots :| B.LegalSteps(B.Init(n), boots) && B.RunSteps(B.Init(n), boots) == s.boot;
      B.LoopAfterSetup(n, boots, w, owner);
    }
  }

  /** Whenever a worker has a connection to hand over, or an owner to notify of one, the
      owner has set its pointer. */
  lemma OwnerSet(n: nat, server: Server, steps: seq<Step>, w: nat)
    requires Starts(server, n) && LegalSteps(Init(n, server), steps) && w < n
    ensures var s := RunSteps(Init(n, server), steps);
            var owner := Owner(s.server, w);
            owner.Some? ==> owner.value < n && s.threads[owner.value]
  {
    RunsOfBoth(n, server, steps);
    SizeKept(n, server, steps);
    forall i: nat | i < n ensures WorkerOk(RunSteps(Init(n, server), steps), i) {
      WorkerAlways(n, server, steps, i);
    }
    OwnerPastSetup(RunSteps(Init(n, server), steps), n, w);
  }

  /** No run, however early the first worker begins to accept, uses a `threads[]` entry
      that is not set. */
  lemma {:induction false} NeverNull(n: nat, server: Server, steps: seq<Step>)
    requires Starts(server, n) && LegalSteps(Init(n, server), steps)
    ensures !RunSteps(Init(n, server), steps).crashed
  {
    if steps != [] {
      var steps', last := steps[..|steps| - 1], steps[|steps| - 1];
      NeverNull(n, server, steps');
      match last
      case EpollStep(e) => OwnerSet(n, server, steps', e.w);
      case UringStep(u) => if Actor(u).Some? { OwnerSet(n, server, steps', u.w); }
      case Boot(_) =>
    }
  }
}
