/**
 Which way the connections of event-tester/upcall.c go, told by the steps of a run: a
 connection reads until its message is complete, then writes until it has been written,
 and so on; results are handled once each, in order and as they are; a result of 0 leads
 to a close.
 */
module UpcallWays {
  import opened UpcallServer

  /** What a connection is doing. Stuck is after a negative result; Ends is after a result
      of 0, with the fd still open. */
  datatype Way = Gone | Reads | Writes | Stuck | Ends

  function Turn(way: Way, full: bool): Way {
    if !full then way else if way == Reads then Writes else Reads
  }

  /** The way of fd after a step in state s. */
  function After(s: State, step: Step, fd: nat, way: Way): Way
    requires Enabled(s, step)
  {
    match step
    case Handle(w, full) => (
      match s.ws[w].inbox[0]
      case NewConn(g) => if g == fd then Reads else way
      case NoConn => way
      case Done(g, _, result) =>
        if g != fd then way
        else if result == 0 then Ends
        else if result < 0 then Stuck
        else Turn(way, full))
    case Close(w) => if s.ws[w].pc == Closing(fd) then Gone else way
    case _ => way
  }

  ghost function WayOf(n: nat, steps: seq<Step>, fd: nat): Way
    requires LegalSteps(Init(n), steps)
  {
    if steps == [] then Gone
    else
      var steps' := steps[..|steps| - 1];
      After(RunSteps(Init(n), steps'), steps[|steps| - 1], fd, WayOf(n, steps', fd))
  }

  /** Results of reads, or of writes, of fd. */
  function DonesOf(q: seq<Event>, fd: nat, write: bool): nat {
    if q == [] then 0
    else (if q[0].Done? && q[0].fd == fd && q[0].write == write then 1 else 0) + DonesOf(q[1..], fd, write)
  }

  /** Reads, or writes, of fd that worker x has queued, submitted or been told of. */
  function Out(x: Worker, fd: nat, write: bool): nat {
    multiset(x.queue)[Io(fd, write)] + multiset(x.kernel)[Io(fd, write)] + DonesOf(x.inbox, fd, write)
  }

  lemma {:induction false} DonesSum(q: seq<Event>, fd: nat)
    ensures DonesOf(q, fd, false) + DonesOf(q, fd, true) == Dones(q, fd)
  {
    if q != [] {
      DonesSum(q[1..], fd);
    }
  }

  lemma OutSum(x: Worker, fd: nat)
    ensures Out(x, fd, false) + Out(x, fd, true) == Outstanding(x, fd)
  {
    DonesSum(x.inbox, fd);
  }

  lemma {:induction false} DonesMore(q: seq<Event>, e: Event, fd: nat, write: bool)
    ensures DonesOf(q + [e], fd, write) ==
              DonesOf(q, fd, write) + if e.Done? && e.fd == fd && e.write == write then 1 else 0
  {
    if q == [] {
      assert q + [e] == [e];
    } else {
      assert (q + [e])[1..] == q[1..] + [e];
      DonesMore(q[1..], e, fd, write);
    }
  }

  /** The kernel's completing a request leaves it outstanding. */
  lemma CompleteOut(x: Worker, i: nat, e: Event, fd: nat, write: bool)
    requires i < |x.kernel|
    requires if x.kernel[i].Io? then e.Done? && e.fd == x.kernel[i].fd && e.write == x.kernel[i].write else !e.Done?
    ensures Out(x.(kernel := x.kernel[..i] + x.kernel[i + 1..], inbox := x.inbox + [e]), fd, write) == Out(x, fd, write)
  {
    DonesMore(x.inbox, e, fd, write);
    assert x.kernel == x.kernel[..i] + [x.kernel[i]] + x.kernel[i + 1..];
  }

  /** What the handling of an event asks for. */
  function Asks(e: Event, full: bool): seq<Req> {
    match e
    case NewConn(fd) => [Io(fd, false), Accept]
    case NoConn => [Accept]
    case Done(fd, write, result) => if result > 0 then [Io(fd, write != full)] else []
  }

  lemma HandleQueue(s: State, w: nat, full: bool)
    requires Enabled(s, Handle(w, full))
    requires s.ws[w].inbox[0].Done? ==> s.ws[w].inbox[0].fd in s.table
    ensures var x, y := s.ws[w], HandleNext(s, w, full).ws[w];
            y.queue == x.queue + Asks(x.inbox[0], full) && y.kernel == x.kernel && y.inbox == x.inbox[1..]
    ensures forall v: nat :: v < |s.ws| && v != w ==> HandleNext(s, w, full).ws[v] == s.ws[v]
  {
  }

  lemma HandleOut(s: State, w: nat, full: bool, fd: nat, write: bool)
    requires Enabled(s, Handle(w, full))
    requires s.ws[w].inbox[0].Done? ==> s.ws[w].inbox[0].fd in s.table
    ensures var e := s.ws[w].inbox[0];
            Out(HandleNext(s, w, full).ws[w], fd, write) + DonesOf([e], fd, write) ==
              Out(s.ws[w], fd, write) + multiset(Asks(e, full))[Io(fd, write)]
  {
    HandleQueue(s, w, full);
    var x := s.ws[w];
    assert multiset(x.queue + Asks(x.inbox[0], full)) == multiset(x.queue) + multiset(Asks(x.inbox[0], full));
  }

  /** Nothing of fd goes the other way, anywhere; and the table and the list of failures
      say what the way says. */
  ghost predicate WayOk(s: State, fd: nat, way: Way) {
    && (fd in s.table && fd !in s.failed <==> way == Reads || way == Writes)
    && (fd in s.failed <==> way == Stuck)
    && (fd in s.place && s.place[fd].Leaving? <==> way == Ends)
    && forall v: nat :: v < |s.ws| ==> OneWay(s.ws[v], fd, way)
  }

  ghost predicate OneWay(x: Worker, fd: nat, way: Way) {
    (way == Reads ==> Out(x, fd, true) == 0) && (way == Writes ==> Out(x, fd, false) == 0)
  }

  /** Steps of the kernel, and submits and closes, turn nothing. */
  lemma ToldOut(s: State, step: Step, fd: nat, write: bool)
    requires Enabled(s, step) && (step.Connect? || step.Refuse? || step.Transfer?)
    ensures step.w < |Next(s, step).ws| && Out(Next(s, step).ws[step.w], fd, write) == Out(s.ws[step.w], fd, write)
  {
    var x, i := s.ws[step.w], step.i;
    var e :=
      match step
      case Connect(_, _, g) => NewConn(g)
      case Refuse(_, _) => NoConn
      case Transfer(_, _, result) => Done(x.kernel[i].fd, x.kernel[i].write, result);
    assert Next(s, step).ws == Complete(s, step.w, i, e).ws;
    CompleteOut(x, i, e, fd, write);
  }

  lemma KernelOut(s: State, step: Step, fd: nat, write: bool, v: nat)
    requires Enabled(s, step) && !step.Handle? && v < |s.ws|
    ensures |Next(s, step).ws| == |s.ws| && Out(Next(s, step).ws[v], fd, write) == Out(s.ws[v], fd, write)
  {
    if step.w != v {
      assert Next(s, step).ws[v] == s.ws[v];
    } else if step.Submit? {
      SubmitOut(s.ws[v], fd, write);
    } else if !step.Close? {
      ToldOut(s, step, fd, write);
    }
  }

  lemma SubmitOut(x: Worker, fd: nat, write: bool)
    ensures Out(x.(kernel := x.kernel + x.queue, queue := []), fd, write) == Out(x, fd, write)
  {
    assert multiset(x.kernel + x.queue) == multiset(x.kernel) + multiset(x.queue);
  }

  lemma KernelWay(s: State, step: Step, fd: nat, way: Way, v: nat)
    requires Inv(s) && Enabled(s, step) && !step.Handle? && v < |s.ws| && OneWay(s.ws[v], fd, way)
    ensures |Next(s, step).ws| == |s.ws| && OneWay(Next(s, step).ws[v], fd, After(s, step, fd, way))
  {
    KernelOut(s, step, fd, true, v);
    KernelOut(s, step, fd, false, v);
  }

  /** What the event is about decides the way, and what may still be out. */
  predicate Decides(x: Worker, e: Event, full: bool, fd: nat, way: Way, way': Way) {
    && Out(x, fd, false) + Out(x, fd, true) <= 1
    && match e
       case NewConn(g) => if g == fd then way' == Reads && Out(x, fd, false) + Out(x, fd, true) == 0 else way' == way
       case NoConn => way' == way
       case Done(g, _, result) =>
         if g != fd then way' == way
         else if result > 0 then (way == Reads || way == Writes) && way' == Turn(way, full)
         else way' != Reads && way' != Writes
  }

  lemma HeadDecides(s: State, w: nat, full: bool, fd: nat, way: Way)
    requires Inv(s) && Enabled(s, Handle(w, full)) && WayOk(s, fd, way)
    ensures Decides(s.ws[w], s.ws[w].inbox[0], full, fd, way, After(s, Handle(w, full), fd, way))
  {
    assert PairOk(s, w, fd);
    OutSum(s.ws[w], fd);
    if s.ws[w].inbox[0].Done? {
      DoneLive(s, w);
    }
  }

  lemma OwnTurn(x: Worker, y: Worker, e: Event, full: bool, fd: nat, way: Way, way': Way)
    requires OneWay(x, fd, way) && Decides(x, e, full, fd, way, way')
    requires forall b: bool :: Out(y, fd, b) + DonesOf([e], fd, b) == Out(x, fd, b) + multiset(Asks(e, full))[Io(fd, b)]
    ensures OneWay(y, fd, way')
  {
    if e.Done? && e.fd == fd {
      assert DonesOf([e], fd, e.write) == 1;
    }
  }

  /** Handling an event turns its own connection, when it completes a message. For the
      worker that handles it nothing else is out; */
  lemma OwnWay(s: State, w: nat, full: bool, fd: nat, way: Way)
    requires Inv(s) && Enabled(s, Handle(w, full)) && WayOk(s, fd, way)
    ensures OneWay(HandleNext(s, w, full).ws[w], fd, After(s, Handle(w, full), fd, way))
  {
    var e := s.ws[w].inbox[0];
    assert OneWay(s.ws[w], fd, way);
    HeadDecides(s, w, full, fd, way);
    if e.Done? {
      DoneLive(s, w);
    }
    HandleOut(s, w, full, fd, true);
    HandleOut(s, w, full, fd, false);
    OwnTurn(s.ws[w], HandleNext(s, w, full).ws[w], e, full, fd, way, After(s, Handle(w, full), fd, way));
  }

  /** and for the others nothing is. */
  lemma OthersWay(s: State, w: nat, full: bool, fd: nat, way: Way, v: nat)
    requires Inv(s) && Enabled(s, Handle(w, full)) && WayOk(s, fd, way) && v < |s.ws| && v != w
    ensures OneWay(HandleNext(s, w, full).ws[v], fd, After(s, Handle(w, full), fd, way))
  {
    assert PairOk(s, v, fd) && PairOk(s, w, fd) && OneWay(s.ws[v], fd, way);
    OutSum(s.ws[v], fd);
    if s.ws[w].inbox[0].Done? {
      DoneLive(s, w);
      assert FdOk(s, fd);
    }
    HandleQueue(s, w, full);
  }

  lemma WayFlags(s: State, step: Step, fd: nat, way: Way)
    requires Inv(s) && Enabled(s, step) && WayOk(s, fd, way)
    ensures var t, way' := Next(s, step), After(s, step, fd, way);
            && (fd in t.table && fd !in t.failed <==> way' == Reads || way' == Writes)
            && (fd in t.failed <==> way' == Stuck)
            && (fd in t.place && t.place[fd].Leaving? <==> way' == Ends)
  {
    var w := step.w;
    assert FdOk(s, fd) && PairOk(s, w, fd);
    match step
    case Handle(_, full) =>
      if s.ws[w].inbox[0].Done? {
        DoneLive(s, w);
      } else if s.ws[w].inbox[0].NewConn? {
        assert PairOk(s, w, s.ws[w].inbox[0].fd);
      }
    case _ =>
  }

  lemma WayStep(s: State, step: Step, fd: nat, way: Way)
    requires Inv(s) && Enabled(s, step) && WayOk(s, fd, way)
    ensures WayOk(Next(s, step), fd, After(s, step, fd, way))
  {
    WayFlags(s, step, fd, way);
    forall v: nat | v < |Next(s, step).ws| ensures OneWay(Next(s, step).ws[v], fd, After(s, step, fd, way)) {
      if step.Handle? && step.w == v {
        OwnWay(s, v, step.full, fd, way);
      } else if step.Handle? {
        OthersWay(s, step.w, step.full, fd, way, v);
      } else {
        KernelWay(s, step, fd, way, v);
      }
    }
  }

  lemma {:induction false} WayAlways(n: nat, steps: seq<Step>, fd: nat)
    requires LegalSteps(Init(n), steps)
    ensures WayOk(RunSteps(Init(n), steps), fd, WayOf(n, steps, fd))
  {
    if steps != [] {
      var steps' := steps[..|steps| - 1];
      WayAlways(n, steps', fd);
      InvAlways(n, steps');
      WayStep(RunSteps(Init(n), steps'), steps[|steps| - 1], fd, WayOf(n, steps', fd));
    }
  }

  /** The one request of a live connection goes the way it should: a read from its
      installation on, and turned by each transfer that completes a message; any other
      connection has none. */
  lemma Alternates(n: nat, steps: seq<Step>, fd: nat, w: nat)
    requires LegalSteps(Init(n), steps) && w < n
    ensures w < |RunSteps(Init(n), steps).ws|
    ensures var s, way := RunSteps(Init(n), steps), WayOf(n, steps, fd);
            var mine := fd in s.table && s.table[fd] == w;
            && Out(s.ws[w], fd, false) == (if way == Reads && mine then 1 else 0)
            && Out(s.ws[w], fd, true) == (if way == Writes && mine then 1 else 0)
            && (fd in s.table <==> way == Reads || way == Writes || way == Stuck)
  {
    InvAlways(n, steps);
    WayAlways(n, steps, fd);
    OneRequest(n, steps, fd, w);
    var s := RunSteps(Init(n), steps);
    assert FdOk(s, fd) && OneWay(s.ws[w], fd, WayOf(n, steps, fd));
    OutSum(s.ws[w], fd);
  }

  lemma {:induction false} ReqAt(q: seq<Req>, r: Req)
    requires multiset(q)[r] > 0
    ensures exists i: nat :: i < |q| && q[i] == r
  {
    var i :| 0 <= i < |q| && q[i] == r;
  }

  /** Nothing is ever stuck: a worker can always go on, and its accept is queued, or with the
      kernel, which can complete it with any fd that is not open, or refuse, or answered. */
  lemma NobodyStuck(n: nat, steps: seq<Step>, w: nat)
    requires LegalSteps(Init(n), steps) && w < n
    ensures w < |RunSteps(Init(n), steps).ws|
    ensures var s := RunSteps(Init(n), steps);
            && (|| Enabled(s, Submit(w)) || Enabled(s, Close(w))
                || (Enabled(s, Handle(w, true)) && Enabled(s, Handle(w, false))))
            && (Accepts(s.ws[w].queue) == 0 && Answers(s.ws[w].inbox) == 0 ==>
                  exists i: nat :: i < |s.ws[w].kernel| && s.ws[w].kernel[i] == Accept && Enabled(s, Refuse(w, i))
                                   && forall g: nat :: g !in s.open ==> Enabled(s, Connect(w, i, g)))
  {
    var s := RunSteps(Init(n), steps);
    InvAlways(n, steps);
    assert Accepting(s.ws[w]) == 1;
    if Accepts(s.ws[w].queue) == 0 && Answers(s.ws[w].inbox) == 0 {
      ReqAt(s.ws[w].kernel, Accept);
    }
  }

  /** And the request of a live connection that has not failed is queued, or with the kernel,
      going the connection's way, and can get any result there, or has one. */
  lemma AnyResult(n: nat, steps: seq<Step>, fd: nat, w: nat)
    requires LegalSteps(Init(n), steps) && w < n
    ensures w < |RunSteps(Init(n), steps).ws|
    ensures var s := RunSteps(Init(n), steps);
            var x, way := s.ws[w], WayOf(n, steps, fd);
            fd in s.table && s.table[fd] == w && fd !in s.failed && Ios(x.queue, fd) == 0 && Dones(x.inbox, fd) == 0 ==>
              exists i: nat :: i < |x.kernel| && x.kernel[i] == Io(fd, way == Writes)
                               && forall result: int :: Enabled(s, Transfer(w, i, result))
  {
    var s, way := RunSteps(Init(n), steps), WayOf(n, steps, fd);
    Alternates(n, steps, fd, w);
    WayAlways(n, steps, fd);
    var mine := fd in s.table && s.table[fd] == w && fd !in s.failed;
    if mine && Ios(s.ws[w].queue, fd) == 0 && Dones(s.ws[w].inbox, fd) == 0 {
      DonesSum(s.ws[w].inbox, fd);
      ReqAt(s.ws[w].kernel, Io(fd, way == Writes));
    }
  }

  /** What the steps say of worker w: what the kernel has told it, what it has handled,
      and how many of these were results of 0; how many connections it has closed; and
      what it has submitted, and asked for. */
  datatype Tally = Tally(
    told: seq<Event>, handled: seq<Event>, zeros: nat, closed: nat, asked: seq<Req>, submitted: seq<Req>)

  function Count(s: State, step: Step, y: Tally): Tally
    requires Enabled(s, step)
  {
    var me := s.ws[step.w];
    match step
    case Connect(_, _, fd) => y.(told := y.told + [NewConn(fd)])
    case Refuse(_, _) => y.(told := y.told + [NoConn])
    case Transfer(_, i, result) => y.(told := y.told + [Done(me.kernel[i].fd, me.kernel[i].write, result)])
    case Submit(_) => y.(submitted := y.asked)
    case Handle(_, full) =>
      var e := me.inbox[0];
      y.(handled := y.handled + [e], asked := y.asked + Asks(e, full),
         zeros := y.zeros + if e.Done? && e.result == 0 then 1 else 0)
    case Close(_) => y.(closed := y.closed + 1)
  }

  ghost function Counts(n: nat, steps: seq<Step>, w: nat): Tally
    requires LegalSteps(Init(n), steps)
  {
    if steps == [] then Tally([], [], 0, 0, [Accept], [])
    else
      var steps', step := steps[..|steps| - 1], steps[|steps| - 1];
      if step.w == w then Count(RunSteps(Init(n), steps'), step, Counts(n, steps', w)) else Counts(n, steps', w)
  }

  /** Everything told has been handled, in order, or is in the inbox; everything asked for
      has been submitted, in order, or is queued; every result of 0 has led to a close. */
  ghost predicate Agrees(x: Worker, y: Tally) {
    && y.told == y.handled + x.inbox && y.asked == y.submitted + x.queue
    && y.zeros == y.closed + if x.pc.Closing? then 1 else 0
  }

  lemma HandleAgrees(s: State, w: nat, full: bool, y: Tally)
    requires Inv(s) && Enabled(s, Handle(w, full)) && Agrees(s.ws[w], y)
    ensures Agrees(HandleNext(s, w, full).ws[w], Count(s, Handle(w, full), y))
  {
    var x := s.ws[w];
    if x.inbox[0].Done? {
      DoneLive(s, w);
    }
    HandleQueue(s, w, full);
    assert x.inbox == [x.inbox[0]] + x.inbox[1..];
    assert y.handled + x.inbox == (y.handled + [x.inbox[0]]) + x.inbox[1..];
    assert y.asked + Asks(x.inbox[0], full) == y.submitted + (x.queue + Asks(x.inbox[0], full));
    HandlePc(s, w, full);
  }

  lemma HandlePc(s: State, w: nat, full: bool)
    requires Enabled(s, Handle(w, full))
    requires s.ws[w].inbox[0].Done? ==> s.ws[w].inbox[0].fd in s.table
    ensures var e := s.ws[w].inbox[0];
            HandleNext(s, w, full).ws[w].pc.Closing? <==> e.Done? && e.result == 0
  {
  }

  lemma OtherAgrees(s: State, step: Step, w: nat, y: Tally)
    requires Enabled(s, step) && !step.Handle? && w < |s.ws| && Agrees(s.ws[w], y)
    ensures |Next(s, step).ws| == |s.ws|
    ensures Agrees(Next(s, step).ws[w], if step.w == w then Count(s, step, y) else y)
  {
  }

  lemma AgreesStep(s: State, step: Step, w: nat, y: Tally)
    requires Inv(s) && Enabled(s, step) && w < |s.ws| && Agrees(s.ws[w], y)
    ensures |Next(s, step).ws| == |s.ws|
    ensures Agrees(Next(s, step).ws[w], if step.w == w then Count(s, step, y) else y)
  {
    match step
    case Handle(v, full) =>
      if v == w {
        HandleAgrees(s, w, full, y);
      } else {
        assert HandleNext(s, v, full).ws[w] == s.ws[w];
      }
    case _ => OtherAgrees(s, step, w, y);
  }

  /** In every run no result is lost, repeated, changed or handled out of order, and no
      request either. */
  lemma {:induction false} ResultsHandled(n: nat, steps: seq<Step>, w: nat)
    requires LegalSteps(Init(n), steps) && w < n
    ensures w < |RunSteps(Init(n), steps).ws|
    ensures Agrees(RunSteps(Init(n), steps).ws[w], Counts(n, steps, w))
  {
    if steps != [] {
      var steps' := steps[..|steps| - 1];
      ResultsHandled(n, steps', w);
      InvAlways(n, steps');
      AgreesStep(RunSteps(Init(n), steps'), steps[|steps| - 1], w, Counts(n, steps', w));
    }
  }
}
