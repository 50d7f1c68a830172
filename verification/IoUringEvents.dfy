/**
 What the workers of event-tester/iouring.c do with their completions, told by the steps of
 a run: each is handled once and in order, and handling it goes all the way. The counts
 that the state keeps as history are those of the steps.
 */
module IoUringEvents {
  import opened Echo
  import opened IoUring
  import opened IoUringTable

  /** What a run's steps say of worker w: the completions it was given and those it has
      taken; how many of these were EV_READs, with what values in all, how many ended a
      connection, and how many brought a connection for somebody else; how often it has
      pushed, notified, popped, installed, emptied its list, and closed; how many
      connections were pushed to it; and what its eventfd holds. */
  datatype Tally = Tally(
    given: seq<Cqe>, taken: seq<Cqe>, evReads: nat, value: nat, ends: nat, passes: nat,
    pushed: nat, notified: nat, popped: nat, installed: nat, drained: nat, closed: nat, listed: nat, eventfd: nat)

  const NOTHING := Tally([], [], 0, 0, 0, 0, 0, 0, 0, 0, 0, 0, 0, 0)

  /** The completion that a kernel step gives to worker w, if it does. */
  function Gives(s: State, step: Step, w: Wid): seq<Cqe>
    requires Enabled(s, step)
  {
    match step
    case KAccept(v, fd, _) => if v == w then [CAccept(fd)] else []
    case KEvWrite(_, from) => if from == w then [CEvWrite] else []
    case KEvRead(v) => if v == w then [CEvRead(s.ws[v].counter)] else []
    case KRead(fd, i, data) => if Pend(s, fd)[i].ring == w then [CRead(fd, data)] else []
    case KWrite(fd, i, k) => if Pend(s, fd)[i].ring == w then [CWrite(fd, k)] else []
    case _ => []
  }

  /** A completion that worker w takes. */
  function Took(s: State, w: Wid, c: Cqe, y: Tally): Tally {
    var z := y.(taken := y.taken + [c]);
    match c
    case CAccept(fd) => if fd in s.open && s.open[fd] != w then z.(passes := y.passes + 1) else z
    case CEvRead(value) => z.(evReads := y.evReads + 1, value := y.value + value)
    case CEvWrite => z
    case CRead(_, data) => if data == [] then z.(ends := y.ends + 1) else z
    case CWrite(_, k) => if k == 0 then z.(ends := y.ends + 1) else z
  }

  /** What worker w does in a step of its own. */
  function Did(s: State, step: Step, w: Wid, y: Tally): Tally
    requires Enabled(s, step)
  {
    match step
    case WTake(v) => if v == w then Took(s, w, s.ws[w].cq[0], y) else y
    case WPush(v) => if v == w then y.(pushed := y.pushed + 1) else y
    case WNotify(v) => if v == w then y.(notified := y.notified + 1) else y
    case WPop(v) => if v == w then y.(popped := y.popped + 1) else y
    case WInstall(v) => if v == w then y.(installed := y.installed + 1) else y
    case WDrained(v) => if v == w then y.(drained := y.drained + 1) else y
    case WClose(v) => if v == w then y.(closed := y.closed + 1) else y
    case _ => y
  }

  /** And what is done to it. */
  function Met(s: State, step: Step, w: Wid, y: Tally): Tally
    requires Enabled(s, step)
  {
    match step
    case WPush(v) => if s.open[s.ws[v].pc.fd] == w then y.(listed := y.listed + 1) else y
    case KEvWrite(v, _) => if v == w then y.(eventfd := y.eventfd + 1) else y
    case KEvRead(v) => if v == w then y.(eventfd := 0) else y
    case _ => y
  }

  function Count(s: State, step: Step, w: Wid, y: Tally): Tally
    requires Enabled(s, step)
  {
    Met(s, step, w, Did(s, step, w, y.(given := y.given + Gives(s, step, w))))
  }

  ghost function Counts(n: nat, size: nat, steps: seq<Step>, w: Wid): Tally
    requires LegalSteps(Init(n, size), steps)
  {
    if steps == [] then NOTHING
    else
      var steps' := steps[..|steps| - 1];
      Count(RunSteps(Init(n, size), steps'), steps[|steps| - 1], w, Counts(n, size, steps', w))
  }

  function One(b: bool): nat {
    if b then 1 else 0
  }

  /** Completions given are those taken, in order, and those in the queue; and the counts
      agree with where the worker is and with its history. */
  ghost predicate Agrees(x: Worker, y: Tally) {
    && y.given == y.taken + x.cq
    && y.evReads == y.drained + One(x.pc.Draining? || x.pc.Hand?)
    && y.passes == y.pushed + One(x.pc.Accepted?) && y.pushed == y.notified + One(x.pc.Pushed?)
    && y.popped == y.installed + One(x.pc.Hand?)
    && y.ends == y.closed + One(x.pc.Closing?)
    && x.pushed == y.listed && x.drained == y.installed && x.processed == y.evReads && x.taken == y.value
    && x.counter == y.eventfd
  }

  lemma AcceptAgrees(s: State, v: Wid, fd: Fd, cpu: Wid, w: Wid, y: Tally)
    requires Enabled(s, KAccept(v, fd, cpu)) && w < |s.ws| && Agrees(s.ws[w], y)
    ensures Agrees(AcceptDone(s, v, fd, cpu).ws[w], Count(s, KAccept(v, fd, cpu), w, y))
  {
  }

  lemma EvWriteAgrees(s: State, v: Wid, from: Wid, w: Wid, y: Tally)
    requires Enabled(s, KEvWrite(v, from)) && w < |s.ws| && Agrees(s.ws[w], y)
    ensures Agrees(EvWriteDone(s, v, from).ws[w], Count(s, KEvWrite(v, from), w, y))
  {
  }

  lemma EvReadAgrees(s: State, v: Wid, w: Wid, y: Tally)
    requires Enabled(s, KEvRead(v)) && w < |s.ws| && Agrees(s.ws[w], y)
    ensures Agrees(EvReadDone(s, v).ws[w], Count(s, KEvRead(v), w, y))
  {
  }

  lemma TransferAgrees(s: State, step: Step, w: Wid, y: Tally)
    requires Enabled(s, step) && w < |s.ws| && Agrees(s.ws[w], y) && (step.KRead? || step.KWrite?)
    ensures Agrees(Next(s, step).ws[w], Count(s, step, w, y))
  {
  }

  lemma TakeEvAgrees(s: State, w: Wid, y: Tally)
    requires Enabled(s, WTake(w)) && Agrees(s.ws[w], y) && (s.ws[w].cq[0].CEvRead? || s.ws[w].cq[0].CEvWrite?)
    ensures Agrees(Take(s, w).ws[w], Count(s, WTake(w), w, y))
  {
    assert s.ws[w].cq == [s.ws[w].cq[0]] + s.ws[w].cq[1..];
  }

  lemma AcceptTaken(s: State, w: Wid)
    requires Inv(s) && Enabled(s, WTake(w)) && s.ws[w].cq[0].CAccept?
    ensures var x, y := s.ws[w], Take(s, w).ws[w];
            y == x.(cq := x.cq[1..], pc := if Mine(s, w) then Loop else Accepted(x.cq[0].fd), accepts := y.accepts)
    ensures s.ws[w].cq[0].fd in s.open
  {
    assert PairOk(s, w, s.ws[w].cq[0].fd) && FdOk(s, s.ws[w].cq[0].fd);
  }

  lemma TakeAcceptAgrees(s: State, w: Wid, y: Tally)
    requires Inv(s) && Enabled(s, WTake(w)) && Agrees(s.ws[w], y) && s.ws[w].cq[0].CAccept?
    ensures Agrees(Take(s, w).ws[w], Count(s, WTake(w), w, y))
  {
    AcceptTaken(s, w);
    assert s.ws[w].cq == [s.ws[w].cq[0]] + s.ws[w].cq[1..];
  }

  lemma SockTaken(s: State, w: Wid)
    requires Inv(s) && Enabled(s, WTake(w)) && SockHead(s, w)
    ensures var x, c := s.ws[w], s.ws[w].cq[0];
            Take(s, w).ws[w] == x.(cq := x.cq[1..], pc := if Failed(c) then Closing(c.fd) else Loop)
  {
    HeadSock(s, w);
    HeadEffect(s, w);
  }

  lemma TakeSockAgrees(s: State, w: Wid, y: Tally)
    requires Inv(s) && Enabled(s, WTake(w)) && Agrees(s.ws[w], y) && SockHead(s, w)
    ensures Agrees(Take(s, w).ws[w], Count(s, WTake(w), w, y))
  {
    SockTaken(s, w);
    assert s.ws[w].cq == [s.ws[w].cq[0]] + s.ws[w].cq[1..];
  }

  lemma TakeOther(s: State, v: Wid, w: Wid)
    requires Inv(s) && Enabled(s, WTake(v)) && w < |s.ws| && w != v
    ensures Take(s, v).ws[w] == s.ws[w]
  {
    if SockHead(s, v) {
      HeadEffect(s, v);
    }
  }

  lemma PushAgrees(s: State, v: Wid, w: Wid, y: Tally)
    requires Enabled(s, WPush(v)) && w < |s.ws| && Agrees(s.ws[w], y)
    ensures Agrees(Push(s, v).ws[w], Count(s, WPush(v), w, y))
  {
  }

  lemma NotifyAgrees(s: State, v: Wid, w: Wid, y: Tally)
    requires Enabled(s, WNotify(v)) && w < |s.ws| && Agrees(s.ws[w], y)
    ensures Agrees(Notify(s, v).ws[w], Count(s, WNotify(v), w, y))
  {
  }

  lemma OwnAgrees(s: State, step: Step, w: Wid, y: Tally)
    requires Enabled(s, step) && w < |s.ws| && Agrees(s.ws[w], y)
    requires step.WPop? || step.WInstall? || step.WDrained? || step.WClose?
    ensures Agrees(Next(s, step).ws[w], Count(s, step, w, y))
  {
  }

  lemma TakeAgrees(s: State, v: Wid, w: Wid, y: Tally)
    requires Inv(s) && Enabled(s, WTake(v)) && w < |s.ws| && Agrees(s.ws[w], y)
    ensures Agrees(Take(s, v).ws[w], Count(s, WTake(v), w, y))
  {
    if w != v {
      TakeOther(s, v, w);
    } else if SockHead(s, w) {
      TakeSockAgrees(s, w, y);
    } else if s.ws[w].cq[0].CAccept? {
      TakeAcceptAgrees(s, w, y);
    } else {
      TakeEvAgrees(s, w, y);
    }
  }

  lemma AgreesStep(s: State, step: Step, w: Wid, y: Tally)
    requires Inv(s) && Enabled(s, step) && w < |s.ws| && Agrees(s.ws[w], y)
    ensures Agrees(Next(s, step).ws[w], Count(s, step, w, y))
  {
    match step
    case KAccept(v, fd, cpu) => AcceptAgrees(s, v, fd, cpu, w, y);
    case KEvWrite(v, from) => EvWriteAgrees(s, v, from, w, y);
    case KEvRead(v) => EvReadAgrees(s, v, w, y);
    case KRead(_, _, _) => TransferAgrees(s, step, w, y);
    case KWrite(_, _, _) => TransferAgrees(s, step, w, y);
    case WTake(v) => TakeAgrees(s, v, w, y);
    case WPush(v) => PushAgrees(s, v, w, y);
    case WNotify(v) => NotifyAgrees(s, v, w, y);
    case _ => OwnAgrees(s, step, w, y);
  }

  /** In every run no completion is lost, changed, repeated or taken out of order; each
      EV_READ leads to a drain that ends with the list empty, each result of 0 or less to a
      close, each connection for another worker to a push and a notification; and the
      state's own counts are right. */
  lemma {:induction false} CompletionsHandled(n: nat, size: nat, steps: seq<Step>, w: Wid)
    requires size > 0 && LegalSteps(Init(n, size), steps) && w < n
    ensures w < |RunSteps(Init(n, size), steps).ws|
    ensures Agrees(RunSteps(Init(n, size), steps).ws[w], Counts(n, size, steps, w))
  {
    if steps != [] {
      var steps' := steps[..|steps| - 1];
      CompletionsHandled(n, size, steps', w);
      InvAlways(n, size, steps');
      AgreesStep(RunSteps(Init(n, size), steps'), steps[|steps| - 1], w, Counts(n, size, steps', w));
    }
  }

  /** Where fd's packets arrive, by the last accept of it. */
  function HomeOf(steps: seq<Step>, fd: Fd): Wid {
    if steps == [] then 0
    else if steps[|steps| - 1].KAccept? && steps[|steps| - 1].fd == fd then steps[|steps| - 1].cpu
    else HomeOf(steps[..|steps| - 1], fd)
  }

  /** Only accepts and closes change which descriptors are open. */
  lemma OpenStep(s: State, step: Step, fd: Fd)
    requires Inv(s) && Enabled(s, step)
    ensures fd in Next(s, step).open ==>
              if step.KAccept? && step.fd == fd then Next(s, step).open[fd] == step.cpu
              else fd in s.open && Next(s, step).open[fd] == s.open[fd]
  {
    if step.WTake? && SockHead(s, step.w) {
      HeadEffect(s, step.w);
    }
  }

  /** An open connection belongs to the worker that its accept named, and a connection in
      the table was installed by that worker. */
  lemma {:induction false} HomesNamed(n: nat, size: nat, steps: seq<Step>, fd: Fd)
    requires size > 0 && LegalSteps(Init(n, size), steps)
    ensures var s := RunSteps(Init(n, size), steps);
            && (fd in s.open ==> s.open[fd] == HomeOf(steps, fd))
            && (fd in s.conns ==> s.conns[fd].owner == HomeOf(steps, fd))
  {
    InvAlways(n, size, steps);
    assert FdOk(RunSteps(Init(n, size), steps), fd);
    if steps != [] {
      var steps' := steps[..|steps| - 1];
      HomesNamed(n, size, steps', fd);
      InvAlways(n, size, steps');
      OpenStep(RunSteps(Init(n, size), steps'), steps[|steps| - 1], fd);
    }
  }

  /** A step that worker w can take when it is not waiting at its loop. */
  function OwnStep(s: State, w: Wid): Step
    requires w < |s.ws|
  {
    match s.ws[w].pc
    case Loop => WTake(w)
    case Accepted(_) => WPush(w)
    case Pushed(_) => WNotify(w)
    case Draining => if s.ws[w].list == [] then WDrained(w) else WPop(w)
    case Hand(_) => WInstall(w)
    case Closing(_) => WClose(w)
  }

  /** Nothing is ever stuck: a worker goes on unless it waits with an empty queue, and then
      it has an accept in flight; an accept can complete with any free descriptor and bring
      packets to any worker; and notifications in flight, and EV_READs of a positive
      counter, can complete. */
  lemma NobodyStuck(n: nat, size: nat, steps: seq<Step>, w: Wid)
    requires size > 0 && LegalSteps(Init(n, size), steps) && w < n
    ensures w < |RunSteps(Init(n, size), steps).ws|
    ensures var s := RunSteps(Init(n, size), steps);
            && (s.ws[w].pc != Loop || s.ws[w].cq != [] ==> Enabled(s, OwnStep(s, w)))
            && (s.ws[w].pc == Loop && s.ws[w].cq == [] ==> s.ws[w].accepts == 1)
            && (s.ws[w].accepts == 1 ==>
                  forall fd: Fd, cpu: Wid :: fd !in s.open && cpu < n ==> Enabled(s, KAccept(w, fd, cpu)))
            && (forall from: Wid :: from < n && from in s.ws[w].evWrites ==> Enabled(s, KEvWrite(w, from)))
            && (s.ws[w].evReads > 0 && s.ws[w].counter > 0 ==> Enabled(s, KEvRead(w)))
  {
    InvAlways(n, size, steps);
    var s := RunSteps(Init(n, size), steps);
    assert WorkerOk(s, w);
    if s.ws[w].pc.Accepted? {
      assert FdOk(s, s.ws[w].pc.fd);
    }
  }

  /** The request of a live connection is for exactly the rest of its buffer, and may get
      any result that this allows. */
  ghost predicate Asks(s: State, fd: Fd) {
    && fd in s.conns && s.conns[fd].sess.cursor < |s.conns[fd].sess.buffer| == s.size
    && var c := s.conns[fd];
       var rest := s.size - c.sess.cursor;
       && Pend(s, fd) == [Req(if c.sess.mode == Reading then OpRead else OpWrite, c.owner, c.sess.cursor, rest)]
       && (c.sess.mode == Reading ==> forall data: seq<byte> :: |data| <= rest ==> Enabled(s, KRead(fd, 0, data)))
       && (c.sess.mode == Writing ==> forall k: nat :: k <= rest ==> Enabled(s, KWrite(fd, 0, k)))
  }

  lemma RequestAsks(s: State, fd: Fd)
    requires Inv(s) && Pend(s, fd) != []
    ensures Asks(s, fd)
  {
    assert FdOk(s, fd);
  }

  /** In every run a request in flight asks for exactly what its connection still needs. */
  lemma RequestFits(n: nat, size: nat, steps: seq<Step>, fd: Fd)
    requires size > 0 && LegalSteps(Init(n, size), steps) && Pend(RunSteps(Init(n, size), steps), fd) != []
    ensures Asks(RunSteps(Init(n, size), steps), fd)
  {
    InvAlways(n, size, steps);
    RequestAsks(RunSteps(Init(n, size), steps), fd);
  }
}
