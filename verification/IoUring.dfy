/**
 The io_uring server (event-tester/iouring.c) as a state machine: any number of
 workers, each running the completion loop of `worker_func` one atomic section at
 a time, and the kernel, which completes requests in any order and whenever it
 likes. A section contains at most one access to memory shared between workers.
 */
module IoUring {
  import opened Echo

  type Fd = nat
  type Wid = nat

  /** A socket request in flight: which ring submitted it and what part of the
      connection's buffer it covers. */
  datatype Op = OpRead | OpWrite
  datatype Req = Req(op: Op, ring: Wid, off: nat, len: nat)

  /** A completion. An empty read and a zero write stand for every result <= 0. */
  datatype Cqe =
    | CAccept(fd: Fd)
    | CEvRead(value: nat)
    | CEvWrite
    | CRead(fd: Fd, data: seq<byte>)
    | CWrite(fd: Fd, n: nat)

  /** Where a worker is between two atomic sections. */
  datatype Pc =
    | Loop                // about to take the next completion
    | Accepted(fd: Fd)    // holds a connection that belongs to another worker
    | Pushed(owner: Wid)  // pushed it, has not yet queued the eventfd write
    | Draining            // inside the EV_READ handler, about to test the list
    | Hand(fd: Fd)        // popped a connection, has not yet installed it
    | Closing(fd: Fd)     // cleared the slot, has not yet closed the descriptor

  /** `list` is `incoming.list`, `counter` the eventfd, `evReads` the EV_READ requests
      in flight on it and `evWrites` the rings with an EV_WRITE in flight to it.
      The last four fields are history: connections ever pushed to this worker,
      connections it installed from its list, EV_READ completions it handled, and
      notifications those completions had consumed. */
  datatype Worker = Worker(
    pc: Pc, list: seq<Fd>, counter: nat, evReads: nat, evWrites: multiset<Wid>, accepts: nat, cq: seq<Cqe>,
    pushed: nat, drained: nat, processed: nat, taken: nat)

  datatype Conn = Conn(owner: Wid, sess: Session)

  /** Where an accepted descriptor is; history only. */
  datatype Loc =
    | InCq(w: Wid) | Held(w: Wid) | Listed(w: Wid) | Taken(w: Wid) | Installed(w: Wid) | Clearing(w: Wid)

  /** `open` maps an open connection to the worker its packets arrive at
      (SO_INCOMING_CPU); `pend` is the queue of requests the kernel holds for a
      descriptor; `crashed` records a NULL or out-of-range access. */
  datatype State = State(
    size: nat, ws: seq<Worker>, open: map<Fd, Wid>, conns: map<Fd, Conn>, pend: map<Fd, seq<Req>>,
    place: map<Fd, Loc>, crashed: bool)

  datatype Step =
    | KAccept(w: Wid, fd: Fd, cpu: Wid)
    | KEvWrite(w: Wid, from: Wid)
    | KEvRead(w: Wid)
    | KRead(fd: Fd, i: nat, data: seq<byte>)
    | KWrite(fd: Fd, i: nat, n: nat)
    | WTake(w: Wid)
    | WPush(w: Wid)
    | WNotify(w: Wid)
    | WPop(w: Wid)
    | WInstall(w: Wid)
    | WDrained(w: Wid)
    | WClose(w: Wid)

  /** Setup: one accept and one EV_READ in flight per worker. */
  function InitWorker(): Worker {
    Worker(Loop, [], 0, 1, multiset{}, 1, [], 0, 0, 0, 0)
  }

  function Init(n: nat, size: nat): State {
    State(size, seq(n, _ => InitWorker()), map[], map[], map[], map[], false)
  }

  function Pend(s: State, fd: Fd): seq<Req> {
    if fd in s.pend then s.pend[fd] else []
  }

  /** The request a connection in this state has to have in flight. */
  function NextReq(owner: Wid, sess: Session): Req
    requires sess.cursor <= |sess.buffer|
  {
    Req(if sess.mode == Reading then OpRead else OpWrite, owner, sess.cursor, |sess.buffer| - sess.cursor)
  }

  function Put(s: State, w: Wid, x: Worker): State
    requires w < |s.ws|
  {
    s.(ws := s.ws[w := x])
  }

  function AddCqe(s: State, w: Wid, c: Cqe): State
    requires w < |s.ws|
  {
    Put(s, w, s.ws[w].(cq := s.ws[w].cq + [c]))
  }

  function Submit(s: State, fd: Fd, r: Req): State {
    s.(pend := s.pend[fd := Pend(s, fd) + [r]])
  }

  function Without<T>(q: seq<T>, i: nat): seq<T>
    requires i < |q|
  {
    q[..i] + q[i + 1..]
  }

  /** new_conn, a zeroed buffer and the first read: the common part of both ways a
      connection is installed. */
  function Install(s: State, w: Wid, fd: Fd): (t: State)
    ensures t.ws == s.ws && t.size == s.size
  {
    var sess := Fresh(s.size);
    Submit(s.(conns := s.conns[fd := Conn(w, sess)], place := s.place[fd := Installed(w)]), fd, NextReq(w, sess))
  }

  predicate Enabled(s: State, step: Step) {
    match step
    case KAccept(w, fd, cpu) => w < |s.ws| && cpu < |s.ws| && s.ws[w].accepts > 0 && fd !in s.open
    case KEvWrite(w, from) => w < |s.ws| && from < |s.ws| && from in s.ws[w].evWrites
    case KEvRead(w) => w < |s.ws| && s.ws[w].evReads > 0 && s.ws[w].counter > 0
    case KRead(fd, i, data) =>
      i < |Pend(s, fd)| && Pend(s, fd)[i].op == OpRead && |data| <= Pend(s, fd)[i].len && Pend(s, fd)[i].ring < |s.ws|
    case KWrite(fd, i, n) =>
      i < |Pend(s, fd)| && Pend(s, fd)[i].op == OpWrite && n <= Pend(s, fd)[i].len && Pend(s, fd)[i].ring < |s.ws|
    case WTake(w) => w < |s.ws| && s.ws[w].pc == Loop && s.ws[w].cq != []
    case WPush(w) => w < |s.ws| && s.ws[w].pc.Accepted? && s.ws[w].pc.fd in s.open && s.open[s.ws[w].pc.fd] < |s.ws|
    case WNotify(w) => w < |s.ws| && s.ws[w].pc.Pushed? && s.ws[w].pc.owner < |s.ws|
    case WPop(w) => w < |s.ws| && s.ws[w].pc == Draining && s.ws[w].list != []
    case WInstall(w) => w < |s.ws| && s.ws[w].pc.Hand?
    case WDrained(w) => w < |s.ws| && s.ws[w].pc == Draining && s.ws[w].list == []
    case WClose(w) => w < |s.ws| && s.ws[w].pc.Closing?
  }

  /** Move the cursor and submit the connection's next request. */
  function Advance(s: State, w: Wid, fd: Fd, io: Io): (t: State)
    requires fd in s.conns
    ensures t.ws == s.ws && t.size == s.size
  {
    var sess := s.conns[fd].sess;
    if !Legal(sess, io) then s.(crashed := true)
    else
      var sess' := Apply(sess, io);
      Submit(s.(conns := s.conns[fd := s.conns[fd].(sess := sess')]), fd, NextReq(w, sess'))
  }

  /** The first half of on_close: the slot goes before the descriptor. */
  function Clear(s: State, w: Wid, fd: Fd): State
    requires w < |s.ws|
  {
    Put(s, w, s.ws[w].(pc := Closing(fd))).(conns := s.conns - {fd}, place := s.place[fd := Clearing(w)])
  }

  /** case ACCEPT, up to the push onto another worker's list. */
  function OnAccept(s: State, w: Wid, fd: Fd): State
    requires w < |s.ws|
  {
    if fd !in s.open then s.(crashed := true)
    else if s.open[fd] != w then Put(s, w, s.ws[w].(pc := Accepted(fd))).(place := s.place[fd := Held(w)])
    else Install(Put(s, w, s.ws[w].(accepts := s.ws[w].accepts + 1)), w, fd)
  }

  /** case EV_READ: enter the drain loop. */
  function OnEvRead(s: State, w: Wid, value: nat): State
    requires w < |s.ws|
  {
    var x := s.ws[w];
    Put(s, w, x.(pc := Draining, processed := x.processed + 1, taken := x.taken + value))
  }

  /** case SOCK_READ. */
  function OnRead(s: State, w: Wid, fd: Fd, data: seq<byte>): State
    requires w < |s.ws|
  {
    if fd !in s.conns then s.(crashed := true)
    else if data == [] then Clear(s, w, fd)
    else Advance(s, w, fd, Read(data))
  }

  /** case SOCK_WRITE. */
  function OnWrite(s: State, w: Wid, fd: Fd, n: nat): State
    requires w < |s.ws|
  {
    if fd !in s.conns then s.(crashed := true)
    else if n == 0 then Clear(s, w, fd)
    else Advance(s, w, fd, Wrote(n))
  }

  /** Remove the oldest completion. */
  function PopCqe(s: State, w: Wid): State
    requires w < |s.ws| && s.ws[w].cq != []
  {
    Put(s, w, s.ws[w].(cq := s.ws[w].cq[1..]))
  }

  /** The switch on the completion's type. */
  function Take(s: State, w: Wid): (t: State)
    requires w < |s.ws| && s.ws[w].cq != []
    ensures |t.ws| == |s.ws| && t.size == s.size
  {
    var s' := PopCqe(s, w);
    match s.ws[w].cq[0]
    case CAccept(fd) => OnAccept(s', w, fd)
    case CEvRead(value) => OnEvRead(s', w, value)
    case CEvWrite => s'
    case CRead(fd, data) => OnRead(s', w, fd, data)
    case CWrite(fd, n) => OnWrite(s', w, fd, n)
  }

  /** The kernel completes an accept with a descriptor that is not in use. */
  function AcceptDone(s: State, w: Wid, fd: Fd, cpu: Wid): State
    requires Enabled(s, KAccept(w, fd, cpu))
  {
    var x := s.ws[w];
    Put(s, w, x.(accepts := x.accepts - 1, cq := x.cq + [CAccept(fd)]))
      .(open := s.open[fd := cpu], place := s.place[fd := InCq(w)])
  }

  /** The kernel adds CONN_EVENT to an eventfd. */
  function EvWriteDone(s: State, w: Wid, from: Wid): State
    requires Enabled(s, KEvWrite(w, from))
  {
    var x := s.ws[w];
    AddCqe(Put(s, w, x.(counter := x.counter + 1, evWrites := x.evWrites - multiset{from})), from, CEvWrite)
  }

  /** A read of an eventfd takes the whole counter. */
  function EvReadDone(s: State, w: Wid): State
    requires Enabled(s, KEvRead(w))
  {
    var x := s.ws[w];
    Put(s, w, x.(counter := 0, evReads := x.evReads - 1, cq := x.cq + [CEvRead(x.counter)]))
  }

  function ReadDone(s: State, fd: Fd, i: nat, data: seq<byte>): State
    requires Enabled(s, KRead(fd, i, data))
  {
    AddCqe(s, Pend(s, fd)[i].ring, CRead(fd, data)).(pend := s.pend[fd := Without(Pend(s, fd), i)])
  }

  function WriteDone(s: State, fd: Fd, i: nat, n: nat): State
    requires Enabled(s, KWrite(fd, i, n))
  {
    AddCqe(s, Pend(s, fd)[i].ring, CWrite(fd, n)).(pend := s.pend[fd := Without(Pend(s, fd), i)])
  }

  /** Push onto the owner's list, under its lock. */
  function Push(s: State, w: Wid): State
    requires Enabled(s, WPush(w))
  {
    var fd := s.ws[w].pc.fd;
    var o := s.open[fd];
    var t := Put(s, w, s.ws[w].(pc := Pushed(o)));
    var y := t.ws[o];
    Put(t, o, y.(list := [fd] + y.list, pushed := y.pushed + 1)).(place := s.place[fd := Listed(o)])
  }

  /** Queue the EV_WRITE and re-arm the accept. */
  function Notify(s: State, w: Wid): State
    requires Enabled(s, WNotify(w))
  {
    var o := s.ws[w].pc.owner;
    var t := Put(s, w, s.ws[w].(pc := Loop, accepts := s.ws[w].accepts + 1));
    Put(t, o, t.ws[o].(evWrites := t.ws[o].evWrites + multiset{w}))
  }

  /** Take the head of the own list, under the lock. */
  function Pop(s: State, w: Wid): State
    requires Enabled(s, WPop(w))
  {
    var x := s.ws[w];
    Put(s, w, x.(pc := Hand(x.list[0]), list := x.list[1..])).(place := s.place[x.list[0] := Taken(w)])
  }

  /** Install the connection in hand, start reading it, and re-arm the EV_READ. */
  function InstallHand(s: State, w: Wid): State
    requires Enabled(s, WInstall(w))
  {
    var x := s.ws[w];
    Install(Put(s, w, x.(pc := Draining, evReads := x.evReads + 1, drained := x.drained + 1)), w, x.pc.fd)
  }

  function Drained(s: State, w: Wid): State
    requires Enabled(s, WDrained(w))
  {
    Put(s, w, s.ws[w].(pc := Loop))
  }

  /** The second half of on_close. */
  function Close(s: State, w: Wid): State
    requires Enabled(s, WClose(w))
  {
    var fd := s.ws[w].pc.fd;
    Put(s, w, s.ws[w].(pc := Loop)).(open := s.open - {fd}, place := s.place - {fd})
  }

  function Next(s: State, step: Step): (t: State)
    requires Enabled(s, step)
    ensures |t.ws| == |s.ws| && t.size == s.size
  {
    match step
    case KAccept(w, fd, cpu) => AcceptDone(s, w, fd, cpu)
    case KEvWrite(w, from) => EvWriteDone(s, w, from)
    case KEvRead(w) => EvReadDone(s, w)
    case KRead(fd, i, data) => ReadDone(s, fd, i, data)
    case KWrite(fd, i, n) => WriteDone(s, fd, i, n)
    case WTake(w) => Take(s, w)
    case WPush(w) => Push(s, w)
    case WNotify(w) => Notify(s, w)
    case WPop(w) => Pop(s, w)
    case WInstall(w) => InstallHand(s, w)
    case WDrained(w) => Drained(s, w)
    case WClose(w) => Close(s, w)
  }

  ghost predicate LegalSteps(s: State, steps: seq<Step>)
    decreases |steps|, 0
  {
    steps == [] ||
    (LegalSteps(s, steps[..|steps| - 1]) && Enabled(RunSteps(s, steps[..|steps| - 1]), steps[|steps| - 1]))
  }

  ghost function RunSteps(s: State, steps: seq<Step>): State
    requires LegalSteps(s, steps)
    decreases |steps|, 1
  {
    if steps == [] then s else Next(RunSteps(s, steps[..|steps| - 1]), steps[|steps| - 1])
  }
}
