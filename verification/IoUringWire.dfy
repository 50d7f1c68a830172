/**
 What goes over the wire: the bytes that the kernel has delivered to the io_uring server
 and taken from it, told by the steps of a run. The handlers of event-tester/iouring.c see
 neither; they see completions.
 */
module IoUringWire {
  import opened Echo
  import opened IoUring
  import opened IoUringTable

  /** What the kernel has delivered on fd since fd was accepted. */
  function Given(steps: seq<Step>, fd: Fd): seq<byte> {
    if steps == [] then [] else GivenAfter(steps[|steps| - 1], fd, Given(steps[..|steps| - 1], fd))
  }

  function GivenAfter(step: Step, fd: Fd, given: seq<byte>): seq<byte> {
    match step
    case KAccept(_, g, _) => if g == fd then [] else given
    case KRead(g, _, data) => if g == fd then given + data else given
    case _ => given
  }

  /** What the kernel has taken for it: as much as it said, from where the request it
      completed pointed. */
  ghost function Wire(n: nat, size: nat, steps: seq<Step>, fd: Fd): seq<byte>
    requires LegalSteps(Init(n, size), steps)
  {
    if steps == [] then []
    else
      var steps' := steps[..|steps| - 1];
      WireAfter(RunSteps(Init(n, size), steps'), steps[|steps| - 1], fd, Wire(n, size, steps', fd))
  }

  function WireAfter(s: State, step: Step, fd: Fd, wire: seq<byte>): seq<byte>
    requires Enabled(s, step)
  {
    match step
    case KAccept(_, g, _) => if g == fd then [] else wire
    case KWrite(g, i, k) => if g == fd then wire + Part(s, fd, Pend(s, fd)[i].off, k) else wire
    case _ => wire
  }

  /** k bytes of a connection's buffer. */
  function Part(s: State, fd: Fd, off: nat, k: nat): seq<byte> {
    if fd in s.conns && off + k <= |s.conns[fd].sess.buffer| then s.conns[fd].sess.buffer[off..off + k] else []
  }

  /** What a completion brings, and what it reports written, for fd; and the same for all
      that have not been handled. */
  function Brings(c: Cqe, fd: Fd): seq<byte> {
    if c.CRead? && c.fd == fd then c.data else []
  }

  function Reports(c: Cqe, fd: Fd): nat {
    if c.CWrite? && c.fd == fd then c.n else 0
  }

  function Unread(cq: seq<Cqe>, fd: Fd): seq<byte> {
    if cq == [] then [] else Brings(cq[0], fd) + Unread(cq[1..], fd)
  }

  function Unwritten(cq: seq<Cqe>, fd: Fd): nat {
    if cq == [] then 0 else Reports(cq[0], fd) + Unwritten(cq[1..], fd)
  }

  lemma {:induction false} UnreadMore(cq: seq<Cqe>, c: Cqe, fd: Fd)
    ensures Unread(cq + [c], fd) == Unread(cq, fd) + Brings(c, fd)
    ensures Unwritten(cq + [c], fd) == Unwritten(cq, fd) + Reports(c, fd)
  {
    if cq == [] {
      assert cq + [c] == [c];
    } else {
      assert (cq + [c])[0] == cq[0] && (cq + [c])[1..] == cq[1..] + [c];
      UnreadMore(cq[1..], c, fd);
    }
  }

  lemma {:induction false} UnreadNone(cq: seq<Cqe>, fd: Fd)
    requires SockCount(cq, fd) == 0
    ensures Unread(cq, fd) == [] && Unwritten(cq, fd) == 0
  {
    if cq != [] {
      UnreadNone(cq[1..], fd);
    }
  }

  /** On its way to the table. */
  predicate Early(s: State, fd: Fd) {
    fd in s.place && !s.place[fd].Installed? && !s.place[fd].Clearing?
  }

  /** A live connection has read what was delivered but for what is in its owner's queue,
      and what was taken is what it has accounted for and what is in the queue; before it
      is installed nothing has been moved. */
  ghost predicate WireOk(s: State, fd: Fd, given: seq<byte>, wire: seq<byte>) {
    && (fd in s.conns ==>
          var c := s.conns[fd];
          && c.owner < |s.ws|
          && given == c.sess.inp + Unread(s.ws[c.owner].cq, fd)
          && c.sess.cursor + Unwritten(s.ws[c.owner].cq, fd) <= |c.sess.buffer|
          && wire == c.sess.out + c.sess.buffer[c.sess.cursor..c.sess.cursor + Unwritten(s.ws[c.owner].cq, fd)])
    && (Early(s, fd) ==> given == wire == [])
  }

  /** What a step must leave alone that is not about fd. */
  lemma WireSame(s: State, t: State, fd: Fd, given: seq<byte>, wire: seq<byte>)
    requires WireOk(s, fd, given, wire) && |t.ws| == |s.ws| && (Early(t, fd) ==> Early(s, fd))
    requires fd in t.conns ==>
               && fd in s.conns && t.conns[fd] == s.conns[fd] && s.conns[fd].owner < |s.ws|
               && Unread(t.ws[s.conns[fd].owner].cq, fd) == Unread(s.ws[s.conns[fd].owner].cq, fd)
               && Unwritten(t.ws[s.conns[fd].owner].cq, fd) == Unwritten(s.ws[s.conns[fd].owner].cq, fd)
    ensures WireOk(t, fd, given, wire)
  {
  }

  lemma AcceptWire(s: State, w: Wid, g: Fd, cpu: Wid, fd: Fd, given: seq<byte>, wire: seq<byte>)
    requires Inv(s) && Enabled(s, KAccept(w, g, cpu)) && WireOk(s, fd, given, wire)
    ensures WireOk(AcceptDone(s, w, g, cpu), fd, if g == fd then [] else given, if g == fd then [] else wire)
  {
    var t := AcceptDone(s, w, g, cpu);
    assert FdOk(s, fd);
    UnreadMore(s.ws[w].cq, CAccept(g), fd);
    if g != fd {
      WireSame(s, t, fd, given, wire);
    }
  }

  lemma EvWriteWire(s: State, w: Wid, from: Wid, fd: Fd, given: seq<byte>, wire: seq<byte>)
    requires Enabled(s, KEvWrite(w, from)) && WireOk(s, fd, given, wire)
    ensures WireOk(EvWriteDone(s, w, from), fd, given, wire)
  {
    UnreadMore(s.ws[from].cq, CEvWrite, fd);
    WireSame(s, EvWriteDone(s, w, from), fd, given, wire);
  }

  lemma EvReadWire(s: State, w: Wid, fd: Fd, given: seq<byte>, wire: seq<byte>)
    requires Enabled(s, KEvRead(w)) && WireOk(s, fd, given, wire)
    ensures WireOk(EvReadDone(s, w), fd, given, wire)
  {
    UnreadMore(s.ws[w].cq, CEvRead(s.ws[w].counter), fd);
    WireSame(s, EvReadDone(s, w), fd, given, wire);
  }

  /** The request a transfer completes is the connection's only one, and nothing of it is
      in a queue. */
  lemma TheRequest(s: State, fd: Fd, i: nat)
    requires Inv(s) && i < |Pend(s, fd)|
    ensures fd in s.conns && s.conns[fd].owner < |s.ws| && i == 0
    ensures s.conns[fd].sess.cursor < |s.conns[fd].sess.buffer|
    ensures Pend(s, fd)[i] == NextReq(s.conns[fd].owner, s.conns[fd].sess)
    ensures Unread(s.ws[s.conns[fd].owner].cq, fd) == [] && Unwritten(s.ws[s.conns[fd].owner].cq, fd) == 0
  {
    assert FdOk(s, fd);
    var w := s.conns[fd].owner;
    assert PairOk(s, w, fd);
    UnreadNone(s.ws[w].cq, fd);
  }

  /** A completed transfer on another descriptor. */
  lemma ElsewhereWire(s: State, g: Fd, i: nat, c: Cqe, fd: Fd, given: seq<byte>, wire: seq<byte>)
    requires i < |Pend(s, g)| && Pend(s, g)[i].ring < |s.ws| && WireOk(s, fd, given, wire) && (c.CRead? || c.CWrite?)
    requires c.fd == g != fd
    ensures WireOk(AddCqe(s, Pend(s, g)[i].ring, c).(pend := s.pend[g := Without(Pend(s, g), i)]), fd, given, wire)
  {
    UnreadMore(s.ws[Pend(s, g)[i].ring].cq, c, fd);
    WireSame(s, AddCqe(s, Pend(s, g)[i].ring, c).(pend := s.pend[g := Without(Pend(s, g), i)]), fd, given, wire);
  }

  lemma ReadWire(s: State, fd: Fd, i: nat, data: seq<byte>, given: seq<byte>, wire: seq<byte>)
    requires Inv(s) && Enabled(s, KRead(fd, i, data)) && WireOk(s, fd, given, wire) && fd in s.conns
    ensures WireOk(ReadDone(s, fd, i, data), fd, given + data, wire)
  {
    var w, t := s.conns[fd].owner, ReadDone(s, fd, i, data);
    TheRequest(s, fd, i);
    assert FdOk(s, fd) && Pend(s, fd)[i].ring == w;
    UnreadMore(s.ws[w].cq, CRead(fd, data), fd);
    assert t.ws[w].cq == s.ws[w].cq + [CRead(fd, data)];
    GivenWire(s, t, fd, data, given, wire);
  }

  lemma GivenWire(s: State, t: State, fd: Fd, data: seq<byte>, given: seq<byte>, wire: seq<byte>)
    requires WireOk(s, fd, given, wire) && fd in s.conns && !Early(s, fd) && |t.ws| == |s.ws|
    requires t.conns == s.conns && t.place == s.place && s.conns[fd].owner < |s.ws|
    requires var w := s.conns[fd].owner;
             && Unread(s.ws[w].cq, fd) == [] && Unwritten(s.ws[w].cq, fd) == 0
             && Unread(t.ws[w].cq, fd) == data && Unwritten(t.ws[w].cq, fd) == 0
    ensures WireOk(t, fd, given + data, wire)
  {
  }

  lemma WriteWire(s: State, fd: Fd, i: nat, k: nat, given: seq<byte>, wire: seq<byte>)
    requires Inv(s) && Enabled(s, KWrite(fd, i, k)) && WireOk(s, fd, given, wire)
    ensures WireOk(WriteDone(s, fd, i, k), fd, given, wire + Part(s, fd, Pend(s, fd)[i].off, k))
  {
    TheRequest(s, fd, i);
    assert FdOk(s, fd);
    UnreadMore(s.ws[Pend(s, fd)[i].ring].cq, CWrite(fd, k), fd);
  }

  /** A completion of another descriptor, or of none. */
  lemma PopWire(s: State, w: Wid, fd: Fd, given: seq<byte>, wire: seq<byte>)
    requires Enabled(s, WTake(w)) && WireOk(s, fd, given, wire) && !IsSock(s.ws[w].cq[0], fd)
    ensures WireOk(PopCqe(s, w), fd, given, wire)
  {
    WireSame(s, PopCqe(s, w), fd, given, wire);
  }

  /** The bytes a handler takes in are those the kernel delivered, and those it counts as
      written those the kernel took. */
  lemma OwnWire(s: State, w: Wid, fd: Fd, given: seq<byte>, wire: seq<byte>)
    requires Inv(s) && Enabled(s, WTake(w)) && WireOk(s, fd, given, wire) && SockHead(s, w) && s.ws[w].cq[0].fd == fd
    ensures WireOk(Take(s, w), fd, given, wire)
  {
    var c := s.ws[w].cq[0];
    HeadSock(s, w);
    HeadEffect(s, w);
    if !Failed(c) {
      UnreadNone(s.ws[w].cq[1..], fd);
      MovedWire(s, Take(s, w), w, fd, given, wire);
    }
  }

  lemma MovedWire(s: State, t: State, w: Wid, fd: Fd, given: seq<byte>, wire: seq<byte>)
    requires WireOk(s, fd, given, wire) && SockHead(s, w) && s.ws[w].cq[0].fd == fd && fd in s.conns
    requires s.conns[fd].owner == w && fd in s.place && s.place[fd].Installed? && t.place == s.place
    requires var c := s.ws[w].cq[0];
             && !Failed(c) && Legal(s.conns[fd].sess, IoOf(c))
             && fd in t.conns && t.conns[fd] == Conn(w, Apply(s.conns[fd].sess, IoOf(c)))
    requires w < |t.ws| && t.ws[w].cq == s.ws[w].cq[1..]
    requires Unread(s.ws[w].cq[1..], fd) == [] && Unwritten(s.ws[w].cq[1..], fd) == 0
    ensures WireOk(t, fd, given, wire)
  {
  }

  lemma OtherSockWire(s: State, w: Wid, fd: Fd, given: seq<byte>, wire: seq<byte>)
    requires Inv(s) && Enabled(s, WTake(w)) && WireOk(s, fd, given, wire) && SockHead(s, w) && s.ws[w].cq[0].fd != fd
    ensures WireOk(Take(s, w), fd, given, wire)
  {
    PopWire(s, w, fd, given, wire);
    HeadSock(s, w);
    HeadEffect(s, w);
    WireSame(PopCqe(s, w), Take(s, w), fd, given, wire);
  }

  /** An installed connection starts afresh. */
  lemma FreshWire(s: State, w: Wid, fd: Fd, given: seq<byte>, wire: seq<byte>)
    requires w < |s.ws| && fd in s.conns && s.conns[fd] == Conn(w, Fresh(s.size))
    requires given == wire == [] && SockCount(s.ws[w].cq, fd) == 0
    ensures WireOk(s, fd, given, wire)
  {
    UnreadNone(s.ws[w].cq, fd);
  }

  lemma ArriveWire(s: State, w: Wid, fd: Fd, given: seq<byte>, wire: seq<byte>)
    requires Inv(s) && Enabled(s, WTake(w)) && WireOk(s, fd, given, wire) && s.ws[w].cq[0] == CAccept(fd) && Mine(s, w)
    ensures WireOk(Take(s, w), fd, given, wire)
  {
    assert FdOk(s, fd) && PairOk(s, w, fd);
    FreshWire(Take(s, w), w, fd, given, wire);
  }

  lemma PassedWire(s: State, w: Wid, fd: Fd, given: seq<byte>, wire: seq<byte>)
    requires Inv(s) && Enabled(s, WTake(w)) && WireOk(s, fd, given, wire) && s.ws[w].cq[0].CAccept?
    requires !(s.ws[w].cq[0] == CAccept(fd) && Mine(s, w))
    ensures WireOk(Take(s, w), fd, given, wire)
  {
    PopWire(s, w, fd, given, wire);
    if s.ws[w].cq[0] == CAccept(fd) {
      assert FdOk(s, fd) && PairOk(s, w, fd);
    }
    WireSame(PopCqe(s, w), Take(s, w), fd, given, wire);
  }

  lemma EventTakenWire(s: State, w: Wid, fd: Fd, given: seq<byte>, wire: seq<byte>)
    requires Enabled(s, WTake(w)) && WireOk(s, fd, given, wire)
    requires s.ws[w].cq[0].CEvRead? || s.ws[w].cq[0].CEvWrite?
    ensures WireOk(Take(s, w), fd, given, wire)
  {
    PopWire(s, w, fd, given, wire);
    WireSame(PopCqe(s, w), Take(s, w), fd, given, wire);
  }

  lemma InstallWire(s: State, w: Wid, fd: Fd, given: seq<byte>, wire: seq<byte>)
    requires Inv(s) && Enabled(s, WInstall(w)) && WireOk(s, fd, given, wire)
    ensures WireOk(InstallHand(s, w), fd, given, wire)
  {
    assert WorkerOk(s, w) && FdOk(s, fd) && PairOk(s, w, fd);
    if s.ws[w].pc == Hand(fd) {
      FreshWire(InstallHand(s, w), w, fd, given, wire);
    } else {
      WireSame(s, InstallHand(s, w), fd, given, wire);
    }
  }

  lemma RestWire(s: State, step: Step, fd: Fd, given: seq<byte>, wire: seq<byte>)
    requires Inv(s) && Enabled(s, step) && WireOk(s, fd, given, wire)
    requires step.WPush? || step.WNotify? || step.WPop? || step.WDrained? || step.WClose?
    ensures WireOk(Next(s, step), fd, given, wire)
  {
    assert WorkerOk(s, step.w) && FdOk(s, fd);
    if step.WPop? {
      assert PairOk(s, step.w, s.ws[step.w].list[0]);
    }
    WireSame(s, Next(s, step), fd, given, wire);
  }

  lemma TakeWire(s: State, w: Wid, fd: Fd, given: seq<byte>, wire: seq<byte>)
    requires Inv(s) && Enabled(s, WTake(w)) && WireOk(s, fd, given, wire)
    ensures WireOk(Take(s, w), fd, given, wire)
  {
    if IsSock(s.ws[w].cq[0], fd) {
      OwnWire(s, w, fd, given, wire);
    } else if SockHead(s, w) {
      OtherSockWire(s, w, fd, given, wire);
    } else if s.ws[w].cq[0] == CAccept(fd) && Mine(s, w) {
      ArriveWire(s, w, fd, given, wire);
    } else if s.ws[w].cq[0].CAccept? {
      PassedWire(s, w, fd, given, wire);
    } else {
      EventTakenWire(s, w, fd, given, wire);
    }
  }

  lemma WireStep(s: State, step: Step, fd: Fd, given: seq<byte>, wire: seq<byte>)
    requires Inv(s) && Enabled(s, step) && WireOk(s, fd, given, wire)
    ensures WireOk(Next(s, step), fd, GivenAfter(step, fd, given), WireAfter(s, step, fd, wire))
  {
    match step
    case KAccept(w, g, cpu) => AcceptWire(s, w, g, cpu, fd, given, wire);
    case KEvWrite(w, from) => EvWriteWire(s, w, from, fd, given, wire);
    case KEvRead(w) => EvReadWire(s, w, fd, given, wire);
    case KRead(g, i, data) =>
      if g == fd {
        TheRequest(s, fd, i);
        ReadWire(s, fd, i, data, given, wire);
      } else {
        ElsewhereWire(s, g, i, CRead(g, data), fd, given, wire);
      }
    case KWrite(g, i, k) =>
      if g == fd {
        WriteWire(s, fd, i, k, given, wire);
      } else {
        ElsewhereWire(s, g, i, CWrite(g, k), fd, given, wire);
      }
    case WTake(w) => TakeWire(s, w, fd, given, wire);
    case WInstall(w) => InstallWire(s, w, fd, given, wire);
    case _ => RestWire(s, step, fd, given, wire);
  }

  lemma {:induction false} WireAlways(n: nat, size: nat, steps: seq<Step>, fd: Fd)
    requires size > 0 && LegalSteps(Init(n, size), steps)
    ensures WireOk(RunSteps(Init(n, size), steps), fd, Given(steps, fd), Wire(n, size, steps, fd))
  {
    if steps != [] {
      var steps' := steps[..|steps| - 1];
      WireAlways(n, size, steps', fd);
      InvAlways(n, size, steps');
      WireStep(RunSteps(Init(n, size), steps'), steps[|steps| - 1], fd, Given(steps', fd), Wire(n, size, steps', fd));
    }
  }

  /** End to end: whatever else the server is doing, the kernel has been given, on every
      live connection, nothing but what it has delivered there, in order; and while the
      connection reads, every whole message of what it has read. */
  lemma EchoedOnWire(n: nat, size: nat, steps: seq<Step>, fd: Fd)
    requires size > 0 && LegalSteps(Init(n, size), steps) && fd in RunSteps(Init(n, size), steps).conns
    ensures Wire(n, size, steps, fd) <= Given(steps, fd)
    ensures var sess := RunSteps(Init(n, size), steps).conns[fd].sess;
            && sess.inp <= Given(steps, fd) && sess.out <= Wire(n, size, steps, fd)
            && (Pend(RunSteps(Init(n, size), steps), fd) != [] ==>
                  sess.inp == Given(steps, fd) && sess.out == Wire(n, size, steps, fd))
            && (sess.mode == Reading ==> Wire(n, size, steps, fd) == Given(steps, fd)[..Whole(|sess.inp|, size)])
  {
    WireAlways(n, size, steps, fd);
    InvAlways(n, size, steps);
    WireMeans(RunSteps(Init(n, size), steps), fd, Given(steps, fd), Wire(n, size, steps, fd));
  }

  lemma WireMeans(s: State, fd: Fd, given: seq<byte>, wire: seq<byte>)
    requires Inv(s) && fd in s.conns && WireOk(s, fd, given, wire)
    ensures var sess := s.conns[fd].sess;
            && wire <= given && sess.inp <= given && sess.out <= wire
            && (Pend(s, fd) != [] ==> sess.inp == given && sess.out == wire)
            && (sess.mode == Reading ==> wire == given[..Whole(|sess.inp|, s.size)])
  {
    var c := s.conns[fd];
    assert FdOk(s, fd) && PairOk(s, c.owner, fd);
    var k := Unwritten(s.ws[c.owner].cq, fd);
    if Pend(s, fd) != [] {
      UnreadNone(s.ws[c.owner].cq, fd);
    }
    if c.sess.mode == Reading {
      NoneWritten(s.ws[c.owner].cq, fd, c.sess);
      IdleOutput(c.sess);
    } else {
      assert c.sess.inp == c.sess.out + c.sess.inp[|c.sess.out|..];
      assert c.sess.buffer[c.sess.cursor..][..k] == c.sess.buffer[c.sess.cursor..c.sess.cursor + k];
    }
  }

  /** Only reads complete for a connection that reads. */
  lemma {:induction false} NoneWritten(cq: seq<Cqe>, fd: Fd, sess: Session)
    requires SockCount(cq, fd) == FitCount(cq, fd, sess) && sess.mode == Reading
    ensures Unwritten(cq, fd) == 0
  {
    if cq != [] {
      NoneWritten(cq[1..], fd, sess);
    }
  }
}
