/**
 Ownership in the io_uring server: where every accepted descriptor is, which worker
 may touch its slot of `conns[]`, and which requests are in flight for it.
 */
module IoUringTable {
  import opened Echo
  import opened IoUring

  predicate IsSock(c: Cqe, fd: Fd) {
    (c.CRead? || c.CWrite?) && c.fd == fd
  }

  /** A completed transfer fits the request it answers. */
  predicate Fits(c: Cqe, sess: Session) {
    match c
    case CRead(_, data) => sess.mode == Reading && sess.cursor + |data| <= |sess.buffer|
    case CWrite(_, n) => sess.mode == Writing && sess.cursor + n <= |sess.buffer|
    case _ => false
  }

  /** Completions that deliver the new connection fd; all accept completions;
      completions of transfers on fd; and those of them that fit. */
  function AccCount(cq: seq<Cqe>, fd: Fd): nat {
    if cq == [] then 0 else (if cq[0] == CAccept(fd) then 1 else 0) + AccCount(cq[1..], fd)
  }

  function AccAll(cq: seq<Cqe>): nat {
    if cq == [] then 0 else (if cq[0].CAccept? then 1 else 0) + AccAll(cq[1..])
  }

  function SockCount(cq: seq<Cqe>, fd: Fd): nat {
    if cq == [] then 0 else (if IsSock(cq[0], fd) then 1 else 0) + SockCount(cq[1..], fd)
  }

  function FitCount(cq: seq<Cqe>, fd: Fd, sess: Session): (k: nat)
    ensures k <= SockCount(cq, fd)
  {
    if cq == [] then 0 else (if IsSock(cq[0], fd) && Fits(cq[0], sess) then 1 else 0) + FitCount(cq[1..], fd, sess)
  }

  lemma {:induction false} CountAppend(cq: seq<Cqe>, c: Cqe, fd: Fd)
    ensures AccCount(cq + [c], fd) == AccCount(cq, fd) + (if c == CAccept(fd) then 1 else 0)
    ensures AccAll(cq + [c]) == AccAll(cq) + (if c.CAccept? then 1 else 0)
    ensures SockCount(cq + [c], fd) == SockCount(cq, fd) + (if IsSock(c, fd) then 1 else 0)
  {
    if cq == [] {
      assert cq + [c] == [c];
    } else {
      assert (cq + [c])[1..] == cq[1..] + [c];
      CountAppend(cq[1..], c, fd);
    }
  }

  lemma {:induction false} FitAppend(cq: seq<Cqe>, c: Cqe, fd: Fd, sess: Session)
    ensures FitCount(cq + [c], fd, sess) == FitCount(cq, fd, sess) + (if IsSock(c, fd) && Fits(c, sess) then 1 else 0)
  {
    if cq == [] {
      assert cq + [c] == [c];
    } else {
      assert (cq + [c])[1..] == cq[1..] + [c];
      FitAppend(cq[1..], c, fd, sess);
    }
  }

  predicate At(s: State, fd: Fd, l: Loc) {
    fd in s.place && s.place[fd] == l
  }

  /** The program counter and the recorded place agree; and one accept is in flight,
      completed, or its connection is being handed on. */
  ghost predicate WorkerOk(s: State, w: Wid)
    requires w < |s.ws|
  {
    var x := s.ws[w];
    && x.accepts + AccAll(x.cq) + (if x.pc.Accepted? || x.pc.Pushed? then 1 else 0) == 1
    && match x.pc
       case Accepted(fd) => At(s, fd, Held(w))
       case Hand(fd) => At(s, fd, Taken(w))
       case Closing(fd) => At(s, fd, Clearing(w))
       case Pushed(o) => o < |s.ws|
       case _ => true
  }

  /** A descriptor really is where it is recorded to be. Only the worker its packets
      arrive at ever has it on its list, in its hand, installed or half closed. */
  ghost predicate PlaceOk(s: State, fd: Fd)
    requires fd in s.place
  {
    && fd in s.open && s.open[fd] < |s.ws|
    && s.place[fd].w < |s.ws|
    && var w := s.place[fd].w;
       match s.place[fd]
       case InCq(_) => true
       case Held(_) => s.ws[w].pc == Accepted(fd) && s.open[fd] != w
       case Listed(_) => s.open[fd] == w
       case Taken(_) => s.ws[w].pc == Hand(fd) && s.open[fd] == w
       case Installed(_) => fd in s.conns && s.open[fd] == w
       case Clearing(_) => s.ws[w].pc == Closing(fd) && s.open[fd] == w
  }

  /** A live connection: faithful so far, and a request in flight is the one its
      cursor calls for. */
  ghost predicate ConnOk(s: State, fd: Fd)
    requires fd in s.conns
  {
    var c := s.conns[fd];
    && At(s, fd, Installed(c.owner))
    && Faithful(c.sess) && |c.sess.buffer| == s.size
    && (Pend(s, fd) == [] || Pend(s, fd) == [NextReq(c.owner, c.sess)])
  }

  ghost predicate FdOk(s: State, fd: Fd) {
    && (fd in s.open ==> fd in s.place)
    && (fd in s.place ==> PlaceOk(s, fd))
    && (fd in s.conns ==> ConnOk(s, fd))
    && (fd !in s.conns ==> Pend(s, fd) == [])
  }

  /** A worker's queue holds a new connection exactly once and only where recorded, so
      does its list, and the queue of a connection's owner holds the completion of its
      one request exactly when the kernel no longer does. */
  ghost predicate PairOk(s: State, w: Wid, fd: Fd)
    requires w < |s.ws|
  {
    && AccCount(s.ws[w].cq, fd) == (if At(s, fd, InCq(w)) then 1 else 0)
    && multiset(s.ws[w].list)[fd] == (if At(s, fd, Listed(w)) then 1 else 0)
    && if fd in s.conns && s.conns[fd].owner == w then
         SockCount(s.ws[w].cq, fd) == FitCount(s.ws[w].cq, fd, s.conns[fd].sess) == 1 - |Pend(s, fd)|
       else
         SockCount(s.ws[w].cq, fd) == 0
  }

  ghost predicate Inv(s: State) {
    && !s.crashed && s.size > 0
    && (forall w: Wid :: w < |s.ws| ==> WorkerOk(s, w))
    && (forall fd: Fd :: FdOk(s, fd))
    && (forall w: Wid, fd: Fd :: w < |s.ws| ==> PairOk(s, w, fd))
  }

  /** The connection at the head of w's queue is for w itself. */
  predicate Mine(s: State, w: Wid)
    requires w < |s.ws| && s.ws[w].cq != [] && s.ws[w].cq[0].CAccept?
  {
    s.ws[w].cq[0].fd in s.open && s.open[s.ws[w].cq[0].fd] == w
  }

  lemma AcceptPlace(s: State, w: Wid, fd: Fd, cpu: Wid, v: Wid, f: Fd)
    requires Inv(s) && Enabled(s, KAccept(w, fd, cpu)) && v < |s.ws|
    ensures WorkerOk(AcceptDone(s, w, fd, cpu), v)
    ensures FdOk(AcceptDone(s, w, fd, cpu), f)
  {
    assert WorkerOk(s, v);
    CountAppend(s.ws[w].cq, CAccept(fd), 0);
    assert FdOk(s, fd);
    assert FdOk(s, f);
  }

  lemma AcceptPair(s: State, w: Wid, fd: Fd, cpu: Wid, v: Wid, f: Fd)
    requires Inv(s) && Enabled(s, KAccept(w, fd, cpu)) && v < |s.ws|
    ensures PairOk(AcceptDone(s, w, fd, cpu), v, f)
  {
    assert PairOk(s, v, f);
    if v == w {
      CountAppend(s.ws[v].cq, CAccept(fd), f);
      if f in s.conns { FitAppend(s.ws[v].cq, CAccept(fd), f, s.conns[f].sess); }
    }
    assert FdOk(s, fd);
  }

  /** A completion that is about no connection changes nothing for a pair. */
  lemma PairOther(s: State, t: State, v: Wid, f: Fd, c: Cqe)
    requires v < |s.ws| == |t.ws| && PairOk(s, v, f) && (c.CEvWrite? || c.CEvRead?)
    requires t.place == s.place && t.conns == s.conns && Pend(t, f) == Pend(s, f)
    requires t.ws[v].list == s.ws[v].list && (t.ws[v].cq == s.ws[v].cq || t.ws[v].cq == s.ws[v].cq + [c])
    ensures PairOk(t, v, f)
  {
    CountAppend(s.ws[v].cq, c, f);
    if f in s.conns { FitAppend(s.ws[v].cq, c, f, s.conns[f].sess); }
  }

  lemma EvWriteWorker(s: State, w: Wid, from: Wid, v: Wid)
    requires Inv(s) && Enabled(s, KEvWrite(w, from)) && v < |s.ws|
    ensures WorkerOk(EvWriteDone(s, w, from), v)
  {
    assert WorkerOk(s, v);
    CountAppend(s.ws[from].cq, CEvWrite, 0);
  }

  lemma EvWriteStep(s: State, w: Wid, from: Wid, v: Wid, f: Fd)
    requires Inv(s) && Enabled(s, KEvWrite(w, from)) && v < |s.ws|
    ensures WorkerOk(EvWriteDone(s, w, from), v)
    ensures FdOk(EvWriteDone(s, w, from), f)
    ensures PairOk(EvWriteDone(s, w, from), v, f)
  {
    EvWriteWorker(s, w, from, v);
    assert FdOk(s, f);
    PairOther(s, EvWriteDone(s, w, from), v, f, CEvWrite);
  }

  lemma EvReadStep(s: State, w: Wid, v: Wid, f: Fd)
    requires Inv(s) && Enabled(s, KEvRead(w)) && v < |s.ws|
    ensures WorkerOk(EvReadDone(s, w), v)
    ensures FdOk(EvReadDone(s, w), f)
    ensures PairOk(EvReadDone(s, w), v, f)
  {
    assert WorkerOk(s, v);
    CountAppend(s.ws[w].cq, CEvRead(s.ws[w].counter), 0);
    assert FdOk(s, f);
    PairOther(s, EvReadDone(s, w), v, f, CEvRead(s.ws[w].counter));
  }

  lemma ReadPlace(s: State, fd: Fd, i: nat, data: seq<byte>, v: Wid, f: Fd)
    requires Inv(s) && Enabled(s, KRead(fd, i, data)) && v < |s.ws|
    ensures WorkerOk(ReadDone(s, fd, i, data), v)
    ensures FdOk(ReadDone(s, fd, i, data), f)
  {
    assert FdOk(s, fd);
    assert WorkerOk(s, v);
    CountAppend(s.ws[Pend(s, fd)[i].ring].cq, CRead(fd, data), 0);
    assert FdOk(s, f);
  }

  lemma ReadPair(s: State, fd: Fd, i: nat, data: seq<byte>, v: Wid, f: Fd)
    requires Inv(s) && Enabled(s, KRead(fd, i, data)) && v < |s.ws|
    ensures PairOk(ReadDone(s, fd, i, data), v, f)
  {
    assert FdOk(s, fd);
    assert PairOk(s, v, f);
    if v == Pend(s, fd)[i].ring {
      CountAppend(s.ws[v].cq, CRead(fd, data), f);
      if f in s.conns { FitAppend(s.ws[v].cq, CRead(fd, data), f, s.conns[f].sess); }
    }
  }

  lemma WritePlace(s: State, fd: Fd, i: nat, n: nat, v: Wid, f: Fd)
    requires Inv(s) && Enabled(s, KWrite(fd, i, n)) && v < |s.ws|
    ensures WorkerOk(WriteDone(s, fd, i, n), v)
    ensures FdOk(WriteDone(s, fd, i, n), f)
  {
    assert FdOk(s, fd);
    assert WorkerOk(s, v);
    CountAppend(s.ws[Pend(s, fd)[i].ring].cq, CWrite(fd, n), 0);
    assert FdOk(s, f);
  }

  lemma WritePair(s: State, fd: Fd, i: nat, n: nat, v: Wid, f: Fd)
    requires Inv(s) && Enabled(s, KWrite(fd, i, n)) && v < |s.ws|
    ensures PairOk(WriteDone(s, fd, i, n), v, f)
  {
    assert FdOk(s, fd);
    assert PairOk(s, v, f);
    if v == Pend(s, fd)[i].ring {
      CountAppend(s.ws[v].cq, CWrite(fd, n), f);
      if f in s.conns { FitAppend(s.ws[v].cq, CWrite(fd, n), f, s.conns[f].sess); }
    }
  }

  lemma PushPlace(s: State, w: Wid, v: Wid, f: Fd)
    requires Inv(s) && Enabled(s, WPush(w)) && v < |s.ws|
    ensures WorkerOk(Push(s, w), v)
    ensures FdOk(Push(s, w), f)
  {
    var fd := s.ws[w].pc.fd;
    assert WorkerOk(s, v);
    assert WorkerOk(s, w);
    assert FdOk(s, fd);
    assert FdOk(s, f);
    assert FdOk(s, s.ws[w].pc.fd);
  }

  lemma PushPair(s: State, w: Wid, v: Wid, f: Fd)
    requires Inv(s) && Enabled(s, WPush(w)) && v < |s.ws|
    ensures PairOk(Push(s, w), v, f)
  {
    assert PairOk(s, v, f);
    assert WorkerOk(s, w);
    assert FdOk(s, s.ws[w].pc.fd);
  }

  lemma NotifyStep(s: State, w: Wid, v: Wid, f: Fd)
    requires Inv(s) && Enabled(s, WNotify(w)) && v < |s.ws|
    ensures WorkerOk(Notify(s, w), v)
    ensures FdOk(Notify(s, w), f)
    ensures PairOk(Notify(s, w), v, f)
  {
    assert WorkerOk(s, v);
    assert FdOk(s, f);
    assert PairOk(s, v, f);
  }

  lemma PopPlace(s: State, w: Wid, v: Wid, f: Fd)
    requires Inv(s) && Enabled(s, WPop(w)) && v < |s.ws|
    ensures WorkerOk(Pop(s, w), v)
    ensures FdOk(Pop(s, w), f)
  {
    var fd := s.ws[w].list[0];
    assert WorkerOk(s, v);
    assert WorkerOk(s, w) && PairOk(s, w, s.ws[w].list[0]);
    assert FdOk(s, f);
    assert PairOk(s, w, fd) && FdOk(s, fd);
  }

  lemma PopPair(s: State, w: Wid, v: Wid, f: Fd)
    requires Inv(s) && Enabled(s, WPop(w)) && v < |s.ws|
    ensures PairOk(Pop(s, w), v, f)
  {
    assert PairOk(s, v, f);
    var fd := s.ws[w].list[0];
    assert PairOk(s, w, fd);
    assert s.ws[w].list == [fd] + s.ws[w].list[1..];
  }

  lemma HandPlace(s: State, w: Wid, v: Wid, f: Fd)
    requires Inv(s) && Enabled(s, WInstall(w)) && v < |s.ws|
    ensures WorkerOk(InstallHand(s, w), v)
    ensures FdOk(InstallHand(s, w), f)
  {
    assert WorkerOk(s, v);
    assert WorkerOk(s, w);
    assert FdOk(s, f);
    assert WorkerOk(s, w) && FdOk(s, s.ws[w].pc.fd);
    FreshFaithful(s.size);
  }

  lemma HandPair(s: State, w: Wid, v: Wid, f: Fd)
    requires Inv(s) && Enabled(s, WInstall(w)) && v < |s.ws|
    ensures PairOk(InstallHand(s, w), v, f)
  {
    assert PairOk(s, v, f);
    assert WorkerOk(s, w) && FdOk(s, s.ws[w].pc.fd);
  }

  lemma DrainedStep(s: State, w: Wid, v: Wid, f: Fd)
    requires Inv(s) && Enabled(s, WDrained(w)) && v < |s.ws|
    ensures WorkerOk(Drained(s, w), v)
    ensures FdOk(Drained(s, w), f)
    ensures PairOk(Drained(s, w), v, f)
  {
    assert WorkerOk(s, v);
    assert FdOk(s, f);
    assert PairOk(s, v, f);
  }

  lemma CloseStep(s: State, w: Wid, v: Wid, f: Fd)
    requires Inv(s) && Enabled(s, WClose(w)) && v < |s.ws|
    ensures WorkerOk(Close(s, w), v)
    ensures FdOk(Close(s, w), f)
    ensures PairOk(Close(s, w), v, f)
  {
    assert WorkerOk(s, v);
    assert WorkerOk(s, w);
    assert FdOk(s, f);
    assert WorkerOk(s, w) && FdOk(s, s.ws[w].pc.fd);
    assert PairOk(s, v, f);
  }

  lemma TakeNoteStep(s: State, w: Wid, v: Wid, f: Fd)
    requires Inv(s) && Enabled(s, WTake(w)) && s.ws[w].cq[0].CEvWrite? && v < |s.ws|
    ensures WorkerOk(Take(s, w), v)
    ensures FdOk(Take(s, w), f)
    ensures PairOk(Take(s, w), v, f)
  {
    assert WorkerOk(s, v);
    assert FdOk(s, f);
    assert PairOk(s, v, f);
  }

  lemma TakeEvStep(s: State, w: Wid, v: Wid, f: Fd)
    requires Inv(s) && Enabled(s, WTake(w)) && s.ws[w].cq[0].CEvRead? && v < |s.ws|
    ensures WorkerOk(Take(s, w), v)
    ensures FdOk(Take(s, w), f)
    ensures PairOk(Take(s, w), v, f)
  {
    assert WorkerOk(s, v);
    assert FdOk(s, f);
    assert PairOk(s, v, f);
  }

  lemma TakeOtherPlace(s: State, w: Wid, v: Wid, f: Fd)
    requires Inv(s) && Enabled(s, WTake(w)) && s.ws[w].cq[0].CAccept? && !Mine(s, w) && v < |s.ws|
    ensures WorkerOk(Take(s, w), v)
    ensures FdOk(Take(s, w), f)
  {
    var fd := s.ws[w].cq[0].fd;
    assert WorkerOk(s, v);
    assert PairOk(s, w, fd) && FdOk(s, fd);
    assert FdOk(s, f);
  }

  lemma TakeOtherPair(s: State, w: Wid, v: Wid, f: Fd)
    requires Inv(s) && Enabled(s, WTake(w)) && s.ws[w].cq[0].CAccept? && !Mine(s, w) && v < |s.ws|
    ensures PairOk(Take(s, w), v, f)
  {
    assert PairOk(s, v, f);
    var fd := s.ws[w].cq[0].fd;
    assert PairOk(s, w, fd) && FdOk(s, fd);
  }

  lemma TakeOwnPlace(s: State, w: Wid, v: Wid, f: Fd)
    requires Inv(s) && Enabled(s, WTake(w)) && s.ws[w].cq[0].CAccept? && Mine(s, w) && v < |s.ws|
    ensures WorkerOk(Take(s, w), v)
    ensures FdOk(Take(s, w), f)
  {
    var fd := s.ws[w].cq[0].fd;
    assert WorkerOk(s, v);
    assert PairOk(s, w, fd) && FdOk(s, fd);
    assert FdOk(s, f);
    FreshFaithful(s.size);
  }

  lemma TakeOwnPair(s: State, w: Wid, v: Wid, f: Fd)
    requires Inv(s) && Enabled(s, WTake(w)) && s.ws[w].cq[0].CAccept? && Mine(s, w) && v < |s.ws|
    ensures PairOk(Take(s, w), v, f)
  {
    assert PairOk(s, v, f);
    var fd := s.ws[w].cq[0].fd;
    assert PairOk(s, w, fd) && FdOk(s, fd);
  }

  predicate SockHead(s: State, w: Wid) {
    w < |s.ws| && s.ws[w].cq != [] && (s.ws[w].cq[0].CRead? || s.ws[w].cq[0].CWrite?)
  }

  /** What a completed transfer did, if it did not fail. */
  function IoOf(c: Cqe): Io
    requires c.CRead? || c.CWrite?
  {
    if c.CRead? then Read(c.data) else Wrote(c.n)
  }

  predicate Failed(c: Cqe)
    requires c.CRead? || c.CWrite?
  {
    if c.CRead? then c.data == [] else c.n == 0
  }

  /** A socket completion finds the live connection it is about, in the slot of the
      worker that handles it, with nothing else in flight for it. */
  lemma HeadSock(s: State, w: Wid)
    requires Inv(s) && SockHead(s, w)
    ensures var c := s.ws[w].cq[0];
            && c.fd in s.conns && s.conns[c.fd].owner == w && At(s, c.fd, Installed(w))
            && Pend(s, c.fd) == [] && SockCount(s.ws[w].cq[1..], c.fd) == 0
            && (!Failed(c) ==> Legal(s.conns[c.fd].sess, IoOf(c)))
  {
    var fd := s.ws[w].cq[0].fd;
    assert PairOk(s, w, fd) && FdOk(s, fd);
  }

  lemma HeadEffect(s: State, w: Wid)
    requires Inv(s) && Enabled(s, WTake(w)) && SockHead(s, w)
    ensures var c := s.ws[w].cq[0];
            && c.fd in s.conns
            && Take(s, w) == if Failed(c) then Clear(PopCqe(s, w), w, c.fd) else Advance(PopCqe(s, w), w, c.fd, IoOf(c))
  {
    HeadSock(s, w);
  }

  lemma EndPlace(s: State, w: Wid, v: Wid, f: Fd)
    requires Inv(s) && SockHead(s, w) && s.ws[w].pc == Loop && s.ws[w].cq[0].fd in s.conns && v < |s.ws|
    ensures WorkerOk(Clear(PopCqe(s, w), w, s.ws[w].cq[0].fd), v)
    ensures FdOk(Clear(PopCqe(s, w), w, s.ws[w].cq[0].fd), f)
  {
    var fd := s.ws[w].cq[0].fd;
    assert WorkerOk(s, v);
    HeadSock(s, w);
    assert FdOk(s, f);
    assert FdOk(s, fd);
  }

  lemma EndPair(s: State, w: Wid, v: Wid, f: Fd)
    requires Inv(s) && SockHead(s, w) && s.ws[w].pc == Loop && s.ws[w].cq[0].fd in s.conns && v < |s.ws|
    ensures PairOk(Clear(PopCqe(s, w), w, s.ws[w].cq[0].fd), v, f)
  {
    assert PairOk(s, v, f);
    HeadSock(s, w);
    var fd := s.ws[w].cq[0].fd;
  }

  lemma MorePlace(s: State, w: Wid, v: Wid, f: Fd)
    requires Inv(s) && SockHead(s, w) && s.ws[w].pc == Loop && s.ws[w].cq[0].fd in s.conns
    requires !Failed(s.ws[w].cq[0]) && v < |s.ws|
    ensures WorkerOk(Advance(PopCqe(s, w), w, s.ws[w].cq[0].fd, IoOf(s.ws[w].cq[0])), v)
    ensures FdOk(Advance(PopCqe(s, w), w, s.ws[w].cq[0].fd, IoOf(s.ws[w].cq[0])), f)
  {
    var fd := s.ws[w].cq[0].fd;
    assert WorkerOk(s, v);
    HeadSock(s, w);
    assert FdOk(s, f);
    assert FdOk(s, fd);
    ApplyFaithful(s.conns[fd].sess, IoOf(s.ws[w].cq[0]));
  }

  lemma MorePair(s: State, w: Wid, v: Wid, f: Fd)
    requires Inv(s) && SockHead(s, w) && s.ws[w].pc == Loop && s.ws[w].cq[0].fd in s.conns
    requires !Failed(s.ws[w].cq[0]) && v < |s.ws|
    ensures PairOk(Advance(PopCqe(s, w), w, s.ws[w].cq[0].fd, IoOf(s.ws[w].cq[0])), v, f)
  {
    assert PairOk(s, v, f);
    HeadSock(s, w);
    var fd := s.ws[w].cq[0].fd;
  }

  /** Every kind of step keeps what is known of a worker, a descriptor and a pair. */
  lemma PartsStep(s: State, step: Step, v: Wid, f: Fd)
    requires Inv(s) && Enabled(s, step) && v < |s.ws|
    ensures var t := Next(s, step); WorkerOk(t, v) && FdOk(t, f) && PairOk(t, v, f)
  {
    match step
    case KAccept(w, fd, cpu) => AcceptPlace(s, w, fd, cpu, v, f); AcceptPair(s, w, fd, cpu, v, f);
    case KEvWrite(w, from) => EvWriteStep(s, w, from, v, f);
    case KEvRead(w) => EvReadStep(s, w, v, f);
    case KRead(fd, i, data) => ReadPlace(s, fd, i, data, v, f); ReadPair(s, fd, i, data, v, f);
    case KWrite(fd, i, n) => WritePlace(s, fd, i, n, v, f); WritePair(s, fd, i, n, v, f);
    case WTake(w) =>
      if SockHead(s, w) {
        HeadEffect(s, w);
        if Failed(s.ws[w].cq[0]) {
          EndPlace(s, w, v, f); EndPair(s, w, v, f);
        } else {
          MorePlace(s, w, v, f); MorePair(s, w, v, f);
        }
      } else if s.ws[w].cq[0].CAccept? {
        if Mine(s, w) {
          TakeOwnPlace(s, w, v, f); TakeOwnPair(s, w, v, f);
        } else {
          TakeOtherPlace(s, w, v, f); TakeOtherPair(s, w, v, f);
        }
      } else if s.ws[w].cq[0].CEvRead? {
        TakeEvStep(s, w, v, f);
      } else {
        TakeNoteStep(s, w, v, f);
      }
    case WPush(w) => PushPlace(s, w, v, f); PushPair(s, w, v, f);
    case WNotify(w) => NotifyStep(s, w, v, f);
    case WPop(w) => PopPlace(s, w, v, f); PopPair(s, w, v, f);
    case WInstall(w) => HandPlace(s, w, v, f); HandPair(s, w, v, f);
    case WDrained(w) => DrainedStep(s, w, v, f);
    case WClose(w) => CloseStep(s, w, v, f);
  }

  lemma NoCrashStep(s: State, step: Step)
    requires Inv(s) && Enabled(s, step)
    ensures !Next(s, step).crashed
  {
    if step.WTake? {
      var w := step.w;
      if SockHead(s, w) {
        HeadSock(s, w);
        HeadEffect(s, w);
      } else if s.ws[w].cq[0].CAccept? {
        assert PairOk(s, w, s.ws[w].cq[0].fd) && FdOk(s, s.ws[w].cq[0].fd);
      }
    }
  }

  lemma InvStep(s: State, step: Step)
    requires Inv(s) && Enabled(s, step)
    ensures Inv(Next(s, step))
  {
    var t := Next(s, step);
    NoCrashStep(s, step);
    forall v: Wid | v < |t.ws| ensures WorkerOk(t, v) { PartsStep(s, step, v, 0); }
    forall f: Fd ensures FdOk(t, f) { PartsStep(s, step, 0, f); }
    forall v: Wid, f: Fd | v < |t.ws| ensures PairOk(t, v, f) { PartsStep(s, step, v, f); }
  }

  lemma {:induction false} InvAlways(n: nat, size: nat, steps: seq<Step>)
    requires size > 0 && LegalSteps(Init(n, size), steps)
    ensures var s := RunSteps(Init(n, size), steps); Inv(s) && |s.ws| == n && s.size == size
  {
    if steps != [] {
      var steps' := steps[..|steps| - 1];
      InvAlways(n, size, steps');
      InvStep(RunSteps(Init(n, size), steps'), steps[|steps| - 1]);
    }
  }
}
