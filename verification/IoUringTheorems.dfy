/**
 What every run of the io_uring server guarantees, for any number of workers, any
 interleaving, any peers and any behaviour of the kernel.
 */
module IoUringTheorems {
  import opened Echo
  import opened IoUring
  import opened IoUringTable
  import T = IoUringTokens

  /** The number of places in which worker w holds descriptor fd. */
  function Holds(s: State, w: Wid, fd: Fd): nat
    requires w < |s.ws|
  {
    var x := s.ws[w];
    AccCount(x.cq, fd) + multiset(x.list)[fd]
    + (if x.pc == Accepted(fd) then 1 else 0) + (if x.pc == Hand(fd) then 1 else 0)
    + (if x.pc == Closing(fd) then 1 else 0)
    + (if fd in s.conns && s.conns[fd].owner == w then 1 else 0)
  }

  /** The number of places in which the first k workers hold fd. */
  function HoldsAll(s: State, k: nat, fd: Fd): nat
    requires k <= |s.ws|
  {
    if k == 0 then 0 else HoldsAll(s, k - 1, fd) + Holds(s, k - 1, fd)
  }

  lemma HoldsWhere(s: State, w: Wid, fd: Fd)
    requires Inv(s) && w < |s.ws|
    ensures Holds(s, w, fd) == if fd in s.place && s.place[fd].w == w then 1 else 0
  {
    assert WorkerOk(s, w) && FdOk(s, fd) && PairOk(s, w, fd);
  }

  lemma {:induction false} HoldsSum(s: State, k: nat, fd: Fd)
    requires Inv(s) && k <= |s.ws|
    ensures HoldsAll(s, k, fd) == if fd in s.place && s.place[fd].w < k then 1 else 0
  {
    if k > 0 {
      HoldsSum(s, k - 1, fd);
      HoldsWhere(s, k - 1, fd);
    }
  }

  /** Exactly-once handoff: over all completion queues, lists, hands and slots, an open
      connection is in exactly one place and a closed descriptor in none. */
  lemma ExactlyOnce(n: nat, size: nat, steps: seq<Step>, fd: Fd)
    requires size > 0 && LegalSteps(Init(n, size), steps)
    ensures var s := RunSteps(Init(n, size), steps);
            |s.ws| == n && HoldsAll(s, n, fd) == if fd in s.open then 1 else 0
  {
    var s := RunSteps(Init(n, size), steps);
    InvAlways(n, size, steps);
    HoldsSum(s, n, fd);
    assert FdOk(s, fd);
  }

  /** A slot is only ever occupied by an open connection, installed by the worker its
      packets arrive at; a connection on its way there has an empty slot. */
  lemma TableSafety(n: nat, size: nat, steps: seq<Step>, fd: Fd)
    requires size > 0 && LegalSteps(Init(n, size), steps)
    ensures var s := RunSteps(Init(n, size), steps);
            && !s.crashed
            && (fd in s.conns ==> fd in s.open && s.open[fd] == s.conns[fd].owner < n)
            && forall w: Wid :: w < |s.ws| ==>
                 (AccCount(s.ws[w].cq, fd) > 0 || fd in s.ws[w].list
                  || s.ws[w].pc == Accepted(fd) || s.ws[w].pc == Hand(fd)
                  ==> fd in s.open && fd !in s.conns)
  {
    var s := RunSteps(Init(n, size), steps);
    InvAlways(n, size, steps);
    assert FdOk(s, fd);
    forall w: Wid | w < |s.ws|
      ensures AccCount(s.ws[w].cq, fd) > 0 || fd in s.ws[w].list || s.ws[w].pc == Accepted(fd) || s.ws[w].pc == Hand(fd)
              ==> fd in s.open && fd !in s.conns
    {
      assert WorkerOk(s, w) && PairOk(s, w, fd);
    }
  }

  /** Descriptor reuse: between clearing the slot and closing the descriptor it stays
      open, so no successor can be accepted under it, and the close finds the slot empty
      and leaves every slot alone. */
  lemma NoSuccessorCleared(n: nat, size: nat, steps: seq<Step>, w: Wid)
    requires size > 0 && LegalSteps(Init(n, size), steps)
    requires Enabled(RunSteps(Init(n, size), steps), WClose(w))
    ensures var s := RunSteps(Init(n, size), steps);
            var fd := s.ws[w].pc.fd;
            && fd in s.open && s.open[fd] == w && fd !in s.conns
            && (forall v: Wid, cpu: Wid :: !Enabled(s, KAccept(v, fd, cpu)))
            && Next(s, WClose(w)).conns == s.conns && fd !in Next(s, WClose(w)).open
  {
    var s := RunSteps(Init(n, size), steps);
    InvAlways(n, size, steps);
    assert WorkerOk(s, w) && FdOk(s, s.ws[w].pc.fd);
  }

  /** One request per connection, submitted by its owner for exactly the part of the
      buffer that is still to be transferred; one accept per worker. */
  lemma OneRequest(n: nat, size: nat, steps: seq<Step>, fd: Fd, w: Wid)
    requires size > 0 && LegalSteps(Init(n, size), steps) && w < n
    ensures var s := RunSteps(Init(n, size), steps);
            && w < |s.ws|
            && (fd in s.conns && s.conns[fd].owner == w ==>
                  && s.conns[fd].sess.cursor < |s.conns[fd].sess.buffer|
                  && |Pend(s, fd)| + SockCount(s.ws[w].cq, fd) == 1
                  && (Pend(s, fd) != [] ==> Pend(s, fd) == [NextReq(w, s.conns[fd].sess)]))
            && (!(fd in s.conns && s.conns[fd].owner == w) ==> SockCount(s.ws[w].cq, fd) == 0)
            && (fd !in s.conns ==> Pend(s, fd) == [])
            && s.ws[w].accepts + AccAll(s.ws[w].cq)
               + (if s.ws[w].pc.Accepted? || s.ws[w].pc.Pushed? then 1 else 0) == 1
  {
    var s := RunSteps(Init(n, size), steps);
    InvAlways(n, size, steps);
    assert WorkerOk(s, w) && FdOk(s, fd) && PairOk(s, w, fd);
  }

  /** Whatever else the server is doing, every live connection has echoed faithfully,
      and while a read is outstanding it owes nothing but a partial message. */
  lemma EveryConnectionFaithful(n: nat, size: nat, steps: seq<Step>, fd: Fd)
    requires size > 0 && LegalSteps(Init(n, size), steps) && fd in RunSteps(Init(n, size), steps).conns
    ensures var sess := RunSteps(Init(n, size), steps).conns[fd].sess;
            && |sess.buffer| == size && sess.cursor < size && sess.out <= sess.inp
            && (sess.mode == Reading ==> sess.out == sess.inp[..Whole(|sess.inp|, size)])
  {
    var s := RunSteps(Init(n, size), steps);
    InvAlways(n, size, steps);
    assert FdOk(s, fd);
    var sess := s.conns[fd].sess;
    if sess.mode == Reading {
      IdleOutput(sess);
    }
  }

  /** No accepted connection is ever stranded: when the server falls quiet, each open
      connection is installed at its owner with a request in flight. */
  lemma QuietMeansServed(n: nat, size: nat, steps: seq<Step>, fd: Fd)
    requires size > 0 && LegalSteps(Init(n, size), steps)
    requires T.Quiet(RunSteps(Init(n, size), steps)) && fd in RunSteps(Init(n, size), steps).open
    ensures var s := RunSteps(Init(n, size), steps);
            && fd in s.conns && s.conns[fd].owner == s.open[fd]
            && s.conns[fd].sess.cursor < |s.conns[fd].sess.buffer|
            && Pend(s, fd) == [NextReq(s.open[fd], s.conns[fd].sess)]
  {
    var s := RunSteps(Init(n, size), steps);
    InvAlways(n, size, steps);
    T.QuietMeansDrained(n, size, steps);
    assert FdOk(s, fd);
    var w := s.place[fd].w;
    assert s.ws[w] in s.ws && WorkerOk(s, w) && PairOk(s, w, fd);
  }
}
