/**
 Token accounting for the cross-worker handoff of the io_uring server: no wakeup is
 lost and an EV_READ is always outstanding, although it is re-armed once per
 drained connection rather than once per wakeup (event-tester/iouring.c:295-319).
 */
module IoUringTokens {
  import opened Echo
  import opened IoUring

  /** EV_READ completions waiting in a completion queue, and the notifications
      they carry. */
  function EvCount(cq: seq<Cqe>): nat {
    if cq == [] then 0 else (if cq[0].CEvRead? then 1 else 0) + EvCount(cq[1..])
  }

  function EvSum(cq: seq<Cqe>): nat {
    if cq == [] then 0 else (if cq[0].CEvRead? then cq[0].value else 0) + EvSum(cq[1..])
  }

  lemma {:induction false} EvAppend(cq: seq<Cqe>, c: Cqe)
    ensures EvCount(cq + [c]) == EvCount(cq) + (if c.CEvRead? then 1 else 0)
    ensures EvSum(cq + [c]) == EvSum(cq) + (if c.CEvRead? then c.value else 0)
  {
    if cq == [] {
      assert cq + [c] == [c];
    } else {
      assert (cq + [c])[1..] == cq[1..] + [c];
      EvAppend(cq[1..], c);
    }
  }

  /** Workers that pushed a connection to o's list and have not queued its EV_WRITE. */
  function Unsent(ws: seq<Worker>, o: Wid): set<Wid> {
    set a: Wid | a < |ws| && ws[a].pc == Pushed(o)
  }

  function InHandler(x: Worker): bool {
    x.pc == Draining || x.pc.Hand?
  }

  /** Each pushed connection is on the list, in hand or drained; each pushed
      connection's notification is unsent, in flight, in the counter, in an unhandled
      completion, or consumed; a completion consumed at least one notification. */
  ghost predicate Balanced(x: Worker, unsent: nat) {
    && x.pushed == x.drained + |x.list| + (if x.pc.Hand? then 1 else 0)
    && x.pushed == unsent + |x.evWrites| + x.counter + EvSum(x.cq) + x.taken
    && (forall c <- x.cq :: c.CEvRead? ==> c.value > 0)
    && x.taken >= x.processed
    && x.evReads + EvCount(x.cq) + x.processed == 1 + x.drained
    && (!InHandler(x) ==> x.taken <= x.drained)
  }

  ghost predicate Tokens(s: State, o: Wid)
    requires o < |s.ws|
  {
    Balanced(s.ws[o], |Unsent(s.ws, o)|)
  }

  ghost predicate AllTokens(s: State) {
    forall o: Wid :: o < |s.ws| ==> Tokens(s, o)
  }

  lemma SetCase(u: set<Wid>, v: set<Wid>, a: Wid)
    requires u - {a} == v - {a}
    ensures |v| == |u| + (if a in v then 1 else 0) - (if a in u then 1 else 0)
  {
    assert u * {a} == if a in u then {a} else {};
    assert v * {a} == if a in v then {a} else {};
    assert |u - {a}| == |u| - |u * {a}| && |v - {a}| == |v| - |v * {a}|;
  }

  lemma UnsentUpdate(s: seq<Worker>, t: seq<Worker>, a: Wid, o: Wid)
    requires a < |s| == |t|
    requires forall b: Wid :: b < |s| && b != a ==> s[b].pc == t[b].pc
    ensures |Unsent(t, o)| == |Unsent(s, o)| + (if t[a].pc == Pushed(o) then 1 else 0)
                                             - (if s[a].pc == Pushed(o) then 1 else 0)
  {
    SetCase(Unsent(s, o), Unsent(t, o), a);
  }

  lemma TokensInit(n: nat, size: nat)
    ensures AllTokens(Init(n, size))
  {
    var s := Init(n, size);
    forall o: Wid | o < n ensures Tokens(s, o) {
      assert Unsent(s.ws, o) == {};
    }
  }

  /** Nothing the accounts mention changes when another kind of completion arrives. */
  lemma OtherCqe(x: Worker, unsent: nat, c: Cqe)
    requires Balanced(x, unsent) && !c.CEvRead?
    ensures Balanced(x.(cq := x.cq + [c]), unsent)
  {
    EvAppend(x.cq, c);
  }

  lemma AcceptTokens(s: State, w: Wid, fd: Fd, cpu: Wid, o: Wid)
    requires AllTokens(s) && Enabled(s, KAccept(w, fd, cpu)) && o < |s.ws|
    ensures |AcceptDone(s, w, fd, cpu).ws| == |s.ws| && Tokens(AcceptDone(s, w, fd, cpu), o)
  {
    assert Tokens(s, o);
    UnsentUpdate(s.ws, AcceptDone(s, w, fd, cpu).ws, w, o);
    OtherCqe(s.ws[o], |Unsent(s.ws, o)|, CAccept(fd));
  }

  lemma EvWriteTokens(s: State, w: Wid, from: Wid, o: Wid)
    requires AllTokens(s) && Enabled(s, KEvWrite(w, from)) && o < |s.ws|
    ensures |EvWriteDone(s, w, from).ws| == |s.ws| && Tokens(EvWriteDone(s, w, from), o)
  {
    assert Tokens(s, o);
    UnsentUpdate(s.ws, EvWriteDone(s, w, from).ws, w, o);
    var x := s.ws[o];
    var y := if o == w then x.(counter := x.counter + 1, evWrites := x.evWrites - multiset{from}) else x;
    assert Balanced(y, |Unsent(s.ws, o)|);
    OtherCqe(y, |Unsent(s.ws, o)|, CEvWrite);
  }

  lemma EvReadTokens(s: State, w: Wid, o: Wid)
    requires AllTokens(s) && Enabled(s, KEvRead(w)) && o < |s.ws|
    ensures |EvReadDone(s, w).ws| == |s.ws| && Tokens(EvReadDone(s, w), o)
  {
    assert Tokens(s, o);
    UnsentUpdate(s.ws, EvReadDone(s, w).ws, w, o);
    EvAppend(s.ws[w].cq, CEvRead(s.ws[w].counter));
  }

  lemma TransferTokens(s: State, step: Step, o: Wid)
    requires AllTokens(s) && Enabled(s, step) && (step.KRead? || step.KWrite?) && o < |s.ws|
    ensures Tokens(Next(s, step), o)
  {
    assert Tokens(s, o);
    var c := if step.KRead? then CRead(step.fd, step.data) else CWrite(step.fd, step.n);
    UnsentUpdate(s.ws, Next(s, step).ws, Pend(s, step.fd)[step.i].ring, o);
    OtherCqe(s.ws[o], |Unsent(s.ws, o)|, c);
  }

  lemma OnAcceptTokens(s: State, w: Wid, fd: Fd, o: Wid)
    requires w < |s.ws| && o < |s.ws| && s.ws[w].pc == Loop && Tokens(s, o)
    ensures |OnAccept(s, w, fd).ws| == |s.ws| && Tokens(OnAccept(s, w, fd), o)
  {
    var x := s.ws[w];
    var pc := if fd in s.open && s.open[fd] != w then Accepted(fd) else Loop;
    var more := if fd in s.open && s.open[fd] == w then 1 else 0;
    assert OnAccept(s, w, fd).ws == s.ws[w := x.(pc := pc, accepts := x.accepts + more)] by {
      if more == 0 && pc == Loop {
        assert s.ws[w := x] == s.ws;
      }
    }
    UnsentUpdate(s.ws, OnAccept(s, w, fd).ws, w, o);
  }

  lemma OnReadTokens(s: State, w: Wid, fd: Fd, data: seq<byte>, o: Wid)
    requires w < |s.ws| && o < |s.ws| && s.ws[w].pc == Loop && Tokens(s, o)
    ensures |OnRead(s, w, fd, data).ws| == |s.ws| && Tokens(OnRead(s, w, fd, data), o)
  {
    UnsentUpdate(s.ws, OnRead(s, w, fd, data).ws, w, o);
  }

  lemma OnWriteTokens(s: State, w: Wid, fd: Fd, n: nat, o: Wid)
    requires w < |s.ws| && o < |s.ws| && s.ws[w].pc == Loop && Tokens(s, o)
    ensures |OnWrite(s, w, fd, n).ws| == |s.ws| && Tokens(OnWrite(s, w, fd, n), o)
  {
    UnsentUpdate(s.ws, OnWrite(s, w, fd, n).ws, w, o);
  }

  lemma OnEvReadTokens(s: State, w: Wid, o: Wid)
    requires AllTokens(s) && Enabled(s, WTake(w)) && s.ws[w].cq[0].CEvRead? && o < |s.ws|
    ensures Tokens(OnEvRead(PopCqe(s, w), w, s.ws[w].cq[0].value), o)
  {
    assert Tokens(s, o);
    UnsentUpdate(s.ws, OnEvRead(PopCqe(s, w), w, s.ws[w].cq[0].value).ws, w, o);
  }

  lemma PopCqeTokens(s: State, w: Wid, o: Wid)
    requires AllTokens(s) && Enabled(s, WTake(w)) && !s.ws[w].cq[0].CEvRead? && o < |s.ws|
    ensures Tokens(PopCqe(s, w), o)
  {
    assert Tokens(s, o);
    UnsentUpdate(s.ws, PopCqe(s, w).ws, w, o);
  }

  lemma TakeTokens(s: State, w: Wid, o: Wid)
    requires AllTokens(s) && Enabled(s, WTake(w)) && o < |s.ws|
    ensures Tokens(Take(s, w), o)
  {
    var s' := PopCqe(s, w);
    if s.ws[w].cq[0].CEvRead? {
      OnEvReadTokens(s, w, o);
    } else {
      PopCqeTokens(s, w, o);
      match s.ws[w].cq[0]
      case CAccept(fd) => OnAcceptTokens(s', w, fd, o);
      case CEvWrite =>
      case CRead(fd, data) => OnReadTokens(s', w, fd, data, o);
      case CWrite(fd, n) => OnWriteTokens(s', w, fd, n, o);
    }
  }

  lemma PushTokens(s: State, w: Wid, o: Wid)
    requires AllTokens(s) && Enabled(s, WPush(w)) && o < |s.ws|
    ensures |Push(s, w).ws| == |s.ws| && Tokens(Push(s, w), o)
  {
    assert Tokens(s, o);
    UnsentUpdate(s.ws, Push(s, w).ws, w, o);
  }

  lemma NotifyTokens(s: State, w: Wid, o: Wid)
    requires AllTokens(s) && Enabled(s, WNotify(w)) && o < |s.ws|
    ensures |Notify(s, w).ws| == |s.ws| && Tokens(Notify(s, w), o)
  {
    assert Tokens(s, o);
    UnsentUpdate(s.ws, Notify(s, w).ws, w, o);
  }

  lemma OwnTokens(s: State, step: Step, o: Wid)
    requires AllTokens(s) && Enabled(s, step) && o < |s.ws|
    requires step.WPop? || step.WInstall? || step.WDrained? || step.WClose?
    ensures Tokens(Next(s, step), o)
  {
    assert Tokens(s, o);
    UnsentUpdate(s.ws, Next(s, step).ws, step.w, o);
  }

  lemma TokensStepAt(s: State, step: Step, o: Wid)
    requires AllTokens(s) && Enabled(s, step) && o < |s.ws|
    ensures |Next(s, step).ws| == |s.ws| && Tokens(Next(s, step), o)
  {
    match step
    case KAccept(w, fd, cpu) => AcceptTokens(s, w, fd, cpu, o);
    case KEvWrite(w, from) => EvWriteTokens(s, w, from, o);
    case KEvRead(w) => EvReadTokens(s, w, o);
    case KRead(_, _, _) => TransferTokens(s, step, o);
    case KWrite(_, _, _) => TransferTokens(s, step, o);
    case WTake(w) => TakeTokens(s, w, o);
    case WPush(w) => PushTokens(s, w, o);
    case WNotify(w) => NotifyTokens(s, w, o);
    case _ => OwnTokens(s, step, o);
  }

  lemma TokensStep(s: State, step: Step)
    requires AllTokens(s) && Enabled(s, step)
    ensures |Next(s, step).ws| == |s.ws| && AllTokens(Next(s, step))
  {
    var t := Next(s, step);
    assert |t.ws| == |s.ws|;
    forall o: Wid | o < |s.ws| ensures Tokens(t, o) {
      TokensStepAt(s, step, o);
    }
  }

  /** In every interleaving of any number of workers: outside its EV_READ handler a
      worker has an EV_READ in flight or completed, exactly 1 + drained - processed of
      them; and what is left on its list is covered by notifications still to come. */
  lemma {:induction false} EvReadOutstanding(n: nat, size: nat, steps: seq<Step>)
    requires LegalSteps(Init(n, size), steps)
    ensures var s := RunSteps(Init(n, size), steps);
            && |s.ws| == n && AllTokens(s)
            && forall o: Wid :: o < n ==>
                 var x := s.ws[o];
                 && x.evReads + EvCount(x.cq) == 1 + x.drained - x.processed
                 && (!InHandler(x) ==> x.drained >= x.processed && x.evReads + EvCount(x.cq) >= 1)
                 && (!InHandler(x) ==> |x.list| <= |Unsent(s.ws, o)| + |x.evWrites| + x.counter + EvSum(x.cq))
  {
    var s := RunSteps(Init(n, size), steps);
    if steps == [] {
      TokensInit(n, size);
    } else {
      var steps' := steps[..|steps| - 1];
      EvReadOutstanding(n, size, steps');
      TokensStep(RunSteps(Init(n, size), steps'), steps[|steps| - 1]);
    }
    forall o: Wid | o < n
      ensures var x := s.ws[o];
              && x.evReads + EvCount(x.cq) == 1 + x.drained - x.processed
              && (!InHandler(x) ==> x.drained >= x.processed && x.evReads + EvCount(x.cq) >= 1)
              && (!InHandler(x) ==> |x.list| <= |Unsent(s.ws, o)| + |x.evWrites| + x.counter + EvSum(x.cq))
    {
      assert Tokens(s, o);
    }
  }

  /** No internal activity is possible: every worker waits for a completion and the
      kernel can complete neither a notification nor an EV_READ. */
  ghost predicate Quiet(s: State) {
    forall w: Wid :: w < |s.ws| ==>
      && s.ws[w].pc == Loop && s.ws[w].cq == [] && s.ws[w].evWrites == multiset{}
      && !(s.ws[w].evReads > 0 && s.ws[w].counter > 0)
  }

  /** No lost wakeup: the server only falls quiet when every list is empty. */
  lemma QuietMeansDrained(n: nat, size: nat, steps: seq<Step>)
    requires LegalSteps(Init(n, size), steps) && Quiet(RunSteps(Init(n, size), steps))
    ensures forall x <- RunSteps(Init(n, size), steps).ws :: x.list == []
  {
    EvReadOutstanding(n, size, steps);
    var s := RunSteps(Init(n, size), steps);
    forall o: Wid | o < |s.ws| ensures s.ws[o].list == [] {
      assert Tokens(s, o);
      assert Unsent(s.ws, o) == {};
    }
  }
}
