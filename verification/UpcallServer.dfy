/**
 The connection table and the outstanding requests of the upcall echo server
 (event-tester/upcall.c), for any number of workers. A handler runs to its end before
 its worker does anything else, but other workers run in between, in particular between
 the two halves of `on_close`.
 */
module UpcallServer {
  /** A request, and what comes back for it: a new connection or a failed accept, or the
      result of a read or a write. */
  datatype Req = Accept | Io(fd: nat, write: bool)
  datatype Event = NewConn(fd: nat) | NoConn | Done(fd: nat, write: bool, result: int)

  /** A worker dispatches events, or has cleared a slot and not yet closed the fd. */
  datatype Pc = Run | Closing(fd: nat)

  /** `queue` is libupcall's `work`, `kernel` what has been submitted and not completed,
      `inbox` the delivered events not yet handled. */
  datatype Worker = Worker(pc: Pc, queue: seq<Req>, kernel: seq<Req>, inbox: seq<Event>)

  /** Where an open connection is; history. */
  datatype Place = Arriving(w: nat) | Live(w: nat) | Leaving(w: nat)

  /** `table` is conns[], with the worker whose handlers use the entry. `failed` are the
      live connections whose last request came back with a negative result: the handler
      only prints that, and asks for nothing more. */
  datatype State = State(
    ws: seq<Worker>, table: map<nat, nat>, open: set<nat>, failed: set<nat>, place: map<nat, Place>, crashed: bool)

  /** In Handle, `full` says whether the transfer completes the message. */
  datatype Step =
    | Connect(w: nat, i: nat, fd: nat)
    | Refuse(w: nat, i: nat)
    | Transfer(w: nat, i: nat, result: int)
    | Submit(w: nat)
    | Handle(w: nat, full: bool)
    | Close(w: nat)

  function Init(n: nat): State {
    State(seq(n, _ => Worker(Run, [Accept], [], [])), map[], {}, {}, map[], false)
  }

  predicate Enabled(s: State, step: Step) {
    step.w < |s.ws| &&
    var me := s.ws[step.w];
    match step
    case Connect(w, i, fd) => i < |me.kernel| && me.kernel[i] == Accept && fd !in s.open
    case Refuse(w, i) => i < |me.kernel| && me.kernel[i] == Accept
    case Transfer(w, i, result) => i < |me.kernel| && me.kernel[i].Io?
    case Submit(w) => me.pc == Run && me.inbox == []
    case Handle(w, full) => me.pc == Run && me.inbox != []
    case Close(w) => me.pc.Closing?
  }

  function Put(s: State, w: nat, me: Worker): State
    requires w < |s.ws|
  {
    s.(ws := s.ws[w := me])
  }

  /** The kernel completes request i of worker w. */
  function Complete(s: State, w: nat, i: nat, e: Event): State
    requires w < |s.ws| && i < |s.ws[w].kernel|
  {
    var me := s.ws[w];
    Put(s, w, me.(kernel := me.kernel[..i] + me.kernel[i + 1..], inbox := me.inbox + [e]))
  }

  /** my_read and my_write, as far as the table and the requests are concerned. */
  function OnDone(s: State, w: nat, me: Worker, fd: nat, write: bool, result: int, full: bool): State
    requires w < |s.ws|
  {
    if fd !in s.table then s.(crashed := true)
    else if result == 0 then
      Put(s, w, me.(pc := Closing(fd))).(table := s.table - {fd}, place := s.place[fd := Leaving(w)])
    else if result < 0 then Put(s, w, me).(failed := s.failed + {fd})
    else Put(s, w, me.(queue := me.queue + [Io(fd, if full then !write else write)]))
  }

  function HandleNext(s: State, w: nat, full: bool): State
    requires Enabled(s, Handle(w, full))
  {
    var me := s.ws[w].(inbox := s.ws[w].inbox[1..]);
    match s.ws[w].inbox[0]
    case NewConn(fd) =>
      Put(s, w, me.(queue := me.queue + [Io(fd, false)] + [Accept]))
        .(table := s.table[fd := w], place := s.place[fd := Live(w)])
    case NoConn => Put(s, w, me.(queue := me.queue + [Accept]))
    case Done(fd, write, result) => OnDone(s, w, me, fd, write, result, full)
  }

  function Next(s: State, step: Step): State
    requires Enabled(s, step)
  {
    var me := s.ws[step.w];
    match step
    case Connect(w, i, fd) =>
      Complete(s, w, i, NewConn(fd)).(open := s.open + {fd}, place := s.place[fd := Arriving(w)])
    case Refuse(w, i) => Complete(s, w, i, NoConn)
    case Transfer(w, i, result) => Complete(s, w, i, Done(me.kernel[i].fd, me.kernel[i].write, result))
    case Submit(w) => Put(s, w, me.(kernel := me.kernel + me.queue, queue := []))
    case Handle(w, full) => HandleNext(s, w, full)
    case Close(w) =>
      var fd := me.pc.fd;
      Put(s, w, me.(pc := Run)).(open := s.open - {fd}, place := s.place - {fd}, failed := s.failed - {fd})
  }

  /** Requests for transfers on fd, and accepts. */
  function Ios(q: seq<Req>, fd: nat): nat {
    multiset(q)[Io(fd, false)] + multiset(q)[Io(fd, true)]
  }

  function Accepts(q: seq<Req>): nat {
    multiset(q)[Accept]
  }

  /** Delivered results of transfers on fd, new connections fd, and accept results. */
  function Dones(q: seq<Event>, fd: nat): nat {
    if q == [] then 0 else (if q[0].Done? && q[0].fd == fd then 1 else 0) + Dones(q[1..], fd)
  }

  function News(q: seq<Event>, fd: nat): nat {
    if q == [] then 0 else (if q[0] == NewConn(fd) then 1 else 0) + News(q[1..], fd)
  }

  function Answers(q: seq<Event>): nat {
    if q == [] then 0 else (if q[0].Done? then 0 else 1) + Answers(q[1..])
  }

  lemma AppendReq(p: seq<Req>, q: seq<Req>, fd: nat)
    ensures Ios(p + q, fd) == Ios(p, fd) + Ios(q, fd) && Accepts(p + q) == Accepts(p) + Accepts(q)
  {
    assert multiset(p + q) == multiset(p) + multiset(q);
  }

  lemma OneReq(r: Req, fd: nat)
    ensures Ios([r], fd) == (if r.Io? && r.fd == fd then 1 else 0) && Accepts([r]) == if r == Accept then 1 else 0
  {
    assert multiset([r]) == multiset{r};
  }

  lemma RemoveReq(q: seq<Req>, i: nat, fd: nat)
    requires i < |q|
    ensures Ios(q[..i] + q[i + 1..], fd) == Ios(q, fd) - Ios([q[i]], fd)
    ensures Accepts(q[..i] + q[i + 1..]) == Accepts(q) - Accepts([q[i]])
  {
    assert q == (q[..i] + [q[i]]) + q[i + 1..];
    AppendReq(q[..i] + [q[i]], q[i + 1..], fd);
    AppendReq(q[..i], [q[i]], fd);
    AppendReq(q[..i], q[i + 1..], fd);
  }

  lemma {:induction false} AppendEvent(q: seq<Event>, e: Event, fd: nat)
    ensures Dones(q + [e], fd) == Dones(q, fd) + if e.Done? && e.fd == fd then 1 else 0
    ensures News(q + [e], fd) == News(q, fd) + if e == NewConn(fd) then 1 else 0
    ensures Answers(q + [e]) == Answers(q) + if e.Done? then 0 else 1
  {
    if q == [] {
      assert q + [e] == [e];
    } else {
      assert (q + [e])[1..] == q[1..] + [e];
      AppendEvent(q[1..], e, fd);
    }
  }

  /** Requests of worker x about fd, wherever they are. */
  function Outstanding(x: Worker, fd: nat): nat {
    Ios(x.queue, fd) + Ios(x.kernel, fd) + Dones(x.inbox, fd)
  }

  function Accepting(x: Worker): nat {
    Accepts(x.queue) + Accepts(x.kernel) + Answers(x.inbox)
  }

  predicate At(s: State, fd: nat, p: Place) {
    fd in s.place && s.place[fd] == p
  }

  /** A worker has one request for each live connection of its own that has not failed,
      and none for any other fd; it is told once of a connection that arrives for it; and
      it is closing what it is recorded to be closing. */
  ghost predicate PairOk(s: State, w: nat, fd: nat)
    requires w < |s.ws|
  {
    && Outstanding(s.ws[w], fd) == (if At(s, fd, Live(w)) && fd !in s.failed then 1 else 0)
    && News(s.ws[w].inbox, fd) == (if At(s, fd, Arriving(w)) then 1 else 0)
    && (s.ws[w].pc == Closing(fd) <==> At(s, fd, Leaving(w)))
  }

  ghost predicate FdOk(s: State, fd: nat) {
    && (fd in s.open <==> fd in s.place)
    && (fd in s.table <==> fd in s.place && s.place[fd].Live?)
    && (fd in s.table ==> s.place[fd] == Live(s.table[fd]) && s.table[fd] < |s.ws|)
    && (fd in s.failed ==> fd in s.table)
    && (fd in s.place ==> s.place[fd].w < |s.ws|)
  }

  ghost predicate Inv(s: State) {
    && !s.crashed
    && (forall w: nat :: w < |s.ws| ==> Accepting(s.ws[w]) == 1)
    && (forall fd: nat :: FdOk(s, fd))
    && (forall w: nat, fd: nat :: w < |s.ws| ==> PairOk(s, w, fd))
  }

  lemma CompleteCounts(x: Worker, i: nat, e: Event, fd: nat)
    requires i < |x.kernel|
    ensures var y := x.(kernel := x.kernel[..i] + x.kernel[i + 1..], inbox := x.inbox + [e]);
            && Outstanding(y, fd) ==
                 Outstanding(x, fd) - Ios([x.kernel[i]], fd) + (if e.Done? && e.fd == fd then 1 else 0)
            && News(y.inbox, fd) == News(x.inbox, fd) + (if e == NewConn(fd) then 1 else 0)
            && Accepting(y) == Accepting(x) - Accepts([x.kernel[i]]) + (if e.Done? then 0 else 1)
  {
    RemoveReq(x.kernel, i, fd);
    AppendEvent(x.inbox, e, fd);
  }

  lemma ConnectPair(s: State, w: nat, i: nat, g: nat, v: nat, fd: nat)
    requires Inv(s) && Enabled(s, Connect(w, i, g)) && v < |s.ws|
    ensures PairOk(Next(s, Connect(w, i, g)), v, fd) && Accepting(Next(s, Connect(w, i, g)).ws[v]) == 1
  {
    assert PairOk(s, v, fd) && FdOk(s, fd) && Accepting(s.ws[v]) == 1;
    CompleteCounts(s.ws[w], i, NewConn(g), fd);
    OneReq(Accept, fd);
  }

  lemma RefusePair(s: State, w: nat, i: nat, v: nat, fd: nat)
    requires Inv(s) && Enabled(s, Refuse(w, i)) && v < |s.ws|
    ensures PairOk(Next(s, Refuse(w, i)), v, fd) && Accepting(Next(s, Refuse(w, i)).ws[v]) == 1
  {
    assert PairOk(s, v, fd) && Accepting(s.ws[v]) == 1;
    CompleteCounts(s.ws[w], i, NoConn, fd);
    OneReq(Accept, fd);
  }

  lemma TransferPair(s: State, w: nat, i: nat, result: int, v: nat, fd: nat)
    requires Inv(s) && Enabled(s, Transfer(w, i, result)) && v < |s.ws|
    ensures PairOk(Next(s, Transfer(w, i, result)), v, fd) && Accepting(Next(s, Transfer(w, i, result)).ws[v]) == 1
  {
    var r := s.ws[w].kernel[i];
    assert PairOk(s, v, fd) && Accepting(s.ws[v]) == 1;
    CompleteCounts(s.ws[w], i, Done(r.fd, r.write, result), fd);
    OneReq(r, fd);
  }

  lemma SubmitPair(s: State, w: nat, v: nat, fd: nat)
    requires Inv(s) && Enabled(s, Submit(w)) && v < |s.ws|
    ensures PairOk(Next(s, Submit(w)), v, fd) && Accepting(Next(s, Submit(w)).ws[v]) == 1
  {
    assert PairOk(s, v, fd) && Accepting(s.ws[v]) == 1;
    AppendReq(s.ws[w].kernel, s.ws[w].queue, fd);
  }

  lemma ClosePair(s: State, w: nat, v: nat, fd: nat)
    requires Inv(s) && Enabled(s, Close(w)) && v < |s.ws|
    ensures PairOk(Next(s, Close(w)), v, fd) && Accepting(Next(s, Close(w)).ws[v]) == 1
  {
    assert PairOk(s, v, fd) && PairOk(s, w, s.ws[w].pc.fd) && PairOk(s, v, s.ws[w].pc.fd) && Accepting(s.ws[v]) == 1;
  }

  /** Queueing a request. */
  lemma Queued(x: Worker, r: Req, fd: nat)
    ensures Outstanding(x.(queue := x.queue + [r]), fd) == Outstanding(x, fd) + Ios([r], fd)
    ensures Accepting(x.(queue := x.queue + [r])) == Accepting(x) + Accepts([r])
    ensures Ios([r], fd) == (if r.Io? && r.fd == fd then 1 else 0) && Accepts([r]) == if r == Accept then 1 else 0
  {
    AppendReq(x.queue, [r], fd);
    OneReq(r, fd);
  }

  /** Taking the first event. */
  lemma PopEvent(x: Worker, fd: nat)
    requires x.inbox != []
    ensures var e, y := x.inbox[0], x.(inbox := x.inbox[1..]);
            && Outstanding(x, fd) == Outstanding(y, fd) + (if e.Done? && e.fd == fd then 1 else 0)
            && News(x.inbox, fd) == News(y.inbox, fd) + (if e == NewConn(fd) then 1 else 0)
            && Accepting(x) == Accepting(y) + (if e.Done? then 0 else 1)
  {
  }

  /** my_accept, on the worker that runs it. */
  function Welcomed(x: Worker, g: nat): Worker
    requires x.inbox != []
  {
    x.(inbox := x.inbox[1..], queue := x.queue + [Io(g, false)] + [Accept])
  }

  lemma WelcomedCounts(x: Worker, g: nat, fd: nat)
    requires x.inbox != [] && x.inbox[0] == NewConn(g)
    ensures var y := Welcomed(x, g);
            && Outstanding(y, fd) == Outstanding(x, fd) + (if g == fd then 1 else 0)
            && News(y.inbox, fd) == News(x.inbox, fd) - (if g == fd then 1 else 0)
            && Accepting(y) == Accepting(x)
  {
    var me := x.(inbox := x.inbox[1..]);
    PopEvent(x, fd);
    Queued(me, Io(g, false), fd);
    Queued(me.(queue := me.queue + [Io(g, false)]), Accept, fd);
  }

  lemma NewConnPair(s: State, w: nat, full: bool, v: nat, fd: nat)
    requires Inv(s) && Enabled(s, Handle(w, full)) && s.ws[w].inbox[0].NewConn? && v < |s.ws|
    ensures PairOk(HandleNext(s, w, full), v, fd) && Accepting(HandleNext(s, w, full).ws[v]) == 1
  {
    var g, t := s.ws[w].inbox[0].fd, HandleNext(s, w, full);
    var y := Welcomed(s.ws[w], g);
    assert PairOk(s, v, fd) && PairOk(s, w, g) && FdOk(s, g) && Accepting(s.ws[v]) == 1;
    WelcomedCounts(s.ws[w], g, fd);
    WelcomedCounts(s.ws[w], g, g);
    assert t == s.(ws := s.ws[w := y], table := s.table[g := w], place := s.place[g := Live(w)]);
    WelcomedPair(s, w, g, y, v, fd);
  }

  lemma WelcomedPair(s: State, w: nat, g: nat, y: Worker, v: nat, fd: nat)
    requires w < |s.ws| && v < |s.ws| && PairOk(s, v, fd) && Accepting(s.ws[v]) == 1
    requires At(s, g, Arriving(w)) && FdOk(s, g) && y.pc == s.ws[w].pc && Accepting(y) == Accepting(s.ws[w])
    requires Outstanding(y, fd) == Outstanding(s.ws[w], fd) + (if g == fd then 1 else 0)
    requires News(y.inbox, fd) == News(s.ws[w].inbox, fd) - (if g == fd then 1 else 0)
    ensures var t := s.(ws := s.ws[w := y], table := s.table[g := w], place := s.place[g := Live(w)]);
            PairOk(t, v, fd) && Accepting(t.ws[v]) == 1
  {
  }

  lemma NoConnPair(s: State, w: nat, full: bool, v: nat, fd: nat)
    requires Inv(s) && Enabled(s, Handle(w, full)) && s.ws[w].inbox[0].NoConn? && v < |s.ws|
    ensures PairOk(HandleNext(s, w, full), v, fd) && Accepting(HandleNext(s, w, full).ws[v]) == 1
  {
    var me := s.ws[w].(inbox := s.ws[w].inbox[1..]);
    assert PairOk(s, v, fd) && Accepting(s.ws[v]) == 1;
    PopEvent(s.ws[w], fd);
    Queued(me, Accept, fd);
    assert HandleNext(s, w, full) == Put(s, w, me.(queue := me.queue + [Accept]));
  }

  /** The result of a transfer finds a live connection of the worker's own. */
  lemma DoneLive(s: State, w: nat)
    requires Inv(s) && w < |s.ws| && s.ws[w].inbox != [] && s.ws[w].inbox[0].Done?
    ensures var g := s.ws[w].inbox[0].fd; g in s.table && s.table[g] == w && g !in s.failed && g in s.open
  {
    var g := s.ws[w].inbox[0].fd;
    assert PairOk(s, w, g) && FdOk(s, g);
  }

  lemma DonePair(s: State, w: nat, full: bool, v: nat, fd: nat)
    requires Inv(s) && Enabled(s, Handle(w, full)) && s.ws[w].inbox[0].Done? && v < |s.ws|
    ensures PairOk(HandleNext(s, w, full), v, fd) && Accepting(HandleNext(s, w, full).ws[v]) == 1
  {
    var me, e := s.ws[w].(inbox := s.ws[w].inbox[1..]), s.ws[w].inbox[0];
    DoneLive(s, w);
    PopEvent(s.ws[w], fd);
    assert PairOk(s, v, fd) && PairOk(s, v, e.fd) && Accepting(s.ws[v]) == 1;
    assert FdOk(s, fd) && FdOk(s, e.fd);
    assert HandleNext(s, w, full) == OnDone(s, w, me, e.fd, e.write, e.result, full);
    OnDonePair(s, w, me, e.fd, e.write, e.result, full, v, fd);
  }

  /** A transfer on g was just taken from the worker's events: `me` is the worker without it. */
  ghost predicate JustTaken(s: State, w: nat, me: Worker, g: nat, v: nat, fd: nat) {
    && w < |s.ws| && v < |s.ws| && me == s.ws[w].(inbox := me.inbox) && me.pc == Run
    && PairOk(s, v, fd) && PairOk(s, v, g) && Accepting(s.ws[v]) == 1 && FdOk(s, fd) && FdOk(s, g)
    && g in s.table && s.table[g] == w && g !in s.failed
    && Outstanding(s.ws[w], fd) == Outstanding(me, fd) + (if g == fd then 1 else 0)
    && News(s.ws[w].inbox, fd) == News(me.inbox, fd) && Accepting(s.ws[w]) == Accepting(me)
  }

  lemma OnDonePair(s: State, w: nat, me: Worker, g: nat, write: bool, result: int, full: bool, v: nat, fd: nat)
    requires JustTaken(s, w, me, g, v, fd)
    ensures PairOk(OnDone(s, w, me, g, write, result, full), v, fd)
    ensures Accepting(OnDone(s, w, me, g, write, result, full).ws[v]) == 1
  {
    if result > 0 {
      Queued(me, Io(g, if full then !write else write), fd);
    } else if result == 0 {
      assert Outstanding(me.(pc := Closing(g)), fd) == Outstanding(me, fd);
    }
  }

  lemma FdStep(s: State, step: Step, fd: nat)
    requires Inv(s) && Enabled(s, step)
    ensures FdOk(Next(s, step), fd) && !Next(s, step).crashed
  {
    var w := step.w;
    assert FdOk(s, fd);
    match step
    case Handle(_, full) =>
      match s.ws[w].inbox[0] {
        case NewConn(g) => assert PairOk(s, w, g) && FdOk(s, g);
        case NoConn =>
        case Done(g, _, _) => DoneLive(s, w);
      }
    case Close(_) => assert PairOk(s, w, s.ws[w].pc.fd);
    case _ =>
  }

  lemma PairStep(s: State, step: Step, v: nat, fd: nat)
    requires Inv(s) && Enabled(s, step) && v < |s.ws|
    ensures v < |Next(s, step).ws| && PairOk(Next(s, step), v, fd) && Accepting(Next(s, step).ws[v]) == 1
  {
    match step
    case Submit(w) => SubmitPair(s, w, v, fd);
    case Close(w) => ClosePair(s, w, v, fd);
    case Handle(w, full) =>
      match s.ws[w].inbox[0] {
        case NewConn(_) => NewConnPair(s, w, full, v, fd);
        case NoConn => NoConnPair(s, w, full, v, fd);
        case Done(_, _, _) => DonePair(s, w, full, v, fd);
      }
    case Connect(w, i, g) => ConnectPair(s, w, i, g, v, fd);
    case Refuse(w, i) => RefusePair(s, w, i, v, fd);
    case Transfer(w, i, result) => TransferPair(s, w, i, result, v, fd);
  }

  lemma InvStep(s: State, step: Step)
    requires Inv(s) && Enabled(s, step)
    ensures Inv(Next(s, step)) && |Next(s, step).ws| == |s.ws|
  {
    var t := Next(s, step);
    assert |t.ws| == |s.ws|;
    forall fd: nat ensures FdOk(t, fd) && !t.crashed {
      FdStep(s, step, fd);
    }
    forall v: nat, fd: nat | v < |s.ws| ensures PairOk(t, v, fd) {
      PairStep(s, step, v, fd);
    }
    forall v: nat | v < |s.ws| ensures Accepting(t.ws[v]) == 1 {
      PairStep(s, step, v, 0);
    }
    FdStep(s, step, 0);
  }

  ghost predicate LegalSteps(s: State, steps: seq<Step>)
    decreases |steps|, 0
  {
    steps == [] ||
    (LegalSteps(s, steps[..|steps| - 1]) && Enabled(RunSteps(s, steps[..|steps| - 1]), steps[|steps| - 1]))
  }

  ghost function RunSteps(s: State, steps: seq<Step>): State
    requires LegalSteps(s, steps)
    decreases |steps|, 1
  {
    if steps == [] then s else Next(RunSteps(s, steps[..|steps| - 1]), steps[|steps| - 1])
  }

  lemma {:induction false} InvAlways(n: nat, steps: seq<Step>)
    requires LegalSteps(Init(n), steps)
    ensures Inv(RunSteps(Init(n), steps)) && |RunSteps(Init(n), steps).ws| == n
  {
    if steps == [] {
      forall w: nat, fd: nat | w < n ensures Accepting(Init(n).ws[w]) == 1 && PairOk(Init(n), w, fd) {
        OneReq(Accept, fd);
      }
    } else {
      InvAlways(n, steps[..|steps| - 1]);
      InvStep(RunSteps(Init(n), steps[..|steps| - 1]), steps[|steps| - 1]);
    }
  }

  /** In every interleaving: an occupied slot belongs to an open fd; an fd that has been
      accepted and not yet installed, or cleared and not yet closed, has an empty slot;
      and the result of a transfer always finds a slot that the same worker filled. */
  lemma TableSafety(n: nat, steps: seq<Step>, fd: nat, w: nat)
    requires LegalSteps(Init(n), steps) && w < n
    ensures var s := RunSteps(Init(n), steps);
            && |s.ws| == n && !s.crashed && (fd in s.table ==> fd in s.open && s.table[fd] < n)
            && (News(s.ws[w].inbox, fd) > 0 || s.ws[w].pc == Closing(fd) ==> fd in s.open && fd !in s.table)
            && (Dones(s.ws[w].inbox, fd) > 0 ==> fd in s.table && s.table[fd] == w)
  {
    InvAlways(n, steps);
    var s := RunSteps(Init(n), steps);
    assert FdOk(s, fd) && PairOk(s, w, fd);
  }

  /** One request per connection: a live connection has exactly one read or write queued,
      submitted or delivered, at the worker that installed it, unless its last result was
      negative, and then none; other fds have none anywhere; and every worker has exactly
      one accept. So no two results of one batch are for the same connection. */
  lemma OneRequest(n: nat, steps: seq<Step>, fd: nat, w: nat)
    requires LegalSteps(Init(n), steps) && w < n
    ensures var s := RunSteps(Init(n), steps);
            && |s.ws| == n && Accepting(s.ws[w]) == 1
            && Outstanding(s.ws[w], fd) ==
                 (if fd in s.table && s.table[fd] == w && fd !in s.failed then 1 else 0)
            && Dones(s.ws[w].inbox, fd) <= 1
  {
    InvAlways(n, steps);
    var s := RunSteps(Init(n), steps);
    assert FdOk(s, fd) && PairOk(s, w, fd) && Accepting(s.ws[w]) == 1;
  }
}
