/**
 How event-tester/epoll.c hands connections from the worker that accepts them to the
 worker that owns them: the locked list, the eventfd, and the fd-indexed table, for any
 number of workers interleaved step by step. A critical section is one step. The fd
 numbers, owners and readiness reports are the kernel's to choose.
 */
module EpollHandoff {
  /** What epoll_wait reports. */
  datatype Event = Listen | Wakeup | Readable(fd: nat)

  /** Where a worker is: in epoll_wait; about to handle the next event of its batch; in
      `on_accept`, about to call accept4, holding a new fd, or having pushed it; in
      `handle_new_conns`, about to test the list, or holding an fd it took off; in
      `on_close`, with the slot cleared and the fd still open. */
  datatype Pc =
    | Wait | Handle | Accept | Push(fd: nat, owner: nat) | Notify(owner: nat)
    | Drain | Install(fd: nat) | Close(fd: nat)

  datatype Worker = Worker(pc: Pc, batch: seq<Event>, list: seq<nat>, efd: nat)

  /** `table[fd]` is the worker that installed conns[fd]; its epoll set is the fds it has
      installed. `owner` is history: for whom an open fd was accepted. */
  datatype State = State(ws: seq<Worker>, table: map<nat, nat>, open: set<nat>, owner: map<nat, nat>)

  datatype Step =
    | EpollWait(w: nat, events: seq<Event>)
    | Dispatch(w: nat, closes: bool)
    | Accepted(w: nat, fd: nat, owner: nat)
    | NoMore(w: nat)
    | Pushed(w: nat)
    | Notified(w: nat)
    | Popped(w: nat)
    | Drained(w: nat)
    | Installed(w: nat)
    | Closed(w: nat)

  function Init(n: nat): State {
    State(seq(n, _ => Worker(Wait, [], [], 0)), map[], {}, map[])
  }

  predicate Ready(s: State, w: nat, e: Event)
    requires w < |s.ws|
  {
    match e
    case Listen => true
    case Wakeup => s.ws[w].efd > 0
    case Readable(fd) => fd in s.table && s.table[fd] == w
  }

  predicate Enabled(s: State, step: Step) {
    step.w < |s.ws| &&
    var me := s.ws[step.w];
    match step
    case EpollWait(w, events) =>
      && me.pc == Wait && events != []
      && (forall e <- events :: Ready(s, w, e))
      && (forall i, j :: 0 <= i < j < |events| ==> events[i] != events[j])
    case Dispatch(w, closes) => me.pc == Handle
    case Accepted(w, fd, owner) => me.pc == Accept && fd !in s.open && owner < |s.ws|
    case NoMore(w) => me.pc == Accept
    case Pushed(w) => me.pc.Push? && me.pc.owner < |s.ws|
    case Notified(w) => me.pc.Notify? && me.pc.owner < |s.ws|
    case Popped(w) => me.pc == Drain && me.list != []
    case Drained(w) => me.pc == Drain && me.list == []
    case Installed(w) => me.pc.Install?
    case Closed(w) => me.pc.Close?
  }

  function Goto(s: State, w: nat, pc: Pc): State
    requires w < |s.ws|
  {
    s.(ws := s.ws[w := s.ws[w].(pc := pc)])
  }

  /** Take the next event of the batch. A readable connection is read, and closed if the
      peer is gone: its slot first. */
  function DispatchNext(s: State, w: nat, closes: bool): State
    requires w < |s.ws|
  {
    var me := s.ws[w];
    if me.batch == [] then Goto(s, w, Wait)
    else
      var t := me.(batch := me.batch[1..]);
      match me.batch[0]
      case Listen => s.(ws := s.ws[w := t.(pc := Accept)])
      case Wakeup => s.(ws := s.ws[w := if me.efd > 0 then t.(efd := 0, pc := Drain) else t])
      case Readable(fd) =>
        if closes then s.(ws := s.ws[w := t.(pc := Close(fd))], table := s.table - {fd}) else s.(ws := s.ws[w := t])
  }

  function PushNext(s: State, w: nat): State
    requires Enabled(s, Pushed(w))
  {
    var fd, o := s.ws[w].pc.fd, s.ws[w].pc.owner;
    var t := Goto(s, w, Notify(o));
    t.(ws := t.ws[o := t.ws[o].(list := [fd] + t.ws[o].list)])
  }

  function NotifyNext(s: State, w: nat): State
    requires Enabled(s, Notified(w))
  {
    var o := s.ws[w].pc.owner;
    var t := Goto(s, w, Accept);
    t.(ws := t.ws[o := t.ws[o].(efd := t.ws[o].efd + 1)])
  }

  function Next(s: State, step: Step): State
    requires Enabled(s, step)
  {
    var me := s.ws[step.w];
    match step
    case EpollWait(w, events) => s.(ws := s.ws[w := me.(pc := Handle, batch := events)])
    case Dispatch(w, closes) => DispatchNext(s, w, closes)
    case Accepted(w, fd, owner) => Goto(s, w, Push(fd, owner)).(open := s.open + {fd}, owner := s.owner[fd := owner])
    case NoMore(w) => Goto(s, w, Handle)
    case Pushed(w) => PushNext(s, w)
    case Notified(w) => NotifyNext(s, w)
    case Popped(w) => s.(ws := s.ws[w := me.(pc := Install(me.list[0]), list := me.list[1..])])
    case Drained(w) => Goto(s, w, Handle)
    case Installed(w) => Goto(s, w, Drain).(table := s.table[me.pc.fd := w])
    case Closed(w) => Goto(s, w, Handle).(open := s.open - {me.pc.fd})
  }

  /** How often a list holds fd. */
  function Listed(list: seq<nat>, fd: nat): nat {
    if list == [] then 0 else (if list[0] == fd then 1 else 0) + Listed(list[1..], fd)
  }

  /** How often a worker holds fd, in its hand or on its list. */
  function Held(w: Worker, fd: nat): nat {
    Listed(w.list, fd) + if (w.pc.Push? || w.pc.Install? || w.pc.Close?) && w.pc.fd == fd then 1 else 0
  }

  function HeldByAll(ws: seq<Worker>, fd: nat, n: nat): nat
    requires n <= |ws|
  {
    if n == 0 then 0 else HeldByAll(ws, fd, n - 1) + Held(ws[n - 1], fd)
  }

  lemma {:induction false} HeldUpdate(ws: seq<Worker>, i: nat, w: Worker, fd: nat, n: nat)
    requires i < |ws| && n <= |ws|
    ensures HeldByAll(ws[i := w], fd, n) ==
              HeldByAll(ws, fd, n) + if i < n then Held(w, fd) - Held(ws[i], fd) else 0
  {
    if n > 0 {
      HeldUpdate(ws, i, w, fd, n - 1);
    }
  }

  /** In how many places fd is: held by a worker, or in the table. */
  function Places(s: State, fd: nat): nat {
    HeldByAll(s.ws, fd, |s.ws|) + if fd in s.table then 1 else 0
  }

  /** Every open connection is in exactly one place, and no other fd is anywhere. */
  ghost predicate OnePlace(s: State) {
    forall fd: nat :: Places(s, fd) == if fd in s.open then 1 else 0
  }

  /** The events a worker has yet to handle are about connections it has installed, each
      at most once; and an unhandled wakeup means that the counter is positive. */
  ghost predicate BatchOk(s: State, w: nat)
    requires w < |s.ws|
  {
    && (forall e <- s.ws[w].batch :: Ready(s, w, e))
    && (forall i, j :: 0 <= i < j < |s.ws[w].batch| ==> s.ws[w].batch[i] != s.ws[w].batch[j])
  }

  lemma {:induction false} HeldBound(ws: seq<Worker>, i: nat, fd: nat, n: nat)
    requires i < n <= |ws|
    ensures Held(ws[i], fd) <= HeldByAll(ws, fd, n)
  {
    if i < n - 1 {
      HeldBound(ws, i, fd, n - 1);
    }
  }

  lemma PushPlaces(s: State, w: nat, fd: nat)
    requires Enabled(s, Pushed(w))
    ensures Places(Next(s, Pushed(w)), fd) == Places(s, fd)
  {
    var o := s.ws[w].pc.owner;
    var t := Goto(s, w, Notify(o));
    HeldUpdate(s.ws, w, t.ws[w], fd, |s.ws|);
    var list := [s.ws[w].pc.fd] + t.ws[o].list;
    assert list[1..] == t.ws[o].list;
    HeldUpdate(t.ws, o, t.ws[o].(list := list), fd, |s.ws|);
  }

  lemma NotifyPlaces(s: State, w: nat, fd: nat)
    requires Enabled(s, Notified(w))
    ensures Places(Next(s, Notified(w)), fd) == Places(s, fd)
  {
    var o := s.ws[w].pc.owner;
    var t := Goto(s, w, Accept);
    HeldUpdate(s.ws, w, t.ws[w], fd, |s.ws|);
    HeldUpdate(t.ws, o, t.ws[o].(efd := t.ws[o].efd + 1), fd, |s.ws|);
  }

  /** Handling an event moves a connection at most from the table to the closer's hand. */
  lemma DispatchPlaces(s: State, w: nat, closes: bool, fd: nat)
    requires Enabled(s, Dispatch(w, closes)) && BatchOk(s, w)
    ensures Places(DispatchNext(s, w, closes), fd) == Places(s, fd)
  {
    var t := DispatchNext(s, w, closes);
    HeldUpdate(s.ws, w, t.ws[w], fd, |s.ws|);
    assert t.ws == s.ws[w := t.ws[w]];
    if s.ws[w].batch != [] {
      assert Ready(s, w, s.ws[w].batch[0]);
    }
  }

  /** A step of a worker that changes only itself, and what it holds by at most one fd. */
  lemma OwnPlaces(s: State, step: Step, fd: nat)
    requires OnePlace(s) && Enabled(s, step)
    requires !step.Pushed? && !step.Notified? && !step.Dispatch?
    ensures Places(Next(s, step), fd) == if fd in Next(s, step).open then 1 else 0
  {
    var w, t := step.w, Next(s, step);
    assert Places(s, fd) == if fd in s.open then 1 else 0;
    HeldUpdate(s.ws, w, t.ws[w], fd, |s.ws|);
    HeldBound(s.ws, w, fd, |s.ws|);
  }

  lemma PlaceStep(s: State, step: Step, fd: nat)
    requires OnePlace(s) && Enabled(s, step) && BatchOk(s, step.w)
    ensures Places(Next(s, step), fd) == if fd in Next(s, step).open then 1 else 0
  {
    assert Places(s, fd) == if fd in s.open then 1 else 0;
    match step
    case Pushed(w) => PushPlaces(s, w, fd);
    case Notified(w) => NotifyPlaces(s, w, fd);
    case Dispatch(w, closes) => DispatchPlaces(s, w, closes, fd);
    case _ => OwnPlaces(s, step, fd);
  }

  /** A connection is where its owner alone can install it. */
  ghost predicate OwnerOk(s: State, w: nat)
    requires w < |s.ws|
  {
    && (forall fd <- s.ws[w].list :: fd in s.owner && s.owner[fd] == w)
    && (s.ws[w].pc.Install? ==> s.ws[w].pc.fd in s.owner && s.owner[s.ws[w].pc.fd] == w)
    && (s.ws[w].pc.Push? ==> s.ws[w].pc.fd in s.owner && s.owner[s.ws[w].pc.fd] == s.ws[w].pc.owner < |s.ws|)
    && (s.ws[w].pc.Notify? ==> s.ws[w].pc.owner < |s.ws|)
  }

  /** A worker with something on its list that is not draining it is about to be told, or
      has a positive counter. */
  ghost predicate Told(s: State, w: nat)
    requires w < |s.ws|
  {
    s.ws[w].list != [] && s.ws[w].pc != Drain && !s.ws[w].pc.Install? ==>
      s.ws[w].efd > 0 || exists v: nat :: v < |s.ws| && s.ws[v].pc == Notify(w)
  }

  ghost predicate Inv(s: State) {
    && OnePlace(s)
    && (forall w: nat :: w < |s.ws| ==> BatchOk(s, w) && OwnerOk(s, w) && Told(s, w))
    && TableOk(s)
  }

  /** An fd that is being accepted or installed, or is on a list, is not in the table, and
      one that is not open is nowhere. */
  lemma NotInTable(s: State, w: nat, fd: nat)
    requires OnePlace(s) && w < |s.ws| && Held(s.ws[w], fd) > 0
    ensures fd !in s.table && fd in s.open
  {
    HeldBound(s.ws, w, fd, |s.ws|);
    assert Places(s, fd) == if fd in s.open then 1 else 0;
  }

  lemma {:induction false} ListedIn(list: seq<nat>, fd: nat)
    ensures Listed(list, fd) > 0 <==> fd in list
  {
    if list != [] {
      ListedIn(list[1..], fd);
    }
  }

  lemma BatchDispatch(s: State, w: nat, closes: bool, v: nat)
    requires Inv(s) && Enabled(s, Dispatch(w, closes)) && v < |s.ws|
    ensures BatchOk(Next(s, Dispatch(w, closes)), v)
  {
    var t := Next(s, Dispatch(w, closes));
    assert BatchOk(s, v) && BatchOk(s, w);
    if s.ws[w].batch != [] {
      assert Ready(s, w, s.ws[w].batch[0]);
      forall i | 0 <= i < |t.ws[v].batch| ensures Ready(t, v, t.ws[v].batch[i]) {
        var k := if v == w then i + 1 else i;
        assert Ready(s, v, s.ws[v].batch[k]);
        assert v == w ==> s.ws[w].batch[0] != s.ws[w].batch[k];
      }
    }
  }

  lemma BatchStep(s: State, step: Step, v: nat)
    requires Inv(s) && Enabled(s, step) && v < |s.ws|
    ensures BatchOk(Next(s, step), v)
  {
    var w, t := step.w, Next(s, step);
    assert BatchOk(s, v) && BatchOk(s, w);
    if step.Dispatch? {
      BatchDispatch(s, w, step.closes, v);
    } else {
      if step.Installed? {
        NotInTable(s, w, s.ws[w].pc.fd);
      }
      assert t.ws[v].efd >= s.ws[v].efd;
      forall e | e in t.ws[v].batch ensures Ready(t, v, e) {
        assert Ready(s, v, e);
      }
    }
  }

  /** An fd that is newly accepted was not open, so no worker holds it. */
  lemma OwnerAccepted(s: State, w: nat, fd: nat, owner: nat, v: nat)
    requires Inv(s) && Enabled(s, Accepted(w, fd, owner)) && v < |s.ws|
    ensures OwnerOk(Next(s, Accepted(w, fd, owner)), v)
  {
    assert OwnerOk(s, v);
    HeldBound(s.ws, v, fd, |s.ws|);
    assert Places(s, fd) == if fd in s.open then 1 else 0;
    ListedIn(s.ws[v].list, fd);
  }

  lemma OwnerPushed(s: State, w: nat, v: nat)
    requires Inv(s) && Enabled(s, Pushed(w)) && v < |s.ws|
    ensures OwnerOk(Next(s, Pushed(w)), v)
  {
    assert OwnerOk(s, v) && OwnerOk(s, w);
  }

  lemma OwnerDispatch(s: State, w: nat, closes: bool, v: nat)
    requires Enabled(s, Dispatch(w, closes)) && v < |s.ws| && OwnerOk(s, v)
    ensures OwnerOk(DispatchNext(s, w, closes), v)
  {
  }

  lemma OwnerStep(s: State, step: Step, v: nat)
    requires Inv(s) && Enabled(s, step) && v < |s.ws|
    ensures OwnerOk(Next(s, step), v)
  {
    assert OwnerOk(s, v) && OwnerOk(s, step.w);
    match step
    case Accepted(w, fd, owner) => OwnerAccepted(s, w, fd, owner, v);
    case Pushed(w) => OwnerPushed(s, w, v);
    case Dispatch(w, closes) => OwnerDispatch(s, w, closes, v);
    case _ =>
  }

  lemma ToldStep(s: State, step: Step, v: nat)
    requires Inv(s) && Enabled(s, step) && v < |s.ws|
    ensures Told(Next(s, step), v)
  {
    var w, t := step.w, Next(s, step);
    assert Told(s, v) && OwnerOk(s, w);
    if step.Pushed? && s.ws[w].pc.owner == v {
      assert t.ws[w].pc == Notify(v);
    } else if exists u: nat :: u < |s.ws| && s.ws[u].pc == Notify(v) {
      var u: nat :| u < |s.ws| && s.ws[u].pc == Notify(v);
      assert u != w ==> t.ws[u].pc == Notify(v);
    }
  }

  /** conns[fd] is filled by the worker the fd was accepted for. */
  ghost predicate TableOk(s: State) {
    forall fd <- s.table :: fd in s.owner && s.owner[fd] == s.table[fd]
  }

  lemma TableStep(s: State, step: Step)
    requires Inv(s) && Enabled(s, step)
    ensures TableOk(Next(s, step))
  {
    var w, t := step.w, Next(s, step);
    assert OwnerOk(s, w) && BatchOk(s, w);
    forall fd | fd in t.table ensures fd in t.owner && t.owner[fd] == t.table[fd] {
      assert Places(s, fd) == if fd in s.open then 1 else 0;
    }
  }

  lemma InvStep(s: State, step: Step)
    requires Inv(s) && Enabled(s, step)
    ensures Inv(Next(s, step))
  {
    assert BatchOk(s, step.w);
    forall fd: nat ensures Places(Next(s, step), fd) == if fd in Next(s, step).open then 1 else 0 {
      PlaceStep(s, step, fd);
    }
    forall v: nat | v < |s.ws| ensures var t := Next(s, step); BatchOk(t, v) && OwnerOk(t, v) && Told(t, v) {
      BatchStep(s, step, v);
      OwnerStep(s, step, v);
      ToldStep(s, step, v);
    }
    TableStep(s, step);
  }

  ghost predicate LegalSteps(s: State, steps: seq<Step>)
    decreases |steps|, 0
  {
    steps == [] ||
    (LegalSteps(s, steps[..|steps| - 1]) && Enabled(RunSteps(s, steps[..|steps| - 1]), steps[|steps| - 1]))
  }

  ghost function RunSteps(s: State, steps: seq<Step>): State
    requires LegalSteps(s, steps)
    decreases |steps|, 1
  {
    if steps == [] then s else Next(RunSteps(s, steps[..|steps| - 1]), steps[|steps| - 1])
  }

  lemma {:induction false} HeldNowhere(ws: seq<Worker>, fd: nat, n: nat)
    requires n <= |ws| && forall i :: 0 <= i < n ==> ws[i].pc == Wait && ws[i].list == []
    ensures HeldByAll(ws, fd, n) == 0
  {
    if n > 0 {
      HeldNowhere(ws, fd, n - 1);
    }
  }

  lemma {:induction false} InvAlways(n: nat, steps: seq<Step>)
    requires LegalSteps(Init(n), steps)
    ensures Inv(RunSteps(Init(n), steps))
  {
    if steps == [] {
      forall fd: nat ensures Places(Init(n), fd) == 0 {
        HeldNowhere(Init(n).ws, fd, n);
      }
    } else {
      InvAlways(n, steps[..|steps| - 1]);
      InvStep(RunSteps(Init(n), steps[..|steps| - 1]), steps[|steps| - 1]);
    }
  }

  /** Exactly once: in every interleaving an open connection is in exactly one of the
      acceptor's hand, a list, a drainer's hand, the table and a closer's hand; a closed
      one is in none; and only the worker it was accepted for has it on its list, in its
      hand to install, or installed. */
  lemma ExactlyOnce(n: nat, steps: seq<Step>, fd: nat, w: nat)
    requires LegalSteps(Init(n), steps) && w < |RunSteps(Init(n), steps).ws|
    ensures var s := RunSteps(Init(n), steps);
            && Places(s, fd) == (if fd in s.open then 1 else 0)
            && (fd in s.ws[w].list || s.ws[w].pc == Install(fd) || (fd in s.table && s.table[fd] == w) ==>
                  fd in s.owner && s.owner[fd] == w)
  {
    InvAlways(n, steps);
    var s := RunSteps(Init(n), steps);
    assert OwnerOk(s, w);
    assert Places(s, fd) == if fd in s.open then 1 else 0;
  }

  /** An event is handled on a live connection: conns[fd] is this worker's own and the fd
      is open; a wakeup finds the counter positive, so the read never fails; and an fd
      between the clearing of its slot and its close has no entry anybody could clear. */
  lemma EventsLive(n: nat, steps: seq<Step>, w: nat)
    requires LegalSteps(Init(n), steps) && w < |RunSteps(Init(n), steps).ws|
    ensures var s := RunSteps(Init(n), steps);
            && (forall e <- s.ws[w].batch :: Ready(s, w, e) && (e.Readable? ==> e.fd in s.open))
            && (s.ws[w].pc.Close? ==> s.ws[w].pc.fd in s.open && s.ws[w].pc.fd !in s.table)
  {
    InvAlways(n, steps);
    var s := RunSteps(Init(n), steps);
    assert BatchOk(s, w);
    forall e | e in s.ws[w].batch ensures Ready(s, w, e) && (e.Readable? ==> e.fd in s.open) {
      if e.Readable? {
        assert Places(s, e.fd) == if e.fd in s.open then 1 else 0;
      }
    }
    if s.ws[w].pc.Close? {
      NotInTable(s, w, s.ws[w].pc.fd);
    }
  }

  /** No lost wakeup: wherever a worker is, unless it is draining its list, a connection on
      that list means that somebody is about to tell it, or that its counter is positive;
      so if it waits in epoll_wait and nobody is about to, its wakeup can be reported. */
  lemma NoLostWakeup(n: nat, steps: seq<Step>, w: nat)
    requires LegalSteps(Init(n), steps) && w < |RunSteps(Init(n), steps).ws|
    requires var me := RunSteps(Init(n), steps).ws[w]; me.list != [] && me.pc != Drain && !me.pc.Install?
    ensures var s := RunSteps(Init(n), steps);
            && (s.ws[w].efd > 0 || exists v: nat :: v < |s.ws| && s.ws[v].pc == Notify(w))
            && (s.ws[w].pc == Wait && s.ws[w].efd > 0 ==> Enabled(s, EpollWait(w, [Wakeup])))
  {
    InvAlways(n, steps);
    var s := RunSteps(Init(n), steps);
    assert Told(s, w);
    assert [Wakeup][0] == Wakeup;
  }

  /** When every worker waits and none has a wakeup to be reported, every connection ever
      accepted and not closed is installed. */
  lemma QuietMeansInstalled(n: nat, steps: seq<Step>, fd: nat)
    requires LegalSteps(Init(n), steps)
    requires var s := RunSteps(Init(n), steps);
             (forall w :: 0 <= w < |s.ws| ==> s.ws[w].pc == Wait && s.ws[w].efd == 0) && fd in s.open
    ensures var s := RunSteps(Init(n), steps);
            fd in s.table && fd in s.owner && s.table[fd] == s.owner[fd]
  {
    InvAlways(n, steps);
    var s := RunSteps(Init(n), steps);
    forall w: nat | w < |s.ws| ensures s.ws[w].list == [] {
      assert Told(s, w);
    }
    HeldNowhere(s.ws, fd, |s.ws|);
    assert Places(s, fd) == 1;
  }
}
