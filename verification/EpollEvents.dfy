/**
 What the workers of event-tester/epoll.c do with what epoll_wait reports, told by the
 steps of a run: every event is handled once and in order, and handling it goes all the
 way: a listen event until nothing is left to accept, a wakeup until the list is empty, and
 the end of a connection until it is closed.
 */
module EpollEvents {
  import opened EpollHandoff

  /** What a run's steps say of one worker: the events reported to it and those it has
      taken from its batch, and how many of these were which; how often it has found nothing
      left to accept, found its list empty, closed, accepted, pushed and notified; how often
      it has been notified since it last took a wakeup; and what it accepted last. */
  datatype Tally = Tally(
    reported: seq<Event>, handled: seq<Event>, listens: nat, wakeups: nat, ends: nat,
    noMore: nat, drained: nat, closed: nat, accepted: nat, pushed: nat, notified: nat,
    told: nat, newest: (nat, nat))

  const NOTHING := Tally([], [], 0, 0, 0, 0, 0, 0, 0, 0, 0, 0, (0, 0))

  /** An event that worker w takes. */
  function Took(y: Tally, e: Event, closes: bool): Tally {
    var z := y.(handled := y.handled + [e]);
    match e
    case Listen => z.(listens := y.listens + 1)
    case Wakeup => z.(wakeups := y.wakeups + 1, told := 0)
    case Readable(_) => if closes then z.(ends := y.ends + 1) else z
  }

  /** The tally of worker w after a step in state s. */
  function Count(s: State, step: Step, w: nat, y: Tally): Tally
    requires Enabled(s, step)
  {
    if step.w != w then
      if step.Notified? && s.ws[step.w].pc.owner == w then y.(told := y.told + 1) else y
    else
      match step
      case EpollWait(_, events) => y.(reported := y.reported + events)
      case Dispatch(_, closes) => if s.ws[w].batch == [] then y else Took(y, s.ws[w].batch[0], closes)
      case Accepted(_, fd, owner) => y.(accepted := y.accepted + 1, newest := (fd, owner))
      case NoMore(_) => y.(noMore := y.noMore + 1)
      case Pushed(_) => y.(pushed := y.pushed + 1)
      case Notified(_) =>
        y.(notified := y.notified + 1, told := if s.ws[w].pc.owner == w then y.told + 1 else y.told)
      case Drained(_) => y.(drained := y.drained + 1)
      case Closed(_) => y.(closed := y.closed + 1)
      case _ => y
  }

  ghost function Counts(n: nat, steps: seq<Step>, w: nat): Tally
    requires LegalSteps(Init(n), steps)
  {
    if steps == [] then NOTHING
    else
      var steps' := steps[..|steps| - 1];
      Count(RunSteps(Init(n), steps'), steps[|steps| - 1], w, Counts(n, steps', w))
  }

  function One(b: bool): nat {
    if b then 1 else 0
  }

  predicate LastIs(q: seq<Event>, e: Event) {
    q != [] && q[|q| - 1] == e
  }

  /** Events reported are those handled, in order, and those left of the batch; and the
      counts agree with where the worker is. */
  ghost predicate Agrees(s: State, w: nat, y: Tally)
    requires w < |s.ws|
  {
    var me := s.ws[w];
    && y.reported == y.handled + me.batch && (me.pc == Wait ==> me.batch == [])
    && y.listens == y.noMore + One(me.pc.Accept? || me.pc.Push? || me.pc.Notify?)
    && y.wakeups == y.drained + One(me.pc.Drain? || me.pc.Install?)
    && y.ends == y.closed + One(me.pc.Close?)
    && y.accepted == y.pushed + One(me.pc.Push?) && y.pushed == y.notified + One(me.pc.Notify?)
    && me.efd == y.told
    && match me.pc
       case Wait => true
       case Handle => true
       case Accept => LastIs(y.handled, Listen)
       case Push(fd, owner) => LastIs(y.handled, Listen) && y.newest == (fd, owner)
       case Notify(owner) => LastIs(y.handled, Listen) && y.newest.1 == owner
       case Drain => LastIs(y.handled, Wakeup)
       case Install(_) => LastIs(y.handled, Wakeup)
       case Close(fd) => LastIs(y.handled, Readable(fd))
  }

  lemma DispatchAgrees(s: State, w: nat, closes: bool, v: nat, y: Tally)
    requires Enabled(s, Dispatch(w, closes)) && BatchOk(s, w) && v < |s.ws| && Agrees(s, v, y)
    ensures Agrees(DispatchNext(s, w, closes), v, Count(s, Dispatch(w, closes), v, y))
  {
    if v == w && s.ws[w].batch != [] {
      assert Ready(s, w, s.ws[w].batch[0]);
      assert s.ws[w].batch == [s.ws[w].batch[0]] + s.ws[w].batch[1..];
    }
  }

  lemma PushAgrees(s: State, w: nat, v: nat, y: Tally)
    requires Enabled(s, Pushed(w)) && v < |s.ws| && Agrees(s, v, y)
    ensures Agrees(PushNext(s, w), v, Count(s, Pushed(w), v, y))
  {
  }

  lemma NotifyAgrees(s: State, w: nat, v: nat, y: Tally)
    requires Enabled(s, Notified(w)) && v < |s.ws| && Agrees(s, v, y)
    ensures Agrees(NotifyNext(s, w), v, Count(s, Notified(w), v, y))
  {
  }

  lemma OwnAgrees(s: State, step: Step, v: nat, y: Tally)
    requires Enabled(s, step) && !step.Dispatch? && !step.Pushed? && !step.Notified?
    requires v < |s.ws| && Agrees(s, v, y)
    ensures Agrees(Next(s, step), v, Count(s, step, v, y))
  {
    if step.w != v {
      assert Next(s, step).ws[v] == s.ws[v];
    }
  }

  lemma AgreesStep(s: State, step: Step, v: nat, y: Tally)
    requires Inv(s) && Enabled(s, step) && v < |s.ws| && Agrees(s, v, y)
    ensures Agrees(Next(s, step), v, Count(s, step, v, y))
  {
    match step
    case Dispatch(w, closes) =>
      assert BatchOk(s, w);
      DispatchAgrees(s, w, closes, v, y);
    case Pushed(w) => PushAgrees(s, w, v, y);
    case Notified(w) => NotifyAgrees(s, w, v, y);
    case _ => OwnAgrees(s, step, v, y);
  }

  /** In every run, for every worker: nothing reported is dropped, repeated or put off
      behind something reported later; each listen event leads to accepting until nothing
      is left, each wakeup to draining until the list is empty, each end of a connection to
      its close; what is accepted is pushed, and its owner, the one that the accept named,
      notified; and the eventfd holds the notifications since the last wakeup. */
  lemma {:induction false} EventsHandled(n: nat, steps: seq<Step>, w: nat)
    requires LegalSteps(Init(n), steps) && w < n
    ensures w < |RunSteps(Init(n), steps).ws|
    ensures Agrees(RunSteps(Init(n), steps), w, Counts(n, steps, w))
  {
    if steps != [] {
      var steps' := steps[..|steps| - 1];
      EventsHandled(n, steps', w);
      InvAlways(n, steps');
      AgreesStep(RunSteps(Init(n), steps'), steps[|steps| - 1], w, Counts(n, steps', w));
    }
  }

  /** For whom fd was accepted last. */
  function OwnerOf(steps: seq<Step>, fd: nat): nat {
    if steps == [] then 0
    else if steps[|steps| - 1].Accepted? && steps[|steps| - 1].fd == fd then steps[|steps| - 1].owner
    else OwnerOf(steps[..|steps| - 1], fd)
  }

  /** An open connection belongs to the worker that its accept named, wherever it is. */
  lemma {:induction false} OwnersNamed(n: nat, steps: seq<Step>, fd: nat)
    requires LegalSteps(Init(n), steps)
    ensures fd in RunSteps(Init(n), steps).owner ==> RunSteps(Init(n), steps).owner[fd] == OwnerOf(steps, fd)
    ensures fd in RunSteps(Init(n), steps).open ==> fd in RunSteps(Init(n), steps).owner
  {
    if steps != [] {
      OwnersNamed(n, steps[..|steps| - 1], fd);
    }
  }

  /** No worker is ever stuck; and epoll may report any connection of the worker's own, its
      handler find it at its end or not, and accept4 return any fd for any owner. */
  lemma NobodyStuck(n: nat, steps: seq<Step>, w: nat)
    requires LegalSteps(Init(n), steps) && w < |RunSteps(Init(n), steps).ws|
    ensures exists step: Step :: step.w == w && Enabled(RunSteps(Init(n), steps), step)
    ensures RunSteps(Init(n), steps).ws[w].pc == Accept ==>
              forall fd: nat, owner: nat ::
                fd !in RunSteps(Init(n), steps).open && owner < |RunSteps(Init(n), steps).ws| ==>
                  Enabled(RunSteps(Init(n), steps), Accepted(w, fd, owner))
    ensures RunSteps(Init(n), steps).ws[w].pc == Wait ==>
              forall fd: nat :: fd in RunSteps(Init(n), steps).table && RunSteps(Init(n), steps).table[fd] == w ==>
                Enabled(RunSteps(Init(n), steps), EpollWait(w, [Readable(fd)]))
    ensures RunSteps(Init(n), steps).ws[w].pc == Handle ==>
              forall closes: bool :: Enabled(RunSteps(Init(n), steps), Dispatch(w, closes))
  {
    InvAlways(n, steps);
    StepOf(RunSteps(Init(n), steps), w);
  }

  lemma StepOf(s: State, w: nat)
    requires Inv(s) && w < |s.ws|
    ensures exists step: Step :: step.w == w && Enabled(s, step)
  {
    assert OwnerOk(s, w);
    var step :=
      match s.ws[w].pc
      case Wait => EpollWait(w, [Listen])
      case Handle => Dispatch(w, false)
      case Accept => NoMore(w)
      case Push(_, _) => Pushed(w)
      case Notify(_) => Notified(w)
      case Drain => if s.ws[w].list == [] then Drained(w) else Popped(w)
      case Install(_) => Installed(w)
      case Close(_) => Closed(w);
    assert step.w == w && Enabled(s, step);
  }
}
