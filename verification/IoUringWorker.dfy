/**
 The completion loop of `worker_func` in event-tester/iouring.c as one thread's code.
 Its steps are those of the state machine, taken one at a time; between any two of them
 the kernel and the other workers take whatever steps a script says.
 */
module IoUringWorker {
  import opened Echo
  import opened IoUring
  import IoUringTable
  import IoUringTokens
  import IoUringTheorems

  /** Is this a step of worker w's own code? */
  predicate Own(step: Step, w: Wid) {
    match step
    case WTake(v) => v == w
    case WPush(v) => v == w
    case WNotify(v) => v == w
    case WPop(v) => v == w
    case WInstall(v) => v == w
    case WDrained(v) => v == w
    case WClose(v) => v == w
    case _ => false
  }

  /** What steps that are not its own leave alone for a worker: where it is, what it has
      counted, and the completions it already has. Its list can only grow, at the head. */
  ghost predicate Kept(x: Worker, y: Worker) {
    && y.pc == x.pc && y.drained == x.drained && y.processed == x.processed
    && x.cq <= y.cq && |x.list| <= |y.list| && y.list[|y.list| - |x.list|..] == x.list
  }

  lemma KeptTrans(x: Worker, y: Worker, z: Worker)
    requires Kept(x, y) && Kept(y, z)
    ensures Kept(x, z)
  {
    assert z.list[|z.list| - |x.list|..] == z.list[|z.list| - |y.list|..][|y.list| - |x.list|..];
  }

  lemma KernelKeeps(s: State, step: Step, w: Wid)
    requires Enabled(s, step) && w < |s.ws|
    requires step.KAccept? || step.KEvWrite? || step.KEvRead? || step.KRead? || step.KWrite?
    ensures Kept(s.ws[w], Next(s, step).ws[w])
  {
  }

  /** What the switch does to the worker that runs it: nothing, or it has a connection to
      hand over or to close. */
  ghost predicate Switched(x: Worker, y: Worker) {
    && y.cq == x.cq && y.list == x.list && y.drained == x.drained && y.processed == x.processed
    && (y.pc == x.pc || y.pc.Accepted? || y.pc.Closing?)
  }

  /** And to the others: nothing. */
  ghost predicate OnlyAt(s: State, t: State, w: Wid) {
    |t.ws| == |s.ws| && forall u: Wid :: u < |s.ws| && u != w ==> t.ws[u] == s.ws[u]
  }

  lemma AcceptSwitched(s: State, w: Wid, fd: Fd)
    requires w < |s.ws|
    ensures OnlyAt(s, OnAccept(s, w, fd), w) && Switched(s.ws[w], OnAccept(s, w, fd).ws[w])
  {
  }

  lemma ReadSwitched(s: State, w: Wid, fd: Fd, data: seq<byte>)
    requires w < |s.ws|
    ensures OnlyAt(s, OnRead(s, w, fd, data), w) && Switched(s.ws[w], OnRead(s, w, fd, data).ws[w])
  {
  }

  lemma WriteSwitched(s: State, w: Wid, fd: Fd, k: nat)
    requires w < |s.ws|
    ensures OnlyAt(s, OnWrite(s, w, fd, k), w) && Switched(s.ws[w], OnWrite(s, w, fd, k).ws[w])
  {
  }

  lemma TakeKeeps(s: State, v: Wid, w: Wid)
    requires Enabled(s, WTake(v)) && v != w < |s.ws|
    ensures Take(s, v).ws[w] == s.ws[w]
  {
    var s' := PopCqe(s, v);
    assert s'.ws[w] == s.ws[w];
    match s.ws[v].cq[0]
    case CAccept(fd) => AcceptSwitched(s', v, fd);
    case CEvRead(_) =>
    case CEvWrite =>
    case CRead(fd, data) => ReadSwitched(s', v, fd, data);
    case CWrite(fd, k) => WriteSwitched(s', v, fd, k);
  }

  lemma PushKeeps(s: State, v: Wid, w: Wid)
    requires Enabled(s, WPush(v)) && v != w < |s.ws|
    ensures Kept(s.ws[w], Push(s, v).ws[w])
  {
    assert s.ws[w].list == ([s.ws[v].pc.fd] + s.ws[w].list)[1..];
  }

  lemma OthersKeep(s: State, step: Step, w: Wid)
    requires Enabled(s, step) && !Own(step, w) && w < |s.ws|
    ensures Kept(s.ws[w], Next(s, step).ws[w])
  {
    match step
    case WTake(v) => TakeKeeps(s, v, w);
    case WPush(v) => PushKeeps(s, v, w);
    case WNotify(v) =>
    case WPop(v) =>
    case WInstall(v) =>
    case WDrained(v) =>
    case WClose(v) =>
    case _ => KernelKeeps(s, step, w);
  }

  lemma TakeOwn(s: State, w: Wid)
    requires Enabled(s, WTake(w))
    ensures var x := s.ws[w].(cq := s.ws[w].cq[1..]);
            var y := Take(s, w).ws[w];
            match s.ws[w].cq[0]
            case CEvRead(_) => y.pc == Draining && y.processed == x.processed + 1
                                 && y.cq == x.cq && y.list == x.list && y.drained == x.drained
            case _ => Switched(x, y)
  {
    var s' := PopCqe(s, w);
    match s.ws[w].cq[0]
    case CAccept(fd) => AcceptSwitched(s', w, fd);
    case CEvRead(_) =>
    case CEvWrite =>
    case CRead(fd, data) => ReadSwitched(s', w, fd, data);
    case CWrite(fd, k) => WriteSwitched(s', w, fd, k);
  }

  /** Nobody else had anything left to do. */
  predicate Quiet(before: seq<seq<Step>>, after: seq<seq<Step>>) {
    before == [] && after == []
  }

  /** One connection was drained, and others may have been pushed. */
  ghost predicate Turned(x: Worker, y: Worker) {
    && y.pc == Draining && y.processed == x.processed && x.cq <= y.cq
    && y.drained == x.drained + 1 && |y.list| >= |x.list| - 1
  }

  /** What a stretch of a worker's code leaves alone: a turn of the others has been used
      up, or there was none and nothing but the code itself has changed the worker. */
  ghost predicate Spent(before: seq<seq<Step>>, after: seq<seq<Step>>, cq: seq<Cqe>, list: seq<Fd>, y: Worker) {
    && (|after| < |before| || Quiet(before, after))
    && (Quiet(before, after) ==> y.cq == cq && y.list == list)
  }

  lemma KeptTurned(x: Worker, y: Worker, z: Worker, a: seq<seq<Step>>, b: seq<seq<Step>>, c: seq<seq<Step>>)
    requires x.list != [] && Kept(x.(pc := Hand(x.list[0]), list := x.list[1..]), y)
    requires Kept(y.(pc := Draining, drained := y.drained + 1), z)
    requires Spent(a, b, x.cq, x.list[1..], y) && Spent(b, c, y.cq, y.list, z)
    ensures Turned(x, z) && Spent(a, c, x.cq, x.list[1..], z)
  {
  }

  /** A worker's run, as it sees it: its own steps, and between them everybody else's
      turns, in which they try some steps. */
  datatype Event = Mine(step: Step) | Theirs(todo: seq<Step>)

  /** The state after the first k of some steps, each taken if it is possible and not
      worker w's own. */
  function Tried(s: State, w: Wid, todo: seq<Step>, k: nat): State
    requires k <= |todo|
  {
    if k == 0 then s else TryOne(Tried(s, w, todo, k - 1), w, todo[k - 1])
  }

  function TryOne(s: State, w: Wid, step: Step): State {
    if Enabled(s, step) && !Own(step, w) then Next(s, step) else s
  }

  function Played(s: State, w: Wid, e: Event): State {
    match e
    case Theirs(todo) => Tried(s, w, todo, |todo|)
    case Mine(step) => if Enabled(s, step) && Own(step, w) then Next(s, step) else s
  }

  lemma PlayedMine(s: State, w: Wid, step: Step)
    requires Enabled(s, step) && Own(step, w)
    ensures Played(s, w, Mine(step)) == Next(s, step)
  {
  }

  /** The state that the first k events lead to. */
  function Replay(s: State, w: Wid, events: seq<Event>, k: nat): State
    requires k <= |events|
  {
    if k == 0 then s else Played(Replay(s, w, events, k - 1), w, events[k - 1])
  }

  /** The turns that the others had. */
  function Turns(events: seq<Event>, k: nat): seq<seq<Step>>
    requires k <= |events|
  {
    if k == 0 then []
    else if events[k - 1].Theirs? then Turns(events, k - 1) + [events[k - 1].todo]
    else Turns(events, k - 1)
  }

  lemma {:induction false} ReplayKept(s: State, w: Wid, events: seq<Event>, e: Event, k: nat)
    requires k <= |events|
    ensures Replay(s, w, events + [e], k) == Replay(s, w, events, k)
    ensures Turns(events + [e], k) == Turns(events, k)
  {
    if k > 0 {
      ReplayKept(s, w, events, e, k - 1);
      assert (events + [e])[k - 1] == events[k - 1];
    }
  }

  lemma ReplayMore(s: State, w: Wid, events: seq<Event>, e: Event)
    ensures Replay(s, w, events + [e], |events| + 1) == Played(Replay(s, w, events, |events|), w, e)
    ensures Turns(events + [e], |events| + 1)
         == Turns(events, |events|) + if e.Theirs? then [e.todo] else []
  {
    ReplayKept(s, w, events, e, |events|);
    assert (events + [e])[|events|] == e;
  }

  /** A worker that waits, at its loop with nothing to handle, has one accept and at least
      one EV_READ in flight; and if nobody has a notification for it left to deliver, its
      list is empty. */
  ghost predicate Armed(s: State, w: Wid)
    requires w < |s.ws|
  {
    var x := s.ws[w];
    x.pc == Loop && x.cq == [] ==>
      && x.evReads == 1 + x.drained - x.processed >= 1 && x.accepts == 1
      && (x.counter == 0 && x.evWrites == multiset{} && IoUringTokens.Unsent(s.ws, w) == {} ==> x.list == [])
  }

  lemma ArmedAlways(n: nat, size: nat, steps: seq<Step>, w: Wid)
    requires size > 0 && LegalSteps(Init(n, size), steps) && w < n
    ensures |RunSteps(Init(n, size), steps).ws| == n && !RunSteps(Init(n, size), steps).crashed
    ensures Armed(RunSteps(Init(n, size), steps), w)
  {
    IoUringTokens.EvReadOutstanding(n, size, steps);
    IoUringTheorems.TableSafety(n, size, steps, 0);
    IoUringTheorems.OneRequest(n, size, steps, 0, w);
  }

  lemma {:induction false} PrefixLegal(n: nat, size: nat, steps: seq<Step>, k: nat)
    requires LegalSteps(Init(n, size), steps) && k <= |steps|
    ensures LegalSteps(Init(n, size), steps[..k])
  {
    if k < |steps| {
      PrefixLegal(n, size, steps[..|steps| - 1], k);
      assert steps[..|steps| - 1][..k] == steps[..k];
    } else {
      assert steps[..k] == steps;
    }
  }

  /** At every point of a run: nothing has crashed, and w, if it waits there, is armed. */
  ghost predicate ArmedAt(n: nat, size: nat, steps: seq<Step>, k: nat, w: Wid)
    requires k <= |steps| && w < n
  {
    && LegalSteps(Init(n, size), steps[..k])
    && var s := RunSteps(Init(n, size), steps[..k]);
       |s.ws| == n && !s.crashed && Armed(s, w)
  }

  /** The machine as worker `me` sees it: `all` is what the others will do, turn by turn,
      and `script` what they have yet to do. `events` and the run they make, `steps`, are
      history. */
  class Server {
    const n: nat
    const size: nat
    const me: Wid
    const all: seq<seq<Step>>
    var s: State
    var script: seq<seq<Step>>
    ghost var events: seq<Event>
    ghost var steps: seq<Step>

    /** The machine is where its run leads. */
    ghost predicate Runs()
      reads this
    {
      && size > 0 && me < n
      && LegalSteps(Init(n, size), steps) && s == RunSteps(Init(n, size), steps) && |s.ws| == n
    }

    /** Which is where it is led by what the worker did and exactly the turns that the
        others have had. */
    ghost predicate Led()
      reads this
    {
      s == Replay(Init(n, size), me, events, |events|) && all == Turns(events, |events|) + script
    }

    ghost predicate Valid()
      reads this
    {
      Runs() && Led()
    }

    constructor (n: nat, size: nat, me: Wid, script: seq<seq<Step>>)
      requires size > 0 && me < n
      ensures Valid() && this.n == n && this.size == size && this.me == me && s == Init(n, size)
      ensures all == this.script == script && events == []
    {
      this.n, this.size, this.me, this.script, this.all := n, size, me, script, script;
      s, steps, events := Init(n, size), [], [];
    }

    /** History is only added to. */
    ghost predicate Before(events': seq<Event>, steps': seq<Step>)
      reads this
    {
      events' <= events && steps' <= steps
    }

    /** One atomic step. */
    method Advance(step: Step)
      requires Runs() && Enabled(s, step)
      modifies this`s, this`steps
      ensures Runs() && s == Next(old(s), step) && steps == old(steps) + [step]
    {
      assert (steps + [step])[..|steps|] == steps;
      s := Next(s, step);
      steps := steps + [step];
    }

    /** What has just happened becomes history. */
    method Note(ghost e: Event, ghost was: State)
      requires was == Replay(Init(n, size), me, events, |events|) && s == Played(was, me, e)
      requires all == Turns(events, |events|) + (if e.Theirs? then [e.todo] else []) + script
      modifies this`events
      ensures Led() && events == old(events) + [e]
    {
      ReplayMore(Init(n, size), me, events, e);
      events := events + [e];
    }

    /** One of the worker's own. */
    method Do(step: Step)
      requires Valid() && Enabled(s, step) && Own(step, me)
      modifies this`s, this`steps, this`events
      ensures Valid() && s == Next(old(s), step) && Before(old(events), old(steps))
    {
      Advance(step);
      PlayedMine(old(s), me, step);
      assert all == Turns(events, |events|) + [] + script;
      Note(Mine(step), old(s));
    }

    method OtherStep(step: Step)
      requires Runs()
      modifies this`s, this`steps
      ensures Runs() && Kept(old(s.ws[me]), s.ws[me]) && old(steps) <= steps && s == TryOne(old(s), me, step)
    {
      if Enabled(s, step) && !Own(step, me) {
        OthersKeep(s, step, me);
        Advance(step);
      }
    }

    method AllOf(todo: seq<Step>)
      requires Runs()
      modifies this`s, this`steps
      ensures Runs() && Kept(old(s.ws[me]), s.ws[me]) && old(steps) <= steps
      ensures s == Tried(old(s), me, todo, |todo|)
    {
      for i := 0 to |todo|
        invariant Runs() && Kept(old(s.ws[me]), s.ws[me]) && old(steps) <= steps
        invariant s == Tried(old(s), me, todo, i)
      {
        ghost var x := s.ws[me];
        OtherStep(todo[i]);
        KeptTrans(old(s.ws[me]), x, s.ws[me]);
      }
    }

    /** Everybody else moves. */
    method Others()
      requires Valid()
      modifies this`s, this`steps, this`script, this`events
      ensures Valid() && Kept(old(s.ws[me]), s.ws[me]) && Before(old(events), old(steps))
      ensures if old(script) == [] then script == [] && s == old(s) else script == old(script)[1..]
    {
      if script == [] {
        return;
      }
      var todo := script[0];
      assert script == [todo] + script[1..];
      script := script[1..];
      AllOf(todo);
      Note(Theirs(todo), old(s));
    }

    method Pop()
      requires Valid() && s.ws[me].pc == Draining && s.ws[me].list != []
      modifies this`s, this`steps, this`events
      ensures Valid() && Before(old(events), old(steps))
      ensures s.ws[me] == old(s.ws[me]).(pc := Hand(old(s.ws[me].list[0])), list := old(s.ws[me].list[1..]))
    {
      Do(WPop(me));
    }

    /** Install the connection in hand, start reading it, and re-arm the EV_READ. */
    method InstallRearm()
      requires Valid() && s.ws[me].pc.Hand?
      modifies this`s, this`steps, this`events
      ensures Valid() && Before(old(events), old(steps))
      ensures s.ws[me] ==
        old(s.ws[me]).(pc := Draining, evReads := old(s.ws[me].evReads) + 1, drained := old(s.ws[me].drained) + 1)
    {
      Do(WInstall(me));
    }

    method EndDrain()
      requires Valid() && s.ws[me].pc == Draining && s.ws[me].list == []
      modifies this`s, this`steps, this`events
      ensures Valid() && Before(old(events), old(steps)) && s.ws[me] == old(s.ws[me]).(pc := Loop)
    {
      Do(WDrained(me));
    }

    method Fetch()
      requires Valid() && s.ws[me].pc == Draining && s.ws[me].list != []
      modifies this`s, this`steps, this`script, this`events
      ensures Valid() && Before(old(events), old(steps))
      ensures Kept(old(s.ws[me]).(pc := Hand(old(s.ws[me].list[0])), list := old(s.ws[me].list[1..])), s.ws[me])
      ensures Spent(old(script), script, old(s.ws[me].cq), old(s.ws[me].list[1..]), s.ws[me])
    {
      Pop();
      Others();
    }

    method PutAway()
      requires Valid() && s.ws[me].pc.Hand?
      modifies this`s, this`steps, this`script, this`events
      ensures Valid() && Before(old(events), old(steps))
      ensures Kept(old(s.ws[me]).(pc := Draining, drained := old(s.ws[me].drained) + 1), s.ws[me])
      ensures Spent(old(script), script, old(s.ws[me].cq), old(s.ws[me].list), s.ws[me])
    {
      InstallRearm();
      Others();
    }

    /** One turn of the drain loop. Others may push meanwhile. */
    method DrainOne()
      requires Valid() && s.ws[me].pc == Draining && s.ws[me].list != []
      modifies this`s, this`steps, this`script, this`events
      ensures Valid() && Before(old(events), old(steps))
      ensures Turned(old(s.ws[me]), s.ws[me])
      ensures Spent(old(script), script, old(s.ws[me].cq), old(s.ws[me].list[1..]), s.ws[me])
    {
      ghost var x, a := s.ws[me], script;
      Fetch();
      ghost var y, b := s.ws[me], script;
      PutAway();
      KeptTurned(x, y, s.ws[me], a, b, script);
    }

    /** case EV_READ: drain the list, re-arming the EV_READ once for each connection. */
    method Drain()
      requires Valid() && s.ws[me].pc == Draining
      modifies this`s, this`steps, this`script, this`events
      ensures Valid() && Before(old(events), old(steps))
      ensures var x, y := old(s.ws[me]), s.ws[me];
              && y.pc == Loop && y.processed == x.processed && x.cq <= y.cq
              && y.drained >= x.drained + |x.list| && y.list == []
              && (|script| < |old(script)| || (script == old(script) && y.cq == x.cq))
    {
      ghost var x, todo := s.ws[me], script;
      while s.ws[me].list != []
        invariant Valid() && Before(old(events), old(steps))
        invariant s.ws[me].pc == Draining && s.ws[me].processed == x.processed && x.cq <= s.ws[me].cq
        invariant s.ws[me].drained + |s.ws[me].list| >= x.drained + |x.list|
        invariant |script| < |todo| || (Quiet(todo, script) && s.ws[me].cq == x.cq) || (script == todo && s.ws[me] == x)
        decreases |script|, |s.ws[me].list|
      {
        DrainOne();
      }
      EndDrain();
    }

    method Take()
      requires Valid() && s.ws[me].pc == Loop && s.ws[me].cq != []
      modifies this`s, this`steps, this`events
      ensures Valid() && Before(old(events), old(steps))
      ensures var x, y := old(s.ws[me]), s.ws[me];
              && y.cq == x.cq[1..] && y.list == x.list && y.drained == x.drained
              && y.processed == x.processed + (if x.cq[0].CEvRead? then 1 else 0)
              && (y.pc == Draining <==> x.cq[0].CEvRead?)
              && (y.pc == Loop || y.pc == Draining || y.pc.Accepted? || y.pc.Closing?)
    {
      TakeOwn(s, me);
      Do(WTake(me));
    }

    /** Push the connection onto its owner's list, and then queue the notification and
        the next accept. */
    method HandOver()
      requires Valid() && s.ws[me].pc.Accepted?
      modifies this`s, this`steps, this`events
      ensures Valid() && Before(old(events), old(steps)) && s.ws[me].pc.Pushed?
      ensures var x, y := old(s.ws[me]), s.ws[me]; y.cq == x.cq && y.drained == x.drained && y.processed == x.processed
    {
      WhereTo();
      Do(WPush(me));
    }

    method Tell()
      requires Valid() && s.ws[me].pc.Pushed?
      modifies this`s, this`steps, this`events
      ensures Valid() && Before(old(events), old(steps)) && s.ws[me].pc == Loop
      ensures var x, y := old(s.ws[me]), s.ws[me]; y.cq == x.cq && y.drained == x.drained && y.processed == x.processed
    {
      WhereTo();
      Do(WNotify(me));
    }

    method EndClose()
      requires Valid() && s.ws[me].pc.Closing?
      modifies this`s, this`steps, this`events
      ensures Valid() && Before(old(events), old(steps)) && s.ws[me] == old(s.ws[me]).(pc := Loop)
    {
      Do(WClose(me));
    }

    /** The worker that a connection is handed to exists. */
    lemma WhereTo()
      requires Valid()
      ensures s.ws[me].pc.Accepted? ==> Enabled(s, WPush(me))
      ensures s.ws[me].pc.Pushed? ==> Enabled(s, WNotify(me))
    {
      IoUringTable.InvAlways(n, size, steps);
      assert IoUringTable.WorkerOk(s, me);
      if s.ws[me].pc.Accepted? {
        assert IoUringTable.FdOk(s, s.ws[me].pc.fd);
      }
    }

    /** case ACCEPT for another worker's connection. */
    method PassOn()
      requires Valid() && s.ws[me].pc.Accepted?
      modifies this`s, this`steps, this`script, this`events
      ensures Valid() && Before(old(events), old(steps)) && s.ws[me].pc == Loop
      ensures s.ws[me].processed == old(s.ws[me].processed) && old(s.ws[me].cq) <= s.ws[me].cq
      ensures |script| < |old(script)| || (script == old(script) && s.ws[me].cq == old(s.ws[me].cq))
    {
      Others();
      HandOver();
      Others();
      Tell();
    }

    /** The rest of on_close. */
    method FinishClose()
      requires Valid() && s.ws[me].pc.Closing?
      modifies this`s, this`steps, this`script, this`events
      ensures Valid() && Before(old(events), old(steps)) && s.ws[me].pc == Loop
      ensures s.ws[me].processed == old(s.ws[me].processed) && old(s.ws[me].cq) <= s.ws[me].cq
      ensures |script| < |old(script)| || (script == old(script) && s.ws[me].cq == old(s.ws[me].cq))
    {
      Others();
      EndClose();
    }

    /** One completion, through the switch. */
    method Handle()
      requires Valid() && s.ws[me].pc == Loop && s.ws[me].cq != []
      modifies this`s, this`steps, this`script, this`events
      ensures Valid() && s.ws[me].pc == Loop && Before(old(events), old(steps))
      ensures old(s.ws[me].cq[1..]) <= s.ws[me].cq
      ensures s.ws[me].processed == old(s.ws[me].processed) + (if old(s.ws[me].cq[0]).CEvRead? then 1 else 0)
      ensures old(s.ws[me].cq[0]).CEvRead? ==> s.ws[me].list == []
      ensures |script| < |old(script)| || (script == old(script) && s.ws[me].cq == old(s.ws[me].cq[1..]))
    {
      Take();
      match s.ws[me].pc {
        case Accepted(_) =>
          PassOn();
        case Draining =>
          Drain();
        case Closing(_) =>
          FinishClose();
        case _ =>
      }
    }

    /** The loop, for as long as anything happens: every turn of the others is had, and
        what it brings is handled. At no point does it touch an empty slot or go past a
        buffer, and wherever it waits it is armed. */
    method WorkerFunc()
      requires Valid() && s.ws[me].pc == Loop
      modifies this`s, this`steps, this`script, this`events
      ensures Valid() && s.ws[me].pc == Loop && s.ws[me].cq == []
      ensures script == [] && all == Turns(events, |events|) && Before(old(events), old(steps))
      ensures forall k :: |old(steps)| <= k <= |steps| ==> ArmedAt(n, size, steps, k, me)
    {
      while script != [] || s.ws[me].cq != []
        invariant Valid() && s.ws[me].pc == Loop && Before(old(events), old(steps))
        decreases |script|, |s.ws[me].cq|
      {
        if s.ws[me].cq != [] {
          Handle();
        } else {
          Others();
        }
      }
      forall k | |old(steps)| <= k <= |steps| ensures ArmedAt(n, size, steps, k, me) {
        PrefixLegal(n, size, steps, k);
        ArmedAlways(n, size, steps[..k], me);
      }
    }
  }
}
