/**
 libupcall's worker (libupcall/upcall.c): a growable queue of events, a pool of
 buffers that is handed to the kernel by reference, and the loop that submits the
 queue and dispatches what comes back.
 */
module UpcallLib {
  import opened Wrappers

  type Ptr = nat

  /** A pool buffer: its address and its size. */
  datatype Iovec = Iovec(base: Ptr, len: nat)

  datatype Kind = UpRead | UpWrite | UpAccept | UpVec | UpClose

  /** The `buf` field of an event: nothing, plain memory, or an array of iovecs that
      the kernel will look at when the event is submitted. */
  datatype Arg = Null | Data(p: Ptr) | Vec(a: array<Iovec>)

  /** `fn` identifies the callback; 0 is NULL. */
  datatype UpEvent = UpEvent(kind: Kind, fd: int, result: int, buf: Arg, len: nat, fn: nat)

  const EVTS := 4

  /** A completion as the worker sees it: its callback, and the pool buffer that came
      with it, if any. */
  datatype Completion = Completion(fn: nat, buffer: Option<Iovec>)

  /** What callbacks queue. */
  datatype Cmd =
    | CmdRead(fd: int, fn: nat)
    | CmdWrite(fd: int, p: Ptr, len: nat, fn: nat)
    | CmdAccept(fd: int, fn: nat)
    | CmdClose(fd: int)

  /** What one callback does: the events it queues, and whether it returns the buffer
      that its event brought, if it brought one. */
  datatype Reaction = Reaction(cmds: seq<Cmd>, back: bool)

  function Brought(c: Completion): multiset<Iovec> {
    if c.buffer.Some? then multiset{c.buffer.value} else multiset{}
  }

  /** The buffers brought by the first k completions, and by all of them. */
  function BroughtUpTo(cs: seq<Completion>, k: nat): multiset<Iovec>
    requires k <= |cs|
  {
    if k == 0 then multiset{}
    else if cs[k - 1].buffer.Some? then BroughtUpTo(cs, k - 1) + multiset{cs[k - 1].buffer.value}
    else BroughtUpTo(cs, k - 1)
  }

  function BroughtAll(cs: seq<Completion>): multiset<Iovec> {
    BroughtUpTo(cs, |cs|)
  }

  lemma {:induction false} BroughtAppend(cs: seq<Completion>, c: Completion, k: nat)
    requires k <= |cs|
    ensures BroughtUpTo(cs + [c], k) == BroughtUpTo(cs, k)
  {
    if k > 0 {
      BroughtAppend(cs, c, k - 1);
    }
  }

  lemma BroughtMore(cs: seq<Completion>, c: Completion)
    ensures forall x :: BroughtAll(cs + [c])[x] == BroughtAll(cs)[x] + Brought(c)[x]
  {
    BroughtAppend(cs, c, |cs|);
  }

  /** What submitting the first k events of a queue gives to the kernel, and what all of
      it gives, when the array that UP_VEC events point at holds `cells`. */
  function GivenUpTo(q: seq<UpEvent>, cells: seq<Iovec>, k: nat): multiset<Iovec>
    requires k <= |q|
  {
    if k == 0 then multiset{}
    else if q[k - 1].kind == UpVec && q[k - 1].len <= |cells| then
      GivenUpTo(q, cells, k - 1) + multiset(cells[..q[k - 1].len])
    else GivenUpTo(q, cells, k - 1)
  }

  function GivenAll(q: seq<UpEvent>, cells: seq<Iovec>): multiset<Iovec> {
    GivenUpTo(q, cells, |q|)
  }

  /** What the kernel holds after looking at the first k events of a queue. */
  function Absorbed(held: multiset<Iovec>, q: seq<UpEvent>, cells: seq<Iovec>, k: nat): multiset<Iovec>
    requires k <= |q|
  {
    if k == 0 then held
    else if q[k - 1].kind == UpVec && q[k - 1].len <= |cells| then
      Absorbed(held, q, cells, k - 1) + multiset(cells[..q[k - 1].len])
    else Absorbed(held, q, cells, k - 1)
  }

  lemma {:induction false} AbsorbedAdds(held: multiset<Iovec>, q: seq<UpEvent>, cells: seq<Iovec>, k: nat)
    requires k <= |q|
    ensures Absorbed(held, q, cells, k) == held + GivenUpTo(q, cells, k)
  {
    if k > 0 {
      AbsorbedAdds(held, q, cells, k - 1);
    }
  }

  /** Every UP_VEC of a queue points at this array. */
  ghost predicate PointsAt(q: seq<UpEvent>, a: array<Iovec>) {
    forall e <- q :: e.kind == UpVec ==> e.buf == Vec(a)
  }

  lemma {:induction false} GivenAppend(q: seq<UpEvent>, cells: seq<Iovec>, e: UpEvent, k: nat)
    requires k <= |q|
    ensures GivenUpTo(q + [e], cells, k) == GivenUpTo(q, cells, k)
  {
    if k > 0 {
      GivenAppend(q, cells, e, k - 1);
    }
  }

  /** Ordinary events give nothing, whatever comes before them. */
  lemma {:induction false} GivenOrdinary(q: seq<UpEvent>, cells: seq<Iovec>, from: nat, k: nat)
    requires from <= k <= |q| && forall i :: from <= i < k ==> q[i].kind != UpVec
    ensures GivenUpTo(q, cells, k) == GivenUpTo(q, cells, from)
  {
    if from < k {
      GivenOrdinary(q, cells, from, k - 1);
    }
  }

  /** Every buffer counted in `all` is counted in exactly one of the three parts. */
  ghost predicate Adds(a: multiset<Iovec>, b: multiset<Iovec>, c: multiset<Iovec>, all: multiset<Iovec>) {
    forall x :: a[x] + b[x] + c[x] == all[x]
  }

  /** The kernel: what it was given, in order, which pool buffers it holds, and the batches
      of completions it has delivered. It
      returns what its script says, and attaches a buffer it holds when it is asked to
      and has one. */
  class Kernel {
    var held: multiset<Iovec>
    ghost var seen: seq<UpEvent>
    ghost var delivered: seq<seq<Completion>>
    var script: seq<seq<(nat, bool)>>

    constructor (script: seq<seq<(nat, bool)>>)
      ensures held == multiset{} && seen == [] && delivered == [] && this.script == script
    {
      held, this.script := multiset{}, script;
      seen, delivered := [], [];
    }

    /** Copy in the events, and take the buffers behind every UP_VEC. */
    method Absorb(q: seq<UpEvent>, ghost a: array<Iovec>)
      requires PointsAt(q, a)
      modifies this`held, this`seen
      ensures seen == old(seen) + q && held == Absorbed(old(held), q, a[..], |q|)
    {
      ghost var cells := a[..];
      var h := held;
      for i := 0 to |q|
        invariant h == Absorbed(old(held), q, cells, i) && a[..] == cells
        invariant held == old(held) && seen == old(seen)
      {
        h := AbsorbOne(q[i], h, a);
      }
      held, seen := h, seen + q;
    }

    method AbsorbOne(e: UpEvent, h: multiset<Iovec>, ghost a: array<Iovec>) returns (r: multiset<Iovec>)
      requires e.kind == UpVec ==> e.buf == Vec(a)
      ensures r == if e.kind == UpVec && e.len <= a.Length then h + multiset(a[..][..e.len]) else h
    {
      r := h;
      if e.kind == UpVec && e.len <= e.buf.a.Length {
        assert e.buf.a[..e.len] == a[..][..e.len];
        r := h + multiset(e.buf.a[..e.len]);
      }
    }

    /** A batch is what the script says next, as far as there is room for it. */
    static predicate Says(script: seq<seq<(nat, bool)>>, out: seq<Completion>, max: nat) {
      if script == [] then out == []
      else
        && |out| == (if |script[0]| < max then |script[0]| else max)
        && forall k :: 0 <= k < |out| ==> out[k].fn == script[0][k].0 && (out[k].buffer.Some? ==> script[0][k].1)
    }

    /** One completion, with a buffer if it asks for one and there is one. */
    method Answer(fn: nat, wants: bool) returns (c: Completion)
      modifies this`held
      ensures forall x :: held[x] + Brought(c)[x] == old(held)[x]
      ensures c.fn == fn && (c.buffer.Some? <==> wants && old(held) != multiset{})
    {
      c := Completion(fn, None);
      if wants && held != multiset{} {
        var b :| b in held;
        held := held - multiset{b};
        c := Completion(fn, Some(b));
      }
    }

    method Complete(max: nat) returns (out: seq<Completion>)
      modifies this`held, this`script
      ensures Adds(held, BroughtAll(out), multiset{}, old(held)) && Says(old(script), out, max)
      ensures script == if old(script) == [] then [] else old(script)[1..]
    {
      out := [];
      if script == [] {
        return;
      }
      var todo := script[0];
      script := script[1..];
      for k := 0 to |todo|
        invariant |out| == (if k < max then k else max) && Adds(held, BroughtAll(out), multiset{}, old(held))
        invariant forall j :: 0 <= j < |out| ==> out[j].fn == todo[j].0 && (out[j].buffer.Some? ==> todo[j].1)
        invariant script == old(script)[1..]
      {
        if |out| < max {
          var c := Answer(todo[k].0, todo[k].1);
          BroughtMore(out, c);
          out := out + [c];
        }
      }
    }

    /** upcall_submit. */
    method Submit(q: seq<UpEvent>, max: nat, ghost a: array<Iovec>) returns (out: seq<Completion>)
      requires PointsAt(q, a)
      modifies this
      ensures seen == old(seen) + q && delivered == old(delivered) + [out]
      ensures Adds(held, BroughtAll(out), multiset{}, old(held) + GivenAll(q, a[..]))
      ensures Says(old(script), out, max) && script == if old(script) == [] then [] else old(script)[1..]
    {
      Absorb(q, a);
      AbsorbedAdds(old(held), q, a[..], |q|);
      out := Complete(max);
      delivered := delivered + [out];
    }
  }

  class Worker {
    var work: array<UpEvent>
    var workCnt: nat
    var buffers: array<Iovec>
    var bufCnt: nat
    const recvCnt: nat
    ghost var queue: seq<UpEvent>      // work[..workCnt]
    ghost var cells: seq<Iovec>        // the whole of buffers
    ghost var inHand: multiset<Iovec>  // delivered and not returned

    ghost predicate Valid()
      reads this, work, buffers
    {
      && workCnt <= work.Length && queue == work[..workCnt]
      && bufCnt <= buffers.Length && buffers.Length > 0 && cells == buffers[..]
    }

    /** The buffers that have been returned and not yet submitted. */
    ghost function Pool(): seq<Iovec>
      requires bufCnt <= |cells|
      reads this
    {
      cells[..bufCnt]
    }

    /** upcall_worker_setup: the pool goes into the queue as one UP_VEC, and the count
        is reset so that the first iteration does not submit the same array again. */
    constructor (pool: seq<Iovec>)
      requires pool != []
      ensures Valid() && fresh(work) && fresh(buffers) && bufCnt == 0 && recvCnt == |pool|
      ensures cells == pool && inHand == multiset{}
      ensures queue == [UpEvent(UpVec, 0, 0, Vec(buffers), |pool|, 0)]
    {
      work := new UpEvent[|pool|];
      workCnt := 0;
      recvCnt := |pool|;
      buffers := new Iovec[|pool|](i requires 0 <= i < |pool| => pool[i]);
      bufCnt := 0;
      queue, cells, inHand := [], pool, multiset{};
      new;
      AddBuffers(|pool|);
    }

    /** expand_queue: the events already queued survive; new slots hold anything. */
    method ExpandQueue()
      requires Valid()
      modifies this`work
      ensures Valid() && fresh(work) && work.Length == old(work.Length) + EVTS
    {
      var bigger := new UpEvent[work.Length + EVTS];
      forall i | 0 <= i < work.Length {
        bigger[i] := work[i];
      }
      assert bigger[..workCnt] == work[..workCnt];
      work := bigger;
    }

    /** The slot that add_* fill in next, growing the queue first if it is full. */
    method Append(e: UpEvent)
      requires Valid()
      modifies this`work, this`workCnt, this`queue, work
      ensures Valid() && (fresh(work) || work == old(work))
      ensures queue == old(queue) + [e]
    {
      if workCnt == work.Length {
        ExpandQueue();
      }
      work[workCnt] := e;
      workCnt := workCnt + 1;
      queue := queue + [e];
    }

    method AddBuffers(cnt: nat)
      requires Valid()
      modifies this`work, this`workCnt, this`queue, work
      ensures Valid() && (fresh(work) || work == old(work))
      ensures queue == old(queue) + [UpEvent(UpVec, 0, 0, Vec(buffers), cnt, 0)]
    {
      Append(UpEvent(UpVec, 0, 0, Vec(buffers), cnt, 0));
    }

    method AddRead(fd: int, fn: nat)
      requires Valid()
      modifies this`work, this`workCnt, this`queue, work
      ensures Valid() && (fresh(work) || work == old(work))
      ensures queue == old(queue) + [UpEvent(UpRead, fd, 0, Null, 0, fn)]
    {
      Append(UpEvent(UpRead, fd, 0, Null, 0, fn));
    }

    method AddWrite(fd: int, p: Ptr, len: nat, fn: nat)
      requires Valid()
      modifies this`work, this`workCnt, this`queue, work
      ensures Valid() && (fresh(work) || work == old(work))
      ensures queue == old(queue) + [UpEvent(UpWrite, fd, 0, Data(p), len, fn)]
    {
      Append(UpEvent(UpWrite, fd, 0, Data(p), len, fn));
    }

    /** add_accept and add_close do not clear the slot: whatever `result`, `buf` and
        `len` it held before go to the kernel too. */
    method Overwrite(kind: Kind, fd: int, fn: nat) returns (ghost e: UpEvent)
      requires Valid()
      modifies this`work, this`workCnt, this`queue, work
      ensures Valid() && (fresh(work) || work == old(work))
      ensures queue == old(queue) + [e]
      ensures e.kind == kind && e.fd == fd && e.fn == fn
      ensures old(workCnt) < old(work.Length) ==> e == old(work[workCnt]).(kind := kind, fd := fd, fn := fn)
    {
      if workCnt == work.Length {
        ExpandQueue();
      }
      work[workCnt] := work[workCnt].(kind := kind, fd := fd, fn := fn);
      e := work[workCnt];
      workCnt := workCnt + 1;
      queue := queue + [e];
    }

    method AddAccept(fd: int, fn: nat) returns (ghost e: UpEvent)
      requires Valid()
      modifies this`work, this`workCnt, this`queue, work
      ensures Valid() && (fresh(work) || work == old(work))
      ensures queue == old(queue) + [e]
      ensures e.kind == UpAccept && e.fd == fd && e.fn == fn
    {
      e := Overwrite(UpAccept, fd, fn);
    }

    method AddClose(fd: int) returns (ghost e: UpEvent)
      requires Valid()
      modifies this`work, this`workCnt, this`queue, work
      ensures Valid() && (fresh(work) || work == old(work))
      ensures queue == old(queue) + [e]
      ensures e.kind == UpClose && e.fd == fd && e.fn == 0
    {
      e := Overwrite(UpClose, fd, 0);
    }

    /** return_buffer: put a buffer back, doubling the array if it is full. */
    method ReturnBuffer(b: Iovec)
      requires Valid()
      modifies this`buffers, this`bufCnt, this`cells, buffers
      ensures Valid() && (fresh(buffers) || buffers == old(buffers))
      ensures Pool() == old(Pool()) + [b]
      ensures old(bufCnt) < old(buffers.Length) ==> buffers == old(buffers) && cells == old(cells)[old(bufCnt) := b]
      ensures old(bufCnt) == old(buffers.Length) ==> fresh(buffers) && old(buffers)[..] == old(cells)
    {
      if bufCnt == buffers.Length {
        var bigger := new Iovec[2 * buffers.Length];
        forall i | 0 <= i < buffers.Length {
          bigger[i] := buffers[i];
        }
        assert bigger[..bufCnt] == buffers[..bufCnt];
        buffers := bigger;
      }
      buffers[bufCnt] := b;
      bufCnt := bufCnt + 1;
      cells := buffers[..];
    }

    /** A setup_fn that returns buffers writes over the array that the queue points at;
        one that returns more than it has slots has it moved away. */
    method ReturnAll(bufs: seq<Iovec>)
      requires Valid() && bufCnt == 0
      modifies this`buffers, this`bufCnt, this`cells, buffers
      ensures Valid() && bufCnt == |bufs|
      ensures if |bufs| <= |old(cells)| then buffers == old(buffers) && cells == bufs + old(cells)[|bufs|..]
              else fresh(buffers)
    {
      for i := 0 to |bufs|
        invariant Valid() && bufCnt == i
        invariant if i <= |old(cells)| then buffers == old(buffers) && cells == bufs[..i] + old(cells)[i..]
                  else fresh(buffers)
      {
        if i < |old(cells)| {
          Overlay(bufs, old(cells), i);
        }
        ReturnBuffer(bufs[i]);
      }
      assert bufs[..|bufs|] == bufs;
    }

    /** One command of a callback. */
    method Exec(cmd: Cmd) returns (ghost e: UpEvent)
      requires Valid()
      modifies this`work, this`workCnt, this`queue, work
      ensures Valid() && (fresh(work) || work == old(work))
      ensures queue == old(queue) + [e] && For(cmd, e)
    {
      match cmd {
        case CmdRead(fd, fn) =>
          AddRead(fd, fn);
          e := UpEvent(UpRead, fd, 0, Null, 0, fn);
        case CmdWrite(fd, p, len, fn) =>
          AddWrite(fd, p, len, fn);
          e := UpEvent(UpWrite, fd, 0, Data(p), len, fn);
        case CmdAccept(fd, fn) => e := AddAccept(fd, fn);
        case CmdClose(fd) => e := AddClose(fd);
      }
    }

    method ExecAll(cmds: seq<Cmd>) returns (ghost added: seq<UpEvent>)
      requires Valid()
      modifies this`work, this`workCnt, this`queue, work
      ensures Valid() && (fresh(work) || work == old(work))
      ensures queue == old(queue) + added && ForAll(cmds, added) && Ordinary(added)
    {
      added := [];
      for i := 0 to |cmds|
        invariant Valid() && (fresh(work) || work == old(work))
        invariant queue == old(queue) + added && |added| == i && forall j :: 0 <= j < i ==> For(cmds[j], added[j])
      {
        ghost var e := Exec(cmds[i]);
        added := added + [e];
      }
    }

    /** The UP_VEC of the setup is still queued, and no buffer has been returned since. */
    ghost predicate PoolQueued()
      reads this
    {
      && bufCnt == 0 && queue != []
      && queue[0] == UpEvent(UpVec, 0, 0, Vec(buffers), |cells|, 0)
      && Ordinary(queue[1..])
    }

    lemma NotQueued()
      requires Ordinary(queue)
      ensures !PoolQueued()
    {
      if queue != [] {
        assert queue[0] in queue;
      }
    }

    /** At the top of the loop every pool buffer is with the kernel, about to be given to
        it, in the pool, or in the hands of a callback. */
    ghost predicate Sound(kernel: Kernel, all: multiset<Iovec>)
      reads this, work, buffers, kernel
    {
      && Valid()
      && (|| (PoolQueued() && Adds(kernel.held, multiset(cells), inHand, all))
          || (Ordinary(queue) && Adds(kernel.held, multiset(Pool()), inHand, all)))
    }

    /** A setup_fn that returns no buffer: the array behind the queued UP_VEC stays the
        pool, untouched. */
    method Setup(cmds: seq<Cmd>, kernel: Kernel) returns (ghost added: seq<UpEvent>)
      requires Valid() && PoolQueued() && inHand == multiset{} && kernel.held == multiset{}
      modifies this`work, this`workCnt, this`queue, work
      ensures fresh(work) || work == old(work)
      ensures Sound(kernel, multiset(cells)) && PoolQueued()
      ensures queue == old(queue) + added && ForAll(cmds, added)
    {
      added := ExecAll(cmds);
      assert queue[1..] == old(queue)[1..] + added;
    }

    lemma PoolGives(before: seq<UpEvent>)
      requires bufCnt <= |cells| && Ordinary(before)
      ensures GivenAll(before + [UpEvent(UpVec, 0, 0, Vec(buffers), bufCnt, 0)], cells) == multiset(Pool())
    {
      GivenOrdinary(before, cells, 0, |before|);
      GivenAppend(before, cells, UpEvent(UpVec, 0, 0, Vec(buffers), bufCnt, 0), |before|);
    }

    lemma SetupGives()
      requires PoolQueued()
      ensures GivenAll(queue, cells) == multiset(cells) && PointsAt(queue, buffers)
    {
      assert queue == [queue[0]] + queue[1..];
      forall i | 1 <= i < |queue| ensures queue[i].kind != UpVec {
        assert queue[i] == queue[1..][i - 1];
      }
      GivenOrdinary(queue, cells, 1, |queue|);
      assert GivenUpTo(queue, cells, 1) == GivenUpTo(queue, cells, 0) + multiset(cells[..|cells|]);
      assert cells[..|cells|] == cells;
    }

    /** What an iteration is about to give to the kernel. */
    ghost function Leaving(): multiset<Iovec>
      requires bufCnt <= |cells|
      reads this
    {
      if PoolQueued() then multiset(cells) else multiset(Pool())
    }

    /** "if (buf_cnt > 0) add_buffers(buffers, buf_cnt)": the queue then gives the kernel
        exactly what is waiting and what is in the pool. */
    method QueuePool() returns (ghost vec: seq<UpEvent>)
      requires Valid() && (PoolQueued() || Ordinary(queue))
      modifies this`work, this`workCnt, this`queue, work
      ensures Valid() && (fresh(work) || work == old(work))
      ensures queue == old(queue) + vec && PointsAt(queue, buffers) && GivenAll(queue, cells) == old(Leaving())
      ensures vec == if bufCnt > 0 then [UpEvent(UpVec, 0, 0, Vec(buffers), bufCnt, 0)] else []
    {
      vec := [];
      if bufCnt > 0 {
        vec := [UpEvent(UpVec, 0, 0, Vec(buffers), bufCnt, 0)];
        PoolGives(queue);
        AddBuffers(bufCnt);
      } else if PoolQueued() {
        SetupGives();
      } else {
        GivenOrdinary(queue, cells, 0, |queue|);
      }
    }

    /** The first half of an iteration: everything queued, and the whole pool, go to the
        kernel, and its completions come back. */
    method SubmitQueue(kernel: Kernel) returns (out: seq<Completion>, ghost vec: seq<UpEvent>)
      requires Valid() && (PoolQueued() || Ordinary(queue))
      modifies this`work, this`workCnt, this`queue, this`bufCnt, this`inHand, work, kernel
      ensures Valid() && (fresh(work) || work == old(work)) && bufCnt == 0 && queue == []
      ensures Adds(kernel.held, BroughtAll(out), multiset{}, old(kernel.held) + old(Leaving()))
      ensures inHand == old(inHand) + BroughtAll(out)
      ensures kernel.seen == old(kernel.seen) + (old(queue) + vec) && PoolVec(vec, old(bufCnt))
      ensures |out| <= recvCnt && kernel.delivered == old(kernel.delivered) + [out]
      ensures Kernel.Says(old(kernel.script), out, recvCnt)
    {
      vec := QueuePool();
      out := kernel.Submit(work[..workCnt], recvCnt, buffers);
      Receive(out);
    }

    /** "buf_cnt = 0; work_cnt = 0;" */
    method Receive(out: seq<Completion>)
      requires Valid()
      modifies this`workCnt, this`queue, this`bufCnt, this`inHand
      ensures Valid() && bufCnt == 0 && queue == [] && inHand == old(inHand) + BroughtAll(out)
    {
      bufCnt, workCnt, queue := 0, 0, [];
      inHand := inHand + BroughtAll(out);
    }

    /** The dispatch of one completion; "never dispatch blindly". */
    method DispatchOne(c: Completion, r: Reaction) returns (ghost added: seq<UpEvent>)
      requires Valid() && Brought(c) <= inHand
      modifies this`work, this`workCnt, this`queue, this`buffers, this`bufCnt, this`cells, this`inHand,
               work, buffers
      ensures Valid() && (fresh(work) || work == old(work)) && (fresh(buffers) || buffers == old(buffers))
      ensures queue == old(queue) + added && ForAll(Wanted(c, r), added)
      ensures ForAll(if c.fn != 0 then r.cmds else [], added)
      ensures Pool() == old(Pool()) + Back(c, r)
      ensures c.fn != 0 && r.back && c.buffer.Some? ==> Pool() == old(Pool()) + [c.buffer.value]
      ensures c.fn == 0 || !r.back || c.buffer.None? ==> Pool() == old(Pool())
      ensures inHand == old(inHand) - multiset(Back(c, r))
    {
      added := [];
      if c.fn != 0 {
        if r.back && c.buffer.Some? {
          ReturnBuffer(c.buffer.value);
          inHand := inHand - multiset{c.buffer.value};
        }
        added := ExecAll(r.cmds);
      }
    }

    /** Completion i, when those before it have been dispatched. */
    method DispatchAt(out: seq<Completion>, plan: seq<Reaction>, i: nat, ghost hand: multiset<Iovec>)
      requires Valid() && i < |out| <= |plan| && BroughtAll(out) <= hand
      requires ForAll(Asked(out, plan, i), queue)
      requires Pool() == BackUpTo(out, plan, i) && inHand == hand - multiset(BackUpTo(out, plan, i))
      modifies this`work, this`workCnt, this`queue, this`buffers, this`bufCnt, this`cells, this`inHand, work, buffers
      ensures Valid() && (fresh(work) || work == old(work)) && (fresh(buffers) || buffers == old(buffers))
      ensures ForAll(Asked(out, plan, i + 1), queue) && Pool() == BackUpTo(out, plan, i + 1)
      ensures inHand == hand - multiset(BackUpTo(out, plan, i + 1))
    {
      StillHeld(out, plan, i, hand);
      MinusBoth(hand, BackUpTo(out, plan, i), Back(out[i], plan[i]));
      ghost var before := queue;
      ghost var added := DispatchOne(out[i], plan[i]);
      ForBoth(Asked(out, plan, i), before, Wanted(out[i], plan[i]), added);
    }

    /** The dispatch loop: one reaction for each completion, in order. */
    method Dispatch(out: seq<Completion>, plan: seq<Reaction>)
      requires Valid() && queue == [] && bufCnt == 0 && |out| <= |plan| && BroughtAll(out) <= inHand
      modifies this`work, this`workCnt, this`queue, this`buffers, this`bufCnt, this`cells, this`inHand, work, buffers
      ensures Valid() && (fresh(work) || work == old(work)) && (fresh(buffers) || buffers == old(buffers))
      ensures ForAll(Asked(out, plan, |out|), queue) && Pool() == BackUpTo(out, plan, |out|)
      ensures inHand == old(inHand) - multiset(Pool())
    {
      for i := 0 to |out|
        invariant Valid() && (fresh(work) || work == old(work)) && (fresh(buffers) || buffers == old(buffers))
        invariant ForAll(Asked(out, plan, i), queue) && Pool() == BackUpTo(out, plan, i)
        invariant inHand == old(inHand) - multiset(BackUpTo(out, plan, i))
      {
        DispatchAt(out, plan, i, old(inHand));
      }
    }

    /** One iteration of run_event_loop, with the reactions of its callbacks. */
    method RunOnce(kernel: Kernel, plan: seq<Reaction>) returns (out: seq<Completion>, ghost vec: seq<UpEvent>)
      requires Valid() && (PoolQueued() || Ordinary(queue)) && |plan| >= recvCnt
      modifies this`work, this`workCnt, this`queue, this`buffers, this`bufCnt, this`cells, this`inHand,
               work, buffers, kernel
      ensures (fresh(work) || work == old(work)) && (fresh(buffers) || buffers == old(buffers))
      ensures Valid() && |out| <= recvCnt && ForAll(Asked(out, plan, |out|), queue)
      ensures kernel.seen == old(kernel.seen) + (old(queue) + vec) && PoolVec(vec, old(bufCnt))
      ensures Adds(kernel.held, BroughtAll(out), multiset{}, old(kernel.held) + old(Leaving()))
      ensures Pool() == BackUpTo(out, plan, |out|) && kernel.delivered == old(kernel.delivered) + [out]
      ensures inHand == old(inHand) + BroughtAll(out) - multiset(Pool())
    {
      out, vec := SubmitQueue(kernel);
      Dispatch(out, plan);
    }

    /** One iteration, told as a turn: what came back, what was queued for the pool, and
        what the callbacks then queued, which is all that waits for the next submit. */
    method Iterate(kernel: Kernel, plan: seq<Reaction>, ghost all: multiset<Iovec>) returns (ghost turn: Turn)
      requires Sound(kernel, all) && |plan| >= recvCnt
      modifies this`work, this`workCnt, this`queue, this`buffers, this`bufCnt, this`cells, this`inHand,
               work, buffers, kernel
      ensures (fresh(work) || work == old(work)) && (fresh(buffers) || buffers == old(buffers))
      ensures Sound(kernel, all) && Ordinary(queue)
      ensures kernel.seen == old(kernel.seen) + (old(queue) + turn.vec) && queue == turn.added
      ensures TurnOk(turn, plan, old(bufCnt)) && bufCnt == |BackUpTo(turn.out, plan, |turn.out|)|
      ensures kernel.delivered == old(kernel.delivered) + [turn.out]
      ensures inHand == old(inHand) + BroughtAll(turn.out) - multiset(BackUpTo(turn.out, plan, |turn.out|))
    {
      ghost var held, leaving, hand := kernel.held, Leaving(), inHand;
      var out;
      ghost var vec;
      out, vec := RunOnce(kernel, plan);
      turn := Turn(out, vec, queue);
      ForOrdinary(Asked(out, plan, |out|), queue);
      BackFits(out, plan, |out|);
      StillAdds(held, leaving, hand, kernel.held, BroughtAll(out), multiset(Pool()), all);
      assert |Pool()| == bufCnt;
    }

    /** The turns so far account for every event since the start, and for the pool; what
        waits is what the last one queued, or at first what waited at the start. */
    ghost predicate Ran(kernel: Kernel, all: multiset<Iovec>, plans: seq<seq<Reaction>>, turns: seq<Turn>,
                        pooled: nat, seen: seq<UpEvent>, first: seq<UpEvent>)
      reads this, work, buffers, kernel
    {
      && Sound(kernel, all)
      && Story(turns, plans, pooled, |turns|) && bufCnt == Returned(turns, plans, pooled, |turns|)
      && kernel.seen + queue == seen + first + Flat(turns, |turns|)
      && (turns != [] ==> Ordinary(queue))
      && queue == if turns == [] then first else turns[|turns| - 1].added
    }

    /** The turns so far are about what the kernel delivered, batch by batch, and what is in
        the hands of callbacks is what those batches brought and was not returned. */
    ghost predicate Handed(kernel: Kernel, plans: seq<seq<Reaction>>, turns: seq<Turn>,
                           delivered: seq<seq<Completion>>, hand: multiset<Iovec>)
      reads this, kernel
    {
      && |turns| <= |plans| && kernel.delivered == delivered + Outs(turns, |turns|)
      && inHand == HandAfter(turns, plans, hand, |turns|)
    }

    /** One more iteration. */
    method RunOn(kernel: Kernel, plans: seq<seq<Reaction>>, ghost all: multiset<Iovec>, ghost turns: seq<Turn>,
                 ghost pooled: nat, ghost seen: seq<UpEvent>, ghost first: seq<UpEvent>,
                 ghost delivered: seq<seq<Completion>>, ghost hand: multiset<Iovec>, i: nat)
      returns (ghost more: seq<Turn>)
      requires Ran(kernel, all, plans, turns, pooled, seen, first) && Handed(kernel, plans, turns, delivered, hand)
      requires i == |turns| < |plans| && |plans[i]| >= recvCnt
      modifies this`work, this`workCnt, this`queue, this`buffers, this`bufCnt, this`cells, this`inHand,
               work, buffers, kernel
      ensures (fresh(work) || work == old(work)) && (fresh(buffers) || buffers == old(buffers))
      ensures |more| == i + 1 && Ran(kernel, all, plans, more, pooled, seen, first)
      ensures Handed(kernel, plans, more, delivered, hand)
    {
      ghost var seen', waiting := kernel.seen, queue;
      ghost var turn := Iterate(kernel, plans[i], all);
      FlatMore(seen + first, seen', waiting, turns, turn);
      StoryMore(turns, plans, turn, pooled, i);
      HandMore(turns, plans, turn, delivered, hand, i);
      more := turns + [turn];
    }

    /** The worker's life after the barrier. Over any number of iterations no buffer is
        lost or duplicated; and the events that have reached the kernel or wait to are,
        in order and once each, those queued at the start and then, for each iteration,
        the UP_VEC for the buffers returned in the one before and exactly the events its
        callbacks asked for. Only the last of these wait. Every batch the kernel delivered
        was dispatched, and callbacks hold what it brought and they did not return. */
    method Run(kernel: Kernel, plans: seq<seq<Reaction>>, ghost all: multiset<Iovec>) returns (ghost turns: seq<Turn>)
      requires Sound(kernel, all) && forall i :: 0 <= i < |plans| ==> |plans[i]| >= recvCnt
      modifies this`work, this`workCnt, this`queue, this`buffers, this`bufCnt, this`cells, this`inHand,
               work, buffers, kernel
      ensures |turns| == |plans| && Ran(kernel, all, plans, turns, old(bufCnt), old(kernel.seen), old(queue))
      ensures Handed(kernel, plans, turns, old(kernel.delivered), old(inHand))
    {
      turns := [];
      for i := 0 to |plans|
        invariant (fresh(work) || work == old(work)) && (fresh(buffers) || buffers == old(buffers))
        invariant |turns| == i && Ran(kernel, all, plans, turns, old(bufCnt), old(kernel.seen), old(queue))
        invariant Handed(kernel, plans, turns, old(kernel.delivered), old(inHand))
      {
        turns := RunOn(kernel, plans, all, turns, old(bufCnt), old(kernel.seen), old(queue),
                       old(kernel.delivered), old(inHand), i);
      }
    }
  }

  /** One iteration: its completions, the UP_VEC it queued for the pool, if any, and the
      events its callbacks queued. */
  datatype Turn = Turn(out: seq<Completion>, vec: seq<UpEvent>, added: seq<UpEvent>)

  /** The UP_VEC for n pooled buffers: none if there are none. */
  ghost predicate PoolVec(vec: seq<UpEvent>, n: nat) {
    if n == 0 then vec == []
    else |vec| == 1 && vec[0].buf.Vec? && vec[0] == UpEvent(UpVec, 0, 0, vec[0].buf, n, 0)
  }

  ghost predicate TurnOk(turn: Turn, plan: seq<Reaction>, pooled: nat) {
    && |turn.out| <= |plan| && PoolVec(turn.vec, pooled)
    && ForAll(Asked(turn.out, plan, |turn.out|), turn.added)
  }

  /** Each of the first k turns is what its callbacks make of it, and queues for the pool
      what the one before returned. */
  ghost predicate Story(turns: seq<Turn>, plans: seq<seq<Reaction>>, pooled: nat, k: nat) {
    && k <= |turns| && k <= |plans|
    && (k > 0 ==>
          && Story(turns, plans, pooled, k - 1)
          && TurnOk(turns[k - 1], plans[k - 1], Returned(turns, plans, pooled, k - 1)))
  }

  /** How many buffers are in the pool after the first k turns. */
  ghost function Returned(turns: seq<Turn>, plans: seq<seq<Reaction>>, pooled: nat, k: nat): nat
    requires k <= |turns| && k <= |plans|
  {
    if k == 0 then pooled
    else
      var out, plan := turns[k - 1].out, plans[k - 1];
      if |out| <= |plan| then |BackUpTo(out, plan, |out|)| else 0
  }

  /** The events of the first k turns, one after the other. */
  ghost function Flat(turns: seq<Turn>, k: nat): seq<UpEvent>
    requires k <= |turns|
  {
    if k == 0 then [] else Flat(turns, k - 1) + turns[k - 1].vec + turns[k - 1].added
  }

  lemma {:induction false} FlatKept(turns: seq<Turn>, turn: Turn, k: nat)
    requires k <= |turns|
    ensures Flat(turns + [turn], k) == Flat(turns, k)
  {
    if k > 0 {
      FlatKept(turns, turn, k - 1);
    }
  }

  lemma FlatMore(start: seq<UpEvent>, seen: seq<UpEvent>, waiting: seq<UpEvent>, turns: seq<Turn>, turn: Turn)
    requires seen + waiting == start + Flat(turns, |turns|)
    ensures seen + (waiting + turn.vec) + turn.added == start + Flat(turns + [turn], |turns| + 1)
  {
    FlatKept(turns, turn, |turns|);
    Regroup(seen, waiting, turn.vec, turn.added);
    Regroup(start, Flat(turns, |turns|), turn.vec, turn.added);
  }

  lemma Regroup(a: seq<UpEvent>, b: seq<UpEvent>, c: seq<UpEvent>, d: seq<UpEvent>)
    ensures a + (b + c) + d == (a + b) + c + d == a + (b + c + d)
  {
  }

  lemma {:induction false} StoryKept(turns: seq<Turn>, plans: seq<seq<Reaction>>, turn: Turn, pooled: nat, k: nat)
    requires Story(turns, plans, pooled, k)
    ensures Story(turns + [turn], plans, pooled, k)
    ensures Returned(turns + [turn], plans, pooled, k) == Returned(turns, plans, pooled, k)
  {
    if k > 0 {
      StoryKept(turns, plans, turn, pooled, k - 1);
    }
  }

  lemma StoryMore(turns: seq<Turn>, plans: seq<seq<Reaction>>, turn: Turn, pooled: nat, k: nat)
    requires |turns| == k < |plans| && Story(turns, plans, pooled, k)
    requires TurnOk(turn, plans[k], Returned(turns, plans, pooled, k))
    ensures Story(turns + [turn], plans, pooled, k + 1)
    ensures Returned(turns + [turn], plans, pooled, k + 1) == |BackUpTo(turn.out, plans[k], |turn.out|)|
  {
    StoryKept(turns, plans, turn, pooled, k);
  }

  /** The batches of the first k turns. */
  function Outs(turns: seq<Turn>, k: nat): (outs: seq<seq<Completion>>)
    requires k <= |turns|
    ensures |outs| == k && forall i :: 0 <= i < k ==> outs[i] == turns[i].out
  {
    if k == 0 then [] else Outs(turns, k - 1) + [turns[k - 1].out]
  }

  /** What callbacks hold after the first k turns: what their batches brought on top of
      what they held before, without what they returned. */
  function HandAfter(turns: seq<Turn>, plans: seq<seq<Reaction>>, hand: multiset<Iovec>, k: nat): multiset<Iovec>
    requires k <= |turns| && k <= |plans|
  {
    if k == 0 then hand else HandTurn(HandAfter(turns, plans, hand, k - 1), turns[k - 1].out, plans[k - 1])
  }

  function HandTurn(hand: multiset<Iovec>, out: seq<Completion>, plan: seq<Reaction>): multiset<Iovec> {
    hand + BroughtAll(out) - if |out| <= |plan| then multiset(BackUpTo(out, plan, |out|)) else multiset{}
  }

  lemma {:induction false} HandKept(
    turns: seq<Turn>, plans: seq<seq<Reaction>>, turn: Turn, hand: multiset<Iovec>, k: nat)
    requires k <= |turns| && k <= |plans|
    ensures HandAfter(turns + [turn], plans, hand, k) == HandAfter(turns, plans, hand, k)
  {
    if k > 0 {
      HandKept(turns, plans, turn, hand, k - 1);
      assert (turns + [turn])[k - 1] == turns[k - 1];
    }
  }

  lemma HandMore(turns: seq<Turn>, plans: seq<seq<Reaction>>, turn: Turn,
                 delivered: seq<seq<Completion>>, hand: multiset<Iovec>, k: nat)
    requires |turns| == k < |plans| && |turn.out| <= |plans[k]|
    ensures delivered + Outs(turns + [turn], k + 1) == delivered + Outs(turns, k) + [turn.out]
    ensures HandAfter(turns + [turn], plans, hand, k + 1) ==
              HandAfter(turns, plans, hand, k) + BroughtAll(turn.out)
              - multiset(BackUpTo(turn.out, plans[k], |turn.out|))
  {
    HandKept(turns, plans, turn, hand, k);
    assert Outs(turns + [turn], k) == Outs(turns, k);
  }

  /** The event that a command queues. A reused slot keeps its other fields for an accept
      or a close. */
  predicate For(cmd: Cmd, e: UpEvent) {
    match cmd
    case CmdRead(fd, fn) => e == UpEvent(UpRead, fd, 0, Null, 0, fn)
    case CmdWrite(fd, p, len, fn) => e == UpEvent(UpWrite, fd, 0, Data(p), len, fn)
    case CmdAccept(fd, fn) => e.kind == UpAccept && e.fd == fd && e.fn == fn
    case CmdClose(fd) => e.kind == UpClose && e.fd == fd && e.fn == 0
  }

  ghost predicate ForAll(cmds: seq<Cmd>, q: seq<UpEvent>) {
    |q| == |cmds| && forall i :: 0 <= i < |cmds| ==> For(cmds[i], q[i])
  }

  lemma ForOrdinary(cmds: seq<Cmd>, q: seq<UpEvent>)
    requires ForAll(cmds, q)
    ensures Ordinary(q)
  {
  }

  lemma ForBoth(cmds: seq<Cmd>, q: seq<UpEvent>, more: seq<Cmd>, r: seq<UpEvent>)
    requires ForAll(cmds, q) && ForAll(more, r)
    ensures ForAll(cmds + more, q + r)
  {
  }

  /** What the callback of one completion asks for; a completion without one is dropped. */
  function Wanted(c: Completion, r: Reaction): seq<Cmd> {
    if c.fn != 0 then r.cmds else []
  }

  /** The commands of the first k completions' callbacks, in order. */
  function Asked(out: seq<Completion>, plan: seq<Reaction>, k: nat): seq<Cmd>
    requires k <= |out| <= |plan|
  {
    if k == 0 then [] else Asked(out, plan, k - 1) + Wanted(out[k - 1], plan[k - 1])
  }

  /** What the callback of completion i asks for, if there is one, stands behind what those
      before it asked for, and in front of all the rest. */
  lemma {:induction false} AskedEach(out: seq<Completion>, plan: seq<Reaction>, i: nat, k: nat)
    requires i < k <= |out| <= |plan|
    ensures Asked(out, plan, 0) == []
    ensures Asked(out, plan, i + 1) == Asked(out, plan, i) + if out[i].fn != 0 then plan[i].cmds else []
    ensures Asked(out, plan, i + 1) <= Asked(out, plan, k)
    decreases k
  {
    if i + 1 < k {
      AskedEach(out, plan, i, k - 1);
    }
  }

  lemma StillAdds(held: multiset<Iovec>, leaving: multiset<Iovec>, hand: multiset<Iovec>, held': multiset<Iovec>,
                  brought: multiset<Iovec>, back: multiset<Iovec>, all: multiset<Iovec>)
    requires Adds(held, leaving, hand, all) && Adds(held', brought, multiset{}, held + leaving) && back <= brought
    ensures Adds(held', back, hand + brought - back, all)
  {
  }

  /** What the handling of one completion puts back into the pool. */
  function Back(c: Completion, r: Reaction): seq<Iovec> {
    if c.fn != 0 && r.back && c.buffer.Some? then [c.buffer.value] else []
  }

  /** The same for the first k completions of a batch. */
  function BackUpTo(out: seq<Completion>, plan: seq<Reaction>, k: nat): seq<Iovec>
    requires k <= |out| <= |plan|
  {
    if k == 0 then [] else BackUpTo(out, plan, k - 1) + Back(out[k - 1], plan[k - 1])
  }

  ghost predicate Ordinary(q: seq<UpEvent>) {
    forall e <- q :: e.kind != UpVec
  }

  /** A completion's buffer is among those brought by any longer prefix of the batch. */
  lemma {:induction false} BroughtGrows(out: seq<Completion>, j: nat, k: nat)
    requires j <= k <= |out|
    ensures forall b :: BroughtUpTo(out, j)[b] <= BroughtUpTo(out, k)[b]
    decreases k
  {
    if j < k {
      BroughtGrows(out, j, k - 1);
    }
  }

  lemma {:induction false} BackFits(out: seq<Completion>, plan: seq<Reaction>, k: nat)
    requires k <= |out| <= |plan|
    ensures multiset(BackUpTo(out, plan, k)) <= BroughtUpTo(out, k)
  {
    if k > 0 {
      BackFits(out, plan, k - 1);
      BackFitsNext(out, plan, k - 1);
    }
  }

  lemma BackFitsNext(out: seq<Completion>, plan: seq<Reaction>, k: nat)
    requires k < |out| <= |plan| && multiset(BackUpTo(out, plan, k)) <= BroughtUpTo(out, k)
    ensures multiset(BackUpTo(out, plan, k + 1)) <= BroughtUpTo(out, k + 1)
  {
    BroughtNext(out, k);
    PlusWithin(BackUpTo(out, plan, k), Back(out[k], plan[k]), BroughtUpTo(out, k), Brought(out[k]));
  }

  lemma PlusWithin(p: seq<Iovec>, b: seq<Iovec>, most: multiset<Iovec>, c: multiset<Iovec>)
    requires multiset(p) <= most && (b == [] || multiset(b) == c)
    ensures multiset(p + b) <= most + c
  {
    assert multiset(p + b) == multiset(p) + multiset(b);
  }

  /** If every completion has a callback and every callback returns its buffer, as in
      upcall.c, nothing stays in their hands. */
  lemma {:induction false} BackComplete(out: seq<Completion>, plan: seq<Reaction>, k: nat)
    requires k <= |out| <= |plan|
    requires forall i :: 0 <= i < k ==> out[i].fn != 0 && plan[i].back
    ensures SameBack(out, plan, k)
  {
    if k > 0 {
      BackComplete(out, plan, k - 1);
      BackMore(out, plan, k - 1);
    }
  }

  ghost predicate SameBack(out: seq<Completion>, plan: seq<Reaction>, k: nat)
    requires k <= |out| <= |plan|
  {
    multiset(BackUpTo(out, plan, k)) == BroughtUpTo(out, k)
  }

  lemma BackMore(out: seq<Completion>, plan: seq<Reaction>, k: nat)
    requires k < |out| <= |plan| && out[k].fn != 0 && plan[k].back && SameBack(out, plan, k)
    ensures SameBack(out, plan, k + 1)
  {
    BroughtNext(out, k);
    BothSorts(BackUpTo(out, plan, k), Back(out[k], plan[k]), BroughtUpTo(out, k), Brought(out[k]));
  }

  lemma BothSorts(p: seq<Iovec>, b: seq<Iovec>, q: multiset<Iovec>, c: multiset<Iovec>)
    requires multiset(p) == q && multiset(b) == c
    ensures multiset(p + b) == q + c
  {
  }

  lemma MinusBoth(all: multiset<Iovec>, p: seq<Iovec>, b: seq<Iovec>)
    ensures all - multiset(p) - multiset(b) == all - multiset(p + b)
  {
    assert multiset(p + b) == multiset(p) + multiset(b);
  }

  /** The buffer of a completion that has not been dispatched has not been returned. */
  lemma StillHeld(out: seq<Completion>, plan: seq<Reaction>, i: nat, hand: multiset<Iovec>)
    requires i < |out| <= |plan| && BroughtAll(out) <= hand
    ensures Brought(out[i]) <= hand - multiset(BackUpTo(out, plan, i))
  {
    BroughtNext(out, i);
    BroughtWithin(out, i + 1, hand);
    BackFits(out, plan, i);
    Within(multiset(BackUpTo(out, plan, i)), BroughtUpTo(out, i), Brought(out[i]), BroughtUpTo(out, i + 1), hand);
  }

  lemma BroughtNext(out: seq<Completion>, i: nat)
    requires i < |out|
    ensures BroughtUpTo(out, i + 1) == BroughtUpTo(out, i) + Brought(out[i])
  {
  }

  lemma BroughtWithin(out: seq<Completion>, i: nat, hand: multiset<Iovec>)
    requires i <= |out| && BroughtAll(out) <= hand
    ensures BroughtUpTo(out, i) <= hand
  {
    BroughtGrows(out, i, |out|);
  }

  lemma Within(a: multiset<Iovec>, b: multiset<Iovec>, c: multiset<Iovec>, sum: multiset<Iovec>, hand: multiset<Iovec>)
    requires a <= b && sum == b + c && sum <= hand
    ensures c <= hand - a
  {
    forall x ensures c[x] <= (hand - a)[x] {
      assert a[x] <= b[x] && sum[x] == b[x] + c[x] && sum[x] <= hand[x];
    }
  }

  /** What the first submit gives the kernel if setup_fn returns `bufs`: the queued
      UP_VEC still points at the array whose first slots the returned buffers have
      overwritten, and a second UP_VEC then names those slots again. */
  function FirstSubmit(pool: seq<Iovec>, bufs: seq<Iovec>): multiset<Iovec>
    requires |bufs| <= |pool|
  {
    multiset(bufs + pool[|bufs|..]) + multiset(bufs)
  }

  /** upcall_worker_fn: setup, the caller's setup_fn, and the loop. From then on every
      buffer of the pool is with the kernel, in the pool or in a callback's hands, as
      often as it was there at the start; and the events that have reached the kernel or
      wait to are exactly the UP_VEC of the pool, those that setup_fn asked for, and those
      of each iteration. What callbacks hold is what the kernel's batches brought and they
      did not return. */
  method WorkerMain(pool: seq<Iovec>, setup: seq<Cmd>, plans: seq<seq<Reaction>>, kernel: Kernel)
    returns (worker: Worker, ghost first: UpEvent, ghost added: seq<UpEvent>, ghost turns: seq<Turn>)
    requires pool != [] && kernel.held == multiset{} && forall i :: 0 <= i < |plans| ==> |plans[i]| >= |pool|
    modifies kernel
    ensures fresh(worker) && worker.Sound(kernel, multiset(pool))
    ensures plans != [] ==> Adds(kernel.held, multiset(worker.Pool()), worker.inHand, multiset(pool))
    ensures PoolVec([first], |pool|) && ForAll(setup, added)
    ensures |turns| == |plans| && Story(turns, plans, 0, |turns|)
    ensures kernel.seen + worker.queue == old(kernel.seen) + ([first] + added) + Flat(turns, |turns|)
    ensures turns != [] ==> worker.queue == turns[|turns| - 1].added
    ensures kernel.delivered == old(kernel.delivered) + Outs(turns, |turns|)
    ensures worker.inHand == HandAfter(turns, plans, multiset{}, |turns|)
  {
    worker := new Worker(pool);
    first := worker.queue[0];
    added := worker.Setup(setup, kernel);
    turns := worker.Run(kernel, plans, multiset(pool));
    if plans != [] {
      worker.NotQueued();
    }
  }

  lemma Overlay(bufs: seq<Iovec>, cells: seq<Iovec>, i: nat)
    requires i < |bufs| && i < |cells|
    ensures (bufs[..i] + cells[i..])[i := bufs[i]] == bufs[..i + 1] + cells[i + 1..]
  {
  }

  /** What a queue gives that starts with a UP_VEC for the whole array, and may end with
      one for its first n cells. */
  lemma FirstGiven(vec1: UpEvent, added: seq<UpEvent>, vec2: seq<UpEvent>, cells: seq<Iovec>, n: nat)
    requires vec1.kind == UpVec && vec1.len == |cells| && Ordinary(added) && PoolVec(vec2, n) && n <= |cells|
    ensures GivenAll([vec1] + added + vec2, cells) == multiset(cells) + multiset(cells[..n])
  {
    var q := [vec1] + added;
    forall i | 1 <= i < |q| ensures q[i].kind != UpVec {
      assert q[i] == added[i - 1];
    }
    GivenOrdinary(q, cells, 1, |q|);
    assert GivenUpTo(q, cells, 1) == GivenUpTo(q, cells, 0) + multiset(cells[..|cells|]);
    assert cells[..|cells|] == cells;
    if n > 0 {
      GivenAppend(q, cells, vec2[0], |q|);
      assert vec2 == [vec2[0]];
    } else {
      assert q + vec2 == q && cells[..0] == [];
    }
  }

  lemma FirstTaken(vec1: UpEvent, added: seq<UpEvent>, vec2: seq<UpEvent>, pool: seq<Iovec>, bufs: seq<Iovec>)
    requires vec1.kind == UpVec && vec1.len == |pool| && Ordinary(added) && PoolVec(vec2, |bufs|) && |bufs| <= |pool|
    ensures var q := [vec1] + added + vec2;
            Absorbed(multiset{}, q, bufs + pool[|bufs|..], |q|) == FirstSubmit(pool, bufs)
  {
    var q, cells := [vec1] + added + vec2, bufs + pool[|bufs|..];
    assert cells[..|bufs|] == bufs;
    FirstGiven(vec1, added, vec2, cells, |bufs|);
    AbsorbedAdds(multiset{}, q, cells, |q|);
  }

  /** upcall_worker_setup, a setup_fn that queues events and calls return_buffer, and the
      first submit. If it returns more buffers than the array has slots, the queued UP_VEC
      is left pointing at an array the worker has given up. */
  method FirstIteration(pool: seq<Iovec>, cmds: seq<Cmd>, bufs: seq<Iovec>, kernel: Kernel)
    returns (worker: Worker, dangling: bool)
    requires pool != [] && kernel.held == multiset{}
    modifies kernel
    ensures fresh(worker) && worker.queue != []
    ensures dangling <==> worker.queue[0].buf != Vec(worker.buffers)
    ensures dangling <==> |bufs| > |pool|
    ensures |bufs| <= |pool| ==> kernel.held == FirstSubmit(pool, bufs)
  {
    worker := new Worker(pool);
    ghost var a, vec1 := worker.buffers, worker.queue[0];
    ghost var added := worker.ExecAll(cmds);
    worker.ReturnAll(bufs);
    assert worker.queue[0] == vec1;
    if |bufs| > |pool| {
      return worker, true;
    }
    ghost var vec2 := [];
    if worker.bufCnt > 0 {
      vec2 := [UpEvent(UpVec, 0, 0, Vec(a), worker.bufCnt, 0)];
      worker.AddBuffers(worker.bufCnt);
    }
    var q := worker.work[..worker.workCnt];
    FirstTaken(vec1, added, vec2, pool, bufs);
    assert q == [vec1] + added + vec2 && a[..] == bufs + pool[|bufs|..];
    kernel.Absorb(q, a);
    dangling := false;
  }

  lemma {:induction false} CountSuffix(pool: seq<Iovec>, m: nat, b: Iovec)
    requires 0 < m <= |pool| && b == pool[0]
    ensures multiset(pool[m..])[b] < multiset(pool)[b]
  {
    assert pool == pool[..m] + pool[m..];
    assert b in pool[..m];
  }

  /** The pool is given to the kernel exactly once, along with what setup_fn returned, if
      and only if setup_fn returned nothing. (No buffer of the pool has been delivered
      yet, so what it returns is not from there.) */
  lemma SetupReturnsNothing(pool: seq<Iovec>, bufs: seq<Iovec>)
    requires pool != [] && forall b <- bufs :: b !in pool
    ensures (|bufs| <= |pool| && FirstSubmit(pool, bufs) == multiset(pool) + multiset(bufs)) <==> bufs == []
  {
    if bufs == [] {
      assert bufs + pool[0..] == pool;
    } else if |bufs| <= |pool| {
      var b := pool[0];
      CountSuffix(pool, |bufs|, b);
      assert b !in bufs;
      assert FirstSubmit(pool, bufs)[b] == multiset(pool[|bufs|..])[b];
    }
  }
}
