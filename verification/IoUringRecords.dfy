/**
 The request records of event-tester/iouring.c (`struct req_info` and `info_cache`):
 every request takes one from its worker's cache, its completion brings the pointer
 back, and the loop gives the record back to the cache before it handles the completion.
 The records of a run are computed beside the run itself.
 */
module IoUringRecords {
  import opened Echo
  import opened IoUring
  import opened IoUringTable

  /** What a record is for: its type, and the descriptor in it, or whose eventfd it is. */
  datatype Kind = Acc | EvRead | EvWrite(owner: Wid) | Transfer(fd: Fd)

  datatype Rec = Rec(kind: Kind, id: nat)

  /** One worker's records: the free ones, oldest first; those of requests in flight; those
      in its completion queue. Records with numbers from `next` on do not exist yet. */
  datatype Ring = Ring(cache: seq<nat>, next: nat, flight: seq<Rec>, done: seq<Rec>)

  /** cache_alloc, on behalf of add_accept_request, add_read_request or
      add_write_request. */
  function Alloc(r: Ring, k: Kind): Ring {
    if r.cache == [] then r.(next := r.next + 1, flight := r.flight + [Rec(k, r.next)])
    else r.(cache := r.cache[1..], flight := r.flight + [Rec(k, r.cache[0])])
  }

  /** The first request of a kind, or the end. */
  function Find(q: seq<Rec>, k: Kind): (i: nat)
    ensures i <= |q| && (i < |q| ==> q[i].kind == k)
  {
    if q == [] || q[0].kind == k then 0 else 1 + Find(q[1..], k)
  }

  /** A request of a kind completes. */
  function Land(r: Ring, k: Kind): Ring {
    var i := Find(r.flight, k);
    if i == |r.flight| then r
    else r.(flight := Without(r.flight, i), done := r.done + [r.flight[i]])
  }

  /** cache_free, for the completion about to be handled. */
  function Release(r: Ring): Ring {
    if r.done == [] then r else r.(done := r.done[1..], cache := r.cache + [r.done[0].id])
  }

  /** What the switch then submits. */
  function Switch(s: State, w: Wid, r: Ring): Ring
    requires w < |s.ws| && s.ws[w].cq != []
  {
    match s.ws[w].cq[0]
    case CAccept(fd) => if fd in s.open && s.open[fd] == w then Alloc(Alloc(r, Transfer(fd)), Acc) else r
    case CRead(fd, data) => if data != [] then Alloc(r, Transfer(fd)) else r
    case CWrite(fd, n) => if n > 0 then Alloc(r, Transfer(fd)) else r
    case _ => r
  }

  /** Worker v's records after a step. */
  function After(s: State, step: Step, v: Wid, r: Ring): Ring
    requires Enabled(s, step)
  {
    match step
    case KAccept(w, _, _) => if v == w then Land(r, Acc) else r
    case KEvWrite(w, from) => if v == from then Land(r, EvWrite(w)) else r
    case KEvRead(w) => if v == w then Land(r, EvRead) else r
    case KRead(fd, i, _) => if v == Pend(s, fd)[i].ring then Land(r, Transfer(fd)) else r
    case KWrite(fd, i, _) => if v == Pend(s, fd)[i].ring then Land(r, Transfer(fd)) else r
    case WTake(w) => if v == w then Switch(s, w, Release(r)) else r
    case WNotify(w) => if v == w then Alloc(Alloc(r, EvWrite(s.ws[w].pc.owner)), Acc) else r
    case WInstall(w) => if v == w then Alloc(Alloc(r, Transfer(s.ws[w].pc.fd)), EvRead) else r
    case _ => r
  }

  /** Setup: init_cache makes m records; an accept and an EV_READ take one each. */
  function InitRing(m: nat): Ring {
    Alloc(Alloc(Ring(seq(m, i => i), m, [], []), Acc), EvRead)
  }

  /** Worker v's records after a run. */
  ghost function Records(n: nat, size: nat, m: nat, steps: seq<Step>, v: Wid): Ring
    requires LegalSteps(Init(n, size), steps)
  {
    if steps == [] then InitRing(m)
    else
      var steps' := steps[..|steps| - 1];
      After(RunSteps(Init(n, size), steps'), steps[|steps| - 1], v, Records(n, size, m, steps', v))
  }

  /** How often a record is in a list, and how many records there are of a kind. */
  function IdCount(q: seq<Rec>, id: nat): nat {
    if q == [] then 0 else (if q[0].id == id then 1 else 0) + IdCount(q[1..], id)
  }

  function KindCount(q: seq<Rec>, k: Kind): nat {
    if q == [] then 0 else (if q[0].kind == k then 1 else 0) + KindCount(q[1..], k)
  }

  lemma {:induction false} CountsAppend(q: seq<Rec>, x: Rec, id: nat, k: Kind)
    ensures IdCount(q + [x], id) == IdCount(q, id) + (if x.id == id then 1 else 0)
    ensures KindCount(q + [x], k) == KindCount(q, k) + (if x.kind == k then 1 else 0)
  {
    if q == [] {
      assert q + [x] == [x];
    } else {
      assert (q + [x])[1..] == q[1..] + [x];
      CountsAppend(q[1..], x, id, k);
    }
  }

  lemma {:induction false} CountsWithout(q: seq<Rec>, i: nat, id: nat, k: Kind)
    requires i < |q|
    ensures IdCount(Without(q, i), id) == IdCount(q, id) - (if q[i].id == id then 1 else 0)
    ensures KindCount(Without(q, i), k) == KindCount(q, k) - (if q[i].kind == k then 1 else 0)
  {
    if i == 0 {
      assert Without(q, 0) == q[1..];
    } else {
      assert Without(q, i)[0] == q[0] && Without(q, i)[1..] == Without(q[1..], i - 1);
      CountsWithout(q[1..], i - 1, id, k);
    }
  }

  lemma {:induction false} FindCounts(q: seq<Rec>, k: Kind)
    ensures Find(q, k) < |q| <==> KindCount(q, k) > 0
  {
    if q != [] && q[0].kind != k {
      FindCounts(q[1..], k);
    }
  }

  /** In how many places a record is: free, in flight, or in the completion queue. */
  function Places(r: Ring, id: nat): nat {
    multiset(r.cache)[id] + IdCount(r.flight, id) + IdCount(r.done, id)
  }

  /** Every record that exists is in exactly one place. */
  ghost predicate Exact(r: Ring) {
    forall id: nat :: Places(r, id) == if id < r.next then 1 else 0
  }

  lemma AllocExact(r: Ring, k: Kind)
    requires Exact(r)
    ensures Exact(Alloc(r, k)) && Alloc(r, k).done == r.done
    ensures forall j :: KindCount(Alloc(r, k).flight, j) == KindCount(r.flight, j) + if j == k then 1 else 0
  {
    var x := if r.cache == [] then Rec(k, r.next) else Rec(k, r.cache[0]);
    forall id: nat ensures Places(Alloc(r, k), id) == if id < Alloc(r, k).next then 1 else 0 {
      CountsAppend(r.flight, x, id, k);
      assert Places(r, id) == if id < r.next then 1 else 0;
      if r.cache != [] {
        assert r.cache == [r.cache[0]] + r.cache[1..];
      }
    }
    forall j ensures KindCount(Alloc(r, k).flight, j) == KindCount(r.flight, j) + if j == k then 1 else 0 {
      CountsAppend(r.flight, x, 0, j);
    }
  }

  lemma LandExact(r: Ring, k: Kind)
    requires Exact(r) && KindCount(r.flight, k) > 0
    ensures Exact(Land(r, k)) && |Land(r, k).done| == |r.done| + 1 && r.done < Land(r, k).done
    ensures Land(r, k).done[|r.done|].kind == k
    ensures forall j :: KindCount(Land(r, k).flight, j) == KindCount(r.flight, j) - if j == k then 1 else 0
  {
    FindCounts(r.flight, k);
    var i := Find(r.flight, k);
    var x := r.flight[i];
    forall id: nat ensures Places(Land(r, k), id) == if id < r.next then 1 else 0 {
      CountsWithout(r.flight, i, id, k);
      CountsAppend(r.done, x, id, k);
      assert Places(r, id) == if id < r.next then 1 else 0;
    }
    forall j ensures KindCount(Land(r, k).flight, j) == KindCount(r.flight, j) - if j == k then 1 else 0 {
      CountsWithout(r.flight, i, 0, j);
    }
  }

  /** Giving back the record of a completion: it was not free. */
  lemma ReleaseExact(r: Ring)
    requires Exact(r) && r.done != []
    ensures Exact(Release(r)) && r.done[0].id !in r.cache && r.done[0].id < r.next
  {
    assert Places(r, r.done[0].id) == if r.done[0].id < r.next then 1 else 0;
    forall id: nat ensures Places(Release(r), id) == if id < r.next then 1 else 0 {
      assert Places(r, id) == if id < r.next then 1 else 0;
    }
  }

  /** How many requests of a kind worker v has in flight. */
  function Flying(s: State, v: Wid, k: Kind): nat
    requires v < |s.ws|
  {
    match k
    case Acc => s.ws[v].accepts
    case EvRead => s.ws[v].evReads
    case EvWrite(o) => if o < |s.ws| then s.ws[o].evWrites[v] else 0
    case Transfer(fd) => RingCount(Pend(s, fd), v)
  }

  function RingCount(q: seq<Req>, v: Wid): nat {
    if q == [] then 0 else (if q[0].ring == v then 1 else 0) + RingCount(q[1..], v)
  }

  /** A record says what its completion is. */
  predicate Tells(k: Kind, c: Cqe) {
    match c
    case CAccept(_) => k == Acc
    case CEvRead(_) => k == EvRead
    case CEvWrite => k.EvWrite?
    case CRead(fd, _) => k == Transfer(fd)
    case CWrite(fd, _) => k == Transfer(fd)
  }

  /** A worker's records are exact; there is one for each request in flight, of its kind,
      and one for each completion in the queue, in order, that says what it is. */
  ghost predicate RingOk(s: State, v: Wid, r: Ring)
    requires v < |s.ws|
  {
    && Exact(r)
    && (forall k :: KindCount(r.flight, k) == Flying(s, v, k))
    && |r.done| == |s.ws[v].cq| && forall i :: 0 <= i < |r.done| ==> Tells(r.done[i].kind, s.ws[v].cq[i])
  }

  function One(b: bool): nat {
    if b then 1 else 0
  }

  /** What a step that submits and completes nothing for v must leave alone. */
  lemma SameOk(s: State, t: State, v: Wid, r: Ring)
    requires v < |s.ws| == |t.ws| && RingOk(s, v, r) && t.ws[v].cq == s.ws[v].cq
    requires forall k :: Flying(t, v, k) == Flying(s, v, k)
    ensures RingOk(t, v, r)
  {
  }

  lemma LandOk(s: State, t: State, v: Wid, r: Ring, k: Kind, c: Cqe)
    requires v < |s.ws| == |t.ws| && RingOk(s, v, r) && Tells(k, c) && t.ws[v].cq == s.ws[v].cq + [c]
    requires forall j :: Flying(t, v, j) == Flying(s, v, j) - One(j == k)
    ensures RingOk(t, v, Land(r, k))
  {
    assert KindCount(r.flight, k) == Flying(s, v, k) == Flying(t, v, k) + 1;
    LandExact(r, k);
  }

  lemma AllocOk(s: State, t: State, v: Wid, r: Ring, k: Kind)
    requires v < |s.ws| == |t.ws| && RingOk(s, v, r) && t.ws[v].cq == s.ws[v].cq
    requires forall j :: Flying(t, v, j) == Flying(s, v, j) + One(j == k)
    ensures RingOk(t, v, Alloc(r, k))
  {
    AllocExact(r, k);
  }

  lemma AllocTwoOk(s: State, t: State, v: Wid, r: Ring, k: Kind, k': Kind)
    requires v < |s.ws| == |t.ws| && RingOk(s, v, r) && t.ws[v].cq == s.ws[v].cq
    requires forall j :: Flying(t, v, j) == Flying(s, v, j) + One(j == k) + One(j == k')
    ensures RingOk(t, v, Alloc(Alloc(r, k), k'))
  {
    AllocExact(r, k);
    AllocExact(Alloc(r, k), k');
  }

  lemma AcceptRecords(s: State, w: Wid, fd: Fd, cpu: Wid, v: Wid, r: Ring)
    requires Enabled(s, KAccept(w, fd, cpu)) && v < |s.ws| && RingOk(s, v, r)
    ensures RingOk(AcceptDone(s, w, fd, cpu), v, After(s, KAccept(w, fd, cpu), v, r))
  {
    var t := AcceptDone(s, w, fd, cpu);
    if v == w {
      LandOk(s, t, v, r, Acc, CAccept(fd));
    } else {
      SameOk(s, t, v, r);
    }
  }

  lemma EvWriteRecords(s: State, w: Wid, from: Wid, v: Wid, r: Ring)
    requires Enabled(s, KEvWrite(w, from)) && v < |s.ws| && RingOk(s, v, r)
    ensures RingOk(EvWriteDone(s, w, from), v, After(s, KEvWrite(w, from), v, r))
  {
    var t := EvWriteDone(s, w, from);
    if v == from {
      LandOk(s, t, v, r, EvWrite(w), CEvWrite);
    } else {
      SameOk(s, t, v, r);
    }
  }

  lemma EvReadRecords(s: State, w: Wid, v: Wid, r: Ring)
    requires Enabled(s, KEvRead(w)) && v < |s.ws| && RingOk(s, v, r)
    ensures RingOk(EvReadDone(s, w), v, After(s, KEvRead(w), v, r))
  {
    var t := EvReadDone(s, w);
    if v == w {
      LandOk(s, t, v, r, EvRead, CEvRead(s.ws[w].counter));
    } else {
      SameOk(s, t, v, r);
    }
  }

  /** A connection has at most one request, so a completion leaves none. */
  lemma OnlyRequest(s: State, fd: Fd, i: nat)
    requires Inv(s) && i < |Pend(s, fd)|
    ensures i == 0 && |Pend(s, fd)| == 1 && Without(Pend(s, fd), i) == []
    ensures forall v :: RingCount(Pend(s, fd), v) == One(Pend(s, fd)[0].ring == v)
  {
    assert FdOk(s, fd);
  }

  lemma ReadRecords(s: State, fd: Fd, i: nat, data: seq<byte>, v: Wid, r: Ring)
    requires Inv(s) && Enabled(s, KRead(fd, i, data)) && v < |s.ws| && RingOk(s, v, r)
    ensures RingOk(ReadDone(s, fd, i, data), v, After(s, KRead(fd, i, data), v, r))
  {
    var t := ReadDone(s, fd, i, data);
    OnlyRequest(s, fd, i);
    if v == Pend(s, fd)[i].ring {
      LandOk(s, t, v, r, Transfer(fd), CRead(fd, data));
    } else {
      SameOk(s, t, v, r);
    }
  }

  lemma WriteRecords(s: State, fd: Fd, i: nat, n: nat, v: Wid, r: Ring)
    requires Inv(s) && Enabled(s, KWrite(fd, i, n)) && v < |s.ws| && RingOk(s, v, r)
    ensures RingOk(WriteDone(s, fd, i, n), v, After(s, KWrite(fd, i, n), v, r))
  {
    var t := WriteDone(s, fd, i, n);
    OnlyRequest(s, fd, i);
    if v == Pend(s, fd)[i].ring {
      LandOk(s, t, v, r, Transfer(fd), CWrite(fd, n));
    } else {
      SameOk(s, t, v, r);
    }
  }

  lemma NotifyRecords(s: State, w: Wid, v: Wid, r: Ring)
    requires Enabled(s, WNotify(w)) && v < |s.ws| && RingOk(s, v, r)
    ensures RingOk(Notify(s, w), v, After(s, WNotify(w), v, r))
  {
    var t := Notify(s, w);
    if v == w {
      AllocTwoOk(s, t, v, r, EvWrite(s.ws[w].pc.owner), Acc);
    } else {
      SameOk(s, t, v, r);
    }
  }

  /** A request for a connection that had none. */
  lemma SubmitOne(s: State, t: State, v: Wid, fd: Fd, q: Req)
    requires Pend(s, fd) == [] && t.pend == s.pend[fd := Pend(s, fd) + [q]]
    ensures forall g: Fd :: RingCount(Pend(t, g), v) == RingCount(Pend(s, g), v) + One(g == fd && q.ring == v)
  {
    assert Pend(t, fd) == [q];
    forall g: Fd
      ensures RingCount(Pend(t, g), v) == RingCount(Pend(s, g), v) + One(g == fd && q.ring == v)
    {
      if g != fd {
        assert Pend(t, g) == Pend(s, g);
      }
    }
  }

  lemma InstallRecords(s: State, w: Wid, v: Wid, r: Ring)
    requires Inv(s) && Enabled(s, WInstall(w)) && v < |s.ws| && RingOk(s, v, r)
    ensures RingOk(InstallHand(s, w), v, After(s, WInstall(w), v, r))
  {
    var t, fd := InstallHand(s, w), s.ws[w].pc.fd;
    assert WorkerOk(s, w) && FdOk(s, fd);
    SubmitOne(s, t, v, fd, NextReq(w, Fresh(s.size)));
    if v == w {
      AllocTwoOk(s, t, v, r, Transfer(fd), EvRead);
    } else {
      SameOk(s, t, v, r);
    }
  }

  /** Steps that neither submit nor complete anything. */
  lemma OtherRecords(s: State, step: Step, v: Wid, r: Ring)
    requires Enabled(s, step) && v < |s.ws| && RingOk(s, v, r)
    requires step.WPush? || step.WPop? || step.WDrained? || step.WClose?
    ensures RingOk(Next(s, step), v, After(s, step, v, r))
  {
    SameOk(s, Next(s, step), v, r);
  }

  /** The completion leaves the queue and its record goes back. */
  lemma PopRecords(s: State, w: Wid, v: Wid, r: Ring)
    requires Enabled(s, WTake(w)) && v < |s.ws| && RingOk(s, v, r)
    ensures RingOk(PopCqe(s, w), v, if v == w then Release(r) else r)
  {
    if v == w {
      ReleaseExact(r);
    } else {
      SameOk(s, PopCqe(s, w), v, r);
    }
  }

  lemma OwnRecords(s: State, w: Wid, v: Wid, r: Ring)
    requires Inv(s) && Enabled(s, WTake(w)) && s.ws[w].cq[0].CAccept? && Mine(s, w) && v < |s.ws| && RingOk(s, v, r)
    ensures RingOk(Take(s, w), v, After(s, WTake(w), v, r))
  {
    var s', t, fd := PopCqe(s, w), Take(s, w), s.ws[w].cq[0].fd;
    assert PairOk(s, w, fd) && FdOk(s, fd);
    PopRecords(s, w, v, r);
    SubmitOne(s', t, v, fd, NextReq(w, Fresh(s.size)));
    if v == w {
      AllocTwoOk(s', t, v, Release(r), Transfer(fd), Acc);
    } else {
      SameOk(s', t, v, r);
    }
  }

  /** A completion whose handling submits nothing. */
  lemma PassSame(s: State, w: Wid, v: Wid)
    requires Enabled(s, WTake(w)) && v < |s.ws| && !SockHead(s, w) && (s.ws[w].cq[0].CAccept? ==> !Mine(s, w))
    ensures Take(s, w).ws[v].cq == PopCqe(s, w).ws[v].cq
    ensures forall k :: Flying(Take(s, w), v, k) == Flying(PopCqe(s, w), v, k)
  {
  }

  lemma PassRecords(s: State, w: Wid, v: Wid, r: Ring)
    requires Enabled(s, WTake(w)) && v < |s.ws| && RingOk(s, v, r)
    requires !SockHead(s, w) && (s.ws[w].cq[0].CAccept? ==> !Mine(s, w))
    ensures RingOk(Take(s, w), v, After(s, WTake(w), v, r))
  {
    PopRecords(s, w, v, r);
    PassSame(s, w, v);
    SameOk(PopCqe(s, w), Take(s, w), v, if v == w then Release(r) else r);
  }

  lemma SockRecords(s: State, w: Wid, v: Wid, r: Ring)
    requires Inv(s) && Enabled(s, WTake(w)) && SockHead(s, w) && v < |s.ws| && RingOk(s, v, r)
    ensures RingOk(Take(s, w), v, After(s, WTake(w), v, r))
  {
    var s', t, c := PopCqe(s, w), Take(s, w), s.ws[w].cq[0];
    HeadSock(s, w);
    HeadEffect(s, w);
    PopRecords(s, w, v, r);
    if !Failed(c) {
      SubmitOne(s', t, v, c.fd, NextReq(w, Apply(s.conns[c.fd].sess, IoOf(c))));
    }
    if v == w && !Failed(c) {
      AllocOk(s', t, v, Release(r), Transfer(c.fd));
    } else {
      SameOk(s', t, v, if v == w then Release(r) else r);
    }
  }

  lemma TakeRecords(s: State, w: Wid, v: Wid, r: Ring)
    requires Inv(s) && Enabled(s, WTake(w)) && v < |s.ws| && RingOk(s, v, r)
    ensures RingOk(Take(s, w), v, After(s, WTake(w), v, r))
  {
    if SockHead(s, w) {
      SockRecords(s, w, v, r);
    } else if s.ws[w].cq[0].CAccept? && Mine(s, w) {
      OwnRecords(s, w, v, r);
    } else {
      PassRecords(s, w, v, r);
    }
  }

  lemma RecordsStep(s: State, step: Step, v: Wid, r: Ring)
    requires Inv(s) && Enabled(s, step) && v < |s.ws| && RingOk(s, v, r)
    ensures RingOk(Next(s, step), v, After(s, step, v, r))
  {
    match step
    case KAccept(w, fd, cpu) => AcceptRecords(s, w, fd, cpu, v, r);
    case KEvWrite(w, from) => EvWriteRecords(s, w, from, v, r);
    case KEvRead(w) => EvReadRecords(s, w, v, r);
    case KRead(fd, i, data) => ReadRecords(s, fd, i, data, v, r);
    case KWrite(fd, i, n) => WriteRecords(s, fd, i, n, v, r);
    case WTake(w) => TakeRecords(s, w, v, r);
    case WNotify(w) => NotifyRecords(s, w, v, r);
    case WInstall(w) => InstallRecords(s, w, v, r);
    case _ => OtherRecords(s, step, v, r);
  }

  lemma {:induction false} FreeOnce(m: nat, id: nat)
    ensures multiset(seq(m, i => i))[id] == One(id < m)
  {
    if m > 0 {
      FreeOnce(m - 1, id);
      assert seq(m, i => i) == seq(m - 1, i => i) + [m - 1];
    }
  }

  lemma InitRecords(n: nat, size: nat, m: nat, v: Wid)
    requires v < n
    ensures RingOk(Init(n, size), v, InitRing(m))
  {
    var r := Ring(seq(m, i => i), m, [], []);
    forall id: nat ensures Places(r, id) == if id < r.next then 1 else 0 {
      FreeOnce(m, id);
    }
    AllocExact(r, Acc);
    AllocExact(Alloc(r, Acc), EvRead);
  }

  lemma {:induction false} RecordsAlways(n: nat, size: nat, m: nat, steps: seq<Step>, v: Wid)
    requires size > 0 && LegalSteps(Init(n, size), steps) && v < n
    ensures |RunSteps(Init(n, size), steps).ws| == n
    ensures RingOk(RunSteps(Init(n, size), steps), v, Records(n, size, m, steps, v))
  {
    InvAlways(n, size, steps);
    if steps == [] {
      InitRecords(n, size, m, v);
    } else {
      var steps' := steps[..|steps| - 1];
      RecordsAlways(n, size, m, steps', v);
      InvAlways(n, size, steps');
      RecordsStep(RunSteps(Init(n, size), steps'), steps[|steps| - 1], v, Records(n, size, m, steps', v));
    }
  }

  /** In every run, whatever the initial number of records, each of a worker's records is
      in exactly one place: free, or with one request in flight, or with one completion
      of its ring, whose kind it tells. */
  lemma RecordsLive(n: nat, size: nat, m: nat, steps: seq<Step>, v: Wid, id: nat, k: Kind)
    requires size > 0 && LegalSteps(Init(n, size), steps) && v < n
    ensures var s, r := RunSteps(Init(n, size), steps), Records(n, size, m, steps, v);
            && |s.ws| == n
            && multiset(r.cache)[id] + IdCount(r.flight, id) + IdCount(r.done, id) == One(id < r.next)
            && KindCount(r.flight, k) == Flying(s, v, k)
            && |r.done| == |s.ws[v].cq|
            && forall i :: 0 <= i < |r.done| ==> Tells(r.done[i].kind, s.ws[v].cq[i])
  {
    RecordsAlways(n, size, m, steps, v);
    var r := Records(n, size, m, steps, v);
    assert Places(r, id) == One(id < r.next);
  }

  /** Taking a completion frees the record it brings, which was not free, and which no
      request in flight and no other completion has; so no record is freed twice. */
  lemma FreesLive(n: nat, size: nat, m: nat, steps: seq<Step>, w: Wid)
    requires size > 0 && LegalSteps(Init(n, size), steps)
    requires Enabled(RunSteps(Init(n, size), steps), WTake(w))
    ensures |RunSteps(Init(n, size), steps).ws| == n
    ensures var r := Records(n, size, m, steps, w);
            && r.done != [] && r.done[0].id < r.next && r.done[0].id !in r.cache
            && IdCount(r.flight, r.done[0].id) == 0 && IdCount(r.done[1..], r.done[0].id) == 0
  {
    InvAlways(n, size, steps);
    RecordsAlways(n, size, m, steps, w);
    var r := Records(n, size, m, steps, w);
    assert Places(r, r.done[0].id) == One(r.done[0].id < r.next);
  }
}
