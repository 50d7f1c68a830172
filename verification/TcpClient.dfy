/**
 A worker of event-tester/tcp_client.c: its array of clients, the recursive state
 transition and the event loop. The kernel's answers
 (how a connect goes, what each recv brings, which clients epoll reports) are parameters.
 */
module TcpClient {
  import opened ClientTrace
  import TscLog

  /** What a recv or send that moves data can return. */
  type Count = n: nat | n > 0 witness 1

  /** epoll reports client j; its socket has the given chunks before it would block, and
      a connect it starts completes at once or not. */
  datatype Wake = Wake(j: nat, chunks: seq<Count>, immediate: bool)

  function Offered(chunks: seq<Count>): nat {
    if chunks == [] then 0 else Offered(chunks[..|chunks| - 1]) + chunks[|chunks| - 1]
  }

  /** What is offered does not depend on how it is split: it is the sum of the pieces. */
  lemma {:induction false} OfferedSum(a: seq<Count>, b: seq<Count>, n: Count)
    ensures Offered([]) == 0 && Offered([n]) == n && Offered(a + b) == Offered(a) + Offered(b)
    decreases |b|
  {
    assert [n][..0] == [];
    if b == [] {
      assert a + b == a;
    } else {
      OfferedSum(a, b[..|b| - 1], n);
      assert (a + b)[..|a + b| - 1] == a + b[..|b| - 1];
    }
  }

  function Min(a: nat, b: nat): nat {
    if a < b then a else b
  }

  /** Receive until the buffer is full or the socket would block: exactly as much as
      there is and fits, however it is split. */
  method ClientRecv(chunks: seq<Count>, len: nat) returns (cursor: nat)
    requires len > 0
    ensures cursor == Min(len, Offered(chunks))
  {
    cursor := 0;
    var i := 0;
    while true
      invariant i <= |chunks| && cursor == Offered(chunks[..i]) < len
      decreases |chunks| - i
    {
      if i == |chunks| {
        assert chunks[..i] == chunks;
        return;
      }
      assert chunks[..i + 1][..i] == chunks[..i];
      OfferedGrows(chunks, i + 1);
      cursor := cursor + Min(chunks[i], len - cursor);
      i := i + 1;
      if cursor >= len {
        return;
      }
    }
  }

  lemma {:induction false} OfferedGrows(chunks: seq<Count>, i: nat)
    requires i <= |chunks|
    ensures Offered(chunks[..i]) <= Offered(chunks)
  {
    if i < |chunks| {
      OfferedGrows(chunks[..|chunks| - 1], i);
      assert chunks[..|chunks| - 1][..i] == chunks[..i];
    } else {
      assert chunks[..i] == chunks;
    }
  }

  /** Every client agrees with its part of the log, except perhaps the one that is
      moving. */
  ghost predicate FollowBut(
    cfg: Config, cs: seq<Client>, hist: seq<History>, log: seq<TscLog.Record>, moving: int)
    requires cfg.Valid()
  {
    && |cs| == |hist| && (forall r <- log :: r.client < |cs|)
    && forall j {:trigger Follows(cfg, cs[j], hist[j], Project(log, j))} ::
         0 <= j < |cs| && j != moving ==> Follows(cfg, cs[j], hist[j], Project(log, j))
  }

  ghost predicate AllFollow(cfg: Config, cs: seq<Client>, hist: seq<History>, log: seq<TscLog.Record>)
    requires cfg.Valid()
  {
    FollowBut(cfg, cs, hist, log, -1)
  }

  /** Transactions finished by the first n clients. */
  function Finished(cs: seq<Client>, txns: nat, n: nat): int
    requires n <= |cs|
  {
    if n == 0 then 0 else Finished(cs, txns, n - 1) + (txns - cs[n - 1].txnRemaining)
  }

  /** Receive wakeups of the first n clients. */
  function Received(hist: seq<History>, n: nat): nat
    requires n <= |hist|
  {
    if n == 0 then 0 else Received(hist, n - 1) + Wakeups(hist[n - 1])
  }

  lemma {:induction false} FinishedUpdate(cs: seq<Client>, txns: nat, j: nat, c: Client, n: nat)
    requires j < |cs| && n <= |cs|
    ensures Finished(cs[j := c], txns, n) ==
              Finished(cs, txns, n) + if j < n then cs[j].txnRemaining - c.txnRemaining else 0
  {
    if n > 0 {
      FinishedUpdate(cs, txns, j, c, n - 1);
    }
  }

  lemma {:induction false} FinishedNone(cs: seq<Client>, txns: nat, n: nat)
    requires n <= |cs| && forall j :: 0 <= j < |cs| ==> cs[j].txnRemaining == txns
    ensures Finished(cs, txns, n) == 0
  {
    if n > 0 {
      FinishedNone(cs, txns, n - 1);
    }
  }

  /** The loop's exit test: all transactions are finished iff every client is done. */
  lemma {:induction false} FinishedAll(
    cfg: Config, cs: seq<Client>, hist: seq<History>, log: seq<TscLog.Record>, n: nat)
    requires cfg.Valid() && AllFollow(cfg, cs, hist, log) && n <= |cs|
    ensures Finished(cs, cfg.txns, n) <= cfg.txns * n
    ensures Finished(cs, cfg.txns, n) == cfg.txns * n <==> forall j :: 0 <= j < n ==> cs[j].phase == Done
  {
    if n > 0 {
      FinishedAll(cfg, cs, hist, log, n - 1);
      assert Follows(cfg, cs[n - 1], hist[n - 1], Project(log, n - 1));
      assert cfg.txns * n == cfg.txns * (n - 1) + cfg.txns;
    }
  }

  /** Adding a record to the log adds an event to its client's part and to no other. */
  lemma Logged(log: seq<TscLog.Record>, r: TscLog.Record, j: nat)
    ensures Project(log + [r], j) == Project(log, j) + if r.client == j then [Event(r.id, r.event)] else []
  {
    assert (log + [r])[..|log|] == log;
  }

  /** The record client j logs for an event. */
  function Entry(cfg: Config, index: nat, cs: seq<Client>, j: nat, event: nat): TscLog.Record
    requires j < |cs| && cs[j].txnRemaining <= cfg.txns
  {
    TscLog.Record(index, j, cfg.txns - cs[j].txnRemaining, event)
  }

  lemma ButLogged(cfg: Config, cs: seq<Client>, hist: seq<History>, log: seq<TscLog.Record>, r: TscLog.Record)
    requires cfg.Valid() && FollowBut(cfg, cs, hist, log, r.client) && r.client < |cs|
    ensures FollowBut(cfg, cs, hist, log + [r], r.client)
    ensures Project(log + [r], r.client) == Project(log, r.client) + [Event(r.id, r.event)]
  {
    Logged(log, r, r.client);
    forall i: nat | i < |cs| && i != r.client
      ensures Follows(cfg, cs[i], hist[i], Project(log + [r], i))
    {
      Logged(log, r, i);
      assert Follows(cfg, cs[i], hist[i], Project(log, i));
    }
  }

  /** The moving client agrees again. */
  lemma Rejoin(cfg: Config, cs: seq<Client>, hist: seq<History>, log: seq<TscLog.Record>,
               j: nat, c: Client, h: History)
    requires cfg.Valid() && FollowBut(cfg, cs, hist, log, j) && j < |cs|
    requires Follows(cfg, c, h, Project(log, j))
    ensures AllFollow(cfg, cs[j := c], hist[j := h], log)
  {
    forall i: nat | i < |cs|
      ensures Follows(cfg, cs[j := c][i], hist[j := h][i], Project(log, i))
    {
      if i != j {
        assert Follows(cfg, cs[i], hist[i], Project(log, i));
      }
    }
  }

  lemma Starting(cfg: Config, cs: seq<Client>, hist: seq<History>, log: seq<TscLog.Record>, index: nat, j: nat)
    requires cfg.Valid() && AllFollow(cfg, cs, hist, log) && j < |cs| && cs[j].phase == Init
    ensures cs[j].txnRemaining <= cfg.txns
    ensures var e := Entry(cfg, index, cs, j, CONNECT_START);
            var f := Entry(cfg, index, cs, j, CONNECT_DONE);
            var c := cs[j].(batchRemaining := cfg.batch);
            && AllFollow(cfg, cs[j := c.(phase := Connecting)], hist, log + [e])
            && AllFollow(cfg, cs[j := c.(phase := Ready)], hist, log + [e] + [f])
  {
    assert Follows(cfg, cs[j], hist[j], Project(log, j));
    var e := Entry(cfg, index, cs, j, CONNECT_START);
    var f := Entry(cfg, index, cs, j, CONNECT_DONE);
    var c := cs[j].(batchRemaining := cfg.batch);
    ConnectStarts(cfg, cs[j], hist[j], Project(log, j));
    ButLogged(cfg, cs, hist, log, e);
    ButLogged(cfg, cs, hist, log + [e], f);
    Rejoin(cfg, cs, hist, log + [e], j, c.(phase := Connecting), hist[j]);
    Rejoin(cfg, cs, hist, log + [e] + [f], j, c.(phase := Ready), hist[j]);
    assert hist[j := hist[j]] == hist;
  }

  lemma Connected(cfg: Config, cs: seq<Client>, hist: seq<History>, log: seq<TscLog.Record>, index: nat, j: nat)
    requires cfg.Valid() && AllFollow(cfg, cs, hist, log) && j < |cs| && cs[j].phase == Connecting
    ensures cs[j].txnRemaining <= cfg.txns
    ensures AllFollow(cfg, cs[j := cs[j].(phase := New)], hist, log + [Entry(cfg, index, cs, j, CONNECT_DONE)])
  {
    assert Follows(cfg, cs[j], hist[j], Project(log, j));
    var e := Entry(cfg, index, cs, j, CONNECT_DONE);
    ConnectEnds(cfg, cs[j], hist[j], Project(log, j));
    ButLogged(cfg, cs, hist, log, e);
    Rejoin(cfg, cs, hist, log + [e], j, cs[j].(phase := New), hist[j]);
    assert hist[j := hist[j]] == hist;
  }

  lemma Registered(cfg: Config, cs: seq<Client>, hist: seq<History>, log: seq<TscLog.Record>, j: nat)
    requires cfg.Valid() && AllFollow(cfg, cs, hist, log) && j < |cs| && cs[j].phase == New
    ensures AllFollow(cfg, cs[j := cs[j].(phase := Ready)], hist, log)
  {
    assert Follows(cfg, cs[j], hist[j], Project(log, j));
    Rejoin(cfg, cs, hist, log, j, cs[j].(phase := Ready), hist[j]);
    assert hist[j := hist[j]] == hist;
  }

  lemma Sending(cfg: Config, cs: seq<Client>, hist: seq<History>, log: seq<TscLog.Record>, index: nat, j: nat)
    requires cfg.Valid() && AllFollow(cfg, cs, hist, log) && j < |cs| && cs[j].phase == Ready
    ensures cs[j].txnRemaining <= cfg.txns
    ensures var e := Entry(cfg, index, cs, j, SEND_START);
            var f := Entry(cfg, index, cs, j, SEND_DONE);
            AllFollow(cfg, cs[j := cs[j].(phase := Sent)], hist, log + [e] + [f])
  {
    var t, k := Project(log, j), |hist[j].finished|;
    assert Follows(cfg, cs[j], hist[j], t);
    var e := Entry(cfg, index, cs, j, SEND_START);
    var f := Entry(cfg, index, cs, j, SEND_DONE);
    RequestSent(cfg, cs[j], hist[j], t);
    ButLogged(cfg, cs, hist, log, e);
    ButLogged(cfg, cs, hist, log + [e], f);
    assert e.id == k && f.id == k;
    Rejoin(cfg, cs, hist, log + [e] + [f], j, cs[j].(phase := Sent), hist[j]);
    assert hist[j := hist[j]] == hist;
  }

  lemma Receiving(cfg: Config, cs: seq<Client>, hist: seq<History>, log: seq<TscLog.Record>,
                  index: nat, j: nat, got: nat)
    requires cfg.Valid() && AllFollow(cfg, cs, hist, log) && j < |cs| && cs[j].phase == Sent
    ensures 0 < cs[j].txnRemaining <= cfg.txns && cs[j].batchRemaining > 0 && cs[j].cursor < cfg.size
    ensures var e := Entry(cfg, index, cs, j, RECV_START);
            var f := Entry(cfg, index, cs, j, RECV_DONE);
            var ends := cs[j].cursor + got >= cfg.size;
            AllFollow(cfg, cs[j := if ends then Served(cs[j]) else cs[j].(cursor := cs[j].cursor + got)],
                      hist[j := Woken(hist[j], ends)], log + [e] + [f])
  {
    assert Follows(cfg, cs[j], hist[j], Project(log, j));
    var e := Entry(cfg, index, cs, j, RECV_START);
    var f := Entry(cfg, index, cs, j, RECV_DONE);
    ReplyComplete(cfg, cs[j], hist[j], Project(log, j));
    ButLogged(cfg, cs, hist, log, e);
    ButLogged(cfg, cs, hist, log + [e], f);
    if cs[j].cursor + got >= cfg.size {
      Rejoin(cfg, cs, hist, log + [e] + [f], j, Served(cs[j]), Woken(hist[j], true));
    } else {
      ReplyPartial(cfg, cs[j], hist[j], Project(log, j), got);
      Rejoin(cfg, cs, hist, log + [e] + [f], j, cs[j].(cursor := cs[j].cursor + got), Woken(hist[j], false));
    }
  }

  function Rank(p: Phase): nat {
    match p
    case Init => 4
    case Connecting => 3
    case New => 2
    case Ready => 1
    case Sent => 0
    case Done => 0
  }

  predicate Movable(c: Client) {
    c.phase == Sent ==> c.txnRemaining > 0 && c.batchRemaining > 0
  }

  predicate Completes(cfg: Config, c: Client, got: nat) {
    c.phase == Sent && c.cursor + got >= cfg.size
  }

  /** Connect or send until epoll is needed: a client rests waiting for its connection,
      waiting for a reply, or done. */
  function Settled(cfg: Config, c: Client, immediate: bool): (r: Client)
    ensures r.phase in {Connecting, Sent, Done} && r.txnRemaining == c.txnRemaining
  {
    match c.phase
    case Init => c.(phase := if immediate then Sent else Connecting, batchRemaining := cfg.batch)
    case Sent => c
    case Done => c
    case _ => c.(phase := Sent)
  }

  /** What one call does to its client: at most one transaction ends, and then the next
      one is under way, or its connection is, or the client is done. */
  function Moved(cfg: Config, c: Client, got: nat, immediate: bool): (r: Client)
    requires Movable(c)
    ensures r.phase in {Connecting, Sent, Done}
    ensures r.txnRemaining == c.txnRemaining - if Completes(cfg, c, got) then 1 else 0
  {
    if Completes(cfg, c, got) then Settled(cfg, Served(c), immediate)
    else if c.phase == Sent then c.(cursor := c.cursor + got)
    else Settled(cfg, c, immediate)
  }

  /** The clients after one of them was woken. */
  function AfterWake(cfg: Config, cs: seq<Client>, w: Wake): (r: seq<Client>)
    ensures |r| == |cs|
  {
    if w.j < |cs| && Movable(cs[w.j]) then cs[w.j := Moved(cfg, cs[w.j], Offered(w.chunks), w.immediate)] else cs
  }

  /** After the first k of some wakes, one after the other. */
  function AfterWakes(cfg: Config, cs: seq<Client>, ws: seq<Wake>, k: nat): (r: seq<Client>)
    requires k <= |ws|
    ensures |r| == |cs|
  {
    if k == 0 then cs else AfterWake(cfg, AfterWakes(cfg, cs, ws, k - 1), ws[k - 1])
  }

  /** After the first k rounds. */
  function AfterRounds(cfg: Config, cs: seq<Client>, rounds: seq<seq<Wake>>, k: nat): (r: seq<Client>)
    requires k <= |rounds|
    ensures |r| == |cs|
  {
    if k == 0 then cs
    else AfterWakes(cfg, AfterRounds(cfg, cs, rounds, k - 1), rounds[k - 1], |rounds[k - 1]|)
  }

  /** The histories after a client was woken: a client that was awaiting its reply has had
      one more receive wakeup. */
  function HistAfterWake(cfg: Config, cs: seq<Client>, hist: seq<History>, w: Wake): (r: seq<History>)
    ensures |r| == |hist|
  {
    if w.j < |cs| == |hist| && cs[w.j].phase == Sent then
      hist[w.j := Woken(hist[w.j], Completes(cfg, cs[w.j], Offered(w.chunks)))]
    else hist
  }

  function HistAfterWakes(cfg: Config, cs: seq<Client>, hist: seq<History>, ws: seq<Wake>, k: nat): (r: seq<History>)
    requires k <= |ws|
    ensures |r| == |hist|
  {
    if k == 0 then hist
    else HistAfterWake(cfg, AfterWakes(cfg, cs, ws, k - 1), HistAfterWakes(cfg, cs, hist, ws, k - 1), ws[k - 1])
  }

  function HistAfterRounds(cfg: Config, cs: seq<Client>, hist: seq<History>, rounds: seq<seq<Wake>>, k: nat)
    : (r: seq<History>)
    requires k <= |rounds|
    ensures |r| == |hist|
  {
    if k == 0 then hist
    else
      var round := rounds[k - 1];
      HistAfterWakes(cfg, AfterRounds(cfg, cs, rounds, k - 1), HistAfterRounds(cfg, cs, hist, rounds, k - 1),
                     round, |round|)
  }

  /** The first transition of every client, in order. */
  function FirstWakes(starts: seq<bool>): (ws: seq<Wake>)
    ensures |ws| == |starts|
  {
    seq(|starts|, i requires 0 <= i < |starts| => Wake(i, [], starts[i]))
  }

  class Worker {
    const cfg: Config
    const index: nat
    const log: TscLog.Log
    var clients: seq<Client>
    ghost var hist: seq<History>

    ghost predicate Valid()
      reads this, log
    {
      cfg.Valid() && log.Valid() && AllFollow(cfg, clients, hist, log.attempts)
    }

    constructor (cfg: Config, index: nat, n: nat, log: TscLog.Log)
      requires cfg.Valid() && log.Valid() && log.attempts == []
      ensures Valid() && |clients| == n && this.log == log && this.cfg == cfg
      ensures forall j :: 0 <= j < n ==> clients[j] == Client(Init, 0, cfg.txns, cfg.batch) && hist[j] == History([], 0)
    {
      this.cfg, this.index, this.log := cfg, index, log;
      clients := seq(n, _ => Client(Init, 0, cfg.txns, cfg.batch));
      hist := seq(n, _ => History([], 0));
      new;
      assert 0 % cfg.batch == 0;
    }

    method Tsc(j: nat, event: nat)
      requires log.Valid() && j < |clients| && clients[j].txnRemaining <= cfg.txns
      modifies log
      ensures log.Valid() && log.attempts == old(log.attempts) + [Entry(cfg, index, clients, j, event)]
    {
      log.Tsclog4(TscLog.Record(index, j, cfg.txns - clients[j].txnRemaining, event));
    }

    /** INIT: open a socket and start connecting. */
    method StartConnect(j: nat, immediate: bool)
      requires Valid() && j < |clients| && clients[j].phase == Init
      modifies this`clients, log
      ensures Valid() && clients == old(clients)[j :=
                old(clients[j]).(phase := if immediate then Ready else Connecting, batchRemaining := cfg.batch)]
    {
      ghost var cs, l := clients, log.attempts;
      ghost var c := cs[j].(batchRemaining := cfg.batch);
      Starting(cfg, cs, hist, l, index, j);
      clients := clients[j := clients[j].(batchRemaining := cfg.batch)];
      Tsc(j, CONNECT_START);
      assert clients == cs[j := c] && log.attempts == l + [Entry(cfg, index, cs, j, CONNECT_START)];
      clients := clients[j := clients[j].(phase := if immediate then Ready else Connecting)];
      if clients[j].phase != Ready {
        assert clients == cs[j := c.(phase := Connecting)];
        return;
      }
      assert clients == cs[j := c.(phase := Ready)];
      Tsc(j, CONNECT_DONE);
      assert log.attempts == l + [Entry(cfg, index, cs, j, CONNECT_START)] + [Entry(cfg, index, cs, j, CONNECT_DONE)];
    }

    /** CONNECTING: the socket is connected. */
    method FinishConnect(j: nat)
      requires Valid() && j < |clients| && clients[j].phase == Connecting
      modifies this`clients, log
      ensures Valid() && clients == old(clients)[j := old(clients[j]).(phase := New)]
    {
      Connected(cfg, clients, hist, log.attempts, index, j);
      Tsc(j, CONNECT_DONE);
      clients := clients[j := clients[j].(phase := New)];
    }

    /** READY: send the whole message. */
    method SendRequest(j: nat)
      requires Valid() && j < |clients| && clients[j].phase == Ready
      modifies this`clients, log
      ensures Valid() && clients == old(clients)[j := old(clients[j]).(phase := Sent)]
    {
      Sending(cfg, clients, hist, log.attempts, index, j);
      Tsc(j, SEND_START);
      Tsc(j, SEND_DONE);
      clients := clients[j := clients[j].(phase := Sent)];
    }

    /** The whole reply is here: next transaction, next connection, or done. */
    method EndTransaction(j: nat)
      requires j < |clients| && clients[j].txnRemaining > 0 && clients[j].batchRemaining > 0
      modifies this`clients
      ensures clients == old(clients)[j := Served(old(clients[j]))]
    {
      clients := clients[j := clients[j].(cursor := 0, txnRemaining := clients[j].txnRemaining - 1)];
      if clients[j].txnRemaining == 0 {
        clients := clients[j := clients[j].(phase := Done)];
        return;
      }
      clients := clients[j := clients[j].(batchRemaining := clients[j].batchRemaining - 1)];
      clients := clients[j := clients[j].(phase := if clients[j].batchRemaining == 0 then Init else Ready)];
    }

    /** SENT: receive what there is; with the whole reply here the transaction is over. */
    method ReceiveReply(j: nat, chunks: seq<Count>) returns (complete: bool)
      requires Valid() && j < |clients| && clients[j].phase == Sent
      modifies this`hist, this`clients, log
      ensures Valid() && complete == (old(clients[j]).cursor + Offered(chunks) >= cfg.size)
      ensures hist == old(hist)[j := Woken(old(hist[j]), complete)]
      ensures var c := old(clients[j]);
              && c.txnRemaining > 0 && c.batchRemaining > 0
              && clients == old(clients)[j := if complete then Served(c) else c.(cursor := c.cursor + Offered(chunks))]
    {
      ghost var cs, got := clients, Offered(chunks);
      Receiving(cfg, clients, hist, log.attempts, index, j, got);
      ReceiveLogged(j, chunks);
      complete := clients[j].cursor >= cfg.size;
      hist := hist[j := Woken(hist[j], complete)];
      if !complete {
        assert clients == cs[j := cs[j].(cursor := cs[j].cursor + got)];
        return;
      }
      EndTransaction(j);
      assert clients == cs[j := Served(cs[j])];
    }

    /** The receive and the two events around it. */
    method ReceiveLogged(j: nat, chunks: seq<Count>)
      requires log.Valid() && j < |clients| && clients[j].txnRemaining <= cfg.txns && clients[j].cursor < cfg.size
      modifies this`clients, log
      ensures log.Valid() && log.attempts == old(log.attempts)
                + [Entry(cfg, index, old(clients), j, RECV_START)] + [Entry(cfg, index, old(clients), j, RECV_DONE)]
      ensures var c := old(clients[j]);
              clients == old(clients)[j := c.(cursor := c.cursor + Min(cfg.size - c.cursor, Offered(chunks)))]
    {
      Tsc(j, RECV_START);
      var got := ClientRecv(chunks, cfg.size - clients[j].cursor);
      clients := clients[j := clients[j].(cursor := clients[j].cursor + got)];
      Tsc(j, RECV_DONE);
    }

    /** Move client j as far as it goes before it must wait for epoll again. */
    method DoStateTransition(j: nat, chunks: seq<Count>, immediate: bool) returns (n: nat)
      requires Valid() && j < |clients|
      modifies this`hist, this`clients, log
      ensures Valid() && Movable(old(clients[j]))
      ensures clients == old(clients)[j := Moved(cfg, old(clients[j]), Offered(chunks), immediate)]
      ensures n == if Completes(cfg, old(clients[j]), Offered(chunks)) then 1 else 0
      ensures hist == if old(clients[j]).phase == Sent then old(hist)[j := Woken(old(hist[j]), n == 1)] else old(hist)
      decreases clients[j].txnRemaining, Rank(clients[j].phase)
    {
      match clients[j].phase
      case Init =>
        StartConnect(j, immediate);
        if clients[j].phase != Ready {
          return 0;
        }
        n := DoStateTransition(j, chunks, immediate);
      case Connecting =>
        FinishConnect(j);
        n := DoStateTransition(j, chunks, immediate);
      case New =>
        Registered(cfg, clients, hist, log.attempts, j);
        clients := clients[j := clients[j].(phase := Ready)];
        n := DoStateTransition(j, chunks, immediate);
      case Ready =>
        SendRequest(j);
        n := 0;
      case Sent =>
        var complete := ReceiveReply(j, chunks);
        if !complete {
          return 0;
        }
        n := DoStateTransition(j, chunks, immediate);
        n := 1 + n;
      case Done =>
        n := 0;
    }

    /** The experiment: start every client, then serve what epoll reports until the
        count of finished transactions reaches the total or somebody has set `dying`.
        `dying[k]` is what the loop's k-th test reads there, `rounds` what epoll then
        reports; `used` is how many rounds that took. */
    method Run(starts: seq<bool>, dying: seq<bool>, rounds: seq<seq<Wake>>) returns (complete: nat, used: nat)
      requires Valid() && |starts| == |clients| && |dying| == |rounds| + 1
      requires forall j :: 0 <= j < |clients| ==> clients[j].phase == Init && clients[j].txnRemaining == cfg.txns
      requires forall k, i :: 0 <= k < |rounds| && 0 <= i < |rounds[k]| ==> rounds[k][i].j < |clients|
      modifies this`hist, this`clients, log
      ensures Valid() && used <= |rounds| && clients == AfterRounds(cfg, Started(old(clients), starts), rounds, used)
      ensures hist == HistAfterRounds(cfg, Started(old(clients), starts),
                                      HistAfterWakes(cfg, old(clients), old(hist), FirstWakes(starts), |starts|),
                                      rounds, used)
      ensures complete == Finished(clients, cfg.txns, |clients|) <= cfg.txns * |clients|
      // it goes on while it should, and stops when it should or epoll is silent
      ensures forall k :: 0 <= k < used ==> !dying[k] && Unfinished(Started(old(clients), starts), rounds, k)
      ensures used == |rounds| || dying[used] || complete == cfg.txns * |clients|
      ensures complete == cfg.txns * |clients| <==> forall j :: 0 <= j < |clients| ==> clients[j].phase == Done
    {
      complete := StartAll(starts);
      complete, used := Serve(complete, dying, rounds);
      FinishedAll(cfg, clients, hist, log.attempts, |clients|);
    }

    /** The clients once each has made its first transition. */
    ghost function Started(cs: seq<Client>, starts: seq<bool>): (r: seq<Client>)
      ensures |r| == |cs|
    {
      AfterWakes(cfg, cs, FirstWakes(starts), |starts|)
    }

    /** Every client's first transition. */
    method StartAll(starts: seq<bool>) returns (complete: nat)
      requires Valid() && |starts| == |clients|
      requires forall j :: 0 <= j < |clients| ==> clients[j].txnRemaining == cfg.txns
      modifies this`hist, this`clients, log
      ensures Valid() && clients == AfterWakes(cfg, old(clients), FirstWakes(starts), |starts|)
      ensures hist == HistAfterWakes(cfg, old(clients), old(hist), FirstWakes(starts), |starts|)
      ensures complete == Finished(clients, cfg.txns, |clients|)
    {
      complete := 0;
      FinishedNone(clients, cfg.txns, |clients|);
      for i := 0 to |clients|
        invariant Valid() && |clients| == |starts|
        invariant clients == AfterWakes(cfg, old(clients), FirstWakes(starts), i)
        invariant hist == HistAfterWakes(cfg, old(clients), old(hist), FirstWakes(starts), i)
        invariant complete == Finished(clients, cfg.txns, |clients|)
      {
        complete := Step(complete, Wake(i, [], starts[i]));
      }
    }

    /** k rounds do not finish all transactions. */
    ghost predicate Unfinished(cs: seq<Client>, rounds: seq<seq<Wake>>, k: nat)
      requires k <= |rounds|
    {
      Finished(AfterRounds(cfg, cs, rounds, k), cfg.txns, |cs|) < cfg.txns * |cs|
    }

    /** The loop. */
    method Serve(count: nat, dying: seq<bool>, rounds: seq<seq<Wake>>) returns (complete: nat, used: nat)
      requires Valid() && |dying| == |rounds| + 1 && count == Finished(clients, cfg.txns, |clients|)
      requires forall k, i :: 0 <= k < |rounds| && 0 <= i < |rounds[k]| ==> rounds[k][i].j < |clients|
      modifies this`hist, this`clients, log
      ensures Valid() && used <= |rounds| && clients == AfterRounds(cfg, old(clients), rounds, used)
      ensures hist == HistAfterRounds(cfg, old(clients), old(hist), rounds, used)
      ensures complete == Finished(clients, cfg.txns, |clients|)
      ensures forall k :: 0 <= k < used ==> !dying[k] && Unfinished(old(clients), rounds, k)
      ensures used == |rounds| || dying[used] || complete >= cfg.txns * |clients|
    {
      var total := cfg.txns * |clients|;
      complete, used := count, 0;
      while !dying[used] && complete < total && used < |rounds|
        invariant Valid() && |clients| == |old(clients)| && used <= |rounds|
        invariant clients == AfterRounds(cfg, old(clients), rounds, used)
        invariant hist == HistAfterRounds(cfg, old(clients), old(hist), rounds, used)
        invariant complete == Finished(clients, cfg.txns, |clients|)
        invariant forall k :: 0 <= k < used ==> !dying[k] && Unfinished(old(clients), rounds, k)
        decreases |rounds| - used
      {
        complete := Round(complete, rounds[used]);
        used := used + 1;
      }
    }

    /** All that one epoll_wait reports. */
    method Round(complete: nat, round: seq<Wake>) returns (more: nat)
      requires Valid() && complete == Finished(clients, cfg.txns, |clients|)
      requires forall i :: 0 <= i < |round| ==> round[i].j < |clients|
      modifies this`hist, this`clients, log
      ensures Valid() && clients == AfterWakes(cfg, old(clients), round, |round|)
      ensures hist == HistAfterWakes(cfg, old(clients), old(hist), round, |round|)
      ensures more == Finished(clients, cfg.txns, |clients|)
    {
      more := complete;
      for i := 0 to |round|
        invariant Valid() && |clients| == |old(clients)|
        invariant clients == AfterWakes(cfg, old(clients), round, i)
        invariant hist == HistAfterWakes(cfg, old(clients), old(hist), round, i)
        invariant more == Finished(clients, cfg.txns, |clients|)
      {
        more := Step(more, round[i]);
      }
    }

    /** complete += do_state_transition(...) keeps `complete` the number of transactions
        finished. */
    method Step(complete: nat, w: Wake) returns (more: nat)
      requires Valid() && w.j < |clients| && complete == Finished(clients, cfg.txns, |clients|)
      modifies this`hist, this`clients, log
      ensures Valid() && clients == AfterWake(cfg, old(clients), w)
      ensures hist == HistAfterWake(cfg, old(clients), old(hist), w)
      ensures more == Finished(clients, cfg.txns, |clients|)
    {
      ghost var cs := clients;
      var n := DoStateTransition(w.j, w.chunks, w.immediate);
      FinishedUpdate(cs, cfg.txns, w.j, clients[w.j], |cs|);
      more := complete + n;
    }
  }
}
