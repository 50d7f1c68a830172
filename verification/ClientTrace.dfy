/**
 What one client of event-tester/tcp_client.c writes to the log over its life, as an
 explicit sequence, and how long it can be.
 */
module ClientTrace {
  import opened Echo
  import TscLog

  const CONNECT_START := 0
  const CONNECT_DONE := 1
  const SEND_START := 2
  const SEND_DONE := 3
  const RECV_START := 4
  const RECV_DONE := 5

  datatype Phase = Init | Connecting | New | Ready | Sent | Done

  datatype Client = Client(phase: Phase, cursor: nat, txnRemaining: nat, batchRemaining: nat)

  datatype Event = Event(id: nat, kind: nat)

  /** Run parameters: transactions per client, transactions per connection, message size. */
  datatype Config = Config(txns: nat, batch: nat, size: nat) {
    predicate Valid() { txns > 0 && batch > 0 && size > 0 }
  }

  /** History of a client: how often it was woken to receive in each finished
      transaction, and in the one it is waiting on. */
  datatype History = History(finished: seq<nat>, current: nat)

  /** A start event and its done event. */
  function Pair(id: nat, start: nat): seq<Event> {
    [Event(id, start), Event(id, start + 1)]
  }

  /** A new connection comes before every `batch`-th transaction. */
  function Connect(id: nat, batch: nat): seq<Event>
    requires batch > 0
  {
    if id % batch == 0 then Pair(id, CONNECT_START) else []
  }

  function Receives(id: nat, r: nat): (t: seq<Event>)
    ensures |t| == 2 * r
  {
    if r == 0 then [] else Receives(id, r - 1) + Pair(id, RECV_START)
  }

  function Txn(id: nat, r: nat, batch: nat): seq<Event>
    requires batch > 0
  {
    Connect(id, batch) + Pair(id, SEND_START) + Receives(id, r)
  }

  /** The log of a client that was woken `rs[t]` times in its t-th transaction. */
  function Trace(rs: seq<nat>, batch: nat): seq<Event>
    requires batch > 0
  {
    if rs == [] then [] else Trace(rs[..|rs| - 1], batch) + Txn(|rs| - 1, rs[|rs| - 1], batch)
  }

  /** The part of transaction k that a client in the given phase has already logged. */
  function Opening(phase: Phase, k: nat, current: nat, batch: nat): seq<Event>
    requires batch > 0
  {
    match phase
    case Init => []
    case Connecting => [Event(k, CONNECT_START)]
    case New => Pair(k, CONNECT_START)
    case Ready => Connect(k, batch)
    case Sent => Txn(k, current, batch)
    case Done => []
  }

  /** One client's events, taken out of a worker's log. */
  function Project(log: seq<TscLog.Record>, j: nat): seq<Event> {
    if log == [] then []
    else
      var r := log[|log| - 1];
      Project(log[..|log| - 1], j) + (if r.client == j then [Event(r.id, r.event)] else [])
  }

  /** The fields of a client agree with what it has logged. */
  ghost predicate Follows(cfg: Config, c: Client, h: History, trace: seq<Event>)
    requires cfg.Valid()
  {
    var k := |h.finished|;
    && k + c.txnRemaining == cfg.txns && (c.phase == Done <==> c.txnRemaining == 0)
    && (forall r <- h.finished :: r > 0)
    && c.cursor < cfg.size && (c.phase != Sent ==> c.cursor == 0 && h.current == 0)
    && (c.phase !in {Init, Done} ==> c.batchRemaining == cfg.batch - k % cfg.batch)
    && (c.phase in {Init, Connecting, New} ==> k % cfg.batch == 0)
    && trace == Trace(h.finished, cfg.batch) + Opening(c.phase, k, h.current, cfg.batch)
  }

  function Sum(rs: seq<nat>): nat {
    if rs == [] then 0 else Sum(rs[..|rs| - 1]) + rs[|rs| - 1]
  }

  function Wakeups(h: History): nat {
    Sum(h.finished) + h.current
  }

  /** How many connections k transactions take. */
  function Connections(k: nat, batch: nat): nat
    requires batch > 0
  {
    (k + batch - 1) / batch
  }

  lemma ConnectionsOf(k: nat, batch: nat, q: nat, r: nat)
    requires r < batch && k == q * batch + r
    ensures Connections(k, batch) == q + if r == 0 then 0 else 1
  {
    if r == 0 {
      ModUnique(k + batch - 1, batch, q, batch - 1);
    } else {
      assert (q + 1) * batch == q * batch + batch;
      ModUnique(k + batch - 1, batch, q + 1, r - 1);
    }
  }

  lemma ConnectionsNext(k: nat, batch: nat)
    requires batch > 0
    ensures Connections(k + 1, batch) == Connections(k, batch) + if k % batch == 0 then 1 else 0
  {
    var q, r := k / batch, k % batch;
    ConnectionsOf(k, batch, q, r);
    if r + 1 == batch {
      assert (q + 1) * batch == q * batch + batch;
      ConnectionsOf(k + 1, batch, q + 1, 0);
    } else {
      ConnectionsOf(k + 1, batch, q, r + 1);
    }
  }

  /** The exact length of a finished client's log. */
  lemma {:induction false} TraceLength(rs: seq<nat>, batch: nat)
    requires batch > 0
    ensures |Trace(rs, batch)| == 2 * Connections(|rs|, batch) + 2 * |rs| + 2 * Sum(rs)
  {
    if rs == [] {
      assert (batch - 1) / batch == 0;
    } else {
      TraceLength(rs[..|rs| - 1], batch);
      ConnectionsNext(|rs| - 1, batch);
    }
  }

  lemma {:induction false} ConnectionsGrow(j: nat, k: nat, batch: nat)
    requires batch > 0 && j <= k
    ensures Connections(j, batch) <= Connections(k, batch)
  {
    if j < k {
      ConnectionsGrow(j, k - 1, batch);
      ConnectionsNext(k - 1, batch);
    }
  }

  /** Whatever phase a client is in, its log is no longer than that of a finished client
      woken as often, and exactly as long once it is done. */
  lemma LengthBound(cfg: Config, c: Client, h: History, trace: seq<Event>)
    requires cfg.Valid() && Follows(cfg, c, h, trace)
    ensures |trace| <= 2 * Connections(cfg.txns, cfg.batch) + 2 * cfg.txns + 2 * Wakeups(h)
    ensures c.phase == Done ==>
              |trace| == 2 * Connections(cfg.txns, cfg.batch) + 2 * cfg.txns + 2 * Wakeups(h)
  {
    var k := |h.finished|;
    TraceLength(h.finished, cfg.batch);
    if c.phase != Done {
      ConnectionsNext(k, cfg.batch);
      ConnectionsGrow(k + 1, cfg.txns, cfg.batch);
    }
  }

  /** Where the events of transaction t stand in a trace: after the first t transactions,
      and they are a connect pair if t is a multiple of `batch`, a send pair, and as many
      receive pairs as there were wakeups. */
  lemma {:induction false} TraceGrammar(rs: seq<nat>, batch: nat, t: nat)
    requires batch > 0 && t < |rs|
    ensures Trace(rs[..t], batch) + Txn(t, rs[t], batch) <= Trace(rs, batch)
  {
    if t < |rs| - 1 {
      TraceGrammar(rs[..|rs| - 1], batch, t);
      assert rs[..|rs| - 1][..t] == rs[..t];
    }
  }

  lemma ConnectStarts(cfg: Config, c: Client, h: History, trace: seq<Event>)
    requires cfg.Valid() && Follows(cfg, c, h, trace) && c.phase == Init
    ensures var k := |h.finished|;
            var c' := c.(batchRemaining := cfg.batch);
            && Follows(cfg, c'.(phase := Connecting), h, trace + [Event(k, CONNECT_START)])
            && Follows(cfg, c'.(phase := Ready), h, trace + [Event(k, CONNECT_START)] + [Event(k, CONNECT_DONE)])
  {
    var k := |h.finished|;
    assert trace + [Event(k, CONNECT_START)] + [Event(k, CONNECT_DONE)] == trace + Pair(k, CONNECT_START);
  }

  lemma ConnectEnds(cfg: Config, c: Client, h: History, trace: seq<Event>)
    requires cfg.Valid() && Follows(cfg, c, h, trace) && c.phase == Connecting
    ensures Follows(cfg, c.(phase := New), h, trace + [Event(|h.finished|, CONNECT_DONE)])
    ensures Follows(cfg, c.(phase := Ready), h, trace + [Event(|h.finished|, CONNECT_DONE)])
  {
    var k := |h.finished|;
    assert [Event(k, CONNECT_START)] + [Event(k, CONNECT_DONE)] == Pair(k, CONNECT_START);
  }

  lemma RequestSent(cfg: Config, c: Client, h: History, trace: seq<Event>)
    requires cfg.Valid() && Follows(cfg, c, h, trace) && c.phase == Ready
    ensures Follows(cfg, c.(phase := Sent), h,
                    trace + [Event(|h.finished|, SEND_START)] + [Event(|h.finished|, SEND_DONE)])
  {
    var k := |h.finished|;
    assert trace + [Event(k, SEND_START)] + [Event(k, SEND_DONE)] == trace + Pair(k, SEND_START);
    assert Txn(k, 0, cfg.batch) == Connect(k, cfg.batch) + Pair(k, SEND_START);
  }

  /** The history after one more receive wakeup, which does or does not end the
      transaction. */
  function Woken(h: History, ends: bool): History {
    if ends then History(h.finished + [h.current + 1], 0) else h.(current := h.current + 1)
  }

  lemma WokenTrace(h: History, batch: nat)
    requires batch > 0
    ensures var k := |h.finished|;
            var t :=
              Trace(h.finished, batch) + Txn(k, h.current, batch) + [Event(k, RECV_START)] + [Event(k, RECV_DONE)];
            && t == Trace(h.finished, batch) + Txn(k, h.current + 1, batch)
            && t == Trace(Woken(h, true).finished, batch)
  {
    var k := |h.finished|;
    var trace := Trace(h.finished, batch) + Txn(k, h.current, batch);
    assert trace + [Event(k, RECV_START)] + [Event(k, RECV_DONE)] == trace + Pair(k, RECV_START);
    assert Txn(k, h.current + 1, batch) == Txn(k, h.current, batch) + Pair(k, RECV_START);
    assert Woken(h, true).finished[..k] == h.finished;
  }

  lemma ReplyPartial(cfg: Config, c: Client, h: History, trace: seq<Event>, got: nat)
    requires cfg.Valid() && Follows(cfg, c, h, trace) && c.phase == Sent && c.cursor + got < cfg.size
    ensures Follows(cfg, c.(cursor := c.cursor + got), Woken(h, false),
                    trace + [Event(|h.finished|, RECV_START)] + [Event(|h.finished|, RECV_DONE)])
  {
    WokenTrace(h, cfg.batch);
  }

  /** What a whole reply does to a client: next transaction, next connection, or done. */
  function Served(c: Client): Client
    requires c.txnRemaining > 0 && c.batchRemaining > 0
  {
    if c.txnRemaining == 1 then Client(Done, 0, 0, c.batchRemaining)
    else Client(if c.batchRemaining == 1 then Init else Ready, 0, c.txnRemaining - 1, c.batchRemaining - 1)
  }

  lemma ReplyComplete(cfg: Config, c: Client, h: History, trace: seq<Event>)
    requires cfg.Valid() && Follows(cfg, c, h, trace) && c.phase == Sent
    ensures c.txnRemaining > 0 && c.batchRemaining > 0
    ensures Follows(cfg, Served(c), Woken(h, true),
                    trace + [Event(|h.finished|, RECV_START)] + [Event(|h.finished|, RECV_DONE)])
  {
    WokenTrace(h, cfg.batch);
    ModNext(|h.finished|, cfg.batch);
  }

  lemma ModNext(k: nat, batch: nat)
    requires batch > 0
    ensures (k + 1) % batch == if k % batch == batch - 1 then 0 else k % batch + 1
  {
    var q, r := k / batch, k % batch;
    if r == batch - 1 {
      assert (q + 1) * batch == q * batch + batch;
      ModUnique(k + 1, batch, q + 1, 0);
    } else {
      ModUnique(k + 1, batch, q, r + 1);
    }
  }
}
