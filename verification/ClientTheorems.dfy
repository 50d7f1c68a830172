/**
 What every run of a client's worker leaves in its log, and how much room that takes.
 */
module ClientTheorems {
  import opened ClientTrace
  import opened TcpClient
  import TscLog

  /** A finished client's log is, in order, its transactions 0 .. txns - 1: transaction t
      stands right after the first t, and is a connect pair if t is a multiple of the
      batch, a send pair, and one receive pair or more. */
  lemma FinishedLog(w: Worker, j: nat, t: nat)
    requires w.Valid() && j < |w.clients| && w.clients[j].phase == Done && t < w.cfg.txns
    ensures var log := Project(w.log.attempts, j);
            var rs, batch := w.hist[j].finished, w.cfg.batch;
            && |rs| == w.cfg.txns && rs[t] > 0
            && log == Trace(rs, batch)
            && Trace(rs[..t], batch) + Txn(t, rs[t], batch) <= log
  {
    assert Follows(w.cfg, w.clients[j], w.hist[j], Project(w.log.attempts, j));
    var rs, batch := w.hist[j].finished, w.cfg.batch;
    assert rs[t] in rs;
    TraceGrammar(rs, batch, t);
    assert Opening(Done, |rs|, 0, batch) == [];
  }

  /** While a client has a connection, `batchRemaining` is what is left of its batch. */
  lemma BatchRemaining(w: Worker, j: nat)
    requires w.Valid() && j < |w.clients| && w.clients[j].phase !in {Init, Done}
    ensures var c := w.clients[j];
            && 1 <= c.batchRemaining <= w.cfg.batch
            && c.batchRemaining == w.cfg.batch - (w.cfg.txns - c.txnRemaining) % w.cfg.batch
  {
    assert Follows(w.cfg, w.clients[j], w.hist[j], Project(w.log.attempts, j));
  }

  /** The clients' parts add up to the log. */
  function Parts(log: seq<TscLog.Record>, n: nat): nat {
    if n == 0 then 0 else Parts(log, n - 1) + |Project(log, n - 1)|
  }

  lemma {:induction false} PartsGrow(log: seq<TscLog.Record>, r: TscLog.Record, n: nat)
    ensures Parts(log + [r], n) == Parts(log, n) + if r.client < n then 1 else 0
  {
    if n > 0 {
      PartsGrow(log, r, n - 1);
      Logged(log, r, n - 1);
    }
  }

  lemma {:induction false} PartsNone(n: nat)
    ensures Parts([], n) == 0
  {
    if n > 0 {
      PartsNone(n - 1);
    }
  }

  lemma {:induction false} PartsAll(log: seq<TscLog.Record>, n: nat)
    requires forall r <- log :: r.client < n
    ensures |log| == Parts(log, n)
  {
    if log == [] {
      PartsNone(n);
    } else {
      PartsAll(log[..|log| - 1], n);
      assert log[..|log| - 1] + [log[|log| - 1]] == log;
      PartsGrow(log[..|log| - 1], log[|log| - 1], n);
    }
  }

  /** Log entries of one client apart from its receives. */
  function Fixed(cfg: Config): nat
    requires cfg.Valid()
  {
    2 * Connections(cfg.txns, cfg.batch) + 2 * cfg.txns
  }

  lemma {:induction false} PartsBound(
    cfg: Config, cs: seq<Client>, hist: seq<History>, log: seq<TscLog.Record>, n: nat)
    requires cfg.Valid() && AllFollow(cfg, cs, hist, log) && n <= |cs|
    ensures Parts(log, n) <= n * Fixed(cfg) + 2 * Received(hist, n)
    ensures (forall j :: 0 <= j < n ==> cs[j].phase == Done) ==>
              Parts(log, n) == n * Fixed(cfg) + 2 * Received(hist, n)
  {
    if n > 0 {
      PartsBound(cfg, cs, hist, log, n - 1);
      assert Follows(cfg, cs[n - 1], hist[n - 1], Project(log, n - 1));
      LengthBound(cfg, cs[n - 1], hist[n - 1], Project(log, n - 1));
      assert n * Fixed(cfg) == (n - 1) * Fixed(cfg) + Fixed(cfg);
    }
  }

  /** Receives a message is expected to take, at a maximum segment of 1380 bytes. */
  function MinIo(size: nat): nat {
    1 + size / 1380
  }

  /** How many entries `main` makes room for in each worker's log. */
  function MaxEvents(cfg: Config, clients: nat): nat
    requires cfg.Valid()
  {
    8 * (clients * (4 * MinIo(cfg.size) * cfg.txns + 2 * (1 + cfg.txns / cfg.batch)))
  }

  /** The log is big enough at any time if the worker's receive wakeups so far come to at
      most 16 * MinIo - 1 for each of its transactions; and when a run is over, the log
      overflowed exactly if its entries, two for each connection, request and receive
      wakeup, are more than there is room for. */
  lemma LogSizing(w: Worker)
    requires w.Valid() && w.log.Room() == MaxEvents(w.cfg, |w.clients|)
    ensures Received(w.hist, |w.hist|) <= (16 * MinIo(w.cfg.size) - 1) * w.cfg.txns * |w.clients| ==> !w.log.overflow
    ensures (forall j :: 0 <= j < |w.clients| ==> w.clients[j].phase == Done) ==>
              (w.log.overflow <==>
               |w.clients| * Fixed(w.cfg) + 2 * Received(w.hist, |w.hist|) > MaxEvents(w.cfg, |w.clients|))
  {
    var n := |w.clients|;
    PartsAll(w.log.attempts, n);
    PartsBound(w.cfg, w.clients, w.hist, w.log.attempts, n);
    if Received(w.hist, n) <= (16 * MinIo(w.cfg.size) - 1) * w.cfg.txns * n {
      EnoughRoom(w.cfg, n, Received(w.hist, n));
    }
  }

  lemma EnoughRoom(cfg: Config, n: nat, received: nat)
    requires cfg.Valid() && received <= (16 * MinIo(cfg.size) - 1) * cfg.txns * n
    ensures n * Fixed(cfg) + 2 * received <= MaxEvents(cfg, n)
  {
    var m, t, b := MinIo(cfg.size), cfg.txns, cfg.txns / cfg.batch;
    ConnectionsOf(cfg.txns, cfg.batch, b, cfg.txns % cfg.batch);
    assert Fixed(cfg) <= 2 * (1 + b) + 2 * t;
    Expand(m, t, b, n);
    assert n * Fixed(cfg) <= n * (2 * (1 + b) + 2 * t);
    assert n * (1 + b) >= 0;
  }

  lemma Expand(m: nat, t: nat, b: nat, n: nat)
    ensures 8 * (n * (4 * m * t + 2 * (1 + b))) == 32 * (m * t * n) + 16 * (n * (1 + b))
    ensures (16 * m - 1) * t * n == 16 * (m * t * n) - t * n
    ensures n * (2 * (1 + b) + 2 * t) == 2 * (n * (1 + b)) + 2 * (t * n)
  {
  }

  /** How many of the first k wakes found their client awaiting a reply. */
  function Replies(cfg: Config, cs: seq<Client>, ws: seq<Wake>, k: nat): nat
    requires k <= |ws|
  {
    if k == 0 then 0
    else
      var now, w := AfterWakes(cfg, cs, ws, k - 1), ws[k - 1];
      Replies(cfg, cs, ws, k - 1) + if w.j < |now| && now[w.j].phase == Sent then 1 else 0
  }

  function RepliesIn(cfg: Config, cs: seq<Client>, rounds: seq<seq<Wake>>, k: nat): nat
    requires k <= |rounds|
  {
    if k == 0 then 0
    else
      RepliesIn(cfg, cs, rounds, k - 1)
      + Replies(cfg, AfterRounds(cfg, cs, rounds, k - 1), rounds[k - 1], |rounds[k - 1]|)
  }

  lemma WokenOnce(h: History, ends: bool)
    ensures Wakeups(Woken(h, ends)) == Wakeups(h) + 1
  {
    assert (h.finished + [h.current + 1])[..|h.finished|] == h.finished;
  }

  lemma {:induction false} ReceivedUpdate(hist: seq<History>, j: nat, h: History, n: nat)
    requires j < |hist| && n <= |hist|
    ensures Received(hist[j := h], n) == Received(hist, n) + if j < n then Wakeups(h) - Wakeups(hist[j]) else 0
  {
    if n > 0 {
      ReceivedUpdate(hist, j, h, n - 1);
    }
  }

  lemma {:induction false} ReceivedWakes(cfg: Config, cs: seq<Client>, hist: seq<History>, ws: seq<Wake>, k: nat)
    requires k <= |ws| && |cs| == |hist|
    ensures Received(HistAfterWakes(cfg, cs, hist, ws, k), |hist|) == Received(hist, |hist|) + Replies(cfg, cs, ws, k)
  {
    if k > 0 {
      ReceivedWakes(cfg, cs, hist, ws, k - 1);
      var now, h, w := AfterWakes(cfg, cs, ws, k - 1), HistAfterWakes(cfg, cs, hist, ws, k - 1), ws[k - 1];
      if w.j < |now| && now[w.j].phase == Sent {
        var ends := Completes(cfg, now[w.j], Offered(w.chunks));
        ReceivedUpdate(h, w.j, Woken(h[w.j], ends), |h|);
        WokenOnce(h[w.j], ends);
      }
    }
  }

  /** The receive wakeups of a run are those that epoll reported for clients that were
      awaiting a reply. */
  lemma {:induction false} ReceivedRounds(
    cfg: Config, cs: seq<Client>, hist: seq<History>, rounds: seq<seq<Wake>>, k: nat)
    requires k <= |rounds| && |cs| == |hist|
    ensures Received(HistAfterRounds(cfg, cs, hist, rounds, k), |hist|)
         == Received(hist, |hist|) + RepliesIn(cfg, cs, rounds, k)
  {
    if k > 0 {
      ReceivedRounds(cfg, cs, hist, rounds, k - 1);
      ReceivedWakes(cfg, AfterRounds(cfg, cs, rounds, k - 1), HistAfterRounds(cfg, cs, hist, rounds, k - 1),
                    rounds[k - 1], |rounds[k - 1]|);
    }
  }

  /** What a wake brings to client j: as much of what is offered as its reply has room for. */
  function Brings(cfg: Config, cs: seq<Client>, w: Wake, j: nat): nat {
    if w.j == j < |cs| && cs[j].phase == Sent && cs[j].cursor < cfg.size then
      Min(cfg.size - cs[j].cursor, Offered(w.chunks))
    else 0
  }

  /** What the first k wakes, and all those of the first k rounds, bring to it. */
  function WakesBring(cfg: Config, cs: seq<Client>, ws: seq<Wake>, k: nat, j: nat): nat
    requires k <= |ws|
  {
    if k == 0 then 0
    else WakesBring(cfg, cs, ws, k - 1, j) + Brings(cfg, AfterWakes(cfg, cs, ws, k - 1), ws[k - 1], j)
  }

  function RoundsBring(cfg: Config, cs: seq<Client>, rounds: seq<seq<Wake>>, k: nat, j: nat): nat
    requires k <= |rounds|
  {
    if k == 0 then 0
    else
      RoundsBring(cfg, cs, rounds, k - 1, j)
      + WakesBring(cfg, AfterRounds(cfg, cs, rounds, k - 1), rounds[k - 1], |rounds[k - 1]|, j)
  }

  predicate Sane(cfg: Config, c: Client) {
    && c.cursor < cfg.size && c.txnRemaining <= cfg.txns
    && (c.phase != Done ==> c.txnRemaining > 0)
    && (c.phase in {Connecting, New, Ready, Sent} ==> c.batchRemaining > 0)
  }

  /** Bytes of finished transactions, and of the one under way. */
  function Account(cfg: Config, c: Client): int {
    cfg.size * (cfg.txns - c.txnRemaining) + c.cursor
  }

  lemma WakeAccount(cfg: Config, cs: seq<Client>, w: Wake, j: nat)
    requires cfg.Valid() && j < |cs| && forall c <- cs :: Sane(cfg, c)
    ensures forall c <- AfterWake(cfg, cs, w) :: Sane(cfg, c)
    ensures Account(cfg, AfterWake(cfg, cs, w)[j]) == Account(cfg, cs[j]) + Brings(cfg, cs, w, j)
  {
    if w.j < |cs| {
      MovedAccount(cfg, cs[w.j], Offered(w.chunks), w.immediate);
    }
  }

  lemma MovedAccount(cfg: Config, c: Client, got: nat, immediate: bool)
    requires cfg.Valid() && Sane(cfg, c)
    ensures var d := Moved(cfg, c, got, immediate);
            && Sane(cfg, d)
            && Account(cfg, d) == Account(cfg, c) + if c.phase == Sent then Min(cfg.size - c.cursor, got) else 0
  {
    var done := cfg.txns - c.txnRemaining;
    assert cfg.size * (done + 1) == cfg.size * done + cfg.size;
  }

  lemma {:induction false} WakesAccount(cfg: Config, cs: seq<Client>, ws: seq<Wake>, k: nat, j: nat)
    requires cfg.Valid() && j < |cs| && k <= |ws| && forall c <- cs :: Sane(cfg, c)
    ensures forall c <- AfterWakes(cfg, cs, ws, k) :: Sane(cfg, c)
    ensures Account(cfg, AfterWakes(cfg, cs, ws, k)[j]) == Account(cfg, cs[j]) + WakesBring(cfg, cs, ws, k, j)
  {
    if k > 0 {
      WakesAccount(cfg, cs, ws, k - 1, j);
      WakeAccount(cfg, AfterWakes(cfg, cs, ws, k - 1), ws[k - 1], j);
    }
  }

  /** Nothing is skipped: the bytes a client has received since it had none are its message
      size for each transaction it has counted as finished, and its cursor. */
  lemma {:induction false} BytesReceived(cfg: Config, cs: seq<Client>, rounds: seq<seq<Wake>>, k: nat, j: nat)
    requires cfg.Valid() && j < |cs| && k <= |rounds| && forall c <- cs :: Sane(cfg, c)
    ensures forall c <- AfterRounds(cfg, cs, rounds, k) :: Sane(cfg, c)
    ensures Account(cfg, AfterRounds(cfg, cs, rounds, k)[j]) == Account(cfg, cs[j]) + RoundsBring(cfg, cs, rounds, k, j)
  {
    if k > 0 {
      BytesReceived(cfg, cs, rounds, k - 1, j);
      WakesAccount(cfg, AfterRounds(cfg, cs, rounds, k - 1), rounds[k - 1], |rounds[k - 1]|, j);
    }
  }

  /** One client with one transaction of `size` bytes: its connection completes, and then
      the reply arrives a byte at a time. */
  function Trickle(size: nat): (rounds: seq<seq<Wake>>)
    ensures |rounds| == size + 1 && rounds[0] == [Wake(0, [], false)]
    ensures forall k :: 1 <= k <= size ==> rounds[k] == [Wake(0, [1], false)]
  {
    seq(size + 1, k requires 0 <= k <= size => [Wake(0, if k == 0 then [] else [1], false)])
  }

  lemma OneWake(cfg: Config, cs: seq<Client>, w: Wake)
    ensures AfterWakes(cfg, cs, [w], 1) == AfterWake(cfg, cs, w)
    ensures Replies(cfg, cs, [w], 1) == if w.j < |cs| && cs[w.j].phase == Sent then 1 else 0
  {
    assert AfterWakes(cfg, cs, [w], 0) == cs && Replies(cfg, cs, [w], 0) == 0;
  }

  lemma {:induction false} TrickleSteps(size: nat, k: nat)
    requires size > 0 && 1 <= k <= size + 1
    ensures AfterRounds(Config(1, 1, size), [Client(Connecting, 0, 1, 1)], Trickle(size), k)
         == [if k == size + 1 then Client(Done, 0, 0, 1) else Client(Sent, k - 1, 1, 1)]
    ensures RepliesIn(Config(1, 1, size), [Client(Connecting, 0, 1, 1)], Trickle(size), k) == k - 1
  {
    var cfg, start := Config(1, 1, size), [Client(Connecting, 0, 1, 1)];
    assert AfterRounds(cfg, start, Trickle(size), 0) == start && RepliesIn(cfg, start, Trickle(size), 0) == 0;
    if k > 1 {
      TrickleSteps(size, k - 1);
    }
    assert Offered([1]) == 1;
    OneWake(cfg, AfterRounds(cfg, start, Trickle(size), k - 1), Trickle(size)[k - 1][0]);
  }

  lemma TrickleStart(size: nat)
    requires size > 0
    ensures AfterWakes(Config(1, 1, size), [Client(Init, 0, 1, 1)], FirstWakes([false]), 1)
         == [Client(Connecting, 0, 1, 1)]
    ensures HistAfterWakes(Config(1, 1, size), [Client(Init, 0, 1, 1)], [History([], 0)], FirstWakes([false]), 1)
         == [History([], 0)]
  {
    var cfg, cs := Config(1, 1, size), [Client(Init, 0, 1, 1)];
    assert FirstWakes([false]) == [Wake(0, [], false)];
    OneWake(cfg, cs, Wake(0, [], false));
    assert AfterWakes(cfg, cs, FirstWakes([false]), 0) == cs;
    assert HistAfterWakes(cfg, cs, [History([], 0)], FirstWakes([false]), 0) == [History([], 0)];
  }

  /** It has that many receive wakeups; and its entries are more than `main` makes room for
      if and only if the message has more than 30 bytes. */
  lemma TrickleOverflows(size: nat)
    requires size > 0
    ensures Received(HistAfterRounds(Config(1, 1, size), [Client(Connecting, 0, 1, 1)], [History([], 0)],
                                     Trickle(size), size + 1), 1) == size
    ensures Fixed(Config(1, 1, size)) + 2 * size > MaxEvents(Config(1, 1, size), 1) <==> size > 30
  {
    var cfg := Config(1, 1, size);
    TrickleSteps(size, size + 1);
    ReceivedRounds(cfg, [Client(Connecting, 0, 1, 1)], [History([], 0)], Trickle(size), size + 1);
    assert Received([History([], 0)], 0) == 0 && Received([History([], 0)], 1) == 0;
    assert Connections(1, 1) == 1 && Fixed(cfg) == 4;
    assert MaxEvents(cfg, 1) == 8 * (4 * MinIo(size) + 4) == 64 + 32 * (size / 1380);
  }

  /** Not before its last round. */
  lemma TrickleEnd(size: nat, used: nat)
    requires size > 0 && used <= size + 1
    ensures var cs := AfterRounds(Config(1, 1, size), [Client(Connecting, 0, 1, 1)], Trickle(size), used);
            && (Finished(cs, 1, 1) == 1 ==> used == size + 1)
            && (used == size + 1 ==> cs == [Client(Done, 0, 0, 1)])
  {
    var cs := AfterRounds(Config(1, 1, size), [Client(Connecting, 0, 1, 1)], Trickle(size), used);
    assert Finished(cs, 1, 0) == 0;
    if used > 0 {
      TrickleSteps(size, used);
    }
  }

  /** A worker that runs it: the log overflows if and only if the message has more than 30
      bytes. */
  method TrickleRun(base: nat, size: nat) returns (w: Worker)
    requires size > 0
    ensures w.Valid() && w.cfg == Config(1, 1, size) && w.clients == [Client(Done, 0, 0, 1)]
    ensures w.log.Room() == MaxEvents(w.cfg, 1)
    ensures w.log.overflow <==> size > 30
  {
    var cfg := Config(1, 1, size);
    var log := new TscLog.Log(base, MaxEvents(cfg, 1));
    w := new Worker(cfg, 0, 1, log);
    assert w.clients == [Client(Init, 0, 1, 1)] && w.hist == [History([], 0)];
    TrickleStart(size);
    var complete, used := w.Run([false], seq(size + 2, _ => false), Trickle(size));
    TrickleEnd(size, used);
    TrickleOverflows(size);
    LogSizing(w);
  }
}
