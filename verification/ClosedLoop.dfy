/**
 One client (event-tester/tcp_client.c) against the upcall server
 (event-tester/upcall.c): a closed loop over two byte pipes.

 The server's `add_read` names no length, so nothing in the server keeps `my_read`
 from copying past the end of a message. That it never does is a property of the
 composition, proved here for every split of every transfer.
 */
module ClosedLoop {
  import opened Echo

  datatype Phase = Sending(sent: nat) | Awaiting | Finished

  /** What the kernel knows about the server's one request: armed, or completed and
      delivered as an event that has not been handled yet. */
  datatype Event = Armed | GotData(data: seq<byte>) | Sent(n: nat)

  datatype State = State(
    phase: Phase, buf: seq<byte>, cursor: nat, txns: nat, batch: nat,
    c2s: seq<byte>, s2c: seq<byte>, srv: Session, event: Event, overran: bool)

  datatype Config = Config(msg: seq<byte>, txns: nat, batch: nat)

  ghost predicate ValidConfig(c: Config) {
    |c.msg| > 0 && c.txns > 0 && c.batch > 0
  }

  function Init(c: Config): State {
    State(Sending(0), c.msg, 0, c.txns, c.batch, [], [], Fresh(|c.msg|), Armed, false)
  }

  datatype Step =
    | ClientSend(k: nat)   // one send() of client_send
    | Arrive(k: nat)       // the kernel reads into a pool buffer and reports it
    | ServerRead           // my_read
    | Leave(k: nat)        // the kernel writes part of what add_write named
    | ServerWrite          // my_write
    | ClientRecv(k: nat)   // one recv() of client_recv

  predicate Enabled(c: Config, s: State, step: Step) {
    match step
    case ClientSend(k) => s.phase.Sending? && s.phase.sent + k <= |s.buf| && k > 0
    case Arrive(k) => s.srv.mode == Reading && s.event == Armed && 0 < k <= |s.c2s| && k <= |c.msg|
    case ServerRead => s.event.GotData?
    case Leave(k) => s.srv.mode == Writing && s.event == Armed && 0 < k && s.srv.cursor + k <= |s.srv.buffer|
    case ServerWrite => s.event.Sent?
    case ClientRecv(k) => s.phase == Awaiting && 0 < k <= |s.s2c| && s.cursor + k <= |s.buf|
  }

  function Next(c: Config, s: State, step: Step): State
    requires Enabled(c, s, step)
  {
    match step
    case ClientSend(k) =>
      var sent := s.phase.sent;
      s.(c2s := s.c2s + s.buf[sent..sent + k], phase := if sent + k == |s.buf| then Awaiting else Sending(sent + k))
    case Arrive(k) => s.(c2s := s.c2s[k..], event := GotData(s.c2s[..k]))
    case ServerRead =>
      if !Legal(s.srv, Read(s.event.data)) then s.(overran := true)
      else s.(srv := Apply(s.srv, Read(s.event.data)), event := Armed)
    case Leave(k) => s.(s2c := s.s2c + s.srv.buffer[s.srv.cursor..s.srv.cursor + k], event := Sent(k))
    case ServerWrite =>
      if !Legal(s.srv, Wrote(s.event.n)) then s.(overran := true)
      else s.(srv := Apply(s.srv, Wrote(s.event.n)), event := Armed)
    case ClientRecv(k) =>
      var t := s.(buf := Place(s.buf, s.cursor, s.s2c[..k]), s2c := s.s2c[k..]);
      if s.cursor + k < |s.buf| then t.(cursor := s.cursor + k)
      else Completed(c, t)
  }

  /** The end of a transaction: stop, reconnect, or send the next one. A new connection
      has empty pipes and a fresh `struct connection` behind it. */
  function Completed(c: Config, s: State): State {
    if s.txns <= 1 then s.(cursor := 0, txns := 0, phase := Finished)
    else if s.batch <= 1 then
      s.(cursor := 0, txns := s.txns - 1, batch := c.batch, phase := Sending(0), c2s := [], s2c := [],
         srv := Fresh(|c.msg|), event := Armed)
    else s.(cursor := 0, txns := s.txns - 1, batch := s.batch - 1, phase := Sending(0))
  }

  ghost predicate LegalSteps(c: Config, steps: seq<Step>)
    decreases |steps|, 0
  {
    steps == [] ||
    (LegalSteps(c, steps[..|steps| - 1]) && Enabled(c, RunSteps(c, steps[..|steps| - 1]), steps[|steps| - 1]))
  }

  ghost function RunSteps(c: Config, steps: seq<Step>): State
    requires LegalSteps(c, steps)
    decreases |steps|, 1
  {
    if steps == [] then Init(c) else Next(c, RunSteps(c, steps[..|steps| - 1]), steps[|steps| - 1])
  }

  /** How much of the current message the client has sent. */
  function SentBytes(s: State): nat {
    match s.phase
    case Sending(sent) => sent
    case Awaiting => |s.buf|
    case Finished => 0
  }

  /** Bytes of the current message that the server has and has not written. */
  function Held(s: State): seq<byte>
    requires s.srv.cursor <= |s.srv.buffer|
    requires s.event.Sent? ==> s.srv.cursor + s.event.n <= |s.srv.buffer|
  {
    match s.event
    case Armed => if s.srv.mode == Reading then s.srv.buffer[..s.srv.cursor] else s.srv.buffer[s.srv.cursor..]
    case GotData(data) => s.srv.buffer[..s.srv.cursor] + data
    case Sent(n) => s.srv.buffer[s.srv.cursor + n..]
  }

  ghost predicate Shape(c: Config, s: State) {
    && |s.srv.buffer| == |c.msg| && s.srv.cursor < |c.msg|
    && s.cursor < |c.msg|
    && (s.phase.Sending? ==> s.phase.sent < |c.msg| && s.cursor == 0)
    && (s.event.GotData? ==> s.srv.mode == Reading && s.event.data != [])
    && (s.event.Sent? ==> s.srv.mode == Writing && 0 < s.event.n && s.srv.cursor + s.event.n <= |c.msg|)
    && (s.phase == Finished <==> s.txns == 0)
    && s.txns <= c.txns && 1 <= s.batch <= c.batch
  }

  /** Every byte sent and not yet received back is in exactly one of the two pipes and
      the server, in order and unchanged; and the client's buffer, overwritten by each
      echo, still holds the message. */
  ghost predicate Conserved(c: Config, s: State)
    requires Shape(c, s)
  {
    && s.buf == c.msg
    && s.cursor <= SentBytes(s) <= |c.msg|
    && s.s2c + Held(s) + s.c2s == c.msg[s.cursor..SentBytes(s)]
  }

  /** The server starts to answer only when it has the whole request, and the client
      sends again only when it has the whole answer. */
  ghost predicate Turns(c: Config, s: State)
    requires Shape(c, s)
  {
    && (s.srv.mode == Writing && Held(s) != [] ==> SentBytes(s) == |c.msg| && s.c2s == [])
    && (s.cursor + |s.s2c| > 0 ==>
          SentBytes(s) == |c.msg| && s.c2s == [] && (s.srv.mode == Reading ==> Held(s) == []))
  }

  ghost predicate Inv(c: Config, s: State) {
    ValidConfig(c) && !s.overran && Shape(c, s) && Conserved(c, s) && Turns(c, s)
  }

  /** The steps that the transactions after the current one can take. */
  function Later(size: nat, txns: nat): nat {
    if txns <= 1 then 0 else 6 * size + Later(size, txns - 1)
  }

  lemma LaterTotal(size: nat, txns: nat)
    requires txns > 0
    ensures Later(size, txns) + 6 * size == 6 * size * txns
  {
  }

  /** An upper bound on the steps still to come: each byte is sent, arrives, is read,
      leaves, is accounted for and is received. */
  function Work(c: Config, s: State): nat
    requires s.srv.cursor <= |s.srv.buffer| && SentBytes(s) <= |c.msg|
    requires s.event.Sent? ==> s.srv.cursor + s.event.n <= |s.srv.buffer|
  {
    Later(|c.msg|, s.txns)
    + (if s.phase == Finished then 0 else 6 * (|c.msg| - SentBytes(s)))
    + 5 * |s.c2s| + 3 * |Held(s)| + |s.s2c|
    + (match s.event case Armed => 0 case GotData(data) => |data| case Sent(_) => 1)
  }

  lemma SendInv(c: Config, s: State, k: nat)
    requires Inv(c, s) && Enabled(c, s, ClientSend(k))
    ensures var t := Next(c, s, ClientSend(k)); Inv(c, t) && Work(c, t) < Work(c, s)
  {
    var t := Next(c, s, ClientSend(k));
    var sent := s.phase.sent;
    assert Held(t) == Held(s);
    assert c.msg[..sent] + c.msg[sent..sent + k] == c.msg[..sent + k];
    assert t.s2c + Held(t) + t.c2s == (s.s2c + Held(s) + s.c2s) + c.msg[sent..sent + k];
  }

  lemma ArriveInv(c: Config, s: State, k: nat)
    requires Inv(c, s) && Enabled(c, s, Arrive(k))
    ensures var t := Next(c, s, Arrive(k)); Inv(c, t) && Work(c, t) < Work(c, s)
  {
    var t, x, y := Next(c, s, Arrive(k)), s.c2s[..k], s.c2s[k..];
    assert Held(t) == Held(s) + x && x + y == s.c2s;
    assert t.s2c + Held(t) + t.c2s == s.s2c + Held(s) + (x + y);
    assert s.s2c + Held(s) + s.c2s == s.s2c + Held(s) + (x + y);
  }

  /** The bound `my_read` does not check. */
  lemma ReadFits(c: Config, s: State)
    requires Inv(c, s) && Enabled(c, s, ServerRead)
    ensures Legal(s.srv, Read(s.event.data))
  {
    assert |s.s2c + Held(s) + s.c2s| == |s.s2c| + |Held(s)| + |s.c2s|;
    assert |Held(s)| == s.srv.cursor + |s.event.data|;
  }

  lemma ServerReadInv(c: Config, s: State)
    requires Inv(c, s) && Enabled(c, s, ServerRead)
    ensures var t := Next(c, s, ServerRead); Inv(c, t) && Work(c, t) < Work(c, s)
  {
    ReadFits(c, s);
    var t := Next(c, s, ServerRead);
    assert Held(t) == Held(s);
    if t.srv.mode == Writing {
      assert |Held(s)| == |c.msg|;
      assert |s.s2c + Held(s) + s.c2s| == |s.s2c| + |Held(s)| + |s.c2s|;
    }
  }

  lemma LeaveInv(c: Config, s: State, k: nat)
    requires Inv(c, s) && Enabled(c, s, Leave(k))
    ensures var t := Next(c, s, Leave(k)); Inv(c, t) && Work(c, t) < Work(c, s)
  {
    var t := Next(c, s, Leave(k));
    var b, i := s.srv.buffer, s.srv.cursor;
    assert Held(s) == b[i..i + k] + b[i + k..] && Held(t) == b[i + k..];
    assert t.s2c + Held(t) + t.c2s == s.s2c + Held(s) + s.c2s;
  }

  lemma Cut(m: seq<byte>, i: nat, j: nat, x: seq<byte>, rest: seq<byte>)
    requires i <= j <= |m| && x + rest == m[i..j]
    ensures i + |x| <= j && x == m[i..i + |x|] && rest == m[i + |x|..j]
  {
    assert (x + rest)[..|x|] == x && (x + rest)[|x|..] == rest;
  }

  lemma RecvFacts(c: Config, s: State, k: nat)
    requires Inv(c, s) && Enabled(c, s, ClientRecv(k))
    ensures Place(s.buf, s.cursor, s.s2c[..k]) == c.msg
    ensures s.s2c[k..] + Held(s) + s.c2s == c.msg[s.cursor + k..]
    ensures s.s2c[..k] == c.msg[s.cursor..s.cursor + k]
  {
    var x, rest := s.s2c[..k], s.s2c[k..] + Held(s) + s.c2s;
    assert x + s.s2c[k..] == s.s2c;
    assert x + rest == s.s2c + Held(s) + s.c2s;
    Cut(c.msg, s.cursor, |c.msg|, x, rest);
  }

  lemma RecvInv(c: Config, s: State, k: nat)
    requires Inv(c, s) && Enabled(c, s, ClientRecv(k))
    ensures var t := Next(c, s, ClientRecv(k)); Inv(c, t) && Work(c, t) < Work(c, s)
  {
    RecvFacts(c, s, k);
    var t := s.(buf := c.msg, s2c := s.s2c[k..]);
    if s.cursor + k == |s.buf| {
      WholeInv(c, s, k);
      assert Next(c, s, ClientRecv(k)) == Completed(c, t);
    } else {
      PartialInv(c, s, k);
      assert Next(c, s, ClientRecv(k)) == t.(cursor := s.cursor + k);
    }
  }

  lemma WholeInv(c: Config, s: State, k: nat)
    requires Inv(c, s) && Enabled(c, s, ClientRecv(k)) && s.cursor + k == |c.msg|
    requires s.s2c[k..] + Held(s) + s.c2s == c.msg[s.cursor + k..]
    ensures var t := Completed(c, s.(buf := c.msg, s2c := s.s2c[k..])); Inv(c, t) && Work(c, t) < Work(c, s)
  {
    var t := s.(buf := c.msg, s2c := s.s2c[k..]);
    assert |s.s2c[k..] + Held(s) + s.c2s| == 0;
    assert Held(t) == Held(s);
    CompletedInv(c, t, k);
  }

  lemma PartialInv(c: Config, s: State, k: nat)
    requires Inv(c, s) && Enabled(c, s, ClientRecv(k)) && s.cursor + k < |c.msg|
    requires s.s2c[k..] + Held(s) + s.c2s == c.msg[s.cursor + k..]
    ensures var t := s.(buf := c.msg, s2c := s.s2c[k..], cursor := s.cursor + k);
            Inv(c, t) && Work(c, t) < Work(c, s)
  {
    var t := s.(buf := c.msg, s2c := s.s2c[k..], cursor := s.cursor + k);
    assert Held(t) == Held(s);
  }

  lemma CompletedInv(c: Config, t: State, k: nat)
    requires ValidConfig(c) && !t.overran && Shape(c, t) && t.phase == Awaiting && t.buf == c.msg
    requires t.s2c == [] && Held(t) == [] && t.c2s == [] && k > 0
    ensures Inv(c, Completed(c, t)) && Work(c, Completed(c, t)) < Work(c, t) + k
  {
    var u := Completed(c, t);
    assert Held(u) == [];
    assert c.msg[0..0] == [];
  }

  /** Every step keeps the invariant and uses up some of the work. */
  lemma InvStep(c: Config, s: State, step: Step)
    requires Inv(c, s) && Enabled(c, s, step)
    ensures var t := Next(c, s, step); Inv(c, t) && Work(c, t) < Work(c, s)
  {
    match step
    case ClientSend(k) => SendInv(c, s, k);
    case Arrive(k) => ArriveInv(c, s, k);
    case ServerRead => ServerReadInv(c, s);
    case Leave(k) => LeaveInv(c, s, k);
    case ServerWrite => assert Held(Next(c, s, step)) == Held(s);
    case ClientRecv(k) => RecvInv(c, s, k);
  }

  lemma {:induction false} InvAlways(c: Config, steps: seq<Step>)
    requires ValidConfig(c) && LegalSteps(c, steps)
    ensures Inv(c, RunSteps(c, steps))
  {
    if steps != [] {
      InvAlways(c, steps[..|steps| - 1]);
      InvStep(c, RunSteps(c, steps[..|steps| - 1]), steps[|steps| - 1]);
    }
  }

  /** Closed-loop safety over every run: bytes are conserved, `my_read` never overruns
      the message buffer, and the client's buffer always equals its message. */
  lemma ClosedLoopSafe(c: Config, steps: seq<Step>)
    requires ValidConfig(c) && LegalSteps(c, steps)
    ensures var s := RunSteps(c, steps);
            && s.srv.cursor < |s.srv.buffer| == |c.msg| && !s.overran && s.buf == c.msg
            && (s.event.GotData? ==> s.srv.mode == Reading && s.srv.cursor + |s.event.data| <= |c.msg|)
            && (s.event.Sent? ==> s.srv.mode == Writing && s.srv.cursor + s.event.n <= |c.msg|)
            && (s.phase != Finished ==>
                  (|c.msg| - SentBytes(s)) + |s.c2s| + |Held(s)| + |s.s2c| + s.cursor == |c.msg|)
  {
    var s := RunSteps(c, steps);
    InvAlways(c, steps);
    assert |s.s2c + Held(s) + s.c2s| == |s.s2c| + |Held(s)| + |s.c2s|;
    if s.event.GotData? {
      ReadFits(c, s);
    }
  }

  /** The bytes that the client has received and sent, by the steps alone. */
  function Received(steps: seq<Step>): nat {
    if steps == [] then 0
    else Received(steps[..|steps| - 1]) + Gets(steps[|steps| - 1])
  }

  function SentInAll(steps: seq<Step>): nat {
    if steps == [] then 0
    else SentInAll(steps[..|steps| - 1]) + Puts(steps[|steps| - 1])
  }

  /** The bytes of the transactions counted as finished: of all of them, and of those on the
      present connection. */
  function DoneBytes(c: Config, s: State): int {
    |c.msg| * (c.txns - s.txns)
  }

  function ConnBytes(c: Config, s: State): int
    requires c.batch > 0
  {
    |c.msg| * ((c.txns - s.txns) % c.batch)
  }

  /** The client has received every byte of each transaction it has counted, and sent as
      much; it reconnects after every `batch` of them; and the server has read and written
      on this connection exactly what the transactions on it call for. */
  ghost predicate Counts(c: Config, s: State, received: nat, sent: nat)
    requires c.batch > 0
  {
    && received == DoneBytes(c, s) + s.cursor && Faithful(s.srv)
    && if s.phase == Finished then sent == received else
       && sent == DoneBytes(c, s) + SentBytes(s)
       && s.batch == c.batch - (c.txns - s.txns) % c.batch
       && |s.srv.inp| + (if s.event.GotData? then |s.event.data| else 0) + |s.c2s| == ConnBytes(c, s) + SentBytes(s)
       && |s.srv.out| + (if s.event.Sent? then s.event.n else 0) == ConnBytes(c, s) + s.cursor + |s.s2c|
  }

  lemma OneMore(c: Config, s: State, t: State)
    requires ValidConfig(c) && 0 < s.txns <= c.txns && t.txns == s.txns - 1
    ensures DoneBytes(c, t) == DoneBytes(c, s) + |c.msg|
    ensures var r, r' := (c.txns - s.txns) % c.batch, (c.txns - t.txns) % c.batch;
            if r == c.batch - 1 then r' == 0 && ConnBytes(c, t) == 0
            else r' == r + 1 && ConnBytes(c, t) == ConnBytes(c, s) + |c.msg|
  {
    var d, m := c.txns - s.txns, |c.msg|;
    var q, r := d / c.batch, d % c.batch;
    assert m * (d + 1) == m * d + m && m * (r + 1) == m * r + m;
    if r == c.batch - 1 {
      assert (q + 1) * c.batch == q * c.batch + c.batch;
      ModUnique(d + 1, c.batch, q + 1, 0);
    } else {
      ModUnique(d + 1, c.batch, q, r + 1);
    }
  }

  lemma SendCounts(c: Config, s: State, k: nat, received: nat, sent: nat)
    requires Inv(c, s) && Counts(c, s, received, sent) && Enabled(c, s, ClientSend(k))
    ensures Counts(c, Next(c, s, ClientSend(k)), received, sent + k)
  {
  }

  lemma ServerCounts(c: Config, s: State, step: Step, received: nat, sent: nat)
    requires Inv(c, s) && Counts(c, s, received, sent) && Enabled(c, s, step)
    requires !step.ClientSend? && !step.ClientRecv?
    ensures Counts(c, Next(c, s, step), received, sent)
  {
    if step.ServerRead? {
      ReadFits(c, s);
      ApplyFaithful(s.srv, Read(s.event.data));
    } else if step.ServerWrite? {
      ApplyFaithful(s.srv, Wrote(s.event.n));
    }
  }

  lemma PartCounts(c: Config, s: State, k: nat, received: nat, sent: nat)
    requires Inv(c, s) && Counts(c, s, received, sent) && Enabled(c, s, ClientRecv(k)) && s.cursor + k < |s.buf|
    ensures Counts(c, Next(c, s, ClientRecv(k)), received + k, sent)
  {
  }

  /** The last byte of a reply. */
  lemma WholeCounts(c: Config, t: State, received: nat, sent: nat)
    requires ValidConfig(c) && Shape(c, t) && t.phase == Awaiting && t.buf == c.msg
    requires t.s2c == [] && t.c2s == [] && !t.event.GotData?
    requires received == sent == DoneBytes(c, t) + |c.msg| && Faithful(t.srv)
    requires t.batch == c.batch - (c.txns - t.txns) % c.batch
    requires |t.srv.inp| == ConnBytes(c, t) + |c.msg|
    requires |t.srv.out| + (if t.event.Sent? then t.event.n else 0) == ConnBytes(c, t) + |c.msg|
    ensures Counts(c, Completed(c, t), received, sent)
  {
    OneMore(c, t, t.(txns := t.txns - 1));
    FreshFaithful(|c.msg|);
  }

  lemma RecvCounts(c: Config, s: State, k: nat, received: nat, sent: nat)
    requires Inv(c, s) && Counts(c, s, received, sent) && Enabled(c, s, ClientRecv(k))
    ensures Counts(c, Next(c, s, ClientRecv(k)), received + k, sent)
  {
    if s.cursor + k == |s.buf| {
      var t := s.(buf := c.msg, s2c := s.s2c[k..]);
      RecvFacts(c, s, k);
      assert |s.s2c[k..] + Held(s) + s.c2s| == 0;
      assert Next(c, s, ClientRecv(k)) == Completed(c, t);
      WholeCounts(c, t, received + k, sent);
    } else {
      PartCounts(c, s, k, received, sent);
    }
  }

  lemma CountsStep(c: Config, s: State, step: Step, received: nat, sent: nat)
    requires Inv(c, s) && Counts(c, s, received, sent) && Enabled(c, s, step)
    ensures Counts(c, Next(c, s, step), received + Gets(step), sent + Puts(step))
  {
    match step
    case ClientSend(k) => SendCounts(c, s, k, received, sent);
    case ClientRecv(k) => RecvCounts(c, s, k, received, sent);
    case _ => ServerCounts(c, s, step, received, sent);
  }

  lemma CountsInit(c: Config)
    requires ValidConfig(c)
    ensures Counts(c, Init(c), 0, 0)
  {
    FreshFaithful(|c.msg|);
    assert 0 % c.batch == 0 && |c.msg| * 0 == 0;
  }

  function Gets(step: Step): nat {
    match step case ClientRecv(k) => k case _ => 0
  }

  function Puts(step: Step): nat {
    match step case ClientSend(k) => k case _ => 0
  }

  ghost predicate CountsAt(c: Config, s: State, steps: seq<Step>) {
    c.batch > 0 && Counts(c, s, Received(steps), SentInAll(steps))
  }

  lemma CountsNext(c: Config, s: State, steps: seq<Step>, step: Step)
    requires Inv(c, s) && CountsAt(c, s, steps) && Enabled(c, s, step)
    ensures CountsAt(c, Next(c, s, step), steps + [step])
  {
    assert (steps + [step])[..|steps|] == steps;
    CountsStep(c, s, step, Received(steps), SentInAll(steps));
  }

  /** In every run the client has received its message once, byte for byte, for each
      transaction it has counted, and sent it as often; it is on its present connection for
      the last `batch` of them at most, and the server has read and written there exactly
      what they call for, faithfully. */
  lemma {:induction false} TransactionsCounted(c: Config, steps: seq<Step>)
    requires ValidConfig(c) && LegalSteps(c, steps)
    ensures CountsAt(c, RunSteps(c, steps), steps)
  {
    if steps == [] {
      CountsInit(c);
    } else {
      var steps' := steps[..|steps| - 1];
      assert steps == steps' + [steps[|steps| - 1]];
      TransactionsCounted(c, steps');
      InvAlways(c, steps');
      CountsNext(c, RunSteps(c, steps'), steps', steps[|steps| - 1]);
    }
  }

  /** The bytes themselves that the client has received. */
  ghost function Replies(c: Config, steps: seq<Step>): seq<byte>
    requires LegalSteps(c, steps)
  {
    if steps == [] then []
    else
      var steps' := steps[..|steps| - 1];
      Replies(c, steps') + Brings(RunSteps(c, steps'), steps[|steps| - 1])
  }

  function Brings(s: State, step: Step): seq<byte> {
    if step.ClientRecv? && step.k <= |s.s2c| then s.s2c[..step.k] else []
  }

  function Times(msg: seq<byte>, k: nat): seq<byte> {
    if k == 0 then [] else Times(msg, k - 1) + msg
  }

  ghost predicate Echoed(c: Config, s: State, replies: seq<byte>) {
    s.txns <= c.txns && s.cursor <= |c.msg| && replies == Times(c.msg, c.txns - s.txns) + c.msg[..s.cursor]
  }

  lemma EchoedPart(c: Config, s: State, k: nat, replies: seq<byte>, x: seq<byte>)
    requires Echoed(c, s, replies) && s.cursor + k <= |c.msg| && x == c.msg[s.cursor..s.cursor + k]
    ensures replies + x == Times(c.msg, c.txns - s.txns) + c.msg[..s.cursor + k]
  {
    assert c.msg[..s.cursor] + x == c.msg[..s.cursor + k];
  }

  lemma EchoedRecv(c: Config, s: State, k: nat, replies: seq<byte>)
    requires Inv(c, s) && Enabled(c, s, ClientRecv(k)) && Echoed(c, s, replies)
    ensures Echoed(c, Next(c, s, ClientRecv(k)), replies + s.s2c[..k])
  {
    RecvFacts(c, s, k);
    EchoedPart(c, s, k, replies, s.s2c[..k]);
    if s.cursor + k == |c.msg| {
      assert c.msg[..|c.msg|] == c.msg && c.msg[..0] == [];
    }
  }

  lemma EchoedStep(c: Config, s: State, step: Step, replies: seq<byte>)
    requires Inv(c, s) && Enabled(c, s, step) && Echoed(c, s, replies)
    ensures Echoed(c, Next(c, s, step), replies + Brings(s, step))
  {
    if step.ClientRecv? {
      EchoedRecv(c, s, step.k, replies);
    } else {
      assert replies + [] == replies;
    }
  }

  /** What the client receives in a run is its message, again and again, and the part of it
      that it is in; so it is right whatever the client then does with it. */
  lemma {:induction false} RepliesRight(c: Config, steps: seq<Step>)
    requires ValidConfig(c) && LegalSteps(c, steps)
    ensures Echoed(c, RunSteps(c, steps), Replies(c, steps))
  {
    if steps == [] {
      assert c.msg[..0] == [];
    } else {
      var steps', step := steps[..|steps| - 1], steps[|steps| - 1];
      RepliesRight(c, steps');
      InvAlways(c, steps');
      EchoedStep(c, RunSteps(c, steps'), step, Replies(c, steps'));
    }
  }

  /** A step that can be taken in a state where the client is not finished. */
  function Scheduled(c: Config, s: State): Step {
    if s.phase.Sending? then ClientSend(1)
    else if s.s2c != [] then ClientRecv(1)
    else if s.event.GotData? then ServerRead
    else if s.event.Sent? then ServerWrite
    else if s.srv.mode == Writing then Leave(1)
    else Arrive(1)
  }

  /** No deadlock; and whatever is under way can happen in any piece. */
  lemma Progress(c: Config, s: State)
    requires Inv(c, s) && s.phase != Finished
    ensures Enabled(c, s, Scheduled(c, s))
    ensures forall k: nat :: 0 < k <= |c.msg| - SentBytes(s) ==> Enabled(c, s, ClientSend(k))
    ensures forall k: nat :: 0 < k <= |s.s2c| ==> Enabled(c, s, ClientRecv(k))
    ensures s.srv.mode == Reading && s.event == Armed ==> forall k: nat :: 0 < k <= |s.c2s| ==> Enabled(c, s, Arrive(k))
    ensures s.srv.mode == Writing && s.event == Armed ==>
              forall k: nat :: 0 < k <= |Held(s)| ==> Enabled(c, s, Leave(k))
  {
    assert |s.s2c + Held(s) + s.c2s| == |s.s2c| + |Held(s)| + |s.c2s|;
  }

  lemma {:induction false} RunLength(c: Config, steps: seq<Step>)
    requires ValidConfig(c) && LegalSteps(c, steps)
    ensures var s := RunSteps(c, steps); Inv(c, s) && |steps| + Work(c, s) <= Work(c, Init(c))
  {
    if steps != [] {
      var steps' := steps[..|steps| - 1];
      RunLength(c, steps');
      InvStep(c, RunSteps(c, steps'), steps[|steps| - 1]);
    }
  }

  lemma Ended(c: Config, s: State, received: nat, sent: nat)
    requires Inv(c, s) && Counts(c, s, received, sent) && s.phase == Finished
    ensures s.txns == 0 && received == sent == |c.msg| * c.txns
  {
  }

  lemma StuckEnds(c: Config, s: State)
    requires Inv(c, s) && forall step :: !Enabled(c, s, step)
    ensures s.phase == Finished
  {
    if s.phase != Finished {
      Progress(c, s);
    }
  }

  /** Liveness: no run is longer than 6 steps per byte of every transaction, and one
      that cannot be extended has completed them all, and moved all their bytes. */
  lemma ClosedLoopCompletes(c: Config, steps: seq<Step>)
    requires ValidConfig(c) && LegalSteps(c, steps)
    ensures |steps| <= 6 * |c.msg| * c.txns
    ensures (forall step :: !Enabled(c, RunSteps(c, steps), step)) ==>
              && RunSteps(c, steps).phase == Finished && RunSteps(c, steps).txns == 0
              && Received(steps) == SentInAll(steps) == |c.msg| * c.txns
  {
    RunLength(c, steps);
    LaterTotal(|c.msg|, c.txns);
    InvAlways(c, steps);
    TransactionsCounted(c, steps);
    if forall step :: !Enabled(c, RunSteps(c, steps), step) {
      StuckEnds(c, RunSteps(c, steps));
      Ended(c, RunSteps(c, steps), Received(steps), SentInAll(steps));
    }
  }
}
