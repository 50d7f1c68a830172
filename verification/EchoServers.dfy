/**
 The per-connection code of the four back ends, each proved to perform a run of the
 echo automaton: what it leaves in the connection, and every byte it moved.
 */
module EchoServers {
  import opened Wrappers
  import opened Echo
  import opened Sockets

  /** The history of a connection whose buffer and cursor are as given. */
  ghost function View(mode: Mode, cursor: nat, buffer: array<byte>, sock: Socket): Session
    reads buffer, sock
  {
    Session(mode, cursor, buffer[..], sock.inp, sock.out)
  }

  ghost predicate Reached(start: Session, ios: seq<Io>, s: Session) {
    LegalRun(start, ios) && Run(start, ios) == s
  }

  lemma Extend(start: Session, ios: seq<Io>, s: Session, io: Io)
    requires Reached(start, ios, s) && Legal(s, io)
    ensures Reached(start, ios + [io], Apply(s, io))
  {
    assert (ios + [io])[..|ios|] == ios;
  }

  lemma {:induction false} Compose(start: Session, a: seq<Io>, mid: Session, b: seq<Io>, end: Session)
    requires Reached(start, a, mid) && Reached(mid, b, end)
    ensures Reached(start, a + b, end)
    decreases |b|
  {
    if b == [] {
      assert a + b == a;
    } else {
      var b' := b[..|b| - 1];
      Compose(start, a, mid, b', Run(mid, b'));
      Extend(start, a + b', Run(mid, b'), b[|b| - 1]);
      assert a + b == (a + b') + [b[|b| - 1]];
    }
  }

  datatype Status = Waiting | Closed | Died | Done

  /** What the last call returned when a handler stops with the given status. */
  function Stop(status: Status): Ret {
    match status
    case Closed => Zero
    case Died => Failed
    case _ => NotYet
  }

  /** threads.c, the read loop: Done with the whole message, or stopped by what the last
      call returned. EAGAIN does not happen on a blocking socket; here it just keeps the
      caller waiting. Waiting means that the thread is still blocked. */
  method BlockingRead(sock: Socket, buffer: array<byte>) returns (status: Status, cursor: nat, ghost ios: seq<Io>)
    requires buffer.Length > 0
    modifies sock, buffer
    ensures Reached(old(View(Reading, 0, buffer, sock)), ios,
                    if status == Done then View(Writing, 0, buffer, sock) else View(Reading, cursor, buffer, sock))
    ensures status == Done ==> |sock.script| < |old(sock.script)|
    ensures status != Done ==> sock.Last(old(sock.calls)) == Some(Call(false, Stop(status)))
    ensures status == Waiting ==> sock.script == []
    ensures old(sock.calls) <= sock.calls && sock.inp + sock.pending == old(sock.inp + sock.pending)
  {
    ghost var start := View(Reading, 0, buffer, sock);
    cursor, ios := 0, [];
    while cursor < buffer.Length
      invariant cursor <= buffer.Length
      invariant Reached(start, ios,
                        if cursor < buffer.Length then View(Reading, cursor, buffer, sock)
                        else View(Writing, 0, buffer, sock))
      invariant |sock.script| <= |old(sock.script)| && (cursor > 0 ==> |sock.script| < |old(sock.script)|)
      invariant old(sock.calls) <= sock.calls && sock.inp + sock.pending == old(sock.inp + sock.pending)
      decreases |sock.script|, buffer.Length - cursor
    {
      ghost var s := View(Reading, cursor, buffer, sock);
      ghost var pending := sock.pending;
      var ret := sock.Read(buffer, cursor, buffer.Length - cursor);
      match ret {
        case Zero => return Closed, cursor, ios;
        case Failed => return Died, cursor, ios;
        case NotYet => return Waiting, cursor, ios;
        case WouldBlock =>
        case Moved(n) =>
          Extend(start, ios, s, Read(pending[..n]));
          ios := ios + [Read(pending[..n])];
          cursor := cursor + n;
      }
    }
    status := Done;
  }

  /** threads.c, the write loop. */
  method BlockingWrite(sock: Socket, buffer: array<byte>) returns (status: Status, cursor: nat, ghost ios: seq<Io>)
    requires buffer.Length > 0
    modifies sock
    ensures Reached(old(View(Writing, 0, buffer, sock)), ios,
                    if status == Done then View(Reading, 0, buffer, sock) else View(Writing, cursor, buffer, sock))
    ensures status == Done ==> |sock.script| < |old(sock.script)|
    ensures status != Done ==> sock.Last(old(sock.calls)) == Some(Call(true, Stop(status)))
    ensures status == Waiting ==> sock.script == []
    ensures old(sock.calls) <= sock.calls && sock.inp + sock.pending == old(sock.inp + sock.pending)
  {
    ghost var start := View(Writing, 0, buffer, sock);
    cursor, ios := 0, [];
    while cursor < buffer.Length
      invariant cursor <= buffer.Length
      invariant Reached(start, ios,
                        if cursor < buffer.Length then View(Writing, cursor, buffer, sock)
                        else View(Reading, 0, buffer, sock))
      invariant |sock.script| <= |old(sock.script)| && (cursor > 0 ==> |sock.script| < |old(sock.script)|)
      invariant old(sock.calls) <= sock.calls && sock.inp + sock.pending == old(sock.inp + sock.pending)
      decreases |sock.script|, buffer.Length - cursor
    {
      ghost var s := View(Writing, cursor, buffer, sock);
      var ret := sock.Write(buffer, cursor, buffer.Length - cursor);
      match ret {
        case Zero => return Closed, cursor, ios;
        case Failed => return Died, cursor, ios;
        case NotYet => return Waiting, cursor, ios;
        case WouldBlock =>
        case Moved(n) =>
          Extend(start, ios, s, Wrote(n));
          ios := ios + [Wrote(n)];
          cursor := cursor + n;
      }
    }
    status := Done;
  }

  /** threads.c, conn_handler: one thread per connection. It stops only when a call
      returned 0 or failed; Waiting means that the thread is still blocked, in a read or a
      write as `mode` says. */
  method ConnHandler(size: nat, sock: Socket)
    returns (status: Status, mode: Mode, cursor: nat, buffer: array<byte>, ghost ios: seq<Io>)
    requires size > 0 && sock.inp == [] && sock.out == []
    modifies sock
    ensures fresh(buffer) && buffer.Length == size
    ensures Reached(Fresh(size), ios, View(mode, cursor, buffer, sock))
    ensures status != Done && sock.Last(old(sock.calls)) == Some(Call(mode == Writing, Stop(status)))
    ensures status == Waiting ==> sock.script == []
    ensures sock.inp + sock.pending == old(sock.pending)
  {
    buffer := new byte[size](_ => 0);
    mode, cursor, ios := Reading, 0, [];
    assert buffer[..] == Zeroes(size);
    while true
      invariant fresh(buffer) && buffer.Length == size && old(sock.calls) <= sock.calls
      invariant Reached(Fresh(size), ios, View(Reading, 0, buffer, sock))
      invariant sock.inp + sock.pending == old(sock.pending)
      decreases |sock.script|
    {
      ghost var s, more := View(Reading, 0, buffer, sock), [];
      status, cursor, more := BlockingRead(sock, buffer);
      if status != Done {
        Compose(Fresh(size), ios, s, more, View(Reading, cursor, buffer, sock));
        return status, Reading, cursor, buffer, ios + more;
      }
      Compose(Fresh(size), ios, s, more, View(Writing, 0, buffer, sock));
      ios, s := ios + more, View(Writing, 0, buffer, sock);
      status, cursor, more := BlockingWrite(sock, buffer);
      if status != Done {
        Compose(Fresh(size), ios, s, more, View(Writing, cursor, buffer, sock));
        return status, Writing, cursor, buffer, ios + more;
      }
      Compose(Fresh(size), ios, s, more, View(Reading, 0, buffer, sock));
      ios := ios + more;
    }
  }

  /** The last call since `before` was a read that moved nothing and did not see the end. */
  ghost predicate Dry(sock: Socket, before: seq<Call>)
    reads sock
  {
    match sock.Last(before)
    case Some(call) => !call.write && (call.ret == WouldBlock || call.ret == Failed || call.ret == NotYet)
    case None => false
  }

  /** The bytes that arrive with the first k events. */
  function Arrived(events: seq<(seq<byte>, seq<Answer>)>, k: nat): seq<byte>
    requires k <= |events|
  {
    if k == 0 then [] else Arrived(events, k - 1) + events[k - 1].0
  }

  /** epoll.c: a connection between two events is always reading. */
  class EpollConn {
    var cursor: nat
    var buffer: array<byte>
    var writing: bool
    var open: bool

    ghost predicate Valid()
      reads this
    {
      cursor < buffer.Length && !writing && open
    }

    constructor (size: nat)
      requires size > 0
      ensures Valid() && fresh(buffer) && buffer.Length == size && cursor == 0 && buffer[..] == Zeroes(size)
    {
      cursor, writing, open := 0, false, true;
      buffer := new byte[size](_ => 0);
    }

    /** The read loop of on_read. Done means that the socket is dry and the cursor saved;
        Waiting that the whole message is there. */
    method ReadAll(sock: Socket) returns (status: Status, at: nat, ghost ios: seq<Io>)
      requires Valid()
      modifies this, buffer, sock
      ensures buffer == old(buffer) && !writing && status != Died
      ensures status == Done ==> Valid() && at == cursor
      ensures status == Waiting ==> open && at == buffer.Length
      ensures status == Closed ==> !open && sock.Last(old(sock.calls)) == Some(Call(false, Zero))
      ensures status == Done ==> Dry(sock, old(sock.calls))
      ensures status == Waiting ==> |sock.inp| == |old(sock.inp)| + (buffer.Length - old(cursor))
      ensures old(sock.calls) < sock.calls && sock.out == old(sock.out)
      ensures sock.inp + sock.pending == old(sock.inp + sock.pending)
      ensures Reached(old(View(Reading, cursor, buffer, sock)), ios,
                      if status == Waiting then View(Writing, 0, buffer, sock) else View(Reading, at, buffer, sock))
    {
      ghost var start := View(Reading, cursor, buffer, sock);
      var size := buffer.Length;
      at, ios := cursor, [];
      while at < size
        invariant buffer == old(buffer) && cursor == old(cursor) <= at <= size && !writing && open
        invariant Reached(start, ios,
                          if at < size then View(Reading, at, buffer, sock) else View(Writing, 0, buffer, sock))
        invariant sock.inp + sock.pending == old(sock.inp + sock.pending) && sock.out == old(sock.out)
        invariant |sock.inp| == |old(sock.inp)| + (at - cursor) && old(sock.calls) <= sock.calls
        invariant at > cursor ==> old(sock.calls) < sock.calls
        decreases |sock.script|, size - at
      {
        ghost var s := View(Reading, at, buffer, sock);
        ghost var pending := sock.pending;
        var ret := sock.Read(buffer, at, size - at);
        if ret.Moved? {
          Extend(start, ios, s, Read(pending[..ret.n]));
          ios := ios + [Read(pending[..ret.n])];
          at := at + ret.n;
        } else {
          if ret == Zero {
            open := false;
            return Closed, at, ios;
          }
          if at > cursor {
            cursor := at;
          }
          return Done, at, ios;
        }
      }
      status := Waiting;
    }

    /** The write loop of on_read, which spins on EAGAIN and on errors. */
    method WriteAll(sock: Socket) returns (status: Status, at: nat, ghost ios: seq<Io>)
      requires open && writing && buffer.Length > 0 && cursor == 0
      modifies this`open, this`writing, sock
      ensures status != Died
      ensures status == Done ==> Valid() && at == cursor
      ensures status == Waiting ==> writing && sock.script == []
      ensures status == Closed ==> !open && writing
      ensures status != Done ==> sock.Last(old(sock.calls)) == Some(Call(true, Stop(status)))
      ensures status == Done ==> at == 0 && |sock.out| == |old(sock.out)| + buffer.Length
      ensures old(sock.calls) <= sock.calls && sock.inp == old(sock.inp) && sock.pending == old(sock.pending)
      ensures Reached(old(View(Writing, 0, buffer, sock)), ios,
                      View(if writing then Writing else Reading, at, buffer, sock))
    {
      var buf, size := buffer, buffer.Length;
      ghost var start := View(Writing, 0, buf, sock);
      at, ios := 0, [];
      while at < size
        invariant at <= size && writing && open
        invariant Reached(start, ios, if at < size then View(Writing, at, buf, sock) else View(Reading, 0, buf, sock))
        invariant sock.inp == old(sock.inp) && sock.pending == old(sock.pending) && old(sock.calls) <= sock.calls
        invariant |sock.out| == |old(sock.out)| + at
        decreases |sock.script|, size - at
      {
        ghost var s := View(Writing, at, buf, sock);
        var ret := sock.Write(buf, at, size - at);
        if ret.Moved? {
          Extend(start, ios, s, Wrote(ret.n));
          ios := ios + [Wrote(ret.n)];
          at := at + ret.n;
        } else if ret == Zero {
          open := false;
          return Closed, at, ios;
        } else if ret == NotYet {
          return Waiting, at, ios;
        }
      }
      writing := false;
      return Done, 0, ios;
    }

    /** on_read: read until the message is complete or the socket is dry, then write the
        whole message. Done means one or the other: the read loop ended because the last
        call did not move anything, or the rest of one message was read and all of it
        written. Waiting means that it is still inside the write loop, `at` bytes into the
        message; Closed, that the last call returned 0. */
    method OnRead(sock: Socket) returns (status: Status, at: nat, ghost ios: seq<Io>)
      requires Valid()
      modifies this, buffer, sock
      ensures buffer == old(buffer)
      ensures status == Done ==> Valid() && at == cursor
      ensures status == Waiting ==>
                writing && sock.script == [] && sock.Last(old(sock.calls)) == Some(Call(true, NotYet))
      ensures status == Closed ==>
                !open && (sock.Last(old(sock.calls)) == Some(Call(writing, Zero)))
      ensures status == Done ==>
                || (Dry(sock, old(sock.calls)) && sock.out == old(sock.out))
                || (at == 0 && |sock.inp| == |old(sock.inp)| + (buffer.Length - old(cursor))
                    && |sock.out| == |old(sock.out)| + buffer.Length)
      ensures status != Died && old(sock.calls) < sock.calls
      ensures sock.inp + sock.pending == old(sock.inp + sock.pending)
      ensures Reached(old(View(Reading, cursor, buffer, sock)), ios,
                      View(if writing then Writing else Reading, at, buffer, sock))
    {
      ghost var start := View(Reading, cursor, buffer, sock);
      status, at, ios := ReadAll(sock);
      if status != Waiting {
        return;
      }
      cursor := 0;
      writing := true;
      ghost var mid := View(Writing, 0, buffer, sock);
      ghost var more;
      status, at, more := WriteAll(sock);
      Compose(start, ios, mid, more, View(if writing then Writing else Reading, at, buffer, sock));
      ios := ios + more;
    }
  }

  /** The life of one epoll connection: bytes arrive, the descriptor is reported
      readable, on_read runs with whatever answers the kernel then gives. Every event is
      handled unless one before it ended the connection or never came to an end; after the
      last, the socket is dry or a whole message has just been answered. */
  method ServeEpoll(size: nat, sock: Socket, events: seq<(seq<byte>, seq<Answer>)>)
    returns (status: Status, handled: nat, conn: EpollConn, at: nat, ghost ios: seq<Io>)
    requires size > 0 && sock.inp == [] && sock.out == []
    modifies sock
    ensures fresh(conn) && fresh(conn.buffer)
    ensures handled <= |events| && |sock.calls| >= |old(sock.calls)| + handled
    ensures sock.inp + sock.pending == old(sock.pending) + Arrived(events, handled)
    ensures status == Done ==>
              && handled == |events| && conn.Valid() && at == conn.cursor
              && (at == 0 || Dry(sock, old(sock.calls)))
    ensures status != Done ==>
              handled > 0 && status != Died && sock.Last(old(sock.calls)) == Some(Call(conn.writing, Stop(status)))
    ensures Reached(Fresh(size), ios, View(if conn.writing then Writing else Reading, at, conn.buffer, sock))
  {
    conn := new EpollConn(size);
    status, handled, at, ios := Done, 0, 0, [];
    while handled < |events|
      invariant fresh(conn) && fresh(conn.buffer) && conn.Valid() && at == conn.cursor && status == Done
      invariant handled <= |events| && |sock.calls| >= |old(sock.calls)| + handled && old(sock.calls) <= sock.calls
      invariant sock.inp + sock.pending == old(sock.pending) + Arrived(events, handled)
      invariant at == 0 || Dry(sock, old(sock.calls))
      invariant Reached(Fresh(size), ios, View(Reading, at, conn.buffer, sock))
    {
      assert sock.inp + (sock.pending + events[handled].0) == (sock.inp + sock.pending) + events[handled].0;
      assert old(sock.pending) + Arrived(events, handled) + events[handled].0
          == old(sock.pending) + (Arrived(events, handled) + events[handled].0);
      sock.pending, sock.script := sock.pending + events[handled].0, events[handled].1;
      handled := handled + 1;
      ghost var mid := View(Reading, at, conn.buffer, sock);
      ghost var more;
      status, at, more := conn.OnRead(sock);
      Compose(Fresh(size), ios, mid, more, View(if conn.writing then Writing else Reading, at, conn.buffer, sock));
      ios := ios + more;
      if status != Done {
        return;
      }
    }
  }

  /** iouring.c and upcall.c: what a handler asks the kernel to do next. */
  datatype Next = SubmitRead(off: nat, len: nat) | SubmitWrite(off: nat, len: nat) | CloseIt | Nothing

  /** The request a connection in this state needs. */
  ghost function Wanted(s: Session): Next
    requires s.cursor <= |s.buffer|
  {
    if s.mode == Reading then SubmitRead(s.cursor, |s.buffer| - s.cursor)
    else SubmitWrite(s.cursor, |s.buffer| - s.cursor)
  }

  class UringConn {
    var cursor: nat
    var buffer: array<byte>

    ghost predicate Valid()
      reads this
    {
      cursor < buffer.Length
    }

    constructor (size: nat)
      requires size > 0
      ensures Valid() && fresh(buffer) && buffer.Length == size && cursor == 0 && buffer[..] == Zeroes(size)
    {
      cursor := 0;
      buffer := new byte[size](_ => 0);
    }

    /** case SOCK_READ. The kernel has already put the data at the offset the request
        named, which was the cursor. */
    method OnSockRead(ret: int, ghost s: Session, ghost data: seq<byte>) returns (next: Next)
      requires Valid() && s.mode == Reading && s.cursor == cursor && |s.buffer| == buffer.Length
      requires ret <= buffer.Length - cursor
      requires ret > 0 ==> |data| == ret && buffer[..] == Place(s.buffer, s.cursor, data)
      modifies this
      ensures Valid() && buffer == old(buffer)
      ensures ret <= 0 ==> next == CloseIt && cursor == old(cursor)
      ensures ret > 0 ==>
                var t := Apply(s, Read(data));
                next == Wanted(t) && cursor == t.cursor && buffer[..] == t.buffer
    {
      if ret <= 0 {
        return CloseIt;
      }
      if cursor + ret == buffer.Length {
        cursor := 0;
        next := SubmitWrite(0, buffer.Length);
      } else {
        cursor := cursor + ret;
        next := SubmitRead(cursor, buffer.Length - cursor);
      }
    }

    /** case SOCK_WRITE. */
    method OnSockWrite(ret: int, ghost s: Session) returns (next: Next)
      requires Valid() && s.mode == Writing && s.cursor == cursor && s.buffer == buffer[..]
      requires ret <= buffer.Length - cursor
      modifies this
      ensures Valid() && buffer == old(buffer)
      ensures ret <= 0 ==> next == CloseIt && cursor == old(cursor)
      ensures ret > 0 ==>
                var t := Apply(s, Wrote(ret));
                next == Wanted(t) && cursor == t.cursor && buffer[..] == t.buffer
    {
      if ret <= 0 {
        return CloseIt;
      }
      if cursor + ret == buffer.Length {
        cursor := 0;
        next := SubmitRead(0, buffer.Length);
      } else {
        cursor := cursor + ret;
        next := SubmitWrite(cursor, buffer.Length - cursor);
      }
    }
  }

  /** The connection's request is the one its state calls for. */
  ghost predicate InStep(conn: UringConn, sock: Socket, next: Next, start: Session, ios: seq<Io>, mode: Mode)
    reads conn, conn.buffer, sock
  {
    && conn.Valid() && next == Wanted(View(mode, conn.cursor, conn.buffer, sock))
    && Reached(start, ios, View(mode, conn.cursor, conn.buffer, sock))
  }

  /** One answer of the kernel to the request in flight. */
  method Answer(conn: UringConn, sock: Socket, next: Next, ghost start: Session, ghost ios: seq<Io>, ghost mode: Mode)
    returns (closed: bool, next': Next, ghost ios': seq<Io>, ghost mode': Mode)
    requires InStep(conn, sock, next, start, ios, mode) && sock.script != []
    modifies conn, conn.buffer, sock
    ensures conn.buffer == old(conn.buffer) && conn.Valid() && |sock.script| < |old(sock.script)|
    ensures !closed ==> InStep(conn, sock, next', start, ios', mode')
    ensures closed ==>
              && next' == CloseIt && Ended(sock, old(sock.calls))
              && Reached(start, ios', View(mode', conn.cursor, conn.buffer, sock))
    ensures old(sock.calls) <= sock.calls && sock.inp + sock.pending == old(sock.inp + sock.pending)
  {
    ghost var s := View(mode, conn.cursor, conn.buffer, sock);
    ghost var pending := sock.pending;
    var isRead := next.SubmitRead?;
    var ret;
    closed, next', ios', mode' := false, next, ios, mode;
    if isRead {
      ret := sock.Read(conn.buffer, next.off, next.len);
    } else {
      ret := sock.Write(conn.buffer, next.off, next.len);
    }
    if ret == WouldBlock {
      return;  // not completed yet
    }
    var result := if ret.Moved? then ret.n else if ret == Zero then 0 else -1;
    if isRead {
      next' := conn.OnSockRead(result, s, if result > 0 then pending[..result] else []);
    } else {
      next' := conn.OnSockWrite(result, s);
    }
    closed := result <= 0;
    if result > 0 {
      ghost var io := if isRead then Read(pending[..result]) else Wrote(result);
      Extend(start, ios, s, io);
      ios', mode' := ios + [io], Apply(s, io).mode;
    }
  }

  /** The last call returned 0 or failed. */
  ghost predicate Ended(sock: Socket, before: seq<Call>)
    reads sock
  {
    match sock.Last(before)
    case Some(call) => call.ret == Zero || call.ret == Failed
    case None => false
  }

  /** The life of one io_uring connection: the kernel performs the request in flight
      when and as far as it likes, and the completion handler submits the next one, until
      the kernel has nothing more to say or a result of 0 or less closes the connection. */
  method ServeUring(size: nat, sock: Socket)
    returns (closed: bool, conn: UringConn, next: Next, ghost ios: seq<Io>)
    requires size > 0 && sock.inp == [] && sock.out == []
    modifies sock
    ensures fresh(conn) && fresh(conn.buffer) && conn.Valid()
    ensures if closed then next == CloseIt && Ended(sock, old(sock.calls)) else sock.script == []
    ensures sock.inp + sock.pending == old(sock.pending)
    ensures exists mode :: Reached(Fresh(size), ios, View(mode, conn.cursor, conn.buffer, sock))
              && (!closed ==> next == Wanted(View(mode, conn.cursor, conn.buffer, sock)))
  {
    conn := new UringConn(size);
    closed, ios := false, [];
    ghost var mode := Reading;
    next := SubmitRead(0, size);
    assert View(Reading, 0, conn.buffer, sock) == Fresh(size);
    while !closed && sock.script != []
      invariant fresh(conn) && fresh(conn.buffer) && conn.Valid()
      invariant !closed ==> InStep(conn, sock, next, Fresh(size), ios, mode)
      invariant closed ==>
                  && next == CloseIt && Ended(sock, old(sock.calls))
                  && Reached(Fresh(size), ios, View(mode, conn.cursor, conn.buffer, sock))
      invariant old(sock.calls) <= sock.calls && sock.inp + sock.pending == old(sock.pending)
      decreases |sock.script|
    {
      closed, next, ios, mode := Answer(conn, sock, next, Fresh(size), ios, mode);
    }
  }

  class UpcallConn {
    var cursor: nat
    var buffer: array<byte>

    ghost predicate Valid()
      reads this
    {
      cursor < buffer.Length
    }

    constructor (size: nat)
      requires size > 0
      ensures Valid() && fresh(buffer) && buffer.Length == size && cursor == 0 && buffer[..] == Zeroes(size)
    {
      cursor := 0;
      buffer := new byte[size](_ => 0);
    }

    /** my_read: copy a pool buffer into the message. The request named no length, so
        nothing but the peer's behaviour keeps the copy inside the buffer: `overrun` says
        that it would not have stayed there, and nothing is then said of what follows. */
    method MyRead(result: int, buf: array<byte>, ghost s: Session) returns (next: Next, overrun: bool)
      requires Valid() && s.mode == Reading && s.cursor == cursor && s.buffer == buffer[..]
      requires buf != buffer && result <= buf.Length
      modifies this, buffer
      ensures Valid() && buffer == old(buffer)
      ensures overrun <==> old(cursor) + result > buffer.Length
      ensures result <= 0 ==>
                next == (if result == 0 then CloseIt else Nothing) && cursor == old(cursor) && buffer[..] == s.buffer
      ensures result > 0 && !overrun ==>
                var t := Apply(s, Read(old(buf[..result])));
                && cursor == t.cursor && buffer[..] == t.buffer
                && next == if t.mode == Reading then SubmitRead(0, 0) else Wanted(t)
    {
      if result == 0 {
        return CloseIt, false;
      }
      if result < 0 {
        return Nothing, false;
      }
      if cursor + result > buffer.Length {
        return Nothing, true;
      }
      forall i | 0 <= i < result {
        buffer[cursor + i] := buf[i];
      }
      assert buffer[..] == Place(s.buffer, cursor, old(buf[..result]));
      cursor := cursor + result;
      if cursor < buffer.Length {
        return SubmitRead(0, 0), false;
      }
      cursor := 0;
      return SubmitWrite(0, buffer.Length), false;
    }

    /** my_write. */
    method MyWrite(result: int, ghost s: Session) returns (next: Next)
      requires Valid() && s.mode == Writing && s.cursor == cursor && s.buffer == buffer[..]
      requires result <= buffer.Length - cursor
      modifies this
      ensures Valid() && buffer == old(buffer)
      ensures result <= 0 ==> next == (if result == 0 then CloseIt else Nothing) && cursor == old(cursor)
      ensures result > 0 ==>
                var t := Apply(s, Wrote(result));
                && cursor == t.cursor && buffer[..] == t.buffer
                && next == if t.mode == Reading then SubmitRead(0, 0) else Wanted(t)
    {
      if result == 0 {
        return CloseIt;
      }
      if result < 0 {
        return Nothing;
      }
      if result + cursor < buffer.Length {
        cursor := cursor + result;
        return SubmitWrite(cursor, buffer.Length - cursor);
      }
      cursor := 0;
      next := SubmitRead(0, 0);
    }
  }
}
