/**
 The kernel's side of one connected socket: an arbitrary script of answers to the
 server's reads and writes, and the bytes that went each way.
 */
module Sockets {
  import opened Wrappers
  import opened Echo

  /** What the kernel does when a call is made: move up to n bytes, report that the
      peer is gone, report EAGAIN, or report another error. */
  datatype Answer = Move(n: nat) | Shut | Again | Error

  /** What the caller sees: a count > 0, 0, -1 with EAGAIN, -1 with another errno; or,
      once the script is over, nothing yet. */
  datatype Ret = Moved(n: nat) | Zero | WouldBlock | Failed | NotYet

  /** One call on the socket, and what it returned. */
  datatype Call = Call(write: bool, ret: Ret)

  class Socket {
    var script: seq<Answer>
    var pending: seq<byte>    // sent by the peer, not yet read
    ghost var inp: seq<byte>  // read so far
    ghost var out: seq<byte>  // written so far
    ghost var calls: seq<Call>

    /** What the last call made since `before` was, if there was one. */
    ghost function Last(before: seq<Call>): Option<Call>
      reads this
    {
      if before < calls then Some(calls[|calls| - 1]) else None
    }

    /** What a call for len bytes returns, with `most` bytes to be had. */
    static function Result(a: Answer, len: nat, most: nat): Ret {
      match a
      case Shut => Zero
      case Again => WouldBlock
      case Error => Failed
      case Move(n) =>
        var k := if n < len then n else len;
        if n == 0 || most == 0 then WouldBlock else Moved(if k < most then k else most)
    }

    constructor (script: seq<Answer>, pending: seq<byte>)
      ensures this.script == script && this.pending == pending && inp == [] && out == [] && calls == []
    {
      this.script, this.pending := script, pending;
      inp, out, calls := [], [], [];
    }

    method Read(buf: array<byte>, off: nat, len: nat) returns (ret: Ret)
      requires off + len <= buf.Length && len > 0
      modifies this, buf
      ensures ret == NotYet <==> old(script) == []
      ensures old(script) != [] ==> script == old(script)[1..] && ret == Result(old(script)[0], len, |old(pending)|)
      ensures old(script) == [] ==> script == []
      ensures out == old(out) && calls == old(calls) + [Call(false, ret)]
      ensures inp + pending == old(inp + pending)
      ensures match ret
              case Moved(n) =>
                && 0 < n <= len && n <= |old(pending)|
                && inp == old(inp) + old(pending)[..n] && pending == old(pending)[n..]
                && buf[..] == Place(old(buf[..]), off, old(pending)[..n])
              case _ => inp == old(inp) && pending == old(pending) && buf[..] == old(buf[..])
    {
      if script == [] {
        calls := calls + [Call(false, NotYet)];
        return NotYet;
      }
      var a := script[0];
      script := script[1..];
      match a {
        case Again =>
          calls := calls + [Call(false, WouldBlock)];
          return WouldBlock;
        case Error =>
          calls := calls + [Call(false, Failed)];
          return Failed;
        case Shut =>
          calls := calls + [Call(false, Zero)];
          return Zero;
        case Move(n) =>
          if n == 0 || pending == [] {
            calls := calls + [Call(false, WouldBlock)];
            return WouldBlock;
          }
          var k := if n < len then n else len;
          if |pending| < k {
            k := |pending|;
          }
          var data := pending[..k];
          forall i | 0 <= i < k {
            buf[off + i] := data[i];
          }
          inp, pending := inp + data, pending[k..];
          assert buf[..] == Place(old(buf[..]), off, data);
          calls := calls + [Call(false, Moved(k))];
          return Moved(k);
      }
    }

    method Write(buf: array<byte>, off: nat, len: nat) returns (ret: Ret)
      requires off + len <= buf.Length && len > 0
      modifies this
      ensures ret == NotYet <==> old(script) == []
      ensures old(script) != [] ==> script == old(script)[1..] && ret == Result(old(script)[0], len, len)
      ensures old(script) == [] ==> script == []
      ensures inp == old(inp) && pending == old(pending) && calls == old(calls) + [Call(true, ret)]
      ensures match ret
              case Moved(n) => 0 < n <= len && out == old(out) + buf[off..off + n]
              case _ => out == old(out)
    {
      if script == [] {
        calls := calls + [Call(true, NotYet)];
        return NotYet;
      }
      var a := script[0];
      script := script[1..];
      match a {
        case Again =>
          calls := calls + [Call(true, WouldBlock)];
          return WouldBlock;
        case Error =>
          calls := calls + [Call(true, Failed)];
          return Failed;
        case Shut =>
          calls := calls + [Call(true, Zero)];
          return Zero;
        case Move(n) =>
          if n == 0 {
            calls := calls + [Call(true, WouldBlock)];
            return WouldBlock;
          }
          var k := if n < len then n else len;
          out := out + buf[off..off + k];
          calls := calls + [Call(true, Moved(k))];
          return Moved(k);
      }
    }
  }
}
