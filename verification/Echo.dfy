/**
 The echo automaton that every back end of the server implements for one
 connection, and what the bytes on the wire have to do with each other.

 The transitions are those of the blocking handler (event-tester/threads.c):
 fill one message of |buffer| bytes, then write it back, in whatever pieces the
 kernel chooses.
 */
module Echo {

  type byte = x: int | 0 <= x < 256

  datatype Mode = Reading | Writing

  /** A connection together with its history: every byte read from the peer so
      far (`inp`) and every byte written to it (`out`). */
  datatype Session = Session(mode: Mode, cursor: nat, buffer: seq<byte>, inp: seq<byte>, out: seq<byte>)

  /** The effect of one successful system call. */
  datatype Io = Read(data: seq<byte>) | Wrote(n: nat)

  /** A buffer straight from `cache_alloc`: all zeroes. */
  function Zeroes(size: nat): (b: seq<byte>)
    ensures |b| == size
  {
    seq(size, _ => 0)
  }

  function Fresh(size: nat): Session {
    Session(Reading, 0, Zeroes(size), [], [])
  }

  function Place(buffer: seq<byte>, off: nat, data: seq<byte>): (b: seq<byte>)
    requires off + |data| <= |buffer|
    ensures |b| == |buffer|
  {
    buffer[..off] + data + buffer[off + |data|..]
  }

  /** The kernel moves at least one byte and never more than was asked for. */
  predicate Legal(s: Session, io: Io) {
    && s.cursor < |s.buffer|
    && match io
       case Read(data) => s.mode == Reading && 0 < |data| <= |s.buffer| - s.cursor
       case Wrote(n) => s.mode == Writing && 0 < n <= |s.buffer| - s.cursor
  }

  function Apply(s: Session, io: Io): Session
    requires Legal(s, io)
  {
    match io
    case Read(data) =>
      var full := s.cursor + |data| == |s.buffer|;
      Session(if full then Writing else Reading, if full then 0 else s.cursor + |data|,
              Place(s.buffer, s.cursor, data), s.inp + data, s.out)
    case Wrote(n) =>
      var full := s.cursor + n == |s.buffer|;
      Session(if full then Reading else Writing, if full then 0 else s.cursor + n,
              s.buffer, s.inp, s.out + s.buffer[s.cursor..s.cursor + n])
  }

  ghost predicate LegalRun(s: Session, ios: seq<Io>)
    decreases |ios|, 0
  {
    ios == [] ||
    (LegalRun(s, ios[..|ios| - 1]) && Legal(Run(s, ios[..|ios| - 1]), ios[|ios| - 1]))
  }

  ghost function Run(s: Session, ios: seq<Io>): Session
    requires LegalRun(s, ios)
    decreases |ios|, 1
  {
    if ios == [] then s else Apply(Run(s, ios[..|ios| - 1]), ios[|ios| - 1])
  }

  /** Nothing is lost, duplicated, reordered or altered: the output is a prefix of
      the input, the part of the input not yet written back is exactly what the
      buffer holds, and a reply only ever starts on a message boundary. */
  ghost predicate Faithful(s: Session) {
    && s.cursor < |s.buffer|
    && s.out <= s.inp
    && match s.mode
       case Reading => |s.out| % |s.buffer| == 0 && s.inp[|s.out|..] == s.buffer[..s.cursor]
       case Writing => |s.inp| % |s.buffer| == 0 && s.inp[|s.out|..] == s.buffer[s.cursor..]
  }

  lemma MulGap(p: int, q: int, m: nat)
    requires p < q
    ensures p * m + m <= q * m
  {
    assert q * m - p * m == (q - p) * m == (q - p - 1) * m + m;
    assert (q - p - 1) * m >= 0;
  }

  lemma ModUnique(a: nat, m: nat, q: int, r: nat)
    requires m > 0 && r < m && a == q * m + r
    ensures a % m == r && a / m == q
  {
    if a / m < q {
      MulGap(a / m, q, m);
    } else if q < a / m {
      MulGap(q, a / m, m);
    }
  }

  lemma FreshFaithful(size: nat)
    requires size > 0
    ensures Faithful(Fresh(size))
  {
    ModUnique(0, size, 0, 0);
  }

  lemma ReadFaithful(s: Session, data: seq<byte>)
    requires Faithful(s) && Legal(s, Read(data))
    ensures Faithful(Apply(s, Read(data)))
  {
    var t := Apply(s, Read(data));
    assert t.inp[|t.out|..] == s.inp[|s.out|..] + data == t.buffer[..s.cursor + |data|];
    if t.mode == Writing {
      assert |s.inp| == |s.out| + s.cursor;
      var m, q := |s.buffer|, |s.out| / |s.buffer|;
      assert |s.out| + m == (q + 1) * m + |s.out| % m;
      ModUnique(|s.out| + m, m, q + 1, 0);
      assert t.buffer[t.cursor..] == t.buffer[..s.cursor + |data|];
    }
  }

  lemma WroteFaithful(s: Session, n: nat)
    requires Faithful(s) && Legal(s, Wrote(n))
    ensures Faithful(Apply(s, Wrote(n)))
  {
    var t, rest := Apply(s, Wrote(n)), s.inp[|s.out|..];
    assert s.inp == s.out + rest;
    assert rest[..n] == s.buffer[s.cursor..s.cursor + n];
    assert s.inp == t.out + rest[n..];
  }

  lemma ApplyFaithful(s: Session, io: Io)
    requires Faithful(s) && Legal(s, io)
    ensures Faithful(Apply(s, io))
  {
    match io
    case Read(data) => ReadFaithful(s, data);
    case Wrote(n) => WroteFaithful(s, n);
  }

  /** Every run, for every split of the reads and the writes. */
  lemma {:induction false} RunFaithful(size: nat, ios: seq<Io>)
    requires size > 0 && LegalRun(Fresh(size), ios)
    ensures Faithful(Run(Fresh(size), ios)) && |Run(Fresh(size), ios).buffer| == size
  {
    if ios == [] {
      FreshFaithful(size);
    } else {
      RunFaithful(size, ios[..|ios| - 1]);
      ApplyFaithful(Run(Fresh(size), ios[..|ios| - 1]), ios[|ios| - 1]);
    }
  }

  /** The number of bytes in the whole messages of an input of length n. */
  function Whole(n: nat, size: nat): nat
    requires size > 0
  {
    n - n % size
  }

  /** An idle connection has echoed exactly the whole messages it received. */
  lemma IdleOutput(s: Session)
    requires Faithful(s) && s.mode == Reading
    ensures s.out == s.inp[..Whole(|s.inp|, |s.buffer|)]
    ensures s.cursor == |s.inp| % |s.buffer|
  {
    var m := |s.buffer|;
    assert |s.inp| == |s.out| + s.cursor;
    var q := |s.out| / m;
    ModUnique(|s.inp|, m, q, s.cursor);
  }

  /** A connection that is writing still owes part of the last whole message. */
  lemma BusyOutput(s: Session)
    requires Faithful(s) && s.mode == Writing
    ensures Whole(|s.inp|, |s.buffer|) == |s.inp|
    ensures s.out == s.inp[..|s.inp| - (|s.buffer| - s.cursor)]
    ensures s.cursor == |s.out| % |s.buffer|
  {
    var m := |s.buffer|;
    assert |s.inp| == |s.out| + (m - s.cursor);
    var q := |s.inp| / m;
    assert |s.out| == (q - 1) * m + s.cursor;
    ModUnique(|s.out|, m, q - 1, s.cursor);
  }

  /** Chunking independence: whatever the two back ends, and however the kernel cut
      the same input up for each of them, they answer with the same bytes and keep
      the same partial message. */
  lemma ChunkingIndependence(size: nat, ios1: seq<Io>, ios2: seq<Io>)
    requires size > 0 && LegalRun(Fresh(size), ios1) && LegalRun(Fresh(size), ios2)
    ensures var s1, s2 := Run(Fresh(size), ios1), Run(Fresh(size), ios2);
            && (s1.inp == s2.inp && s1.mode == s2.mode == Reading ==>
                  s1.out == s2.out && s1.cursor == s2.cursor && s1.buffer[..s1.cursor] == s2.buffer[..s2.cursor])
            && (s1.inp <= s2.inp && s2.mode == Reading ==> s1.out <= s2.out)
            && (s1.inp <= s2.inp ==> s1.out <= s2.inp)
  {
    var s1, s2 := Run(Fresh(size), ios1), Run(Fresh(size), ios2);
    RunFaithful(size, ios1);
    RunFaithful(size, ios2);
    if s1.mode == Reading { IdleOutput(s1); } else { BusyOutput(s1); }
    if s2.mode == Reading { IdleOutput(s2); }
    if s1.inp <= s2.inp && s2.mode == Reading {
      WholeMonotone(|s1.inp|, |s2.inp|, size);
    }
  }

  lemma WholeMonotone(a: nat, b: nat, size: nat)
    requires size > 0 && a <= b
    ensures 0 <= Whole(a, size) <= Whole(b, size) <= b
  {
    var q, p := a / size, b / size;
    assert Whole(a, size) == q * size && Whole(b, size) == p * size;
    if p < q {
      MulGap(p, q, size);
    } else {
      assert p * size - q * size == (p - q) * size >= 0;
    }
  }
}
