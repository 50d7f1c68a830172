/**
 The batch histograms of libupcall/upcall.c: one array shared by all workers, each of
 which writes only its own slot: a count of submits, a histogram of batch sizes, and two
 of times on a binary logarithmic scale.
 */
module BatchStats {
  import Echo

  const TIME_BUCKETS := 40
  const PER_LINE := 8  // 64-bit counters in a cache line

  function Pow2(b: nat): nat {
    if b == 0 then 1 else 2 * Pow2(b - 1)
  }

  /** 63 - clz(d) for d > 0, and 0 for d == 0. */
  function Log2(d: nat): (b: nat)
    ensures d > 0 ==> Pow2(b) <= d < Pow2(b + 1)
    ensures d == 0 ==> b == 0
  {
    if d < 2 then 0 else 1 + Log2(d / 2)
  }

  lemma {:induction false} Pow2Grows(a: nat, b: nat)
    requires a <= b
    ensures 0 < Pow2(a) <= Pow2(b)
  {
    if a < b {
      Pow2Grows(a, b - 1);
    } else if b > 0 {
      Pow2Grows(a - 1, b - 1);
    }
  }

  /** Bucket b is the only one whose range holds d; the last bucket also takes all that is
      beyond it. */
  lemma BucketUnique(d: nat, b: nat, len: nat)
    requires d > 0 && b < len
    ensures Clamp(Log2(d), len) == b <==> Pow2(b) <= d && (b < len - 1 ==> d < Pow2(b + 1))
  {
    var l := Log2(d);
    if l < b {
      Pow2Grows(l + 1, b);
    } else if b < l {
      Pow2Grows(b + 1, l);
    }
  }

  function Clamp(b: nat, len: nat): (r: nat)
    requires len > 0
    ensures r < len && (b < len ==> r == b) && (b >= len ==> r == len - 1)
  {
    if b >= len then len - 1 else b
  }

  /** (x + 7) & ~7. */
  function RoundUp(x: nat): (r: nat)
    ensures r % PER_LINE == 0 && x <= r < x + PER_LINE
  {
    (x + (PER_LINE - 1)) / PER_LINE * PER_LINE
  }

  /** Sum of cells lo .. hi - 1. */
  function Sum(cells: seq<nat>, lo: nat, hi: nat): nat
    requires lo <= hi <= |cells|
    decreases hi
  {
    if lo == hi then 0 else Sum(cells, lo, hi - 1) + cells[hi - 1]
  }

  lemma {:induction false} SumAdd(cells: seq<nat>, lo: nat, hi: nat, i: nat)
    requires lo <= hi <= |cells| && i < |cells|
    ensures Sum(cells[i := cells[i] + 1], lo, hi) == Sum(cells, lo, hi) + if lo <= i < hi then 1 else 0
    decreases hi
  {
    if lo < hi {
      SumAdd(cells, lo, hi - 1, i);
    }
  }

  lemma {:induction false} SumSame(a: seq<nat>, b: seq<nat>, lo: nat, hi: nat)
    requires lo <= hi <= |a| == |b| && forall i :: lo <= i < hi ==> a[i] == b[i]
    ensures Sum(a, lo, hi) == Sum(b, lo, hi)
    decreases hi
  {
    if lo < hi {
      SumSame(a, b, lo, hi - 1);
    }
  }

  lemma {:induction false} SumZero(a: seq<nat>, lo: nat, hi: nat)
    requires lo <= hi <= |a| && forall i :: lo <= i < hi ==> a[i] == 0
    ensures Sum(a, lo, hi) == 0
    decreases hi
  {
    if lo < hi {
      SumZero(a, lo, hi - 1);
    }
  }

  /** Where things are: `batch` is the number of buffers, the batch-size histogram has one
      bucket more. */
  datatype Layout = Layout(batch: nat) {
    function Hist(): nat { batch + 1 }
    function Used(): nat { 1 + Hist() + 2 * TIME_BUCKETS }
    function Stride(): nat { RoundUp(Used()) }
    function Slot(id: nat): nat { id * Stride() }
    function Batches(slot: nat): nat { slot + 1 }
    function Utimes(slot: nat): nat { slot + 1 + Hist() }
    function Ktimes(slot: nat): nat { slot + 1 + Hist() + TIME_BUCKETS }
    function End(slot: nat): nat { slot + Used() }
  }

  /** A slot in numbers: the submits; a bucket for each batch size from 0 to the number of
      buffers; the two histograms of times; and padding to a whole cache line. */
  lemma LayoutExact(l: Layout, id: nat, ret: nat)
    ensures Clamp(ret, l.Hist()) == if ret < l.batch then ret else l.batch
    ensures l.Batches(l.Slot(id)) + l.batch + 1 == l.Utimes(l.Slot(id))
    ensures l.Utimes(l.Slot(id)) + 40 == l.Ktimes(l.Slot(id)) && l.Ktimes(l.Slot(id)) + 40 == l.End(l.Slot(id))
    ensures l.End(l.Slot(id)) == l.Slot(id) + 82 + l.batch <= l.Slot(id) + l.Stride() < l.End(l.Slot(id)) + 8
    ensures l.Slot(id + 1) == l.Slot(id) + l.Stride()
  {
    assert (id + 1) * l.Stride() == id * l.Stride() + l.Stride();
  }

  /** Slots of different workers share no cache line, and all are in the array. */
  lemma SlotsApart(l: Layout, i: nat, j: nat, nr: nat)
    requires i < j < nr
    ensures l.End(l.Slot(i)) <= l.Slot(i) + l.Stride() <= l.Slot(j)
    ensures l.End(l.Slot(j)) <= nr * l.Stride()
    ensures l.Slot(i) % PER_LINE == 0 && l.Slot(j) % PER_LINE == 0
  {
    var s, q := l.Stride(), l.Stride() / PER_LINE;
    assert s == PER_LINE * q && l.Used() <= s;
    Echo.MulGap(i, j, s);
    Echo.MulGap(j, nr, s);
    MulLines(i, q);
    MulLines(j, q);
  }

  lemma {:induction false} MulLines(i: nat, q: nat)
    ensures i * (PER_LINE * q) == PER_LINE * (i * q)
  {
    if i > 0 {
      MulLines(i - 1, q);
    }
  }

  /** Conservation, for one worker at the top of its loop: every submit is in the batch
      histogram and in the ktime histogram, and all but the latest in the utime one. */
  ghost predicate Conserved(cells: seq<nat>, l: Layout, slot: nat) {
    && l.End(slot) <= |cells|
    && var submits := cells[slot];
       && Sum(cells, l.Batches(slot), l.Utimes(slot)) == submits
       && Sum(cells, l.Ktimes(slot), l.End(slot)) == submits
       && Sum(cells, l.Utimes(slot), l.Ktimes(slot)) == if submits == 0 then 0 else submits - 1
  }

  /** One cell incremented. */
  function Counted(cells: seq<nat>, i: nat): seq<nat>
    requires i < |cells|
  {
    cells[i := cells[i] + 1]
  }

  class Stats {
    const layout: Layout
    const nr: nat
    const cells: array<nat>

    /** As allocated and zeroed by `upcall_init`. */
    constructor (batch: nat, nr: nat)
      ensures fresh(cells) && layout == Layout(batch) && this.nr == nr
      ensures cells.Length == nr * layout.Stride() && forall i :: 0 <= i < cells.Length ==> cells[i] == 0
      ensures forall id :: 0 <= id < nr ==> Conserved(cells[..], layout, layout.Slot(id))
    {
      layout, this.nr := Layout(batch), nr;
      cells := new nat[nr * Layout(batch).Stride()](_ => 0);
      new;
      forall id | 0 <= id < nr ensures Conserved(cells[..], layout, layout.Slot(id)) {
        Echo.MulGap(id, nr, layout.Stride());
        ZeroConserved(cells[..], layout, layout.Slot(id));
      }
    }
  }

  lemma ZeroConserved(cells: seq<nat>, l: Layout, slot: nat)
    requires l.End(slot) <= |cells| && forall i :: slot <= i < l.End(slot) ==> cells[i] == 0
    ensures Conserved(cells, l, slot)
  {
    SumZero(cells, l.Batches(slot), l.Utimes(slot));
    SumZero(cells, l.Utimes(slot), l.Ktimes(slot));
    SumZero(cells, l.Ktimes(slot), l.End(slot));
  }

  /** A worker's loop: `procStart` is when its last submit returned, 0 before the first. */
  class Worker {
    const stats: Stats
    const slot: nat  // where my_batch_slot points
    var procStart: nat

    ghost predicate Valid()
      reads this, stats, stats.cells
    {
      && Conserved(stats.cells[..], stats.layout, slot)
      && (procStart == 0 <==> stats.cells[slot] == 0)
    }

    constructor (stats: Stats, id: nat)
      requires stats.layout.End(stats.layout.Slot(id)) <= stats.cells.Length
      requires forall i :: stats.layout.Slot(id) <= i < stats.layout.End(stats.layout.Slot(id)) ==> stats.cells[i] == 0
      ensures Valid() && this.stats == stats && slot == stats.layout.Slot(id)
    {
      this.stats, slot, procStart := stats, stats.layout.Slot(id), 0;
      new;
      ZeroConserved(stats.cells[..], stats.layout, slot);
    }

    /** Where a time is counted: floor(log2(d)), or the last bucket. */
    method TimeBucket(d: nat) returns (b: nat)
      ensures b == Clamp(Log2(d), TIME_BUCKETS)
    {
      b := Log2(d);
      if b >= TIME_BUCKETS {
        b := TIME_BUCKETS - 1;
      }
    }

    /** Before the submit, at time t0: the last batch took t0 - procStart to process. */
    method BeforeSubmit(t0: nat) returns (tb: nat)
      requires stats.layout.End(slot) <= stats.cells.Length && procStart <= t0
      modifies stats.cells
      ensures tb == Clamp(Log2(t0 - procStart), TIME_BUCKETS)
      ensures stats.cells[..] == Started(old(stats.cells[..]), stats.layout, slot, tb, procStart != 0)
    {
      tb := TimeBucket(t0 - procStart);
      if procStart != 0 {
        var at := stats.layout.Utimes(slot) + tb;
        stats.cells[at] := stats.cells[at] + 1;
      }
    }

    /** After the submit, at time t1: it took t1 - t0 and delivered `ret` events. */
    method AfterSubmit(t0: nat, t1: nat, ret: nat) returns (kb: nat, b: nat)
      requires stats.layout.End(slot) <= stats.cells.Length && t0 <= t1
      modifies this`procStart, stats.cells
      ensures kb == Clamp(Log2(t1 - t0), TIME_BUCKETS) && b == Clamp(ret, stats.layout.Hist())
      ensures b == if ret < stats.layout.batch then ret else stats.layout.batch
      ensures procStart == t1 && stats.cells[..] == Ended(old(stats.cells[..]), stats.layout, slot, kb, b)
    {
      var l, cells := stats.layout, stats.cells;
      kb := TimeBucket(t1 - t0);
      b := ret;
      var at := l.Ktimes(slot) + kb;
      cells[at] := cells[at] + 1;
      procStart := t1;
      if b >= l.Hist() {
        b := l.Hist() - 1;
      }
      cells[slot] := cells[slot] + 1;
      cells[l.Batches(slot) + b] := cells[l.Batches(slot) + b] + 1;
    }

    /** One iteration of the loop, as the histograms see it: the samples u, k and b go
        where `Started` and `Ended` say, and the counts stay conserved. */
    method Iteration(t0: nat, t1: nat, ret: nat) returns (u: nat, k: nat, b: nat)
      requires Valid() && procStart <= t0 <= t1 && t1 > 0
      modifies this`procStart, stats.cells
      ensures Valid() && procStart == t1
      ensures u == Clamp(Log2(t0 - old(procStart)), TIME_BUCKETS)
      ensures k == Clamp(Log2(t1 - t0), TIME_BUCKETS) && b == Clamp(ret, stats.layout.Hist())
      ensures stats.cells[..] == Iterated(old(stats.cells[..]), stats.layout, slot, u, k, b, old(procStart) != 0)
    {
      ghost var cells, again := stats.cells[..], procStart != 0;
      u := BeforeSubmit(t0);
      k, b := AfterSubmit(t0, t1, ret);
      IterationConserves(cells, stats.layout, slot, u, k, b, again);
    }
  }

  function Started(cells: seq<nat>, l: Layout, slot: nat, u: nat, again: bool): (r: seq<nat>)
    requires l.End(slot) <= |cells| && u < TIME_BUCKETS
    ensures |r| == |cells|
  {
    if again then Counted(cells, l.Utimes(slot) + u) else cells
  }

  function Ended(cells: seq<nat>, l: Layout, slot: nat, k: nat, b: nat): (r: seq<nat>)
    requires l.End(slot) <= |cells| && k < TIME_BUCKETS && b < l.Hist()
    ensures |r| == |cells|
  {
    Counted(Counted(Counted(cells, l.Ktimes(slot) + k), slot), l.Batches(slot) + b)
  }

  /** The cells after an iteration with the given samples. Only the worker's own slot is
      written. */
  function Iterated(cells: seq<nat>, l: Layout, slot: nat, u: nat, k: nat, b: nat, again: bool): (r: seq<nat>)
    requires l.End(slot) <= |cells| && u < TIME_BUCKETS && k < TIME_BUCKETS && b < l.Hist()
    ensures |r| == |cells| && forall i :: 0 <= i < |cells| && !(slot <= i < l.End(slot)) ==> r[i] == cells[i]
  {
    Ended(Started(cells, l, slot, u, again), l, slot, k, b)
  }

  lemma IterationConserves(cells: seq<nat>, l: Layout, slot: nat, u: nat, k: nat, b: nat, again: bool)
    requires Conserved(cells, l, slot) && u < TIME_BUCKETS && k < TIME_BUCKETS && b < l.Hist()
    requires again <==> cells[slot] > 0
    ensures var r := Iterated(cells, l, slot, u, k, b, again);
            Conserved(r, l, slot) && r[slot] == cells[slot] + 1
  {
    var c0 := if again then Counted(cells, l.Utimes(slot) + u) else cells;
    var c1 := Counted(c0, l.Ktimes(slot) + k);
    var c2 := Counted(c1, slot);
    OneMore(cells, l, slot, l.Utimes(slot) + u);
    OneMore(c0, l, slot, l.Ktimes(slot) + k);
    OneMore(c1, l, slot, slot);
    OneMore(c2, l, slot, l.Batches(slot) + b);
  }

  lemma OneMore(cells: seq<nat>, l: Layout, slot: nat, i: nat)
    requires l.End(slot) <= |cells| && slot <= i < l.End(slot)
    ensures var c := Counted(cells, i);
            && Sum(c, l.Batches(slot), l.Utimes(slot)) ==
               Sum(cells, l.Batches(slot), l.Utimes(slot)) + (if l.Batches(slot) <= i < l.Utimes(slot) then 1 else 0)
            && Sum(c, l.Utimes(slot), l.Ktimes(slot)) ==
               Sum(cells, l.Utimes(slot), l.Ktimes(slot)) + (if l.Utimes(slot) <= i < l.Ktimes(slot) then 1 else 0)
            && Sum(c, l.Ktimes(slot), l.End(slot)) ==
               Sum(cells, l.Ktimes(slot), l.End(slot)) + (if l.Ktimes(slot) <= i then 1 else 0)
  {
    SumAdd(cells, l.Batches(slot), l.Utimes(slot), i);
    SumAdd(cells, l.Utimes(slot), l.Ktimes(slot), i);
    SumAdd(cells, l.Ktimes(slot), l.End(slot), i);
  }

  /** Writes in one slot change nothing in another, so no sum there. */
  lemma OthersSame(before: seq<nat>, after: seq<nat>, l: Layout, i: nat, j: nat, nr: nat)
    requires i < nr && j < nr && i != j && |before| == |after| == nr * l.Stride()
    requires forall c :: 0 <= c < |before| && !(l.Slot(i) <= c < l.End(l.Slot(i))) ==> after[c] == before[c]
    ensures var slot := l.Slot(j);
            && l.End(slot) <= |before| && (forall c :: slot <= c < l.End(slot) ==> after[c] == before[c])
            && Sum(after, l.Batches(slot), l.Utimes(slot)) == Sum(before, l.Batches(slot), l.Utimes(slot))
            && Sum(after, l.Utimes(slot), l.Ktimes(slot)) == Sum(before, l.Utimes(slot), l.Ktimes(slot))
            && Sum(after, l.Ktimes(slot), l.End(slot)) == Sum(before, l.Ktimes(slot), l.End(slot))
  {
    SlotInside(l, j, nr);
    if i < j {
      SlotsApart(l, i, j, nr);
    } else {
      SlotsApart(l, j, i, nr);
    }
    var slot := l.Slot(j);
    SumSame(before, after, l.Batches(slot), l.Utimes(slot));
    SumSame(before, after, l.Utimes(slot), l.Ktimes(slot));
    SumSame(before, after, l.Ktimes(slot), l.End(slot));
  }

  lemma SlotInside(l: Layout, j: nat, nr: nat)
    requires j < nr
    ensures l.End(l.Slot(j)) <= nr * l.Stride()
  {
    Echo.MulGap(j, nr, l.Stride());
  }

  /** A worker's counts are not disturbed by writes outside its slot. */
  lemma OthersConserved(before: seq<nat>, after: seq<nat>, l: Layout, i: nat, j: nat, nr: nat)
    requires i < nr && j < nr && i != j && |before| == |after| == nr * l.Stride()
    requires forall c :: 0 <= c < |before| && !(l.Slot(i) <= c < l.End(l.Slot(i))) ==> after[c] == before[c]
    requires Conserved(before, l, l.Slot(j))
    ensures Conserved(after, l, l.Slot(j))
  {
    OthersSame(before, after, l, i, j, nr);
  }

  /** The two halves of an iteration of worker id: up to its submit, and from there on.
      While it is between them, others get on with theirs. */
  datatype Half = Before(id: nat, u: nat) | After(id: nat, k: nat, b: nat)

  /** How many of them worker id has been through. */
  function Begun(run: seq<Half>, id: nat): nat {
    if run == [] then 0
    else Begun(run[..|run| - 1], id) + if run[|run| - 1].Before? && run[|run| - 1].id == id then 1 else 0
  }

  function Submits(run: seq<Half>, id: nat): nat {
    if run == [] then 0
    else Submits(run[..|run| - 1], id) + if run[|run| - 1].After? && run[|run| - 1].id == id then 1 else 0
  }

  /** Each worker alternates between its halves, the first first. */
  predicate LegalNext(l: Layout, nr: nat, run: seq<Half>, h: Half) {
    && h.id < nr
    && match h
       case Before(id, u) => u < TIME_BUCKETS && Begun(run, id) == Submits(run, id)
       case After(id, k, b) => k < TIME_BUCKETS && b < l.Hist() && Begun(run, id) == Submits(run, id) + 1
  }

  predicate LegalRun(l: Layout, nr: nat, run: seq<Half>) {
    run == [] ||
    (LegalRun(l, nr, run[..|run| - 1]) && LegalNext(l, nr, run[..|run| - 1], run[|run| - 1]))
  }

  /** What a half does to the cells. */
  function DoHalf(cells: seq<nat>, l: Layout, h: Half, again: bool): (r: seq<nat>)
    requires l.End(l.Slot(h.id)) <= |cells|
    requires if h.Before? then h.u < TIME_BUCKETS else h.k < TIME_BUCKETS && h.b < l.Hist()
    ensures |r| == |cells|
    ensures forall c :: 0 <= c < |cells| && !(l.Slot(h.id) <= c < l.End(l.Slot(h.id))) ==> r[c] == cells[c]
  {
    match h
    case Before(id, u) => Started(cells, l, l.Slot(id), u, again)
    case After(id, k, b) => Ended(cells, l, l.Slot(id), k, b)
  }

  /** All workers' cells after a run from zero. */
  function Cells(l: Layout, nr: nat, run: seq<Half>): (r: seq<nat>)
    requires LegalRun(l, nr, run)
    ensures |r| == nr * l.Stride()
  {
    if run == [] then seq(nr * l.Stride(), _ => 0)
    else
      var run', h := run[..|run| - 1], run[|run| - 1];
      SlotInside(l, h.id, nr);
      DoHalf(Cells(l, nr, run'), l, h, Submits(run', h.id) > 0)
  }

  /** Worker id's counts: every submit is in the histograms of batches and of ktimes; all
      iterations begun but the first are in that of utimes. */
  ghost predicate SumsOk(cells: seq<nat>, l: Layout, id: nat, begun: nat, submits: nat) {
    var slot := l.Slot(id);
    && l.End(slot) <= |cells| && cells[slot] == submits
    && Sum(cells, l.Batches(slot), l.Utimes(slot)) == submits
    && Sum(cells, l.Ktimes(slot), l.End(slot)) == submits
    && Sum(cells, l.Utimes(slot), l.Ktimes(slot)) == if begun == 0 then 0 else begun - 1
  }

  lemma BeforeSums(cells: seq<nat>, l: Layout, id: nat, u: nat, submits: nat)
    requires SumsOk(cells, l, id, submits, submits) && u < TIME_BUCKETS
    ensures SumsOk(Started(cells, l, l.Slot(id), u, submits > 0), l, id, submits + 1, submits)
  {
    OneMore(cells, l, l.Slot(id), l.Utimes(l.Slot(id)) + u);
  }

  lemma AfterSums(cells: seq<nat>, l: Layout, id: nat, k: nat, b: nat, begun: nat, submits: nat)
    requires SumsOk(cells, l, id, begun, submits) && k < TIME_BUCKETS && b < l.Hist()
    ensures SumsOk(Ended(cells, l, l.Slot(id), k, b), l, id, begun, submits + 1)
  {
    var slot := l.Slot(id);
    var c1 := Counted(cells, l.Ktimes(slot) + k);
    var c2 := Counted(c1, slot);
    OneMore(cells, l, slot, l.Ktimes(slot) + k);
    OneMore(c1, l, slot, slot);
    OneMore(c2, l, slot, l.Batches(slot) + b);
  }

  lemma {:induction false} RunSums(l: Layout, nr: nat, run: seq<Half>, id: nat)
    requires LegalRun(l, nr, run) && id < nr
    ensures SumsOk(Cells(l, nr, run), l, id, Begun(run, id), Submits(run, id))
  {
    SlotInside(l, id, nr);
    if run == [] {
      var slot := l.Slot(id);
      SumZero(Cells(l, nr, run), l.Batches(slot), l.Utimes(slot));
      SumZero(Cells(l, nr, run), l.Utimes(slot), l.Ktimes(slot));
      SumZero(Cells(l, nr, run), l.Ktimes(slot), l.End(slot));
    } else {
      var run', h := run[..|run| - 1], run[|run| - 1];
      RunSums(l, nr, run', id);
      if h.id == id {
        match h
        case Before(_, u) => BeforeSums(Cells(l, nr, run'), l, id, u, Submits(run', id));
        case After(_, k, b) => AfterSums(Cells(l, nr, run'), l, id, k, b, Begun(run', id), Submits(run', id));
      } else {
        OthersSame(Cells(l, nr, run'), Cells(l, nr, run), l, h.id, id, nr);
      }
    }
  }

  /** How many halves counted into a bucket of worker id: submits by the size of what they
      delivered and by their time, and waits before a submit by theirs, except the first. */
  function InBatch(run: seq<Half>, id: nat, b: nat): nat {
    if run == [] then 0
    else
      var h := run[|run| - 1];
      InBatch(run[..|run| - 1], id, b) + if h.After? && h.id == id && h.b == b then 1 else 0
  }

  function InKtime(run: seq<Half>, id: nat, k: nat): nat {
    if run == [] then 0
    else
      var h := run[|run| - 1];
      InKtime(run[..|run| - 1], id, k) + if h.After? && h.id == id && h.k == k then 1 else 0
  }

  function InUtime(run: seq<Half>, id: nat, u: nat): nat {
    if run == [] then 0
    else
      var run', h := run[..|run| - 1], run[|run| - 1];
      InUtime(run', id, u) + if h.Before? && h.id == id && h.u == u && Submits(run', id) > 0 then 1 else 0
  }

  ghost predicate BucketsOk(cells: seq<nat>, l: Layout, id: nat, run: seq<Half>, x: nat) {
    var slot := l.Slot(id);
    && l.End(slot) <= |cells|
    && (x < l.Hist() ==> cells[l.Batches(slot) + x] == InBatch(run, id, x))
    && (x < TIME_BUCKETS ==> cells[l.Ktimes(slot) + x] == InKtime(run, id, x))
    && (x < TIME_BUCKETS ==> cells[l.Utimes(slot) + x] == InUtime(run, id, x))
  }

  lemma BeforeBuckets(cells: seq<nat>, l: Layout, run: seq<Half>, id: nat, u: nat, x: nat)
    requires BucketsOk(cells, l, id, run, x) && u < TIME_BUCKETS
    ensures BucketsOk(Started(cells, l, l.Slot(id), u, Submits(run, id) > 0), l, id, run + [Before(id, u)], x)
  {
    assert (run + [Before(id, u)])[..|run|] == run;
  }

  lemma AfterBuckets(cells: seq<nat>, l: Layout, run: seq<Half>, id: nat, k: nat, b: nat, x: nat)
    requires BucketsOk(cells, l, id, run, x) && k < TIME_BUCKETS && b < l.Hist()
    ensures BucketsOk(Ended(cells, l, l.Slot(id), k, b), l, id, run + [After(id, k, b)], x)
  {
    var slot, hist := l.Slot(id), l.Hist();
    assert (run + [After(id, k, b)])[..|run|] == run;
    assert l.Batches(slot) == slot + 1 && l.Utimes(slot) == slot + 1 + hist
           && l.Ktimes(slot) == slot + 1 + hist + TIME_BUCKETS;
  }

  lemma {:induction false} RunBuckets(l: Layout, nr: nat, run: seq<Half>, id: nat, x: nat)
    requires LegalRun(l, nr, run) && id < nr
    ensures BucketsOk(Cells(l, nr, run), l, id, run, x)
  {
    SlotInside(l, id, nr);
    if run != [] {
      var run', h := run[..|run| - 1], run[|run| - 1];
      RunBuckets(l, nr, run', id, x);
      if h.id == id {
        assert run == run' + [h];
        match h
        case Before(_, u) => BeforeBuckets(Cells(l, nr, run'), l, run', id, u, x);
        case After(_, k, b) => AfterBuckets(Cells(l, nr, run'), l, run', id, k, b, x);
      } else {
        OthersSame(Cells(l, nr, run'), Cells(l, nr, run), l, h.id, id, nr);
      }
    }
  }

  /** Over any run of any workers on one array that starts at zero: the slot of each counts
      its submits, and each bucket exactly its samples; and while it is not in a submit its
      counts are conserved. */
  lemma RunConserved(l: Layout, nr: nat, run: seq<Half>, id: nat, x: nat)
    requires LegalRun(l, nr, run) && id < nr
    ensures BucketsOk(Cells(l, nr, run), l, id, run, x)
    ensures Cells(l, nr, run)[l.Slot(id)] == Submits(run, id)
    ensures Begun(run, id) == Submits(run, id) ==> Conserved(Cells(l, nr, run), l, l.Slot(id))
  {
    RunBuckets(l, nr, run, id, x);
    RunSums(l, nr, run, id);
  }
}
