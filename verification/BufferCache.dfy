/**
 The per-thread buffer caches of event-tester/tcp_echo.c: an intrusive free list, linked
 through the entries it holds, and all threads' caches together. A buffer taken from one
 thread's cache may be given back to another's.
 */
module BufferCache {
  import opened Echo

  /** A buffer behind its list header. */
  class Entry {
    var next: Entry?
    var buffer: seq<byte>

    constructor (size: nat)
      ensures next == null && buffer == Zeroes(size)
    {
      next, buffer := null, Zeroes(size);
    }
  }

  class Cache {
    const entrySize: nat
    var head: Entry?
    var tail: Entry?
    ghost var free: seq<Entry>  // first to be handed out again at the front

    /** head, next, next, ... is exactly the queue, without repetition, and ends at tail. */
    ghost predicate Valid()
      reads this, free
    {
      && (forall i, j :: 0 <= i < j < |free| ==> free[i] != free[j])
      && (forall i, j :: 0 <= i < |free| && j == i + 1 < |free| ==> free[i].next == free[j])
      && (free != [] ==> free[|free| - 1].next == null)
      && head == (if free == [] then null else free[0])
      && tail == (if free == [] then null else free[|free| - 1])
    }

    /** Writing to other caches and their entries does no harm. */
    twostate lemma StillValid()
      requires old(Valid()) && unchanged(this) && forall e <- old(free) :: e.next == old(e.next)
      ensures Valid()
    {
    }

    ghost function Head(): set<object>
      reads this
    {
      if head == null then {} else {head}
    }

    ghost function Tail(): set<object>
      reads this
    {
      if tail == null then {} else {tail}
    }

    /** `init_cache`. */
    constructor (entrySize: nat, initCount: nat)
      ensures Valid() && fresh(free) && |free| == initCount && this.entrySize == entrySize
    {
      this.entrySize := entrySize;
      head, tail, free := null, null, [];
      new;
      for i := 0 to initCount
        invariant Valid() && fresh(free) && |free| == i
      {
        var entry := new Entry(entrySize);
        CacheFree(entry);
      }
    }

    /** Take the oldest free entry, or a new one; either way it is unlinked and zeroed. */
    method CacheAlloc() returns (entry: Entry)
      requires Valid()
      modifies this, Head()
      ensures Valid() && entry.next == null && entry.buffer == Zeroes(entrySize)
      ensures if old(free) == [] then fresh(entry) && free == []
              else [entry] + free == old(free)
    {
      if head != null {
        entry := head;
        head := entry.next;
        if head == null {
          tail := null;
        }
        entry.next := null;
        free := free[1..];
      } else {
        entry := new Entry(entrySize);
      }
      entry.buffer := Zeroes(entrySize);
    }

    /** Put an entry at the end. Its own link is not written: that it ends the list is
        owed to every entry in use being unlinked. */
    method CacheFree(entry: Entry)
      requires Valid() && entry !in free && entry.next == null
      modifies this, Tail()
      ensures Valid() && free == old(free) + [entry]
      ensures entry.next == null && forall e <- old(free) :: e.buffer == old(e.buffer)
    {
      if tail != null {
        tail.next := entry;
      } else {
        head := entry;
      }
      tail := entry;
      free := free + [entry];
    }
  }

  /** Entries on the first n queues. */
  function Held(queues: seq<seq<Entry>>, n: nat): nat
    requires n <= |queues|
  {
    if n == 0 then 0 else Held(queues, n - 1) + |queues[n - 1]|
  }

  lemma {:induction false} HeldUpdate(queues: seq<seq<Entry>>, c: nat, q: seq<Entry>, n: nat)
    requires c < |queues| && n <= |queues|
    ensures Held(queues[c := q], n) == Held(queues, n) + if c < n then |q| - |queues[c]| else 0
  {
    if n > 0 {
      HeldUpdate(queues, c, q, n - 1);
    }
  }

  /** Who holds the entries: the queue of each thread, and `live`, those handed out and
      not yet given back; `repr` is every entry ever allocated. */
  datatype Owners = Owners(queues: seq<seq<Entry>>, live: set<Entry>, repr: set<Entry>)

  /** No entry is on two queues, none on a queue is in use, and the known entries are
      exactly as many as those on queues and in use. */
  ghost predicate Apart(o: Owners) {
    && (forall c, d, e :: 0 <= c < d < |o.queues| && e in o.queues[c] ==> e !in o.queues[d])
    && (forall c, e :: 0 <= c < |o.queues| && e in o.queues[c] ==> e !in o.live && e in o.repr)
    && o.live <= o.repr && Held(o.queues, |o.queues|) + |o.live| == |o.repr|
  }

  /** Thread c takes an entry: the first of its queue, or a new one if that is empty. */
  ghost function Taken(o: Owners, c: nat, e: Entry): Owners
    requires c < |o.queues|
  {
    if o.queues[c] == [] then Owners(o.queues, o.live + {e}, o.repr + {e})
    else Owners(o.queues[c := o.queues[c][1..]], o.live + {e}, o.repr)
  }

  ghost function Given(o: Owners, c: nat, e: Entry): Owners
    requires c < |o.queues|
  {
    Owners(o.queues[c := o.queues[c] + [e]], o.live - {e}, o.repr)
  }

  ghost function Added(o: Owners, q: seq<Entry>): Owners {
    Owners(o.queues + [q], o.live, o.repr + set e | e in q)
  }

  lemma {:induction false} HeldPrefix(queues: seq<seq<Entry>>, q: seq<Entry>, n: nat)
    requires n <= |queues|
    ensures Held(queues + [q], n) == Held(queues, n)
  {
    if n > 0 {
      HeldPrefix(queues, q, n - 1);
    }
  }

  lemma {:induction false} Distinct(q: seq<Entry>)
    requires forall i, j :: 0 <= i < j < |q| ==> q[i] != q[j]
    ensures |set e | e in q| == |q|
  {
    if q != [] {
      var q', e := q[..|q| - 1], q[|q| - 1];
      Distinct(q');
      assert (set x | x in q) == (set x | x in q') + {e};
    }
  }

  lemma ApartAdded(o: Owners, q: seq<Entry>)
    requires Apart(o) && forall e <- q :: e !in o.repr
    requires forall i, j :: 0 <= i < j < |q| ==> q[i] != q[j]
    ensures Apart(Added(o, q))
  {
    AddedCount(o, q);
    var t := Added(o, q);
    assert forall c :: 0 <= c < |o.queues| ==> t.queues[c] == o.queues[c];
  }

  lemma AddedCount(o: Owners, q: seq<Entry>)
    requires Held(o.queues, |o.queues|) + |o.live| == |o.repr| && forall e <- q :: e !in o.repr
    requires forall i, j :: 0 <= i < j < |q| ==> q[i] != q[j]
    ensures var t := Added(o, q); Held(t.queues, |t.queues|) + |t.live| == |t.repr|
  {
    HeldPrefix(o.queues, q, |o.queues|);
    Distinct(q);
    assert o.repr !! set e | e in q;
  }

  lemma ApartTaken(o: Owners, c: nat, e: Entry)
    requires Apart(o) && c < |o.queues|
    requires if o.queues[c] == [] then e !in o.repr else e == o.queues[c][0] && e !in o.queues[c][1..]
    ensures Apart(Taken(o, c, e)) && e !in o.live
  {
    if o.queues[c] != [] {
      var q := o.queues[c][1..];
      assert forall x :: x in q ==> x in o.queues[c];
      assert e in o.queues[c];
      HeldUpdate(o.queues, c, q, |o.queues|);
    }
  }

  lemma ApartGiven(o: Owners, c: nat, e: Entry)
    requires Apart(o) && c < |o.queues| && e in o.live
    ensures Apart(Given(o, c, e)) && e !in o.queues[c]
  {
    assert forall x :: x in o.queues[c] + [e] <==> x in o.queues[c] || x == e;
    HeldUpdate(o.queues, c, o.queues[c] + [e], |o.queues|);
  }

  /** Each cache holds its queue, and entries in use are unlinked. */
  ghost predicate Linked(caches: seq<Cache>, o: Owners)
    reads caches, o.repr
  {
    && |o.queues| == |caches|
    && (forall c :: 0 <= c < |caches| ==>
          caches[c].free == o.queues[c] && (forall e <- o.queues[c] :: e in o.repr) && caches[c].Valid())
    && o.live <= o.repr && (forall e <- o.live :: e.next == null)
  }

  lemma LinkedAdded(caches: seq<Cache>, o: Owners, cache: Cache)
    requires Linked(caches, o) && cache.Valid()
    ensures Linked(caches + [cache], Added(o, cache.free))
  {
  }

  /** All threads' caches together. */
  class Caches {
    var caches: seq<Cache>
    ghost var owners: Owners

    ghost predicate Valid()
      reads this, caches, owners.repr
    {
      && (forall c, d :: 0 <= c < d < |caches| ==> caches[c] != caches[d])
      && Apart(owners) && Linked(caches, owners)
    }

    constructor ()
      ensures Valid() && caches == [] && owners.live == {}
    {
      caches, owners := [], Owners([], {}, {});
    }

    /** A new thread brings the cache it has made, of entries nobody else knows. */
    method AddThread(cache: Cache)
      requires Valid() && cache.Valid() && cache !in caches && forall e <- cache.free :: e !in owners.repr
      modifies this
      ensures Valid() && caches == old(caches) + [cache] && owners == Added(old(owners), cache.free)
    {
      ApartAdded(owners, cache.free);
      LinkedAdded(caches, owners, cache);
      owners, caches := Added(owners, cache.free), caches + [cache];
    }

    /** Take a buffer for thread c: the oldest in its cache, or a new one; it is zeroed,
        and nobody was using it. */
    method Take(c: nat) returns (entry: Entry)
      requires Valid() && c < |caches|
      modifies this`owners, caches[c], caches[c].Head()
      ensures Valid() && owners == Taken(old(owners), c, entry) && entry !in old(owners.live)
      ensures old(owners.queues[c]) == [] ==> fresh(entry)
      ensures old(owners.queues[c]) != [] ==> entry == old(owners.queues[c][0])
      ensures entry.buffer == Zeroes(caches[c].entrySize)
    {
      entry := Pop(c);
      ApartTaken(owners, c, entry);
      owners := Taken(owners, c, entry);
    }

    method Pop(c: nat) returns (entry: Entry)
      requires Valid() && c < |caches|
      modifies caches[c], caches[c].Head()
      ensures entry.buffer == Zeroes(caches[c].entrySize)
      ensures owners.queues[c] == [] ==> fresh(entry) && entry !in owners.repr
      ensures owners.queues[c] != [] ==> entry == owners.queues[c][0] && entry !in owners.queues[c][1..]
      ensures Linked(caches, Taken(owners, c, entry))
    {
      ghost var q := owners.queues[c];
      assert q != [] ==> q[0] in q;
      entry := caches[c].CacheAlloc();
      ghost var t := Taken(owners, c, entry);
      assert t.queues[c] == caches[c].free && |t.queues| == |caches|;
      assert forall e <- t.queues[c] :: e in q;
      forall d | 0 <= d < |caches| && d != c
        ensures caches[d].Valid() && caches[d].free == owners.queues[d] == t.queues[d]
      {
        assert forall e <- owners.queues[d] :: e != entry;
        caches[d].StillValid();
      }
    }

    /** Give a buffer in use to thread c's cache, whichever cache it came from. */
    method Give(c: nat, entry: Entry)
      requires Valid() && c < |caches| && entry in owners.live
      modifies this`owners, caches[c], caches[c].Tail()
      ensures Valid() && owners == Given(old(owners), c, entry)
    {
      Push(c, entry);
      ApartGiven(owners, c, entry);
      owners := Given(owners, c, entry);
    }

    method Push(c: nat, entry: Entry)
      requires Valid() && c < |caches| && entry in owners.live
      modifies caches[c], caches[c].Tail()
      ensures Linked(caches, Given(owners, c, entry))
    {
      ghost var q, last := owners.queues[c], caches[c].tail;
      assert last != null ==> last in q;
      assert forall e <- owners.live :: e != last;
      caches[c].CacheFree(entry);
      forall d | 0 <= d < |caches| && d != c ensures caches[d].Valid() && caches[d].free == owners.queues[d] {
        assert forall e <- owners.queues[d] :: e != last;
        caches[d].StillValid();
      }
    }
  }
}
