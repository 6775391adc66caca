/** Allocator-mediated raw-memory algorithms (`ft::destroy_at`, `ft::destroy`,
    `ft::destroy_n`, `ft::uninitialized_copy`, `ft::uninitialized_copy_n`,
    `ft::uninitialized_fill`, `ft::uninitialized_fill_n`).

    Storage is an array of slots, each raw or holding a live object; a slot
    index plays the role of an address.  The allocator constructs and destroys
    into that storage and keeps a ghost log of what it did, so that the order
    of operations and "exactly once" can be stated.  A throwing copy
    constructor is modelled by the allocator's budget: the number of
    constructions that still succeed before one throws. */
module Memory {
  import opened Wrappers

  datatype Slot<T> = Raw | Live(value: T)

  /** The value a failing construction raises; the algorithms rethrow it unchanged. */
  datatype Exception = Exception(code: int)

  /** One call the allocator served, as recorded in its ghost log. */
  datatype Event<T> = Constructed(slot: nat, value: T) | Destroyed(slot: nat)

  // ---------------------------------------------------------------------------
  // Budgets: when a construction throws

  /** A batch of `n` constructions, started with budget `b`, throws at index `b.value`. */
  predicate Throws(b: Option<nat>, n: nat) {
    b.Some? && b.value < n
  }

  /** The budget left after `n` constructions that all succeeded. */
  function Spend(b: Option<nat>, n: nat): Option<nat>
    requires !Throws(b, n)
  {
    if b.None? then None else Some(b.value - n)
  }

  // ---------------------------------------------------------------------------
  // Storage states and logs that the algorithms produce

  /** `s` after `vals` were constructed into the slots from `d` on. */
  function Filled<T>(s: seq<Slot<T>>, d: nat, vals: seq<T>): seq<Slot<T>>
    requires d + |vals| <= |s|
  {
    seq(|s|, i requires 0 <= i < |s| => if d <= i < d + |vals| then Live(vals[i - d]) else s[i])
  }

  /** `s` after the `n` slots from `d` on were destroyed. */
  function Cleared<T>(s: seq<Slot<T>>, d: nat, n: nat): seq<Slot<T>>
    requires d + n <= |s|
  {
    seq(|s|, i requires 0 <= i < |s| => if d <= i < d + n then Raw else s[i])
  }

  /** The log of constructing `vals` front to back into the slots from `d` on. */
  function Builds<T>(d: nat, vals: seq<T>): seq<Event<T>> {
    seq(|vals|, k requires 0 <= k < |vals| => Constructed(d + k, vals[k]))
  }

  /** The log of destroying the `n` slots from `d` on, front to back. */
  function Destroys<T>(d: nat, n: nat): seq<Event<T>> {
    seq(n, k requires 0 <= k < n => Destroyed(d + k))
  }

  /** `val` repeated `n` times: what the fill algorithms construct. */
  function Copies<T>(val: T, n: nat): seq<T> {
    seq(n, _ => val)
  }

  /** max(count, 0): how many steps a loop `for (; count > 0; --count)` takes. */
  function Steps(count: int): nat {
    if count > 0 then count else 0
  }

  // ---------------------------------------------------------------------------
  // Counting what a log did to one slot

  /** How many times slot `p` was constructed in `log`. */
  function Constructions<T>(log: seq<Event<T>>, p: nat): nat {
    if log == [] then 0
    else (if log[0].Constructed? && log[0].slot == p then 1 else 0) + Constructions(log[1..], p)
  }

  /** How many times slot `p` was destroyed in `log`. */
  function Destructions<T>(log: seq<Event<T>>, p: nat): nat {
    if log == [] then 0
    else (if log[0].Destroyed? && log[0].slot == p then 1 else 0) + Destructions(log[1..], p)
  }

  lemma {:induction false} CountsAppend<T>(a: seq<Event<T>>, b: seq<Event<T>>, p: nat)
    ensures Constructions(a + b, p) == Constructions(a, p) + Constructions(b, p)
    ensures Destructions(a + b, p) == Destructions(a, p) + Destructions(b, p)
  {
    if a != [] {
      assert (a + b)[1..] == a[1..] + b;
      CountsAppend(a[1..], b, p);
    } else {
      assert a + b == b;
    }
  }

  /** Constructing a run front to back builds each slot of the run once and nothing else. */
  lemma {:induction false} CountsOfBuilds<T>(d: nat, vals: seq<T>, p: nat)
    ensures Constructions(Builds(d, vals), p) == if d <= p < d + |vals| then 1 else 0
    ensures Destructions(Builds(d, vals), p) == 0
    decreases |vals|
  {
    if vals != [] {
      assert Builds(d, vals)[1..] == Builds(d + 1, vals[1..]);
      CountsOfBuilds(d + 1, vals[1..], p);
    }
  }

  /** Destroying a run front to back destroys each slot of the run once and nothing else. */
  lemma {:induction false} CountsOfDestroys<T>(d: nat, n: nat, p: nat)
    ensures Destructions(Destroys<T>(d, n), p) == if d <= p < d + n then 1 else 0
    ensures Constructions(Destroys<T>(d, n), p) == 0
    decreases n
  {
    if n > 0 {
      assert Destroys<T>(d, n)[1..] == Destroys<T>(d + 1, n - 1);
      CountsOfDestroys<T>(d + 1, n - 1, p);
    }
  }

  /** Rollback after a failure at index `k`: every slot of the built prefix was
      constructed exactly once and destroyed exactly once, and no other slot was
      constructed or destroyed. */
  lemma RollbackExactlyOnce<T>(d: nat, vals: seq<T>, k: nat, p: nat)
    requires k <= |vals|
    ensures Constructions(Builds(d, vals[..k]) + Destroys<T>(d, k), p) == if d <= p < d + k then 1 else 0
    ensures Destructions(Builds(d, vals[..k]) + Destroys<T>(d, k), p) == if d <= p < d + k then 1 else 0
  {
    CountsAppend(Builds(d, vals[..k]), Destroys<T>(d, k), p);
    CountsOfBuilds(d, vals[..k], p);
    CountsOfDestroys<T>(d, k, p);
  }

  /** After a rollback the storage is what destroying the prefix alone leaves:
      what was built there is gone and the slots past the failure are untouched. */
  lemma RollbackStorage<T>(s: seq<Slot<T>>, d: nat, vals: seq<T>, k: nat)
    requires k <= |vals| && d + |vals| <= |s|
    ensures Cleared(Filled(s, d, vals[..k]), d, k) == Cleared(s, d, k)
    ensures forall i :: 0 <= i < |s| && !(d <= i < d + k) ==> Cleared(s, d, k)[i] == s[i]
  {
  }

  // ---------------------------------------------------------------------------
  // The allocator

  class Allocator<T> {
    /** The raw storage the caller owns. */
    const mem: array<Slot<T>>
    /** Constructions that still succeed before one throws; `None` never throws. */
    var budget: Option<nat>
    /** What a failing construction throws. */
    const thrown: Exception
    /** Every construct and destroy served so far, in order. */
    ghost var log: seq<Event<T>>

    constructor (mem: array<Slot<T>>, budget: Option<nat>, thrown: Exception)
      ensures this.mem == mem && this.budget == budget && this.thrown == thrown && log == []
    {
      this.mem := mem;
      this.budget := budget;
      this.thrown := thrown;
      log := [];
    }

    /** `alloc.construct(p, v)`: either builds `v` at `p`, or throws without touching `p`. */
    method Construct(p: nat, v: T) returns (r: Outcome<Exception>)
      requires p < mem.Length
      modifies this, mem
      ensures Throws(old(budget), 1) ==>
        r == Fail(thrown) && mem[..] == old(mem[..]) && log == old(log) && budget == old(budget)
      ensures !Throws(old(budget), 1) ==>
        r == Pass && mem[..] == old(mem[..])[p := Live(v)] && log == old(log) + [Constructed(p, v)]
        && budget == Spend(old(budget), 1)
    {
      if budget == Some(0) {
        return Fail(thrown);
      }
      mem[p] := Live(v);
      if budget.Some? {
        budget := Some(budget.value - 1);
      }
      log := log + [Constructed(p, v)];
      return Pass;
    }

    /** `alloc.destroy(p)`: ends the life of the object at `p`; never throws. */
    method Destroy(p: nat)
      requires p < mem.Length && mem[p].Live?
      modifies this, mem
      ensures mem[..] == old(mem[..])[p := Raw]
      ensures log == old(log) + [Destroyed(p)] && budget == old(budget)
    {
      mem[p] := Raw;
      log := log + [Destroyed(p)];
    }
  }

  // ---------------------------------------------------------------------------
  // The algorithms

  /** `destroy_at(p, alloc)`: destroys the one object at `p`. */
  method DestroyAt<T>(p: nat, alloc: Allocator<T>)
    requires p < alloc.mem.Length && alloc.mem[p].Live?
    modifies alloc, alloc.mem
    ensures alloc.mem[..] == Cleared(old(alloc.mem[..]), p, 1)
    ensures alloc.log == old(alloc.log) + Destroys(p, 1) && alloc.budget == old(alloc.budget)
  {
    alloc.Destroy(p);
  }

  /** `destroy(first, last, alloc)`: destroys every object in `[first, last)`, front to back. */
  method Destroy<T>(first: nat, last: nat, alloc: Allocator<T>)
    requires first <= last <= alloc.mem.Length
    requires forall i :: first <= i < last ==> alloc.mem[i].Live?
    modifies alloc, alloc.mem
    ensures alloc.mem[..] == Cleared(old(alloc.mem[..]), first, last - first)
    ensures alloc.log == old(alloc.log) + Destroys(first, last - first)
    ensures alloc.budget == old(alloc.budget)
  {
    var it := first;
    while it != last
      invariant first <= it <= last
      invariant alloc.mem[..] == Cleared(old(alloc.mem[..]), first, it - first)
      invariant alloc.log == old(alloc.log) + Destroys(first, it - first)
      invariant alloc.budget == old(alloc.budget)
    {
      alloc.Destroy(it);
      assert Destroys<T>(first, it - first) + [Destroyed(it)] == Destroys(first, it + 1 - first);
      it := it + 1;
    }
  }

  /** `destroy_n(first, count, alloc)`: destroys `count` objects from `first` on;
      nothing when `count <= 0`. */
  method DestroyN<T>(first: nat, count: int, alloc: Allocator<T>)
    requires first + Steps(count) <= alloc.mem.Length
    requires forall i :: first <= i < first + Steps(count) ==> alloc.mem[i].Live?
    modifies alloc, alloc.mem
    ensures alloc.mem[..] == Cleared(old(alloc.mem[..]), first, Steps(count))
    ensures alloc.log == old(alloc.log) + Destroys(first, Steps(count))
    ensures alloc.budget == old(alloc.budget)
  {
    var it, c := first, count;
    while c > 0
      invariant first <= it && it - first + Steps(c) == Steps(count)
      invariant alloc.mem[..] == Cleared(old(alloc.mem[..]), first, it - first)
      invariant alloc.log == old(alloc.log) + Destroys(first, it - first)
      invariant alloc.budget == old(alloc.budget)
    {
      alloc.Destroy(it);
      assert Destroys<T>(first, it - first) + [Destroyed(it)] == Destroys(first, it + 1 - first);
      c, it := c - 1, it + 1;
    }
  }

  /** Constructs `vals` into the slots from `dFirst` on, front to back; on a
      failure destroys the prefix already built and returns the failure.  This
      is the loop and the `catch` block that the four `uninitialized_*`
      algorithms share, each feeding it its own values. */
  method ConstructAll<T>(vals: seq<T>, dFirst: nat, alloc: Allocator<T>) returns (r: Result<nat, Exception>)
    requires dFirst + |vals| <= alloc.mem.Length
    modifies alloc, alloc.mem
    ensures !Throws(old(alloc.budget), |vals|) ==>
      r == Success(dFirst + |vals|)
      && alloc.mem[..] == Filled(old(alloc.mem[..]), dFirst, vals)
      && alloc.log == old(alloc.log) + Builds(dFirst, vals)
      && alloc.budget == Spend(old(alloc.budget), |vals|)
    ensures Throws(old(alloc.budget), |vals|) ==>
      var k := old(alloc.budget).value;
      r == Failure(alloc.thrown)
      && alloc.mem[..] == Cleared(old(alloc.mem[..]), dFirst, k)
      && alloc.log == old(alloc.log) + Builds(dFirst, vals[..k]) + Destroys(dFirst, k)
      && alloc.budget == Some(0)
  {
    var it := dFirst;
    while it != dFirst + |vals|
      invariant dFirst <= it <= dFirst + |vals|
      invariant !Throws(old(alloc.budget), it - dFirst)
      invariant alloc.budget == Spend(old(alloc.budget), it - dFirst)
      invariant alloc.mem[..] == Filled(old(alloc.mem[..]), dFirst, vals[..it - dFirst])
      invariant alloc.log == old(alloc.log) + Builds(dFirst, vals[..it - dFirst])
    {
      ghost var built := vals[..it - dFirst];
      var o := alloc.Construct(it, vals[it - dFirst]);
      if o.Fail? {
        Destroy(dFirst, it, alloc);
        RollbackStorage(old(alloc.mem[..]), dFirst, vals, it - dFirst);
        return Failure(o.error);
      }
      assert vals[..it + 1 - dFirst] == built + [vals[it - dFirst]];
      assert Builds(dFirst, built) + [Constructed(it, vals[it - dFirst])] == Builds(dFirst, vals[..it + 1 - dFirst]);
      it := it + 1;
    }
    assert vals[..it - dFirst] == vals;
    return Success(it);
  }

  /** `uninitialized_copy(first, last, dFirst, alloc)`: copy-constructs
      `src[first..last]` into the slots from `dFirst` on and returns
      `dFirst + (last - first)`; on a failure the built prefix is destroyed and
      the failure propagates. */
  method UninitializedCopy<T>(src: seq<T>, first: nat, last: nat, dFirst: nat, alloc: Allocator<T>)
    returns (r: Result<nat, Exception>)
    requires first <= last <= |src|
    requires dFirst + (last - first) <= alloc.mem.Length
    modifies alloc, alloc.mem
    ensures !Throws(old(alloc.budget), last - first) ==>
      r == Success(dFirst + (last - first))
      && alloc.mem[..] == Filled(old(alloc.mem[..]), dFirst, src[first..last])
      && alloc.log == old(alloc.log) + Builds(dFirst, src[first..last])
      && alloc.budget == Spend(old(alloc.budget), last - first)
    ensures Throws(old(alloc.budget), last - first) ==>
      var k := old(alloc.budget).value;
      r == Failure(alloc.thrown)
      && alloc.mem[..] == Cleared(old(alloc.mem[..]), dFirst, k)
      && alloc.log == old(alloc.log) + Builds(dFirst, src[first..first + k]) + Destroys(dFirst, k)
      && alloc.budget == Some(0)
  {
    r := ConstructAll(src[first..last], dFirst, alloc);
    if Throws(old(alloc.budget), last - first) {
      assert src[first..last][..old(alloc.budget).value] == src[first..first + old(alloc.budget).value];
    }
  }

  /** `uninitialized_copy_n(first, count, dFirst, alloc)`: copy-constructs the
      `max(count, 0)` source elements from `first` on; same rollback. */
  method UninitializedCopyN<T>(src: seq<T>, first: nat, count: int, dFirst: nat, alloc: Allocator<T>)
    returns (r: Result<nat, Exception>)
    requires first + Steps(count) <= |src|
    requires dFirst + Steps(count) <= alloc.mem.Length
    modifies alloc, alloc.mem
    ensures !Throws(old(alloc.budget), Steps(count)) ==>
      r == Success(dFirst + Steps(count))
      && alloc.mem[..] == Filled(old(alloc.mem[..]), dFirst, src[first..first + Steps(count)])
      && alloc.log == old(alloc.log) + Builds(dFirst, src[first..first + Steps(count)])
      && alloc.budget == Spend(old(alloc.budget), Steps(count))
    ensures Throws(old(alloc.budget), Steps(count)) ==>
      var k := old(alloc.budget).value;
      r == Failure(alloc.thrown)
      && alloc.mem[..] == Cleared(old(alloc.mem[..]), dFirst, k)
      && alloc.log == old(alloc.log) + Builds(dFirst, src[first..first + k]) + Destroys(dFirst, k)
      && alloc.budget == Some(0)
  {
    r := ConstructAll(src[first..first + Steps(count)], dFirst, alloc);
    if Throws(old(alloc.budget), Steps(count)) {
      assert src[first..first + Steps(count)][..old(alloc.budget).value] == src[first..first + old(alloc.budget).value];
    }
  }

  /** `uninitialized_fill(first, last, val, alloc)`: copy-constructs `val` into
      every slot of `[first, last)`; same rollback. */
  method UninitializedFill<T>(first: nat, last: nat, val: T, alloc: Allocator<T>) returns (r: Outcome<Exception>)
    requires first <= last <= alloc.mem.Length
    modifies alloc, alloc.mem
    ensures !Throws(old(alloc.budget), last - first) ==>
      r == Pass
      && alloc.mem[..] == Filled(old(alloc.mem[..]), first, Copies(val, last - first))
      && alloc.log == old(alloc.log) + Builds(first, Copies(val, last - first))
      && alloc.budget == Spend(old(alloc.budget), last - first)
    ensures Throws(old(alloc.budget), last - first) ==>
      var k := old(alloc.budget).value;
      r == Fail(alloc.thrown)
      && alloc.mem[..] == Cleared(old(alloc.mem[..]), first, k)
      && alloc.log == old(alloc.log) + Builds(first, Copies(val, k)) + Destroys(first, k)
      && alloc.budget == Some(0)
  {
    var o := ConstructAll(Copies(val, last - first), first, alloc);
    if o.Failure? {
      assert Copies(val, last - first)[..old(alloc.budget).value] == Copies(val, old(alloc.budget).value);
      return Fail(o.error);
    }
    return Pass;
  }

  /** `uninitialized_fill_n(first, count, val, alloc)`: copy-constructs `val`
      into the `max(count, 0)` slots from `first` on and returns the slot after
      them; same rollback. */
  method UninitializedFillN<T>(first: nat, count: int, val: T, alloc: Allocator<T>) returns (r: Result<nat, Exception>)
    requires first + Steps(count) <= alloc.mem.Length
    modifies alloc, alloc.mem
    ensures !Throws(old(alloc.budget), Steps(count)) ==>
      r == Success(first + Steps(count))
      && alloc.mem[..] == Filled(old(alloc.mem[..]), first, Copies(val, Steps(count)))
      && alloc.log == old(alloc.log) + Builds(first, Copies(val, Steps(count)))
      && alloc.budget == Spend(old(alloc.budget), Steps(count))
    ensures Throws(old(alloc.budget), Steps(count)) ==>
      var k := old(alloc.budget).value;
      r == Failure(alloc.thrown)
      && alloc.mem[..] == Cleared(old(alloc.mem[..]), first, k)
      && alloc.log == old(alloc.log) + Builds(first, Copies(val, k)) + Destroys(first, k)
      && alloc.budget == Some(0)
  {
    r := ConstructAll(Copies(val, Steps(count)), first, alloc);
    if Throws(old(alloc.budget), Steps(count)) {
      assert Copies(val, Steps(count))[..old(alloc.budget).value] == Copies(val, old(alloc.budget).value);
    }
  }

  // ---------------------------------------------------------------------------
  // A caller's view

  /** Five raw slots, a five-element source, and a copy constructor that
      throws on its third call: the copy fails, slots 0 and 1 were built and
      then destroyed once each, and slots 2 to 4 were never built. */
  method ThirdCopyThrows(src: seq<int>)
    requires |src| == 5
  {
    var mem := new Slot<int>[5](_ => Raw);
    var alloc := new Allocator(mem, Some(2), Exception(3));
    var r := UninitializedCopy(src, 0, 5, 0, alloc);
    assert r == Failure(Exception(3));
    assert forall i :: 0 <= i < 5 ==> alloc.mem[i] == Raw;
    assert alloc.log == Builds(0, src[..2]) + Destroys(0, 2);
    forall p: nat | p < 5
      ensures Constructions(alloc.log, p) == Destructions(alloc.log, p) == if p < 2 then 1 else 0
    {
      RollbackExactlyOnce(0, src, 2, p);
    }
  }
}
