/** `ft::reverse_iterator` over an underlying iterator into a sequence `s`.

    Its only state is `current`, a position of the underlying iterator that
    lies one past the element the adaptor designates: a reverse iterator with
    `current == |s|` designates the last element of `s` (it is `rbegin`), one
    with `current == 0` is past the end of the reversed range (`rend`).  Its
    value is the datatype `Rev`; the class `ReverseIterator` holds the field
    that the increment, decrement and compound-assignment operators update in
    place. */
module ReverseIterators {
  import opened Sequences

  datatype Rev = Rev(current: int) {

    /** `base()`: the underlying iterator, which determines the adaptor. */
    function Base(): (b: int)
      ensures Rev(b) == this
    {
      current
    }

    /** `*r`: the element before `current`, which is element `|s| - current`
        of `s` read back to front. */
    function Deref<T>(s: seq<T>): (x: T)
      requires 0 < current <= |s|
      ensures x == Reversed(s)[|s| - current]
    {
      ReversedAt(s, |s| - current);
      s[current - 1]
    }

    /** `r + n`: `n` elements further along the reversed sequence, which is `n`
        positions back along the underlying one; `- n` undoes it. */
    function Plus(n: int): (r: Rev)
      ensures r.Base() == Base() - n
      ensures r.Minus(n) == this
    {
      Rev(current - n)
    }

    /** `r - n`: `n` elements back along the reversed sequence. */
    function Minus(n: int): (r: Rev)
      ensures r.Base() == Base() + n
    {
      Rev(current + n)
    }

    /** `r[n]`: the element `n` steps along the reversed sequence, `s[current - n - 1]`. */
    function At<T>(s: seq<T>, n: int): (x: T)
      requires 0 < current - n <= |s|
      ensures x == Plus(n).Deref(s)
      ensures x == s[current - n - 1]
    {
      Plus(n).Deref(s)
    }
  }

  // ---------------------------------------------------------------------------
  // Free relational and arithmetic operators

  /** `x == y`: the bases are equal, which makes the adaptors equal. */
  predicate Eq(x: Rev, y: Rev)
    ensures Eq(x, y) <==> x == y
  {
    x.Base() == y.Base()
  }

  /** `x != y` is the negation of `==`. */
  predicate Ne(x: Rev, y: Rev)
    ensures Ne(x, y) <==> x != y
  {
    !Eq(x, y)
  }

  /** `x - y`: the number of steps from `y` to `x` along the reversed sequence,
      so that `y + (x - y) == x`. */
  function Difference(x: Rev, y: Rev): (d: int)
    ensures y.Plus(d) == x
  {
    y.Base() - x.Base()
  }

  /** `x < y`: `y` lies further along the reversed sequence, i.e. the order of
      the bases is reversed. */
  predicate Lt(x: Rev, y: Rev)
    ensures Lt(x, y) <==> Difference(y, x) > 0
    ensures Lt(x, y) <==> y.Base() < x.Base()
  {
    y.Base() < x.Base()
  }

  /** `x <= y` is `!(y < x)`: `<` or `==`. */
  predicate Le(x: Rev, y: Rev)
    ensures Le(x, y) <==> Lt(x, y) || Eq(x, y)
  {
    !Lt(y, x)
  }

  /** `x > y` is `y < x`. */
  predicate Gt(x: Rev, y: Rev)
    ensures Gt(x, y) <==> Difference(x, y) > 0
  {
    Lt(y, x)
  }

  /** `x >= y` is `!(x < y)`: `>` or `==`. */
  predicate Ge(x: Rev, y: Rev)
    ensures Ge(x, y) <==> Gt(x, y) || Eq(x, y)
  {
    !Lt(x, y)
  }

  /** `n + x` is `x + n`. */
  function PlusLeft(n: int, x: Rev): (r: Rev)
    ensures r == x.Plus(n)
  {
    Rev(x.Base() - n)
  }

  /** `<` on reverse iterators is a strict total order: exactly one of
      `x < y`, `x == y`, `y < x` holds, and it is transitive. */
  lemma LtTrichotomous(x: Rev, y: Rev, z: Rev)
    ensures (Lt(x, y) && !Eq(x, y) && !Lt(y, x))
         || (!Lt(x, y) && Eq(x, y) && !Lt(y, x))
         || (!Lt(x, y) && !Eq(x, y) && Lt(y, x))
    ensures Lt(x, y) && Lt(y, z) ==> Lt(x, z)
  {
  }

  // ---------------------------------------------------------------------------
  // Traversal

  /** The `n` elements read by `*r` then `++r`, repeated `n` times from `r`. */
  function Walk<T>(s: seq<T>, r: Rev, n: nat): seq<T>
    requires 0 <= r.current - n && r.current <= |s|
    decreases n
  {
    if n == 0 then [] else [r.Deref(s)] + Walk(s, r.Plus(1), n - 1)
  }

  /** Walking from a reverse iterator with base `c` down to base 0 reads
      `s[..c]` back to front. */
  lemma {:induction false} WalkReadsBackwards<T>(s: seq<T>, c: nat)
    requires c <= |s|
    ensures Walk(s, Rev(c), c) == Reversed(s[..c])
  {
    if c > 0 {
      WalkReadsBackwards(s, c - 1);
      assert s[..c][..c - 1] == s[..c - 1];
    }
  }

  /** From `rbegin` (base `|s|`) to `rend` (base 0) the reverse iterator reads
      the whole sequence back to front. */
  lemma WalkWholeRange<T>(s: seq<T>)
    ensures Walk(s, Rev(|s|), |s|) == Reversed(s)
  {
    WalkReadsBackwards(s, |s|);
    assert s[..|s|] == s;
  }

  // ---------------------------------------------------------------------------
  // The mutable adaptor

  class ReverseIterator {
    var current: int

    function Value(): Rev
      reads this
    {
      Rev(current)
    }

    /** `reverse_iterator()`: `current` value-initialised, position 0. */
    constructor Default()
      ensures Value() == Rev(0)
    {
      current := 0;
    }

    /** `explicit reverse_iterator(it)`. */
    constructor (it: int)
      ensures Value().Base() == it
    {
      current := it;
    }

    /** The copy constructor and the converting constructor from another
        `reverse_iterator`: `current` is taken from `u.base()`. */
    constructor Copy(u: Rev)
      ensures Value() == u
    {
      current := u.Base();
    }

    /** `operator=(u)`: takes `u.base()`. */
    method Assign(u: Rev)
      modifies this
      ensures Value() == u
    {
      current := u.Base();
    }

    /** `++r`: one step along the reversed sequence, i.e. `--current`. */
    method PreIncrement()
      modifies this
      ensures Value() == old(Value()).Plus(1)
    {
      current := current - 1;
    }

    /** `r++`: as `++r`, returning the value from before. */
    method PostIncrement() returns (tmp: Rev)
      modifies this
      ensures tmp == old(Value()) && Value() == old(Value()).Plus(1)
    {
      tmp := Value();
      current := current - 1;
    }

    /** `--r`: one step back along the reversed sequence, i.e. `++current`. */
    method PreDecrement()
      modifies this
      ensures Value() == old(Value()).Minus(1)
    {
      current := current + 1;
    }

    /** `r--`: as `--r`, returning the value from before. */
    method PostDecrement() returns (tmp: Rev)
      modifies this
      ensures tmp == old(Value()) && Value() == old(Value()).Minus(1)
    {
      tmp := Value();
      current := current + 1;
    }

    /** `r += n` is `r = r + n`. */
    method PlusAssign(n: int)
      modifies this
      ensures Value() == old(Value()).Plus(n)
    {
      current := current - n;
    }

    /** `r -= n` is `r = r - n`. */
    method MinusAssign(n: int)
      modifies this
      ensures Value() == old(Value()).Minus(n)
    {
      current := current + n;
    }
  }
}
