/** The insertion adaptors `ft::back_insert_iterator`,
    `ft::front_insert_iterator` and `ft::insert_iterator`, with their factories
    `back_inserter`, `front_inserter` and `inserter`.

    The target container is an object whose contents are a sequence; the
    adaptors hold a reference to it (and `insert_iterator` a cursor, a position
    in it) and turn each assignment into one mutation of the container. */
module InsertIterators {
  import opened Wrappers
  import opened Sequences

  // ---------------------------------------------------------------------------
  // The container operations the adaptors call

  /** Contents after `push_back(v)`. */
  function PushedBack<T>(c: seq<T>, v: T): seq<T> {
    c + [v]
  }

  /** Contents after `push_front(v)`. */
  function PushedFront<T>(c: seq<T>, v: T): seq<T> {
    [v] + c
  }

  /** Contents after `insert(pos, v)`: `v` goes before position `pos`. */
  function InsertedAt<T>(c: seq<T>, pos: nat, v: T): seq<T>
    requires pos <= |c|
  {
    c[..pos] + [v] + c[pos..]
  }

  /** The target container: only the mutations the adaptors use. */
  class Container<T> {
    var elems: seq<T>

    constructor (init: seq<T>)
      ensures elems == init
    {
      elems := init;
    }

    method PushBack(v: T)
      modifies this
      ensures elems == PushedBack(old(elems), v)
    {
      elems := elems + [v];
    }

    method PushFront(v: T)
      modifies this
      ensures elems == PushedFront(old(elems), v)
    {
      elems := [v] + elems;
    }

    /** Inserts before `pos` and returns an iterator to the new element. */
    method Insert(pos: nat, v: T) returns (it: nat)
      requires pos <= |elems|
      modifies this
      ensures elems == InsertedAt(old(elems), pos, v) && it == pos
    {
      elems := elems[..pos] + [v] + elems[pos..];
      it := pos;
    }
  }

  // ---------------------------------------------------------------------------
  // The adaptors

  class BackInsertIterator<T> {
    const container: Container<T>

    /** `explicit back_insert_iterator(x)`. */
    constructor (x: Container<T>)
      ensures container == x
    {
      container := x;
    }

    /** `*it = v`: appends `v` to the container. */
    method Assign(v: T)
      modifies container
      ensures container.elems == PushedBack(old(container.elems), v)
    {
      container.PushBack(v);
    }

    /** `*it`: the adaptor itself, nothing changed. */
    method Deref() returns (r: BackInsertIterator<T>)
      ensures r == this
    {
      r := this;
    }

    /** `++it`: the adaptor itself, nothing changed. */
    method PreIncrement() returns (r: BackInsertIterator<T>)
      ensures r == this
    {
      r := this;
    }

    /** `it++`: a copy of the adaptor, on the same container. */
    method PostIncrement() returns (r: BackInsertIterator<T>)
      ensures fresh(r) && r.container == container
    {
      r := new BackInsertIterator(container);
    }
  }

  /** `back_inserter(x)`. */
  method BackInserter<T>(x: Container<T>) returns (it: BackInsertIterator<T>)
    ensures fresh(it) && it.container == x
  {
    it := new BackInsertIterator(x);
  }

  class FrontInsertIterator<T> {
    const container: Container<T>

    /** `explicit front_insert_iterator(x)`. */
    constructor (x: Container<T>)
      ensures container == x
    {
      container := x;
    }

    /** `*it = v`: prepends `v` to the container. */
    method Assign(v: T)
      modifies container
      ensures container.elems == PushedFront(old(container.elems), v)
    {
      container.PushFront(v);
    }

    /** `*it`: the adaptor itself, nothing changed. */
    method Deref() returns (r: FrontInsertIterator<T>)
      ensures r == this
    {
      r := this;
    }

    /** `++it`: the adaptor itself, nothing changed. */
    method PreIncrement() returns (r: FrontInsertIterator<T>)
      ensures r == this
    {
      r := this;
    }

    /** `it++`: a copy of the adaptor, on the same container. */
    method PostIncrement() returns (r: FrontInsertIterator<T>)
      ensures fresh(r) && r.container == container
    {
      r := new FrontInsertIterator(container);
    }
  }

  /** `front_inserter(x)`. */
  method FrontInserter<T>(x: Container<T>) returns (it: FrontInsertIterator<T>)
    ensures fresh(it) && it.container == x
  {
    it := new FrontInsertIterator(x);
  }

  class InsertIterator<T> {
    const container: Container<T>
    /** The cursor: the next assignment inserts before this position. */
    var iter: nat

    ghost predicate Valid()
      reads this, container
    {
      iter <= |container.elems|
    }

    /** `insert_iterator(x, i)`, with the cursor initialised to `i`, the
        evident intent of the constructor, which as written does not compile
        (see `CursorAsWritten`). */
    constructor (x: Container<T>, i: nat)
      requires i <= |x.elems|
      ensures container == x && iter == i && Valid()
    {
      container := x;
      iter := i;
    }

    /** `*it = v`: inserts `v` before the cursor, then moves the cursor past it. */
    method Assign(v: T)
      requires Valid()
      modifies this, container
      ensures Valid()
      ensures container.elems == InsertedAt(old(container.elems), old(iter), v)
      ensures iter == old(iter) + 1
    {
      iter := container.Insert(iter, v);
      iter := iter + 1;
    }

    /** `*it`: the adaptor itself, nothing changed. */
    method Deref() returns (r: InsertIterator<T>)
      ensures r == this
    {
      r := this;
    }

    /** `++it`: the adaptor itself, nothing changed. */
    method PreIncrement() returns (r: InsertIterator<T>)
      ensures r == this
    {
      r := this;
    }

    /** `it++`: this adaptor too returns itself, by reference, not a copy. */
    method PostIncrement() returns (r: InsertIterator<T>)
      ensures r == this
    {
      r := this;
    }
  }

  /** `inserter(x, i)`. */
  method Inserter<T>(x: Container<T>, i: nat) returns (it: InsertIterator<T>)
    requires i <= |x.elems|
    ensures fresh(it) && it.container == x && it.iter == i && it.Valid()
  {
    it := new InsertIterator(x, i);
  }

  // ---------------------------------------------------------------------------
  // Assigning a run of values through one adaptor

  /** Contents after assigning `vals`, first to last, through a back inserter. */
  function AssignAllBack<T>(c: seq<T>, vals: seq<T>): seq<T>
    decreases |vals|
  {
    if vals == [] then c else AssignAllBack(PushedBack(c, vals[0]), vals[1..])
  }

  /** Contents after assigning `vals`, first to last, through a front inserter. */
  function AssignAllFront<T>(c: seq<T>, vals: seq<T>): seq<T>
    decreases |vals|
  {
    if vals == [] then c else AssignAllFront(PushedFront(c, vals[0]), vals[1..])
  }

  /** Contents and cursor after assigning `vals`, first to last, through an
      insert iterator whose cursor is at `pos`. */
  function AssignAllAt<T>(c: seq<T>, pos: nat, vals: seq<T>): (seq<T>, nat)
    requires pos <= |c|
    decreases |vals|
  {
    if vals == [] then (c, pos)
    else AssignAllAt(InsertedAt(c, pos, vals[0]), pos + 1, vals[1..])
  }

  /** Assigning `vals` through a back inserter appends them in order. */
  lemma {:induction false} BackInsertAppendsInOrder<T>(c: seq<T>, vals: seq<T>)
    ensures AssignAllBack(c, vals) == c + vals
    decreases |vals|
  {
    if vals != [] {
      BackInsertAppendsInOrder(PushedBack(c, vals[0]), vals[1..]);
      assert c + [vals[0]] + vals[1..] == c + vals;
    }
  }

  /** Assigning `vals` through a front inserter leaves them in front, reversed. */
  lemma {:induction false} FrontInsertPrependsReversed<T>(c: seq<T>, vals: seq<T>)
    ensures AssignAllFront(c, vals) == Reversed(vals) + c
    decreases |vals|
  {
    if vals != [] {
      FrontInsertPrependsReversed(PushedFront(c, vals[0]), vals[1..]);
      ReversedAppend([vals[0]], vals[1..]);
      assert [vals[0]] + vals[1..] == vals;
      assert Reversed([vals[0]]) == [vals[0]];
    }
  }

  /** Assigning `vals` through an insert iterator puts them, in order, as one
      contiguous run at the starting cursor, and leaves the cursor just past it. */
  lemma {:induction false} InsertKeepsRunInOrder<T>(c: seq<T>, pos: nat, vals: seq<T>)
    requires pos <= |c|
    ensures AssignAllAt(c, pos, vals) == (c[..pos] + vals + c[pos..], pos + |vals|)
    decreases |vals|
  {
    if vals != [] {
      var c' := InsertedAt(c, pos, vals[0]);
      InsertKeepsRunInOrder(c', pos + 1, vals[1..]);
      assert c'[..pos + 1] == c[..pos] + [vals[0]];
      assert c'[pos + 1..] == c[pos..];
      assert c[..pos] + [vals[0]] + vals[1..] == c[..pos] + vals;
      assert c'[..pos + 1] + vals[1..] + c'[pos + 1..] == c[..pos] + vals + c[pos..];
    } else {
      assert c[..pos] + vals + c[pos..] == c;
    }
  }

  // ---------------------------------------------------------------------------
  // The constructor of insert_iterator as written

  /** The initialiser of `insert_iterator`'s cursor: a position in the
      container, or a pointer to an iterator (`&i`, of type
      `Container::iterator*`), from which no container's iterator type can be
      constructed, so that initialiser does not compile. */
  datatype Cursor = Position(pos: nat) | PointerToIterator

  /** The cursor initialiser as the constructor writes it, `iter(&i)`: a
      pointer to the parameter `i`, not a position in the container, so the
      constructor is ill-formed as soon as it is instantiated. */
  function CursorAsWritten(i: nat): (cur: Cursor)
    ensures cur != Position(i) && !cur.Position?
  {
    PointerToIterator
  }

  /** One assignment through `inserter(c, ...)` built with cursor initialiser
      `cur`: only an initialiser that is a position in the container gives a
      well-formed adaptor, and it inserts there; `None` stands for code that
      does not compile. */
  function AssignThrough<T>(c: seq<T>, cur: Cursor, v: T): (r: Option<seq<T>>)
    ensures r.Some? <==> cur.Position? && cur.pos <= |c|
    ensures r.Some? ==>
      (|r.value| == |c| + 1 && r.value[cur.pos] == v
       && r.value[..cur.pos] == c[..cur.pos] && r.value[cur.pos + 1..] == c[cur.pos..])
  {
    match cur
    case PointerToIterator => None
    case Position(p) => if p <= |c| then Some(InsertedAt(c, p, v)) else None
  }

  /** With the cursor initialiser as written, `inserter(c, i)` followed by an
      assignment is not well-formed for any container or position; with the
      intended one the first assignment inserts at `i`. */
  lemma InserterAsWrittenLosesPosition<T>(c: seq<T>, i: nat, v: T)
    requires i <= |c|
    ensures AssignThrough(c, CursorAsWritten(i), v) == None
    ensures AssignThrough(c, Position(i), v) == Some(InsertedAt(c, i, v))
  {
  }

  // ---------------------------------------------------------------------------
  // A caller's view

  /** Three values assigned through a back inserter and through a front
      inserter, each over an empty container. */
  method ThreeAssignments(v1: int, v2: int, v3: int)
  {
    var back := new Container<int>([]);
    var b := BackInserter(back);
    b.Assign(v1);
    b.Assign(v2);
    b.Assign(v3);
    assert back.elems == [v1, v2, v3];

    var front := new Container<int>([]);
    var f := FrontInserter(front);
    f.Assign(v1);
    f.Assign(v2);
    f.Assign(v3);
    assert front.elems == [v3, v2, v1];
  }
}
