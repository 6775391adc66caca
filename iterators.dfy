/** Iterator categories and the category-dispatched `ft::advance` and
    `ft::distance`.

    An iterator is an integer position; `++i` is `i + 1` and `--i` is `i - 1`.
    Overload resolution on a tag argument is modelled by `SelectAdvance` and
    `SelectDistance`: a tag converts to every tag it derives from, and the
    overload taking the most derived of those is chosen. */
module Iterators {
  import opened Wrappers

  datatype Category = Input | Output | Forward | Bidirectional | RandomAccess

  /** The type of a tag argument: one of the library's own tag structs, or one
      of the standard library's, which derive only from each other. */
  datatype Tag = FtTag(cat: Category) | StdTag(cat: Category)

  /** The three `advance__` overloads and the two `distance__` overloads. */
  datatype AdvanceOverload = StepForward | StepEitherWay | Jump
  datatype DistanceOverload = CountSteps | Subtract

  // ---------------------------------------------------------------------------
  // The tag lattice

  /** The direct base of a tag struct, if any. */
  function DirectBase(c: Category): Option<Category> {
    match c
    case Forward => Some(Input)
    case Bidirectional => Some(Forward)
    case RandomAccess => Some(Bidirectional)
    case _ => None
  }

  function Depth(c: Category): nat {
    match c
    case Forward => 1
    case Bidirectional => 2
    case RandomAccess => 3
    case _ => 0
  }

  /** `a` is `b` or derives from it, so an `a` tag converts to a `b` parameter. */
  predicate DerivesFrom(a: Category, b: Category)
    decreases Depth(a)
  {
    a == b || (DirectBase(a).Some? && DerivesFrom(DirectBase(a).value, b))
  }

  /** The tag parameter of each overload. */
  function AdvanceParameter(o: AdvanceOverload): Category {
    match o
    case StepForward => Input
    case StepEitherWay => Bidirectional
    case Jump => RandomAccess
  }

  function DistanceParameter(o: DistanceOverload): Category {
    match o
    case CountSteps => Input
    case Subtract => RandomAccess
  }

  /** Overload resolution of `advance__(i, n, tag)`: a call is viable exactly
      when the tag is one of the library's and converts to `input_iterator_tag`,
      and then the chosen overload is viable and more derived than every other
      viable one. */
  function SelectAdvance(t: Tag): (r: Option<AdvanceOverload>)
    ensures r.Some? <==> t.FtTag? && DerivesFrom(t.cat, Input)
    ensures r.Some? ==> DerivesFrom(t.cat, AdvanceParameter(r.value))
    ensures r.Some? ==> forall o :: DerivesFrom(t.cat, AdvanceParameter(o)) ==>
      DerivesFrom(AdvanceParameter(r.value), AdvanceParameter(o))
  {
    match t
    case StdTag(_) => None
    case FtTag(c) =>
      if c == RandomAccess then Some(Jump)
      else if c == Bidirectional then Some(StepEitherWay)
      else if c == Input || c == Forward then Some(StepForward)
      else None
  }

  /** Overload resolution of `distance__(first, last, tag)`; there is no
      bidirectional overload, so a bidirectional tag takes the input one. */
  function SelectDistance(t: Tag): (r: Option<DistanceOverload>)
    ensures r.Some? <==> t.FtTag? && DerivesFrom(t.cat, Input)
    ensures r.Some? ==> DerivesFrom(t.cat, DistanceParameter(r.value))
    ensures r.Some? ==> forall o :: DerivesFrom(t.cat, DistanceParameter(o)) ==>
      DerivesFrom(DistanceParameter(r.value), DistanceParameter(o))
  {
    match t
    case StdTag(_) => None
    case FtTag(c) =>
      if c == RandomAccess then Some(Subtract)
      else if c == Output then None
      else Some(CountSteps)
  }

  // ---------------------------------------------------------------------------
  // advance

  /** `advance__(i, n, input_iterator_tag)`: `n` single steps forward; nothing when `n <= 0`. */
  method AdvanceInput(i: int, n: int) returns (j: int)
    ensures j == if n > 0 then i + n else i
  {
    j := i;
    var m := n;
    while m > 0
      invariant if n > 0 then 0 <= m <= n else m == n
      invariant j == i + (n - m)
    {
      j := j + 1;
      m := m - 1;
    }
  }

  /** `advance__(i, n, bidirectional_iterator_tag)`: `|n|` single steps in the direction of `n`. */
  method AdvanceBidirectional(i: int, n: int) returns (j: int)
    ensures j == i + n
  {
    j := i;
    var m := n;
    if m >= 0 {
      while m > 0
        invariant 0 <= m && j == i + (n - m)
      {
        j := j + 1;
        m := m - 1;
      }
    } else {
      while m < 0
        invariant m <= 0 && j == i + (n - m)
      {
        j := j - 1;
        m := m + 1;
      }
    }
  }

  /** `advance__(i, n, random_access_iterator_tag)`: the single jump `i += n`. */
  method AdvanceRandomAccess(i: int, n: int) returns (j: int)
    ensures j == i + n
  {
    j := i + n;
  }

  /** `advance(i, n)`, with the tag argument value-initialised: dispatches on
      the category.  Only bidirectional and random-access iterators move
      backwards; the others ignore `n <= 0`. */
  method Advance(cat: Category, i: int, n: int) returns (j: int)
    requires SelectAdvance(FtTag(cat)).Some?
    ensures j == if n <= 0 && !DerivesFrom(cat, Bidirectional) then i else i + n
  {
    match SelectAdvance(FtTag(cat)).value
    case StepForward => j := AdvanceInput(i, n);
    case StepEitherWay => j := AdvanceBidirectional(i, n);
    case Jump => j := AdvanceRandomAccess(i, n);
  }

  // ---------------------------------------------------------------------------
  // distance

  /** `distance__(first, last, input_iterator_tag)`: counts the increments that
      take `first` to `last`; `last` must be reachable from `first`. */
  method DistanceInput(first: int, last: int) returns (r: int)
    requires first <= last
    ensures r == last - first
  {
    r := 0;
    var f := first;
    while f != last
      invariant first <= f <= last
      invariant r == f - first
      decreases last - f
    {
      r := r + 1;
      f := f + 1;
    }
  }

  /** `distance__(first, last, random_access_iterator_tag)`: one subtraction;
      advancing `first` by the result reaches `last`. */
  function DistanceRandomAccess(first: int, last: int): (r: int)
    ensures first + r == last
  {
    last - first
  }

  /** `distance(first, last)`: dispatches on the category; the counting loop
      and the subtraction agree whenever the loop's precondition holds. */
  method Distance(cat: Category, first: int, last: int) returns (r: int)
    requires SelectDistance(FtTag(cat)).Some?
    requires !DerivesFrom(cat, RandomAccess) ==> first <= last
    ensures r == last - first
  {
    match SelectDistance(FtTag(cat)).value
    case CountSteps => r := DistanceInput(first, last);
    case Subtract => r := DistanceRandomAccess(first, last);
  }

  /** Advancing by the distance reaches the end of the range, in every
      category, including a backward random-access range. */
  method AdvanceByDistance(cat: Category, first: int, last: int) returns (j: int)
    requires SelectAdvance(FtTag(cat)).Some?
    requires !DerivesFrom(cat, RandomAccess) ==> first <= last
    ensures j == last
  {
    var n := Distance(cat, first, last);
    j := Advance(cat, first, n);
  }

  // ---------------------------------------------------------------------------
  // Defects in the dispatch as written

  /** The category the traits specialisations for `T*` and `const T*` name
      as written: the standard library's random-access tag, which does not
      convert to any of this library's tag parameters, so `advance` and
      `distance` on a raw pointer find no overload. */
  function PointerTraitsTagAsWritten(): (t: Tag)
    ensures SelectAdvance(t) == None && SelectDistance(t) == None
  {
    StdTag(RandomAccess)
  }

  /** The intended pointer category: this library's random-access tag, which
      selects the constant-time overloads. */
  function PointerTraitsTag(): (t: Tag)
    ensures SelectAdvance(t) == Some(Jump) && SelectDistance(t) == Some(Subtract)
  {
    FtTag(RandomAccess)
  }

  /** How `advance` builds its tag argument: value-initialised (`tag()`), or
      constructed from the iterator (`tag(i)`), for which no tag struct has a
      constructor. */
  datatype TagArgument = ValueInitialised | ConstructedFrom(position: int)

  function MakeTag(arg: TagArgument, t: Tag): Option<Tag> {
    if arg.ValueInitialised? then Some(t) else None
  }

  /** `advance(i, n)` as written passes `iterator_category(i)`, so no
      instantiation of it is well-formed, whatever the category. */
  function AdvanceAsWritten(cat: Category, i: int, n: int): (r: Option<int>)
    ensures r == None
  {
    match MakeTag(ConstructedFrom(i), FtTag(cat))
    case None => None
    case Some(t) =>
      match SelectAdvance(t)
      case None => None
      case Some(o) => Some(i + n)
  }
}
