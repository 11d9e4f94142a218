/** Sets that are kept in order, and listed in ascending order. */
module Orders {
  ghost predicate IsOrder<T(!new)>(before: (T, T) -> bool) {
    && (forall a, b :: before(a, b) ==> a != b && !before(b, a))
    && (forall a, b :: a != b ==> before(a, b) || before(b, a))
    && (forall a, b, c :: before(a, b) && before(b, c) ==> before(a, c))
  }

  /** Strictly ascending, with exactly these elements. */
  ghost predicate Lists<T(!new)>(list: seq<T>, all: set<T>, before: (T, T) -> bool) {
    && (forall i, j :: 0 <= i < j < |list| ==> before(list[i], list[j]))
    && forall x :: x in list <==> x in all
  }

  /** A set is listed in one way. */
  lemma {:induction false} ListingIsUnique<T(!new)>(list: seq<T>, other: seq<T>, all: set<T>, before: (T, T) -> bool)
    requires IsOrder(before) && Lists(list, all, before) && Lists(other, all, before)
    ensures list == other
  {
    if list != [] || other != [] {
      var x := (list + other)[0];
      assert x in list && x in other && list[0] in other && other[0] in list;
      TailIsListed(list, all, before);
      TailIsListed(other, all, before);
      ListingIsUnique(list[1..], other[1..], all - {list[0]}, before);
    }
  }

  lemma TailIsListed<T(!new)>(list: seq<T>, all: set<T>, before: (T, T) -> bool)
    requires IsOrder(before) && Lists(list, all, before) && list != []
    ensures Lists(list[1..], all - {list[0]}, before)
  {
    forall x ensures x in list[1..] <==> x in all - {list[0]} {
      assert list == [list[0]] + list[1..];
    }
  }

  lemma {:induction false} LeastExists<T(!new)>(all: set<T>, before: (T, T) -> bool) returns (least: T)
    requires IsOrder(before) && all != {}
    ensures least in all && forall y :: y in all && y != least ==> before(least, y)
  {
    least :| least in all;
    if all != {least} {
      var other := LeastExists(all - {least}, before);
      if before(other, least) {
        least := other;
      }
    }
  }

  /** Takes the elements out in ascending order. */
  method Listing<T(==, !new)>(all: set<T>, before: (T, T) -> bool) returns (list: seq<T>)
    requires IsOrder(before)
    ensures Lists(list, all, before)
  {
    list := [];
    var rest := all;
    while rest != {}
      invariant rest <= all && Lists(list, all - rest, before)
      invariant forall i, y :: 0 <= i < |list| && y in rest ==> before(list[i], y)
    {
      ghost var _ := LeastExists(rest, before);
      var least :| least in rest && forall y :: y in rest && y != least ==> before(least, y);
      list, rest := list + [least], rest - {least};
    }
  }
}
