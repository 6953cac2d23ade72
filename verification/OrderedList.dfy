/** Lists kept in order by insertion before the first element that comes later. */
module OrderedList {

  /** `before` is a strict order up to ties. */
  ghost predicate WeakOrder<T(!new)>(before: (T, T) -> bool) {
    && (forall a, b :: before(a, b) ==> !before(b, a))
    && (forall a, b, c :: !before(a, b) && !before(b, c) ==> !before(a, c))
  }

  /** The first position whose element comes after `x`. */
  function Position<T>(s: seq<T>, x: T, before: (T, T) -> bool): (p: nat)
    ensures p <= |s| && (forall i :: 0 <= i < p ==> !before(x, s[i])) && (p < |s| ==> before(x, s[p]))
  {
    if s == [] || before(x, s[0]) then 0 else 1 + Position(s[1..], x, before)
  }

  function Insert<T>(s: seq<T>, x: T, before: (T, T) -> bool): (r: seq<T>)
    ensures |r| == |s| + 1
  {
    var p := Position(s, x, before);
    s[..p] + [x] + s[p..]
  }

  /** No element comes before an earlier one. */
  ghost predicate Sorted<T>(s: seq<T>, before: (T, T) -> bool) {
    forall i, j :: 0 <= i < j < |s| ==> !before(s[j], s[i])
  }

  /** A position is determined by what it separates. */
  lemma PositionIs<T>(s: seq<T>, x: T, before: (T, T) -> bool, p: nat)
    requires p <= |s| && (forall i :: 0 <= i < p ==> !before(x, s[i])) && (p < |s| ==> before(x, s[p]))
    ensures Position(s, x, before) == p
  {
  }

  /** The position search as a loop. */
  method FindPosition<T>(s: seq<T>, x: T, before: (T, T) -> bool) returns (p: nat)
    ensures p == Position(s, x, before)
  {
    p := |s|;
    for i := 0 to |s|
      invariant p == |s| && forall k :: 0 <= k < i ==> !before(x, s[k])
    {
      if before(x, s[i]) {
        PositionIs(s, x, before, i);
        return i;
      }
    }
    PositionIs(s, x, before, |s|);
  }

  /** Everything from the position on comes after `x`. */
  lemma AfterPosition<T(!new)>(s: seq<T>, x: T, before: (T, T) -> bool, j: nat)
    requires WeakOrder(before) && Sorted(s, before) && Position(s, x, before) <= j < |s|
    ensures before(x, s[j])
  {
    var p := Position(s, x, before);
    assert p < j ==> !before(s[j], s[p]);
  }

  lemma InsertAt<T>(s: seq<T>, x: T, before: (T, T) -> bool, i: nat)
    requires i <= |s|
    ensures |Insert(s, x, before)| == |s| + 1
    ensures var p := Position(s, x, before);
            Insert(s, x, before)[i] == if i < p then s[i] else if i == p then x else s[i - 1]
  {
  }

  lemma InsertSorted<T(!new)>(s: seq<T>, x: T, before: (T, T) -> bool)
    requires WeakOrder(before) && Sorted(s, before)
    ensures Sorted(Insert(s, x, before), before)
  {
    var r, p := Insert(s, x, before), Position(s, x, before);
    forall i, j | 0 <= i < j < |r| ensures !before(r[j], r[i]) {
      InsertAt(s, x, before, i);
      InsertAt(s, x, before, j);
      if i == p { AfterPosition(s, x, before, j - 1); }
    }
  }

  lemma InsertPermutes<T>(s: seq<T>, x: T, before: (T, T) -> bool)
    ensures multiset(Insert(s, x, before)) == multiset(s) + multiset{x}
  {
    var p := Position(s, x, before);
    assert s == s[..p] + s[p..];
  }

  /** Insert one after another. */
  function InsertAll<T>(items: seq<T>, before: (T, T) -> bool): seq<T> {
    if items == [] then [] else Insert(InsertAll(items[..|items| - 1], before), items[|items| - 1], before)
  }

  lemma {:induction false} InsertAllSorts<T(!new)>(items: seq<T>, before: (T, T) -> bool)
    requires WeakOrder(before)
    ensures Sorted(InsertAll(items, before), before) && multiset(InsertAll(items, before)) == multiset(items)
  {
    if items != [] {
      var n := |items| - 1;
      InsertAllSorts(items[..n], before);
      InsertSorted(InsertAll(items[..n], before), items[n], before);
      InsertPermutes(InsertAll(items[..n], before), items[n], before);
      assert items == items[..n] + [items[n]];
    }
  }

  /** The elements that tie with `y`, in order. */
  function Ties<T>(s: seq<T>, y: T, before: (T, T) -> bool): seq<T> {
    if s == [] then []
    else Ties(s[..|s| - 1], y, before) + (if Tie(s[|s| - 1], y, before) then [s[|s| - 1]] else [])
  }

  predicate Tie<T>(a: T, b: T, before: (T, T) -> bool) { !before(a, b) && !before(b, a) }

  lemma {:induction false} TiesConcat<T>(a: seq<T>, b: seq<T>, y: T, before: (T, T) -> bool)
    ensures Ties(a + b, y, before) == Ties(a, y, before) + Ties(b, y, before)
    decreases |b|
  {
    if b == [] {
      assert a + b == a;
    } else {
      var n := |b| - 1;
      assert (a + b)[..|a + b| - 1] == a + b[..n];
      TiesConcat(a, b[..n], y, before);
    }
  }

  lemma {:induction false} NoTies<T>(s: seq<T>, y: T, before: (T, T) -> bool)
    requires forall i :: 0 <= i < |s| ==> !Tie(s[i], y, before)
    ensures Ties(s, y, before) == []
  {
    if s != [] { NoTies(s[..|s| - 1], y, before); }
  }

  /** Nothing from its position on ties with `x`, nor with what `x` ties with. */
  lemma NoTiesAfter<T(!new)>(s: seq<T>, x: T, y: T, before: (T, T) -> bool)
    requires WeakOrder(before) && Sorted(s, before) && Tie(x, y, before)
    ensures Ties(s[Position(s, x, before)..], y, before) == []
  {
    var t := s[Position(s, x, before)..];
    forall i | 0 <= i < |t| ensures !Tie(t[i], y, before) {
      AfterPosition(s, x, before, Position(s, x, before) + i);
    }
    NoTies(t, y, before);
  }

  lemma TiesOne<T>(x: T, y: T, before: (T, T) -> bool)
    ensures Ties([x], y, before) == if Tie(x, y, before) then [x] else []
  {
    assert [x][..0] == [];
  }

  lemma SplitTies<T>(a: seq<T>, x: T, b: seq<T>, y: T, before: (T, T) -> bool)
    ensures Ties(a + [x] + b, y, before) == Ties(a, y, before) + Ties([x], y, before) + Ties(b, y, before)
    ensures Ties(a + b, y, before) == Ties(a, y, before) + Ties(b, y, before)
  {
    TiesConcat(a + [x], b, y, before);
    TiesConcat(a, [x], y, before);
    TiesConcat(a, b, y, before);
  }

  /** A new element lands after everything it ties with. */
  lemma InsertTies<T(!new)>(s: seq<T>, x: T, y: T, before: (T, T) -> bool)
    requires WeakOrder(before) && Sorted(s, before)
    ensures Ties(Insert(s, x, before), y, before) == Ties(s, y, before) + (if Tie(x, y, before) then [x] else [])
  {
    var p := Position(s, x, before);
    var a, b := s[..p], s[p..];
    assert s == a + b && Insert(s, x, before) == a + [x] + b;
    if Tie(x, y, before) {
      NoTiesAfter(s, x, y, before);
    }
    TiesAround(a, x, b, y, before);
  }

  lemma TiesAround<T>(a: seq<T>, x: T, b: seq<T>, y: T, before: (T, T) -> bool)
    requires Tie(x, y, before) ==> Ties(b, y, before) == []
    ensures Ties(a + [x] + b, y, before) == Ties(a + b, y, before) + (if Tie(x, y, before) then [x] else [])
  {
    SplitTies(a, x, b, y, before);
    TiesOne(x, y, before);
  }

  /** Ties keep their order of arrival. */
  lemma {:induction false} InsertAllStable<T(!new)>(items: seq<T>, y: T, before: (T, T) -> bool)
    requires WeakOrder(before)
    ensures Ties(InsertAll(items, before), y, before) == Ties(items, y, before)
  {
    if items != [] {
      var n := |items| - 1;
      InsertAllStable(items[..n], y, before);
      InsertAllSorts(items[..n], before);
      InsertTies(InsertAll(items[..n], before), items[n], y, before);
    }
  }

  // ------------------------------------------------------------ bounded lists

  function Take<T>(s: seq<T>, n: nat): seq<T> { if n <= |s| then s[..n] else s }

  /** Insert, then drop the last element of a list that has grown past `max`. */
  function Bounded<T>(s: seq<T>, max: nat, x: T, before: (T, T) -> bool): seq<T> {
    var r := Insert(s, x, before);
    if |r| > max then r[..|r| - 1] else r
  }

  /** The first `max` after an insert depend only on the first `max` before it. */
  lemma InsertPrefix<T>(s: seq<T>, max: nat, x: T, before: (T, T) -> bool)
    requires max < |s|
    ensures Insert(s[..max], x, before)[..max] == Insert(s, x, before)[..max]
  {
    var t, p := s[..max], Position(s, x, before);
    PositionIs(t, x, before, if p < max then p else max);
    var r, u := Insert(s, x, before), Insert(t, x, before);
    forall i | 0 <= i < max ensures u[i] == r[i] {
      InsertAt(s, x, before, i);
      InsertAt(t, x, before, i);
    }
  }

  lemma InsertTake<T>(s: seq<T>, max: nat, x: T, before: (T, T) -> bool)
    ensures Bounded(Take(s, max), max, x, before) == Take(Insert(s, x, before), max)
  {
    if max < |s| {
      InsertPrefix(s, max, x, before);
      assert |Insert(s[..max], x, before)| == max + 1;
    } else {
      assert Take(s, max) == s;
    }
  }

  function InsertAllBounded<T>(items: seq<T>, max: nat, before: (T, T) -> bool): seq<T> {
    if items == [] then []
    else Bounded(InsertAllBounded(items[..|items| - 1], max, before), max, items[|items| - 1], before)
  }

  /** A bounded list holds the first `max` of everything ever inserted, in order, ties by arrival. */
  lemma {:induction false} BoundedHoldsFirst<T>(items: seq<T>, max: nat, before: (T, T) -> bool)
    ensures InsertAllBounded(items, max, before) == Take(InsertAll(items, before), max)
  {
    if items != [] {
      var n := |items| - 1;
      BoundedHoldsFirst(items[..n], max, before);
      InsertTake(InsertAll(items[..n], before), max, items[n], before);
    }
  }
}
