/**
 * Type-tag filtering of a heterogeneous argument array.
 *
 * Every element of the array carries a runtime class, given by `classOf`.
 * The classes looked up by the resource manager are final option records
 * and an enum, so "the element's class is assignable from the requested
 * class" is the same as "the element's class is the requested class".
 * The input is a sequence value: neither function can change it.
 */
module ObjUtils {
  import opened Wrappers

  /** The elements of `arrayOfObjects` whose class is `clazzToCollect`, in their original order. */
  function FilterFromArray<T(==,!new), C(==)>(arrayOfObjects: seq<T>, classOf: T -> C, clazzToCollect: C): (r: seq<T>)
    ensures |r| <= |arrayOfObjects|
    ensures forall i :: 0 <= i < |r| ==> classOf(r[i]) == clazzToCollect
    ensures forall x :: x in r <==> x in arrayOfObjects && classOf(x) == clazzToCollect
  {
    if arrayOfObjects == [] then []
    else
      var rest := FilterFromArray(arrayOfObjects[1..], classOf, clazzToCollect);
      if classOf(arrayOfObjects[0]) == clazzToCollect then [arrayOfObjects[0]] + rest else rest
  }

  /** The first element of `arrayOfObjects` whose class is `clazzToCollect`, if any. */
  function GetFromArray<T, C(==)>(arrayOfObjects: seq<T>, classOf: T -> C, clazzToCollect: C): (r: Option<T>)
    ensures r.None? <==> forall i :: 0 <= i < |arrayOfObjects| ==> classOf(arrayOfObjects[i]) != clazzToCollect
    ensures r.Some? ==> r.value in arrayOfObjects && classOf(r.value) == clazzToCollect
  {
    if arrayOfObjects == [] then None
    else if classOf(arrayOfObjects[0]) == clazzToCollect then Some(arrayOfObjects[0])
    else GetFromArray(arrayOfObjects[1..], classOf, clazzToCollect)
  }

  /** Filtering distributes over concatenation: the order of the input is kept. */
  lemma {:induction false} FilterAppend<T(!new), C>(a: seq<T>, b: seq<T>, classOf: T -> C, clazz: C)
    ensures FilterFromArray(a + b, classOf, clazz) == FilterFromArray(a, classOf, clazz) + FilterFromArray(b, classOf, clazz)
  {
    if a == [] {
      assert a + b == b;
    } else {
      assert (a + b)[1..] == a[1..] + b;
      FilterAppend(a[1..], b, classOf, clazz);
    }
  }

  /** Each matching element occurs in the result exactly as often as in the input; others never. */
  lemma {:induction false} FilterCounts<T(!new), C>(a: seq<T>, classOf: T -> C, clazz: C, x: T)
    ensures multiset(FilterFromArray(a, classOf, clazz))[x] == if classOf(x) == clazz then multiset(a)[x] else 0
  {
    if a != [] {
      assert a == [a[0]] + a[1..];
      FilterCounts(a[1..], classOf, clazz, x);
    }
  }

  /** Filtering a sequence whose elements all match leaves it unchanged. */
  lemma {:induction false} FilterAllMatching<T(!new), C>(a: seq<T>, classOf: T -> C, clazz: C)
    requires forall i :: 0 <= i < |a| ==> classOf(a[i]) == clazz
    ensures FilterFromArray(a, classOf, clazz) == a
  {
    if a != [] {
      FilterAllMatching(a[1..], classOf, clazz);
    }
  }

  /** The result is empty exactly when no element matches. */
  lemma FilterEmptyIff<T(!new), C>(a: seq<T>, classOf: T -> C, clazz: C)
    ensures FilterFromArray(a, classOf, clazz) == [] <==> forall i :: 0 <= i < |a| ==> classOf(a[i]) != clazz
  {
    var r := FilterFromArray(a, classOf, clazz);
    if r != [] {
      assert r[0] in a;
    }
  }

  /** When present, the result is the matching element at the least index. */
  lemma {:induction false} GetFromArrayFirst<T, C>(a: seq<T>, classOf: T -> C, clazz: C, i: nat)
    requires i < |a| && classOf(a[i]) == clazz
    requires forall j :: 0 <= j < i ==> classOf(a[j]) != clazz
    ensures GetFromArray(a, classOf, clazz) == Some(a[i])
  {
    if i > 0 {
      GetFromArrayFirst(a[1..], classOf, clazz, i - 1);
    }
  }

  /** getFromArray is the head of filterFromArray. */
  lemma {:induction false} GetIsHeadOfFilter<T(!new), C>(a: seq<T>, classOf: T -> C, clazz: C)
    ensures var f := FilterFromArray(a, classOf, clazz);
            GetFromArray(a, classOf, clazz) == if f == [] then None else Some(f[0])
  {
    if a != [] {
      GetIsHeadOfFilter(a[1..], classOf, clazz);
    }
  }
}
