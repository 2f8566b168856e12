/** `containsExactlyInAnyOrder`: two nullable collections match when both are
    present, of the same size, and each contains all elements of the other.
    A collection is the `seq` of its elements in iteration order (a set's
    sequence has no duplicates), so its size is the sequence's length. */
module CollectionUtils {
  import opened CacheTypes

  /** `Collection.containsAll(other)`. */
  predicate ContainsAll<T(==)>(c: seq<T>, other: seq<T>) {
    forall x :: x in other ==> x in c
  }

  /** `Collection<T>?.containsExactlyInAnyOrder(other: Collection<T>?)`. */
  function ContainsExactlyInAnyOrder<T(==)>(source: Option<seq<T>>, other: Option<seq<T>>): (r: bool)
    ensures r <==> source.Some? && other.Some? && |source.value| == |other.value| &&
                   (forall x :: x in source.value ==> x in other.value) &&
                   (forall x :: x in other.value ==> x in source.value)
  {
    if source.None? then false
    else if other.None? then false
    else if |source.value| != |other.value| then false
    else if !ContainsAll(source.value, other.value) then false
    else if !ContainsAll(other.value, source.value) then false
    else true
  }

  /** A null on either side, or different sizes, never match. */
  lemma NullOrSizeMismatch<T>(source: Option<seq<T>>, other: Option<seq<T>>)
    requires source.None? || other.None? || |source.value| != |other.value|
    ensures !ContainsExactlyInAnyOrder(source, other)
  {
  }

  /** Every non-null collection matches itself. */
  lemma Reflexive<T>(c: seq<T>)
    ensures ContainsExactlyInAnyOrder(Some(c), Some(c))
  {
  }

  /** The comparison does not depend on which side is the receiver. */
  lemma Symmetric<T>(source: Option<seq<T>>, other: Option<seq<T>>)
    ensures ContainsExactlyInAnyOrder(source, other) == ContainsExactlyInAnyOrder(other, source)
  {
  }

  /** Order does not matter: a permutation matches the original. */
  lemma {:induction false} PermutationMatches<T>(source: seq<T>, other: seq<T>)
    requires multiset(source) == multiset(other)
    ensures ContainsExactlyInAnyOrder(Some(source), Some(other))
  {
    assert |source| == |multiset(source)| == |multiset(other)| == |other|;
    forall x | x in source ensures x in other {
      assert x in multiset(source);
    }
    forall x | x in other ensures x in source {
      assert x in multiset(other);
    }
  }

  /** Multiplicities are not compared: two lists of the same size over the same
      elements match even when they are not permutations of each other. */
  lemma MultiplicitiesIgnored()
    ensures ContainsExactlyInAnyOrder(Some([1, 1, 2]), Some([1, 2, 2]))
    ensures multiset([1, 1, 2]) != multiset([1, 2, 2])
  {
    assert multiset([1, 1, 2])[1] == 2;
    assert multiset([1, 2, 2])[1] == 1;
  }

  /** `Arrays.asList` of a nullable array. */
  function AsList<T>(a: array?<T>): Option<seq<T>>
    reads a
  {
    if a == null then None else Some(a[..])
  }

  /** `Array<T>?.containsExactlyInAnyOrder(other: Array<T>?)`: the two arrays
      are present, of the same length, and contain the same elements. */
  function ArraysContainExactlyInAnyOrder<T(==)>(source: array?<T>, other: array?<T>): (r: bool)
    reads source, other
    ensures r <==> source != null && other != null && source.Length == other.Length &&
                   (forall i :: 0 <= i < source.Length ==> source[i] in other[..]) &&
                   (forall i :: 0 <= i < other.Length ==> other[i] in source[..])
  {
    ContainsExactlyInAnyOrder(AsList(source), AsList(other))
  }

  /** `Iterable<T>?.containsExactlyInAnyOrder(other: Array<T>?)`. */
  function IterableArrayContainExactlyInAnyOrder<T(==)>(source: Option<seq<T>>, other: array?<T>): (r: bool)
    reads other
    ensures r <==> source.Some? && other != null && |source.value| == other.Length &&
                   (forall x :: x in source.value ==> x in other[..]) &&
                   (forall i :: 0 <= i < other.Length ==> other[i] in source.value)
  {
    ContainsExactlyInAnyOrder(source, AsList(other))
  }

  /** `Array<T>?.containsExactlyInAnyOrder(other: Iterable<T>?)`. */
  function ArrayIterableContainExactlyInAnyOrder<T(==)>(source: array?<T>, other: Option<seq<T>>): (r: bool)
    reads source
    ensures r <==> source != null && other.Some? && source.Length == |other.value| &&
                   (forall i :: 0 <= i < source.Length ==> source[i] in other.value) &&
                   (forall x :: x in other.value ==> x in source[..])
  {
    ContainsExactlyInAnyOrder(AsList(source), other)
  }

  /** Reordering an array's elements keeps it matching the original. */
  lemma ArrayPermutationMatches<T>(source: array<T>, other: array<T>)
    requires multiset(source[..]) == multiset(other[..])
    ensures ArraysContainExactlyInAnyOrder(source, other)
  {
    PermutationMatches(source[..], other[..]);
  }
}
