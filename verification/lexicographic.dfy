/**
 Lexicographic ordering of sequences, the ordering Rust's `Ord` gives to
 strings, slices and vectors: elements are compared left to right, the first
 unequal pair decides, and a proper prefix is smaller than the sequence it
 prefixes.
 */
module Lexicographic {

  /** `less` is a strict total order: irreflexive, transitive and connected. */
  ghost predicate StrictTotalOrder<T(!new)>(less: (T, T) -> bool) {
    && (forall x :: !less(x, x))
    && (forall x, y, z :: less(x, y) && less(y, z) ==> less(x, z))
    && (forall x, y :: x != y ==> less(x, y) || less(y, x))
  }

  /** `a` comes strictly before `b` in the lexicographic extension of `less`. */
  predicate SeqLess<T(==)>(a: seq<T>, b: seq<T>, less: (T, T) -> bool) {
    if |a| == 0 then |b| > 0
    else if |b| == 0 then false
    else less(a[0], b[0]) || (a[0] == b[0] && SeqLess(a[1..], b[1..], less))
  }

  lemma {:induction false} SeqLessIrreflexive<T(!new)>(a: seq<T>, less: (T, T) -> bool)
    requires StrictTotalOrder(less)
    ensures !SeqLess(a, a, less)
  {
    if |a| > 0 {
      SeqLessIrreflexive(a[1..], less);
    }
  }

  lemma {:induction false} SeqLessTransitive<T(!new)>(a: seq<T>, b: seq<T>, c: seq<T>, less: (T, T) -> bool)
    requires StrictTotalOrder(less)
    requires SeqLess(a, b, less) && SeqLess(b, c, less)
    ensures SeqLess(a, c, less)
  {
    if |a| > 0 && a[0] == b[0] && b[0] == c[0] {
      SeqLessTransitive(a[1..], b[1..], c[1..], less);
    }
  }

  lemma {:induction false} SeqLessConnected<T(!new)>(a: seq<T>, b: seq<T>, less: (T, T) -> bool)
    requires StrictTotalOrder(less)
    requires a != b
    ensures SeqLess(a, b, less) || SeqLess(b, a, less)
  {
    if |a| > 0 && |b| > 0 && a[0] == b[0] {
      assert a == [a[0]] + a[1..] && b == [b[0]] + b[1..];
      SeqLessConnected(a[1..], b[1..], less);
    }
  }

  /** The lexicographic extension of a strict total order is a strict total order. */
  lemma SeqLessIsStrictTotalOrder<T(!new)>(less: (T, T) -> bool, seqLess: (seq<T>, seq<T>) -> bool)
    requires StrictTotalOrder(less)
    requires forall a, b :: seqLess(a, b) == SeqLess(a, b, less)
    ensures StrictTotalOrder(seqLess)
  {
    forall a {
      SeqLessIrreflexive(a, less);
    }
    forall a, b, c | seqLess(a, b) && seqLess(b, c) ensures seqLess(a, c) {
      SeqLessTransitive(a, b, c, less);
    }
    forall a, b | a != b ensures seqLess(a, b) || seqLess(b, a) {
      SeqLessConnected(a, b, less);
    }
  }
}
