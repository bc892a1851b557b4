/**
 Metric keys: a name plus an ordered list of (key, value) labels. The registry
 stores streams in ordered maps keyed by `Key`, and the worker walks those maps
 in ascending key order; this module defines that order and the ascending
 enumeration of a set of keys.

 The order of `metrics::Key` itself belongs to the `metrics` crate, which is
 not part of this model. It is modelled as: by name, then by the label list,
 each compared lexicographically (strings by character, labels by key then
 value).
 */
module MetricKeys {
  import opened Lexicographic

  datatype KeyLabel = KeyLabel(key: string, value: string)

  datatype Key = Key(name: string, labels: seq<KeyLabel>)

  predicate CharLess(a: char, b: char) {
    a < b
  }

  predicate StrLess(a: string, b: string) {
    SeqLess(a, b, CharLess)
  }

  predicate LabelLess(a: KeyLabel, b: KeyLabel) {
    StrLess(a.key, b.key) || (a.key == b.key && StrLess(a.value, b.value))
  }

  predicate LabelsLess(a: seq<KeyLabel>, b: seq<KeyLabel>) {
    SeqLess(a, b, LabelLess)
  }

  /** The ordering of keys in the registry's ordered maps. */
  predicate KeyLess(a: Key, b: Key) {
    StrLess(a.name, b.name) || (a.name == b.name && LabelsLess(a.labels, b.labels))
  }

  lemma StrLessIsStrictTotalOrder()
    ensures StrictTotalOrder(StrLess)
  {
    assert StrictTotalOrder(CharLess);
    SeqLessIsStrictTotalOrder(CharLess, StrLess);
  }

  lemma LabelLessIsStrictTotalOrder()
    ensures StrictTotalOrder(LabelLess)
  {
    StrLessIsStrictTotalOrder();
  }

  lemma KeyLessIsStrictTotalOrder()
    ensures StrictTotalOrder(KeyLess)
  {
    StrLessIsStrictTotalOrder();
    LabelLessIsStrictTotalOrder();
    SeqLessIsStrictTotalOrder(LabelLess, LabelsLess);
  }

  /** `k` is the smallest key of `s`. */
  predicate IsLeast(k: Key, s: set<Key>) {
    k in s && forall j :: j in s && j != k ==> KeyLess(k, j)
  }

  lemma {:induction false} LeastExists(s: set<Key>)
    requires s != {}
    ensures exists k :: IsLeast(k, s)
    decreases |s|
  {
    KeyLessIsStrictTotalOrder();
    var x :| x in s;
    if s != {x} {
      LeastExists(s - {x});
      var m :| IsLeast(m, s - {x});
      if KeyLess(x, m) {
        forall j | j in s && j != x ensures KeyLess(x, j) {
          if j != m {
            assert KeyLess(m, j);
          }
        }
        assert IsLeast(x, s);
      } else {
        assert IsLeast(m, s);
      }
    } else {
      assert IsLeast(x, s);
    }
  }

  lemma LeastUnique(s: set<Key>)
    ensures forall k, k' :: IsLeast(k, s) && IsLeast(k', s) ==> k == k'
  {
    KeyLessIsStrictTotalOrder();
  }

  /** Each key of `keys` is strictly smaller than every key after it. */
  ghost predicate Ascending(keys: seq<Key>) {
    forall i, j :: 0 <= i < j < |keys| ==> KeyLess(keys[i], keys[j])
  }

  /** The keys of `s` in ascending order: the order in which the worker visits an ordered map. */
  function SortedKeys(s: set<Key>): (r: seq<Key>)
    ensures |r| == |s|
    ensures forall k :: k in r <==> k in s
    decreases |s|
  {
    if s == {} then []
    else
      LeastExists(s);
      LeastUnique(s);
      var k :| IsLeast(k, s);
      [k] + SortedKeys(s - {k})
  }

  /** The enumeration is in strictly ascending key order. */
  lemma {:induction false} SortedKeysAscending(s: set<Key>)
    ensures Ascending(SortedKeys(s))
    decreases |s|
  {
    var r := SortedKeys(s);
    if s != {} {
      var k := r[0];
      assert IsLeast(k, s);
      assert r[1..] == SortedKeys(s - {k});
      SortedKeysAscending(s - {k});
      forall i, j | 0 <= i < j < |r| ensures KeyLess(r[i], r[j]) {
        if i > 0 {
          assert r[i] == r[1..][i - 1] && r[j] == r[1..][j - 1];
        } else {
          assert r[j] in s - {k};
        }
      }
    }
  }

  lemma KeyLessIrreflexive(k: Key)
    ensures !KeyLess(k, k)
  {
    KeyLessIsStrictTotalOrder();
  }

  /** Ascending order has no repeated keys. */
  lemma SortedKeysDistinct(s: set<Key>, i: nat, j: nat)
    requires i < j < |SortedKeys(s)|
    ensures SortedKeys(s)[i] != SortedKeys(s)[j]
  {
    SortedKeysAscending(s);
    KeyLessIrreflexive(SortedKeys(s)[i]);
  }
}
