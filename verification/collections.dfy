/** Sequence and map vocabulary shared by the task-driver walks and the cancel-request consolidation. */
module Collections {

  /** No element occurs twice. */
  predicate Distinct<T(==)>(s: seq<T>)
  {
    forall i, j :: 0 <= i < j < |s| ==> s[i] != s[j]
  }

  /** No element of `s` is a key of `m`. */
  predicate NoneIn<K, V>(s: seq<K>, m: map<K, V>)
  {
    forall x :: x in s ==> x !in m
  }

  /** `big` holds every entry of `small`, with the same value. */
  predicate Extends<K, V(==)>(big: map<K, V>, small: map<K, V>)
  {
    forall x :: x in small ==> x in big && big[x] == small[x]
  }

  function Elems<T>(s: seq<T>): set<T>
  {
    set x | x in s
  }

  lemma NoneInAppend<K, V>(a: seq<K>, b: seq<K>, m: map<K, V>)
    ensures NoneIn(a + b, m) <==> NoneIn(a, m) && NoneIn(b, m)
  {
    if NoneIn(a, m) && NoneIn(b, m) {
      forall x | x in a + b
        ensures x !in m
      {
        if x !in a {
          assert x in b;
        }
      }
    }
  }

  /** The keys of a list of entries, in order. */
  function KeysOf<K, V>(e: seq<(K, V)>): (r: seq<K>)
    ensures |r| == |e| && forall i :: 0 <= i < |e| ==> r[i] == e[i].0
  {
    seq(|e|, i requires 0 <= i < |e| => e[i].0)
  }

  lemma KeysOfAppend<K, V>(a: seq<(K, V)>, b: seq<(K, V)>)
    ensures KeysOf(a + b) == KeysOf(a) + KeysOf(b)
  {
    assert forall i :: 0 <= i < |a + b| ==> KeysOf(a + b)[i] == (KeysOf(a) + KeysOf(b))[i];
  }

  /** Every entry of `e` is in `m`, with its value. */
  predicate EntriesIn<K, V(==)>(e: seq<(K, V)>, m: map<K, V>)
  {
    forall i :: 0 <= i < |e| ==> e[i].0 in m && m[e[i].0] == e[i].1
  }

  lemma DistinctAppend<T>(a: seq<T>, b: seq<T>)
    ensures Distinct(a + b) <==> Distinct(a) && Distinct(b) && (forall x :: x in a ==> x !in b)
  {
    var s := a + b;
    if Distinct(s) {
      forall i, j | 0 <= i < j < |a|
        ensures a[i] != a[j]
      {
        assert s[i] == a[i] && s[j] == a[j];
      }
      forall i, j | 0 <= i < j < |b|
        ensures b[i] != b[j]
      {
        assert s[|a| + i] == b[i] && s[|a| + j] == b[j];
      }
      forall i, j | 0 <= i < |a| && 0 <= j < |b|
        ensures a[i] != b[j]
      {
        assert s[i] == a[i] && s[|a| + j] == b[j];
      }
    }
    if Distinct(a) && Distinct(b) && (forall x :: x in a ==> x !in b) {
      forall i, j | 0 <= i < j < |s|
        ensures s[i] != s[j]
      {
        if i >= |a| {
          assert s[i] == b[i - |a|] && s[j] == b[j - |a|];
        } else if j >= |a| {
          assert s[i] == a[i] && a[i] in a;
          assert s[j] == b[j - |a|] && b[j - |a|] in b;
        } else {
          assert s[i] == a[i] && s[j] == a[j];
        }
      }
    }
  }
}
