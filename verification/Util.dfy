/** Small notions every other module uses: optional values, finite-map lookups and Go's string order. */
module Util {

  datatype Option<+T> = None | Some(value: T)

  function Get<K, V>(m: map<K, V>, k: K): Option<V> {
    if k in m then Some(m[k]) else None
  }

  /** Every entry of `a` is an entry of `b`. */
  predicate SubMap<K, V(==)>(a: map<K, V>, b: map<K, V>) {
    forall k :: k in a ==> k in b && b[k] == a[k]
  }

  ghost predicate NoDup<T>(s: seq<T>) {
    forall i, j :: 0 <= i < j < |s| ==> s[i] != s[j]
  }

  lemma {:induction false} MapsEqual<K, V>(a: map<K, V>, b: map<K, V>)
    requires forall k :: Get(a, k) == Get(b, k)
    ensures a == b
  {
    assert forall k :: k in a ==> Get(a, k) == Get(b, k) && k in b && a[k] == b[k];
    assert forall k :: k in b ==> Get(a, k) == Get(b, k) && k in a;
  }

  lemma ConcatAssociates<T>(a: seq<T>, b: seq<T>, c: seq<T>)
    ensures a + (b + c) == (a + b) + c
  {
  }

  /** Go compares strings byte by byte; on UTF-8 that is the order of the code points. */
  predicate LexLess(a: string, b: string) {
    b != "" && (a == "" || a[0] < b[0] || (a[0] == b[0] && LexLess(a[1..], b[1..])))
  }

  lemma {:induction false} LexTrichotomy(a: string, b: string)
    ensures a == b || LexLess(a, b) || LexLess(b, a)
    ensures !(LexLess(a, b) && LexLess(b, a))
    decreases |a| + |b|
  {
    if a == "" || b == "" {
    } else {
      LexTrichotomy(a[1..], b[1..]);
      if a[0] == b[0] && a[1..] == b[1..] {
        assert a == [a[0]] + a[1..] == [b[0]] + b[1..] == b;
      }
    }
  }

  /** Up to position `i` the strings agree, and there `a` has the smaller character. */
  predicate SmallerAt(a: string, b: string, i: int) {
    0 <= i < |a| && i < |b| && a[i] < b[i] && forall j :: 0 <= j < i ==> a[j] == b[j]
  }

  /** The first difference decides; a proper prefix comes first. */
  lemma {:induction false} LexLessIff(a: string, b: string)
    ensures LexLess(a, b) <==> a < b || exists i :: SmallerAt(a, b, i)
    decreases |a|
  {
    if a == "" || b == "" {
    } else if a[0] != b[0] {
      assert a[0] < b[0] ==> SmallerAt(a, b, 0);
      assert forall i :: SmallerAt(a, b, i) ==> i == 0;
    } else {
      var s, t := a[1..], b[1..];
      assert a == [a[0]] + s && b == [b[0]] + t;
      LexLessIff(s, t);
      forall i | SmallerAt(a, b, i) ensures SmallerAt(s, t, i - 1) {
        assert forall j :: 0 <= j < i - 1 ==> s[j] == a[j + 1] && t[j] == b[j + 1];
      }
      forall i | SmallerAt(s, t, i) ensures SmallerAt(a, b, i + 1) {
        assert forall j :: 0 < j < i + 1 ==> a[j] == s[j - 1] && b[j] == t[j - 1];
      }
      if i :| SmallerAt(a, b, i) {
        assert SmallerAt(s, t, i - 1);
      }
      if i :| SmallerAt(s, t, i) {
        assert SmallerAt(a, b, i + 1);
      }
      assert a < b <==> s < t;
    }
  }

  lemma {:induction false} LexTransitive(a: string, b: string, c: string)
    requires LexLess(a, b) && LexLess(b, c)
    ensures LexLess(a, c)
    decreases |a|
  {
    if a != "" && a[0] == b[0] == c[0] {
      LexTransitive(a[1..], b[1..], c[1..]);
    }
  }
}
