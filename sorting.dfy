/**
  Sorting by a comparator. Both sorts in the modelled code are library sorts:
  JavaScript's `Array.prototype.sort` with a numeric comparator and a SQL
  `ORDER BY`. They are modelled by one insertion sort whose contract is what
  both promise: the result is ordered and is a permutation of the input.
 */
module Sorting {

  /** `leq` is total and transitive, as every comparison on a single key is. */
  ghost predicate TotalPreorder<T(!new)>(leq: (T, T) -> bool) {
    && (forall a, b :: leq(a, b) || leq(b, a))
    && (forall a, b, c :: leq(a, b) && leq(b, c) ==> leq(a, c))
  }

  ghost predicate Sorted<T>(s: seq<T>, leq: (T, T) -> bool) {
    forall i, j :: 0 <= i < j < |s| ==> leq(s[i], s[j])
  }

  /** Places `x` in front of the first element that is strictly greater. */
  function Insert<T(!new)>(x: T, s: seq<T>, leq: (T, T) -> bool): (r: seq<T>)
    requires TotalPreorder(leq) && Sorted(s, leq)
    ensures |r| == |s| + 1
    ensures multiset(r) == multiset(s) + multiset{x}
    ensures Sorted(r, leq)
  {
    if s == [] then [x]
    else if !leq(s[0], x) then
      assert s == [s[0]] + s[1..];
      [x] + s
    else
      var tail := Insert(x, s[1..], leq);
      assert s == [s[0]] + s[1..];
      assert forall k :: 0 <= k < |tail| ==> leq(s[0], tail[k]) by {
        forall k | 0 <= k < |tail| ensures leq(s[0], tail[k]) {
          assert tail[k] in multiset(tail);
          if tail[k] != x {
            assert tail[k] in multiset(s[1..]);
            var m :| 0 <= m < |s[1..]| && s[1..][m] == tail[k];
            assert s[1 + m] == tail[k];
          }
        }
      }
      [s[0]] + tail
  }

  /** Insertion sort; it keeps equal elements in their input order. */
  function SortBy<T(!new)>(s: seq<T>, leq: (T, T) -> bool): (r: seq<T>)
    requires TotalPreorder(leq)
    ensures |r| == |s|
    ensures multiset(r) == multiset(s)
    ensures Sorted(r, leq)
  {
    if s == [] then []
    else
      assert s == s[..|s| - 1] + [s[|s| - 1]];
      Insert(s[|s| - 1], SortBy(s[..|s| - 1], leq), leq)
  }

  /** Code-point lexicographic order on strings (SQL collation is not modelled). */
  predicate LexLeq(a: string, b: string) {
    if a == [] then true
    else if b == [] then false
    else a[0] < b[0] || (a[0] == b[0] && LexLeq(a[1..], b[1..]))
  }

  lemma {:induction false} LexLeqTotal(a: string, b: string)
    ensures LexLeq(a, b) || LexLeq(b, a)
  {
    if a != [] && b != [] && a[0] == b[0] {
      LexLeqTotal(a[1..], b[1..]);
    }
  }

  lemma {:induction false} LexLeqTransitive(a: string, b: string, c: string)
    requires LexLeq(a, b) && LexLeq(b, c)
    ensures LexLeq(a, c)
  {
    if a != [] && b != [] && c != [] && a[0] == b[0] && b[0] == c[0] {
      LexLeqTransitive(a[1..], b[1..], c[1..]);
    }
  }

  /** Comparing two records through a string key is a total preorder. */
  lemma LexKeyIsTotalPreorder<T(!new)>(key: T -> string)
    ensures TotalPreorder((x: T, y: T) => LexLeq(key(x), key(y)))
  {
    forall a: T, b: T {
      LexLeqTotal(key(a), key(b));
    }
    forall a: T, b: T, c: T | LexLeq(key(a), key(b)) && LexLeq(key(b), key(c)) {
      LexLeqTransitive(key(a), key(b), key(c));
    }
  }
}
