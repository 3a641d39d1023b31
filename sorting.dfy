/** Python's `sorted`, as a stable insertion sort under a total preorder. */
module Sorting {

  ghost predicate TotalPreorder<T(!new)>(le: (T, T) -> bool) {
    && (forall a, b :: le(a, b) || le(b, a))
    && (forall a, b, c :: le(a, b) && le(b, c) ==> le(a, c))
  }

  predicate Sorted<T>(s: seq<T>, le: (T, T) -> bool) {
    forall i, j :: 0 <= i < j < |s| ==> le(s[i], s[j])
  }

  /** Inserts `x` after every element not greater than it. */
  function Insert<T>(x: T, s: seq<T>, le: (T, T) -> bool): (r: seq<T>)
    ensures |r| == |s| + 1
    ensures multiset(r) == multiset(s) + multiset{x}
    decreases |s|
  {
    if |s| == 0 then [x]
    else if le(s[|s| - 1], x) then s + [x]
    else
      var r := Insert(x, s[..|s| - 1], le) + [s[|s| - 1]];
      assert s[..|s| - 1] + [s[|s| - 1]] == s;
      r
  }

  function SortBy<T>(s: seq<T>, le: (T, T) -> bool): (r: seq<T>)
    ensures |r| == |s|
    ensures multiset(r) == multiset(s)
    decreases |s|
  {
    if |s| == 0 then []
    else
      var r := Insert(s[|s| - 1], SortBy(s[..|s| - 1], le), le);
      assert s[..|s| - 1] + [s[|s| - 1]] == s;
      r
  }

  lemma {:induction false} InsertSorted<T(!new)>(x: T, s: seq<T>, le: (T, T) -> bool)
    requires TotalPreorder(le) && Sorted(s, le)
    ensures Sorted(Insert(x, s, le), le)
    decreases |s|
  {
    if |s| > 0 {
      var last := s[|s| - 1];
      if le(last, x) {
        var r := s + [x];
        forall i, j | 0 <= i < j < |r| ensures le(r[i], r[j]) {
          if j == |s| && i < |s| - 1 {
            assert le(s[i], last);
          }
        }
      } else {
        assert le(x, last);
        var front := s[..|s| - 1];
        InsertSorted(x, front, le);
        var ins := Insert(x, front, le);
        var r := ins + [last];
        forall k | 0 <= k < |ins| ensures le(ins[k], last) {
          assert ins[k] in multiset(ins);
          if ins[k] != x {
            assert ins[k] in multiset(front);
            var m :| 0 <= m < |front| && front[m] == ins[k];
            assert le(s[m], s[|s| - 1]);
          }
        }
        forall i, j | 0 <= i < j < |r| ensures le(r[i], r[j]) {
          if j < |ins| {
            assert le(ins[i], ins[j]);
          }
        }
      }
    }
  }

  /** The result of `SortBy` is ordered by `le`. */
  lemma {:induction false} SortBySorted<T(!new)>(s: seq<T>, le: (T, T) -> bool)
    requires TotalPreorder(le)
    ensures Sorted(SortBy(s, le), le)
    decreases |s|
  {
    if |s| > 0 {
      SortBySorted(s[..|s| - 1], le);
      InsertSorted(s[|s| - 1], SortBy(s[..|s| - 1], le), le);
    }
  }
}
