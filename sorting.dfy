/** Sorting by a string key under an abstract total preorder: the model of
    `sort { $0.name.localizedCaseInsensitiveCompare($1.name) == .orderedAscending }`,
    whose locale-dependent comparison is represented by `le(a, b)`, read as
    "a does not compare as descending against b". */
module Sorting {

  ghost predicate TotalPreorder(le: (string, string) -> bool) {
    && (forall a, b :: le(a, b) || le(b, a))
    && (forall a, b, c :: le(a, b) && le(b, c) ==> le(a, c))
  }

  predicate SortedBy<T>(s: seq<T>, key: T -> string, le: (string, string) -> bool) {
    forall i, j :: 0 <= i < j < |s| ==> le(key(s[i]), key(s[j]))
  }

  /** Inserts `x` in front of the first element it does not come after. */
  function Insert<T>(x: T, s: seq<T>, key: T -> string, le: (string, string) -> bool): (r: seq<T>)
    requires TotalPreorder(le) && SortedBy(s, key, le)
    ensures SortedBy(r, key, le)
    ensures multiset(r) == multiset(s) + multiset{x}
    ensures |r| == |s| + 1
  {
    if s == [] then [x]
    else if le(key(x), key(s[0])) then [x] + s
    else
      var tail := Insert(x, s[1..], key, le);
      assert s == [s[0]] + s[1..];
      BoundCarriesOver(s[0], s[1..], x, tail, key, le);
      [s[0]] + tail
  }

  /** An element that comes before `x` and before every element of `rest`
      comes before every element of a permutation of `rest` with `x` added. */
  lemma BoundCarriesOver<T>(h: T, rest: seq<T>, x: T, tail: seq<T>, key: T -> string, le: (string, string) -> bool)
    requires TotalPreorder(le) && !le(key(x), key(h))
    requires forall k :: 0 <= k < |rest| ==> le(key(h), key(rest[k]))
    requires multiset(tail) == multiset(rest) + multiset{x}
    ensures forall k :: 0 <= k < |tail| ==> le(key(h), key(tail[k]))
  {
    forall k | 0 <= k < |tail|
      ensures le(key(h), key(tail[k]))
    {
      assert tail[k] in multiset(tail);
      if tail[k] != x {
        assert tail[k] in multiset(rest);
        var m :| 0 <= m < |rest| && rest[m] == tail[k];
      }
    }
  }

  /** Insertion sort: the result is ordered by the key and a permutation of the input. */
  function SortBy<T>(s: seq<T>, key: T -> string, le: (string, string) -> bool): (r: seq<T>)
    requires TotalPreorder(le)
    ensures SortedBy(r, key, le)
    ensures multiset(r) == multiset(s)
    ensures |r| == |s|
  {
    if s == [] then []
    else
      assert s == [s[0]] + s[1..];
      Insert(s[0], SortBy(s[1..], key, le), key, le)
  }
}
