/** Sequence helpers behind JavaScript's `Array.prototype.filter` and the stable
    `Array.prototype.sort` with a numeric comparator. */
module Lists {

  /** `key` never decreases along `s`. */
  predicate SortedBy<T>(s: seq<T>, key: T -> real)
  {
    forall i, j :: 0 <= i < j < |s| ==> key(s[i]) <= key(s[j])
  }

  /** The elements of `s` that satisfy `keep`, in their original order. */
  function Filter<T(!new)>(s: seq<T>, keep: T -> bool): (r: seq<T>)
    ensures forall x :: x in r ==> keep(x)
    ensures forall x :: multiset(r)[x] == if keep(x) then multiset(s)[x] else 0
    ensures |r| <= |s|
  {
    if s == [] then []
    else
      var rest := Filter(s[1..], keep);
      assert s == [s[0]] + s[1..];
      if keep(s[0]) then [s[0]] + rest else rest
  }

  /** Filtering keeps the relative order, so a sorted sequence stays sorted. */
  lemma {:induction false} FilterKeepsSorted<T(!new)>(s: seq<T>, keep: T -> bool, key: T -> real)
    requires SortedBy(s, key)
    ensures SortedBy(Filter(s, keep), key)
  {
    if s != [] {
      FilterKeepsSorted(s[1..], keep, key);
      var rest := Filter(s[1..], keep);
      if keep(s[0]) {
        forall j | 0 <= j < |rest| ensures key(s[0]) <= key(rest[j]) {
          assert rest[j] in multiset(rest);
          assert rest[j] in s[1..];
        }
      }
    }
  }

  /** The tail of a sorted sequence is sorted. */
  lemma SortedTail<T>(s: seq<T>, key: T -> real)
    requires SortedBy(s, key) && s != []
    ensures SortedBy(s[1..], key)
  {
    forall i, j | 0 <= i < j < |s| - 1 ensures key(s[1..][i]) <= key(s[1..][j]) {
      assert s[1..][i] == s[i + 1] && s[1..][j] == s[j + 1];
    }
  }

  /** Putting an element no larger than any of a sorted sequence in front keeps it sorted. */
  lemma SortedCons<T>(x: T, s: seq<T>, key: T -> real)
    requires SortedBy(s, key)
    requires forall j :: 0 <= j < |s| ==> key(x) <= key(s[j])
    ensures SortedBy([x] + s, key)
  {
    var r := [x] + s;
    forall i, j | 0 <= i < j < |r| ensures key(r[i]) <= key(r[j]) {
      assert r[j] == s[j - 1];
      if i > 0 {
        assert r[i] == s[i - 1];
      }
    }
  }

  /** Puts `x` in front of the first element whose key is not smaller; ties keep `x` first. */
  function InsertBy<T>(x: T, s: seq<T>, key: T -> real): (r: seq<T>)
    ensures multiset(r) == multiset(s) + multiset{x}
  {
    if s == [] || key(x) <= key(s[0]) then [x] + s
    else
      assert s == [s[0]] + s[1..];
      [s[0]] + InsertBy(x, s[1..], key)
  }

  /** Inserting into a sorted sequence keeps it sorted. */
  lemma {:induction false} InsertByKeepsSorted<T>(x: T, s: seq<T>, key: T -> real)
    requires SortedBy(s, key)
    ensures SortedBy(InsertBy(x, s, key), key)
  {
    if s == [] || key(x) <= key(s[0]) {
      forall j | 0 <= j < |s| ensures key(x) <= key(s[j]) {
        if j > 0 {
          assert key(s[0]) <= key(s[j]);
        }
      }
      SortedCons(x, s, key);
    } else {
      SortedTail(s, key);
      InsertByKeepsSorted(x, s[1..], key);
      var rest := InsertBy(x, s[1..], key);
      forall j | 0 <= j < |rest| ensures key(s[0]) <= key(rest[j]) {
        assert rest[j] in multiset(rest);
        if rest[j] != x {
          assert rest[j] in s[1..];
          var i :| 0 <= i < |s[1..]| && s[1..][i] == rest[j];
          assert s[i + 1] == rest[j];
        }
      }
      SortedCons(s[0], rest, key);
    }
  }

  /** Insertion sort by `key`: sorted, a permutation of `s`, and stable. */
  function SortBy<T>(s: seq<T>, key: T -> real): (r: seq<T>)
    ensures SortedBy(r, key)
    ensures multiset(r) == multiset(s)
  {
    if s == [] then []
    else
      var sortedTail := SortBy(s[1..], key);
      InsertByKeepsSorted(s[0], sortedTail, key);
      assert s == [s[0]] + s[1..];
      InsertBy(s[0], sortedTail, key)
  }

  /** Sorting a sequence that is already sorted changes nothing: equal keys keep their places. */
  lemma {:induction false} SortBySortedIsIdentity<T>(s: seq<T>, key: T -> real)
    requires SortedBy(s, key)
    ensures SortBy(s, key) == s
  {
    if s != [] {
      SortBySortedIsIdentity(s[1..], key);
      assert s == [s[0]] + s[1..];
    }
  }

  /** The test "has key `k`". */
  function HasKey<T>(key: T -> real, k: real): T -> bool
  {
    (y: T) => key(y) == k
  }

  /** `Filter` on a sequence with a given head. */
  lemma FilterCons<T(!new)>(x: T, s: seq<T>, keep: T -> bool)
    ensures Filter([x] + s, keep) == if keep(x) then [x] + Filter(s, keep) else Filter(s, keep)
  {
    assert ([x] + s)[1..] == s;
  }

  /** One step of insertion past a head `h`: when `h` and `x` are not both kept, filtering
      commutes with putting `h` back in front. */
  lemma FilterPastHead<T(!new)>(h: T, x: T, rest: seq<T>, tail: seq<T>, keep: T -> bool)
    requires !(keep(h) && keep(x))
    requires Filter(rest, keep) == if keep(x) then [x] + Filter(tail, keep) else Filter(tail, keep)
    ensures Filter([h] + rest, keep) == if keep(x) then [x] + Filter([h] + tail, keep) else Filter([h] + tail, keep)
  {
    FilterCons(h, rest, keep);
    FilterCons(h, tail, keep);
  }

  /** Inserting `x` leaves the elements of each key in their relative order, with `x` ahead
      of those sharing its key. */
  lemma {:induction false} InsertByIsStable<T(!new)>(x: T, s: seq<T>, key: T -> real, k: real)
    ensures Filter(InsertBy(x, s, key), HasKey(key, k)) ==
      if key(x) == k then [x] + Filter(s, HasKey(key, k)) else Filter(s, HasKey(key, k))
  {
    if s == [] || key(x) <= key(s[0]) {
      FilterCons(x, s, HasKey(key, k));
    } else {
      var tail := s[1..];
      assert s == [s[0]] + tail;
      assert InsertBy(x, s, key) == [s[0]] + InsertBy(x, tail, key);
      InsertByIsStable(x, tail, key, k);
      FilterPastHead(s[0], x, InsertBy(x, tail, key), tail, HasKey(key, k));
    }
  }

  /** The sort is stable: the elements sharing any one key come out in the order they went in. */
  lemma {:induction false} SortByIsStable<T(!new)>(s: seq<T>, key: T -> real, k: real)
    ensures Filter(SortBy(s, key), HasKey(key, k)) == Filter(s, HasKey(key, k))
  {
    if s != [] {
      var same := HasKey(key, k);
      var sortedTail := SortBy(s[1..], key);
      SortByIsStable(s[1..], key, k);
      InsertByIsStable(s[0], sortedTail, key, k);
      assert SortBy(s, key) == InsertBy(s[0], sortedTail, key);
      assert Filter(s, same) == if same(s[0]) then [s[0]] + Filter(s[1..], same) else Filter(s[1..], same);
    }
  }
}
