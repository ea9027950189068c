/**
 * The list operations the pages build on: `Array.prototype.filter`, the
 * stable `sort` with a key comparator, the add-or-remove toggle used for
 * wish lists and favourites, and the "first k chips, then +n more" display.
 */
module Lists {
  import opened Optional
  import opened Text

  /** `s.filter(p)`. */
  function Filter<T>(s: seq<T>, p: T -> bool): (r: seq<T>)
    ensures |r| <= |s|
    ensures forall i :: 0 <= i < |r| ==> p(r[i])
  {
    if s == [] then [] else (if p(s[0]) then [s[0]] else []) + Filter(s[1..], p)
  }

  /** The filtered list holds exactly the elements that pass the test. */
  lemma {:induction false} FilterMembers<T>(s: seq<T>, p: T -> bool)
    ensures forall x | x in Filter(s, p) :: x in s && p(x)
    ensures forall x | x in s && p(x) :: x in Filter(s, p)
  {
    if s != [] {
      FilterMembers(s[1..], p);
      assert s == [s[0]] + s[1..];
    }
  }

  /** `a` lists some of the elements of `b`, in the order `b` has them. */
  ghost predicate Subsequence<T>(a: seq<T>, b: seq<T>)
    decreases |b|
  {
    a == [] || (b != [] && ((a[0] == b[0] && Subsequence(a[1..], b[1..])) || Subsequence(a, b[1..])))
  }

  lemma {:induction false} SubsequenceOfSelf<T>(s: seq<T>)
    ensures Subsequence(s, s)
  {
    if s != [] {
      SubsequenceOfSelf(s[1..]);
    }
  }

  /** A subsequence holds each element at most as often as the whole. */
  lemma {:induction false} SubsequenceMultiset<T>(a: seq<T>, b: seq<T>)
    requires Subsequence(a, b)
    ensures multiset(a) <= multiset(b)
    decreases |b|
  {
    if a != [] {
      assert b == [b[0]] + b[1..];
      if a[0] == b[0] && Subsequence(a[1..], b[1..]) {
        SubsequenceMultiset(a[1..], b[1..]);
        assert a == [a[0]] + a[1..];
      } else {
        SubsequenceMultiset(a, b[1..]);
      }
    }
  }

  lemma {:induction false} SubsequenceAppendRight<T>(a: seq<T>, b: seq<T>, x: T)
    requires Subsequence(a, b)
    ensures Subsequence(a, b + [x])
    decreases |b|
  {
    if a != [] {
      assert (b + [x])[1..] == b[1..] + [x];
      if a[0] == b[0] && Subsequence(a[1..], b[1..]) {
        SubsequenceAppendRight(a[1..], b[1..], x);
      } else {
        SubsequenceAppendRight(a, b[1..], x);
      }
    }
  }

  lemma {:induction false} SubsequenceLast<T>(b: seq<T>, x: T)
    ensures Subsequence([x], b + [x])
    decreases |b|
  {
    if b == [] {
      assert Subsequence([x][1..], []);
    } else {
      SubsequenceLast(b[1..], x);
      assert (b + [x])[1..] == b[1..] + [x];
    }
  }

  /** Extending both sequences by the same element keeps one a subsequence of the other. */
  lemma {:induction false} SubsequenceAppendBoth<T>(a: seq<T>, b: seq<T>, x: T)
    requires Subsequence(a, b)
    ensures Subsequence(a + [x], b + [x])
    decreases |b|
  {
    if a == [] {
      SubsequenceLast(b, x);
      assert a + [x] == [x];
    } else {
      assert (b + [x])[1..] == b[1..] + [x];
      assert (a + [x])[0] == a[0] && (a + [x])[1..] == a[1..] + [x];
      if a[0] == b[0] && Subsequence(a[1..], b[1..]) {
        SubsequenceAppendBoth(a[1..], b[1..], x);
      } else {
        SubsequenceAppendBoth(a, b[1..], x);
      }
    }
  }

  /** The elements of `s` come in strictly increasing order of `key`. */
  predicate StrictlyIncreasing<T>(s: seq<T>, key: T -> int)
  {
    forall i, j :: 0 <= i < j < |s| ==> key(s[i]) < key(s[j])
  }

  /** Dropping elements from a strictly increasing list leaves it strictly increasing. */
  lemma {:induction false} SubsequenceIncreasing<T>(a: seq<T>, b: seq<T>, key: T -> int)
    requires Subsequence(a, b) && StrictlyIncreasing(b, key)
    ensures StrictlyIncreasing(a, key)
    decreases |b|
  {
    if a != [] {
      if a[0] == b[0] && Subsequence(a[1..], b[1..]) {
        SubsequenceIncreasing(a[1..], b[1..], key);
        SubsequenceMultiset(a[1..], b[1..]);
        forall j | 0 < j < |a| ensures key(a[0]) < key(a[j]) {
          assert a[j] == a[1..][j - 1];
          assert a[j] in multiset(b[1..]);
          var k :| 0 <= k < |b[1..]| && b[1..][k] == a[j];
          assert b[k + 1] == a[j];
        }
      } else {
        SubsequenceIncreasing(a, b[1..], key);
      }
    }
  }

  /** `s.filter(x => x.id !== id)` with `key` reading the id: the elements with that id go, the rest stay in order. */
  function WithoutId<T>(s: seq<T>, key: T -> int, id: int): (r: seq<T>)
    ensures forall x | x in r :: x in s && key(x) != id
    ensures forall x | x in s && key(x) != id :: x in r
    ensures Subsequence(r, s)
  {
    var test := (x: T) => key(x) != id;
    FilterMembers(s, test);
    FilterIsSubsequence(s, test);
    Filter(s, test)
  }

  /**
   * Elements handed out by an id counter and removed by per-id timers:
   * their ids increase and lie below `next`, each still has its timer in
   * `due`, and every due timer is for an id already handed out.
   */
  predicate IdsTracked<T>(s: seq<T>, key: T -> int, next: int, due: set<int>)
  {
    StrictlyIncreasing(s, key) &&
    (forall i :: 0 <= i < |s| ==> key(s[i]) < next && key(s[i]) in due) &&
    (forall id | id in due :: id < next)
  }

  /** Appending an element with the next id, and scheduling its timer, keeps the ids tracked. */
  lemma IdsTrackedAppend<T>(s: seq<T>, key: T -> int, next: int, due: set<int>, x: T)
    requires IdsTracked(s, key, next, due) && key(x) == next
    ensures IdsTracked(s + [x], key, next + 1, due + {next})
  {
  }

  /** A timer removing its id keeps the ids tracked. */
  lemma IdsTrackedRemove<T>(s: seq<T>, key: T -> int, next: int, due: set<int>, id: int)
    requires IdsTracked(s, key, next, due)
    ensures IdsTracked(WithoutId(s, key, id), key, next, due - {id})
  {
    SubsequenceIncreasing(WithoutId(s, key, id), s, key);
  }

  lemma {:induction false} FilterIsSubsequence<T>(s: seq<T>, p: T -> bool)
    ensures Subsequence(Filter(s, p), s)
  {
    if s != [] {
      FilterIsSubsequence(s[1..], p);
      var r := Filter(s, p);
      if p(s[0]) {
        assert r == [s[0]] + Filter(s[1..], p);
        assert r[0] == s[0] && r[1..] == Filter(s[1..], p);
      } else {
        assert r == Filter(s[1..], p);
      }
    }
  }

  lemma {:induction false} FilterCons<T>(y: T, t: seq<T>, p: T -> bool)
    ensures Filter([y] + t, p) == (if p(y) then [y] else []) + Filter(t, p)
  {
    assert ([y] + t)[1..] == t;
  }

  /** A filter whose test every element passes keeps the list as it is. */
  lemma {:induction false} FilterKeepsAll<T>(s: seq<T>, p: T -> bool)
    requires forall i :: 0 <= i < |s| ==> p(s[i])
    ensures Filter(s, p) == s
  {
    if s != [] {
      FilterKeepsAll(s[1..], p);
    }
  }

  /** A filter whose test no element passes leaves nothing. */
  lemma {:induction false} FilterDropsAll<T>(s: seq<T>, p: T -> bool)
    requires forall i :: 0 <= i < |s| ==> !p(s[i])
    ensures Filter(s, p) == []
  {
    if s != [] {
      FilterDropsAll(s[1..], p);
    }
  }

  /** Filtering three lists joined, where only the middle one passes, gives the middle one. */
  lemma FilterMiddle<T>(a: seq<T>, b: seq<T>, c: seq<T>, p: T -> bool)
    requires forall i :: 0 <= i < |a| ==> !p(a[i])
    requires forall i :: 0 <= i < |b| ==> p(b[i])
    requires forall i :: 0 <= i < |c| ==> !p(c[i])
    ensures Filter(a + b + c, p) == b
  {
    FilterConcat(a + b, c, p);
    FilterConcat(a, b, p);
    FilterDropsAll(a, p);
    FilterKeepsAll(b, p);
    FilterDropsAll(c, p);
  }

  lemma {:induction false} FilterConcat<T>(a: seq<T>, b: seq<T>, p: T -> bool)
    ensures Filter(a + b, p) == Filter(a, p) + Filter(b, p)
  {
    if a == [] {
      assert a + b == b;
    } else {
      var x, t := a[0], a[1..];
      assert a == [x] + t;
      assert a + b == [x] + (t + b);
      FilterCons(x, t + b, p);
      FilterCons(x, t, p);
      FilterConcat(t, b, p);
    }
  }

  lemma {:induction false} FilterMultiset<T>(s: seq<T>, p: T -> bool)
    ensures multiset(Filter(s, p)) <= multiset(s)
  {
    if s != [] {
      FilterMultiset(s[1..], p);
      assert s == [s[0]] + s[1..];
    }
  }

  /** Two tests that agree on every element select the same elements. */
  lemma {:induction false} FilterSameTest<T>(s: seq<T>, p: T -> bool, q: T -> bool)
    requires forall i :: 0 <= i < |s| ==> p(s[i]) == q(s[i])
    ensures Filter(s, p) == Filter(s, q)
  {
    if s != [] {
      FilterSameTest(s[1..], p, q);
    }
  }

  // ---------------------------------------------------------------------
  // Stable sorting. Every comparator in the site is `(a, b) => key(a) - key(b)`
  // for an integer key; since ECMAScript 2019 `sort` is stable, so the model
  // is a stable insertion sort on that key.

  ghost predicate SortedBy<T>(s: seq<T>, key: T -> int)
  {
    forall i, j :: 0 <= i < j < |s| ==> key(s[i]) <= key(s[j])
  }

  /** Inserts `x` in front of the first element whose key is not smaller. */
  function Insert<T>(x: T, s: seq<T>, key: T -> int): (r: seq<T>)
    ensures |r| == |s| + 1
  {
    if s == [] || key(x) <= key(s[0]) then [x] + s else [s[0]] + Insert(x, s[1..], key)
  }

  /** Inserting adds exactly the one element. */
  lemma {:induction false} InsertPermutes<T>(x: T, s: seq<T>, key: T -> int)
    ensures multiset(Insert(x, s, key)) == multiset(s) + multiset{x}
  {
    if s != [] && key(x) > key(s[0]) {
      InsertPermutes(x, s[1..], key);
      assert s == [s[0]] + s[1..];
    }
  }

  /** `[...s].sort((a, b) => key(a) - key(b))`. */
  function SortBy<T>(s: seq<T>, key: T -> int): (r: seq<T>)
    ensures multiset(r) == multiset(s)
    ensures |r| == |s|
  {
    if s == [] then
      []
    else
      assert s == [s[0]] + s[1..];
      InsertPermutes(s[0], SortBy(s[1..], key), key);
      Insert(s[0], SortBy(s[1..], key), key)
  }

  lemma {:induction false} InsertSorted<T>(x: T, s: seq<T>, key: T -> int)
    requires SortedBy(s, key)
    ensures SortedBy(Insert(x, s, key), key)
  {
    if s == [] || key(x) <= key(s[0]) {
      PrependSorted(x, s, key);
    } else {
      var t := Insert(x, s[1..], key);
      InsertSorted(x, s[1..], key);
      InsertBounded(x, s[1..], key, key(s[0]));
      PrependSorted(s[0], t, key);
    }
  }

  lemma PrependSorted<T>(x: T, s: seq<T>, key: T -> int)
    requires SortedBy(s, key)
    requires forall k :: 0 <= k < |s| ==> key(x) <= key(s[k])
    ensures SortedBy([x] + s, key)
  {
    var r := [x] + s;
    forall i, j | 0 <= i < j < |r| ensures key(r[i]) <= key(r[j]) {
      assert r[j] == s[j - 1];
      if i > 0 {
        assert r[i] == s[i - 1];
      }
    }
  }

  /** Inserting keeps a lower bound that both the element and the list respect. */
  lemma {:induction false} InsertBounded<T>(x: T, s: seq<T>, key: T -> int, lo: int)
    requires lo <= key(x)
    requires forall k :: 0 <= k < |s| ==> lo <= key(s[k])
    ensures forall k :: 0 <= k < |Insert(x, s, key)| ==> lo <= key(Insert(x, s, key)[k])
  {
    var r := Insert(x, s, key);
    if s == [] || key(x) <= key(s[0]) {
      assert r == [x] + s;
      forall k | 0 <= k < |r| ensures lo <= key(r[k]) {
        if k > 0 {
          assert r[k] == s[k - 1];
        }
      }
    } else {
      var t := Insert(x, s[1..], key);
      InsertBounded(x, s[1..], key, lo);
      assert r == [s[0]] + t;
      forall k | 0 <= k < |r| ensures lo <= key(r[k]) {
        if k > 0 {
          assert r[k] == t[k - 1];
        }
      }
    }
  }

  /** The sorted copy is ordered by the key. */
  lemma {:induction false} SortBySorted<T>(s: seq<T>, key: T -> int)
    ensures SortedBy(SortBy(s, key), key)
  {
    if s != [] {
      SortBySorted(s[1..], key);
      InsertSorted(s[0], SortBy(s[1..], key), key);
    }
  }

  lemma {:induction false} InsertAfterSmaller<T>(x: T, a: seq<T>, b: seq<T>, key: T -> int)
    requires forall i :: 0 <= i < |a| ==> key(a[i]) < key(x)
    requires b == [] || key(x) <= key(b[0])
    ensures Insert(x, a + b, key) == a + [x] + b
  {
    if a == [] {
      assert a + b == b;
    } else {
      InsertAfterSmaller(x, a[1..], b, key);
      assert (a + b)[0] == a[0] && (a + b)[1..] == a[1..] + b;
      assert Insert(x, a + b, key) == [a[0]] + Insert(x, a[1..] + b, key);
      assert [a[0]] + (a[1..] + [x] + b) == a + [x] + b;
    }
  }

  lemma {:induction false} FilterInsertOtherKey<T>(x: T, s: seq<T>, key: T -> int, p: T -> bool)
    requires !p(x)
    ensures Filter(Insert(x, s, key), p) == Filter(s, p)
  {
    if s == [] || key(x) <= key(s[0]) {
      FilterCons(x, s, p);
    } else {
      FilterInsertOtherKey(x, s[1..], key, p);
      FilterCons(s[0], Insert(x, s[1..], key), p);
      FilterCons(s[0], s[1..], p);
      assert [s[0]] + s[1..] == s;
    }
  }

  lemma {:induction false} FilterInsertSameKey<T>(x: T, s: seq<T>, key: T -> int, p: T -> bool)
    requires p(x)
    requires forall y :: p(y) ==> key(y) == key(x)
    ensures Filter(Insert(x, s, key), p) == [x] + Filter(s, p)
  {
    if s == [] || key(x) <= key(s[0]) {
      FilterCons(x, s, p);
    } else {
      FilterInsertSameKey(x, s[1..], key, p);
      assert !p(s[0]);
      FilterCons(s[0], Insert(x, s[1..], key), p);
      FilterCons(s[0], s[1..], p);
      assert [s[0]] + s[1..] == s;
    }
  }

  /**
   * Stability: the elements that share one key value keep their relative
   * order. `p` selects the elements whose key is `v`.
   */
  lemma {:induction false} SortByStable<T>(s: seq<T>, key: T -> int, v: int, p: T -> bool)
    requires forall y :: p(y) <==> key(y) == v
    ensures Filter(SortBy(s, key), p) == Filter(s, p)
  {
    if s != [] {
      SortByStable(s[1..], key, v, p);
      if p(s[0]) {
        FilterInsertSameKey(s[0], SortBy(s[1..], key), key, p);
      } else {
        FilterInsertOtherKey(s[0], SortBy(s[1..], key), key, p);
      }
    }
  }

  /**
   * Sorting on a flag (`(b.f ? 1 : 0) - (a.f ? 1 : 0)`, i.e. key -1 for
   * flagged, 0 otherwise) puts every flagged element first and keeps the
   * order inside both groups.
   */
  lemma {:induction false} SortByFlagPartitions<T>(s: seq<T>, key: T -> int, p: T -> bool, q: T -> bool)
    requires forall y :: key(y) == (if p(y) then -1 else 0)
    requires forall y :: q(y) == !p(y)
    ensures SortBy(s, key) == Filter(s, p) + Filter(s, q)
    decreases |s|
  {
    if s != [] {
      SortByFlagPartitions(s[1..], key, p, q);
      PartitionStep(s[0], s[1..], key, p, q);
      assert [s[0]] + s[1..] == s;
    }
  }

  lemma {:induction false} PartitionStep<T>(x: T, t: seq<T>, key: T -> int, p: T -> bool, q: T -> bool)
    requires forall y :: key(y) == (if p(y) then -1 else 0)
    requires forall y :: q(y) == !p(y)
    ensures Insert(x, Filter(t, p) + Filter(t, q), key) == Filter([x] + t, p) + Filter([x] + t, q)
  {
    FilterCons(x, t, p);
    FilterCons(x, t, q);
    if p(x) {
      assert !q(x);
      PartitionStepFlagged(x, Filter(t, p), Filter(t, q), key, p);
    } else {
      assert q(x) && key(x) == 0;
      FilterKeys(t, key, p, -1);
      FilterKeys(t, key, q, 0);
      PartitionStepUnflagged(x, Filter(t, p), Filter(t, q), key);
    }
  }

  lemma {:induction false} PartitionStepFlagged<T>(x: T, a: seq<T>, b: seq<T>, key: T -> int, p: T -> bool)
    requires p(x)
    requires forall y :: key(y) == (if p(y) then -1 else 0)
    ensures Insert(x, a + b, key) == ([x] + a) + ([] + b)
  {
    FlaggedFirst(x, a + b, key, p);
    assert [x] + (a + b) == ([x] + a) + b;
    assert [] + b == b;
  }

  lemma {:induction false} PartitionStepUnflagged<T>(x: T, a: seq<T>, b: seq<T>, key: T -> int)
    requires key(x) == 0
    requires forall i :: 0 <= i < |a| ==> key(a[i]) == -1
    requires forall i :: 0 <= i < |b| ==> key(b[i]) == 0
    ensures Insert(x, a + b, key) == ([] + a) + ([x] + b)
  {
    InsertUnflagged(x, a, b, key);
    assert [] + a == a;
  }

  lemma {:induction false} FlaggedFirst<T>(x: T, s: seq<T>, key: T -> int, p: T -> bool)
    requires key(x) == -1
    requires forall y :: key(y) == (if p(y) then -1 else 0)
    ensures Insert(x, s, key) == [x] + s
  {
  }

  lemma {:induction false} FilterKeys<T>(s: seq<T>, key: T -> int, p: T -> bool, v: int)
    requires forall y :: p(y) ==> key(y) == v
    ensures forall i :: 0 <= i < |Filter(s, p)| ==> key(Filter(s, p)[i]) == v
  {
    var r := Filter(s, p);
    assert forall j :: 0 <= j < |r| ==> p(r[j]);
    KeysFromTest(key, p, v, r);
  }

  lemma {:induction false} KeysFromTest<T>(key: T -> int, p: T -> bool, v: int, r: seq<T>)
    requires forall y :: p(y) ==> key(y) == v
    requires forall i :: 0 <= i < |r| ==> p(r[i])
    ensures forall i :: 0 <= i < |r| ==> key(r[i]) == v
  {
  }

  lemma {:induction false} InsertUnflagged<T>(x: T, a: seq<T>, b: seq<T>, key: T -> int)
    requires key(x) == 0
    requires forall i :: 0 <= i < |a| ==> key(a[i]) == -1
    requires forall i :: 0 <= i < |b| ==> key(b[i]) == 0
    ensures Insert(x, a + b, key) == a + ([x] + b)
  {
    assert b == [] || key(x) <= key(b[0]);
    InsertAfterSmaller(x, a, b, key);
    assert a + [x] + b == a + ([x] + b);
  }

  // ---------------------------------------------------------------------
  // Toggling membership: `prev.includes(x) ? prev.filter(y => y !== x) : [...prev, x]`.

  function RemoveAll<T(==)>(s: seq<T>, x: T): (r: seq<T>)
    ensures x !in r
    ensures forall y | y in r :: y in s
    ensures forall y | y in s && y != x :: y in r
    ensures Subsequence(r, s)
  {
    FilterIsSubsequence(s, y => y != x);
    FilterMembers(s, y => y != x);
    Filter(s, y => y != x)
  }

  function Toggle<T(==)>(s: seq<T>, x: T): (r: seq<T>)
    ensures x in r <==> x !in s
    ensures forall y | y in r && y != x :: y in s
    ensures forall y | y in s && y != x :: y in r
    ensures x !in s ==> r == s + [x]
  {
    if x in s then RemoveAll(s, x) else s + [x]
  }

  predicate NoDuplicates<T(==)>(s: seq<T>)
  {
    forall i, j :: 0 <= i < j < |s| ==> s[i] != s[j]
  }

  /** Toggling twice restores exactly the same members. */
  lemma ToggleTwiceSameMembers<T>(s: seq<T>, x: T)
    ensures forall y | y in Toggle(Toggle(s, x), x) :: y in s
    ensures forall y | y in s :: y in Toggle(Toggle(s, x), x)
  {
  }

  /** Toggling an absent element on and off again gives back the very same list. */
  lemma ToggleTwiceAbsent<T>(s: seq<T>, x: T)
    requires x !in s
    ensures Toggle(Toggle(s, x), x) == s
  {
    var t := s + [x];
    FilterKeepsAll(s, y => y != x);
    FilterConcat(s, [x], y => y != x);
  }

  lemma {:induction false} FilterNoDuplicates<T>(s: seq<T>, p: T -> bool)
    requires NoDuplicates(s)
    ensures NoDuplicates(Filter(s, p))
  {
    if s != [] {
      FilterNoDuplicates(s[1..], p);
      var r := Filter(s, p);
      if p(s[0]) {
        assert s[0] !in s[1..];
        FilterMembers(s[1..], p);
        assert s[0] !in Filter(s[1..], p);
        assert r == [s[0]] + Filter(s[1..], p);
      }
    }
  }

  /** A list without duplicates stays without duplicates. */
  lemma ToggleKeepsNoDuplicates<T>(s: seq<T>, x: T)
    requires NoDuplicates(s)
    ensures NoDuplicates(Toggle(s, x))
  {
    if x in s {
      FilterNoDuplicates(s, y => y != x);
    }
  }

  // ---------------------------------------------------------------------
  // Chips: `items.slice(0, k)` followed, when `items.length > k`, by a chip
  // reading `+{items.length - k} more`.

  datatype Chips = Chips(shown: seq<string>, more: Option<string>)

  function MoreLabel(n: nat): string
  {
    "+" + NatToString(n) + " more"
  }

  function TruncateChips(items: seq<string>, k: nat): (c: Chips)
    ensures |c.shown| <= k && c.shown <= items
    ensures c.more.Some? <==> |items| > k
    ensures |items| > k ==> |c.shown| == k
    ensures |items| <= k ==> c.shown == items
  {
    var shown := if |items| <= k then items else items[..k];
    Chips(shown, if |items| > k then Some(MoreLabel(|items| - k)) else None)
  }

  /** How many items a set of chips accounts for: those shown plus the number the "+n more" chip announces. */
  function AccountedFor(c: Chips): nat
  {
    var announced :=
      match c.more
      case None => 0
      case Some(chip) => if |chip| > 0 && ParseInt(chip[1..]).Num? then ParseInt(chip[1..]).value else 0;
    |c.shown| + announced
  }

  /** The chips shown and the count in the "+n more" chip add up to the whole list. */
  lemma TruncateChipsAccountsForAll(items: seq<string>, k: nat)
    ensures AccountedFor(TruncateChips(items, k)) == |items|
  {
    if |items| > k {
      MoreLabelAnnounces(|items| - k);
    }
  }

  /** The number a "+n more" chip reads back is n. */
  lemma MoreLabelAnnounces(n: nat)
    ensures |MoreLabel(n)| > 0 && ParseInt(MoreLabel(n)[1..]) == Num(n)
  {
    var digits := NatToString(n);
    assert MoreLabel(n) == "+" + (digits + " more");
    assert MoreLabel(n)[1..] == digits + " more";
    assert !IsDigit(" more"[0]);
    ParseIntRoundTrip(n, " more");
  }
}
