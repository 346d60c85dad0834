/**
 * The stable ordering that LINQ's OrderBy / OrderByDescending give every list
 * the application sorts: processes by CPU, memory or name, services by display
 * name, startup entries by name. Elements with equal keys keep their input order.
 */
module Sorting {
  import opened Text

  /** The value a list is ordered by: a number (CPU, memory) or a string (names). */
  datatype SortKey = NumKey(n: real) | TextKey(t: string)

  /** Ascending key order: numbers by value, strings ordinally. */
  predicate KeyLess(a: SortKey, b: SortKey)
  {
    match (a, b)
    case (NumKey(x), NumKey(y)) => x < y
    case (TextKey(s), TextKey(t)) => LexLess(s, t)
    case (NumKey(_), TextKey(_)) => true
    case (TextKey(_), NumKey(_)) => false
  }

  lemma KeyLessIrreflexive(a: SortKey)
    ensures !KeyLess(a, a)
  {
    if a.TextKey? {
      LexLessIrreflexive(a.t);
    }
  }

  lemma KeyLessTransitive(a: SortKey, b: SortKey, c: SortKey)
    requires KeyLess(a, b) && KeyLess(b, c)
    ensures KeyLess(a, c)
  {
    if a.TextKey? && b.TextKey? && c.TextKey? {
      LexLessTransitive(a.t, b.t, c.t);
    }
  }

  lemma KeyLessTotal(a: SortKey, b: SortKey)
    requires !KeyLess(a, b) && !KeyLess(b, a)
    ensures a == b
  {
    if a.TextKey? && b.TextKey? {
      LexLessTotal(a.t, b.t);
    }
  }

  /** In the requested direction, key a must come strictly before key b. */
  predicate Before(a: SortKey, b: SortKey, descending: bool)
  {
    if descending then KeyLess(b, a) else KeyLess(a, b)
  }

  lemma BeforeAsymmetric(a: SortKey, b: SortKey, descending: bool)
    requires Before(a, b, descending)
    ensures !Before(b, a, descending)
  {
    if Before(b, a, descending) {
      KeyLessTransitive(a, b, a);
      KeyLessTransitive(b, a, b);
      KeyLessIrreflexive(a);
    }
  }

  lemma BeforeTotal(a: SortKey, b: SortKey, descending: bool)
    requires a != b && !Before(b, a, descending)
    ensures Before(a, b, descending)
  {
    if !Before(a, b, descending) {
      KeyLessTotal(a, b);
    }
  }

  /** "May come before" is transitive, so a list sorted on neighbours is sorted pairwise. */
  lemma NotBeforeTransitive(a: SortKey, b: SortKey, c: SortKey, descending: bool)
    requires !Before(b, a, descending) && !Before(c, b, descending)
    ensures !Before(c, a, descending)
  {
    if a != b && b != c {
      BeforeTotal(a, b, descending);
      BeforeTotal(b, c, descending);
      if descending {
        KeyLessTransitive(c, b, a);
      } else {
        KeyLessTransitive(a, b, c);
      }
      BeforeAsymmetric(a, c, descending);
    }
  }

  /** No later element has to come strictly before an earlier one. */
  ghost predicate SortedBy<T>(s: seq<T>, key: T -> SortKey, descending: bool)
  {
    forall i, j :: 0 <= i < j < |s| ==> !Before(key(s[j]), key(s[i]), descending)
  }

  /** The elements of s whose key is k, in their order in s. */
  function WithKey<T>(s: seq<T>, key: T -> SortKey, k: SortKey): seq<T>
    decreases |s|
  {
    if |s| == 0 then []
    else (if key(s[0]) == k then [s[0]] else []) + WithKey(s[1..], key, k)
  }

  /** Puts x in front of the first element that does not have to come before it. */
  function Insert<T>(x: T, s: seq<T>, key: T -> SortKey, descending: bool): seq<T>
    decreases |s|
  {
    if |s| == 0 then [x]
    else if Before(key(s[0]), key(x), descending) then [s[0]] + Insert(x, s[1..], key, descending)
    else [x] + s
  }

  lemma {:induction false} InsertPermutes<T>(x: T, s: seq<T>, key: T -> SortKey, descending: bool)
    ensures multiset(Insert(x, s, key, descending)) == multiset(s) + multiset{x}
    decreases |s|
  {
    if |s| > 0 {
      InsertPermutes(x, s[1..], key, descending);
      assert s == [s[0]] + s[1..];
    }
  }

  lemma {:induction false} InsertKeepsTies<T>(x: T, s: seq<T>, key: T -> SortKey, descending: bool, k: SortKey)
    ensures WithKey(Insert(x, s, key, descending), key, k)
         == (if key(x) == k then [x] else []) + WithKey(s, key, k)
    decreases |s|
  {
    var r := Insert(x, s, key, descending);
    if |s| == 0 {
      assert r == [x];
      assert r[1..] == [];
    } else if Before(key(s[0]), key(x), descending) {
      InsertKeepsTies(x, s[1..], key, descending, k);
      KeyLessIrreflexive(key(x));
      assert r[1..] == Insert(x, s[1..], key, descending);
    } else {
      assert r[1..] == s;
    }
  }

  lemma {:induction false} InsertSorted<T>(x: T, s: seq<T>, key: T -> SortKey, descending: bool)
    requires SortedBy(s, key, descending)
    ensures SortedBy(Insert(x, s, key, descending), key, descending)
    decreases |s|
  {
    var r := Insert(x, s, key, descending);
    if |s| == 0 {
    } else if Before(key(s[0]), key(x), descending) {
      var t := Insert(x, s[1..], key, descending);
      InsertSorted(x, s[1..], key, descending);
      InsertPermutes(x, s[1..], key, descending);
      assert r == [s[0]] + t;
      forall j | 1 <= j < |r|
        ensures !Before(key(r[j]), key(s[0]), descending)
      {
        assert r[j] == t[j - 1];
        assert r[j] in multiset(t);
        if r[j] == x {
          BeforeAsymmetric(key(s[0]), key(x), descending);
        } else {
          assert r[j] in multiset(s[1..]);
          var idx :| 0 <= idx < |s[1..]| && s[1..][idx] == r[j];
          assert s[idx + 1] == r[j];
        }
      }
    } else {
      assert r == [x] + s;
      forall j | 1 <= j < |r|
        ensures !Before(key(r[j]), key(x), descending)
      {
        assert r[j] == s[j - 1];
        if j > 1 {
          NotBeforeTransitive(key(x), key(s[0]), key(s[j - 1]), descending);
        }
      }
    }
  }

  /**
   * OrderBy (ascending) / OrderByDescending on the given key: the result holds
   * the same elements, is sorted in the requested direction, and elements with
   * equal keys keep their relative order from the input.
   */
  function StableSort<T>(s: seq<T>, key: T -> SortKey, descending: bool): (r: seq<T>)
    ensures multiset(r) == multiset(s)
    ensures SortedBy(r, key, descending)
    ensures forall k :: WithKey(r, key, k) == WithKey(s, key, k)
    decreases |s|
  {
    if |s| == 0 then []
    else
      var rest := StableSort(s[1..], key, descending);
      InsertFront(s, rest, key, descending);
      Insert(s[0], rest, key, descending)
  }

  /** Inserting the first element into a stable sort of the rest gives a stable sort of the whole. */
  lemma InsertFront<T>(s: seq<T>, rest: seq<T>, key: T -> SortKey, descending: bool)
    requires |s| > 0
    requires multiset(rest) == multiset(s[1..]) && SortedBy(rest, key, descending)
    requires forall k :: WithKey(rest, key, k) == WithKey(s[1..], key, k)
    ensures multiset(Insert(s[0], rest, key, descending)) == multiset(s)
    ensures SortedBy(Insert(s[0], rest, key, descending), key, descending)
    ensures forall k :: WithKey(Insert(s[0], rest, key, descending), key, k) == WithKey(s, key, k)
  {
    InsertPermutes(s[0], rest, key, descending);
    InsertSorted(s[0], rest, key, descending);
    assert s == [s[0]] + s[1..];
    forall k
      ensures WithKey(Insert(s[0], rest, key, descending), key, k) == WithKey(s, key, k)
    {
      InsertKeepsTies(s[0], rest, key, descending, k);
    }
  }

  /** An already sorted list comes back unchanged: the order is stable. */
  lemma {:induction false} SortSortedIsIdentity<T>(s: seq<T>, key: T -> SortKey, descending: bool)
    requires SortedBy(s, key, descending)
    ensures StableSort(s, key, descending) == s
    decreases |s|
  {
    if |s| > 0 {
      var rest := s[1..];
      assert SortedBy(rest, key, descending) by {
        forall i, j | 0 <= i < j < |rest|
          ensures !Before(key(rest[j]), key(rest[i]), descending)
        {
          assert rest[j] == s[j + 1] && rest[i] == s[i + 1];
        }
      }
      if |rest| > 0 {
        assert !Before(key(rest[0]), key(s[0]), descending);
      }
      calc {
        StableSort(s, key, descending);
        Insert(s[0], StableSort(rest, key, descending), key, descending);
        { SortSortedIsIdentity(rest, key, descending); }
        Insert(s[0], rest, key, descending);
        [s[0]] + rest;
        s;
      }
    }
  }
}
