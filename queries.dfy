/**
 * LINQ's Where over a list: the elements that pass a test, in their order.
 */
module Queries {
  import opened Wrappers

  /** s.Where(p).ToList() */
  function Where<T>(s: seq<T>, p: T -> bool): (r: seq<T>)
    ensures |r| <= |s|
    decreases |s|
  {
    if |s| == 0 then []
    else (if p(s[0]) then [s[0]] else []) + Where(s[1..], p)
  }

  /** An element is kept exactly when it is in the list and passes the test. */
  lemma {:induction false} WhereMembers<T>(s: seq<T>, p: T -> bool)
    ensures forall x :: x in Where(s, p) <==> x in s && p(x)
    decreases |s|
  {
    if |s| > 0 {
      WhereMembers(s[1..], p);
      assert s == [s[0]] + s[1..];
    }
  }

  /** A test every element passes keeps the whole list. */
  lemma {:induction false} WhereAll<T>(s: seq<T>, p: T -> bool)
    requires forall i :: 0 <= i < |s| ==> p(s[i])
    ensures Where(s, p) == s
    decreases |s|
  {
    if |s| > 0 {
      WhereAll(s[1..], p);
      assert s == [s[0]] + s[1..];
    }
  }

  /** Filtering a concatenation filters each part. */
  lemma {:induction false} WhereAppend<T>(a: seq<T>, b: seq<T>, p: T -> bool)
    ensures Where(a + b, p) == Where(a, p) + Where(b, p)
    decreases |a|
  {
    if |a| > 0 {
      WhereAppend(a[1..], b, p);
      assert (a + b)[1..] == a[1..] + b;
    } else {
      assert a + b == b;
    }
  }

  /** The kept elements keep their multiplicities: each occurs as often as in the list, or not at all. */
  lemma {:induction false} WhereCounts<T>(s: seq<T>, p: T -> bool, x: T)
    ensures multiset(Where(s, p))[x] == if p(x) then multiset(s)[x] else 0
    decreases |s|
  {
    if |s| > 0 {
      WhereCounts(s[1..], p, x);
      assert s == [s[0]] + s[1..];
    }
  }

  /** The values before the first None: a loop that stops at its first failure. */
  function TakeWhileSome<T>(s: seq<Option<T>>): (r: seq<T>)
    ensures |r| <= |s|
    decreases |s|
  {
    if |s| == 0 || s[0].None? then [] else [s[0].value] + TakeWhileSome(s[1..])
  }

  /** Element i of the result is the value of element i, and the element after the result is a None. */
  lemma {:induction false} TakeWhileSomeIsPrefix<T>(s: seq<Option<T>>)
    ensures var r := TakeWhileSome(s);
      && (forall i :: 0 <= i < |r| ==> s[i] == Some(r[i]))
      && (|r| < |s| ==> s[|r|].None?)
    decreases |s|
  {
    if |s| > 0 && s[0].Some? {
      TakeWhileSomeIsPrefix(s[1..]);
    }
  }

  /** Without a None, every value is taken. */
  lemma {:induction false} TakeWhileSomeAll<T>(s: seq<Option<T>>)
    requires forall i :: 0 <= i < |s| ==> s[i].Some?
    ensures |TakeWhileSome(s)| == |s|
    decreases |s|
  {
    if |s| > 0 {
      TakeWhileSomeAll(s[1..]);
    }
  }

  /** Select: f applied to each element, in order. */
  function Mapped<R, T>(rows: seq<R>, f: R -> T): (p: seq<T>)
    ensures |p| == |rows|
    ensures forall i :: 0 <= i < |rows| ==> p[i] == f(rows[i])
  {
    seq(|rows|, i requires 0 <= i < |rows| => f(rows[i]))
  }

  /**
   * A foreach that converts each row and adds the result, until a conversion
   * throws (None): the exception leaves the loop with the results added so far.
   */
  method CollectWhile<R, T>(rows: seq<R>, convert: R -> Option<T>) returns (added: seq<T>)
    ensures added == TakeWhileSome(Mapped(rows, convert))
  {
    ghost var parsed := Mapped(rows, convert);
    added := [];
    var i := 0;
    while i < |rows|
      invariant 0 <= i <= |rows|
      invariant added + TakeWhileSome(parsed[i..]) == TakeWhileSome(parsed)
    {
      var item := convert(rows[i]);
      assert parsed[i..][0] == item;
      if item.None? {
        return;
      }
      assert parsed[i..][1..] == parsed[i + 1..];
      added := added + [item.value];
      i := i + 1;
    }
  }

  /** An observable collection cleared and then filled by adding each item in turn. */
  method Refill<T>(items: seq<T>) returns (collection: seq<T>)
    ensures collection == items
  {
    collection := [];
    for i := 0 to |items|
      invariant collection == items[..i]
    {
      collection := collection + [items[i]];
    }
  }
}
