/** `Array.prototype.filter`, which the engine uses to pick overdue, pending
    and completed tasks and the assistant page uses to drop system turns. */
module Seqs {

  /** The elements of `s` that satisfy `p`, in their original order. */
  function Filter<T>(s: seq<T>, p: T -> bool): (r: seq<T>)
    ensures |r| <= |s|
  {
    if |s| == 0 then [] else (if p(s[0]) then [s[0]] else []) + Filter(s[1..], p)
  }

  /** The index of the first element that satisfies `p`. */
  predicate IsFirst<T>(s: seq<T>, p: T -> bool, k: int)
  {
    0 <= k < |s| && p(s[k]) && forall j | 0 <= j < k :: !p(s[j])
  }

  /** Filtering distributes over concatenation: the kept elements of a
      longer list are the kept elements of its parts, in order. */
  lemma {:induction false} FilterAppend<T>(a: seq<T>, b: seq<T>, p: T -> bool)
    ensures Filter(a + b, p) == Filter(a, p) + Filter(b, p)
  {
    if |a| == 0 {
      assert a + b == b;
    } else {
      var head := if p(a[0]) then [a[0]] else [];
      assert (a + b)[0] == a[0];
      assert (a + b)[1..] == a[1..] + b;
      assert Filter(a + b, p) == head + Filter(a[1..] + b, p);
      FilterAppend(a[1..], b, p);
      assert head + (Filter(a[1..], p) + Filter(b, p)) == (head + Filter(a[1..], p)) + Filter(b, p);
    }
  }

  /** An element is kept iff it is in the list and satisfies the test. */
  lemma {:induction false} FilterMembership<T>(s: seq<T>, p: T -> bool, x: T)
    ensures x in Filter(s, p) <==> x in s && p(x)
  {
    if |s| > 0 {
      FilterMembership(s[1..], p, x);
      assert s == [s[0]] + s[1..];
    }
  }

  /** Nothing is kept iff no element satisfies the test. */
  lemma {:induction false} FilterEmpty<T>(s: seq<T>, p: T -> bool)
    ensures Filter(s, p) == [] <==> forall i | 0 <= i < |s| :: !p(s[i])
  {
    if |s| > 0 {
      FilterEmpty(s[1..], p);
      assert forall i | 1 <= i < |s| :: s[i] == s[1..][i - 1];
    }
  }

  /** When every element satisfies the test, nothing is dropped. */
  lemma {:induction false} FilterAll<T>(s: seq<T>, p: T -> bool)
    requires forall i | 0 <= i < |s| :: p(s[i])
    ensures Filter(s, p) == s
  {
    if |s| > 0 {
      assert forall i | 0 <= i < |s[1..]| :: s[1..][i] == s[i + 1];
      FilterAll(s[1..], p);
      assert s == [s[0]] + s[1..];
    }
  }

  /** The first kept element is the first element that satisfies the test. */
  lemma {:induction false} FilterFirst<T>(s: seq<T>, p: T -> bool, k: int)
    requires IsFirst(s, p, k)
    ensures |Filter(s, p)| > 0 && Filter(s, p)[0] == s[k]
  {
    if k > 0 {
      assert IsFirst(s[1..], p, k - 1) by {
        forall j | 0 <= j < k - 1
          ensures !p(s[1..][j])
        {
          assert s[1..][j] == s[j + 1];
        }
      }
      FilterFirst(s[1..], p, k - 1);
    }
  }

  /** Some element satisfies the test, so a first one exists. */
  lemma FirstExists<T>(s: seq<T>, p: T -> bool, i: int)
    requires 0 <= i < |s| && p(s[i])
    ensures exists k :: IsFirst(s, p, k)
    decreases i
  {
    if forall j | 0 <= j < i :: !p(s[j]) {
      assert IsFirst(s, p, i);
    } else {
      var j :| 0 <= j < i && p(s[j]);
      FirstExists(s, p, j);
    }
  }
}
