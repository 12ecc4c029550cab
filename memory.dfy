/** The long-term memory of the engine: a list of facts about the user, each
    with an importance, kept sorted by importance (highest first) and never
    longer than fifty records, and rendered as a bullet list for the
    instructions sent to the language model. */
module LongTermMemory {
  import opened Text

  /** How many records consolidation keeps. */
  const Capacity: nat := 50

  /** One remembered fact. `id` and `timestamp` come from the clock. */
  datatype Memory = Memory(id: string, content: string, importance: int, timestamp: int)

  /** Importance never increases from one record to the next. */
  ghost predicate SortedByImportance(s: seq<Memory>)
  {
    forall i, j | 0 <= i < j < |s| :: s[i].importance >= s[j].importance
  }

  // ---------------------------------------------------------------------
  // The sort with comparator `(a, b) => b.importance - a.importance`

  /** Places `m` after every record at least as important, which is where a
      stable sort puts a record that came after all of `s`. */
  function InsertAfterEqual(m: Memory, s: seq<Memory>): (r: seq<Memory>)
    ensures |r| == |s| + 1
  {
    if |s| == 0 then [m]
    else if s[0].importance >= m.importance then [s[0]] + InsertAfterEqual(m, s[1..])
    else [m] + s
  }

  /** `Array.prototype.sort` by importance, highest first; the sort is stable
      (records of equal importance keep their order), as the language
      standard requires. */
  function SortByImportance(s: seq<Memory>): (sorted: seq<Memory>)
  {
    if |s| == 0 then [] else InsertAfterEqual(s[|s| - 1], SortByImportance(s[..|s| - 1]))
  }

  lemma {:induction false} InsertAfterEqualPermutes(m: Memory, s: seq<Memory>)
    ensures multiset(InsertAfterEqual(m, s)) == multiset(s) + multiset{m}
  {
    if |s| > 0 {
      assert s == [s[0]] + s[1..];
      if s[0].importance >= m.importance {
        InsertAfterEqualPermutes(m, s[1..]);
      }
    }
  }

  lemma {:induction false} InsertAfterEqualSorted(m: Memory, s: seq<Memory>)
    requires SortedByImportance(s)
    ensures SortedByImportance(InsertAfterEqual(m, s))
  {
    if |s| > 0 && s[0].importance >= m.importance {
      var t := InsertAfterEqual(m, s[1..]);
      InsertAfterEqualSorted(m, s[1..]);
      InsertAfterEqualPermutes(m, s[1..]);
      forall j | 0 <= j < |t|
        ensures s[0].importance >= t[j].importance
      {
        assert t[j] in multiset(s[1..]) + multiset{m} by {
          assert t[j] in multiset(t);
        }
        if t[j] != m {
          var i :| 0 <= i < |s[1..]| && s[1..][i] == t[j];
          assert s[i + 1] == t[j];
        }
      }
      assert InsertAfterEqual(m, s) == [s[0]] + t;
    }
  }

  lemma {:induction false} SortSorted(s: seq<Memory>)
    ensures SortedByImportance(SortByImportance(s))
    ensures multiset(SortByImportance(s)) == multiset(s)
    ensures |SortByImportance(s)| == |s|
  {
    if |s| > 0 {
      var init := s[..|s| - 1];
      SortSorted(init);
      InsertAfterEqualSorted(s[|s| - 1], SortByImportance(init));
      InsertAfterEqualPermutes(s[|s| - 1], SortByImportance(init));
      assert s == init + [s[|s| - 1]];
    }
    assert |multiset(SortByImportance(s))| == |multiset(s)|;
  }

  /** A record no more important than the last one of a sorted list goes to
      the end. */
  lemma {:induction false} InsertAfterEqualAtEnd(m: Memory, s: seq<Memory>)
    requires SortedByImportance(s)
    requires |s| > 0 ==> s[|s| - 1].importance >= m.importance
    ensures InsertAfterEqual(m, s) == s + [m]
  {
    if |s| > 0 {
      assert s[0].importance >= s[|s| - 1].importance;
      InsertAfterEqualAtEnd(m, s[1..]);
      assert s == [s[0]] + s[1..];
    }
  }

  /** Sorting a sorted list changes nothing. */
  lemma {:induction false} SortOfSorted(s: seq<Memory>)
    requires SortedByImportance(s)
    ensures SortByImportance(s) == s
  {
    if |s| > 0 {
      var init := s[..|s| - 1];
      SortOfSorted(init);
      InsertAfterEqualAtEnd(s[|s| - 1], init);
      assert s == init + [s[|s| - 1]];
    }
  }

  /** When the records before position `j` are all at least as important
      as `m` and those from `j` on are all less important, inserting after
      every record at least as important puts `m` at position `j`. */
  lemma {:induction false} InsertAfterEqualAt(m: Memory, s: seq<Memory>, j: int)
    requires 0 <= j <= |s|
    requires forall k | 0 <= k < j :: s[k].importance >= m.importance
    requires forall k | j <= k < |s| :: s[k].importance < m.importance
    ensures InsertAfterEqual(m, s) == s[..j] + [m] + s[j..]
  {
    if j == 0 {
      assert s[..0] == [] && s[0..] == s;
      if |s| > 0 {
        assert s[0].importance < m.importance;
      }
    } else {
      var rest := s[1..];
      assert forall k | 0 <= k < j - 1 :: rest[k] == s[k + 1];
      assert forall k | j - 1 <= k < |rest| :: rest[k] == s[k + 1];
      InsertAfterEqualAt(m, rest, j - 1);
      assert InsertAfterEqual(m, s) == [s[0]] + InsertAfterEqual(m, rest);
      assert s[..j] == [s[0]] + rest[..j - 1];
      assert s[j..] == rest[j - 1..];
    }
  }

  /** One step of the insertion sort: `a[i]` moves left past the less
      important records of the sorted prefix `a[..i]`. */
  method InsertInPlace(a: array<Memory>, i: int)
    requires 0 <= i < a.Length && SortedByImportance(a[..i])
    modifies a
    ensures a[..i + 1] == InsertAfterEqual(old(a[i]), old(a[..i]))
    ensures a[i + 1..] == old(a[i + 1..])
  {
    ghost var sorted := a[..i];
    ghost var tail := a[i + 1..];
    var m := a[i];
    var j := i;
    while j > 0 && a[j - 1].importance < m.importance
      invariant 0 <= j <= i
      invariant forall k | 0 <= k < j :: a[k] == sorted[k]
      invariant forall k | j < k <= i :: a[k] == sorted[k - 1]
      invariant forall k | j <= k < i :: sorted[k].importance < m.importance
      invariant a[i + 1..] == tail
    {
      a[j] := a[j - 1];
      j := j - 1;
    }
    a[j] := m;
    InsertedAt(a[..i + 1], sorted, m, j);
  }

  /** The list `r` that holds the records of `sorted` before `j`, then `m`,
      then the rest of `sorted`, is the insertion of `m` when the boundary
      `j` is where the insertion sort stops. */
  lemma InsertedAt(r: seq<Memory>, sorted: seq<Memory>, m: Memory, j: int)
    requires SortedByImportance(sorted) && 0 <= j <= |sorted| && |r| == |sorted| + 1
    requires forall k | 0 <= k < j :: r[k] == sorted[k]
    requires r[j] == m
    requires forall k | j < k < |r| :: r[k] == sorted[k - 1]
    requires j > 0 ==> sorted[j - 1].importance >= m.importance
    requires forall k | j <= k < |sorted| :: sorted[k].importance < m.importance
    ensures r == InsertAfterEqual(m, sorted)
  {
    AtLeastAsImportantBefore(sorted, m, j);
    InsertAfterEqualAt(m, sorted, j);
    var t := sorted[..j] + [m] + sorted[j..];
    forall k | 0 <= k < |r|
      ensures r[k] == t[k]
    {
      if k > j {
        assert t[k] == sorted[k - 1];
      }
    }
  }

  /** In a sorted list, a record at least as important as `m` just before
      position `j` makes every record before `j` at least as important. */
  lemma AtLeastAsImportantBefore(s: seq<Memory>, m: Memory, j: int)
    requires SortedByImportance(s) && 0 <= j <= |s|
    requires j > 0 ==> s[j - 1].importance >= m.importance
    ensures forall k | 0 <= k < j :: s[k].importance >= m.importance
  {
  }

  /** The in-place stable sort of `memories.sort((a, b) => b.importance -
      a.importance)`, by insertion. */
  method SortInPlace(a: array<Memory>)
    modifies a
    ensures a[..] == SortByImportance(old(a[..]))
  {
    ghost var input := a[..];
    var i := 0;
    while i < a.Length
      invariant 0 <= i <= a.Length
      invariant a[..i] == SortByImportance(input[..i])
      invariant a[i..] == input[i..]
    {
      SortSorted(input[..i]);
      assert a[i] == input[i];
      InsertInPlace(a, i);
      assert input[..i + 1][..i] == input[..i];
      i := i + 1;
    }
    assert input[..a.Length] == input;
  }

  // ---------------------------------------------------------------------
  // Consolidation

  /** The cache after `saveToLTM(m)`: append, sort, keep the first fifty. */
  function Consolidate(cache: seq<Memory>, m: Memory): (kept: seq<Memory>)
  {
    var sorted := SortByImportance(cache + [m]);
    if |sorted| <= Capacity then sorted else sorted[..Capacity]
  }

  /** The consolidated cache holds min(n + 1, 50) records, sorted by
      importance, highest first. */
  lemma ConsolidateShape(cache: seq<Memory>, m: Memory)
    ensures |Consolidate(cache, m)| == if |cache| + 1 <= Capacity then |cache| + 1 else Capacity
    ensures SortedByImportance(Consolidate(cache, m))
  {
    SortSorted(cache + [m]);
  }

  /** Consolidation introduces no record but the new one: every record of
      the result, counted with its multiplicity, was in the old cache or is
      the new record. */
  lemma ConsolidateOnlyKnownRecords(cache: seq<Memory>, m: Memory)
    ensures multiset(Consolidate(cache, m)) <= multiset(cache) + multiset{m}
  {
    var sorted := SortByImportance(cache + [m]);
    SortSorted(cache + [m]);
    assert multiset(cache + [m]) == multiset(cache) + multiset{m};
    if |sorted| > Capacity {
      assert sorted == sorted[..Capacity] + sorted[Capacity..];
    }
  }

  /** Every record that consolidation drops is no more important than any
      record it keeps. */
  lemma ConsolidateKeepsMostImportant(cache: seq<Memory>, m: Memory)
    ensures forall d, k | d in multiset(cache) + multiset{m} - multiset(Consolidate(cache, m))
                          && k in Consolidate(cache, m) :: d.importance <= k.importance
  {
    var all := cache + [m];
    var sorted := SortByImportance(all);
    SortSorted(all);
    assert multiset(all) == multiset(cache) + multiset{m};
    var r := Consolidate(cache, m);
    if |sorted| > Capacity {
      var dropped := sorted[Capacity..];
      assert sorted == r + dropped;
      assert multiset(sorted) == multiset(r) + multiset(dropped);
      forall d, k | d in multiset(cache) + multiset{m} - multiset(r) && k in r
        ensures d.importance <= k.importance
      {
        assert d in multiset(dropped);
        var j :| 0 <= j < |dropped| && dropped[j] == d;
        var i :| 0 <= i < |r| && r[i] == k;
        assert sorted[i] == k && sorted[Capacity + j] == d;
      }
    } else {
      assert multiset(cache) + multiset{m} - multiset(r) == multiset{};
    }
  }

  /** When the cache is already sorted (as it is after any consolidation),
      consolidation inserts the new record after every record at least as
      important and cuts to fifty. */
  lemma ConsolidateSortedCache(cache: seq<Memory>, m: Memory)
    requires SortedByImportance(cache)
    ensures var t := InsertAfterEqual(m, cache);
      Consolidate(cache, m) == if |t| <= Capacity then t else t[..Capacity]
  {
    SortOfSorted(cache);
    assert (cache + [m])[..|cache + [m]| - 1] == cache;
  }

  /** A full sorted cache keeps the new record iff it is strictly more
      important than the least important record; a tie loses, because the
      stable sort places the newcomer after its equals. */
  lemma FullCacheAdmission(cache: seq<Memory>, m: Memory)
    requires SortedByImportance(cache) && |cache| == Capacity
    ensures m.importance <= cache[Capacity - 1].importance ==> Consolidate(cache, m) == cache
    ensures m.importance > cache[Capacity - 1].importance ==> m in Consolidate(cache, m)
  {
    ConsolidateSortedCache(cache, m);
    var t := InsertAfterEqual(m, cache);
    if m.importance <= cache[Capacity - 1].importance {
      InsertAfterEqualAtEnd(m, cache);
      assert t[..Capacity] == cache;
    } else {
      InsertAfterEqualPosition(m, cache);
    }
  }

  /** In a sorted list the inserted record lands before any less important
      record. */
  lemma {:induction false} InsertAfterEqualPosition(m: Memory, s: seq<Memory>)
    requires |s| > 0 && SortedByImportance(s) && m.importance > s[|s| - 1].importance
    ensures m in InsertAfterEqual(m, s)[..|s|]
  {
    if s[0].importance >= m.importance {
      assert |s| > 1;
      assert s[1..][|s| - 2] == s[|s| - 1];
      InsertAfterEqualPosition(m, s[1..]);
      var t := InsertAfterEqual(m, s[1..]);
      assert InsertAfterEqual(m, s)[..|s|] == [s[0]] + t[..|s| - 1];
    } else {
      assert InsertAfterEqual(m, s)[0] == m;
    }
  }

  // ---------------------------------------------------------------------
  // Rendering

  /** `"- " + content` for every record, in cache order. */
  function Bullets(cache: seq<Memory>): (r: seq<string>)
    ensures |r| == |cache|
  {
    seq(|cache|, i requires 0 <= i < |cache| => "- " + cache[i].content)
  }

  /** `getLTMAsString`: the bullets joined by line breaks, or "" when there
      is nothing to remember. */
  function RenderMemories(cache: seq<Memory>): (rendered: string)
  {
    if |cache| == 0 then "" else Join(Bullets(cache), "\n")
  }

  lemma {:induction false} JoinStartsWithFirst(xs: seq<string>, sep: string)
    requires |xs| > 0
    ensures StartsWith(Join(xs, sep), xs[0])
  {
    if |xs| > 1 {
      assert Join(xs, sep) == xs[0] + (sep + Join(xs[1..], sep));
    }
  }

  /** The rendering is empty exactly when the cache is. */
  lemma RenderEmptyIff(cache: seq<Memory>)
    ensures RenderMemories(cache) == "" <==> |cache| == 0
  {
    if |cache| > 0 {
      JoinStartsWithFirst(Bullets(cache), "\n");
    }
  }

  /** When no fact holds a line break, the rendering has exactly one line
      per record, in cache order: splitting it on line breaks gives back the
      bullets, and it holds n - 1 line breaks. */
  lemma RenderLines(cache: seq<Memory>)
    requires |cache| > 0
    requires forall i | 0 <= i < |cache| :: '\n' !in cache[i].content
    ensures Split(RenderMemories(cache), '\n') == Bullets(cache)
    ensures CountChar(RenderMemories(cache), '\n') == |cache| - 1
  {
    var b := Bullets(cache);
    forall i | 0 <= i < |b|
      ensures '\n' !in b[i]
    {
      assert b[i] == "- " + cache[i].content;
    }
    SplitJoin(b, '\n');
    JoinSeparators(b, '\n');
  }
}
