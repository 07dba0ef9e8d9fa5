/** The admin analytics page's category chart: the rows are ordered by the
    position of their category in the fixed category list (unlisted categories
    last, ties in input order), then turned into chart data. */
module AdminAnalytics {
  import opened Common
  import opened BarChart
  import opened Analytics
  import StudentInsights

  /** `Number.MAX_SAFE_INTEGER`, the rank of a category missing from the list. */
  const MaxSafeInteger: int := 9007199254740991

  /** The largest length a JavaScript array can have. */
  const MaxArrayLength: int := 0xFFFF_FFFF

  /** `CATEGORIES.map((c, i) => [c, i])`, the entries of the order map. */
  function OrderPairs(cats: seq<string>): (ps: seq<(string, int)>)
    ensures |ps| == |cats|
    ensures forall i :: 0 <= i < |cats| ==> ps[i] == (cats[i], i)
  {
    seq(|cats|, i requires 0 <= i < |cats| => (cats[i], i))
  }

  /** `order.get(category) ?? Number.MAX_SAFE_INTEGER`: the last position of the
      category in the list, or the largest safe integer when it is not listed. */
  function Rank(cats: seq<string>, category: string): (r: int)
    ensures category !in cats ==> r == MaxSafeInteger
    ensures category in cats ==> 0 <= r < |cats| && cats[r] == category
                                 && forall j :: r < j < |cats| ==> cats[j] != category
  {
    var ps := OrderPairs(cats);
    var b := LastBinding(ps, category);
    if b.Some? then
      assert exists i :: 0 <= i < |ps| && ps[i] == (category, b.value) && forall j :: i < j < |ps| ==> ps[j].0 != category;
      b.value
    else
      assert forall i :: 0 <= i < |cats| ==> ps[i].0 != category;
      MaxSafeInteger
  }

  function RowRank(cats: seq<string>, row: CategoryRow): int
  {
    Rank(cats, row.category)
  }

  /** Puts `x` after every row of `s` whose rank is not larger than its own. */
  function Insert(cats: seq<string>, x: CategoryRow, s: seq<CategoryRow>): (r: seq<CategoryRow>)
    ensures |r| == |s| + 1
  {
    if |s| == 0 then [x]
    else if RowRank(cats, s[|s| - 1]) <= RowRank(cats, x) then s + [x]
    else Insert(cats, x, s[..|s| - 1]) + [s[|s| - 1]]
  }

  /** `[...categories].sort(...)` with the rank difference as comparator; the
      sort is stable, as JavaScript requires. */
  function SortByRank(cats: seq<string>, rows: seq<CategoryRow>): (r: seq<CategoryRow>)
    ensures |r| == |rows|
  {
    if |rows| == 0 then []
    else Insert(cats, rows[|rows| - 1], SortByRank(cats, rows[..|rows| - 1]))
  }

  ghost predicate SortedByRank(cats: seq<string>, s: seq<CategoryRow>)
  {
    forall i, j :: 0 <= i < j < |s| ==> RowRank(cats, s[i]) <= RowRank(cats, s[j])
  }

  /** The rows of `s` with rank `k`, in order. */
  function WithRank(cats: seq<string>, s: seq<CategoryRow>, k: int): seq<CategoryRow>
  {
    if |s| == 0 then []
    else WithRank(cats, s[..|s| - 1], k) + (if RowRank(cats, s[|s| - 1]) == k then [s[|s| - 1]] else [])
  }

  // ---------------------------------------------------------------------------
  // Insertion
  // ---------------------------------------------------------------------------

  lemma {:induction false} InsertPermutes(cats: seq<string>, x: CategoryRow, s: seq<CategoryRow>)
    ensures multiset(Insert(cats, x, s)) == multiset(s) + multiset{x}
  {
    if |s| > 0 && RowRank(cats, s[|s| - 1]) > RowRank(cats, x) {
      InsertPermutes(cats, x, s[..|s| - 1]);
      MultisetInitLast(s);
    }
  }

  /** Insertion keeps every rank under a common bound. */
  lemma {:induction false} InsertBounded(cats: seq<string>, x: CategoryRow, s: seq<CategoryRow>, m: int)
    requires RowRank(cats, x) <= m
    requires forall i :: 0 <= i < |s| ==> RowRank(cats, s[i]) <= m
    ensures forall i :: 0 <= i < |Insert(cats, x, s)| ==> RowRank(cats, Insert(cats, x, s)[i]) <= m
  {
    if |s| > 0 && RowRank(cats, s[|s| - 1]) > RowRank(cats, x) {
      InsertBounded(cats, x, s[..|s| - 1], m);
    }
  }

  lemma {:induction false} InsertSorted(cats: seq<string>, x: CategoryRow, s: seq<CategoryRow>)
    requires SortedByRank(cats, s)
    ensures SortedByRank(cats, Insert(cats, x, s))
  {
    if |s| == 0 {
    } else if RowRank(cats, s[|s| - 1]) <= RowRank(cats, x) {
      SnocSorted(cats, s, x);
    } else {
      var init, last := s[..|s| - 1], s[|s| - 1];
      InsertSorted(cats, x, init);
      InsertBounded(cats, x, init, RowRank(cats, last));
      SnocSorted(cats, Insert(cats, x, init), last);
    }
  }

  /** A row no lower than every row of a sorted list can go at its end. */
  lemma SnocSorted(cats: seq<string>, s: seq<CategoryRow>, x: CategoryRow)
    requires SortedByRank(cats, s)
    requires forall i :: 0 <= i < |s| ==> RowRank(cats, s[i]) <= RowRank(cats, x)
    ensures SortedByRank(cats, s + [x])
  {
    var t := s + [x];
    forall i, j | 0 <= i < j < |t|
      ensures RowRank(cats, t[i]) <= RowRank(cats, t[j])
    {
      assert t[i] == s[i];
    }
  }

  /** The row list `[x]` if `x` has rank `k`, else nothing. */
  function IfRank(cats: seq<string>, x: CategoryRow, k: int): seq<CategoryRow>
  {
    if RowRank(cats, x) == k then [x] else []
  }

  /** Inserting `x` adds it after the rows of its own rank that were there. */
  lemma {:induction false} InsertStable(cats: seq<string>, x: CategoryRow, s: seq<CategoryRow>, k: int)
    ensures WithRank(cats, Insert(cats, x, s), k) == WithRank(cats, s, k) + IfRank(cats, x, k)
  {
    if |s| == 0 {
      assert [x][..0] == [];
    } else if RowRank(cats, s[|s| - 1]) <= RowRank(cats, x) {
      WithRankSnoc(cats, s, x, k);
    } else {
      InsertStable(cats, x, s[..|s| - 1], k);
      InsertStableStep(cats, x, s, k);
    }
  }

  lemma WithRankSnoc(cats: seq<string>, s: seq<CategoryRow>, x: CategoryRow, k: int)
    ensures WithRank(cats, s + [x], k) == WithRank(cats, s, k) + IfRank(cats, x, k)
  {
    assert (s + [x])[..|s + [x]| - 1] == s;
  }

  /** The step of `InsertStable` past a last row of a higher rank than `x`. */
  lemma {:induction false} InsertStableStep(cats: seq<string>, x: CategoryRow, s: seq<CategoryRow>, k: int)
    requires |s| > 0 && RowRank(cats, s[|s| - 1]) > RowRank(cats, x)
    requires WithRank(cats, Insert(cats, x, s[..|s| - 1]), k) == WithRank(cats, s[..|s| - 1], k) + IfRank(cats, x, k)
    ensures WithRank(cats, Insert(cats, x, s), k) == WithRank(cats, s, k) + IfRank(cats, x, k)
  {
    var init, last := s[..|s| - 1], s[|s| - 1];
    calc {
      WithRank(cats, Insert(cats, x, s), k);
      WithRank(cats, Insert(cats, x, init) + [last], k);
      { WithRankSnoc(cats, Insert(cats, x, init), last, k); }
      WithRank(cats, Insert(cats, x, init), k) + IfRank(cats, last, k);
      WithRank(cats, init, k) + IfRank(cats, x, k) + IfRank(cats, last, k);
      { SwapIfRank(cats, WithRank(cats, init, k), x, last, k); }
      WithRank(cats, init, k) + IfRank(cats, last, k) + IfRank(cats, x, k);
      WithRank(cats, s, k) + IfRank(cats, x, k);
    }
  }

  /** Two rows of different ranks can trade places as far as one rank is concerned. */
  lemma SwapIfRank(cats: seq<string>, w: seq<CategoryRow>, x: CategoryRow, y: CategoryRow, k: int)
    requires RowRank(cats, x) != RowRank(cats, y)
    ensures w + IfRank(cats, x, k) + IfRank(cats, y, k) == w + IfRank(cats, y, k) + IfRank(cats, x, k)
  {
    assert IfRank(cats, x, k) == [] || IfRank(cats, y, k) == [];
  }

  // ---------------------------------------------------------------------------
  // The sort
  // ---------------------------------------------------------------------------

  /** The sorted rows are the input rows, each as often as before. */
  lemma {:induction false} SortPermutes(cats: seq<string>, rows: seq<CategoryRow>)
    ensures multiset(SortByRank(cats, rows)) == multiset(rows)
  {
    if |rows| > 0 {
      SortPermutes(cats, rows[..|rows| - 1]);
      SortPermutesStep(cats, rows);
    }
  }

  lemma SortPermutesStep(cats: seq<string>, rows: seq<CategoryRow>)
    requires |rows| > 0
    requires multiset(SortByRank(cats, rows[..|rows| - 1])) == multiset(rows[..|rows| - 1])
    ensures multiset(SortByRank(cats, rows)) == multiset(rows)
  {
    var init, last := rows[..|rows| - 1], rows[|rows| - 1];
    InsertPermutes(cats, last, SortByRank(cats, init));
    MultisetInitLast(rows);
  }

  lemma MultisetInitLast<T>(s: seq<T>)
    requires |s| > 0
    ensures multiset(s) == multiset(s[..|s| - 1]) + multiset{s[|s| - 1]}
  {
    assert s == s[..|s| - 1] + [s[|s| - 1]];
  }

  /** The sorted rows are in ascending rank order. */
  lemma {:induction false} SortSorts(cats: seq<string>, rows: seq<CategoryRow>)
    ensures SortedByRank(cats, SortByRank(cats, rows))
  {
    if |rows| > 0 {
      var init := rows[..|rows| - 1];
      SortSorts(cats, init);
      InsertSorted(cats, rows[|rows| - 1], SortByRank(cats, init));
    }
  }

  /** The sort is stable: the rows of any one rank keep their input order. */
  lemma {:induction false} SortStable(cats: seq<string>, rows: seq<CategoryRow>, k: int)
    ensures WithRank(cats, SortByRank(cats, rows), k) == WithRank(cats, rows, k)
  {
    if |rows| > 0 {
      SortStable(cats, rows[..|rows| - 1], k);
      SortStableStep(cats, rows, k);
    }
  }

  /** The step of `SortStable` for the last row. */
  lemma SortStableStep(cats: seq<string>, rows: seq<CategoryRow>, k: int)
    requires |rows| > 0
    requires WithRank(cats, SortByRank(cats, rows[..|rows| - 1]), k) == WithRank(cats, rows[..|rows| - 1], k)
    ensures WithRank(cats, SortByRank(cats, rows), k) == WithRank(cats, rows, k)
  {
    var init, last := rows[..|rows| - 1], rows[|rows| - 1];
    InsertStable(cats, last, SortByRank(cats, init), k);
  }

  /** Listed categories come before unlisted ones, and listed ones follow the
      list's order. */
  lemma ListedFirst(cats: seq<string>, rows: seq<CategoryRow>, i: int, j: int)
    requires |cats| <= MaxArrayLength
    requires 0 <= i < j < |rows|
    ensures var s := SortByRank(cats, rows);
      && (s[j].category in cats ==> s[i].category in cats)
      && (s[i].category in cats && s[j].category in cats ==> Rank(cats, s[i].category) <= Rank(cats, s[j].category))
  {
    SortSorts(cats, rows);
  }

  // ---------------------------------------------------------------------------
  // The chart data
  // ---------------------------------------------------------------------------

  /** `catData`: the sorted rows, each as a labelled, rounded datum. */
  function CatData(cats: seq<string>, rows: seq<CategoryRow>): (out: seq<Datum>)
    ensures |out| == |rows|
  {
    var sorted := SortByRank(cats, rows);
    seq(|sorted|, i requires 0 <= i < |sorted| => CategoryDatum(sorted[i]))
  }

  /** Each datum comes from one row of the input, and every input row gives as
      many data as it occurs. */
  lemma CatDataFromRows(cats: seq<string>, rows: seq<CategoryRow>)
    ensures var sorted := SortByRank(cats, rows);
      && multiset(sorted) == multiset(rows)
      && forall i :: 0 <= i < |rows| ==> CatData(cats, rows)[i] == CategoryDatum(sorted[i])
  {
    SortPermutes(cats, rows);
  }

  /** A list already in rank order is left as it is. */
  lemma {:induction false} SortKeepsSorted(cats: seq<string>, rows: seq<CategoryRow>)
    requires SortedByRank(cats, rows)
    ensures SortByRank(cats, rows) == rows
  {
    if |rows| > 0 {
      var init, last := rows[..|rows| - 1], rows[|rows| - 1];
      assert SortedByRank(cats, init);
      SortKeepsSorted(cats, init);
      if |init| > 0 {
        assert RowRank(cats, init[|init| - 1]) <= RowRank(cats, last);
      }
      assert init + [last] == rows;
    }
  }

  /** When the rows already arrive in list order, the admin chart is the
      student chart. */
  lemma OrderedRowsChartAlike(cats: seq<string>, rows: seq<CategoryRow>)
    requires SortedByRank(cats, rows)
    ensures CatData(cats, rows) == StudentInsights.CatData(rows)
  {
    SortKeepsSorted(cats, rows);
  }

  /** Rows already in list order with distinct ranks, for a list of three categories. */
  lemma SortExample()
    ensures var cats := ["Hair", "Beard", "Tools"];
      var a, b, c, d := CategoryRow("Tools", 3, 1, 33.3), CategoryRow("Misc", 2, 2, 100.0),
                        CategoryRow("Hair", 4, 3, 75.0), CategoryRow("Beard", 1, 0, 0.0);
      SortByRank(cats, [a, b, c, d]) == [c, d, a, b]
  {
    var cats := ["Hair", "Beard", "Tools"];
    var a, b, c, d := CategoryRow("Tools", 3, 1, 33.3), CategoryRow("Misc", 2, 2, 100.0),
                      CategoryRow("Hair", 4, 3, 75.0), CategoryRow("Beard", 1, 0, 0.0);
    ExampleRanks(cats);
    ExampleByRanks(cats, a, b, c, d);
  }

  /** Four rows of ranks 2, unlisted, 0 and 1, sorted. */
  lemma ExampleByRanks(cats: seq<string>, a: CategoryRow, b: CategoryRow, c: CategoryRow, d: CategoryRow)
    requires RowRank(cats, a) == 2 && RowRank(cats, b) == MaxSafeInteger
    requires RowRank(cats, c) == 0 && RowRank(cats, d) == 1
    ensures SortByRank(cats, [a, b, c, d]) == [c, d, a, b]
  {
    calc {
      SortByRank(cats, [a, b, c, d]);
      { assert [a, b, c, d] == [a, b, c] + [d]; SortSnoc(cats, [a, b, c], d); }
      Insert(cats, d, SortByRank(cats, [a, b, c]));
      { ExampleFirstThree(cats, a, b, c); }
      Insert(cats, d, [c, a, b]);
      { InsertSecond(cats, d, c, a, b); }
      [c, d, a, b];
    }
  }

  lemma ExampleFirstThree(cats: seq<string>, a: CategoryRow, b: CategoryRow, c: CategoryRow)
    requires RowRank(cats, a) == 2 && RowRank(cats, b) == MaxSafeInteger && RowRank(cats, c) == 0
    ensures SortByRank(cats, [a, b, c]) == [c, a, b]
  {
    calc {
      SortByRank(cats, [a, b, c]);
      { assert [a, b, c] == [a, b] + [c]; SortSnoc(cats, [a, b], c); }
      Insert(cats, c, SortByRank(cats, [a, b]));
      { SortTwo(cats, a, b); }
      Insert(cats, c, [a, b]);
      { InsertFirst(cats, c, a, b); }
      [c, a, b];
    }
  }

  lemma SortTwo(cats: seq<string>, a: CategoryRow, b: CategoryRow)
    requires RowRank(cats, a) <= RowRank(cats, b)
    ensures SortByRank(cats, [a, b]) == [a, b]
  {
    assert [a, b] == [a] + [b] && [a] == [] + [a];
    SortSnoc(cats, [a], b);
    SortSnoc(cats, [], a);
    InsertAfter(cats, b, [], a);
  }

  lemma InsertFirst(cats: seq<string>, x: CategoryRow, p: CategoryRow, q: CategoryRow)
    requires RowRank(cats, x) < RowRank(cats, p) && RowRank(cats, x) < RowRank(cats, q)
    ensures Insert(cats, x, [p, q]) == [x, p, q]
  {
    calc {
      Insert(cats, x, [p, q]);
      { assert [p, q] == [p] + [q]; InsertPast(cats, x, [p], q); }
      Insert(cats, x, [p]) + [q];
      { assert [p] == [] + [p]; InsertPast(cats, x, [], p); }
      Insert(cats, x, []) + [p] + [q];
      [x] + [p] + [q];
    }
  }

  lemma InsertSecond(cats: seq<string>, x: CategoryRow, p: CategoryRow, q: CategoryRow, r: CategoryRow)
    requires RowRank(cats, p) <= RowRank(cats, x) < RowRank(cats, q) && RowRank(cats, x) < RowRank(cats, r)
    ensures Insert(cats, x, [p, q, r]) == [p, x, q, r]
  {
    calc {
      Insert(cats, x, [p, q, r]);
      { assert [p, q, r] == [p, q] + [r]; InsertPast(cats, x, [p, q], r); }
      Insert(cats, x, [p, q]) + [r];
      { assert [p, q] == [p] + [q]; InsertPast(cats, x, [p], q); }
      Insert(cats, x, [p]) + [q] + [r];
      { assert [p] == [] + [p]; InsertAfter(cats, x, [], p); }
      [p, x] + [q] + [r];
    }
  }

  /** Sorting one more row inserts it into the sorted rest. */
  lemma SortSnoc(cats: seq<string>, rows: seq<CategoryRow>, x: CategoryRow)
    ensures SortByRank(cats, rows + [x]) == Insert(cats, x, SortByRank(cats, rows))
  {
    assert (rows + [x])[..|rows|] == rows;
  }

  /** A row is inserted before a last row of a higher rank. */
  lemma InsertPast(cats: seq<string>, x: CategoryRow, s: seq<CategoryRow>, y: CategoryRow)
    requires RowRank(cats, y) > RowRank(cats, x)
    ensures Insert(cats, x, s + [y]) == Insert(cats, x, s) + [y]
  {
    assert (s + [y])[..|s|] == s;
  }

  /** A row goes right after a last row whose rank is not above its own. */
  lemma InsertAfter(cats: seq<string>, x: CategoryRow, s: seq<CategoryRow>, y: CategoryRow)
    requires RowRank(cats, y) <= RowRank(cats, x)
    ensures Insert(cats, x, s + [y]) == s + [y, x]
  {
  }

  lemma ExampleRanks(cats: seq<string>)
    requires cats == ["Hair", "Beard", "Tools"]
    ensures Rank(cats, "Tools") == 2 && Rank(cats, "Hair") == 0 && Rank(cats, "Beard") == 1
    ensures Rank(cats, "Misc") == MaxSafeInteger
  {
    assert cats[2] == "Tools" && cats[1] == "Beard" && cats[0] == "Hair";
    assert "Misc" !in cats;
  }
}
