/** The data shaping both analytics pages share: the score distribution
    normalised into eleven 10-point buckets, and one chart datum per category
    row. */
module Analytics {
  import opened Common
  import opened BarChart

  /** A row of the score distribution: `count` attempts scored `id` percent. */
  datatype DistRow = DistRow(id: int, count: int)

  /** A row of the per-category statistics. */
  datatype CategoryRow = CategoryRow(category: string, total: int, correct: int, accuracy: real)

  // ---------------------------------------------------------------------------
  // Score distribution
  // ---------------------------------------------------------------------------

  /** The rows as the (key, value) pairs set into the `Map`. */
  function Pairs(rows: seq<DistRow>): (ps: seq<(int, int)>)
    ensures |ps| == |rows|
    ensures forall i :: 0 <= i < |rows| ==> ps[i] == (rows[i].id, rows[i].count)
  {
    seq(|rows|, i requires 0 <= i < |rows| => (rows[i].id, rows[i].count))
  }

  /** `map.get(b) || 0`: the count of the last row whose id is `b`, or 0 when no
      row has that id. */
  function BucketCount(rows: seq<DistRow>, b: int): (c: int)
    ensures (forall i :: 0 <= i < |rows| ==> rows[i].id != b) ==> c == 0
    ensures (exists i :: 0 <= i < |rows| && rows[i].id == b) ==>
      exists i :: 0 <= i < |rows| && rows[i].id == b && rows[i].count == c
                  && forall j :: i < j < |rows| ==> rows[j].id != b
  {
    var ps := Pairs(rows);
    var r := LastBinding(ps, b);
    if r.Some? then
      assert exists i :: 0 <= i < |ps| && ps[i] == (b, r.value) && forall j :: i < j < |ps| ==> ps[j].0 != b;
      r.value
    else 0
  }

  /** The eleven buckets 0, 10, ..., 100, each labelled with its number and
      valued with its count. */
  function DistData(rows: seq<DistRow>): (out: seq<Datum>)
    ensures |out| == 11
    ensures forall k :: 0 <= k < 11 ==> out[k] == Datum(NatToString(10 * k), BucketCount(rows, 10 * k) as real)
  {
    seq(11, k requires 0 <= k < 11 => Datum(NatToString(10 * k), BucketCount(rows, 10 * k) as real))
  }

  /** `distData`: fill a map from the rows, then push one datum per bucket. */
  method NormalizeBuckets(rows: seq<DistRow>) returns (out: seq<Datum>)
    ensures out == DistData(rows)
  {
    var m := FillMap(Pairs(rows));
    out := [];
    var b := 0;
    while b <= 100
      invariant b == 10 * |out| && |out| <= 11
      invariant out == DistData(rows)[..|out|]
    {
      var count := if b in m then m[b] else 0;
      MapCount(m, rows, b);
      PrefixSnoc(DistData(rows), |out|);
      out := out + [Datum(NatToString(b), count as real)];
      b := b + 10;
    }
    assert DistData(rows)[..11] == DistData(rows);
  }

  /** `map.get(b) || 0` on the map filled from the rows is `BucketCount`. */
  lemma MapCount(m: map<int, int>, rows: seq<DistRow>, b: int)
    requires forall k :: k in m <==> LastBinding(Pairs(rows), k).Some?
    requires forall k :: k in m ==> m[k] == LastBinding(Pairs(rows), k).value
    ensures (if b in m then m[b] else 0) == BucketCount(rows, b)
  {
  }

  /** The labels are the bucket numbers in ascending order: each reads back as
      10 times its position. */
  lemma DistLabelsAscending(rows: seq<DistRow>, k: int)
    requires 0 <= k < 11
    ensures DigitsValue(DistData(rows)[k].caption) == 10 * k
  {
    DigitsRoundTrip(10 * k);
  }

  /** The bucket labels the chart shows, in order. */
  const BucketLabels: seq<string> := ["0", "10", "20", "30", "40", "50", "60", "70", "80", "90", "100"]

  /** The labels, written out. */
  lemma DistLabels(rows: seq<DistRow>)
    ensures forall k :: 0 <= k < 11 ==> DistData(rows)[k].caption == BucketLabels[k]
  {
    forall k | 0 <= k < 11
      ensures DistData(rows)[k].caption == BucketLabels[k]
    {
      BucketLabel(k);
    }
  }

  lemma BucketLabel(k: nat)
    requires k < 11
    ensures NatToString(10 * k) == BucketLabels[k]
  {
    if k == 10 {
      TensNumeral(1);
    } else if k > 0 {
      TensNumeral(k);
    }
  }

  lemma TensNumeral(d: nat)
    requires 1 <= d < 10
    ensures NatToString(10 * d) == [Digit(d), '0']
  {
    assert (10 * d) / 10 == d && (10 * d) % 10 == 0;
  }

  /** A row whose id is not one of the eleven buckets has no effect on the data. */
  lemma NonBucketRowIgnored(before: seq<DistRow>, x: DistRow, after: seq<DistRow>)
    requires x.id < 0 || x.id > 100 || x.id % 10 != 0
    ensures DistData(before + [x] + after) == DistData(before + after)
  {
    var with, without := DistData(before + [x] + after), DistData(before + after);
    forall k | 0 <= k < 11
      ensures with[k] == without[k]
    {
      NonBucketRowIgnoredAt(before, x, after, k);
    }
  }

  lemma NonBucketRowIgnoredAt(before: seq<DistRow>, x: DistRow, after: seq<DistRow>, k: int)
    requires x.id < 0 || x.id > 100 || x.id % 10 != 0
    requires 0 <= k < 11
    ensures DistData(before + [x] + after)[k] == DistData(before + after)[k]
  {
    RowOfOtherBucketIgnored(before, x, after, 10 * k);
  }

  /** A row for a different id does not change a bucket's count. */
  lemma RowOfOtherBucketIgnored(before: seq<DistRow>, x: DistRow, after: seq<DistRow>, b: int)
    requires x.id != b
    ensures BucketCount(before + [x] + after, b) == BucketCount(before + after, b)
  {
    assert Pairs(before + [x] + after) == Pairs(before) + [(x.id, x.count)] + Pairs(after);
    assert Pairs(before + after) == Pairs(before) + Pairs(after);
    LastBindingSkips(Pairs(before), (x.id, x.count), Pairs(after), b);
  }

  // ---------------------------------------------------------------------------
  // Category rows
  // ---------------------------------------------------------------------------

  /** `Math.round`: the nearest integer, halves rounded up. */
  function Round(x: real): (r: int)
    ensures r as real - 0.5 <= x < r as real + 0.5
  {
    (x + 0.5).Floor
  }

  /** `Math.round` rounds to the one integer within half a unit below and above. */
  lemma RoundUnique(x: real, n: int)
    requires n as real - 0.5 <= x < n as real + 0.5
    ensures Round(x) == n
  {
  }

  /** `${category} (n=${total})`. */
  function CategoryLabel(c: CategoryRow): (s: string)
    ensures |s| > |c.category| + 4 && s[..|c.category|] == c.category
    ensures s[|c.category|..|c.category| + 4] == " (n=" && s[|s| - 1] == ')'
  {
    c.category + " (n=" + IntToString(c.total) + ")"
  }

  /** The count in the label reads back as the row's total. */
  lemma CategoryLabelTotal(c: CategoryRow)
    requires c.total >= 0
    ensures var s := CategoryLabel(c);
      var digits := s[|c.category| + 4..|s| - 1];
      && (forall i :: 0 <= i < |digits| ==> '0' <= digits[i] <= '9')
      && DigitsValue(digits) == c.total
  {
    var s := CategoryLabel(c);
    assert s[|c.category| + 4..|s| - 1] == NatToString(c.total);
    DigitsRoundTrip(c.total);
  }

  /** One category row as a bar: its label and its accuracy rounded to an integer. */
  function CategoryDatum(c: CategoryRow): (d: Datum)
    ensures d.caption == CategoryLabel(c)
    ensures d.value - 0.5 <= c.accuracy < d.value + 0.5 && d.value.Floor as real == d.value
  {
    Datum(CategoryLabel(c), Round(c.accuracy) as real)
  }
}
