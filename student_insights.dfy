/** The student insights page's category chart: one datum per category row, in
    the order the rows arrive. Its score distribution is `Analytics.DistData`. */
module StudentInsights {
  import opened BarChart
  import opened Analytics

  /** `catData`: every row, in input order, as a labelled datum whose value is
      the row's accuracy rounded to an integer. */
  function CatData(rows: seq<CategoryRow>): (out: seq<Datum>)
    ensures |out| == |rows|
    ensures forall i :: 0 <= i < |rows| ==> out[i] == CategoryDatum(rows[i])
    ensures forall i :: 0 <= i < |rows| ==>
      && |out[i].caption| > |rows[i].category| + 4 && out[i].caption[..|rows[i].category|] == rows[i].category
      && out[i].value - 0.5 <= rows[i].accuracy < out[i].value + 0.5
      && out[i].value.Floor as real == out[i].value
  {
    seq(|rows|, i requires 0 <= i < |rows| => CategoryDatum(rows[i]))
  }

  /** The chart of a concatenation is the concatenation of the charts. */
  lemma CatDataAppend(rows: seq<CategoryRow>, more: seq<CategoryRow>)
    ensures CatData(rows + more) == CatData(rows) + CatData(more)
  {
    var l, r := CatData(rows + more), CatData(rows) + CatData(more);
    forall i | 0 <= i < |l|
      ensures l[i] == r[i]
    {
      if i < |rows| {
        assert (rows + more)[i] == rows[i];
      } else {
        assert (rows + more)[i] == more[i - |rows|];
      }
    }
  }
}
