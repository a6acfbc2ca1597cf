/**
 * A small store worked through every route: two records of March (one sold at
 * 50, one unsold at 150) and one sold record of April at 950.
 */
module Scenarios {
  import opened Seqs
  import opened Records
  import opened Statistics
  import opened BarChart
  import opened PieChart

  function SampleStore(): seq<Transaction> {
    [ Transaction("", "", 5000, Date(2021, 3, 10), true, "A"),
      Transaction("", "", 15000, Date(2022, 3, 11), false, "B"),
      Transaction("", "", 95000, Date(2021, 4, 12), true, "A") ]
  }

  /** Month 3 selects the first two records, though they are from different years. */
  lemma SampleMarchRecords()
    ensures MonthRecords(SampleStore(), 3) == SampleStore()[..2]
  {
    var s := SampleStore();
    assert s[1..][1..][1..] == [];
    assert Filter(s[1..][1..], MonthPred(3)) == [];
    assert Filter(s[1..], MonthPred(3)) == [s[1]];
  }

  /** The name "March" is month 3. */
  lemma MarchIsThree()
    ensures ParseMonth("March") == 3
  {
    ParseMonthRoundTrip(3);
    assert MonthNames[2] == "March";
  }

  /** Statistics of March: 50 sold, one sold item, one unsold item. */
  lemma SampleStatistics()
    ensures GetStatistics(SampleStore(), "March") == Figures(5000, 1, 1)
  {
    MarchIsThree();
    SampleMarchRecords();
    var recs := SampleStore()[..2];
    assert Filter(recs, IsSold) == [recs[0]] by {
      assert recs[1..][1..] == [];
    }
    assert Filter(recs, IsNotSold) == [recs[1]] by {
      assert recs[1..][1..] == [];
    }
    assert SumPrices([recs[0]]) == 5000;
  }

  /** The two March records lie in the first and the second range. */
  lemma SampleBuckets()
    ensures var recs := SampleStore()[..2];
      && BucketCount(recs, PriceRanges()[0]) == 1
      && BucketCount(recs, PriceRanges()[1]) == 1
      && forall k :: 2 <= k < 10 ==> BucketCount(recs, PriceRanges()[k]) == 0
  {
    var recs := SampleStore()[..2];
    assert recs[1..][1..] == [];
    assert Filter(recs, RangePred(PriceRanges()[0])) == [recs[0]];
    assert Filter(recs, RangePred(PriceRanges()[1])) == [recs[1]];
    forall k | 2 <= k < 10
      ensures Filter(recs, RangePred(PriceRanges()[k])) == []
    {
      FilterNone(recs, RangePred(PriceRanges()[k]));
    }
  }

  /** Bar chart of March: one record in "0-100", one in "101-200", none elsewhere. */
  lemma SampleBarChart()
    ensures var chart := GetBarChart(SampleStore(), "March");
      chart[0].count == 1 && chart[1].count == 1 && forall k :: 2 <= k < 10 ==> chart[k].count == 0
  {
    MarchIsThree();
    SampleMarchRecords();
    SampleBuckets();
  }

  /** Pie chart of March: categories A and B with one record each, and nothing else. */
  lemma SamplePieChart()
    ensures var pie := GetPieChart(SampleStore(), "March");
      Lookup(pie, "A") == 1 && Lookup(pie, "B") == 1 && Total(pie) == 2
  {
    SampleMarchGroups();
    GroupOfTwo(SampleStore()[..2]);
  }

  /** Two records of categories A and B group into one record each. */
  lemma GroupOfTwo(recs: seq<Transaction>)
    requires |recs| == 2 && recs[0].category == "A" && recs[1].category == "B"
    ensures Lookup(Group(recs), "A") == 1 && Lookup(Group(recs), "B") == 1 && Total(Group(recs)) == 2
  {
    assert recs == [recs[0], recs[1]];
    CountOfTwo(recs[0], recs[1], "A");
    CountOfTwo(recs[0], recs[1], "B");
  }

  /** The pie chart of March groups the two March records. */
  lemma SampleMarchGroups()
    ensures GetPieChart(SampleStore(), "March") == Group(SampleStore()[..2])
  {
    MarchIsThree();
    SampleMarchRecords();
  }

  /** The count of a category in two records. */
  lemma CountOfTwo(a: Transaction, b: Transaction, c: string)
    ensures CategoryCountOf([a, b], c) == (if a.category == c then 1 else 0) + (if b.category == c then 1 else 0)
  {
    var p := CategoryPred(c);
    assert [a, b][1..] == [b] && [b][1..] == [];
    assert Filter([b], p) == (if b.category == c then [b] else []);
    assert Filter([a, b], p) == (if a.category == c then [a] else []) + Filter([b], p);
  }
}
