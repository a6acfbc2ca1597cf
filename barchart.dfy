/**
 * The `/barchart` route: the records of one month counted in ten fixed price
 * ranges, each half-open `[min, max)`, the last one unbounded above.
 */
module BarChart {
  import opened Seqs
  import opened Records

  /** The exclusive upper end of a range: a price, or none for the last range. */
  datatype Bound = Below(limit: Cents) | Unbounded

  datatype PriceRange = PriceRange(range: string, min: Cents, max: Bound)

  /**
   * The ten ranges in chart order, in hundredths. Each range stops just below the
   * hundred it is labelled with and the next starts one unit above it, so
   * [100, 101), [200, 201), ..., [900, 901) lie in no range: the ranges ascend
   * from 0, and each bounded one ends one unit (100 hundredths) below the next.
   */
  function PriceRanges(): (rs: seq<PriceRange>)
    ensures |rs| == 10
    ensures rs[0].min == 0 && rs[9].max.Unbounded?
    ensures forall k :: 0 <= k < 9 ==>
      && rs[k].max.Below?
      && rs[k].min < rs[k].max.limit
      && rs[k].max.limit + 100 == rs[k + 1].min
  {
    [ PriceRange("0-100", 0, Below(10000)),
      PriceRange("101-200", 10100, Below(20000)),
      PriceRange("201-300", 20100, Below(30000)),
      PriceRange("301-400", 30100, Below(40000)),
      PriceRange("401-500", 40100, Below(50000)),
      PriceRange("501-600", 50100, Below(60000)),
      PriceRange("601-700", 60100, Below(70000)),
      PriceRange("701-800", 70100, Below(80000)),
      PriceRange("801-900", 80100, Below(90000)),
      PriceRange("901-above", 90100, Unbounded) ]
  }

  /** `price >= min && price < max`, where no price reaches the unbounded end (`Infinity`). */
  predicate InRange(price: Cents, r: PriceRange)
    ensures r.max.Unbounded? ==> (InRange(price, r) <==> r.min <= price)
    ensures r.max.Below? ==> (InRange(price, r) <==> r.min <= price < r.max.limit)
  {
    r.min <= price && (r.max.Unbounded? || price < r.max.limit)
  }

  function RangePred(r: PriceRange): Transaction -> bool {
    (t: Transaction) => InRange(t.price, r)
  }

  /** The price lies in one of the ranges `rs`. */
  predicate InAny(price: Cents, rs: seq<PriceRange>) {
    exists k :: 0 <= k < |rs| && InRange(price, rs[k])
  }

  function AnyPred(rs: seq<PriceRange>): Transaction -> bool {
    (t: Transaction) => InAny(t.price, rs)
  }

  /** No price lies in two of the ranges `rs`. */
  ghost predicate PairwiseDisjoint(rs: seq<PriceRange>) {
    forall i, j, price :: 0 <= i < j < |rs| && InRange(price, rs[i]) ==> !InRange(price, rs[j])
  }

  /** The fixed ranges never overlap. */
  lemma PriceRangesDisjoint()
    ensures PairwiseDisjoint(PriceRanges())
  {
    forall i, j, price | 0 <= i < j < |PriceRanges()| && InRange(price, PriceRanges()[i])
      ensures !InRange(price, PriceRanges()[j])
    {
      RangesAscend(i, j);
    }
  }

  /** A range ends at or before the start of every later range. */
  lemma {:induction false} RangesAscend(i: int, j: int)
    requires 0 <= i < j < 10
    ensures PriceRanges()[i].max.Below? && PriceRanges()[i].max.limit <= PriceRanges()[j].min
    decreases j - i
  {
    if i + 1 < j {
      RangesAscend(i + 1, j);
    }
  }

  /** A price between a hundred and one unit above it, from 100 to 900. */
  predicate InGap(price: Cents) {
    10000 <= price < 100000 && price % 10000 < 100
  }

  /**
   * Which prices are counted at all: exactly the non-negative ones outside the
   * nine one-unit gaps.
   */
  lemma CoveredPrices(price: Cents)
    ensures InAny(price, PriceRanges()) <==> 0 <= price && !InGap(price)
  {
    if 0 <= price && !InGap(price) {
      var k := if price >= 90100 then 9 else price / 10000;
      assert InRange(price, PriceRanges()[k]);
    }
    if InAny(price, PriceRanges()) {
      var k :| 0 <= k < 10 && InRange(price, PriceRanges()[k]);
      assert k == 9 || price / 10000 == k;
    }
  }

  datatype BarEntry = BarEntry(range: string, count: nat)

  /** The number of records of `recs` whose price lies in `r`. */
  function BucketCount(recs: seq<Transaction>, r: PriceRange): nat {
    |Filter(recs, RangePred(r))|
  }

  /** One entry per range, in the ranges' order: its label and its count. */
  function Tally(recs: seq<Transaction>, rs: seq<PriceRange>): (r: seq<BarEntry>)
    ensures |r| == |rs|
    ensures forall k :: 0 <= k < |rs| ==> r[k].range == rs[k].range && r[k].count == BucketCount(recs, rs[k])
  {
    if rs == [] then [] else [BarEntry(rs[0].range, BucketCount(recs, rs[0]))] + Tally(recs, rs[1..])
  }

  /** The sum of the counts of a chart. */
  function TotalCount(entries: seq<BarEntry>): nat {
    if entries == [] then 0 else entries[0].count + TotalCount(entries[1..])
  }

  /**
   * The route: always ten entries in table order; entry `k` carries the label of
   * range `k` and the number of the month's records priced within it.
   */
  function GetBarChart(store: seq<Transaction>, month: string): (r: seq<BarEntry>)
    ensures |r| == 10
    ensures var recs := MonthRecords(store, ParseMonth(month));
      forall k :: 0 <= k < 10 ==>
        && r[k].range == PriceRanges()[k].range
        && r[k].count == |Filter(recs, RangePred(PriceRanges()[k]))|
  {
    Tally(MonthRecords(store, ParseMonth(month)), PriceRanges())
  }

  /** Over disjoint ranges, the counts add up to the number of records priced in any of them. */
  lemma {:induction false} TallyTotal(recs: seq<Transaction>, rs: seq<PriceRange>)
    requires PairwiseDisjoint(rs)
    ensures TotalCount(Tally(recs, rs)) == |Filter(recs, AnyPred(rs))|
  {
    if rs == [] {
      FilterNone(recs, AnyPred(rs));
    } else {
      var rest := rs[1..];
      TallyTotal(recs, rest);
      forall t: Transaction
        ensures AnyPred(rs)(t) == (RangePred(rs[0])(t) || AnyPred(rest)(t))
      {
        if InAny(t.price, rs) {
          var k :| 0 <= k < |rs| && InRange(t.price, rs[k]);
          if k > 0 {
            assert InRange(t.price, rest[k - 1]);
          }
        }
        if InAny(t.price, rest) {
          var k :| 0 <= k < |rest| && InRange(t.price, rest[k]);
          assert InRange(t.price, rs[k + 1]);
        }
      }
      forall t: Transaction
        ensures !(RangePred(rs[0])(t) && AnyPred(rest)(t))
      {
        if InAny(t.price, rest) {
          var k :| 0 <= k < |rest| && InRange(t.price, rest[k]);
          assert rest[k] == rs[k + 1];
        }
      }
      FilterDisjointUnion(recs, RangePred(rs[0]), AnyPred(rest), AnyPred(rs));
    }
  }

  /**
   * The ten counts never exceed the month's record count: they add up to the
   * number of the month's records whose price lies in some range.
   */
  lemma BarChartTotal(store: seq<Transaction>, month: string)
    ensures var recs := MonthRecords(store, ParseMonth(month));
      TotalCount(GetBarChart(store, month)) == |Filter(recs, AnyPred(PriceRanges()))| <= |recs|
  {
    PriceRangesDisjoint();
    TallyTotal(MonthRecords(store, ParseMonth(month)), PriceRanges());
  }

  /** A record priced in a gap is counted in no range: here one record of March at 100. */
  lemma GapRecordIsNotCounted(t: Transaction)
    requires t.price == 10000 && t.dateOfSale.month == 3
    ensures TotalCount(GetBarChart([t], "March")) == 0
    ensures |MonthRecords([t], ParseMonth("March"))| == 1
  {
    ParseMonthRoundTrip(3);
    BarChartTotal([t], "March");
    CoveredPrices(t.price);
    assert InGap(t.price);
    assert Filter([t], AnyPred(PriceRanges())) == [];
  }

  /** An unknown month name gives ten zero counts, not an error. */
  lemma UnknownMonthBarChart(store: seq<Transaction>, month: string)
    requires month !in MonthNames
    ensures forall k :: 0 <= k < 10 ==> GetBarChart(store, month)[k].count == 0
  {
    UnknownMonthSelectsNothing(store, month);
  }
}
