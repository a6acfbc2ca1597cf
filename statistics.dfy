/**
 * The `/statistics` route: total sale amount, sold count and unsold count of
 * the records of one month of the year.
 */
module Statistics {
  import opened Wrappers
  import opened Seqs
  import opened Records

  predicate IsSold(t: Transaction) {
    t.sold
  }

  predicate IsNotSold(t: Transaction) {
    !t.sold
  }

  /** The sum of the prices of `s`. */
  function SumPrices(s: seq<Transaction>): int {
    if s == [] then 0 else s[0].price + SumPrices(s[1..])
  }

  /** Sums add up over concatenation. */
  lemma {:induction false} SumPricesConcat(a: seq<Transaction>, b: seq<Transaction>)
    ensures SumPrices(a + b) == SumPrices(a) + SumPrices(b)
  {
    if a == [] {
      assert a + b == b;
    } else {
      assert (a + b)[1..] == a[1..] + b;
      SumPricesConcat(a[1..], b);
    }
  }

  /** With no negative price the sum is not negative. */
  lemma {:induction false} SumPricesNonNegative(s: seq<Transaction>)
    requires forall t :: t in s ==> t.price >= 0
    ensures SumPrices(s) >= 0
  {
    if s != [] {
      SumPricesNonNegative(s[1..]);
    }
  }

  /**
   * The `$match`/`$group` pipeline over sold records: no group document at all when
   * nothing matches, otherwise one carrying the sum of the matched prices.
   */
  function SoldTotalAggregate(monthRecords: seq<Transaction>): (r: Option<int>)
    ensures r.None? <==> forall t :: t in monthRecords ==> !t.sold
    ensures r.Some? ==> r.value == SumPrices(Filter(monthRecords, IsSold))
  {
    var sold := Filter(monthRecords, IsSold);
    if sold == [] then None
    else
      assert sold[0] in sold;
      Some(SumPrices(sold))
  }

  /** `aggregate[0]?.total || 0`: a missing group and a zero total both give 0. */
  function TotalOrZero(aggregate: Option<int>): (r: int)
    ensures aggregate.None? ==> r == 0
    ensures aggregate.Some? ==> r == aggregate.value
  {
    match aggregate
    case None => 0
    case Some(total) => if total != 0 then total else 0
  }

  /** The three figures of the `/statistics` response. */
  datatype Figures = Figures(totalSaleAmount: int, totalSoldItems: nat, totalNotSoldItems: nat)

  /** The three figures of the route for the month named `month`. */
  function GetStatistics(store: seq<Transaction>, month: string): (r: Figures)
    ensures var recs := MonthRecords(store, ParseMonth(month));
      && r.totalSaleAmount == SumPrices(Filter(recs, IsSold))
      && r.totalSoldItems == |Filter(recs, IsSold)|
      && r.totalNotSoldItems == |Filter(recs, IsNotSold)|
      && r.totalSoldItems + r.totalNotSoldItems == |recs|
      && ((forall t :: t in recs ==> !t.sold) ==> r.totalSaleAmount == 0)
  {
    var recs := MonthRecords(store, ParseMonth(month));
    FilterComplement(recs, IsSold, IsNotSold);
    Figures(
      TotalOrZero(SoldTotalAggregate(recs)),
      |Filter(recs, IsSold)|,
      |Filter(recs, IsNotSold)|)
  }

  /** An unknown month name gives 0, 0 and 0, not an error. */
  lemma UnknownMonthStatistics(store: seq<Transaction>, month: string)
    requires month !in MonthNames
    ensures GetStatistics(store, month) == Figures(0, 0, 0)
  {
    UnknownMonthSelectsNothing(store, month);
  }

  /**
   * The statistics of two stores put together are the sums of their statistics:
   * each figure is a per-record sum, independent of how the store is split.
   */
  lemma StatisticsAdditive(a: seq<Transaction>, b: seq<Transaction>, month: string)
    ensures var sa, sb, sab := GetStatistics(a, month), GetStatistics(b, month), GetStatistics(a + b, month);
      && sab.totalSaleAmount == sa.totalSaleAmount + sb.totalSaleAmount
      && sab.totalSoldItems == sa.totalSoldItems + sb.totalSoldItems
      && sab.totalNotSoldItems == sa.totalNotSoldItems + sb.totalNotSoldItems
  {
    var m := ParseMonth(month);
    FilterConcat(a, b, MonthPred(m));
    var ra, rb := MonthRecords(a, m), MonthRecords(b, m);
    FilterConcat(ra, rb, IsSold);
    FilterConcat(ra, rb, IsNotSold);
    SumPricesConcat(Filter(ra, IsSold), Filter(rb, IsSold));
  }

  /** With no negative price in the store, the total sale amount is not negative. */
  lemma TotalSaleAmountNonNegative(store: seq<Transaction>, month: string)
    requires forall t :: t in store ==> t.price >= 0
    ensures GetStatistics(store, month).totalSaleAmount >= 0
  {
    SumPricesNonNegative(Filter(MonthRecords(store, ParseMonth(month)), IsSold));
  }
}
