/**
 * The transaction record of the store and the month filter shared by the
 * statistics, bar-chart and pie-chart queries.
 */
module Records {
  import opened Seqs

  /** A month of the year as the store's `$month` operator yields it: 1 is January, 12 December. */
  type MonthOfYear = m: int | 1 <= m <= 12 witness 1

  /** Prices in hundredths of the currency unit (329.85 is 32985). */
  type Cents = int

  /** A calendar date of sale; only its month takes part in any query. */
  datatype Date = Date(year: int, month: MonthOfYear, day: nat)

  /** One stored sale record, field for field as the store's schema declares it. */
  datatype Transaction = Transaction(
    title: string,
    description: string,
    price: Cents,
    dateOfSale: Date,
    sold: bool,
    category: string)

  /** The month names, in calendar order, that the routes accept. */
  const MonthNames: seq<string> :=
    ["January", "February", "March", "April", "May", "June", "July",
     "August", "September", "October", "November", "December"]

  /** Position of the first occurrence of `x` in `xs`, or -1 when it does not occur. */
  function IndexOf<T(==)>(xs: seq<T>, x: T): (r: int)
    ensures -1 <= r < |xs|
    ensures r == -1 <==> x !in xs
    ensures 0 <= r ==> xs[r] == x && forall j :: 0 <= j < r ==> xs[j] != x
  {
    if xs == [] then -1
    else if xs[0] == x then 0
    else
      var k := IndexOf(xs[1..], x);
      if k == -1 then -1 else k + 1
  }

  /**
   * The month number of a month name: 1..12 for an exact, case-sensitive match
   * of one of the twelve names, and 0 (not an error) for any other string.
   */
  function ParseMonth(name: string): (n: int)
    ensures 0 <= n <= 12
    ensures n == 0 <==> name !in MonthNames
    ensures n != 0 ==> MonthNames[n - 1] == name
  {
    IndexOf(MonthNames, name) + 1
  }

  /** Length, first and third letter tell the month names apart. */
  function NameKey(name: string): (int, char, char)
    requires |name| >= 3
  {
    (|name|, name[0], name[2])
  }

  lemma MonthNamesDistinct()
    ensures forall i, j :: 0 <= i < j < |MonthNames| ==> MonthNames[i] != MonthNames[j]
  {
    assert forall i :: 0 <= i < |MonthNames| ==> |MonthNames[i]| >= 3;
    assert forall i, j :: 0 <= i < j < |MonthNames| ==> NameKey(MonthNames[i]) != NameKey(MonthNames[j]);
  }

  /** Every month name parses back to its own position. */
  lemma ParseMonthRoundTrip(k: MonthOfYear)
    ensures ParseMonth(MonthNames[k - 1]) == k
  {
    MonthNamesDistinct();
  }

  /** Matching is case-sensitive: a name starting with a lower-case letter is unknown. */
  lemma ParseMonthIsCaseSensitive(name: string)
    requires |name| > 0 && 'a' <= name[0] <= 'z'
    ensures ParseMonth(name) == 0
  {
    assert forall i :: 0 <= i < |MonthNames| ==> |MonthNames[i]| > 0 && 'A' <= MonthNames[i][0] <= 'Z';
    assert name !in MonthNames;
  }

  /** The month predicate `$month(dateOfSale) == month`: the year plays no part. */
  predicate InMonth(t: Transaction, month: int)
    ensures InMonth(t, month) ==> 1 <= month <= 12
    ensures InMonth(t, month) <==> t.dateOfSale.month == month
  {
    t.dateOfSale.month == month
  }

  function MonthPred(month: int): Transaction -> bool {
    t => InMonth(t, month)
  }

  /** The records of one month of the year, of any year, in store order. */
  function MonthRecords(s: seq<Transaction>, month: int): (r: seq<Transaction>)
    ensures forall t :: t in r <==> t in s && t.dateOfSale.month == month
  {
    Filter(s, MonthPred(month))
  }

  /** An unknown month name (month number 0) selects no record at all. */
  lemma {:induction false} UnknownMonthSelectsNothing(s: seq<Transaction>, name: string)
    requires name !in MonthNames
    ensures MonthRecords(s, ParseMonth(name)) == []
  {
    FilterNone(s, MonthPred(0));
  }

  /** `s` with every record re-dated to year `y`, keeping month and day. */
  function WithYear(s: seq<Transaction>, y: int): (r: seq<Transaction>)
    ensures |r| == |s|
  {
    seq(|s|, i requires 0 <= i < |s| => s[i].(dateOfSale := s[i].dateOfSale.(year := y)))
  }

  /** Moving every record to another year selects the same records of a month. */
  lemma {:induction false} MonthIgnoresYear(s: seq<Transaction>, month: int, y: int)
    ensures MonthRecords(WithYear(s, y), month) == WithYear(MonthRecords(s, month), y)
  {
    if s != [] {
      MonthIgnoresYear(s[1..], month, y);
      assert WithYear(s, y)[1..] == WithYear(s[1..], y);
      var head := WithYear([s[0]], y);
      if InMonth(s[0], month) {
        assert WithYear([s[0]] + Filter(s[1..], MonthPred(month)), y)
            == head + WithYear(Filter(s[1..], MonthPred(month)), y);
      }
    }
  }
}
