/**
 * The `/piechart` route: the records of one month grouped by category, one
 * `{category, count}` entry per category that occurs.
 */
module PieChart {
  import opened Seqs
  import opened Records

  datatype CategoryCount = CategoryCount(category: string, count: nat)

  function CategoryPred(c: string): Transaction -> bool {
    (t: Transaction) => t.category == c
  }

  /** The number of records of `recs` in category `c`. */
  function CategoryCountOf(recs: seq<Transaction>, c: string): nat {
    |Filter(recs, CategoryPred(c))|
  }

  /** No category has two entries. */
  predicate Distinct(groups: seq<CategoryCount>) {
    forall i, j :: 0 <= i < j < |groups| ==> groups[i].category != groups[j].category
  }

  /** Every entry counts at least one record. */
  predicate Positive(groups: seq<CategoryCount>) {
    forall i :: 0 <= i < |groups| ==> groups[i].count > 0
  }

  /** The categories that have an entry. */
  function Categories(groups: seq<CategoryCount>): set<string> {
    if groups == [] then {} else {groups[0].category} + Categories(groups[1..])
  }

  lemma {:induction false} EntryInCategories(groups: seq<CategoryCount>, i: nat)
    requires i < |groups|
    ensures groups[i].category in Categories(groups)
  {
    if i > 0 {
      EntryInCategories(groups[1..], i - 1);
    }
  }

  lemma {:induction false} AbsentFromCategories(groups: seq<CategoryCount>, c: string)
    requires forall i :: 0 <= i < |groups| ==> groups[i].category != c
    ensures c !in Categories(groups)
  {
    if groups != [] {
      AbsentFromCategories(groups[1..], c);
    }
  }

  /** The count recorded for `c`, or 0 when `c` has no entry. */
  function Lookup(groups: seq<CategoryCount>, c: string): nat {
    if groups == [] then 0
    else if groups[0].category == c then groups[0].count
    else Lookup(groups[1..], c)
  }

  /** The sum of the counts of all entries. */
  function Total(groups: seq<CategoryCount>): nat {
    if groups == [] then 0 else groups[0].count + Total(groups[1..])
  }

  /** Adds one record of category `c`: bumps its entry, or appends a new entry of count 1. */
  function Bump(groups: seq<CategoryCount>, c: string): (r: seq<CategoryCount>)
    ensures forall d :: Lookup(r, d) == Lookup(groups, d) + (if d == c then 1 else 0)
    ensures Total(r) == Total(groups) + 1
    ensures Positive(groups) ==> Positive(r)
  {
    if groups == [] then [CategoryCount(c, 1)]
    else if groups[0].category == c then [groups[0].(count := groups[0].count + 1)] + groups[1..]
    else [groups[0]] + Bump(groups[1..], c)
  }

  /** Bumping adds `c` to the categories and no other. */
  lemma {:induction false} BumpCategories(groups: seq<CategoryCount>, c: string)
    ensures Categories(Bump(groups, c)) == Categories(groups) + {c}
  {
    if groups != [] && groups[0].category != c {
      BumpCategories(groups[1..], c);
    }
  }

  /** Bumping never creates a second entry for a category. */
  lemma {:induction false} BumpKeepsDistinct(groups: seq<CategoryCount>, c: string)
    requires Distinct(groups)
    ensures Distinct(Bump(groups, c))
  {
    if groups != [] && groups[0].category != c {
      var rest := Bump(groups[1..], c);
      BumpKeepsDistinct(groups[1..], c);
      BumpCategories(groups[1..], c);
      AbsentFromCategories(groups[1..], groups[0].category);
      forall j | 0 <= j < |rest|
        ensures rest[j].category != groups[0].category
      {
        EntryInCategories(rest, j);
      }
    }
  }

  /**
   * The `$group` stage: one entry per distinct category of `recs`, each with the
   * number of records in it.
   */
  function Group(recs: seq<Transaction>): (r: seq<CategoryCount>)
    ensures Distinct(r) && Positive(r)
    ensures forall c :: Lookup(r, c) == CategoryCountOf(recs, c)
    ensures Total(r) == |recs|
  {
    if recs == [] then []
    else
      BumpKeepsDistinct(Group(recs[1..]), recs[0].category);
      Bump(Group(recs[1..]), recs[0].category)
  }

  /** In a list without repeated categories, an entry's count is what `Lookup` finds. */
  lemma {:induction false} LookupEntry(groups: seq<CategoryCount>, i: nat)
    requires Distinct(groups) && i < |groups|
    ensures Lookup(groups, groups[i].category) == groups[i].count
  {
    if i > 0 {
      LookupEntry(groups[1..], i - 1);
    }
  }

  /** A category without an entry is looked up as 0. */
  lemma {:induction false} LookupAbsent(groups: seq<CategoryCount>, c: string)
    requires forall i :: 0 <= i < |groups| ==> groups[i].category != c
    ensures Lookup(groups, c) == 0
  {
    if groups != [] {
      LookupAbsent(groups[1..], c);
    }
  }

  /** Some entry of `groups` is for category `c`. */
  predicate Listed(groups: seq<CategoryCount>, c: string) {
    exists i :: 0 <= i < |groups| && groups[i].category == c
  }

  /** Some record of `recs` has category `c`. */
  predicate Occurs(recs: seq<Transaction>, c: string) {
    exists t :: t in recs && t.category == c
  }

  /** Every entry of a grouping carries the record count of its category. */
  lemma GroupCounts(recs: seq<Transaction>)
    ensures var r := Group(recs);
      forall i :: 0 <= i < |r| ==> r[i].count == CategoryCountOf(recs, r[i].category)
  {
    var r := Group(recs);
    forall i | 0 <= i < |r|
      ensures r[i].count == CategoryCountOf(recs, r[i].category)
    {
      LookupEntry(r, i);
    }
  }

  /** A grouping lists exactly the categories that occur among the records. */
  lemma GroupCategories(recs: seq<Transaction>, c: string)
    ensures Listed(Group(recs), c) <==> Occurs(recs, c)
  {
    var r := Group(recs);
    var hits := Filter(recs, CategoryPred(c));
    if Listed(r, c) {
      var i :| 0 <= i < |r| && r[i].category == c;
      LookupEntry(r, i);
      assert hits[0] in hits;
    }
    if Occurs(recs, c) {
      var t :| t in recs && t.category == c;
      assert t in hits;
      if !Listed(r, c) {
        LookupAbsent(r, c);
      }
    }
  }

  /**
   * A grouping lists every category of the records once and no other, each with
   * its positive record count, and the counts add up to the number of records.
   */
  lemma GroupCorrect(recs: seq<Transaction>)
    ensures var r := Group(recs);
      && Distinct(r)
      && (forall i :: 0 <= i < |r| ==> r[i].count == CategoryCountOf(recs, r[i].category) > 0)
      && (forall c :: Listed(r, c) <==> Occurs(recs, c))
      && Total(r) == |recs|
  {
    GroupCounts(recs);
    forall c
      ensures Listed(Group(recs), c) <==> Occurs(recs, c)
    {
      GroupCategories(recs, c);
    }
  }

  /** The route: the groups of the records of the month named `month`. */
  function GetPieChart(store: seq<Transaction>, month: string): (r: seq<CategoryCount>)
    ensures var recs := MonthRecords(store, ParseMonth(month));
      && Distinct(r)
      && (forall i :: 0 <= i < |r| ==> r[i].count == CategoryCountOf(recs, r[i].category) > 0)
      && (forall c :: Listed(r, c) <==> Occurs(recs, c))
      && Total(r) == |recs|
  {
    var recs := MonthRecords(store, ParseMonth(month));
    GroupCorrect(recs);
    Group(recs)
  }

  /** An unknown month name gives an empty list of categories, not an error. */
  lemma UnknownMonthPieChart(store: seq<Transaction>, month: string)
    requires month !in MonthNames
    ensures GetPieChart(store, month) == []
  {
    UnknownMonthSelectsNothing(store, month);
  }
}
