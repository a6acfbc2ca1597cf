/**
 * The free-text search of the listing: a case-insensitive substring test OR-ed
 * over the title, the description and the decimal text of the price.
 */
module Search {
  import opened Seqs
  import opened Records

  /** ASCII case folding: the letters A..Z become a..z, every other character is kept. */
  function LowerChar(c: char): char {
    if 'A' <= c <= 'Z' then (c as int + 32) as char else c
  }

  function Lower(s: string): string {
    seq(|s|, i requires 0 <= i < |s| => LowerChar(s[i]))
  }

  /** Folding twice is folding once. */
  lemma LowerIdempotent(s: string)
    ensures Lower(Lower(s)) == Lower(s)
  {
  }

  /** Literal substring test: `needle` occurs somewhere in `hay`. */
  predicate Contains(hay: string, needle: string) {
    needle <= hay || (|hay| > 0 && Contains(hay[1..], needle))
  }

  /** `needle` occupies the window of `hay` that starts at position `i`. */
  predicate OccursAt(hay: string, needle: string, i: int) {
    0 <= i <= |hay| - |needle| && hay[i..i + |needle|] == needle
  }

  /** `Contains` holds exactly when `needle` occupies some window of `hay`. */
  lemma {:induction false} ContainsIff(hay: string, needle: string)
    ensures Contains(hay, needle) <==> exists i :: OccursAt(hay, needle, i)
  {
    if needle <= hay {
      assert OccursAt(hay, needle, 0);
    } else if |hay| > 0 {
      ContainsIff(hay[1..], needle);
      if exists i :: OccursAt(hay, needle, i) {
        var i :| OccursAt(hay, needle, i);
        assert i != 0;
        assert OccursAt(hay[1..], needle, i - 1);
      }
      if exists i :: OccursAt(hay[1..], needle, i) {
        var i :| OccursAt(hay[1..], needle, i);
        assert hay[1..][i..i + |needle|] == hay[i + 1..i + 1 + |needle|];
        assert OccursAt(hay, needle, i + 1);
      }
    }
  }

  /** A literal occurrence survives case folding of both strings. */
  lemma {:induction false} ContainsLower(hay: string, needle: string)
    requires Contains(hay, needle)
    ensures Contains(Lower(hay), Lower(needle))
  {
    if needle <= hay {
      assert Lower(needle) <= Lower(hay);
    } else {
      ContainsLower(hay[1..], needle);
      assert Lower(hay)[1..] == Lower(hay[1..]);
    }
  }

  /** Every string contains each of its prefixes. */
  lemma ContainsPrefix(hay: string, prefix: string)
    requires prefix <= hay
    ensures Contains(hay, prefix)
  {
  }

  /** The character of a decimal digit. */
  function DigitChar(d: nat): char
    requires d < 10
  {
    "0123456789"[d]
  }

  /** The value of a decimal digit character. */
  function DigitValue(c: char): nat {
    if '0' <= c <= '9' then c as int - '0' as int else 0
  }

  /** The shortest decimal text of `n`: digits only, no leading zero. */
  function DecimalText(n: nat): (r: string)
    ensures |r| > 0
    ensures forall i :: 0 <= i < |r| ==> '0' <= r[i] <= '9'
    ensures |r| > 1 ==> r[0] != '0'
    decreases n
  {
    if n < 10 then [DigitChar(n)] else DecimalText(n / 10) + [DigitChar(n % 10)]
  }

  /** The number that a string of decimal digits denotes. */
  function DigitsValue(s: string): nat {
    if s == [] then 0 else 10 * DigitsValue(s[..|s| - 1]) + DigitValue(s[|s| - 1])
  }

  /** Reading back the decimal text of a number gives the number. */
  lemma {:induction false} DecimalRoundTrip(n: nat)
    ensures DigitsValue(DecimalText(n)) == n
    decreases n
  {
    if n >= 10 {
      DecimalRoundTrip(n / 10);
      var s := DecimalText(n);
      assert s[..|s| - 1] == DecimalText(n / 10);
    }
  }

  /** Digit strings are unaffected by case folding. */
  lemma {:induction false} LowerDigits(s: string)
    requires forall i :: 0 <= i < |s| ==> '0' <= s[i] <= '9'
    ensures Lower(s) == s
  {
  }

  /**
   * The price as JavaScript prints a number with at most two decimals: the
   * integer part, then a point and the hundredths without trailing zeros, and
   * nothing after the point for a whole amount (32985 is "329.85", 32980 is
   * "329.8", 25000 is "250"). The text reads back as the price.
   */
  function PriceText(price: Cents): (r: string)
    ensures ReadPrice(r) == price
    ensures r == (if price < 0 then "-" else "") + UnsignedPriceText(if price < 0 then -price else price)
  {
    var text := UnsignedPriceText(if price < 0 then -price else price);
    UnsignedPriceTextReadsBack(if price < 0 then -price else price);
    ReadSign(text);
    if price < 0 then "-" + text else text
  }

  /**
   * The text of a non-negative price: the decimal digits of its integer part, then,
   * only when there are hundredths, a point and one or two digits, the last not 0.
   */
  function UnsignedPriceText(price: nat): (r: string)
    ensures |r| > 0 && '0' <= r[0] <= '9'
    ensures var digits := DecimalText(price / 100);
      && digits <= r
      && (price % 100 == 0 <==> r == digits)
      && (price % 100 != 0 ==> r[|digits|] == '.' && |r| - |digits| - 1 in {1, 2} && r[|r| - 1] != '0')
      && (forall i :: |digits| < i < |r| ==> '0' <= r[i] <= '9')
  {
    var whole, frac := price / 100, price % 100;
    if frac == 0 then DecimalText(whole)
    else if frac % 10 == 0 then DecimalText(whole) + "." + [DigitChar(frac / 10)]
    else DecimalText(whole) + "." + [DigitChar(frac / 10), DigitChar(frac % 10)]
  }

  /** The hundredths a price text denotes: an optional minus sign, digits, and an optional point with one or two digits. */
  function ReadPrice(s: string): int {
    if |s| > 0 && s[0] == '-' then -(ReadUnsignedPrice(s[1..]) as int) else ReadUnsignedPrice(s)
  }

  function ReadUnsignedPrice(s: string): nat {
    var k := IndexOf(s, '.');
    if k == -1 then 100 * DigitsValue(s) else 100 * DigitsValue(s[..k]) + FractionValue(s[k + 1..])
  }

  /** The hundredths of the digits after the point: "8" is 80, "85" is 85. */
  function FractionValue(f: string): nat {
    if |f| == 0 then 0
    else if |f| == 1 then 10 * DigitValue(f[0])
    else 10 * DigitValue(f[0]) + DigitValue(f[1])
  }

  /** A minus sign before an unsigned text negates its value. */
  lemma ReadSign(text: string)
    requires |text| > 0 && text[0] != '-'
    ensures ReadPrice(text) == ReadUnsignedPrice(text)
    ensures ReadPrice("-" + text) == -(ReadUnsignedPrice(text) as int)
  {
    assert ("-" + text)[1..] == text;
  }

  lemma DigitRoundTrip(d: nat)
    requires d < 10
    ensures DigitValue(DigitChar(d)) == d
  {
  }

  /** The point is the first character after the digits of the integer part. */
  lemma PointAfterDigits(digits: string, tail: string)
    requires forall i :: 0 <= i < |digits| ==> '0' <= digits[i] <= '9'
    ensures IndexOf(digits + "." + tail, '.') == |digits|
  {
    var s := digits + "." + tail;
    assert s[|digits|] == '.';
  }

  lemma UnsignedPriceTextReadsBack(price: nat)
    ensures ReadUnsignedPrice(UnsignedPriceText(price)) == price
  {
    var whole, frac := price / 100, price % 100;
    var digits := DecimalText(whole);
    DecimalRoundTrip(whole);
    if frac == 0 {
      assert '.' !in digits;
    } else {
      DigitRoundTrip(frac / 10);
      DigitRoundTrip(frac % 10);
      var tail := if frac % 10 == 0 then [DigitChar(frac / 10)] else [DigitChar(frac / 10), DigitChar(frac % 10)];
      var s := digits + "." + tail;
      assert UnsignedPriceText(price) == s;
      PointAfterDigits(digits, tail);
      assert s[..|digits|] == digits;
      assert s[|digits| + 1..] == tail;
    }
  }

  /** Case-insensitive substring test of one field against the query. */
  predicate FieldMatches(field: string, query: string) {
    Contains(Lower(field), Lower(query))
  }

  /**
   * A record matches when its title, OR its description, OR its price text
   * contains the query, both sides folded to lower case.
   */
  predicate Matches(t: Transaction, query: string)
    ensures Matches(t, query) <==>
      || (exists i :: OccursAt(Lower(t.title), Lower(query), i))
      || (exists i :: OccursAt(Lower(t.description), Lower(query), i))
      || (exists i :: OccursAt(Lower(PriceText(t.price)), Lower(query), i))
  {
    ContainsIff(Lower(t.title), Lower(query));
    ContainsIff(Lower(t.description), Lower(query));
    ContainsIff(Lower(PriceText(t.price)), Lower(query));
    || FieldMatches(t.title, query)
    || FieldMatches(t.description, query)
    || FieldMatches(PriceText(t.price), query)
  }

  function SearchPred(query: string): Transaction -> bool {
    t => Matches(t, query)
  }

  /** The records matching `query`, in store order, across all months. */
  function SearchResults(s: seq<Transaction>, query: string): (r: seq<Transaction>)
    ensures forall t :: t in r <==> t in s && Matches(t, query)
  {
    Filter(s, SearchPred(query))
  }

  /** The empty query (the route's default) matches every record. */
  lemma EmptySearchMatchesAll(s: seq<Transaction>)
    ensures SearchResults(s, "") == s
  {
    forall t | t in s
      ensures SearchPred("")(t)
    {
      assert Lower("") <= Lower(t.title);
    }
    FilterAll(s, SearchPred(""));
  }

  /** Queries that differ only in letter case select the same records. */
  lemma SearchIgnoresQueryCase(t: Transaction, query: string)
    ensures Matches(t, query) == Matches(t, Lower(query))
  {
    LowerIdempotent(query);
  }

  /** A literal occurrence in the title is found whatever the case of either side. */
  lemma TitleOccurrenceMatches(t: Transaction, query: string)
    requires Contains(t.title, query)
    ensures Matches(t, query)
    ensures Matches(t, Lower(query))
  {
    ContainsLower(t.title, query);
    SearchIgnoresQueryCase(t, query);
  }

  /** A record is found by the integer part of its price even if no text field mentions it. */
  lemma WholePriceMatches(t: Transaction)
    requires t.price >= 0
    ensures Matches(t, DecimalText(t.price / 100))
  {
    var digits := DecimalText(t.price / 100);
    var text := PriceText(t.price);
    assert digits <= text;
    LowerDigits(digits);
    assert Lower(digits) <= Lower(text);
    ContainsPrefix(Lower(text), Lower(digits));
  }

  /** A title "Phone" is found by the query "phone". */
  lemma PhoneMatchesLowerCaseQuery(t: Transaction)
    requires t.title == "Phone"
    ensures Matches(t, "phone")
  {
    assert Lower("Phone") == "phone";
    ContainsPrefix(Lower(t.title), Lower("phone"));
  }
}
