/**
 * The `priceRanges` text of a normalized event: the currency of the first complete price
 * range, then each distinct `min - max` pair with two decimals, or "Price unavailable".
 * Amounts are integer cents, so `toFixed(2)` is exact here.
 */
module Prices {
  import opened Wrappers
  import opened Seqs
  import opened Text
  import opened TicketmasterData

  const PriceUnavailable := "Price unavailable"

  /** A character `toFixed(2)` can write. */
  predicate AmountChar(c: char) {
    IsDigit(c) || c == '-' || c == '.'
  }

  /** `(cents / 100).toFixed(2)`: optional minus sign, whole units, a point and two decimals. */
  function FormatCents(cents: int): (r: string)
    ensures |r| >= 4 && r[|r| - 3] == '.'
    ensures cents < 0 <==> r[0] == '-'
    ensures r[0] == '-' || IsDigit(r[0])
    ensures forall i | 0 <= i < |r| :: AmountChar(r[i])
  {
    var a := if cents < 0 then -cents else cents;
    var units := NatToString(a / 100);
    var r := (if cents < 0 then "-" else "") + units + "." + [DigitChar(a % 100 / 10), DigitChar(a % 10)];
    assert forall i | 0 <= i < |units| :: IsDigit(units[i]);
    r
  }

  /** Every character is a decimal digit. */
  predicate AllDigits(s: string) {
    forall i | 0 <= i < |s| :: IsDigit(s[i])
  }

  /** The amount an unsigned `toFixed(2)` text stands for, or `None` for text of another shape. */
  function ParseUnsigned(body: string): (r: Option<nat>) {
    var n := |body| - 3;
    if n >= 1 && body[n] == '.' && AllDigits(body[..n]) && IsDigit(body[n + 1]) && IsDigit(body[n + 2])
    then Some(100 * DigitsValue(body[..n]) + 10 * (body[n + 1] as int - '0' as int) + (body[n + 2] as int - '0' as int))
    else None
  }

  /** The amount a `toFixed(2)` text stands for, or `None` for text of another shape. */
  function ParseCents(s: string): (r: Option<int>) {
    if |s| > 0 && s[0] == '-' then
      match ParseUnsigned(s[1..])
      case Some(v) => Some(-(v as int))
      case None => None
    else
      match ParseUnsigned(s)
      case Some(v) => Some(v)
      case None => None
  }

  /** A text made of digits, a point and two more digits reads as the amount it spells. */
  lemma ParseUnsignedShape(body: string, units: string, d1: nat, d2: nat)
    requires |units| >= 1 && AllDigits(units) && d1 < 10 && d2 < 10
    requires |body| == |units| + 3 && body[..|units|] == units && body[|units|] == '.'
    requires body[|units| + 1] == DigitChar(d1) && body[|units| + 2] == DigitChar(d2)
    ensures ParseUnsigned(body) == Some(100 * DigitsValue(units) + 10 * d1 + d2)
  {
  }

  /** An amount is its whole units, its tens of cents and its cents. */
  lemma DigitSplit(a: nat)
    ensures a == 100 * (a / 100) + 10 * (a % 100 / 10) + a % 10
  {
    var q, r := a / 100, a % 100;
    var t, u := r / 10, r % 10;
    assert a == 100 * q + r;
    assert r == 10 * t + u;
    assert a == 10 * (10 * q + t) + u;
    assert a % 10 == u;
  }

  /** Reading a rendered amount gives the amount back. */
  lemma ParseFormatCents(cents: int)
    ensures ParseCents(FormatCents(cents)) == Some(cents)
  {
    var a := if cents < 0 then -cents else cents;
    var units := NatToString(a / 100);
    assert FormatCents(cents) == (if cents < 0 then "-" else "") + (units + ("." + [DigitChar(a % 100 / 10), DigitChar(a % 10)]));
    var body := units + ("." + [DigitChar(a % 100 / 10), DigitChar(a % 10)]);
    assert body[..|units|] == units;
    ParseUnsignedShape(body, units, a % 100 / 10, a % 10);
    DigitsValueOfNatToString(a / 100);
    DigitSplit(a);
    assert ParseUnsigned(body) == Some(a);
    if cents < 0 {
      var s := "-" + body;
      assert s[1..] == body;
      assert ParseCents(s) == Some(-a);
    } else {
      assert FormatCents(cents) == body;
      assert body[0] == units[0];
    }
  }

  /** Different amounts are rendered differently. */
  lemma FormatCentsInjective(a: int, b: int)
    ensures FormatCents(a) == FormatCents(b) ==> a == b
  {
    ParseFormatCents(a);
    ParseFormatCents(b);
  }

  /** `` `${min.toFixed(2)} - ${max.toFixed(2)}` ``. */
  function RangeText(min: int, max: int): string {
    FormatCents(min) + " - " + FormatCents(max)
  }

  /** A range text names its two amounts: equal texts come from equal ranges. */
  lemma RangeTextInjective(min1: int, max1: int, min2: int, max2: int)
    ensures RangeText(min1, max1) == RangeText(min2, max2) ==> min1 == min2 && max1 == max2
  {
    var a1, a2 := FormatCents(min1), FormatCents(min2);
    assert ' ' !in a1 by {
      forall i | 0 <= i < |a1| ensures a1[i] != ' ' {
        assert AmountChar(a1[i]);
      }
    }
    assert ' ' !in a2 by {
      forall i | 0 <= i < |a2| ensures a2[i] != ' ' {
        assert AmountChar(a2[i]);
      }
    }
    BeforeConcat(a1, " - ", FormatCents(max1));
    BeforeConcat(a2, " - ", FormatCents(max2));
    if RangeText(min1, max1) == RangeText(min2, max2) {
      FormatCentsInjective(min1, min2);
      var t := RangeText(min1, max1);
      assert t[|a1| + 3..] == FormatCents(max1);
      assert t[|a2| + 3..] == FormatCents(max2);
      FormatCentsInjective(max1, max2);
    }
  }

  /** `price.min != null && price.max != null`. */
  predicate ValidPrice(p: RawPrice) {
    p.min.Some? && p.max.Some?
  }

  /** The range text of a complete price entry. */
  function RangeOf(p: RawPrice): string {
    if ValidPrice(p) then RangeText(p.min.value, p.max.value) else ""
  }

  /** `validPrices.map(...)`. */
  function Ranges(prices: seq<RawPrice>): (r: seq<string>)
    ensures |r| == |prices|
    ensures forall i | 0 <= i < |prices| :: r[i] == RangeOf(prices[i])
  {
    if |prices| == 0 then [] else [RangeOf(prices[0])] + Ranges(prices[1..])
  }

  /** `` `${currency}` ``: an absent currency prints as "undefined". */
  function CurrencyText(currency: Option<string>): string {
    currency.GetOr("undefined")
  }

  /** `event.priceRanges?.length ? ... : 'Price unavailable'` with the de-duplicated listing. */
  function PriceText(prices: seq<RawPrice>): string {
    if |prices| == 0 then PriceUnavailable
    else
      var valid := Filter(prices, ValidPrice);
      if |valid| == 0 then PriceUnavailable else Listing(valid)
  }

  /** `` `${validPrices[0].currency} ${uniquePrices.join(', ')}` ``. */
  function Listing(valid: seq<RawPrice>): string
    requires |valid| > 0
  {
    CurrencyText(valid[0].currency) + " " + Join(Dedup(Ranges(valid)), ", ")
  }

  /** A joined list starts with its first part. */
  lemma JoinStartsWith(parts: seq<string>, sep: string)
    requires |parts| > 0
    ensures parts[0] <= Join(parts, sep)
  {
  }

  /** The listing of complete price entries is not empty and starts like an amount. */
  lemma ListingStart(valid: seq<RawPrice>)
    requires |valid| > 0 && forall i | 0 <= i < |valid| :: ValidPrice(valid[i])
    ensures var j := Join(Dedup(Ranges(valid)), ", "); |j| > 0 && (j[0] == '-' || IsDigit(j[0]))
  {
    var rs := Ranges(valid);
    var u := Dedup(rs);
    assert rs[0] in u;
    assert u[0] in rs;
    var k :| 0 <= k < |valid| && rs[k] == u[0];
    assert u[0] == FormatCents(valid[k].min.value) + " - " + FormatCents(valid[k].max.value);
    JoinStartsWith(u, ", ");
  }

  /** A currency, a space and a listing that starts like an amount never spell "Price unavailable". */
  lemma ListingIsNotUnavailable(c: string, j: string)
    requires |j| > 0 && (j[0] == '-' || IsDigit(j[0]))
    ensures c + " " + j != PriceUnavailable
  {
    var r := c + " " + j;
    assert r[|c|] == ' ' && r[|c| + 1] == j[0];
    assert PriceUnavailable[6] == 'u';
    assert forall n | 0 <= n < |PriceUnavailable| && n != 5 :: PriceUnavailable[n] != ' ';
  }

  /**
   * "Price unavailable" comes out exactly when no entry has both a minimum and a maximum
   * (which includes an absent or empty list): a listing can never read like it, since its
   * first range starts with a digit or a minus sign.
   */
  lemma PriceUnavailableExactly(prices: seq<RawPrice>)
    ensures PriceText(prices) == PriceUnavailable <==> forall i | 0 <= i < |prices| :: !ValidPrice(prices[i])
  {
    var valid := Filter(prices, ValidPrice);
    if exists i | 0 <= i < |prices| :: ValidPrice(prices[i]) {
      var i :| 0 <= i < |prices| && ValidPrice(prices[i]);
      assert prices[i] in valid;
      assert forall k | 0 <= k < |valid| :: valid[k] in valid && ValidPrice(valid[k]);
      ListingStart(valid);
      var c := CurrencyText(valid[0].currency);
      var j := Join(Dedup(Ranges(valid)), ", ");
      ListingIsNotUnavailable(c, j);
    } else {
      FilterNone(prices, ValidPrice);
    }
  }

  /** A price range that repeats one already listed leaves the text unchanged. */
  lemma RepeatedRangeIgnored(prices: seq<RawPrice>, p: RawPrice)
    requires ValidPrice(p)
    requires exists i | 0 <= i < |prices| :: ValidPrice(prices[i]) && RangeOf(prices[i]) == RangeOf(p)
    ensures PriceText(prices + [p]) == PriceText(prices)
  {
    var valid := Filter(prices, ValidPrice);
    assert Filter(prices + [p], ValidPrice) == valid + [p] by {
      FilterAppend(prices, [p], ValidPrice);
      assert Filter([p], ValidPrice) == [p];
    }
    var i :| 0 <= i < |prices| && ValidPrice(prices[i]) && RangeOf(prices[i]) == RangeOf(p);
    assert prices[i] in valid;
    ListingRepeat(valid, p);
  }

  /** The listing is unchanged by a trailing entry whose range it already holds. */
  lemma ListingRepeat(valid: seq<RawPrice>, p: RawPrice)
    requires |valid| > 0 && RangeOf(p) in Ranges(valid)
    ensures Listing(valid + [p]) == Listing(valid)
  {
    assert Ranges(valid + [p]) == Ranges(valid) + [RangeOf(p)];
    DedupRepeat(Ranges(valid), RangeOf(p));
    assert (valid + [p])[0] == valid[0];
  }
}
