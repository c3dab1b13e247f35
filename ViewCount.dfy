/** The view-count extractor (perp.py:92-109): reads the `view_count` field of the video's
    metadata (0 when the field is missing), scales it to millions and rounds to 1 decimal
    place at or above 1,000,000 views and to 2 decimal places below; any failure gives no
    value.

    The metadata service is replaced by its answer, a `Metadata` value. The result is an
    exact decimal, rounded half to even on the exact quotient. */
module ViewCount {
  import opened Trace
  import opened Digits

  const Million: nat := 1_000_000

  /** The `view_count` entry of the metadata: missing, present but null, or a number. */
  datatype ViewField = Absent | NullValue | Count(n: int)

  /** The metadata service's answer: the query raised, or it returned the metadata. */
  datatype Metadata = QueryFailed | Info(viewCount: ViewField)

  function Abs(x: int): nat {
    if x < 0 then -x else x
  }

  /** a / b rounded to the nearest integer, ties to the even one. */
  function RoundHalfEvenDiv(a: int, b: nat): (q: int)
    requires b > 0
    ensures 2 * Abs(a - q * b) <= b
    ensures 2 * Abs(a - q * b) == b ==> q % 2 == 0
  {
    var q0, rem := a / b, a % b;
    if 2 * rem > b then q0 + 1
    else if 2 * rem < b then q0
    else if q0 % 2 == 0 then q0
    else q0 + 1
  }

  /** `d` is count / 10^6 rounded to d.places decimal places, ties to even: its distance to
      the exact quotient is at most half a unit of the last place. */
  predicate NearestMillions(d: Decimal, count: int) {
    var err := Abs(count * Pow10(d.places) - d.units * Million);
    && 2 * err <= Million
    && (2 * err == Million ==> d.units % 2 == 0)
  }

  /** The number of decimal places kept: 1 at or above the threshold, 2 below. */
  function Places(count: int): (p: nat)
    ensures p == 1 || p == 2
    ensures p == 1 <==> count >= Million
  {
    if count >= Million then 1 else 2
  }

  function RoundMillions(count: int, places: nat): (d: Decimal)
    requires places <= 6
    ensures d.places == places && NearestMillions(d, count)
  {
    var divisor := Pow10(6 - places);
    PowSplit(places);
    var q := RoundHalfEvenDiv(count, divisor);
    ScaleRounding(count, q, divisor, places);
    Decimal(q, places)
  }

  lemma PowSplit(places: nat)
    requires places <= 6
    ensures Pow10(6 - places) * Pow10(places) == Million
  {
    assert Pow10(1) == 10;
    assert Pow10(2) == 100;
    assert Pow10(3) == 1000;
    assert Pow10(4) == 10000;
    assert Pow10(5) == 100000;
    assert Pow10(6) == Million;
  }

  /** Rounding count / divisor to an integer q is rounding count / 10^6 to `places`
      decimals when divisor * 10^places is 10^6. */
  lemma ScaleRounding(count: int, q: int, divisor: nat, places: nat)
    requires divisor > 0 && divisor * Pow10(places) == Million
    requires 2 * Abs(count - q * divisor) <= divisor
    requires 2 * Abs(count - q * divisor) == divisor ==> q % 2 == 0
    ensures NearestMillions(Decimal(q, places), count)
  {
    var scale, e := Pow10(places), Abs(count - q * divisor);
    ScaleError(count, q, divisor, scale);
    var err := Abs(count * scale - q * Million);
    assert err == e * scale;
    assert 2 * err == (2 * e) * scale;
    ScaleBound(2 * e, divisor, scale);
  }

  lemma ScaleError(count: int, q: int, divisor: nat, scale: nat)
    requires scale > 0
    ensures Abs(count * scale - q * (divisor * scale)) == Abs(count - q * divisor) * scale
  {
    assert count * scale - q * (divisor * scale) == (count - q * divisor) * scale;
  }

  lemma ScaleBound(x: nat, y: nat, scale: nat)
    requires scale > 0
    ensures x <= y ==> x * scale <= y * scale
    ensures x * scale == y * scale ==> x == y
  {
    if x < y {
      assert y * scale == x * scale + (y - x) * scale;
    } else if x > y {
      assert x * scale == y * scale + (x - y) * scale;
    }
  }

  /** The extractor: the failure of the query, or a null count (which the comparison with the
      threshold rejects), gives no value. */
  function GetYoutubeViews(m: Metadata): (r: Option<Decimal>)
    ensures r.None? <==> (m.QueryFailed? || m.viewCount.NullValue?)
    ensures m == Info(Absent) ==> r == Some(Decimal(0, 2))
    ensures m.Info? && m.viewCount.Count? ==>
              r.Some? && r.value.places == (if m.viewCount.n >= Million then 1 else 2)
              && NearestMillions(r.value, m.viewCount.n)
  {
    match m
    case QueryFailed => None
    case Info(field) =>
      match field
      case NullValue => None
      case Absent => Some(RoundMillions(0, Places(0)))
      case Count(n) => Some(RoundMillions(n, Places(n)))
  }

  /** The rounding contract leaves no choice: two decimals with the same places that
      are both nearest to the same quotient are equal. */
  lemma NearestIsUnique(d1: Decimal, d2: Decimal, count: int)
    requires d1.places == d2.places
    requires NearestMillions(d1, count) && NearestMillions(d2, count)
    ensures d1 == d2
  {
    var x := count * Pow10(d1.places);
    var e1, e2 := x - d1.units * Million, x - d2.units * Million;
    assert (d2.units - d1.units) * Million == e1 - e2;
  }

  /** Worked values: 2,500,000 views give 2.5, 1,250,000 give 1.2 (tie to even), 999,999
      give 1.00 (two places, as it is below the threshold), 500,000 give 0.50 and a
      missing count gives 0.00. */
  lemma Examples()
    ensures GetYoutubeViews(Info(Count(2_500_000))) == Some(Decimal(25, 1))
    ensures GetYoutubeViews(Info(Count(1_250_000))) == Some(Decimal(12, 1))
    ensures GetYoutubeViews(Info(Count(999_999))) == Some(Decimal(100, 2))
    ensures GetYoutubeViews(Info(Count(500_000))) == Some(Decimal(50, 2))
    ensures GetYoutubeViews(Info(Absent)) == Some(Decimal(0, 2))
    ensures GetYoutubeViews(Info(NullValue)) == None
  {
    NearestIsUnique(GetYoutubeViews(Info(Count(2_500_000))).value, Decimal(25, 1), 2_500_000);
    NearestIsUnique(GetYoutubeViews(Info(Count(1_250_000))).value, Decimal(12, 1), 1_250_000);
    NearestIsUnique(GetYoutubeViews(Info(Count(999_999))).value, Decimal(100, 2), 999_999);
    NearestIsUnique(GetYoutubeViews(Info(Count(500_000))).value, Decimal(50, 2), 500_000);
  }
}
