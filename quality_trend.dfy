/**
 * Quality-trend aggregation, shared by the dashboard hook of the Next.js
 * front-end and the legacy dashboard manager (both implement it the same
 * way): inspection results are tallied per date, the dates sorted, and a
 * pass rate and a fail rate computed per date; the quality rate is the
 * rounded mean of the pass rates.
 */
module QualityTrend {
  import opened Seqs
  import opened Strings

  /** One inspection result; `count` is carried by the data but never read. */
  datatype TrendItem = TrendItem(date: string, result: string, count: int)

  datatype Tally = Tally(pass: nat, fail: nat, total: nat)

  datatype QualityTrendData = QualityTrendData(labels: seq<string>, passRates: seq<real>, failRates: seq<real>)

  // ---------------------------------------------------------------------------
  // Tallies
  // ---------------------------------------------------------------------------

  /** One more result on a date: pass or fail when it is one, and one more in total in every case. */
  function Bump(t: Tally, result: string): (r: Tally)
    ensures r.total == t.total + 1
    ensures r.pass + r.fail <= t.pass + t.fail + 1
  {
    Tally(t.pass + (if result == "pass" then 1 else 0),
          t.fail + (if result == "fail" then 1 else 0),
          t.total + 1)
  }

  /** The tally of one date after the items of `trend`, in order. */
  function DateTally(trend: seq<TrendItem>, d: string): Tally {
    if trend == [] then Tally(0, 0, 0)
    else
      var t := DateTally(trend[..|trend| - 1], d);
      var item := trend[|trend| - 1];
      if item.date == d then Bump(t, item.result) else t
  }

  function OnDate(d: string): TrendItem -> bool {
    (item: TrendItem) => item.date == d
  }

  function WithResult(d: string, result: string): TrendItem -> bool {
    (item: TrendItem) => item.date == d && item.result == result
  }

  /**
   * A date's total is the number of items on that date, whatever their
   * `count`; its passes and fails are the items on that date whose result
   * is exactly "pass" or "fail"; so passes and fails never exceed the total.
   */
  lemma {:induction false} DateTallySpec(trend: seq<TrendItem>, d: string)
    ensures DateTally(trend, d).total == Count(trend, OnDate(d))
    ensures DateTally(trend, d).pass == Count(trend, WithResult(d, "pass"))
    ensures DateTally(trend, d).fail == Count(trend, WithResult(d, "fail"))
    ensures DateTally(trend, d).pass + DateTally(trend, d).fail <= DateTally(trend, d).total
  {
    if trend != [] {
      DateTallySpec(trend[..|trend| - 1], d);
    }
  }

  /** The set of dates the items mention. */
  function Dates(trend: seq<TrendItem>): set<string> {
    set k | 0 <= k < |trend| :: trend[k].date
  }

  lemma DateTallyAbsent(trend: seq<TrendItem>, d: string)
    requires d !in Dates(trend)
    ensures DateTally(trend, d) == Tally(0, 0, 0)
  {
    if trend != [] {
      var prefix := trend[..|trend| - 1];
      assert Dates(prefix) <= Dates(trend) by {
        forall x | x in Dates(prefix) ensures x in Dates(trend) {
          var k :| 0 <= k < |prefix| && prefix[k].date == x;
          assert trend[k] == prefix[k];
        }
      }
      DateTallyAbsent(prefix, d);
      assert trend[|trend| - 1].date in Dates(trend);
    }
  }

  // ---------------------------------------------------------------------------
  // Ordering of the dates
  // ---------------------------------------------------------------------------

  /** `a < b` on strings: lexicographic on characters, as the default array sort compares them. */
  predicate StrLess(a: string, b: string) {
    if a == [] then b != []
    else if b == [] then false
    else a[0] < b[0] || (a[0] == b[0] && StrLess(a[1..], b[1..]))
  }

  lemma {:induction false} StrLessIrreflexive(a: string)
    ensures !StrLess(a, a)
  {
    if a != [] {
      StrLessIrreflexive(a[1..]);
    }
  }

  lemma {:induction false} StrLessTransitive(a: string, b: string, c: string)
    requires StrLess(a, b) && StrLess(b, c)
    ensures StrLess(a, c)
  {
    if a != [] && b != [] && c != [] && a[0] == b[0] && b[0] == c[0] {
      StrLessTransitive(a[1..], b[1..], c[1..]);
    }
  }

  lemma {:induction false} StrLessTotal(a: string, b: string)
    requires a != b
    ensures StrLess(a, b) || StrLess(b, a)
  {
    if a != [] && b != [] && a[0] == b[0] {
      assert a == [a[0]] + a[1..] && b == [b[0]] + b[1..];
      StrLessTotal(a[1..], b[1..]);
    }
  }

  ghost predicate StrictlySorted(s: seq<string>) {
    forall i, j :: 0 <= i < j < |s| ==> StrLess(s[i], s[j])
  }

  /** Adds `x` to a sorted list of distinct strings, at its place. */
  function InsertSorted(x: string, s: seq<string>): (r: seq<string>)
    ensures forall y :: y in r <==> y == x || y in s
  {
    if s == [] then [x]
    else if x == s[0] then s
    else if StrLess(x, s[0]) then [x] + s
    else [s[0]] + InsertSorted(x, s[1..])
  }

  lemma {:induction false} InsertSortedSorted(x: string, s: seq<string>)
    requires StrictlySorted(s)
    ensures StrictlySorted(InsertSorted(x, s))
  {
    if s != [] && x != s[0] {
      if StrLess(x, s[0]) {
        var r := [x] + s;
        forall i, j | 0 <= i < j < |r| ensures StrLess(r[i], r[j]) {
          if i == 0 && j > 1 {
            StrLessTransitive(x, s[0], s[j - 1]);
          }
        }
      } else {
        StrLessTotal(x, s[0]);
        InsertSortedSorted(x, s[1..]);
        var r := InsertSorted(x, s);
        var tail := InsertSorted(x, s[1..]);
        assert r == [s[0]] + tail;
        forall j | 0 < j < |r| ensures StrLess(s[0], r[j]) {
          assert r[j] in tail;
          if r[j] != x {
            var m :| 0 <= m < |s[1..]| && s[1..][m] == r[j];
            assert s[m + 1] == r[j];
          }
        }
      }
    }
  }

  /** Two sorted lists of distinct strings with the same elements are the same list. */
  lemma {:induction false} SortedUnique(a: seq<string>, b: seq<string>)
    requires StrictlySorted(a) && StrictlySorted(b)
    requires forall x :: x in a <==> x in b
    ensures a == b
  {
    if a != [] {
      assert a[0] in a;
    }
    if b != [] {
      assert b[0] in b;
    }
    if a != [] && b != [] {
      if a[0] != b[0] {
        assert b[0] in b && a[0] in a;
        var i :| 0 <= i < |a| && a[i] == b[0];
        var j :| 0 <= j < |b| && b[j] == a[0];
        assert i > 0 && j > 0;
        StrLessTransitive(a[0], b[0], a[0]);
        StrLessIrreflexive(a[0]);
      }
      forall x ensures x in a[1..] <==> x in b[1..] {
        if x in a[1..] {
          var i :| 0 <= i < |a[1..]| && a[1..][i] == x;
          assert StrLess(a[0], a[i + 1]);
          StrLessIrreflexive(x);
        }
        if x in b[1..] {
          var j :| 0 <= j < |b[1..]| && b[1..][j] == x;
          assert StrLess(b[0], b[j + 1]);
          StrLessIrreflexive(x);
        }
        assert x in a <==> x == a[0] || x in a[1..];
        assert x in b <==> x == b[0] || x in b[1..];
      }
      SortedUnique(a[1..], b[1..]);
      assert a == [a[0]] + a[1..] && b == [b[0]] + b[1..];
    }
  }

  /** `Object.keys(grouped).sort()`: the keys in ascending order. */
  method SortKeys(keys: set<string>) returns (sorted: seq<string>)
    ensures StrictlySorted(sorted)
    ensures forall x :: x in sorted <==> x in keys
  {
    sorted := [];
    var remaining := keys;
    while remaining != {}
      invariant remaining <= keys
      invariant StrictlySorted(sorted)
      invariant forall x :: x in sorted <==> x in keys && x !in remaining
      decreases |remaining|
    {
      var x :| x in remaining;
      InsertSortedSorted(x, sorted);
      sorted := InsertSorted(x, sorted);
      remaining := remaining - {x};
    }
  }

  /** The trend's dates, each once, in ascending order: what the sorted keys must be. */
  function SortedDates(trend: seq<TrendItem>): seq<string> {
    if trend == [] then []
    else InsertSorted(trend[|trend| - 1].date, SortedDates(trend[..|trend| - 1]))
  }

  /** The sorted dates are strictly ascending and are exactly the dates mentioned. */
  lemma {:induction false} SortedDatesSpec(trend: seq<TrendItem>)
    ensures StrictlySorted(SortedDates(trend))
    ensures forall d :: d in SortedDates(trend) <==> d in Dates(trend)
  {
    if trend != [] {
      var prefix := trend[..|trend| - 1];
      var last := trend[|trend| - 1].date;
      SortedDatesSpec(prefix);
      InsertSortedSorted(last, SortedDates(prefix));
      forall d ensures d in Dates(trend) <==> d == last || d in Dates(prefix) {
        if d in Dates(trend) {
          var k :| 0 <= k < |trend| && trend[k].date == d;
          if k < |trend| - 1 {
            assert prefix[k].date == d;
          }
        }
        if d in Dates(prefix) {
          var k :| 0 <= k < |prefix| && prefix[k].date == d;
          assert trend[k].date == d;
        }
      }
    }
  }

  // ---------------------------------------------------------------------------
  // Rates
  // ---------------------------------------------------------------------------

  function PassRate(t: Tally): real {
    if t.total > 0 then (t.pass as real / t.total as real) * 100.0 else 0.0
  }

  function FailRate(t: Tally): real {
    if t.total > 0 then (t.fail as real / t.total as real) * 100.0 else 0.0
  }

  /** Rates are percentages, and a date's pass and fail rates add up to at most 100. */
  lemma RatesBounded(t: Tally)
    requires t.pass + t.fail <= t.total
    ensures 0.0 <= PassRate(t) <= 100.0
    ensures 0.0 <= FailRate(t) <= 100.0
    ensures PassRate(t) + FailRate(t) <= 100.0
  {
    if t.total > 0 {
      var n := t.total as real;
      ShareBounded(t.pass as real, t.fail as real, n);
    }
  }

  /** Two disjoint shares of a positive whole are fractions that add up to at most one. */
  lemma ShareBounded(a: real, b: real, n: real)
    requires 0.0 <= a && 0.0 <= b && a + b <= n && 0.0 < n
    ensures 0.0 <= a / n && 0.0 <= b / n && a / n + b / n <= 1.0
  {
    var x, y := a / n, b / n;
    assert x * n == a && y * n == b;
    assert (x + y) * n == a + b;
  }

  /**
   * `processQualityTrend`: groups the items by date in one pass, sorts the
   * dates and computes the two rates of each. The labels are the distinct
   * dates in ascending order (by `SortedUnique`, the only such list), and the
   * rates at a position are those of the date at that position.
   */
  method ProcessQualityTrend(trend: seq<TrendItem>) returns (q: QualityTrendData)
    ensures StrictlySorted(q.labels)
    ensures forall d :: d in q.labels <==> d in Dates(trend)
    ensures |q.passRates| == |q.labels| && |q.failRates| == |q.labels|
    ensures forall i :: 0 <= i < |q.labels| ==>
      q.passRates[i] == PassRate(DateTally(trend, q.labels[i]))
      && q.failRates[i] == FailRate(DateTally(trend, q.labels[i]))
  {
    var grouped: map<string, Tally> := map[];
    for k := 0 to |trend|
      invariant forall d :: d in grouped <==> d in Dates(trend[..k])
      invariant forall d :: d in grouped ==> grouped[d] == DateTally(trend[..k], d)
    {
      var item := trend[k];
      assert trend[..k + 1][..k] == trend[..k];
      assert Dates(trend[..k + 1]) == Dates(trend[..k]) + {item.date} by {
        forall x ensures x in Dates(trend[..k + 1]) <==> x in Dates(trend[..k]) || x == item.date {
          if x in Dates(trend[..k + 1]) {
            var m :| 0 <= m < k + 1 && trend[..k + 1][m].date == x;
            if m < k {
              assert trend[..k][m].date == x;
            }
          }
          if x in Dates(trend[..k]) {
            var m :| 0 <= m < k && trend[..k][m].date == x;
            assert trend[..k + 1][m].date == x;
          }
          if x == item.date {
            assert trend[..k + 1][k].date == x;
          }
        }
      }
      if item.date !in grouped {
        DateTallyAbsent(trend[..k], item.date);
        grouped := grouped[item.date := Tally(0, 0, 0)];
      }
      grouped := grouped[item.date := Bump(grouped[item.date], item.result)];
    }
    assert trend[..|trend|] == trend;
    var dates := SortKeys(grouped.Keys);
    var passRates: seq<real> := [];
    var failRates: seq<real> := [];
    for i := 0 to |dates|
      invariant |passRates| == i && |failRates| == i
      invariant forall m :: 0 <= m < i ==>
        passRates[m] == PassRate(DateTally(trend, dates[m])) && failRates[m] == FailRate(DateTally(trend, dates[m]))
    {
      var data := grouped[dates[i]];
      passRates := passRates + [PassRate(data)];
      failRates := failRates + [FailRate(data)];
    }
    q := QualityTrendData(dates, passRates, failRates);
  }

  // ---------------------------------------------------------------------------
  // Quality rate
  // ---------------------------------------------------------------------------

  /** The pass rate of a date of the trend. */
  function PassRateOn(trend: seq<TrendItem>): string -> real {
    d => PassRate(DateTally(trend, d))
  }

  /** The pass rates the dashboard averages: one per date, in date order. */
  function PassRatesOf(trend: seq<TrendItem>): seq<real> {
    Map(SortedDates(trend), PassRateOn(trend))
  }

  /** Whatever order the keys come in, the processed trend's pass rates are those of the sorted dates. */
  lemma TrendPassRates(trend: seq<TrendItem>, q: QualityTrendData)
    requires StrictlySorted(q.labels)
    requires forall d :: d in q.labels <==> d in Dates(trend)
    requires |q.passRates| == |q.labels|
    requires forall i :: 0 <= i < |q.labels| ==> q.passRates[i] == PassRate(DateTally(trend, q.labels[i]))
    ensures q.passRates == PassRatesOf(trend)
  {
    SortedDatesSpec(trend);
    SortedUnique(q.labels, SortedDates(trend));
  }

  /** The rounded mean of the pass rates, or 0 when there are none. */
  function QualityRate(passRates: seq<real>): int {
    if |passRates| > 0 then Round(Sum(passRates) / |passRates| as real) else 0
  }

  /** Rates that are percentages give a quality rate between 0 and 100. */
  lemma QualityRateBounded(passRates: seq<real>)
    ensures (forall i :: 0 <= i < |passRates| ==> 0.0 <= passRates[i] <= 100.0) ==>
      0 <= QualityRate(passRates) <= 100
  {
    if |passRates| > 0 && forall i :: 0 <= i < |passRates| ==> 0.0 <= passRates[i] <= 100.0 {
      SumBounded(passRates, 0.0, 100.0);
      var n := |passRates| as real;
      assert Sum(passRates) / n <= 100.0;
    }
  }

  /** The trend's own pass rates always give a quality rate between 0 and 100. */
  lemma TrendQualityRateBounded(trend: seq<TrendItem>, q: QualityTrendData)
    requires |q.passRates| == |q.labels|
    requires forall i :: 0 <= i < |q.labels| ==> q.passRates[i] == PassRate(DateTally(trend, q.labels[i]))
    ensures 0 <= QualityRate(q.passRates) <= 100
  {
    forall i | 0 <= i < |q.passRates| ensures 0.0 <= q.passRates[i] <= 100.0 {
      DateTallySpec(trend, q.labels[i]);
      RatesBounded(DateTally(trend, q.labels[i]));
    }
    QualityRateBounded(q.passRates);
  }
}
