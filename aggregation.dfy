/** The daily aggregation behind AnalyticsController.DayResults: hourly
    readings are grouped by the date part of their timestamp, and each day
    is reduced to its sum, average, maximum and minimum. */
module DailyAggregation {
  import opened Domain

  // ---------------------------------------------------------------------
  // Integer arithmetic as C# does it
  // ---------------------------------------------------------------------

  /** C# integer division by a positive divisor: the quotient is truncated
      toward zero (Dafny's own `/` is Euclidean, which differs for a < 0). */
  function TruncDiv(a: int, n: int): (q: int)
    requires n > 0
    ensures 0 <= a ==> q * n <= a < q * n + n
    ensures a < 0 ==> q * n - n < a <= q * n
  {
    if a >= 0 then a / n else -((-a) / n)
  }

  lemma MulMonotonic(x: int, y: int, n: int)
    requires x <= y && n > 0
    ensures x * n <= y * n
  {
    assert y * n - x * n == (y - x) * n;
  }

  /** A truncated quotient of a value lying between lo * n and hi * n lies
      between lo and hi. */
  lemma TruncDivBetween(a: int, n: int, lo: int, hi: int)
    requires n > 0
    requires lo * n <= a <= hi * n
    ensures lo <= TruncDiv(a, n) <= hi
  {
    var q := TruncDiv(a, n);
    if q > hi {
      MulMonotonic(hi + 1, q, n);
    }
    if q < lo {
      MulMonotonic(q + 1, lo, n);
    }
  }

  // ---------------------------------------------------------------------
  // Reductions over a group of readings
  // ---------------------------------------------------------------------

  /** The total power of a sequence of readings. */
  function TotalKiloWatt(g: seq<OneHourElectricity>): int
  {
    if g == [] then 0 else g[0].kiloWatt + TotalKiloWatt(g[1..])
  }

  /** m is the smallest power in g. */
  predicate IsMinimum(m: int, g: seq<OneHourElectricity>)
  {
    (exists i :: 0 <= i < |g| && g[i].kiloWatt == m) &&
    (forall i :: 0 <= i < |g| ==> m <= g[i].kiloWatt)
  }

  /** m is the largest power in g. */
  predicate IsMaximum(m: int, g: seq<OneHourElectricity>)
  {
    (exists i :: 0 <= i < |g| && g[i].kiloWatt == m) &&
    (forall i :: 0 <= i < |g| ==> g[i].kiloWatt <= m)
  }

  function Minimum(g: seq<OneHourElectricity>): (m: int)
    requires |g| > 0
    ensures IsMinimum(m, g)
  {
    if |g| == 1 then g[0].kiloWatt
    else
      var rest := Minimum(g[1..]);
      if g[0].kiloWatt <= rest then g[0].kiloWatt else rest
  }

  function Maximum(g: seq<OneHourElectricity>): (m: int)
    requires |g| > 0
    ensures IsMaximum(m, g)
  {
    if |g| == 1 then g[0].kiloWatt
    else
      var rest := Maximum(g[1..]);
      if g[0].kiloWatt >= rest then g[0].kiloWatt else rest
  }

  /** A sum of |g| values, each between lo and hi, lies between lo * |g| and hi * |g|. */
  lemma {:induction false} TotalBetween(g: seq<OneHourElectricity>, lo: int, hi: int)
    requires forall i :: 0 <= i < |g| ==> lo <= g[i].kiloWatt <= hi
    ensures lo * |g| <= TotalKiloWatt(g) <= hi * |g|
  {
    if g != [] {
      TotalBetween(g[1..], lo, hi);
      assert lo * |g| == lo * (|g| - 1) + lo;
      assert hi * |g| == hi * (|g| - 1) + hi;
    }
  }

  /** s is the summary of the non-empty group g: its sum, its truncated
      average, its largest and its smallest power. */
  predicate IsDaySummary(s: OneDayElectricityModel, g: seq<OneHourElectricity>)
  {
    |g| > 0 &&
    s.sum == TotalKiloWatt(g) &&
    s.average == TruncDiv(TotalKiloWatt(g), |g|) &&
    IsMaximum(s.maximum, g) &&
    IsMinimum(s.minimum, g)
  }

  /** The summary of one day's readings. */
  function Summarize(d: Date, g: seq<OneHourElectricity>): (s: OneDayElectricityModel)
    requires |g| > 0
    ensures s.date == d
    ensures IsDaySummary(s, g)
  {
    OneDayElectricityModel(d, TotalKiloWatt(g), TruncDiv(TotalKiloWatt(g), |g|), Maximum(g), Minimum(g))
  }

  /** Every day summary has its average between its minimum and its maximum. */
  lemma AverageBetweenExtremes(s: OneDayElectricityModel, g: seq<OneHourElectricity>)
    requires IsDaySummary(s, g)
    ensures s.minimum <= s.average <= s.maximum
  {
    TotalBetween(g, s.minimum, s.maximum);
    TruncDivBetween(TotalKiloWatt(g), |g|, s.minimum, s.maximum);
  }

  /** A day with a single reading has that reading's power as sum, average,
      minimum and maximum. */
  lemma SingleReadingDay(d: Date, e: OneHourElectricity)
    ensures Summarize(d, [e]) == OneDayElectricityModel(d, e.kiloWatt, e.kiloWatt, e.kiloWatt, e.kiloWatt)
  {
    assert TotalKiloWatt([e]) == e.kiloWatt by { assert [e][1..] == []; }
    assert TruncDiv(e.kiloWatt, 1) == e.kiloWatt;
    assert Minimum([e]) == e.kiloWatt;
    assert Maximum([e]) == e.kiloWatt;
  }

  /** A day with two readings: their total, its truncated half, the larger
      and the smaller of the two. */
  lemma TwoReadingDay(d: Date, a: OneHourElectricity, b: OneHourElectricity)
    ensures Summarize(d, [a, b]) ==
            OneDayElectricityModel(d, a.kiloWatt + b.kiloWatt, TruncDiv(a.kiloWatt + b.kiloWatt, 2),
                                   if a.kiloWatt >= b.kiloWatt then a.kiloWatt else b.kiloWatt,
                                   if a.kiloWatt <= b.kiloWatt then a.kiloWatt else b.kiloWatt)
  {
    assert [a, b][1..] == [b] && [b][1..] == [];
    assert TotalKiloWatt([b]) == b.kiloWatt;
    assert TotalKiloWatt([a, b]) == a.kiloWatt + b.kiloWatt;
  }

  // ---------------------------------------------------------------------
  // Grouping by date
  // ---------------------------------------------------------------------

  /** The distinct dates present in a sequence of readings. */
  function DatesOf(rs: seq<OneHourElectricity>): set<Date>
  {
    set i | 0 <= i < |rs| :: rs[i].dateTime.date
  }

  /** The readings of rs whose timestamp falls on date d, in their original order. */
  function ReadingsOn(rs: seq<OneHourElectricity>, d: Date): (g: seq<OneHourElectricity>)
    ensures forall e :: e in g <==> e in rs && e.dateTime.date == d
    ensures |g| <= |rs|
  {
    if rs == [] then []
    else if rs[0].dateTime.date == d then [rs[0]] + ReadingsOn(rs[1..], d)
    else ReadingsOn(rs[1..], d)
  }

  /** A day's group keeps every reading of that day as often as it occurs,
      duplicates included, and holds nothing else. */
  lemma {:induction false} ReadingsOnCounts(rs: seq<OneHourElectricity>, d: Date)
    ensures forall e :: multiset(ReadingsOn(rs, d))[e] == if e.dateTime.date == d then multiset(rs)[e] else 0
  {
    if rs != [] {
      ReadingsOnCounts(rs[1..], d);
      assert rs == [rs[0]] + rs[1..];
      assert multiset(rs) == multiset([rs[0]]) + multiset(rs[1..]);
    }
  }

  /** A date present in the readings has a non-empty group. */
  lemma PresentDateHasReadings(rs: seq<OneHourElectricity>, d: Date)
    requires d in DatesOf(rs)
    ensures |ReadingsOn(rs, d)| > 0
  {
    var i :| 0 <= i < |rs| && rs[i].dateTime.date == d;
    assert rs[i] in ReadingsOn(rs, d);
  }

  predicate StrictlyAscending(ds: seq<Date>)
  {
    forall i, j :: 0 <= i < j < |ds| ==> ds[i] < ds[j]
  }

  /** Inserts d into the strictly ascending ds, unless it is already there. */
  function InsertDate(d: Date, ds: seq<Date>): (r: seq<Date>)
    requires StrictlyAscending(ds)
    ensures StrictlyAscending(r)
    ensures forall x :: x in r <==> x == d || x in ds
  {
    if ds == [] then [d]
    else if d < ds[0] then [d] + ds
    else if d == ds[0] then ds
    else
      var rest := InsertDate(d, ds[1..]);
      assert forall k :: 0 <= k < |rest| ==> ds[0] < rest[k] by {
        forall k | 0 <= k < |rest| ensures ds[0] < rest[k] {
          assert rest[k] in rest;
        }
      }
      var r := [ds[0]] + rest;
      assert forall i, j :: 0 <= i < j < |r| ==> r[i] < r[j] by {
        forall i, j | 0 <= i < j < |r| ensures r[i] < r[j] {
          if i > 0 {
            assert r[i] == rest[i - 1] && r[j] == rest[j - 1];
          }
        }
      }
      r
  }

  /** The distinct dates of the readings, earliest first. */
  function SortedDates(rs: seq<OneHourElectricity>): (ds: seq<Date>)
    ensures StrictlyAscending(ds)
    ensures forall x :: x in ds <==> x in DatesOf(rs)
  {
    if rs == [] then []
    else
      var rest := SortedDates(rs[1..]);
      assert forall x :: x in DatesOf(rs) <==> x == rs[0].dateTime.date || x in DatesOf(rs[1..]) by {
        forall x | x in DatesOf(rs[1..]) ensures x in DatesOf(rs) {
          var i :| 0 <= i < |rs[1..]| && rs[1..][i].dateTime.date == x;
          assert rs[i + 1].dateTime.date == x;
        }
        forall x | x in DatesOf(rs) && x != rs[0].dateTime.date ensures x in DatesOf(rs[1..]) {
          var i :| 0 <= i < |rs| && rs[i].dateTime.date == x;
          assert rs[1..][i - 1].dateTime.date == x;
        }
      }
      InsertDate(rs[0].dateTime.date, rest)
  }

  /** A strictly ascending sequence has as many elements as its set of elements. */
  lemma {:induction false} AscendingCardinality(ds: seq<Date>)
    requires StrictlyAscending(ds)
    ensures |set x | x in ds| == |ds|
  {
    if ds != [] {
      AscendingCardinality(ds[1..]);
      assert (set x | x in ds) == {ds[0]} + (set x | x in ds[1..]);
      assert ds[0] !in ds[1..];
    }
  }

  /** One summary per date of ds, in the order of ds. */
  function Summaries(rs: seq<OneHourElectricity>, ds: seq<Date>): (r: seq<OneDayElectricityModel>)
    requires forall d :: d in ds ==> d in DatesOf(rs)
    ensures |r| == |ds|
    ensures forall i :: 0 <= i < |r| ==> r[i].date == ds[i] && IsDaySummary(r[i], ReadingsOn(rs, ds[i]))
  {
    if ds == [] then []
    else
      PresentDateHasReadings(rs, ds[0]);
      [Summarize(ds[0], ReadingsOn(rs, ds[0]))] + Summaries(rs, ds[1..])
  }

  /** DayResults: one summary per distinct date of the readings, earliest
      date first, each summarizing exactly the readings of its date. */
  function DailySummaries(rs: seq<OneHourElectricity>): (r: seq<OneDayElectricityModel>)
    ensures |r| == |DatesOf(rs)|
    ensures forall i, j :: 0 <= i < j < |r| ==> r[i].date < r[j].date
    ensures forall d :: d in DatesOf(rs) <==> exists i :: 0 <= i < |r| && r[i].date == d
    ensures forall i :: 0 <= i < |r| ==> IsDaySummary(r[i], ReadingsOn(rs, r[i].date))
  {
    var ds := SortedDates(rs);
    AscendingCardinality(ds);
    assert (set x | x in ds) == DatesOf(rs);
    Summaries(rs, ds)
  }

  // ---------------------------------------------------------------------
  // Properties of the daily summaries
  // ---------------------------------------------------------------------

  /** The sum of the day sums of a sequence of summaries. */
  function TotalOfSums(ss: seq<OneDayElectricityModel>): int
  {
    if ss == [] then 0 else ss[0].sum + TotalOfSums(ss[1..])
  }

  /** The power of the readings on dates ds, date by date. */
  function PowerOnDates(rs: seq<OneHourElectricity>, ds: seq<Date>): int
  {
    if ds == [] then 0 else TotalKiloWatt(ReadingsOn(rs, ds[0])) + PowerOnDates(rs, ds[1..])
  }

  lemma {:induction false} PowerOnDatesOfNothing(ds: seq<Date>)
    ensures PowerOnDates([], ds) == 0
  {
    if ds != [] {
      PowerOnDatesOfNothing(ds[1..]);
    }
  }

  /** Removing the first reading removes its power from the date it falls on,
      if that date is one of the distinct dates ds, and from no other. */
  lemma {:induction false} PowerOnDatesPeel(rs: seq<OneHourElectricity>, ds: seq<Date>)
    requires |rs| > 0
    requires StrictlyAscending(ds)
    ensures PowerOnDates(rs, ds) ==
            (if rs[0].dateTime.date in ds then rs[0].kiloWatt else 0) + PowerOnDates(rs[1..], ds)
  {
    if ds != [] {
      PowerOnDatesPeel(rs, ds[1..]);
      assert ds[0] !in ds[1..];
      assert rs[0].dateTime.date in ds <==> rs[0].dateTime.date == ds[0] || rs[0].dateTime.date in ds[1..];
    }
  }

  /** Summing date by date over distinct dates that cover every reading gives the total power. */
  lemma {:induction false} PowerOnCoveringDates(rs: seq<OneHourElectricity>, ds: seq<Date>)
    requires StrictlyAscending(ds)
    requires forall i :: 0 <= i < |rs| ==> rs[i].dateTime.date in ds
    ensures PowerOnDates(rs, ds) == TotalKiloWatt(rs)
  {
    if rs == [] {
      PowerOnDatesOfNothing(ds);
    } else {
      PowerOnDatesPeel(rs, ds);
      PowerOnCoveringDates(rs[1..], ds);
    }
  }

  lemma {:induction false} SummariesTotal(rs: seq<OneHourElectricity>, ds: seq<Date>)
    requires forall d :: d in ds ==> d in DatesOf(rs)
    ensures TotalOfSums(Summaries(rs, ds)) == PowerOnDates(rs, ds)
  {
    if ds != [] {
      SummariesTotal(rs, ds[1..]);
      assert Summaries(rs, ds)[1..] == Summaries(rs, ds[1..]);
    }
  }

  /** Conservation of energy: the day sums add up to the total power of all readings. */
  lemma EnergyConserved(rs: seq<OneHourElectricity>)
    ensures TotalOfSums(DailySummaries(rs)) == TotalKiloWatt(rs)
  {
    var ds := SortedDates(rs);
    assert forall i :: 0 <= i < |rs| ==> rs[i].dateTime.date in DatesOf(rs);
    SummariesTotal(rs, ds);
    PowerOnCoveringDates(rs, ds);
  }

  /** Every daily summary has its average between its minimum and its maximum. */
  lemma DailyAverageBetweenExtremes(rs: seq<OneHourElectricity>)
    ensures forall s :: s in DailySummaries(rs) ==> s.minimum <= s.average <= s.maximum
  {
    var ss := DailySummaries(rs);
    forall s | s in ss ensures s.minimum <= s.average <= s.maximum {
      var i :| 0 <= i < |ss| && ss[i] == s;
      AverageBetweenExtremes(s, ReadingsOn(rs, s.date));
    }
  }

  /** Readings on one date all land in a single summary, whatever their hours. */
  lemma SameDateSameSummary(rs: seq<OneHourElectricity>, a: nat, b: nat)
    requires a < |rs| && b < |rs|
    requires rs[a].dateTime.date == rs[b].dateTime.date
    ensures exists i :: 0 <= i < |DailySummaries(rs)| &&
                        DailySummaries(rs)[i].date == rs[a].dateTime.date &&
                        rs[a] in ReadingsOn(rs, DailySummaries(rs)[i].date) &&
                        rs[b] in ReadingsOn(rs, DailySummaries(rs)[i].date)
  {
    var d := rs[a].dateTime.date;
    assert d in DatesOf(rs);
    var i :| 0 <= i < |DailySummaries(rs)| && DailySummaries(rs)[i].date == d;
    assert rs[a] in rs && rs[b] in rs;
  }
}
