/** The fixtures and expectations of AnalyticsControllerTests, stated over
    the model. */
module AnalyticsScenarios {
  import opened Domain
  import opened DailyAggregation
  import opened Analytics

  /** The serial of the only registered panel. */
  const PanelSerial: string := "0123456789ABCDEF"

  /** A serial that no panel has. */
  const UnknownSerial: string := "1234576890qpowke"

  function RegisteredPanels(): seq<Panel>
  {
    [Panel(1, PanelSerial)]
  }

  /** The registry of the fixture knows exactly one serial, so Post's guard
      admits that serial and nothing else. */
  lemma RegistryAdmitsOnlyPanelSerial(c: AnalyticsController, serial: string)
    requires c.panels == RegisteredPanels()
    ensures c.IsRegistered(serial) <==> serial == PanelSerial
  {
    if serial == PanelSerial {
      assert c.panels[0].serial == PanelSerial;
    }
  }

  /** The readings fixture of DayResults_ShouldRetrieveSumMixMaxAvg as written:
      day1 is the current time, the second reading one hour later, day2 one
      day after day1 and the fourth reading one hour after day2. */
  function TestReadings(day1: DateTime): (rs: seq<OneHourElectricity>)
    ensures |rs| == 4
    ensures rs[0] == OneHourElectricity(1, PanelSerial, 100, day1)
    ensures rs[1] == OneHourElectricity(2, PanelSerial, 150,
                       if day1.hour < 23 then DateTime(day1.date, day1.hour + 1) else DateTime(day1.date + 1, 0))
    ensures rs[2] == OneHourElectricity(3, PanelSerial, 200, DateTime(day1.date + 1, day1.hour))
    ensures rs[3] == OneHourElectricity(4, PanelSerial, 250,
                       if day1.hour < 23 then DateTime(day1.date + 1, day1.hour + 1) else DateTime(day1.date + 2, 0))
  {
    var day2 := AddDays(day1, 1);
    [ OneHourElectricity(1, PanelSerial, 100, day1),
      OneHourElectricity(2, PanelSerial, 150, AddHours(day1, 1)),
      OneHourElectricity(3, PanelSerial, 200, day2),
      OneHourElectricity(4, PanelSerial, 250, AddHours(day2, 1)) ]
  }

  /** The daily summaries the test expects when day1 falls on date d. */
  function ExpectedSummaries(d: Date): seq<OneDayElectricityModel>
  {
    [ OneDayElectricityModel(d, 250, 125, 150, 100),
      OneDayElectricityModel(d + 1, 450, 225, 250, 200) ]
  }

  /** A fixture whose readings all belong to the same panel is its own panel listing. */
  lemma {:induction false} ForPanelOfOnePanel(rs: seq<OneHourElectricity>, panelId: string)
    requires forall i :: 0 <= i < |rs| ==> rs[i].panelId == panelId
    ensures ForPanel(rs, panelId) == rs
  {
    if rs != [] {
      ForPanelOfOnePanel(rs[1..], panelId);
    }
  }

  /** Four readings, two on date d followed by two on date d + 1, are
      summarized as those two days. */
  lemma TwoDaysOfTwoReadings(a: OneHourElectricity, b: OneHourElectricity,
                             c: OneHourElectricity, e: OneHourElectricity, d: Date)
    requires a.dateTime.date == d && b.dateTime.date == d
    requires c.dateTime.date == d + 1 && e.dateTime.date == d + 1
    ensures DailySummaries([a, b, c, e]) == [Summarize(d, [a, b]), Summarize(d + 1, [c, e])]
  {
    var rs := [a, b, c, e];
    TwoDaysDates(a, b, c, e, d);
    TwoDaysGroups(a, b, c, e, d);
    SummariesOfTwoDates(rs, d, d + 1);
  }

  lemma TwoDaysDates(a: OneHourElectricity, b: OneHourElectricity,
                     c: OneHourElectricity, e: OneHourElectricity, d: Date)
    requires a.dateTime.date == d && b.dateTime.date == d
    requires c.dateTime.date == d + 1 && e.dateTime.date == d + 1
    ensures SortedDates([a, b, c, e]) == [d, d + 1]
  {
    var rs := [a, b, c, e];
    assert rs[1..] == [b, c, e] && rs[1..][1..] == [c, e] && rs[1..][1..][1..] == [e];
    assert [e][1..] == [];
    assert SortedDates([e]) == [d + 1];
    assert SortedDates([c, e]) == [d + 1];
    assert SortedDates([b, c, e]) == [d, d + 1];
  }

  lemma TwoDaysGroups(a: OneHourElectricity, b: OneHourElectricity,
                      c: OneHourElectricity, e: OneHourElectricity, d: Date)
    requires a.dateTime.date == d && b.dateTime.date == d
    requires c.dateTime.date == d + 1 && e.dateTime.date == d + 1
    ensures ReadingsOn([a, b, c, e], d) == [a, b]
    ensures ReadingsOn([a, b, c, e], d + 1) == [c, e]
  {
    var rs := [a, b, c, e];
    assert rs[1..] == [b, c, e] && rs[1..][1..] == [c, e] && rs[1..][1..][1..] == [e];
    assert [e][1..] == [];
    assert ReadingsOn([e], d) == [] && ReadingsOn([c, e], d) == [];
    assert ReadingsOn([b, c, e], d) == [b];
    assert ReadingsOn([e], d + 1) == [e] && ReadingsOn([c, e], d + 1) == [c, e];
    assert ReadingsOn([b, c, e], d + 1) == [c, e];
  }

  /** Four readings on dates d, d + 1, d + 1 and d + 2 are summarized as three days. */
  lemma ThreeDays(a: OneHourElectricity, b: OneHourElectricity,
                  c: OneHourElectricity, e: OneHourElectricity, d: Date)
    requires a.dateTime.date == d && b.dateTime.date == d + 1
    requires c.dateTime.date == d + 1 && e.dateTime.date == d + 2
    ensures DailySummaries([a, b, c, e]) == [Summarize(d, [a]), Summarize(d + 1, [b, c]), Summarize(d + 2, [e])]
  {
    var rs := [a, b, c, e];
    ThreeDaysDates(a, b, c, e, d);
    ThreeDaysGroups(a, b, c, e, d);
    SummariesOfThreeDates(rs, d, d + 1, d + 2);
  }

  lemma ThreeDaysDates(a: OneHourElectricity, b: OneHourElectricity,
                       c: OneHourElectricity, e: OneHourElectricity, d: Date)
    requires a.dateTime.date == d && b.dateTime.date == d + 1
    requires c.dateTime.date == d + 1 && e.dateTime.date == d + 2
    ensures SortedDates([a, b, c, e]) == [d, d + 1, d + 2]
  {
    var rs := [a, b, c, e];
    assert rs[1..] == [b, c, e] && rs[1..][1..] == [c, e] && rs[1..][1..][1..] == [e];
    assert [e][1..] == [];
    assert SortedDates([e]) == [d + 2];
    assert SortedDates([c, e]) == [d + 1, d + 2];
    assert SortedDates([b, c, e]) == [d + 1, d + 2];
  }

  lemma ThreeDaysGroups(a: OneHourElectricity, b: OneHourElectricity,
                        c: OneHourElectricity, e: OneHourElectricity, d: Date)
    requires a.dateTime.date == d && b.dateTime.date == d + 1
    requires c.dateTime.date == d + 1 && e.dateTime.date == d + 2
    ensures ReadingsOn([a, b, c, e], d) == [a]
    ensures ReadingsOn([a, b, c, e], d + 1) == [b, c]
    ensures ReadingsOn([a, b, c, e], d + 2) == [e]
  {
    var rs := [a, b, c, e];
    assert rs[1..] == [b, c, e] && rs[1..][1..] == [c, e] && rs[1..][1..][1..] == [e];
    assert [e][1..] == [];
    assert ReadingsOn([e], d) == [] && ReadingsOn([c, e], d) == [];
    assert ReadingsOn([b, c, e], d) == [];
    assert ReadingsOn([e], d + 1) == [] && ReadingsOn([c, e], d + 1) == [c];
    assert ReadingsOn([b, c, e], d + 1) == [b, c];
    assert ReadingsOn([e], d + 2) == [e] && ReadingsOn([c, e], d + 2) == [e];
    assert ReadingsOn([b, c, e], d + 2) == [e];
  }

  lemma SummariesOfTwoDates(rs: seq<OneHourElectricity>, x: Date, y: Date)
    requires x in DatesOf(rs) && y in DatesOf(rs)
    ensures Summaries(rs, [x, y]) == [Summarize(x, ReadingsOn(rs, x)), Summarize(y, ReadingsOn(rs, y))]
  {
    assert [x, y][1..] == [y] && [y][1..] == [];
  }

  lemma SummariesOfThreeDates(rs: seq<OneHourElectricity>, x: Date, y: Date, z: Date)
    requires x in DatesOf(rs) && y in DatesOf(rs) && z in DatesOf(rs)
    ensures Summaries(rs, [x, y, z]) ==
            [Summarize(x, ReadingsOn(rs, x)), Summarize(y, ReadingsOn(rs, y)), Summarize(z, ReadingsOn(rs, z))]
  {
    assert [x, y, z][1..] == [y, z];
    SummariesOfTwoDates(rs, y, z);
  }

  /** Readings of 100 and 150 kW on date d and of 200 and 250 kW on date
      d + 1 give the summaries the test expects. */
  lemma ExpectedOfTwoDays(a: OneHourElectricity, b: OneHourElectricity,
                          c: OneHourElectricity, e: OneHourElectricity, d: Date)
    requires a.dateTime.date == d && b.dateTime.date == d
    requires c.dateTime.date == d + 1 && e.dateTime.date == d + 1
    requires a.kiloWatt == 100 && b.kiloWatt == 150 && c.kiloWatt == 200 && e.kiloWatt == 250
    ensures DailySummaries([a, b, c, e]) == ExpectedSummaries(d)
  {
    assert [Summarize(d, [a, b]), Summarize(d + 1, [c, e])] == ExpectedSummaries(d) by {
      ExpectedDay(d, a, b, 250, 125);
      ExpectedDay(d + 1, c, e, 450, 225);
    }
    TwoDaysOfTwoReadings(a, b, c, e, d);
  }

  /** A day of two readings, the second the larger, summarizes as the test
      expects once the truncated half of their total is known. */
  lemma ExpectedDay(d: Date, a: OneHourElectricity, b: OneHourElectricity, sum: int, average: int)
    requires a.kiloWatt < b.kiloWatt && sum == a.kiloWatt + b.kiloWatt && sum == 2 * average
    ensures Summarize(d, [a, b]) == OneDayElectricityModel(d, sum, average, b.kiloWatt, a.kiloWatt)
  {
    TwoReadingDay(d, a, b);
    assert sum >= 0 ==> TruncDiv(sum, 2) == average;
  }

  /** Any time before 23:00: two summaries, day1 first, with the sum, truncated
      average, maximum and minimum the test asserts. */
  lemma DayResultsBeforeLastHour(day1: DateTime)
    requires day1.hour < 23
    ensures DailySummaries(ForPanel(TestReadings(day1), PanelSerial)) == ExpectedSummaries(day1.date)
  {
    var d := day1.date;
    var rs := TestReadings(day1);
    var a, b, c, e := rs[0], rs[1], rs[2], rs[3];
    assert rs == [a, b, c, e];
    ForPanelOfOnePanel(rs, PanelSerial);
    ExpectedOfTwoDays(a, b, c, e, d);
  }

  /** From 23:00 on, the hour added to day1 and to day2 crosses midnight: the
      readings span three dates and the test's expectation of two summaries fails. */
  lemma DayResultsInLastHour(day1: DateTime)
    requires day1.hour == 23
    ensures DailySummaries(ForPanel(TestReadings(day1), PanelSerial)) ==
            [ OneDayElectricityModel(day1.date, 100, 100, 100, 100),
              OneDayElectricityModel(day1.date + 1, 350, 175, 200, 150),
              OneDayElectricityModel(day1.date + 2, 250, 250, 250, 250) ]
    ensures |DailySummaries(ForPanel(TestReadings(day1), PanelSerial))| != 2
  {
    var d := day1.date;
    var rs := TestReadings(day1);
    var a, b, c, e := rs[0], rs[1], rs[2], rs[3];
    assert rs == [a, b, c, e];
    ForPanelOfOnePanel(rs, PanelSerial);
    ThreeDays(a, b, c, e, d);
    SingleReadingDay(d, a);
    TwoReadingDay(d + 1, b, c);
    SingleReadingDay(d + 2, e);
  }

  /** The fixture with explicit hours 0 and 1 on dates d and d + 1, so that
      the two readings of a day always share their date. */
  function FixedTestReadings(d: Date): seq<OneHourElectricity>
  {
    TestReadings(DateTime(d, 0))
  }

  /** With the fixed fixture the test's expectation holds on every date. */
  lemma DayResultsFixedFixture(d: Date)
    ensures DailySummaries(ForPanel(FixedTestReadings(d), PanelSerial)) == ExpectedSummaries(d)
  {
    DayResultsBeforeLastHour(DateTime(d, 0));
  }

  /** The average truncates: (100 + 151) / 2 is 125. */
  lemma AverageTruncates(d: Date, t: DateTime, u: DateTime)
    requires t.date == d && u.date == d
    ensures Summarize(d, [OneHourElectricity(1, PanelSerial, 100, t), OneHourElectricity(2, PanelSerial, 151, u)]).average == 125
  {
    TwoReadingDay(d, OneHourElectricity(1, PanelSerial, 100, t), OneHourElectricity(2, PanelSerial, 151, u));
  }

  /** Get_ShouldRetrieveAnalytics: one stored reading gives a one-element
      listing carrying its id, power and timestamp. */
  method GetRetrievesAnalytics(now: DateTime) returns (model: OneHourElectricityListModel)
    ensures |model.oneHourElectricitys| == 1
    ensures model.oneHourElectricitys[0] == OneHourElectricityModel(1, 454673, now)
  {
    var reading := OneHourElectricity(1, PanelSerial, 454673, now);
    var controller := new AnalyticsController([reading], RegisteredPanels());
    assert [reading][1..] == [];
    model := controller.Get(PanelSerial);
  }

  /** Post_ShouldSaveSave: posting to the registered serial is Created with
      the submitted values, and the reading is stored for that panel. */
  method PostSavesForRegisteredPanel(now: DateTime)
    returns (created: PostResult, stored: seq<OneHourElectricity>)
    ensures created == Created(OneHourElectricityModel(1, 2000, now))
    ensures stored == [OneHourElectricity(1, PanelSerial, 2000, now)]
  {
    var controller := new AnalyticsController([], RegisteredPanels());
    var model := OneHourElectricityModel(1, 2000, now);
    assert controller.IsRegistered(PanelSerial) by {
      assert controller.panels[0].serial == PanelSerial;
    }
    created := controller.Post(PanelSerial, model);
    stored := controller.analytics;
  }

  /** Post_ShouldSaveToRegisteredPanel: posting to a serial no panel has is
      NotFound, and nothing is stored. */
  method PostRejectsUnknownPanel(now: DateTime)
    returns (rejected: PostResult, stored: seq<OneHourElectricity>)
    ensures rejected == NotFound
    ensures stored == []
  {
    var controller := new AnalyticsController([], RegisteredPanels());
    var model := OneHourElectricityModel(1, 2000, now);
    assert !controller.IsRegistered(UnknownSerial) by {
      assert UnknownSerial != PanelSerial;
    }
    rejected := controller.Post(UnknownSerial, model);
    stored := controller.analytics;
  }
}
