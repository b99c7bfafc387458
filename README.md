# CrossSolar panel analytics, modelled in Dafny

CrossSolar stores the hourly electricity readings of registered solar panels.
Its `AnalyticsController` does three things with them:

- `Get(panelId)` lists the readings of a panel.
- `DayResults(panelId)` summarizes them per calendar day. Each day gets its
  sum, its average, its maximum and its minimum, earliest day first.
- `Post(panelId, model)` stores a new reading. This only happens when a panel
  with that serial is registered.

The controller's own source is not part of this model. Its behaviour is taken
from the xUnit tests in `CrossSolar.Tests/Controller/AnalyticsControllerTests.cs`.

Files:

- `domain.dfy` (module `Domain`): the entities. A timestamp is a date (a day
  number) plus an hour of that day. It has `AddHours` and `AddDays`.
- `aggregation.dfy` (module `DailyAggregation`): the daily aggregation. It is
  a set of pure functions, and its properties are proved as lemmas.
- `controller.dfy` (module `Analytics`): the controller as a class. Its fields
  are the analytics store (`analytics: seq<OneHourElectricity>`) and the panel
  registry (`panels: seq<Panel>`). `Get` and `DayResults` are functions that
  read these fields. `Post` is a method that modifies them.
- `scenarios.dfy` (module `AnalyticsScenarios`): the tests' fixtures and the
  values they expect, proved for every date.

Modelling decisions:

- `Average` is the day's sum divided by its count using C#'s integer division,
  which truncates toward zero. This is `TruncDiv`. KiloWatt values may be
  negative, so Dafny's Euclidean `/` is not used on its own.
- A day is the date part of a reading's timestamp. The time of day is ignored.
- `Get` and `DayResults` only consider readings whose `PanelId` is the
  requested serial. The tests' mock returns every reading, and all of them
  carry the registered serial, so the tests cannot tell these two apart.
- The assertion at line 180 compares `Average` with an integer quotient,
  `(100 + 150) / 2`. The model follows that integer division.

## Model

| member | source | states |
|---|---|---|
| Domain.AddHours | CrossSolar.Tests/Controller/AnalyticsControllerTests.cs:138 | `AddHours` moves a timestamp by exactly that many hours, forward or back, on one hour axis. It keeps the date while the new hour stays within 0..23, and moves to the next date once the hour reaches 24. |
| Domain.AddDays | CrossSolar.Tests/Controller/AnalyticsControllerTests.cs:124 | `AddDays` moves a timestamp by exactly that many whole days, 24 hours each, and keeps its hour. |
| Domain.ToModel | CrossSolar.Tests/Controller/AnalyticsControllerTests.cs:54-59 | The model of a reading copies its Id, KiloWatt and DateTime. |
| Domain.FromModel | CrossSolar.Tests/Controller/AnalyticsControllerTests.cs:95-101 | The entity built from a submitted model carries the route's panel id. It maps back to exactly the submitted Id, KiloWatt and DateTime. |
| Domain.EntityRoundTrip | CrossSolar.Tests/Controller/AnalyticsControllerTests.cs:95-101 | Rebuilding a reading from its model, for the reading's own panel, gives back the same reading. |
| DailyAggregation.TruncDiv | CrossSolar.Tests/Controller/AnalyticsControllerTests.cs:180 | The quotient truncates toward zero. For a non-negative sum, `q*n <= a < q*n + n`. For a negative sum, `q*n - n < a <= q*n`. |
| DailyAggregation.TruncDivBetween | CrossSolar.Tests/Controller/AnalyticsControllerTests.cs:180 | If a value lies between `lo*n` and `hi*n`, its truncated quotient by `n` lies between `lo` and `hi`. |
| DailyAggregation.Minimum | CrossSolar.Tests/Controller/AnalyticsControllerTests.cs:182 | The result is the KiloWatt of some reading of the group, and no reading of the group is smaller. |
| DailyAggregation.Maximum | CrossSolar.Tests/Controller/AnalyticsControllerTests.cs:181 | The result is the KiloWatt of some reading of the group, and no reading of the group is larger. |
| DailyAggregation.TotalBetween | CrossSolar.Tests/Controller/AnalyticsControllerTests.cs:179-182 | If every reading lies between `lo` and `hi`, the group's sum lies between `lo*count` and `hi*count`. |
| DailyAggregation.Summarize | CrossSolar.Tests/Controller/AnalyticsControllerTests.cs:179-182 | The summary of a non-empty group keeps its date. Its Sum is the group's total and its Average is that total divided by the count under truncating division. Its Maximum and Minimum are the group's extremes. |
| DailyAggregation.AverageBetweenExtremes | CrossSolar.Tests/Controller/AnalyticsControllerTests.cs:180-182 | Any day summary satisfies `Minimum <= Average <= Maximum`. |
| DailyAggregation.SingleReadingDay | CrossSolar.Tests/Controller/AnalyticsControllerTests.cs:179-182 | A day with one reading has that reading's power as its sum, average, minimum and maximum. |
| DailyAggregation.TwoReadingDay | CrossSolar.Tests/Controller/AnalyticsControllerTests.cs:179-182 | A day with two readings has their total as Sum, the total divided by 2 with truncation as Average, the larger as Maximum and the smaller as Minimum. |
| DailyAggregation.ReadingsOn | CrossSolar.Tests/Controller/AnalyticsControllerTests.cs:178 | A reading is in a day's group if and only if it is one of the readings and its timestamp's date is that day, at any hour. The group is no longer than the readings. |
| DailyAggregation.ReadingsOnCounts | CrossSolar.Tests/Controller/AnalyticsControllerTests.cs:178 | A day's group holds each reading of that day exactly as often as the readings do, duplicates included, and no reading of another day. |
| DailyAggregation.PresentDateHasReadings | CrossSolar.Tests/Controller/AnalyticsControllerTests.cs:178 | Every date that occurs in the readings has a non-empty group. |
| DailyAggregation.InsertDate | CrossSolar.Tests/Controller/AnalyticsControllerTests.cs:173-178 | Inserting a date into a strictly ascending list keeps it strictly ascending. The result holds that date plus the old elements, and nothing else. |
| DailyAggregation.SortedDates | CrossSolar.Tests/Controller/AnalyticsControllerTests.cs:173-178 | The result is strictly ascending, so it has no duplicate dates. Its elements are exactly the dates present in the readings. |
| DailyAggregation.AscendingCardinality | CrossSolar.Tests/Controller/AnalyticsControllerTests.cs:173 | A strictly ascending list of dates has as many elements as it has distinct dates. |
| DailyAggregation.Summaries | CrossSolar.Tests/Controller/AnalyticsControllerTests.cs:173-182 | There is one summary per listed date, in the same order. Each summary summarizes exactly that date's readings. |
| DailyAggregation.DailySummaries | CrossSolar.Tests/Controller/AnalyticsControllerTests.cs:168-182 | The number of summaries equals the number of distinct dates. Summary dates are strictly ascending. A date has a summary if and only if it occurs in the readings. Each summary is the sum, truncated average, maximum and minimum of exactly its date's readings. |
| DailyAggregation.PowerOnCoveringDates | CrossSolar.Tests/Controller/AnalyticsControllerTests.cs:179 | Summing each day's total over distinct dates that cover every reading gives the total of all readings. |
| DailyAggregation.EnergyConserved | CrossSolar.Tests/Controller/AnalyticsControllerTests.cs:179 | The day Sums add up to the total KiloWatt of all readings. |
| DailyAggregation.DailyAverageBetweenExtremes | CrossSolar.Tests/Controller/AnalyticsControllerTests.cs:180-182 | Every returned summary satisfies `Minimum <= Average <= Maximum`. |
| DailyAggregation.SameDateSameSummary | CrossSolar.Tests/Controller/AnalyticsControllerTests.cs:134-140 | Two readings on the same date fall into one common summary whatever their hours, as the 100 kW and 150 kW readings do. |
| Analytics.ForPanel | CrossSolar.Tests/Controller/AnalyticsControllerTests.cs:61-71 | A reading is in a panel's listing if and only if it is stored and carries the panel's serial. The listing is no longer than the store. |
| Analytics.ForPanelCounts | CrossSolar.Tests/Controller/AnalyticsControllerTests.cs:61-71 | A panel's listing holds each stored reading of that panel exactly as often as the store does, duplicates included, and no reading of another panel. |
| Analytics.ForPanelAppend | CrossSolar.Tests/Controller/AnalyticsControllerTests.cs:95-108 | Storing a reading appends it to its own panel's readings and leaves every other panel's readings unchanged. |
| Analytics.ToModels | CrossSolar.Tests/Controller/AnalyticsControllerTests.cs:54-59 | There is one model per reading, in the same order, with Id, KiloWatt and DateTime copied. |
| Analytics.ToModelsAppend | CrossSolar.Tests/Controller/AnalyticsControllerTests.cs:54-59 | Mapping readings to models commutes with appending readings. |
| Analytics.AnalyticsController.constructor | CrossSolar.Tests/Controller/AnalyticsControllerTests.cs:68 | The controller starts over the given analytics store and panel registry. |
| Analytics.AnalyticsController.PrepareInsert | CrossSolar.Tests/Controller/AnalyticsControllerTests.cs:189-206 | An entity is prepared if and only if the guard `IsRegistered` holds, that is, some registered panel has the serial. That entity carries the serial and the submitted fields. |
| Analytics.AnalyticsController.Get | CrossSolar.Tests/Controller/AnalyticsControllerTests.cs:71-81 | The listing has one model per stored reading of the panel. Each model has that reading's Id, KiloWatt and DateTime. |
| Analytics.AnalyticsController.DayResults | CrossSolar.Tests/Controller/AnalyticsControllerTests.cs:168-182 | The panel's summaries: one per distinct date, dates strictly ascending. A date has a summary if and only if some reading of the panel falls on it. Each summary summarizes exactly that date's readings of the panel. Their Sums add up to the panel's total. |
| Analytics.AnalyticsController.Post | CrossSolar.Tests/Controller/AnalyticsControllerTests.cs:88-116 | The result is Created if and only if the guard `IsRegistered` holds for the serial. Created echoes the submitted Id, KiloWatt and DateTime, and appends the reading to the store and to the panel's listing. NotFound leaves the store unchanged. The registry never changes. |
| AnalyticsScenarios.RegistryAdmitsOnlyPanelSerial | CrossSolar.Tests/Controller/AnalyticsControllerTests.cs:28-39 | Over the fixture's registry `RegisteredPanels`, one panel with serial "0123456789ABCDEF", the guard `IsRegistered` admits that serial and no other. |
| AnalyticsScenarios.TestReadings | CrossSolar.Tests/Controller/AnalyticsControllerTests.cs:123-157 | The fixture has four readings of the panel: 100 kW at day1, 150 kW an hour later, 200 kW a day after day1 and 250 kW an hour after that. The hour later rolls over to the next date from 23:00 on. |
| AnalyticsScenarios.DayResultsBeforeLastHour | CrossSolar.Tests/Controller/AnalyticsControllerTests.cs:120-183 | Take the test's four readings with day1 at any time before 23:00. There are two summaries: day1 first with Sum 250, Average 125, Maximum 150 and Minimum 100, then day2 with 450, 225, 250 and 200. |
| AnalyticsScenarios.DayResultsInLastHour | CrossSolar.Tests/Controller/AnalyticsControllerTests.cs:123-154 | With day1 in the 23rd hour, the fixture as written gives three summaries, not the two the test expects. |
| AnalyticsScenarios.DayResultsFixedFixture | CrossSolar.Tests/Controller/AnalyticsControllerTests.cs:120-183 | With explicit hours 0 and 1, the fixture gives the test's expected summaries on every date. |
| AnalyticsScenarios.AverageTruncates | CrossSolar.Tests/Controller/AnalyticsControllerTests.cs:180 | Two readings of 100 and 151 on one day average to 125. |
| AnalyticsScenarios.GetRetrievesAnalytics | CrossSolar.Tests/Controller/AnalyticsControllerTests.cs:43-82 | One stored reading of 454673 kW gives a listing of exactly one model, with Id 1, that power and the reading's timestamp. |
| AnalyticsScenarios.PostSavesForRegisteredPanel | CrossSolar.Tests/Controller/AnalyticsControllerTests.cs:84-117 | Posting a 2000 kW model to the registered serial is Created with the submitted Id, KiloWatt and DateTime, and the store then holds exactly that reading of the panel. |
| AnalyticsScenarios.PostRejectsUnknownPanel | CrossSolar.Tests/Controller/AnalyticsControllerTests.cs:185-207 | Posting to a serial no panel has is NotFound, and the store stays empty. |

## Findings

| source | as written | input that shows it | evidently intended | confidence | as-written member | corrected member |
|---|---|---|---|---|---|---|
| CrossSolar.Tests/Controller/AnalyticsControllerTests.cs:123-154 | `day1` is `DateTime.Now`. The second and fourth readings are `AddHours(1)` past `day1` and `day2`. | The test running at 23:30. The 150 kW reading then falls on the next date, and so does the 250 kW one. There are three summaries, and `Assert.Equal(2, resultModel.Count)` fails. | Both hours of each day share that day's date, so there are two summaries. | high; not executed | AnalyticsScenarios.DayResultsInLastHour | AnalyticsScenarios.DayResultsFixedFixture |

## Left out

- The Moq and MockQueryable setup (`BuildMock`, `Setup`, `Returns`) and the `IQueryable` query provider are left out. They are test plumbing over libraries that are not part of this model. The repositories become the controller's two fields.
- `async`, `Task` and `await` are left out. They only order the calls here.
- ASP.NET result types and status codes are left out. An outcome is a tag: Created (201) with its model, or NotFound. `Get` and `DayResults` return their Ok value directly.
- Panel `Brand`, `Latitude` and `Longitude` are left out. They are floating-point or unused data. A panel is its Id and Serial.
- `DateTime.Now`, timezones, and time below the hour (minutes, seconds, ticks) are left out. A timestamp is an explicit date and hour. Scenarios quantify over every date and hour.
- Overflow of the 64-bit C# integers is left out. KiloWatt, Sum and Average are unbounded integers.
- Id assignment by the database on insert is left out. The test's `InsertAsync` mock overwrites the inserted entity in place with the submitted Id, DateTime and KiloWatt and the route's PanelId. The model builds the entity from those values directly. That gives the same stored entity, and so the same echoed values.
