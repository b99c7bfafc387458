/** Entities of the CrossSolar domain that the analytics controller works on:
    panels, hourly readings and the models the controller returns. */
module Domain {

  /** The date part of a DateTime, as a day number (day 0 is an arbitrary epoch). */
  type Date = int

  /** The hour of the day of a DateTime. */
  type Hour = h: int | 0 <= h < 24

  /** A timestamp, kept to the granularity the controller cares about:
      its date and the hour of that date. */
  datatype DateTime = DateTime(date: Date, hour: Hour)

  /** The position of a timestamp on a single hour axis. */
  function HoursSinceEpoch(t: DateTime): int
  {
    t.date * 24 + t.hour
  }

  /** DateTime.AddHours for a whole number of hours: the hour rolls over
      into the neighbouring dates. */
  function AddHours(t: DateTime, hours: int): (r: DateTime)
    ensures HoursSinceEpoch(r) == HoursSinceEpoch(t) + hours
    ensures 0 <= t.hour + hours < 24 ==> r.date == t.date
    ensures 24 <= t.hour + hours < 48 ==> r.date == t.date + 1
  {
    var total := t.hour + hours;
    DateTime(t.date + total / 24, total % 24)
  }

  /** DateTime.AddDays for a whole number of days: same hour, shifted date. */
  function AddDays(t: DateTime, days: int): (r: DateTime)
    ensures HoursSinceEpoch(r) == HoursSinceEpoch(t) + 24 * days
    ensures r.hour == t.hour
  {
    DateTime(t.date + days, t.hour)
  }

  /** A registered solar panel; only its serial matters to the analytics controller. */
  datatype Panel = Panel(id: int, serial: string)

  /** The stored entity: one hour of electricity produced by a panel. */
  datatype OneHourElectricity = OneHourElectricity(id: int, panelId: string, kiloWatt: int, dateTime: DateTime)

  /** The model the controller accepts and returns for one hourly reading. */
  datatype OneHourElectricityModel = OneHourElectricityModel(id: int, kiloWatt: int, dateTime: DateTime)

  /** The list model returned by the readings listing. */
  datatype OneHourElectricityListModel = OneHourElectricityListModel(oneHourElectricitys: seq<OneHourElectricityModel>)

  /** The summary of one day of readings. */
  datatype OneDayElectricityModel = OneDayElectricityModel(date: Date, sum: int, average: int, maximum: int, minimum: int)

  /** The model of a stored reading: its id, power and timestamp, without the panel. */
  function ToModel(e: OneHourElectricity): (m: OneHourElectricityModel)
    ensures m.id == e.id && m.kiloWatt == e.kiloWatt && m.dateTime == e.dateTime
  {
    OneHourElectricityModel(e.id, e.kiloWatt, e.dateTime)
  }

  /** The entity the controller builds from a submitted model for a panel. */
  function FromModel(panelId: string, m: OneHourElectricityModel): (e: OneHourElectricity)
    ensures e.panelId == panelId
    ensures ToModel(e) == m
  {
    OneHourElectricity(m.id, panelId, m.kiloWatt, m.dateTime)
  }

  /** Rebuilding the entity from its model, for its own panel, gives the entity back. */
  lemma EntityRoundTrip(e: OneHourElectricity)
    ensures FromModel(e.panelId, ToModel(e)) == e
  {
  }
}
