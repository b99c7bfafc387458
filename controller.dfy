/** AnalyticsController: the readings listing (Get), the daily summaries
    (DayResults) and the guarded insert (Post) over the analytics
    repository and the panel registry. */
module Analytics {
  import opened Domain
  import opened DailyAggregation

  /** The outcome of Post: Created (HTTP 201) with the stored model, or NotFound. */
  datatype PostResult = Created(value: OneHourElectricityModel) | NotFound

  datatype Option<T> = None | Some(value: T)

  /** The readings of one panel, in store order. */
  function ForPanel(rs: seq<OneHourElectricity>, panelId: string): (r: seq<OneHourElectricity>)
    ensures forall e :: e in r <==> e in rs && e.panelId == panelId
    ensures |r| <= |rs|
  {
    if rs == [] then []
    else if rs[0].panelId == panelId then [rs[0]] + ForPanel(rs[1..], panelId)
    else ForPanel(rs[1..], panelId)
  }

  /** A panel's listing keeps every stored reading of that panel as often as
      it is stored, duplicates included, and holds nothing else. */
  lemma {:induction false} ForPanelCounts(rs: seq<OneHourElectricity>, panelId: string)
    ensures forall e :: multiset(ForPanel(rs, panelId))[e] == if e.panelId == panelId then multiset(rs)[e] else 0
  {
    if rs != [] {
      ForPanelCounts(rs[1..], panelId);
      assert rs == [rs[0]] + rs[1..];
      assert multiset(rs) == multiset([rs[0]]) + multiset(rs[1..]);
    }
  }

  /** Storing one more reading adds it, at the end, to the listing of its own
      panel and to no other. */
  lemma {:induction false} ForPanelAppend(rs: seq<OneHourElectricity>, e: OneHourElectricity, panelId: string)
    ensures ForPanel(rs + [e], panelId) == ForPanel(rs, panelId) + (if e.panelId == panelId then [e] else [])
  {
    if rs == [] {
      assert [] + [e] == [e];
      assert [e][1..] == [];
    } else {
      assert (rs + [e])[1..] == rs[1..] + [e];
      ForPanelAppend(rs[1..], e, panelId);
    }
  }

  /** The models of a sequence of readings, one per reading, in the same order. */
  function ToModels(rs: seq<OneHourElectricity>): (ms: seq<OneHourElectricityModel>)
    ensures |ms| == |rs|
    ensures forall i :: 0 <= i < |rs| ==>
              ms[i].id == rs[i].id && ms[i].kiloWatt == rs[i].kiloWatt && ms[i].dateTime == rs[i].dateTime
  {
    if rs == [] then [] else [ToModel(rs[0])] + ToModels(rs[1..])
  }

  lemma {:induction false} ToModelsAppend(rs: seq<OneHourElectricity>, more: seq<OneHourElectricity>)
    ensures ToModels(rs + more) == ToModels(rs) + ToModels(more)
  {
    if rs == [] {
      assert [] + more == more;
    } else {
      assert (rs + more)[1..] == rs[1..] + more;
      ToModelsAppend(rs[1..], more);
    }
  }

  class AnalyticsController {
    /** The contents of the analytics repository. */
    var analytics: seq<OneHourElectricity>
    /** The contents of the panel repository. */
    var panels: seq<Panel>

    constructor (analytics: seq<OneHourElectricity>, panels: seq<Panel>)
      ensures this.analytics == analytics && this.panels == panels
    {
      this.analytics := analytics;
      this.panels := panels;
    }

    /** The guard of Post: some registered panel has this serial. */
    predicate IsRegistered(serial: string)
      reads this
    {
      exists i :: 0 <= i < |panels| && panels[i].serial == serial
    }

    /** The insertion guard: the entity to store for a submitted model, or
        None when no panel has the serial. */
    function PrepareInsert(panelId: string, value: OneHourElectricityModel): (r: Option<OneHourElectricity>)
      reads this
      ensures r.Some? <==> IsRegistered(panelId)
      ensures r.Some? ==> r.value.panelId == panelId && ToModel(r.value) == value
    {
      if IsRegistered(panelId) then Some(FromModel(panelId, value)) else None
    }

    /** The readings listing of a panel: one model per stored reading of that
        panel, with its id, power and timestamp unchanged. */
    function Get(panelId: string): (r: OneHourElectricityListModel)
      reads this
      ensures |r.oneHourElectricitys| == |ForPanel(analytics, panelId)|
      ensures forall i :: 0 <= i < |r.oneHourElectricitys| ==>
                var e := ForPanel(analytics, panelId)[i];
                e in analytics && e.panelId == panelId &&
                r.oneHourElectricitys[i] == OneHourElectricityModel(e.id, e.kiloWatt, e.dateTime)
    {
      OneHourElectricityListModel(ToModels(ForPanel(analytics, panelId)))
    }

    /** The daily summaries of a panel's readings, earliest date first. */
    function DayResults(panelId: string): (r: seq<OneDayElectricityModel>)
      reads this
      ensures |r| == |DatesOf(ForPanel(analytics, panelId))|
      ensures forall i, j :: 0 <= i < j < |r| ==> r[i].date < r[j].date
      ensures forall d :: d in DatesOf(ForPanel(analytics, panelId)) <==> exists i :: 0 <= i < |r| && r[i].date == d
      ensures forall i :: 0 <= i < |r| ==> IsDaySummary(r[i], ReadingsOn(ForPanel(analytics, panelId), r[i].date))
      ensures TotalOfSums(r) == TotalKiloWatt(ForPanel(analytics, panelId))
    {
      var rs := ForPanel(analytics, panelId);
      EnergyConserved(rs);
      DailySummaries(rs)
    }

    /** Stores a reading for a registered panel and answers Created with the
        submitted values; answers NotFound, storing nothing, for an unknown serial. */
    method Post(panelId: string, value: OneHourElectricityModel) returns (result: PostResult)
      modifies this
      ensures panels == old(panels)
      ensures result.Created? <==> IsRegistered(panelId)
      ensures result.Created? ==>
                result.value == value &&
                analytics == old(analytics) + [OneHourElectricity(value.id, panelId, value.kiloWatt, value.dateTime)]
      ensures result.NotFound? ==> analytics == old(analytics)
      ensures result.Created? ==>
                Get(panelId).oneHourElectricitys == old(Get(panelId).oneHourElectricitys) + [value]
    {
      var prepared := PrepareInsert(panelId, value);
      if prepared.None? {
        return NotFound;
      }
      var entity := prepared.value;
      ForPanelAppend(analytics, entity, panelId);
      ToModelsAppend(ForPanel(analytics, panelId), [entity]);
      analytics := analytics + [entity];
      result := Created(ToModel(entity));
    }
  }
}
