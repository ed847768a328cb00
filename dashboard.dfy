/** Portfolio dashboard: once the asset CSV validates, the average carbon and energy
    intensity and the most common stranding-year estimate. */
module Dashboard {
  import opened Wrappers
  import opened AssetKpis
  import FileValidator

  datatype Kpis = Kpis(avgCarbon: real, avgEnergy: Option<real>, mostCommon: int)

  /** What the page shows: the KPIs, the validation message, or a failure (an empty table
      has no most common value, and the page stops with an exception). */
  datatype View = ShowKpis(kpis: Kpis) | ShowMessage(message: string) | PageFailure

  /** A bucket with the largest count, trying 2025, 2030, 2040 in that order on ties. */
  function MostCommonBucket(rows: seq<AssetRow>): (r: Option<int>)
    ensures r.Some? <==> rows != []
    ensures r.Some? ==> IsBucket(r.value) && CountBucket(rows, r.value) > 0
    ensures r.Some? ==> forall y :: IsBucket(y) ==> CountBucket(rows, y) <= CountBucket(rows, r.value)
  {
    var a := CountBucket(rows, 2025);
    var b := CountBucket(rows, 2030);
    var c := CountBucket(rows, 2040);
    BucketCountsCoverRows(rows);
    if rows == [] then None
    else if a >= b && a >= c then Some(2025)
    else if b >= c then Some(2030)
    else Some(2040)
  }

  function ComputeKpis(rows: seq<AssetRow>): (r: Option<Kpis>)
    ensures r.Some? <==> rows != []
    ensures r.Some? ==> Mean(CarbonColumn(rows)) == Some(r.value.avgCarbon)
    ensures r.Some? ==> (r.value.avgEnergy.Some? <==> forall i :: 0 <= i < |rows| ==> rows[i].floorArea != 0.0)
    ensures r.Some? ==> MostCommonBucket(rows) == Some(r.value.mostCommon)
    ensures r.Some? ==> r.value.avgEnergy == (if EnergyColumn(rows).None? then None else Mean(EnergyColumn(rows).value))
  {
    match MostCommonBucket(rows)
    case None => None
    case Some(y) =>
      var energy := EnergyColumn(rows);
      Some(Kpis(Mean(CarbonColumn(rows)).value, if energy.None? then None else Mean(energy.value), y))
  }

  /** KPIs only for a validated table; otherwise the validation message. */
  function DashboardView(v: FileValidator.ValidationResult<seq<AssetRow>>): (view: View)
    requires v.data.Some? <==> v.status.Validated?
    ensures v.status.Invalid? ==> view == ShowMessage(v.message)
    ensures view.ShowKpis? ==> v.status.Validated? && ComputeKpis(v.data.value) == Some(view.kpis)
    ensures v.status.Validated? ==> (view.PageFailure? <==> v.data.value == [])
    ensures v.status.Validated? && v.data.value != [] ==> view == ShowKpis(ComputeKpis(v.data.value).value)
  {
    if v.status.Invalid? then ShowMessage(v.message)
    else
      match ComputeKpis(v.data.value)
      case None => PageFailure
      case Some(k) => ShowKpis(k)
  }

  /** The average carbon intensity lies between the smallest and largest row intensity. */
  lemma AverageWithinRange(rows: seq<AssetRow>, lo: real, hi: real)
    requires rows != []
    requires forall i :: 0 <= i < |rows| ==> lo <= rows[i].carbonIntensity <= hi
    ensures lo <= ComputeKpis(rows).value.avgCarbon <= hi
  {
    MeanWithinBounds(CarbonColumn(rows), lo, hi);
  }
}
