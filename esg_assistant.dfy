/** The ESG assistant: plain-language carbon and EPC status of one selected asset and its
    energy intensity, guarded against a zero floor area. */
module EsgAssistant {
  import opened Wrappers
  import Lookup
  import opened AssetKpis

  datatype CarbonStatus = VeryHighEmissions | AboveAverage | WithinTarget
  datatype EpcStatus = Poor | Moderate | Acceptable

  /** Strict thresholds: above 80 very high, above 60 above average. */
  function CarbonStatusOf(intensity: real): (s: CarbonStatus)
    ensures s == VeryHighEmissions <==> intensity > 80.0
    ensures s == AboveAverage <==> 60.0 < intensity <= 80.0
    ensures s == WithinTarget <==> intensity <= 60.0
  {
    if intensity > 80.0 then VeryHighEmissions
    else if intensity > 60.0 then AboveAverage
    else WithinTarget
  }

  /** F and G are poor, D and E moderate; any other value, the "N/A" default included, is acceptable. */
  function EpcStatusOf(epc: string): (s: EpcStatus)
    ensures s == Poor <==> epc == "F" || epc == "G"
    ensures s == Moderate <==> epc == "D" || epc == "E"
    ensures s == Acceptable <==> epc !in {"D", "E", "F", "G"}
  {
    if epc in ["F", "G"] then Poor
    else if epc in ["D", "E"] then Moderate
    else Acceptable
  }

  /** Energy per m², 0 when the floor area is not positive; missing energy counts as 0. */
  function GuardedEnergyIntensity(energy: Option<real>, floorArea: real): (r: real)
    ensures floorArea > 0.0 ==> r * floorArea == energy.GetOr(0.0)
    ensures floorArea <= 0.0 ==> r == 0.0
    ensures energy.None? ==> r == 0.0
  {
    if floorArea > 0.0 then energy.GetOr(0.0) / floorArea else 0.0
  }

  datatype Summary = Summary(asset: AssetRow, carbon: CarbonStatus, epc: EpcStatus, energyIntensity: real)

  /** Summary of the first row carrying the selected name; None when no row does. */
  function Describe(rows: seq<AssetRow>, selected: string): (r: Option<Summary>)
    ensures r.None? <==> forall j :: 0 <= j < |rows| ==> rows[j].name != selected
    ensures r.Some? ==> exists i :: 0 <= i < |rows| && rows[i] == r.value.asset && rows[i].name == selected
                          && forall j :: 0 <= j < i ==> rows[j].name != selected
    ensures r.Some? ==> r.value.carbon == CarbonStatusOf(r.value.asset.carbonIntensity)
                        && r.value.epc == EpcStatusOf(r.value.asset.epc)
                        && r.value.energyIntensity
                           == GuardedEnergyIntensity(r.value.asset.energy, r.value.asset.floorArea)
  {
    match Lookup.First(rows, (a: AssetRow) => a.name == selected)
    case None => None
    case Some(a) =>
      Some(Summary(a, CarbonStatusOf(a.carbonIntensity), EpcStatusOf(a.epc),
                   GuardedEnergyIntensity(a.energy, a.floorArea)))
  }

  /** The assistant's carbon bands coincide with the dashboard's stranding-year buckets. */
  lemma CarbonStatusMatchesBucket(intensity: real)
    ensures CarbonStatusOf(intensity) == VeryHighEmissions <==> StrandingBucket(intensity) == 2025
    ensures CarbonStatusOf(intensity) == AboveAverage <==> StrandingBucket(intensity) == 2030
    ensures CarbonStatusOf(intensity) == WithinTarget <==> StrandingBucket(intensity) == 2040
  {
  }

  /** Where the unguarded page formula has no finite value, the assistant reports 0. */
  lemma ZeroAreaGuard(row: AssetRow)
    requires row.floorArea == 0.0
    ensures EnergyIntensity(row).None?
    ensures GuardedEnergyIntensity(row.energy, row.floorArea) == 0.0
  {
  }
}
