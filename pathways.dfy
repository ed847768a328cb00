/** The CRREM pathway table (`crrem_pathways.csv`): one target carbon intensity per
    region code, asset class and year. Three pages read it with different keys. */
module Pathways {
  import opened Wrappers
  import Lookup

  /** One row: target intensity in kgCO2e/m² for a region, asset class and year. */
  datatype PathwayRow = PathwayRow(regionCode: string, assetClass: string, year: int, target: real)

  /** First row for (region, asset class), whatever its year: the batch and single-asset
      CRREM evaluation takes `.values[0]` of this selection. */
  function FirstForClass(pathways: seq<PathwayRow>, region: string, assetClass: string): (r: Option<PathwayRow>)
    ensures r.None? <==> forall j :: 0 <= j < |pathways| ==>
                           !(pathways[j].regionCode == region && pathways[j].assetClass == assetClass)
    ensures r.Some? ==> r.value.regionCode == region && r.value.assetClass == assetClass
    ensures r.Some? ==> exists i :: 0 <= i < |pathways| && pathways[i] == r.value
                          && forall j :: 0 <= j < i ==>
                               !(pathways[j].regionCode == region && pathways[j].assetClass == assetClass)
  {
    Lookup.First(pathways, (p: PathwayRow) => p.regionCode == region && p.assetClass == assetClass)
  }

  /** Target of the first row matching region, asset class and year exactly; None when the
      table has no such row (no interpolation and no nearest-year fallback). */
  function TargetFor(pathways: seq<PathwayRow>, region: string, assetClass: string, year: int): (r: Option<real>)
    ensures r.None? <==> forall j :: 0 <= j < |pathways| ==>
                           !(pathways[j].regionCode == region && pathways[j].assetClass == assetClass
                             && pathways[j].year == year)
    ensures r.Some? ==> exists i :: 0 <= i < |pathways| && pathways[i].target == r.value
                          && pathways[i].regionCode == region && pathways[i].assetClass == assetClass
                          && pathways[i].year == year
                          && forall j :: 0 <= j < i ==>
                               !(pathways[j].regionCode == region && pathways[j].assetClass == assetClass
                                 && pathways[j].year == year)
  {
    match Lookup.First(pathways, (p: PathwayRow) => p.regionCode == region && p.assetClass == assetClass && p.year == year)
    case None => None
    case Some(row) => Some(row.target)
  }
}
