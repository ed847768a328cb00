/** Stranding plot per asset: a linear sample pathway from 100 kgCO2e/m² in 2020 falling
    1.2 a year to 64 in 2050, and the first year in which the asset lies above it. */
module StrandingPlot {
  import opened Wrappers
  import Lookup
  import opened AssetKpis

  const StartYear: int := 2020
  const EndYear: int := 2050
  const StartThreshold: real := 100.0
  const AnnualDecline: real := 1.2

  /** Threshold of a year on the sample pathway. */
  function Threshold(year: int): (t: real)
    ensures t == StartThreshold <==> year == StartYear
    ensures StartYear <= year <= EndYear ==> 64.0 <= t <= StartThreshold
    ensures year > StartYear ==> t < StartThreshold
  {
    StartThreshold - (year - StartYear) as real * AnnualDecline
  }

  /** (year, threshold) pairs for 2020..2050, in year order. */
  function Pathway(): (p: seq<(int, real)>)
    ensures |p| == EndYear - StartYear + 1
    ensures forall i :: 0 <= i < |p| ==> p[i] == (StartYear + i, Threshold(StartYear + i))
  {
    seq(EndYear - StartYear + 1, i => (StartYear + i, Threshold(StartYear + i)))
  }

  lemma PathwayShape()
    ensures Threshold(StartYear) == 100.0 && Threshold(EndYear) == 64.0
    ensures forall y1, y2 :: y1 < y2 ==> Threshold(y2) < Threshold(y1)
  {
  }

  /** A stranding year, or "2050+" when the asset stays at or below the pathway. */
  datatype Estimate = StrandsIn(year: int) | Beyond2050

  /** The first pathway year whose threshold the intensity exceeds. */
  function EstimateStrandingYear(intensity: real): (e: Estimate)
    ensures e.StrandsIn? ==> StartYear <= e.year <= EndYear && intensity > Threshold(e.year)
    ensures e.StrandsIn? ==> forall y :: StartYear <= y < e.year ==> intensity <= Threshold(y)
    ensures e.Beyond2050? <==> forall y :: StartYear <= y <= EndYear ==> intensity <= Threshold(y)
  {
    var p := Pathway();
    match Lookup.FirstIndex(p, (pair: (int, real)) => intensity > pair.1)
    case None =>
      assert forall y :: StartYear <= y <= EndYear ==> intensity <= Threshold(y) by {
        forall y | StartYear <= y <= EndYear ensures intensity <= Threshold(y) {
          assert p[y - StartYear].1 == Threshold(y);
        }
      }
      Beyond2050
    case Some(i) =>
      assert forall y :: StartYear <= y < StartYear + i ==> intensity <= Threshold(y) by {
        forall y | StartYear <= y < StartYear + i ensures intensity <= Threshold(y) {
          assert p[y - StartYear].1 == Threshold(y);
        }
      }
      StrandsIn(p[i].0)
  }

  /** Above the 2020 threshold the asset is stranded at once. */
  lemma StrandedImmediately(intensity: real)
    requires intensity > StartThreshold
    ensures EstimateStrandingYear(intensity) == StrandsIn(StartYear)
  {
  }

  /** At or below the 2050 threshold the asset never strands on the pathway. */
  lemma NeverStrands(intensity: real)
    requires intensity <= 64.0
    ensures EstimateStrandingYear(intensity) == Beyond2050
  {
    PathwayShape();
  }

  /** Rank of an estimate for comparison: "2050+" comes after every year. */
  function EstimateRank(e: Estimate): int {
    match e
    case StrandsIn(y) => y
    case Beyond2050 => EndYear + 1
  }

  /** A higher intensity never strands later. */
  lemma EstimateAntitone(x1: real, x2: real)
    requires x1 <= x2
    ensures EstimateRank(EstimateStrandingYear(x2)) <= EstimateRank(EstimateStrandingYear(x1))
  {
    var e1 := EstimateStrandingYear(x1);
    var e2 := EstimateStrandingYear(x2);
    if e1.StrandsIn? {
      assert x2 > Threshold(e1.year);
    }
  }

  /** The page: the estimate for the first row named `selected`. */
  function EstimateForAsset(rows: seq<AssetRow>, selected: string): (r: Option<Estimate>)
    ensures r.None? <==> forall j :: 0 <= j < |rows| ==> rows[j].name != selected
    ensures r.Some? ==> exists i :: 0 <= i < |rows| && rows[i].name == selected
                          && r.value == EstimateStrandingYear(rows[i].carbonIntensity)
                          && forall j :: 0 <= j < i ==> rows[j].name != selected
  {
    match Lookup.First(rows, (a: AssetRow) => a.name == selected)
    case None => None
    case Some(a) => Some(EstimateStrandingYear(a.carbonIntensity))
  }
}
