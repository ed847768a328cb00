/** The transition-plan form: EPC valuation uplift looked up by (country, from EPC, to EPC),
    placeholder carbon and energy savings, and the post-retrofit check against the CRREM
    target of the retrofit year. */
module TransitionPlan {
  import opened Wrappers
  import Lookup
  import opened Pathways

  /** Assumed carbon saving per m² (kgCO2e/m²). */
  const SavingPerSquareMetre: real := 8.0
  /** Energy saving counted per unit of carbon saving. */
  const EnergyPerCarbon: real := 0.25

  /** A row of the ESG valuation table. */
  datatype UpliftRow = UpliftRow(country: string, fromEpc: string, toEpc: string, upliftPercent: real)

  datatype PlanInputs = PlanInputs(country: string, assetClass: string, currentEpc: string, targetEpc: string,
                                   retrofitYear: int, floorArea: real, currentIntensity: real, assetValue: real)

  /** The downloadable plan record (the computed columns). */
  datatype PlanRecord = PlanRecord(upliftValue: real, carbonSaving: real, energySaving: real,
                                   postIntensity: real, target: real, stranded: bool, strandedLabel: string)

  /** Both misses raise and are reported as "Error generating plan". */
  datatype PlanError = NoUpliftRow | NoPathwayRow

  /** Uplift percentage of the first exact (country, from, to) match. */
  function UpliftPercent(uplifts: seq<UpliftRow>, country: string, fromEpc: string, toEpc: string): (r: Option<real>)
    ensures r.None? <==> forall j :: 0 <= j < |uplifts| ==>
                           !(uplifts[j].country == country && uplifts[j].fromEpc == fromEpc && uplifts[j].toEpc == toEpc)
    ensures r.Some? ==> exists i :: 0 <= i < |uplifts| && uplifts[i].upliftPercent == r.value
                          && uplifts[i].country == country && uplifts[i].fromEpc == fromEpc && uplifts[i].toEpc == toEpc
                          && forall j :: 0 <= j < i ==>
                               !(uplifts[j].country == country && uplifts[j].fromEpc == fromEpc && uplifts[j].toEpc == toEpc)
  {
    match Lookup.First(uplifts, (u: UpliftRow) => u.country == country && u.fromEpc == fromEpc && u.toEpc == toEpc)
    case None => None
    case Some(u) => Some(u.upliftPercent)
  }

  /** Valuation uplift in € for a percentage of the asset value. */
  function UpliftValue(assetValue: real, upliftPercent: real): (v: real)
    ensures v * 100.0 == assetValue * upliftPercent
    ensures assetValue >= 0.0 && upliftPercent >= 0.0 ==> v >= 0.0
    ensures assetValue >= 0.0 && 0.0 <= upliftPercent <= 100.0 ==> v <= assetValue
  {
    assetValue * (upliftPercent / 100.0)
  }

  /** Placeholder savings: (carbon saving, energy saving, post-retrofit intensity). */
  function Savings(floorArea: real, currentIntensity: real): (r: (real, real, real))
    requires floorArea > 0.0
    ensures r.0 == SavingPerSquareMetre * floorArea
    ensures r.1 * 4.0 == r.0
    ensures r.2 == currentIntensity - SavingPerSquareMetre
  {
    var carbonSaving := SavingPerSquareMetre * floorArea;
    var energySaving := carbonSaving * EnergyPerCarbon;
    (carbonSaving, energySaving, currentIntensity - carbonSaving / floorArea)
  }

  /** The "Yes"/"No" text of the stranded column. */
  function StrandedLabel(stranded: bool): (s: string)
    ensures s == "Yes" <==> stranded
    ensures s == "No" <==> !stranded
  {
    if stranded then "Yes" else "No"
  }

  function GeneratePlan(uplifts: seq<UpliftRow>, pathways: seq<PathwayRow>, inp: PlanInputs)
    : (r: Result<PlanRecord, PlanError>)
    requires inp.floorArea >= 100.0
    ensures UpliftPercent(uplifts, inp.country, inp.currentEpc, inp.targetEpc).None? ==> r == Failure(NoUpliftRow)
    ensures UpliftPercent(uplifts, inp.country, inp.currentEpc, inp.targetEpc).Some? &&
            TargetFor(pathways, inp.country, inp.assetClass, inp.retrofitYear).None?
            ==> r == Failure(NoPathwayRow)
    ensures r.Success? <==>
              UpliftPercent(uplifts, inp.country, inp.currentEpc, inp.targetEpc).Some? &&
              TargetFor(pathways, inp.country, inp.assetClass, inp.retrofitYear).Some?
    ensures r.Success? ==>
              && (r.value.carbonSaving, r.value.energySaving, r.value.postIntensity)
                 == Savings(inp.floorArea, inp.currentIntensity)
              && r.value.upliftValue
                 == UpliftValue(inp.assetValue, UpliftPercent(uplifts, inp.country, inp.currentEpc, inp.targetEpc).value)
              && r.value.strandedLabel == StrandedLabel(r.value.stranded)
    ensures r.Success? ==>
              && UpliftPercent(uplifts, inp.country, inp.currentEpc, inp.targetEpc).Some?
              && TargetFor(pathways, inp.country, inp.assetClass, inp.retrofitYear) == Some(r.value.target)
              && r.value.upliftValue * 100.0
                 == inp.assetValue * UpliftPercent(uplifts, inp.country, inp.currentEpc, inp.targetEpc).value
              && r.value.postIntensity == inp.currentIntensity - SavingPerSquareMetre
              && (r.value.stranded <==> r.value.postIntensity > r.value.target)
              && (r.value.strandedLabel == "Yes" <==> r.value.stranded)
  {
    match UpliftPercent(uplifts, inp.country, inp.currentEpc, inp.targetEpc)
    case None => Failure(NoUpliftRow)
    case Some(pct) =>
      var savings := Savings(inp.floorArea, inp.currentIntensity);
      match TargetFor(pathways, inp.country, inp.assetClass, inp.retrofitYear)
      case None => Failure(NoPathwayRow)
      case Some(target) =>
        var stranded := savings.2 > target;
        Success(PlanRecord(UpliftValue(inp.assetValue, pct), savings.0, savings.1, savings.2, target,
                           stranded, StrandedLabel(stranded)))
  }

  /** Equality with the target is compliant: the comparison is strict. */
  lemma AtTargetIsCompliant(uplifts: seq<UpliftRow>, pathways: seq<PathwayRow>, inp: PlanInputs)
    requires inp.floorArea >= 100.0
    requires GeneratePlan(uplifts, pathways, inp).Success?
    requires TargetFor(pathways, inp.country, inp.assetClass, inp.retrofitYear)
             == Some(inp.currentIntensity - SavingPerSquareMetre)
    ensures !GeneratePlan(uplifts, pathways, inp).value.stranded
    ensures GeneratePlan(uplifts, pathways, inp).value.strandedLabel == "No"
  {
  }
}
