/** The CRREM stranding calculator: single-asset evaluation (archetype auto-fill,
    stranding and retrofit year, advice, tenant/landlord cost split) and the batch
    runner that evaluates one uploaded row at a time and records per-row failures. */
module Crrem {
  import opened Wrappers
  import Lookup
  import opened Pathways

  /** `crrem_country_reference.csv`: the CRREM region of a country code. */
  datatype CountryRef = CountryRef(countryCode: string, crremRegion: string)

  /** A building archetype: typical floor area and carbon intensity per country and class. */
  datatype Archetype = Archetype(countryCode: string, assetClass: string, avgFloorArea: real, avgCarbonIntensity: real)

  /** `crrem_parameters_config.csv`: a named parameter and its default value. */
  datatype ConfigRow = ConfigRow(parameter: string, defaultValue: real)

  /** The two parameters the page reads when it loads. */
  datatype Parameters = Parameters(discountRate: real, paybackThreshold: real)

  const DefaultFloorArea: real := 1000.0
  const DefaultCarbonIntensity: real := 85.0
  /** Capex per m² assumed when no capex is given (€). */
  const CapexPerSquareMetre: real := 250.0
  /** Years between the recommended retrofit and the stranding year. */
  const RetrofitLeadYears: int := 5
  /** Tenant share of capex in batch mode. */
  const BatchTenantShare: real := 0.3

  /** Value of the first config row named `name`. */
  function ParameterValue(config: seq<ConfigRow>, name: string): (r: Option<real>)
    ensures r.None? <==> forall j :: 0 <= j < |config| ==> config[j].parameter != name
    ensures r.Some? ==> exists i :: 0 <= i < |config| && config[i].parameter == name
                          && config[i].defaultValue == r.value
                          && forall j :: 0 <= j < i ==> config[j].parameter != name
  {
    match Lookup.First(config, (c: ConfigRow) => c.parameter == name)
    case None => None
    case Some(row) => Some(row.defaultValue)
  }

  /** Both parameters are read when the page loads; a missing one aborts the page (None). */
  function LoadParameters(config: seq<ConfigRow>): (r: Option<Parameters>)
    ensures r.Some? <==> ParameterValue(config, "discount_rate").Some?
                         && ParameterValue(config, "payback_years_threshold").Some?
    ensures r.Some? ==> r.value.discountRate == ParameterValue(config, "discount_rate").value
                        && r.value.paybackThreshold == ParameterValue(config, "payback_years_threshold").value
  {
    match (ParameterValue(config, "discount_rate"), ParameterValue(config, "payback_years_threshold"))
    case (Some(d), Some(p)) => Some(Parameters(d, p))
    case _ => None
  }

  /** Auto-filled (floor area, carbon intensity). `archetypes` is None when the optional
      archetype workbook failed to load; any failure falls back to the defaults. */
  function Autofill(archetypes: Option<seq<Archetype>>, countryCode: string, assetClass: string): (r: (real, real))
    ensures archetypes.Some? && Lookup.First(archetypes.value,
              (a: Archetype) => a.countryCode == countryCode && a.assetClass == assetClass).Some? ==>
              var a := Lookup.First(archetypes.value,
                         (a: Archetype) => a.countryCode == countryCode && a.assetClass == assetClass).value;
              r == (a.avgFloorArea, a.avgCarbonIntensity)
    ensures (archetypes.None? || forall j :: 0 <= j < |archetypes.value| ==>
              !(archetypes.value[j].countryCode == countryCode && archetypes.value[j].assetClass == assetClass))
            ==> r == (DefaultFloorArea, DefaultCarbonIntensity)
  {
    match archetypes
    case None => (DefaultFloorArea, DefaultCarbonIntensity)
    case Some(rows) =>
      match Lookup.First(rows, (a: Archetype) => a.countryCode == countryCode && a.assetClass == assetClass)
      case None => (DefaultFloorArea, DefaultCarbonIntensity)
      case Some(a) => (a.avgFloorArea, a.avgCarbonIntensity)
  }

  /** CRREM region of the first reference row for the country. */
  function RegionOf(refs: seq<CountryRef>, countryCode: string): (r: Option<string>)
    ensures r.None? <==> forall j :: 0 <= j < |refs| ==> refs[j].countryCode != countryCode
    ensures r.Some? ==> exists i :: 0 <= i < |refs| && refs[i].countryCode == countryCode
                          && refs[i].crremRegion == r.value
                          && forall j :: 0 <= j < i ==> refs[j].countryCode != countryCode
  {
    match Lookup.First(refs, (c: CountryRef) => c.countryCode == countryCode)
    case None => None
    case Some(c) => Some(c.crremRegion)
  }

  /** Outcome of comparing an asset with one pathway row. */
  datatype Stranding = Stranding(delta: real, strandingYear: Option<int>, retrofitYear: Option<int>)

  /** Delta to target, stranding year and recommended retrofit year. The retrofit year is
      guarded by the truth value of the stranding year, so a stranding year 0 gives none. */
  function Evaluate(intensity: real, pathway: PathwayRow): (s: Stranding)
    ensures s.delta == intensity - pathway.target
    ensures s.strandingYear.Some? <==> intensity > pathway.target
    ensures s.strandingYear.Some? ==> s.strandingYear.value == pathway.year
    ensures s.retrofitYear.Some? <==> intensity > pathway.target && pathway.year != 0
    ensures s.retrofitYear.Some? ==> s.retrofitYear.value == pathway.year - RetrofitLeadYears
  {
    var delta := intensity - pathway.target;
    var strandingYear := if delta > 0.0 then Some(pathway.year) else None;
    var retrofitYear := if strandingYear.Some? && strandingYear.value != 0
                        then Some(pathway.year - RetrofitLeadYears) else None;
    Stranding(delta, strandingYear, retrofitYear)
  }

  datatype Advice = RetrofitRecommended | NoImmediateRetrofit

  function AdviceText(a: Advice): string {
    match a
    case RetrofitRecommended => "Retrofit recommended"
    case NoImmediateRetrofit => "No immediate retrofit"
  }

  /** Advice compares capex itself with the payback threshold parameter. */
  function AdviceFor(capex: real, paybackThreshold: real): (a: Advice)
    ensures a == RetrofitRecommended <==> capex > paybackThreshold
    ensures AdviceText(a) == (if capex > paybackThreshold then "Retrofit recommended" else "No immediate retrofit")
  {
    if capex > paybackThreshold then RetrofitRecommended else NoImmediateRetrofit
  }

  /** Capex the page proposes for a floor area when the user does not override it. */
  function DefaultCapex(floorArea: real): (c: real)
    ensures floorArea >= 0.0 ==> c >= 0.0
    ensures c / CapexPerSquareMetre == floorArea
  {
    CapexPerSquareMetre * floorArea
  }

  /** Tenant and landlord shares for a tenant ratio given in percent. */
  function CostSplit(capex: real, tenantRatio: int): (r: (real, real))
    ensures r.0 + r.1 == capex
    ensures r.0 * 100.0 == capex * tenantRatio as real
    ensures 0 <= tenantRatio <= 100 && capex >= 0.0 ==> 0.0 <= r.0 <= capex && 0.0 <= r.1 <= capex
  {
    var ratio := tenantRatio as real / 100.0;
    ProductNonNegative(capex, ratio);
    ProductNonNegative(capex, 1.0 - ratio);
    (capex * ratio, capex * (1.0 - ratio))
  }

  lemma ProductNonNegative(a: real, b: real)
    ensures a >= 0.0 && b >= 0.0 ==> a * b >= 0.0
  {
  }

  /** What the user enters in single-asset mode; `capex` is None when the default is kept. */
  datatype SingleInputs = SingleInputs(assetClass: string, countryCode: string, floorArea: real,
                                       carbonIntensity: real, capex: Option<real>, tenantRatio: int)

  datatype SingleReport = SingleReport(target: real, stranding: Stranding, advice: Advice,
                                       capex: real, tenantShare: real, landlordShare: real)

  /** NoRegion: the region lookup raises and the page aborts with a traceback;
      NoPathway: the page reports the missing pathway and stops. */
  datatype SingleFailure = NoRegion | NoPathway

  function EvaluateSingle(refs: seq<CountryRef>, pathways: seq<PathwayRow>, params: Parameters,
                          inp: SingleInputs): (r: Result<SingleReport, SingleFailure>)
    ensures RegionOf(refs, inp.countryCode).None? ==> r == Failure(NoRegion)
    ensures RegionOf(refs, inp.countryCode).Some? &&
            FirstForClass(pathways, RegionOf(refs, inp.countryCode).value, inp.assetClass).None?
            ==> r == Failure(NoPathway)
    ensures r.Success? <==>
              RegionOf(refs, inp.countryCode).Some? &&
              FirstForClass(pathways, RegionOf(refs, inp.countryCode).value, inp.assetClass).Some?
    ensures r.Success? ==>
              var p := FirstForClass(pathways, RegionOf(refs, inp.countryCode).value, inp.assetClass);
              && p.Some?
              && r.value.target == p.value.target
              && r.value.stranding == Evaluate(inp.carbonIntensity, p.value)
              && r.value.capex == inp.capex.GetOr(CapexPerSquareMetre * inp.floorArea)
              && (r.value.advice == RetrofitRecommended <==> r.value.capex > params.paybackThreshold)
              && (r.value.tenantShare, r.value.landlordShare) == CostSplit(r.value.capex, inp.tenantRatio)
  {
    match RegionOf(refs, inp.countryCode)
    case None => Failure(NoRegion)
    case Some(region) =>
      match FirstForClass(pathways, region, inp.assetClass)
      case None => Failure(NoPathway)
      case Some(p) =>
        var capex := inp.capex.GetOr(DefaultCapex(inp.floorArea));
        var split := CostSplit(capex, inp.tenantRatio);
        Success(SingleReport(p.target, Evaluate(inp.carbonIntensity, p), AdviceFor(capex, params.paybackThreshold),
                             capex, split.0, split.1))
  }

  /** One uploaded row; a field is None when the CSV has no such column. */
  datatype BatchRow = BatchRow(assetClass: Option<string>, countryCode: Option<string>,
                               carbonIntensity: Option<real>, floorArea: Option<real>, capex: Option<real>)

  /** Why a row failed: a missing column (KeyError), no region for the country
      (IndexError of `.values[0]`), or no pathway ("Missing pathway"). */
  datatype RowError = MissingColumn(column: string) | NoRegionRow | MissingPathway

  /** The text recorded in the row's `error` column (`str(e)`). */
  function ErrorMessage(e: RowError): (m: string)
    ensures e.MissingColumn? ==>
              |m| == |e.column| + 2 && m[0] == '\'' && m[|m| - 1] == '\'' && m[1..|m| - 1] == e.column
    ensures m == "Missing pathway" <==> e.MissingPathway?
    ensures |m| >= 2 && (m[0] == '\'' <==> e.MissingColumn?)
  {
    match e
    case MissingColumn(c) => "'" + c + "'"
    // the first character is split off so that it is visible to the verifier
    case NoRegionRow =>
      "i" + "ndex 0 is out of bounds for axis 0 with size 0"
    case MissingPathway =>
      "M" + "issing pathway"
  }

  /** Different failures leave different texts in the `error` column. */
  lemma ErrorMessageInjective(e1: RowError, e2: RowError)
    ensures ErrorMessage(e1) == ErrorMessage(e2) ==> e1 == e2
  {
    if ErrorMessage(e1) == ErrorMessage(e2) && e1.MissingColumn? && e2.MissingColumn? {
      var m := ErrorMessage(e1);
      assert e1.column == m[1..|m| - 1] == e2.column;
    }
  }

  datatype RowOutcome =
    | Evaluated(stranding: Stranding, tenantShare: real, landlordShare: real)
    | Failed(error: RowError)

  /** An output row: the input fields followed by the computed columns or by `error`. */
  datatype BatchResult = BatchResult(row: BatchRow, outcome: RowOutcome)

  /** The body of the batch loop's `try`, in the order the source reads the columns. */
  function EvaluateRow(refs: seq<CountryRef>, pathways: seq<PathwayRow>, row: BatchRow): (r: BatchResult)
    ensures r.row == row
    ensures row.countryCode.None? ==> r.outcome == Failed(MissingColumn("country_code"))
    ensures row.countryCode.Some? && RegionOf(refs, row.countryCode.value).None? ==> r.outcome == Failed(NoRegionRow)
    ensures (row.countryCode.Some? && RegionOf(refs, row.countryCode.value).Some? && row.assetClass.None?)
            ==> r.outcome == Failed(MissingColumn("asset_class"))
    ensures (row.countryCode.Some? && RegionOf(refs, row.countryCode.value).Some? && row.assetClass.Some?
             && FirstForClass(pathways, RegionOf(refs, row.countryCode.value).value, row.assetClass.value).None?)
            ==> r.outcome == Failed(MissingPathway)
    ensures (row.countryCode.Some? && RegionOf(refs, row.countryCode.value).Some? && row.assetClass.Some?
             && FirstForClass(pathways, RegionOf(refs, row.countryCode.value).value, row.assetClass.value).Some?
             && row.carbonIntensity.None?)
            ==> r.outcome == Failed(MissingColumn("carbon_intensity"))
    ensures (row.countryCode.Some? && RegionOf(refs, row.countryCode.value).Some? && row.assetClass.Some?
             && FirstForClass(pathways, RegionOf(refs, row.countryCode.value).value, row.assetClass.value).Some?
             && row.carbonIntensity.Some? && row.floorArea.None?)
            ==> r.outcome == Failed(MissingColumn("floor_area"))
    ensures r.outcome.Evaluated? <==>
              && row.countryCode.Some? && RegionOf(refs, row.countryCode.value).Some?
              && row.assetClass.Some?
              && FirstForClass(pathways, RegionOf(refs, row.countryCode.value).value, row.assetClass.value).Some?
              && row.carbonIntensity.Some? && row.floorArea.Some?
    ensures r.outcome.Evaluated? ==>
              var p := FirstForClass(pathways, RegionOf(refs, row.countryCode.value).value, row.assetClass.value).value;
              var capex := row.capex.GetOr(row.floorArea.value * CapexPerSquareMetre);
              && r.outcome.stranding == Evaluate(row.carbonIntensity.value, p)
              && r.outcome.tenantShare == capex * BatchTenantShare
              && r.outcome.tenantShare + r.outcome.landlordShare == capex
  {
    var outcome :=
      if row.countryCode.None? then Failed(MissingColumn("country_code"))
      else match RegionOf(refs, row.countryCode.value)
      case None => Failed(NoRegionRow)
      case Some(region) =>
        if row.assetClass.None? then Failed(MissingColumn("asset_class"))
        else match FirstForClass(pathways, region, row.assetClass.value)
        case None => Failed(MissingPathway)
        case Some(p) =>
          if row.carbonIntensity.None? then Failed(MissingColumn("carbon_intensity"))
          else if row.floorArea.None? then Failed(MissingColumn("floor_area"))
          else
            var capex := row.capex.GetOr(row.floorArea.value * CapexPerSquareMetre);
            var tenant := capex * BatchTenantShare;
            Evaluated(Evaluate(row.carbonIntensity.value, p), tenant, capex - tenant);
    BatchResult(row, outcome)
  }

  /** Runs every uploaded row in order; a failing row yields an error row and the loop goes on. */
  method RunBatch(refs: seq<CountryRef>, pathways: seq<PathwayRow>, rows: seq<BatchRow>)
    returns (results: seq<BatchResult>)
    ensures |results| == |rows|
    ensures forall i :: 0 <= i < |rows| ==> results[i].row == rows[i]
    ensures forall i :: 0 <= i < |rows| ==> results[i] == EvaluateRow(refs, pathways, rows[i])
  {
    results := [];
    var k := 0;
    while k < |rows|
      invariant 0 <= k <= |rows|
      invariant |results| == k
      invariant forall i :: 0 <= i < k ==> results[i] == EvaluateRow(refs, pathways, rows[i])
    {
      results := results + [EvaluateRow(refs, pathways, rows[k])];
      k := k + 1;
    }
  }

  /** The capex default is computed before the row's own capex is consulted, so a row
      without a floor area fails even when it carries a capex. */
  lemma FloorAreaNeededEvenWithCapex(refs: seq<CountryRef>, pathways: seq<PathwayRow>, row: BatchRow)
    requires row.countryCode.Some? && RegionOf(refs, row.countryCode.value).Some?
    requires row.assetClass.Some?
    requires FirstForClass(pathways, RegionOf(refs, row.countryCode.value).value, row.assetClass.value).Some?
    requires row.carbonIntensity.Some? && row.capex.Some? && row.floorArea.None?
    ensures EvaluateRow(refs, pathways, row).outcome == Failed(MissingColumn("floor_area"))
  {
  }

  /** A row whose asset class has no pathway in its region is recorded as "Missing pathway". */
  lemma MissingPathwayRow(refs: seq<CountryRef>, pathways: seq<PathwayRow>, row: BatchRow)
    requires row.countryCode.Some? && RegionOf(refs, row.countryCode.value).Some?
    requires row.assetClass.Some?
    requires FirstForClass(pathways, RegionOf(refs, row.countryCode.value).value, row.assetClass.value).None?
    ensures EvaluateRow(refs, pathways, row).outcome.Failed?
    ensures ErrorMessage(EvaluateRow(refs, pathways, row).outcome.error) == "Missing pathway"
  {
  }
}
