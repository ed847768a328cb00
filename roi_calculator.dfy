/** Retrofit ROI and carbon payback: capex from a cost rate, energy, money and emission
    savings, a ten-year cash-flow series with its discounting, NPV, simple ROI, payback
    and the post-retrofit check against the CRREM target. */
module RoiCalculator {
  import opened Wrappers
  import Lookup
  import opened Pathways
  import opened Sums

  /** Number of years of savings after the initial outlay. */
  const Horizon: nat := 10

  datatype CostRow = CostRow(category: string, technology: string, costPerSquareMetre: real)
  datatype TariffRow = TariffRow(country: string, fuelType: string)
  datatype DiscountRow = DiscountRow(country: string, rate: real)
  datatype FactorRow = FactorRow(country: string, fuel: string, kgPerKwh: real)
  datatype PriceRow = PriceRow(country: string, year: int, pricePerKwh: real)

  datatype Tables = Tables(costs: seq<CostRow>, tariffs: seq<TariffRow>, discounts: seq<DiscountRow>,
                           factors: seq<FactorRow>, prices: seq<PriceRow>, pathways: seq<PathwayRow>)

  datatype Inputs = Inputs(country: string, assetClass: string, category: string, technology: string,
                           fuelType: string, floorArea: real, kwhBefore: real, kwhAfter: real, startYear: int)

  /** What the IRR routine gives back: a rate, NaN (no solution, shown as "N/A"), or an
      exception (the routine is absent from the numerical library). */
  datatype Irr = IrrRate(rate: real) | IrrUndefined | IrrRaised

  /** Payback in years, or the "infinite" sentinel shown as "N/A". */
  datatype Payback = PaybackYears(years: real) | Never

  /** A row of the downloadable cash-flow table. */
  datatype ExportRow = ExportRow(year: int, savings: real, discounted: real)

  /** A missing reference row raises inside the calculation; so does a raising IRR routine.
      All are reported as a calculation error. */
  datatype CalcError = NoCostRow | NoTariffRow | NoDiscountRow | NoFactorRow | NoPriceRow | IrrFailed

  datatype Report = Report(capexTotal: real, savingsKwh: real, annualSavings: real, emissionsSaved: real,
                           cashFlows: seq<real>, discounted: seq<real>, npv: real, irr: Irr,
                           roi: Option<real>, payback: Payback, target: Option<real>,
                           postIntensity: real, stranded: bool, table: seq<ExportRow>)

  function Pow(b: real, n: nat): (p: real)
    ensures b > 0.0 ==> p > 0.0
    ensures b >= 1.0 ==> p >= 1.0
    ensures b != 0.0 ==> p != 0.0
  {
    if n == 0 then 1.0 else b * Pow(b, n - 1)
  }

  /** Outlay first, then `Horizon` equal years of savings. */
  function CashFlows(capexTotal: real, annualSavings: real): (cf: seq<real>)
    ensures |cf| == Horizon + 1
    ensures cf[0] == -capexTotal
    ensures forall i :: 1 <= i <= Horizon ==> cf[i] == annualSavings
  {
    [-capexTotal] + seq(Horizon, _ => annualSavings)
  }

  /** Each flow divided by (1 + rate) to the power of its index. */
  function Discounted(cf: seq<real>, rate: real): (d: seq<real>)
    requires rate != -1.0
    ensures |d| == |cf|
    ensures forall i :: 0 <= i < |cf| ==> d[i] * Pow(1.0 + rate, i) == cf[i]
    ensures |cf| > 0 ==> d[0] == cf[0]
  {
    seq(|cf|, i requires 0 <= i < |cf| => cf[i] / Pow(1.0 + rate, i))
  }

  /** Net present value: the sum of the discounted flows; undiscounted at rate 0. */
  function Npv(cf: seq<real>, rate: real): (n: real)
    requires rate != -1.0
    ensures rate == 0.0 ==> n == Sum(cf)
  {
    DiscountedAtZero(cf);
    Sum(Discounted(cf, rate))
  }

  /** At rate 0 every power is 1, so discounting changes nothing. */
  lemma DiscountedAtZero(cf: seq<real>)
    ensures Discounted(cf, 0.0) == cf
  {
    forall i | 0 <= i < |cf| ensures Discounted(cf, 0.0)[i] == cf[i] {
      PowOne(i);
    }
  }

  /** Simple ROI over the horizon; None when capex is zero (the division is undefined). */
  function Roi(cf: seq<real>, capexTotal: real): (r: Option<real>)
    requires |cf| >= 1
    ensures r.None? <==> capexTotal == 0.0
    ensures r.Some? ==> r.value * capexTotal == Sum(cf[1..]) - capexTotal
  {
    if capexTotal == 0.0 then None else Some((Sum(cf[1..]) - capexTotal) / capexTotal)
  }

  function PaybackOf(capexTotal: real, annualSavings: real): (p: Payback)
    ensures p.PaybackYears? <==> annualSavings > 0.0
    ensures p.PaybackYears? ==> p.years * annualSavings == capexTotal
  {
    if annualSavings > 0.0 then PaybackYears(capexTotal / annualSavings) else Never
  }

  /** Post-retrofit intensity: energy after per m² times the carbon factor. */
  function PostIntensity(kwhAfter: real, floorArea: real, carbonFactor: real): (p: real)
    requires floorArea > 0.0
    ensures p * floorArea == kwhAfter * carbonFactor
  {
    kwhAfter / floorArea * carbonFactor
  }

  /** Stranded only when a target exists and the post-retrofit intensity exceeds it. */
  function Stranded(target: Option<real>, postIntensity: real): (s: bool)
    ensures s <==> target.Some? && postIntensity > target.value
    ensures target.None? ==> !s
  {
    match target
    case None => false
    case Some(t) => postIntensity > t
  }

  /** Ten rows, one per year from the start year, with the discounted savings of years 1..10. */
  function ExportTable(startYear: int, annualSavings: real, discounted: seq<real>): (t: seq<ExportRow>)
    requires |discounted| == Horizon + 1
    ensures |t| == Horizon
    ensures forall k :: 0 <= k < Horizon ==>
              t[k].year == startYear + k && t[k].savings == annualSavings && t[k].discounted == discounted[k + 1]
  {
    seq(Horizon, k requires 0 <= k < Horizon => ExportRow(startYear + k, annualSavings, discounted[k + 1]))
  }

  /** The reference rows the calculation reads, each the first match of its table. */
  datatype Found = Found(cost: CostRow, discount: DiscountRow, factor: FactorRow, price: PriceRow)

  /** The five `.query(...).iloc[0]` lookups of the page, each the first row matching its keys. */
  function CostFor(tables: Tables, inp: Inputs): Option<CostRow> {
    Lookup.First(tables.costs, (c: CostRow) => c.category == inp.category && c.technology == inp.technology)
  }

  function TariffFor(tables: Tables, inp: Inputs): Option<TariffRow> {
    Lookup.First(tables.tariffs, (t: TariffRow) => t.country == inp.country && t.fuelType == inp.fuelType)
  }

  function DiscountFor(tables: Tables, inp: Inputs): Option<DiscountRow> {
    Lookup.First(tables.discounts, (d: DiscountRow) => d.country == inp.country)
  }

  function FactorFor(tables: Tables, inp: Inputs): Option<FactorRow> {
    Lookup.First(tables.factors, (f: FactorRow) => f.country == inp.country && f.fuel == inp.fuelType)
  }

  function PriceFor(tables: Tables, inp: Inputs): Option<PriceRow> {
    Lookup.First(tables.prices, (p: PriceRow) => p.country == inp.country && p.year == inp.startYear)
  }

  /** The five lookups, in the order the page performs them; the first miss raises. The tariff
      row is looked up (and so must exist) but none of its columns is used. */
  function FindRows(tables: Tables, inp: Inputs): (r: Result<Found, CalcError>)
    ensures CostFor(tables, inp).None? ==> r == Failure(NoCostRow)
    ensures CostFor(tables, inp).Some? && TariffFor(tables, inp).None? ==> r == Failure(NoTariffRow)
    ensures CostFor(tables, inp).Some? && TariffFor(tables, inp).Some? && DiscountFor(tables, inp).None?
            ==> r == Failure(NoDiscountRow)
    ensures (CostFor(tables, inp).Some? && TariffFor(tables, inp).Some? && DiscountFor(tables, inp).Some?
             && FactorFor(tables, inp).None?) ==> r == Failure(NoFactorRow)
    ensures (CostFor(tables, inp).Some? && TariffFor(tables, inp).Some? && DiscountFor(tables, inp).Some?
             && FactorFor(tables, inp).Some? && PriceFor(tables, inp).None?) ==> r == Failure(NoPriceRow)
    ensures r.Success? <==> CostFor(tables, inp).Some? && TariffFor(tables, inp).Some? && DiscountFor(tables, inp).Some?
                            && FactorFor(tables, inp).Some? && PriceFor(tables, inp).Some?
    ensures r.Success? ==> r.value == Found(CostFor(tables, inp).value, DiscountFor(tables, inp).value,
                                            FactorFor(tables, inp).value, PriceFor(tables, inp).value)
    ensures r.Success? ==> r.value.cost in tables.costs && r.value.cost.category == inp.category
                           && r.value.cost.technology == inp.technology
    ensures r.Success? ==> r.value.discount in tables.discounts && r.value.discount.country == inp.country
    ensures r.Success? ==> r.value.factor in tables.factors && r.value.factor.country == inp.country
                           && r.value.factor.fuel == inp.fuelType
    ensures r.Success? ==> r.value.price in tables.prices && r.value.price.country == inp.country
                           && r.value.price.year == inp.startYear
  {
    match CostFor(tables, inp)
    case None => Failure(NoCostRow)
    case Some(costRow) =>
    match TariffFor(tables, inp)
    case None => Failure(NoTariffRow)
    case Some(_) =>
    match DiscountFor(tables, inp)
    case None => Failure(NoDiscountRow)
    case Some(discountRow) =>
    match FactorFor(tables, inp)
    case None => Failure(NoFactorRow)
    case Some(factorRow) =>
    match PriceFor(tables, inp)
    case None => Failure(NoPriceRow)
    case Some(priceRow) => Success(Found(costRow, discountRow, factorRow, priceRow))
  }

  /** The figures computed once every reference row has been found; `irrOf` stands for the
      library IRR routine applied to the cash flows. */
  function Economics(inp: Inputs, pathways: seq<PathwayRow>, found: Found, irrOf: seq<real> -> Irr): (r: Report)
    requires inp.floorArea >= 100.0 && found.discount.rate != -1.0
    ensures r.capexTotal == found.cost.costPerSquareMetre * inp.floorArea
    ensures r.savingsKwh == inp.kwhBefore - inp.kwhAfter
    ensures r.annualSavings == r.savingsKwh * found.price.pricePerKwh
    ensures r.emissionsSaved == r.savingsKwh * found.factor.kgPerKwh
    ensures |r.cashFlows| == Horizon + 1 && r.cashFlows[0] == -r.capexTotal
    ensures forall i :: 1 <= i <= Horizon ==> r.cashFlows[i] == r.annualSavings
    ensures r.irr == irrOf(r.cashFlows)
    ensures r.discounted == Discounted(r.cashFlows, found.discount.rate)
    ensures r.npv == Npv(r.cashFlows, found.discount.rate)
    ensures r.roi == Roi(r.cashFlows, r.capexTotal)
    ensures r.payback == PaybackOf(r.capexTotal, r.annualSavings)
    ensures r.target == TargetFor(pathways, inp.country, inp.assetClass, inp.startYear)
    ensures r.postIntensity * inp.floorArea == inp.kwhAfter * found.factor.kgPerKwh
    ensures r.stranded <==> r.target.Some? && r.postIntensity > r.target.value
    ensures r.table == ExportTable(inp.startYear, r.annualSavings, r.discounted)
  {
    var capexTotal := found.cost.costPerSquareMetre * inp.floorArea;
    var savingsKwh := inp.kwhBefore - inp.kwhAfter;
    var annualSavings := savingsKwh * found.price.pricePerKwh;
    var cf := CashFlows(capexTotal, annualSavings);
    var discounted := Discounted(cf, found.discount.rate);
    var target := TargetFor(pathways, inp.country, inp.assetClass, inp.startYear);
    var post := PostIntensity(inp.kwhAfter, inp.floorArea, found.factor.kgPerKwh);
    Report(capexTotal, savingsKwh, annualSavings, savingsKwh * found.factor.kgPerKwh, cf, discounted,
           Npv(cf, found.discount.rate), irrOf(cf), Roi(cf, capexTotal), PaybackOf(capexTotal, annualSavings),
           target, post, Stranded(target, post), ExportTable(inp.startYear, annualSavings, discounted))
  }

  /** The whole calculation behind the form's submit button: the lookups, each raising on a
      miss, then the figures; an IRR routine that raises aborts the run. */
  function Calculate(tables: Tables, inp: Inputs, irrOf: seq<real> -> Irr): (r: Result<Report, CalcError>)
    requires inp.floorArea >= 100.0
    requires DiscountFor(tables, inp).Some? ==> DiscountFor(tables, inp).value.rate != -1.0
    ensures FindRows(tables, inp).Failure? ==> r == Failure(FindRows(tables, inp).error)
    ensures r.Success? <==>
              FindRows(tables, inp).Success?
              && !Economics(inp, tables.pathways, FindRows(tables, inp).value, irrOf).irr.IrrRaised?
    ensures r.Success? ==> r.value == Economics(inp, tables.pathways, FindRows(tables, inp).value, irrOf)
    ensures r == Failure(IrrFailed) <==>
              FindRows(tables, inp).Success? && Economics(inp, tables.pathways, FindRows(tables, inp).value, irrOf).irr.IrrRaised?
  {
    match FindRows(tables, inp)
    case Failure(e) => Failure(e)
    case Success(found) =>
      var report := Economics(inp, tables.pathways, found, irrOf);
      if report.irr.IrrRaised? then Failure(IrrFailed) else Success(report)
  }

  /** Simple ROI in closed form: (10·savings − capex) / capex. */
  lemma RoiClosedForm(capexTotal: real, annualSavings: real)
    requires capexTotal != 0.0
    ensures Roi(CashFlows(capexTotal, annualSavings), capexTotal)
            == Some((Horizon as real * annualSavings - capexTotal) / capexTotal)
  {
    var cf := CashFlows(capexTotal, annualSavings);
    SumConstant(cf[1..], annualSavings);
  }

  lemma {:induction false} PowOne(n: nat)
    ensures Pow(1.0, n) == 1.0
  {
    if n > 0 {
      PowOne(n - 1);
    }
  }

  /** Without discounting, NPV is ten years of savings less the outlay. */
  lemma NpvAtZeroRate(capexTotal: real, annualSavings: real)
    ensures Npv(CashFlows(capexTotal, annualSavings), 0.0) == Horizon as real * annualSavings - capexTotal
  {
    var cf := CashFlows(capexTotal, annualSavings);
    SumConstant(cf[1..], annualSavings);
    assert cf == [cf[0]] + cf[1..];
  }

  /** With a non-negative rate and non-negative savings, discounting never raises the NPV
      above the undiscounted total. */
  lemma NpvAtMostUndiscounted(capexTotal: real, annualSavings: real, rate: real)
    requires rate >= 0.0 && annualSavings >= 0.0
    ensures Npv(CashFlows(capexTotal, annualSavings), rate) <= Horizon as real * annualSavings - capexTotal
  {
    var cf := CashFlows(capexTotal, annualSavings);
    var d := Discounted(cf, rate);
    forall i | 0 <= i < |cf| ensures d[i] <= cf[i] {
      var p := Pow(1.0 + rate, i);
      assert d[i] * p == cf[i];
      if i == 0 {
        assert p == 1.0;
      } else {
        DivisionBelow(cf[i], p, d[i]);
      }
    }
    SumMonotone(d, cf);
    NpvAtZeroRate(capexTotal, annualSavings);
  }

  /** Dividing a non-negative amount by a factor of at least 1 does not increase it. */
  lemma DivisionBelow(c: real, p: real, q: real)
    requires c >= 0.0 && p >= 1.0 && q * p == c
    ensures q <= c
  {
    assert q >= 0.0;
    assert q * 1.0 <= q * p;
  }
}
