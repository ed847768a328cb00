/** Portfolio emissions projection of the net-zero transition plan: each asset gets a
    retrofit year, and the yearly totals for 2024..2035 are accumulated asset by asset,
    a full base emission before the retrofit year and a reduced one from it on. */
module EmissionsProjection {

  const FirstYear: int := 2024
  const LastYear: int := 2035
  /** Number of years in the projection table. */
  const YearCount: nat := 12
  /** Share of the base emission removed by the retrofit (placeholder). */
  const Reduction: real := 0.4

  /** The asset columns the projection reads. */
  datatype Asset = Asset(name: string, carbonIntensity: real, floorArea: real)

  /** One row of the exported series. */
  datatype YearTotal = YearTotal(year: int, total: real)

  /** Annual emission before any retrofit (kgCO2e). */
  function Base(a: Asset): real {
    a.carbonIntensity * a.floorArea
  }

  /** What one asset adds to a year's total, given its retrofit year. */
  function Contribution(a: Asset, retrofitYear: int, year: int): (c: real)
    ensures year < retrofitYear ==> c == Base(a)
    ensures year >= retrofitYear ==> c == Base(a) * (1.0 - Reduction)
    ensures Base(a) >= 0.0 ==> Base(a) * (1.0 - Reduction) <= c <= Base(a)
  {
    if year < retrofitYear then Base(a) else Base(a) * (1.0 - Reduction)
  }

  ghost predicate Covers(assets: seq<Asset>, retrofit: map<string, int>) {
    forall i :: 0 <= i < |assets| ==> assets[i].name in retrofit
  }

  /** Sum over the assets of their contributions to `year`. */
  function Total(assets: seq<Asset>, retrofit: map<string, int>, year: int): (t: real)
    requires Covers(assets, retrofit)
    ensures (forall i :: 0 <= i < |assets| ==> Base(assets[i]) >= 0.0) ==>
              (1.0 - Reduction) * BaseSum(assets) <= t <= BaseSum(assets)
  {
    if assets == [] then 0.0
    else
      var last := assets[|assets| - 1];
      Total(assets[..|assets| - 1], retrofit, year) + Contribution(last, retrofit[last.name], year)
  }

  /** Sum of the base emissions. */
  function BaseSum(assets: seq<Asset>): real {
    if assets == [] then 0.0 else BaseSum(assets[..|assets| - 1]) + Base(assets[|assets| - 1])
  }

  /** Fills the retrofit-year map from the per-asset selection `pick` (one widget per asset name). */
  method SelectRetrofitYears(names: seq<string>, pick: string -> int) returns (retrofit: map<string, int>)
    ensures retrofit.Keys == set i | 0 <= i < |names| :: names[i]
    ensures forall n :: n in retrofit ==> retrofit[n] == pick(n)
  {
    retrofit := map[];
    var k := 0;
    while k < |names|
      invariant 0 <= k <= |names|
      invariant retrofit.Keys == set i | 0 <= i < k :: names[i]
      invariant forall n :: n in retrofit ==> retrofit[n] == pick(n)
    {
      retrofit := retrofit[names[k] := pick(names[k])];
      k := k + 1;
    }
  }

  /** The projection years 2024..2035, ascending. */
  function Years(): (ys: seq<int>)
    ensures |ys| == YearCount
    ensures forall k :: 0 <= k < YearCount ==> ys[k] == FirstYear + k
  {
    seq(YearCount, k => FirstYear + k)
  }

  /** The retrofit years of the assets as selected by `pick`. */
  function Selection(assets: seq<Asset>, pick: string -> int): (m: map<string, int>)
    ensures Covers(assets, m)
    ensures forall n :: n in m ==> m[n] == pick(n)
  {
    map i | 0 <= i < |assets| :: assets[i].name := pick(assets[i].name)
  }

  /** Accumulates the yearly totals in place and returns them in ascending year order. */
  method ProjectEmissions(assets: seq<Asset>, retrofit: map<string, int>) returns (series: seq<YearTotal>)
    requires Covers(assets, retrofit)
    ensures |series| == YearCount
    ensures forall k :: 0 <= k < YearCount ==>
              series[k].year == FirstYear + k && series[k].total == Total(assets, retrofit, FirstYear + k)
  {
    var years := Years();
    var byYear: map<int, real> := map y | y in years :: 0.0;
    var i := 0;
    while i < |assets|
      invariant 0 <= i <= |assets|
      invariant forall y :: y in byYear <==> y in years
      invariant forall y :: y in byYear ==> byYear[y] == Total(assets[..i], retrofit, y)
    {
      byYear := AddAsset(byYear, years, assets[i], retrofit[assets[i].name]);
      assert assets[..i + 1][..i] == assets[..i];
      i := i + 1;
    }
    assert assets[..i] == assets;
    series := seq(YearCount, k requires 0 <= k < YearCount => YearTotal(years[k], byYear[years[k]]));
  }

  /** The inner loop of the projection: one asset's contribution added to every year. */
  method AddAsset(byYear: map<int, real>, years: seq<int>, a: Asset, assetYear: int)
    returns (updated: map<int, real>)
    requires years == Years()
    requires forall y :: y in byYear <==> y in years
    ensures forall y :: y in updated <==> y in years
    ensures forall y :: y in updated ==> updated[y] == byYear[y] + Contribution(a, assetYear, y)
  {
    updated := byYear;
    var j := 0;
    while j < |years|
      invariant 0 <= j <= |years|
      invariant forall y :: y in updated <==> y in years
      invariant forall y :: y in updated ==>
                  updated[y] == byYear[y] + (if y < FirstYear + j then Contribution(a, assetYear, y) else 0.0)
    {
      var year := years[j];
      if year < assetYear {
        updated := updated[year := updated[year] + Base(a)];
      } else {
        updated := updated[year := updated[year] + Base(a) * (1.0 - Reduction)];
      }
      j := j + 1;
    }
  }

  /** The page: retrofit years from the selections, then the projected series. */
  method PlanPortfolio(assets: seq<Asset>, pick: string -> int) returns (series: seq<YearTotal>)
    ensures |series| == YearCount
    ensures forall k :: 0 <= k < YearCount ==> series[k].year == FirstYear + k
    ensures forall k :: 0 <= k < YearCount ==>
              series[k].total == Total(assets, Selection(assets, pick), FirstYear + k)
  {
    var names := seq(|assets|, i requires 0 <= i < |assets| => assets[i].name);
    var retrofit := SelectRetrofitYears(names, pick);
    var expected := Selection(assets, pick);
    assert retrofit.Keys == expected.Keys by {
      forall n | n in expected ensures n in retrofit {
        var i :| 0 <= i < |assets| && assets[i].name == n;
        assert names[i] == n;
      }
    }
    assert retrofit == expected;
    series := ProjectEmissions(assets, retrofit);
  }

  /** With non-negative base emissions, the projected total never rises from one year to a later one. */
  lemma {:induction false} TotalNonIncreasing(assets: seq<Asset>, retrofit: map<string, int>, y1: int, y2: int)
    requires Covers(assets, retrofit)
    requires forall i :: 0 <= i < |assets| ==> Base(assets[i]) >= 0.0
    requires y1 <= y2
    ensures Total(assets, retrofit, y2) <= Total(assets, retrofit, y1)
  {
    if assets != [] {
      TotalNonIncreasing(assets[..|assets| - 1], retrofit, y1, y2);
    }
  }

  /** Once every asset is retrofitted, the total is 60% of the summed base emissions. */
  lemma {:induction false} TotalAfterAllRetrofits(assets: seq<Asset>, retrofit: map<string, int>, year: int)
    requires Covers(assets, retrofit)
    requires forall i :: 0 <= i < |assets| ==> retrofit[assets[i].name] <= year
    ensures Total(assets, retrofit, year) == 0.6 * BaseSum(assets)
  {
    if assets != [] {
      TotalAfterAllRetrofits(assets[..|assets| - 1], retrofit, year);
    }
  }

  /** Before any retrofit year the total is the full summed base emission. */
  lemma {:induction false} TotalBeforeAnyRetrofit(assets: seq<Asset>, retrofit: map<string, int>, year: int)
    requires Covers(assets, retrofit)
    requires forall i :: 0 <= i < |assets| ==> year < retrofit[assets[i].name]
    ensures Total(assets, retrofit, year) == BaseSum(assets)
  {
    if assets != [] {
      TotalBeforeAnyRetrofit(assets[..|assets| - 1], retrofit, year);
    }
  }

  /** With every selection left at its default (2024), every projected year is 60% of the base sum. */
  lemma DefaultSelection(assets: seq<Asset>, year: int)
    requires FirstYear <= year
    ensures Total(assets, Selection(assets, _ => FirstYear), year) == 0.6 * BaseSum(assets)
  {
    TotalAfterAllRetrofits(assets, Selection(assets, _ => FirstYear), year);
  }
}
