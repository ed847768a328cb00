/** Per-asset figures that the dashboard and the stakeholder playbooks both derive from
    a validated asset table: the three-band stranding-year estimate, the energy intensity
    and column means. */
module AssetKpis {
  import opened Wrappers
  import opened Sums

  /** A row of a validated asset CSV; `energy` is None when the table has no
      "Energy Consumption (kWh)" column. */
  datatype AssetRow = AssetRow(name: string, location: string, floorArea: real, carbonIntensity: real,
                               epc: string, energy: Option<real>)

  const VeryHighIntensity: real := 80.0
  const HighIntensity: real := 60.0

  /** Estimated stranding year: 2025 above 80, 2030 above 60, 2040 otherwise. */
  function StrandingBucket(intensity: real): (y: int)
    ensures IsBucket(y)
    ensures y == 2025 <==> intensity > VeryHighIntensity
    ensures y == 2030 <==> HighIntensity < intensity <= VeryHighIntensity
    ensures y == 2040 <==> intensity <= HighIntensity
  {
    if intensity > VeryHighIntensity then 2025 else if intensity > HighIntensity then 2030 else 2040
  }

  /** The three possible estimates. */
  predicate IsBucket(y: int) {
    y == 2025 || y == 2030 || y == 2040
  }

  /** A higher intensity never gets a later stranding estimate. */
  lemma BucketAntitone(x1: real, x2: real)
    requires x1 <= x2
    ensures StrandingBucket(x2) <= StrandingBucket(x1)
  {
  }

  /** Energy per m², the energy defaulting to 0 when the column is absent; there is no guard
      for a zero floor area, where the division is not finite (None). */
  function EnergyIntensity(row: AssetRow): (r: Option<real>)
    ensures r.None? <==> row.floorArea == 0.0
    ensures r.Some? ==> r.value * row.floorArea == row.energy.GetOr(0.0)
    ensures r.Some? && row.energy.None? ==> r.value == 0.0
  {
    if row.floorArea == 0.0 then None else Some(row.energy.GetOr(0.0) / row.floorArea)
  }

  /** Column mean; None for an empty column (NaN). */
  function Mean(xs: seq<real>): (m: Option<real>)
    ensures m.None? <==> xs == []
    ensures m.Some? ==> m.value * |xs| as real == Sum(xs)
  {
    if xs == [] then None else Some(Sum(xs) / |xs| as real)
  }

  lemma {:induction false} SumBounds(xs: seq<real>, lo: real, hi: real)
    requires forall i :: 0 <= i < |xs| ==> lo <= xs[i] <= hi
    ensures |xs| as real * lo <= Sum(xs) <= |xs| as real * hi
  {
    if xs != [] {
      SumBounds(xs[1..], lo, hi);
    }
  }

  lemma QuotientBounds(s: real, n: real, lo: real, hi: real)
    requires n > 0.0 && n * lo <= s <= n * hi
    ensures lo <= s / n <= hi
  {
  }

  /** The mean lies within any bounds of the column, hence between its minimum and maximum. */
  lemma MeanWithinBounds(xs: seq<real>, lo: real, hi: real)
    requires xs != []
    requires forall i :: 0 <= i < |xs| ==> lo <= xs[i] <= hi
    ensures lo <= Mean(xs).value <= hi
  {
    SumBounds(xs, lo, hi);
    QuotientBounds(Sum(xs), |xs| as real, lo, hi);
  }

  function CarbonColumn(rows: seq<AssetRow>): (c: seq<real>)
    ensures |c| == |rows|
    ensures forall i :: 0 <= i < |rows| ==> c[i] == rows[i].carbonIntensity
  {
    seq(|rows|, i requires 0 <= i < |rows| => rows[i].carbonIntensity)
  }

  /** The energy-intensity column; None when some row's intensity is not finite. */
  function EnergyColumn(rows: seq<AssetRow>): (c: Option<seq<real>>)
    ensures c.None? <==> exists i :: 0 <= i < |rows| && rows[i].floorArea == 0.0
    ensures c.Some? ==> |c.value| == |rows|
    ensures c.Some? ==> forall i :: 0 <= i < |rows| ==> EnergyIntensity(rows[i]) == Some(c.value[i])
  {
    if exists i :: 0 <= i < |rows| && rows[i].floorArea == 0.0 then None
    else Some(seq(|rows|, i requires 0 <= i < |rows| => EnergyIntensity(rows[i]).value))
  }

  /** Number of rows whose stranding estimate is `year`. */
  function CountBucket(rows: seq<AssetRow>, year: int): (n: nat)
    ensures n <= |rows|
  {
    if rows == [] then 0
    else (if StrandingBucket(rows[0].carbonIntensity) == year then 1 else 0) + CountBucket(rows[1..], year)
  }

  /** Every row falls in exactly one of the three buckets. */
  lemma {:induction false} BucketCountsCoverRows(rows: seq<AssetRow>)
    ensures CountBucket(rows, 2025) + CountBucket(rows, 2030) + CountBucket(rows, 2040) == |rows|
  {
    if rows != [] {
      BucketCountsCoverRows(rows[1..]);
    }
  }

  /** A row exists in a bucket exactly when its count is positive. */
  lemma {:induction false} CountPositive(rows: seq<AssetRow>, year: int)
    ensures CountBucket(rows, year) > 0 <==>
              exists i :: 0 <= i < |rows| && StrandingBucket(rows[i].carbonIntensity) == year
  {
    if rows != [] {
      CountPositive(rows[1..], year);
      if StrandingBucket(rows[0].carbonIntensity) != year && CountBucket(rows, year) == 0 {
        forall i | 0 <= i < |rows| ensures StrandingBucket(rows[i].carbonIntensity) != year {
          if i > 0 { assert rows[i] == rows[1..][i - 1]; }
        }
      }
      if CountBucket(rows[1..], year) > 0 {
        var i :| 0 <= i < |rows[1..]| && StrandingBucket(rows[1..][i].carbonIntensity) == year;
        assert rows[i + 1] == rows[1..][i];
      }
    }
  }
}
