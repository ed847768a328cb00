/** Investor playbook: portfolio averages, the carbon delta against a reference target of
    50 kgCO2e/m², the five assets with the largest delta and the count per stranding estimate. */
module Playbooks {
  import opened Wrappers
  import opened Sums
  import opened AssetKpis

  /** The CRREM-like reference the delta is measured against. */
  const ReferenceTarget: real := 50.0
  const TopCount: nat := 5

  function CarbonDelta(row: AssetRow): real {
    row.carbonIntensity - ReferenceTarget
  }

  ghost predicate DescendingByDelta(s: seq<AssetRow>) {
    forall i, j :: 0 <= i < j < |s| ==> CarbonDelta(s[i]) >= CarbonDelta(s[j])
  }

  /** Inserts `r` into a delta-descending sequence before the first element it is not below. */
  function InsertByDelta(r: AssetRow, s: seq<AssetRow>): (t: seq<AssetRow>)
    ensures multiset(t) == multiset(s) + multiset{r}
    ensures |t| == |s| + 1
    ensures forall k :: 0 <= k < |t| ==> t[k] == r || t[k] in s
  {
    if s == [] then [r]
    else if CarbonDelta(r) >= CarbonDelta(s[0]) then [r] + s
    else
      assert s == [s[0]] + s[1..];
      [s[0]] + InsertByDelta(r, s[1..])
  }

  ghost predicate AllAtMost(s: seq<AssetRow>, bound: real) {
    forall k :: 0 <= k < |s| ==> CarbonDelta(s[k]) <= bound
  }

  lemma {:induction false} InsertBelowBound(r: AssetRow, s: seq<AssetRow>, bound: real)
    requires AllAtMost(s, bound) && CarbonDelta(r) <= bound
    ensures AllAtMost(InsertByDelta(r, s), bound)
  {
    if s != [] && CarbonDelta(r) < CarbonDelta(s[0]) {
      InsertBelowBound(r, s[1..], bound);
      assert InsertByDelta(r, s) == [s[0]] + InsertByDelta(r, s[1..]);
    }
  }

  lemma ConsDescending(x: AssetRow, s: seq<AssetRow>)
    requires DescendingByDelta(s) && AllAtMost(s, CarbonDelta(x))
    ensures DescendingByDelta([x] + s)
  {
    var t := [x] + s;
    forall i, j | 0 <= i < j < |t| ensures CarbonDelta(t[i]) >= CarbonDelta(t[j]) {
      assert t[j] == s[j - 1];
      if i > 0 {
        assert t[i] == s[i - 1];
      }
    }
  }

  lemma {:induction false} InsertKeepsOrder(r: AssetRow, s: seq<AssetRow>)
    requires DescendingByDelta(s)
    ensures DescendingByDelta(InsertByDelta(r, s))
  {
    if s == [] {
    } else if CarbonDelta(r) >= CarbonDelta(s[0]) {
      ConsDescending(r, s);
    } else {
      assert DescendingByDelta(s[1..]);
      assert AllAtMost(s[1..], CarbonDelta(s[0]));
      InsertKeepsOrder(r, s[1..]);
      InsertBelowBound(r, s[1..], CarbonDelta(s[0]));
      ConsDescending(s[0], InsertByDelta(r, s[1..]));
    }
  }

  /** The rows ordered by carbon delta, largest first. */
  function SortByDeltaDesc(rows: seq<AssetRow>): (t: seq<AssetRow>)
    ensures multiset(t) == multiset(rows)
    ensures |t| == |rows|
  {
    if rows == [] then []
    else
      assert rows == [rows[0]] + rows[1..];
      InsertByDelta(rows[0], SortByDeltaDesc(rows[1..]))
  }

  lemma {:induction false} SortIsDescending(rows: seq<AssetRow>)
    ensures DescendingByDelta(SortByDeltaDesc(rows))
  {
    if rows != [] {
      SortIsDescending(rows[1..]);
      InsertKeepsOrder(rows[0], SortByDeltaDesc(rows[1..]));
    }
  }

  function Min(a: nat, b: nat): nat {
    if a <= b then a else b
  }

  /** Head of the sorted table: at most five rows, those with the largest delta. */
  function Top5(rows: seq<AssetRow>): (t: seq<AssetRow>)
    ensures |t| == Min(TopCount, |rows|)
    ensures multiset(t) <= multiset(rows)
  {
    var sorted := SortByDeltaDesc(rows);
    var k := Min(TopCount, |rows|);
    assert sorted == sorted[..k] + sorted[k..];
    sorted[..k]
  }

  lemma LeftOver(rows: seq<AssetRow>, sorted: seq<AssetRow>, k: nat)
    requires k <= |sorted| && multiset(sorted) == multiset(rows)
    ensures multiset(rows) - multiset(sorted[..k]) == multiset(sorted[k..])
  {
    assert sorted == sorted[..k] + sorted[k..];
  }

  /** The selection is ordered by delta, largest first. */
  lemma Top5Descending(rows: seq<AssetRow>)
    ensures DescendingByDelta(Top5(rows))
  {
    var sorted := SortByDeltaDesc(rows);
    var t := Top5(rows);
    assert t == sorted[..|t|];
    SortIsDescending(rows);
    forall i, j | 0 <= i < j < |t| ensures CarbonDelta(t[i]) >= CarbonDelta(t[j]) {
      assert t[i] == sorted[i] && t[j] == sorted[j];
    }
  }

  lemma SuffixBelowPrefix(rows: seq<AssetRow>, sorted: seq<AssetRow>, k: nat)
    requires k <= |sorted| && multiset(sorted) == multiset(rows) && DescendingByDelta(sorted)
    ensures forall x :: x in multiset(rows) - multiset(sorted[..k]) ==>
              forall j :: 0 <= j < k ==> CarbonDelta(x) <= CarbonDelta(sorted[..k][j])
  {
    LeftOver(rows, sorted, k);
    var prefix, suffix := sorted[..k], sorted[k..];
    forall x, j | x in multiset(rows) - multiset(prefix) && 0 <= j < k
      ensures CarbonDelta(x) <= CarbonDelta(prefix[j])
    {
      assert x in suffix;
      var m :| 0 <= m < |suffix| && suffix[m] == x;
      assert prefix[j] == sorted[j] && suffix[m] == sorted[k + m];
    }
  }

  /** No row left out of the selection has a larger delta than a row kept. */
  lemma Top5KeepsLargest(rows: seq<AssetRow>)
    ensures forall x :: x in multiset(rows) - multiset(Top5(rows)) ==>
              forall j :: 0 <= j < |Top5(rows)| ==> CarbonDelta(x) <= CarbonDelta(Top5(rows)[j])
  {
    var sorted := SortByDeltaDesc(rows);
    var k := Min(TopCount, |rows|);
    SortIsDescending(rows);
    SuffixBelowPrefix(rows, sorted, k);
    assert Top5(rows) == sorted[..k];
  }

  /** Sum of the counts of a (year, count) listing. */
  function TotalCount(counts: seq<(int, nat)>): nat {
    if counts == [] then 0 else counts[0].1 + TotalCount(counts[1..])
  }

  /** `value_counts().sort_index()` of the stranding estimates: the buckets that occur,
      by ascending year, with their counts. */
  function StrandingCounts(rows: seq<AssetRow>): (c: seq<(int, nat)>)
    ensures forall i :: 0 <= i < |c| ==> IsBucket(c[i].0) && c[i].1 == CountBucket(rows, c[i].0) && c[i].1 > 0
    ensures forall i, j :: 0 <= i < j < |c| ==> c[i].0 < c[j].0
    ensures CountBucket(rows, 2025) > 0 ==> (2025, CountBucket(rows, 2025)) in c
    ensures CountBucket(rows, 2030) > 0 ==> (2030, CountBucket(rows, 2030)) in c
    ensures CountBucket(rows, 2040) > 0 ==> (2040, CountBucket(rows, 2040)) in c
  {
    var a := CountBucket(rows, 2025);
    var b := CountBucket(rows, 2030);
    var d := CountBucket(rows, 2040);
    (if a > 0 then [(2025, a)] else []) + (if b > 0 then [(2030, b)] else []) + (if d > 0 then [(2040, d)] else [])
  }

  /** The counts add up to the number of rows. */
  lemma StrandingCountsTotal(rows: seq<AssetRow>)
    ensures TotalCount(StrandingCounts(rows)) == |rows|
  {
    var a := CountBucket(rows, 2025);
    var b := CountBucket(rows, 2030);
    var d := CountBucket(rows, 2040);
    var ca := if a > 0 then [(2025, a)] else [];
    var cb := if b > 0 then [(2030, b)] else [];
    var cd := if d > 0 then [(2040, d)] else [];
    assert StrandingCounts(rows) == ca + cb + cd;
    TotalCountAppend(ca, cb);
    TotalCountAppend(ca + cb, cd);
    assert TotalCount(ca) == a && TotalCount(cb) == b && TotalCount(cd) == d;
    BucketCountsCoverRows(rows);
  }

  lemma {:induction false} TotalCountAppend(a: seq<(int, nat)>, b: seq<(int, nat)>)
    ensures TotalCount(a + b) == TotalCount(a) + TotalCount(b)
  {
    if a != [] {
      assert (a + b)[0] == a[0];
      assert (a + b)[1..] == a[1..] + b;
      TotalCountAppend(a[1..], b);
    } else {
      assert a + b == b;
    }
  }

  function DeltaColumn(rows: seq<AssetRow>): (c: seq<real>)
    ensures |c| == |rows|
    ensures forall i :: 0 <= i < |rows| ==> c[i] == CarbonDelta(rows[i])
  {
    seq(|rows|, i requires 0 <= i < |rows| => CarbonDelta(rows[i]))
  }

  /** Shifting every value by a constant shifts the mean by it. */
  lemma MeanShift(xs: seq<real>, ys: seq<real>, c: real)
    requires |ys| == |xs|
    requires forall i :: 0 <= i < |xs| ==> ys[i] == xs[i] - c
    ensures xs != [] ==> Mean(ys).value == Mean(xs).value - c
  {
    SumShift(xs, ys, c);
    if xs != [] {
      var n := |xs| as real;
      assert Sum(ys) == Sum(xs) - n * c;
      assert (Sum(xs) - n * c) / n == Sum(xs) / n - c;
    }
  }

  /** Averages shown on the page; None stands for NaN (no rows) or a non-finite intensity. */
  datatype Highlights = Highlights(avgCarbon: Option<real>, avgEnergy: Option<real>, avgDelta: Option<real>)

  function PortfolioHighlights(rows: seq<AssetRow>): (h: Highlights)
    ensures h.avgCarbon.None? <==> rows == []
    ensures h.avgDelta.None? <==> rows == []
    ensures h.avgEnergy.Some? <==> rows != [] && forall i :: 0 <= i < |rows| ==> rows[i].floorArea != 0.0
    ensures rows != [] ==> h.avgDelta.value == h.avgCarbon.value - ReferenceTarget
    ensures h.avgCarbon == Mean(CarbonColumn(rows))
    ensures h.avgEnergy == (if EnergyColumn(rows).None? then None else Mean(EnergyColumn(rows).value))
  {
    var energy := EnergyColumn(rows);
    MeanShift(CarbonColumn(rows), DeltaColumn(rows), ReferenceTarget);
    Highlights(Mean(CarbonColumn(rows)), if energy.None? then None else Mean(energy.value),
               Mean(DeltaColumn(rows)))
  }
}
