/** The computations inside the migration endpoints of backend/main.py:
    status tiers, totals, averages, the top districts, the half-over-half
    trend and the forecast method check. Query results are input
    sequences of rows. */
module MigrationApi {
  import opened Common

  /** One `MigrationIndex` row as the endpoints read it. */
  datatype MigrationRow = MigrationRow(
    district: string, childEnrolments: real, adultUpdates: real, migrationIndex: Option<real>)

  /** `interpret_index`: the tiers use `<`, so 1.0, 2.0 and 3.0 open the
      next tier. */
  function InterpretIndex(v: Option<real>): (status: string)
    ensures status == "No Data" <==> v.None?
    ensures status == "Low Migration" <==> v.Some? && v.value < 1.0
    ensures status == "Moderate Migration" <==> v.Some? && 1.0 <= v.value < 2.0
    ensures status == "High Migration" <==> v.Some? && 2.0 <= v.value < 3.0
    ensures status == "Very High Migration" <==> v.Some? && v.value >= 3.0
  {
    if v.None? then "No Data"
    else if v.value < 1.0 then "Low Migration"
    else if v.value < 2.0 then "Moderate Migration"
    else if v.value < 3.0 then "High Migration"
    else "Very High Migration"
  }

  /** A higher index never gets a lower tier. */
  function Tier(status: string): int
  {
    if status == "Low Migration" then 0
    else if status == "Moderate Migration" then 1
    else if status == "High Migration" then 2
    else if status == "Very High Migration" then 3
    else -1
  }

  lemma InterpretIndexMonotone(x: real, y: real)
    requires x <= y
    ensures Tier(InterpretIndex(Some(x))) <= Tier(InterpretIndex(Some(y)))
  {
  }

  // ---------------------------------------------------------------------
  // Totals and averages
  // ---------------------------------------------------------------------

  function Child(r: MigrationRow): real { r.childEnrolments }
  function Adult(r: MigrationRow): real { r.adultUpdates }

  /** The non-null indices, in row order. */
  function ValidIndices(rows: seq<MigrationRow>): (vs: seq<real>)
    ensures |vs| <= |rows|
    ensures vs == [] <==> forall i :: 0 <= i < |rows| ==> rows[i].migrationIndex.None?
  {
    if rows == [] then []
    else
      var n := |rows| - 1;
      var p := ValidIndices(rows[..n]);
      assert forall i :: 0 <= i < n ==> rows[..n][i] == rows[i];
      match rows[n].migrationIndex
      case Some(v) => p + [v]
      case None => p
  }

  /** Exactly the non-null indices appear. */
  lemma {:induction false} ValidIndicesMembers(rows: seq<MigrationRow>)
    ensures forall v :: v in ValidIndices(rows) <==> exists i :: 0 <= i < |rows| && rows[i].migrationIndex == Some(v)
  {
    if rows != [] {
      var n := |rows| - 1;
      ValidIndicesMembers(rows[..n]);
      assert forall i :: 0 <= i < n ==> rows[..n][i] == rows[i];
      assert rows == rows[..n] + [rows[n]];
    }
  }

  /** The `(index, child_enrolments)` pairs of the rows with an index. */
  function Weighted(rows: seq<MigrationRow>): (ps: seq<(real, real)>)
    ensures |ps| == |ValidIndices(rows)|
    ensures forall k :: 0 <= k < |ps| ==> ps[k].0 == ValidIndices(rows)[k]
  {
    if rows == [] then []
    else
      var n := |rows| - 1;
      var p := Weighted(rows[..n]);
      match rows[n].migrationIndex
      case Some(v) => p + [(v, rows[n].childEnrolments)]
      case None => p
  }

  function Products(ps: seq<(real, real)>): real
  {
    if ps == [] then 0.0 else Products(ps[..|ps| - 1]) + ps[|ps| - 1].0 * ps[|ps| - 1].1
  }

  function Weights(ps: seq<(real, real)>): real
  {
    if ps == [] then 0.0 else Weights(ps[..|ps| - 1]) + ps[|ps| - 1].1
  }

  /** The outcome of a computation that Python may abort with
      `ZeroDivisionError`. */
  datatype Checked<T> = Value(value: T) | ZeroDivision

  /** The state endpoint's average: Σ index·weight / Σ weight over the rows
      with an index, None when there are none, and a division by zero when
      their weights add up to 0. */
  function StateAverage(rows: seq<MigrationRow>): (r: Checked<Option<real>>)
    ensures r == Value(None) <==> ValidIndices(rows) == []
    ensures r == ZeroDivision <==> ValidIndices(rows) != [] && Weights(Weighted(rows)) == 0.0
    ensures r.Value? && r.value.Some? ==>
      r.value.value * Weights(Weighted(rows)) == Products(Weighted(rows))
  {
    var ps := Weighted(rows);
    if ps == [] then Value(None)
    else if Weights(ps) == 0.0 then ZeroDivision
    else Value(Some(Products(ps) / Weights(ps)))
  }

  lemma {:induction false} WeightedSumsBounded(ps: seq<(real, real)>, lo: real, hi: real)
    requires forall k :: 0 <= k < |ps| ==> ps[k].1 >= 0.0 && lo <= ps[k].0 <= hi
    ensures lo * Weights(ps) <= Products(ps) <= hi * Weights(ps)
  {
    if ps != [] {
      var n := |ps| - 1;
      WeightedSumsBounded(ps[..n], lo, hi);
      var x, w := ps[n].0, ps[n].1;
      assert lo * w <= x * w <= hi * w by {
        assert (x - lo) * w >= 0.0;
        assert (hi - x) * w >= 0.0;
      }
    }
  }

  /** With non-negative weights the weighted average lies between the
      smallest and the largest index. */
  lemma StateAverageBounded(rows: seq<MigrationRow>, lo: real, hi: real)
    requires forall i :: 0 <= i < |rows| ==> rows[i].childEnrolments >= 0.0
    requires forall i :: 0 <= i < |rows| && rows[i].migrationIndex.Some? ==>
      lo <= rows[i].migrationIndex.value <= hi
    ensures StateAverage(rows).Value? && StateAverage(rows).value.Some? ==>
      lo <= StateAverage(rows).value.value <= hi
  {
    WeightedFromRows(rows, lo, hi);
    PairsAverageBounded(Weighted(rows), lo, hi);
  }

  /** The weighted average of pairs whose indices lie in [lo, hi] and
      whose weights are non-negative lies in [lo, hi] as well. */
  lemma PairsAverageBounded(ps: seq<(real, real)>, lo: real, hi: real)
    requires forall k :: 0 <= k < |ps| ==> ps[k].1 >= 0.0 && lo <= ps[k].0 <= hi
    ensures ps != [] && Weights(ps) != 0.0 ==> lo <= Products(ps) / Weights(ps) <= hi
  {
    WeightedSumsBounded(ps, lo, hi);
    WeightsNonNegative(ps);
    var p, w := Products(ps), Weights(ps);
    if ps != [] && w != 0.0 {
      QuotientBetween(p, w, lo, hi);
    }
  }

  /** A quotient by a positive weight keeps the bounds of the dividend. */
  lemma QuotientBetween(p: real, w: real, lo: real, hi: real)
    requires w > 0.0 && lo * w <= p <= hi * w
    ensures lo <= p / w <= hi
  {
    DivTimes(p, w);
    if p / w < lo {
      BelowTimes(p / w, lo, w);
    }
    if hi < p / w {
      BelowTimes(hi, p / w, w);
    }
  }

  lemma {:induction false} WeightedFromRows(rows: seq<MigrationRow>, lo: real, hi: real)
    requires forall i :: 0 <= i < |rows| ==> rows[i].childEnrolments >= 0.0
    requires forall i :: 0 <= i < |rows| && rows[i].migrationIndex.Some? ==>
      lo <= rows[i].migrationIndex.value <= hi
    ensures forall k :: 0 <= k < |Weighted(rows)| ==> Weighted(rows)[k].1 >= 0.0 && lo <= Weighted(rows)[k].0 <= hi
  {
    if rows != [] {
      var n := |rows| - 1;
      assert forall i :: 0 <= i < n ==> rows[..n][i] == rows[i];
      WeightedFromRows(rows[..n], lo, hi);
    }
  }

  lemma {:induction false} WeightsNonNegative(ps: seq<(real, real)>)
    requires forall k :: 0 <= k < |ps| ==> ps[k].1 >= 0.0
    ensures Weights(ps) >= 0.0
  {
    if ps != [] {
      WeightsNonNegative(ps[..|ps| - 1]);
    }
  }

  /** The district and pincode endpoints' average: the arithmetic mean of
      the non-null indices, None when there are none. */
  function MeanIndex(rows: seq<MigrationRow>): (r: Option<real>)
    ensures r.None? <==> ValidIndices(rows) == []
    ensures r.Some? ==> r.value * |ValidIndices(rows)| as real == Sum(ValidIndices(rows))
  {
    var vs := ValidIndices(rows);
    if vs == [] then None
    else
      var n := |vs| as real;
      var total := Sum(vs);
      DivTimes(total, n);
      Some(total / n)
  }

  lemma DivTimes(a: real, d: real)
    requires d != 0.0
    ensures (a / d) * d == a
  {
  }

  /** A number below `lo` times a positive weight stays below `lo` times it. */
  lemma BelowTimes(a: real, lo: real, w: real)
    requires w > 0.0 && a < lo
    ensures a * w < lo * w
  {
    assert (lo - a) * w > 0.0;
  }

  // ---------------------------------------------------------------------
  // Summaries
  // ---------------------------------------------------------------------

  datatype TopDistrict = TopDistrict(district: string, migrationIndex: real)

  function IndexOf(t: TopDistrict): real { t.migrationIndex }

  /** The rows with an index, as `{district, migration_index}` entries. */
  function Indexed(rows: seq<MigrationRow>): (ts: seq<TopDistrict>)
    ensures forall t :: t in ts <==>
      exists i :: 0 <= i < |rows| && rows[i].migrationIndex == Some(t.migrationIndex) && rows[i].district == t.district
  {
    if rows == [] then []
    else
      var n := |rows| - 1;
      var p := Indexed(rows[..n]);
      assert forall i :: 0 <= i < n ==> rows[..n][i] == rows[i];
      match rows[n].migrationIndex
      case Some(v) => p + [TopDistrict(rows[n].district, v)]
      case None => p
  }

  /** `sorted(..., reverse=True)[:5]`. */
  function TopDistricts(rows: seq<MigrationRow>): seq<TopDistrict>
  {
    Take(SortDesc(Indexed(rows), IndexOf), 5)
  }

  /** At most five entries, all with an index, in descending order, and no
      district left out has a higher index than one shown. */
  lemma TopDistrictsLargest(rows: seq<MigrationRow>)
    ensures |TopDistricts(rows)| <= 5
    ensures multiset(TopDistricts(rows)) <= multiset(Indexed(rows))
    ensures SortedDesc(TopDistricts(rows), IndexOf)
    ensures forall x, i :: x in multiset(Indexed(rows)) - multiset(TopDistricts(rows)) && 0 <= i < |TopDistricts(rows)| ==>
      x.migrationIndex <= TopDistricts(rows)[i].migrationIndex
  {
    TakeSortedLargest(Indexed(rows), IndexOf, 5);
  }

  datatype StateSummary = StateSummary(
    totalChildEnrolments: real, totalAdultUpdates: real,
    averageMigrationIndex: Option<real>, status: string, topDistricts: seq<TopDistrict>)

  /** What an endpoint answers: 404 for no rows, 500 for an uncaught
      division by zero, or the summary. */
  datatype Reply<T> = NotFound | ServerError | Ok(body: T)

  function GetStateMigration(rows: seq<MigrationRow>): (r: Reply<StateSummary>)
    ensures r.NotFound? <==> rows == []
    ensures r.ServerError? <==> rows != [] && StateAverage(rows) == ZeroDivision
    ensures r.Ok? ==>
      r.body.totalChildEnrolments == SumBy(rows, Child)
      && r.body.totalAdultUpdates == SumBy(rows, Adult)
      && Value(r.body.averageMigrationIndex) == StateAverage(rows)
      && r.body.status == InterpretIndex(r.body.averageMigrationIndex)
      && r.body.topDistricts == TopDistricts(rows)
  {
    if rows == [] then NotFound
    else match StateAverage(rows)
      case ZeroDivision => ServerError
      case Value(avg) =>
        Ok(StateSummary(SumBy(rows, Child), SumBy(rows, Adult), avg, InterpretIndex(avg), TopDistricts(rows)))
  }

  datatype AreaSummary = AreaSummary(
    totalChildEnrolments: real, totalAdultUpdates: real,
    averageMigrationIndex: Option<real>, status: string)

  /** The district and pincode endpoints (the pincode answer also echoes
      the first row's state and district, left out here). */
  function GetAreaMigration(rows: seq<MigrationRow>): (r: Reply<AreaSummary>)
    ensures r.NotFound? <==> rows == []
    ensures !r.ServerError?
    ensures r.Ok? ==>
      r.body.totalChildEnrolments == SumBy(rows, Child)
      && r.body.totalAdultUpdates == SumBy(rows, Adult)
      && r.body.averageMigrationIndex == MeanIndex(rows)
      && r.body.status == InterpretIndex(MeanIndex(rows))
  {
    if rows == [] then NotFound
    else Ok(AreaSummary(SumBy(rows, Child), SumBy(rows, Adult), MeanIndex(rows), InterpretIndex(MeanIndex(rows))))
  }

  // ---------------------------------------------------------------------
  // Trend
  // ---------------------------------------------------------------------

  /** The trend of the non-null indices: their second half's average
      against 1.1 and 0.9 times the first half's, the larger half being the
      second. */
  function Trend(vs: seq<real>): (t: string)
    ensures t == "Insufficient Data" <==> |vs| < 2
    ensures |vs| >= 2 ==>
      var mid := |vs| / 2;
      var first := Sum(vs[..mid]) / mid as real;
      var second := Sum(vs[mid..]) / (|vs| - mid) as real;
      (t == "Rising" <==> second > first * 1.1)
      && (t == "Falling" <==> second <= first * 1.1 && second < first * 0.9)
      && (t == "Stable" <==> first * 0.9 <= second <= first * 1.1)
  {
    if |vs| >= 2 then
      var mid := |vs| / 2;
      var first := Sum(vs[..mid]) / mid as real;
      var second := Sum(vs[mid..]) / (|vs| - mid) as real;
      if second > first * 1.1 then "Rising"
      else if second < first * 0.9 then "Falling"
      else "Stable"
    else "Insufficient Data"
  }

  /** A constant non-negative series is Stable. */
  lemma ConstantSeriesStable(vs: seq<real>, c: real)
    requires |vs| >= 2 && c >= 0.0
    requires forall i :: 0 <= i < |vs| ==> vs[i] == c
    ensures Trend(vs) == "Stable"
  {
    var mid := |vs| / 2;
    ConstantAverage(vs[..mid], c);
    ConstantAverage(vs[mid..], c);
    assert c * 0.9 <= c <= c * 1.1;
  }

  function GetMigrationTrend(rows: seq<MigrationRow>): (r: Reply<(string, Option<real>)>)
    ensures r.NotFound? <==> rows == []
    ensures r.Ok? ==> r.body == (Trend(ValidIndices(rows)), MeanIndex(rows))
    ensures !r.ServerError?
  {
    if rows == [] then NotFound else Ok((Trend(ValidIndices(rows)), MeanIndex(rows)))
  }

  // ---------------------------------------------------------------------
  // Forecast request
  // ---------------------------------------------------------------------

  const ForecastMethods: seq<string> := ["prophet", "arima", "ensemble"]

  /** The method check of the forecast endpoint: anything but the three
      methods is a 400. */
  datatype MethodCheck = Accepted(name: string) | BadRequest(detail: string)

  function CheckForecastMethod(m: string): (r: MethodCheck)
    ensures r.Accepted? <==> m == "prophet" || m == "arima" || m == "ensemble"
    ensures r.Accepted? ==> r.name == m
  {
    if m in ForecastMethods then Accepted(m)
    else BadRequest("Invalid method. Choose 'prophet', 'arima', or 'ensemble'")
  }
}
