/** National, state and district aggregation of the three datasets
    (enrolment, biometric update, demographic update), and the annualised
    per-district station estimate (backend/app/services/aggregations.py). */
module Aggregations {
  import opened Common
  import opened TimeUtils
  import opened StationEstimator

  /** One row of a cleaned dataset: where it was recorded, its date as a
      day number (`None` when the date does not parse) and its counts. */
  datatype Record = Record(state: string, district: string, date: Option<int>, counts: map<string, real>)

  /** A dataset: its numeric columns, `pincode` among them, and its rows.
      A count column a row lacks reads as 0. */
  datatype Dataset = Dataset(columns: set<string>, rows: seq<Record>)

  /** The rows whose state is `s` (`df[df["state"] == s]`), in order. */
  function RowsOfState(rows: seq<Record>, s: string): (r: seq<Record>)
    ensures |r| <= |rows|
    ensures forall x :: x in r <==> x in rows && x.state == s
  {
    if rows == [] then []
    else
      var n := |rows| - 1;
      assert forall x :: x in rows <==> x in rows[..n] || x == rows[n] by {
        assert rows == rows[..n] + [rows[n]];
      }
      if rows[n].state == s then RowsOfState(rows[..n], s) + [rows[n]] else RowsOfState(rows[..n], s)
  }

  /** The rows whose district is `d`, in order. */
  function RowsOfDistrict(rows: seq<Record>, d: string): (r: seq<Record>)
    ensures |r| <= |rows|
    ensures forall x :: x in r <==> x in rows && x.district == d
  {
    if rows == [] then []
    else
      var n := |rows| - 1;
      assert forall x :: x in rows <==> x in rows[..n] || x == rows[n] by {
        assert rows == rows[..n] + [rows[n]];
      }
      if rows[n].district == d then RowsOfDistrict(rows[..n], d) + [rows[n]] else RowsOfDistrict(rows[..n], d)
  }

  function OfState(ds: Dataset, s: string): Dataset
  {
    Dataset(ds.columns, RowsOfState(ds.rows, s))
  }

  function OfDistrict(ds: Dataset, d: string): Dataset
  {
    Dataset(ds.columns, RowsOfDistrict(ds.rows, d))
  }

  /** `df[c].sum()`: an empty frame sums to 0. */
  function ColumnSum(rows: seq<Record>, c: string): real
  {
    if rows == [] then 0.0 else ColumnSum(rows[..|rows| - 1], c) + Get(rows[|rows| - 1].counts, c)
  }

  /** `df.sum(numeric_only=True).to_dict()`: every column, summed. */
  function Totals(ds: Dataset): (m: map<string, real>)
    ensures m.Keys == ds.columns
  {
    map c | c in ds.columns :: ColumnSum(ds.rows, c)
  }

  function Dates(rows: seq<Record>): (r: seq<Option<int>>)
    ensures |r| == |rows| && forall i :: 0 <= i < |rows| ==> r[i] == rows[i].date
  {
    seq(|rows|, i requires 0 <= i < |rows| => rows[i].date)
  }

  /** The days a dataset covers. */
  function SpanOf(ds: Dataset): int
  {
    TimeSpanDays(Dates(ds.rows))
  }

  // ---------------------------------------------------------------------
  // Common time span and annualisation
  // ---------------------------------------------------------------------

  /** The strictly positive numbers of `s`, in order. */
  function Positives(s: seq<int>): (r: seq<int>)
    ensures forall x :: x in r <==> x in s && x > 0
  {
    if s == [] then []
    else
      var n := |s| - 1;
      assert forall x :: x in s <==> x in s[..n] || x == s[n] by {
        assert s == s[..n] + [s[n]];
      }
      if s[n] > 0 then Positives(s[..n]) + [s[n]] else Positives(s[..n])
  }

  /** `get_common_time_span_days`: the shortest of the positive spans, or 0
      when none of the three is positive. */
  function CommonTimeSpanDays(enrol: int, bio: int, demo: int): (r: int)
    ensures r == 0 <==> enrol <= 0 && bio <= 0 && demo <= 0
    ensures r == 0 || r == enrol || r == bio || r == demo
    ensures r >= 0
    ensures enrol > 0 ==> r <= enrol
    ensures bio > 0 ==> r <= bio
    ensures demo > 0 ==> r <= demo
  {
    var all := [enrol, bio, demo];
    var valid := Positives(all);
    assert enrol in all && bio in all && demo in all;
    if valid == [] then 0
    else
      var m := MinOf(valid);
      assert m in all;
      m
  }

  /** `365 / days if days > 0 else 1`: the factor scaling the observed
      window to a year. It never divides by zero. */
  function AnnualFactor(days: int): (f: real)
    ensures days > 0 ==> f * days as real == 365.0
    ensures days <= 0 ==> f == 1.0
    ensures f > 0.0
  {
    if days > 0 then 365.0 / days as real else 1.0
  }

  // ---------------------------------------------------------------------
  // Per-district estimate
  // ---------------------------------------------------------------------

  /** One result row of `aggregate_district_with_station_estimate`. The
      count columns of the three datasets are merged into `counts`, a later
      dataset overriding an earlier one on a shared column name. */
  datatype DistrictEstimate = DistrictEstimate(
    district: string,
    counts: map<string, real>,
    timeWindowDays: int,
    annualisationFactor: real,
    serviceLoadObserved: real,
    serviceLoadAnnualised: real,
    estimatedStationsNeeded: int)

  /** The fields of one result row, from the district's merged counts and
      its common time window. */
  function MakeEstimate(district: string, row: map<string, real>, days: int): (r: DistrictEstimate)
    ensures r.district == district && r.counts == row && r.timeWindowDays == days
  {
    var factor := AnnualFactor(days);
    var observed := ServiceLoad(row);
    var annualised := observed * factor;
    DistrictEstimate(district, row, days, Round2(factor), observed, annualised,
                     Ceil(annualised / AnnualServiceCapacity))
  }

  /** `df[df["district"] == x].drop(columns=["pincode"])`. */
  function DistrictFrame(ds: Dataset, x: string): (r: Dataset)
    ensures r.columns == ds.columns - {"pincode"}
  {
    Dataset(ds.columns - {"pincode"}, RowsOfDistrict(ds.rows, x))
  }

  /** The counts of district `x` in the three datasets, without their
      pincodes, merged key by key (`**`), a later dataset winning on a
      shared key. */
  function DistrictRow(enrol: Dataset, bio: Dataset, demo: Dataset, x: string): (row: map<string, real>)
    ensures row.Keys == enrol.columns + bio.columns + demo.columns - {"pincode"}
    ensures forall c :: c in row && c in demo.columns ==> row[c] == ColumnSum(RowsOfDistrict(demo.rows, x), c)
    ensures forall c :: c in row && c in bio.columns && c !in demo.columns ==>
      row[c] == ColumnSum(RowsOfDistrict(bio.rows, x), c)
    ensures forall c :: c in row && c !in bio.columns && c !in demo.columns ==>
      row[c] == ColumnSum(RowsOfDistrict(enrol.rows, x), c)
  {
    Totals(DistrictFrame(enrol, x)) + Totals(DistrictFrame(bio, x)) + Totals(DistrictFrame(demo, x))
  }

  /** The common time window of district `x` across the three datasets. */
  function DistrictDays(enrol: Dataset, bio: Dataset, demo: Dataset, x: string): (days: int)
    ensures days >= 0
  {
    CommonTimeSpanDays(SpanOf(DistrictFrame(enrol, x)), SpanOf(DistrictFrame(bio, x)), SpanOf(DistrictFrame(demo, x)))
  }

  /** The body of the district loop, for datasets already restricted to
      one state. */
  function EstimateDistrict(enrol: Dataset, bio: Dataset, demo: Dataset, x: string): (r: DistrictEstimate)
    ensures r.district == x
  {
    MakeEstimate(x, DistrictRow(enrol, bio, demo, x), DistrictDays(enrol, bio, demo, x))
  }

  /** The observed load is the service load of the merged counts; the
      annualised load scales it by the unrounded factor, and only the
      reported factor is rounded. */
  lemma EstimateAnnualised(district: string, row: map<string, real>, days: int)
    ensures MakeEstimate(district, row, days).serviceLoadObserved == ServiceLoad(row)
    ensures days > 0 ==> MakeEstimate(district, row, days).serviceLoadAnnualised * days as real
                         == MakeEstimate(district, row, days).serviceLoadObserved * 365.0
    ensures days <= 0 ==> MakeEstimate(district, row, days).serviceLoadAnnualised
                          == MakeEstimate(district, row, days).serviceLoadObserved
  {
  }

  /** The reported factor is the exact factor rounded to two places. */
  lemma EstimateFactorRounded(district: string, row: map<string, real>, days: int)
    ensures days > 0 ==>
      365.0 / days as real - 0.005 < MakeEstimate(district, row, days).annualisationFactor <= 365.0 / days as real + 0.005
    ensures days <= 0 ==> MakeEstimate(district, row, days).annualisationFactor == 1.0
  {
    if days <= 0 {
      assert RoundHalfUp(100.0) == 100;
    }
  }

  /** With non-negative counts the station count is `estimate_stations` of
      the annualised load, and it is 0 exactly when that load is 0. */
  lemma EstimateStationsAgree(district: string, row: map<string, real>, days: int)
    requires forall k :: k in row ==> row[k] >= 0.0
    ensures var r := MakeEstimate(district, row, days);
      r.serviceLoadAnnualised >= 0.0
      && r.estimatedStationsNeeded == EstimateStations(r.serviceLoadAnnualised)
      && (r.estimatedStationsNeeded == 0 <==> r.serviceLoadAnnualised == 0.0)
  {
    var r := MakeEstimate(district, row, days);
    ServiceLoadNonNegative(row);
    var f := AnnualFactor(days);
    assert r.serviceLoadAnnualised == r.serviceLoadObserved * f;
  }

  /** Without the guard of `estimate_stations`, a negative annualised load
      would give a negative station count: the block relies on counts being
      non-negative. */
  lemma StationsCeilDiffersOnNegativeLoad()
    ensures Ceil(-30000.0 / AnnualServiceCapacity) == -1
    ensures EstimateStations(-30000.0) == 0
  {
  }

  // ---------------------------------------------------------------------
  // The district loop
  // ---------------------------------------------------------------------

  /** The districts of one dataset's rows. */
  function DistrictsOf(rows: seq<Record>): (ds: set<string>)
    ensures forall d :: d in ds <==> exists i :: 0 <= i < |rows| && rows[i].district == d
  {
    set i | 0 <= i < |rows| :: rows[i].district
  }

  /** `set(enrol["district"]).union(bio["district"]).union(demo["district"])`. */
  function AllDistricts(enrol: Dataset, bio: Dataset, demo: Dataset): set<string>
  {
    DistrictsOf(enrol.rows) + DistrictsOf(bio.rows) + DistrictsOf(demo.rows)
  }

  /** `results` holds exactly one row for each name of `names`. */
  ghost predicate OnePerName(results: seq<DistrictEstimate>, names: set<string>)
  {
    && (forall i :: 0 <= i < |results| ==> results[i].district in names)
    && (forall x :: x in names ==> exists i :: 0 <= i < |results| && results[i].district == x)
    && (forall i, j :: 0 <= i < j < |results| ==> results[i].district != results[j].district)
  }

  lemma OnePerNameAppend(results: seq<DistrictEstimate>, names: set<string>, row: DistrictEstimate)
    requires OnePerName(results, names) && row.district !in names
    ensures OnePerName(results + [row], names + {row.district})
  {
    var r := results + [row];
    assert forall i :: 0 <= i < |results| ==> r[i] == results[i];
    assert r[|results|] == row;
    forall y | y in names + {row.district}
      ensures exists i :: 0 <= i < |r| && r[i].district == y
    {
      if y == row.district {
        assert r[|results|].district == y;
      } else {
        var i :| 0 <= i < |results| && results[i].district == y;
        assert r[i].district == y;
      }
    }
    forall i, j | 0 <= i < j < |r|
      ensures r[i].district != r[j].district
    {
      if j == |results| {
        assert r[i].district in names;
      } else {
        assert results[i].district != results[j].district;
      }
    }
  }

  /** The district loop: `estimate` applied once to each district of
      `districts`, in whatever order the set is traversed, each row appended
      to `results`. */
  method EstimateEach(districts: set<string>, estimate: string -> DistrictEstimate)
    returns (results: seq<DistrictEstimate>)
    requires forall x :: estimate(x).district == x
    ensures |results| == |districts|
    ensures OnePerName(results, districts)
    ensures forall i :: 0 <= i < |results| ==> results[i] == estimate(results[i].district)
  {
    var remaining := districts;
    ghost var done: set<string> := {};
    results := [];
    while remaining != {}
      invariant done + remaining == districts && done !! remaining
      invariant |results| == |done|
      invariant OnePerName(results, done)
      invariant forall i :: 0 <= i < |results| ==> results[i] == estimate(results[i].district)
      decreases |remaining|
    {
      var x :| x in remaining;
      var row := estimate(x);
      EstimateStep(results, done, remaining, x, estimate);
      results := results + [row];
      remaining := remaining - {x};
      done := done + {x};
    }
  }

  /** One turn of the district loop keeps its invariant. */
  lemma EstimateStep(results: seq<DistrictEstimate>, done: set<string>, remaining: set<string>, x: string,
                     estimate: string -> DistrictEstimate)
    requires forall y :: estimate(y).district == y
    requires done !! remaining && x in remaining
    requires |results| == |done| && OnePerName(results, done)
    requires forall i :: 0 <= i < |results| ==> results[i] == estimate(results[i].district)
    ensures (done + {x}) + (remaining - {x}) == done + remaining && (done + {x}) !! (remaining - {x})
    ensures |results + [estimate(x)]| == |done + {x}|
    ensures OnePerName(results + [estimate(x)], done + {x})
    ensures forall i :: 0 <= i < |results + [estimate(x)]| ==>
      (results + [estimate(x)])[i] == estimate((results + [estimate(x)])[i].district)
  {
    var row := estimate(x);
    assert row.district == x;
    OnePerNameAppend(results, done, row);
    var r := results + [row];
    forall i | 0 <= i < |r|
      ensures r[i] == estimate(r[i].district)
    {
      if i < |results| {
        assert r[i] == results[i];
      }
    }
  }

  /** `aggregate_district_with_station_estimate`: one estimate per district
      of the state found in any of the three datasets. Python's iteration
      order over the set is not specified, and neither is the order here. */
  method AggregateDistrictWithStationEstimate(state: string, enrol: Dataset, bio: Dataset, demo: Dataset)
    returns (results: seq<DistrictEstimate>)
    ensures var e, b, d := OfState(enrol, state), OfState(bio, state), OfState(demo, state);
      && |results| == |AllDistricts(e, b, d)|
      && OnePerName(results, AllDistricts(e, b, d))
      && (forall i :: 0 <= i < |results| ==> results[i] == EstimateDistrict(e, b, d, results[i].district))
  {
    var e, b, d := OfState(enrol, state), OfState(bio, state), OfState(demo, state);
    results := EstimateEach(AllDistricts(e, b, d), x => EstimateDistrict(e, b, d, x));
  }

  // ---------------------------------------------------------------------
  // State and national aggregates
  // ---------------------------------------------------------------------

  function StatesOf(rows: seq<Record>): (ss: set<string>)
    ensures forall s :: s in ss <==> exists i :: 0 <= i < |rows| && rows[i].state == s
  {
    set i | 0 <= i < |rows| :: rows[i].state
  }

  /** The name pandas gives a column of the left frame of a merge: a name
      the right frame shares takes the suffix "_x". */
  function LeftName(c: string, right: set<string>): string
  {
    if c in right then c + "_x" else c
  }

  /** The name of a column of the right frame: "_y" on a shared name. */
  function RightName(c: string, left: set<string>): string
  {
    if c in left then c + "_y" else c
  }

  /** No two columns of the left frame take one name in the merge. */
  predicate LeftDistinct(left: set<string>, right: set<string>)
  {
    forall a, b :: a in left && b in left && a != b ==> LeftName(a, right) != LeftName(b, right)
  }

  /** No two columns of the right frame take one name in the merge. */
  predicate RightDistinct(left: set<string>, right: set<string>)
  {
    forall a, b :: a in right && b in right && a != b ==> RightName(a, left) != RightName(b, left)
  }

  /** No column of the left frame takes the name of one of the right. */
  predicate SidesDistinct(left: set<string>, right: set<string>)
  {
    forall a, b :: a in left && b in right ==> LeftName(a, right) != RightName(b, left)
  }

  /** No two columns of the merged frame end up with one name. */
  predicate NoClash(left: set<string>, right: set<string>)
  {
    LeftDistinct(left, right) && RightDistinct(left, right) && SidesDistinct(left, right)
  }

  /** The columns of the merged frame. */
  function MergedColumns(left: set<string>, right: set<string>): set<string>
  {
    LeftNames(left, right) + RightNames(left, right)
  }

  function LeftNames(left: set<string>, right: set<string>): set<string>
  {
    set a | a in left :: LeftName(a, right)
  }

  function RightNames(left: set<string>, right: set<string>): set<string>
  {
    set b | b in right :: RightName(b, left)
  }

  /** The left frame's values under their merged names. */
  function RenameLeft(l: map<string, real>, right: set<string>): (row: map<string, real>)
    requires LeftDistinct(l.Keys, right)
    ensures row.Keys == LeftNames(l.Keys, right)
    ensures forall a :: a in l ==> row[LeftName(a, right)] == l[a]
  {
    map a | a in l :: LeftName(a, right) := l[a]
  }

  /** The right frame's values under their merged names. */
  function RenameRight(left: set<string>, r: map<string, real>): (row: map<string, real>)
    requires RightDistinct(left, r.Keys)
    ensures row.Keys == RightNames(left, r.Keys)
    ensures forall b :: b in r ==> row[RightName(b, left)] == r[b]
  {
    map b | b in r :: RightName(b, left) := r[b]
  }

  /** One row of `left.merge(right, on="state")`: every value of either
      side kept under its new name. */
  function MergeRow(l: map<string, real>, r: map<string, real>): (row: map<string, real>)
    requires NoClash(l.Keys, r.Keys)
    ensures row.Keys == MergedColumns(l.Keys, r.Keys)
    ensures forall a :: a in l ==> row[LeftName(a, r.Keys)] == l[a]
    ensures forall b :: b in r ==> row[RightName(b, l.Keys)] == r[b]
  {
    var left := RenameLeft(l, r.Keys);
    var right := RenameRight(l.Keys, r);
    assert forall a :: a in l ==> LeftName(a, r.Keys) !in right.Keys;
    left + right
  }

  /** The two merges of `aggregate_state` give every column its own name.
      Otherwise pandas either refuses the suffixes or keeps two columns
      under one label; the model has no row for either. */
  predicate MergeOk(enrol: Dataset, bio: Dataset, demo: Dataset)
  {
    NoClash(enrol.columns, bio.columns) && NoClash(MergedColumns(enrol.columns, bio.columns), demo.columns)
  }

  /** The merged row of state `s`: the per-state sums of the three
      datasets, merged in turn, a dataset without rows for `s`
      contributing 0 to each of its columns. */
  function StateRow(enrol: Dataset, bio: Dataset, demo: Dataset, s: string): (row: map<string, real>)
    requires MergeOk(enrol, bio, demo)
    ensures row.Keys == MergedColumns(MergedColumns(enrol.columns, bio.columns), demo.columns)
  {
    MergeRow(MergeRow(Totals(OfState(enrol, s)), Totals(OfState(bio, s))), Totals(OfState(demo, s)))
  }

  /** `aggregate_state`: the three per-state sums outer-merged on the state
      and `fillna(0)`, as a map from state to its merged row; None where
      the merged columns would clash. */
  function AggregateState(enrol: Dataset, bio: Dataset, demo: Dataset): (m: Option<map<string, map<string, real>>>)
    ensures m.None? <==> !MergeOk(enrol, bio, demo)
    ensures m.Some? ==> m.value.Keys == StatesOf(enrol.rows) + StatesOf(bio.rows) + StatesOf(demo.rows)
    ensures m.Some? ==> forall s :: s in m.value ==> m.value[s] == StateRow(enrol, bio, demo, s)
  {
    if MergeOk(enrol, bio, demo) then
      Some(map s | s in StatesOf(enrol.rows) + StatesOf(bio.rows) + StatesOf(demo.rows) ::
        StateRow(enrol, bio, demo, s))
    else None
  }

  /** Where each sum lands in a state's merged row. A column of one
      dataset alone keeps its name. A column that enrolment and biometric
      share becomes "_x" and "_y", and a demographic column that the first
      merge already has becomes "_y" beside the earlier one's "_x". A state
      the dataset lacks reads 0 there (`fillna(0)`). */
  lemma StateRowColumns(enrol: Dataset, bio: Dataset, demo: Dataset, s: string, c: string)
    requires MergeOk(enrol, bio, demo)
    ensures c in enrol.columns && c !in bio.columns && c !in demo.columns ==>
      StateRow(enrol, bio, demo, s)[c] == ColumnSum(RowsOfState(enrol.rows, s), c)
    ensures c in bio.columns && c !in enrol.columns && c !in demo.columns ==>
      StateRow(enrol, bio, demo, s)[c] == ColumnSum(RowsOfState(bio.rows, s), c)
    ensures c in enrol.columns && c in bio.columns && c + "_x" !in demo.columns ==>
      StateRow(enrol, bio, demo, s)[c + "_x"] == ColumnSum(RowsOfState(enrol.rows, s), c)
    ensures c in enrol.columns && c in bio.columns && c + "_y" !in demo.columns ==>
      StateRow(enrol, bio, demo, s)[c + "_y"] == ColumnSum(RowsOfState(bio.rows, s), c)
    ensures c in demo.columns && c !in MergedColumns(enrol.columns, bio.columns) ==>
      StateRow(enrol, bio, demo, s)[c] == ColumnSum(RowsOfState(demo.rows, s), c)
    ensures c in demo.columns && c in MergedColumns(enrol.columns, bio.columns) ==>
      StateRow(enrol, bio, demo, s)[c + "_y"] == ColumnSum(RowsOfState(demo.rows, s), c)
  {
    var e, b, d := Totals(OfState(enrol, s)), Totals(OfState(bio, s)), Totals(OfState(demo, s));
    var first := MergeRow(e, b);
    var mid := MergedColumns(enrol.columns, bio.columns);
    assert first.Keys == mid;
    if c in enrol.columns && c !in bio.columns && c !in demo.columns {
      assert first[LeftName(c, bio.columns)] == e[c];
      assert c in mid;
    }
    if c in bio.columns && c !in enrol.columns && c !in demo.columns {
      assert first[RightName(c, enrol.columns)] == b[c];
      assert c in mid;
    }
    if c in enrol.columns && c in bio.columns {
      assert first[LeftName(c, bio.columns)] == e[c];
      assert first[RightName(c, enrol.columns)] == b[c];
      assert c + "_x" in mid && c + "_y" in mid;
    }
  }

  /** A name that both enrolment and biometric carry leaves the first
      merge only as its two suffixed names. */
  lemma SharedNameSuffixed(left: set<string>, right: set<string>, c: string)
    requires c in left && c in right
    requires |c| > 0 && c[|c| - 1] != 'x' && c[|c| - 1] != 'y'
    ensures c + "_x" in MergedColumns(left, right) && c + "_y" in MergedColumns(left, right)
    ensures c !in MergedColumns(left, right)
  {
    assert LeftName(c, right) == c + "_x" && RightName(c, left) == c + "_y";
    forall a | a in left ensures LeftName(a, right) != c
    {
      if a in right { assert (a + "_x")[|a + "_x"| - 1] == 'x'; }
    }
    forall b | b in right ensures RightName(b, left) != c
    {
      if b in left { assert (b + "_y")[|b + "_y"| - 1] == 'y'; }
    }
  }

  /** The pincode column that all three datasets carry: the state row
      holds the enrolment sum as "pincode_x", the biometric sum as
      "pincode_y" and the demographic sum as "pincode". */
  lemma PincodeSuffixed(enrol: Dataset, bio: Dataset, demo: Dataset, s: string)
    requires MergeOk(enrol, bio, demo)
    requires "pincode" in enrol.columns && "pincode" in bio.columns && "pincode" in demo.columns
    requires "pincode" + "_x" !in demo.columns && "pincode" + "_y" !in demo.columns
    ensures "pincode" + "_x" in StateRow(enrol, bio, demo, s) && "pincode" + "_y" in StateRow(enrol, bio, demo, s)
    ensures "pincode" in StateRow(enrol, bio, demo, s)
    ensures StateRow(enrol, bio, demo, s)["pincode" + "_x"] == ColumnSum(RowsOfState(enrol.rows, s), "pincode")
    ensures StateRow(enrol, bio, demo, s)["pincode" + "_y"] == ColumnSum(RowsOfState(bio.rows, s), "pincode")
    ensures StateRow(enrol, bio, demo, s)["pincode"] == ColumnSum(RowsOfState(demo.rows, s), "pincode")
  {
    SharedNameSuffixed(enrol.columns, bio.columns, "pincode");
    StateRowColumns(enrol, bio, demo, s, "pincode");
  }

  /** A state that one dataset lacks reads 0 in that dataset's columns. */
  lemma StateRowMissingState(ds: Dataset, s: string, c: string)
    requires s !in StatesOf(ds.rows)
    ensures ColumnSum(RowsOfState(ds.rows, s), c) == 0.0
  {
  }

  /** The national aggregate: one total per age column of each dataset. */
  datatype National = National(enrolment: map<string, real>, biometricUpdate: map<string, real>, demographicUpdate: map<string, real>)

  const EnrolmentColumns: seq<string> := ["age_0_5", "age_5_17", "age_18_greater"]
  const BiometricColumns: seq<string> := ["bio_age_5_17", "bio_age_17_"]
  const DemographicColumns: seq<string> := ["demo_age_5_17", "demo_age_17_"]

  /** `aggregate_national`. */
  function AggregateNational(enrol: Dataset, bio: Dataset, demo: Dataset): (n: National)
    ensures n.enrolment.Keys == set c | c in EnrolmentColumns
    ensures n.biometricUpdate.Keys == set c | c in BiometricColumns
    ensures n.demographicUpdate.Keys == set c | c in DemographicColumns
    ensures forall c :: c in n.enrolment ==> n.enrolment[c] == ColumnSum(enrol.rows, c)
    ensures forall c :: c in n.biometricUpdate ==> n.biometricUpdate[c] == ColumnSum(bio.rows, c)
    ensures forall c :: c in n.demographicUpdate ==> n.demographicUpdate[c] == ColumnSum(demo.rows, c)
  {
    National(
      map c | c in EnrolmentColumns :: ColumnSum(enrol.rows, c),
      map c | c in BiometricColumns :: ColumnSum(bio.rows, c),
      map c | c in DemographicColumns :: ColumnSum(demo.rows, c))
  }
}
