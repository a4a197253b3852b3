/** Service-load weighting and station estimation
    (backend/app/services/station_estimator.py). A row is a map from column
    name to count; a column the row lacks reads as 0. */
module StationEstimator {
  import opened Common

  /** Yearly service capacity of one station. */
  const AnnualServiceCapacity: real := 25000.0

  /** `WEIGHTS`, in the dictionary's order. */
  const Weights: seq<(string, real)> := [
    ("age_0_5", 1.2),
    ("age_5_17", 1.1),
    ("age_18_greater", 1.0),
    ("bio_age_5_17", 0.8),
    ("bio_age_17_", 1.0),
    ("demo_age_5_17", 0.6),
    ("demo_age_17_", 0.7)
  ]

  /** The column names of a weight table. */
  function Columns(t: seq<(string, real)>): (cs: set<string>)
    ensures forall i :: 0 <= i < |t| ==> t[i].0 in cs
    ensures forall c :: c in cs ==> exists i :: 0 <= i < |t| && t[i].0 == c
  {
    set i | 0 <= i < |t| :: t[i].0
  }

  /** `sum(row.get(col, 0) * weight for col, weight in t)`, accumulated in
      table order. */
  function WeightedSum(row: map<string, real>, t: seq<(string, real)>): real
  {
    if t == [] then 0.0
    else WeightedSum(row, t[..|t| - 1]) + Get(row, t[|t| - 1].0) * t[|t| - 1].1
  }

  /** The service load of a row under `WEIGHTS`. */
  function ServiceLoad(row: map<string, real>): real
  {
    WeightedSum(row, Weights)
  }

  /** `calculate_service_load`: the loop over the weight table. */
  method CalculateServiceLoad(row: map<string, real>) returns (load: real)
    ensures load == ServiceLoad(row)
  {
    load := 0.0;
    var i := 0;
    while i < |Weights|
      invariant 0 <= i <= |Weights|
      invariant load == WeightedSum(row, Weights[..i])
    {
      assert Weights[..i + 1][..i] == Weights[..i];
      load := load + Get(row, Weights[i].0) * Weights[i].1;
      i := i + 1;
    }
    assert Weights[..i] == Weights;
  }

  /** The load written out with the seven weights of the table. */
  lemma ServiceLoadFormula(row: map<string, real>)
    ensures ServiceLoad(row) ==
      1.2 * Get(row, "age_0_5") + 1.1 * Get(row, "age_5_17")
      + 1.0 * Get(row, "age_18_greater") + 0.8 * Get(row, "bio_age_5_17")
      + 1.0 * Get(row, "bio_age_17_") + 0.6 * Get(row, "demo_age_5_17")
      + 0.7 * Get(row, "demo_age_17_")
  {
    var t := Weights;
    assert t[..1][..0] == [];
    assert WeightedSum(row, t[..1]) == 1.2 * Get(row, "age_0_5");
    assert t[..2][..1] == t[..1];
    assert WeightedSum(row, t[..2]) == WeightedSum(row, t[..1]) + 1.1 * Get(row, "age_5_17");
    assert t[..3][..2] == t[..2];
    assert WeightedSum(row, t[..3]) == WeightedSum(row, t[..2]) + 1.0 * Get(row, "age_18_greater");
    assert t[..4][..3] == t[..3];
    assert WeightedSum(row, t[..4]) == WeightedSum(row, t[..3]) + 0.8 * Get(row, "bio_age_5_17");
    assert t[..5][..4] == t[..4];
    assert WeightedSum(row, t[..5]) == WeightedSum(row, t[..4]) + 1.0 * Get(row, "bio_age_17_");
    assert t[..6][..5] == t[..5];
    assert WeightedSum(row, t[..6]) == WeightedSum(row, t[..5]) + 0.6 * Get(row, "demo_age_5_17");
    assert t[..7][..6] == t[..6];
    assert t[..7] == t;
  }

  /** Two rows that agree on every column of the table have the same
      weighted sum, whatever else they hold. */
  lemma {:induction false} WeightedSumAgree(a: map<string, real>, b: map<string, real>, t: seq<(string, real)>)
    requires forall c :: c in Columns(t) ==> Get(a, c) == Get(b, c)
    ensures WeightedSum(a, t) == WeightedSum(b, t)
  {
    if t != [] {
      var p := t[..|t| - 1];
      assert forall i :: 0 <= i < |p| ==> p[i] == t[i];
      assert t[|t| - 1].0 in Columns(t);
      WeightedSumAgree(a, b, p);
    }
  }

  /** Keys outside `WEIGHTS` never affect the load. */
  lemma ServiceLoadIgnoresOtherKeys(a: map<string, real>, b: map<string, real>)
    requires forall c :: c in Columns(Weights) ==> Get(a, c) == Get(b, c)
    ensures ServiceLoad(a) == ServiceLoad(b)
  {
    WeightedSumAgree(a, b, Weights);
  }

  /** Adding or changing a key outside the table leaves the load as it is. */
  lemma ServiceLoadUpdateOtherKey(row: map<string, real>, k: string, v: real)
    requires k !in Columns(Weights)
    ensures ServiceLoad(row[k := v]) == ServiceLoad(row)
  {
    ServiceLoadIgnoresOtherKeys(row[k := v], row);
  }

  /** A row holding a single column at 1 scores exactly that column's weight. */
  lemma ServiceLoadSingleColumn(i: nat)
    requires i < |Weights|
    ensures ServiceLoad(map[Weights[i].0 := 1.0]) == Weights[i].1
  {
    ServiceLoadFormula(map[Weights[i].0 := 1.0]);
  }

  lemma {:induction false} WeightedSumNonNegative(row: map<string, real>, t: seq<(string, real)>)
    requires forall k :: k in row ==> row[k] >= 0.0
    requires forall i :: 0 <= i < |t| ==> t[i].1 >= 0.0
    ensures WeightedSum(row, t) >= 0.0
  {
    if t != [] {
      WeightedSumNonNegative(row, t[..|t| - 1]);
    }
  }

  /** Non-negative counts give a non-negative load. */
  lemma ServiceLoadNonNegative(row: map<string, real>)
    requires forall k :: k in row ==> row[k] >= 0.0
    ensures ServiceLoad(row) >= 0.0
  {
    WeightedSumNonNegative(row, Weights);
  }

  lemma {:induction false} WeightedSumMonotone(row: map<string, real>, k: string, v: real, t: seq<(string, real)>)
    requires v >= Get(row, k)
    requires forall i :: 0 <= i < |t| ==> t[i].1 >= 0.0
    ensures WeightedSum(row[k := v], t) >= WeightedSum(row, t)
  {
    if t != [] {
      var c := t[|t| - 1];
      WeightedSumMonotone(row, k, v, t[..|t| - 1]);
      assert c.1 >= 0.0;
      var d := Get(row[k := v], c.0) - Get(row, c.0);
      assert d >= 0.0;
      assert d * c.1 >= 0.0;
      assert Get(row[k := v], c.0) * c.1 == Get(row, c.0) * c.1 + d * c.1;
    }
  }

  /** Raising any one count never lowers the load. */
  lemma ServiceLoadMonotone(row: map<string, real>, k: string, v: real)
    requires v >= Get(row, k)
    ensures ServiceLoad(row[k := v]) >= ServiceLoad(row)
  {
    WeightedSumMonotone(row, k, v, Weights);
  }

  /** `estimate_stations`: no station for no load, otherwise the number of
      full-capacity stations needed to cover it. */
  function EstimateStations(load: real): (s: int)
    ensures load <= 0.0 ==> s == 0
    ensures load > 0.0 ==> s >= 1
    ensures load > 0.0 ==>
      (s - 1) as real * AnnualServiceCapacity < load <= s as real * AnnualServiceCapacity
  {
    if load <= 0.0 then 0 else Ceil(load / AnnualServiceCapacity)
  }

  lemma EstimateStationsMonotone(x: real, y: real)
    requires x <= y
    ensures EstimateStations(x) <= EstimateStations(y)
  {
    if x > 0.0 {
      CeilMonotone(x / AnnualServiceCapacity, y / AnnualServiceCapacity);
    }
  }
}
