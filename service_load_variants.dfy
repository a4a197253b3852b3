/** The page copies of the service-load formula and how they relate to
    the backend's `calculate_service_load`. They differ only in where they
    look for the seven counts. */
module ServiceLoadVariants {
  import opened Common
  import opened JsValues
  import StationEstimator

  /** The seven-weight formula over the three records that hold the
      enrolment, biometric and demographic counts. */
  function WeightedCounts(e: JsValue, b: JsValue, dm: JsValue): real
  {
    1.2 * Count(e, "age_0_5") + 1.1 * Count(e, "age_5_17") + 1.0 * Count(e, "age_18_greater")
    + 0.8 * Count(b, "bio_age_5_17") + 1.0 * Count(b, "bio_age_17_")
    + 0.6 * Count(dm, "demo_age_5_17") + 0.7 * Count(dm, "demo_age_17_")
  }

  /** `computeServiceLoad` of the map page: a missing sub-object falls back
      to the record itself. */
  function MapServiceLoad(d: JsValue): (load: real)
    ensures !Truthy(d) ==> load == 0.0
  {
    if !Truthy(d) then 0.0
    else WeightedCounts(Or(Field(d, "enrolment"), d), Or(Field(d, "biometric_update"), d), Or(Field(d, "demographic_update"), d))
  }

  /** `computeServiceLoad` of the national dashboard: a missing sub-object
      falls back to `{}`. */
  function NationalServiceLoad(d: JsValue): (load: real)
    ensures !Truthy(d) ==> load == 0.0
  {
    if !Truthy(d) then 0.0
    else WeightedCounts(Or(Field(d, "enrolment"), Obj(map[])), Or(Field(d, "biometric_update"), Obj(map[])),
      Or(Field(d, "demographic_update"), Obj(map[])))
  }

  /** `computeStateServiceLoad` of the state dashboard and
      `computeServiceLoad` of the district dashboard: all counts on the
      record itself. */
  function FlatServiceLoad(d: JsValue): (load: real)
    ensures !Truthy(d) ==> load == 0.0
  {
    if !Truthy(d) then 0.0 else WeightedCounts(d, d, d)
  }

  /** None of the three sub-object keys holds a truthy value. */
  predicate IsFlat(d: JsValue)
  {
    !Truthy(Field(d, "enrolment")) && !Truthy(Field(d, "biometric_update")) && !Truthy(Field(d, "demographic_update"))
  }

  /** On any record the flat formula is the backend's load of the same
      record read as a row. */
  lemma FlatAgreesWithBackend(d: JsValue)
    requires d.Obj?
    ensures FlatServiceLoad(d) == StationEstimator.ServiceLoad(AsRow(d))
  {
    StationEstimator.ServiceLoadFormula(AsRow(d));
  }

  /** On a flat record the map page computes the flat formula, and so the
      backend's load. */
  lemma MapAgreesOnFlat(d: JsValue)
    requires d.Obj? && IsFlat(d)
    ensures MapServiceLoad(d) == FlatServiceLoad(d)
    ensures MapServiceLoad(d) == StationEstimator.ServiceLoad(AsRow(d))
  {
    FlatAgreesWithBackend(d);
  }

  /** The counts of a flat record split into the three nested sub-objects. */
  function Nest(d: JsValue): (n: JsValue)
    requires d.Obj?
    ensures n.Obj?
  {
    var f := d.fields;
    var e := map k | k in f && k in {"age_0_5", "age_5_17", "age_18_greater"} :: f[k];
    var b := map k | k in f && k in {"bio_age_5_17", "bio_age_17_"} :: f[k];
    var dm := map k | k in f && k in {"demo_age_5_17", "demo_age_17_"} :: f[k];
    Obj(map["enrolment" := Obj(e), "biometric_update" := Obj(b), "demographic_update" := Obj(dm)])
  }

  /** The map page gives a flat record and its nested form the same load. */
  lemma MapNestedMatchesFlat(d: JsValue)
    requires d.Obj? && IsFlat(d)
    ensures MapServiceLoad(Nest(d)) == MapServiceLoad(d)
  {
    var n := Nest(d);
    NestedTruthy(d);
    assert MapServiceLoad(n) == WeightedCounts(Field(n, "enrolment"), Field(n, "biometric_update"), Field(n, "demographic_update"));
    assert MapServiceLoad(d) == WeightedCounts(d, d, d);
    NestedCounts(d);
  }

  /** The national dashboard gives the nested form of a record the flat
      formula's load of that record, and so the backend's load. */
  lemma NationalAgreesOnNested(d: JsValue)
    requires d.Obj?
    ensures NationalServiceLoad(Nest(d)) == FlatServiceLoad(d)
    ensures NationalServiceLoad(Nest(d)) == StationEstimator.ServiceLoad(AsRow(d))
  {
    var n := Nest(d);
    NestedTruthy(d);
    assert NationalServiceLoad(n) == WeightedCounts(Field(n, "enrolment"), Field(n, "biometric_update"), Field(n, "demographic_update"));
    NestedCounts(d);
    FlatAgreesWithBackend(d);
  }

  /** The three sub-objects of a nested record are objects, so `||` keeps
      them. */
  lemma NestedTruthy(d: JsValue)
    requires d.Obj?
    ensures Truthy(Nest(d))
    ensures Field(Nest(d), "enrolment").Obj? && Field(Nest(d), "biometric_update").Obj? && Field(Nest(d), "demographic_update").Obj?
  {
  }

  lemma NestedCounts(d: JsValue)
    requires d.Obj?
    ensures WeightedCounts(Field(Nest(d), "enrolment"), Field(Nest(d), "biometric_update"), Field(Nest(d), "demographic_update"))
      == WeightedCounts(d, d, d)
  {
    var n := Nest(d);
    var e, b, dm := Field(n, "enrolment"), Field(n, "biometric_update"), Field(n, "demographic_update");
    assert Count(e, "age_0_5") == Count(d, "age_0_5");
    assert Count(e, "age_5_17") == Count(d, "age_5_17");
    assert Count(e, "age_18_greater") == Count(d, "age_18_greater");
    assert Count(b, "bio_age_5_17") == Count(d, "bio_age_5_17");
    assert Count(b, "bio_age_17_") == Count(d, "bio_age_17_");
    assert Count(dm, "demo_age_5_17") == Count(d, "demo_age_5_17");
    assert Count(dm, "demo_age_17_") == Count(d, "demo_age_17_");
  }

  /** The national dashboard scores a flat record 0 whatever its counts. */
  lemma NationalFlatScoresZero(d: JsValue)
    requires d.Obj? && IsFlat(d)
    ensures NationalServiceLoad(d) == 0.0
  {
  }

  /** So the two pages disagree: one child enrolment on a flat record is
      1.2 on the map page and 0 on the national dashboard. */
  lemma MapAndNationalDisagree()
    ensures MapServiceLoad(Obj(map["age_0_5" := Num(1.0)])) == 1.2
    ensures NationalServiceLoad(Obj(map["age_0_5" := Num(1.0)])) == 0.0
  {
    var d := Obj(map["age_0_5" := Num(1.0)]);
    assert Count(d, "age_0_5") == 1.0;
    assert Count(d, "age_5_17") == 0.0;
    assert Count(d, "age_18_greater") == 0.0;
    assert Count(d, "bio_age_5_17") == 0.0;
    assert Count(d, "bio_age_17_") == 0.0;
    assert Count(d, "demo_age_5_17") == 0.0;
    assert Count(d, "demo_age_17_") == 0.0;
  }

  /** With non-negative counts every variant is non-negative. */
  lemma VariantsNonNegative(d: JsValue)
    requires CountsNonNegative(d)
    requires CountsNonNegative(Field(d, "enrolment")) && CountsNonNegative(Field(d, "biometric_update"))
      && CountsNonNegative(Field(d, "demographic_update"))
    ensures MapServiceLoad(d) >= 0.0 && NationalServiceLoad(d) >= 0.0 && FlatServiceLoad(d) >= 0.0
  {
    var z := Obj(map[]);
    assert CountsNonNegative(z) by {
      forall k ensures Count(z, k) >= 0.0 { }
    }
    var e, b, dm := Field(d, "enrolment"), Field(d, "biometric_update"), Field(d, "demographic_update");
    OrNonNegative(e, d);
    OrNonNegative(b, d);
    OrNonNegative(dm, d);
    OrNonNegative(e, z);
    OrNonNegative(b, z);
    OrNonNegative(dm, z);
    WeightedNonNegative(Or(e, d), Or(b, d), Or(dm, d));
    WeightedNonNegative(Or(e, z), Or(b, z), Or(dm, z));
    WeightedNonNegative(d, d, d);
  }

  lemma OrNonNegative(x: JsValue, y: JsValue)
    requires CountsNonNegative(x) && CountsNonNegative(y)
    ensures CountsNonNegative(Or(x, y))
  {
  }

  lemma WeightedNonNegative(e: JsValue, b: JsValue, dm: JsValue)
    requires CountsNonNegative(e) && CountsNonNegative(b) && CountsNonNegative(dm)
    ensures WeightedCounts(e, b, dm) >= 0.0
  {
    var a0, a1, a2 := Count(e, "age_0_5"), Count(e, "age_5_17"), Count(e, "age_18_greater");
    var b0, b1 := Count(b, "bio_age_5_17"), Count(b, "bio_age_17_");
    var d0, d1 := Count(dm, "demo_age_5_17"), Count(dm, "demo_age_17_");
    assert WeightedCounts(e, b, dm) == 1.2 * a0 + 1.1 * a1 + 1.0 * a2 + 0.8 * b0 + 1.0 * b1 + 0.6 * d0 + 0.7 * d1;
    PositiveWeights(a0, a1, a2, b0, b1, d0, d1);
  }

  lemma PositiveWeights(a0: real, a1: real, a2: real, b0: real, b1: real, d0: real, d1: real)
    requires a0 >= 0.0 && a1 >= 0.0 && a2 >= 0.0 && b0 >= 0.0 && b1 >= 0.0 && d0 >= 0.0 && d1 >= 0.0
    ensures 1.2 * a0 + 1.1 * a1 + 1.0 * a2 + 0.8 * b0 + 1.0 * b1 + 0.6 * d0 + 0.7 * d1 >= 0.0
  {
  }
}
