/** The national dashboard's figures (src/pages/NationalDashboard.jsx):
    the service totals of the national record, its rounded load and the
    three percentage shares. */
module NationalDashboard {
  import opened Common
  import opened JsValues
  import ServiceLoadVariants

  datatype ServiceTotals = ServiceTotals(enrolment: real, biometric: real, demographic: real)

  /** The three totals: each a sum of its age fields, read as
      `(national.sub?.field || 0)`. */
  function Totals(n: JsValue): (t: ServiceTotals)
    ensures !Truthy(Field(n, "enrolment")) ==> t.enrolment == 0.0
    ensures !Truthy(Field(n, "biometric_update")) ==> t.biometric == 0.0
    ensures !Truthy(Field(n, "demographic_update")) ==> t.demographic == 0.0
  {
    var e, b, dm := Field(n, "enrolment"), Field(n, "biometric_update"), Field(n, "demographic_update");
    ServiceTotals(
      Count(e, "age_0_5") + Count(e, "age_5_17") + Count(e, "age_18_greater"),
      Count(b, "bio_age_5_17") + Count(b, "bio_age_17_"),
      Count(dm, "demo_age_5_17") + Count(dm, "demo_age_17_"))
  }

  function TotalServices(t: ServiceTotals): real
  {
    t.enrolment + t.biometric + t.demographic
  }

  datatype Kpis = Kpis(
    nationalLoad: int, totals: ServiceTotals, enrolPercent: int, biometricPercent: int, demographicPercent: int)

  /** What the page shows; None is the error card shown when there is no
      national record. */
  function NationalKpis(n: JsValue): (k: Option<Kpis>)
    ensures k.None? <==> !Truthy(n)
    ensures k.Some? ==>
      k.value.nationalLoad == RoundHalfUp(ServiceLoadVariants.NationalServiceLoad(n))
      && k.value.totals == Totals(n)
      && k.value.enrolPercent == RoundedPercent(Totals(n).enrolment, TotalServices(Totals(n)))
      && k.value.biometricPercent == RoundedPercent(Totals(n).biometric, TotalServices(Totals(n)))
      && k.value.demographicPercent == RoundedPercent(Totals(n).demographic, TotalServices(Totals(n)))
  {
    if !Truthy(n) then None
    else
      var t := Totals(n);
      var all := TotalServices(t);
      Some(Kpis(RoundHalfUp(ServiceLoadVariants.NationalServiceLoad(n)), t,
        RoundedPercent(t.enrolment, all), RoundedPercent(t.biometric, all), RoundedPercent(t.demographic, all)))
  }

  /** With non-negative counts every share lies in [0, 100]; with no
      services at all every share is 0. */
  lemma PercentagesBounded(n: JsValue)
    requires Truthy(n)
    requires CountsNonNegative(Field(n, "enrolment")) && CountsNonNegative(Field(n, "biometric_update"))
      && CountsNonNegative(Field(n, "demographic_update"))
    ensures var k := NationalKpis(n).value;
      0 <= k.enrolPercent <= 100 && 0 <= k.biometricPercent <= 100 && 0 <= k.demographicPercent <= 100
    ensures TotalServices(Totals(n)) == 0.0 ==>
      var k := NationalKpis(n).value;
      k.enrolPercent == 0 && k.biometricPercent == 0 && k.demographicPercent == 0
  {
    TotalsNonNegative(n);
    SharesBounded(Totals(n));
  }

  lemma TotalsNonNegative(n: JsValue)
    requires CountsNonNegative(Field(n, "enrolment")) && CountsNonNegative(Field(n, "biometric_update"))
      && CountsNonNegative(Field(n, "demographic_update"))
    ensures Totals(n).enrolment >= 0.0 && Totals(n).biometric >= 0.0 && Totals(n).demographic >= 0.0
  {
    var e, b, dm := Field(n, "enrolment"), Field(n, "biometric_update"), Field(n, "demographic_update");
    assert Count(e, "age_0_5") >= 0.0 && Count(e, "age_5_17") >= 0.0 && Count(e, "age_18_greater") >= 0.0;
    assert Count(b, "bio_age_5_17") >= 0.0 && Count(b, "bio_age_17_") >= 0.0;
    assert Count(dm, "demo_age_5_17") >= 0.0 && Count(dm, "demo_age_17_") >= 0.0;
  }

  lemma SharesBounded(t: ServiceTotals)
    requires t.enrolment >= 0.0 && t.biometric >= 0.0 && t.demographic >= 0.0
    ensures var all := TotalServices(t);
      0 <= RoundedPercent(t.enrolment, all) <= 100 && 0 <= RoundedPercent(t.biometric, all) <= 100
      && 0 <= RoundedPercent(t.demographic, all) <= 100
  {
  }
}
