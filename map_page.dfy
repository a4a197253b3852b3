/** The figures of the map page (src/pages/Map.jsx): the national KPIs,
    the ten states with the largest load, the Low/Medium/High demand
    buckets around the median and upper quartile, and two percentages. */
module MapPage {
  import opened Common
  import opened JsValues
  import ServiceLoadVariants
  import NationalDashboard

  /** `Math.round(computeServiceLoad(nationalData))`: the map page's own
      load formula, rounded; 0 without a national record. */
  function ServiceLoadIndex(national: JsValue): (r: int)
    ensures r as real - 0.5 <= ServiceLoadVariants.MapServiceLoad(national) < r as real + 0.5
    ensures !Truthy(national) ==> r == 0
  {
    RoundHalfUp(ServiceLoadVariants.MapServiceLoad(national))
  }

  /** On the nested national record the backend sends, the map page shows
      the same load index as the national dashboard. */
  lemma ServiceLoadIndexAgreesWithDashboard(d: JsValue)
    requires d.Obj? && ServiceLoadVariants.IsFlat(d)
    ensures NationalDashboard.NationalKpis(ServiceLoadVariants.Nest(d)).Some?
    ensures ServiceLoadIndex(ServiceLoadVariants.Nest(d)) == NationalDashboard.NationalKpis(ServiceLoadVariants.Nest(d)).value.nationalLoad
  {
    ServiceLoadVariants.NestedTruthy(d);
    ServiceLoadVariants.MapNestedMatchesFlat(d);
    ServiceLoadVariants.MapAgreesOnFlat(d);
    ServiceLoadVariants.NationalAgreesOnNested(d);
  }

  // ---------------------------------------------------------------------
  // Top ten states
  // ---------------------------------------------------------------------

  datatype StateLoad = StateLoad(state: JsValue, load: int)

  function LoadKey(s: StateLoad): real { s.load as real }

  /** Each state record with its rounded load, in record order. */
  function RoundedLoads(stateData: seq<JsValue>): (ls: seq<StateLoad>)
    ensures |ls| == |stateData|
    ensures forall i :: 0 <= i < |ls| ==>
      ls[i] == StateLoad(Field(stateData[i], "state"), RoundHalfUp(ServiceLoadVariants.MapServiceLoad(stateData[i])))
  {
    seq(|stateData|, i requires 0 <= i < |stateData| =>
      StateLoad(Field(stateData[i], "state"), RoundHalfUp(ServiceLoadVariants.MapServiceLoad(stateData[i]))))
  }

  /** `statesWithLoad`: sorted by rounded load, largest first, and cut to ten. */
  function StatesWithLoad(stateData: seq<JsValue>): seq<StateLoad>
  {
    Take(SortDesc(RoundedLoads(stateData), LoadKey), 10)
  }

  /** At most ten states, in descending load order, drawn from the
      records, and no state left out has a larger load than one shown. */
  lemma StatesWithLoadTopTen(stateData: seq<JsValue>)
    ensures |StatesWithLoad(stateData)| <= 10
    ensures |stateData| >= 10 ==> |StatesWithLoad(stateData)| == 10
    ensures SortedDesc(StatesWithLoad(stateData), LoadKey)
    ensures multiset(StatesWithLoad(stateData)) <= multiset(RoundedLoads(stateData))
    ensures forall x, i :: x in multiset(RoundedLoads(stateData)) - multiset(StatesWithLoad(stateData)) && 0 <= i < |StatesWithLoad(stateData)| ==>
      x.load <= StatesWithLoad(stateData)[i].load
  {
    TopTenOf(RoundedLoads(stateData));
  }

  lemma TopTenOf(ls: seq<StateLoad>)
    ensures |Take(SortDesc(ls, LoadKey), 10)| <= 10
    ensures |ls| >= 10 ==> |Take(SortDesc(ls, LoadKey), 10)| == 10
    ensures SortedDesc(Take(SortDesc(ls, LoadKey), 10), LoadKey)
    ensures multiset(Take(SortDesc(ls, LoadKey), 10)) <= multiset(ls)
    ensures forall x, i :: x in multiset(ls) - multiset(Take(SortDesc(ls, LoadKey), 10)) && 0 <= i < |Take(SortDesc(ls, LoadKey), 10)| ==>
      x.load <= Take(SortDesc(ls, LoadKey), 10)[i].load
  {
    var r := SortDesc(ls, LoadKey);
    var t := Take(r, 10);
    TakeSortedLargest(ls, LoadKey, 10);
    TakeSorted(r, LoadKey, 10);
    forall x: StateLoad, i | x in multiset(ls) - multiset(t) && 0 <= i < |t|
      ensures x.load <= t[i].load
    {
      assert LoadKey(x) <= LoadKey(t[i]);
    }
  }

  // ---------------------------------------------------------------------
  // Demand distribution
  // ---------------------------------------------------------------------

  function Positive(loads: seq<real>): (ps: seq<real>)
    ensures forall i :: 0 <= i < |ps| ==> ps[i] > 0.0
    ensures forall x :: x in ps <==> x in loads && x > 0.0
  {
    if loads == [] then []
    else
      var n := |loads| - 1;
      assert loads == loads[..n] + [loads[n]];
      if loads[n] > 0.0 then Positive(loads[..n]) + [loads[n]] else Positive(loads[..n])
  }

  /** `allStateLoads`: the positive loads in ascending order. */
  function SortedPositive(loads: seq<real>): (s: seq<real>)
    ensures forall i, j :: 0 <= i < j < |s| ==> s[i] <= s[j]
    ensures forall i :: 0 <= i < |s| ==> s[i] > 0.0
    ensures multiset(s) == multiset(Positive(loads))
  {
    var s := SortAsc(Positive(loads));
    assert forall i :: 0 <= i < |s| ==> s[i] in multiset(Positive(loads));
    s
  }

  /** `sorted[Math.floor(n / 2)] || 0`. */
  function Median(sorted: seq<real>): real
  {
    if sorted == [] then 0.0 else sorted[|sorted| / 2]
  }

  /** `sorted[Math.floor(n * 0.75)] || 0`. */
  function UpperQuartile(sorted: seq<real>): real
  {
    if sorted == [] then 0.0 else sorted[(3 * |sorted|) / 4]
  }

  /** The median never exceeds the upper quartile. */
  lemma MedianAtMostQuartile(loads: seq<real>)
    ensures Median(SortedPositive(loads)) <= UpperQuartile(SortedPositive(loads))
  {
    var s := SortedPositive(loads);
    if s != [] {
      HalfAtMostThreeQuarters(|s|);
      SortedAt(s, |s| / 2, (3 * |s|) / 4);
    }
  }

  lemma HalfAtMostThreeQuarters(n: nat)
    ensures n / 2 <= (3 * n) / 4 < n || n == 0
  {
    var q, r := n / 4, n % 4;
    assert n == 4 * q + r;
    assert 3 * n == 4 * (3 * q) + 3 * r;
  }

  lemma SortedAt(s: seq<real>, i: nat, j: nat)
    requires forall a, b :: 0 <= a < b < |s| ==> s[a] <= s[b]
    requires i <= j < |s|
    ensures s[i] <= s[j]
  {
  }

  function CountBelow(loads: seq<real>, m: real): nat
  {
    if loads == [] then 0 else CountBelow(loads[..|loads| - 1], m) + (if loads[|loads| - 1] < m then 1 else 0)
  }

  function CountBetween(loads: seq<real>, m: real, q: real): nat
  {
    if loads == [] then 0
    else CountBetween(loads[..|loads| - 1], m, q) + (if m <= loads[|loads| - 1] < q then 1 else 0)
  }

  function CountAtLeast(loads: seq<real>, q: real): nat
  {
    if loads == [] then 0 else CountAtLeast(loads[..|loads| - 1], q) + (if loads[|loads| - 1] >= q then 1 else 0)
  }

  datatype Distribution = Distribution(low: nat, medium: nat, high: nat)

  /** `demandDistribution` over the states' loads. */
  function DemandDistribution(loads: seq<real>): Distribution
  {
    var s := SortedPositive(loads);
    Distribution(CountBelow(loads, Median(s)), CountBetween(loads, Median(s), UpperQuartile(s)),
      CountAtLeast(loads, UpperQuartile(s)))
  }

  function MapLoad(d: JsValue): real { ServiceLoadVariants.MapServiceLoad(d) }

  function Loads(stateData: seq<JsValue>): (ls: seq<real>)
    ensures |ls| == |stateData|
  {
    seq(|stateData|, i requires 0 <= i < |stateData| => MapLoad(stateData[i]))
  }

  lemma {:induction false} CountsPartition(loads: seq<real>, m: real, q: real)
    requires m <= q
    ensures CountBelow(loads, m) + CountBetween(loads, m, q) + CountAtLeast(loads, q) == |loads|
  {
    if loads != [] {
      CountsPartition(loads[..|loads| - 1], m, q);
    }
  }

  /** Every state falls in exactly one bucket. */
  lemma DistributionCoversAllStates(stateData: seq<JsValue>)
    ensures var d := DemandDistribution(Loads(stateData));
      d.low + d.medium + d.high == |stateData|
  {
    var loads := Loads(stateData);
    MedianAtMostQuartile(loads);
    var s := SortedPositive(loads);
    CountsPartition(loads, Median(s), UpperQuartile(s));
  }

  lemma {:induction false} AllAtLeast(loads: seq<real>, q: real)
    requires forall i :: 0 <= i < |loads| ==> loads[i] >= q
    ensures CountAtLeast(loads, q) == |loads|
    ensures CountBelow(loads, q) == 0
  {
    if loads != [] {
      AllAtLeast(loads[..|loads| - 1], q);
    }
  }

  /** With no positive load the median and quartile are 0 and every state
      counts as High. */
  lemma ZeroLoadsAllHigh(loads: seq<real>)
    requires forall i :: 0 <= i < |loads| ==> loads[i] == 0.0
    ensures Median(SortedPositive(loads)) == 0.0 && UpperQuartile(SortedPositive(loads)) == 0.0
    ensures DemandDistribution(loads) == Distribution(0, 0, |loads|)
  {
    var s := SortedPositive(loads);
    NoPositive(loads);
    AllAtLeast(loads, 0.0);
    MedianAtMostQuartile(loads);
    CountsPartition(loads, 0.0, 0.0);
  }

  lemma {:induction false} NoPositive(loads: seq<real>)
    requires forall i :: 0 <= i < |loads| ==> loads[i] <= 0.0
    ensures Positive(loads) == []
  {
    if loads != [] {
      NoPositive(loads[..|loads| - 1]);
    }
  }

  /** Loads 12, 60 and 120 put one state in each bucket. */
  lemma OneStatePerBucket(loads: seq<real>)
    requires loads == [12.0, 60.0, 120.0]
    ensures DemandDistribution(loads) == Distribution(1, 1, 1)
  {
    ExampleSorted(loads);
    ExampleQuantiles(SortedPositive(loads));
    ExampleCounts();
  }

  /** Three increasing positive loads are already their sorted list. */
  lemma ExampleSorted(loads: seq<real>)
    requires |loads| == 3 && 0.0 < loads[0] < loads[1] < loads[2]
    ensures SortedPositive(loads) == loads
  {
    ThreePositive(loads);
    SortAscOfThree(loads);
  }

  lemma ThreePositive(loads: seq<real>)
    requires |loads| == 3 && 0.0 < loads[0] < loads[1] < loads[2]
    ensures Positive(loads) == loads
  {
    AllPositive(loads);
  }

  lemma SortAscOfThree(t: seq<real>)
    requires |t| == 3 && t[0] < t[1] < t[2]
    ensures SortAsc(t) == t
  {
    SortedThree(SortAsc(t), t);
  }

  lemma ExampleQuantiles(s: seq<real>)
    requires s == [12.0, 60.0, 120.0]
    ensures Median(s) == 60.0 && UpperQuartile(s) == 120.0
  {
  }

  lemma ExampleCounts()
    ensures CountBelow([12.0, 60.0, 120.0], 60.0) == 1
    ensures CountBetween([12.0, 60.0, 120.0], 60.0, 120.0) == 1
    ensures CountAtLeast([12.0, 60.0, 120.0], 120.0) == 1
  {
    var l1, l2, l3 := [12.0], [12.0, 60.0], [12.0, 60.0, 120.0];
    assert l3[..2] == l2 && l2[..1] == l1 && l1[..0] == [];
    assert CountBelow(l1, 60.0) == 1 && CountBelow(l2, 60.0) == 1;
    assert CountBetween(l1, 60.0, 120.0) == 0 && CountBetween(l2, 60.0, 120.0) == 1;
    assert CountAtLeast(l1, 120.0) == 0 && CountAtLeast(l2, 120.0) == 0;
  }

  lemma {:induction false} AllPositive(loads: seq<real>)
    requires forall i :: 0 <= i < |loads| ==> loads[i] > 0.0
    ensures Positive(loads) == loads
  {
    if loads != [] {
      var n := |loads| - 1;
      AllPositive(loads[..n]);
      assert loads == loads[..n] + [loads[n]];
    }
  }

  /** The only ascending arrangement of three distinct numbers. */
  lemma SortedThree(s: seq<real>, t: seq<real>)
    requires |t| == 3 && t[0] < t[1] < t[2]
    requires forall i, j :: 0 <= i < j < |s| ==> s[i] <= s[j]
    requires multiset(s) == multiset(t)
    ensures s == t
  {
    var a, b, c := t[0], t[1], t[2];
    assert t == [a, b, c];
    assert |s| == |multiset(s)| == 3;
    assert s[0] in multiset(s) && s[1] in multiset(s) && s[2] in multiset(s);
    assert a in multiset(s) && b in multiset(s) && c in multiset(s);
    assert a in s && b in s && c in s;
  }

  // ---------------------------------------------------------------------
  // Insights
  // ---------------------------------------------------------------------

  function LoadSum(ls: seq<StateLoad>): real
  {
    SumBy(ls, LoadKey)
  }

  /** `top3Percentage`: the first three shown states' share of the shown
      states' load. */
  function Top3Percentage(stateData: seq<JsValue>): int
  {
    var shown := StatesWithLoad(stateData);
    RoundedPercent(LoadSum(Take(shown, 3)), LoadSum(shown))
  }

  /** `biometricPercentage`: the biometric share of all national services. */
  function BiometricPercentage(national: JsValue): int
  {
    var t := NationalDashboard.Totals(national);
    RoundedPercent(t.biometric, NationalDashboard.TotalServices(t))
  }

  /** With non-negative loads the top-three share lies in [0, 100]. */
  lemma Top3PercentageBounded(stateData: seq<JsValue>)
    requires forall i :: 0 <= i < |stateData| ==> ServiceLoadVariants.MapServiceLoad(stateData[i]) >= 0.0
    ensures 0 <= Top3Percentage(stateData) <= 100
  {
    var all := RoundedLoads(stateData);
    var shown := StatesWithLoad(stateData);
    var sorted := SortDesc(all, LoadKey);
    forall k | 0 <= k < |shown|
      ensures LoadKey(shown[k]) >= 0.0
    {
      assert shown[k] == sorted[k];
      assert sorted[k] in multiset(all);
      var i :| 0 <= i < |all| && all[i] == sorted[k];
      RoundHalfUpNonNegative(ServiceLoadVariants.MapServiceLoad(stateData[i]));
    }
    SumByNonNegative(Take(shown, 3), LoadKey);
    if |shown| > 3 {
      SumByPrefix(shown, 3, LoadKey);
    }
  }

  lemma RoundHalfUpNonNegative(x: real)
    requires x >= 0.0
    ensures RoundHalfUp(x) >= 0
  {
  }

  /** With non-negative national counts the biometric share lies in
      [0, 100]. */
  lemma BiometricPercentageBounded(national: JsValue)
    requires CountsNonNegative(Field(national, "enrolment")) && CountsNonNegative(Field(national, "biometric_update"))
      && CountsNonNegative(Field(national, "demographic_update"))
    ensures 0 <= BiometricPercentage(national) <= 100
  {
    NationalDashboard.TotalsNonNegative(national);
    NationalDashboard.SharesBounded(NationalDashboard.Totals(national));
  }
}
