/** The deterministic parts of backend/forecasting.py: which states and
    districts are offered, which historical rows feed a forecast, how a
    forecast is read out, and how the top-growth list is ordered. Query
    results are input sequences; the forecasting numerics are an oracle. */
module Forecasting {
  import opened Common
  import MigrationApi

  // ---------------------------------------------------------------------
  // State list
  // ---------------------------------------------------------------------

  /** The official state and union-territory names. */
  const ValidStates: set<string> := {
    "Andaman and Nicobar Islands",
    "Andhra Pradesh",
    "Arunachal Pradesh",
    "Assam",
    "Bihar",
    "Chandigarh",
    "Chhattisgarh",
    "Dadra and Nagar Haveli and Daman and Diu",
    "Daman and Diu",
    "Delhi",
    "Goa",
    "Gujarat",
    "Haryana",
    "Himachal Pradesh",
    "Jammu and Kashmir",
    "Jharkhand",
    "Karnataka",
    "Kerala",
    "Ladakh",
    "Lakshadweep",
    "Madhya Pradesh",
    "Maharashtra",
    "Manipur",
    "Meghalaya",
    "Mizoram",
    "Nagaland",
    "Odisha",
    "Puducherry",
    "Punjab",
    "Rajasthan",
    "Sikkim",
    "Tamil Nadu",
    "Telangana",
    "Tripura",
    "Uttar Pradesh",
    "Uttarakhand",
    "West Bengal"
  }

  const AvailableMapping: map<string, string> := map[
    "andhra pradesh" := "Andhra Pradesh",
    "arunachal pradesh" := "Arunachal Pradesh",
    "assam" := "Assam",
    "bihar" := "Bihar",
    "chhattisgarh" := "Chhattisgarh",
    "chhatisgarh" := "Chhattisgarh",
    "dadra and nagar haveli" := "Dadra and Nagar Haveli and Daman and Diu",
    "dadra & nagar haveli" := "Dadra and Nagar Haveli and Daman and Diu",
    "daman and diu" := "Daman and Diu",
    "daman & diu" := "Daman and Diu",
    "delhi" := "Delhi",
    "goa" := "Goa",
    "gujarat" := "Gujarat",
    "haryana" := "Haryana",
    "himachal pradesh" := "Himachal Pradesh",
    "jammu and kashmir" := "Jammu and Kashmir",
    "jammu & kashmir" := "Jammu and Kashmir",
    "jharkhand" := "Jharkhand",
    "karnataka" := "Karnataka",
    "kerala" := "Kerala",
    "ladakh" := "Ladakh",
    "lakshadweep" := "Lakshadweep",
    "madhya pradesh" := "Madhya Pradesh",
    "maharashtra" := "Maharashtra",
    "manipur" := "Manipur",
    "meghalaya" := "Meghalaya",
    "mizoram" := "Mizoram",
    "nagaland" := "Nagaland",
    "odisha" := "Odisha",
    "orissa" := "Odisha",
    "puducherry" := "Puducherry",
    "pondicherry" := "Puducherry",
    "punjab" := "Punjab",
    "rajasthan" := "Rajasthan",
    "sikkim" := "Sikkim",
    "tamil nadu" := "Tamil Nadu",
    "telangana" := "Telangana",
    "tripura" := "Tripura",
    "uttar pradesh" := "Uttar Pradesh",
    "uttarakhand" := "Uttarakhand",
    "uttaranchal" := "Uttarakhand",
    "west bengal" := "West Bengal",
    "west bangal" := "West Bengal",
    "west bengli" := "West Bengal",
    "west  bengal" := "West Bengal",
    "westbengal" := "West Bengal",
    "andaman & nicobar islands" := "Andaman and Nicobar Islands",
    "andaman and nicobar islands" := "Andaman and Nicobar Islands",
    "chandigarh" := "Chandigarh",
    "the dadra and nagar haveli and daman and diu" := "Dadra and Nagar Haveli and Daman and Diu"
  ]

  const QueryMapping: map<string, string> := map[
    "andhra pradesh" := "Andhra Pradesh",
    "arunachal pradesh" := "Arunachal Pradesh",
    "assam" := "Assam",
    "bihar" := "Bihar",
    "chhattisgarh" := "Chhattisgarh",
    "chhatisgarh" := "Chhattisgarh",
    "dadra and nagar haveli" := "Dadra and Nagar Haveli and Daman and Diu",
    "dadra & nagar haveli" := "Dadra and Nagar Haveli and Daman and Diu",
    "daman and diu" := "Daman and Diu",
    "daman & diu" := "Daman and Diu",
    "delhi" := "Delhi",
    "goa" := "Goa",
    "gujarat" := "Gujarat",
    "haryana" := "Haryana",
    "himachal pradesh" := "Himachal Pradesh",
    "jammu and kashmir" := "Jammu and Kashmir",
    "jammu & kashmir" := "Jammu and Kashmir",
    "jharkhand" := "Jharkhand",
    "karnataka" := "Karnataka",
    "kerala" := "Kerala",
    "ladakh" := "Ladakh",
    "lakshadweep" := "Lakshadweep",
    "madhya pradesh" := "Madhya Pradesh",
    "maharashtra" := "Maharashtra",
    "manipur" := "Manipur",
    "meghalaya" := "Meghalaya",
    "mizoram" := "Mizoram",
    "nagaland" := "Nagaland",
    "odisha" := "Odisha",
    "orissa" := "Odisha",
    "puducherry" := "Puducherry",
    "pondicherry" := "Puducherry",
    "punjab" := "Punjab",
    "rajasthan" := "Rajasthan",
    "sikkim" := "Sikkim",
    "tamil nadu" := "Tamil Nadu",
    "telangana" := "Telangana",
    "tripura" := "Tripura",
    "uttar pradesh" := "Uttar Pradesh",
    "uttarakhand" := "Uttarakhand",
    "uttaranchal" := "Uttarakhand",
    "west bengal" := "West Bengal",
    "west bangal" := "West Bengal",
    "west bengli" := "West Bengal",
    "andaman & nicobar islands" := "Andaman and Nicobar Islands",
    "andaman and nicobar islands" := "Andaman and Nicobar Islands",
    "chandigarh" := "Chandigarh"
  ]

  /** One state name of the distinct-states query mapped to its official
      form: keyed by `lower().strip()`, kept only when it is official. */
  function MapAvailable(name: string): (r: Option<string>)
    ensures r.Some? <==>
      ToLower(name) != [] && Trim(ToLower(name)) in AvailableMapping && AvailableMapping[Trim(ToLower(name))] in ValidStates
    ensures r.Some? ==> r.value in ValidStates
  {
    var key := Trim(ToLower(name));
    if name != [] && key in AvailableMapping && AvailableMapping[key] in ValidStates then
      Some(AvailableMapping[key])
    else None
  }

  /** The official name one row of the distinct-states query yields
      (None and "" are falsy and skipped). */
  function StateHit(state: Option<string>): (r: Option<string>)
    ensures r.Some? ==> r.value in ValidStates
  {
    match state
    case Some(name) => MapAvailable(name)
    case None => None
  }

  /** The official names found among the query's states. */
  function Cleaned(states: seq<Option<string>>): set<string>
  {
    Collect(states, StateHit)
  }

  /** Exactly the official names some row maps to are found. */
  lemma CleanedMembers(states: seq<Option<string>>)
    ensures forall x :: x in Cleaned(states) <==> exists i :: 0 <= i < |states| && StateHit(states[i]) == Some(x)
    ensures Cleaned(states) <= ValidStates
  {
    CollectMembers(states, StateHit);
    forall x | x in Cleaned(states)
      ensures x in ValidStates
    {
      var i :| 0 <= i < |states| && StateHit(states[i]) == Some(x);
    }
  }

  /** `get_available_states`: the sorted official names found, or all
      official names when none is found. */
  method GetAvailableStates(states: seq<Option<string>>) returns (r: seq<string>)
    ensures StrictlySorted(r)
    ensures Cleaned(states) != {} ==> forall x :: x in r <==> x in Cleaned(states)
    ensures Cleaned(states) == {} ==> forall x :: x in r <==> x in ValidStates
    ensures forall x :: x in r ==> x in ValidStates
    ensures r != []
  {
    var cleaned: set<string> := {};
    for i := 0 to |states|
      invariant cleaned == Cleaned(states[..i])
    {
      assert states[..i + 1][..i] == states[..i];
      match states[i]
      case Some(name) =>
        var normalized := MapAvailable(name);
        if normalized.Some? {
          cleaned := cleaned + {normalized.value};
        }
      case None =>
    }
    assert states[..|states|] == states;
    CleanedMembers(states);
    if cleaned != {} {
      r := SortedOfSet(cleaned);
      var x :| x in cleaned;
      assert x in r;
    } else {
      r := SortedOfSet(ValidStates);
      assert "Delhi" in r;
    }
  }

  // ---------------------------------------------------------------------
  // District list
  // ---------------------------------------------------------------------

  /** The state name a district query uses: the mapped form of
      `lower().strip()`, or the argument itself when it is not a key. */
  function QueryState(state: string): (r: string)
    ensures Trim(ToLower(state)) in QueryMapping ==> r == QueryMapping[Trim(ToLower(state))]
    ensures Trim(ToLower(state)) !in QueryMapping ==> r == state
  {
    var key := Trim(ToLower(state));
    if key in QueryMapping then QueryMapping[key] else state
  }

  const DistrictBlacklist: seq<string> := ["null", "na", "n/a", "unknown", "0", "-", ""]

  /** A district name is kept when its stripped form is longer than two
      characters and its lower-case form, before stripping, is not
      blacklisted. */
  predicate KeepDistrict(d: string)
  {
    d != [] && Trim(d) != [] && |Trim(d)| > 2 && ToLower(d) !in DistrictBlacklist
  }

  /** The name one row contributes: its stripped form when kept. */
  function DistrictHit(district: Option<string>): (r: Option<string>)
    ensures r.Some? ==> |r.value| > 2
  {
    if district.Some? && KeepDistrict(district.value) then Some(Trim(district.value)) else None
  }

  function Districts(results: seq<Option<string>>): set<string>
  {
    Collect(results, DistrictHit)
  }

  /** Exactly the stripped forms of the kept names are offered, and each is
      longer than two characters. */
  lemma DistrictsMembers(results: seq<Option<string>>)
    ensures forall x :: x in Districts(results) <==>
      exists i :: 0 <= i < |results| && results[i].Some? && KeepDistrict(results[i].value) && Trim(results[i].value) == x
    ensures forall x :: x in Districts(results) ==> |x| > 2
  {
    CollectMembers(results, DistrictHit);
    forall x
      ensures x in Districts(results) <==>
        exists i :: 0 <= i < |results| && results[i].Some? && KeepDistrict(results[i].value) && Trim(results[i].value) == x
    {
      if x in Districts(results) {
        var i :| 0 <= i < |results| && DistrictHit(results[i]) == Some(x);
      }
      if exists i :: 0 <= i < |results| && results[i].Some? && KeepDistrict(results[i].value) && Trim(results[i].value) == x {
        var i :| 0 <= i < |results| && results[i].Some? && KeepDistrict(results[i].value) && Trim(results[i].value) == x;
        assert DistrictHit(results[i]) == Some(x);
      }
    }
    forall x | x in Districts(results)
      ensures |x| > 2
    {
      var i :| 0 <= i < |results| && DistrictHit(results[i]) == Some(x);
    }
  }

  /** The district filter of `get_districts_for_state`, over the districts
      of the query's rows. */
  method GetDistrictsForState(results: seq<Option<string>>) returns (r: seq<string>)
    ensures StrictlySorted(r)
    ensures forall x :: x in r <==> x in Districts(results)
  {
    var districts: set<string> := {};
    for i := 0 to |results|
      invariant districts == Districts(results[..i])
    {
      assert results[..i + 1][..i] == results[..i];
      var d := results[i];
      if d.Some? && KeepDistrict(d.value) {
        districts := districts + {Trim(d.value)};
      }
    }
    assert results[..|results|] == results;
    r := SortedOfSet(districts);
  }

  /** The blacklist is checked before stripping, so a padded " null "
      survives as "null", and a stripped name is never blacklisted when
      it had no surrounding spaces. */
  lemma PaddedBlacklistedNameKept()
    ensures "null" in Districts([Some(" null ")])
    ensures "null" !in Districts([Some("null")])
  {
    var d := " null ";
    assert ToLower(d) == " null ";
    TrimPaddedNull();
    assert KeepDistrict(d);
    KeptAloneOffered(d);
    assert ToLower("null") == "null";
    assert [Some("null")][..0] == [];
  }

  /** A single kept name is offered in its stripped form. */
  lemma KeptAloneOffered(d: string)
    requires KeepDistrict(d)
    ensures Trim(d) in Districts([Some(d)])
  {
    assert [Some(d)][..0] == [];
  }

  lemma TrimPaddedNull()
    ensures Trim(" null ") == "null"
  {
    var d := " null ";
    assert LeadingSpaces(d) == 1;
    assert TrailingSpaces(d[1..]) == 1;
  }

  // ---------------------------------------------------------------------
  // Historical rows
  // ---------------------------------------------------------------------

  datatype IndexRow = IndexRow(date: int, migrationIndex: Option<real>, childEnrolments: real, adultUpdates: real)

  datatype HistoryPoint = HistoryPoint(date: int, migrationIndex: real, childEnrolments: real, adultUpdates: real)

  /** The index a row contributes: adult updates per thousand when there
      are no child enrolments but some adult updates, else the stored one. */
  function EffectiveIndex(r: IndexRow): (v: Option<real>)
    ensures r.childEnrolments == 0.0 && r.adultUpdates > 0.0 ==> v == Some(r.adultUpdates / 1000.0)
    ensures !(r.childEnrolments == 0.0 && r.adultUpdates > 0.0) ==> v == r.migrationIndex
  {
    if r.migrationIndex.None? || (r.childEnrolments == 0.0 && r.adultUpdates > 0.0) then
      if r.childEnrolments == 0.0 && r.adultUpdates > 0.0 then Some(r.adultUpdates / 1000.0)
      else r.migrationIndex
    else r.migrationIndex
  }

  /** The kept rows, in query order. */
  function History(rows: seq<IndexRow>): (ps: seq<HistoryPoint>)
    ensures |ps| <= |rows|
    ensures forall k :: 0 <= k < |ps| ==> ps[k].migrationIndex > 0.0
  {
    if rows == [] then []
    else
      var n := |rows| - 1;
      var prev := History(rows[..n]);
      var r := rows[n];
      var v := EffectiveIndex(r);
      if v.Some? && v.value > 0.0 then prev + [HistoryPoint(r.date, v.value, r.childEnrolments, r.adultUpdates)]
      else prev
  }

  /** A row is kept iff its effective index is positive, and then with that
      index and its own date and counts. */
  lemma {:induction false} HistoryExact(rows: seq<IndexRow>)
    ensures forall r :: r in rows && EffectiveIndex(r).Some? && EffectiveIndex(r).value > 0.0 ==>
      HistoryPoint(r.date, EffectiveIndex(r).value, r.childEnrolments, r.adultUpdates) in History(rows)
    ensures forall p :: p in History(rows) ==>
      exists r :: r in rows && EffectiveIndex(r) == Some(p.migrationIndex) && r.date == p.date
        && r.childEnrolments == p.childEnrolments && r.adultUpdates == p.adultUpdates
  {
    if rows != [] {
      var n := |rows| - 1;
      HistoryExact(rows[..n]);
      assert rows == rows[..n] + [rows[n]];
    }
  }

  /** The data frame part of `get_historical_data`: None when the query
      found nothing or every row was dropped. */
  method GetHistoricalData(rows: seq<IndexRow>) returns (r: Option<seq<HistoryPoint>>)
    ensures r.None? <==> History(rows) == []
    ensures r.Some? ==> r.value == History(rows)
  {
    if rows == [] {
      return None;
    }
    var data: seq<HistoryPoint> := [];
    for i := 0 to |rows|
      invariant data == History(rows[..i])
    {
      assert rows[..i + 1][..i] == rows[..i];
      var row := rows[i];
      var idx := EffectiveIndex(row);
      if idx.Some? && idx.value > 0.0 {
        data := data + [HistoryPoint(row.date, idx.value, row.childEnrolments, row.adultUpdates)];
      }
    }
    assert rows[..|rows|] == rows;
    if data == [] {
      return None;
    }
    return Some(data);
  }

  // ---------------------------------------------------------------------
  // Reading a forecast
  // ---------------------------------------------------------------------

  datatype Interpretation = Interpretation(
    averagePredictedIndex: real, changePercent: real, trend: string, migrationPressure: string, policyImpact: string)

  /** First-to-last change in percent, 0 when the first value is 0. */
  function ChangePercent(first: real, last: real): (c: real)
    ensures first == 0.0 ==> c == 0.0
    ensures first != 0.0 ==> c * first == (last - first) * 100.0
  {
    if first != 0.0 then
      var q := (last - first) / first;
      assert q * first == last - first;
      q * 100.0
    else 0.0
  }

  /** The trend label of a change: both thresholds are strict. */
  function ForecastTrend(change: real): (t: string)
    ensures t == "Increasing" <==> change > 5.0
    ensures t == "Decreasing" <==> change < -5.0
    ensures t == "Stable" <==> -5.0 <= change <= 5.0
  {
    if change > 5.0 then "Increasing" else if change < -5.0 then "Decreasing" else "Stable"
  }

  /** The pressure tier of an average prediction, with strict thresholds. */
  function Pressure(avg: real): (p: string)
    ensures p == "Very High Migration Pressure" <==> avg > 3.0
    ensures p == "High Migration Pressure" <==> 2.0 < avg <= 3.0
    ensures p == "Moderate Migration Pressure" <==> 1.0 < avg <= 2.0
    ensures p == "Low Migration Pressure" <==> 0.5 < avg <= 1.0
    ensures p == "Very Low/Declining" <==> avg <= 0.5
  {
    if avg > 3.0 then "Very High Migration Pressure"
    else if avg > 2.0 then "High Migration Pressure"
    else if avg > 1.0 then "Moderate Migration Pressure"
    else if avg > 0.5 then "Low Migration Pressure"
    else "Very Low/Declining"
  }

  /** The policy texts of the five pressure tiers, from Very High down. */
  const VeryHighImpact := "Cities will experience significant population growth. Urgent: Plan infrastructure, housing, services expansion."
  const HighImpact := "Moderate-to-high population growth. Expand public services, housing, transport."
  const ModerateImpact := "Steady growth. Maintain/upgrade current infrastructure."
  const LowImpact := "Minimal growth. Monitor trends; no immediate expansion needed."
  const DecliningImpact := "Risk of population decline. May indicate rural depopulation or service deficiencies."

  /** The policy text that goes with each pressure tier. */
  function PolicyImpact(avg: real): string
  {
    if avg > 3.0 then VeryHighImpact
    else if avg > 2.0 then HighImpact
    else if avg > 1.0 then ModerateImpact
    else if avg > 0.5 then LowImpact
    else DecliningImpact
  }

  /** No two tiers share a policy text. */
  lemma PolicyTextsDistinct()
    ensures VeryHighImpact != HighImpact && VeryHighImpact != ModerateImpact && VeryHighImpact != LowImpact
    ensures VeryHighImpact != DecliningImpact && HighImpact != ModerateImpact && HighImpact != LowImpact
    ensures HighImpact != DecliningImpact && ModerateImpact != LowImpact && ModerateImpact != DecliningImpact
    ensures LowImpact != DecliningImpact
  {
  }

  /** Two averages get the same policy text exactly when they fall in the
      same pressure tier. */
  lemma PolicyFollowsPressure(a: real, b: real)
    ensures Pressure(a) == Pressure(b) <==> PolicyImpact(a) == PolicyImpact(b)
  {
    PolicyTextsDistinct();
  }

  function Mean(vs: seq<real>): (m: real)
    requires vs != []
    ensures m * |vs| as real == Sum(vs)
  {
    var q := Sum(vs) / |vs| as real;
    assert q * |vs| as real == Sum(vs);
    q
  }

  /** `_interpret_forecast` over the predicted values; None stands for the
      empty dictionary returned for an empty forecast. */
  function InterpretForecast(predicted: seq<real>): (r: Option<Interpretation>)
    ensures r.None? <==> predicted == []
    ensures r.Some? ==>
      r.value.averagePredictedIndex == Mean(predicted)
      && r.value.changePercent == ChangePercent(predicted[0], predicted[|predicted| - 1])
      && r.value.trend == ForecastTrend(r.value.changePercent)
      && r.value.migrationPressure == Pressure(r.value.averagePredictedIndex)
      && r.value.policyImpact == PolicyImpact(r.value.averagePredictedIndex)
  {
    if predicted == [] then None
    else
      var change := ChangePercent(predicted[0], predicted[|predicted| - 1]);
      var avg := Mean(predicted);
      Some(Interpretation(avg, change, ForecastTrend(change), Pressure(avg), PolicyImpact(avg)))
  }

  /** A flat forecast of value c reads as Stable with average c. */
  lemma FlatForecast(predicted: seq<real>, c: real)
    requires predicted != []
    requires forall i :: 0 <= i < |predicted| ==> predicted[i] == c
    ensures InterpretForecast(predicted).Some?
    ensures InterpretForecast(predicted).value.trend == "Stable"
    ensures InterpretForecast(predicted).value.averagePredictedIndex == c
  {
    var last := predicted[|predicted| - 1];
    assert ChangePercent(predicted[0], last) == 0.0 by {
      assert predicted[0] == c && last == c;
      ZeroChange(c);
    }
    SumConstant(predicted, c);
    MeanOfConstant(Mean(predicted), c, |predicted| as real);
  }

  lemma ZeroChange(c: real)
    ensures ChangePercent(c, c) == 0.0
  {
    if c != 0.0 {
      assert (c - c) / c == 0.0;
    }
  }

  lemma MeanOfConstant(m: real, c: real, n: real)
    requires n > 0.0 && m * n == n * c
    ensures m == c
  {
    if m < c {
      BelowTimes(m, c, n);
    } else if c < m {
      BelowTimes(c, m, n);
    }
  }

  lemma BelowTimes(a: real, b: real, w: real)
    requires w > 0.0 && a < b
    ensures a * w < b * w
  {
    assert (b - a) * w > 0.0;
  }

  /** The tier boundaries belong to the lower tier. */
  lemma PressureBoundaries()
    ensures Pressure(3.0) == "High Migration Pressure"
    ensures Pressure(2.0) == "Moderate Migration Pressure"
    ensures Pressure(1.0) == "Low Migration Pressure"
    ensures Pressure(0.5) == "Very Low/Declining"
  {
  }

  // ---------------------------------------------------------------------
  // Status and top growth
  // ---------------------------------------------------------------------

  /** `_get_status`: strict thresholds, no "No Data". */
  function GetStatus(v: real): (status: string)
    ensures status == "Very High Migration" <==> v > 3.0
    ensures status == "High Migration" <==> 2.0 < v <= 3.0
    ensures status == "Moderate Migration" <==> 1.0 < v <= 2.0
    ensures status == "Low Migration" <==> v <= 1.0
  {
    if v > 3.0 then "Very High Migration"
    else if v > 2.0 then "High Migration"
    else if v > 1.0 then "Moderate Migration"
    else "Low Migration"
  }

  /** `_get_status` and `interpret_index` agree everywhere except at 1.0,
      2.0 and 3.0, where `_get_status` names the tier below. */
  lemma StatusAgreesWithInterpretIndex(v: real)
    ensures v != 1.0 && v != 2.0 && v != 3.0 ==> GetStatus(v) == MigrationApi.InterpretIndex(Some(v))
    ensures v == 1.0 || v == 2.0 || v == 3.0 ==>
      MigrationApi.Tier(GetStatus(v)) == MigrationApi.Tier(MigrationApi.InterpretIndex(Some(v))) - 1
  {
  }

  /** What the ensemble forecast gives back for one district. */
  datatype ForecastReply = Forecast(predictions: seq<real>) | ForecastError(message: string)

  datatype Prediction = Prediction(district: string, predictedAvgIndex: real, status: string)

  function AvgIndex(p: Prediction): real { p.predictedAvgIndex }

  /** The districts whose forecast has values, in query order. */
  function Predictions(districts: seq<string>, forecast: string -> ForecastReply): (ps: seq<Prediction>)
    ensures |ps| <= |districts|
    ensures forall k :: 0 <= k < |ps| ==> ps[k].status == GetStatus(ps[k].predictedAvgIndex)
  {
    if districts == [] then []
    else
      var n := |districts| - 1;
      var prev := Predictions(districts[..n], forecast);
      match forecast(districts[n])
      case Forecast(vs) =>
        if vs != [] then prev + [Prediction(districts[n], Mean(vs), GetStatus(Mean(vs)))] else prev
      case ForecastError(_) => prev
  }

  /** Python's `xs[:n]`, where a negative n drops that many from the end. */
  function SliceTo<T>(xs: seq<T>, n: int): (r: seq<T>)
    ensures n >= 0 ==> r == Take(xs, n)
    ensures n < 0 ==> |r| == (if |xs| + n < 0 then 0 else |xs| + n)
    ensures r == xs[..|r|]
  {
    if n >= 0 then
      var t := Take(xs, n);
      assert t == xs[..|t|];
      t
    else if |xs| + n < 0 then []
    else xs[..|xs| + n]
  }

  /** `get_top_growth_predictions` around the forecast oracle. */
  method GetTopGrowthPredictions(districts: seq<string>, forecast: string -> ForecastReply, topN: int)
    returns (r: seq<Prediction>)
    ensures r == SliceTo(SortDesc(Predictions(districts, forecast), AvgIndex), topN)
  {
    var predictions: seq<Prediction> := [];
    for i := 0 to |districts|
      invariant predictions == Predictions(districts[..i], forecast)
    {
      assert districts[..i + 1][..i] == districts[..i];
      var reply := forecast(districts[i]);
      match reply
      case Forecast(vs) =>
        if vs != [] {
          var avg := Mean(vs);
          predictions := predictions + [Prediction(districts[i], avg, GetStatus(avg))];
        }
      case ForecastError(_) =>
    }
    assert districts[..|districts|] == districts;
    var sorted := SortDesc(predictions, AvgIndex);
    r := SliceTo(sorted, topN);
  }

  /** The list is a descending prefix of all predictions: at most topN
      long, each marked with its own status, and no prediction left out
      is above one kept. */
  lemma TopGrowthLargest(districts: seq<string>, forecast: string -> ForecastReply, topN: nat)
    ensures var r := SliceTo(SortDesc(Predictions(districts, forecast), AvgIndex), topN);
      |r| <= topN
      && SortedDesc(r, AvgIndex)
      && multiset(r) <= multiset(Predictions(districts, forecast))
      && (forall p :: p in r ==> p.status == GetStatus(p.predictedAvgIndex))
      && (forall x, i :: x in multiset(Predictions(districts, forecast)) - multiset(r) && 0 <= i < |r| ==>
            x.predictedAvgIndex <= r[i].predictedAvgIndex)
  {
    var ps := Predictions(districts, forecast);
    TakeSortedLargest(ps, AvgIndex, topN);
    var r := Take(SortDesc(ps, AvgIndex), topN);
    forall p | p in r
      ensures p.status == GetStatus(p.predictedAvgIndex)
    {
      assert p in multiset(ps);
    }
  }
}
