/** National insight generation (backend/app/services/insight_engine.py):
    service composition, demand concentration, state activity spread,
    capacity signal, the month-over-month trend and the risk flags. */
module InsightEngine {
  import opened Common
  import opened StationEstimator

  // ---------------------------------------------------------------------
  // Helpers
  // ---------------------------------------------------------------------

  /** `_safe_div`: 0 when the denominator is 0, the quotient otherwise. */
  function SafeDiv(n: real, d: real): (r: real)
    ensures d == 0.0 ==> r == 0.0
    ensures d != 0.0 ==> r * d == n
  {
    if d != 0.0 then n / d else 0.0
  }

  /** `_calculate_state_service_load`, written out with its seven weights;
      it is the canonical service load. */
  function StateServiceLoad(state: map<string, real>): (r: real)
    ensures r == ServiceLoad(state)
  {
    ServiceLoadFormula(state);
    1.2 * Get(state, "age_0_5")
    + 1.1 * Get(state, "age_5_17")
    + 1.0 * Get(state, "age_18_greater")
    + 0.8 * Get(state, "bio_age_5_17")
    + 1.0 * Get(state, "bio_age_17_")
    + 0.6 * Get(state, "demo_age_5_17")
    + 0.7 * Get(state, "demo_age_17_")
  }

  // ---------------------------------------------------------------------
  // Monthly buckets
  // ---------------------------------------------------------------------

  /** The `date` field of a state record: absent, present but not an ISO
      date, or a date of which only the year and month matter here. */
  datatype DateField = NoDate | BadDate | Date(year: Year, month: Month)

  /** The years and months `datetime.fromisoformat` can yield. */
  type Year = y: int | 1 <= y <= 9999 witness 1
  type Month = m: int | 1 <= m <= 12 witness 1

  /** One element of `state_data`. */
  datatype StateRecord = StateRecord(state: Option<string>, date: DateField, counts: map<string, real>)

  /** The bucket key `f"{year}-{month:02d}"`, as the number year * 100 +
      month. */
  function MonthKey(year: Year, month: Month): int
  {
    year * 100 + month
  }

  /** Keys are ordered as their months are in time, which is also the
      order of the source's strings for four-digit years, so two months
      share a key only when they are the same month. */
  lemma MonthKeyChronological(y1: Year, m1: Month, y2: Year, m2: Month)
    ensures MonthKey(y1, m1) < MonthKey(y2, m2) <==> y1 < y2 || (y1 == y2 && m1 < m2)
    ensures MonthKey(y1, m1) == MonthKey(y2, m2) <==> y1 == y2 && m1 == m2
  {
    if y1 < y2 {
      assert MonthKey(y1, m1) <= y1 * 100 + 12 < (y1 + 1) * 100 + 1 <= MonthKey(y2, m2);
    } else if y2 < y1 {
      assert MonthKey(y2, m2) <= y2 * 100 + 12 < (y2 + 1) * 100 + 1 <= MonthKey(y1, m1);
    }
  }

  /** `_bucket_by_month` as a function: the load of every dated record is
      added to its month's bucket; records without a usable date are
      skipped. */
  function Buckets(records: seq<StateRecord>): map<int, real>
  {
    if records == [] then map[]
    else
      var prev := Buckets(records[..|records| - 1]);
      var r := records[|records| - 1];
      if r.date.Date? then
        var k := MonthKey(r.date.year, r.date.month);
        prev[k := (if k in prev then prev[k] else 0.0) + StateServiceLoad(r.counts)]
      else prev
  }

  /** `_bucket_by_month`: the loop over the records. */
  method BucketByMonth(records: seq<StateRecord>) returns (buckets: map<int, real>)
    ensures buckets == Buckets(records)
  {
    buckets := map[];
    var i := 0;
    while i < |records|
      invariant 0 <= i <= |records|
      invariant buckets == Buckets(records[..i])
    {
      assert records[..i + 1][..i] == records[..i];
      var r := records[i];
      if r.date.Date? {
        var k := MonthKey(r.date.year, r.date.month);
        var before := if k in buckets then buckets[k] else 0.0;
        buckets := buckets[k := before + StateServiceLoad(r.counts)];
      }
      i := i + 1;
    }
    assert records[..i] == records;
  }

  /** The load of the records dated in month `k`. */
  function MonthLoad(r: StateRecord, k: int): real
  {
    if r.date.Date? && MonthKey(r.date.year, r.date.month) == k then ServiceLoad(r.counts) else 0.0
  }

  /** Every bucket is the month of some dated record, every dated record has
      a bucket, and a bucket holds the total load of its month's records. */
  lemma {:induction false} BucketsAreMonthTotals(records: seq<StateRecord>, k: int)
    ensures k in Buckets(records) <==>
      exists i :: 0 <= i < |records| && records[i].date.Date? && MonthKey(records[i].date.year, records[i].date.month) == k
    ensures k in Buckets(records) ==> Buckets(records)[k] == SumBy(records, r => MonthLoad(r, k))
    ensures k !in Buckets(records) ==> SumBy(records, r => MonthLoad(r, k)) == 0.0
  {
    if records != [] {
      var n := |records| - 1;
      var p := records[..n];
      BucketsAreMonthTotals(p, k);
      assert forall i :: 0 <= i < n ==> records[i] == p[i];
    }
  }

  // ---------------------------------------------------------------------
  // A. Service composition
  // ---------------------------------------------------------------------

  /** `national_data.get(group, {}).get(col, 0)`. */
  function Nested(national: map<string, map<string, real>>, group: string, col: string): real
  {
    if group in national then Get(national[group], col) else 0.0
  }

  function EnrolTotal(n: map<string, map<string, real>>): real
  {
    Nested(n, "enrolment", "age_0_5") + Nested(n, "enrolment", "age_5_17") + Nested(n, "enrolment", "age_18_greater")
  }

  function BioTotal(n: map<string, map<string, real>>): real
  {
    Nested(n, "biometric_update", "bio_age_5_17") + Nested(n, "biometric_update", "bio_age_17_")
  }

  function DemoTotal(n: map<string, map<string, real>>): real
  {
    Nested(n, "demographic_update", "demo_age_5_17") + Nested(n, "demographic_update", "demo_age_17_")
  }

  /** A service's share of the grand total, in percent, before rounding. */
  function Share(part: real, total: real): real
  {
    SafeDiv(part, total) * 100.0
  }

  /** A part of a non-negative total has a share between 0 and 100. */
  lemma ShareBounded(part: real, total: real)
    requires 0.0 <= part <= total
    ensures 0.0 <= Share(part, total) <= 100.0
  {
    if total != 0.0 {
      var q := part / total;
      assert q * total == part;
    }
  }

  /** With no activity at all every share is 0; otherwise the unrounded
      shares of non-negative totals lie in [0, 100] and add up to 100. */
  lemma SharesPartition(e: real, b: real, d: real)
    requires e >= 0.0 && b >= 0.0 && d >= 0.0
    ensures e + b + d == 0.0 ==> Share(e, e + b + d) == 0.0 && Share(b, e + b + d) == 0.0 && Share(d, e + b + d) == 0.0
    ensures e + b + d != 0.0 ==> Share(e, e + b + d) + Share(b, e + b + d) + Share(d, e + b + d) == 100.0
    ensures 0.0 <= Share(e, e + b + d) <= 100.0
    ensures 0.0 <= Share(b, e + b + d) <= 100.0
    ensures 0.0 <= Share(d, e + b + d) <= 100.0
  {
    var t := e + b + d;
    ShareBounded(e, t);
    ShareBounded(b, t);
    ShareBounded(d, t);
    if t != 0.0 {
      assert e / t + b / t + d / t == t / t;
    }
  }

  /** The three rounded shares, in the dictionary's order. */
  datatype Shares = Shares(enrolment: real, biometricUpdate: real, demographicUpdate: real)

  function ServiceShares(national: map<string, map<string, real>>): Shares
  {
    var e, b, d := EnrolTotal(national), BioTotal(national), DemoTotal(national);
    var t := e + b + d;
    Shares(Round2(Share(e, t)), Round2(Share(b, t)), Round2(Share(d, t)))
  }

  /** `max(service_shares, key=service_shares.get)`: the service with the
      largest share, the earliest key winning a tie. */
  function DominantService(s: Shares): (name: string)
    ensures name == "Enrolment" <==> s.enrolment >= s.biometricUpdate && s.enrolment >= s.demographicUpdate
    ensures name == "Biometric Update" <==>
      s.biometricUpdate > s.enrolment && s.biometricUpdate >= s.demographicUpdate
    ensures name == "Demographic Update" <==>
      s.demographicUpdate > s.enrolment && s.demographicUpdate > s.biometricUpdate
  {
    var first := ("Enrolment", s.enrolment);
    var second := if s.biometricUpdate > first.1 then ("Biometric Update", s.biometricUpdate) else first;
    if s.demographicUpdate > second.1 then "Demographic Update" else second.0
  }

  /** `service_shares[dominant_service]`. */
  function ShareOf(s: Shares, name: string): real
  {
    if name == "Enrolment" then s.enrolment
    else if name == "Biometric Update" then s.biometricUpdate
    else s.demographicUpdate
  }

  /** The dominant service's share is at least each of the others. */
  lemma DominantIsLargest(s: Shares)
    ensures ShareOf(s, DominantService(s)) >= s.enrolment
    ensures ShareOf(s, DominantService(s)) >= s.biometricUpdate
    ensures ShareOf(s, DominantService(s)) >= s.demographicUpdate
  {
  }

  // ---------------------------------------------------------------------
  // B. Demand concentration
  // ---------------------------------------------------------------------

  datatype StateLoad = StateLoad(state: Option<string>, load: real)

  function LoadOf(s: StateLoad): real { s.load }

  function StateLoads(states: seq<StateRecord>): (r: seq<StateLoad>)
    ensures |r| == |states|
    ensures forall i :: 0 <= i < |r| ==> r[i] == StateLoad(states[i].state, ServiceLoad(states[i].counts))
  {
    seq(|states|, i requires 0 <= i < |states| => StateLoad(states[i].state, StateServiceLoad(states[i].counts)))
  }

  /** `state_loads.sort(key=lambda x: x["load"], reverse=True)`. */
  function SortedLoads(loads: seq<StateLoad>): (r: seq<StateLoad>)
    ensures SortedDesc(r, LoadOf) && multiset(r) == multiset(loads) && |r| == |loads|
  {
    SortDesc(loads, LoadOf)
  }

  /** `top_3`: the first three of the sorted loads. */
  function Top3(loads: seq<StateLoad>): seq<StateLoad>
  {
    Take(SortedLoads(loads), 3)
  }

  /** The top three are the largest loads: none of the states left out has a
      larger load than any of them, and they are the whole list when there
      are three states or fewer. */
  lemma Top3AreLargest(loads: seq<StateLoad>)
    ensures |Top3(loads)| == if |loads| < 3 then |loads| else 3
    ensures multiset(Top3(loads)) <= multiset(loads)
    ensures forall i, j :: 0 <= i < |Top3(loads)| && 3 <= j < |SortedLoads(loads)| ==>
      Top3(loads)[i].load >= SortedLoads(loads)[j].load
  {
    var s := SortedLoads(loads);
    if |s| > 3 {
      assert s == s[..3] + s[3..];
      assert multiset(s) == multiset(s[..3]) + multiset(s[3..]);
    }
  }

  /** `top_3_states`: the names of the top three. */
  function Top3States(loads: seq<StateLoad>): (names: seq<Option<string>>)
    ensures |names| == |Top3(loads)| && |names| <= 3
    ensures forall i :: 0 <= i < |names| ==> names[i] == Top3(loads)[i].state
  {
    var top := Top3(loads);
    seq(|top|, i requires 0 <= i < |top| => top[i].state)
  }

  /** `top_3_share`, before rounding. */
  function Top3ShareRaw(loads: seq<StateLoad>): real
  {
    Share(SumBy(Top3(loads), LoadOf), SumBy(loads, LoadOf))
  }

  /** For non-negative loads the top-three share lies in [0, 100]. */
  lemma Top3ShareBounded(loads: seq<StateLoad>)
    requires forall i :: 0 <= i < |loads| ==> loads[i].load >= 0.0
    ensures 0.0 <= Top3ShareRaw(loads) <= 100.0
  {
    var s := SortedLoads(loads);
    assert forall i :: 0 <= i < |s| ==> s[i].load >= 0.0 by {
      forall i | 0 <= i < |s|
        ensures s[i].load >= 0.0
      {
        assert s[i] in multiset(loads);
      }
    }
    SumByPermutation(s, loads, LoadOf);
    var n := if |s| < 3 then |s| else 3;
    assert Top3(loads) == s[..n];
    SumByPrefix(s, n, LoadOf);
    SumByNonNegative(s[..n], LoadOf);
    ShareBounded(SumBy(s[..n], LoadOf), SumBy(loads, LoadOf));
  }

  /** `"HIGH_CONCENTRATION" if top_3_share > 45 else "BALANCED"`. */
  function ConcentrationFlag(top3Share: real): (f: string)
    ensures f == "HIGH_CONCENTRATION" <==> top3Share > 45.0
    ensures f == "BALANCED" <==> top3Share <= 45.0
  {
    if top3Share > 45.0 then "HIGH_CONCENTRATION" else "BALANCED"
  }

  // ---------------------------------------------------------------------
  // C. State activity spread
  // ---------------------------------------------------------------------

  /** The states whose load is at least half the average. */
  function ActiveStates(loads: seq<StateLoad>, avg: real): (r: seq<StateLoad>)
    ensures |r| <= |loads|
    ensures forall x :: x in r <==> x in loads && x.load >= 0.5 * avg
  {
    if loads == [] then []
    else
      var n := |loads| - 1;
      assert forall x :: x in loads <==> x in loads[..n] || x == loads[n] by {
        assert loads == loads[..n] + [loads[n]];
      }
      if loads[n].load >= 0.5 * avg then ActiveStates(loads[..n], avg) + [loads[n]] else ActiveStates(loads[..n], avg)
  }

  function AverageLoad(loads: seq<StateLoad>): real
  {
    SafeDiv(SumBy(loads, LoadOf), |loads| as real)
  }

  /** Some element is at least the average of a non-empty sequence. */
  lemma {:induction false} SomeAtLeastAverage(loads: seq<StateLoad>)
    requires loads != []
    ensures exists i :: 0 <= i < |loads| && loads[i].load * |loads| as real >= SumBy(loads, LoadOf)
  {
    var n := |loads| - 1;
    if n == 0 {
      assert loads[..0] == [];
      assert SumBy(loads, LoadOf) == loads[0].load;
      assert loads[0].load * |loads| as real >= SumBy(loads, LoadOf);
    } else {
      var p := loads[..n];
      SomeAtLeastAverage(p);
      var i :| 0 <= i < |p| && p[i].load * |p| as real >= SumBy(p, LoadOf);
      var m := n as real;
      var last := loads[n].load;
      var s := SumBy(p, LoadOf);
      assert SumBy(loads, LoadOf) == s + last;
      assert |loads| as real == m + 1.0;
      AverageStep(p[i].load, last, m, s);
      if last * (m + 1.0) >= s + last {
        assert loads[n].load * |loads| as real >= SumBy(loads, LoadOf);
      } else {
        assert loads[i] == p[i];
        assert loads[i].load * |loads| as real >= SumBy(loads, LoadOf);
      }
    }
  }

  /** If `a` reaches the average of `m` numbers, then `a` or the next
      number `last` reaches the average of all `m + 1`. */
  lemma AverageStep(a: real, last: real, m: real, s: real)
    requires m > 0.0 && a * m >= s
    ensures a * (m + 1.0) >= s + last || last * (m + 1.0) >= s + last
  {
    if last * (m + 1.0) < s + last {
      assert last * (m + 1.0) == last * m + last;
      MulCancel(a, last, m);
      assert a * (m + 1.0) == a * m + a;
    }
  }

  /** Multiplying by a positive number keeps a strict order. */
  lemma MulCancel(x: real, y: real, m: real)
    requires m > 0.0 && y * m < x * m
    ensures y < x
  {
  }

  lemma MulStrict(y: real, x: real, m: real)
    requires m > 0.0 && y < x
    ensures y * m < x * m
  {
  }

  /** For non-negative loads at least one state is active, so a non-empty
      list never gets an active ratio of 0. */
  lemma SomeStateActive(loads: seq<StateLoad>)
    requires loads != []
    requires forall i :: 0 <= i < |loads| ==> loads[i].load >= 0.0
    ensures |ActiveStates(loads, AverageLoad(loads))| >= 1
  {
    SomeAtLeastAverage(loads);
    var i :| 0 <= i < |loads| && loads[i].load * |loads| as real >= SumBy(loads, LoadOf);
    SumByNonNegative(loads, LoadOf);
    var avg := AverageLoad(loads);
    AtLeastQuotient(loads[i].load, SumBy(loads, LoadOf), |loads| as real);
    assert loads[i] in loads;
    assert loads[i] in ActiveStates(loads, avg);
  }

  /** A number whose multiple by m reaches a non-negative total is at least
      the total's quotient by m, and so at least half of it. */
  lemma AtLeastQuotient(x: real, total: real, m: real)
    requires m > 0.0 && total >= 0.0 && x * m >= total
    ensures x >= 0.5 * SafeDiv(total, m)
  {
    var q := total / m;
    assert q * m == total;
    if x < q {
      MulStrict(x, q, m);
    }
  }

  /** The spread label of the active ratio. */
  function SpreadLabel(activeRatio: real): (spread: string)
    ensures spread == "Broad" <==> activeRatio >= 0.7
    ensures spread == "Moderate" <==> 0.4 <= activeRatio < 0.7
    ensures spread == "Narrow" <==> activeRatio < 0.4
  {
    if activeRatio >= 0.7 then "Broad"
    else if activeRatio >= 0.4 then "Moderate"
    else "Narrow"
  }

  // ---------------------------------------------------------------------
  // D. Capacity planning signal
  // ---------------------------------------------------------------------

  function CapacityHint(index: real): (hint: string)
    ensures hint == "Stable" <==> index < 50000000.0
    ensures hint == "Expansion Required" <==> 50000000.0 <= index < 100000000.0
    ensures hint == "Urgent Scaling Needed" <==> index >= 100000000.0
  {
    if index < 50000000.0 then "Stable"
    else if index < 100000000.0 then "Expansion Required"
    else "Urgent Scaling Needed"
  }

  // ---------------------------------------------------------------------
  // E. Time-aware trend
  // ---------------------------------------------------------------------

  /** Inserts `x` into a strictly increasing sequence unless present. */
  function InsertUnique(s: seq<int>, x: int): (r: seq<int>)
    requires forall i, j :: 0 <= i < j < |s| ==> s[i] < s[j]
    ensures forall i, j :: 0 <= i < j < |r| ==> r[i] < r[j]
    ensures forall y :: y in r <==> y in s || y == x
  {
    if s == [] then [x]
    else if x < s[0] then [x] + s
    else if x == s[0] then s
    else
      var t := InsertUnique(s[1..], x);
      assert s == [s[0]] + s[1..];
      assert forall y :: y in s[1..] ==> s[0] < y;
      ConsIncreasing(s[0], t);
      [s[0]] + t
  }

  /** A head below every element of an increasing tail keeps it increasing. */
  lemma ConsIncreasing(h: int, t: seq<int>)
    requires forall i, j :: 0 <= i < j < |t| ==> t[i] < t[j]
    requires forall y :: y in t ==> h < y
    ensures forall i, j :: 0 <= i < j < |[h] + t| ==> ([h] + t)[i] < ([h] + t)[j]
  {
    var r := [h] + t;
    forall i, j | 0 <= i < j < |r|
      ensures r[i] < r[j]
    {
      assert r[j] == t[j - 1];
      if i > 0 {
        assert r[i] == t[i - 1];
      } else {
        assert t[j - 1] in t;
      }
    }
  }

  /** `sorted(keys)` of the keys in `ks`, without repeats. */
  function SortedKeys(ks: seq<int>): (r: seq<int>)
    ensures forall i, j :: 0 <= i < j < |r| ==> r[i] < r[j]
    ensures forall y :: y in r <==> y in ks
  {
    if ks == [] then []
    else
      var n := |ks| - 1;
      assert forall y :: y in ks <==> y in ks[..n] || y == ks[n] by {
        assert ks == ks[..n] + [ks[n]];
      }
      InsertUnique(SortedKeys(ks[..n]), ks[n])
  }

  /** The month keys of the dated records, in order. */
  function MonthKeys(records: seq<StateRecord>): (r: seq<int>)
    ensures forall k :: k in r <==>
      exists i :: 0 <= i < |records| && records[i].date.Date? && MonthKey(records[i].date.year, records[i].date.month) == k
  {
    if records == [] then []
    else
      var n := |records| - 1;
      var p := MonthKeys(records[..n]);
      assert forall i :: 0 <= i < n ==> records[i] == records[..n][i];
      var r := records[n];
      if r.date.Date? then p + [MonthKey(r.date.year, r.date.month)] else p
  }

  /** The months with a bucket, oldest first. */
  function Months(records: seq<StateRecord>): (ms: seq<int>)
    ensures forall i, j :: 0 <= i < j < |ms| ==> ms[i] < ms[j]
    ensures forall k :: k in ms <==> k in Buckets(records)
  {
    var ms := SortedKeys(MonthKeys(records));
    assert forall k :: k in ms <==> k in Buckets(records) by {
      forall k
        ensures k in ms <==> k in Buckets(records)
      {
        BucketsAreMonthTotals(records, k);
      }
    }
    ms
  }

  /** The bucket values in month order. */
  function MonthlyValues(records: seq<StateRecord>): (vs: seq<real>)
    ensures |vs| == |Months(records)|
  {
    var ms := Months(records);
    var b := Buckets(records);
    seq(|ms|, i requires 0 <= i < |ms| => if ms[i] in b then b[ms[i]] else 0.0)
  }

  datatype Trend = Trend(trendType: string, strength: string)

  /** The classification of the quarter-over-quarter change in percent. */
  function ClassifyDelta(delta: real): (t: Trend)
    ensures t.trendType == "INCREASING" <==> delta > 10.0
    ensures t.trendType == "DECREASING" <==> delta < -10.0
    ensures t.trendType == "STABLE" <==> -10.0 <= delta <= 10.0
    ensures t.strength == "STRONG" <==> delta > 20.0 || delta < -20.0
    ensures t.strength == "MODERATE" <==> (10.0 < delta <= 20.0) || (-20.0 <= delta < -10.0)
    ensures t.strength == "WEAK" <==> -10.0 <= delta <= 10.0
  {
    if delta > 10.0 then Trend("INCREASING", if delta > 20.0 then "STRONG" else "MODERATE")
    else if delta < -10.0 then Trend("DECREASING", if delta < -20.0 then "STRONG" else "MODERATE")
    else Trend("STABLE", "WEAK")
  }

  /** The trend insight: insufficient unless the first record carries a date
      field and there are at least six monthly buckets; then the average of
      the last three months against the three before. */
  function TrendInsight(states: seq<StateRecord>): Trend
  {
    if states != [] && states[0].date != NoDate then
      var values := MonthlyValues(states);
      var n := |values|;
      if n >= 6 then
        var recent := (values[n - 3] + values[n - 2] + values[n - 1]) / 3.0;
        var past := (values[n - 6] + values[n - 5] + values[n - 4]) / 3.0;
        ClassifyDelta(SafeDiv(recent - past, past) * 100.0)
      else Trend("INSUFFICIENT_DATA", "NA")
    else Trend("INSUFFICIENT_DATA", "NA")
  }

  /** The trend is only ever derived from a dated first record and at least
      six months of buckets. */
  lemma TrendNeedsSixMonths(states: seq<StateRecord>)
    ensures TrendInsight(states).trendType != "INSUFFICIENT_DATA" ==>
      states != [] && states[0].date != NoDate && |Buckets(states)| >= 6
  {
    if states != [] && states[0].date != NoDate && |MonthlyValues(states)| >= 6 {
      var ms := Months(states);
      assert forall k :: k in ms <==> k in Buckets(states);
      MonthsCount(ms, Buckets(states));
    }
  }

  /** A strictly increasing enumeration of a map's keys has one entry per key. */
  lemma MonthsCount(ms: seq<int>, b: map<int, real>)
    requires forall i, j :: 0 <= i < j < |ms| ==> ms[i] < ms[j]
    requires forall k :: k in ms <==> k in b
    ensures |b| == |ms|
  {
    var ks := set i | 0 <= i < |ms| :: ms[i];
    forall k | k in b
      ensures k in ks
    {
      var i :| 0 <= i < |ms| && ms[i] == k;
    }
    forall k | k in ks
      ensures k in b
    {
      var i :| 0 <= i < |ms| && ms[i] == k;
      assert ms[i] in ms;
    }
    assert ks == b.Keys;
    DistinctCardinality(ms);
  }

  lemma {:induction false} DistinctCardinality(ms: seq<int>)
    requires forall i, j :: 0 <= i < j < |ms| ==> ms[i] < ms[j]
    ensures |set i | 0 <= i < |ms| :: ms[i]| == |ms|
  {
    if ms != [] {
      var n := |ms| - 1;
      DistinctCardinality(ms[..n]);
      var before := set i | 0 <= i < n :: ms[..n][i];
      var all := set i | 0 <= i < |ms| :: ms[i];
      assert all == before + {ms[n]};
      assert ms[n] !in before;
    }
  }

  // ---------------------------------------------------------------------
  // Risk flags and the whole report
  // ---------------------------------------------------------------------

  /** The risk flags, appended in this order. */
  function RiskFlags(top3Share: real, dominant: string, dominantShare: real, hint: string): (flags: seq<string>)
    ensures "HIGH_REGIONAL_CONCENTRATION" in flags <==> top3Share > 45.0
    ensures "BIO_REVERIFICATION_SURGE" in flags <==> dominant == "Biometric Update" && dominantShare > 50.0
    ensures "CAPACITY_STRETCH_RISK" in flags <==> hint != "Stable"
    ensures forall f :: f in flags ==>
      f == "HIGH_REGIONAL_CONCENTRATION" || f == "BIO_REVERIFICATION_SURGE" || f == "CAPACITY_STRETCH_RISK"
    ensures forall i, j :: 0 <= i < j < |flags| ==> FlagRank(flags[i]) < FlagRank(flags[j])
  {
    FlagsDistinct();
    var flags: seq<string> := [];
    var flags := if top3Share > 45.0 then flags + ["HIGH_REGIONAL_CONCENTRATION"] else flags;
    var flags := if dominant == "Biometric Update" && dominantShare > 50.0 then flags + ["BIO_REVERIFICATION_SURGE"] else flags;
    if hint != "Stable" then flags + ["CAPACITY_STRETCH_RISK"] else flags
  }

  lemma FlagsDistinct()
    ensures FlagRank("HIGH_REGIONAL_CONCENTRATION") == 0
    ensures FlagRank("BIO_REVERIFICATION_SURGE") == 1
    ensures FlagRank("CAPACITY_STRETCH_RISK") == 2
  {
    assert "BIO_REVERIFICATION_SURGE"[0] != "HIGH_REGIONAL_CONCENTRATION"[0];
    assert "CAPACITY_STRETCH_RISK"[0] != "HIGH_REGIONAL_CONCENTRATION"[0];
    assert "CAPACITY_STRETCH_RISK"[0] != "BIO_REVERIFICATION_SURGE"[0];
  }

  /** The position of each flag in the order they are appended. */
  function FlagRank(f: string): int
  {
    if f == "HIGH_REGIONAL_CONCENTRATION" then 0
    else if f == "BIO_REVERIFICATION_SURGE" then 1
    else 2
  }

  /** The computed fields of `generate_national_insights` (its commentary
      strings and fixed methodology notes are left out). */
  datatype Insights = Insights(
    shares: Shares,
    dominantService: string,
    sharePercent: real,
    top3States: seq<Option<string>>,
    top3Share: real,
    riskFlag: string,
    activeStates: nat,
    totalStates: nat,
    spread: string,
    loadIndex: real,
    capacityHint: string,
    trend: Trend,
    riskFlags: seq<string>)

  function NationalInsights(national: map<string, map<string, real>>, states: seq<StateRecord>): (r: Insights)
    ensures r.riskFlag == "HIGH_CONCENTRATION" <==> "HIGH_REGIONAL_CONCENTRATION" in r.riskFlags
    ensures r.capacityHint == "Stable" <==> "CAPACITY_STRETCH_RISK" !in r.riskFlags
    ensures |r.top3States| <= 3 && r.totalStates == |states|
    ensures r.activeStates <= r.totalStates
  {
    var shares := ServiceShares(national);
    var dominant := DominantService(shares);
    var loads := StateLoads(states);
    var nationalLoad := SumBy(loads, LoadOf);
    var top3Share := Round2(Top3ShareRaw(loads));
    var active := ActiveStates(SortedLoads(loads), AverageLoad(loads));
    var ratio := SafeDiv(|active| as real, |loads| as real);
    var index := Round2(nationalLoad);
    var hint := CapacityHint(index);
    Insights(
      shares, dominant, ShareOf(shares, dominant),
      Top3States(loads),
      top3Share, ConcentrationFlag(top3Share),
      |active|, |loads|, SpreadLabel(ratio),
      index, hint, TrendInsight(states),
      RiskFlags(top3Share, dominant, ShareOf(shares, dominant), hint))
  }
}
