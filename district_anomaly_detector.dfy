/** Near-duplicate district names within a state
    (backend/app/services/district_anomaly_detector.py). String similarity
    is not modelled: `get_close_matches` and `SequenceMatcher.ratio` are
    oracle parameters. */
module DistrictAnomalyDetector {
  import opened Common

  /** `difflib.get_close_matches(a, candidates, n=5, cutoff=c)`. */
  type Matcher = (string, seq<string>, real) -> seq<string>

  /** `difflib.SequenceMatcher(None, a, b).ratio()`. */
  type Scorer = (string, string) -> real

  /** What `get_close_matches` guarantees: at most `n` = 5 names, each taken
      from the candidates. */
  ghost predicate MatcherSound(closeMatches: Matcher)
  {
    forall a, cs, c :: |closeMatches(a, cs, c)| <= 5
      && forall x :: x in closeMatches(a, cs, c) ==> x in cs
  }

  /** Python's `round(x, 3)`, half-up on exact reals. */
  function Round3(x: real): (r: real)
    ensures x - 0.0005 < r <= x + 0.0005
  {
    var y := x * 1000.0;
    var k := RoundHalfUp(y);
    var r := k as real / 1000.0;
    assert r * 1000.0 == k as real;
    r
  }

  datatype Pair = Pair(districtA: string, districtB: string, similarity: real)

  // ---------------------------------------------------------------------
  // _pairwise_similarities
  // ---------------------------------------------------------------------

  /** The pairs found for `names[i]`, against the names after it. */
  function PairsOf(names: seq<string>, i: nat, cutoff: real, closeMatches: Matcher, score: Scorer): (ps: seq<Pair>)
    requires i < |names|
    ensures |ps| == |closeMatches(names[i], names[i + 1..], cutoff)|
  {
    var a := names[i];
    var ms := closeMatches(a, names[i + 1..], cutoff);
    seq(|ms|, k requires 0 <= k < |ms| => Pair(a, ms[k], Round3(score(a, ms[k]))))
  }

  /** The pairs found for the first `m` names, in order. */
  function PairsUpTo(names: seq<string>, m: nat, cutoff: real, closeMatches: Matcher, score: Scorer): seq<Pair>
    requires m <= |names|
  {
    if m == 0 then []
    else PairsUpTo(names, m - 1, cutoff, closeMatches, score) + PairsOf(names, m - 1, cutoff, closeMatches, score)
  }

  function Pairs(names: seq<string>, cutoff: real, closeMatches: Matcher, score: Scorer): seq<Pair>
  {
    PairsUpTo(names, |names|, cutoff, closeMatches, score)
  }

  /** `_pairwise_similarities`: the nested loops appending to `results`. */
  method PairwiseSimilarities(names: seq<string>, cutoff: real, closeMatches: Matcher, score: Scorer)
    returns (results: seq<Pair>)
    ensures results == Pairs(names, cutoff, closeMatches, score)
  {
    results := [];
    var i := 0;
    while i < |names|
      invariant 0 <= i <= |names|
      invariant results == PairsUpTo(names, i, cutoff, closeMatches, score)
    {
      var a := names[i];
      var matches := closeMatches(a, names[i + 1..], cutoff);
      ghost var before := results;
      ghost var these := PairsOf(names, i, cutoff, closeMatches, score);
      var k := 0;
      while k < |matches|
        invariant 0 <= k <= |matches|
        invariant results == before + these[..k]
      {
        var b := matches[k];
        assert these[..k + 1] == these[..k] + [Pair(a, b, Round3(score(a, b)))];
        results := results + [Pair(a, b, Round3(score(a, b)))];
        k := k + 1;
      }
      assert these[..k] == these;
      i := i + 1;
    }
  }

  /** Every pair of the first `m` names joins a name to a later name. */
  lemma {:induction false} PairsUpToOrdered(names: seq<string>, m: nat, cutoff: real, closeMatches: Matcher, score: Scorer)
    requires m <= |names|
    requires MatcherSound(closeMatches)
    requires StrictlySorted(names)
    ensures forall p :: p in PairsUpTo(names, m, cutoff, closeMatches, score) ==> Less(p.districtA, p.districtB)
  {
    if m > 0 {
      PairsUpToOrdered(names, m - 1, cutoff, closeMatches, score);
      var i := m - 1;
      var ps := PairsOf(names, i, cutoff, closeMatches, score);
      var ms := closeMatches(names[i], names[i + 1..], cutoff);
      forall p | p in ps
        ensures Less(p.districtA, p.districtB)
      {
        var k :| 0 <= k < |ps| && ps[k] == p;
        assert ms[k] in ms;
        assert ms[k] in names[i + 1..];
        var j :| 0 <= j < |names[i + 1..]| && names[i + 1..][j] == ms[k];
        assert names[i + 1 + j] == p.districtB;
      }
    }
  }

  /** For sorted distinct names, every pair has `district_a < district_b`,
      so there are no self-pairs. */
  lemma PairsOrdered(names: seq<string>, cutoff: real, closeMatches: Matcher, score: Scorer)
    requires MatcherSound(closeMatches)
    requires StrictlySorted(names)
    ensures forall p :: p in Pairs(names, cutoff, closeMatches, score) ==>
      Less(p.districtA, p.districtB) && p.districtA != p.districtB
  {
    PairsUpToOrdered(names, |names|, cutoff, closeMatches, score);
    forall p | p in Pairs(names, cutoff, closeMatches, score)
      ensures p.districtA != p.districtB
    {
      if p.districtA == p.districtB {
        LessIrreflexive(p.districtA);
      }
    }
  }

  /** The number of pairs whose first name is `a`. */
  function CountFirst(ps: seq<Pair>, a: string): nat
  {
    if ps == [] then 0
    else CountFirst(ps[..|ps| - 1], a) + (if ps[|ps| - 1].districtA == a then 1 else 0)
  }

  lemma {:induction false} CountFirstAppend(x: seq<Pair>, y: seq<Pair>, a: string)
    ensures CountFirst(x + y, a) == CountFirst(x, a) + CountFirst(y, a)
  {
    if y != [] {
      var n := |y| - 1;
      assert (x + y)[..|x + y| - 1] == x + y[..n];
      CountFirstAppend(x, y[..n], a);
    } else {
      assert x + y == x;
    }
  }

  /** The pairs of `names[i]` all start with `names[i]`. */
  lemma {:induction false} CountFirstOf(names: seq<string>, i: nat, cutoff: real, closeMatches: Matcher, score: Scorer, a: string, k: nat)
    requires i < |names|
    requires k <= |PairsOf(names, i, cutoff, closeMatches, score)|
    ensures CountFirst(PairsOf(names, i, cutoff, closeMatches, score)[..k], a) == if a == names[i] then k else 0
  {
    if k > 0 {
      var ps := PairsOf(names, i, cutoff, closeMatches, score);
      assert ps[..k][..k - 1] == ps[..k - 1];
      CountFirstOf(names, i, cutoff, closeMatches, score, a, k - 1);
    }
  }

  lemma {:induction false} AtMostFiveUpTo(names: seq<string>, m: nat, cutoff: real, closeMatches: Matcher, score: Scorer, a: string)
    requires m <= |names|
    requires MatcherSound(closeMatches)
    requires NoDuplicates(names)
    ensures CountFirst(PairsUpTo(names, m, cutoff, closeMatches, score), a) <= if a in names[..m] then 5 else 0
  {
    if m > 0 {
      var i := m - 1;
      AtMostFiveUpTo(names, i, cutoff, closeMatches, score, a);
      var ps := PairsOf(names, i, cutoff, closeMatches, score);
      CountFirstAppend(PairsUpTo(names, i, cutoff, closeMatches, score), ps, a);
      CountFirstOf(names, i, cutoff, closeMatches, score, a, |ps|);
      assert ps[..|ps|] == ps;
      assert names[..m] == names[..i] + [names[i]];
      if a == names[i] {
        assert a !in names[..i];
      }
    }
  }

  /** `n=5`: at most five pairs are produced for any one first name. */
  lemma AtMostFivePerName(names: seq<string>, cutoff: real, closeMatches: Matcher, score: Scorer, a: string)
    requires MatcherSound(closeMatches)
    requires NoDuplicates(names)
    ensures CountFirst(Pairs(names, cutoff, closeMatches, score), a) <= 5
  {
    AtMostFiveUpTo(names, |names|, cutoff, closeMatches, score, a);
  }

  // ---------------------------------------------------------------------
  // Enrichment
  // ---------------------------------------------------------------------

  /** How often `d` occurs. */
  function Occurrences(ds: seq<string>, d: string): (n: nat)
    ensures n > 0 <==> d in ds
    ensures n <= |ds|
  {
    if ds == [] then 0
    else
      var k := |ds| - 1;
      assert ds == ds[..k] + [ds[k]];
      Occurrences(ds[..k], d) + (if ds[k] == d then 1 else 0)
  }

  /** `df["district"].value_counts().to_dict()`. */
  function DistrictCounts(ds: seq<string>): (m: map<string, nat>)
    ensures m.Keys == set d | d in ds
  {
    map d | d in ds :: Occurrences(ds, d)
  }

  /** `max(ca, cb) / max(1, min(ca, cb))`: the larger count over the
      smaller, where a zero count divides by 1. */
  function CountRatio(ca: nat, cb: nat): (r: real)
    ensures r >= 0.0
    ensures ca >= 1 || cb >= 1 ==> r >= 1.0
    ensures ca == 0 || cb == 0 ==> r == (ca + cb) as real
    ensures ca >= 1 && cb >= 1 ==> r * (if ca < cb then ca else cb) as real == (if ca < cb then cb else ca) as real
  {
    var hi := if ca < cb then cb else ca;
    var lo := if ca < cb then ca else cb;
    var den := if lo < 1 then 1 else lo;
    RatioOfCounts(hi, den);
    hi as real / den as real
  }

  lemma RatioOfCounts(hi: nat, den: nat)
    requires den >= 1
    ensures hi as real / den as real >= 0.0
    ensures hi as real / den as real * den as real == hi as real
    ensures hi >= den ==> hi as real / den as real >= 1.0
  {
    var q := hi as real / den as real;
    assert q * den as real == hi as real;
    if hi >= den && q < 1.0 {
      assert q * den as real < den as real;
    }
  }

  lemma CountRatioSymmetric(ca: nat, cb: nat)
    ensures CountRatio(ca, cb) == CountRatio(cb, ca)
  {
  }

  /** `"review"` exactly when the unrounded ratio reaches the threshold. */
  function Recommendation(ratio: real, minCountRatio: real): (rec: string)
    ensures rec == "review" <==> ratio >= minCountRatio
    ensures rec == "check" <==> ratio < minCountRatio
  {
    if ratio >= minCountRatio then "review" else "check"
  }

  datatype Candidate = Candidate(
    districtA: string, districtB: string, similarity: real,
    rowsA: nat, rowsB: nat, countRatio: real, recommendation: string)

  /** `counts.get(name, 0)`. */
  function CountOf(counts: map<string, nat>, name: string): nat
  {
    if name in counts then counts[name] else 0
  }

  function Enrich(p: Pair, counts: map<string, nat>, minCountRatio: real): Candidate
  {
    var ca, cb := CountOf(counts, p.districtA), CountOf(counts, p.districtB);
    var ratio := CountRatio(ca, cb);
    Candidate(p.districtA, p.districtB, p.similarity, ca, cb, Round2(ratio), Recommendation(ratio, minCountRatio))
  }

  /** The enrichment loop appending to `enriched`. */
  method EnrichPairs(pairs: seq<Pair>, counts: map<string, nat>, minCountRatio: real)
    returns (enriched: seq<Candidate>)
    ensures |enriched| == |pairs|
    ensures forall i :: 0 <= i < |pairs| ==> enriched[i] == Enrich(pairs[i], counts, minCountRatio)
  {
    enriched := [];
    var i := 0;
    while i < |pairs|
      invariant 0 <= i <= |pairs|
      invariant |enriched| == i
      invariant forall j :: 0 <= j < i ==> enriched[j] == Enrich(pairs[j], counts, minCountRatio)
    {
      var p := pairs[i];
      var ca := CountOf(counts, p.districtA);
      var cb := CountOf(counts, p.districtB);
      var ratio := CountRatio(ca, cb);
      enriched := enriched + [Candidate(p.districtA, p.districtB, p.similarity, ca, cb, Round2(ratio),
                                        if ratio >= minCountRatio then "review" else "check")];
      i := i + 1;
    }
  }

  // ---------------------------------------------------------------------
  // detect_district_anomalies
  // ---------------------------------------------------------------------

  /** A row of the cleaned dataset; only its state and district matter. */
  datatype Row = Row(state: string, district: string)

  /** The response. The early returns carry neither the cutoff nor the
      ratio threshold. */
  datatype Report = Report(
    state: string, dataset: string,
    similarityCutoff: Option<real>, minCountRatio: Option<real>,
    potentialDuplicates: seq<Candidate>)

  /** The districts of the rows of `state`, one entry per row. */
  function DistrictsIn(rows: seq<Row>, state: string): (ds: seq<string>)
    ensures forall d :: d in ds <==> exists i :: 0 <= i < |rows| && rows[i].state == state && rows[i].district == d
    ensures ds == [] <==> forall i :: 0 <= i < |rows| ==> rows[i].state != state
  {
    if rows == [] then []
    else
      var n := |rows| - 1;
      var p := DistrictsIn(rows[..n], state);
      assert forall i :: 0 <= i < n ==> rows[..n][i] == rows[i];
      if rows[n].state == state then p + [rows[n].district] else p
  }

  /** The candidates reported for a state that has rows. */
  function Duplicates(ds: seq<string>, cutoff: real, minCountRatio: real, closeMatches: Matcher, score: Scorer): seq<Candidate>
  {
    var counts := DistrictCounts(ds);
    var ps := Pairs(SortedUnique(ds), cutoff, closeMatches, score);
    seq(|ps|, i requires 0 <= i < |ps| => Enrich(ps[i], counts, minCountRatio))
  }

  method DetectDistrictAnomalies(
    state: string, dataset: string, columns: set<string>, rows: seq<Row>,
    similarityCutoff: real, minCountRatio: real, closeMatches: Matcher, score: Scorer)
    returns (r: Report)
    ensures r.state == state && r.dataset == dataset
    ensures "state" !in columns || "district" !in columns ==>
      r == Report(state, dataset, None, None, [])
    ensures "state" in columns && "district" in columns && DistrictsIn(rows, state) == [] ==>
      r == Report(state, dataset, None, None, [])
    ensures "state" in columns && "district" in columns && DistrictsIn(rows, state) != [] ==>
      r == Report(state, dataset, Some(similarityCutoff), Some(minCountRatio),
                  Duplicates(DistrictsIn(rows, state), similarityCutoff, minCountRatio, closeMatches, score))
  {
    if "state" !in columns || "district" !in columns {
      return Report(state, dataset, None, None, []);
    }
    var ds := DistrictsIn(rows, state);
    if ds == [] {
      return Report(state, dataset, None, None, []);
    }
    var counts := DistrictCounts(ds);
    var districts := SortedUnique(ds);
    var pairs := PairwiseSimilarities(districts, similarityCutoff, closeMatches, score);
    var enriched := EnrichPairs(pairs, counts, minCountRatio);
    EnrichedPairsAreDuplicates(ds, pairs, enriched, similarityCutoff, minCountRatio, closeMatches, score);
    r := Report(state, dataset, Some(similarityCutoff), Some(minCountRatio), enriched);
  }

  lemma EnrichedPairsAreDuplicates(ds: seq<string>, pairs: seq<Pair>, enriched: seq<Candidate>,
    cutoff: real, minCountRatio: real, closeMatches: Matcher, score: Scorer)
    requires pairs == Pairs(SortedUnique(ds), cutoff, closeMatches, score)
    requires |enriched| == |pairs|
    requires forall i :: 0 <= i < |pairs| ==> enriched[i] == Enrich(pairs[i], DistrictCounts(ds), minCountRatio)
    ensures enriched == Duplicates(ds, cutoff, minCountRatio, closeMatches, score)
  {
  }

  /** Every reported pair is ordered, `rows_a` and `rows_b` are the two
      names' numbers of rows in the state, and the recommendation follows
      the unrounded ratio of those counts. */
  lemma DuplicatesFaithful(ds: seq<string>, cutoff: real, minCountRatio: real, closeMatches: Matcher, score: Scorer)
    requires MatcherSound(closeMatches)
    ensures forall c :: c in Duplicates(ds, cutoff, minCountRatio, closeMatches, score) ==>
      Less(c.districtA, c.districtB)
      && c.rowsA == Occurrences(ds, c.districtA) && c.rowsA >= 1
      && c.rowsB == Occurrences(ds, c.districtB) && c.rowsB >= 1
      && (c.recommendation == "review" <==> CountRatio(c.rowsA, c.rowsB) >= minCountRatio)
  {
    var names := SortedUnique(ds);
    var ps := Pairs(names, cutoff, closeMatches, score);
    PairsOrdered(names, cutoff, closeMatches, score);
    PairsUpToMembers(names, |names|, cutoff, closeMatches, score);
    var dups := Duplicates(ds, cutoff, minCountRatio, closeMatches, score);
    forall c | c in dups
      ensures Less(c.districtA, c.districtB)
      ensures c.rowsA == Occurrences(ds, c.districtA) && c.rowsA >= 1
      ensures c.rowsB == Occurrences(ds, c.districtB) && c.rowsB >= 1
    {
      var i :| 0 <= i < |dups| && dups[i] == c;
      assert ps[i] in ps;
      assert ps[i].districtA in names && ps[i].districtB in names;
    }
  }

  /** Both names of every pair come from the list. */
  lemma {:induction false} PairsUpToMembers(names: seq<string>, m: nat, cutoff: real, closeMatches: Matcher, score: Scorer)
    requires m <= |names|
    requires MatcherSound(closeMatches)
    ensures forall p :: p in PairsUpTo(names, m, cutoff, closeMatches, score) ==> p.districtA in names && p.districtB in names
  {
    if m > 0 {
      PairsUpToMembers(names, m - 1, cutoff, closeMatches, score);
      var i := m - 1;
      var ps := PairsOf(names, i, cutoff, closeMatches, score);
      var ms := closeMatches(names[i], names[i + 1..], cutoff);
      forall p | p in ps
        ensures p.districtA in names && p.districtB in names
      {
        var k :| 0 <= k < |ps| && ps[k] == p;
        assert ms[k] in ms;
        assert ms[k] in names[i + 1..];
      }
    }
  }

  /** At most five reported candidates share a first name. */
  lemma DuplicatesAtMostFive(ds: seq<string>, cutoff: real, minCountRatio: real, closeMatches: Matcher, score: Scorer, a: string)
    requires MatcherSound(closeMatches)
    ensures |set i | 0 <= i < |Duplicates(ds, cutoff, minCountRatio, closeMatches, score)|
                  && Duplicates(ds, cutoff, minCountRatio, closeMatches, score)[i].districtA == a| <= 5
  {
    var names := SortedUnique(ds);
    var ps := Pairs(names, cutoff, closeMatches, score);
    SortedStrictNoDuplicates(names);
    AtMostFivePerName(names, cutoff, closeMatches, score, a);
    CountFirstIndices(ps, a);
    var dups := Duplicates(ds, cutoff, minCountRatio, closeMatches, score);
    assert (set i | 0 <= i < |dups| && dups[i].districtA == a) == (set i | 0 <= i < |ps| && ps[i].districtA == a);
  }

  lemma SortedStrictNoDuplicates(s: seq<string>)
    requires StrictlySorted(s)
    ensures NoDuplicates(s)
  {
    forall i, j | 0 <= i < j < |s|
      ensures s[i] != s[j]
    {
      if s[i] == s[j] {
        LessIrreflexive(s[i]);
      }
    }
  }

  /** `CountFirst` counts the indices holding the name. */
  lemma {:induction false} CountFirstIndices(ps: seq<Pair>, a: string)
    ensures |set i | 0 <= i < |ps| && ps[i].districtA == a| == CountFirst(ps, a)
  {
    if ps != [] {
      var n := |ps| - 1;
      var p := ps[..n];
      CountFirstIndices(p, a);
      var before := set i | 0 <= i < |p| && p[i].districtA == a;
      var all := set i | 0 <= i < |ps| && ps[i].districtA == a;
      if ps[n].districtA == a {
        assert all == before + {n};
      } else {
        assert all == before;
      }
    }
  }
}
