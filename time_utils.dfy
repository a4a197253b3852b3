/** Time span of a dataset (backend/app/services/time_utils.py). Dates are
    day numbers; a date that does not parse is `None`. */
module TimeUtils {
  import opened Common

  /** The dates that parsed, in order. */
  function Parsed(dates: seq<Option<int>>): (r: seq<int>)
    ensures forall d :: d in r <==> Some(d) in dates
  {
    if dates == [] then []
    else
      var n := |dates| - 1;
      assert forall x :: x in dates <==> x in dates[..n] || x == dates[n] by {
        assert dates == dates[..n] + [dates[n]];
      }
      if dates[n].Some? then Parsed(dates[..n]) + [dates[n].value] else Parsed(dates[..n])
  }

  function MinOf(s: seq<int>): (m: int)
    requires s != []
    ensures m in s && forall x :: x in s ==> m <= x
  {
    if |s| == 1 then s[0]
    else
      var m := MinOf(s[1..]);
      assert s == [s[0]] + s[1..];
      if s[0] <= m then s[0] else m
  }

  function MaxOf(s: seq<int>): (m: int)
    requires s != []
    ensures m in s && forall x :: x in s ==> x <= m
  {
    if |s| == 1 then s[0]
    else
      var m := MaxOf(s[1..]);
      assert s == [s[0]] + s[1..];
      if s[0] >= m then s[0] else m
  }

  /** `get_time_span_days`: 0 when no date parses, otherwise the number of
      days from the earliest to the latest date, both included. */
  function TimeSpanDays(dates: seq<Option<int>>): (d: int)
    ensures (forall x :: x in dates ==> x.None?) <==> d == 0
    ensures d >= 0
    ensures d > 0 ==> exists lo, hi ::
      Some(lo) in dates && Some(hi) in dates && d == hi - lo + 1
      && forall x :: Some(x) in dates ==> lo <= x <= hi
  {
    var p := Parsed(dates);
    if p == [] then 0
    else
      var lo := MinOf(p);
      var hi := MaxOf(p);
      assert Some(lo) in dates && Some(hi) in dates;
      hi - lo + 1
  }

  /** Dates that do not parse are ignored. */
  lemma TimeSpanIgnoresUnparsed(a: seq<Option<int>>, b: seq<Option<int>>)
    ensures TimeSpanDays(a + [None] + b) == TimeSpanDays(a + b)
  {
    var s, t := a + [None] + b, a + b;
    forall d
      ensures d in Parsed(s) <==> d in Parsed(t)
    {
      assert Some(d) in s <==> Some(d) in t;
    }
    SpanDeterminedByParsed(s, t);
  }

  /** The span depends only on which dates parse. */
  lemma SpanDeterminedByParsed(s: seq<Option<int>>, t: seq<Option<int>>)
    requires forall d :: d in Parsed(s) <==> d in Parsed(t)
    ensures TimeSpanDays(s) == TimeSpanDays(t)
  {
    var ps, pt := Parsed(s), Parsed(t);
    if ps != [] { assert ps[0] in ps; }
    if pt != [] { assert pt[0] in pt; }
    if ps != [] && pt != [] {
      assert MinOf(ps) in pt && MinOf(pt) in ps;
      assert MaxOf(ps) in pt && MaxOf(pt) in ps;
    }
  }

  /** A dataset whose parsed dates all fall on one day spans one day. */
  lemma TimeSpanSingleDay(dates: seq<Option<int>>, day: int)
    requires Some(day) in dates
    requires forall x :: Some(x) in dates ==> x == day
    ensures TimeSpanDays(dates) == 1
  {
  }
}
