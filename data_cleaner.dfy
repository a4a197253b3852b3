/** Dataset cleaning (backend/app/services/data_cleaner.py): state-name
    normalisation with its correction log, and the column, district and
    pincode transforms of `clean_common`. The fuzzy matcher
    `difflib.get_close_matches` is an oracle parameter. */
module DataCleaner {
  import opened Common

  /** `CANONICAL_STATES`. */
  const CanonicalStates: seq<string> := [
    "Andhra Pradesh", "Arunachal Pradesh", "Assam", "Bihar", "Chhattisgarh",
    "Goa", "Gujarat", "Haryana", "Himachal Pradesh", "Jharkhand",
    "Karnataka", "Kerala", "Madhya Pradesh", "Maharashtra", "Manipur",
    "Meghalaya", "Mizoram", "Nagaland", "Odisha", "Punjab", "Rajasthan",
    "Sikkim", "Tamil Nadu", "Telangana", "Tripura", "Uttar Pradesh",
    "Uttarakhand", "West Bengal",
    "Delhi", "Jammu And Kashmir", "Ladakh", "Puducherry", "Chandigarh",
    "Dadra And Nagar Haveli And Daman And Diu",
    "Andaman And Nicobar Islands", "Lakshadweep"
  ]

  /** `STATE_ALIASES`. */
  const StateAliases: map<string, string> := map[
    "Pondicherry" := "Puducherry",
    "Jammu & Kashmir" := "Jammu And Kashmir",
    "Daman & Diu" := "Daman And Diu",
    "Dadra & Nagar Haveli" := "Dadra And Nagar Haveli",
    "Dadra And Nagar Haveli" := "Dadra And Nagar Haveli And Daman And Diu",
    "Daman And Diu" := "Dadra And Nagar Haveli And Daman And Diu"
  ]

  /** The default `cutoff` of `normalize_state_name`. */
  const DefaultCutoff: real := 0.9

  /** `difflib.get_close_matches(word, CANONICAL_STATES, n=1, cutoff=c)`. */
  type Fuzzy = (string, real) -> seq<string>

  /** What `get_close_matches` with `n=1` guarantees: at most one name, taken
      from the canonical list. */
  ghost predicate FuzzySound(closest: Fuzzy)
  {
    forall w, c :: |closest(w, c)| <= 1 && forall x :: x in closest(w, c) ==> x in CanonicalStates
  }

  // ---------------------------------------------------------------------
  // String transforms
  // ---------------------------------------------------------------------

  /** `str.isdigit()`: non-empty and every character a digit. */
  predicate IsDigits(s: string)
  {
    |s| > 0 && forall i :: 0 <= i < |s| ==> IsDigit(s[i])
  }

  /** `str.title()`, continuing after a character that was (`afterLetter`)
      or was not a letter: a letter becomes upper case when it starts a
      word and lower case otherwise; other characters are kept. */
  function TitleFrom(s: string, afterLetter: bool): (r: string)
    ensures |r| == |s|
    ensures forall i :: 0 <= i < |s| ==> (IsLetter(r[i]) <==> IsLetter(s[i]))
    ensures forall i :: 0 <= i < |s| && !IsLetter(s[i]) ==> r[i] == s[i]
    ensures forall i :: 0 <= i < |s| && IsLetter(s[i]) ==>
      (IsUpper(r[i]) <==> (if i == 0 then !afterLetter else !IsLetter(s[i - 1])))
  {
    if s == [] then []
    else
      var c := s[0];
      var head := if !IsLetter(c) then c else if afterLetter then LowerChar(c) else UpperChar(c);
      var r := [head] + TitleFrom(s[1..], IsLetter(c));
      assert forall i :: 1 <= i < |s| ==> r[i] == TitleFrom(s[1..], IsLetter(c))[i - 1] && s[i] == s[1..][i - 1];
      r
  }

  function Title(s: string): string
  {
    TitleFrom(s, false)
  }

  /** Title-casing twice is title-casing once. */
  lemma {:induction false} TitleFromIdempotent(s: string, afterLetter: bool)
    ensures TitleFrom(TitleFrom(s, afterLetter), afterLetter) == TitleFrom(s, afterLetter)
  {
    if s != [] {
      var t := TitleFrom(s, afterLetter);
      assert t[1..] == TitleFrom(s[1..], IsLetter(s[0]));
      TitleFromIdempotent(s[1..], IsLetter(s[0]));
    }
  }

  /** Title-casing keeps a string of digits, so it stays a string of digits. */
  lemma TitlePreservesDigits(s: string)
    ensures IsDigits(Title(s)) <==> IsDigits(s)
  {
    var t := Title(s);
    forall i | 0 <= i < |s|
      ensures IsDigit(t[i]) <==> IsDigit(s[i])
    {
      if IsLetter(s[i]) {
        assert IsLetter(t[i]);
      }
    }
  }

  /** A column name: stripped, lower-cased, spaces turned into underscores. */
  function CleanColumnName(c: string): (r: string)
    ensures |r| == |Trim(c)|
    ensures ' ' !in r
    ensures forall i :: 0 <= i < |r| ==> !IsUpper(r[i])
    ensures forall i :: 0 <= i < |r| ==> r[i] == '_' || r[i] == LowerChar(Trim(c)[i])
  {
    ReplaceChar(ToLower(Trim(c)), ' ', '_')
  }

  /** The district cleanup: stripped, then title-cased. */
  function CleanDistrict(d: string): string
  {
    Title(Trim(d))
  }

  /** `str.replace(".0", "")`: every non-overlapping ".0", scanning from the
      left, removed. */
  function RemoveDotZero(s: string): (r: string)
    ensures |r| <= |s|
    ensures '.' !in s ==> r == s
  {
    if s == [] then []
    else if |s| >= 2 && s[0] == '.' && s[1] == '0' then RemoveDotZero(s[2..])
    else
      assert '.' !in s ==> '.' !in s[1..];
      [s[0]] + RemoveDotZero(s[1..])
  }

  /** A float pincode loses its ".0" and nothing else. */
  lemma {:induction false} RemoveDotZeroFloat(a: string)
    requires '.' !in a
    ensures RemoveDotZero(a + ".0") == a
  {
    if a == [] {
      assert a + ".0" == ".0";
      assert ".0"[2..] == [];
    } else {
      assert (a + ".0")[1..] == a[1..] + ".0";
      assert '.' !in a[1..];
      RemoveDotZeroFloat(a[1..]);
      assert a == [a[0]] + a[1..];
    }
  }

  /** `str.zfill(width)`: left-padded with '0' to `width`, after a leading
      sign if there is one; strings of `width` or more are unchanged. */
  function ZFill(s: string, width: nat): (r: string)
    ensures |r| == if |s| >= width then |s| else width
    ensures |s| >= width ==> r == s
    ensures !(|s| > 0 && (s[0] == '+' || s[0] == '-')) ==>
      r[|r| - |s|..] == s && forall i :: 0 <= i < |r| - |s| ==> r[i] == '0'
    ensures |s| > 0 && (s[0] == '+' || s[0] == '-') ==>
      r[0] == s[0] && r[|r| - |s| + 1..] == s[1..] && forall i :: 1 <= i <= |r| - |s| ==> r[i] == '0'
  {
    if |s| >= width then s
    else
      var pad := seq(width - |s|, _ => '0');
      if |s| > 0 && (s[0] == '+' || s[0] == '-') then [s[0]] + pad + s[1..] else pad + s
  }

  /** The pincode cleanup: ".0" removed, then padded to six characters. */
  function CleanPincode(p: string): (r: string)
    ensures |r| >= 6
  {
    ZFill(RemoveDotZero(p), 6)
  }

  /** "110001.0" becomes "110001", and a short code is padded with zeros. */
  lemma CleanPincodeOfFloat(a: string)
    requires '.' !in a && forall i :: 0 <= i < |a| ==> IsDigit(a[i])
    ensures CleanPincode(a + ".0") == ZFill(a, 6)
    ensures CleanPincode(a + ".0")[|CleanPincode(a + ".0")| - |a|..] == a
  {
    RemoveDotZeroFloat(a);
  }

  // ---------------------------------------------------------------------
  // normalize_state_name
  // ---------------------------------------------------------------------

  /** The value handed to `normalize_state_name`. */
  datatype Input = Str(s: string) | NotStr

  /** One `corrections` entry; `to` is `None` for `invalid_state`. */
  datatype Correction = Correction(kind: string, from: string, to: Option<string>)

  /** The returned name and the corrections appended by one call. */
  datatype Outcome = Outcome(name: Option<string>, added: seq<Correction>)

  /** The name after title-casing and at most one alias lookup. */
  function Aliased(original: string): string
  {
    var titled := Title(original);
    if titled in StateAliases then StateAliases[titled] else titled
  }

  function Normalize(state: Input, cutoff: real, closest: Fuzzy): Outcome
  {
    match state
    case NotStr => Outcome(None, [])
    case Str(s) =>
      var original := Trim(s);
      if IsDigits(original) then Outcome(None, [Correction("invalid_state", original, None)])
      else
        var titled := Title(original);
        var cleaned := Aliased(original);
        var aliasLog := if titled in StateAliases then [Correction("state_alias", titled, Some(cleaned))] else [];
        var m := closest(cleaned, cutoff);
        if |m| > 0 && m[0] != cleaned then
          Outcome(Some(m[0]), aliasLog + [Correction("state_fuzzy", original, Some(m[0]))])
        else Outcome(Some(cleaned), aliasLog)
  }

  /** A value that is not a string gives None and no correction; an
      all-digit one gives None and exactly one `invalid_state` correction
      from the stripped text; every other string gives a name. */
  lemma NormalizeRejects(state: Input, cutoff: real, closest: Fuzzy)
    ensures state.NotStr? ==> Normalize(state, cutoff, closest) == Outcome(None, [])
    ensures state.Str? && IsDigits(Trim(state.s)) ==>
      Normalize(state, cutoff, closest) == Outcome(None, [Correction("invalid_state", Trim(state.s), None)])
    ensures state.Str? && !IsDigits(Trim(state.s)) ==> Normalize(state, cutoff, closest).name.Some?
    ensures |Normalize(state, cutoff, closest).added| <= 2
  {
  }

  /** Without a fuzzy match different from it, the result is the
      title-cased name after one alias lookup, and an alias substitution is
      logged exactly when one happened. */
  lemma NormalizeWithoutFuzzy(s: string, cutoff: real, closest: Fuzzy)
    requires !IsDigits(Trim(s))
    requires var m := closest(Aliased(Trim(s)), cutoff); m == [] || m[0] == Aliased(Trim(s))
    ensures Normalize(Str(s), cutoff, closest).name == Some(Aliased(Trim(s)))
    ensures Title(Trim(s)) in StateAliases ==>
      Normalize(Str(s), cutoff, closest).added == [Correction("state_alias", Title(Trim(s)), Some(StateAliases[Title(Trim(s))]))]
    ensures Title(Trim(s)) !in StateAliases ==> Normalize(Str(s), cutoff, closest).added == []
  {
  }

  /** A fuzzy candidate different from the cleaned name wins, and its
      correction is logged last, from the stripped original; with a sound
      matcher the result is then a canonical state. */
  lemma NormalizeFuzzy(s: string, cutoff: real, closest: Fuzzy)
    requires !IsDigits(Trim(s))
    requires var m := closest(Aliased(Trim(s)), cutoff); m != [] && m[0] != Aliased(Trim(s))
    ensures var o := Normalize(Str(s), cutoff, closest);
      o.name == Some(closest(Aliased(Trim(s)), cutoff)[0])
      && o.added != [] && o.added[|o.added| - 1] == Correction("state_fuzzy", Trim(s), o.name)
    ensures FuzzySound(closest) ==> Normalize(Str(s), cutoff, closest).name.value in CanonicalStates
  {
    if FuzzySound(closest) {
      var m := closest(Aliased(Trim(s)), cutoff);
      assert m[0] in m;
    }
  }

  /** The alias table is applied once and not chained: "Dadra & Nagar
      Haveli" maps to "Dadra And Nagar Haveli" although that is itself an
      alias key. */
  lemma AliasNotChained(s: string, cutoff: real, closest: Fuzzy)
    requires Title(Trim(s)) == "Dadra & Nagar Haveli"
    requires closest("Dadra And Nagar Haveli", cutoff) == []
    ensures Normalize(Str(s), cutoff, closest).name == Some("Dadra And Nagar Haveli")
    ensures "Dadra And Nagar Haveli" in StateAliases
    ensures StateAliases["Dadra And Nagar Haveli"] != "Dadra And Nagar Haveli"
  {
    TitlePreservesDigits(Trim(s));
    assert !IsDigits("Dadra & Nagar Haveli") by {
      assert !IsDigit("Dadra & Nagar Haveli"[0]);
    }
  }

  /** The corrections list of `clean_common` and `clean_dataset`, which
      `normalize_state_name` appends to. */
  class CorrectionLog {
    var entries: seq<Correction>

    constructor ()
      ensures entries == []
    {
      entries := [];
    }

    /** `normalize_state_name(state, corrections, cutoff)`: the corrections
        are only ever appended to. */
    method NormalizeStateName(state: Input, cutoff: real, closest: Fuzzy) returns (name: Option<string>)
      modifies this
      ensures name == Normalize(state, cutoff, closest).name
      ensures entries == old(entries) + Normalize(state, cutoff, closest).added
    {
      if state.NotStr? {
        return None;
      }
      var original := Trim(state.s);
      if IsDigits(original) {
        entries := entries + [Correction("invalid_state", original, None)];
        return None;
      }
      var cleaned := Title(original);
      if cleaned in StateAliases {
        entries := entries + [Correction("state_alias", cleaned, Some(StateAliases[cleaned]))];
        cleaned := StateAliases[cleaned];
      }
      var m := closest(cleaned, cutoff);
      if |m| > 0 && m[0] != cleaned {
        entries := entries + [Correction("state_fuzzy", original, Some(m[0]))];
        return Some(m[0]);
      }
      return Some(cleaned);
    }

    /** The `apply` of `normalize_state_name` over the state column,
        followed by `dropna`. */
    method CleanStates(rows: seq<seq<string>>, j: nat, closest: Fuzzy) returns (kept: seq<seq<string>>)
      modifies this
      ensures kept == StateRows(rows, j, NormalizerFor(closest))
      ensures entries == old(entries) + StateLog(rows, j, NormalizerFor(closest))
    {
      kept := [];
      var k := 0;
      assert rows[..k] == [];
      while k < |rows|
        invariant 0 <= k <= |rows|
        invariant kept == StateRows(rows[..k], j, NormalizerFor(closest))
        invariant entries == old(entries) + StateLog(rows[..k], j, NormalizerFor(closest))
      {
        StateStep(rows, k, j, NormalizerFor(closest));
        ghost var before := entries;
        kept := CleanStateRow(kept, rows, k, j, closest);
        AppendAssociative(old(entries), StateLog(rows[..k], j, NormalizerFor(closest)), entries[|before|..]);
        k := k + 1;
      }
      assert rows[..k] == rows;
    }

    /** One row of the state cleanup: its name is normalised, and the row
        kept unless the name is None. */
    method CleanStateRow(kept: seq<seq<string>>, rows: seq<seq<string>>, k: nat, j: nat, closest: Fuzzy)
      returns (more: seq<seq<string>>)
      requires k < |rows|
      modifies this
      ensures var o := NormalizerFor(closest)(CellAt(rows[k], j));
        more == kept + (if o.name.Some? then [UpdateCell(rows[k], j, o.name.value)] else [])
      ensures entries == old(entries) + NormalizerFor(closest)(CellAt(rows[k], j)).added
    {
      var name := NormalizeStateName(Str(CellAt(rows[k], j)), DefaultCutoff, closest);
      more := kept;
      if name.Some? {
        more := kept + [UpdateCell(rows[k], j, name.value)];
      }
    }

    /** `clean_common`: the frame after all transforms, with the state
        corrections appended to the log. */
    method CleanCommon(df: Frame, closest: Fuzzy) returns (out: Frame)
      modifies this
      ensures out == CleanedFrame(df, closest)
      ensures entries == old(entries) + FrameCorrections(df, closest)
    {
      var cols := CleanColumns(df.columns);
      var rows := df.rows;
      var sj := IndexOf(cols, "state");
      if sj.Some? {
        rows := CleanStates(rows, sj.value, closest);
      }
      var dj := IndexOf(cols, "district");
      if dj.Some? {
        rows := MapColumn(rows, dj.value, CleanDistrict);
      }
      var pj := IndexOf(cols, "pincode");
      if pj.Some? {
        rows := MapColumn(rows, pj.value, CleanPincode);
      }
      out := Frame(cols, rows);
    }
  }

  // ---------------------------------------------------------------------
  // clean_common on a frame
  // ---------------------------------------------------------------------

  /** A frame: column names and rows of cells, every cell read as text
      (`astype(str)`). */
  datatype Frame = Frame(columns: seq<string>, rows: seq<seq<string>>)

  /** The position of the first column named `c`. */
  function IndexOf(cs: seq<string>, c: string): (r: Option<nat>)
    ensures r.None? <==> c !in cs
    ensures r.Some? ==> r.value < |cs| && cs[r.value] == c && c !in cs[..r.value]
  {
    if cs == [] then None
    else if cs[0] == c then Some(0)
    else
      var r := IndexOf(cs[1..], c);
      assert cs == [cs[0]] + cs[1..];
      if r.None? then None
      else
        assert cs[..r.value + 1] == [cs[0]] + cs[1..][..r.value];
        Some(r.value + 1)
  }

  /** A row's cell in column `j` (every row of a frame has one). */
  function CellAt(row: seq<string>, j: nat): string
  {
    if j < |row| then row[j] else ""
  }

  function UpdateCell(row: seq<string>, j: nat, v: string): (r: seq<string>)
    ensures |r| == |row|
    ensures j < |row| ==> r[j] == v
  {
    if j < |row| then row[j := v] else row
  }

  function CleanColumns(cs: seq<string>): (r: seq<string>)
    ensures |r| == |cs|
    ensures forall i :: 0 <= i < |cs| ==> r[i] == CleanColumnName(cs[i])
  {
    seq(|cs|, i requires 0 <= i < |cs| => CleanColumnName(cs[i]))
  }

  lemma AppendAssociative<T>(a: seq<T>, b: seq<T>, c: seq<T>)
    ensures a + (b + c) == (a + b) + c
  {
  }

  /** `normalize_state_name` with the default cutoff, applied to a cell. */
  function NormalizerFor(closest: Fuzzy): string -> Outcome
  {
    s => Normalize(Str(s), DefaultCutoff, closest)
  }

  /** The rows kept by the state cleanup, their state cell replaced by the
      normalised name; rows whose name normalises to None are dropped. */
  function StateRows(rows: seq<seq<string>>, j: nat, normalize: string -> Outcome): (r: seq<seq<string>>)
    ensures |r| <= |rows|
  {
    if rows == [] then []
    else
      var n := |rows| - 1;
      var o := normalize(CellAt(rows[n], j));
      if o.name.Some? then StateRows(rows[..n], j, normalize) + [UpdateCell(rows[n], j, o.name.value)]
      else StateRows(rows[..n], j, normalize)
  }

  /** The corrections the state cleanup logs, row by row. */
  function StateLog(rows: seq<seq<string>>, j: nat, normalize: string -> Outcome): seq<Correction>
  {
    if rows == [] then []
    else
      var n := |rows| - 1;
      StateLog(rows[..n], j, normalize) + normalize(CellAt(rows[n], j)).added
  }

  function MapCell(row: seq<string>, j: nat, f: string -> string): (r: seq<string>)
    ensures |r| == |row| && (j < |row| ==> r[j] == f(row[j]))
  {
    UpdateCell(row, j, f(CellAt(row, j)))
  }

  /** One more row for the state cleanup. */
  lemma StateStep(rows: seq<seq<string>>, k: nat, j: nat, normalize: string -> Outcome)
    requires k < |rows|
    ensures var o := normalize(CellAt(rows[k], j));
      StateRows(rows[..k + 1], j, normalize) ==
        StateRows(rows[..k], j, normalize) + (if o.name.Some? then [UpdateCell(rows[k], j, o.name.value)] else [])
    ensures StateLog(rows[..k + 1], j, normalize) == StateLog(rows[..k], j, normalize) + normalize(CellAt(rows[k], j)).added
  {
    assert rows[..k + 1][..k] == rows[..k];
  }

  /** Column `j` of every row transformed by `f`. */
  function MapColumn(rows: seq<seq<string>>, j: nat, f: string -> string): (r: seq<seq<string>>)
    ensures |r| == |rows|
    ensures forall i :: 0 <= i < |r| ==> |r[i]| == |rows[i]| && (j < |rows[i]| ==> r[i][j] == f(rows[i][j]))
  {
    seq(|rows|, i requires 0 <= i < |rows| => MapCell(rows[i], j, f))
  }

  function CleanedFrame(df: Frame, closest: Fuzzy): Frame
  {
    var cols := CleanColumns(df.columns);
    var rows := match IndexOf(cols, "state")
      case Some(j) => StateRows(df.rows, j, NormalizerFor(closest))
      case None => df.rows;
    var rows := match IndexOf(cols, "district")
      case Some(j) => MapColumn(rows, j, CleanDistrict)
      case None => rows;
    var rows := match IndexOf(cols, "pincode")
      case Some(j) => MapColumn(rows, j, CleanPincode)
      case None => rows;
    Frame(cols, rows)
  }

  function FrameCorrections(df: Frame, closest: Fuzzy): seq<Correction>
  {
    match IndexOf(CleanColumns(df.columns), "state")
    case Some(j) => StateLog(df.rows, j, NormalizerFor(closest))
    case None => []
  }

  /** The state cleanup drops exactly the rows whose stripped state is all
      digits, keeps the others in order, and logs at most two corrections
      per row. */
  lemma {:induction false} StateRowsDropsDigits(rows: seq<seq<string>>, j: nat, closest: Fuzzy)
    ensures |StateRows(rows, j, NormalizerFor(closest))| + |Numeric(rows, j)| == |rows|
    ensures |StateLog(rows, j, NormalizerFor(closest))| <= 2 * |rows|
  {
    if rows != [] {
      var n := |rows| - 1;
      StateRowsDropsDigits(rows[..n], j, closest);
      NormalizeRejects(Str(CellAt(rows[n], j)), DefaultCutoff, closest);
    }
  }

  /** The rows whose stripped state cell is all digits. */
  function Numeric(rows: seq<seq<string>>, j: nat): (r: seq<seq<string>>)
    ensures forall x :: x in r ==> x in rows && IsDigits(Trim(CellAt(x, j)))
  {
    if rows == [] then []
    else
      var n := |rows| - 1;
      var p := Numeric(rows[..n], j);
      assert forall x :: x in p ==> x in rows by {
        assert rows == rows[..n] + [rows[n]];
      }
      if IsDigits(Trim(CellAt(rows[n], j))) then p + [rows[n]] else p
  }

  /** Every column of the cleaned frame is a cleaned column name, so none
      holds a space or an upper-case letter. */
  lemma CleanedColumns(df: Frame, closest: Fuzzy)
    ensures |CleanedFrame(df, closest).columns| == |df.columns|
    ensures forall i :: 0 <= i < |df.columns| ==>
      var c := CleanedFrame(df, closest).columns[i];
      ' ' !in c && (forall k :: 0 <= k < |c| ==> !IsUpper(c[k]))
  {
  }

  /** No rows are lost when no state is numeric or there is no state
      column, and every pincode cell ends up at least six characters long. */
  lemma CleanedRows(df: Frame, closest: Fuzzy)
    ensures "state" !in CleanColumns(df.columns) ==> |CleanedFrame(df, closest).rows| == |df.rows|
    ensures "state" in CleanColumns(df.columns) ==>
      |CleanedFrame(df, closest).rows| == |df.rows| - |Numeric(df.rows, IndexOf(CleanColumns(df.columns), "state").value)|
    ensures "pincode" in CleanColumns(df.columns) ==>
      var j := IndexOf(CleanColumns(df.columns), "pincode").value;
      forall r :: r in CleanedFrame(df, closest).rows && j < |r| ==> |r[j]| >= 6
  {
    var cols := CleanColumns(df.columns);
    var sj := IndexOf(cols, "state");
    if sj.Some? {
      StateRowsDropsDigits(df.rows, sj.value, closest);
    }
    if "pincode" in cols {
      var j := IndexOf(cols, "pincode").value;
      var out := CleanedFrame(df, closest).rows;
      forall r | r in out && j < |r|
        ensures |r[j]| >= 6
      {
        var i :| 0 <= i < |out| && out[i] == r;
      }
    }
  }

  // ---------------------------------------------------------------------
  // clean_dataset
  // ---------------------------------------------------------------------

  /** The entry `clean_dataset` saves; the timestamp is a parameter. */
  datatype LogEntry = LogEntry(
    dataset: string, timestamp: string, rowsProcessed: nat,
    correctionsCount: nat, correctionsSample: seq<Correction>)

  /** The summary `clean_dataset` returns (the output path is left out). */
  datatype Summary = Summary(dataset: string, rows: nat, correctionsCount: nat)

  function MakeLogEntry(dataset: string, timestamp: string, rows: nat, corrections: seq<Correction>): (e: LogEntry)
    ensures e.correctionsCount == |corrections|
    ensures |e.correctionsSample| == if |corrections| < 100 then |corrections| else 100
    ensures e.correctionsSample == corrections[..|e.correctionsSample|]
    ensures e.rowsProcessed == rows
  {
    LogEntry(dataset, timestamp, rows, |corrections|, if |corrections| < 100 then corrections else corrections[..100])
  }

  /** `clean_dataset` on an already loaded frame: a fresh corrections list,
      `clean_common`, then the log entry and the summary. */
  method CleanDataset(dataset: string, raw: Frame, timestamp: string, closest: Fuzzy)
    returns (entry: LogEntry, summary: Summary)
    ensures entry == MakeLogEntry(dataset, timestamp, |CleanedFrame(raw, closest).rows|, FrameCorrections(raw, closest))
    ensures summary == Summary(dataset, |CleanedFrame(raw, closest).rows|, |FrameCorrections(raw, closest)|)
  {
    var log := new CorrectionLog();
    var clean := log.CleanCommon(raw, closest);
    assert log.entries == [] + FrameCorrections(raw, closest) == FrameCorrections(raw, closest);
    entry := MakeLogEntry(dataset, timestamp, |clean.rows|, log.entries);
    summary := Summary(dataset, |clean.rows|, |log.entries|);
  }
}
