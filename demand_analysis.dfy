/** The station demand page (src/pages/DemandAnalysis.jsx): the state
    search box shared with the dashboards, the district picker over the
    fetched station estimates, the chosen district's record, the rows
    sorted by stations needed, and the state overview figures. */
module DemandAnalysis {
  import opened Common
  import opened JsValues
  import opened StateDashboard

  // ---------------------------------------------------------------------
  // District names
  // ---------------------------------------------------------------------

  /** `s.replace(/ \*$/, '')`: drops one trailing " *" marker. */
  function RemoveMarker(s: string): (r: string)
    ensures |s| >= 2 && s[|s| - 2..] == " *" ==> r == s[..|s| - 2]
    ensures !(|s| >= 2 && s[|s| - 2..] == " *") ==> r == s
  {
    if |s| >= 2 && s[|s| - 2..] == " *" then s[..|s| - 2] else s
  }

  /** The marker is dropped, then the ends trimmed. */
  function StripMarker(s: string): string
  {
    Trim(RemoveMarker(s))
  }

  /** A marked name shows as the trimmed name without its marker. */
  lemma StripMarkerOfMarked(s: string)
    ensures StripMarker(s + " *") == Trim(s)
  {
    assert (s + " *")[|s + " *"| - 2..] == " *";
    assert (s + " *")[..|s + " *"| - 2] == s;
  }

  /** A name with no trailing marker and no white space at its ends is
      shown as it is. */
  lemma StripMarkerNoop(s: string)
    requires !(|s| >= 2 && s[|s| - 2..] == " *")
    requires s == [] || (!IsSpace(s[0]) && !IsSpace(s[|s| - 1]))
    ensures StripMarker(s) == s
  {
    TrimNoop(s);
  }

  /** "Lucknow" with the marker appended shows as "Lucknow", and "Kanpur
      Nagar" is shown as it is. */
  lemma StripMarkerExamples()
    ensures StripMarker("Lucknow" + " *") == "Lucknow"
    ensures StripMarker("Kanpur Nagar") == "Kanpur Nagar"
  {
    var s := "Lucknow";
    StripMarkerOfMarked(s);
    TrimNoop(s);
    var t := "Kanpur Nagar";
    assert t[|t| - 2..][1] == 'r';
    StripMarkerNoop(t);
  }

  /** Stripping is not idempotent: a name with two markers keeps one. */
  lemma StripMarkerTwice()
    ensures StripMarker("a * *") == "a *"
    ensures StripMarker(StripMarker("a * *")) == "a"
  {
    assert RemoveMarker("a * *") == "a *";
    TrimNoop("a *");
    assert RemoveMarker("a *") == "a";
    TrimNoop("a");
  }

  /** The name a station row shows in the picker; a row whose district is
      not a string is given the empty name. */
  function RowName(d: JsValue): string
  {
    if Field(d, "district").Str? then StripMarker(Field(d, "district").s) else ""
  }

  /** `stationsData?.data`: the rows when they are an array. */
  function Rows(stationsData: Option<JsValue>): seq<JsValue>
  {
    if stationsData.Some? && Field(stationsData.value, "data").Arr? then Field(stationsData.value, "data").items else []
  }

  /** The response object with its `data` array replaced by `rows`, which
      is what sorting that array in place leaves behind. */
  function WithData(v: JsValue, rows: seq<JsValue>): (r: JsValue)
    ensures v.Obj? ==> Field(r, "data") == Arr(rows)
    ensures v.Obj? ==> forall k :: k != "data" ==> Field(r, k) == Field(v, k)
    ensures !v.Obj? ==> r == v
  {
    if v.Obj? then Obj(v.fields["data" := Arr(rows)]) else v
  }

  /** The picker's options: every row's stripped name, in the order the
      rows stand in the page state, with repeats. */
  function DistrictOptions(stationsData: Option<JsValue>): (r: seq<string>)
    ensures |r| == |Rows(stationsData)|
    ensures forall i :: 0 <= i < |r| ==> r[i] == RowName(Rows(stationsData)[i])
  {
    var rows := Rows(stationsData);
    seq(|rows|, i requires 0 <= i < |rows| => RowName(rows[i]))
  }

  /** The row the chosen name refers to. */
  function MatchesDistrict(name: string): JsValue -> bool
  {
    d => Field(d, "district").Str? && StripMarker(Field(d, "district").s) == Trim(name)
  }

  /** `getSelectedDistrictData`: nothing without a non-empty chosen name or
      without rows; otherwise the first row whose stripped name is the
      trimmed chosen name. */
  function SelectedDistrictData(selected: Option<string>, stationsData: Option<JsValue>): (r: Option<JsValue>)
    ensures selected.None? || selected.value == "" || stationsData.None? || !Truthy(Field(stationsData.value, "data")) ==> r.None?
    ensures r.Some? ==> exists i :: (0 <= i < |Rows(stationsData)| && Rows(stationsData)[i] == r.value
      && MatchesDistrict(selected.value)(r.value)
      && forall j :: 0 <= j < i ==> !MatchesDistrict(selected.value)(Rows(stationsData)[j]))
    ensures r.None? && selected.Some? && selected.value != "" ==>
      forall j :: 0 <= j < |Rows(stationsData)| ==> !MatchesDistrict(selected.value)(Rows(stationsData)[j])
  {
    if selected.None? || selected.value == "" || stationsData.None? || !Truthy(Field(stationsData.value, "data")) then None
    else
      var rows := Rows(stationsData);
      match FindIndex(rows, MatchesDistrict(selected.value))
      case Some(i) => Some(rows[i])
      case None => None
  }

  /** Picking an option of a row with a string district finds a row. */
  lemma PickedDistrictFound(stationsData: Option<JsValue>, i: nat)
    requires i < |Rows(stationsData)| && Field(Rows(stationsData)[i], "district").Str?
    requires DistrictOptions(stationsData)[i] != ""
    ensures SelectedDistrictData(Some(DistrictOptions(stationsData)[i]), stationsData).Some?
  {
    var name := DistrictOptions(stationsData)[i];
    TrimIdempotent(RemoveMarker(Field(Rows(stationsData)[i], "district").s));
    assert MatchesDistrict(name)(Rows(stationsData)[i]);
  }

  // ---------------------------------------------------------------------
  // Sorting the rows
  // ---------------------------------------------------------------------

  /** `(d.estimated_stations_needed || 0)`. */
  function StationsNeeded(d: JsValue): real
  {
    Count(d, "estimated_stations_needed")
  }

  /** The in-place sort of the rows, most stations needed first. Like the
      stable sort of `Array.prototype.sort`, it leaves rows already in
      that order where they are. */
  method SortByStationsNeeded(a: array<JsValue>)
    modifies a
    ensures SortedDesc(a[..], StationsNeeded)
    ensures multiset(a[..]) == multiset(old(a[..]))
    ensures SortedDesc(old(a[..]), StationsNeeded) ==> a[..] == old(a[..])
  {
    InsertionSortDesc(a, StationsNeeded);
  }

  /** Insertion sort by a key, largest first. */
  method InsertionSortDesc<T>(a: array<T>, key: T -> real)
    modifies a
    ensures SortedDesc(a[..], key)
    ensures multiset(a[..]) == multiset(old(a[..]))
    ensures SortedDesc(old(a[..]), key) ==> a[..] == old(a[..])
  {
    for i := 0 to a.Length
      invariant SortedDesc(a[..i], key)
      invariant multiset(a[..]) == multiset(old(a[..]))
      invariant SortedDesc(old(a[..]), key) ==> a[..] == old(a[..])
    {
      SinkLeft(a, i, key);
    }
  }

  /** Moves `a[i]` left past every smaller key, so that `a[..i + 1]` is
      sorted. */
  method SinkLeft<T>(a: array<T>, i: nat, key: T -> real)
    requires i < a.Length && SortedDesc(a[..i], key)
    modifies a
    ensures SortedDesc(a[..i + 1], key)
    ensures multiset(a[..]) == multiset(old(a[..]))
    ensures SortedDesc(old(a[..i + 1]), key) ==> a[..] == old(a[..])
  {
    var j := i;
    while j > 0 && key(a[j - 1]) < key(a[j])
      invariant 0 <= j <= i
      invariant SortedDesc(old(a[..i + 1]), key) ==> j == i && a[..] == old(a[..])
      invariant forall p, q :: 0 <= p < q <= i && p != j && q != j ==> key(a[p]) >= key(a[q])
      invariant forall q :: j < q <= i ==> key(a[j]) > key(a[q])
      invariant multiset(a[..]) == multiset(old(a[..]))
    {
      Swap(a, j - 1, j);
      j := j - 1;
    }
  }

  method Swap<T>(a: array<T>, i: nat, j: nat)
    requires i < a.Length && j < a.Length
    modifies a
    ensures a[..] == old(a[..])[i := old(a[j])][j := old(a[i])]
    ensures multiset(a[..]) == multiset(old(a[..]))
  {
    a[i], a[j] := a[j], a[i];
  }

  /** `sortedDistricts`: the rows, sorted as the page sorts them. */
  method SortedDistricts(rows: seq<JsValue>) returns (r: seq<JsValue>)
    ensures SortedDesc(r, StationsNeeded) && multiset(r) == multiset(rows) && |r| == |rows|
    ensures SortedDesc(rows, StationsNeeded) ==> r == rows
  {
    var a := new JsValue[|rows|](i requires 0 <= i < |rows| => rows[i]);
    assert a[..] == rows;
    SortByStationsNeeded(a);
    r := a[..];
    assert |r| == |multiset(r)| == |multiset(rows)| == |rows|;
  }

  /** The table's ten rows. */
  function TopTen(sorted: seq<JsValue>): (r: seq<JsValue>)
    ensures |r| == if |sorted| <= 10 then |sorted| else 10
    ensures r == sorted[..|r|]
  {
    Take(sorted, 10)
  }

  /** From sorted rows, no row left out of the table needs more stations
      than a row in it. */
  lemma TopTenLargest(sorted: seq<JsValue>)
    requires SortedDesc(sorted, StationsNeeded)
    ensures forall i, j :: 0 <= i < |TopTen(sorted)| <= j < |sorted| ==> StationsNeeded(sorted[j]) <= StationsNeeded(TopTen(sorted)[i])
  {
    var r := TopTen(sorted);
    forall i, j | 0 <= i < |r| <= j < |sorted|
      ensures StationsNeeded(sorted[j]) <= StationsNeeded(r[i])
    {
      assert r[i] == sorted[i];
    }
  }

  // ---------------------------------------------------------------------
  // The state overview
  // ---------------------------------------------------------------------

  /** `(d.service_load_annualised || 0)`. */
  function AnnualLoad(d: JsValue): real
  {
    Count(d, "service_load_annualised")
  }

  /** `Math.max(...rows.map(stationsNeeded))`; None is `-Infinity`, the
      maximum of no rows. */
  function Highest(rows: seq<JsValue>): (m: Option<real>)
    ensures m.None? <==> rows == []
    ensures m.Some? ==> exists i :: 0 <= i < |rows| && StationsNeeded(rows[i]) == m.value
    ensures m.Some? ==> forall i :: 0 <= i < |rows| ==> StationsNeeded(rows[i]) <= m.value
  {
    if rows == [] then None
    else
      var n := |rows| - 1;
      var init := rows[..n];
      var rest := Highest(init);
      var x := StationsNeeded(rows[n]);
      assert forall i :: 0 <= i < n ==> init[i] == rows[i];
      if rest.None? || rest.value < x then Some(x) else rest
  }

  /** The shown figures: district count, total stations, rounded total
      annual load, rounded mean stations per district and the highest need. */
  datatype Overview = Overview(totalDistricts: int, totalStations: real, totalAnnualLoad: int, avgStations: int, highest: Option<real>)

  /** `stationsData.data?.length || 0`. */
  function DataLength(stationsData: JsValue): (n: nat)
    ensures Field(stationsData, "data").Arr? ==> n == |Field(stationsData, "data").items|
  {
    var data := Field(stationsData, "data");
    if data.Arr? then |data.items| else if data.Str? then |data.s| else 0
  }

  /** The overview of the fetched record over its (sorted) rows. */
  function StateOverview(stationsData: JsValue, rows: seq<JsValue>): (o: Overview)
    ensures o.totalDistricts == DataLength(stationsData)
    ensures o.highest.None? <==> rows == []
    ensures DataLength(stationsData) > 0 ==> o.avgStations == RoundHalfUp(o.totalStations / DataLength(stationsData) as real)
    ensures DataLength(stationsData) == 0 ==> o.avgStations == RoundHalfUp(o.totalStations)
  {
    var n := DataLength(stationsData);
    var total := SumBy(rows, StationsNeeded);
    Overview(n, total, RoundHalfUp(SumBy(rows, AnnualLoad)),
      RoundHalfUp(total / (if n == 0 then 1 else n) as real), Highest(rows))
  }

  /** Sorting does not change the overview: it depends on the rows only as
      a multiset. */
  lemma OverviewIgnoresOrder(stationsData: JsValue, a: seq<JsValue>, b: seq<JsValue>)
    requires multiset(a) == multiset(b)
    ensures StateOverview(stationsData, a) == StateOverview(stationsData, b)
  {
    SumByPermutation(a, b, StationsNeeded);
    SumByPermutation(a, b, AnnualLoad);
    HighestIgnoresOrder(a, b);
  }

  lemma HighestIgnoresOrder(a: seq<JsValue>, b: seq<JsValue>)
    requires multiset(a) == multiset(b)
    ensures Highest(a) == Highest(b)
  {
    if a == [] {
      assert |b| == |multiset(b)| == 0;
    } else {
      assert |b| == |multiset(b)| == |multiset(a)| == |a|;
      HighestBelow(a, b);
      HighestBelow(b, a);
    }
  }

  /** The highest need of `a` is at most that of a permutation `b`. */
  lemma HighestBelow(a: seq<JsValue>, b: seq<JsValue>)
    requires multiset(a) == multiset(b) && a != [] && b != []
    ensures Highest(a).value <= Highest(b).value
  {
    var i :| 0 <= i < |a| && StationsNeeded(a[i]) == Highest(a).value;
    assert a[i] in multiset(a);
    assert a[i] in multiset(b);
    var j :| 0 <= j < |b| && b[j] == a[i];
  }

  /** With rows fetched as an array, the mean station count shown is at
      most the highest need, rounded. */
  lemma AverageAtMostHighest(stationsData: JsValue, rows: seq<JsValue>)
    requires Field(stationsData, "data").Arr? && multiset(rows) == multiset(Field(stationsData, "data").items) && rows != []
    ensures StateOverview(stationsData, rows).avgStations <= RoundHalfUp(Highest(rows).value)
  {
    var n := |rows|;
    assert n == |multiset(rows)| == DataLength(stationsData);
    MeanAtMostHighest(rows);
    RoundHalfUpMonotone(SumBy(rows, StationsNeeded) / n as real, Highest(rows).value);
  }

  /** The mean need of some rows is at most their highest need. */
  lemma MeanAtMostHighest(rows: seq<JsValue>)
    requires rows != []
    ensures SumBy(rows, StationsNeeded) / |rows| as real <= Highest(rows).value
  {
    MeanAtMost(rows, Highest(rows).value);
  }

  lemma MeanAtMost(rows: seq<JsValue>, h: real)
    requires rows != []
    requires forall i :: 0 <= i < |rows| ==> StationsNeeded(rows[i]) <= h
    ensures SumBy(rows, StationsNeeded) / |rows| as real <= h
  {
    SumAtMost(rows, h);
    MeanFromSum(rows, h);
  }

  lemma MeanFromSum(rows: seq<JsValue>, h: real)
    requires rows != [] && SumBy(rows, StationsNeeded) <= |rows| as real * h
    ensures SumBy(rows, StationsNeeded) / |rows| as real <= h
  {
    DivideBound(SumBy(rows, StationsNeeded), |rows| as real, h);
  }

  lemma {:induction false} SumAtMost(rows: seq<JsValue>, h: real)
    requires forall i :: 0 <= i < |rows| ==> StationsNeeded(rows[i]) <= h
    ensures SumBy(rows, StationsNeeded) <= |rows| as real * h
  {
    if rows != [] {
      SumAtMost(rows[..|rows| - 1], h);
    }
  }

  lemma DivideBound(total: real, n: real, h: real)
    requires n > 0.0 && total <= n * h
    ensures total / n <= h
  {
    assert total / n * n == total;
  }

  // ---------------------------------------------------------------------
  // The page
  // ---------------------------------------------------------------------

  class DemandAnalysisPage {
    var states: seq<JsValue>
    var stationsData: Option<JsValue>
    var selectedState: Option<JsValue>
    var selectedDistrict: Option<string>
    var stateSearch: string
    var loading: bool
    var error: Option<string>
    var isStateDropdownOpen: bool
    var isDistrictDropdownOpen: bool

    /** A chosen state was found by its trimmed name, so its name is a
        string. */
    predicate Valid()
      reads this
    {
      selectedState.Some? ==> Field(selectedState.value, "state").Str?
    }

    constructor()
      ensures Valid()
      ensures states == [] && stationsData.None? && selectedState.None? && selectedDistrict.None?
      ensures stateSearch == "" && loading && error.None? && !isStateDropdownOpen && !isDistrictDropdownOpen
    {
      states := [];
      stationsData := None;
      selectedState := None;
      selectedDistrict := None;
      stateSearch := "";
      loading := true;
      error := None;
      isStateDropdownOpen := false;
      isDistrictDropdownOpen := false;
    }

    function FilteredStateOptions(): seq<string>
      reads this
    {
      FilterOptions(NameOptions(states, "state"), stateSearch)
    }

    function DistrictData(): Option<JsValue>
      reads this
    {
      SelectedDistrictData(selectedDistrict, stationsData)
    }

    /** The district picker is drawn once a state is chosen and its rows
        have arrived. */
    predicate DistrictPickerShown()
      reads this
    {
      selectedState.Some? && stationsData.Some? && Truthy(stationsData.value)
    }

    /** The state box is on screen, so its ref is set, once loading ends. */
    predicate StateBoxMounted()
      reads this
    {
      !loading
    }

    /** The district box is on screen while the district picker is drawn
        and the page is not loading. */
    predicate DistrictBoxMounted()
      reads this
    {
      !loading && DistrictPickerShown()
    }

    /** The state overview is drawn while no district name is typed or
        picked. */
    predicate OverviewShown()
      reads this
    {
      DistrictPickerShown() && (selectedDistrict.None? || selectedDistrict.value == "")
    }

    method StatesLoaded(data: JsValue)
      modifies this
      requires Valid()
      ensures Valid()
      ensures states == ArrayOrEmpty(data) && !loading
      ensures stationsData == old(stationsData) && selectedState == old(selectedState) && selectedDistrict == old(selectedDistrict)
      ensures stateSearch == old(stateSearch) && error == old(error)
      ensures isStateDropdownOpen == old(isStateDropdownOpen) && isDistrictDropdownOpen == old(isDistrictDropdownOpen)
    {
      states := ArrayOrEmpty(data);
      loading := false;
    }

    /** The state list could not be fetched; `states` stays as it was. */
    method StatesFailed()
      modifies this
      requires Valid()
      ensures Valid()
      ensures error == Some("Failed to load states") && !loading
      ensures states == old(states) && stationsData == old(stationsData) && selectedState == old(selectedState)
      ensures selectedDistrict == old(selectedDistrict) && stateSearch == old(stateSearch)
      ensures isStateDropdownOpen == old(isStateDropdownOpen) && isDistrictDropdownOpen == old(isDistrictDropdownOpen)
    {
      error := Some("Failed to load states");
      loading := false;
    }

    /** The effect run when the chosen state changes. With no state the
        rows and the district are cleared; otherwise `response` is the
        fetched body, None when the fetch failed. */
    method LoadStations(response: Option<JsValue>)
      modifies this
      requires Valid()
      ensures Valid()
      ensures old(selectedState).None? ==>
        stationsData.None? && selectedDistrict.None? && loading == old(loading) && error == old(error)
      ensures old(selectedState).Some? && response.Some? ==>
        stationsData == response && error.None? && !loading && selectedDistrict == old(selectedDistrict)
      ensures old(selectedState).Some? && response.None? ==>
        stationsData.None? && !loading && selectedDistrict == old(selectedDistrict)
        && error == Some("Failed to load stations for " + Field(old(selectedState).value, "state").s)
      ensures states == old(states) && selectedState == old(selectedState) && stateSearch == old(stateSearch)
      ensures isStateDropdownOpen == old(isStateDropdownOpen) && isDistrictDropdownOpen == old(isDistrictDropdownOpen)
    {
      if selectedState.None? {
        stationsData := None;
        selectedDistrict := None;
      } else if response.Some? {
        error := None;
        stationsData := response;
        loading := false;
      } else {
        error := Some("Failed to load stations for " + Field(selectedState.value, "state").s);
        stationsData := None;
        loading := false;
      }
    }

    /** Typing in the state box clears the state, the district, the rows
        and the error, and opens the list iff the text is non-empty. */
    method TypeStateSearch(text: string)
      modifies this
      requires Valid()
      ensures Valid()
      ensures stateSearch == text && selectedState.None? && selectedDistrict.None? && stationsData.None? && error.None?
      ensures isStateDropdownOpen <==> |text| > 0
      ensures states == old(states) && loading == old(loading) && isDistrictDropdownOpen == old(isDistrictDropdownOpen)
    {
      stateSearch := text;
      selectedState := None;
      selectedDistrict := None;
      stationsData := None;
      error := None;
      isStateDropdownOpen := |text| > 0;
    }

    method FocusState()
      modifies this
      requires Valid()
      ensures Valid()
      ensures isStateDropdownOpen == (old(isStateDropdownOpen) || stateSearch != "")
      ensures states == old(states) && stationsData == old(stationsData) && selectedState == old(selectedState)
      ensures selectedDistrict == old(selectedDistrict) && stateSearch == old(stateSearch)
      ensures loading == old(loading) && error == old(error) && isDistrictDropdownOpen == old(isDistrictDropdownOpen)
    {
      if stateSearch != "" {
        isStateDropdownOpen := true;
      }
    }

    /** Picking a state chooses the first record with that trimmed name
        (or none), resets the district and closes the list. */
    method SelectState(name: string)
      modifies this
      requires Valid()
      ensures Valid()
      ensures stateSearch == name && selectedState == FindByName(states, "state", name)
      ensures selectedDistrict.None? && !isStateDropdownOpen
      ensures states == old(states) && stationsData == old(stationsData) && loading == old(loading)
      ensures error == old(error) && isDistrictDropdownOpen == old(isDistrictDropdownOpen)
    {
      stateSearch := name;
      selectedState := FindByName(states, "state", name);
      selectedDistrict := None;
      isStateDropdownOpen := false;
    }

    /** Typing in the district box sets the chosen name to the text. */
    method TypeDistrict(text: string)
      modifies this
      requires Valid()
      ensures Valid()
      ensures selectedDistrict == Some(text)
      ensures states == old(states) && stationsData == old(stationsData) && selectedState == old(selectedState)
      ensures stateSearch == old(stateSearch) && loading == old(loading) && error == old(error)
      ensures isStateDropdownOpen == old(isStateDropdownOpen) && isDistrictDropdownOpen == old(isDistrictDropdownOpen)
    {
      selectedDistrict := Some(text);
    }

    /** Focusing the district box always opens its list. */
    method FocusDistrict()
      modifies this
      requires Valid()
      ensures Valid()
      ensures isDistrictDropdownOpen
      ensures states == old(states) && stationsData == old(stationsData) && selectedState == old(selectedState)
      ensures selectedDistrict == old(selectedDistrict) && stateSearch == old(stateSearch)
      ensures loading == old(loading) && error == old(error) && isStateDropdownOpen == old(isStateDropdownOpen)
    {
      isDistrictDropdownOpen := true;
    }

    method SelectDistrict(name: string)
      modifies this
      requires Valid()
      ensures Valid()
      ensures selectedDistrict == Some(name) && !isDistrictDropdownOpen
      ensures states == old(states) && stationsData == old(stationsData) && selectedState == old(selectedState)
      ensures stateSearch == old(stateSearch) && loading == old(loading) && error == old(error)
      ensures isStateDropdownOpen == old(isStateDropdownOpen)
    {
      selectedDistrict := Some(name);
      isDistrictDropdownOpen := false;
    }

    /** One render of the page. The options and the chosen row are read
        from the rows as they stand; then `sortedDistricts` sorts the
        array held in the page state itself, so every later render reads
        the rows in that order. A render of rows already in order keeps
        them as they are. */
    method Render() returns (options: seq<string>, districtData: Option<JsValue>, sorted: seq<JsValue>)
      modifies this
      requires Valid()
      ensures Valid()
      ensures options == DistrictOptions(old(stationsData))
      ensures districtData == SelectedDistrictData(old(selectedDistrict), old(stationsData))
      ensures SortedDesc(sorted, StationsNeeded) && multiset(sorted) == multiset(old(Rows(stationsData)))
      ensures SortedDesc(old(Rows(stationsData)), StationsNeeded) ==> sorted == old(Rows(stationsData))
      ensures old(stationsData).Some? && Field(old(stationsData).value, "data").Arr? ==>
        stationsData == Some(WithData(old(stationsData).value, sorted))
      ensures !(old(stationsData).Some? && Field(old(stationsData).value, "data").Arr?) ==>
        stationsData == old(stationsData) && sorted == []
      ensures Rows(stationsData) == sorted
      ensures states == old(states) && selectedState == old(selectedState) && selectedDistrict == old(selectedDistrict)
      ensures stateSearch == old(stateSearch) && loading == old(loading) && error == old(error)
      ensures isStateDropdownOpen == old(isStateDropdownOpen) && isDistrictDropdownOpen == old(isDistrictDropdownOpen)
    {
      options := DistrictOptions(stationsData);
      districtData := DistrictData();
      var rows := Rows(stationsData);
      sorted := SortedDistricts(rows);
      if stationsData.Some? && Field(stationsData.value, "data").Arr? {
        stationsData := Some(WithData(stationsData.value, sorted));
      } else {
        assert rows == [];
      }
    }

    /** A mouse press closes each list whose box is on screen and does not
        hold the press. A list whose box is not drawn keeps its flag, since
        that box's ref is null. */
    method MouseDown(inStateBox: bool, inDistrictBox: bool)
      modifies this
      requires Valid()
      ensures Valid()
      ensures isStateDropdownOpen == (old(isStateDropdownOpen) && (inStateBox || !old(StateBoxMounted())))
      ensures isDistrictDropdownOpen == (old(isDistrictDropdownOpen) && (inDistrictBox || !old(DistrictBoxMounted())))
      ensures states == old(states) && stationsData == old(stationsData) && selectedState == old(selectedState)
      ensures selectedDistrict == old(selectedDistrict) && stateSearch == old(stateSearch)
      ensures loading == old(loading) && error == old(error)
    {
      if StateBoxMounted() && !inStateBox {
        isStateDropdownOpen := false;
      }
      if DistrictBoxMounted() && !inDistrictBox {
        isDistrictDropdownOpen := false;
      }
    }
  }
}
