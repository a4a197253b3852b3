/** The migration analysis page (src/pages/MigrationAnalysis.jsx): the
    state list normalised through the alias table, the district list each
    tab builds from the backend's names, the compare tab's result order,
    and the guard every tab's submit button applies. */
module MigrationAnalysis {
  import opened Common
  import opened JsValues
  import Forecasting

  // ---------------------------------------------------------------------
  // District names
  // ---------------------------------------------------------------------

  /** `d.trim().replace(/\*\/g, '')`: trimmed first, then every '*' removed,
      so a marker after a space leaves the space behind. */
  function CleanDistrictName(d: string): (r: string)
    ensures '*' !in r
    ensures |r| <= |d|
  {
    RemoveChar(Trim(d), '*')
  }

  /** The lower-case names the tabs skip. */
  const SkippedNames: seq<string> := ["null", "na", "n/a", "siddharth nagar"]

  /** A cleaned name is kept when it is longer than two characters and its
      lower-case form is not skipped. */
  predicate KeepCleaned(trimmed: string)
  {
    |trimmed| > 2 && ToLower(trimmed) !in SkippedNames
  }

  /** The name one entry of `data.districts` adds to the set: only
      non-empty strings count. */
  function DistrictEntry(d: JsValue): (r: Option<string>)
    ensures r.Some? <==> d.Str? && d.s != "" && KeepCleaned(CleanDistrictName(d.s))
    ensures r.Some? ==> r.value == CleanDistrictName(d.s)
  {
    if d.Str? && d.s != "" && KeepCleaned(CleanDistrictName(d.s)) then Some(CleanDistrictName(d.s)) else None
  }

  /** `(data.districts || [])`, as the entries `forEach` visits. It is
      None where the source throws inside its `try`: a `null` body has no
      fields, and a truthy value that is not an array has no `forEach`.
      The `catch` then leaves the page's list as it was. */
  function Entries(data: JsValue, key: string): (r: Option<seq<JsValue>>)
    ensures r.None? <==> data.Null? || data.Undefined? || (Truthy(Field(data, key)) && !Field(data, key).Arr?)
    ensures r.Some? && Field(data, key).Arr? ==> r.value == Field(data, key).items
    ensures r.Some? && !Field(data, key).Arr? ==> r.value == []
  {
    if data.Null? || data.Undefined? then None
    else if Field(data, key).Arr? then Some(Field(data, key).items)
    else if Truthy(Field(data, key)) then None
    else Some([])
  }

  /** The set the tabs build from the entries. */
  function DistrictSet(entries: seq<JsValue>): set<string>
  {
    Collect(entries, DistrictEntry)
  }

  /** Exactly the cleaned forms of the kept string entries are in the
      set; none holds a '*' or is two characters or shorter. */
  lemma DistrictSetMembers(entries: seq<JsValue>)
    ensures forall x :: x in DistrictSet(entries) <==>
      exists i :: 0 <= i < |entries| && DistrictEntry(entries[i]) == Some(x)
    ensures forall x :: x in DistrictSet(entries) ==> '*' !in x && |x| > 2 && ToLower(x) !in SkippedNames
  {
    CollectMembers(entries, DistrictEntry);
  }

  /** The district list of the district, trends, forecast and compare tabs
      (the four copies of this loop are identical): the set built by the
      loop, sorted. */
  method CleanDistrictList(entries: seq<JsValue>) returns (r: seq<string>)
    ensures StrictlySorted(r)
    ensures forall x :: x in r <==> x in DistrictSet(entries)
  {
    var districtSet: set<string> := {};
    for i := 0 to |entries|
      invariant districtSet == DistrictSet(entries[..i])
    {
      assert entries[..i + 1][..i] == entries[..i];
      var d := entries[i];
      if d.Str? && d.s != "" {
        var trimmed := CleanDistrictName(d.s);
        if KeepCleaned(trimmed) {
          districtSet := districtSet + {trimmed};
        }
      }
    }
    assert entries[..|entries|] == entries;
    r := SortedOfSet(districtSet);
  }

  /** A trailing " *" marker leaves its space: "Lucknow *" is listed as
      "Lucknow " with the trailing space. */
  lemma MarkerLeavesSpace()
    ensures CleanDistrictName("Lucknow *") == "Lucknow "
    ensures DistrictSet([Str("Lucknow *")]) == {"Lucknow "}
  {
    TrimNoop("Lucknow *");
    var s := "Lucknow *";
    assert s[..|s| - 1] == "Lucknow ";
    assert RemoveChar("Lucknow ", '*') == "Lucknow " by {
      RemoveAbsent("Lucknow ", '*');
    }
    assert ToLower("Lucknow ") != "null" && ToLower("Lucknow ") != "na";
    assert ToLower("Lucknow ")[0] == 'l';
    assert ToLower("Lucknow ") !in SkippedNames;
    assert [Str("Lucknow *")][..0] == [];
  }

  /** Removing a character that does not occur changes nothing. */
  lemma {:induction false} RemoveAbsent(s: string, c: char)
    requires c !in s
    ensures RemoveChar(s, c) == s
  {
    if s != [] {
      assert s == s[..|s| - 1] + [s[|s| - 1]];
      RemoveAbsent(s[..|s| - 1], c);
    }
  }

  /** Siddharth Nagar is skipped whatever its case. */
  lemma SiddharthNagarSkipped(d: string)
    requires ToLower(CleanDistrictName(d)) == "siddharth nagar"
    ensures DistrictSet([Str(d)]) == {}
  {
    assert ToLower(CleanDistrictName(d)) in SkippedNames by {
      assert SkippedNames[3] == "siddharth nagar";
    }
    assert DistrictEntry(Str(d)).None?;
    assert [Str(d)][..0] == [];
    assert Collect([Str(d)][..0], DistrictEntry) == {};
  }

  // ---------------------------------------------------------------------
  // State names
  // ---------------------------------------------------------------------

  /** The page's alias table has the same fifty keys and values as the
      backend's `state_mapping`, so the model shares that constant. */
  function StateEntry(s: JsValue): (r: Option<string>)
    ensures r.Some? <==> (s.Str? && s.s != "" && Trim(ToLower(s.s)) in Forecasting.AvailableMapping
      && Forecasting.AvailableMapping[Trim(ToLower(s.s))] != "")
    ensures r.Some? ==> r.value == Forecasting.AvailableMapping[Trim(ToLower(s.s))]
  {
    if s.Str? && s.s != "" then
      var key := Trim(ToLower(s.s));
      if key in Forecasting.AvailableMapping && Forecasting.AvailableMapping[key] != "" then
        Some(Forecasting.AvailableMapping[key])
      else None
    else None
  }

  function StateSet(entries: seq<JsValue>): set<string>
  {
    Collect(entries, StateEntry)
  }

  /** Every listed state is a canonical name of the alias table. */
  lemma StateSetCanonical(entries: seq<JsValue>)
    ensures forall x :: x in StateSet(entries) <==>
      exists i :: 0 <= i < |entries| && StateEntry(entries[i]) == Some(x)
    ensures StateSet(entries) <= Forecasting.AvailableMapping.Values
  {
    CollectMembers(entries, StateEntry);
    forall x | x in StateSet(entries)
      ensures x in Forecasting.AvailableMapping.Values
    {
      var i :| 0 <= i < |entries| && StateEntry(entries[i]) == Some(x);
      var key := Trim(ToLower(entries[i].s));
      assert Forecasting.AvailableMapping[key] == x;
    }
  }

  /** The state list of the page: each string entry looked up by its
      lower-cased, trimmed form; unmapped ones dropped; sorted. */
  method NormalizeStates(entries: seq<JsValue>) returns (r: seq<string>)
    ensures StrictlySorted(r)
    ensures forall x :: x in r <==> x in StateSet(entries)
    ensures forall x :: x in r ==> x in Forecasting.AvailableMapping.Values
  {
    var cleanedStates: set<string> := {};
    for i := 0 to |entries|
      invariant cleanedStates == StateSet(entries[..i])
    {
      assert entries[..i + 1][..i] == entries[..i];
      var normalized := StateEntry(entries[i]);
      if normalized.Some? {
        cleanedStates := cleanedStates + {normalized.value};
      }
    }
    assert entries[..|entries|] == entries;
    StateSetCanonical(entries);
    r := SortedOfSet(cleanedStates);
  }

  /** Two spellings of the same state yield one name. */
  lemma AliasesMerge(a: JsValue, b: JsValue)
    requires a == Str("orissa") && b == Str(" odisha ")
    ensures StateSet([a, b]) == {"Odisha"}
  {
    ToLowerOfLower("orissa");
    TrimNoop("orissa");
    ToLowerOfLower(" odisha ");
    TrimPaddedOdisha();
    OdishaAliases();
    StateEntryOfKey(a, "orissa", "Odisha");
    StateEntryOfKey(b, "odisha", "Odisha");
    CollectTwo(a, b);
  }

  lemma TrimPaddedOdisha()
    ensures Trim(" odisha ") == "odisha"
  {
    assert LeadingSpaces(" odisha ") == 1;
    assert " odisha "[1..] == "odisha ";
    assert TrailingSpaces("odisha ") == 1;
    assert "odisha "[..6] == "odisha";
  }

  /** Two entries that both name "Odisha" collect to that one name. */
  lemma CollectTwo(a: JsValue, b: JsValue)
    requires StateEntry(a) == Some("Odisha") && StateEntry(b) == Some("Odisha")
    ensures StateSet([a, b]) == {"Odisha"}
  {
    assert [a][..0] == [];
    assert Collect([a], StateEntry) == {"Odisha"};
    assert [a, b][..1] == [a];
    assert Collect([a, b], StateEntry) == Collect([a], StateEntry) + {"Odisha"};
  }

  lemma StateEntryOfKey(s: JsValue, key: string, name: string)
    requires s.Str? && s.s != "" && Trim(ToLower(s.s)) == key
    requires key in Forecasting.AvailableMapping && Forecasting.AvailableMapping[key] == name && name != ""
    ensures StateEntry(s) == Some(name)
  {
  }

  lemma OdishaAliases()
    ensures "orissa" in Forecasting.AvailableMapping && Forecasting.AvailableMapping["orissa"] == "Odisha"
    ensures "odisha" in Forecasting.AvailableMapping && Forecasting.AvailableMapping["odisha"] == "Odisha"
  {
  }

  /** Lower-casing a string without capitals changes nothing. */
  lemma ToLowerOfLower(s: string)
    requires forall i :: 0 <= i < |s| ==> !IsUpper(s[i])
    ensures ToLower(s) == s
  {
  }

  // ---------------------------------------------------------------------
  // The compare tab
  // ---------------------------------------------------------------------

  /** `filter(r => r !== null)`: a failed fetch (None) and a reply whose
      body is `null` are both dropped. */
  function Present(responses: seq<Option<JsValue>>): (r: seq<JsValue>)
    ensures |r| <= |responses|
    ensures forall v :: v in r <==> Some(v) in responses && v != Null
  {
    if responses == [] then []
    else
      var rest := Present(responses[1..]);
      assert responses == [responses[0]] + responses[1..];
      if responses[0].Some? && responses[0].value != Null then [responses[0].value] + rest else rest
  }

  /** `(r.average_migration_index || 0)`. */
  function AverageIndex(r: JsValue): real
  {
    Count(r, "average_migration_index")
  }

  /** The compare results: the arrived responses, highest average index
      first. */
  function CompareResults(responses: seq<Option<JsValue>>): (r: seq<JsValue>)
  {
    SortDesc(Present(responses), AverageIndex)
  }

  /** The results are sorted, and are the arrived responses, each kept as
      often as it arrived. */
  lemma CompareResultsOrdered(responses: seq<Option<JsValue>>)
    ensures SortedDesc(CompareResults(responses), AverageIndex)
    ensures multiset(CompareResults(responses)) == multiset(Present(responses))
    ensures forall v :: v in CompareResults(responses) <==> Some(v) in responses && v != Null
  {
    var r := CompareResults(responses);
    forall v
      ensures v in r <==> v in Present(responses)
    {
      assert v in r <==> v in multiset(r);
      assert v in Present(responses) <==> v in multiset(Present(responses));
    }
  }

  // ---------------------------------------------------------------------
  // The tabs
  // ---------------------------------------------------------------------

  datatype Tab = StateIndex | DistrictIndex | PincodeIndex | Trends | Forecast | Compare

  /** The message a submit shows instead of fetching, when its required
      selection is empty. */
  function SubmitGuard(tab: Tab, state: string, district: string, pincode: string, selected: seq<string>): (e: Option<string>)
    ensures tab == StateIndex ==> (e.None? <==> state != "")
    ensures tab in {DistrictIndex, Trends, Forecast} ==> (e.None? <==> state != "" && district != "")
    ensures tab == PincodeIndex ==> (e.None? <==> pincode != "")
    ensures tab == Compare ==> (e.None? <==> state != "" && |selected| >= 2)
  {
    match tab
    case StateIndex => if state == "" then Some("Please select a state") else None
    case DistrictIndex => if state == "" || district == "" then Some("Please select state and district") else None
    case Trends => if state == "" || district == "" then Some("Please select state and district") else None
    case Forecast => if state == "" || district == "" then Some("Please select state and district") else None
    case PincodeIndex => if pincode == "" then Some("Please enter a pincode") else None
    case Compare => if state == "" || |selected| < 2 then Some("Please select at least 2 districts") else None
  }

  /** The message a failed fetch shows on each tab. */
  function FailureMessage(tab: Tab): string
  {
    match tab
    case StateIndex => "Failed to load state data"
    case DistrictIndex => "Failed to load district data"
    case PincodeIndex => "Failed to load pincode data"
    case Trends => "Failed to load trend data"
    case Forecast => "Failed to generate forecast"
    case Compare => "Failed to compare districts"
  }

  /** Only the guard message and the failure message of a tab can be shown
      as its error, and the two never coincide. */
  lemma GuardAndFailureDiffer(tab: Tab, state: string, district: string, pincode: string, selected: seq<string>)
    requires SubmitGuard(tab, state, district, pincode, selected).Some?
    ensures SubmitGuard(tab, state, district, pincode, selected).value != FailureMessage(tab)
  {
  }

  /** One tab's form. */
  class TabForm {
    const tab: Tab
    var state: string
    var districts: seq<string>
    var district: string
    var selectedDistricts: seq<string>
    var pincode: string
    var data: Option<JsValue>
    var results: Option<seq<JsValue>>
    var loading: bool
    var error: Option<string>

    constructor(tab: Tab)
      ensures this.tab == tab && state == "" && districts == [] && district == "" && selectedDistricts == []
      ensures pincode == "" && data.None? && results.None? && !loading && error.None?
    {
      this.tab := tab;
      state := "";
      districts := [];
      district := "";
      selectedDistricts := [];
      pincode := "";
      data := None;
      results := None;
      loading := false;
      error := None;
    }

    /** Choosing a state and the effect that follows when it is empty:
        the district list and the chosen districts are cleared. A non-empty
        state keeps everything until its list arrives. */
    method ChooseState(s: string)
      modifies this
      ensures state == s
      ensures s == "" ==> districts == []
      ensures s == "" && tab == Compare ==> selectedDistricts == [] && district == old(district)
      ensures s == "" && tab != Compare ==> district == "" && selectedDistricts == old(selectedDistricts)
      ensures s != "" ==> districts == old(districts) && district == old(district) && selectedDistricts == old(selectedDistricts)
      ensures pincode == old(pincode) && data == old(data) && results == old(results)
      ensures loading == old(loading) && error == old(error)
    {
      state := s;
      if s == "" {
        districts := [];
        if tab == Compare {
          selectedDistricts := [];
        } else {
          district := "";
        }
      }
    }

    /** The district list arrived (`res.ok`); a failed fetch changes
        nothing, and neither does a body whose `districts` cannot be
        iterated. */
    method DistrictsArrived(body: JsValue)
      modifies this
      ensures Entries(body, "districts").None? ==> districts == old(districts)
      ensures Entries(body, "districts").Some? ==> StrictlySorted(districts)
      ensures Entries(body, "districts").Some? ==>
        forall x :: x in districts <==> x in DistrictSet(Entries(body, "districts").value)
      ensures state == old(state) && district == old(district) && selectedDistricts == old(selectedDistricts)
      ensures pincode == old(pincode) && data == old(data) && results == old(results)
      ensures loading == old(loading) && error == old(error)
    {
      var entries := Entries(body, "districts");
      if entries.Some? {
        districts := CleanDistrictList(entries.value);
      }
    }

    method ChooseDistrict(d: string)
      modifies this
      ensures district == d
      ensures state == old(state) && districts == old(districts) && selectedDistricts == old(selectedDistricts)
      ensures pincode == old(pincode) && data == old(data) && results == old(results)
      ensures loading == old(loading) && error == old(error)
    {
      district := d;
    }

    method ChooseDistricts(ds: seq<string>)
      modifies this
      ensures selectedDistricts == ds
      ensures state == old(state) && districts == old(districts) && district == old(district)
      ensures pincode == old(pincode) && data == old(data) && results == old(results)
      ensures loading == old(loading) && error == old(error)
    {
      selectedDistricts := ds;
    }

    method EnterPincode(p: string)
      modifies this
      ensures pincode == p
      ensures state == old(state) && districts == old(districts) && district == old(district)
      ensures selectedDistricts == old(selectedDistricts) && data == old(data) && results == old(results)
      ensures loading == old(loading) && error == old(error)
    {
      pincode := p;
    }

    /** The submit button: with the required selection missing the guard
        message is shown and nothing is fetched; otherwise the fetch starts
        with the error cleared. */
    method Submit() returns (fetch: bool)
      modifies this
      ensures fetch <==> SubmitGuard(tab, state, district, pincode, selectedDistricts).None?
      ensures !fetch ==> error == SubmitGuard(tab, state, district, pincode, selectedDistricts) && loading == old(loading)
      ensures fetch ==> loading && error.None?
      ensures state == old(state) && districts == old(districts) && district == old(district)
      ensures selectedDistricts == old(selectedDistricts) && pincode == old(pincode)
      ensures data == old(data) && results == old(results)
    {
      var guard := SubmitGuard(tab, state, district, pincode, selectedDistricts);
      if guard.Some? {
        error := guard;
        fetch := false;
      } else {
        loading := true;
        error := None;
        fetch := true;
      }
    }

    /** The fetch of a single-result tab came back. */
    method Received(body: JsValue)
      modifies this
      requires tab != Compare
      ensures data == Some(body) && !loading
      ensures state == old(state) && districts == old(districts) && district == old(district)
      ensures selectedDistricts == old(selectedDistricts) && pincode == old(pincode)
      ensures results == old(results) && error == old(error)
    {
      data := Some(body);
      loading := false;
    }

    /** The compare tab's fetches came back, a failed one as None. */
    method ReceivedAll(responses: seq<Option<JsValue>>)
      modifies this
      requires tab == Compare
      ensures results == Some(CompareResults(responses)) && !loading
      ensures state == old(state) && districts == old(districts) && district == old(district)
      ensures selectedDistricts == old(selectedDistricts) && pincode == old(pincode)
      ensures data == old(data) && error == old(error)
    {
      results := Some(CompareResults(responses));
      loading := false;
    }

    method Failed()
      modifies this
      ensures error == Some(FailureMessage(tab)) && !loading
      ensures state == old(state) && districts == old(districts) && district == old(district)
      ensures selectedDistricts == old(selectedDistricts) && pincode == old(pincode)
      ensures data == old(data) && results == old(results)
    {
      error := Some(FailureMessage(tab));
      loading := false;
    }
  }

  /** The page around the tabs: the active tab and the shared state list. */
  class MigrationAnalysisPage {
    var activeTab: Tab
    var states: seq<string>
    var loading: bool

    constructor()
      ensures activeTab == StateIndex && states == [] && loading
    {
      activeTab := StateIndex;
      states := [];
      loading := true;
    }

    /** The state list fetch finished; `body` is None when it failed. The
        list stays as it was then, and also when the body's `states` cannot
        be iterated. */
    method StatesFetched(body: Option<JsValue>)
      modifies this
      ensures !loading && activeTab == old(activeTab)
      ensures body.None? || Entries(body.value, "states").None? ==> states == old(states)
      ensures body.Some? && Entries(body.value, "states").Some? ==> StrictlySorted(states)
      ensures body.Some? && Entries(body.value, "states").Some? ==>
        forall x :: x in states <==> x in StateSet(Entries(body.value, "states").value)
      ensures body.Some? && Entries(body.value, "states").Some? ==>
        forall x :: x in states ==> x in Forecasting.AvailableMapping.Values
    {
      if body.Some? {
        var entries := Entries(body.value, "states");
        if entries.Some? {
          states := NormalizeStates(entries.value);
        }
      }
      loading := false;
    }

    method SelectTab(t: Tab)
      modifies this
      ensures activeTab == t && states == old(states) && loading == old(loading)
    {
      activeTab := t;
    }
  }
}
