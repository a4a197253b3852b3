/** The state dashboard (src/pages/StateDashboard.jsx): the option list
    built from the state records, the search filter over it, the KPI
    figures of the chosen record, and the search box's selection state.
    The option pipeline, the search filter and the lookup by name are
    shared word for word with the district and demand pages. */
module StateDashboard {
  import opened Common
  import opened JsValues
  import ServiceLoadVariants
  import StationEstimator

  // ---------------------------------------------------------------------
  // Options
  // ---------------------------------------------------------------------

  /** The trimmed name a record offers under `key`, if it holds a
      non-empty string there. */
  function TrimmedName(key: string): JsValue -> Option<string>
  {
    v => if StringField(v, key).Some? then Some(Trim(StringField(v, key).value)) else None
  }

  /** The option pipeline: keep records with a non-empty string under
      `key`, trim it, drop blanks and later duplicates, and sort. */
  function NameOptions(records: seq<JsValue>, key: string): (r: seq<string>)
    ensures StrictlySorted(r)
    ensures forall x :: x in r <==>
      x != "" && exists i :: 0 <= i < |records| && StringField(records[i], key).Some? && Trim(StringField(records[i], key).value) == x
  {
    var names := FilterMap(records, TrimmedName(key));
    FilterMapMembers(records, TrimmedName(key));
    var unique := KeepFirstNonEmpty(names);
    var r := SortStrings(unique);
    SortedOfDistinct(unique, r);
    r
  }

  /** Case-insensitive substring match of the search text. */
  function Matches(search: string): string -> bool
  {
    name => Contains(ToLower(name), ToLower(search))
  }

  /** The options that contain the search text, ignoring case, in order. */
  function FilterOptions(options: seq<string>, search: string): (r: seq<string>)
    ensures |r| <= |options|
    ensures forall x :: x in r <==> x in options && Contains(ToLower(x), ToLower(search))
  {
    FilterMembers(options, Matches(search));
    Filter(options, Matches(search))
  }

  /** An empty search shows every option. */
  lemma EmptySearchShowsAll(options: seq<string>)
    ensures FilterOptions(options, "") == options
  {
    forall i | 0 <= i < |options|
      ensures Matches("")(options[i])
    {
      ContainsEmpty(ToLower(options[i]));
    }
    FilterAll(options, Matches(""));
  }

  /** `records.find((s) => s[key]?.trim() === name) || null`. */
  function FindByName(records: seq<JsValue>, key: string, name: string): (r: Option<JsValue>)
    ensures r.Some? ==> exists i :: (0 <= i < |records| && records[i] == r.value && NameIs(key, name)(records[i])
      && forall j :: 0 <= j < i ==> !NameIs(key, name)(records[j]))
    ensures r.None? ==> forall j :: 0 <= j < |records| ==> !NameIs(key, name)(records[j])
    ensures r.Some? ==> Field(r.value, key).Str? && Trim(Field(r.value, key).s) == name
  {
    match FindIndex(records, NameIs(key, name))
    case Some(i) =>
      assert NameIs(key, name)(records[i]);
      Some(records[i])
    case None => None
  }

  /** The record's `key` is a string whose trimmed form is `name`. */
  function NameIs(key: string, name: string): JsValue -> bool
  {
    v => Field(v, key).Str? && Trim(Field(v, key).s) == name
  }

  /** Picking an offered option always finds a record. */
  lemma PickedOptionFound(records: seq<JsValue>, key: string, name: string)
    requires name in NameOptions(records, key)
    ensures FindByName(records, key, name).Some?
  {
    var i :| 0 <= i < |records| && StringField(records[i], key).Some? && Trim(StringField(records[i], key).value) == name;
    assert NameIs(key, name)(records[i]);
  }

  // ---------------------------------------------------------------------
  // KPIs
  // ---------------------------------------------------------------------

  datatype Kpis = Kpis(serviceLoad: int, totalEnrolments: real, biometricUpdates: real, demographicUpdates: real)

  /** The summary figures of a chosen flat record. */
  function FlatKpis(d: JsValue): Kpis
  {
    Kpis(RoundHalfUp(ServiceLoadVariants.FlatServiceLoad(d)),
      Count(d, "age_0_5") + Count(d, "age_5_17") + Count(d, "age_18_greater"),
      Count(d, "bio_age_5_17") + Count(d, "bio_age_17_"),
      Count(d, "demo_age_5_17") + Count(d, "demo_age_17_"))
  }

  /** The shown service load is the backend's load of the same record,
      rounded, and the three totals are the backend row's column sums. */
  lemma FlatKpisAgreeWithBackend(d: JsValue)
    requires d.Obj?
    ensures var k := FlatKpis(d); var row := AsRow(d);
      k.serviceLoad == RoundHalfUp(StationEstimator.ServiceLoad(row))
      && k.totalEnrolments == Get(row, "age_0_5") + Get(row, "age_5_17") + Get(row, "age_18_greater")
      && k.biometricUpdates == Get(row, "bio_age_5_17") + Get(row, "bio_age_17_")
      && k.demographicUpdates == Get(row, "demo_age_5_17") + Get(row, "demo_age_17_")
  {
    ServiceLoadVariants.FlatAgreesWithBackend(d);
  }

  /** With non-negative counts every figure is non-negative. */
  lemma FlatKpisNonNegative(d: JsValue)
    requires CountsNonNegative(d)
    ensures var k := FlatKpis(d);
      k.serviceLoad >= 0 && k.totalEnrolments >= 0.0 && k.biometricUpdates >= 0.0 && k.demographicUpdates >= 0.0
  {
    ServiceLoadVariants.WeightedNonNegative(d, d, d);
    RoundHalfUpMonotone(0.0, ServiceLoadVariants.FlatServiceLoad(d));
    assert Count(d, "age_0_5") >= 0.0 && Count(d, "age_5_17") >= 0.0 && Count(d, "age_18_greater") >= 0.0;
    assert Count(d, "bio_age_5_17") >= 0.0 && Count(d, "bio_age_17_") >= 0.0;
    assert Count(d, "demo_age_5_17") >= 0.0 && Count(d, "demo_age_17_") >= 0.0;
  }

  /** A record without any count has all figures 0. */
  lemma FlatKpisOfEmptyRecord()
    ensures FlatKpis(Obj(map[])) == Kpis(0, 0.0, 0.0, 0.0)
  {
  }

  // ---------------------------------------------------------------------
  // The page
  // ---------------------------------------------------------------------

  /** `Array.isArray(data) ? data : []`. */
  function ArrayOrEmpty(data: JsValue): seq<JsValue>
  {
    if data.Arr? then data.items else []
  }

  class StateDashboardPage {
    var states: seq<JsValue>
    var selectedState: Option<JsValue>
    var stateSearch: string
    var loading: bool
    var error: Option<string>
    var isDropdownOpen: bool

    constructor()
      ensures states == [] && selectedState.None? && stateSearch == ""
      ensures loading && error.None? && !isDropdownOpen
    {
      states := [];
      selectedState := None;
      stateSearch := "";
      loading := true;
      error := None;
      isDropdownOpen := false;
    }

    function StateOptions(): seq<string>
      reads this
    {
      NameOptions(states, "state")
    }

    function FilteredStateOptions(): seq<string>
      reads this
    {
      FilterOptions(StateOptions(), stateSearch)
    }

    /** The option list is shown while open and non-empty. */
    predicate ListShown()
      reads this
    {
      isDropdownOpen && |FilteredStateOptions()| > 0
    }

    /** The summary of the chosen state, if any. */
    function Summary(): (k: Option<Kpis>)
      reads this
      ensures k.Some? <==> selectedState.Some? && Truthy(selectedState.value)
    {
      if selectedState.Some? && Truthy(selectedState.value) then Some(FlatKpis(selectedState.value)) else None
    }

    /** The state list arrived: anything but an array counts as empty. */
    method StatesLoaded(data: JsValue)
      modifies this
      ensures states == ArrayOrEmpty(data) && !loading
      ensures selectedState == old(selectedState) && stateSearch == old(stateSearch)
      ensures error == old(error) && isDropdownOpen == old(isDropdownOpen)
    {
      states := ArrayOrEmpty(data);
      loading := false;
    }

    /** The state list could not be fetched. */
    method StatesFailed()
      modifies this
      ensures error == Some("Failed to load states") && states == [] && !loading
      ensures selectedState == old(selectedState) && stateSearch == old(stateSearch)
      ensures isDropdownOpen == old(isDropdownOpen)
    {
      error := Some("Failed to load states");
      states := [];
      loading := false;
    }

    /** Typing sets the text, clears the choice, and opens the list iff
        the text is non-empty. */
    method TypeSearch(text: string)
      modifies this
      ensures stateSearch == text && selectedState.None? && (isDropdownOpen <==> |text| > 0)
      ensures states == old(states) && loading == old(loading) && error == old(error)
    {
      stateSearch := text;
      selectedState := None;
      isDropdownOpen := |text| > 0;
    }

    /** Focusing the box reopens the list when there is search text. */
    method Focus()
      modifies this
      ensures isDropdownOpen == (old(isDropdownOpen) || stateSearch != "")
      ensures states == old(states) && selectedState == old(selectedState) && stateSearch == old(stateSearch)
      ensures loading == old(loading) && error == old(error)
    {
      if stateSearch != "" {
        isDropdownOpen := true;
      }
    }

    /** A click outside the box closes the list. */
    method ClickOutside()
      modifies this
      ensures !isDropdownOpen
      ensures states == old(states) && selectedState == old(selectedState) && stateSearch == old(stateSearch)
      ensures loading == old(loading) && error == old(error)
    {
      isDropdownOpen := false;
    }

    /** `handleSelectStateByName`: the text becomes the name, the choice
        the first record with that trimmed name (or none), and the list
        closes. */
    method SelectStateByName(name: string)
      modifies this
      ensures stateSearch == name && selectedState == FindByName(states, "state", name) && !isDropdownOpen
      ensures states == old(states) && loading == old(loading) && error == old(error)
    {
      stateSearch := name;
      selectedState := FindByName(states, "state", name);
      isDropdownOpen := false;
    }
  }
}
