/** The district dashboard (src/pages/DistrictDashboard.jsx): a state
    search box as on the state dashboard, then a district search box over
    the districts fetched for the chosen state, and the chosen district's
    summary figures. */
module DistrictDashboard {
  import opened Common
  import opened JsValues
  import opened StateDashboard

  class DistrictDashboardPage {
    var states: seq<JsValue>
    var districts: seq<JsValue>
    var selectedState: Option<JsValue>
    var selectedDistrict: Option<JsValue>
    var stateSearch: string
    var districtSearch: string
    var loading: bool
    var error: Option<string>
    var stateDropdownOpen: bool
    var districtDropdownOpen: bool

    /** A chosen state or district was found by its trimmed name, so its
        name property is a string. */
    predicate Valid()
      reads this
    {
      (selectedState.Some? ==> Field(selectedState.value, "state").Str?)
      && (selectedDistrict.Some? ==> Field(selectedDistrict.value, "district").Str?)
    }

    /** The district summary names the chosen state, so it can only be
        drawn while a state is chosen. */
    predicate DetailsRenderable()
      reads this
    {
      selectedDistrict.Some? ==> selectedState.Some?
    }

    constructor()
      ensures Valid() && DetailsRenderable()
      ensures states == [] && districts == [] && selectedState.None? && selectedDistrict.None?
      ensures stateSearch == "" && districtSearch == "" && loading && error.None?
      ensures !stateDropdownOpen && !districtDropdownOpen
    {
      states := [];
      districts := [];
      selectedState := None;
      selectedDistrict := None;
      stateSearch := "";
      districtSearch := "";
      loading := true;
      error := None;
      stateDropdownOpen := false;
      districtDropdownOpen := false;
    }

    function StateOptions(): seq<string>
      reads this
    {
      NameOptions(states, "state")
    }

    function FilteredStateOptions(): seq<string>
      reads this
    {
      FilterOptions(StateOptions(), stateSearch)
    }

    function DistrictOptions(): seq<string>
      reads this
    {
      NameOptions(districts, "district")
    }

    function FilteredDistrictOptions(): seq<string>
      reads this
    {
      FilterOptions(DistrictOptions(), districtSearch)
    }

    /** The state box is on screen, so its ref is set, once loading ends. */
    predicate StateBoxMounted()
      reads this
    {
      !loading
    }

    /** The district box is on screen only while a state is chosen. */
    predicate DistrictBoxMounted()
      reads this
    {
      !loading && selectedState.Some? && Truthy(selectedState.value)
    }

    /** The chosen district's figures, if one is chosen. */
    function Summary(): (k: Option<Kpis>)
      reads this
      ensures k.Some? <==> selectedDistrict.Some? && Truthy(selectedDistrict.value)
    {
      if selectedDistrict.Some? && Truthy(selectedDistrict.value) then Some(FlatKpis(selectedDistrict.value)) else None
    }

    /** The state list arrived. */
    method StatesLoaded(data: JsValue)
      modifies this
      requires Valid()
      ensures Valid() && (old(DetailsRenderable()) ==> DetailsRenderable())
      ensures states == ArrayOrEmpty(data) && !loading
      ensures districts == old(districts) && selectedState == old(selectedState) && selectedDistrict == old(selectedDistrict)
      ensures stateSearch == old(stateSearch) && districtSearch == old(districtSearch) && error == old(error)
      ensures stateDropdownOpen == old(stateDropdownOpen) && districtDropdownOpen == old(districtDropdownOpen)
    {
      states := ArrayOrEmpty(data);
      loading := false;
    }

    /** The state list could not be fetched; unlike the state dashboard
        this page leaves `states` as it was. */
    method StatesFailed()
      modifies this
      requires Valid()
      ensures Valid() && (old(DetailsRenderable()) ==> DetailsRenderable())
      ensures error == Some("Failed to load states") && !loading
      ensures states == old(states) && districts == old(districts)
      ensures selectedState == old(selectedState) && selectedDistrict == old(selectedDistrict)
      ensures stateSearch == old(stateSearch) && districtSearch == old(districtSearch)
      ensures stateDropdownOpen == old(stateDropdownOpen) && districtDropdownOpen == old(districtDropdownOpen)
    {
      error := Some("Failed to load states");
      loading := false;
    }

    /** The effect run when the chosen state changes. With no state the
        list is emptied; otherwise `response` is the fetched body, None
        when the fetch failed. A successful fetch resets the district
        choice and its search text. */
    method LoadDistricts(response: Option<JsValue>)
      modifies this
      requires Valid()
      ensures Valid() && (old(DetailsRenderable()) ==> DetailsRenderable())
      ensures old(selectedState).None? ==>
        districts == [] && loading == old(loading) && error == old(error)
        && selectedDistrict == old(selectedDistrict) && districtSearch == old(districtSearch)
      ensures old(selectedState).Some? && response.Some? ==>
        districts == ArrayOrEmpty(response.value) && selectedDistrict.None? && districtSearch == ""
        && !loading && error == old(error)
      ensures old(selectedState).Some? && response.None? ==>
        districts == [] && !loading
        && error == Some("Failed to load districts for " + Field(old(selectedState).value, "state").s)
        && selectedDistrict == old(selectedDistrict) && districtSearch == old(districtSearch)
      ensures states == old(states) && selectedState == old(selectedState) && stateSearch == old(stateSearch)
      ensures stateDropdownOpen == old(stateDropdownOpen) && districtDropdownOpen == old(districtDropdownOpen)
    {
      if selectedState.None? {
        districts := [];
      } else if response.Some? {
        districts := ArrayOrEmpty(response.value);
        selectedDistrict := None;
        districtSearch := "";
        loading := false;
      } else {
        error := Some("Failed to load districts for " + Field(selectedState.value, "state").s);
        districts := [];
        loading := false;
      }
    }

    /** Typing in the state box, as written: the text is set, the state
        choice cleared and the list opened iff the text is non-empty; the
        district choice is left as it was. */
    method TypeStateSearch(text: string)
      modifies this
      requires Valid()
      ensures Valid()
      ensures stateSearch == text && selectedState.None? && (stateDropdownOpen <==> |text| > 0)
      ensures selectedDistrict == old(selectedDistrict)
      ensures states == old(states) && districts == old(districts) && districtSearch == old(districtSearch)
      ensures loading == old(loading) && error == old(error) && districtDropdownOpen == old(districtDropdownOpen)
    {
      stateSearch := text;
      selectedState := None;
      stateDropdownOpen := |text| > 0;
    }

    /** Typing in the state box as evidently intended: clearing the state
        choice clears the district choice with it, so the summary stays
        drawable. */
    method TypeStateSearchClearingDistrict(text: string)
      modifies this
      requires Valid()
      ensures Valid() && DetailsRenderable()
      ensures stateSearch == text && selectedState.None? && selectedDistrict.None? && (stateDropdownOpen <==> |text| > 0)
      ensures states == old(states) && districts == old(districts) && districtSearch == old(districtSearch)
      ensures loading == old(loading) && error == old(error) && districtDropdownOpen == old(districtDropdownOpen)
    {
      stateSearch := text;
      selectedState := None;
      selectedDistrict := None;
      stateDropdownOpen := |text| > 0;
    }

    /** Typing in the district box, which is only shown while a state is
        chosen. */
    method TypeDistrictSearch(text: string)
      modifies this
      requires Valid() && selectedState.Some?
      ensures Valid() && DetailsRenderable()
      ensures districtSearch == text && selectedDistrict.None? && (districtDropdownOpen <==> |text| > 0)
      ensures states == old(states) && districts == old(districts) && selectedState == old(selectedState)
      ensures stateSearch == old(stateSearch) && loading == old(loading) && error == old(error)
      ensures stateDropdownOpen == old(stateDropdownOpen)
    {
      districtSearch := text;
      selectedDistrict := None;
      districtDropdownOpen := |text| > 0;
    }

    /** Focusing either box reopens its list when it holds text. */
    method FocusState()
      modifies this
      requires Valid()
      ensures Valid() && (old(DetailsRenderable()) ==> DetailsRenderable())
      ensures stateDropdownOpen == (old(stateDropdownOpen) || stateSearch != "")
      ensures states == old(states) && districts == old(districts)
      ensures selectedState == old(selectedState) && selectedDistrict == old(selectedDistrict)
      ensures stateSearch == old(stateSearch) && districtSearch == old(districtSearch)
      ensures loading == old(loading) && error == old(error) && districtDropdownOpen == old(districtDropdownOpen)
    {
      if stateSearch != "" {
        stateDropdownOpen := true;
      }
    }

    method FocusDistrict()
      modifies this
      requires Valid()
      ensures Valid() && (old(DetailsRenderable()) ==> DetailsRenderable())
      ensures districtDropdownOpen == (old(districtDropdownOpen) || districtSearch != "")
      ensures states == old(states) && districts == old(districts)
      ensures selectedState == old(selectedState) && selectedDistrict == old(selectedDistrict)
      ensures stateSearch == old(stateSearch) && districtSearch == old(districtSearch)
      ensures loading == old(loading) && error == old(error) && stateDropdownOpen == old(stateDropdownOpen)
    {
      if districtSearch != "" {
        districtDropdownOpen := true;
      }
    }

    /** A mouse press closes each list whose box is on screen and does not
        hold the press. A list whose box is not drawn keeps its flag, since
        that box's ref is null. */
    method MouseDown(inStateBox: bool, inDistrictBox: bool)
      modifies this
      requires Valid()
      ensures Valid() && (old(DetailsRenderable()) ==> DetailsRenderable())
      ensures stateDropdownOpen == (old(stateDropdownOpen) && (inStateBox || !old(StateBoxMounted())))
      ensures districtDropdownOpen == (old(districtDropdownOpen) && (inDistrictBox || !old(DistrictBoxMounted())))
      ensures states == old(states) && districts == old(districts)
      ensures selectedState == old(selectedState) && selectedDistrict == old(selectedDistrict)
      ensures stateSearch == old(stateSearch) && districtSearch == old(districtSearch)
      ensures loading == old(loading) && error == old(error)
    {
      if StateBoxMounted() && !inStateBox {
        stateDropdownOpen := false;
      }
      if DistrictBoxMounted() && !inDistrictBox {
        districtDropdownOpen := false;
      }
    }

    /** Picking a state sets the text, chooses the first record with that
        trimmed name (or none) and closes the list. */
    method SelectState(name: string)
      modifies this
      requires Valid()
      ensures Valid() && (old(DetailsRenderable()) && selectedState.Some? ==> DetailsRenderable())
      ensures stateSearch == name && selectedState == FindByName(states, "state", name) && !stateDropdownOpen
      ensures states == old(states) && districts == old(districts) && selectedDistrict == old(selectedDistrict)
      ensures districtSearch == old(districtSearch) && loading == old(loading) && error == old(error)
      ensures districtDropdownOpen == old(districtDropdownOpen)
    {
      stateSearch := name;
      selectedState := FindByName(states, "state", name);
      stateDropdownOpen := false;
    }

    /** Picking a district, from the list shown only while a state is
        chosen. */
    method SelectDistrict(name: string)
      modifies this
      requires Valid() && selectedState.Some?
      ensures Valid() && DetailsRenderable()
      ensures districtSearch == name && selectedDistrict == FindByName(districts, "district", name) && !districtDropdownOpen
      ensures states == old(states) && districts == old(districts) && selectedState == old(selectedState)
      ensures stateSearch == old(stateSearch) && loading == old(loading) && error == old(error)
      ensures stateDropdownOpen == old(stateDropdownOpen)
    {
      districtSearch := name;
      selectedDistrict := FindByName(districts, "district", name);
      districtDropdownOpen := false;
    }
  }

  /** Choosing a state and a district and then typing in the state box
      leaves a district chosen with no state, and the summary, which reads
      the chosen state's name, cannot be drawn. */
  method TypingStateAfterPickingDistrict() returns (renderable: bool)
    ensures !renderable
  {
    var goa, ama := Obj(map["state" := Str("Goa")]), Obj(map["district" := Str("Ama")]);
    FoundAlone(goa, "state", "Goa");
    FoundAlone(ama, "district", "Ama");
    var page := new DistrictDashboardPage();
    page.StatesLoaded(Arr([goa]));
    page.SelectState("Goa");
    page.LoadDistricts(Some(Arr([ama])));
    page.SelectDistrict("Ama");
    page.TypeStateSearch("G");
    renderable := page.DetailsRenderable();
  }

  /** A district list opened by typing stays flagged open through a press
      made while its box is hidden (the state box was retyped), and shows
      again once the same state is picked anew. */
  method HiddenListSurvivesPress() returns (open: bool)
    ensures open
  {
    var goa, ama := Obj(map["state" := Str("Goa")]), Obj(map["district" := Str("Ama")]);
    FoundAlone(goa, "state", "Goa");
    var page := new DistrictDashboardPage();
    page.StatesLoaded(Arr([goa]));
    page.SelectState("Goa");
    page.LoadDistricts(Some(Arr([ama])));
    page.TypeDistrictSearch("A");
    page.TypeStateSearch("G");
    page.MouseDown(false, false);
    page.SelectState("Goa");
    page.LoadDistricts(Some(Arr([ama])));
    open := page.districtDropdownOpen && page.DistrictBoxMounted();
  }

  /** A lone record whose name property is a name without surrounding
      white space is found by that name. */
  lemma FoundAlone(v: JsValue, key: string, name: string)
    requires Field(v, key) == Str(name) && name != [] && !IsSpace(name[0]) && !IsSpace(name[|name| - 1])
    ensures FindByName([v], key, name) == Some(v)
  {
    TrimNoop(name);
    assert NameIs(key, name)(v);
  }
}
