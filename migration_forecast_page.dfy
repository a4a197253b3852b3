/** The forecast page (src/pages/MigrationForecast.jsx): the colour of a
    predicted index, and the page state around its two requests — the
    guards that refuse a request, what a reply or a failure leaves behind,
    and the district reset when a state's districts arrive. The requests
    themselves are left to the caller: a handler returns the query it
    would send, and the reply comes back through another handler. */
module MigrationForecastPage {
  import opened Common
  import opened JsValues
  import Forecasting

  // ---------------------------------------------------------------------
  // Colours
  // ---------------------------------------------------------------------

  const Red := "#ef4444"
  const Orange := "#f97316"
  const Yellow := "#eab308"
  const Green := "#22c55e"

  /** `getMigrationColor`: strict thresholds at 3, 2 and 1. A missing
      value (`undefined` or `null`) fails every comparison. */
  function GetMigrationColor(value: Option<real>): (c: string)
    ensures c == Red <==> value.Some? && value.value > 3.0
    ensures c == Orange <==> value.Some? && 2.0 < value.value <= 3.0
    ensures c == Yellow <==> value.Some? && 1.0 < value.value <= 2.0
    ensures c == Green <==> value.None? || value.value <= 1.0
  {
    if value.Some? && value.value > 3.0 then Red
    else if value.Some? && value.value > 2.0 then Orange
    else if value.Some? && value.value > 1.0 then Yellow
    else Green
  }

  /** A missing value is green, and 3.0 itself is only orange. */
  lemma ColorBoundaries()
    ensures GetMigrationColor(None) == Green
    ensures GetMigrationColor(Some(3.0)) == Orange
    ensures GetMigrationColor(Some(2.0)) == Yellow
    ensures GetMigrationColor(Some(1.0)) == Green
  {
  }

  /** The colour names the same tier as the backend's status label. */
  lemma ColorMatchesStatus(v: real)
    ensures GetMigrationColor(Some(v)) == Red <==> Forecasting.GetStatus(v) == "Very High Migration"
    ensures GetMigrationColor(Some(v)) == Orange <==> Forecasting.GetStatus(v) == "High Migration"
    ensures GetMigrationColor(Some(v)) == Yellow <==> Forecasting.GetStatus(v) == "Moderate Migration"
    ensures GetMigrationColor(Some(v)) == Green <==> Forecasting.GetStatus(v) == "Low Migration"
  {
  }

  /** In the top-growth table, each row's colour agrees with the status
      the backend attached to the same row. */
  lemma TopGrowthColorsAgree(districts: seq<string>, forecast: string -> Forecasting.ForecastReply, topN: nat, p: Forecasting.Prediction)
    requires p in Forecasting.SliceTo(SortDesc(Forecasting.Predictions(districts, forecast), Forecasting.AvgIndex), topN)
    ensures GetMigrationColor(Some(p.predictedAvgIndex)) == Red <==> p.status == "Very High Migration"
    ensures GetMigrationColor(Some(p.predictedAvgIndex)) == Green <==> p.status == "Low Migration"
  {
    Forecasting.TopGrowthLargest(districts, forecast, topN);
    ColorMatchesStatus(p.predictedAvgIndex);
  }

  // ---------------------------------------------------------------------
  // The page
  // ---------------------------------------------------------------------

  const SelectBoth := "Please select both state and district"
  const SelectState := "Please select a state"
  const ForecastFailed := "Forecast failed"
  const TopGrowthFailed := "Failed to fetch top growth"
  const ForecastUnreachable := "Failed to connect to API. Make sure backend is running on port 8000."
  const TopGrowthUnreachable := "Failed to connect to API"

  /** The forecast query: state, district, horizon in days and method. */
  datatype ForecastQuery = ForecastQuery(state: string, district: string, days: int, forecastMethod: string)

  /** `data.detail || fallback`: the server's message when it gave one. */
  function DetailOr(data: JsValue, fallback: string): (e: JsValue)
    ensures Truthy(Field(data, "detail")) ==> e == Field(data, "detail")
    ensures !Truthy(Field(data, "detail")) ==> e == Str(fallback)
  {
    Or(Field(data, "detail"), Str(fallback))
  }

  /** A reply always leaves a truthy error: with no `detail`, the page's
      own message; it is never cleared to `null`. */
  lemma DetailOrIsAnError(data: JsValue, fallback: string)
    requires fallback != ""
    ensures Truthy(DetailOr(data, fallback))
  {
  }

  /** The page state. `error`, `forecast` and `topGrowth` hold whatever the
      page stored, with `Null` for `null`; the lists hold what the server
      sent under `states` and `districts`. */
  class MigrationForecastPage {
    var states: JsValue
    var districts: JsValue
    var selectedState: string
    var selectedDistrict: string
    var forecastDays: int
    var forecastMethod: string
    var forecast: JsValue
    var topGrowth: JsValue
    var loading: bool
    var error: JsValue

    constructor()
      ensures states == Arr([]) && districts == Arr([])
      ensures selectedState == "" && selectedDistrict == ""
      ensures forecastDays == 30 && forecastMethod == "prophet"
      ensures forecast == Null && topGrowth == Null && !loading && error == Null
    {
      states := Arr([]);
      districts := Arr([]);
      selectedState := "";
      selectedDistrict := "";
      forecastDays := 30;
      forecastMethod := "prophet";
      forecast := Null;
      topGrowth := Null;
      loading := false;
      error := Null;
    }

    /** The state list arrived. */
    method StatesLoaded(data: JsValue)
      modifies this
      ensures states == Field(data, "states")
      ensures districts == old(districts) && selectedState == old(selectedState) && selectedDistrict == old(selectedDistrict)
      ensures forecastDays == old(forecastDays) && forecastMethod == old(forecastMethod)
      ensures forecast == old(forecast) && topGrowth == old(topGrowth) && loading == old(loading) && error == old(error)
    {
      states := Field(data, "states");
    }

    /** Choosing a state. Its districts are then requested when the
        choice is non-empty; the districts in hand stay until they come. */
    method ChooseState(s: string) returns (requestDistricts: bool)
      modifies this
      ensures selectedState == s && (requestDistricts <==> s != "")
      ensures states == old(states) && districts == old(districts) && selectedDistrict == old(selectedDistrict)
      ensures forecastDays == old(forecastDays) && forecastMethod == old(forecastMethod)
      ensures forecast == old(forecast) && topGrowth == old(topGrowth) && loading == old(loading) && error == old(error)
    {
      selectedState := s;
      requestDistricts := s != "";
    }

    /** A state's districts arrived: they replace the list, and the chosen
        district is cleared. */
    method DistrictsLoaded(data: JsValue)
      modifies this
      ensures districts == Field(data, "districts") && selectedDistrict == ""
      ensures states == old(states) && selectedState == old(selectedState)
      ensures forecastDays == old(forecastDays) && forecastMethod == old(forecastMethod)
      ensures forecast == old(forecast) && topGrowth == old(topGrowth) && loading == old(loading) && error == old(error)
    {
      districts := Field(data, "districts");
      selectedDistrict := "";
    }

    method ChooseDistrict(d: string)
      modifies this
      ensures selectedDistrict == d
      ensures states == old(states) && districts == old(districts) && selectedState == old(selectedState)
      ensures forecastDays == old(forecastDays) && forecastMethod == old(forecastMethod)
      ensures forecast == old(forecast) && topGrowth == old(topGrowth) && loading == old(loading) && error == old(error)
    {
      selectedDistrict := d;
    }

    /** `handleForecast` up to the request: without both a state and a
        district only the error is set and no query is made; otherwise
        the page starts loading, clears the error and the old forecast,
        and sends the query of the current choices. */
    method HandleForecast() returns (query: Option<ForecastQuery>)
      modifies this
      ensures query.None? <==> selectedState == "" || selectedDistrict == ""
      ensures query.None? ==> error == Str(SelectBoth) && forecast == old(forecast) && loading == old(loading)
      ensures query.Some? ==> (query.value == ForecastQuery(selectedState, selectedDistrict, forecastDays, forecastMethod)
        && loading && error == Null && forecast == Null)
      ensures states == old(states) && districts == old(districts)
      ensures selectedState == old(selectedState) && selectedDistrict == old(selectedDistrict)
      ensures forecastDays == old(forecastDays) && forecastMethod == old(forecastMethod) && topGrowth == old(topGrowth)
    {
      if selectedState == "" || selectedDistrict == "" {
        error := Str(SelectBoth);
        query := None;
        return;
      }
      loading := true;
      error := Null;
      forecast := Null;
      query := Some(ForecastQuery(selectedState, selectedDistrict, forecastDays, forecastMethod));
    }

    /** The forecast reply: on success it is stored, otherwise the
        server's `detail` or "Forecast failed" becomes the error; loading
        ends either way. */
    method ForecastReplied(ok: bool, data: JsValue)
      modifies this
      ensures ok ==> forecast == data && error == old(error)
      ensures !ok ==> forecast == old(forecast) && error == DetailOr(data, ForecastFailed)
      ensures !loading
      ensures states == old(states) && districts == old(districts)
      ensures selectedState == old(selectedState) && selectedDistrict == old(selectedDistrict)
      ensures forecastDays == old(forecastDays) && forecastMethod == old(forecastMethod) && topGrowth == old(topGrowth)
    {
      if ok {
        forecast := data;
      } else {
        error := DetailOr(data, ForecastFailed);
      }
      loading := false;
    }

    /** The forecast request or its body could not be read. */
    method ForecastUnreached()
      modifies this
      ensures error == Str(ForecastUnreachable) && !loading
      ensures forecast == old(forecast) && states == old(states) && districts == old(districts)
      ensures selectedState == old(selectedState) && selectedDistrict == old(selectedDistrict)
      ensures forecastDays == old(forecastDays) && forecastMethod == old(forecastMethod) && topGrowth == old(topGrowth)
    {
      error := Str(ForecastUnreachable);
      loading := false;
    }

    /** `handleTopGrowth` up to the request, which asks for the ten
        fastest-growing districts of the chosen state. */
    method HandleTopGrowth() returns (query: Option<string>)
      modifies this
      ensures query.None? <==> selectedState == ""
      ensures query.None? ==> error == Str(SelectState) && topGrowth == old(topGrowth) && loading == old(loading)
      ensures query.Some? ==> query.value == selectedState && loading && error == Null && topGrowth == Null
      ensures states == old(states) && districts == old(districts)
      ensures selectedState == old(selectedState) && selectedDistrict == old(selectedDistrict)
      ensures forecastDays == old(forecastDays) && forecastMethod == old(forecastMethod) && forecast == old(forecast)
    {
      if selectedState == "" {
        error := Str(SelectState);
        query := None;
        return;
      }
      loading := true;
      error := Null;
      topGrowth := Null;
      query := Some(selectedState);
    }

    /** The top-growth reply. */
    method TopGrowthReplied(ok: bool, data: JsValue)
      modifies this
      ensures ok ==> topGrowth == data && error == old(error)
      ensures !ok ==> topGrowth == old(topGrowth) && error == DetailOr(data, TopGrowthFailed)
      ensures !loading
      ensures states == old(states) && districts == old(districts)
      ensures selectedState == old(selectedState) && selectedDistrict == old(selectedDistrict)
      ensures forecastDays == old(forecastDays) && forecastMethod == old(forecastMethod) && forecast == old(forecast)
    {
      if ok {
        topGrowth := data;
      } else {
        error := DetailOr(data, TopGrowthFailed);
      }
      loading := false;
    }

    /** The top-growth request or its body could not be read. */
    method TopGrowthUnreached()
      modifies this
      ensures error == Str(TopGrowthUnreachable) && !loading
      ensures topGrowth == old(topGrowth) && states == old(states) && districts == old(districts)
      ensures selectedState == old(selectedState) && selectedDistrict == old(selectedDistrict)
      ensures forecastDays == old(forecastDays) && forecastMethod == old(forecastMethod) && forecast == old(forecast)
    {
      error := Str(TopGrowthUnreachable);
      loading := false;
    }
  }

  /** A new state's districts always leave the forecast button refused
      until a district is picked again. */
  method PickStateThenForecast(page: MigrationForecastPage, s: string, data: JsValue) returns (refused: bool)
    modifies page
    ensures refused && page.error == Str(SelectBoth) && page.selectedDistrict == ""
  {
    var _ := page.ChooseState(s);
    page.DistrictsLoaded(data);
    var q := page.HandleForecast();
    refused := q.None?;
  }
}
