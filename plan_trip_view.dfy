/** Views/PlanTripView.swift without its layout: the four location selections,
    the rule that enables generation, the "City, Country" labels handed to the
    trip store, and when the preview opens. */
module PlanTrip {
  import opened Basics
  import opened Models
  import opened LocationModels
  import Trips
  import App
  import TripApi
  import Completions
  import Json

  /** `canGenerate`: all four places chosen and the dates in order. */
  predicate CanGenerate(
    originCountry: Option<CountryModel>, originCity: Option<CityModel>,
    destCountry: Option<CountryModel>, destCity: Option<CityModel>,
    startDate: Date, endDate: Date)
  {
    originCountry.Some? && originCity.Some? && destCountry.Some? && destCity.Some? && startDate <= endDate
  }

  /** `"\(city.name), \(country.name)"`. */
  function PlaceLabel(city: CityModel, country: CountryModel): (r: string)
    ensures |r| == |city.name| + 2 + |country.name|
  {
    city.name + ", " + country.name
  }

  /** A label is read back as its city name, then ", ", then its country name. */
  lemma PlaceLabelParts(city: CityModel, country: CountryModel)
    ensures var r := PlaceLabel(city, country);
      && r[..|city.name|] == city.name
      && r[|city.name|..|city.name| + 2] == ", "
      && r[|city.name| + 2..] == country.name
  {
  }

  class PlanTripView {
    var originCountry: Option<CountryModel>
    var originCity: Option<CityModel>
    var destCountry: Option<CountryModel>
    var destCity: Option<CityModel>
    var startDate: Date
    var endDate: Date
    var showPreview: bool
    const tripVM: Trips.TripViewModel
    const appVM: App.AppViewModel

    /** The initial state; `today` and `inFiveDays` are the two clock readings. */
    constructor (tripVM: Trips.TripViewModel, appVM: App.AppViewModel, today: Date, inFiveDays: Date)
      ensures this.tripVM == tripVM && this.appVM == appVM
      ensures originCountry.None? && originCity.None? && destCountry.None? && destCity.None?
      ensures startDate == today && endDate == inFiveDays && !showPreview
    {
      this.tripVM := tripVM;
      this.appVM := appVM;
      originCountry := None;
      originCity := None;
      destCountry := None;
      destCity := None;
      startDate := today;
      endDate := inFiveDays;
      showPreview := false;
    }

    function CanGenerateNow(): (r: bool)
      reads this
      ensures r ==> originCountry.Some? && originCity.Some? && destCountry.Some? && destCity.Some?
      ensures r ==> startDate <= endDate
      ensures !r ==> originCountry.None? || originCity.None? || destCountry.None? || destCity.None? || endDate < startDate
    {
      CanGenerate(originCountry, originCity, destCountry, destCity, startDate, endDate)
    }

    /** The generate button is disabled unless generation is possible and no
        generation is running. */
    function GenerateButtonDisabled(): (r: bool)
      reads this, tripVM
      ensures tripVM.isLoadingTrip ==> r
      ensures endDate < startDate ==> r
      ensures originCountry.None? || originCity.None? || destCountry.None? || destCity.None? ==> r
      ensures !r ==> CanGenerateNow() && !tripVM.isLoadingTrip
    {
      !CanGenerateNow() || tripVM.isLoadingTrip
    }

    /** The origin country picker's setter: the origin city is cleared, and the
        chosen country's cities are requested (returned, for the `Task` that the
        source launches). */
    method SetOriginCountry(country: Option<CountryModel>) returns (loadCitiesFor: Option<CountryModel>)
      modifies this
      ensures originCountry == country && originCity.None? && loadCitiesFor == country
      ensures destCountry == old(destCountry) && destCity == old(destCity)
      ensures startDate == old(startDate) && endDate == old(endDate) && showPreview == old(showPreview)
      ensures !CanGenerateNow() && GenerateButtonDisabled()
    {
      originCountry := country;
      originCity := None;
      loadCitiesFor := country;
    }

    /** The destination country picker's setter, symmetrically. */
    method SetDestCountry(country: Option<CountryModel>) returns (loadCitiesFor: Option<CountryModel>)
      modifies this
      ensures destCountry == country && destCity.None? && loadCitiesFor == country
      ensures originCountry == old(originCountry) && originCity == old(originCity)
      ensures startDate == old(startDate) && endDate == old(endDate) && showPreview == old(showPreview)
      ensures !CanGenerateNow() && GenerateButtonDisabled()
    {
      destCountry := country;
      destCity := None;
      loadCitiesFor := country;
    }

    /** `handleGenerate`, with the service's reply as an input: nothing happens
        unless all four places are chosen; otherwise the trip store generates
        with the two labels and the current user, and the preview opens when
        no error was recorded. */
    method HandleGenerate(reply: Completions.Reply, parse: string -> Option<Json.Json>)
      returns (request: Option<TripApi.TripRequest>)
      requires tripVM.Valid()
      modifies this, tripVM, tripVM.defaults, tripVM.ids
      ensures tripVM.Valid()
      ensures originCountry == old(originCountry) && originCity == old(originCity)
      ensures destCountry == old(destCountry) && destCity == old(destCity)
      ensures startDate == old(startDate) && endDate == old(endDate)
      ensures !old(GenerateButtonDisabled()) ==> request.Some?
      ensures request.None? <==> originCountry.None? || originCity.None? || destCountry.None? || destCity.None?
      ensures request.None? ==>
        && showPreview == old(showPreview)
        && tripVM.trips == old(tripVM.trips) && tripVM.currentTripId == old(tripVM.currentTripId)
        && tripVM.apiError == old(tripVM.apiError) && tripVM.isLoadingTrip == old(tripVM.isLoadingTrip)
        && tripVM.defaults.entries == old(tripVM.defaults.entries) && tripVM.ids.issued == old(tripVM.ids.issued)
      ensures request.Some? ==>
        && request.value.destination == PlaceLabel(destCity.value, destCountry.value)
        && request.value.origin == PlaceLabel(originCity.value, originCountry.value)
        && request.value.startDate == startDate && request.value.endDate == endDate
        && request.value.userName == TripApi.RequesterName(appVM.currentUser)
        && !tripVM.isLoadingTrip
        && showPreview == (old(showPreview) || TripApi.Classify(reply, parse).Ok?)
      ensures request.Some? && TripApi.Classify(reply, parse).Ok? ==>
        && |tripVM.trips| == |old(tripVM.trips)| + 1 && tripVM.trips[..|old(tripVM.trips)|] == old(tripVM.trips)
        && var t := tripVM.trips[|old(tripVM.trips)|];
           && tripVM.currentTripId == Some(t.id) && tripVM.apiError.None?
           && TripApi.GeneratedFrom(t, TripApi.Classify(reply, parse).value, startDate, endDate, old(tripVM.ids.issued))
           && tripVM.defaults.entries
              == Trips.SavedSelection(Trips.SavedTrips(old(tripVM.defaults.entries), tripVM.trips), tripVM.currentTripId)
           && tripVM.ids.issued == old(tripVM.ids.issued) + TripApi.IdSet(t)
      ensures request.Some? && TripApi.Classify(reply, parse).Err? ==>
        && tripVM.trips == old(tripVM.trips) && tripVM.currentTripId == old(tripVM.currentTripId)
        && tripVM.apiError == Some(TripApi.FailureDescription(TripApi.Classify(reply, parse).error))
        && tripVM.defaults.entries == old(tripVM.defaults.entries) && tripVM.ids.issued == old(tripVM.ids.issued)
    {
      if originCountry.None? || originCity.None? || destCountry.None? || destCity.None? {
        return None;
      }
      var originFull := PlaceLabel(originCity.value, originCountry.value);
      var destFull := PlaceLabel(destCity.value, destCountry.value);
      var r := tripVM.GenerateTrip(destFull, startDate, endDate, originFull, appVM.currentUser, reply, parse);
      request := Some(r);
      if tripVM.apiError.None? {
        showPreview := true;
      }
    }
  }
}
