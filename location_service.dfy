/** Services/LocationService.swift: the country list and the per-country city
    cache loaded from the Back4App `Country` and `City` classes, each list sorted
    by name. The HTTP exchange is an input; loading is split at its `await` into
    a head that raises the loading flag and a tail that applies the reply. */
module Locations {
  import opened Basics
  import opened LocationModels
  import opened Sorting

  const CountriesFailedText := "Failed to load countries"
  const CitiesFailedText := "Failed to load cities"

  /** A row of `{ "results": [ { "code", "name" } ] }`. */
  datatype CountryObject = CountryObject(code: string, name: string)

  /** A row of `{ "results": [ { "countryCode", "name" } ] }`. */
  datatype CityObject = CityObject(countryCode: string, name: string)

  /** One Back4App query as the service observes it: URLSession threw, the
      response is not HTTP, or an HTTP status with the rows if the body decodes. */
  datatype QueryReply<T> =
    | Unreachable(description: string)
    | NotHttp
    | Http(status: int, results: Option<seq<T>>)

  /** The rows, when the reply is a 2xx response whose body decodes; every
      other reply fails alike. */
  function Rows<T>(reply: QueryReply<T>): (r: Option<seq<T>>)
    ensures r.Some? <==> reply.Http? && IsSuccessStatus(reply.status) && reply.results.Some?
    ensures r.Some? ==> r.value == reply.results.value
  {
    match reply
    case Http(status, results) => if IsSuccessStatus(status) then results else None
    case _ => None
  }

  function CountryOf(o: CountryObject): CountryModel {
    CountryModel(o.code, o.name)
  }

  function CityOf(o: CityObject): CityModel {
    CityModel(o.countryCode, o.name)
  }

  function CountriesOf(rows: seq<CountryObject>): (r: seq<CountryModel>)
    ensures |r| == |rows| && forall i :: 0 <= i < |rows| ==> r[i] == CountryOf(rows[i])
  {
    seq(|rows|, i requires 0 <= i < |rows| => CountryOf(rows[i]))
  }

  function CitiesOf(rows: seq<CityObject>): (r: seq<CityModel>)
    ensures |r| == |rows| && forall i :: 0 <= i < |rows| ==> r[i] == CityOf(rows[i])
  {
    seq(|rows|, i requires 0 <= i < |rows| => CityOf(rows[i]))
  }

  /** A sorted list holds exactly the elements it was sorted from. */
  lemma PermutationSameElements<T>(r: seq<T>, s: seq<T>)
    requires multiset(r) == multiset(s)
    ensures forall x :: x in r <==> x in s
  {
    forall x ensures x in r <==> x in s {
      assert x in r <==> x in multiset(r);
      assert x in s <==> x in multiset(s);
    }
  }

  /** The displayed countries are the server's rows, each exactly once, in name
      order. */
  lemma CountryListSpec(rows: seq<CountryObject>, le: (string, string) -> bool)
    requires TotalPreorder(le)
    ensures var r := SortBy(CountriesOf(rows), CountryName, le);
      && SortedBy(r, CountryName, le)
      && |r| == |rows|
      && (forall o :: o in rows ==> CountryOf(o) in r)
      && (forall c :: c in r ==> exists o :: o in rows && c == CountryOf(o))
  {
    var m := CountriesOf(rows);
    var r := SortBy(m, CountryName, le);
    PermutationSameElements(r, m);
    forall o | o in rows ensures CountryOf(o) in r {
      var i :| 0 <= i < |rows| && rows[i] == o;
      assert m[i] == CountryOf(o);
    }
    forall c | c in r ensures exists o :: o in rows && c == CountryOf(o) {
      var i :| 0 <= i < |m| && m[i] == c;
      assert rows[i] in rows;
    }
  }

  class LocationService {
    var countries: seq<CountryModel>
    /** The cache of loaded cities, by country code. */
    var citiesByCountry: map<string, seq<CityModel>>
    var isLoadingCountries: bool
    /** The country codes whose cities are being loaded. */
    var isLoadingCities: set<string>
    var errorText: Option<string>
    /** `localizedCaseInsensitiveCompare` as an order on names. */
    const nameLe: (string, string) -> bool

    /** Every list the service holds is in name order. */
    ghost predicate Valid()
      reads this
    {
      && TotalPreorder(nameLe)
      && SortedBy(countries, CountryName, nameLe)
      && forall code :: code in citiesByCountry ==> SortedBy(citiesByCountry[code], CityName, nameLe)
    }

    constructor (nameLe: (string, string) -> bool)
      requires TotalPreorder(nameLe)
      ensures Valid()
      ensures this.nameLe == nameLe
      ensures countries == [] && citiesByCountry == map[] && !isLoadingCountries
      ensures isLoadingCities == {} && errorText.None?
    {
      this.nameLe := nameLe;
      countries := [];
      citiesByCountry := map[];
      isLoadingCountries := false;
      isLoadingCities := {};
      errorText := None;
    }

    /** `cities(for:)`: the cached cities of the country, in name order, or none. */
    function Cities(country: CountryModel): (r: seq<CityModel>)
      reads this
      ensures country.code !in citiesByCountry ==> r == []
      ensures country.code in citiesByCountry ==> r == citiesByCountry[country.code]
      ensures Valid() ==> SortedBy(r, CityName, nameLe)
    {
      if country.code in citiesByCountry then citiesByCountry[country.code] else []
    }

    /** The head of `loadCountries`. */
    method BeginCountries()
      modifies this
      ensures isLoadingCountries && errorText.None?
      ensures countries == old(countries) && citiesByCountry == old(citiesByCountry)
      ensures isLoadingCities == old(isLoadingCities)
    {
      isLoadingCountries := true;
      errorText := None;
    }

    /** The tail of `loadCountries`: the rows replace the list, sorted by name;
        on failure the list is kept and the error is set. */
    method FinishCountries(reply: QueryReply<CountryObject>)
      requires Valid()
      modifies this
      ensures Valid()
      ensures !isLoadingCountries
      ensures citiesByCountry == old(citiesByCountry) && isLoadingCities == old(isLoadingCities)
      ensures Rows(reply).Some? ==>
        && multiset(countries) == multiset(CountriesOf(Rows(reply).value))
        && errorText == old(errorText)
      ensures Rows(reply).None? ==> countries == old(countries) && errorText == Some(CountriesFailedText)
    {
      isLoadingCountries := false;
      match Rows(reply)
      case Some(rows) =>
        countries := SortBy(CountriesOf(rows), CountryName, nameLe);
      case None =>
        errorText := Some(CountriesFailedText);
    }

    /** `loadCountriesIfNeeded`: fetches only while the list is empty, so an
        empty answer is asked for again next time. */
    method LoadCountriesIfNeeded(reply: QueryReply<CountryObject>) returns (fetched: bool)
      requires Valid()
      modifies this
      ensures Valid()
      ensures fetched <==> old(countries) == []
      ensures !fetched ==>
        && countries == old(countries) && errorText == old(errorText)
        && isLoadingCountries == old(isLoadingCountries)
      ensures fetched ==>
        && !isLoadingCountries
        && (Rows(reply).Some? ==> multiset(countries) == multiset(CountriesOf(Rows(reply).value)) && errorText.None?)
        && (Rows(reply).None? ==> countries == [] && errorText == Some(CountriesFailedText))
      ensures citiesByCountry == old(citiesByCountry) && isLoadingCities == old(isLoadingCities)
    {
      if countries != [] {
        return false;
      }
      BeginCountries();
      FinishCountries(reply);
      fetched := true;
    }

    /** The head of `loadCities`. */
    method BeginCities(country: CountryModel)
      modifies this
      ensures isLoadingCities == old(isLoadingCities) + {country.code} && errorText.None?
      ensures countries == old(countries) && citiesByCountry == old(citiesByCountry)
      ensures isLoadingCountries == old(isLoadingCountries)
    {
      isLoadingCities := isLoadingCities + {country.code};
      errorText := None;
    }

    /** The tail of `loadCities`: the rows, sorted by name, are cached under the
        requested code (whatever `countryCode` they carry); no other entry
        changes. On failure the cache is kept and the error is set. */
    method FinishCities(country: CountryModel, reply: QueryReply<CityObject>)
      requires Valid()
      modifies this
      ensures Valid()
      ensures isLoadingCities == old(isLoadingCities) - {country.code}
      ensures countries == old(countries) && isLoadingCountries == old(isLoadingCountries)
      ensures Rows(reply).Some? ==>
        && country.code in citiesByCountry
        && citiesByCountry.Keys == old(citiesByCountry).Keys + {country.code}
        && multiset(citiesByCountry[country.code]) == multiset(CitiesOf(Rows(reply).value))
        && (forall code :: code in old(citiesByCountry) && code != country.code ==> citiesByCountry[code] == old(citiesByCountry)[code])
        && errorText == old(errorText)
      ensures Rows(reply).None? ==> citiesByCountry == old(citiesByCountry) && errorText == Some(CitiesFailedText)
    {
      isLoadingCities := isLoadingCities - {country.code};
      match Rows(reply)
      case Some(rows) =>
        citiesByCountry := citiesByCountry[country.code := SortBy(CitiesOf(rows), CityName, nameLe)];
      case None =>
        errorText := Some(CitiesFailedText);
    }

    /** `loadCitiesIfNeeded`: a cached country is never fetched again, even when
        its cached list is empty; a failed load leaves it uncached. */
    method LoadCitiesIfNeeded(country: CountryModel, reply: QueryReply<CityObject>) returns (fetched: bool)
      requires Valid()
      modifies this
      ensures Valid()
      ensures fetched <==> country.code !in old(citiesByCountry)
      ensures !fetched ==>
        && citiesByCountry == old(citiesByCountry) && errorText == old(errorText)
        && isLoadingCities == old(isLoadingCities)
      ensures fetched ==>
        && isLoadingCities == old(isLoadingCities) - {country.code}
        && (Rows(reply).Some? <==> country.code in citiesByCountry)
        && (Rows(reply).Some? ==> multiset(Cities(country)) == multiset(CitiesOf(Rows(reply).value)) && errorText.None?)
        && (Rows(reply).None? ==> citiesByCountry == old(citiesByCountry) && errorText == Some(CitiesFailedText))
      ensures countries == old(countries) && isLoadingCountries == old(isLoadingCountries)
    {
      if country.code in citiesByCountry {
        return false;
      }
      BeginCities(country);
      FinishCities(country, reply);
      fetched := true;
    }
  }
}
