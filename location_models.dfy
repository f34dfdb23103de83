/** Models/LocationModels.swift: countries and cities as values. Equality of a
    datatype is structural over all its fields, as the synthesized `Hashable`
    conformance makes it; the `Identifiable` ids are single fields. */
module LocationModels {

  datatype CountryModel = CountryModel(code: string, name: string)
  {
    function Id(): string { code }
  }

  /** `countryCode` is meant to equal the owning country's `code`; nothing checks it. */
  datatype CityModel = CityModel(countryCode: string, name: string)
  {
    function Id(): string { name }
  }

  function CountryName(c: CountryModel): string { c.name }

  function CityName(c: CityModel): string { c.name }

  /** Identity and equality: the id is one field, while equality compares every
      field, so two cities of different countries that share a name have the
      same id yet are different values. */
  lemma IdentityVersusEquality(a: CityModel, b: CityModel, x: CountryModel, y: CountryModel)
    ensures a.Id() == a.name && x.Id() == x.code
    ensures a == b <==> a.countryCode == b.countryCode && a.name == b.name
    ensures x == y <==> x.code == y.code && x.name == y.name
    ensures a.name == b.name && a.countryCode != b.countryCode ==> a.Id() == b.Id() && a != b
  {
  }
}
