/** The location registry of `MexicoHealthAnalyzer` and the single-city analysis:
    the built-in city dictionary, its merge with an external catalog of
    municipios per state, the lookup of a city by name, the listing of the
    places of one state, and the assembly of a city's record from the
    providers' results into a health score and advice. */
module HealthAnalyzer {
  import opened Wrappers
  import opened Dicts
  import Scoring
  import Providers
  import Advisory

  /** A `[lat, lon]` pair. */
  datatype Coords = Coords(lat: real, lon: real)

  /** An entry of `mexican_cities`. The built-in entries carry no `tipo`; the
      entries merged from the external catalog do. */
  datatype CityInfo = CityInfo(coords: Coords, estado: string, poblacion: int,
                               lat: real, lon: real, tipo: Option<string>)

  /** An entry of the external catalog: one municipio of one state. */
  datatype MunicipioInfo = MunicipioInfo(coords: Coords, estado: string, poblacion: int,
                                         lat: real, lon: real, tipo: string)

  type Cities = Dict<string, CityInfo>
  type Municipios = Dict<string, MunicipioInfo>

  /** The external catalog: state name to that state's municipios. */
  type Catalog = Dict<string, Municipios>

  ghost predicate CatalogValid(catalog: Catalog) {
    Valid(catalog) && forall e :: e in catalog.values ==> Valid(catalog.values[e])
  }

  /** The municipios of the i-th state of the catalog. */
  function StateMunicipios(catalog: Catalog, i: nat): (ms: Municipios)
    requires CatalogValid(catalog) && i < |catalog.keys|
    ensures Valid(ms)
  {
    catalog.values[catalog.keys[i]]
  }

  /** The i-th state of the catalog lists `name`. */
  predicate ListedIn(catalog: Catalog, name: string, i: nat)
    requires CatalogValid(catalog) && i < |catalog.keys|
  {
    name in StateMunicipios(catalog, i).values
  }

  // ---------------------------------------------------------------------------
  // The first listing of a name in the catalog

  /** The entry of `name` in the first of the first `m` states that lists it. */
  function FirstListing(catalog: Catalog, name: string, m: nat): Option<MunicipioInfo>
    requires CatalogValid(catalog) && m <= |catalog.keys|
  {
    if m == 0 then None
    else
      var prev := FirstListing(catalog, name, m - 1);
      if prev.Some? then prev
      else if ListedIn(catalog, name, m - 1) then Some(StateMunicipios(catalog, m - 1).values[name])
      else None
  }

  /** No listing among the first `m` states exactly when none of them lists the name. */
  lemma {:induction false} FirstListingNoneIff(catalog: Catalog, name: string, m: nat)
    requires CatalogValid(catalog) && m <= |catalog.keys|
    ensures FirstListing(catalog, name, m).None? <==>
            forall i :: 0 <= i < m ==> !ListedIn(catalog, name, i)
  {
    if m > 0 {
      FirstListingNoneIff(catalog, name, m - 1);
    }
  }

  /** The listing found is the one of the first state that lists the name. */
  lemma {:induction false} FirstListingIsFirst(catalog: Catalog, name: string, m: nat, i: nat)
    requires CatalogValid(catalog) && i < m <= |catalog.keys|
    requires ListedIn(catalog, name, i)
    requires forall i' :: 0 <= i' < i ==> !ListedIn(catalog, name, i')
    ensures FirstListing(catalog, name, m) == Some(StateMunicipios(catalog, i).values[name])
  {
    if m == i + 1 {
      FirstListingNoneIff(catalog, name, i);
    } else {
      FirstListingIsFirst(catalog, name, m - 1, i);
    }
  }

  /** Once found, a listing is not replaced by later states. */
  lemma {:induction false} FirstListingStable(catalog: Catalog, name: string, m: nat, n: nat)
    requires CatalogValid(catalog) && m <= n <= |catalog.keys|
    requires FirstListing(catalog, name, m).Some?
    ensures FirstListing(catalog, name, n) == FirstListing(catalog, name, m)
    decreases n - m
  {
    if m < n {
      FirstListingStable(catalog, name, m + 1, n);
    }
  }

  // ---------------------------------------------------------------------------
  // `load_municipios_from_external`, specified

  /** The `mexican_cities` entry made from a catalog municipio. */
  function ToCityInfo(m: MunicipioInfo): CityInfo {
    CityInfo(m.coords, m.estado, m.poblacion, m.lat, m.lon, Some(m.tipo))
  }

  /** One step of the merge: a name not yet a city is added, otherwise nothing changes. */
  function AddIfAbsent(cities: Cities, name: string, m: MunicipioInfo): (r: Cities)
    requires Valid(cities)
    ensures Valid(r)
  {
    if name in cities.values then cities else Put(cities, name, ToCityInfo(m))
  }

  /** The first `n` municipios of one state merged into `cities`, in order. */
  function MergeMunicipios(cities: Cities, ms: Municipios, n: nat): (r: Cities)
    requires Valid(cities) && Valid(ms) && n <= |ms.keys|
    ensures Valid(r)
  {
    if n == 0 then cities
    else
      var name := ms.keys[n - 1];
      AddIfAbsent(MergeMunicipios(cities, ms, n - 1), name, ms.values[name])
  }

  /** The first `m` states of the catalog merged into `cities`, in order. */
  function MergeStates(cities: Cities, catalog: Catalog, m: nat): (r: Cities)
    requires Valid(cities) && CatalogValid(catalog) && m <= |catalog.keys|
    ensures Valid(r)
  {
    if m == 0 then cities
    else
      var ms := StateMunicipios(catalog, m - 1);
      MergeMunicipios(MergeStates(cities, catalog, m - 1), ms, |ms.keys|)
  }

  /** The whole catalog merged into `cities`. */
  function Merge(cities: Cities, catalog: Catalog): (r: Cities)
    requires Valid(cities) && CatalogValid(catalog)
    ensures Valid(r)
  {
    MergeStates(cities, catalog, |catalog.keys|)
  }

  /** What merging one state does to one name. */
  lemma {:induction false} MergeMunicipiosAt(cities: Cities, ms: Municipios, n: nat, k: string)
    requires Valid(cities) && Valid(ms) && n <= |ms.keys|
    ensures var r := MergeMunicipios(cities, ms, n);
            && (k in r.values <==> k in cities.values || k in ms.keys[..n])
            && (k in cities.values ==> r.values[k] == cities.values[k])
            && (k !in cities.values && k in ms.keys[..n] ==> r.values[k] == ToCityInfo(ms.values[k]))
  {
    if n > 0 {
      var prev := MergeMunicipios(cities, ms, n - 1);
      var name := ms.keys[n - 1];
      MergeMunicipiosAt(cities, ms, n - 1, k);
      assert ms.keys[..n] == ms.keys[..n - 1] + [name];
      assert MergeMunicipios(cities, ms, n) == AddIfAbsent(prev, name, ms.values[name]);
      if k == name {
        assert k !in ms.keys[..n - 1];
        assert k in prev.values <==> k in cities.values;
      } else {
        assert k in ms.keys[..n] <==> k in ms.keys[..n - 1];
      }
    }
  }

  /** How a merge treats the name `k`: an existing entry stays as it was, and a
      missing one is taken from `source` when there is one. */
  predicate MergedAt(before: Cities, after: Cities, source: Option<MunicipioInfo>, k: string) {
    && (k in after.values <==> k in before.values || source.Some?)
    && (k in before.values ==> after.values[k] == before.values[k])
    && (k !in before.values && source.Some? ==> after.values[k] == ToCityInfo(source.value))
  }

  /** Two merges in a row act as one whose source is the first source found. */
  lemma MergedAtCompose(c: Cities, mid: Cities, r: Cities,
                        first: Option<MunicipioInfo>, second: Option<MunicipioInfo>, k: string)
    requires MergedAt(c, mid, first, k) && MergedAt(mid, r, second, k)
    ensures MergedAt(c, r, if first.Some? then first else second, k)
  {
    if k !in c.values && first.None? {
      assert k !in mid.values;
    }
  }

  /** The entry that merging a whole state offers for `k`. */
  function ListingIn(ms: Municipios, k: string): (o: Option<MunicipioInfo>)
    ensures o.Some? <==> k in ms.values
    ensures o.Some? ==> o.value == ms.values[k]
  {
    if k in ms.values then Some(ms.values[k]) else None
  }

  /** What merging a whole state does to one name. */
  lemma MergeWholeStateAt(cities: Cities, ms: Municipios, k: string)
    requires Valid(cities) && Valid(ms)
    ensures MergedAt(cities, MergeMunicipios(cities, ms, |ms.keys|), ListingIn(ms, k), k)
  {
    MergeMunicipiosAt(cities, ms, |ms.keys|, k);
    assert ms.keys[..|ms.keys|] == ms.keys;
  }

  /** The first listing among `m` states: the one among the first `m - 1`, else
      the `m`-th state's own entry. */
  lemma FirstListingStep(catalog: Catalog, k: string, m: nat)
    requires CatalogValid(catalog) && 0 < m <= |catalog.keys|
    ensures var before := FirstListing(catalog, k, m - 1);
            FirstListing(catalog, k, m)
            == if before.Some? then before else ListingIn(StateMunicipios(catalog, m - 1), k)
  {
  }

  /** What merging the first `m` states does to one name. */
  lemma {:induction false} MergeStatesAt(cities: Cities, catalog: Catalog, m: nat, k: string)
    requires Valid(cities) && CatalogValid(catalog) && m <= |catalog.keys|
    ensures MergedAt(cities, MergeStates(cities, catalog, m), FirstListing(catalog, k, m), k)
  {
    if m > 0 {
      var prev := MergeStates(cities, catalog, m - 1);
      var ms := StateMunicipios(catalog, m - 1);
      var before := FirstListing(catalog, k, m - 1);
      FirstListingStep(catalog, k, m);
      MergeStatesAt(cities, catalog, m - 1, k);
      MergeWholeStateAt(prev, ms, k);
      MergedAtCompose(cities, prev, MergeStates(cities, catalog, m), before, ListingIn(ms, k), k);
    }
  }

  /** The merge never overwrites an existing city. */
  lemma MergeNeverOverwrites(cities: Cities, catalog: Catalog, k: string)
    requires Valid(cities) && CatalogValid(catalog) && k in cities.values
    ensures k in Merge(cities, catalog).values
    ensures Merge(cities, catalog).values[k] == cities.values[k]
  {
    MergeStatesAt(cities, catalog, |catalog.keys|, k);
  }

  /** After the merge the names are the old cities and every municipio of every
      state, and nothing else. */
  lemma MergeNames(cities: Cities, catalog: Catalog, k: string)
    requires Valid(cities) && CatalogValid(catalog)
    ensures k in Merge(cities, catalog).values <==>
            k in cities.values || exists i :: 0 <= i < |catalog.keys| && ListedIn(catalog, k, i)
  {
    MergeStatesAt(cities, catalog, |catalog.keys|, k);
    FirstListingNoneIff(catalog, k, |catalog.keys|);
  }

  /** A new name gets the entry of the first state that lists it. */
  lemma MergeFirstStateWins(cities: Cities, catalog: Catalog, k: string, i: nat)
    requires Valid(cities) && CatalogValid(catalog) && i < |catalog.keys|
    requires k !in cities.values && ListedIn(catalog, k, i)
    requires forall i' :: 0 <= i' < i ==> !ListedIn(catalog, k, i')
    ensures k in Merge(cities, catalog).values
    ensures Merge(cities, catalog).values[k] == ToCityInfo(StateMunicipios(catalog, i).values[k])
  {
    MergeStatesAt(cities, catalog, |catalog.keys|, k);
    FirstListingIsFirst(catalog, k, |catalog.keys|, i);
  }

  /** The merge only appends names: the old cities keep their order at the front. */
  lemma {:induction false} MergeMunicipiosKeepsOrder(cities: Cities, ms: Municipios, n: nat)
    requires Valid(cities) && Valid(ms) && n <= |ms.keys|
    ensures cities.keys <= MergeMunicipios(cities, ms, n).keys
  {
    if n > 0 {
      MergeMunicipiosKeepsOrder(cities, ms, n - 1);
    }
  }

  lemma {:induction false} MergeStatesKeepsOrder(cities: Cities, catalog: Catalog, m: nat)
    requires Valid(cities) && CatalogValid(catalog) && m <= |catalog.keys|
    ensures cities.keys <= MergeStates(cities, catalog, m).keys
  {
    if m > 0 {
      MergeStatesKeepsOrder(cities, catalog, m - 1);
      var ms := StateMunicipios(catalog, m - 1);
      MergeMunicipiosKeepsOrder(MergeStates(cities, catalog, m - 1), ms, |ms.keys|);
    }
  }

  // ---------------------------------------------------------------------------
  // The lookup of `analyze_single_city`

  /** A city is looked up among `mexican_cities` first, then in the first state
      of the catalog that lists it. */
  function Lookup(cities: Cities, catalog: Catalog, name: string): Option<CityInfo>
    requires CatalogValid(catalog)
  {
    if name in cities.values then Some(cities.values[name])
    else
      var first := FirstListing(catalog, name, |catalog.keys|);
      if first.Some? then Some(ToCityInfo(first.value)) else None
  }

  /** A lookup fails exactly when the name is neither a city nor listed by any state. */
  lemma LookupNoneIff(cities: Cities, catalog: Catalog, name: string)
    requires CatalogValid(catalog)
    ensures Lookup(cities, catalog, name).None? <==>
            name !in cities.values && forall i :: 0 <= i < |catalog.keys| ==> !ListedIn(catalog, name, i)
  {
    FirstListingNoneIff(catalog, name, |catalog.keys|);
  }

  /** Once the catalog is merged, looking a name up in the merged cities gives
      what the catalog fallback gave before the merge. */
  lemma LookupAfterMerge(cities: Cities, catalog: Catalog, name: string)
    requires Valid(cities) && CatalogValid(catalog)
    ensures Lookup(Merge(cities, catalog), catalog, name) == Lookup(cities, catalog, name)
  {
    MergeStatesAt(cities, catalog, |catalog.keys|, name);
  }

  // ---------------------------------------------------------------------------
  // `get_all_cities_by_state`, specified

  /** An entry of the list of places of one state. */
  datatype CityEntry = CityEntry(name: string, coords: Coords, poblacion: int, tipo: string)

  function MunicipioEntry(name: string, m: MunicipioInfo): CityEntry {
    CityEntry(name, m.coords, m.poblacion, m.tipo)
  }

  /** A built-in city without a `tipo` is listed as a `ciudad`. */
  function CityInfoEntry(name: string, c: CityInfo): CityEntry {
    CityEntry(name, c.coords, c.poblacion, c.tipo.GetOr("ciudad"))
  }

  /** `any(city['name'] == name for city in entries)`. */
  predicate Named(entries: seq<CityEntry>, name: string) {
    exists i :: 0 <= i < |entries| && entries[i].name == name
  }

  predicate DistinctNames(entries: seq<CityEntry>) {
    forall i, j :: 0 <= i < j < |entries| ==> entries[i].name != entries[j].name
  }

  /** The entries of the first `n` municipios of a state, in catalog order. */
  function MunicipioEntries(ms: Municipios, n: nat): (r: seq<CityEntry>)
    requires Valid(ms) && n <= |ms.keys|
    ensures |r| == n
    ensures forall i :: 0 <= i < n ==> r[i] == MunicipioEntry(ms.keys[i], ms.values[ms.keys[i]])
  {
    if n == 0 then []
    else MunicipioEntries(ms, n - 1) + [MunicipioEntry(ms.keys[n - 1], ms.values[ms.keys[n - 1]])]
  }

  /** The entries of the state's own municipios, none when the catalog lacks the state. */
  function StateEntries(catalog: Catalog, estado: string): seq<CityEntry>
    requires CatalogValid(catalog)
  {
    if estado in catalog.values then
      var ms := catalog.values[estado];
      MunicipioEntries(ms, |ms.keys|)
    else []
  }

  /** `entries` followed by the first `n` cities of the state not already named. */
  function WithCities(entries: seq<CityEntry>, cities: Cities, estado: string, n: nat): seq<CityEntry>
    requires Valid(cities) && n <= |cities.keys|
  {
    if n == 0 then entries
    else
      var prev := WithCities(entries, cities, estado, n - 1);
      var name := cities.keys[n - 1];
      var c := cities.values[name];
      if c.estado == estado && !Named(prev, name) then prev + [CityInfoEntry(name, c)] else prev
  }

  /** The list `get_all_cities_by_state` returns. */
  function CitiesByState(cities: Cities, catalog: Catalog, estado: string): seq<CityEntry>
    requires Valid(cities) && CatalogValid(catalog)
  {
    WithCities(StateEntries(catalog, estado), cities, estado, |cities.keys|)
  }

  lemma {:induction false} WithCitiesExtends(entries: seq<CityEntry>, cities: Cities, estado: string, n: nat)
    requires Valid(cities) && n <= |cities.keys|
    ensures entries <= WithCities(entries, cities, estado, n)
  {
    if n > 0 {
      WithCitiesExtends(entries, cities, estado, n - 1);
    }
  }

  /** The state's municipios come first, in catalog order. */
  lemma CitiesByStateStartsWithMunicipios(cities: Cities, catalog: Catalog, estado: string)
    requires Valid(cities) && CatalogValid(catalog)
    ensures StateEntries(catalog, estado) <= CitiesByState(cities, catalog, estado)
  {
    WithCitiesExtends(StateEntries(catalog, estado), cities, estado, |cities.keys|);
  }

  lemma {:induction false} WithCitiesDistinct(entries: seq<CityEntry>, cities: Cities, estado: string, n: nat)
    requires Valid(cities) && n <= |cities.keys| && DistinctNames(entries)
    ensures DistinctNames(WithCities(entries, cities, estado, n))
  {
    if n > 0 {
      WithCitiesDistinct(entries, cities, estado, n - 1);
    }
  }

  lemma MunicipioEntriesDistinct(ms: Municipios)
    requires Valid(ms)
    ensures DistinctNames(MunicipioEntries(ms, |ms.keys|))
  {
    var r := MunicipioEntries(ms, |ms.keys|);
    forall i, j | 0 <= i < j < |r| ensures r[i].name != r[j].name {
      assert r[i].name == ms.keys[i] && r[j].name == ms.keys[j];
    }
  }

  /** No name is listed twice. */
  lemma CitiesByStateDistinct(cities: Cities, catalog: Catalog, estado: string)
    requires Valid(cities) && CatalogValid(catalog)
    ensures DistinctNames(CitiesByState(cities, catalog, estado))
  {
    if estado in catalog.values {
      MunicipioEntriesDistinct(catalog.values[estado]);
    }
    WithCitiesDistinct(StateEntries(catalog, estado), cities, estado, |cities.keys|);
  }

  lemma {:induction false} WithCitiesCovers(entries: seq<CityEntry>, cities: Cities, estado: string, n: nat, j: nat)
    requires Valid(cities) && j < n <= |cities.keys|
    requires cities.values[cities.keys[j]].estado == estado
    ensures Named(WithCities(entries, cities, estado, n), cities.keys[j])
  {
    var r := WithCities(entries, cities, estado, n);
    if j < n - 1 {
      WithCitiesCovers(entries, cities, estado, n - 1, j);
      var prev := WithCities(entries, cities, estado, n - 1);
      var i :| 0 <= i < |prev| && prev[i].name == cities.keys[j];
      assert r[i] == prev[i];
    } else if !Named(WithCities(entries, cities, estado, n - 1), cities.keys[j]) {
      assert r[|r| - 1].name == cities.keys[j];
    }
  }

  /** Every city of the state is listed, as a municipio or as a city. */
  lemma CitiesByStateListsEveryCity(cities: Cities, catalog: Catalog, estado: string, name: string)
    requires Valid(cities) && CatalogValid(catalog)
    requires name in cities.values && cities.values[name].estado == estado
    ensures Named(CitiesByState(cities, catalog, estado), name)
  {
    var j :| 0 <= j < |cities.keys| && cities.keys[j] == name;
    WithCitiesCovers(StateEntries(catalog, estado), cities, estado, |cities.keys|, j);
  }

  lemma {:induction false} WithCitiesOnlyState(entries: seq<CityEntry>, cities: Cities, estado: string, n: nat, i: nat)
    requires Valid(cities) && n <= |cities.keys|
    requires |entries| <= i < |WithCities(entries, cities, estado, n)|
    ensures var e := WithCities(entries, cities, estado, n)[i];
            e.name in cities.values && cities.values[e.name].estado == estado &&
            e == CityInfoEntry(e.name, cities.values[e.name])
  {
    var prev := WithCities(entries, cities, estado, n - 1);
    WithCitiesExtends(entries, cities, estado, n - 1);
    if i < |prev| {
      WithCitiesOnlyState(entries, cities, estado, n - 1, i);
    }
  }

  /** After the municipios come only cities of the state, as `mexican_cities`
      describes them. */
  lemma CitiesByStateOnlyState(cities: Cities, catalog: Catalog, estado: string, i: nat)
    requires Valid(cities) && CatalogValid(catalog)
    requires |StateEntries(catalog, estado)| <= i < |CitiesByState(cities, catalog, estado)|
    ensures var e := CitiesByState(cities, catalog, estado)[i];
            e.name in cities.values && cities.values[e.name].estado == estado &&
            e == CityInfoEntry(e.name, cities.values[e.name])
  {
    WithCitiesOnlyState(StateEntries(catalog, estado), cities, estado, |cities.keys|, i);
  }

  // ---------------------------------------------------------------------------
  // The record of `analyze_single_city`

  /** What the outside world supplies to one analysis: the two WAQI replies (by
      name, then by coordinates), the OpenWeatherMap reading if any, the FIRMS
      reply, the two random draws (the extra area in km2 and the noise jitter)
      and the advisor's reply. */
  datatype Observations = Observations(
    waqiByName: Providers.WaqiReply,
    waqiByCoords: Providers.WaqiReply,
    weather: Option<Providers.WeatherReading>,
    firms: Providers.FirmsReply,
    areaDraw: real,
    noiseDraw: real,
    advisor: Advisory.AdvisorReply)

  /** `np.random.uniform(50, 200)` draws the extra area within [50, 200]. */
  predicate DrawInRange(obs: Observations) {
    50.0 <= obs.areaDraw <= 200.0
  }

  /** The `city_data` dictionary before the score and the advice are added. */
  datatype CityData = CityData(
    city: string,
    state: string,
    latitude: real,
    longitude: real,
    population: int,
    airQualityIndex: Option<real>,
    pm25Concentration: Option<real>,
    pm10Concentration: Option<real>,
    no2Levels: Option<real>,
    o3Levels: Option<real>,
    temperatureAvg: Option<real>,
    humidityAvg: Option<real>,
    windSpeed: Option<real>,
    greenSpaceRatio: real,
    ndviValue: real,
    populationDensity: real,
    noisePollutionDb: real,
    waterQualityScore: real,
    healthcareAccessibility: real,
    firesDetected: nat,
    fireRiskLevel: string)

  /** The record of a city found in the registry: the latitude and longitude come
      from its `coords`, missing air or weather data leave their fields `None`,
      a missing fire report reads as no fires at risk `Bajo`, and the density is
      the population over an area of 150 km2 plus the area draw. */
  function CityDataOf(name: string, info: CityInfo, obs: Observations): (d: CityData)
    requires DrawInRange(obs)
    ensures d.airQualityIndex.Some? ==> d.airQualityIndex.value > 0.0
    ensures d.airQualityIndex.None? ==>
              d.pm25Concentration.None? && d.pm10Concentration.None? && d.no2Levels.None? && d.o3Levels.None?
    ensures d.city == name && d.state == info.estado && d.population == info.poblacion
    ensures d.latitude == info.coords.lat && d.longitude == info.coords.lon
    ensures var air := Providers.AirQualityData(obs.waqiByName, obs.waqiByCoords);
            && (d.airQualityIndex.Some? <==> air.Some?)
            && (air.Some? ==> && d.airQualityIndex == Some(air.value.aqi)
                              && d.pm25Concentration == air.value.pm25 && d.pm10Concentration == air.value.pm10
                              && d.no2Levels == air.value.no2 && d.o3Levels == air.value.o3)
    ensures d.temperatureAvg.Some? <==> obs.weather.Some?
    ensures d.humidityAvg.Some? <==> obs.weather.Some?
    ensures d.windSpeed.Some? <==> obs.weather.Some?
    ensures obs.weather.Some? ==> && d.temperatureAvg == Some(obs.weather.value.temperature)
                                  && d.humidityAvg == Some(obs.weather.value.humidity)
                                  && d.windSpeed == Some(obs.weather.value.windSpeed)
    ensures d.greenSpaceRatio == Providers.GreenRatioEstimate(info.poblacion)
    ensures d.ndviValue == Providers.NdviEstimate(info.coords.lat)
    ensures d.noisePollutionDb == Providers.NoiseEstimate(d.populationDensity, obs.noiseDraw)
    ensures d.healthcareAccessibility == Providers.HealthcareEstimate(info.poblacion)
    ensures d.waterQualityScore == 75.0
    ensures 0.2 <= d.greenSpaceRatio <= 0.7
    ensures d.ndviValue == 0.3 || d.ndviValue == 0.5 || d.ndviValue == 0.7
    ensures 40.0 <= d.noisePollutionDb <= 85.0
    ensures 2.0 <= d.healthcareAccessibility <= 10.0
    ensures d.populationDensity == Density(info.poblacion, obs.areaDraw)
    ensures d.population >= 0 ==> 0.0 <= d.populationDensity <= d.population as real / 200.0
    ensures d.fireRiskLevel == Providers.FireRiskOf(d.firesDetected).Label()
    ensures Providers.NasaFirmsFires(obs.firms).None? ==> d.firesDetected == 0
    ensures Providers.NasaFirmsFires(obs.firms).Some? ==>
              d.firesDetected == Providers.NasaFirmsFires(obs.firms).value.firesDetected
  {
    var air := Providers.AirQualityData(obs.waqiByName, obs.waqiByCoords);
    var fires := Providers.NasaFirmsFires(obs.firms);
    var density := Density(info.poblacion, obs.areaDraw);
    CityData(
      name,
      info.estado,
      info.coords.lat,
      info.coords.lon,
      info.poblacion,
      if air.Some? then Some(air.value.aqi) else None,
      if air.Some? then air.value.pm25 else None,
      if air.Some? then air.value.pm10 else None,
      if air.Some? then air.value.no2 else None,
      if air.Some? then air.value.o3 else None,
      if obs.weather.Some? then Some(obs.weather.value.temperature) else None,
      if obs.weather.Some? then Some(obs.weather.value.humidity) else None,
      if obs.weather.Some? then Some(obs.weather.value.windSpeed) else None,
      Providers.GreenRatioEstimate(info.poblacion),
      Providers.NdviEstimate(info.coords.lat),
      density,
      Providers.NoiseEstimate(density, obs.noiseDraw),
      75.0,
      Providers.HealthcareEstimate(info.poblacion),
      if fires.Some? then fires.value.firesDetected else 0,
      if fires.Some? then fires.value.risk.Label() else "Bajo")
  }

  /** The population density over an area of 150 km2 plus the area draw. */
  function Density(poblacion: int, areaDraw: real): (density: real)
    requires 50.0 <= areaDraw
    ensures density * (150.0 + areaDraw) == poblacion as real
    ensures poblacion >= 0 ==> 0.0 <= density <= poblacion as real / 200.0
  {
    var area := 150.0 + areaDraw;
    assert poblacion >= 0 ==> poblacion as real / area <= poblacion as real / 200.0 by {
      if poblacion >= 0 { DivideByLarger(poblacion as real, 200.0, area); }
    }
    poblacion as real / area
  }

  lemma DivideByLarger(x: real, lo: real, hi: real)
    requires 0.0 <= x && 0.0 < lo <= hi
    ensures 0.0 <= x / hi <= x / lo
  {
    assert x / hi * hi == x;
    assert x / lo * lo == x;
  }

  /** The indicators the score reads from a city record. */
  function ScoreInputsOf(d: CityData): Scoring.ScoreInputs {
    Scoring.ScoreInputs(
      d.airQualityIndex, d.pm25Concentration,
      Some(d.greenSpaceRatio), Some(d.ndviValue),
      d.temperatureAvg, d.humidityAvg,
      Some(d.populationDensity), Some(d.noisePollutionDb),
      Some(d.healthcareAccessibility))
  }

  /** Which categories a city's score uses: the green, urban and healthcare
      categories always, air exactly when an accepted WAQI reply carries a PM2.5
      value, climate exactly when a weather reading arrived. */
  lemma RecordCategories(name: string, info: CityInfo, obs: Observations)
    requires DrawInRange(obs)
    ensures var inputs := ScoreInputsOf(CityDataOf(name, info, obs));
            var air := Providers.AirQualityData(obs.waqiByName, obs.waqiByCoords);
            && Scoring.Complete(inputs, Scoring.Green)
            && Scoring.Complete(inputs, Scoring.Urban)
            && Scoring.Complete(inputs, Scoring.Healthcare)
            && (Scoring.Complete(inputs, Scoring.Air) <==> air.Some? && air.value.pm25.Some?)
            && (Scoring.Complete(inputs, Scoring.Climate) <==> obs.weather.Some?)
  {
  }

  /** A city record's indicators are within their physical ranges, so its score
      is the weighted mean itself: the final clip to [0,100] never acts. */
  lemma RecordScoreUnclipped(name: string, info: CityInfo, obs: Observations)
    requires DrawInRange(obs)
    ensures var inputs := ScoreInputsOf(CityDataOf(name, info, obs));
            Scoring.IncludedCategories(inputs) != [] &&
            Scoring.HealthScore(inputs) == Scoring.WeightedMean(inputs)
  {
    var inputs := ScoreInputsOf(CityDataOf(name, info, obs));
    assert Scoring.Complete(inputs, Scoring.Healthcare);
    assert Scoring.Healthcare in Scoring.IncludedCategories(inputs);
    Scoring.ClipInactiveInRange(inputs);
  }

  /** `city_data` once the score and the advisor's prediction and recommendations
      are added. */
  datatype Analysis = Analysis(data: CityData, healthScore: real, aiPrediction: string,
                               aiRecommendations: seq<string>)

  /** The analysis of a city found in the registry. */
  function AnalysisOf(name: string, info: CityInfo, obs: Observations): (a: Analysis)
    requires DrawInRange(obs)
    ensures 0.0 <= a.healthScore <= 100.0
    ensures a.aiPrediction != [] && a.aiRecommendations != []
    ensures a.data.city == name && a.data.state == info.estado && a.data.population == info.poblacion
    ensures a.healthScore == Scoring.WeightedMean(ScoreInputsOf(a.data))
  {
    RecordScoreUnclipped(name, info, obs);
    var d := CityDataOf(name, info, obs);
    var advice := Advisory.AdviceOf(obs.advisor);
    Analysis(d, Scoring.HealthScore(ScoreInputsOf(d)), advice.prediction, advice.recommendations)
  }

  /** `analyze_single_city`: `None` for a name the registry does not know,
      otherwise the analysis of what the lookup found. */
  function SingleCityAnalysis(cities: Cities, catalog: Catalog, name: string, obs: Observations): Option<Analysis>
    requires CatalogValid(catalog) && DrawInRange(obs)
  {
    match Lookup(cities, catalog, name)
    case None => None
    case Some(info) => Some(AnalysisOf(name, info, obs))
  }

  /** The analysis is refused exactly for names that are neither cities nor
      listed by any state of the catalog. */
  lemma SingleCityAnalysisNoneIff(cities: Cities, catalog: Catalog, name: string, obs: Observations)
    requires CatalogValid(catalog) && DrawInRange(obs)
    ensures SingleCityAnalysis(cities, catalog, name, obs).None? <==>
            name !in cities.values && forall i :: 0 <= i < |catalog.keys| ==> !ListedIn(catalog, name, i)
  {
    LookupNoneIff(cities, catalog, name);
  }

  // ---------------------------------------------------------------------------
  // The analyzer object

  class Analyzer {
    /** `mexican_cities`. */
    var mexicanCities: Cities
    /** `municipios_por_estado`. */
    var municipiosPorEstado: Catalog

    ghost predicate Valid()
      reads this
    {
      Dicts.Valid(mexicanCities) && CatalogValid(municipiosPorEstado)
    }

    /** The built-in city dictionary (a literal, later entries overriding earlier
        ones with the same name) and an empty catalog. */
    constructor (builtIn: seq<(string, CityInfo)>)
      ensures Valid()
      ensures mexicanCities == PutAll(Empty(), builtIn)
      ensures municipiosPorEstado == Empty()
    {
      mexicanCities := PutAll(Empty(), builtIn);
      municipiosPorEstado := Empty();
    }

    /** `load_municipios_from_external`: keeps the catalog and adds every
        municipio whose name is not yet a city, state by state in catalog
        order. */
    method LoadMunicipiosFromExternal(catalog: Catalog)
      requires Valid() && CatalogValid(catalog)
      modifies this
      ensures Valid()
      ensures municipiosPorEstado == catalog
      ensures mexicanCities == Merge(old(mexicanCities), catalog)
    {
      ghost var start := mexicanCities;
      municipiosPorEstado := catalog;
      for i := 0 to |catalog.keys|
        invariant municipiosPorEstado == catalog
        invariant mexicanCities == MergeStates(start, catalog, i)
      {
        var municipios := catalog.values[catalog.keys[i]];
        for j := 0 to |municipios.keys|
          invariant municipiosPorEstado == catalog
          invariant mexicanCities == MergeMunicipios(MergeStates(start, catalog, i), municipios, j)
        {
          var name := municipios.keys[j];
          if name !in mexicanCities.values {
            mexicanCities := Put(mexicanCities, name, ToCityInfo(municipios.values[name]));
          }
        }
      }
    }

    /** The lookup at the start of `analyze_single_city`. */
    method FindCity(name: string) returns (info: Option<CityInfo>)
      requires Valid()
      ensures info == Lookup(mexicanCities, municipiosPorEstado, name)
    {
      if name !in mexicanCities.values {
        var cityFound := false;
        var listing: Option<MunicipioInfo> := None;
        for i := 0 to |municipiosPorEstado.keys|
          invariant !cityFound && listing == FirstListing(municipiosPorEstado, name, i)
        {
          var municipios := municipiosPorEstado.values[municipiosPorEstado.keys[i]];
          if name in municipios.values {
            listing := Some(municipios.values[name]);
            cityFound := true;
            assert listing == FirstListing(municipiosPorEstado, name, |municipiosPorEstado.keys|) by {
              FirstListingStable(municipiosPorEstado, name, i + 1, |municipiosPorEstado.keys|);
            }
            break;
          }
        }
        if !cityFound {
          return None;
        }
        info := Some(ToCityInfo(listing.value));
      } else {
        info := Some(mexicanCities.values[name]);
      }
    }

    /** `analyze_single_city`: look the city up, assemble its record from the
        observations, score it and ask the advisor. */
    method AnalyzeSingleCity(cityName: string, obs: Observations) returns (result: Option<Analysis>)
      requires Valid() && DrawInRange(obs)
      ensures result == SingleCityAnalysis(mexicanCities, municipiosPorEstado, cityName, obs)
    {
      var cityInfo := FindCity(cityName);
      if cityInfo.None? {
        return None;
      }
      var cityData := CityDataOf(cityName, cityInfo.value, obs);
      var healthScore := Scoring.CalculateHealthScore(ScoreInputsOf(cityData));
      var aiInsights := Advisory.GenerateRecommendations(obs.advisor);
      result := Some(Analysis(cityData, healthScore, aiInsights.prediction, aiInsights.recommendations));
    }

    /** `get_all_cities_by_state`: the state's municipios, then the cities of the
        state not already listed. */
    method GetAllCitiesByState(estadoNombre: string) returns (citiesInState: seq<CityEntry>)
      requires Valid()
      ensures citiesInState == CitiesByState(mexicanCities, municipiosPorEstado, estadoNombre)
    {
      citiesInState := [];
      if estadoNombre in municipiosPorEstado.values {
        var municipios := municipiosPorEstado.values[estadoNombre];
        for j := 0 to |municipios.keys|
          invariant citiesInState == MunicipioEntries(municipios, j)
        {
          var name := municipios.keys[j];
          citiesInState := citiesInState + [MunicipioEntry(name, municipios.values[name])];
        }
      }
      ghost var listed := citiesInState;
      for j := 0 to |mexicanCities.keys|
        invariant citiesInState == WithCities(listed, mexicanCities, estadoNombre, j)
      {
        var name := mexicanCities.keys[j];
        var city := mexicanCities.values[name];
        if city.estado == estadoNombre {
          if !Named(citiesInState, name) {
            citiesInState := citiesInState + [CityInfoEntry(name, city)];
          }
        }
      }
    }
  }
}
