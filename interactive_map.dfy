/** The catalog views of the interactive map's web routes: the city index of the
    main page, the list of all places, the places of one state, and the
    not-found check and response of the city analysis route. The application
    holds one analyzer, loaded at start-up with the external catalog of
    municipios per state, and the table of states. */
module InteractiveMap {
  import opened Wrappers
  import opened Dicts
  import opened HealthAnalyzer
  import Providers

  // ---------------------------------------------------------------------------
  // `get_aqi_status`

  /** The legible bands of the air quality index. */
  datatype AqiBand = Bueno | Moderado | Malo | MuyMalo | Peligroso | MuyPeligroso {
    function Label(): string {
      match this
      case Bueno => "Bueno"
      case Moderado => "Moderado"
      case Malo => "Malo"
      case MuyMalo => "Muy Malo"
      case Peligroso => "Peligroso"
      case MuyPeligroso => "Muy Peligroso"
    }

    function Level(): nat {
      match this
      case Bueno => 0
      case Moderado => 1
      case Malo => 2
      case MuyMalo => 3
      case Peligroso => 4
      case MuyPeligroso => 5
    }
  }

  /** The band of an AQI value, each bound included in the lower band. */
  function AqiStatus(aqi: real): (band: AqiBand)
    ensures band == Bueno <==> aqi <= 50.0
    ensures band == Moderado <==> 50.0 < aqi <= 100.0
    ensures band == Malo <==> 100.0 < aqi <= 150.0
    ensures band == MuyMalo <==> 150.0 < aqi <= 200.0
    ensures band == Peligroso <==> 200.0 < aqi <= 300.0
    ensures band == MuyPeligroso <==> aqi > 300.0
  {
    if aqi <= 50.0 then Bueno
    else if aqi <= 100.0 then Moderado
    else if aqi <= 150.0 then Malo
    else if aqi <= 200.0 then MuyMalo
    else if aqi <= 300.0 then Peligroso
    else MuyPeligroso
  }

  /** Worse air never gets a better band. */
  lemma AqiStatusMonotone(a1: real, a2: real)
    requires a1 <= a2
    ensures AqiStatus(a1).Level() <= AqiStatus(a2).Level()
  {
  }

  // ---------------------------------------------------------------------------
  // Lists built from the catalog and from the analyzer's cities

  /** `f` applied to the first `n` municipios of one state, in order. */
  function MunicipiosMap<T>(estado: string, ms: Municipios, f: (string, string, MunicipioInfo) -> T, n: nat): (r: seq<T>)
    requires Valid(ms) && n <= |ms.keys|
    ensures |r| == n
    ensures forall j :: 0 <= j < n ==> r[j] == f(estado, ms.keys[j], ms.values[ms.keys[j]])
  {
    if n == 0 then []
    else MunicipiosMap(estado, ms, f, n - 1) + [f(estado, ms.keys[n - 1], ms.values[ms.keys[n - 1]])]
  }

  /** `f` applied to every municipio of the first `m` states, state by state. */
  function CatalogMap<T>(catalog: Catalog, f: (string, string, MunicipioInfo) -> T, m: nat): seq<T>
    requires CatalogValid(catalog) && m <= |catalog.keys|
  {
    if m == 0 then []
    else
      var ms := StateMunicipios(catalog, m - 1);
      CatalogMap(catalog, f, m - 1) + MunicipiosMap(catalog.keys[m - 1], ms, f, |ms.keys|)
  }

  /** One more state of the catalog. */
  lemma CatalogMapStep<T>(catalog: Catalog, f: (string, string, MunicipioInfo) -> T, m: nat)
    requires CatalogValid(catalog) && m < |catalog.keys|
    ensures var estado := catalog.keys[m];
            var ms := catalog.values[estado];
            CatalogMap(catalog, f, m + 1) == CatalogMap(catalog, f, m) + MunicipiosMap(estado, ms, f, |ms.keys|)
  {
  }

  /** `f` applied to the j-th municipio of the i-th state. */
  function AtMunicipio<T>(catalog: Catalog, f: (string, string, MunicipioInfo) -> T, i: nat, j: nat): T
    requires CatalogValid(catalog) && i < |catalog.keys| && j < |StateMunicipios(catalog, i).keys|
  {
    var ms := StateMunicipios(catalog, i);
    f(catalog.keys[i], ms.keys[j], ms.values[ms.keys[j]])
  }

  /** `x` is the item of some municipio of the i-th state. */
  predicate InState<T(==)>(catalog: Catalog, f: (string, string, MunicipioInfo) -> T, i: nat, x: T)
    requires CatalogValid(catalog) && i < |catalog.keys|
  {
    exists j :: 0 <= j < |StateMunicipios(catalog, i).keys| && x == AtMunicipio(catalog, f, i, j)
  }

  /** The items of one state are its municipios' items. */
  lemma StateMapMember<T>(catalog: Catalog, f: (string, string, MunicipioInfo) -> T, i: nat, x: T)
    requires CatalogValid(catalog) && i < |catalog.keys|
    ensures var ms := StateMunicipios(catalog, i);
            x in MunicipiosMap(catalog.keys[i], ms, f, |ms.keys|) <==> InState(catalog, f, i, x)
  {
    var ms := StateMunicipios(catalog, i);
    var items := MunicipiosMap(catalog.keys[i], ms, f, |ms.keys|);
    if x in items {
      var j :| 0 <= j < |items| && items[j] == x;
      assert x == AtMunicipio(catalog, f, i, j);
    }
  }

  /** `x` is the item of some municipio of one of the first `m` states. */
  predicate InStates<T(==)>(catalog: Catalog, f: (string, string, MunicipioInfo) -> T, m: nat, x: T)
    requires CatalogValid(catalog) && m <= |catalog.keys|
  {
    m > 0 && (InStates(catalog, f, m - 1, x) || InState(catalog, f, m - 1, x))
  }

  /** The item of a municipio of one of the first `m` states is among them. */
  lemma {:induction false} InStatesIntro<T>(catalog: Catalog, f: (string, string, MunicipioInfo) -> T, m: nat, i: nat, x: T)
    requires CatalogValid(catalog) && i < m <= |catalog.keys|
    requires InState(catalog, f, i, x)
    ensures InStates(catalog, f, m, x)
  {
    if i < m - 1 {
      InStatesIntro(catalog, f, m - 1, i, x);
    }
  }

  /** An item among the first `m` states belongs to one of them. */
  lemma {:induction false} InStatesElim<T>(catalog: Catalog, f: (string, string, MunicipioInfo) -> T, m: nat, x: T)
    returns (i: nat)
    requires CatalogValid(catalog) && m <= |catalog.keys|
    requires InStates(catalog, f, m, x)
    ensures i < m && InState(catalog, f, i, x)
  {
    if InState(catalog, f, m - 1, x) {
      i := m - 1;
    } else {
      i := InStatesElim(catalog, f, m - 1, x);
    }
  }

  /** The list holds one item per municipio of the states visited, and nothing else. */
  lemma {:induction false} CatalogMapMember<T>(catalog: Catalog, f: (string, string, MunicipioInfo) -> T, m: nat, x: T)
    requires CatalogValid(catalog) && m <= |catalog.keys|
    ensures x in CatalogMap(catalog, f, m) <==> InStates(catalog, f, m, x)
  {
    if m > 0 {
      CatalogMapMember(catalog, f, m - 1, x);
      StateMapMember(catalog, f, m - 1, x);
    }
  }

  /** `g` applied to those of the first `n` cities that `keep` accepts, in order. */
  function CitiesMap<T>(cities: Cities, keep: (string, CityInfo) -> bool, g: (string, CityInfo) -> T, n: nat): seq<T>
    requires Valid(cities) && n <= |cities.keys|
  {
    if n == 0 then []
    else
      var prev := CitiesMap(cities, keep, g, n - 1);
      var name := cities.keys[n - 1];
      if keep(name, cities.values[name]) then prev + [g(name, cities.values[name])] else prev
  }

  /** The list holds one item per accepted city, and nothing else. */
  lemma {:induction false} CitiesMapMember<T>(cities: Cities, keep: (string, CityInfo) -> bool, g: (string, CityInfo) -> T,
                                              n: nat, x: T)
    requires Valid(cities) && n <= |cities.keys|
    ensures x in CitiesMap(cities, keep, g, n) <==>
            exists j :: 0 <= j < n && keep(cities.keys[j], cities.values[cities.keys[j]])
                        && x == g(cities.keys[j], cities.values[cities.keys[j]])
  {
    if n > 0 {
      CitiesMapMember(cities, keep, g, n - 1, x);
    }
  }

  // ---------------------------------------------------------------------------
  // `index`

  /** One value of `all_cities_dict`. */
  datatype IndexEntry = IndexEntry(coords: Coords, estado: string, poblacion: int, lat: real, lon: real,
                                   tipo: string, nombre: string)

  /** The key of a place: its name and its state. */
  function Key(name: string, estado: string): string {
    name + ", " + estado
  }

  /** The index entry of an analyzer city, keyed with its own state. */
  function CityPair(name: string, c: CityInfo): (string, IndexEntry) {
    (Key(name, c.estado), IndexEntry(c.coords, c.estado, c.poblacion, c.coords.lat, c.coords.lon,
                                     c.tipo.GetOr("ciudad"), name))
  }

  /** The index entry of a municipio, keyed with the catalog state listing it. */
  function MunicipioPair(estado: string, name: string, m: MunicipioInfo): (string, IndexEntry) {
    (Key(name, estado), IndexEntry(m.coords, m.estado, m.poblacion, m.lat, m.lon, m.tipo, name))
  }

  /** Of the first `n` analyzer cities, those written to the index: the ones
      whose state the catalog lacks. */
  function CityPairsUpTo(cities: Cities, catalog: Catalog, n: nat): seq<(string, IndexEntry)>
    requires Valid(cities) && CatalogValid(catalog) && n <= |cities.keys|
  {
    CitiesMap(cities, (name: string, c: CityInfo) => c.estado !in catalog.values, CityPair, n)
  }

  /** One more city: its pair is written when the catalog lacks its state. */
  lemma CityPairsStep(cities: Cities, catalog: Catalog, j: nat)
    requires Valid(cities) && CatalogValid(catalog) && j < |cities.keys|
    ensures var name := cities.keys[j];
            var c := cities.values[name];
            CityPairsUpTo(cities, catalog, j + 1)
            == CityPairsUpTo(cities, catalog, j) + (if c.estado !in catalog.values then [CityPair(name, c)] else [])
  {
  }

  function CityPairs(cities: Cities, catalog: Catalog): seq<(string, IndexEntry)>
    requires Valid(cities) && CatalogValid(catalog)
  {
    CityPairsUpTo(cities, catalog, |cities.keys|)
  }

  /** Every municipio of every state, written to the index after the cities. */
  function MunicipioPairs(catalog: Catalog): seq<(string, IndexEntry)>
    requires CatalogValid(catalog)
  {
    CatalogMap(catalog, MunicipioPair, |catalog.keys|)
  }

  /** The dictionary `index` renders. */
  function IndexOf(cities: Cities, catalog: Catalog): Dict<string, IndexEntry>
    requires Valid(cities) && CatalogValid(catalog)
  {
    PutAll(PutAll(Empty(), CityPairs(cities, catalog)), MunicipioPairs(catalog))
  }

  /** Each municipio is in the index under its name and catalog state. */
  lemma IndexHasEveryMunicipio(cities: Cities, catalog: Catalog, i: nat, j: nat)
    requires Valid(cities) && CatalogValid(catalog)
    requires i < |catalog.keys| && j < |StateMunicipios(catalog, i).keys|
    ensures Key(StateMunicipios(catalog, i).keys[j], catalog.keys[i]) in IndexOf(cities, catalog).values
  {
    var p := AtMunicipio(catalog, MunicipioPair, i, j);
    assert InState(catalog, MunicipioPair, i, p);
    InStatesIntro(catalog, MunicipioPair, |catalog.keys|, i, p);
    CatalogMapMember(catalog, MunicipioPair, |catalog.keys|, p);
    PutAllWritten(PutAll(Empty(), CityPairs(cities, catalog)), MunicipioPairs(catalog), p.0);
  }

  /** A key some municipio takes holds a municipio's entry: municipios override
      cities. */
  lemma IndexMunicipiosWin(cities: Cities, catalog: Catalog, k: string)
    requires Valid(cities) && CatalogValid(catalog)
    requires exists p :: p in MunicipioPairs(catalog) && p.0 == k
    ensures k in IndexOf(cities, catalog).values
    ensures (k, IndexOf(cities, catalog).values[k]) in MunicipioPairs(catalog)
  {
    PutAllWritten(PutAll(Empty(), CityPairs(cities, catalog)), MunicipioPairs(catalog), k);
  }

  /** Any other key holds the entry of an analyzer city from a state the catalog
      lacks. */
  lemma IndexOtherKeys(cities: Cities, catalog: Catalog, k: string)
    requires Valid(cities) && CatalogValid(catalog)
    requires k in IndexOf(cities, catalog).values
    requires forall p :: p in MunicipioPairs(catalog) ==> p.0 != k
    ensures exists name :: name in cities.values && cities.values[name].estado !in catalog.values
                           && (k, IndexOf(cities, catalog).values[k]) == CityPair(name, cities.values[name])
  {
    var pairs := CityPairs(cities, catalog);
    var base := PutAll(Empty(), pairs);
    assert k in base.values && IndexOf(cities, catalog).values[k] == base.values[k] by {
      NotWrittenKept(base, MunicipioPairs(catalog), k);
    }
    assert (k, base.values[k]) in pairs by {
      WrittenFromEntries(pairs, k);
    }
    CitiesMapMember(cities, (name: string, c: CityInfo) => c.estado !in catalog.values, CityPair,
                    |cities.keys|, (k, base.values[k]));
  }

  /** A key in the dictionary that the entries do not write was there before. */
  lemma NotWrittenKept(d: Dict<string, IndexEntry>, entries: seq<(string, IndexEntry)>, k: string)
    requires Valid(d) && k in PutAll(d, entries).values
    requires forall p :: p in entries ==> p.0 != k
    ensures k in d.values && PutAll(d, entries).values[k] == d.values[k]
  {
    PutAllKeys(d, entries);
    forall j | 0 <= j < |entries| ensures entries[j].0 != k {
      assert entries[j] in entries;
    }
    PutAllUntouched(d, entries, k);
  }

  /** A key in a dictionary built from nothing holds one of the entries written. */
  lemma WrittenFromEntries(entries: seq<(string, IndexEntry)>, k: string)
    requires k in PutAll(Empty(), entries).values
    ensures (k, PutAll(Empty(), entries).values[k]) in entries
  {
    PutAllKeys(Empty<string, IndexEntry>(), entries);
    var j :| 0 <= j < |entries| && entries[j].0 == k;
    assert entries[j] in entries;
    PutAllWritten(Empty(), entries, k);
  }

  /** An analyzer city whose state the catalog lacks is in the index under
      "name, state". */
  lemma IndexCityIncluded(cities: Cities, catalog: Catalog, name: string)
    requires Valid(cities) && CatalogValid(catalog)
    requires name in cities.values && cities.values[name].estado !in catalog.values
    ensures Key(name, cities.values[name].estado) in IndexOf(cities, catalog).values
  {
    var p := CityPair(name, cities.values[name]);
    var j :| 0 <= j < |cities.keys| && cities.keys[j] == name;
    CitiesMapMember(cities, (name: string, c: CityInfo) => c.estado !in catalog.values, CityPair,
                    |cities.keys|, p);
    PutAllWritten(Empty(), CityPairs(cities, catalog), p.0);
    var base := PutAll(Empty(), CityPairs(cities, catalog));
    PutAllKeys(base, MunicipioPairs(catalog));
  }

  // ---------------------------------------------------------------------------
  // `get_cities` and `get_cities_by_state`

  /** One item of the place lists the routes return. */
  datatype CityRow = CityRow(name: string, estado: string, lat: real, lon: real, poblacion: int,
                             tipo: string, coords: Coords)

  function MunicipioRow(estado: string, name: string, m: MunicipioInfo): CityRow {
    CityRow(name, m.estado, m.lat, m.lon, m.poblacion, m.tipo, m.coords)
  }

  /** An analyzer city's row: its latitude and longitude are taken from `coords`,
      a missing `tipo` reads `ciudad`. */
  function CityRowOf(name: string, c: CityInfo): CityRow {
    CityRow(name, c.estado, c.coords.lat, c.coords.lon, c.poblacion, c.tipo.GetOr("ciudad"), c.coords)
  }

  /** The set of names of some rows. */
  function Names(rows: seq<CityRow>): set<string> {
    set i | 0 <= i < |rows| :: rows[i].name
  }

  /** The municipio rows of every state, state by state. */
  function AllMunicipioRows(catalog: Catalog): seq<CityRow>
    requires CatalogValid(catalog)
  {
    CatalogMap(catalog, MunicipioRow, |catalog.keys|)
  }

  /** Of the first `n` analyzer cities, in order, those whose names are not in `names`. */
  function RowsNotNamedUpTo(cities: Cities, names: set<string>, n: nat): seq<CityRow>
    requires Valid(cities) && n <= |cities.keys|
  {
    CitiesMap(cities, (name: string, c: CityInfo) => name !in names, CityRowOf, n)
  }

  function RowsNotNamed(cities: Cities, names: set<string>): seq<CityRow>
    requires Valid(cities)
  {
    RowsNotNamedUpTo(cities, names, |cities.keys|)
  }

  /** The list `get_cities` returns: every municipio, then every analyzer city
      not named among them. */
  function CitiesListing(cities: Cities, catalog: Catalog): seq<CityRow>
    requires Valid(cities) && CatalogValid(catalog)
  {
    var rows := AllMunicipioRows(catalog);
    rows + RowsNotNamed(cities, Names(rows))
  }

  /** Every analyzer city is named in the list. */
  lemma CitiesListingNamesEveryCity(cities: Cities, catalog: Catalog, name: string)
    requires Valid(cities) && CatalogValid(catalog) && name in cities.values
    ensures name in Names(CitiesListing(cities, catalog))
  {
    var rows := AllMunicipioRows(catalog);
    var listing := CitiesListing(cities, catalog);
    if name in Names(rows) {
      var i :| 0 <= i < |rows| && rows[i].name == name;
      assert listing[i] == rows[i];
    } else {
      var j :| 0 <= j < |cities.keys| && cities.keys[j] == name;
      var row := CityRowOf(name, cities.values[name]);
      CitiesMapMember(cities, (n: string, c: CityInfo) => n !in Names(rows), CityRowOf, |cities.keys|, row);
      var extra := RowsNotNamed(cities, Names(rows));
      var e :| 0 <= e < |extra| && extra[e] == row;
      assert listing[|rows| + e] == row;
    }
  }

  /** Each row is a municipio of the catalog or an analyzer city not named among
      the municipios. */
  lemma CitiesListingRowOrigin(cities: Cities, catalog: Catalog, row: CityRow)
    requires Valid(cities) && CatalogValid(catalog) && row in CitiesListing(cities, catalog)
    ensures || InStates(catalog, MunicipioRow, |catalog.keys|, row)
            || (row.name in cities.values && row.name !in Names(AllMunicipioRows(catalog))
                && row == CityRowOf(row.name, cities.values[row.name]))
  {
    var rows := AllMunicipioRows(catalog);
    CatalogMapMember(catalog, MunicipioRow, |catalog.keys|, row);
    if row !in rows {
      CitiesMapMember(cities, (n: string, c: CityInfo) => n !in Names(rows), CityRowOf, |cities.keys|, row);
      var j :| 0 <= j < |cities.keys| && cities.keys[j] !in Names(rows)
               && row == CityRowOf(cities.keys[j], cities.values[cities.keys[j]]);
      assert cities.keys[j] in cities.values;
    }
  }

  /** The municipio rows of one state, none when the catalog lacks it. */
  function StateMunicipioRows(catalog: Catalog, estado: string): seq<CityRow>
    requires CatalogValid(catalog)
  {
    if estado in catalog.values then
      var ms := catalog.values[estado];
      MunicipiosMap(estado, ms, MunicipioRow, |ms.keys|)
    else []
  }

  /** Of the first `n` analyzer cities, in order, those of one state whose names
      are not in `names`. */
  function StateRowsNotNamedUpTo(cities: Cities, estado: string, names: set<string>, n: nat): seq<CityRow>
    requires Valid(cities) && n <= |cities.keys|
  {
    CitiesMap(cities, (name: string, c: CityInfo) => c.estado == estado && name !in names, CityRowOf, n)
  }

  function StateRowsNotNamed(cities: Cities, estado: string, names: set<string>): seq<CityRow>
    requires Valid(cities)
  {
    StateRowsNotNamedUpTo(cities, estado, names, |cities.keys|)
  }

  /** The places listed for one state: its municipios, then its analyzer cities
      not named among them. */
  function StateListing(cities: Cities, catalog: Catalog, estado: string): seq<CityRow>
    requires Valid(cities) && CatalogValid(catalog)
  {
    var rows := StateMunicipioRows(catalog, estado);
    rows + StateRowsNotNamed(cities, estado, Names(rows))
  }

  /** Every analyzer city of the state is named in the list. */
  lemma StateListingNamesEveryCity(cities: Cities, catalog: Catalog, estado: string, name: string)
    requires Valid(cities) && CatalogValid(catalog)
    requires name in cities.values && cities.values[name].estado == estado
    ensures name in Names(StateListing(cities, catalog, estado))
  {
    var rows := StateMunicipioRows(catalog, estado);
    var listing := StateListing(cities, catalog, estado);
    if name in Names(rows) {
      var i :| 0 <= i < |rows| && rows[i].name == name;
      assert listing[i] == rows[i];
    } else {
      var j :| 0 <= j < |cities.keys| && cities.keys[j] == name;
      var row := CityRowOf(name, cities.values[name]);
      CitiesMapMember(cities, (n: string, c: CityInfo) => c.estado == estado && n !in Names(rows), CityRowOf,
                      |cities.keys|, row);
      var extra := StateRowsNotNamed(cities, estado, Names(rows));
      var e :| 0 <= e < |extra| && extra[e] == row;
      assert listing[|rows| + e] == row;
    }
  }

  /** After the state's municipios come only analyzer cities of that state not
      named among them. */
  lemma StateListingRowOrigin(cities: Cities, catalog: Catalog, estado: string, k: nat)
    requires Valid(cities) && CatalogValid(catalog)
    requires |StateMunicipioRows(catalog, estado)| <= k < |StateListing(cities, catalog, estado)|
    ensures var row := StateListing(cities, catalog, estado)[k];
            && row.name in cities.values && cities.values[row.name].estado == estado
            && row.name !in Names(StateMunicipioRows(catalog, estado))
            && row == CityRowOf(row.name, cities.values[row.name])
  {
    var rows := StateMunicipioRows(catalog, estado);
    var row := StateListing(cities, catalog, estado)[k];
    var extra := StateRowsNotNamed(cities, estado, Names(rows));
    assert row == extra[k - |rows|] && row in extra;
    CitiesMapMember(cities, (n: string, c: CityInfo) => c.estado == estado && n !in Names(rows), CityRowOf,
                    |cities.keys|, row);
    var j :| 0 <= j < |cities.keys| && cities.values[cities.keys[j]].estado == estado
             && cities.keys[j] !in Names(rows) && row == CityRowOf(cities.keys[j], cities.values[cities.keys[j]]);
    assert cities.keys[j] in cities.values;
  }

  /** The entry of a state in `ESTADOS_MEXICO`: how many keys its dictionary has
      and the four the route reads. */
  datatype StateInfo = StateInfo(keyCount: nat, capital: Option<string>, poblacion: Option<int>,
                                 superficie: Option<real>, descripcion: Option<string>)

  /** The reply of `get_cities_by_state`. */
  datatype StateReply =
    | StateNotFound
    | StateFound(estado: string, info: StateInfo, municipios: seq<CityRow>, count: nat)

  /** The reply of `get_cities`. */
  datatype CitiesReply = CitiesReply(totalMunicipios: nat, municipios: seq<CityRow>)

  // ---------------------------------------------------------------------------
  // `analyze_city`

  /** A name some state of the catalog lists. */
  predicate Listed(catalog: Catalog, name: string)
    requires CatalogValid(catalog)
  {
    exists i :: 0 <= i < |catalog.keys| && ListedIn(catalog, name, i)
  }

  /** `int(x)`: truncation toward zero. */
  function Trunc(x: real): (n: int)
    ensures x >= 0.0 ==> n as real <= x < n as real + 1.0
    ensures x < 0.0 ==> n as real - 1.0 < x <= n as real
  {
    if x >= 0.0 then x.Floor else -((-x).Floor)
  }

  /** The response of a successful analysis. */
  datatype CityResponse = CityResponse(
    aqi: real,
    status: AqiBand,
    pm25: Option<real>,
    pm10: Option<real>,
    temperatura: Option<real>,
    humedad: Option<real>,
    fires: nat,
    ndviPromedio: real,
    coberturaVerde: int,
    healthScore: real,
    prediction: string,
    recommendations: seq<string>)

  /** The replies of `analyze_city`: not found (404), a server error (500) with
      its message, or the analysis. */
  datatype AnalyzeReply = CityNotFound | ServerError(message: string) | Analysed(response: CityResponse)

  const CouldNotAnalyse: string := "No se pudo analizar la ciudad"

  /** The message of the `TypeError` raised by `None <= 50`. */
  const NoneComparison: string := "'<=' not supported between instances of 'NoneType' and 'int'"

  /** The reply for one analysis: the status of a missing AQI cannot be computed
      (the comparison raises), so the route answers with a server error. */
  function ResponseOf(a: Analysis): AnalyzeReply {
    if a.data.airQualityIndex.None? then ServerError(NoneComparison)
    else Analysed(ResponseData(a))
  }

  /** `response_data` for an analysis with an AQI: the green cover is the NDVI as
      a truncated percentage. */
  function ResponseData(a: Analysis): CityResponse
    requires a.data.airQualityIndex.Some?
  {
    var aqi := a.data.airQualityIndex.value;
    CityResponse(aqi, AqiStatus(aqi), a.data.pm25Concentration, a.data.pm10Concentration,
                 a.data.temperatureAvg, a.data.humidityAvg, a.data.firesDetected,
                 a.data.ndviValue, Trunc(a.data.ndviValue * 100.0), a.healthScore,
                 a.aiPrediction, a.aiRecommendations)
  }

  /** The reply of `analyze_city`. */
  function AnalyzeCityReply(cities: Cities, catalog: Catalog, name: string, obs: Observations): AnalyzeReply
    requires CatalogValid(catalog) && DrawInRange(obs)
  {
    if !Listed(catalog, name) && name !in cities.values then CityNotFound
    else
      match SingleCityAnalysis(cities, catalog, name, obs)
      case None => ServerError(CouldNotAnalyse)
      case Some(a) => ResponseOf(a)
  }

  /** The route's own not-found check agrees with the analyzer's lookup on the
      same catalog: a name that passes it is always analysed, so the "could not
      analyse" error never occurs. */
  lemma AnalyzeCityNotFoundIff(cities: Cities, catalog: Catalog, name: string, obs: Observations)
    requires CatalogValid(catalog) && DrawInRange(obs)
    ensures AnalyzeCityReply(cities, catalog, name, obs) == CityNotFound <==>
            SingleCityAnalysis(cities, catalog, name, obs).None?
    ensures AnalyzeCityReply(cities, catalog, name, obs) != ServerError(CouldNotAnalyse)
  {
    SingleCityAnalysisNoneIff(cities, catalog, name, obs);
  }

  /** A successful reply reports a positive AQI with its band, a score within
      [0,100], a non-empty prediction and recommendation list, and a green cover
      of 30, 50 or 70 percent. */
  lemma AnalyzeCitySuccess(cities: Cities, catalog: Catalog, name: string, obs: Observations)
    requires CatalogValid(catalog) && DrawInRange(obs)
    requires AnalyzeCityReply(cities, catalog, name, obs).Analysed?
    ensures var r := AnalyzeCityReply(cities, catalog, name, obs).response;
            && r.aqi > 0.0 && r.status == AqiStatus(r.aqi)
            && 0.0 <= r.healthScore <= 100.0
            && r.prediction != [] && r.recommendations != []
            && (r.coberturaVerde == 30 || r.coberturaVerde == 50 || r.coberturaVerde == 70)
  {
  }

  /** A found city whose air data could not be obtained gets a server error. */
  lemma AnalyzeCityWithoutAir(cities: Cities, catalog: Catalog, name: string, obs: Observations)
    requires CatalogValid(catalog) && DrawInRange(obs)
    requires Lookup(cities, catalog, name).Some?
    requires Providers.AirQualityData(obs.waqiByName, obs.waqiByCoords).None?
    ensures AnalyzeCityReply(cities, catalog, name, obs) == ServerError(NoneComparison)
  {
    LookupNoneIff(cities, catalog, name);
  }

  // ---------------------------------------------------------------------------
  // The loops of the routes

  /** The first loop of `index`: each analyzer city whose state the catalog
      lacks is written under "name, state". */
  method IndexCities(cities: Cities, catalog: Catalog) returns (allCitiesDict: Dict<string, IndexEntry>)
    requires Valid(cities) && CatalogValid(catalog)
    ensures allCitiesDict == PutAll(Empty(), CityPairs(cities, catalog))
  {
    ghost var cityPairs: seq<(string, IndexEntry)> := [];
    allCitiesDict := Empty();
    for j := 0 to |cities.keys|
      invariant cityPairs == CityPairsUpTo(cities, catalog, j)
      invariant allCitiesDict == PutAll(Empty(), cityPairs)
    {
      var cityName := cities.keys[j];
      var cityInfo := cities.values[cityName];
      var estado := cityInfo.estado;
      CityPairsStep(cities, catalog, j);
      if estado !in catalog.values {
        var entry := IndexEntry(cityInfo.coords, estado, cityInfo.poblacion, cityInfo.coords.lat,
                                cityInfo.coords.lon, cityInfo.tipo.GetOr("ciudad"), cityName);
        PutAllSnoc(Empty(), cityPairs, Key(cityName, estado), entry);
        cityPairs := cityPairs + [(Key(cityName, estado), entry)];
        allCitiesDict := Put(allCitiesDict, Key(cityName, estado), entry);
      }
    }
  }

  /** The second loop of `index`: every municipio of every state is written under
      "name, state", overwriting what is there. */
  method IndexMunicipios(base: Dict<string, IndexEntry>, catalog: Catalog) returns (allCitiesDict: Dict<string, IndexEntry>)
    requires Valid(base) && CatalogValid(catalog)
    ensures allCitiesDict == PutAll(base, MunicipioPairs(catalog))
  {
    allCitiesDict := base;
    for i := 0 to |catalog.keys|
      invariant allCitiesDict == PutAll(base, CatalogMap(catalog, MunicipioPair, i))
    {
      var estado := catalog.keys[i];
      var ms := StateMunicipios(catalog, i);
      allCitiesDict := IndexState(allCitiesDict, estado, ms);
      PutAllConcat(base, CatalogMap(catalog, MunicipioPair, i), MunicipiosMap(estado, ms, MunicipioPair, |ms.keys|));
    }
  }

  /** The inner loop of the second loop of `index`: the municipios of one state. */
  method IndexState(d: Dict<string, IndexEntry>, estado: string, ms: Municipios) returns (allCitiesDict: Dict<string, IndexEntry>)
    requires Valid(d) && Valid(ms)
    ensures allCitiesDict == PutAll(d, MunicipiosMap(estado, ms, MunicipioPair, |ms.keys|))
  {
    allCitiesDict := d;
    for j := 0 to |ms.keys|
      invariant allCitiesDict == PutAll(d, MunicipiosMap(estado, ms, MunicipioPair, j))
    {
      var municipioName := ms.keys[j];
      var info := ms.values[municipioName];
      var entry := IndexEntry(info.coords, info.estado, info.poblacion, info.lat, info.lon, info.tipo,
                              municipioName);
      PutAllSnoc(d, MunicipiosMap(estado, ms, MunicipioPair, j), Key(municipioName, estado), entry);
      allCitiesDict := Put(allCitiesDict, Key(municipioName, estado), entry);
    }
  }

  /** The first loop of `get_cities`: a row for every municipio of every state. */
  method CollectMunicipioRows(catalog: Catalog) returns (citiesData: seq<CityRow>)
    requires CatalogValid(catalog)
    ensures citiesData == AllMunicipioRows(catalog)
  {
    citiesData := [];
    for i := 0 to |catalog.keys|
      invariant citiesData == CatalogMap(catalog, MunicipioRow, i)
    {
      var estado := catalog.keys[i];
      var ms := catalog.values[estado];
      ghost var before := citiesData;
      for j := 0 to |ms.keys|
        invariant citiesData == before + MunicipiosMap(estado, ms, MunicipioRow, j)
      {
        var municipioName := ms.keys[j];
        citiesData := citiesData + [MunicipioRow(estado, municipioName, ms.values[municipioName])];
      }
      CatalogMapStep(catalog, MunicipioRow, i);
    }
  }

  /** The second loop of `get_cities`: a row for every analyzer city whose name
      is not in `names`. */
  method CollectRowsNotNamed(cities: Cities, names: set<string>) returns (rows: seq<CityRow>)
    requires Valid(cities)
    ensures rows == RowsNotNamed(cities, names)
  {
    rows := [];
    for j := 0 to |cities.keys|
      invariant rows == RowsNotNamedUpTo(cities, names, j)
    {
      var name := cities.keys[j];
      if name !in names {
        rows := rows + [CityRowOf(name, cities.values[name])];
      }
    }
  }

  // ---------------------------------------------------------------------------
  // The application

  class MapApp {
    /** The analyzer the routes share. */
    var analyzer: Analyzer
    /** `ESTADOS_MEXICO`. */
    var estados: map<string, StateInfo>
    /** `MUNICIPIOS_POR_ESTADO`. */
    var municipios: Catalog

    ghost predicate Valid()
      reads this, analyzer
    {
      analyzer.Valid() && analyzer.municipiosPorEstado == municipios
    }

    /** Start-up: the analyzer is created with its built-in cities and loaded
        with the catalog. */
    constructor (builtIn: seq<(string, CityInfo)>, estadosMexico: map<string, StateInfo>, catalog: Catalog)
      requires CatalogValid(catalog)
      ensures Valid() && fresh(analyzer)
      ensures estados == estadosMexico && municipios == catalog
      ensures analyzer.mexicanCities == Merge(PutAll(Empty(), builtIn), catalog)
    {
      var a := new Analyzer(builtIn);
      a.LoadMunicipiosFromExternal(catalog);
      analyzer := a;
      estados := estadosMexico;
      municipios := catalog;
    }

    /** `index`: the analyzer cities of states the catalog lacks, then every
        municipio, each under the key "name, state". */
    method Index() returns (allCitiesDict: Dict<string, IndexEntry>)
      requires Valid()
      ensures allCitiesDict == IndexOf(analyzer.mexicanCities, municipios)
    {
      allCitiesDict := IndexCities(analyzer.mexicanCities, municipios);
      allCitiesDict := IndexMunicipios(allCitiesDict, municipios);
    }

    /** `get_cities`: every municipio, then the analyzer cities not named among
        them; the total is the length of the list. */
    method GetCities() returns (reply: CitiesReply)
      requires Valid()
      ensures reply.municipios == CitiesListing(analyzer.mexicanCities, municipios)
      ensures reply.totalMunicipios == |reply.municipios|
    {
      var citiesData := CollectMunicipioRows(municipios);
      var municipiosAgregados := Names(citiesData);
      var extra := CollectRowsNotNamed(analyzer.mexicanCities, municipiosAgregados);
      citiesData := citiesData + extra;
      reply := CitiesReply(|citiesData|, citiesData);
    }

    /** `get_cities_by_state`: not found for a state without information;
        otherwise its municipios, then its analyzer cities not named among them,
        with their count. */
    method GetCitiesByState(estadoNombre: string) returns (reply: StateReply)
      requires Valid()
      ensures reply.StateNotFound? <==> estadoNombre !in estados || estados[estadoNombre].keyCount == 0
      ensures reply.StateFound? ==>
                && reply.estado == estadoNombre && reply.info == estados[estadoNombre]
                && reply.municipios == StateListing(analyzer.mexicanCities, municipios, estadoNombre)
                && reply.count == |reply.municipios|
    {
      if estadoNombre !in estados || estados[estadoNombre].keyCount == 0 {
        return StateNotFound;
      }
      var estadoInfo := estados[estadoNombre];
      var municipiosInState: seq<CityRow> := [];
      var catalog := municipios;
      if estadoNombre in catalog.values {
        var ms := catalog.values[estadoNombre];
        for j := 0 to |ms.keys|
          invariant municipiosInState == MunicipiosMap(estadoNombre, ms, MunicipioRow, j)
        {
          var municipioName := ms.keys[j];
          municipiosInState := municipiosInState + [MunicipioRow(estadoNombre, municipioName, ms.values[municipioName])];
        }
      }
      var municipiosAgregados := Names(municipiosInState);
      ghost var rows := municipiosInState;
      var cities := analyzer.mexicanCities;
      for j := 0 to |cities.keys|
        invariant municipiosInState == rows + StateRowsNotNamedUpTo(cities, estadoNombre, municipiosAgregados, j)
      {
        var name := cities.keys[j];
        var info := cities.values[name];
        if info.estado == estadoNombre && name !in municipiosAgregados {
          municipiosInState := municipiosInState + [CityRowOf(name, info)];
        }
      }
      reply := StateFound(estadoNombre, estadoInfo, municipiosInState, |municipiosInState|);
    }

    /** `analyze_city`: a 404 for a name no state lists and the analyzer does not
        know, otherwise the analysis and its response. */
    method AnalyzeCity(cityName: string, obs: Observations) returns (reply: AnalyzeReply)
      requires Valid() && DrawInRange(obs)
      ensures reply == AnalyzeCityReply(analyzer.mexicanCities, municipios, cityName, obs)
    {
      var catalog := municipios;
      var cityFound := false;
      for i := 0 to |catalog.keys|
        invariant !cityFound && forall i' :: 0 <= i' < i ==> !ListedIn(catalog, cityName, i')
      {
        if cityName in catalog.values[catalog.keys[i]].values {
          cityFound := true;
          assert ListedIn(catalog, cityName, i);
          break;
        }
      }
      assert cityFound <==> Listed(catalog, cityName);
      if !cityFound && cityName !in analyzer.mexicanCities.values {
        return CityNotFound;
      }
      var cityData := analyzer.AnalyzeSingleCity(cityName, obs);
      if cityData.Some? {
        var a := cityData.value;
        if a.data.airQualityIndex.None? {
          return ServerError(NoneComparison);
        }
        reply := Analysed(ResponseData(a));
      } else {
        reply := ServerError(CouldNotAnalyse);
      }
    }
  }
}
