# Mexico urban health analyzer: a verified model of its core

This project models the deterministic core of the Mexico urban health analyzer
(`MexicoHealthAnalyzer` and the Flask routes of the interactive map) in Dafny:

- the composite urban health score over five categories (air, green space,
  climate, urban environment, healthcare). Weights 0.30/0.25/0.20/0.15/0.10
  are renormalised over the categories whose inputs are all present. The
  result is clipped to [0,100], and the neutral 50 is used when no category
  is complete;
- the provider decisions. These are WAQI acceptance with the by-name then
  by-coordinates fallback, the NASA FIRMS fire count and risk ladder, the NDVI
  latitude bands, the clamped green-space, noise and healthcare estimates, and
  the map colour bands;
- the location registry (class `HealthAnalyzer.Analyzer`). It covers the
  built-in cities, the merge of the external catalog of municipios per state
  (an existing name is never overwritten), the lookup of a city, and the
  listing of one state's places;
- the assembly of a city record from the provider results, its score and its
  advice;
- the parser of the advisor's reply. It is a line-by-line state machine with
  a prediction section and a recommendation section, plus the defaults for an
  unconfigured, failing or unhelpful advisor;
- the catalog views of the web application (class `InteractiveMap.MapApp`):
  the index of the main page, the list of all places, the places of one state,
  the not-found check of the city analysis route, and the AQI status ladder.

Every external result is a parameter: WAQI replies, the weather reading, the
FIRMS reply, the advisor's reply, and the two random draws (extra area and
noise jitter). The contents of the data module that holds `ESTADOS_MEXICO` and
`MUNICIPIOS_POR_ESTADO` are parameters too. Arithmetic is exact (`real`), not
IEEE floating point.

Python dictionaries keep insertion order, so they are modelled as `Dicts.Dict`:
a key sequence plus a map. Assigning to an existing key keeps its position.

Behaviours of the code worth knowing:

- the advice's recommendation list has no upper bound. The advisor is asked
  for 5-7 recommendations (mexico_health_analyzer.py:196), but the parser
  keeps every bullet line of the recommendation section, however many there
  are;
- the city analysis route can fail with a server error for a city that exists.
  When no WAQI reply is accepted, the record's AQI is `None`. The route reads
  it with `city_data.get('air_quality_index', 0)`; the key is present, so the
  default is not used. `get_aqi_status(None)` then raises inside the route's
  `try`, and the reply is a 500 carrying the exception's message
  (`InteractiveMap.AnalyzeCityWithoutAir`);
- healthcare access has no random jitter; only noise and area do.

## Model

| member | source | states |
|---|---|---|
| Scoring.HealthScore | mexico_health_analyzer.py:946-1009 | The score always lies in [0,100], and it is exactly 50 when no category has complete inputs |
| Scoring.CalculateHealthScore | mexico_health_analyzer.py:946-1009 | The method (five guarded appends, weight normalisation, weighted sum, clip) computes exactly `HealthScore` |
| Scoring.CollectScores | mexico_health_analyzer.py:948-997 | The scores and weights appended are, in category order, the sub-scores and fixed weights of exactly the complete categories |
| Scoring.NormalizedWeightedSum | mexico_health_analyzer.py:1000-1006 | Dividing each weight by the total and summing score times normalised weight gives the weighted mean: the dot product over the total weight |
| Scoring.SumOf | mexico_health_analyzer.py:1002 | The loop computes the sum of the weights |
| Scoring.Normalize | mexico_health_analyzer.py:1003 | The loop yields each weight divided by the total, in order |
| Scoring.DotOf | mexico_health_analyzer.py:1006 | The loop computes the sum of pairwise products of scores and weights |
| Scoring.IncludedCategories | mexico_health_analyzer.py:952-994 | A category is included iff all of its inputs are present; each appears once, in the fixed order |
| Scoring.IncludedCategoriesUnfold | mexico_health_analyzer.py:952-997 | The included categories are air, green, climate, urban and healthcare, in that order, each exactly when complete |
| Scoring.NormalizedWeightsSumToOne | mexico_health_analyzer.py:1002-1003 | For every non-empty set of included categories, the total weight is positive and the renormalised weights sum to exactly 1 |
| Scoring.AllWeightsSumToOne | mexico_health_analyzer.py:957-997 | With all five categories present, the fixed weights already sum to 1 |
| Scoring.WeightedMeanWithin | mexico_health_analyzer.py:1002-1006 | The renormalised mean is a convex combination: it lies between any bounds that hold for every included sub-score |
| Scoring.ClipInactiveInRange | mexico_health_analyzer.py:1007 | For indicators in their physical ranges, the final clip never changes the weighted mean |
| Scoring.SingleCategoryScore | mexico_health_analyzer.py:1000-1007 | When exactly one category is complete, its weight renormalises to 1 and the score is its (clipped) sub-score |
| Scoring.AirOnlyExample | mexico_health_analyzer.py:952-1007 | A record with only AQI 45 and PM2.5 12 scores 0.6·85 + 0.4·76 = 81.4 |
| Scoring.ClimateAndHealthcareExample | mexico_health_analyzer.py:968-1007 | Temperature 22, humidity 50 and accessibility 10 alone score 100 (weights 0.20 and 0.10 renormalise to 2/3 and 1/3) |
| Scoring.AirScore | mexico_health_analyzer.py:953-955 | The air sub-score lies in [0,100]; it is 100 for non-positive readings and 0 at AQI ≥ 300 with PM2.5 ≥ 50 |
| Scoring.GreenScore | mexico_health_analyzer.py:961-963 | For a ratio in [0,1] and an NDVI in [-1,1], the green sub-score lies in [0,100] |
| Scoring.ClimateScore | mexico_health_analyzer.py:969-977 | The climate sub-score lies in [0,100]; it is 100 inside both comfort bands (18–26 °C, 40–60 %) |
| Scoring.UrbanScore | mexico_health_analyzer.py:983-989 | The urban sub-score lies in [0,100] whatever the density and noise |
| Scoring.HealthcareScore | mexico_health_analyzer.py:995 | For an accessibility in [0,10], the healthcare sub-score lies in [0,100] |
| Scoring.HealthBandOf | mexico_health_analyzer.py:1125-1131 | Each colour band is exactly the half-open score interval with lower bounds 85, 70, 55 and 40 |
| Scoring.HealthBandMonotone | mexico_health_analyzer.py:1125-1131 | A higher score never gets a worse colour band |
| Providers.PositiveAqi | mexico_health_analyzer.py:302-303 | An AQI is kept iff it is a number greater than 0 or the boolean `True` (an int, read as 1); a positive number is kept as it is; a missing value, `False`, a number ≤ 0, a string, null or a compound value are rejected |
| Providers.AcceptWaqi | mexico_health_analyzer.py:299-315 | A reply is accepted iff it is HTTP 200 with status 'ok', a `data` object, a positive numeric AQI and five pollutant lookups that evaluate; an accepted reading carries that AQI (> 0), each of pm25, pm10, no2, o3 and co as `iaqi.get(key, {}).get('v')`, and its source tag |
| Providers.AirQualityData | mexico_health_analyzer.py:290-347 | The by-name result wins; the coordinates result is used only when the by-name reply is rejected; `None` iff both are rejected |
| Providers.ByNameWins | mexico_health_analyzer.py:299-315 | Once the by-name reply is accepted, the coordinates reply cannot change the result |
| Providers.NotOkRejected | mexico_health_analyzer.py:301 | A reply whose status is not 'ok' is never accepted, whatever its AQI |
| Providers.FireRiskOf | mexico_health_analyzer.py:575-582 | The risk is Bajo iff 0 fires, Moderado iff 1–5, Alto iff 6–15 and Muy Alto iff more than 15 |
| Providers.FireRiskMonotone | mexico_health_analyzer.py:575-582 | More fires never give a lower risk |
| Providers.NasaFirmsFires | mexico_health_analyzer.py:541-591 | A report exists iff the reply is HTTP 200, and its risk is the ladder applied to its fire count |
| Providers.FiresAreLinesAfterHeader | mexico_health_analyzer.py:543-556 | The fire count is the number of lines after the header of the stripped body |
| Providers.BlankBodyNoFires | mexico_health_analyzer.py:545-553 | An empty or whitespace-only body reports 0 fires at risk Bajo |
| Providers.NdviEstimate | mexico_health_analyzer.py:617-622 | The NDVI is 0.7 iff lat < 20, 0.5 iff 20 ≤ lat < 24, and 0.3 iff lat ≥ 24 |
| Providers.NdviNonIncreasing | mexico_health_analyzer.py:617-622 | Further north never gets a greener estimate |
| Providers.GreenRatioEstimate | mexico_health_analyzer.py:684 | The green ratio lies in [0.2,0.7] and equals the raw formula whenever that is in range |
| Providers.GreenRatioNonIncreasing | mexico_health_analyzer.py:684 | A larger population never gets more green space |
| Providers.NoiseEstimate | mexico_health_analyzer.py:711 | The noise lies in [40,85] dB and equals 45 + density/100 + jitter whenever that is in range |
| Providers.NoiseNonDecreasing | mexico_health_analyzer.py:711 | With the same jitter, a denser city is never quieter |
| Providers.HealthcareEstimate | mexico_health_analyzer.py:712 | Healthcare access lies in [2,10] and equals 3 + 0.8 per million inhabitants whenever that is in range |
| Providers.HealthcareNonDecreasing | mexico_health_analyzer.py:712 | A larger population never gets worse healthcare access |
| Text.SplitJoin | mexico_health_analyzer.py:218 | Joining the pieces of `split('\n')` with the separator gives back the text |
| Text.SplitCount | mexico_health_analyzer.py:218 | `split` yields one more piece than there are separators |
| Text.StripEmptyIffAllSpace | mexico_health_analyzer.py:226-228 | A stripped line is empty exactly when the line is all whitespace |
| Text.LStripDropsOnlySpace | mexico_health_analyzer.py:226 | Stripping drops only whitespace from the front |
| Text.LStripCharsDropsOnly | mexico_health_analyzer.py:243 | `lstrip('•-* ')` drops only bullet characters and spaces, and stops at the first other character |
| Text.UpperCharwise | mexico_health_analyzer.py:230 | The model's `upper()` maps each character through `UpperChar`, one character for one, position by position (Python's own `upper()` agrees with it on the characters `UpperChar` models) |
| Advisory.ParseAdvisorLines | mexico_health_analyzer.py:218-243 | The loop with flags `in_prediction`/`in_recommendations` computes exactly the prediction text and recommendation list defined line by line |
| Advisory.StepMatchesSections | mexico_health_analyzer.py:225-243 | One loop iteration takes the sections of some lines to the sections of those lines plus one |
| Advisory.FlagsExclusive | mexico_health_analyzer.py:230-237 | The parser is never in both sections at once |
| Advisory.FlagsFollowLastHeader | mexico_health_analyzer.py:230-237 | The current section is the one named by the last header line |
| Advisory.FlagsWithoutHeader | mexico_health_analyzer.py:222-223 | Before any header line, no line belongs to a section |
| Advisory.RecommendationsAreClean | mexico_health_analyzer.py:241-243 | Every recommendation is non-empty and has no surrounding whitespace |
| Advisory.RecommendationsHaveNoHeaderWords | mexico_health_analyzer.py:230-243 | No recommendation contains a section header word, so header lines are never copied |
| Advisory.CleanBullet | mexico_health_analyzer.py:241 | The cleaned bullet text neither starts nor ends with whitespace |
| Advisory.AdviceOf | mexico_health_analyzer.py:170-258 | Prediction and list are never empty, and no item is empty. Unconfigured gives 'IA no disponible' with the configure hint; a raised error gives the failure text with 'Error: ' and the first 100 characters of the message; a reply gives the parsed stripped prediction or 'Análisis en progreso', the parsed list or the ask-experts default, and keeps the raw text, which only a reply has |
| Advisory.GenerateRecommendations | mexico_health_analyzer.py:165-258 | The method (unconfigured, raised and replied cases) computes exactly `AdviceOf` |
| HealthAnalyzer.Analyzer.constructor | mexico_health_analyzer.py:51-124 | The analyzer starts with the built-in cities (later duplicates win) and an empty catalog |
| HealthAnalyzer.Analyzer.LoadMunicipiosFromExternal | mexico_health_analyzer.py:125-145 | The catalog is replaced by the argument, and the cities become the state-by-state, first-wins merge of the catalog into the old cities |
| HealthAnalyzer.MergeNeverOverwrites | mexico_health_analyzer.py:133-136 | The merge never changes an existing city's entry |
| HealthAnalyzer.MergeNames | mexico_health_analyzer.py:133-143 | After the merge the names are exactly the old cities plus every municipio of every state; none is removed |
| HealthAnalyzer.MergeFirstStateWins | mexico_health_analyzer.py:133-143 | A new name gets the entry of the first state that lists it |
| HealthAnalyzer.MergeStatesKeepsOrder | mexico_health_analyzer.py:133-143 | The merge only appends: the old city names stay a prefix, in order |
| HealthAnalyzer.Analyzer.FindCity | mexico_health_analyzer.py:636-657 | The lookup tries the cities first, then the first catalog state listing the name |
| HealthAnalyzer.LookupNoneIff | mexico_health_analyzer.py:636-655 | A lookup fails iff the name is neither a city nor listed by any state |
| HealthAnalyzer.LookupAfterMerge | mexico_health_analyzer.py:636-657 | After the merge, looking a name up in the merged cities gives what the catalog fallback gave before |
| HealthAnalyzer.Analyzer.GetAllCitiesByState | mexico_health_analyzer.py:260-288 | The listing computes exactly the state's municipios in order, followed by the state's cities not yet named |
| HealthAnalyzer.CitiesByStateStartsWithMunicipios | mexico_health_analyzer.py:267-274 | The state's municipios come first, in catalog order |
| HealthAnalyzer.CitiesByStateDistinct | mexico_health_analyzer.py:276-286 | No name is listed twice |
| HealthAnalyzer.CitiesByStateListsEveryCity | mexico_health_analyzer.py:276-286 | Every city whose `estado` matches is listed |
| HealthAnalyzer.CitiesByStateOnlyState | mexico_health_analyzer.py:276-286 | After the municipios come only cities of that state, described as `mexican_cities` holds them |
| HealthAnalyzer.Density | mexico_health_analyzer.py:709-710 | The density times the area (150 km² plus the draw) is the population; for a non-negative population and a draw of at least 50 km² it lies between 0 and population/200 |
| HealthAnalyzer.CityDataOf | mexico_health_analyzer.py:709-740 | The record names the city, its state, population and coordinates. It has an AQI iff an air reading was accepted, and then copies its AQI and pollutants; otherwise the pollutants are absent too. The climate fields are present iff weather arrived and are then its values. The green ratio, NDVI, noise and healthcare are the estimators' values (so within their ranges), the water score is 75, the density is `Density(population, area draw)` (the population over 150 km² plus the draw, so at most population/200), and the fire count is the report's or 0 with 'Bajo' |
| HealthAnalyzer.RecordCategories | mexico_health_analyzer.py:709-743 | A record always scores green, urban and healthcare; it scores air iff an accepted WAQI reply has PM2.5, and climate iff weather arrived |
| HealthAnalyzer.RecordScoreUnclipped | mexico_health_analyzer.py:743 | A record's score is its weighted mean; the final clip never acts |
| HealthAnalyzer.AnalysisOf | mexico_health_analyzer.py:709-751 | The analysis has a score in [0,100] that is the weighted mean of its own record's indicators (the clip never acts), and a non-empty prediction and recommendation list, for the city's name, state and population |
| HealthAnalyzer.Analyzer.AnalyzeSingleCity | mexico_health_analyzer.py:630-752 | The method computes exactly the lookup, record, score and advice defined by `SingleCityAnalysis` |
| HealthAnalyzer.SingleCityAnalysisNoneIff | mexico_health_analyzer.py:636-655 | The analysis is `None` iff the name is neither a city nor listed by any state |
| InteractiveMap.AqiStatus | mexico_interactive_map.py:138-151 | The bands are exactly ≤50 Bueno, ≤100 Moderado, ≤150 Malo, ≤200 Muy Malo, ≤300 Peligroso, else Muy Peligroso |
| InteractiveMap.AqiStatusMonotone | mexico_interactive_map.py:138-151 | Worse air never gets a better band |
| InteractiveMap.MapApp.constructor | mexico_interactive_map.py:15-21 | At start-up the analyzer's cities are the built-in cities merged with the catalog, and its catalog is the application's |
| InteractiveMap.MapApp.Index | mexico_interactive_map.py:28-70 | The dictionary built is the index: cities of states absent from the catalog, then every municipio, keyed "name, state" |
| InteractiveMap.IndexCities | mexico_interactive_map.py:35-51 | The first loop writes exactly the cities whose state is not a catalog key |
| InteractiveMap.IndexMunicipios | mexico_interactive_map.py:53-66 | The second loop writes every municipio of every state over what is there |
| InteractiveMap.IndexState | mexico_interactive_map.py:55-66 | The inner loop writes the municipios of one state, in order |
| InteractiveMap.IndexHasEveryMunicipio | mexico_interactive_map.py:54-66 | Every municipio is in the index under its name and catalog state |
| InteractiveMap.IndexMunicipiosWin | mexico_interactive_map.py:54-66 | A key that some municipio takes holds a municipio's entry: municipios overwrite cities |
| InteractiveMap.IndexOtherKeys | mexico_interactive_map.py:37-51 | Any other key holds the entry of a city whose state the catalog lacks |
| InteractiveMap.IndexCityIncluded | mexico_interactive_map.py:37-51 | A city whose state the catalog lacks is in the index under "name, state" |
| InteractiveMap.MapApp.GetCities | mexico_interactive_map.py:202-237 | The list is every municipio, then the cities not named among them; `total_municipios` is its length |
| InteractiveMap.CollectMunicipioRows | mexico_interactive_map.py:207-218 | The first loop yields a row per municipio, state by state |
| InteractiveMap.CollectRowsNotNamed | mexico_interactive_map.py:221-232 | The second loop yields, in order, the cities whose name is not among the municipios |
| InteractiveMap.CitiesListingNamesEveryCity | mexico_interactive_map.py:205-232 | Every analyzer city is named in the list |
| InteractiveMap.CitiesListingRowOrigin | mexico_interactive_map.py:205-232 | Each row is a catalog municipio or a city not named among the municipios |
| InteractiveMap.MapApp.GetCitiesByState | mexico_interactive_map.py:153-200 | Not found iff the state has no entry (or an empty one). Otherwise the list is its municipios, then its cities not already named, and `count` is its length |
| InteractiveMap.StateListingNamesEveryCity | mexico_interactive_map.py:176-188 | Every analyzer city of the state is named in the state's list |
| InteractiveMap.StateListingRowOrigin | mexico_interactive_map.py:176-188 | After the state's municipios come only that state's cities not named among them |
| InteractiveMap.MapApp.AnalyzeCity | mexico_interactive_map.py:77-136 | The route computes exactly `AnalyzeCityReply`: 404, analysis response, or server error |
| InteractiveMap.AnalyzeCityNotFoundIff | mexico_interactive_map.py:84-100 | The route answers 404 iff the analyzer's lookup fails, so "could not analyse" never occurs |
| InteractiveMap.AnalyzeCitySuccess | mexico_interactive_map.py:104-125 | A successful reply has AQI > 0 with its band, a score in [0,100], non-empty advice and a green cover of 30, 50 or 70 |
| InteractiveMap.AnalyzeCityWithoutAir | mexico_interactive_map.py:106-107 | A known city without an accepted WAQI reply gets a server error, because comparing `None` with 50 raises |

## Left out

- Network calls and their transport errors (WAQI, OpenWeatherMap, Overpass, OpenAQ, FIRMS, WorldPop) are not modelled. Each appears only as its outcome, a parameter.
- The OpenAQ per-sensor loop and `get_openstreetmap_green_spaces` are not modelled: they are network-bound, and `analyze_single_city` does not use their results in the record.
- The WorldPop area formula (population^0.85) and `analyze_all_cities`, which uses it, are not modelled: it needs a non-integer real power. The estimate clamps of `analyze_all_cities` (lines 853-858) are the same expressions as in `analyze_single_city`, and the model covers them there.
- The Gemini set-up, the prompt text and `.env` key loading are not modelled. The advisor's behaviour is a parameter: not configured, raised an error with a message, or replied with text.
- The `np.random` draws (extra area, noise jitter) are parameters. Only the documented range of the area draw, [50,200], is assumed.
- The FIRMS brightness and FRP statistics, which parse CSV fields as floats, are not modelled; neither value reaches the record.
- Presentation and the command line are not modelled: national map, dashboard, report, success-rate printing, interactive mode and `print` output.
- Flask routing, `jsonify`, `render_template` and `send_from_directory` are not modelled; `test_app.py` is not part of this model.
- IEEE floating point is not modelled (NaN, rounding): arithmetic is exact over `real`.
- Providers.AcceptWaqi: a pollutant's `v` is modelled as an optional number; a non-numeric `v` is not represented.
- Text.Upper: Python's `upper()` is modelled only for `a`–`z`, `à`–`þ` except `÷`, and `µ`, `ÿ`, `ı` and `ſ`, each mapped to a single character. Every other character is left unchanged, including `ß` and the other characters whose upper-case form is several characters, and all letters outside Latin-1 besides `ı` and `ſ`. Header detection at mexico_health_analyzer.py:230-234 can therefore differ from the source on lines that contain such characters.
- HealthAnalyzer.MunicipioInfo: the catalog's `tipo` is modelled as always present. Where the source reads it with `.get('tipo', 'municipio')`, the default is therefore never taken.
- InteractiveMap.AnalyzeCity: a request body without `city_name` (a `None` name) is not modelled.
