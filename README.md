# AirJorney globe: a verified model

AirJorney is a browser page that shows a 3D Earth with air-quality markers. It also has a quiz page and a page of slides. This project models the decision logic behind the markers and the two page state machines in Dafny, and proves properties of that model.

The 3D engine, the network and the clock are not part of the model. Every `fetch` outcome and every `Math.random()` draw is a parameter: a draw is a `real` in [0, 1), and a fetch outcome is a value or a failure.

## How the model is laid out

The model has one Dafny module per JavaScript file. A file that mixes pure tables with loops over the globe is split into a pure module and a looping module:

- `Prelude`: optional values, draws, JavaScript numbers that may be NaN (`Num(v) | NaN`), vectors, quality badges, metrics, and rounding as `Math.floor` and `Math.round` do it.
- `FallbackData` and `FallbackSeeding`: the fake-data generator and quality table of `scripts/utils/fallback-data.js`. Seeding builds the fallback stations.
- `AirQuality`: the OpenAQ fallback, the simulator, the reduction to the latest measurement per parameter, and the PM2.5 bands.
- `Weather`: the OpenWeatherMap fallback, the simulator and the projection of a response.
- `NasaTempo` and `TempoIntegration`: the TEMPO quality tiers, the simulator and the fetch fallback. The looping module holds the five TEMPO markers, the coverage loop, the recolouring and the left panel.
- `FireData`: the FIRMS CSV filter, the simulated fires and registration of the 'Queimada' markers.
- `DataPoints` and `DataPointsSetup`: the regional base values, the CO₂ index, the station reports, the fourteen fixed points, and the order in which `createDataPoints` builds the scene.
- `Scene`: the children of the globe mesh as a class `Globe` holding a `seq<Node>`. A missing globe mesh is a `null` globe.
- `DataDisplay` and `DisplayToggle`: what a label shows, its quality badge, the climate panel, and the display switch.
- `FloatingInterfaces`: the label of each named node, its title, its placement and its rescaling.
- `DataIntegration`: attaching real data to the points, recolouring them, and regenerating simulated data.
- `Animation`: the per-frame zoom rescale and repositioning.
- `Quiz` and `ImportanceSlideShow`: the quiz page and the slide navigator. Each is a class whose methods update its fields.
- `MainCopy`: `scripts/main.js`, a single-file copy of the module scripts. The module files are the primary model. `MainCopy` covers the places where main.js's logic departs from them, listed in its header, and lemmas relate each divergent copy to the module version. Text-only differences of main.js are listed under "Left out".

## Modelling choices

- The registry of points is a sequence, not a map. All fire markers share the name 'Queimada', and a name lookup takes the last match in traversal order.
- Floating labels are stored in the node that owns them, not as separate children of the globe.
- The base camera distance is 3: the camera starts at (0, 0, 3) in `scripts/globe/earth-core.js:18-21`. The comment in `scripts/globe/animation.js:73-76` describes a different scale factor from the one the code computes (1 at distance 5, not 0.6). The model follows the code.
- The seed list keeps "Santiago" at latitude −93.4489, as written in `scripts/utils/fallback-data.js:93`. No latitude range is required of a seed.
- The comment in `scripts/apis/fire-data.js:28` says 5-25 fires. The code gives 5 to 24, and the model follows the code.
- The comment next to the fire stand-in in `scripts/main.js:1368` says 8-23. The code gives 8 to 22, and the model follows the code.
- Enrichment steps run in the order they take effect: real data per point, then recolouring, then TEMPO, then the fire markers. The fire fetch starts first, but TEMPO collects its points before any fire node exists, so the final state is the same.
- `updateGlobalClimateData` reads `realWeather.main`, which a processed weather summary never has. Weather readings therefore add nothing to the climate averages.
- Colours are integers: the CSS colour '#4CAF50' is 0x4CAF50.
- Formatted strings are a datatype of shown values (fake reading, real reading, synthesized value, 'Dados não disponíveis', 'N/A'), not exact `toFixed` text.

## Model

| member | source | states |
|---|---|---|
| AirQuality.ReadingAsMeasurement | scripts/apis/air-quality.js:21 | the fake CO₂ reading placed in the fallback list carries its value and unit but no `parameter` and no `date` |
| AirQuality.FetchAirQualityData | scripts/apis/air-quality.js:5-23 | never fails: a failed request gives the one-element list with a fake CO₂ reading, a body gives its `results`, or `[]` when `results` is absent |
| AirQuality.LocationFactor | scripts/apis/air-quality.js:33-35 | 1.3 whenever abs(lon) < 30, even near a pole; otherwise 0.7 beyond ±60° latitude and 1 elsewhere |
| AirQuality.GenerateSimulatedAirQualityData | scripts/apis/air-quality.js:26-83 | three entries, pm25, pm10 and o3 in that order; pm10 is 1.5 × the pm25 base; each value is scaled by the location factor and rounded to one decimal; all carry the unit and the current date |
| AirQuality.SimulatedPm25Range | scripts/apis/air-quality.js:28-39 | the simulated pm25 lies within the factor-scaled range [15, 35), give or take the rounding |
| AirQuality.Step | scripts/apis/air-quality.js:90-101 | one forEach step: it throws exactly when the parameter is already stored and either side lacks a date object, or when the parameter is new but named like a property inherited from Object.prototype (whose inherited value has no `date`); otherwise the keys grow by the entry's parameter, a new parameter holds the entry, and every other key is unchanged |
| AirQuality.FieldOf | scripts/apis/air-quality.js:104-109 | `parameters[name]?.value \|\| null` is non-null exactly when the stored value is a non-zero number, and is then that value |
| AirQuality.LastUpdate | scripts/apis/air-quality.js:110 | `lastUpdate` is the first entry's `date.utc` when it has one, otherwise the current time |
| AirQuality.LatestStaysFailed | scripts/apis/air-quality.js:90-101 | once a step of the reduction has thrown, the whole processing throws |
| AirQuality.ProcessAirQualityData | scripts/apis/air-quality.js:86-112 | the loop that updates `parameters` in place computes the reduction's summary, or reports the throw |
| AirQuality.LatestKeys | scripts/apis/air-quality.js:90-101 | on a list where every entry has a parseable date and a parameter not inherited from Object.prototype, processing does not throw and the dictionary's keys are exactly the parameters in the list |
| AirQuality.WinnerStays | scripts/apis/air-quality.js:94 | an entry that is not strictly later does not replace the stored one |
| AirQuality.NewWinner | scripts/apis/air-quality.js:94-99 | an entry strictly later than all earlier entries with its parameter replaces the stored one |
| AirQuality.LatestStepWinner | scripts/apis/air-quality.js:90-101 | one step keeps every key holding the first entry with the latest date |
| AirQuality.LatestKeepsFirstLatest | scripts/apis/air-quality.js:90-101 | on such a list each parameter ends up holding the latest entry, the earliest of several with that date |
| AirQuality.NoReportedParameterAllNull | scripts/apis/air-quality.js:103-111 | a list naming none of pm25, pm10, no2, o3, so2 and co, such as the fallback list, gives six null fields |
| AirQuality.LatestKeysOccur | scripts/apis/air-quality.js:90-101 | every key of the dictionary is a parameter that occurs in the list |
| AirQuality.FailedFetchSummary | scripts/apis/air-quality.js:103-111 | when the request fails, processing the fallback list gives all null fields and the current time |
| AirQuality.LastUpdateIsFirstEntry | scripts/apis/air-quality.js:87-110 | `lastUpdate` comes from the first entry even when a later entry has a later date |
| AirQuality.BandOf | scripts/apis/air-quality.js:115-127 | the PM2.5 category, each upper bound inclusive: 12, 35, 55, 150, and above |
| AirQuality.BandMonotone | scripts/apis/air-quality.js:115-127 | a higher concentration never gives a less severe category |
| AirQuality.RealAirQualityStatus | scripts/apis/air-quality.js:115-127 | getRealAirQualityStatus is the badge of the PM2.5 category |
| AirQuality.ColorAgreesWithStatus | scripts/apis/air-quality.js:115-136 | getAirQualityColor always gives the colour of getRealAirQualityStatus's badge |
| AirQuality.ColorDeterminesBand | scripts/apis/air-quality.js:130-136 | two concentrations get the same colour exactly when they are in the same category |
| AirQuality.AirQualityColor | scripts/apis/air-quality.js:130-136 | getAirQualityColor gives the colour of the badge of the value's PM2.5 category |
| Weather.FetchWeatherData | scripts/apis/weather.js:5-22 | never fails: a failed request gives the fake temperature reading of the fallback generator, a successful one its parsed body |
| Weather.ProcessWeatherData | scripts/apis/weather.js:66-76 | a summary exactly when the payload is an object with `main`, `wind` and a non-empty `weather` list; the summary carries their temperature, humidity, pressure, wind speed and direction, the first description and the current time |
| Weather.FailedFetchCannotBeProcessed | scripts/apis/weather.js:17-76 | the fallback reading of a failed request passes the caller's truthiness test yet processing it gives no summary (it has no `main`) |
| Weather.BaseTemperature | scripts/apis/weather.js:27-30 | −10 beyond ±60° latitude, 15 between 30° and 60°, 28 within ±30°, with the boundary latitudes in the milder band |
| Weather.GenerateSimulatedWeatherData | scripts/apis/weather.js:25-63 | a payload with 'clear sky'; temperature is the base ±5 rounded to one decimal, humidity the rounded band value, pressure 1013 + 20·r, feels-like the rounded temperature ±1.5, wind 10·r at 360·r degrees |
| Weather.SimulatedWeatherRanges | scripts/apis/weather.js:27-39 | the simulated temperature lies within five degrees of its base (give or take the rounding) and the humidity in [30, 50] near the poles, [60, 85] when abs(lon) < 30, else [50, 80] |
| Weather.ProcessSimulatedWeather | scripts/apis/weather.js:41-76 | processing a simulated payload always succeeds and gives back its own values with the description 'clear sky' |
| NasaTempo.PollutantOf | scripts/apis/nasa-tempo.js:96-117 | only the four names 'ozone', 'no2', 'hcho' and 'aerosols' denote a known pollutant; every other string is the unknown one |
| NasaTempo.TEMPOQuality | scripts/apis/nasa-tempo.js:147-172 | 'unknown' exactly for an unknown pollutant; otherwise excellent, good, moderate or poor by strict comparison with that pollutant's three cut-offs in turn |
| NasaTempo.TEMPOQualityMonotone | scripts/apis/nasa-tempo.js:147-172 | for a fixed pollutant a larger value never gets a better tier |
| NasaTempo.CutOffsAreStrict | scripts/apis/nasa-tempo.js:147-172 | a value equal to a cut-off already belongs to the next worse tier |
| NasaTempo.TempoLocationFactor | scripts/apis/nasa-tempo.js:120-127 | 1.2 in the first region, else 1.5 in the second, else 0.8 in the third, else 1 |
| NasaTempo.OverlapGetsFirstFactor | scripts/apis/nasa-tempo.js:121-126 | where the first and the third region overlap the first region's factor 1.2 applies |
| NasaTempo.GenerateSimulatedTEMPOData | scripts/apis/nasa-tempo.js:90-144 | a simulated result of the requested type whose value is base × location factor rounded to two decimals, graded on the unrounded product, with the pollutant's unit and description |
| NasaTempo.SimulatedQualityUsesUnroundedValue | scripts/apis/nasa-tempo.js:138-141 | an ozone value shown as 50 may be graded excellent although 50 itself grades good, since the tier is taken before rounding |
| NasaTempo.UnknownPollutantSimulation | scripts/apis/nasa-tempo.js:92-117 | an unknown pollutant is simulated as 0 with an empty unit and graded 'unknown' |
| NasaTempo.ExtractPollutantData | scripts/apis/nasa-tempo.js:76-87 | the stand-in value is 50·r rounded to two decimals, in AOD for 'aerosols' and ppb otherwise, and 'high' exactly when 50·r > 30, else 'medium' |
| NasaTempo.FetchTEMPOData | scripts/apis/nasa-tempo.js:5-73 | never fails: the result is simulated exactly when the request or the reading of its body failed; a body gives the four extracted pollutants |
| NasaTempo.TempoColor | scripts/apis/nasa-tempo.js:308-325 | good, moderate and poor get their own colours; every other quality label keeps the default green |
| NasaTempo.TempoColorSeparatesTiers | scripts/apis/nasa-tempo.js:308-325 | among the four tiers two colours are equal exactly when the tiers are |
| NasaTempo.PanelRate | scripts/apis/nasa-tempo.js:383-394 | the default text exactly when nothing was collected for the key; otherwise the mean of the collected values with the key's unit |
| NasaTempo.PanelRateWithinValues | scripts/apis/nasa-tempo.js:386-389 | a shown mean lies between the smallest and the largest collected value |
| Scene.Globe.constructor | scripts/globe/earth-core.js:83 | the globe mesh starts with no children |
| Scene.LastPositionNamedIsLastMatch | scripts/globe/animation.js:30-37 | the inner traversal ends with the position of the last node, in traversal order, whose name equals the looked-up one, and with the origin when no node matches |
| Scene.LastPositionNamed | scripts/globe/animation.js:30-37 | the position copied by the inner traversal is that of the node carrying the name with no later node carrying it |
| Scene.LastPositionNamedReadsNamesAndPositions | scripts/globe/animation.js:33-37 | the lookup depends on the nodes' names and positions only, so changing anything else leaves its result unchanged |
| Scene.LastPositionNamedAppend | scripts/globe/animation.js:33-37 | a node appended with the looked-up name becomes the match |
| DataPoints.RegionOf | scripts/globe/data-points.js:258-273 | the bands are checked in source order: Arctic above 60, Antarctic below −60, north temperate in (0, 30), south temperate in (−30, 0), the tropical branch only at exactly 0, and 'others' for 30 ≤ abs(lat) ≤ 60 and for a NaN latitude |
| DataPoints.TropicalOnlyAtEquator | scripts/globe/data-points.js:264-269 | the tropical branch is reached by latitude 0 and by no other number |
| DataPoints.MidLatitudesAreOthers | scripts/globe/data-points.js:270-271 | every latitude with 30 ≤ abs(lat) ≤ 60 gets the 'others' base values |
| DataPoints.GetBaseDataForLocation | scripts/globe/data-points.js:258-274 | the base values of the latitude's band, the longitude unused: a temperature base below zero exactly beyond ±60°, the tropical values exactly at latitude 0, and the 'others' CO₂ base exactly for 30 ≤ abs(lat) ≤ 60 or a NaN latitude |
| DataPoints.GetAirQualityIndex | scripts/globe/data-points.js:276-282 | the label is the name of the CO₂ value's tier |
| DataPoints.AqiTier | scripts/globe/data-points.js:276-282 | the tier is fixed by strict comparison with 400, 420, 450 and 500, both directions of each band |
| DataPoints.AqiMonotone | scripts/globe/data-points.js:276-282 | a larger CO₂ value never gets a better index |
| DataPoints.AqiLabelsDistinct | scripts/globe/data-points.js:277-281 | two values get the same label exactly when they fall in the same tier |
| DataPoints.GenerateStationDataValues | scripts/globe/data-points.js:218-224 | altitude in [400, 449], velocity in [27000, 27999] and orbit in [90, 99] |
| DataPoints.GenerateMonitoringData | scripts/globe/data-points.js:227-235 | CO₂, temperature, humidity and pressure each lie within their base plus 19, 19, 29 and 49, and the AQI label is computed from the very CO₂ value that is shown |
| DataPoints.GenerateObservatoryData | scripts/globe/data-points.js:238-245 | ozone, UV index, radiation and pressure lie within their base plus 49, 9, under 0.5 and 19 |
| DataPoints.GenerateSatelliteData | scripts/globe/data-points.js:248-255 | orbit in [700, 799], data rate in [500, 1499], coverage in [80, 99], and 'Operacional' exactly when the last draw exceeds 0.1 |
| DataPoints.GenerateStationData | scripts/globe/data-points.js:199-215 | each of the four types gets its report, computed on the base values of the point's latitude; any other type, or none, keeps the point's own data |
| DataPoints.ArcticMonitoringIsBom | scripts/globe/data-points.js:228-278 | a monitoring station beyond 60° north reports CO₂ in [400, 419] and so the index 'Bom' |
| DataPoints.DataPointsTable | scripts/globe/data-points.js:7-120 | the table holds fourteen points |
| DataPoints.DataPointNamesDistinct | scripts/globe/data-points.js:7-120 | the fourteen names are pairwise distinct, so a name lookup finds a point's own node |
| DataPointsSetup.FixedPointData | scripts/globe/data-points.js:141-148 | a point's `userData` carries its name, text, coordinates and type, and neither an interface nor TEMPO data yet |
| DataPointsSetup.PlacedNodes | scripts/globe/data-points.js:122-170 | the forEach adds 28 nodes: entry k's point at 2k and its line at 2k + 1 |
| DataPointsSetup.PlaceDataPoints | scripts/globe/data-points.js:122-170 | the nodes already on the globe stay as they were and the 28 placed nodes follow them, in table order, each point before its line |
| DataPointsSetup.PlaceTable | scripts/globe/data-points.js:122-170 | for any point table the nodes already there stay and every entry's point and line follow, in table order |
| DataPointsSetup.TempoMarkersKept | scripts/globe/data-points.js:189-192 | appending the fallback stations leaves the TEMPO markers where they were |
| DataPointsSetup.AttachDataPoints | scripts/globe/data-points.js:122-175 | 28 nodes are appended and every node, old or new, is what createFloatingInterfaces makes of it |
| DataPointsSetup.AddMarkers | scripts/globe/data-points.js:189-192 | 30 markers are appended behind the unchanged nodes: the five TEMPO markers, then the 25 fallback stations |
| DataPointsSetup.PopulateGlobe | scripts/globe/data-points.js:122-192 | the globe ends as the set-up state: the labelled placed nodes, the TEMPO markers, the fallback stations, 58 nodes more than before |
| DataPointsSetup.CreateDataPoints | scripts/globe/data-points.js:5-196 | the globe ends in the set-up state, and the panel shows the TEMPO count and the as-written rates of that final globe (none when a reading aborts the traversal) |
| DataPointsSetup.SetUpByStages | scripts/globe/data-points.js:175-192 | the three stages, each on the previous one's nodes, compose into the set-up state |
| DataPointsSetup.PlacedFacts | scripts/globe/data-points.js:141-175 | a node createFloatingInterfaces went over has an interface when it is named and keeps its coordinates and TEMPO data |
| DataPointsSetup.TempoFacts | scripts/apis/nasa-tempo.js:223-248 | a TEMPO marker is named, has numeric coordinates, an interface and no TEMPO data |
| DataPointsSetup.SeedFacts | scripts/utils/fallback-data.js:70-161 | a fallback station is named, has numeric coordinates, an interface and no TEMPO data |
| DataPointsSetup.SetUpProperties | scripts/globe/data-points.js:5-196 | after set-up every named node carries an interface, coordinates stay numeric if they were, and with no TEMPO data on the globe before, the rates shown are the four defaults |
| DataPointsSetup.TempoMarkerShape | scripts/apis/nasa-tempo.js:223-248 | a TEMPO marker carries an interface, no TEMPO data and numeric coordinates |
| DataPointsSetup.SeedMarkerShape | scripts/utils/fallback-data.js:70-161 | a fallback station carries an interface, no TEMPO data and numeric coordinates |
| DataDisplay.GetRealDataForPoint | scripts/ui/data-display.js:115-124 | real data exists exactly when the point has real air quality or real weather, and it carries both as they are |
| DataDisplay.GetRealDisplayValue | scripts/ui/data-display.js:45-79 | 'co2' shows the `co` field and 'ozone' the `o3` field when present; the three weather metrics show their summary field when there is a summary; everything else, and every missing source, shows 'Dados não disponíveis' |
| DataDisplay.Synthesize | scripts/ui/data-display.js:21-41 | 'N/A' exactly for an unknown metric; otherwise a synthesized value of that metric, floor(r · span + base) on the base values of the point's latitude |
| DataDisplay.GetDisplayValue | scripts/ui/data-display.js:5-42 | the seeded fake reading first, then the real-data value when real data exists, then a synthesized value |
| DataDisplay.FakeReadingWins | scripts/ui/data-display.js:7-11 | with a fake reading, changing the point's real air quality or weather changes nothing shown |
| DataDisplay.DisplayDeterministicUnlessSynthesized | scripts/ui/data-display.js:7-18 | the fake and real branches draw no random number, so every draw shows the same value there |
| DataDisplay.NotApplicableExactly | scripts/ui/data-display.js:16-79 | 'N/A' is shown exactly for an unknown metric on a point with neither fake reading for it nor real data |
| DataDisplay.Co2Heuristic | scripts/ui/data-display.js:101-111 | the synthesized CO₂ badge follows the same five tiers (400, 420, 450, 500) as the station AQI |
| DataDisplay.GetAirQualityStatus | scripts/ui/data-display.js:83-112 | the fake CO₂ reading's badge first, then the PM2.5 band when real air quality has a `pm25`, then the CO₂ heuristic on a synthesized value |
| DataDisplay.WeatherDoesNotDecideBadge | scripts/ui/data-display.js:93-95 | real weather alone never changes the badge |
| DataDisplay.CalculateAverage | scripts/ui/data-display.js:212-214 | 0 for an empty list; otherwise the value whose product with the length is the sum |
| DataDisplay.AverageWithinValues | scripts/ui/data-display.js:212-214 | a non-empty average lies between the smallest and the largest value |
| DataDisplay.CollectClimateData | scripts/ui/data-display.js:146-202 | nothing without a globe; otherwise the temperatures the named nodes contribute in traversal order, their minimum and maximum (unset when there are none) and empty lists for the other fields |
| DataDisplay.ClimateIgnoresRealWeather | scripts/ui/data-display.js:164-188 | changing the nodes' real weather summaries changes nothing collected, since a summary has no `main`, `wind` or `clouds` |
| DataDisplay.AverageField | scripts/ui/data-display.js:228-259 | a field is written exactly when it has values, and its average lies between their minimum and maximum |
| DataDisplay.UpdateClimateDisplay | scripts/ui/data-display.js:217-261 | each element is written exactly when its list is non-empty: the temperature range from the minimum and maximum, pressure and feels-like as the mean, humidity and clouds as the rounded mean and wind as the rounded mean times 3.6 (km/h); each rounded figure lies within half a unit of its values' range (for wind, of that range times 3.6) |
| FloatingInterfaces.GetDataTypeLabel | scripts/ui/floating-interfaces.js:102-111 | 'Data' exactly for an unknown type |
| FloatingInterfaces.DataTypeLabelInjective | scripts/ui/floating-interfaces.js:103-110 | distinct types get distinct labels |
| FloatingInterfaces.BuildLabel | scripts/ui/floating-interfaces.js:146-170 | the title is '🛰️ TEMPO NASA' for a TEMPO point and the type label otherwise; then the display value, the badge and the point's name |
| FloatingInterfaces.CreateFloatingInterface | scripts/ui/floating-interfaces.js:18-99 | a label at base scale with the point's TEMPO flag, placed 0.3 above the last node that carries the point's name |
| FloatingInterfaces.InterfaceAboveOwnNode | scripts/ui/floating-interfaces.js:85-95 | a label made for the last node with its name sits 0.3 above that node |
| FloatingInterfaces.InterfaceForAddedNode | scripts/apis/nasa-tempo.js:244-248 | a label created right after its node was added sits above that node |
| FloatingInterfaces.CreateFloatingInterfaces | scripts/ui/floating-interfaces.js:5-15 | every named node gets a fresh interface built on the nodes as they stand; other nodes and all positions and colours stay |
| FloatingInterfaces.AttachedHasInterface | scripts/ui/floating-interfaces.js:7-12 | afterwards a node has an interface iff it is named or had one, and only the interface of its `userData` changed |
| FloatingInterfaces.UpdateFloatingInterfaces | scripts/ui/floating-interfaces.js:114-182 | every interface is redrawn from its node's current data and its scale reset to (0.4, 0.16, 1); nodes without one stay as they were |
| FloatingInterfaces.RedrawKeepsPlacement | scripts/ui/floating-interfaces.js:117-178 | a redraw keeps the interface's position and TEMPO flag and the rest of the node |
| FloatingInterfaces.ScaleFor | scripts/ui/floating-interfaces.js:192-196 | the scale is (0.4 f, 0.4 of that, 1) |
| FloatingInterfaces.DefaultFactorIsBaseScale | scripts/ui/floating-interfaces.js:185-196 | the default factor 1 gives back the base scale a label starts with |
| FloatingInterfaces.UpdateInterfaceSizes | scripts/ui/floating-interfaces.js:185-199 | every interface gets the scale of factor f; nothing else changes |
| FloatingInterfaces.ResizeProperties | scripts/ui/floating-interfaces.js:185-199 | resizing needs an interface and changes only its scale, and of two resizes the last factor wins |
| DisplayToggle.ActiveButtons | scripts/ui/data-display.js:127-135 | one flag per button, set exactly when its value is the selected type |
| DisplayToggle.AtMostOneActive | scripts/ui/data-display.js:127-135 | with distinct button values at most one button is active |
| DisplayToggle.Written | scripts/ui/data-display.js:217-261 | an element keeps its text unless the update writes it |
| DisplayToggle.OverwriteIdempotent | scripts/ui/data-display.js:217-261 | writing the same panel twice is writing it once, and a panel writing every field ignores what was shown before |
| DisplayToggle.Page.constructor | scripts/ui/data-display.js:127-135 | at load 'co2' is selected, the buttons follow it and no panel element is written |
| DisplayToggle.Page.UpdateGlobalClimateData | scripts/ui/data-display.js:146-209 | without a globe nothing changes; otherwise the climate panel is written from the globe's collected data and the TEMPO count and the as-written rates of the globe are shown (none when a reading aborts the traversal); the selection is kept |
| DisplayToggle.Page.ToggleDisplayData | scripts/ui/data-display.js:138-143 | the type is selected, the buttons follow it, every label is redrawn for it and the panels, the as-written TEMPO rates included, are refreshed from the redrawn globe |
| DisplayToggle.ClimateOf | scripts/ui/data-display.js:149-202 | the temperatures of the traversal, with minimum and maximum exactly when there are any |
| DisplayToggle.SameTagsSameSummaries | scripts/ui/data-display.js:159-202 | nodes that differ only in their interfaces give the same temperatures, TEMPO count and TEMPO collection |
| DisplayToggle.ToggleKeepsPanels | scripts/ui/data-display.js:138-143 | switching the type only redraws labels, so the climate and TEMPO panels show the same whichever type is selected |
| TempoIntegration.TempoSites | scripts/apis/nasa-tempo.js:179-220 | five markers, each with a name containing 'TEMPO' |
| TempoIntegration.TempoPointData | scripts/apis/nasa-tempo.js:179-241 | a marker's `userData` is its record: name, type 'tempo' and numeric coordinates |
| TempoIntegration.AddTEMPOPointsToGlobe | scripts/apis/nasa-tempo.js:175-251 | without a globe nothing happens; otherwise the existing nodes stay and the five markers follow in order, each with the interface created right after it was added |
| TempoIntegration.TempoSitesCovered | scripts/apis/nasa-tempo.js:179-220 | all five markers lie inside the coverage box of the integration |
| TempoIntegration.WithTempoData | scripts/apis/nasa-tempo.js:264-291 | the fetch loop changes at most a node's TEMPO data, never its position or the rest of its `userData` |
| TempoIntegration.UpdateDataPointsWithTEMPOData | scripts/apis/nasa-tempo.js:297-335 | every node holding a reading with a `pollutant` (a simulated one) is recoloured by its quality, then every interface is redrawn |
| TempoIntegration.IntegrateTEMPODataWithPoints | scripts/apis/nasa-tempo.js:254-294 | without a globe nothing happens; otherwise every named node inside the coverage box gets its ozone result, and the recolouring and redraw follow |
| TempoIntegration.TempoColourAfterIntegration | scripts/apis/nasa-tempo.js:264-328 | a covered node whose request failed takes the colour of its simulated ozone tier; one with a processed response keeps its colour, since that response has no `pollutant`; a node outside coverage is untouched |
| TempoIntegration.TempoPointCount | scripts/apis/nasa-tempo.js:340-351 | the count never exceeds the number of nodes |
| TempoIntegration.TempoPointCountConcat | scripts/apis/nasa-tempo.js:344-349 | the count over two node lists one after the other is the sum of their counts |
| TempoIntegration.TempoPointCountAll | scripts/apis/nasa-tempo.js:344-349 | the count equals the number of nodes exactly when every node is a named TEMPO point |
| TempoIntegration.AddingTempoSitesAddsFive | scripts/apis/nasa-tempo.js:175-251 | adding the five markers raises the reported count by exactly five |
| TempoIntegration.Push | scripts/apis/nasa-tempo.js:369-376 | pushing fails, the TypeError that ends the traversal, exactly for a key other than the four lists |
| TempoIntegration.CollectedFailsIff | scripts/apis/nasa-tempo.js:371-380 | the collection aborts exactly when some collected node has a type with no list |
| TempoIntegration.CollectedStaysFailed | scripts/apis/nasa-tempo.js:371-380 | once aborted on a prefix of the nodes, the collection stays aborted |
| TempoIntegration.CollectedNothing | scripts/apis/nasa-tempo.js:371-380 | where no node holds a simulated reading every list stays empty |
| TempoIntegration.IntendedKey | scripts/apis/nasa-tempo.js:365-369 | the four type names the simulator gives all map to a list, and every name other than 'aerosols' maps to itself |
| TempoIntegration.AerosolsReadingAbortsAsWritten | scripts/apis/nasa-tempo.js:369-376 | as written, a single simulated 'aerosols' reading aborts the collection; with the intended key its value lands in the 'aerosol' list |
| TempoIntegration.IntendedCollectionSucceeds | scripts/apis/nasa-tempo.js:369-380 | with the intended key the collection never aborts while all collected readings are of the four pollutants |
| TempoIntegration.RatesShown | scripts/apis/nasa-tempo.js:360-395 | each value is pushed under its own `type`, as written; nothing is shown exactly when some reading's type has no list (a simulated 'aerosols' one), otherwise one rate per list, the default where its list is empty |
| TempoIntegration.AsWrittenAgreesWithIntended | scripts/apis/nasa-tempo.js:369-376 | with no 'aerosols' reading on the globe, the collection as written equals the corrected one, so the rates shown are the corrected rates |
| TempoIntegration.UpdateTEMPODataInPanel | scripts/apis/nasa-tempo.js:338-357 | the number of named TEMPO points on the globe (0 without one) and the as-written rates of its nodes, none when a reading aborts the traversal; nothing changes |
| TempoIntegration.UpdatePollutantRates | scripts/apis/nasa-tempo.js:360-395 | the loop pushes each value under its own `type` and stops at the first type without a list, so its result is the as-written rates of the whole collection: none after an abort |
| FallbackData.Classify | scripts/utils/fallback-data.js:60-66 | good exactly inside the closed good band, moderate exactly outside it and inside the moderate band, the third tier exactly outside both |
| FallbackData.QualityStatus | scripts/utils/fallback-data.js:49-66 | 'Boa' in green exactly inside the metric's good band, 'Moderada' in orange exactly outside it but inside the moderate band, 'Ruim' in red exactly outside both |
| FallbackData.ClassifyIgnoresPoor | scripts/utils/fallback-data.js:51-66 | the `poor` band of a table never influences the tier |
| FallbackData.UnknownMetricUsesTemperatureTable | scripts/utils/fallback-data.js:58 | an unknown metric is judged by the temperature table |
| FallbackData.Co2Tiers | scripts/utils/fallback-data.js:54-66 | for CO₂: negative values and values above 600 are 'Ruim', [0, 400] is 'Boa' (400 included, the good band being checked first), (400, 600] 'Moderada' |
| FallbackData.TemperatureTiers | scripts/utils/fallback-data.js:51-66 | for temperature: [15, 25] is 'Boa', the rest of [10, 30] 'Moderada', everything else 'Ruim' |
| FallbackData.FakeValueRanges | scripts/utils/fallback-data.js:6-37 | the unrounded value lies in [25 − 0.4·abs(lat), 35 − 0.4·abs(lat)) for temperature and an unknown metric, [50, 90) humidity, [988, 1038) pressure, [400, 500) CO₂, [20, 60) ozone |
| FallbackData.OnlyTemperatureDependsOnLatitude | scripts/utils/fallback-data.js:6-37 | every metric other than temperature, or an unknown one, has the same value at every latitude |
| FallbackData.GenerateRealisticFakeData | scripts/utils/fallback-data.js:5-46 | source 'Simulado', the metric's unit, the value rounded to one decimal, and the tier taken from the unrounded value |
| FallbackData.FakeCo2Tier | scripts/utils/fallback-data.js:26-54 | a generated CO₂ reading is 'Boa' exactly when the draw is 0 and is never 'Ruim' |
| FallbackData.TierUsesUnroundedValue | scripts/utils/fallback-data.js:37-42 | a reading can be stored as 400 and yet be tiered 'Moderada', although 400 alone is 'Boa' |
| FallbackData.GenerateFakeDataSet | scripts/utils/fallback-data.js:113-119 | a reading for each of the five metrics, each made for that metric with its own draw, and none for an unknown metric |
| FallbackData.FallbackSeeds | scripts/utils/fallback-data.js:73-108 | the 25 stations as listed, including Santiago's latitude −93.4489, beyond the pole |
| FallbackSeeding.SeedPointData | scripts/utils/fallback-data.js:140-145 | a station's `userData` is the seed's name, coordinates and region, its five readings and type 'station' |
| FallbackSeeding.CreateFallbackDataSystem | scripts/utils/fallback-data.js:70-153 | the existing nodes stay and the 25 stations follow in list order, each with its own readings, coloured by its CO₂ badge and labelled right after it was added |
| FallbackSeeding.AddSeed | scripts/utils/fallback-data.js:111-153 | one step of the forEach: the nodes already there stay and one node follows, the station with its readings, coloured by its CO₂ badge and carrying its interface |
| FallbackSeeding.AddSeeds | scripts/utils/fallback-data.js:111-153 | for any station list the nodes already there stay, and station k lands at position k behind them with its own readings and label |
| FallbackSeeding.SeededStation | scripts/utils/fallback-data.js:111-153 | a station has type 'station', a reading for every known metric, the 'Boa' green or 'Moderada' orange colour (never red) and an interface 0.3 above it |
| FallbackSeeding.SeededStationDisplay | scripts/utils/fallback-data.js:111-153 | a station's label shows its fake value for every known metric and its CO₂ reading's badge |
| FireData.Split | scripts/apis/fire-data.js:61 | at least one piece, and no piece contains the separator |
| FireData.SplitJoin | scripts/apis/fire-data.js:61 | splitting loses nothing: joining the pieces with the separator gives back the text |
| FireData.SplitAt | scripts/apis/fire-data.js:61 | splitting at an occurrence of the separator concatenates the pieces of both sides |
| FireData.SplitNoSeparator | scripts/apis/fire-data.js:67 | text without the separator is a single piece |
| FireData.SplitFirstLine | scripts/apis/fire-data.js:61-64 | a first line without a newline becomes the first piece, which the loop skips |
| FireData.TrimStart | scripts/apis/fire-data.js:65 | removes exactly the leading white space: what remains is a suffix that does not start with white space |
| FireData.TrimEnd | scripts/apis/fire-data.js:65 | removes exactly the trailing white space: what remains is a prefix that does not end with white space |
| FireData.Trim | scripts/apis/fire-data.js:65 | no longer than the line, and empty or without white space at either end |
| FireData.TrimmedAlready | scripts/apis/fire-data.js:65 | a line without white space at either end is its own trim |
| FireData.TrimEmptyIff | scripts/apis/fire-data.js:65-66 | the trimmed line is empty exactly when the line is all white space |
| FireData.RowFire | scripts/apis/fire-data.js:65-75 | a record exactly for a non-empty trimmed line with at least four comma-separated fields; it takes lat, lon, brightness and confidence from the first four fields in that order |
| FireData.ParseCSVToFires | scripts/apis/fire-data.js:60-80 | the records of every line after the header, in order, at most one per line |
| FireData.RowsLength | scripts/apis/fire-data.js:64-77 | there are never more records than lines |
| FireData.RowsConcat | scripts/apis/fire-data.js:64-77 | the records of two blocks of lines are those of the first followed by those of the second, so line order is kept |
| FireData.BlankLineSkipped | scripts/apis/fire-data.js:65-66 | an empty or all-white-space line gives no record |
| FireData.HeaderSkipped | scripts/apis/fire-data.js:61-64 | whatever the first line says, the result depends only on the lines after it |
| FireData.SplitFour | scripts/apis/fire-data.js:67-75 | any four comma-free fields joined by commas split back into exactly those four fields |
| FireData.ExampleRowFields | scripts/apis/fire-data.js:67 | the row "10.5,-20.3,310.2,85.0" splits into its four fields |
| FireData.ExampleRow | scripts/apis/fire-data.js:65-75 | that row gives lat 10.5, lon −20.3, brightness 310.2 and confidence 85.0, with no `latitude` or `longitude` |
| FireData.ExampleRowTrimmed | scripts/apis/fire-data.js:65 | that row has no white space to trim |
| FireData.AppendFieldStaysTrimmed | scripts/apis/fire-data.js:65 | a trimmed row with a trimmed field appended after a comma is still trimmed |
| FireData.ExtraFieldsIgnored | scripts/apis/fire-data.js:67-74 | the fifth and later fields of a row never change its record |
| FireData.SimulatedFire | scripts/apis/fire-data.js:32-53 | a simulated record has `latitude` in [−90, 90) and `longitude` in [−180, 180) but no `lat` or `lon` |
| FireData.SimulatedFireCount | scripts/apis/fire-data.js:28 | the count lies in [5, 24] |
| FireData.GenerateSimulatedFireData | scripts/apis/fire-data.js:26-57 | between 5 and 24 records, as many as the count draw gives, record i made from its own draws |
| FireData.FetchFireData | scripts/apis/fire-data.js:5-23 | a CSV response gives its parsed records; any failure gives the simulated list, as many records as the count draw gives (5 to 24), record i from draw i |
| FireData.FirePointData | scripts/apis/fire-data.js:130-137 | a fire marker is named 'Queimada', has type 'fire', no interface, and copies the record's `lat`, `lon`, brightness and confidence |
| FireData.AddFirePointsToGlobe | scripts/apis/fire-data.js:107-142 | nothing changes without a globe or for an empty list; otherwise the existing nodes stay and one marker per record follows, in order |
| FireData.SimulatedFireMarkerHasNoCoordinates | scripts/apis/fire-data.js:133-134 | a simulated fire's marker has NaN coordinates, since its record used the other keys |
| FireData.FireLookupFindsLastFire | scripts/apis/fire-data.js:131 | all fire markers share one name, so a lookup by it after adding fires finds the last one added |
| FireData.IntegrateFireData | scripts/apis/fire-data.js:83-104 | the counter shows the number of records added to the globe: the count draw's number (5 to 24) after a failed request, the parsed count otherwise; the existing nodes stay and the appended nodes are, in order, the 'Queimada' markers of the parsed records or of the simulated ones |
| DataIntegration.Enriched | scripts/utils/data-integration.js:23-45 | one pass of the loop changes at most the point's real air quality and real weather, never its position, colour or other fields |
| DataIntegration.EnrichedFields | scripts/utils/data-integration.js:15-45 | an unnamed node is untouched; when processing the air list throws, the point stays as it was; otherwise the air summary is stored exactly for a non-empty list and the weather summary exactly for a truthy, well-formed payload |
| DataIntegration.BothRequestsFail | scripts/utils/data-integration.js:28-39 | with both requests failed the point gets the all-null air summary stamped with the current time and keeps its weather, since the weather fallback has no `main` |
| DataIntegration.FetchRealDataForPoints | scripts/utils/data-integration.js:12-46 | the nodes keep their count and node i is enriched with its own responses |
| DataIntegration.WithRealDataColour | scripts/utils/data-integration.js:58-88 | exactly the named nodes whose air summary has a non-null pm25 are recoloured, with the colour of that value's band; nothing else changes, and running it twice is running it once |
| DataIntegration.PointColorWithRealData | scripts/utils/data-integration.js:80-88 | only the colour can change; with a real pm25 it becomes the colour of that value's badge, and without an air summary or with a null pm25 the node is unchanged |
| DataIntegration.UpdateDataPointsWithRealData | scripts/utils/data-integration.js:58-77 | without a globe nothing changes; otherwise every node is recoloured from its real data |
| DataIntegration.FailedRequestsKeepColour | scripts/utils/data-integration.js:28-88 | a point whose requests both failed keeps its colour and, unless seeded with a fake reading, shows CO₂ and ozone as unavailable |
| DataIntegration.IntegrateRealDataWithPoints | scripts/utils/data-integration.js:5-55 | without a globe nothing changes and no fire count is shown; otherwise the existing nodes are enriched, recoloured and TEMPO-integrated and the fire markers follow them, as many as the counter shows (the count draw's number after a failed request): marker i is the 'Queimada' node of parsed record i, or of simulated record i after a failed request |
| DataIntegration.Simulated | scripts/utils/data-integration.js:96-107 | regenerating touches only a point's `data` |
| DataIntegration.SimulatedData | scripts/utils/data-integration.js:99-104 | a named point of one of the four types gets a fresh report, any other keeps its data, and regenerating again with the same draws changes nothing more |
| DataIntegration.UpdateDataPointsWithSimulatedData | scripts/utils/data-integration.js:96-107 | without a globe nothing changes; otherwise node i is regenerated with its own draws |
| Animation.ZoomScaleFactor | scripts/globe/animation.js:78 | the factor always lies in [0.1, 1] |
| Animation.ZoomFullSize | scripts/globe/animation.js:78 | at the base distance and beyond the factor is 1 |
| Animation.ZoomSmallest | scripts/globe/animation.js:78 | within a tenth of the base distance the factor is its floor 0.1 |
| Animation.ZoomProportional | scripts/globe/animation.js:78 | in between the factor is the ratio of the distance to the base distance |
| Animation.ZoomMonotone | scripts/globe/animation.js:73-78 | moving the camera further away never shrinks the interfaces |
| Animation.ZoomAtCommentedDistances | scripts/globe/animation.js:73-78 | with base distance 3, distance 3 gives 1 as commented, but distance 5 gives 1 rather than 0.6 and distance 1 gives 1/3 rather than 0.1 |
| Animation.Repositioned | scripts/globe/animation.js:26-45 | the pass keeps a node's position, colour and data and changes only its interface, which exists exactly when it existed before |
| Animation.RepositionAll | scripts/globe/animation.js:26-46 | the pass handles every node for itself, each against the nodes as they were |
| Animation.InterfaceFollowsItsPoint | scripts/globe/animation.js:33-41 | an interface whose node is the last one with its name is put 0.3 above that node |
| Animation.RepositionIdempotent | scripts/globe/animation.js:26-46 | a second pass changes nothing, since the pass moves only interfaces |
| Animation.RepositionInterfaces | scripts/globe/animation.js:25-47 | the loop leaves the globe as the whole pass over the nodes as they were |
| Animation.ResizeAll | scripts/globe/animation.js:85-100 | every node is what the resize makes of it |
| Animation.FrameInterface | scripts/globe/animation.js:8-41 | after one frame's resize and reposition an interface has the scale of the zoom factor and sits 0.3 above the last point with its name |
| Animation.Turned | scripts/globe/animation.js:50-66 | a present object turns by (dx, dy) about x and y; an absent one stays absent |
| Animation.Animator.constructor | scripts/globe/earth-core.js:18-21 | the loop starts while loading, with the base distance the camera's initial distance |
| Animation.Animator.UpdateZoomLevel | scripts/globe/animation.js:70-82 | every interface gets the scale of the factor for the current distance; nothing else changes |
| Animation.Animator.AnimateDataPoints | scripts/globe/animation.js:24-67 | the interface pass runs, the star field turns by (0.00002, 0.00005), the atmosphere by 0.001 and the glow by −0.0005 about y |
| Animation.Animator.Animate | scripts/globe/animation.js:5-21 | while loading nothing changes; otherwise the interfaces are resized for the zoom, then repositioned, and the three objects turn |
| Animation.TurnedForClosedForm | scripts/globe/animation.js:50-66 | after k frames a rotation has grown by k increments |
| Quiz.QuestionsWellFormed | scripts/pages/quiz-script.js:22-92 | five questions, each right answer one of its options, the right answers being 1, 0, 1, 1 and 2 |
| Quiz.CalculateMedal | scripts/pages/quiz-script.js:291-301 | Gold exactly from 90 %, Silver exactly in [70, 90), Bronze exactly in [50, 70), Student exactly below 50 |
| Quiz.MedalMonotone | scripts/pages/quiz-script.js:291-301 | a higher accuracy never earns a lower medal |
| Quiz.ValidCorrect | scripts/pages/quiz-script.js:261 | the count clamped to [0, n]: unchanged inside, 0 below, n above |
| Quiz.Accuracy | scripts/pages/quiz-script.js:262 | 0 when there are no questions |
| Quiz.AccuracyProperties | scripts/pages/quiz-script.js:262 | for valid counts the accuracy is a percentage that grows with the count, 0 for none right and 100 for all |
| Quiz.AccuracyOfFive | scripts/pages/quiz-script.js:262 | with five questions each right answer is worth 20 points of accuracy |
| Quiz.ResultsFor | scripts/pages/quiz-script.js:260-274 | the clamped count, the final score 100 per right answer, the accuracy of the clamped count, and the medal of that accuracy |
| Quiz.MedalForFive | scripts/pages/quiz-script.js:261-301 | with five questions, five right is Gold, four Silver, three Bronze and fewer Student |
| Quiz.GetStats | scripts/pages/quiz-script.js:317-336 | one more quiz counted; the best score is the larger of the stored one and this score; the streak grows by a perfect quiz and is reset by any other |
| Quiz.PerfectTail | scripts/pages/quiz-script.js:326-330 | the number of perfect quizzes at the end of the series, the one before them imperfect |
| Quiz.StatsAfterRuns | scripts/pages/quiz-script.js:317-336 | over many quizzes every quiz is counted, the best score is at least every score reached, and the streak is the number of perfect quizzes since the last imperfect one (added to the stored streak when there was none) |
| Quiz.QuizApp.constructor | scripts/pages/quiz-script.js:3-20 | the first question is shown with nothing scored and Next disabled; the record is the stored one or the default |
| Quiz.QuizApp.StartQuiz | scripts/pages/quiz-script.js:123-134 | back to the first question with nothing scored, no selection and Next disabled |
| Quiz.QuizApp.RestartQuiz | scripts/pages/quiz-script.js:338-359 | the results screen is hidden and the quiz starts again from the first question |
| Quiz.QuizApp.ShowQuestion | scripts/pages/quiz-script.js:136-168 | past the last question the results are shown; otherwise the selection is cleared, the quiz is open and Next is disabled |
| Quiz.QuizApp.SelectAnswer | scripts/pages/quiz-script.js:170-193 | the option becomes the selection, and Next is enabled unless an answer is being processed |
| Quiz.QuizApp.NextQuestion | scripts/pages/quiz-script.js:195-225 | without a selection, or while an answer is processed, nothing happens; otherwise the answer is closed, a right one adds 1 to the count and 100 to the score, and one advance is scheduled |
| Quiz.QuizApp.AdvanceAfterFeedback | scripts/pages/quiz-script.js:219-224 | the scheduled advance moves to the next question, or to the results past the last one |
| Quiz.QuizApp.SkipQuestion | scripts/pages/quiz-script.js:240-245 | the next question is shown with nothing scored, or the results past the last one |
| Quiz.QuizApp.ShowResults | scripts/pages/quiz-script.js:253-289 | the quiz is closed, the results screen shows the figures of the running count, and the record is updated by this quiz |
| Quiz.ResultsMatchRunningScore | scripts/pages/quiz-script.js:209-263 | under the object's invariant the clamp changes nothing, the final score shown is the running score and the accuracy is 20 per right answer |
| ImportanceSlideShow.GoTo | scripts/pages/importance-slides.js:101-104 | a number in 1..total becomes the slide; any other is ignored |
| ImportanceSlideShow.Next | scripts/pages/importance-slides.js:89-93 | one slide on, except on the last, always within 1..total |
| ImportanceSlideShow.Previous | scripts/pages/importance-slides.js:95-99 | one slide back, except on the first, always within 1..total |
| ImportanceSlideShow.PreviousUndoesNext | scripts/pages/importance-slides.js:89-99 | back after forward, and forward after back, return to the slide where the move was possible |
| ImportanceSlideShow.FirstListener | scripts/pages/importance-slides.js:43-49 | the first listener keeps the slide within 1..total |
| ImportanceSlideShow.SecondListener | scripts/pages/importance-slides.js:54-83 | the keyboard listener keeps the slide within 1..total |
| ImportanceSlideShow.KeyDown | scripts/pages/importance-slides.js:43-83 | one key press, handled by both listeners, keeps the slide within 1..total |
| ImportanceSlideShow.ArrowsMoveTwice | scripts/pages/importance-slides.js:43-83 | a left or right arrow moves two slides, clamped at the ends, because both listeners handle it; typed in a text field it still moves one |
| ImportanceSlideShow.OtherKeysMoveOnce | scripts/pages/importance-slides.js:54-83 | down and space move one slide on, up one back, Home to the first and End to the last; other keys, and keys other than the arrows typed in text fields, change nothing |
| ImportanceSlideShow.ImportanceSlides.constructor | scripts/pages/importance-slides.js:7-16 | the navigator starts on slide 1 of 5 with the buttons set for it |
| ImportanceSlideShow.ImportanceSlides.UpdateUI | scripts/pages/importance-slides.js:122-137 | previous is disabled exactly on the first slide, next shown and final hidden except on the last |
| ImportanceSlideShow.ImportanceSlides.GoToSlide | scripts/pages/importance-slides.js:101-120 | a number outside 1..total changes nothing; otherwise the active mark moves from the current slide to the new one and the buttons follow |
| ImportanceSlideShow.ImportanceSlides.NextSlide | scripts/pages/importance-slides.js:89-93 | the slide is the next one and the active mark moves with it |
| ImportanceSlideShow.ImportanceSlides.PreviousSlide | scripts/pages/importance-slides.js:95-99 | the slide is the previous one and the active mark moves with it |
| ImportanceSlideShow.ImportanceSlides.OnKeyDown | scripts/pages/importance-slides.js:43-83 | the slide is where both listeners take it, and a single active mark follows it |
| ImportanceSlideShow.ImportanceSlides.GetCurrentSlide | scripts/pages/importance-slides.js:140-142 | the current slide, always within 1..5 |
| ImportanceSlideShow.ImportanceSlides.IsFirstSlide | scripts/pages/importance-slides.js:148-150 | on a valid navigator, true exactly on the slide where previousSlide stays put, that is slide 1 |
| ImportanceSlideShow.ImportanceSlides.IsLastSlide | scripts/pages/importance-slides.js:152-154 | on a valid navigator, true exactly on the slide where nextSlide stays put, that is the last slide |
| ImportanceSlideShow.ImportanceSlides.ButtonsFollowSlide | scripts/pages/importance-slides.js:122-154 | previous disabled exactly on the first slide, final shown exactly on the last and next shown exactly elsewhere |
| MainCopy.QualityStatusMain | scripts/main.js:494-512 | the same colour as the module classification; the third tier is labelled 'Bad' exactly where the module says 'Ruim', and nothing else differs |
| MainCopy.DataTypeLabelMain | scripts/main.js:1884-1893 | the fallback label '📊 Dados' is given exactly to an unknown metric |
| MainCopy.LabelsDiffer | scripts/main.js:1884-1893 | the main.js and module labels agree on CO₂ alone; every other known metric's label is the module's behind its icon |
| MainCopy.AirQualityIndexMain | scripts/main.js:1726-1731 | the English label of the CO₂ value's tier: 'Excellent', 'Good', 'Moderate', 'Bad', 'Very Bad' for the bands below 400, 420, 450, 500 and above |
| MainCopy.AirQualityIndexMainVersusModule | scripts/main.js:1726-1731 | main.js's CO₂ index never gives the module's Portuguese label, yet two values get the same English label exactly when they get the same module label, that is, when they fall in the same tier |
| MainCopy.DisplayValueMainVersusModule | scripts/main.js:2077-2175 | never 'Dados não disponíveis' nor 'N/A': a reading whenever the module copy shows one, else a synthesized value, CO₂ for an unknown metric |
| MainCopy.FakeReadingWinsInMain | scripts/main.js:2081-2086 | a seeded reading is shown by both copies alike |
| MainCopy.RealDisplayValueMain | scripts/main.js:2125-2175 | always a reading or a synthesized value; the module copy's reading whenever it shows one, and where it shows 'Dados não disponíveis' a value synthesized for the metric, CO₂ for an unknown metric |
| MainCopy.DisplayValueMain | scripts/main.js:2077-2122 | always a fake reading, a real reading or a synthesized value; the fake reading exactly when the point was seeded with one for the metric; a synthesized value is for the metric itself, or CO₂ for an unknown metric |
| MainCopy.ClimateDisplayMainVersusModule | scripts/main.js:1263-1345 | every panel field is written, so the panel no longer depends on what it held, and each field the module copy writes gets the same value |
| MainCopy.ClimateStandInRanges | scripts/main.js:1263-1345 | each empty field gets a stand-in in its range: temperatures 5..25 and 25..40, humidity 50..79, pressure 1000..1050, wind 5..24, clouds 20..79, feels-like 15..35 |
| MainCopy.ClimateDisplayMain | scripts/main.js:1263-1345 | every one of the six panel fields is written, whether or not anything was collected for it |
| MainCopy.FireCountMain | scripts/main.js:1348-1372 | the number of fire records fetched, or on a rejected fetch a stand-in between 8 and 22 |
| MainCopy.FireStandInNeverTwentyThree | scripts/main.js:1363-1371 | the stand-in is never below 8 and never 23, whatever the draw |

## Left out

- Rendering: the Three.js scene, materials, lights, textures, the atmosphere and star-field construction, and the canvas drawing of labels. They run in an engine the model cannot see.
- Network and timing: `fetch` calls, proxy URLs, `async`/`await`, the one-second retry when the globe is missing, the two-second start timer and the 200 ms and 300 ms delays. Fetch outcomes are inputs and the loops are sequential. The quiz's 1500 ms feedback delay is the explicit step `Quiz.QuizApp.AdvanceAfterFeedback`.
- Projecting latitude and longitude to a 3D position uses floating-point trigonometry, so the projection is a parameter of the model.
- Exact `toFixed` and `Math.round` string output, `new Date()` timestamps, `Date.now()` and the quiz's elapsed time.
- `localStorage` and its JSON encoding. The quiz statistics record is a value passed in and handed back.
- `scripts/ui/interaction.js`, `scripts/ui/info-modal.js`, the audio scripts and `scripts/utils/globals.js` are not part of this model. They are DOM wiring, raycasting, audio I/O and declarations. Only the constant values from globals are reused.
- Camera `lookAt`, the orbit controls' `update` and the render call inside the animation frame.
- The `parentPoint` link of connector lines. The model keeps the lines as nodes, without the back reference.
- Labels are stored in their owner node rather than added as children of the globe (`scripts/ui/floating-interfaces.js:97`). The model keeps the order of nodes but not that extra child.
- Random draws whose values never reach any output are not parameters.
- The `catch` branches of `integrateFireData` (`scripts/apis/fire-data.js:97-101` and `scripts/main.js:1363-1371`) cannot be reached, because `fetchFireData` catches its own errors and returns simulated data. `MainCopy.FireCountMain` still states what the branch would show.
- TEMPO-point detection on a nameless point: traversals only look at named nodes, so the model never asks the question for one.
- DataIntegration.IntegrateRealDataWithPoints: requires numeric coordinates on every named point (`DataIntegration.CoordinatesKnown`). The source would pass NaN coordinates to the fetchers, and that case is not modelled.
- DataIntegration.FetchRealDataForPoints: requires the same numeric-coordinate condition.
- `updateFloatingInterfaceWithRealData` has an empty body in the source, so it changes nothing and has no member of its own.
- Animation.ZoomScaleFactor: requires a positive base distance. The page's base is always 3.
- MainCopy.DisplayValueMainVersusModule: a processed weather summary holds numbers or NaN, never `null`, so the null checks on weather fields in main.js cannot fire. An undefined field is shown as a NaN reading rather than as an error from `toFixed`.
- The quiz's DOM feedback (classes on options, the feedback text and the progress bar) and the slides' DOM beyond the active mark and the three buttons.
- main.js's text-only differences from the module scripts are not modelled: for instance its station reports are worded in English (`scripts/main.js:1677-1685`) and its CO₂ heuristic badges carry emoji and English names (`scripts/main.js:1758-1768`). Its getAirQualityIndex, with English labels, is `MainCopy.AirQualityIndexMain`.
- DataDisplay.GetRealDisplayValue: a temperature or pressure missing from the weather summary is shown as a NaN reading, and a missing humidity as a NaN reading too. The source's `toFixed` call throws on the first two (`scripts/ui/data-display.js:55, 73`) and prints 'undefined%' for the third.
- AirQuality.Step: the JavaScript key `undefined` of a measurement without `parameter` and a parameter named 'undefined' are different keys in the model, though one property of `parameters` in the source.
- Floating-point error: JavaScript numbers are exact reals in the model. Only the one-decimal and two-decimal roundings the source applies are modelled.

## Findings

| source | as written | input that shows it | evidently intended | confidence | as-written member | corrected member |
|---|---|---|---|---|---|---|
| scripts/apis/nasa-tempo.js:369-376 | the simulator names the aerosol pollutant 'aerosols', but the panel's lists are keyed 'aerosol', so pushing the reading throws a TypeError that ends the traversal | one covered point whose simulated TEMPO reading is for 'aerosols' | the 'aerosols' reading goes into the 'aerosol' list and the traversal finishes | not executed | TempoIntegration.AerosolsReadingAbortsAsWritten | TempoIntegration.IntendedCollectionSucceeds |

The panel members (`TempoIntegration.RatesShown`, `TempoIntegration.UpdatePollutantRates` and the page refreshes that call them) follow the code as written. The page itself only requests ozone readings (`scripts/apis/nasa-tempo.js:281`), and `TempoIntegration.AsWrittenAgreesWithIntended` shows that both keyings give the same rates whenever no 'aerosols' reading is on the globe.
