# agroservices IPM request construction, in Dafny

This project models the request-construction logic of the `IPM` client of the IPM
Decisions platform (`src/agroservices/ipm.py`). This is the logic that runs between
fetching platform metadata and making HTTP calls. It has three parts.

- **Weather-adapter parameters** (`weather_adapter.dfy`, module `WeatherAdapter`).
  `weatheradapter_params` dispatches on a source's `access_type`:
  - `location` sources go to the forecast builder.
  - `stations` sources go to the observation builder.
  - Any other access type is rejected.

  Each builder turns a weather-data source descriptor and the caller's keyword arguments
  into the query-parameter map of the weather-adapter service. It defaults `interval`
  and `parameters`, joins the parameter codes with commas, computes a default time
  window, and applies the per-source quirks keyed on hard-coded source ids:
  - altitude is dropped for `fi.fmi.forecast.location`;
  - a time window is added for the DMI and SLU sources;
  - test station ids are used for `info.fruitweb` and `net.ipmdecisions.metos`;
  - `ignoreErrors` is added for the FMI station source.

  Each builder appears twice:
  - a specification function (`Forecast`, `Observation`, `Resolve`) whose contract says
    which keys the map holds, with which values, and exactly when it fails;
  - a loop-free method proved equal to its function: `ForecastParams` and
    `ObservationParams` grow the map step by step, as the source does, and
    `AdapterParams` dispatches to those two methods.
- **Catalogue selection** (`data_sources.dfy`, module `WeatherDataSources`). This is the
  part of `get_weatherdatasource` that runs after the fetch. It indexes the source list by
  id, with the last entry winning. With no id it filters on `access_type` and
  `authentication_type`. With an id it returns the named source, or fails and lists the
  known ids.
- **Model-input composition** (`model_input.dfy`, module `DssModelInput`). This is
  `model_input`. It prepares the model's input schema for the JSON-Schema faker:
  - `weatherData` becomes a `{WEATHER_DATA}` placeholder;
  - the field-observation configuration entries become `{name}` placeholders;
  - `definitions` is dropped.

  It then takes the faker's output (the *skeleton*) and finishes it:
  - it overrides configuration parameters by priority: the caller's value, else the
    schema default, else the faked value;
  - it checks the supplied weather data against the model's declared parameter codes and
    interval;
  - it injects the weather data and the field-observation documents.

  `Prepare` and `Composed` specify the result. `PrepareSchema`, `ApplyConfig`,
  `InjectWeatherData`, `InjectObservations` and `ModelInput` do the same work
  imperatively, including the loops, and are proved to agree with them.

`wrappers.dfy` holds `Option` and `Result`. `json.dfy` holds the JSON value type.

Timestamps are whole seconds, one day is `DAY = 86400` seconds, and "now" is a parameter
of the forecast builder. A keyword argument that is not given is `None` in the
`Overrides` record. The exceptions the code raises on the inputs as modelled (missing
intervals, historic start, GeoJSON features, schema levels, weather entries and required
inputs, unknown access types and ids, the failing assertions) are each a `Failure`
carrying a typed error. Source descriptors and model records are assumed to hold the
keys the code reads unconditionally; "## Left out" lists them.

Two slips in the source are modelled as they behave, not as they were meant:
- The forecast builder parses the literal text `'timeStart'` / `'timeEnd'` instead of the
  caller's value (`ipm.py:209`, `ipm.py:214`). So giving either option to a windowed
  source fails with `InvalidIsoFormat`.
- The observation builder reads `start` even when it never set it (`ipm.py:262`). So
  `timeStart` without `timeEnd` fails with `UnboundStart`.

Other behaviour of the code that the model keeps:
- Weather data is mandatory exactly when the faker's skeleton contains `weatherData`
  (`ipm.py:878-880`). Data supplied for a skeleton without it is checked and injected only
  when the schema declares `weatherData` (`ipm.py:884-888`).
- The checks read the same weather document that is injected: its `weatherParameters`
  (only when some code is required) and then its `interval` (`ipm.py:881-882`,
  `ipm.py:886-887`).
- A declared but empty `weather_parameters` list always fails (`ipm.py:877` indexes
  element 0).
- A skeleton without `configParameters` fails at the field-observation step
  (`ipm.py:891`).

## Model

| member | source | states |
|---|---|---|
| WeatherAdapter.ParseAccess | src/agroservices/ipm.py:304-309 | every `access_type` string reads as exactly one access type, and reading it back gives the same string |
| WeatherAdapter.AccessNameInjective | src/agroservices/ipm.py:304-309 | two access types have the same `access_type` string exactly when they are equal |
| WeatherAdapter.SplitJoin | src/agroservices/ipm.py:201-203 | the comma-joined `parameters` value splits back into the same codes, for any non-empty list of codes without commas |
| WeatherAdapter.Forecast | src/agroservices/ipm.py:172-220 | fails exactly when no interval is given or listed, and then with `NoInterval` and only then; or, with an interval, when a DMI/SLU source is given `timeStart` (`InvalidIsoFormat("timeStart")`) or, without `timeStart`, `timeEnd` (`InvalidIsoFormat("timeEnd")`), each error exactly in its case; otherwise the map always holds latitude, longitude, interval and parameters; altitude unless the source is `fi.fmi.forecast.location`; timeStart/timeEnd only for the DMI and SLU sources, as now and now + 1 day; no other key; each value is the caller's or its default |
| WeatherAdapter.ForecastParams | src/agroservices/ipm.py:195-220 | the step-by-step build (update, pop of altitude, window) yields exactly `Forecast` |
| WeatherAdapter.StationId | src/agroservices/ipm.py:266-279 | a caller's station id is kept; otherwise fruitweb gets 18150029 and metos gets 732; any other source gets the first GeoJSON feature's `id`, else its `properties.id`, and fails when neither exists, with `NoGeoJson` for a source without GeoJSON, `NoFeature` for an empty feature list and `NoFeatureId` when the first feature has neither id |
| WeatherAdapter.Observation | src/agroservices/ipm.py:222-288 | fails exactly when no interval is available, when the start must be defaulted but no historic start exists, when `timeStart` is given without `timeEnd` (unbound `start`), or when no station id can be found; the error is the first of these in the source's order, each exactly in its case: `NoInterval`, then `NoHistoricStart`, then `UnboundStart`, then the station lookup's own error; otherwise the keys are exactly interval, parameters, timeStart, timeEnd and weatherStationId, plus ignoreErrors (default true) for `fi.fmi.observation.station` only; a defaulted window is historic start + 1 day to + 2 days; caller times pass through unchanged |
| WeatherAdapter.ObservationParams | src/agroservices/ipm.py:247-288 | the step-by-step build, including the conditionally bound `start`, yields exactly `Observation` |
| WeatherAdapter.Resolve | src/agroservices/ipm.py:290-311 | a `stations` source gets exactly the observation builder's result and a `location` source exactly the forecast builder's, failures included; an unknown access type, and nothing else, gives `UnknownAccessType` naming it; a result holds a station id exactly for `stations` sources and a latitude exactly for `location` sources, with each builder's guaranteed keys |
| WeatherAdapter.AdapterParams | src/agroservices/ipm.py:304-311 | the dispatch yields exactly `Resolve` |
| WeatherDataSources.Index | src/agroservices/ipm.py:385 | the index's keys are exactly the ids in the fetched list, and each id maps to a list entry carrying that id |
| WeatherDataSources.IndexKeepsLast | src/agroservices/ipm.py:385 | an id maps to the last list entry that carries it |
| WeatherDataSources.Select | src/agroservices/ipm.py:385-398 | without an id: exactly the indexed sources whose access and authentication types equal the given filters, unchanged; with an id: success exactly when some entry carries it, returning a source with that id; otherwise `UnknownDataSource` with the id and the set of known ids |
| WeatherDataSources.SelectById | src/agroservices/ipm.py:394-395 | asking for an entry's id returns that entry when no later entry shares the id |
| DssModelInput.Placeholder | src/agroservices/ipm.py:846-852 | a placeholder is a `string` schema whose pattern is its sentinel anchored at both ends and whose default is the sentinel `{token}` |
| DssModelInput.Prepare | src/agroservices/ipm.py:841-855 | fails exactly when the schema lacks `properties`, `configParameters` or its `properties`, with the `MalformedSchema` error of the first missing level; otherwise `definitions` is dropped, `weatherData` (if declared) becomes the `WEATHER_DATA` placeholder, the declared field-observation config properties become their own placeholders, and every other entry at each level is unchanged |
| DssModelInput.PrepareSchema | src/agroservices/ipm.py:841-855 | the in-place rewrite, with its loop over the two field-observation names, yields exactly `Prepare` |
| DssModelInput.Configured | src/agroservices/ipm.py:863-870 | the overridden configuration has the faked keys, each holding the caller's value, else the schema default, else the faked value |
| DssModelInput.ConfiguredIdempotent | src/agroservices/ipm.py:863-870 | running the override pass twice gives the same configuration as running it once |
| DssModelInput.ConfiguredSentinel | src/agroservices/ipm.py:849-868 | a faked field-observation entry with no caller value leaves the pass as its `{name}` sentinel |
| DssModelInput.ApplyConfig | src/agroservices/ipm.py:860-870 | the key-by-key override loop yields exactly `Configured`, whatever order it visits the keys in |
| DssModelInput.Expectation | src/agroservices/ipm.py:873-877 | with no declared weather parameters, no code is required and the expected interval is None; a declared empty list fails; otherwise the required codes are the declared codes, in order, and the interval is the first declared one |
| DssModelInput.WeatherCheck | src/agroservices/ipm.py:881-882 | no error exactly when the document's `weatherParameters` holds every required code (list member, dict key or substring; not read when no code is required) and its `interval` equals the expected one under Python's `==`; otherwise, in the source's order: the `weatherParameters` entry is missing, or is not a container, or the non-empty set of missing codes; only then, once every code is present, `UnreadableWeatherData("interval")` exactly when the `interval` entry is missing, and the interval mismatch naming both values exactly when it is present and unequal |
| DssModelInput.WeatherCheckExample | src/agroservices/ipm.py:881-882 | a model declaring `TM` at 3600 s accepts `{weatherParameters: [TM, RH], interval: 3600}` and rejects the same document at 7200 s with the interval mismatch |
| DssModelInput.InjectWeather | src/agroservices/ipm.py:878-888 | a skeleton holding weatherData with no data supplied fails with `MissingWeatherData`; injection happens when the skeleton holds the key, or the schema declares it and data is supplied, and then fails exactly when the data is missing or the document itself is incompatible; otherwise it stores that document verbatim; with no injection the input is unchanged; a failure on supplied data is exactly the error `WeatherCheck` gives for that document |
| DssModelInput.InjectWeatherData | src/agroservices/ipm.py:878-888 | the branch-by-branch injection yields exactly `InjectWeather` |
| DssModelInput.InjectField | src/agroservices/ipm.py:891-897 | no configParameters fails with `MissingConfigParameters`; a referenced key with no document fails with `MissingFieldInput` naming it; every other input succeeds, and only configParameters changes, gaining the document when it is supplied and the key is referenced or declared |
| DssModelInput.InjectFields | src/agroservices/ipm.py:889-897 | injecting documents one after the other keeps every top-level key and every entry but configParameters, never removes a config key, and fails with `MissingConfigParameters` when there is a document to handle and no configParameters |
| DssModelInput.InjectObservations | src/agroservices/ipm.py:889-897 | the loop over the field-observation pairs yields exactly the successive injections |
| DssModelInput.InjectFieldsPair | src/agroservices/ipm.py:889-897 | injecting both documents fails exactly when configParameters is missing or a referenced key has no document, with the first error in the source's order (`MissingConfigParameters`, then `fieldObservations`, then `fieldObservationQuantifications`); otherwise both documents are applied in turn |
| DssModelInput.PlacedAfterInjection | src/agroservices/ipm.py:889-897 | applying the two documents leaves every other config key as it was, adds at most the two field-observation keys, and places each document as referenced-or-declared dictates |
| DssModelInput.Composed | src/agroservices/ipm.py:833-898 | an unreadable schema fails with its `MalformedSchema` error; an empty declared weather-parameter list fails with `NoDeclaredWeatherParameter`; a skeleton without configParameters fails; a composed input has the skeleton's keys plus at most weatherData, and its configParameters keeps every faked key |
| DssModelInput.ComposedSucceeds | src/agroservices/ipm.py:833-898 | composition succeeds exactly when the schema is readable, the declared weather-parameter list is absent or non-empty, the skeleton has configParameters, injected weather data is supplied and compatible, and every faked field-observation key has its document |
| DssModelInput.ComposedWeatherError | src/agroservices/ipm.py:878-888 | supplied weather data that is injected and fails its check fails the whole composition with the error `WeatherCheck` gives for it, once the schema and declarations are readable |
| DssModelInput.ModelInput | src/agroservices/ipm.py:833-898 | the imperative composer yields exactly `Composed` for the faker's skeleton |
| DssModelInput.ComposedKeepsSkeleton | src/agroservices/ipm.py:857-898 | a composed input has the skeleton's keys, plus weatherData when injected, and every entry other than configParameters and weatherData is the skeleton's |
| DssModelInput.ComposedConfiguration | src/agroservices/ipm.py:860-897 | in a composed input, every non-field-observation config key holds the caller's value, else the schema default, else the faked value; a referenced field-observation key holds the supplied document; an unreferenced one is added only when the config schema declares it, and is ignored otherwise |
| DssModelInput.ComposedNeedsFieldInputs | src/agroservices/ipm.py:889-893 | composition fails when the skeleton has no configParameters, or when it references a field-observation key whose document is not supplied; once the schema, the declarations and any injected weather data pass, the error is `MissingConfigParameters`, else `MissingFieldInput` for `fieldObservations`, else for `fieldObservationQuantifications`, as the source checks them |
| DssModelInput.ComposedWeather | src/agroservices/ipm.py:873-888 | a composed input holds weatherData exactly when it was injected; the injected document is the caller's, verbatim, and that same document holds the declared codes and the declared interval; with no declared parameters its `interval` entry is null |
| DssModelInput.ComposedMissingWeather | src/agroservices/ipm.py:878-880 | a skeleton holding weatherData cannot be composed without weather data, and the error is `MissingWeatherData` once the schema and declarations are readable |

## Left out

- HTTP transport, the REST base class, `get_weatheradapter`, `run_model` and every pass-through catalogue call: these are I/O with no logic of their own.
- The fetch in `get_weatherdatasource`, and its loop that decodes each `spatial.geoJSON` string with `json.loads` (`ipm.py:380-383`). The catalogue is taken already fetched and decoded: a source's GeoJSON is its list of features.
- File, YAML and JSON reading and writing, including the schema writers.
- The JSF faker (`ipm.py:857-858`). It is a foreign library, so its output is the `skeleton` parameter. `ModelInput` assumes (`Fits`) that a skeleton's `configParameters` is an object, and that each of its keys the caller does not override is a declared config property. Line 867 relies on this.
- Date parsing, time zones and ISO-8601 formatting. Timestamps are integers, and a caller's `timeStart`/`timeEnd` are taken as already parsed.
- `Forecast`: does not model what `fromisoformat` would do with a well-formed time option. The source never parses the caller's value (it parses the option name), so every given option fails.
- The `str()` applied to each parameter code, and the `int()` applied to a feature id: codes are taken as text and feature ids as integers.
- The shallow `schema.copy()` at `ipm.py:841`. The source's placeholder rewrites also change the caller's model. The model works on values and does not capture that aliasing, nor does it claim the caller's model is unchanged.
- The text of error messages. Errors are typed values. `UnknownDataSource` carries the known ids as a set, not as the comma-joined list of the message.
- A keyword argument passed explicitly as `None` behaves in the model as one not given, because `Overrides` has no way to say "given as `None`". The source agrees for `interval`, `parameters`, `timeStart`, `timeEnd` and `weatherStationId` of the builders, which it tests with `is None`. It disagrees in the three cases below.
- Forecast: an explicit `latitude=None`, `longitude=None` or `altitude=None` is stored as `None` in the parameters by the source (`ipm.py:173-175`, `ipm.py:195`), where the model stores the default (67.2828, 14.3711, 0).
- Forecast: an explicit `timeStart=None` or `timeEnd=None` in `**options` for the DMI or SLU source still takes the `'timeStart' in options` branch and raises (`ipm.py:208-209`, `ipm.py:213-214`), where the model succeeds.
- Observation: an explicit `ignoreErrors=None` in `**options` is kept as `None` by the source (`ipm.py:281-285`), where the model uses the default `true`.
- Source descriptors are taken with `id`, `access_type`, `authentication_type`, `temporal.intervals` and `parameters.common` present, and model records with `id`, `execution.input_schema` and `input` present: the KeyErrors a missing one would raise are not modelled.
- The evaluation of the assertion messages (`ipm.py:881`, `ipm.py:886` build a set from `weatherParameters`, which raises TypeError when its items are unhashable) is not modelled: the failure is `WeatherParametersMissing` either way.
- The weather data and the field-observation documents are `Option<Json>`, with `None` for Python's `None`. A present document that is JSON null cannot come from the source's callers, and the model does not exclude it.
- Assertions removed under `python -O`: the weather compatibility checks are modelled as always active.
- Schema entries of other shapes (for example a property schema that is not an object) are read as having no `default`. A schema whose `properties` levels are not objects fails with `MalformedSchema`.
- A `model['input']` without a `weather_parameters` key: the model reads only `null` or a list.
