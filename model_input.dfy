/**
 * Composing the execution input of a decision-support model (`IPM.model_input`).
 *
 * The model's input schema is first prepared for the faker: the `weatherData` property
 * and the `fieldObservations` / `fieldObservationQuantifications` configuration
 * properties become placeholder strings, and `definitions` is dropped. The faker's
 * output (the skeleton) is an input of the model. The composer then overrides
 * configuration parameters by priority (caller value, schema default, faked value),
 * checks the supplied weather data against the model's declared parameters, and injects
 * the weather data and field observations.
 *
 * `Prepare` and `Composed` specify the result declaratively; `PrepareSchema`,
 * `ApplyConfig` and `ModelInput` do the same work step by step, as the source does, and
 * are proved to agree with them.
 */
module DssModelInput {
  import opened Wrappers
  import opened JsonValues

  const PROPERTIES := "properties"
  const DEFINITIONS := "definitions"
  const CONFIG_PARAMETERS := "configParameters"
  const WEATHER_DATA := "weatherData"
  const FIELD_OBSERVATIONS := "fieldObservations"
  const FIELD_OBSERVATION_QUANTIFICATIONS := "fieldObservationQuantifications"
  /** The token of the weather-data placeholder. */
  const WEATHER_TOKEN := "WEATHER_DATA"

  /** The configuration properties the caller supplies, in the order they are handled. */
  const FIELD_OBSERVATION_NAMES: seq<string> := [FIELD_OBSERVATIONS, FIELD_OBSERVATION_QUANTIFICATIONS]

  /** One entry of a model's `input.weather_parameters`. */
  datatype WeatherParameter = WeatherParameter(parameterCode: string, interval: int)

  /** A model's metadata: its `id`, `execution.input_schema` and `input.weather_parameters`. */
  datatype Model = Model(
    id: string,
    inputSchema: map<string, Json>,
    weatherParameters: Option<seq<WeatherParameter>>)

  /** The two entries of a weather-data document that the composer checks. */
  const WEATHER_PARAMETERS := "weatherParameters"
  const INTERVAL := "interval"

  datatype Error =
    | MalformedSchema(key: string)                      // KeyError: the schema lacks this level
    | NoDeclaredWeatherParameter                        // IndexError: `weather_parameters` is []
    | MissingWeatherData(modelId: string)               // ValueError "<id> requires WeatherData as input"
    | UnreadableWeatherData(key: string)                // KeyError/TypeError: the document lacks this entry
    | WeatherParametersNotContainer                     // TypeError: `in` on a number, bool or null
    | WeatherParametersMissing(missing: set<string>)    // AssertionError naming the missing codes
    | WeatherIntervalMismatch(expected: Option<int>, actual: Json)  // AssertionError
    | MissingConfigParameters                           // KeyError: no `configParameters` in the input
    | MissingFieldInput(modelId: string, name: string)  // ValueError "<id> requires <name> as input"

  // ------------------------------------------------------------ the schema

  /** The levels of the input schema that the composer reads. */
  datatype Layout = Layout(
    properties: map<string, Json>,        // schema['properties']
    configParameters: map<string, Json>,  // schema['properties']['configParameters']
    configProperties: map<string, Json>)  // ... ['configParameters']['properties']

  function ReadLayout(schema: map<string, Json>): Result<Layout, Error>
  {
    if PROPERTIES !in schema || !schema[PROPERTIES].Obj? then Failure(MalformedSchema(PROPERTIES))
    else
      var properties := schema[PROPERTIES].fields;
      if CONFIG_PARAMETERS !in properties || !properties[CONFIG_PARAMETERS].Obj? then
        Failure(MalformedSchema(CONFIG_PARAMETERS))
      else
        var config := properties[CONFIG_PARAMETERS].fields;
        if PROPERTIES !in config || !config[PROPERTIES].Obj? then Failure(MalformedSchema(PROPERTIES))
        else Success(Layout(properties, config, config[PROPERTIES].fields))
  }

  /** The `default` of a property schema, if it declares one. */
  function DefaultOf(propertySchema: Json): Option<Json>
  {
    if propertySchema.Obj? && "default" in propertySchema.fields then Some(propertySchema.fields["default"])
    else None
  }

  /** The placeholder text for a token: the token in braces. */
  function Sentinel(token: string): string
  {
    "{" + token + "}"
  }

  /** The schema of a placeholder: a string that must be, and defaults to, the sentinel. */
  function Placeholder(token: string): (j: Json)
    ensures j.Obj? && "type" in j.fields && j.fields["type"] == Str("string")
    ensures j.Obj? && "pattern" in j.fields && j.fields["pattern"] == Str("^" + Sentinel(token) + "$")
    ensures DefaultOf(j) == Some(Str(Sentinel(token)))
  {
    Obj(map["type" := Str("string"), "pattern" := Str("^" + Sentinel(token) + "$"), "default" := Str(Sentinel(token))])
  }

  /** The schema handed to the faker, and the two levels of it the composer reads afterwards. */
  datatype Prepared = Prepared(
    schema: map<string, Json>,
    properties: map<string, Json>,
    configProperties: map<string, Json>)

  /** The configuration properties with each field-observation entry made a placeholder. */
  function PlaceholderConfig(configProperties: map<string, Json>): map<string, Json>
  {
    map k | k in configProperties :: if k in FIELD_OBSERVATION_NAMES then Placeholder(k) else configProperties[k]
  }

  /** The input schema prepared for the faker. */
  function Prepare(schema: map<string, Json>): (r: Result<Prepared, Error>)
    ensures r.Failure? <==> ReadLayout(schema).Failure?
    ensures r.Failure? ==> r == Failure(ReadLayout(schema).error)
    ensures r.Failure? ==> r.error.MalformedSchema?
    ensures r.Success? ==>
      && ReadLayout(schema).Success?
      && r.value.schema.Keys == schema.Keys - {DEFINITIONS}
      && (forall k :: k in r.value.schema && k != PROPERTIES ==> r.value.schema[k] == schema[k])
      && r.value.schema[PROPERTIES] == Obj(r.value.properties)
    ensures r.Success? ==>
      var layout := ReadLayout(schema).value;
      && r.value.properties.Keys == layout.properties.Keys
      && (WEATHER_DATA in layout.properties ==> r.value.properties[WEATHER_DATA] == Placeholder(WEATHER_TOKEN))
      && r.value.properties[CONFIG_PARAMETERS]
         == Obj(layout.configParameters[PROPERTIES := Obj(r.value.configProperties)])
      && (forall k :: k in layout.properties && k != WEATHER_DATA && k != CONFIG_PARAMETERS ==>
            r.value.properties[k] == layout.properties[k])
    ensures r.Success? ==>
      var layout := ReadLayout(schema).value;
      && r.value.configProperties.Keys == layout.configProperties.Keys
      && (forall k :: k in layout.configProperties && k in FIELD_OBSERVATION_NAMES ==>
            r.value.configProperties[k] == Placeholder(k))
      && (forall k :: k in layout.configProperties && k !in FIELD_OBSERVATION_NAMES ==>
            r.value.configProperties[k] == layout.configProperties[k])
  {
    var layout :- ReadLayout(schema);
    var configProperties := PlaceholderConfig(layout.configProperties);
    var properties :=
      (if WEATHER_DATA in layout.properties
       then layout.properties[WEATHER_DATA := Placeholder(WEATHER_TOKEN)]
       else layout.properties)
      [CONFIG_PARAMETERS := Obj(layout.configParameters[PROPERTIES := Obj(configProperties)])];
    Success(Prepared((schema - {DEFINITIONS})[PROPERTIES := Obj(properties)], properties, configProperties))
  }

  /** Rewrites the schema's placeholder properties and drops its definitions, as the source does. */
  method PrepareSchema(schema: map<string, Json>) returns (r: Result<Prepared, Error>)
    ensures r == Prepare(schema)
  {
    var layout := ReadLayout(schema);
    if layout.Failure? {
      return Failure(layout.error);
    }
    var properties := layout.value.properties;
    var configProperties := layout.value.configProperties;

    if WEATHER_DATA in properties {
      properties := properties[WEATHER_DATA := Placeholder(WEATHER_TOKEN)];
    }
    for i := 0 to |FIELD_OBSERVATION_NAMES|
      invariant configProperties.Keys == layout.value.configProperties.Keys
      invariant forall k :: k in configProperties ==>
        configProperties[k] == if k in FIELD_OBSERVATION_NAMES[..i] then Placeholder(k)
                               else layout.value.configProperties[k]
    {
      var p := FIELD_OBSERVATION_NAMES[i];
      if p in configProperties {
        configProperties := configProperties[p := Placeholder(p)];
      }
    }
    assert FIELD_OBSERVATION_NAMES[..|FIELD_OBSERVATION_NAMES|] == FIELD_OBSERVATION_NAMES;
    assert configProperties == PlaceholderConfig(layout.value.configProperties);
    properties := properties[CONFIG_PARAMETERS :=
      Obj(layout.value.configParameters[PROPERTIES := Obj(configProperties)])];

    var prepared := schema;
    if DEFINITIONS in prepared {
      prepared := prepared - {DEFINITIONS};
    }
    assert prepared == schema - {DEFINITIONS};
    prepared := prepared[PROPERTIES := Obj(properties)];
    r := Success(Prepared(prepared, properties, configProperties));
  }

  // ----------------------------------------------------- configuration pass

  /** Every faked configuration key without a caller value has a schema entry to read. */
  predicate Covered(faked: map<string, Json>, given: map<string, Json>, configProperties: map<string, Json>)
  {
    forall k :: k in faked && k !in given ==> k in configProperties
  }

  function ConfigValue(key: string, faked: Json, given: map<string, Json>, configProperties: map<string, Json>): Json
    requires key in given || key in configProperties
  {
    if key in given then given[key]
    else if DefaultOf(configProperties[key]).Some? then DefaultOf(configProperties[key]).value
    else faked
  }

  /**
   * The configuration after the override pass: the same keys as the faked one, each
   * holding the caller's value, else the schema default, else the faked value.
   */
  function Configured(faked: map<string, Json>, given: map<string, Json>, configProperties: map<string, Json>)
    : (r: map<string, Json>)
    requires Covered(faked, given, configProperties)
    ensures r.Keys == faked.Keys
    ensures forall k :: k in r && k in given ==> r[k] == given[k]
    ensures forall k :: k in r && k !in given && DefaultOf(configProperties[k]).Some? ==>
      r[k] == DefaultOf(configProperties[k]).value
    ensures forall k :: k in r && k !in given && DefaultOf(configProperties[k]).None? ==> r[k] == faked[k]
  {
    map k | k in faked :: ConfigValue(k, faked[k], given, configProperties)
  }

  /** Running the override pass a second time changes nothing. */
  lemma ConfiguredIdempotent(faked: map<string, Json>, given: map<string, Json>, configProperties: map<string, Json>)
    requires Covered(faked, given, configProperties)
    ensures Covered(Configured(faked, given, configProperties), given, configProperties)
    ensures Configured(Configured(faked, given, configProperties), given, configProperties)
            == Configured(faked, given, configProperties)
  {
  }

  /**
   * A faked field-observation entry with no caller value leaves the pass as its
   * placeholder's sentinel, ready to be recognised and replaced.
   */
  lemma ConfiguredSentinel(schema: map<string, Json>, faked: map<string, Json>, given: map<string, Json>, name: string)
    requires Prepare(schema).Success?
    requires Covered(faked, given, Prepare(schema).value.configProperties)
    requires name in FIELD_OBSERVATION_NAMES && name in faked && name !in given
    ensures Configured(faked, given, Prepare(schema).value.configProperties)[name] == Str(Sentinel(name))
  {
  }

  /** Overrides the faked configuration key by key, as the source does. */
  method ApplyConfig(faked: map<string, Json>, given: map<string, Json>, configProperties: map<string, Json>)
    returns (config: map<string, Json>)
    requires Covered(faked, given, configProperties)
    ensures config == Configured(faked, given, configProperties)
  {
    config := faked;
    var pending := faked.Keys;
    while pending != {}
      invariant pending <= faked.Keys
      invariant config.Keys == faked.Keys
      invariant forall k :: k in config ==>
        config[k] == if k in pending then faked[k] else ConfigValue(k, faked[k], given, configProperties)
      decreases pending
    {
      var p :| p in pending;
      if p in given {
        config := config[p := given[p]];
      } else if DefaultOf(configProperties[p]).Some? {
        config := config[p := DefaultOf(configProperties[p]).value];
      }
      pending := pending - {p};
    }
  }

  // ------------------------------------------------------------ weather data

  /** What the model asks of weather data: the declared codes and the first declared interval. */
  datatype Expected = Expected(codes: seq<string>, interval: Option<int>)

  function Expectation(declared: Option<seq<WeatherParameter>>): (r: Result<Expected, Error>)
    ensures declared.None? ==> r == Success(Expected([], None))
    ensures declared.Some? ==> (r.Failure? <==> declared.value == [])
    ensures r.Success? && declared.Some? ==>
      && declared.value != []
      && r.value.interval == Some(declared.value[0].interval)
      && |r.value.codes| == |declared.value|
      && (forall i :: 0 <= i < |declared.value| ==> r.value.codes[i] == declared.value[i].parameterCode)
  {
    match declared
    case None => Success(Expected([], None))
    case Some(parameters) =>
      var codes := seq(|parameters|, i requires 0 <= i < |parameters| => parameters[i].parameterCode);
      if parameters == [] then Failure(NoDeclaredWeatherParameter)
      else Success(Expected(codes, Some(parameters[0].interval)))
  }

  /** `d[key]`, when `d` is an object holding `key`; otherwise Python raises KeyError or TypeError. */
  function Entry(d: Json, key: string): Option<Json>
  {
    if d.Obj? && key in d.fields then Some(d.fields[key]) else None
  }

  /** Whether Python's `in` accepts the value as a container: a list, a dict or a string. */
  predicate IsContainer(v: Json)
  {
    v.Arr? || v.Obj? || v.Str?
  }

  /** Python's `code in v`: list membership, dict-key membership, or substring. */
  predicate Holds(v: Json, code: string)
  {
    match v
    case Arr(items) => Str(code) in items
    case Obj(fields) => code in fields
    case Str(text) => exists i :: 0 <= i <= |text| - |code| && OccursAt(text, code, i)
    case _ => false
  }

  /** `code` occurs in `text` starting at index `i`. */
  predicate OccursAt(text: string, code: string, i: int)
  {
    0 <= i <= |text| - |code| && text[i..i + |code|] == code
  }

  /**
   * Python's `interval == d['interval']` for an `int` or `None` interval: None equals only
   * null; an int equals the same number, or the bool that denotes it.
   */
  predicate SameInterval(expected: Option<int>, v: Json)
  {
    match expected
    case None => v.Null?
    case Some(n) => (v.Num? && v.x == n as real) || (v.Bool? && n == (if v.b then 1 else 0))
  }

  /**
   * Every required code is in the document's `weatherParameters`. With no required code
   * the entry is never read.
   */
  predicate CodesPresent(expected: Expected, document: Json)
  {
    expected.codes == [] ||
    (Entry(document, WEATHER_PARAMETERS).Some?
     && forall c :: c in expected.codes ==> Holds(Entry(document, WEATHER_PARAMETERS).value, c))
  }

  /** The weather document meets the model's needs: every required code present, the interval equal. */
  predicate Compatible(expected: Expected, document: Json)
  {
    && CodesPresent(expected, document)
    && Entry(document, INTERVAL).Some?
    && SameInterval(expected.interval, Entry(document, INTERVAL).value)
  }

  /** The error the two assertions raise on a weather document, if any: codes first, then the interval. */
  function WeatherCheck(expected: Expected, document: Json): (r: Option<Error>)
    ensures r.None? <==> Compatible(expected, document)
    ensures r == Some(UnreadableWeatherData(WEATHER_PARAMETERS)) <==>
      expected.codes != [] && Entry(document, WEATHER_PARAMETERS).None?
    ensures r == Some(WeatherParametersNotContainer) <==>
      expected.codes != [] && Entry(document, WEATHER_PARAMETERS).Some?
      && !IsContainer(Entry(document, WEATHER_PARAMETERS).value)
    ensures r.Some? && r.value.WeatherParametersMissing? <==>
      expected.codes != [] && Entry(document, WEATHER_PARAMETERS).Some?
      && IsContainer(Entry(document, WEATHER_PARAMETERS).value) && !CodesPresent(expected, document)
    ensures r.Some? && r.value.WeatherParametersMissing? ==>
      && r.value.missing == (set c | c in expected.codes && !Holds(Entry(document, WEATHER_PARAMETERS).value, c))
      && r.value.missing != {}
    ensures r.Some? && (r.value == UnreadableWeatherData(INTERVAL) || r.value.WeatherIntervalMismatch?) ==>
      CodesPresent(expected, document)
    ensures r == Some(UnreadableWeatherData(INTERVAL)) <==>
      CodesPresent(expected, document) && Entry(document, INTERVAL).None?
    ensures r.Some? && r.value.WeatherIntervalMismatch? <==>
      && CodesPresent(expected, document)
      && Entry(document, INTERVAL).Some?
      && !SameInterval(expected.interval, Entry(document, INTERVAL).value)
    ensures r.Some? && r.value.WeatherIntervalMismatch? ==>
      && Entry(document, INTERVAL).Some?
      && r.value == WeatherIntervalMismatch(expected.interval, Entry(document, INTERVAL).value)
    ensures r.Some? ==>
      r.value.UnreadableWeatherData? || r.value.WeatherParametersNotContainer?
      || r.value.WeatherParametersMissing? || r.value.WeatherIntervalMismatch?
  {
    if expected.codes != [] && Entry(document, WEATHER_PARAMETERS).None? then
      Some(UnreadableWeatherData(WEATHER_PARAMETERS))
    else if expected.codes != [] && !IsContainer(Entry(document, WEATHER_PARAMETERS).value) then
      assert !Holds(Entry(document, WEATHER_PARAMETERS).value, expected.codes[0]);
      Some(WeatherParametersNotContainer)
    else if !CodesPresent(expected, document) then
      var parameters := Entry(document, WEATHER_PARAMETERS).value;
      var missing := set c | c in expected.codes && !Holds(parameters, c);
      assert exists c :: c in expected.codes && !Holds(parameters, c);
      assert forall c :: c in expected.codes && !Holds(parameters, c) ==> c in missing;
      Some(WeatherParametersMissing(missing))
    else if Entry(document, INTERVAL).None? then Some(UnreadableWeatherData(INTERVAL))
    else if !SameInterval(expected.interval, Entry(document, INTERVAL).value) then
      Some(WeatherIntervalMismatch(expected.interval, Entry(document, INTERVAL).value))
    else None
  }

  /**
   * A model declaring `TM` hourly accepts a document with `TM` and `RH` at 3600 seconds,
   * and rejects the same document at 7200 seconds for its interval.
   */
  lemma WeatherCheckExample()
    ensures
      var expected := Expected(["TM"], Some(3600));
      var codes := Arr([Str("TM"), Str("RH")]);
      && WeatherCheck(expected, Obj(map[WEATHER_PARAMETERS := codes, INTERVAL := Num(3600.0)])) == None
      && WeatherCheck(expected, Obj(map[WEATHER_PARAMETERS := codes, INTERVAL := Num(7200.0)]))
         == Some(WeatherIntervalMismatch(Some(3600), Num(7200.0)))
  {
  }

  /** Weather data is injected when the skeleton holds it, or when it is supplied and the schema declares it. */
  predicate Injects(input: map<string, Json>, properties: map<string, Json>, weatherData: Option<Json>)
  {
    WEATHER_DATA in input || (weatherData.Some? && WEATHER_DATA in properties)
  }

  function InjectWeather(input: map<string, Json>, properties: map<string, Json>, expected: Expected,
                         weatherData: Option<Json>, modelId: string): (r: Result<map<string, Json>, Error>)
    ensures WEATHER_DATA in input && weatherData.None? ==> r == Failure(MissingWeatherData(modelId))
    ensures r.Failure? <==>
      Injects(input, properties, weatherData) && (weatherData.None? || !Compatible(expected, weatherData.value))
    ensures r.Success? && Injects(input, properties, weatherData) ==>
      weatherData.Some? && r.value == input[WEATHER_DATA := weatherData.value]
    ensures r.Success? && !Injects(input, properties, weatherData) ==> r.value == input
    ensures r.Failure? && weatherData.Some? ==> Some(r.error) == WeatherCheck(expected, weatherData.value)
  {
    if !Injects(input, properties, weatherData) then Success(input)
    else if weatherData.None? then Failure(MissingWeatherData(modelId))
    else
      match WeatherCheck(expected, weatherData.value)
      case Some(problem) => Failure(problem)
      case None => Success(input[WEATHER_DATA := weatherData.value])
  }

  // ---------------------------------------------------- field observations

  predicate ConfigIsObject(input: map<string, Json>)
  {
    CONFIG_PARAMETERS in input ==> input[CONFIG_PARAMETERS].Obj?
  }

  /** The configuration after one supplied document: set when the key is faked or declared. */
  function WithField(config: map<string, Json>, configProperties: map<string, Json>, name: string, value: Option<Json>)
    : map<string, Json>
  {
    if value.Some? && (name in config || name in configProperties) then config[name := value.value] else config
  }

  function InjectField(input: map<string, Json>, configProperties: map<string, Json>, name: string,
                       value: Option<Json>, modelId: string): (r: Result<map<string, Json>, Error>)
    requires ConfigIsObject(input)
    ensures CONFIG_PARAMETERS !in input ==> r == Failure(MissingConfigParameters)
    ensures CONFIG_PARAMETERS in input && name in input[CONFIG_PARAMETERS].fields && value.None? ==>
      r == Failure(MissingFieldInput(modelId, name))
    ensures r.Success? <==>
      CONFIG_PARAMETERS in input && !(name in input[CONFIG_PARAMETERS].fields && value.None?)
    ensures r.Success? ==>
      && CONFIG_PARAMETERS in input
      && r.value == input[CONFIG_PARAMETERS :=
           Obj(WithField(input[CONFIG_PARAMETERS].fields, configProperties, name, value))]
  {
    if CONFIG_PARAMETERS !in input then Failure(MissingConfigParameters)
    else
      var config := input[CONFIG_PARAMETERS].fields;
      if name in config && value.None? then Failure(MissingFieldInput(modelId, name))
      else Success(input[CONFIG_PARAMETERS := Obj(WithField(config, configProperties, name, value))])
  }

  /** Injects the supplied documents one after the other. */
  function InjectFields(input: map<string, Json>, configProperties: map<string, Json>,
                        fields: seq<(string, Option<Json>)>, modelId: string): (r: Result<map<string, Json>, Error>)
    requires ConfigIsObject(input)
    ensures r.Success? ==> ConfigIsObject(r.value) && r.value.Keys == input.Keys
    ensures r.Success? ==> forall k :: k in input && k != CONFIG_PARAMETERS ==> r.value[k] == input[k]
    ensures fields != [] && CONFIG_PARAMETERS !in input ==> r == Failure(MissingConfigParameters)
    ensures r.Success? && CONFIG_PARAMETERS in input ==>
      input[CONFIG_PARAMETERS].fields.Keys <= r.value[CONFIG_PARAMETERS].fields.Keys
    decreases |fields|
  {
    if fields == [] then Success(input)
    else
      var next :- InjectField(input, configProperties, fields[0].0, fields[0].1, modelId);
      InjectFields(next, configProperties, fields[1..], modelId)
  }

  function FieldInputs(fieldObservations: Option<Json>, fieldObservationQuantifications: Option<Json>)
    : seq<(string, Option<Json>)>
  {
    [(FIELD_OBSERVATIONS, fieldObservations), (FIELD_OBSERVATION_QUANTIFICATIONS, fieldObservationQuantifications)]
  }

  // ------------------------------------------------------------- composition

  /**
   * What the faker's skeleton must satisfy: its `configParameters`, if any, is an object,
   * and every key of it the caller gives no value for is a configuration property of the
   * schema (the override pass reads that property's schema).
   */
  predicate Fits(skeleton: map<string, Json>, schema: map<string, Json>, parameters: Option<map<string, Json>>)
  {
    CONFIG_PARAMETERS in skeleton ==>
      && skeleton[CONFIG_PARAMETERS].Obj?
      && (ReadLayout(schema).Success? ==>
            Covered(skeleton[CONFIG_PARAMETERS].fields, parameters.GetOr(map[]),
                    ReadLayout(schema).value.configProperties))
  }

  /** The skeleton after the override pass. */
  function ConfiguredInput(skeleton: map<string, Json>, given: map<string, Json>, configProperties: map<string, Json>)
    : (r: map<string, Json>)
    requires CONFIG_PARAMETERS in skeleton ==>
      skeleton[CONFIG_PARAMETERS].Obj? && Covered(skeleton[CONFIG_PARAMETERS].fields, given, configProperties)
    ensures ConfigIsObject(r) && r.Keys == skeleton.Keys
  {
    if CONFIG_PARAMETERS in skeleton
    then skeleton[CONFIG_PARAMETERS := Obj(Configured(skeleton[CONFIG_PARAMETERS].fields, given, configProperties))]
    else skeleton
  }

  /** The composed model input, or the error the composer raises. */
  function Composed(model: Model, skeleton: map<string, Json>, parameters: Option<map<string, Json>>,
                    weatherData: Option<Json>, fieldObservations: Option<Json>,
                    fieldObservationQuantifications: Option<Json>): (r: Result<map<string, Json>, Error>)
    requires Fits(skeleton, model.inputSchema, parameters)
    ensures Prepare(model.inputSchema).Failure? ==> r == Failure(Prepare(model.inputSchema).error)
    ensures Prepare(model.inputSchema).Success? && Expectation(model.weatherParameters).Failure? ==>
      r == Failure(NoDeclaredWeatherParameter)
    ensures CONFIG_PARAMETERS !in skeleton ==> r.Failure?
    ensures r.Success? ==>
      && skeleton.Keys <= r.value.Keys <= skeleton.Keys + {WEATHER_DATA}
      && CONFIG_PARAMETERS in r.value && r.value[CONFIG_PARAMETERS].Obj?
      && skeleton[CONFIG_PARAMETERS].fields.Keys <= r.value[CONFIG_PARAMETERS].fields.Keys
  {
    var prepared :- Prepare(model.inputSchema);
    var configured := ConfiguredInput(skeleton, parameters.GetOr(map[]), prepared.configProperties);
    var expected :- Expectation(model.weatherParameters);
    var withWeather :- InjectWeather(configured, prepared.properties, expected, weatherData, model.id);
    InjectFields(withWeather, prepared.configProperties,
                 FieldInputs(fieldObservations, fieldObservationQuantifications), model.id)
  }

  /**
   * Builds the model input as the source does, from the faker's skeleton for the
   * prepared schema.
   */
  method ModelInput(model: Model, skeleton: map<string, Json>, parameters: Option<map<string, Json>>,
                    weatherData: Option<Json>, fieldObservations: Option<Json>,
                    fieldObservationQuantifications: Option<Json>)
    returns (r: Result<map<string, Json>, Error>)
    requires Fits(skeleton, model.inputSchema, parameters)
    ensures r == Composed(model, skeleton, parameters, weatherData, fieldObservations, fieldObservationQuantifications)
  {
    var prepared := PrepareSchema(model.inputSchema);
    if prepared.Failure? {
      return Failure(prepared.error);
    }
    var configProperties := prepared.value.configProperties;
    var input := skeleton;

    var given := if parameters.None? then map[] else parameters.value;
    if CONFIG_PARAMETERS in input {
      var config := ApplyConfig(input[CONFIG_PARAMETERS].fields, given, configProperties);
      input := input[CONFIG_PARAMETERS := Obj(config)];
    }
    assert input == ConfiguredInput(skeleton, given, configProperties);

    var required: seq<string> := [];
    var interval: Option<int> := None;
    if model.weatherParameters.Some? {
      var declared := model.weatherParameters.value;
      required := seq(|declared|, i requires 0 <= i < |declared| => declared[i].parameterCode);
      if declared == [] {
        return Failure(NoDeclaredWeatherParameter);
      }
      interval := Some(declared[0].interval);
    }
    var expected := Expected(required, interval);
    assert Expectation(model.weatherParameters) == Success(expected);

    var withWeather := InjectWeatherData(input, prepared.value.properties, expected, weatherData, model.id);
    if withWeather.Failure? {
      return Failure(withWeather.error);
    }
    var fields := FieldInputs(fieldObservations, fieldObservationQuantifications);
    assert Composed(model, skeleton, parameters, weatherData, fieldObservations, fieldObservationQuantifications)
           == InjectFields(withWeather.value, configProperties, fields, model.id);
    r := InjectObservations(withWeather.value, configProperties, fields, model.id);
  }

  /** Checks and injects the weather data, as the source does before the field observations. */
  method InjectWeatherData(input: map<string, Json>, properties: map<string, Json>, expected: Expected,
                           weatherData: Option<Json>, modelId: string)
    returns (r: Result<map<string, Json>, Error>)
    ensures r == InjectWeather(input, properties, expected, weatherData, modelId)
  {
    if WEATHER_DATA in input {
      if weatherData.None? {
        return Failure(MissingWeatherData(modelId));
      }
      var problem := WeatherCheck(expected, weatherData.value);
      if problem.Some? {
        return Failure(problem.value);
      }
      r := Success(input[WEATHER_DATA := weatherData.value]);
    } else if weatherData.Some? && WEATHER_DATA in properties {
      var problem := WeatherCheck(expected, weatherData.value);
      if problem.Some? {
        return Failure(problem.value);
      }
      r := Success(input[WEATHER_DATA := weatherData.value]);
    } else {
      r := Success(input);
    }
  }

  /** Injects the supplied field-observation documents one by one, as the source's final loop does. */
  method InjectObservations(input: map<string, Json>, configProperties: map<string, Json>,
                            fields: seq<(string, Option<Json>)>, modelId: string)
    returns (r: Result<map<string, Json>, Error>)
    requires ConfigIsObject(input)
    ensures r == InjectFields(input, configProperties, fields, modelId)
  {
    var current := input;
    for i := 0 to |fields|
      invariant ConfigIsObject(current)
      invariant InjectFields(input, configProperties, fields, modelId)
                == InjectFields(current, configProperties, fields[i..], modelId)
    {
      var name := fields[i].0;
      var value := fields[i].1;
      assert fields[i..][0] == fields[i] && fields[i..][1..] == fields[i + 1..];
      if CONFIG_PARAMETERS !in current {
        return Failure(MissingConfigParameters);
      }
      var config := current[CONFIG_PARAMETERS].fields;
      if name in config {
        if value.None? {
          return Failure(MissingFieldInput(modelId, name));
        }
        current := current[CONFIG_PARAMETERS := Obj(config[name := value.value])];
      } else if value.Some? && name in configProperties {
        current := current[CONFIG_PARAMETERS := Obj(config[name := value.value])];
      } else {
        assert current == current[CONFIG_PARAMETERS := Obj(config)];
      }
    }
    assert fields[|fields|..] == [];
    r := Success(current);
  }

  /**
   * The error of the field-observation step, checked in the source's order: no
   * configuration at all, then a faked `fieldObservations` without its document, then a
   * faked `fieldObservationQuantifications` without its document.
   */
  function FieldInputError(input: map<string, Json>, fieldObservations: Option<Json>,
                           fieldObservationQuantifications: Option<Json>, modelId: string): Error
    requires ConfigIsObject(input)
  {
    if CONFIG_PARAMETERS !in input then MissingConfigParameters
    else if FIELD_OBSERVATIONS in input[CONFIG_PARAMETERS].fields && fieldObservations.None? then
      MissingFieldInput(modelId, FIELD_OBSERVATIONS)
    else MissingFieldInput(modelId, FIELD_OBSERVATION_QUANTIFICATIONS)
  }

  /**
   * The two supplied documents together: the composer fails exactly when the input has
   * no configuration or a faked key lacks its document, and otherwise applies both.
   */
  lemma {:induction false} InjectFieldsPair(input: map<string, Json>, configProperties: map<string, Json>,
                                            fieldObservations: Option<Json>,
                                            fieldObservationQuantifications: Option<Json>, modelId: string)
    requires ConfigIsObject(input)
    ensures
      var r := InjectFields(input, configProperties,
                            FieldInputs(fieldObservations, fieldObservationQuantifications), modelId);
      && (r.Failure? <==>
            || CONFIG_PARAMETERS !in input
            || (FIELD_OBSERVATIONS in input[CONFIG_PARAMETERS].fields && fieldObservations.None?)
            || (FIELD_OBSERVATION_QUANTIFICATIONS in input[CONFIG_PARAMETERS].fields
                && fieldObservationQuantifications.None?))
      && (r.Failure? ==> r.error == FieldInputError(input, fieldObservations, fieldObservationQuantifications, modelId))
      && (r.Success? ==>
            && CONFIG_PARAMETERS in input
            && r.value == input[CONFIG_PARAMETERS := Obj(
                 WithField(WithField(input[CONFIG_PARAMETERS].fields, configProperties,
                                     FIELD_OBSERVATIONS, fieldObservations),
                           configProperties, FIELD_OBSERVATION_QUANTIFICATIONS, fieldObservationQuantifications))])
  {
    var fields := FieldInputs(fieldObservations, fieldObservationQuantifications);
    var first := InjectField(input, configProperties, FIELD_OBSERVATIONS, fieldObservations, modelId);
    if first.Failure? {
      assert InjectFields(input, configProperties, fields, modelId) == Failure(first.error);
    } else {
      var rest := fields[1..];
      assert rest == [(FIELD_OBSERVATION_QUANTIFICATIONS, fieldObservationQuantifications)];
      assert rest[1..] == [];
      assert InjectFields(input, configProperties, fields, modelId)
             == InjectFields(first.value, configProperties, rest, modelId);
      var second := InjectField(first.value, configProperties, FIELD_OBSERVATION_QUANTIFICATIONS,
                                fieldObservationQuantifications, modelId);
      assert FIELD_OBSERVATION_QUANTIFICATIONS in first.value[CONFIG_PARAMETERS].fields
             <==> FIELD_OBSERVATION_QUANTIFICATIONS in input[CONFIG_PARAMETERS].fields;
      if second.Failure? {
        assert InjectFields(first.value, configProperties, rest, modelId) == Failure(second.error);
      } else {
        assert InjectFields(first.value, configProperties, rest, modelId)
               == InjectFields(second.value, configProperties, rest[1..], modelId);
      }
    }
  }

  // -------------------------------------------------------------- properties

  /** Everything outside `configParameters` and `weatherData` is the skeleton's, unchanged. */
  lemma ComposedKeepsSkeleton(model: Model, skeleton: map<string, Json>, parameters: Option<map<string, Json>>,
                              weatherData: Option<Json>, fieldObservations: Option<Json>,
                              fieldObservationQuantifications: Option<Json>)
    requires Fits(skeleton, model.inputSchema, parameters)
    requires Composed(model, skeleton, parameters, weatherData, fieldObservations, fieldObservationQuantifications).Success?
    ensures Prepare(model.inputSchema).Success? && CONFIG_PARAMETERS in skeleton
    ensures
      var out := Composed(model, skeleton, parameters, weatherData, fieldObservations, fieldObservationQuantifications).value;
      && out.Keys == skeleton.Keys
                     + (if Injects(skeleton, Prepare(model.inputSchema).value.properties, weatherData)
                        then {WEATHER_DATA} else {})
      && (forall k :: k in skeleton && k != CONFIG_PARAMETERS && k != WEATHER_DATA ==> out[k] == skeleton[k])
  {
    var prepared := Prepare(model.inputSchema).value;
    var configured := ConfiguredInput(skeleton, parameters.GetOr(map[]), prepared.configProperties);
    var expected := Expectation(model.weatherParameters).value;
    var withWeather := InjectWeather(configured, prepared.properties, expected, weatherData, model.id).value;
    InjectFieldsPair(withWeather, prepared.configProperties, fieldObservations, fieldObservationQuantifications,
                     model.id);
  }

  /**
   * Where a supplied field-observation document ends up in the final configuration: a
   * faked key must have been supplied and holds it; otherwise it is added when the
   * schema declares the key, and ignored when it does not.
   */
  predicate Placed(faked: map<string, Json>, config: map<string, Json>, configProperties: map<string, Json>,
                   name: string, value: Option<Json>)
  {
    if name in faked then value.Some? && name in config && config[name] == value.value
    else if value.Some? && name in configProperties then name in config && config[name] == value.value
    else name !in config
  }

  /** The configuration of a composed input: overrides by priority, then the field observations. */
  lemma ComposedConfiguration(model: Model, skeleton: map<string, Json>, parameters: Option<map<string, Json>>,
                              weatherData: Option<Json>, fieldObservations: Option<Json>,
                              fieldObservationQuantifications: Option<Json>)
    requires Fits(skeleton, model.inputSchema, parameters)
    requires Composed(model, skeleton, parameters, weatherData, fieldObservations, fieldObservationQuantifications).Success?
    ensures Prepare(model.inputSchema).Success? && CONFIG_PARAMETERS in skeleton
    ensures
      var out := Composed(model, skeleton, parameters, weatherData, fieldObservations, fieldObservationQuantifications).value;
      CONFIG_PARAMETERS in out && out[CONFIG_PARAMETERS].Obj?
    ensures
      var out := Composed(model, skeleton, parameters, weatherData, fieldObservations, fieldObservationQuantifications).value;
      var config := out[CONFIG_PARAMETERS].fields;
      var faked := skeleton[CONFIG_PARAMETERS].fields;
      var given := parameters.GetOr(map[]);
      var configProperties := Prepare(model.inputSchema).value.configProperties;
      && Covered(faked, given, configProperties)
      && faked.Keys <= config.Keys <= faked.Keys + {FIELD_OBSERVATIONS, FIELD_OBSERVATION_QUANTIFICATIONS}
      && (forall k :: k in faked && k !in FIELD_OBSERVATION_NAMES && k in given ==> config[k] == given[k])
      && (forall k :: k in faked && k !in FIELD_OBSERVATION_NAMES && k !in given ==>
            config[k] == DefaultOf(configProperties[k]).GetOr(faked[k]))
      && Placed(faked, config, configProperties, FIELD_OBSERVATIONS, fieldObservations)
      && Placed(faked, config, configProperties, FIELD_OBSERVATION_QUANTIFICATIONS, fieldObservationQuantifications)
  {
    var prepared := Prepare(model.inputSchema).value;
    var given := parameters.GetOr(map[]);
    var configured := ConfiguredInput(skeleton, given, prepared.configProperties);
    var expected := Expectation(model.weatherParameters).value;
    var withWeather := InjectWeather(configured, prepared.properties, expected, weatherData, model.id).value;
    InjectFieldsPair(withWeather, prepared.configProperties, fieldObservations, fieldObservationQuantifications,
                     model.id);
    var faked := skeleton[CONFIG_PARAMETERS].fields;
    var base := Configured(faked, given, prepared.configProperties);
    assert withWeather[CONFIG_PARAMETERS] == configured[CONFIG_PARAMETERS] == Obj(base);
    PlacedAfterInjection(base, faked, prepared.configProperties, fieldObservations, fieldObservationQuantifications);
  }

  /** The two field-observation documents only touch their own keys, each as `Placed` says. */
  lemma PlacedAfterInjection(base: map<string, Json>, faked: map<string, Json>, configProperties: map<string, Json>,
                             fieldObservations: Option<Json>, fieldObservationQuantifications: Option<Json>)
    requires base.Keys == faked.Keys
    requires FIELD_OBSERVATIONS in faked ==> fieldObservations.Some?
    requires FIELD_OBSERVATION_QUANTIFICATIONS in faked ==> fieldObservationQuantifications.Some?
    ensures
      var config := WithField(WithField(base, configProperties, FIELD_OBSERVATIONS, fieldObservations),
                              configProperties, FIELD_OBSERVATION_QUANTIFICATIONS, fieldObservationQuantifications);
      && faked.Keys <= config.Keys <= faked.Keys + {FIELD_OBSERVATIONS, FIELD_OBSERVATION_QUANTIFICATIONS}
      && (forall k :: k in base && k !in FIELD_OBSERVATION_NAMES ==> config[k] == base[k])
      && Placed(faked, config, configProperties, FIELD_OBSERVATIONS, fieldObservations)
      && Placed(faked, config, configProperties, FIELD_OBSERVATION_QUANTIFICATIONS, fieldObservationQuantifications)
  {
    var first := WithField(base, configProperties, FIELD_OBSERVATIONS, fieldObservations);
    assert FIELD_OBSERVATION_QUANTIFICATIONS in first <==> FIELD_OBSERVATION_QUANTIFICATIONS in base;
  }

  /**
   * Composition fails when the skeleton has no configuration, or when a faked
   * field-observation key has no document supplied.
   */
  lemma ComposedNeedsFieldInputs(model: Model, skeleton: map<string, Json>, parameters: Option<map<string, Json>>,
                                 weatherData: Option<Json>, fieldObservations: Option<Json>,
                                 fieldObservationQuantifications: Option<Json>)
    requires Fits(skeleton, model.inputSchema, parameters)
    requires
      || CONFIG_PARAMETERS !in skeleton
      || (FIELD_OBSERVATIONS in skeleton[CONFIG_PARAMETERS].fields && fieldObservations.None?)
      || (FIELD_OBSERVATION_QUANTIFICATIONS in skeleton[CONFIG_PARAMETERS].fields
          && fieldObservationQuantifications.None?)
    ensures Composed(model, skeleton, parameters, weatherData, fieldObservations, fieldObservationQuantifications).Failure?
    ensures
      && Prepare(model.inputSchema).Success?
      && Expectation(model.weatherParameters).Success?
      && (Injects(skeleton, Prepare(model.inputSchema).value.properties, weatherData) ==>
            weatherData.Some? && Compatible(Expectation(model.weatherParameters).value, weatherData.value))
      ==>
      Composed(model, skeleton, parameters, weatherData, fieldObservations, fieldObservationQuantifications)
      == Failure(FieldInputError(skeleton, fieldObservations, fieldObservationQuantifications, model.id))
  {
    var prepared := Prepare(model.inputSchema);
    var expected := Expectation(model.weatherParameters);
    if prepared.Success? && expected.Success? {
      var configured := ConfiguredInput(skeleton, parameters.GetOr(map[]), prepared.value.configProperties);
      var withWeather := InjectWeather(configured, prepared.value.properties, expected.value, weatherData, model.id);
      if withWeather.Success? {
        InjectFieldsPair(withWeather.value, prepared.value.configProperties, fieldObservations,
                         fieldObservationQuantifications, model.id);
        assert CONFIG_PARAMETERS in skeleton ==>
          withWeather.value[CONFIG_PARAMETERS].fields.Keys == skeleton[CONFIG_PARAMETERS].fields.Keys;
      }
    }
  }

  /**
   * The weather data of a composed input is the caller's document, unchanged and
   * compatible with the model's declared parameters; it is present exactly when the
   * skeleton held it or the schema declares it and it was supplied.
   */
  lemma ComposedWeather(model: Model, skeleton: map<string, Json>, parameters: Option<map<string, Json>>,
                        weatherData: Option<Json>, fieldObservations: Option<Json>,
                        fieldObservationQuantifications: Option<Json>)
    requires Fits(skeleton, model.inputSchema, parameters)
    requires Composed(model, skeleton, parameters, weatherData, fieldObservations, fieldObservationQuantifications).Success?
    ensures Prepare(model.inputSchema).Success? && Expectation(model.weatherParameters).Success?
    ensures
      var out := Composed(model, skeleton, parameters, weatherData, fieldObservations, fieldObservationQuantifications).value;
      var injects := Injects(skeleton, Prepare(model.inputSchema).value.properties, weatherData);
      && (WEATHER_DATA in out <==> injects)
      && (injects ==>
            && weatherData.Some?
            && Compatible(Expectation(model.weatherParameters).value, weatherData.value)
            && out[WEATHER_DATA] == weatherData.value)
      && (injects && model.weatherParameters.None? ==> Entry(weatherData.value, INTERVAL) == Some(Null))
  {
    var prepared := Prepare(model.inputSchema).value;
    var configured := ConfiguredInput(skeleton, parameters.GetOr(map[]), prepared.configProperties);
    var expected := Expectation(model.weatherParameters).value;
    var withWeather := InjectWeather(configured, prepared.properties, expected, weatherData, model.id).value;
    InjectFieldsPair(withWeather, prepared.configProperties, fieldObservations, fieldObservationQuantifications,
                     model.id);
  }

  /** A skeleton that holds weather data cannot be composed without weather data. */
  lemma ComposedMissingWeather(model: Model, skeleton: map<string, Json>, parameters: Option<map<string, Json>>,
                               fieldObservations: Option<Json>, fieldObservationQuantifications: Option<Json>)
    requires Fits(skeleton, model.inputSchema, parameters)
    requires WEATHER_DATA in skeleton
    ensures Composed(model, skeleton, parameters, None, fieldObservations, fieldObservationQuantifications).Failure?
    ensures Prepare(model.inputSchema).Success? && Expectation(model.weatherParameters).Success? ==>
      Composed(model, skeleton, parameters, None, fieldObservations, fieldObservationQuantifications)
      == Failure(MissingWeatherData(model.id))
  {
  }

  /**
   * Supplied weather data that fails its check fails the composition with the check's
   * own error, once the schema and the declarations are readable.
   */
  lemma ComposedWeatherError(model: Model, skeleton: map<string, Json>, parameters: Option<map<string, Json>>,
                             document: Json, fieldObservations: Option<Json>,
                             fieldObservationQuantifications: Option<Json>)
    requires Fits(skeleton, model.inputSchema, parameters)
    requires Prepare(model.inputSchema).Success? && Expectation(model.weatherParameters).Success?
    requires Injects(skeleton, Prepare(model.inputSchema).value.properties, Some(document))
    requires WeatherCheck(Expectation(model.weatherParameters).value, document).Some?
    ensures Composed(model, skeleton, parameters, Some(document), fieldObservations, fieldObservationQuantifications)
            == Failure(WeatherCheck(Expectation(model.weatherParameters).value, document).value)
  {
  }

  /**
   * When composition succeeds: the schema and the declarations are readable, the skeleton
   * has a configuration, injected weather data is supplied and compatible, and every
   * faked field-observation key has its document.
   */
  lemma {:induction false} ComposedSucceeds(model: Model, skeleton: map<string, Json>,
                                            parameters: Option<map<string, Json>>, weatherData: Option<Json>,
                                            fieldObservations: Option<Json>,
                                            fieldObservationQuantifications: Option<Json>)
    requires Fits(skeleton, model.inputSchema, parameters)
    ensures
      Composed(model, skeleton, parameters, weatherData, fieldObservations, fieldObservationQuantifications).Success?
      <==>
      && Prepare(model.inputSchema).Success?
      && Expectation(model.weatherParameters).Success?
      && CONFIG_PARAMETERS in skeleton
      && (Injects(skeleton, Prepare(model.inputSchema).value.properties, weatherData) ==>
            weatherData.Some? && Compatible(Expectation(model.weatherParameters).value, weatherData.value))
      && (FIELD_OBSERVATIONS in skeleton[CONFIG_PARAMETERS].fields ==> fieldObservations.Some?)
      && (FIELD_OBSERVATION_QUANTIFICATIONS in skeleton[CONFIG_PARAMETERS].fields ==>
            fieldObservationQuantifications.Some?)
  {
    var prepared := Prepare(model.inputSchema);
    var expected := Expectation(model.weatherParameters);
    if prepared.Success? && expected.Success? {
      var configured := ConfiguredInput(skeleton, parameters.GetOr(map[]), prepared.value.configProperties);
      var withWeather := InjectWeather(configured, prepared.value.properties, expected.value, weatherData, model.id);
      if withWeather.Success? {
        InjectFieldsPair(withWeather.value, prepared.value.configProperties, fieldObservations,
                         fieldObservationQuantifications, model.id);
        assert CONFIG_PARAMETERS in skeleton ==>
          withWeather.value[CONFIG_PARAMETERS].fields.Keys == skeleton[CONFIG_PARAMETERS].fields.Keys;
      }
    }
  }
}
