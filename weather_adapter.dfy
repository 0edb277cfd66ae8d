/**
 * Building the query parameters of the platform's weather-adapter service for one
 * weather-data source (`IPM.weatheradapter_forecast_params`,
 * `IPM.weatheradapter_observation_params` and the dispatch `IPM.weatheradapter_params`).
 *
 * Each builder is a declarative specification function (`Forecast`, `Observation`)
 * stating which keys the parameter map holds and with which values, and a loop-free
 * method (`ForecastParams`, `ObservationParams`) that grows the map step by step as the
 * source does and is proved to produce exactly the specified map or error.
 *
 * Timestamps are whole seconds; "now" is a parameter of the forecast builder.
 */
module WeatherAdapter {
  import opened Wrappers

  /** One day, in seconds. */
  const DAY: int := 86400

  const DEFAULT_LATITUDE: real := 67.2828
  const DEFAULT_LONGITUDE: real := 14.3711
  const DEFAULT_ALTITUDE: real := 0.0

  /** The forecast source that rejects an `altitude` parameter. */
  const FMI_FORECAST := "fi.fmi.forecast.location"
  /** The two forecast sources that need a `timeStart`/`timeEnd` window. */
  const DMI_POINTWEATHER := "dk.dmi.pointweather"
  const SLU_LANTMET := "se.slu.lantmet"
  /** Observation sources without GeoJSON, and the test station used for each. */
  const FRUITWEB := "info.fruitweb"
  const FRUITWEB_STATION: int := 18150029
  const METOS := "net.ipmdecisions.metos"
  const METOS_STATION: int := 732
  /** The observation source that takes an `ignoreErrors` flag. */
  const FMI_OBSERVATION := "fi.fmi.observation.station"

  /** An access type the adapter does not support: any name but the two known ones. */
  type OtherAccess = s: string | s != "stations" && s != "location" witness ""

  /** A source's `access_type`: queried by station id, by location, or something else. */
  datatype Access = Stations | Location | Other(name: OtherAccess)

  /** The `access_type` string of the platform's metadata. */
  function AccessName(a: Access): string
  {
    match a
    case Stations => "stations"
    case Location => "location"
    case Other(name) => name
  }

  /**
   * Reading an `access_type` string: every string has exactly one reading. Together with
   * `AccessNameInjective` this justifies modelling the string as `Access`: dispatching and
   * filtering on the datatype is dispatching and filtering on the string.
   */
  function ParseAccess(s: string): (a: Access)
    ensures AccessName(a) == s
  {
    if s == "stations" then Stations
    else if s == "location" then Location
    else Other(s)
  }

  /** Two sources agree on their `access_type` string exactly when they have the same access type. */
  lemma AccessNameInjective(a: Access, b: Access)
    ensures AccessName(a) == AccessName(b) <==> a == b
  {
  }

  /** A GeoJSON feature of a source's spatial description: its top-level `id` and its `properties.id`. */
  datatype Feature = Feature(id: Option<int>, propertiesId: Option<int>)

  /**
   * A weather-data source descriptor as fetched from the platform: `id`, `access_type`,
   * `authentication_type`, `temporal.intervals`, `temporal.historic.start`,
   * `parameters.common` and the features of `spatial.geoJSON` (None when absent).
   */
  datatype Source = Source(
    id: string,
    access: Access,
    authentication: string,
    intervals: seq<int>,
    historicStart: Option<int>,
    common: seq<string>,
    geoJson: Option<seq<Feature>>)

  /** The keyword arguments a caller passes to the builders; None is "not given". */
  datatype Overrides = Overrides(
    latitude: Option<real>,
    longitude: Option<real>,
    altitude: Option<real>,
    interval: Option<int>,
    parameters: Option<seq<string>>,
    timeStart: Option<int>,
    timeEnd: Option<int>,
    weatherStationId: Option<int>,
    ignoreErrors: Option<bool>)

  /** A value of the parameter map. */
  datatype Value = Real(x: real) | Int(n: int) | Text(s: string) | Time(t: int) | Flag(b: bool)

  /** The names of the parameters the builders can set. */
  datatype Key =
    | Latitude | Longitude | Altitude | Interval | Parameters
    | TimeStart | TimeEnd | WeatherStationId | IgnoreErrors

  /** The query-string name of a parameter. */
  function Name(k: Key): string
  {
    match k
    case Latitude => "latitude"
    case Longitude => "longitude"
    case Altitude => "altitude"
    case Interval => "interval"
    case Parameters => "parameters"
    case TimeStart => "timeStart"
    case TimeEnd => "timeEnd"
    case WeatherStationId => "weatherStationId"
    case IgnoreErrors => "ignoreErrors"
  }

  type Params = map<Key, Value>

  datatype Error =
    | UnknownAccessType(accessType: string)  // ValueError naming the access type
    | NoInterval                             // IndexError: the source lists no interval
    | InvalidIsoFormat(text: string)         // ValueError: the text is not an ISO-8601 timestamp
    | NoHistoricStart                        // KeyError: the source has no historic start
    | UnboundStart                           // UnboundLocalError: `start` read before assignment
    | NoGeoJson                              // the source has no GeoJSON features
    | NoFeature                              // IndexError: the feature list is empty
    | NoFeatureId                            // KeyError: the first feature has no id

  /** The parts separated by single commas. */
  function Join(parts: seq<string>): string
  {
    if parts == [] then ""
    else if |parts| == 1 then parts[0]
    else parts[0] + "," + Join(parts[1..])
  }

  /** The pieces of `s` between its commas: the inverse of `Join`. */
  function Split(s: string): (pieces: seq<string>)
    ensures |pieces| >= 1
  {
    if s == [] then [""]
    else
      var rest := Split(s[1..]);
      if s[0] == ',' then [""] + rest else [[s[0]] + rest[0]] + rest[1..]
  }

  lemma {:induction false} SplitPrefix(x: string, t: string)
    requires ',' !in x
    ensures Split(x + t) == [x + Split(t)[0]] + Split(t)[1..]
  {
    if x == [] {
      assert x + t == t && x + Split(t)[0] == Split(t)[0];
      assert Split(t) == [Split(t)[0]] + Split(t)[1..];
    } else {
      SplitPrefix(x[1..], t);
      assert (x + t)[0] == x[0] && (x + t)[1..] == x[1..] + t;
      assert [x[0]] + (x[1..] + Split(t)[0]) == x + Split(t)[0];
    }
  }

  /** A joined parameter list reads back as the same list when no code contains a comma. */
  lemma {:induction false} SplitJoin(parts: seq<string>)
    requires parts != []
    requires forall i :: 0 <= i < |parts| ==> ',' !in parts[i]
    ensures Split(Join(parts)) == parts
  {
    if |parts| == 1 {
      SplitPrefix(parts[0], "");
      assert parts[0] + "" == parts[0];
    } else {
      SplitJoin(parts[1..]);
      var rest := "," + Join(parts[1..]);
      assert parts[0] + "," + Join(parts[1..]) == parts[0] + rest;
      SplitPrefix(parts[0], rest);
      assert rest[0] == ',' && rest[1..] == Join(parts[1..]);
      assert Split(rest) == [""] + parts[1..];
      assert parts[0] + "" == parts[0];
      assert parts == [parts[0]] + parts[1..];
    }
  }

  /** The `interval` parameter: the caller's, else the source's first interval. */
  function ResolvedInterval(source: Source, o: Overrides): Result<int, Error>
  {
    if o.interval.Some? then Success(o.interval.value)
    else if source.intervals == [] then Failure(NoInterval)
    else Success(source.intervals[0])
  }

  /** The `parameters` parameter: the caller's codes, else the source's common ones, comma-joined. */
  function ResolvedParameters(source: Source, o: Overrides): string
  {
    Join(o.parameters.GetOr(source.common))
  }

  predicate NeedsWindow(id: string)
  {
    id == DMI_POINTWEATHER || id == SLU_LANTMET
  }

  // ---------------------------------------------------------------- forecast

  function ForecastKeys(id: string): set<Key>
  {
    {Latitude, Longitude, Interval, Parameters}
    + (if id == FMI_FORECAST then {} else {Altitude})
    + (if NeedsWindow(id) then {TimeStart, TimeEnd} else {})
  }

  function ForecastValue(key: Key, source: Source, o: Overrides, interval: int, now: int): Value
  {
    if key == Latitude then Real(o.latitude.GetOr(DEFAULT_LATITUDE))
    else if key == Longitude then Real(o.longitude.GetOr(DEFAULT_LONGITUDE))
    else if key == Altitude then Real(o.altitude.GetOr(DEFAULT_ALTITUDE))
    else if key == Interval then Int(interval)
    else if key == Parameters then Text(ResolvedParameters(source, o))
    else if key == TimeStart then Time(now)
    else Time(now + DAY)
  }

  /**
   * The parameters of a `location` (forecast) source. Asking a windowed source for a
   * given `timeStart` or `timeEnd` fails: the builder parses the option's NAME, not its value.
   */
  function Forecast(source: Source, o: Overrides, now: int): (r: Result<Params, Error>)
    ensures r.Failure? <==>
      (o.interval.None? && source.intervals == [])
      || (NeedsWindow(source.id) && (o.timeStart.Some? || o.timeEnd.Some?))
    ensures o.interval.None? && source.intervals == [] ==> r == Failure(NoInterval)
    ensures r.Failure? && r.error != NoInterval ==>
      r.error == InvalidIsoFormat(if o.timeStart.Some? then "timeStart" else "timeEnd")
    ensures r == Failure(NoInterval) <==> o.interval.None? && source.intervals == []
    ensures r == Failure(InvalidIsoFormat("timeStart")) <==>
      (o.interval.Some? || source.intervals != []) && NeedsWindow(source.id) && o.timeStart.Some?
    ensures r == Failure(InvalidIsoFormat("timeEnd")) <==>
      (o.interval.Some? || source.intervals != []) && NeedsWindow(source.id) && o.timeStart.None? && o.timeEnd.Some?
    ensures r.Success? ==>
      {Latitude, Longitude, Interval, Parameters} <= r.value.Keys
      <= {Latitude, Longitude, Altitude, Interval, Parameters, TimeStart, TimeEnd}
    ensures r.Success? ==> (Altitude in r.value <==> source.id != FMI_FORECAST)
    ensures r.Success? ==> (TimeStart in r.value <==> NeedsWindow(source.id))
    ensures r.Success? ==> (TimeEnd in r.value <==> NeedsWindow(source.id))
    ensures r.Success? ==> r.value[Latitude] == Real(o.latitude.GetOr(DEFAULT_LATITUDE))
    ensures r.Success? ==> r.value[Longitude] == Real(o.longitude.GetOr(DEFAULT_LONGITUDE))
    ensures r.Success? && Altitude in r.value ==> r.value[Altitude] == Real(o.altitude.GetOr(DEFAULT_ALTITUDE))
    ensures r.Success? && o.interval.Some? ==> r.value[Interval] == Int(o.interval.value)
    ensures r.Success? && o.interval.None? ==>
      source.intervals != [] && r.value[Interval] == Int(source.intervals[0])
    ensures r.Success? ==> r.value[Parameters] == Text(Join(o.parameters.GetOr(source.common)))
    ensures r.Success? && NeedsWindow(source.id) ==>
      r.value[TimeStart] == Time(now) && r.value[TimeEnd] == Time(now + DAY)
  {
    var interval :- ResolvedInterval(source, o);
    if NeedsWindow(source.id) && o.timeStart.Some? then Failure(InvalidIsoFormat("timeStart"))
    else if NeedsWindow(source.id) && o.timeEnd.Some? then Failure(InvalidIsoFormat("timeEnd"))
    else Success(map key | key in ForecastKeys(source.id) :: ForecastValue(key, source, o, interval, now))
  }

  /** Grows the forecast parameter map step by step, as the source does. */
  method ForecastParams(source: Source, o: Overrides, now: int) returns (r: Result<Params, Error>)
    ensures r == Forecast(source, o, now)
  {
    var params: Params := map[
      Latitude := Real(o.latitude.GetOr(DEFAULT_LATITUDE)),
      Longitude := Real(o.longitude.GetOr(DEFAULT_LONGITUDE)),
      Altitude := Real(o.altitude.GetOr(DEFAULT_ALTITUDE))];

    var interval: int;
    if o.interval.Some? {
      interval := o.interval.value;
    } else if source.intervals == [] {
      return Failure(NoInterval);
    } else {
      interval := source.intervals[0];
    }
    params := params[Interval := Int(interval)];

    var parameters := if o.parameters.Some? then o.parameters.value else source.common;
    params := params[Parameters := Text(Join(parameters))];

    if source.id == FMI_FORECAST {
      params := params - {Altitude};
    }
    if NeedsWindow(source.id) {
      if o.timeStart.Some? {
        return Failure(InvalidIsoFormat("timeStart"));
      }
      var start := now;
      if o.timeEnd.Some? {
        return Failure(InvalidIsoFormat("timeEnd"));
      }
      var end := start + DAY;
      params := params[TimeStart := Time(start)][TimeEnd := Time(end)];
    }
    r := Success(params);
    assert params == map key | key in ForecastKeys(source.id) :: ForecastValue(key, source, o, interval, now);
  }

  // ------------------------------------------------------------- observation

  /** The observation window: defaulted from the historic start, or the caller's. */
  function Window(source: Source, o: Overrides): Result<(int, int), Error>
  {
    if o.timeStart.None? then
      if source.historicStart.None? then Failure(NoHistoricStart)
      else
        var start := source.historicStart.value + DAY;
        Success((start, o.timeEnd.GetOr(start + DAY)))
    else if o.timeEnd.None? then Failure(UnboundStart)
    else Success((o.timeStart.value, o.timeEnd.value))
  }

  /** The station id a GeoJSON feature list offers: the first feature's `id`, else its `properties.id`. */
  function FirstFeatureId(geoJson: Option<seq<Feature>>): Option<int>
  {
    if geoJson.None? || geoJson.value == [] then None
    else if geoJson.value[0].id.Some? then geoJson.value[0].id
    else geoJson.value[0].propertiesId
  }

  /** The `weatherStationId` parameter of an observation source. */
  function StationId(source: Source, o: Overrides): (r: Result<int, Error>)
    ensures o.weatherStationId.Some? ==> r == Success(o.weatherStationId.value)
    ensures o.weatherStationId.None? && source.id == FRUITWEB ==> r == Success(FRUITWEB_STATION)
    ensures o.weatherStationId.None? && source.id == METOS ==> r == Success(METOS_STATION)
    ensures o.weatherStationId.None? && source.id != FRUITWEB && source.id != METOS ==>
      (r.Success? <==> FirstFeatureId(source.geoJson).Some?)
      && (r.Success? ==> r.value == FirstFeatureId(source.geoJson).value)
    ensures o.weatherStationId.None? && source.id != FRUITWEB && source.id != METOS ==>
      && (source.geoJson.None? ==> r == Failure(NoGeoJson))
      && (source.geoJson == Some([]) ==> r == Failure(NoFeature))
      && (source.geoJson.Some? && source.geoJson.value != []
          && source.geoJson.value[0].id.None? && source.geoJson.value[0].propertiesId.None? ==>
            r == Failure(NoFeatureId))
  {
    if o.weatherStationId.Some? then Success(o.weatherStationId.value)
    else if source.id == FRUITWEB then Success(FRUITWEB_STATION)
    else if source.id == METOS then Success(METOS_STATION)
    else if source.geoJson.None? then Failure(NoGeoJson)
    else if source.geoJson.value == [] then Failure(NoFeature)
    else
      var first := source.geoJson.value[0];
      if first.id.Some? then Success(first.id.value)
      else if first.propertiesId.Some? then Success(first.propertiesId.value)
      else Failure(NoFeatureId)
  }

  /**
   * The parameters of a `stations` (observation) source. Giving `timeStart` without
   * `timeEnd` fails: the default end is computed from a start that was never set.
   */
  function Observation(source: Source, o: Overrides): (r: Result<Params, Error>)
    ensures r.Failure? <==>
      (o.interval.None? && source.intervals == [])
      || (o.timeStart.None? && source.historicStart.None?)
      || (o.timeStart.Some? && o.timeEnd.None?)
      || (o.weatherStationId.None? && source.id != FRUITWEB && source.id != METOS
          && FirstFeatureId(source.geoJson).None?)
    ensures o.interval.None? && source.intervals == [] ==> r == Failure(NoInterval)
    ensures r == Failure(NoInterval) <==> o.interval.None? && source.intervals == []
    ensures r == Failure(NoHistoricStart) <==>
      (o.interval.Some? || source.intervals != []) && o.timeStart.None? && source.historicStart.None?
    ensures r == Failure(UnboundStart) <==>
      (o.interval.Some? || source.intervals != []) && o.timeStart.Some? && o.timeEnd.None?
    ensures
      && (o.interval.Some? || source.intervals != [])
      && (o.timeStart.Some? || source.historicStart.Some?)
      && (o.timeStart.None? || o.timeEnd.Some?)
      && StationId(source, o).Failure?
      ==> r == Failure(StationId(source, o).error)
    ensures r.Success? ==>
      r.value.Keys == {Interval, Parameters, TimeStart, TimeEnd, WeatherStationId}
                      + (if source.id == FMI_OBSERVATION then {IgnoreErrors} else {})
    ensures r.Success? && o.interval.Some? ==> r.value[Interval] == Int(o.interval.value)
    ensures r.Success? && o.interval.None? ==>
      source.intervals != [] && r.value[Interval] == Int(source.intervals[0])
    ensures r.Success? ==> r.value[Parameters] == Text(Join(o.parameters.GetOr(source.common)))
    ensures r.Success? && o.timeStart.None? ==>
      source.historicStart.Some? && r.value[TimeStart] == Time(source.historicStart.value + DAY)
    ensures r.Success? && o.timeStart.None? && o.timeEnd.None? ==>
      source.historicStart.Some? && r.value[TimeEnd] == Time(source.historicStart.value + 2 * DAY)
    ensures r.Success? && o.timeStart.Some? ==> r.value[TimeStart] == Time(o.timeStart.value)
    ensures r.Success? && o.timeEnd.Some? ==> r.value[TimeEnd] == Time(o.timeEnd.value)
    ensures r.Success? && o.weatherStationId.Some? ==>
      r.value[WeatherStationId] == Int(o.weatherStationId.value)
    ensures r.Success? && o.weatherStationId.None? && source.id == FRUITWEB ==>
      r.value[WeatherStationId] == Int(FRUITWEB_STATION)
    ensures r.Success? && o.weatherStationId.None? && source.id == METOS ==>
      r.value[WeatherStationId] == Int(METOS_STATION)
    ensures r.Success? && o.weatherStationId.None? && source.id != FRUITWEB && source.id != METOS ==>
      FirstFeatureId(source.geoJson).Some?
      && r.value[WeatherStationId] == Int(FirstFeatureId(source.geoJson).value)
    ensures r.Success? && source.id == FMI_OBSERVATION ==>
      r.value[IgnoreErrors] == Flag(o.ignoreErrors.GetOr(true))
  {
    var interval :- ResolvedInterval(source, o);
    var window :- Window(source, o);
    var station :- StationId(source, o);
    var required := map[
      Interval := Int(interval),
      Parameters := Text(ResolvedParameters(source, o)),
      TimeStart := Time(window.0),
      TimeEnd := Time(window.1),
      WeatherStationId := Int(station)];
    Success(if source.id == FMI_OBSERVATION then required[IgnoreErrors := Flag(o.ignoreErrors.GetOr(true))] else required)
  }

  /** Grows the observation parameter map step by step, as the source does. */
  method ObservationParams(source: Source, o: Overrides) returns (r: Result<Params, Error>)
    ensures r == Observation(source, o)
  {
    var params: Params := map[];

    var interval: int;
    if o.interval.Some? {
      interval := o.interval.value;
    } else if source.intervals == [] {
      return Failure(NoInterval);
    } else {
      interval := source.intervals[0];
    }
    params := params[Interval := Int(interval)];

    var parameters := if o.parameters.Some? then o.parameters.value else source.common;
    params := params[Parameters := Text(Join(parameters))];

    // `start` is the local the source assigns only when it defaults timeStart.
    var start: Option<int> := None;
    var timeStart: int;
    var timeEnd: int;
    if o.timeStart.None? {
      if source.historicStart.None? {
        return Failure(NoHistoricStart);
      }
      start := Some(source.historicStart.value + DAY);
      timeStart := start.value;
    } else {
      timeStart := o.timeStart.value;
    }
    if o.timeEnd.None? {
      if start.None? {
        return Failure(UnboundStart);
      }
      timeEnd := start.value + DAY;
    } else {
      timeEnd := o.timeEnd.value;
    }
    params := params[TimeStart := Time(timeStart)][TimeEnd := Time(timeEnd)];

    var station: int;
    if o.weatherStationId.Some? {
      station := o.weatherStationId.value;
    } else if source.id == FRUITWEB {
      station := FRUITWEB_STATION;
    } else if source.id == METOS {
      station := METOS_STATION;
    } else {
      if source.geoJson.None? {
        return Failure(NoGeoJson);
      }
      var features := source.geoJson.value;
      if features == [] {
        return Failure(NoFeature);
      }
      if features[0].id.Some? {
        station := features[0].id.value;
      } else if features[0].propertiesId.Some? {
        station := features[0].propertiesId.value;
      } else {
        return Failure(NoFeatureId);
      }
    }
    params := params[WeatherStationId := Int(station)];

    if source.id == FMI_OBSERVATION {
      var ignoreErrors := true;
      if o.ignoreErrors.Some? {
        ignoreErrors := o.ignoreErrors.value;
      }
      params := params[IgnoreErrors := Flag(ignoreErrors)];
    }
    r := Success(params);
  }

  // ---------------------------------------------------------------- dispatch

  /** The parameters of any source, chosen by its access type. */
  function Resolve(source: Source, o: Overrides, now: int): (r: Result<Params, Error>)
    ensures source.access.Other? <==> r.Failure? && r.error.UnknownAccessType?
    ensures r.Failure? && r.error.UnknownAccessType? ==> r.error.accessType == AccessName(source.access)
    ensures source.access.Stations? ==> r == Observation(source, o)
    ensures source.access.Location? ==> r == Forecast(source, o, now)
    ensures r.Success? ==> (WeatherStationId in r.value <==> source.access.Stations?)
    ensures r.Success? ==> (Latitude in r.value <==> source.access.Location?)
    ensures r.Success? && source.access.Stations? ==>
      {Interval, Parameters, TimeStart, TimeEnd, WeatherStationId} <= r.value.Keys
    ensures r.Success? && source.access.Location? ==>
      {Latitude, Longitude, Interval, Parameters} <= r.value.Keys
  {
    match source.access
    case Stations => Observation(source, o)
    case Location => Forecast(source, o, now)
    case Other(name) => Failure(UnknownAccessType(name))
  }

  /** Dispatches to the builder of the source's access type. */
  method AdapterParams(source: Source, o: Overrides, now: int) returns (r: Result<Params, Error>)
    ensures r == Resolve(source, o, now)
  {
    match source.access {
      case Stations =>
        r := ObservationParams(source, o);
      case Location =>
        r := ForecastParams(source, o, now);
      case Other(name) =>
        r := Failure(UnknownAccessType(name));
    }
  }
}
