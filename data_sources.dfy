/**
 * Choosing weather-data sources from the platform's catalogue, once it has been fetched
 * (the selection part of `IPM.get_weatherdatasource`): the catalogue is indexed by source
 * id, then either filtered on access and authentication type or looked up by one id.
 */
module WeatherDataSources {
  import opened Wrappers
  import opened WeatherAdapter

  /** What a selection returns: a filtered catalogue, or the one source asked for. */
  datatype Selection = Catalogue(sources: map<string, Source>) | Single(source: Source)

  /** ValueError: the id names no source; the message lists the ids that do. */
  datatype Error = UnknownDataSource(sourceId: string, known: set<string>)

  /** The catalogue keyed by id; of several entries with one id, the last one is kept. */
  function Index(catalogue: seq<Source>): (m: map<string, Source>)
    ensures m.Keys == set i | 0 <= i < |catalogue| :: catalogue[i].id
    ensures forall k :: k in m ==> m[k].id == k && m[k] in catalogue
  {
    if catalogue == [] then map[]
    else
      var last := catalogue[|catalogue| - 1];
      Index(catalogue[..|catalogue| - 1])[last.id := last]
  }

  /** An id maps to the last entry of the catalogue that carries it. */
  lemma {:induction false} IndexKeepsLast(catalogue: seq<Source>, i: int)
    requires 0 <= i < |catalogue|
    requires forall j :: i < j < |catalogue| ==> catalogue[j].id != catalogue[i].id
    ensures catalogue[i].id in Index(catalogue) && Index(catalogue)[catalogue[i].id] == catalogue[i]
  {
    if i < |catalogue| - 1 {
      var front := catalogue[..|catalogue| - 1];
      assert forall j :: i < j < |front| ==> front[j] == catalogue[j];
      IndexKeepsLast(front, i);
    }
  }

  /** Whether a source passes the optional access-type and authentication-type filters. */
  predicate Matches(s: Source, accessType: Option<string>, authenticationType: Option<string>)
  {
    && (accessType.None? || AccessName(s.access) == accessType.value)
    && (authenticationType.None? || s.authentication == authenticationType.value)
  }

  /**
   * Without an id: the indexed catalogue restricted to the sources that pass both filters.
   * With an id: the source it names, or UnknownDataSource.
   */
  function Select(catalogue: seq<Source>, sourceId: Option<string>, accessType: Option<string>,
                  authenticationType: Option<string>): (r: Result<Selection, Error>)
    ensures sourceId.None? ==> r.Success? && r.value.Catalogue?
    ensures r.Success? && r.value.Catalogue? ==>
      && (forall k :: k in r.value.sources <==>
            k in Index(catalogue) && Matches(Index(catalogue)[k], accessType, authenticationType))
      && (forall k :: k in r.value.sources ==> r.value.sources[k] == Index(catalogue)[k])
    ensures sourceId.Some? ==>
      (r.Success? <==> exists i :: 0 <= i < |catalogue| && catalogue[i].id == sourceId.value)
    ensures sourceId.Some? && r.Success? ==>
      r.value.Single? && r.value.source.id == sourceId.value && r.value.source in catalogue
    ensures r.Failure? ==>
      sourceId.Some? && r.error == UnknownDataSource(sourceId.value, Index(catalogue).Keys)
  {
    var sources := Index(catalogue);
    if sourceId.None? then
      var byAccess :=
        if accessType.None? then sources
        else map k | k in sources && AccessName(sources[k].access) == accessType.value :: sources[k];
      var byAuthentication :=
        if authenticationType.None? then byAccess
        else map k | k in byAccess && byAccess[k].authentication == authenticationType.value :: byAccess[k];
      Success(Catalogue(byAuthentication))
    else if sourceId.value in sources then
      Success(Single(sources[sourceId.value]))
    else
      Failure(UnknownDataSource(sourceId.value, sources.Keys))
  }

  /** Asking for an id returns the last catalogue entry with that id. */
  lemma SelectById(catalogue: seq<Source>, i: int, accessType: Option<string>,
                   authenticationType: Option<string>)
    requires 0 <= i < |catalogue|
    requires forall j :: i < j < |catalogue| ==> catalogue[j].id != catalogue[i].id
    ensures Select(catalogue, Some(catalogue[i].id), accessType, authenticationType)
            == Success(Single(catalogue[i]))
  {
    IndexKeepsLast(catalogue, i);
  }
}
