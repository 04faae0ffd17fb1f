/**
 * `SearchSection`: the linked Loki search form. Which of four things it shows
 * depends on the asynchronous lookup of the Loki data source by UID.
 */
module SearchSection {
  import opened Wrappers
  import opened TempoTypes

  datatype LokiDatasource = LokiDatasource(name: string)

  /** The state `useAsync(() => getDS(uid))` reports: still loading, or settled with a data source or none. */
  datatype DatasourceLookup = Loading | Settled(ds: Option<LokiDatasource>)

  /** What the section renders. */
  datatype SearchView =
    | Nothing
    | LokiEditor(datasourceName: string, linked: LokiQuery)
    | SetUpWarning
    | MissingDatasourceWarning

  /** The query the Loki editor starts from when the Tempo query has no linked query yet. */
  const PlaceholderLinkedQuery := LokiQuery(LinkedRefId, None, map[])

  /**
   * The four outcomes partition the inputs: nothing exactly while loading, the
   * editor when a data source was found, and otherwise one warning for an unset
   * UID and another for a UID that no longer resolves. The final fallback to
   * nothing is never reached.
   */
  function View(lookup: DatasourceLookup, logsDatasourceUid: Option<string>, q: TempoQuery): (v: SearchView)
    ensures v.Nothing? <==> lookup.Loading?
    ensures v.LokiEditor? <==> lookup.Settled? && lookup.ds.Some?
    ensures v.SetUpWarning? <==> lookup.Settled? && lookup.ds.None? && !Truthy(logsDatasourceUid)
    ensures v.MissingDatasourceWarning? <==> lookup.Settled? && lookup.ds.None? && Truthy(logsDatasourceUid)
    ensures v.LokiEditor? ==> v.datasourceName == lookup.ds.value.name
    ensures v.LokiEditor? && q.linkedQuery.Some? ==> v.linked == q.linkedQuery.value
    ensures v.LokiEditor? && q.linkedQuery.None? ==> v.linked.refId == LinkedRefId && v.linked.expr.None? && v.linked.otherFields == map[]
  {
    if lookup.Loading? then Nothing
    else if lookup.ds.Some? then LokiEditor(lookup.ds.value.name, q.linkedQuery.GetOr(PlaceholderLinkedQuery))
    else if !Truthy(logsDatasourceUid) then SetUpWarning
    else if Truthy(logsDatasourceUid) && lookup.ds.None? then MissingDatasourceWarning
    else Nothing
  }
}
