/**
 * The records the Tempo query editor works on: the query modes, the Tempo
 * query the host owns, and the Loki query linked to it.
 */
module TempoTypes {
  import opened Wrappers

  /**
   * The values of `TempoQueryType`: 'traceId', 'upload', 'serviceMap',
   * 'nativeSearch', 'search' and 'clear'. `Clear` is never offered to the
   * user; the editor sends it to flush the results on display.
   */
  datatype QueryType = TraceId | Upload | ServiceMap | NativeSearch | Search | Clear

  /**
   * The Loki query edited in the linked-search mode; `expr` is absent in the
   * placeholder `{ refId: 'linked' }`, and `otherFields` stands for the fields
   * the Tempo editor never names, which object spread copies unchanged.
   */
  datatype LokiQuery = LokiQuery(refId: string, expr: Option<string>, otherFields: map<string, string>)

  /**
   * A Tempo query. `otherFields` stands for every field the editor never
   * names (search tags, durations, the service-map query, ...): object
   * spread copies them unchanged.
   */
  datatype TempoQuery = TempoQuery(
    refId: string,
    queryType: Option<QueryType>,
    query: Option<string>,
    linkedQuery: Option<LokiQuery>,
    otherFields: map<string, string>)

  /** The `refId` that marks the Loki query linked to a Tempo query. */
  const LinkedRefId: string := "linked"

  /** JavaScript truthiness of an optional string: present and not empty. */
  predicate Truthy(s: Option<string>) {
    s.Some? && s.value != ""
  }

  /** `b` is `a` with at most its `queryType` replaced. */
  predicate SameExceptQueryType(a: TempoQuery, b: TempoQuery) {
    a.refId == b.refId && a.query == b.query && a.linkedQuery == b.linkedQuery && a.otherFields == b.otherFields
  }
}
