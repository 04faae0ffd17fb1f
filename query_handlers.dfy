/**
 * The editor's event handlers. Each one calls the host's `onChange` and
 * `onRunQuery` callbacks in a fixed order; here a handler returns the list of
 * calls it makes, and `Replay` says what the host does with them.
 */
module QueryHandlers {
  import opened Wrappers
  import opened TempoTypes

  /** A callback made by the editor: `onChange(query)`, `onRunQuery()`, or storing uploaded JSON on the data source. */
  datatype Event = Change(query: TempoQuery) | Run | StoreUploadedJson(json: string)

  /** One execution of a query, with the uploaded JSON the data source held at the time. */
  datatype Execution = Execution(query: TempoQuery, uploadedJson: Option<string>)

  /** What the host holds: the current query, the data source's `uploadedJson`, and the executions so far. */
  datatype Host = Host(query: TempoQuery, uploadedJson: Option<string>, executed: seq<Execution>)

  const DefaultQueryType: QueryType := TraceId

  // ---------------------------------------------------------------------
  // The host

  function Step(h: Host, e: Event): Host {
    match e
    case Change(q) => h.(query := q)
    case Run => h.(executed := h.executed + [Execution(h.query, h.uploadedJson)])
    case StoreUploadedJson(json) => h.(uploadedJson := Some(json))
  }

  function Replay(h: Host, evs: seq<Event>): Host
    decreases |evs|
  {
    if evs == [] then h else Replay(Step(h, evs[0]), evs[1..])
  }

  lemma {:induction false} ReplayAppend(h: Host, a: seq<Event>, b: seq<Event>)
    ensures Replay(h, a + b) == Replay(Replay(h, a), b)
    decreases |a|
  {
    if a != [] {
      assert (a + b)[1..] == a[1..] + b;
      ReplayAppend(Step(h, a[0]), a[1..], b);
    } else {
      assert a + b == b;
    }
  }

  lemma ReplaySingle(h: Host, e: Event)
    ensures Replay(h, [e]) == Step(h, e)
  {
  }

  // ---------------------------------------------------------------------
  // The handlers

  /** `componentDidMount`: give an untyped query the default type so that the trace-ID field appears. */
  function OnMount(q: TempoQuery): seq<Event> {
    if q.queryType.None? then [Change(q.(queryType := Some(DefaultQueryType)))] else []
  }

  /** `onChangeLinkedQuery`: store the Loki query, tagged as the linked one. */
  function OnChangeLinkedQuery(q: TempoQuery, value: LokiQuery): seq<Event> {
    [Change(q.(linkedQuery := Some(value.(refId := LinkedRefId))))]
  }

  /** `onRunLinkedQuery`. */
  function OnRunLinkedQuery(): seq<Event> {
    [Run]
  }

  /** `onClearResults`: run the 'clear' query so that the results on display go away. */
  function OnClearResults(q: TempoQuery): seq<Event> {
    [Change(q.(queryType := Some(Clear))), Run]
  }

  /** The radio group's `onChange`: clear the results, then switch the query type. */
  function OnQueryTypeChange(q: TempoQuery, v: QueryType): seq<Event> {
    OnClearResults(q) + [Change(q.(queryType := Some(v)))]
  }

  /** The trace-ID field's `onChange`. */
  function OnTraceIdChange(q: TempoQuery, value: string): seq<Event> {
    [Change(q.(query := Some(value), queryType := Some(TraceId), linkedQuery := None))]
  }

  /** The file drop zone's `onLoad`: hand the JSON to the data source, then run. */
  function OnUploadLoad(json: string): seq<Event> {
    [StoreUploadedJson(json), Run]
  }

  // ---------------------------------------------------------------------
  // What each handler does to the host

  lemma MountSetsDefaultType(h: Host)
    ensures var after := Replay(h, OnMount(h.query));
      && after.query.queryType.Some?
      && (h.query.queryType.None? ==> after.query.queryType == Some(TraceId))
      && (h.query.queryType.Some? ==> after.query == h.query)
      && SameExceptQueryType(h.query, after.query)
      && after.executed == h.executed
      && after.uploadedJson == h.uploadedJson
    ensures |OnMount(h.query)| == (if h.query.queryType.None? then 1 else 0)
  {
  }

  /** Mounting again after the first mount has taken effect changes nothing. */
  lemma MountIdempotent(h: Host)
    ensures OnMount(Replay(h, OnMount(h.query)).query) == []
  {
  }

  lemma LinkedQueryChangeTouchesOnlyLinked(h: Host, value: LokiQuery)
    ensures var after := Replay(h, OnChangeLinkedQuery(h.query, value));
      && after.query.linkedQuery == Some(LokiQuery(LinkedRefId, value.expr, value.otherFields))
      && after.query == h.query.(linkedQuery := after.query.linkedQuery)
      && after.executed == h.executed
      && after.uploadedJson == h.uploadedJson
  {
  }

  lemma RunLinkedQueryRunsCurrent(h: Host)
    ensures Replay(h, OnRunLinkedQuery()) == h.(executed := h.executed + [Execution(h.query, h.uploadedJson)])
  {
  }

  lemma ClearResultsRunsClearQuery(h: Host)
    ensures var after := Replay(h, OnClearResults(h.query));
      && after.query == h.query.(queryType := Some(Clear))
      && after.executed == h.executed + [Execution(after.query, h.uploadedJson)]
      && after.uploadedJson == h.uploadedJson
  {
    var evs := OnClearResults(h.query);
    assert evs == [evs[0]] + [Run];
    ReplayAppend(h, [evs[0]], [Run]);
    ReplaySingle(h, evs[0]);
    ReplaySingle(Step(h, evs[0]), Run);
  }

  /**
   * Switching to `v`: the one query executed is the 'clear' query, so stale
   * results are flushed before the new type applies, and the query the host
   * keeps is the original with only its type changed.
   */
  lemma QueryTypeChangeClearsFirst(h: Host, v: QueryType)
    ensures var after := Replay(h, OnQueryTypeChange(h.query, v));
      && after.executed == h.executed + [Execution(h.query.(queryType := Some(Clear)), h.uploadedJson)]
      && after.query.queryType == Some(v)
      && SameExceptQueryType(h.query, after.query)
      && after.uploadedJson == h.uploadedJson
  {
    var last := Change(h.query.(queryType := Some(v)));
    ReplayAppend(h, OnClearResults(h.query), [last]);
    ClearResultsRunsClearQuery(h);
    ReplaySingle(Replay(h, OnClearResults(h.query)), last);
  }

  /**
   * The order of the calls: exactly three, a change to 'clear', the one run,
   * and last the change to the new type.
   */
  lemma QueryTypeChangeOrder(q: TempoQuery, v: QueryType)
    ensures var evs := OnQueryTypeChange(q, v);
      && |evs| == 3
      && evs[|evs| - 1] == Change(q.(queryType := Some(v)))
      && (forall i, j :: 0 <= i < |evs| && 0 <= j < |evs| && evs[i] == Run && evs[j] == Run ==> i == j)
      && (exists i :: 0 <= i < |evs| && evs[i] == Run)
      && (forall i :: 0 <= i < |evs| && evs[i] == Run ==>
            && (exists j :: 0 <= j < i && evs[j] == Change(q.(queryType := Some(Clear))))
            && (forall j :: 0 <= j < i && evs[j].Change? ==> evs[j].query.queryType == Some(Clear))
            && (forall j :: i < j < |evs| ==> evs[j] == Change(q.(queryType := Some(v)))))
  {
    var evs := OnQueryTypeChange(q, v);
    assert evs[1] == Run;
    forall i | 0 <= i < |evs| && evs[i] == Run
      ensures i == 1
    {
    }
    assert evs[0] == Change(q.(queryType := Some(Clear)));
    assert evs[2] == Change(q.(queryType := Some(v)));
  }

  lemma TraceIdEditClearsLinkedQuery(h: Host, value: string)
    ensures var after := Replay(h, OnTraceIdChange(h.query, value));
      && after.query.query == Some(value)
      && after.query.queryType == Some(TraceId)
      && after.query.linkedQuery == None
      && after.query.refId == h.query.refId
      && after.query.otherFields == h.query.otherFields
      && after.executed == h.executed
      && after.uploadedJson == h.uploadedJson
  {
  }

  /** Loading a file stores it and then runs the current query with it; the query is untouched. */
  lemma UploadStoresThenRuns(h: Host, json: string)
    ensures var after := Replay(h, OnUploadLoad(json));
      && after.query == h.query
      && after.uploadedJson == Some(json)
      && after.executed == h.executed + [Execution(h.query, Some(json))]
  {
    var evs := OnUploadLoad(json);
    assert evs == [evs[0]] + [Run];
    ReplayAppend(h, [evs[0]], [Run]);
    ReplaySingle(h, evs[0]);
    ReplaySingle(Step(h, evs[0]), Run);
  }
}
