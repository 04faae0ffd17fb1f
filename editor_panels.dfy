/** Which sub-forms `render` shows below the query-type radio group. */
module EditorPanels {
  import opened Wrappers
  import opened TempoTypes

  /** The beta notice's wording depends on `tempoBackendSearch`; the others are the per-type editors. */
  datatype Panel =
    | BetaNotice(backendSearch: bool)
    | SearchSectionPanel
    | NativeSearchPanel
    | UploadPanel
    | TraceIdPanel
    | ServiceGraphPanel

  predicate IsEditor(p: Panel) {
    !p.BetaNotice?
  }

  /** The editor that belongs to each query type; 'clear' has none. */
  function EditorFor(t: QueryType): Option<Panel> {
    match t
    case TraceId => Some(TraceIdPanel)
    case Upload => Some(UploadPanel)
    case ServiceMap => Some(ServiceGraphPanel)
    case NativeSearch => Some(NativeSearchPanel)
    case Search => Some(SearchSectionPanel)
    case Clear => None
  }

  /**
   * The panels in render order, one conditional element per query type. At
   * most one editor shows, and it is the one that belongs to the query type;
   * the beta notice shows only in native search.
   */
  function Panels(queryType: Option<QueryType>, tempoBackendSearch: bool): (ps: seq<Panel>)
    ensures forall i, j :: 0 <= i < |ps| && 0 <= j < |ps| && IsEditor(ps[i]) && IsEditor(ps[j]) ==> i == j
    ensures forall p :: p in ps && IsEditor(p) ==> queryType.Some? && EditorFor(queryType.value) == Some(p)
    ensures queryType.Some? && EditorFor(queryType.value).Some? ==> EditorFor(queryType.value).value in ps
    ensures forall b :: BetaNotice(b) in ps <==> queryType == Some(NativeSearch) && b == tempoBackendSearch
  {
    var t := queryType;
    (if t == Some(NativeSearch) then [BetaNotice(tempoBackendSearch)] else [])
    + (if t == Some(Search) then [SearchSectionPanel] else [])
    + (if t == Some(NativeSearch) then [NativeSearchPanel] else [])
    + (if t == Some(Upload) then [UploadPanel] else [])
    + (if t == Some(TraceId) then [TraceIdPanel] else [])
    + (if t == Some(ServiceMap) then [ServiceGraphPanel] else [])
  }
}
