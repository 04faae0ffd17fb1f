# Tempo query editor: a verified model

This project models the logic of the query editor of Grafana's Tempo
(distributed tracing) data source, `TempoQueryField`. The editor has three
pieces of logic:

- **The query-type options.** `render` builds the list of query types offered
  by the radio group. The list depends on the `tempoServiceGraph` and
  `tempoSearch` feature toggles, on `datasource.search.hide` and on whether a
  Loki search data source UID is configured.
- **The event handlers.** They are `componentDidMount`, `onChangeLinkedQuery`,
  `onRunLinkedQuery`, `onClearResults`, the query-type and trace-ID `onChange`
  callbacks and the upload `onLoad` callback. Each one calls the host's
  `onChange` and `onRunQuery` in a fixed order. All but `onRunLinkedQuery` and
  `onLoad` first build a new query by object spread; `onLoad` stores the file
  on the data source instead.
- **`SearchSection`.** It chooses between nothing, the Loki query editor and
  two warnings, depending on the asynchronous data-source lookup and the UID.

Modules, one file each:

- `Wrappers` (`wrappers.dfy`): `Option`, which stands for `T | undefined`.
- `TempoTypes` (`tempo_types.dfy`): the query types, `TempoQuery`, `LokiQuery`,
  and JavaScript truthiness of an optional string.
- `QueryTypeOptions` (`query_type_options.dfy`):
  - `BuildQueryTypeOptions` is the imperative builder. It updates a local
    sequence with `push` and `unshift`, as `render` does.
  - `QueryTypeOptions` is a reference definition made of three segments.
  - `OptionsSpec` is a declarative specification: which entries appear,
    where, and with which caption.
  - Lemmas prove that the reference meets the specification, and that the
    specification admits exactly one list.
- `QueryHandlers` (`query_handlers.dfy`):
  - Each handler is a function that returns the callbacks it makes, in order:
    `Change(q)`, `Run` and `StoreUploadedJson(json)`.
  - `Replay` says what the host does with those callbacks. It keeps the
    current query, the data source's `uploadedJson` and the list of executed
    queries.
  - The lemmas state what each handler does to the host.
- `SearchSection` (`search_section.dfy`): the four-way outcome of
  `SearchSection`.
- `EditorPanels` (`editor_panels.dfy`): which sub-forms `render` shows for the
  current query type.

Conventions:

- Feature toggles and data-source settings are explicit parameters (`Config`),
  not a global configuration.
- The Loki UID is an `Option<string>`. It counts as set when it is present and
  not empty, as JavaScript truthiness has it.
- `datasource.search.hide` is a `bool`, false when unset.
- The option field `label` is called `caption`, because `label` is a reserved
  word in Dafny.

The comments at QueryField.tsx:88 and :91 place plain "Search" first "if no
native search" and "Loki Search" last "if native search is enabled". The test
at :87 looks only at `tempoSearch`, not at `datasource.search.hide` as :82
does. So when `search.hide` hides native search, the option is still labelled
"Loki Search" and placed last. The model follows the code
(`QueryTypeOptions.SearchPlacement`).

`SearchSection` ends with a fallback `return null` (QueryField.tsx:229). It is
never reached: `SearchSection.View` proves that the section shows nothing
exactly while the lookup is loading.

## Model

| member | source | states |
|---|---|---|
| QueryTypeOptions.BuildQueryTypeOptions | public/app/plugins/datasource/tempo/QueryEditor/QueryField.tsx:73-94 | The list built by the push/unshift steps equals the reference list and meets the whole declarative specification `OptionsSpec` |
| QueryTypeOptions.FixedOptionsAdjacent | public/app/plugins/datasource/tempo/QueryEditor/QueryField.tsx:73-76 | 'traceId' ("TraceID") and 'upload' ("JSON file") are always offered, with TraceID immediately before JSON file |
| QueryTypeOptions.ServiceGraphPlacement | public/app/plugins/datasource/tempo/QueryEditor/QueryField.tsx:78-80 | 'serviceMap' ("Service Graph") is offered iff `tempoServiceGraph` is on, and always after 'upload' |
| QueryTypeOptions.NativeSearchPlacement | public/app/plugins/datasource/tempo/QueryEditor/QueryField.tsx:82-84 | 'nativeSearch' ("Search - Beta") is offered iff `tempoSearch` is on and search is not hidden; when offered it is at index 0 |
| QueryTypeOptions.SearchPlacement | public/app/plugins/datasource/tempo/QueryEditor/QueryField.tsx:86-94 | 'search' is offered iff a Loki UID is set; it is "Search" at index 0 with `tempoSearch` off, and "Loki Search" at the last index with `tempoSearch` on, even when native search is hidden |
| QueryTypeOptions.OptionsDistinctAndBounded | public/app/plugins/datasource/tempo/QueryEditor/QueryField.tsx:73-94 | No query type is offered twice, 'clear' is never offered, exactly the enabled types are offered, each with its caption, and the list has between 2 and 5 entries |
| QueryTypeOptions.QueryTypeOptionsMeetsSpec | public/app/plugins/datasource/tempo/QueryEditor/QueryField.tsx:73-94 | The reference list satisfies every rule of the declarative specification |
| QueryTypeOptions.SpecRankSorted | public/app/plugins/datasource/tempo/QueryEditor/QueryField.tsx:73-94 | The placement rules alone force the order: plain search, native search, traceId, upload, serviceMap, Loki search |
| QueryTypeOptions.SortedPlacement | public/app/plugins/datasource/tempo/QueryEditor/QueryField.tsx:78-94 | In that order, a list offering exactly the enabled types puts 'serviceMap' after 'upload', native search first, plain "Search" first and "Loki Search" last |
| QueryTypeOptions.OptionsSpecDeterminesList | public/app/plugins/datasource/tempo/QueryEditor/QueryField.tsx:73-94 | Any list that meets the declarative specification is exactly the list `render` builds |
| QueryHandlers.MountSetsDefaultType | public/app/plugins/datasource/tempo/QueryEditor/QueryField.tsx:34-42 | On mount, an untyped query becomes 'traceId' with one change and every other field unchanged; a typed query yields no callback; nothing is run |
| QueryHandlers.MountIdempotent | public/app/plugins/datasource/tempo/QueryEditor/QueryField.tsx:34-42 | Mounting again after the first mount has taken effect emits nothing |
| QueryHandlers.LinkedQueryChangeTouchesOnlyLinked | public/app/plugins/datasource/tempo/QueryEditor/QueryField.tsx:44-50 | A linked-query change stores the Loki query with refId 'linked', its expression and its other fields kept; every other query field is untouched and nothing runs |
| QueryHandlers.RunLinkedQueryRunsCurrent | public/app/plugins/datasource/tempo/QueryEditor/QueryField.tsx:52-54 | Running the linked query executes the current query once and changes nothing else |
| QueryHandlers.ClearResultsRunsClearQuery | public/app/plugins/datasource/tempo/QueryEditor/QueryField.tsx:56-64 | Clearing results executes the query with type 'clear', and the host is left holding that query |
| QueryHandlers.QueryTypeChangeClearsFirst | public/app/plugins/datasource/tempo/QueryEditor/QueryField.tsx:103-110 | Selecting type v executes only the 'clear' query, then leaves the host with the original query differing only in its type, now v |
| QueryHandlers.QueryTypeChangeOrder | public/app/plugins/datasource/tempo/QueryEditor/QueryField.tsx:103-110 | Exactly three calls: the change to 'clear', the one run, and last the change to the new type; every call after the run is that change |
| QueryHandlers.TraceIdEditClearsLinkedQuery | public/app/plugins/datasource/tempo/QueryEditor/QueryField.tsx:162-168 | Editing the trace ID sets `query` to the new text and the type to 'traceId', clears `linkedQuery`, keeps refId and the other fields, and runs nothing |
| QueryHandlers.UploadStoresThenRuns | public/app/plugins/datasource/tempo/QueryEditor/QueryField.tsx:150-153 | Loading a file stores the JSON on the data source and then executes the unchanged query with that JSON |
| SearchSection.View | public/app/plugins/datasource/tempo/QueryEditor/QueryField.tsx:192-229 | The four outcomes partition the inputs: nothing iff loading, the Loki editor iff a data source was found, the set-up warning iff none was found and the UID is unset, the no-longer-exists warning iff none was found and the UID is set; the editor shows the linked query or the placeholder with refId 'linked' |
| EditorPanels.Panels | public/app/plugins/datasource/tempo/QueryEditor/QueryField.tsx:115-180 | At most one sub-form shows, and it is the one that belongs to the query type; the beta notice shows only in native search, worded by `tempoBackendSearch` |

## Left out

- The search page (`SearchPage.tsx`) is left out. It is outside the Tempo query editor.
- The Azure resource picker (`ResourcePicker.test.tsx`) is left out. It is outside the Tempo query editor.
- JSX rendering, styling, `Badge`, `RadioButtonGroup`, `FileDropzone`, `QueryField` and `LokiQueryField` are components from @grafana/ui or from the Loki data source. `EditorPanels` keeps only which panel shows.
- `NativeSearch`, `ServiceGraphSection` and `getDS` are code outside this component. `graphDatasourceUid`, which is only passed on to `ServiceGraphSection`, is not modelled.
- `useAsync` is not modelled as asynchronous. Its state is an input to `SearchSection.View`: still loading, or settled with or without a data source.
- `onBlur` is not modelled. It is passed through unchanged to the child components.
- `datasource.uploadedJson` is a field of an external object. It is modelled as part of the host state, set by a `StoreUploadedJson` callback.
- Host callbacks run synchronously and in order. React's batching and re-rendering between two `onChange` calls are not modelled. Each handler builds its queries from the props it was rendered with, as the source does.
- The query-type strings 'traceId', 'upload', 'serviceMap', 'nativeSearch', 'search' and 'clear' are the constructors of `QueryType`. An empty-string query type cannot occur, so "no query type" is `None`.
