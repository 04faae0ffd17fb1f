/**
 * The list of query types offered by the editor's radio group, as `render`
 * builds it from the feature toggles and the data source's settings.
 */
module QueryTypeOptions {
  import opened Wrappers
  import opened TempoTypes

  /**
   * The configuration the list depends on: the `tempoServiceGraph` and
   * `tempoSearch` feature toggles, `datasource.search.hide` (false when
   * unset) and the UID returned by `getLokiSearchDS()`.
   */
  datatype Config = Config(
    tempoServiceGraph: bool,
    tempoSearch: bool,
    searchHidden: bool,
    logsDatasourceUid: Option<string>)

  /** One radio button: the query type it selects and its caption (`label` in the source, a reserved word here). */
  datatype SelectableValue = SelectableValue(value: QueryType, caption: string)

  const TraceIdOption := SelectableValue(TraceId, "TraceID")
  const UploadOption := SelectableValue(Upload, "JSON file")
  const ServiceGraphOption := SelectableValue(ServiceMap, "Service Graph")
  const NativeSearchOption := SelectableValue(NativeSearch, "Search - Beta")
  const SearchOption := SelectableValue(Search, "Search")
  const LokiSearchOption := SelectableValue(Search, "Loki Search")

  predicate NativeSearchShown(cfg: Config) {
    cfg.tempoSearch && !cfg.searchHidden
  }

  /** Builds the option list the way `render` does: two fixed entries, then `push` and `unshift` under the toggles. */
  method BuildQueryTypeOptions(cfg: Config) returns (opts: seq<SelectableValue>)
    ensures opts == QueryTypeOptions(cfg)
    ensures OptionsSpec(cfg, opts)
  {
    // `front` and `back` track what was unshifted and pushed around the two fixed entries
    ghost var front: seq<SelectableValue>, back: seq<SelectableValue> := [], [];
    opts := [TraceIdOption, UploadOption];
    if cfg.tempoServiceGraph {
      opts := opts + [ServiceGraphOption];
      back := [ServiceGraphOption];
    }
    if NativeSearchShown(cfg) {
      opts := [NativeSearchOption] + opts;
      front := [NativeSearchOption];
    }
    assert opts == front + [TraceIdOption, UploadOption] + back;
    if Truthy(cfg.logsDatasourceUid) {
      if !cfg.tempoSearch {
        opts := [SearchOption] + opts;
        front := [SearchOption] + front;
      } else {
        opts := opts + [LokiSearchOption];
        back := back + [LokiSearchOption];
      }
    }
    assert front == Front(cfg) && back == Back(cfg);
    assert opts == front + [TraceIdOption, UploadOption] + back;
    QueryTypeOptionsMeetsSpec(cfg);
  }

  // ---------------------------------------------------------------------
  // Reference definition: the list as three segments

  /** The entries placed before the two fixed ones (at most one of the two guards holds). */
  function Front(cfg: Config): seq<SelectableValue> {
    (if Truthy(cfg.logsDatasourceUid) && !cfg.tempoSearch then [SearchOption] else [])
    + (if NativeSearchShown(cfg) then [NativeSearchOption] else [])
  }

  /** The entries placed after the two fixed ones. */
  function Back(cfg: Config): seq<SelectableValue> {
    (if cfg.tempoServiceGraph then [ServiceGraphOption] else [])
    + (if Truthy(cfg.logsDatasourceUid) && cfg.tempoSearch then [LokiSearchOption] else [])
  }

  function QueryTypeOptions(cfg: Config): seq<SelectableValue> {
    Front(cfg) + [TraceIdOption, UploadOption] + Back(cfg)
  }

  // ---------------------------------------------------------------------
  // Declarative specification: which entries appear, where, with which label

  function Values(opts: seq<SelectableValue>): seq<QueryType>
  {
    seq(|opts|, i requires 0 <= i < |opts| => opts[i].value)
  }

  /** Whether the configuration offers a query type at all. */
  predicate Offered(cfg: Config, v: QueryType) {
    match v
    case TraceId => true
    case Upload => true
    case ServiceMap => cfg.tempoServiceGraph
    case NativeSearch => NativeSearchShown(cfg)
    case Search => Truthy(cfg.logsDatasourceUid)
    case Clear => false
  }

  /** The caption of an offered query type; `Clear` has none. */
  function Label(cfg: Config, v: QueryType): string {
    match v
    case TraceId => "TraceID"
    case Upload => "JSON file"
    case ServiceMap => "Service Graph"
    case NativeSearch => "Search - Beta"
    case Search => if cfg.tempoSearch then "Loki Search" else "Search"
    case Clear => ""
  }

  ghost predicate Distinct(opts: seq<SelectableValue>) {
    forall i, j :: 0 <= i < j < |opts| ==> opts[i].value != opts[j].value
  }

  ghost predicate OffersExactly(cfg: Config, opts: seq<SelectableValue>) {
    forall v :: v in Values(opts) <==> Offered(cfg, v)
  }

  ghost predicate Labelled(cfg: Config, opts: seq<SelectableValue>) {
    forall i :: 0 <= i < |opts| ==> opts[i].caption == Label(cfg, opts[i].value)
  }

  ghost predicate TraceIdThenUpload(opts: seq<SelectableValue>) {
    exists i :: 0 <= i < |opts| - 1 && opts[i] == TraceIdOption && opts[i + 1] == UploadOption
  }

  ghost predicate ServiceGraphAfterUpload(opts: seq<SelectableValue>) {
    forall i, j :: 0 <= i < |opts| && 0 <= j < |opts| && opts[i].value == Upload && opts[j].value == ServiceMap ==> i < j
  }

  ghost predicate NativeSearchFirst(opts: seq<SelectableValue>) {
    forall i :: 0 <= i < |opts| && opts[i].value == NativeSearch ==> i == 0
  }

  /** Plain "Search" goes first; "Loki Search" goes last. */
  ghost predicate SearchPlaced(cfg: Config, opts: seq<SelectableValue>) {
    forall i :: 0 <= i < |opts| && opts[i].value == Search ==> i == (if cfg.tempoSearch then |opts| - 1 else 0)
  }

  ghost predicate OptionsSpec(cfg: Config, opts: seq<SelectableValue>) {
    && Distinct(opts)
    && OffersExactly(cfg, opts)
    && Labelled(cfg, opts)
    && TraceIdThenUpload(opts)
    && ServiceGraphAfterUpload(opts)
    && NativeSearchFirst(opts)
    && SearchPlaced(cfg, opts)
  }

  // ---------------------------------------------------------------------
  // The reference list meets the specification

  lemma FixedOptionsAdjacent(cfg: Config)
    ensures TraceIdOption in QueryTypeOptions(cfg) && UploadOption in QueryTypeOptions(cfg)
    ensures TraceIdThenUpload(QueryTypeOptions(cfg))
  {
    var opts, k := QueryTypeOptions(cfg), |Front(cfg)|;
    assert opts[k] == TraceIdOption && opts[k + 1] == UploadOption;
  }

  lemma ServiceGraphPlacement(cfg: Config)
    ensures ServiceGraphOption in QueryTypeOptions(cfg) <==> cfg.tempoServiceGraph
    ensures ServiceMap in Values(QueryTypeOptions(cfg)) <==> cfg.tempoServiceGraph
    ensures ServiceGraphAfterUpload(QueryTypeOptions(cfg))
  {
    var opts := QueryTypeOptions(cfg);
    ReferenceSortedAndOffered(cfg);
    SortedPlacement(cfg, opts);
    if ServiceGraphOption in opts {
      var i :| 0 <= i < |opts| && opts[i] == ServiceGraphOption;
      assert Values(opts)[i] == ServiceMap;
    }
    if cfg.tempoServiceGraph {
      assert opts[|Front(cfg)| + 2] == ServiceGraphOption;
    }
  }

  lemma NativeSearchPlacement(cfg: Config)
    ensures NativeSearch in Values(QueryTypeOptions(cfg)) <==> NativeSearchShown(cfg)
    ensures NativeSearchShown(cfg) ==> QueryTypeOptions(cfg)[0] == NativeSearchOption
    ensures NativeSearchFirst(QueryTypeOptions(cfg))
  {
    ReferenceSortedAndOffered(cfg);
    SortedPlacement(cfg, QueryTypeOptions(cfg));
  }

  lemma SearchPlacement(cfg: Config)
    ensures Search in Values(QueryTypeOptions(cfg)) <==> Truthy(cfg.logsDatasourceUid)
    ensures Truthy(cfg.logsDatasourceUid) && !cfg.tempoSearch ==> QueryTypeOptions(cfg)[0] == SearchOption
    ensures Truthy(cfg.logsDatasourceUid) && cfg.tempoSearch ==>
      QueryTypeOptions(cfg)[|QueryTypeOptions(cfg)| - 1] == LokiSearchOption
    ensures SearchPlaced(cfg, QueryTypeOptions(cfg))
  {
    ReferenceSortedAndOffered(cfg);
    SortedPlacement(cfg, QueryTypeOptions(cfg));
  }

  lemma OptionsDistinctAndBounded(cfg: Config)
    ensures Distinct(QueryTypeOptions(cfg))
    ensures OffersExactly(cfg, QueryTypeOptions(cfg))
    ensures Labelled(cfg, QueryTypeOptions(cfg))
    ensures Clear !in Values(QueryTypeOptions(cfg))
    ensures 2 <= |QueryTypeOptions(cfg)| <= 5
  {
    ReferenceSortedAndOffered(cfg);
    SortedDistinct(cfg, QueryTypeOptions(cfg));
    assert |Front(cfg)| <= 1 && |Back(cfg)| <= 2;
  }

  lemma QueryTypeOptionsMeetsSpec(cfg: Config)
    ensures OptionsSpec(cfg, QueryTypeOptions(cfg))
  {
    var opts := QueryTypeOptions(cfg);
    FixedOptionsAdjacent(cfg);
    ReferenceSortedAndOffered(cfg);
    SortedDistinct(cfg, opts);
    SortedPlacement(cfg, opts);
  }

  /** The reference list is sorted by rank, offers exactly the enabled types and captions each correctly. */
  lemma ReferenceSortedAndOffered(cfg: Config)
    ensures RankSorted(cfg, Values(QueryTypeOptions(cfg)))
    ensures OffersExactly(cfg, QueryTypeOptions(cfg))
    ensures Labelled(cfg, QueryTypeOptions(cfg))
  {
    ReferenceSorted(cfg);
    ReferenceOffers(cfg);
    LabelledConcat(cfg, Front(cfg), [TraceIdOption, UploadOption]);
    LabelledConcat(cfg, Front(cfg) + [TraceIdOption, UploadOption], Back(cfg));
  }

  lemma ReferenceSorted(cfg: Config)
    ensures RankSorted(cfg, Values(QueryTypeOptions(cfg)))
  {
    ValuesOfOptions(cfg);
    var uid, ts := Truthy(cfg.logsDatasourceUid), cfg.tempoSearch;
    ChainSorted(cfg,
      if uid && !ts then [Search] else [],
      if NativeSearchShown(cfg) then [NativeSearch] else [],
      if cfg.tempoServiceGraph then [ServiceMap] else [],
      if uid && ts then [Search] else []);
  }

  lemma ReferenceOffers(cfg: Config)
    ensures OffersExactly(cfg, QueryTypeOptions(cfg))
  {
    ValuesOfOptions(cfg);
    var uid, ts := Truthy(cfg.logsDatasourceUid), cfg.tempoSearch;
    var s1: seq<QueryType> := if uid && !ts then [Search] else [];
    var s2: seq<QueryType> := if NativeSearchShown(cfg) then [NativeSearch] else [];
    var s4: seq<QueryType> := if cfg.tempoServiceGraph then [ServiceMap] else [];
    var s5: seq<QueryType> := if uid && ts then [Search] else [];
    var vs := Values(QueryTypeOptions(cfg));
    assert vs == s1 + s2 + [TraceId, Upload] + s4 + s5;
    forall v
      ensures v in vs <==> Offered(cfg, v)
    {
      assert v in vs <==> v in s1 || v in s2 || v in [TraceId, Upload] || v in s4 || v in s5;
    }
  }

  /** The query types of the reference list, segment by segment. */
  lemma ValuesOfOptions(cfg: Config)
    ensures Values(QueryTypeOptions(cfg)) ==
      (if Truthy(cfg.logsDatasourceUid) && !cfg.tempoSearch then [Search] else [])
      + (if NativeSearchShown(cfg) then [NativeSearch] else [])
      + [TraceId, Upload]
      + (if cfg.tempoServiceGraph then [ServiceMap] else [])
      + (if Truthy(cfg.logsDatasourceUid) && cfg.tempoSearch then [Search] else [])
  {
  }

  /** Five segments whose ranks climb from one to the next make a sorted list. */
  lemma ChainSorted(cfg: Config, s1: seq<QueryType>, s2: seq<QueryType>, s4: seq<QueryType>, s5: seq<QueryType>)
    requires |s1| <= 1 && |s2| <= 1 && |s4| <= 1 && |s5| <= 1
    requires forall i :: 0 <= i < |s1| ==> Rank(cfg, s1[i]) == 0
    requires forall i :: 0 <= i < |s2| ==> Rank(cfg, s2[i]) == 1
    requires forall i :: 0 <= i < |s4| ==> Rank(cfg, s4[i]) == 4
    requires forall i :: 0 <= i < |s5| ==> Rank(cfg, s5[i]) == 5
    ensures RankSorted(cfg, s1 + s2 + [TraceId, Upload] + s4 + s5)
  {
    SortedConcat(cfg, s1, s2, 1);
    SortedConcat(cfg, s1 + s2, [TraceId, Upload], 2);
    SortedConcat(cfg, s1 + s2 + [TraceId, Upload], s4, 4);
    SortedConcat(cfg, s1 + s2 + [TraceId, Upload] + s4, s5, 5);
  }

  /** Two sorted lists, every rank of the first below `m` and every rank of the second at least `m`, join into a sorted list. */
  lemma SortedConcat(cfg: Config, a: seq<QueryType>, b: seq<QueryType>, m: int)
    requires RankSorted(cfg, a) && RankSorted(cfg, b)
    requires forall i :: 0 <= i < |a| ==> Rank(cfg, a[i]) < m
    requires forall j :: 0 <= j < |b| ==> m <= Rank(cfg, b[j])
    ensures RankSorted(cfg, a + b)
  {
    forall i, j | 0 <= i < j < |a + b|
      ensures Rank(cfg, (a + b)[i]) < Rank(cfg, (a + b)[j])
    {
      if j < |a| {
        assert (a + b)[i] == a[i] && (a + b)[j] == a[j];
      } else if i < |a| {
        assert (a + b)[i] == a[i] && (a + b)[j] == b[j - |a|];
      } else {
        assert (a + b)[i] == b[i - |a|] && (a + b)[j] == b[j - |a|];
      }
    }
  }

  lemma LabelledConcat(cfg: Config, a: seq<SelectableValue>, b: seq<SelectableValue>)
    requires Labelled(cfg, a) && Labelled(cfg, b)
    ensures Labelled(cfg, a + b)
  {
    forall i | 0 <= i < |a + b|
      ensures (a + b)[i].caption == Label(cfg, (a + b)[i].value)
    {
      if i < |a| {
        assert (a + b)[i] == a[i];
      } else {
        assert (a + b)[i] == b[i - |a|];
      }
    }
  }

  /** Sorted by rank means no query type twice. */
  lemma SortedDistinct(cfg: Config, opts: seq<SelectableValue>)
    requires RankSorted(cfg, Values(opts))
    ensures Distinct(opts)
  {
    forall i, j | 0 <= i < j < |opts|
      ensures opts[i].value != opts[j].value
    {
      assert Values(opts)[i] == opts[i].value && Values(opts)[j] == opts[j].value;
    }
  }

  /** In a sorted list offering exactly the enabled types, the placement rules hold. */
  lemma SortedPlacement(cfg: Config, opts: seq<SelectableValue>)
    requires RankSorted(cfg, Values(opts)) && OffersExactly(cfg, opts)
    ensures ServiceGraphAfterUpload(opts)
    ensures NativeSearchFirst(opts)
    ensures SearchPlaced(cfg, opts)
  {
    var vs := Values(opts);
    forall i, j | 0 <= i < |opts| && 0 <= j < |opts| && opts[i].value == Upload && opts[j].value == ServiceMap
      ensures i < j
    {
      assert vs[i] == Upload && vs[j] == ServiceMap;
    }
    forall i | 0 <= i < |opts| && opts[i].value == NativeSearch
      ensures i == 0
    {
      assert vs[0] in vs && vs[i] in vs;
    }
    forall i | 0 <= i < |opts| && opts[i].value == Search
      ensures i == (if cfg.tempoSearch then |opts| - 1 else 0)
    {
      assert vs[0] in vs && vs[i] in vs && vs[|opts| - 1] in vs;
    }
  }

  // ---------------------------------------------------------------------
  // The specification admits exactly one list

  /** A strict order in which every list meeting the specification is sorted. */
  function Rank(cfg: Config, v: QueryType): int {
    match v
    case Search => if cfg.tempoSearch then 5 else 0
    case NativeSearch => 1
    case TraceId => 2
    case Upload => 3
    case ServiceMap => 4
    case Clear => 6
  }

  ghost predicate RankSorted(cfg: Config, vs: seq<QueryType>) {
    forall i, j :: 0 <= i < j < |vs| ==> Rank(cfg, vs[i]) < Rank(cfg, vs[j])
  }

  lemma SpecRankSorted(cfg: Config, opts: seq<SelectableValue>)
    requires OptionsSpec(cfg, opts)
    ensures RankSorted(cfg, Values(opts))
  {
    var vs := Values(opts);
    var k :| 0 <= k < |opts| - 1 && opts[k] == TraceIdOption && opts[k + 1] == UploadOption;
    forall i, j | 0 <= i < j < |vs|
      ensures Rank(cfg, vs[i]) < Rank(cfg, vs[j])
    {
      assert vs[i] == opts[i].value && vs[j] == opts[j].value;
      assert Offered(cfg, vs[i]) && Offered(cfg, vs[j]) by {
        assert vs[i] in vs && vs[j] in vs;
      }
    }
  }

  /** The head of a sorted list has the least rank, and is the only member with that rank. */
  lemma HeadIsLeast(cfg: Config, a: seq<QueryType>, x: QueryType)
    requires RankSorted(cfg, a) && x in a
    ensures Rank(cfg, a[0]) <= Rank(cfg, x)
    ensures Rank(cfg, a[0]) == Rank(cfg, x) ==> x == a[0]
  {
    var i :| 0 <= i < |a| && a[i] == x;
  }

  /** In sorted lists with the same members and the same head, every member of one tail is in the other. */
  lemma TailMembers(cfg: Config, a: seq<QueryType>, b: seq<QueryType>)
    requires RankSorted(cfg, a) && RankSorted(cfg, b)
    requires forall v :: v in a <==> v in b
    requires a != [] && b != [] && a[0] == b[0]
    ensures forall v :: v in a[1..] ==> v in b[1..]
  {
    forall v | v in a[1..]
      ensures v in b[1..]
    {
      var i :| 1 <= i < |a| && a[i] == v;
      assert Rank(cfg, a[0]) < Rank(cfg, v);
      assert v in a;
      var j :| 0 <= j < |b| && b[j] == v;
      assert b[1..][j - 1] == v;
    }
  }

  lemma {:induction false} RankSortedUnique(cfg: Config, a: seq<QueryType>, b: seq<QueryType>)
    requires RankSorted(cfg, a) && RankSorted(cfg, b)
    requires forall v :: v in a <==> v in b
    ensures a == b
    decreases |a|
  {
    assert |b| > 0 ==> b[0] in a;
    assert |a| > 0 ==> a[0] in b;
    if a != [] {
      assert a[0] in b && b[0] in a;
      HeadIsLeast(cfg, a, b[0]);
      HeadIsLeast(cfg, b, a[0]);
      TailMembers(cfg, a, b);
      TailMembers(cfg, b, a);
      RankSortedUnique(cfg, a[1..], b[1..]);
      assert a == [a[0]] + a[1..] && b == [b[0]] + b[1..];
    }
  }

  /** Any list meeting the specification is the reference list: the rules fix presence, order and labels. */
  lemma OptionsSpecDeterminesList(cfg: Config, opts: seq<SelectableValue>)
    requires OptionsSpec(cfg, opts)
    ensures opts == QueryTypeOptions(cfg)
  {
    var expected := QueryTypeOptions(cfg);
    QueryTypeOptionsMeetsSpec(cfg);
    SpecRankSorted(cfg, opts);
    SpecRankSorted(cfg, expected);
    RankSortedUnique(cfg, Values(opts), Values(expected));
    assert |opts| == |expected|;
    forall i | 0 <= i < |opts|
      ensures opts[i] == expected[i]
    {
      assert Values(opts)[i] == Values(expected)[i];
    }
  }
}
