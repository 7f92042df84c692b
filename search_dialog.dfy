/**
  The search overlay of src/components/SearchDialog.tsx.

  `search` turns a query into result payloads: an empty query returns at once,
  otherwise the Pagefind module is imported and initialised the first time
  (guarded by the module-level `pagefind` variable), the query goes through
  `debouncedSearch(query, {}, 200)`, a falsy answer becomes the empty list, and
  otherwise every match's `data()` is collected in index order. The awaits are
  flattened into sequential steps.

  The component keeps the query typed into the input, the results derived
  from it, and whether the native dialog is shown as a modal.
 */
module SearchDialog {
  import opened Wrappers

  /** What a match's `data()` resolves to: the dialog links to `url` and shows `content`. */
  datatype ResultData = ResultData(url: string, content: string)

  /** One raw match of the index; `data` is what its `data()` accessor resolves to. */
  datatype Match = Match(id: string, data: ResultData)

  /** The options object handed to the index; the source always passes `{}`. */
  type SearchOptions = map<string, string>

  const EmptyOptions: SearchOptions := map[]

  /** The debounce interval, in milliseconds, of every index lookup. */
  const DebounceMs: nat := 200

  /** One call of `debouncedSearch`, as the index sees it. */
  datatype SearchCall = SearchCall(query: string, options: SearchOptions, intervalMs: nat)

  /** The index module `/pagefind/pagefind.js`, seen from outside: it counts
      `init()` calls and records every `debouncedSearch` call. `lookup` is what
      the prebuilt index answers; `None` stands for a falsy answer. */
  class Pagefind {
    const lookup: string -> Option<seq<Match>>
    var initCount: nat
    var calls: seq<SearchCall>

    constructor (lookup: string -> Option<seq<Match>>)
      ensures this.lookup == lookup && initCount == 0 && calls == []
    {
      this.lookup := lookup;
      initCount := 0;
      calls := [];
    }

    method Init()
      modifies this`initCount
      ensures initCount == old(initCount) + 1
    {
      initCount := initCount + 1;
    }

    method DebouncedSearch(query: string, options: SearchOptions, intervalMs: nat)
      returns (r: Option<seq<Match>>)
      modifies this`calls
      ensures r == lookup(query)
      ensures calls == old(calls) + [SearchCall(query, options, intervalMs)]
    {
      calls := calls + [SearchCall(query, options, intervalMs)];
      r := lookup(query);
    }
  }

  /** `Promise.all(results.map(r => r.data()))`: the payload of every match, in order. */
  function Collect(matches: seq<Match>): (items: seq<ResultData>)
    ensures |items| == |matches|
    ensures forall i :: 0 <= i < |matches| ==> items[i] == matches[i].data
  {
    if matches == [] then [] else [matches[0].data] + Collect(matches[1..])
  }

  /** What `search` returns once the index has answered. */
  function Results(answer: Option<seq<Match>>): seq<ResultData>
  {
    match answer
    case None => []
    case Some(matches) => Collect(matches)
  }

  /** What `search(query)` resolves to against an index answering `lookup`: an
      empty query and a falsy answer yield nothing, and otherwise there is one
      payload per match, in the index's order. */
  function SearchResults(lookup: string -> Option<seq<Match>>, query: string): (items: seq<ResultData>)
    ensures query == "" || lookup(query).None? ==> items == []
    ensures query != "" && lookup(query).Some? ==>
      var matches := lookup(query).value;
      |items| == |matches| && forall i :: 0 <= i < |matches| ==> items[i] == matches[i].data
  {
    if query == "" then [] else Results(lookup(query))
  }

  /** The observable effect of `search` calls on the index: whether the handle
      is set, how many imports and `init()` calls ran, and every lookup issued. */
  datatype SearchState = SearchState(loaded: bool, loads: nat, inits: nat, calls: seq<SearchCall>)

  const Unloaded := SearchState(false, 0, 0, [])

  /** The effect of one `search(query)` call: an empty query touches nothing;
      any other query leaves the handle set, imports and initialises the module
      only if the handle was not set, and issues exactly one lookup, appended
      after the earlier ones, with empty options and a 200 ms interval. */
  function SearchStep(st: SearchState, query: string): (r: SearchState)
    ensures query == "" ==> r == st
    ensures query != "" ==> r.loaded && r.calls == st.calls + [SearchCall(query, EmptyOptions, DebounceMs)]
    ensures query != "" && st.loaded ==> r.loads == st.loads && r.inits == st.inits
    ensures query != "" && !st.loaded ==> r.loads == st.loads + 1 && r.inits == st.inits + 1
  {
    if query == "" then st
    else
      var ready := if st.loaded then st else st.(loaded := true, loads := st.loads + 1, inits := st.inits + 1);
      ready.(calls := ready.calls + [SearchCall(query, EmptyOptions, DebounceMs)])
  }

  /** The effect of a sequential run of `search` calls, one after the other. */
  function RunQueries(st: SearchState, queries: seq<string>): SearchState
    decreases |queries|
  {
    if queries == [] then st else RunQueries(SearchStep(st, queries[0]), queries[1..])
  }

  /** The non-empty queries of a run, in order. */
  function NonEmpty(queries: seq<string>): seq<string>
  {
    if queries == [] then []
    else (if queries[0] == "" then [] else [queries[0]]) + NonEmpty(queries[1..])
  }

  /** Over any sequential run, the index is imported and initialised exactly
      once if some query is non-empty and the handle was not yet set, and never
      otherwise; every non-empty query, and only those, reaches
      `debouncedSearch` with empty options and a 200 ms interval, in order. */
  lemma {:induction false} RunQueriesEffect(st: SearchState, queries: seq<string>)
    ensures var ne := NonEmpty(queries); var st' := RunQueries(st, queries);
      && st'.loaded == (st.loaded || ne != [])
      && st'.loads == st.loads + (if !st.loaded && ne != [] then 1 else 0)
      && st'.inits == st.inits + (if !st.loaded && ne != [] then 1 else 0)
      && |st'.calls| == |st.calls| + |ne|
      && st'.calls[..|st.calls|] == st.calls
      && forall i :: 0 <= i < |ne| ==> st'.calls[|st.calls| + i] == SearchCall(ne[i], EmptyOptions, DebounceMs)
    decreases |queries|
  {
    if queries != [] {
      var q, rest := queries[0], queries[1..];
      var mid := SearchStep(st, q);
      RunQueriesEffect(mid, rest);
      var ne, neRest := NonEmpty(queries), NonEmpty(rest);
      var st' := RunQueries(st, queries);
      assert st' == RunQueries(mid, rest);
      if q == "" {
        assert ne == neRest;
      } else {
        assert ne == [q] + neRest;
        assert |mid.calls| == |st.calls| + 1;
        assert mid.calls[..|st.calls|] == st.calls;
        assert st'.calls[..|mid.calls|] == mid.calls;
        assert st'.calls[..|st.calls|] == mid.calls[..|st.calls|];
        forall i | 0 <= i < |ne|
          ensures st'.calls[|st.calls| + i] == SearchCall(ne[i], EmptyOptions, DebounceMs)
        {
          if i == 0 {
            assert st'.calls[|st.calls|] == mid.calls[|st.calls|];
          } else {
            assert ne[i] == neRest[i - 1];
            assert |st.calls| + i == |mid.calls| + (i - 1);
          }
        }
      }
    }
  }

  /** Init-once: from a page's start, any sequential run of queries runs the
      import and `init()` at most once. */
  lemma InitAtMostOnce(queries: seq<string>)
    ensures RunQueries(Unloaded, queries).inits <= 1
    ensures RunQueries(Unloaded, queries).loads <= 1
    ensures RunQueries(Unloaded, queries).inits == 1 <==> NonEmpty(queries) != []
  {
    RunQueriesEffect(Unloaded, queries);
  }

  /** The module-level state of SearchDialog.tsx: the `pagefind` handle, null
      until the first non-empty query. `imported` is the module that the dynamic
      import yields; modules are cached, so every import yields the same one. */
  class SearchIndex {
    const imported: Pagefind
    var pagefind: Pagefind?
    var loads: nat

    /** The handle is set exactly when the module was imported and initialised once. */
    ghost predicate Valid()
      reads this, imported
    {
      && (pagefind == null ==> loads == 0 && imported.initCount == 0 && imported.calls == [])
      && (pagefind != null ==> pagefind == imported && loads == 1 && imported.initCount == 1)
    }

    ghost function State(): SearchState
      reads this, imported
    {
      SearchState(pagefind != null, loads, imported.initCount, imported.calls)
    }

    constructor (imported: Pagefind)
      requires imported.initCount == 0 && imported.calls == []
      ensures Valid() && this.imported == imported && State() == Unloaded
    {
      this.imported := imported;
      pagefind := null;
      loads := 0;
    }

    /** `search(query)`, with the awaits flattened into sequential steps. */
    method Search(query: string) returns (items: seq<ResultData>)
      requires Valid()
      modifies this, imported
      ensures Valid()
      ensures State() == SearchStep(old(State()), query)
      ensures items == SearchResults(imported.lookup, query)
      ensures query == "" ==> unchanged(this) && unchanged(imported)
    {
      if query == "" {
        return [];
      }
      if pagefind == null {
        pagefind := imported;
        loads := loads + 1;
        pagefind.Init();
      }
      var result := pagefind.DebouncedSearch(query, EmptyOptions, DebounceMs);
      if result.None? {
        return [];
      }
      items := Collect(result.value);
    }
  }

  /** The dialog component: the query in the input, the results derived from
      it, and whether the native `<dialog>` is shown as a modal. */
  class Dialog {
    const searcher: SearchIndex
    var query: string
    var results: seq<ResultData>
    var shown: bool

    /** The results on display are those of the latest query. */
    ghost predicate Valid()
      reads this, searcher, searcher.imported
    {
      searcher.Valid() && results == SearchResults(searcher.imported.lookup, query)
    }

    constructor (searcher: SearchIndex)
      requires searcher.Valid()
      ensures Valid() && this.searcher == searcher
      ensures query == "" && results == [] && !shown
    {
      this.searcher := searcher;
      query := "";
      results := [];
      shown := false;
    }

    /** An input event: the query signal takes the input's value. Solid ignores
        a write equal to the current value, so the resource searches again only
        when the query changes; otherwise nothing happens. */
    method OnInput(value: string)
      requires Valid()
      modifies this, searcher, searcher.imported
      ensures Valid()
      ensures query == value && shown == old(shown)
      ensures results == SearchResults(searcher.imported.lookup, value)
      ensures value != old(query) ==> searcher.State() == SearchStep(old(searcher.State()), value)
      ensures value == old(query) ==> unchanged(this, searcher, searcher.imported)
    {
      if value != query {
        query := value;
        results := searcher.Search(value);
      }
    }

    /** The effect on the open flag: `showModal()` when it is true, `close()` otherwise. */
    method Follow(open: bool)
      modifies this`shown
      ensures shown == open
    {
      shown := open;
    }
  }
}
