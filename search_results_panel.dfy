/**
  The infinite-scroll results panel (components/search-results.tsx): each
  fetch asks for the next page of the current query and appends what comes
  back; opening the panel on a query starts again from the first page.

  The server action answers through a `fetch` parameter from (query, platform,
  page) to how its promise settles. The IntersectionObserver that triggers the
  next fetch is not modelled: `FetchMoreResults` is what it calls.
*/
module SearchResultsPanel {
  import opened Wrappers
  import opened Actions
  import opened SearchActions

  /** What `fetchResults` resolves to. */
  datatype ResultPage = ResultPage(results: seq<SearchResult>, hasMore: bool)

  type Fetcher = (string, string, nat) -> Settled<ResultPage>

  const NoResultsMessage := "Geen resultaten gevonden. Probeer een andere zoekopdracht."
  const FetchFailedMessage := "Er is een fout opgetreden bij het ophalen van de zoekresultaten. Probeer het later opnieuw."

  /** The pages 0, 1, ..., n - 1. */
  function Upto(n: nat): (pages: seq<nat>)
    ensures |pages| == n && forall i :: 0 <= i < n ==> pages[i] == i
  {
    seq(n, i requires 0 <= i < n => i)
  }

  class Panel {
    var query: string
    var platform: string
    var isOpen: bool
    var results: seq<SearchResult>
    var loading: bool
    var error: Option<string>
    var page: nat
    var hasMore: bool
    /** The pages whose results `results` holds, in order. */
    ghost var shownPages: seq<nat>

    /** The pages appended so far are 0 to `page` - 1, and nothing has been
        appended at page 0. */
    ghost predicate Valid()
      reads this
    {
      shownPages == Upto(page) && (page == 0 ==> results == [])
    }

    constructor(query: string, platform: string, isOpen: bool)
      ensures Valid()
      ensures this.query == query && this.platform == platform && this.isOpen == isOpen
      ensures results == [] && !loading && error == None && page == 0 && hasMore
    {
      this.query := query;
      this.platform := platform;
      this.isOpen := isOpen;
      results := [];
      loading := false;
      error := None;
      page := 0;
      hasMore := true;
      shownPages := [];
    }

    /** `fetchMoreResults`: no-op while loading or without a query; an empty
        first page is an error; otherwise the page is appended and the next one
        becomes current. Returns the page it asked for. */
    method FetchMoreResults(fetch: Fetcher) returns (requested: Option<nat>)
      modifies this
      ensures old(Valid()) ==> Valid()
      ensures old(loading) || old(query) == "" ==>
                requested == None && results == old(results) && page == old(page)
                && error == old(error) && hasMore == old(hasMore) && loading == old(loading)
      ensures !old(loading) && old(query) != "" ==> requested == Some(old(page)) && !loading
      ensures !old(loading) && old(query) != "" ==>
                match fetch(old(query), old(platform), old(page))
                case Resolved(p) =>
                  if |p.results| == 0 && old(page) == 0 then
                    error == Some(NoResultsMessage) && results == old(results)
                    && page == old(page) && hasMore == old(hasMore)
                  else
                    error == None && results == old(results) + p.results
                    && page == old(page) + 1 && hasMore == p.hasMore
                case Rejected(_) =>
                  error == Some(FetchFailedMessage) && results == old(results)
                  && page == old(page) && hasMore == old(hasMore)
      ensures query == old(query) && platform == old(platform) && isOpen == old(isOpen)
    {
      if loading || query == "" {
        return None;
      }
      loading := true;
      error := None;
      requested := Some(page);
      var response := fetch(query, platform, page);
      match response {
        case Resolved(p) =>
          if |p.results| == 0 && page == 0 {
            error := Some(NoResultsMessage);
          } else {
            results := results + p.results;
            hasMore := p.hasMore;
            shownPages := shownPages + [page];
            page := page + 1;
          }
        case Rejected(_) =>
          error := Some(FetchFailedMessage);
      }
      loading := false;
    }

    /** New props: the query, platform and open flag the panel is shown with. */
    method SetProps(query: string, platform: string, isOpen: bool)
      modifies this
      ensures old(Valid()) ==> Valid()
      ensures this.query == query && this.platform == platform && this.isOpen == isOpen
      ensures results == old(results) && loading == old(loading) && error == old(error)
      ensures page == old(page) && hasMore == old(hasMore) && shownPages == old(shownPages)
    {
      this.query := query;
      this.platform := platform;
      this.isOpen := isOpen;
    }

    /** The reset effect as evidently intended: the first fetch after a reset
        asks for page 0, so the panel shows the query's first page. */
    method ResetEffect(fetch: Fetcher) returns (requested: Option<nat>)
      requires Valid()
      modifies this
      ensures Valid()
      ensures !(isOpen && query != "") ==>
                requested == None && results == old(results) && page == old(page)
                && error == old(error) && hasMore == old(hasMore) && loading == old(loading)
      ensures isOpen && query != "" && old(loading) ==>
                requested == None && results == [] && page == 0 && hasMore && error == None && loading
      ensures isOpen && query != "" && !old(loading) ==> requested == Some(0) && !loading
      ensures isOpen && query != "" && !old(loading) ==>
                match fetch(query, platform, 0)
                case Resolved(p) =>
                  if |p.results| == 0 then error == Some(NoResultsMessage) && results == [] && page == 0 && hasMore
                  else results == p.results && page == 1 && hasMore == p.hasMore && error == None
                case Rejected(_) => error == Some(FetchFailedMessage) && results == [] && page == 0 && hasMore
      ensures query == old(query) && platform == old(platform) && isOpen == old(isOpen)
    {
      if !(isOpen && query != "") {
        return None;
      }
      results := [];
      page := 0;
      hasMore := true;
      error := None;
      shownPages := [];
      requested := FetchMoreResults(fetch);
    }

    /** The reset effect as written: the four resets only take effect at the
        next render, while the `fetchMoreResults` it calls still reads the
        render's old `page` and `loading`. It asks for the old page, tests that
        old page for emptiness, and then counts on from the reset page 0. */
    method ResetEffectAsWritten(fetch: Fetcher) returns (requested: Option<nat>)
      modifies this
      ensures !(isOpen && query != "") ==>
                requested == None && results == old(results) && loading == old(loading)
                && error == old(error) && page == old(page) && hasMore == old(hasMore)
                && shownPages == old(shownPages)
      ensures isOpen && query != "" && old(loading) ==>
                requested == None && results == [] && loading && error == None
                && page == 0 && hasMore && shownPages == []
      ensures isOpen && query != "" && !old(loading) ==> requested == Some(old(page)) && !loading
      ensures isOpen && query != "" && !old(loading) && fetch(query, platform, old(page)).Resolved?
              && |fetch(query, platform, old(page)).value.results| == 0 && old(page) == 0 ==>
                results == [] && error == Some(NoResultsMessage) && page == 0 && hasMore
                && shownPages == []
      ensures isOpen && query != "" && !old(loading) && fetch(query, platform, old(page)).Resolved?
              && (|fetch(query, platform, old(page)).value.results| > 0 || old(page) != 0) ==>
                results == fetch(query, platform, old(page)).value.results && page == 1
                && hasMore == fetch(query, platform, old(page)).value.hasMore && error == None
                && shownPages == [old(page)]
      ensures isOpen && query != "" && !old(loading) && fetch(query, platform, old(page)).Rejected? ==>
                results == [] && error == Some(FetchFailedMessage) && page == 0 && hasMore
                && shownPages == []
      ensures query == old(query) && platform == old(platform) && isOpen == old(isOpen)
    {
      if !(isOpen && query != "") {
        return None;
      }
      var stalePage := page;
      var staleLoading := loading;
      results := [];
      page := 0;
      hasMore := true;
      error := None;
      shownPages := [];
      if staleLoading {
        return None;
      }
      loading := true;
      requested := Some(stalePage);
      var response := fetch(query, platform, stalePage);
      match response {
        case Resolved(p) =>
          if |p.results| == 0 && stalePage == 0 {
            error := Some(NoResultsMessage);
          } else {
            results := results + p.results;
            hasMore := p.hasMore;
            shownPages := shownPages + [stalePage];
            page := page + 1;
          }
        case Rejected(_) =>
          error := Some(FetchFailedMessage);
      }
      loading := false;
    }
  }

  /** The stale reset does not stop the panel: the next scroll asks for page 1
      of the new query and appends it after the page-2 results the reset
      filed as the first page. */
  method StaleScrollContinues(fetch: Fetcher) returns (staleRequest: Option<nat>, nextRequest: Option<nat>, shown: seq<SearchResult>)
    requires fetch("java", "linkedin", 0).Resolved? && |fetch("java", "linkedin", 0).value.results| > 0
    requires fetch("java", "linkedin", 1).Resolved?
    requires fetch("java developer", "linkedin", 2).Resolved?
    requires fetch("java developer", "linkedin", 1).Resolved?
    ensures staleRequest == Some(2) && nextRequest == Some(1)
    ensures shown == fetch("java developer", "linkedin", 2).value.results
                     + fetch("java developer", "linkedin", 1).value.results
  {
    var panel := new Panel("java", "linkedin", true);
    var r0 := panel.FetchMoreResults(fetch);
    var r1 := panel.FetchMoreResults(fetch);
    panel.SetProps("java developer", "linkedin", true);
    staleRequest := panel.ResetEffectAsWritten(fetch);
    nextRequest := panel.FetchMoreResults(fetch);
    shown := panel.results;
  }

  /** A panel scrolled through two pages of one query and then opened on
      another: as written it asks for page 2 of the new query and files it as
      page 0, while the intended effect asks for page 0. */
  method StalePageExample(fetch: Fetcher) returns (staleRequest: Option<nat>, freshRequest: Option<nat>)
    requires fetch("java", "linkedin", 0).Resolved? && |fetch("java", "linkedin", 0).value.results| > 0
    requires fetch("java", "linkedin", 1).Resolved?
    requires fetch("java developer", "linkedin", 2).Resolved?
    requires |fetch("java developer", "linkedin", 2).value.results| > 0
    ensures staleRequest == Some(2) && freshRequest == Some(0)
  {
    var asWritten := new Panel("java", "linkedin", true);
    var r0 := asWritten.FetchMoreResults(fetch);
    var r1 := asWritten.FetchMoreResults(fetch);
    assert asWritten.page == 2;
    asWritten.SetProps("java developer", "linkedin", true);
    staleRequest := asWritten.ResetEffectAsWritten(fetch);
    assert asWritten.page == 1 && asWritten.shownPages == [2];
    assert Upto(1)[0] == 0 && asWritten.shownPages[0] == 2;
    assert !asWritten.Valid();

    var intended := new Panel("java", "linkedin", true);
    r0 := intended.FetchMoreResults(fetch);
    r1 := intended.FetchMoreResults(fetch);
    intended.SetProps("java developer", "linkedin", true);
    freshRequest := intended.ResetEffect(fetch);
  }
}
