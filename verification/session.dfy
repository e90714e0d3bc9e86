/** The application's session: the module-level variables of the page
    (`countriesData`, `selectedRegion`, `searchQuery`, `isFetchingData`), the
    location and history, and the visibility of views and messages, as one
    immutable value changed by events. An asynchronous call is split into
    the event that sends it and the event that delivers its outcome. */
module Session {
  import opened Wrappers
  import opened Countries
  import opened Search
  import opened Router
  import opened Borders
  import opened Views

  /** Which of the two top-level views is not hidden. */
  datatype Screen = HomeScreen | DetailScreen

  /** The address bar, the history stack and the view shown. */
  datatype Nav = Nav(location: string, history: seq<string>, screen: Screen)

  /** The home view: its three messages and the cards of its grid. */
  datatype HomePanel = HomePanel(loading: bool, error: bool, noResults: bool, grid: seq<Card>)

  /** The detail view: its two messages, the page written into it, and the
      codes of the detail requests sent and not yet answered, oldest first. */
  datatype DetailPanel = DetailPanel(loading: bool, error: bool, content: Option<DetailPage>,
                                     pending: seq<string>)

  datatype State = State(
    countries: seq<Summary>,
    selectedRegion: string,
    searchQuery: string,
    isFetching: bool,
    bulkSent: nat,       // bulk listing requests sent so far
    bulkAnswered: nat,   // bulk listing responses handled so far
    nav: Nav,
    home: HomePanel,
    detail: DetailPanel
  )

  /** The page before the first route is handled: nothing loaded, home view
      shown, every message hidden. */
  function Blank(path: string): (s: State)
    ensures s.countries == [] && !s.isFetching && s.bulkSent == 0
    ensures s.selectedRegion == AllRegions && s.searchQuery == []
    ensures s.nav.location == path && s.nav.history == [path]
    ensures s.nav.screen == HomeScreen
    ensures !s.home.loading && !s.home.error && !s.home.noResults && s.home.grid == []
    ensures !s.detail.loading && !s.detail.error && s.detail.content.None? && s.detail.pending == []
  {
    State([], AllRegions, [], false, 0, 0, Nav(path, [path], HomeScreen),
          HomePanel(false, false, false, []), DetailPanel(false, false, None, []))
  }

  // ---------------------------------------------------------------------
  // Home view
  // ---------------------------------------------------------------------

  /** The grid the current choices call for. */
  function Filtered(s: State): seq<Summary> {
    Filter(s.countries, s.searchQuery, s.selectedRegion)
  }

  /** `filterAndRenderGrid`: with the home view shown and a collection
      loaded, replaces the grid by one card per filtered country and shows
      the "no results" message exactly when there is none; otherwise does
      nothing. Nothing but the grid and that message changes. */
  function FilterAndRenderGrid(s: State): (r: State)
    ensures s.nav.screen != HomeScreen || s.countries == [] ==> r == s
    ensures s.nav.screen == HomeScreen && s.countries != [] ==>
              && |r.home.grid| == |Filtered(s)|
              && (forall i :: 0 <= i < |r.home.grid| ==> r.home.grid[i] == CardOf(Filtered(s)[i]))
              && (r.home.noResults <==> Filtered(s) == [])
    ensures r.home.loading == s.home.loading && r.home.error == s.home.error
    ensures r.(home := s.home) == s
  {
    if s.nav.screen != HomeScreen || s.countries == [] then s
    else
      var f := Filtered(s);
      s.(home := s.home.(grid := Cards(f), noResults := f == []))
  }

  /** The first half of `fetchAllCountries`: mark the fetch in flight, show
      the loading message, hide the others, empty the grid. */
  function BeginBulkFetch(s: State): (r: State)
    ensures r.isFetching && r.home.loading && !r.home.error && !r.home.noResults && r.home.grid == []
    ensures r.bulkSent == s.bulkSent + 1
    ensures r.(isFetching := s.isFetching, bulkSent := s.bulkSent, home := s.home) == s
  {
    s.(isFetching := true, bulkSent := s.bulkSent + 1, home := HomePanel(true, false, false, []))
  }

  /** What showing the home view does, `r` being the state after it and
      `s` the one before: the detail view and the collection, query and
      region stay; with no collection and no fetch in flight the listing is
      requested and only the loading message shows; with a collection the
      grid shows the current filter; otherwise the home panel stays. */
  ghost predicate HomeViewRendered(s: State, r: State) {
    && r.nav.screen == HomeScreen && r.detail == s.detail
    && r.countries == s.countries && r.selectedRegion == s.selectedRegion
    && r.searchQuery == s.searchQuery && r.bulkAnswered == s.bulkAnswered
    && (s.countries == [] && !s.isFetching ==>
          r.isFetching && r.bulkSent == s.bulkSent + 1 && r.home == HomePanel(true, false, false, []))
    && (s.countries != [] ==>
          && r.isFetching == s.isFetching && r.bulkSent == s.bulkSent
          && r.home.grid == Cards(Filtered(s)) && (r.home.noResults <==> Filtered(s) == [])
          && r.home.loading == s.home.loading && r.home.error == s.home.error)
    && (s.countries == [] && s.isFetching ==>
          r.isFetching && r.bulkSent == s.bulkSent && r.home == s.home)
  }

  /** `renderHomeView`: show the home view; fetch the listing when there is
      none and no fetch is in flight, otherwise re-render the grid if there
      is a collection. */
  function RenderHomeView(s: State): (r: State)
    ensures HomeViewRendered(s, r)
    ensures r.nav == s.nav.(screen := HomeScreen)
  {
    var shown := s.(nav := s.nav.(screen := HomeScreen));
    if s.countries == [] && !s.isFetching then BeginBulkFetch(shown)
    else if s.countries != [] then FilterAndRenderGrid(shown)
    else shown
  }

  /** The second half of `fetchAllCountries`: on success the collection is
      replaced and the grid re-rendered, on failure the error message is
      shown and the collection kept; either way the fetch is over and the
      loading message hidden. */
  function CompleteBulkFetch(s: State, outcome: Result<seq<Summary>, FetchError>): (r: State)
    requires s.isFetching
    ensures !r.isFetching && !r.home.loading && r.bulkAnswered == s.bulkAnswered + 1
    ensures r.bulkSent == s.bulkSent && r.nav == s.nav && r.detail == s.detail
    ensures r.selectedRegion == s.selectedRegion && r.searchQuery == s.searchQuery
    ensures outcome.Failure? ==>
              && r.countries == s.countries && r.home.error
              && r.home.grid == s.home.grid && r.home.noResults == s.home.noResults
    ensures outcome.Success? ==> r.countries == outcome.value && r.home.error == s.home.error
    ensures outcome.Success? && s.nav.screen == HomeScreen && outcome.value != [] ==>
              var f := Filter(outcome.value, s.searchQuery, s.selectedRegion);
              r.home.grid == Cards(f) && (r.home.noResults <==> f == [])
    ensures outcome.Success? && (s.nav.screen != HomeScreen || outcome.value == []) ==>
              r.home.grid == s.home.grid && r.home.noResults == s.home.noResults
  {
    var r := match outcome
      case Success(data) => FilterAndRenderGrid(s.(countries := data))
      case Failure(_) => s.(home := s.home.(error := true));
    r.(isFetching := false, bulkAnswered := s.bulkAnswered + 1, home := r.home.(loading := false))
  }

  // ---------------------------------------------------------------------
  // Detail view
  // ---------------------------------------------------------------------

  /** What opening the detail view of `code` does, `r` being the state
      after it and `s` the one before: the detail view shows, empty, with
      its loading message and without its error message, a request for
      `code` is outstanding, and nothing outside navigation and the detail
      view changes. */
  ghost predicate DetailViewOpened(s: State, r: State, code: string) {
    && r.nav.screen == DetailScreen
    && r.detail.content.None? && r.detail.loading && !r.detail.error
    && r.detail.pending == s.detail.pending + [code]
    && r.(nav := s.nav, detail := s.detail) == s
  }

  /** The first half of `renderDetailView`: show the detail view, empty it,
      show its loading message, hide its error message, send the request. */
  function BeginDetailView(s: State, code: string): (r: State)
    ensures DetailViewOpened(s, r, code)
    ensures r.nav == s.nav.(screen := DetailScreen)
  {
    s.(nav := s.nav.(screen := DetailScreen),
       detail := DetailPanel(true, false, None, s.detail.pending + [code]))
  }

  /** Removes entry `k` of a sequence. */
  function RemoveAt<T>(xs: seq<T>, k: nat): (r: seq<T>)
    requires k < |xs|
    ensures |r| == |xs| - 1
    ensures forall i :: 0 <= i < k ==> r[i] == xs[i]
    ensures forall i :: k <= i < |r| ==> r[i] == xs[i + 1]
  {
    xs[..k] + xs[k + 1..]
  }

  /** The second half of `renderDetailView` for pending request `k`: write
      the page on success, show the error on failure, hide the loading
      message either way. As in the page itself, nothing checks that the
      detail view is still the one shown. */
  function CompleteDetailView(s: State, k: nat, outcome: Result<DetailRecord, FetchError>,
                              batch: Result<seq<NameEntry>, FetchError>): (r: State)
    requires k < |s.detail.pending|
    ensures !r.detail.loading && r.detail.pending == RemoveAt(s.detail.pending, k)
    ensures outcome.Success? ==> r.detail.content == Some(DetailPageOf(outcome.value, s.countries, batch))
    ensures outcome.Success? ==> r.detail.error == s.detail.error
    ensures outcome.Failure? ==> r.detail.error && r.detail.content == s.detail.content
    ensures r.(detail := s.detail) == s
  {
    var d := s.detail.(pending := RemoveAt(s.detail.pending, k), loading := false);
    match outcome
    case Success(rec) => s.(detail := d.(content := Some(DetailPageOf(rec, s.countries, batch))))
    case Failure(_) => s.(detail := d.(error := true))
  }

  // ---------------------------------------------------------------------
  // Routing
  // ---------------------------------------------------------------------

  /** `handleRoute` on the current location, redirects included: a
      redirect pushes "/" and renders home. */
  function HandleRoute(s: State): (r: State)
    requires NoEscapes(s.nav.location)
    ensures Settle(s.nav.location).route == Home ==> HomeViewRendered(s, r)
    ensures Settle(s.nav.location).route.Detail? ==>
              DetailViewOpened(s, r, Settle(s.nav.location).route.code)
    ensures r.nav.history == s.nav.history + Settle(s.nav.location).pushed
    ensures r.nav.location == if Resolve(s.nav.location).Redirect? then RootPath else s.nav.location
  {
    var settled := Settle(s.nav.location);
    var s1 := if settled.pushed == [] then s
              else s.(nav := s.nav.(location := RootPath, history := s.nav.history + settled.pushed));
    match settled.route
    case Home => RenderHomeView(s1)
    case Detail(code) => BeginDetailView(s1, code)
  }

  /** `navigateTo(path)`: push the path, then handle it: the view `path`
      settles on is shown, after `path` and any redirect are pushed. */
  function NavigateTo(s: State, path: string): (r: State)
    requires NoEscapes(path)
    ensures r.nav.history == s.nav.history + [path] + Settle(path).pushed
    ensures r.nav.location == if Resolve(path).Redirect? then RootPath else path
    ensures Settle(path).route == Home ==> HomeViewRendered(s, r)
    ensures Settle(path).route.Detail? ==> DetailViewOpened(s, r, Settle(path).route.code)
  {
    HandleRoute(s.(nav := s.nav.(location := path, history := s.nav.history + [path])))
  }

  /** The application after `initApp` handled the address it was opened at:
      home with the listing requested, or the detail view of the address's
      code with its request outstanding. */
  function Start(path: string): (r: State)
    requires NoEscapes(path)
    ensures r.countries == [] && r.nav.history == [path] + Settle(path).pushed
    ensures Settle(path).route == Home ==>
              r.nav.screen == HomeScreen && r.isFetching && r.bulkSent == 1
              && r.home == HomePanel(true, false, false, [])
    ensures Settle(path).route.Detail? ==>
              r.nav.screen == DetailScreen && !r.isFetching && r.bulkSent == 0
              && r.detail.pending == [Settle(path).route.code]
  {
    HandleRoute(Blank(path))
  }

  // ---------------------------------------------------------------------
  // Events
  // ---------------------------------------------------------------------

  datatype Event =
    | Navigate(path: string)         // a card, a border tag or the back button
    | PopState(path: string)         // the browser's back or forward button
    | SearchInput(raw: string)       // the search box's value changed
    | RegionPicked(region: string)   // a region of the dropdown was clicked
    | BulkResponse(listing: Result<seq<Summary>, FetchError>)
    | DetailResponse(request: nat, record: Result<DetailRecord, FetchError>,
                     batch: Result<seq<NameEntry>, FetchError>)

  /** Whether an event can happen now: a path must be one the URL parser
      keeps as it is, and a response needs its request to be outstanding. */
  predicate Enabled(s: State, e: Event) {
    match e
    case Navigate(path) => IsStablePath(path)
    case PopState(path) => IsStablePath(path)
    case SearchInput(_) => true
    case RegionPicked(_) => true
    case BulkResponse(_) => s.isFetching
    case DetailResponse(k, _, _) => k < |s.detail.pending|
  }

  /** The page's reaction to one event. */
  function Step(s: State, e: Event): (r: State)
    requires Enabled(s, e)
    ensures NoEscapes(s.nav.location) ==> NoEscapes(r.nav.location)
    ensures IsStablePath(s.nav.location) ==> IsStablePath(r.nav.location)
  {
    match e
    case Navigate(path) => NavigateTo(s, path)
    case PopState(path) => HandleRoute(s.(nav := s.nav.(location := path)))
    case SearchInput(raw) => FilterAndRenderGrid(s.(searchQuery := NormalizeQuery(raw)))
    case RegionPicked(region) => FilterAndRenderGrid(s.(selectedRegion := region))
    case BulkResponse(outcome) => CompleteBulkFetch(s, outcome)
    case DetailResponse(k, outcome, batch) => CompleteDetailView(s, k, outcome, batch)
  }

  // ---------------------------------------------------------------------
  // The session invariant
  // ---------------------------------------------------------------------

  /** The home grid and "no results" message agree with the collection,
      the query and the region. */
  ghost predicate GridShowsFilter(s: State) {
    s.home.grid == Cards(Filtered(s)) && (s.home.noResults <==> Filtered(s) == [])
  }

  /** What holds in every state the page can reach; among other things, at
      most one listing request is outstanding. */
  ghost predicate Inv(s: State)
    ensures Inv(s) ==> s.bulkAnswered <= s.bulkSent <= s.bulkAnswered + 1
  {
    && Consistent(s)
    // a shown home view is up to date
    && (s.nav.screen == HomeScreen && s.countries != [] ==> GridShowsFilter(s))
  }

  /** The part of the invariant that a change of query or region keeps
      before the grid is re-rendered. */
  ghost predicate Consistent(s: State) {
    // at most one bulk request is ever outstanding, and it is the one
    // `isFetchingData` records
    && s.bulkSent == s.bulkAnswered + (if s.isFetching then 1 else 0)
    && HomeConsistent(s.home, s.countries, s.isFetching)
    // the detail view's loading message shows only while a request is
    // outstanding, and never with its error message
    && (s.detail.loading ==> s.detail.pending != [])
    && !(s.detail.loading && s.detail.error)
    && NoEscapes(s.nav.location)
  }

  /** The home view's messages agree with each other, with the collection
      and with the fetch flag. */
  ghost predicate HomeConsistent(h: HomePanel, countries: seq<Summary>, isFetching: bool) {
    // while the listing is fetched only the loading message shows
    && (isFetching ==> countries == [] && h.loading && !h.error && !h.noResults && h.grid == [])
    && (!isFetching ==> !h.loading)
    // the error message and the "no results" message exclude cards
    && (h.error ==> countries == [] && h.grid == [] && !h.noResults)
    && (h.noResults ==> countries != [] && h.grid == [])
    && (h.grid != [] ==> countries != [])
  }

  lemma CardsEmpty(cs: seq<Summary>)
    ensures Cards(cs) == [] <==> cs == []
  {
  }

  lemma StartInv(path: string)
    requires NoEscapes(path)
    ensures Inv(Start(path))
  {
  }

  lemma FilterAndRenderGridInv(s: State)
    requires Consistent(s)
    ensures Inv(FilterAndRenderGrid(s))
  {
    CardsEmpty(Filtered(s));
  }

  lemma RenderHomeViewInv(s: State)
    requires Inv(s)
    ensures Inv(RenderHomeView(s))
  {
    var shown := s.(nav := s.nav.(screen := HomeScreen));
    if s.countries != [] {
      CardsEmpty(Filtered(shown));
    }
  }

  lemma HandleRouteInv(s: State)
    requires Inv(s)
    ensures Inv(HandleRoute(s))
  {
    var settled := Settle(s.nav.location);
    var s1 := if settled.pushed == [] then s
              else s.(nav := s.nav.(location := RootPath, history := s.nav.history + settled.pushed));
    assert Inv(s1);
    if settled.route == Home {
      RenderHomeViewInv(s1);
    }
  }

  /** Every event keeps the invariant. */
  lemma StepInv(s: State, e: Event)
    requires Inv(s) && Enabled(s, e)
    ensures Inv(Step(s, e))
  {
    match e
    case Navigate(path) =>
      HandleRouteInv(s.(nav := s.nav.(location := path, history := s.nav.history + [path])));
    case PopState(path) =>
      HandleRouteInv(s.(nav := s.nav.(location := path)));
    case SearchInput(raw) =>
      FilterAndRenderGridInv(s.(searchQuery := NormalizeQuery(raw)));
    case RegionPicked(region) =>
      FilterAndRenderGridInv(s.(selectedRegion := region));
    case BulkResponse(outcome) =>
      if outcome.Success? {
        var s1 := s.(countries := outcome.value);
        CardsEmpty(Filtered(s1));
      }
    case DetailResponse(k, outcome, batch) =>
  }

  // ---------------------------------------------------------------------
  // Consequences
  // ---------------------------------------------------------------------

  /** The loading, error and "no results" messages are never shown two at a
      time, and none of them is shown next to a card. */
  lemma MessagesExclusive(s: State)
    requires Inv(s)
    ensures !(s.home.loading && s.home.error) && !(s.home.loading && s.home.noResults)
    ensures !(s.home.error && s.home.noResults)
    ensures s.home.grid != [] ==> !s.home.loading && !s.home.error && !s.home.noResults
  {
  }

  /** A bulk response sets the error message exactly when it is a failure. */
  lemma BulkErrorOnlyOnFailure(s: State, outcome: Result<seq<Summary>, FetchError>)
    requires Inv(s) && s.isFetching
    ensures CompleteBulkFetch(s, outcome).home.error <==> outcome.Failure?
  {
  }

  /** Whatever arrives while the listing is being fetched leaves the fetch
      alone: no second request is sent and the collection stays empty until
      the response is handled. */
  lemma NoSecondBulkFetch(s: State, e: Event)
    requires Inv(s) && Enabled(s, e) && s.isFetching && !e.BulkResponse?
    ensures Step(s, e).isFetching && Step(s, e).bulkSent == s.bulkSent
    ensures Step(s, e).countries == s.countries
  {
  }

  /** Only a successful listing response writes the collection: no other
      event, and no failed response, changes it. */
  lemma OnlySuccessfulListingWrites(s: State, e: Event)
    requires Enabled(s, e)
    ensures Step(s, e).countries != s.countries ==> e.BulkResponse? && e.listing.Success?
  {
  }

  /** The detail view's loading and error messages never show together. */
  lemma DetailMessagesExclusive(s: State)
    requires Inv(s)
    ensures !(s.detail.loading && s.detail.error)
    ensures s.detail.loading ==> s.detail.pending != []
  {
  }

  /** Opening the home page with nothing cached shows the loading message;
      the response then shows either a full grid or the error message,
      never both. An empty listing shows neither. */
  lemma FirstLoad(outcome: Result<seq<Summary>, FetchError>)
    ensures Start(RootPath).home.loading && Start(RootPath).isFetching
    ensures var s := CompleteBulkFetch(Start(RootPath), outcome);
      && !s.home.loading
      && (outcome.Success? ==> !s.home.error && !s.home.noResults && s.home.grid == Cards(outcome.value))
      && (outcome.Failure? ==> s.home.error && s.home.grid == [] && s.countries == [])
  {
    if outcome.Success? {
      FilterIdentity(outcome.value);
    }
  }

  /** A region choice that, with the current query, keeps no country shows
      the "no results" message and not the error message. */
  lemma NoMatchShowsNoResults(s: State, region: string)
    requires Inv(s) && s.nav.screen == HomeScreen && s.countries != []
    requires forall i :: 0 <= i < |s.countries| ==> !Matches(s.countries[i], s.searchQuery, region)
    ensures var r := Step(s, RegionPicked(region));
            r.home.noResults && !r.home.error && r.home.grid == []
  {
    FilterEmptyIff(s.countries, s.searchQuery, region);
  }

  /** A malformed address is replaced by "/" in the history and the home
      view is shown. */
  lemma MalformedPathRedirects(s: State, path: string)
    requires Inv(s) && IsStablePath(path) && !IsHomePath(path) && |Segment(path)| != 3
    ensures var r := Step(s, Navigate(path));
            r.nav.screen == HomeScreen && r.nav.location == RootPath
            && r.nav.history == s.nav.history + [path, RootPath]
  {
  }

  /** The page does not guard the detail view against late responses: open
      one country, go on to another, and let the second response arrive
      before the first; the page written last is the first country's while
      the address names the second. */
  lemma LateDetailResponseWins(a: string, b: string, recA: DetailRecord, recB: DetailRecord,
                               batch: Result<seq<NameEntry>, FetchError>)
    requires IsCountryCode(a) && IsCountryCode(b)
    ensures var s0 := Start(CodePath(a));
            var s1 := Step(s0, Navigate(CodePath(b)));
            var s2 := Step(s1, DetailResponse(1, Success(recB), batch));
            var s3 := Step(s2, DetailResponse(0, Success(recA), batch));
            && s1.detail.pending == [a, b]
            && s3.nav.location == CodePath(b) && s3.nav.screen == DetailScreen
            && s3.detail.content == Some(DetailPageOf(recA, [], batch))
  {
    var s0 := Start(CodePath(a));
    assert s0.detail.pending == [a] && s0.countries == [];
    var s1 := Step(s0, Navigate(CodePath(b)));
    assert s1.detail.pending == [a, b] && s1.countries == [];
    var s2 := Step(s1, DetailResponse(1, Success(recB), batch));
    assert s2.detail.pending == [a] && s2.countries == [];
  }

  /** Out-of-order responses can leave the detail view showing a page and
      its error message at once: the second country's page is written, then
      the first country's request fails. */
  lemma LateFailureShowsBoth(a: string, b: string, recB: DetailRecord, err: FetchError,
                             batch: Result<seq<NameEntry>, FetchError>)
    requires IsCountryCode(a) && IsCountryCode(b)
    ensures var s0 := Start(CodePath(a));
            var s1 := Step(s0, Navigate(CodePath(b)));
            var s2 := Step(s1, DetailResponse(1, Success(recB), batch));
            var s3 := Step(s2, DetailResponse(0, Failure(err), batch));
            && s3.nav.location == CodePath(b) && s3.nav.screen == DetailScreen
            && s3.detail.content == Some(DetailPageOf(recB, [], batch))
            && s3.detail.error && !s3.detail.loading
  {
    var s0 := Start(CodePath(a));
    assert s0.detail.pending == [a] && s0.countries == [];
    var s1 := Step(s0, Navigate(CodePath(b)));
    assert s1.detail.pending == [a, b] && s1.countries == [];
    var s2 := Step(s1, DetailResponse(1, Success(recB), batch));
    assert s2.detail.pending == [a] && s2.countries == [];
  }
}
