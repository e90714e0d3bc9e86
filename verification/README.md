# NationIQ country browser — a Dafny model of its view-state core

NationIQ is a single-page application that lists countries from the REST
Countries API, filters them by a search box and a region dropdown, and shows
a detail page per country, all from one document with a small client-side
router. Its logic lives in `main.js`. This project models the part of that
file with real decisions in it, as pure functions over immutable values:

- **Search** (`filterAndRenderGrid`): the search query is trimmed and
  lower-cased; a country is kept when its lower-cased common name contains
  the query and the selected region is `"All"` or the country's own; order
  is kept; the "no results" message shows exactly when nothing is kept.
- **Router** (`handleRoute`, `navigateTo`): `"/"` and `"/index.html"` show
  home, a path whose part after the first character has exactly three
  characters shows that country, and anything else pushes `"/"`, which shows
  home one step later.
- **Borders** (`generateBorderTags`): each border code is named from the
  in-memory collection when it is populated, otherwise from the answer of a
  batch request, otherwise by the code itself; the request's failure never
  escapes.
- **Views**: the card fields and the detail-page fields derived from
  optional record fields ("first entry or N/A", "join with `, ` or N/A",
  `subregion || "N/A"`, the native-name fallback).
- **Session**: the page's module-level variables, the location and history,
  and the visibility of the views and messages, as one `State` changed by
  events (navigation, back/forward, search input, region choice, and the
  arrival of each response). Each listing and detail request is split into
  the event that sends it and the event that delivers its outcome, and the
  outcome is an input (`Result`).

Modules: `Wrappers` (Option, Result), `Text` (trim, toLowerCase, includes,
join), `Countries` (API records, first-match lookup), `Search`, `Router`,
`Borders`, `Views`, `Session`.

The central statement is `Session.Inv`, an invariant of every reachable
state, proved to hold at start (`Session.StartInv`) and to be kept by every
event (`Session.StepInv`). It says: at most one listing request is ever
outstanding, and it is the one `isFetchingData` records. While that request
is outstanding, only the loading message shows. The error and "no results"
messages never show next to a card. A home view on screen always shows
exactly the cards of the current filter.

Three behaviours of `main.js` that a reader might not expect, modelled as
written:

- The detail view has no check that it is still current when its response
  arrives, so a late response overwrites a newer page.
  `Session.LateDetailResponseWins` exhibits this, and
  `Session.LateFailureShowsBoth` shows a late failure putting the error
  message next to a page.
- A listing answered with an empty array shows neither a grid nor the error
  message (`Session.FirstLoad` states what each outcome shows).
- A `currencies` or `languages` object that is present but empty shows as the
  empty string, not `"N/A"`.

## Model

| member | source | states |
|---|---|---|
| `Text.IsWhitespace` | main.js:83 | the characters `trim` strips, none of which is an ASCII letter or digit |
| `Text.SkipForward` | main.js:83 | the scan from the front stops at the first non-whitespace character, everything it passed being whitespace |
| `Text.SkipBackward` | main.js:83 | the scan from the back stops after the last non-whitespace character, everything it passed being whitespace |
| `Text.Trim` | main.js:83 | the trimmed query is no longer than the input and neither starts nor ends with whitespace |
| `Text.TrimSplit` | main.js:83 | every string is whitespace, then its trimmed form, then whitespace |
| `Text.TrimOfPadded` | main.js:83 | a string with no whitespace at its edges, padded with whitespace on both sides, trims back to itself |
| `Text.TrimIgnoresPadding` | main.js:83 | extra whitespace around a string does not change its trimmed form |
| `Text.TrimIdempotent` | main.js:83 | trimming twice is trimming once |
| `Text.LowerChar` | main.js:83 | an ASCII capital moves to its small letter, any other character stays, and the result is never an ASCII capital |
| `Text.ToLower` | main.js:161-162 | lower-casing keeps the length, turns each character into its `LowerChar`, and leaves no ASCII capital |
| `Text.LowerCharWhitespace` | main.js:83 | lower-casing neither creates nor removes whitespace |
| `Text.ToLowerIdempotent` | main.js:161-162 | lower-casing twice is lower-casing once, and leaves no ASCII capital |
| `Text.ToLowerAppend` | main.js:161-162 | lower-casing distributes over concatenation |
| `Text.ToLowerSlice` | main.js:161-162 | lower-casing a piece of a name is the same piece of the lower-cased name |
| `Text.TrimToLowerCommute` | main.js:83 | trimming and lower-casing may be done in either order |
| `Text.IncludesFrom` | main.js:163 | the scan from index i finds only queries that fit after i, and finds one that sits at i |
| `Text.Includes` | main.js:163 | a query longer than the name is never found; the empty query and a prefix always are |
| `Text.IncludesFromIffOccurs` | main.js:161-163 | the `includes` scan from index i succeeds exactly when the query occurs at some index at or after i |
| `Text.IncludesIffOccurs` | main.js:161-163 | the `includes` scan succeeds exactly when the query occurs at some index of the name |
| `Text.IncludesEmpty` | main.js:161-163 | the empty query is contained in every name |
| `Text.Join` | main.js:244-252 | joining no parts gives "" and joining one part gives that part |
| `Text.JoinLength` | main.js:244-251 | a `join` is as long as its parts plus one separator between each two |
| `Text.JoinPartAt` | main.js:244-251 | every part of a `join` sits at its offset in the joined string |
| `Text.JoinSeparatorAt` | main.js:244-251 | a separator follows every part of a `join` except the last |
| `Countries.FirstIndex` | main.js:310 | `find` returns the first element meeting the condition, or none when no element meets it |
| `Countries.LookupName` | main.js:322-325 | the batch lookup finds a name exactly when some entry has the code, and it is the first such entry's name |
| `Countries.LookupUnique` | main.js:310-311 | with unique codes the name found is that of the one entry carrying the code |
| `Search.NormalizeQuery` | main.js:83 | the stored query has no ASCII capital and no leading or trailing whitespace |
| `Search.NormalizeIdempotent` | main.js:83 | normalising a stored query leaves it unchanged |
| `Search.NormalizeIgnoresPadding` | main.js:83 | whitespace typed around the query does not change the stored query |
| `Search.Matches` | main.js:161-166 | a query longer than the name never matches; a region other than "All" and the country's own never matches; the empty query under "All" always matches |
| `Search.Filter` | main.js:160-167 | every kept country is in the collection and matches, and the result is never longer than the collection |
| `Search.FilterMembership` | main.js:160-167 | a country is in the result exactly when it is in the collection and matches both name and region |
| `Search.FilterIsSubsequence` | main.js:160-167 | the result is a subsequence of the collection in its original order |
| `Search.FilterAppend` | main.js:160-167 | filtering a concatenation is concatenating the filtered parts |
| `Search.FilterAllMatch` | main.js:160-167 | when every country matches, nothing is dropped |
| `Search.FilterIdentity` | main.js:160-167 | query `""` with region `"All"` keeps the whole collection |
| `Search.FilterIdempotent` | main.js:160-167 | filtering a filtered result again with the same query and region changes nothing |
| `Search.FilterEmptyIff` | main.js:170-171 | the result is empty exactly when no country matches, which is when "no results" shows |
| `Search.CaseInsensitiveMatch` | main.js:161-163 | any piece of a country's name, typed in any ASCII case and with any whitespace around it, keeps that country under `"All"` |
| `Search.SearchExample` | main.js:160-167 | typing "FRA" keeps France |
| `Search.NormalizeFra` | main.js:83 | the stored form of "FRA" is "fra" |
| `Search.RegionGateExample` | main.js:164-165 | a European country is dropped when Asia is selected, whatever the query |
| `Router.Segment` | main.js:45 | `slice(1)` drops exactly the first character of the path |
| `Router.Resolve` | main.js:39-51 | home paths render home; a three-character segment renders that code's detail; every other path redirects to "/" |
| `Router.Settle` | main.js:34-52 | following redirects ends at Home or at a Detail whose code is the three-character segment; at most "/" is pushed, only on redirect |
| `Router.RedirectTerminates` | main.js:42-50 | a redirect's target resolves to Home at the next step, pushing only "/" |
| `Router.IsStablePath` | main.js:34-39 | a path the URL parser keeps as it is contains no `%`, so `decodeURIComponent` leaves it alone |
| `Router.CodePath` | main.js:204-211 | a card's path is "/" followed by its code, the URL parser keeps it as it is, and handling it shows that code's detail with no redirect |
| `Router.TagPath` | main.js:293-296 | a border tag navigates nowhere when its code is empty, else to exactly "/" followed by its code, unescaped; the URL parser keeps that path unless the code is "." or ".."; for a country code it is the card's path |
| `Router.PlainPathNoDotSegment` | main.js:295 | "/" followed by an unescaped code other than "." and ".." has no dot segment |
| `Router.TagPathOtherLength` | main.js:39-52 | a tag whose code is not three characters long, and not "." or "..", leads home, through a redirect to "/" unless the code spells "index.html" |
| `Router.ResolveExamples` | main.js:39-51 | "/xy" redirects home, "/FRA" opens FRA, "/" and "/index.html" are home |
| `Borders.DisplayName` | main.js:308-333 | a populated collection names the code; else a successful batch names it; a failed batch leaves the code; a code not found is its own name |
| `Borders.ResolveBorderNames` | main.js:306-334 | one tag per code, in order, code unchanged, name given by the collection, else the batch, else the code |
| `Borders.BatchFailureEchoes` | main.js:330-333 | with no collection and a failed batch request every name is its code, and the function still returns |
| `Borders.UnknownCodeExample` | main.js:330-333 | "XXX" with no cache and a failing batch is shown as "XXX" |
| `Borders.NameHasSource` | main.js:308-326 | a name that differs from its code is the common name of a record carrying that code, in the source the chain consulted |
| `Borders.CollectionNameUsed` | main.js:308-312 | a code present in a populated collection with unique codes is shown with that country's name |
| `Borders.BorderSectionOf` | main.js:232-235 | no or empty borders give the "N/A" paragraph; otherwise the resolved tags |
| `Views.FirstOrNA` | main.js:192-193 | capital or domain: the first entry of a non-empty list, else "N/A" |
| `Views.CardOf` | main.js:184-203 | a card shows the country's code, name, flag, population, region and first capital or "N/A" |
| `Views.Cards` | main.js:176-178 | exactly one card per filtered country, in order |
| `Views.NativeNameOf` | main.js:237-242 | the first native-name entry's common name when its key is truthy, else the common name |
| `Views.CurrenciesText` | main.js:244-248 | currency names joined by ", " when the field is present, else "N/A" |
| `Views.LanguagesText` | main.js:250-252 | language names joined by ", " when the field is present, else "N/A" |
| `Views.SubregionText` | main.js:272 | a missing or empty subregion shows "N/A" |
| `Views.FlagOf` | main.js:264 | the SVG flag when it is non-empty, else the PNG |
| `Views.DetailPageOf` | main.js:237-288 | every field of the detail page is its derived value, borders resolved against the collection and batch |
| `Views.DetailFieldsFallBack` | main.js:237-261 | capital and domain are "N/A" or an entry of their list; subregion is never blank; the native name is the common name or some native entry's name |
| `Views.CurrenciesShape` | main.js:244-248 | one currency shows its name alone; two show their names around one ", " |
| `Views.LanguagesListed` | main.js:250-252 | every language name appears in the languages line at its place in the list |
| `Session.Blank` | main.js:20-23 | the session starts with no countries, region "All", empty query, no fetch in flight, the home view shown, every message hidden, no detail page and no request sent |
| `Session.FilterAndRenderGrid` | main.js:156-182 | does nothing when home is hidden or the collection is empty; else one card per filtered country and "no results" iff none; nothing else changes |
| `Session.BeginBulkFetch` | main.js:132-137 | sending the listing request sets the flag, shows loading, hides error and "no results", empties the grid |
| `Session.RenderHomeView` | main.js:121-130 | shows home and leaves the detail view, collection, query and region alone; with no collection and no fetch in flight the listing is requested and only loading shows; with a collection the grid shows the current filter |
| `Session.CompleteBulkFetch` | main.js:139-153 | success replaces the collection and, with home shown and a non-empty listing, shows the new filter's cards and "no results" iff none, else leaves the grid; failure keeps the collection, grid and "no results" and shows the error; either way the flag and loading are cleared and query, region, navigation and detail view stay |
| `Session.BeginDetailView` | main.js:216-221 | shows the detail view empty with its loading message and without its error, records the request, and changes nothing outside navigation and the detail view |
| `Session.RemoveAt` | main.js:223-230 | an answered detail request leaves the pending requests, the others keeping their order |
| `Session.CompleteDetailView` | main.js:223-303 | the answered request leaves the pending ones; success writes the page and leaves the error message as it was, failure shows the error and keeps the page; loading is hidden; nothing outside the detail view changes |
| `Session.HandleRoute` | main.js:39-52 | does what showing home or opening the settled code's detail does, and nothing else to the collection, query, region or fetch state; a redirect pushes "/" and sets the location to it |
| `Session.NavigateTo` | main.js:34-37 | the path is pushed, then handled: the history gains the path and any redirect, and the view the path settles on is shown as `HandleRoute` shows it |
| `Session.Start` | main.js:25-29 | the first route of a fresh page shows home with the listing requested, or the detail view of the address's code with its request outstanding |
| `Session.Step` | main.js:31-119 | no event puts an escape into a location that had none, or makes a location the URL parser would rewrite |
| `Session.Inv` | main.js:121-182 | the session invariant, which among other things keeps at most one listing request outstanding |
| `Session.StartInv` | main.js:25-29 | the page after its first route satisfies the session invariant |
| `Session.StepInv` | main.js:121-182 | every event keeps the session invariant |
| `Session.MessagesExclusive` | main.js:132-182 | loading, error and "no results" never show together, and none shows next to a card |
| `Session.BulkErrorOnlyOnFailure` | main.js:143-149 | a listing response shows the error message exactly when it failed |
| `Session.NoSecondBulkFetch` | main.js:125-130 | while the listing is fetched, no event sends a second request or changes the collection |
| `Session.OnlySuccessfulListingWrites` | main.js:139-153 | no event but a successful listing response changes the collection |
| `Session.DetailMessagesExclusive` | main.js:216-304 | the detail view's loading and error messages never show together, and loading shows only while a request is outstanding |
| `Session.FirstLoad` | main.js:121-154 | a first visit to "/" shows loading; success shows all countries' cards, failure the error, never both |
| `Session.NoMatchShowsNoResults` | main.js:100-113 | a region that keeps nothing shows "no results", not the error |
| `Session.MalformedPathRedirects` | main.js:44-50 | navigating to a malformed path that the URL parser keeps as it is pushes it and then "/", and shows home |
| `Session.LateDetailResponseWins` | main.js:216-304 | for any two country codes: with no check that the view is still current, the first page's response arriving last overwrites the second page while the address names the second |
| `Session.LateFailureShowsBoth` | main.js:216-304 | when the second country's page is written and the first country's request then fails, the page and the error message show together |

## Left out

- DOM construction, `innerHTML` templates, `classList`, ARIA attributes and
  event wiring (main.js:1-17, 86-119, 184-215, 263-297): modelled only as the
  abstract flags, the card sequence and the page record. The dropdown's
  open/closed state and its label are UI only.
- Network calls (`fetch`, `response.json`): each outcome is an input
  `Result`; a non-ok status, a rejected fetch and an unparsable body are the
  three `FetchError` cases, handled alike.
- A response body of the wrong shape (a missing `name`, say), which would
  throw inside the `try` blocks: the record types are always well-formed.
- The theme subsystem (main.js:54-79): `localStorage` and `matchMedia`, and
  orthogonal to routing and filtering. As written, main.js:57 tests the
  media-query object rather than its `matches`, so the default is always
  "dark".
- `toLocaleString` population formatting (main.js:199, 270): locale-dependent;
  cards and pages carry the raw number.
- `console.error` logging: no effect on state.
- The initial HTML markup is not part of this model. `Session.Blank` takes the
  home view as shown and every message as hidden.
- Router.Resolve: requires a path without `%`, because percent-decoding is
  not modelled. `decodeURIComponent` is the identity on such a path. A
  malformed escape makes it throw, and that error is left uncaught.
  Router.Settle, Session.HandleRoute and Session.NavigateTo carry the same
  requirement.
- Session.Enabled: the URL parsing between `history.pushState` (main.js:35)
  and `location.pathname` (main.js:40) is not modelled. The next pathname is
  taken to be the pushed string, so only `Router.IsStablePath` paths are
  admitted as `Navigate` and `PopState` events. Those are rooted ASCII paths
  with no `?`, `#`, `%`, backslash, space or other character the parser
  encodes, and no "." or ".." segment. A border tag whose code is "." or ".."
  pushes a path the browser resolves to "/". Router.TagPathOtherLength
  excludes those codes, and so does Session.MalformedPathRedirects, through
  Enabled.
- Router.CodePath: requires a three-character ASCII alphanumeric code, on
  which `encodeURIComponent` is the identity; general percent-encoding is not
  modelled. Session.LateDetailResponseWins inherits this requirement.
- Router.TagPath: requires a code made of characters `encodeURIComponent`
  leaves unchanged (ASCII letters, digits and `-_.!~*'()`), of any length;
  a code needing percent-encoding is outside the model, for the same reason.
- Text.ToLower: lower-cases ASCII letters only. JavaScript's
  `toLowerCase` also folds non-ASCII letters, such as "É" to "é".
- Text.LowerChar: the same ASCII-only limit; "no ASCII capital" is all its
  contract promises.
- Search.NormalizeQuery: inherits that limit, so a stored query can still
  hold non-ASCII capitals that the page would have lower-cased.
- Lengths count Unicode scalar values, not UTF-16 code units. The two differ
  only for characters outside the Basic Multilingual Plane. A real pathname
  percent-encodes those, and percent-escapes are outside this model.
- Session.CompleteDetailView: the detail response and the border-name batch
  response that follows it are handled as one event. The state is not
  modelled between those two awaits.
- The `history` value records pushes only. The browser's back/forward stack
  is an input: `PopState` carries the path it lands on.
