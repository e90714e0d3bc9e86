/** The client-side router: how `handleRoute` turns the location path into
    a view, and how `navigateTo("/")` normalises every other path. */
module Router {
  import opened Wrappers

  /** A resolved application location. */
  datatype Route = Home | Detail(code: string)

  /** What one `handleRoute` call does with a path. */
  datatype Dispatch = RenderHome | RenderDetail(code: string) | Redirect(target: string)

  /** The path every malformed location is sent to. */
  const RootPath: string := "/"

  predicate IsHomePath(path: string) {
    path == RootPath || path == "/index.html"
  }

  /** `path.slice(1)`: everything after the first character. */
  function Segment(path: string): (seg: string)
    ensures |path| > 0 ==> path == [path[0]] + seg
    ensures |path| == 0 ==> seg == []
  {
    if |path| == 0 then [] else path[1..]
  }

  /** Paths that `decodeURIComponent` leaves as they are. */
  predicate NoEscapes(path: string) {
    '%' !in path
  }

  /** The characters the URL parser keeps as they are in a path: printable
      ASCII other than those it percent-encodes (`"`, `<`, `>`, backquote,
      `{`, `}`), the query and fragment delimiters `?` and `#`, the
      backslash it turns into `/`, and `%`. */
  predicate IsPathChar(c: char) {
    '!' <= c <= '~' && c !in "\"#%<>?\\`{}"
  }

  /** A "." or ".." segment starts after the slash at index `k`. */
  predicate IsDotSegmentAt(path: string, k: nat) {
    && k < |path| && path[k] == '/'
    && (   (k + 1 < |path| && path[k + 1] == '.' && (k + 2 == |path| || path[k + 2] == '/'))
        || (k + 2 < |path| && path[k + 1] == '.' && path[k + 2] == '.'
            && (k + 3 == |path| || path[k + 3] == '/')))
  }

  /** A path that `history.pushState` leaves as the next
      `location.pathname` unchanged: rooted but not scheme-relative, made of
      characters the URL parser keeps, with no dot segment for it to
      resolve. */
  predicate IsStablePath(path: string)
    ensures IsStablePath(path) ==> NoEscapes(path)
  {
    && |path| > 0 && path[0] == '/'
    && (|path| == 1 || path[1] != '/')
    && (forall k :: 0 <= k < |path| ==> IsPathChar(path[k]))
    && (forall k: nat :: k < |path| ==> !IsDotSegmentAt(path, k))
  }

  /** One `handleRoute` step. `decodeURIComponent` is the identity on a
      segment without `%`, which is all this model admits. */
  function Resolve(path: string): (d: Dispatch)
    requires NoEscapes(path)
    ensures d.RenderHome? <==> IsHomePath(path)
    ensures d.RenderDetail? <==> !IsHomePath(path) && |Segment(path)| == 3
    ensures d.RenderDetail? ==> path == [path[0]] + d.code
    ensures d.Redirect? ==> d.target == RootPath
  {
    if IsHomePath(path) then RenderHome
    else
      var code := Segment(path);
      if |code| == 3 then RenderDetail(code) else Redirect(RootPath)
  }

  /** The outcome of handling a path to the end: the view rendered and the
      history entries pushed on the way by redirects. */
  datatype Settled = Settled(route: Route, pushed: seq<string>)

  /** `handleRoute` followed through its `navigateTo("/")` redirects. The
      recursion stops because the redirect target is itself a home path. */
  function Settle(path: string): (s: Settled)
    requires NoEscapes(path)
    ensures s.route.Detail? ==> |s.route.code| == 3 && s.route.code == Segment(path)
    ensures s.route.Home? <==> IsHomePath(path) || |Segment(path)| != 3
    ensures s.pushed == [] <==> !Resolve(path).Redirect?
    ensures s.pushed != [] ==> s.pushed == [RootPath] && s.route == Home
    decreases if path == RootPath then 0 else 1
  {
    match Resolve(path)
    case RenderHome => Settled(Home, [])
    case RenderDetail(code) => Settled(Detail(code), [])
    case Redirect(target) =>
      var next := Settle(target);
      Settled(next.route, [target] + next.pushed)
  }

  /** A redirect lands on Home at the very next step. */
  lemma RedirectTerminates(path: string)
    requires NoEscapes(path)
    requires Resolve(path).Redirect?
    ensures Resolve(Resolve(path).target) == RenderHome
    ensures Settle(path) == Settled(Home, [RootPath])
  {
  }

  // ---------------------------------------------------------------------
  // The paths cards and border tags navigate to
  // ---------------------------------------------------------------------

  predicate IsAsciiAlphanumeric(c: char) {
    ('A' <= c <= 'Z') || ('a' <= c <= 'z') || ('0' <= c <= '9')
  }

  /** A three-letter alphanumeric country code, on which
      `encodeURIComponent` is the identity. */
  predicate IsCountryCode(code: string) {
    |code| == 3 && forall k :: 0 <= k < |code| ==> IsAsciiAlphanumeric(code[k])
  }

  /** The path a country card pushes for its code. Navigating to it shows
      that country's detail, with no redirect. */
  function CodePath(code: string): (path: string)
    requires IsCountryCode(code)
    ensures |path| == 4 && path[0] == '/' && path[1..] == code
    ensures IsStablePath(path) && Resolve(path) == RenderDetail(code)
    ensures Settle(path) == Settled(Detail(code), [])
  {
    var path := RootPath + code;
    assert IsStablePath(path) && !IsHomePath(path) by {
      assert forall k :: 1 <= k < |path| ==> path[k] == code[k - 1] && IsAsciiAlphanumeric(path[k]);
      assert |"/index.html"| == 11;
    }
    assert path[1..] == code;
    path
  }

  /** The characters `encodeURIComponent` leaves as they are. */
  predicate IsUriUnreserved(c: char) {
    IsAsciiAlphanumeric(c) || c in "-_.!~*'()"
  }

  /** A code that `encodeURIComponent` passes through unchanged. */
  predicate IsPlainCode(code: string) {
    forall k :: 0 <= k < |code| ==> IsUriUnreserved(code[k])
  }

  /** The path a border tag pushes: none at all when the tag has no code,
      the code's path otherwise, whatever its length. */
  function TagPath(code: string): (path: Option<string>)
    requires IsPlainCode(code)
    ensures path.None? <==> code == []
    ensures path.Some? ==> path.value == RootPath + code && NoEscapes(path.value)
    ensures path.Some? && code != "." && code != ".." ==> IsStablePath(path.value)
    ensures path.Some? && IsCountryCode(code) ==> path.value == CodePath(code)
  {
    if code == [] then None
    else
      var p := RootPath + code;
      assert forall k :: 1 <= k < |p| ==> p[k] == code[k - 1] && IsUriUnreserved(p[k]);
      assert NoEscapes(p);
      assert code != "." && code != ".." ==> IsStablePath(p) by {
        if code != "." && code != ".." {
          PlainPathNoDotSegment(code);
        }
      }
      Some(p)
  }

  /** The only slash of "/" + `code` is the first character, so only the
      codes "." and ".." make a dot segment. */
  lemma PlainPathNoDotSegment(code: string)
    requires IsPlainCode(code) && code != [] && code != "." && code != ".."
    ensures forall k: nat :: k < |RootPath + code| ==> !IsDotSegmentAt(RootPath + code, k)
  {
    var p := RootPath + code;
    assert forall k :: 1 <= k < |p| ==> p[k] == code[k - 1] && IsUriUnreserved(p[k]) && p[k] != '/';
  }

  /** A border tag whose code is not three characters long leads home: by a
      redirect, unless the code happens to spell a home path. */
  lemma TagPathOtherLength(code: string)
    requires IsPlainCode(code) && code != [] && |code| != 3 && code != "." && code != ".."
    ensures Settle(TagPath(code).value).route == Home
    ensures code != "index.html" ==> Settle(TagPath(code).value) == Settled(Home, [RootPath])
  {
    var p := TagPath(code).value;
    if code != "index.html" {
      assert !IsHomePath(p) by {
        assert |p| == |code| + 1 && p[1..] == code;
      }
    }
  }

  /** A two-character segment redirects home, a three-character one opens
      that country, and "/" is home. */
  lemma ResolveExamples()
    ensures Settle("/xy") == Settled(Home, [RootPath])
    ensures Settle("/FRA") == Settled(Detail("FRA"), [])
    ensures Settle("/") == Settled(Home, [])
    ensures Settle("/index.html") == Settled(Home, [])
  {
    assert "/xy"[1..] == "xy";
    assert "/FRA"[1..] == "FRA";
  }
}
