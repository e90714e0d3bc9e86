/** The home grid's search and region filter: which countries of the
    collection `filterAndRenderGrid` keeps for a query and a region. */
module Search {
  import opened Text
  import opened Countries

  /** The region value that disables the region gate. */
  const AllRegions: string := "All"

  /** The search box value as the input handler stores it: trimmed, then
      lower-cased. */
  function NormalizeQuery(raw: string): (q: string)
    ensures |q| <= |raw|
    ensures forall i :: 0 <= i < |q| ==> !IsUpperAscii(q[i])
    ensures q == [] || (!IsWhitespace(q[0]) && !IsWhitespace(q[|q| - 1]))
  {
    var t := Trim(raw);
    assert t != [] ==> !IsWhitespace(LowerChar(t[0])) && !IsWhitespace(LowerChar(t[|t| - 1])) by {
      if t != [] {
        LowerCharWhitespace(t[0]);
        LowerCharWhitespace(t[|t| - 1]);
      }
    }
    ToLower(t)
  }

  /** Normalising a normalised query changes nothing. */
  lemma NormalizeIdempotent(raw: string)
    ensures NormalizeQuery(NormalizeQuery(raw)) == NormalizeQuery(raw)
  {
    var q := NormalizeQuery(raw);
    assert [] + q + [] == q;
    TrimOfPadded([], q, []);
    ToLowerIdempotent(Trim(raw));
  }

  /** Whitespace typed around the query does not change it. */
  lemma NormalizeIgnoresPadding(pre: string, t: string, post: string)
    requires AllWhitespace(pre) && AllWhitespace(post)
    ensures NormalizeQuery(pre + t + post) == NormalizeQuery(t)
  {
    TrimIgnoresPadding(pre, t, post);
  }

  /** The filter predicate: the lower-cased common name contains the query,
      and the region is either unrestricted or the country's own. */
  predicate Matches(c: Summary, query: string, region: string)
    ensures Matches(c, query, region) ==> |query| <= |c.common|
    ensures region != AllRegions && c.region != region ==> !Matches(c, query, region)
    ensures query == [] && region == AllRegions ==> Matches(c, query, region)
  {
    Includes(ToLower(c.common), query) && (region == AllRegions || c.region == region)
  }

  /** `countriesData.filter(...)`: the matching countries in their order. */
  function Filter(cs: seq<Summary>, query: string, region: string): (r: seq<Summary>)
    ensures |r| <= |cs|
    ensures forall i :: 0 <= i < |r| ==> r[i] in cs && Matches(r[i], query, region)
    decreases |cs|
  {
    if cs == [] then []
    else (if Matches(cs[0], query, region) then [cs[0]] else []) + Filter(cs[1..], query, region)
  }

  /** `xs` is `ys` with some elements left out, order kept. */
  ghost predicate IsSubsequence<T>(xs: seq<T>, ys: seq<T>)
    decreases |ys|
  {
    if xs == [] then true
    else if ys == [] then false
    else (xs[0] == ys[0] && IsSubsequence(xs[1..], ys[1..])) || IsSubsequence(xs, ys[1..])
  }

  /** A country is kept exactly when it is in the collection and matches. */
  lemma {:induction false} FilterMembership(cs: seq<Summary>, query: string, region: string, x: Summary)
    ensures x in Filter(cs, query, region) <==> x in cs && Matches(x, query, region)
    decreases |cs|
  {
    if cs != [] {
      FilterMembership(cs[1..], query, region, x);
      assert cs == [cs[0]] + cs[1..];
    }
  }

  /** The kept countries appear in their original order. */
  lemma {:induction false} FilterIsSubsequence(cs: seq<Summary>, query: string, region: string)
    ensures IsSubsequence(Filter(cs, query, region), cs)
    decreases |cs|
  {
    if cs != [] {
      var r := Filter(cs, query, region);
      var rest := Filter(cs[1..], query, region);
      FilterIsSubsequence(cs[1..], query, region);
      if Matches(cs[0], query, region) {
        assert r[0] == cs[0] && r[1..] == rest;
      } else {
        assert r == rest;
        if r != [] {
          assert IsSubsequence(r, cs[1..]);
        }
      }
    }
  }

  /** Filtering a concatenation filters each part: together with the one-
      element case this pins the filter down completely. */
  lemma {:induction false} FilterAppend(a: seq<Summary>, b: seq<Summary>, query: string, region: string)
    ensures Filter(a + b, query, region) == Filter(a, query, region) + Filter(b, query, region)
    decreases |a|
  {
    if a == [] {
      assert a + b == b;
    } else {
      var head := if Matches(a[0], query, region) then [a[0]] else [];
      var ab := a + b;
      assert ab[0] == a[0] && ab[1..] == a[1..] + b;
      assert Filter(ab, query, region) == head + Filter(a[1..] + b, query, region);
      assert Filter(a, query, region) == head + Filter(a[1..], query, region);
      FilterAppend(a[1..], b, query, region);
      var fa, fb := Filter(a[1..], query, region), Filter(b, query, region);
      assert head + (fa + fb) == (head + fa) + fb;
    }
  }

  /** When every country matches, nothing is dropped. */
  lemma {:induction false} FilterAllMatch(cs: seq<Summary>, query: string, region: string)
    requires forall i :: 0 <= i < |cs| ==> Matches(cs[i], query, region)
    ensures Filter(cs, query, region) == cs
    decreases |cs|
  {
    if cs != [] {
      FilterAllMatch(cs[1..], query, region);
    }
  }

  /** The empty query with region "All" keeps the whole collection. */
  lemma FilterIdentity(cs: seq<Summary>)
    ensures Filter(cs, [], AllRegions) == cs
  {
    forall i | 0 <= i < |cs| ensures Matches(cs[i], [], AllRegions) {
      IncludesEmpty(ToLower(cs[i].common));
    }
    FilterAllMatch(cs, [], AllRegions);
  }

  /** Filtering a filtered collection again with the same inputs changes
      nothing. */
  lemma FilterIdempotent(cs: seq<Summary>, query: string, region: string)
    ensures Filter(Filter(cs, query, region), query, region) == Filter(cs, query, region)
  {
    var r := Filter(cs, query, region);
    forall i | 0 <= i < |r| ensures Matches(r[i], query, region) {
      FilterMembership(cs, query, region, r[i]);
    }
    FilterAllMatch(r, query, region);
  }

  /** The filtered sequence is empty exactly when no country matches: the
      condition for the "no results" message. */
  lemma FilterEmptyIff(cs: seq<Summary>, query: string, region: string)
    ensures Filter(cs, query, region) == [] <==>
            forall i :: 0 <= i < |cs| ==> !Matches(cs[i], query, region)
  {
    var r := Filter(cs, query, region);
    if r != [] {
      FilterMembership(cs, query, region, r[0]);
    } else {
      forall i | 0 <= i < |cs| ensures !Matches(cs[i], query, region) {
        FilterMembership(cs, query, region, cs[i]);
      }
    }
  }

  /** The search is case-insensitive: typing any piece of a country's common
      name, in any mix of cases and with any surrounding whitespace, keeps
      that country when no region is selected. */
  lemma CaseInsensitiveMatch(c: Summary, pre: string, typed: string, post: string, i: int, j: int)
    requires 0 <= i <= j <= |c.common|
    requires ToLower(typed) == ToLower(c.common[i..j])
    requires AllWhitespace(pre) && AllWhitespace(post)
    ensures Matches(c, NormalizeQuery(pre + typed + post), AllRegions)
  {
    NormalizeIgnoresPadding(pre, typed, post);
    var name := ToLower(c.common);
    var slice := name[i..j];
    ToLowerSlice(c.common, i, j);
    assert ToLower(typed) == slice;
    TrimToLowerCommute(typed);
    var q := Trim(slice);
    assert NormalizeQuery(typed) == q;
    var p, _ := TrimSplit(slice);
    assert q == slice[|p|..|p| + |q|];
    SliceOfSlice(name, i, j, |p|, |q|);
    IncludesIffOccurs(name, q);
  }

  /** A piece of a slice occurs in the whole string. */
  lemma SliceOfSlice(s: string, i: int, j: int, k: int, n: int)
    requires 0 <= i <= j <= |s| && 0 <= k && k + n <= j - i && 0 <= n
    ensures OccursAt(s, s[i..j][k..k + n], i + k)
  {
    var a := s[i..j][k..k + n];
    var b := s[i + k..i + k + n];
    assert |a| == |b|;
    assert forall m :: 0 <= m < n ==> a[m] == s[i + k + m] == b[m];
    assert a == b;
  }

  /** Typing "FRA" finds France. */
  lemma SearchExample(france: Summary)
    requires france.common == "France"
    ensures Filter([france], NormalizeQuery("FRA"), AllRegions) == [france]
  {
    NormalizeFra();
    var name := ToLower("France");
    assert name[0..3] == "fra" by {
      assert name[0] == 'f' && name[1] == 'r' && name[2] == 'a';
    }
    IncludesSlice(name, 0, 3);
    assert Matches(france, "fra", AllRegions);
    assert Filter([france], "fra", AllRegions) == [france] + Filter([], "fra", AllRegions);
  }

  /** "FRA" normalises to "fra". */
  lemma NormalizeFra()
    ensures NormalizeQuery("FRA") == "fra"
  {
    assert [] + "FRA" + [] == "FRA";
    TrimOfPadded([], "FRA", []);
    var q := ToLower("FRA");
    assert q[0] == 'f' && q[1] == 'r' && q[2] == 'a';
  }

  /** A country of Europe is not kept when Asia is selected. */
  lemma RegionGateExample(european: Summary, query: string)
    requires european.region == "Europe"
    ensures Filter([european], query, "Asia") == []
  {
  }
}
