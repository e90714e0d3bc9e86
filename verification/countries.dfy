/** The country records the application receives from the REST Countries
    API, and the first-match lookup (`Array.prototype.find`) used on them. */
module Countries {
  import opened Wrappers

  /** Why a request produced no usable payload: a response whose `ok` is
      false, a rejected `fetch`, or a body `response.json()` cannot parse.
      The application treats the three alike. */
  datatype FetchError = NotOk(status: int) | NetworkFailure | MalformedBody

  /** One entry of the bulk listing (`/all?fields=name,flags,cca3,
      population,region,capital`): the fields a home-grid card shows. */
  datatype Summary = Summary(
    code: string,                   // cca3
    common: string,                 // name.common
    flagPng: string,                // flags.png
    population: nat,
    region: string,
    capital: Option<seq<string>>
  )

  /** One entry of the batch-by-codes response (`/alpha?codes=…&fields=
      cca3,name`) used to name border countries. */
  datatype NameEntry = NameEntry(code: string, common: string)

  /** The index of the first element satisfying `p`, as `find` scans. */
  function FirstIndex<T>(xs: seq<T>, p: T -> bool): (r: Option<nat>)
    ensures r.Some? ==> r.value < |xs| && p(xs[r.value])
                        && forall j :: 0 <= j < r.value ==> !p(xs[j])
    ensures r.None? ==> forall j :: 0 <= j < |xs| ==> !p(xs[j])
  {
    if xs == [] then None
    else if p(xs[0]) then Some(0)
    else match FirstIndex(xs[1..], p)
      case None => None
      case Some(k) => Some(k + 1)
  }

  /** The common name of the first entry of `entries` whose code is `code`,
      the way `find(c => c.cca3 === code)` picks it. */
  function LookupName(entries: seq<NameEntry>, code: string): (r: Option<string>)
    ensures r.None? <==> forall j :: 0 <= j < |entries| ==> entries[j].code != code
    ensures r.Some? ==> exists j :: 0 <= j < |entries| && entries[j].code == code
                                    && r.value == entries[j].common
                                    && forall k :: 0 <= k < j ==> entries[k].code != code
  {
    match FirstIndex(entries, (e: NameEntry) => e.code == code)
    case None => None
    case Some(k) => Some(entries[k].common)
  }

  /** The name entries of the in-memory collection, in collection order. */
  function NameEntries(countries: seq<Summary>): (r: seq<NameEntry>)
    ensures |r| == |countries|
    ensures forall i :: 0 <= i < |r| ==>
              r[i].code == countries[i].code && r[i].common == countries[i].common
  {
    seq(|countries|, i requires 0 <= i < |countries| =>
      NameEntry(countries[i].code, countries[i].common))
  }

  /** Codes are unique, as the collection promises. */
  ghost predicate UniqueCodes(entries: seq<NameEntry>) {
    forall i, j :: 0 <= i < j < |entries| ==> entries[i].code != entries[j].code
  }

  /** With unique codes the first match is the only match: the name found
      is the name of the one entry carrying that code. */
  lemma LookupUnique(entries: seq<NameEntry>, j: nat)
    requires UniqueCodes(entries)
    requires j < |entries|
    ensures LookupName(entries, entries[j].code) == Some(entries[j].common)
  {
    var code := entries[j].code;
    var r := FirstIndex(entries, (e: NameEntry) => e.code == code);
    assert r.Some?;
    assert r.value == j;
  }
}
