/** Border-name resolution (`generateBorderTags`): the display name of each
    neighbouring country, found through a chain that always ends in a name —
    the in-memory collection, else the batch-by-codes response, else the
    code itself. */
module Borders {
  import opened Wrappers
  import opened Countries

  /** One border button: the code it navigates to and the text it shows. */
  datatype BorderTag = BorderTag(code: string, name: string)

  /** The fallback chain for one code. A populated collection is the only
      source consulted; only when it is empty does the batch response
      count, and a failed batch leaves the code as its own name. */
  function DisplayName(code: string, countries: seq<Summary>,
                       batch: Result<seq<NameEntry>, FetchError>): (name: string)
    ensures |countries| > 0 ==> name == LookupName(NameEntries(countries), code).GetOr(code)
    ensures |countries| == 0 && batch.Success? ==> name == LookupName(batch.value, code).GetOr(code)
    ensures |countries| == 0 && batch.Failure? ==> name == code
  {
    var source :=
      if |countries| > 0 then Some(NameEntries(countries))
      else if batch.Success? then Some(batch.value)
      else None;
    match source
    case None => code
    case Some(entries) => LookupName(entries, code).GetOr(code)
  }

  /** Pairs every code with the name found for it in `entries`, falling back
      to the code. */
  function NameAll(codes: seq<string>, entries: seq<NameEntry>): (tags: seq<BorderTag>)
    ensures |tags| == |codes|
    ensures forall i :: 0 <= i < |codes| ==>
              tags[i] == BorderTag(codes[i], LookupName(entries, codes[i]).GetOr(codes[i]))
  {
    seq(|codes|, i requires 0 <= i < |codes| =>
      BorderTag(codes[i], LookupName(entries, codes[i]).GetOr(codes[i])))
  }

  /** Pairs every code with itself. */
  function EchoAll(codes: seq<string>): (tags: seq<BorderTag>)
    ensures |tags| == |codes|
    ensures forall i :: 0 <= i < |codes| ==> tags[i] == BorderTag(codes[i], codes[i])
  {
    seq(|codes|, i requires 0 <= i < |codes| => BorderTag(codes[i], codes[i]))
  }

  /** The three branches of `generateBorderTags`. `batch` is what the batch
      request would answer; it is consulted only when the collection is
      empty, which is when the request is sent. The result is total: the
      request's failure never reaches the caller. */
  function ResolveBorderNames(borders: seq<string>, countries: seq<Summary>,
                              batch: Result<seq<NameEntry>, FetchError>): (tags: seq<BorderTag>)
    ensures |tags| == |borders|
    ensures forall i :: 0 <= i < |borders| ==>
              tags[i].code == borders[i] && tags[i].name == DisplayName(borders[i], countries, batch)
  {
    if |countries| > 0 then NameAll(borders, NameEntries(countries))
    else match batch
      case Success(entries) => NameAll(borders, entries)
      case Failure(_) => EchoAll(borders)
  }

  /** With no collection and a failed batch request every name is its code. */
  lemma BatchFailureEchoes(borders: seq<string>, err: FetchError)
    ensures ResolveBorderNames(borders, [], Failure(err)) == EchoAll(borders)
  {
  }

  /** "XXX", absent from an empty cache and with the batch request failing,
      is shown as "XXX". */
  lemma UnknownCodeExample(err: FetchError)
    ensures ResolveBorderNames(["XXX"], [], Failure(err)) == [BorderTag("XXX", "XXX")]
  {
  }

  /** A name other than the code itself comes from a record carrying that
      code: the collection's when it is populated, the batch's otherwise. */
  lemma NameHasSource(borders: seq<string>, countries: seq<Summary>,
                      batch: Result<seq<NameEntry>, FetchError>, i: nat)
    requires i < |borders|
    requires ResolveBorderNames(borders, countries, batch)[i].name != borders[i]
    ensures |countries| > 0 ==>
              exists j :: 0 <= j < |countries| && countries[j].code == borders[i]
                          && countries[j].common == ResolveBorderNames(borders, countries, batch)[i].name
    ensures |countries| == 0 ==>
              batch.Success? &&
              exists j :: 0 <= j < |batch.value| && batch.value[j].code == borders[i]
                          && batch.value[j].common == ResolveBorderNames(borders, countries, batch)[i].name
  {
    var code := borders[i];
    if |countries| > 0 {
      var entries := NameEntries(countries);
      var r := LookupName(entries, code);
      assert r.Some?;
      var j :| 0 <= j < |entries| && entries[j].code == code && r.value == entries[j].common;
      assert countries[j].code == code;
    }
  }

  /** A code that is in the populated collection, whose codes are unique,
      is shown with that country's common name. */
  lemma CollectionNameUsed(borders: seq<string>, countries: seq<Summary>,
                           batch: Result<seq<NameEntry>, FetchError>, i: nat, j: nat)
    requires i < |borders| && j < |countries|
    requires UniqueCodes(NameEntries(countries))
    requires countries[j].code == borders[i]
    ensures ResolveBorderNames(borders, countries, batch)[i] == BorderTag(borders[i], countries[j].common)
  {
    LookupUnique(NameEntries(countries), j);
  }

  /** What the detail page shows under "Border Countries": the "N/A"
      paragraph when the record lists no borders, the resolved tags
      otherwise. */
  datatype BorderSection = NoBorders | Tags(tags: seq<BorderTag>)

  function BorderSectionOf(borders: Option<seq<string>>, countries: seq<Summary>,
                           batch: Result<seq<NameEntry>, FetchError>): (b: BorderSection)
    ensures b.NoBorders? <==> borders.None? || borders.value == []
    ensures b.Tags? ==> b.tags == ResolveBorderNames(borders.value, countries, batch)
  {
    if borders.Some? && |borders.value| > 0 then Tags(ResolveBorderNames(borders.value, countries, batch))
    else NoBorders
  }
}
