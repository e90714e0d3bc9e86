/** What the home grid and the detail page show for a country: the card of
    `createCountryCardDOM` and the derived fields of `renderDetailView`,
    each a "first entry or N/A" or a "join or N/A" projection of an optional
    field of the API record. */
module Views {
  import opened Wrappers
  import opened Text
  import opened Countries
  import opened Borders

  /** The sentinel shown for a missing value. */
  const NotAvailable: string := "N/A"

  /** The separator between currency and language names. */
  const ListSeparator: string := ", "

  /** `xs && xs.length > 0 ? xs[0] : "N/A"`, for capital and top-level
      domain. */
  function FirstOrNA(xs: Option<seq<string>>): (r: string)
    ensures xs.Some? && |xs.value| > 0 ==> r == xs.value[0]
    ensures xs.None? || xs.value == [] ==> r == NotAvailable
  {
    if xs.Some? && |xs.value| > 0 then xs.value[0] else NotAvailable
  }

  // ---------------------------------------------------------------------
  // Home grid cards
  // ---------------------------------------------------------------------

  /** One card of the home grid. Its population is the raw number; the
      locale-dependent digit grouping is not modelled. */
  datatype Card = Card(code: string, name: string, flag: string,
                       population: nat, region: string, capital: string)

  function CardOf(c: Summary): (card: Card)
    ensures card.code == c.code && card.name == c.common && card.region == c.region
    ensures card.population == c.population && card.flag == c.flagPng
    ensures card.capital == FirstOrNA(c.capital)
  {
    Card(c.code, c.common, c.flagPng, c.population, c.region, FirstOrNA(c.capital))
  }

  /** The cards of a filtered sequence, one per country, in order. */
  function Cards(cs: seq<Summary>): (cards: seq<Card>)
    ensures |cards| == |cs|
    ensures forall i :: 0 <= i < |cs| ==> cards[i] == CardOf(cs[i])
  {
    seq(|cs|, i requires 0 <= i < |cs| => CardOf(cs[i]))
  }

  // ---------------------------------------------------------------------
  // Detail page
  // ---------------------------------------------------------------------

  /** One entry of `name.nativeName`, keyed by a language code. */
  datatype NativeName = NativeName(official: string, common: string)

  /** One entry of `currencies`, keyed by a currency code. */
  datatype Currency = Currency(name: string, symbol: string)

  /** The record the detail request returns (`/alpha/{code}?fields=name,
      flags,population,region,subregion,capital,tld,currencies,languages,
      borders`). JSON objects are sequences of key/value pairs in the order
      `Object.keys` lists them; an absent field is `None`. */
  datatype DetailRecord = DetailRecord(
    common: string,
    nativeName: Option<seq<(string, NativeName)>>,
    flagSvg: Option<string>,
    flagPng: string,
    population: nat,
    region: string,
    subregion: Option<string>,
    capital: Option<seq<string>>,
    tld: Option<seq<string>>,
    currencies: Option<seq<(string, Currency)>>,
    languages: Option<seq<(string, string)>>,
    borders: Option<seq<string>>
  )

  /** The native name: the common name of the first native-name entry when
      there is one whose key is a non-empty string (JavaScript truthiness),
      else the country's common name. */
  function NativeNameOf(d: DetailRecord): (r: string)
    ensures d.nativeName.Some? && |d.nativeName.value| > 0 && d.nativeName.value[0].0 != []
            ==> r == d.nativeName.value[0].1.common
    ensures d.nativeName.None? || d.nativeName.value == [] || d.nativeName.value[0].0 == []
            ==> r == d.common
  {
    match d.nativeName
    case Some(entries) =>
      if |entries| > 0 && entries[0].0 != [] then entries[0].1.common else d.common
    case None => d.common
  }

  /** The currency names of an object, in key order. */
  function CurrencyNames(entries: seq<(string, Currency)>): (names: seq<string>)
    ensures |names| == |entries|
    ensures forall i :: 0 <= i < |entries| ==> names[i] == entries[i].1.name
  {
    seq(|entries|, i requires 0 <= i < |entries| => entries[i].1.name)
  }

  /** The values of a string-valued object, in key order. */
  function Values(entries: seq<(string, string)>): (vals: seq<string>)
    ensures |vals| == |entries|
    ensures forall i :: 0 <= i < |entries| ==> vals[i] == entries[i].1
  {
    seq(|entries|, i requires 0 <= i < |entries| => entries[i].1)
  }

  /** Currencies: the names joined by ", " when the field is present (so a
      present but empty object shows as the empty string), else "N/A". */
  function CurrenciesText(d: DetailRecord): (r: string)
    ensures d.currencies.None? ==> r == NotAvailable
    ensures d.currencies.Some? ==> r == Join(CurrencyNames(d.currencies.value), ListSeparator)
  {
    match d.currencies
    case Some(entries) => Join(CurrencyNames(entries), ListSeparator)
    case None => NotAvailable
  }

  /** Languages: the language names joined by ", " when the field is
      present, else "N/A". */
  function LanguagesText(d: DetailRecord): (r: string)
    ensures d.languages.None? ==> r == NotAvailable
    ensures d.languages.Some? ==> r == Join(Values(d.languages.value), ListSeparator)
  {
    match d.languages
    case Some(entries) => Join(Values(entries), ListSeparator)
    case None => NotAvailable
  }

  /** `subregion || "N/A"`: an absent or empty subregion shows "N/A". */
  function SubregionText(d: DetailRecord): (r: string)
    ensures d.subregion.Some? && d.subregion.value != [] ==> r == d.subregion.value
    ensures d.subregion.None? || d.subregion.value == [] ==> r == NotAvailable
  {
    match d.subregion
    case Some(s) => if s != [] then s else NotAvailable
    case None => NotAvailable
  }

  /** `flags.svg || flags.png`. */
  function FlagOf(d: DetailRecord): (r: string)
    ensures d.flagSvg.Some? && d.flagSvg.value != [] ==> r == d.flagSvg.value
    ensures d.flagSvg.None? || d.flagSvg.value == [] ==> r == d.flagPng
  {
    match d.flagSvg
    case Some(s) => if s != [] then s else d.flagPng
    case None => d.flagPng
  }

  /** The rendered detail page, one field per line of the template. */
  datatype DetailPage = DetailPage(
    flag: string,
    name: string,
    nativeName: string,
    population: nat,
    region: string,
    subregion: string,
    capital: string,
    tld: string,
    currencies: string,
    languages: string,
    borders: BorderSection
  )

  /** The page `renderDetailView` writes for a successful detail response.
      `countries` is the collection at that moment and `batch` what the
      border-name request would answer. */
  function DetailPageOf(d: DetailRecord, countries: seq<Summary>,
                        batch: Result<seq<NameEntry>, FetchError>): (p: DetailPage)
    ensures p.name == d.common && p.population == d.population && p.region == d.region
    ensures p.capital == FirstOrNA(d.capital) && p.tld == FirstOrNA(d.tld)
    ensures p.nativeName == NativeNameOf(d) && p.subregion == SubregionText(d)
    ensures p.currencies == CurrenciesText(d) && p.languages == LanguagesText(d)
    ensures p.flag == FlagOf(d)
    ensures p.borders == BorderSectionOf(d.borders, countries, batch)
  {
    DetailPage(FlagOf(d), d.common, NativeNameOf(d), d.population, d.region,
               SubregionText(d), FirstOrNA(d.capital), FirstOrNA(d.tld),
               CurrenciesText(d), LanguagesText(d),
               BorderSectionOf(d.borders, countries, batch))
  }

  /** Every text field of the page shows something: a missing list or
      mapping never leaves the capital, domain, subregion or native-name
      line blank unless the API itself sent an empty string. */
  lemma DetailFieldsFallBack(d: DetailRecord, countries: seq<Summary>,
                             batch: Result<seq<NameEntry>, FetchError>)
    ensures var p := DetailPageOf(d, countries, batch);
      && (p.capital == NotAvailable || (d.capital.Some? && p.capital in d.capital.value))
      && (p.tld == NotAvailable || (d.tld.Some? && p.tld in d.tld.value))
      && p.subregion != []
      && (p.nativeName == d.common
          || exists i :: 0 <= i < |d.nativeName.GetOr([])| && p.nativeName == d.nativeName.GetOr([])[i].1.common)
  {
    var p := DetailPageOf(d, countries, batch);
    if p.nativeName != d.common {
      assert p.nativeName == d.nativeName.GetOr([])[0].1.common;
    }
  }

  /** A single currency shows its name alone; two show their names around
      one ", ". */
  lemma CurrenciesShape(d: DetailRecord)
    requires d.currencies.Some?
    ensures |d.currencies.value| == 1 ==> CurrenciesText(d) == d.currencies.value[0].1.name
    ensures |d.currencies.value| == 2 ==>
              CurrenciesText(d) == d.currencies.value[0].1.name + ListSeparator + d.currencies.value[1].1.name
  {
    var names := CurrencyNames(d.currencies.value);
    if |names| == 2 {
      assert names[1..] == [names[1]];
    }
  }

  /** Each language name appears in the languages line at its place in the
      list, so the line can be read back name by name. */
  lemma LanguagesListed(d: DetailRecord, i: nat)
    requires d.languages.Some? && i < |d.languages.value|
    ensures var vals := Values(d.languages.value);
            OccursAt(LanguagesText(d), d.languages.value[i].1, Offset(vals, ListSeparator, i))
  {
    JoinPartAt(Values(d.languages.value), ListSeparator, i);
  }
}
