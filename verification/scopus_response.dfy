/** The decision logic of `BiblioScope.format_scopus_results`: how a Scopus
    search response is read into a total count and an ordered list of
    records with fixed fallbacks. Printing is left to `ScopusRender`. */
module ScopusResponse {
  import opened Wrappers

  const SearchResultsKey: string := "search-results"
  const TitleKey: string := "dc:title"
  const CreatorKey: string := "dc:creator"
  const PublicationNameKey: string := "prism:publicationName"
  const CoverDateKey: string := "prism:coverDate"
  const DoiKey: string := "prism:doi"

  const DefaultTotal: string := "0"
  const NoTitle: string := "No title available"
  const NoAuthor: string := "No author available"
  const NoJournal: string := "No journal available"
  const NoDoi: string := "No DOI"
  const UnknownYear: string := "Unknown"

  /** How many leading characters of the cover date make the year. */
  const YearLength: nat := 4

  /** The fields of one entry object, read only through its string values. */
  type Entry = map<string, string>

  /** One item of the `entry` list: an object, or anything else (string,
      number, array, boolean, null), on which `entry.get` raises. */
  datatype Item = EntryObject(fields: Entry) | NotAnObjectItem

  /** The `search-results` object, read only through the two keys the
      formatter looks at: `opensearch:totalResults` and `entry`. */
  datatype SearchResults = SearchResults(totalResults: Option<string>, entry: Option<seq<Item>>)

  /** A top-level JSON value: an object (seen through its search-results
      keys) or anything else (string, number, array, boolean, null). */
  datatype Value = Object(container: SearchResults) | NotAnObject

  /** The top-level JSON object of a response. */
  type Response = map<string, Value>

  /** One displayable article; every field is always filled. */
  datatype Record = Record(title: string, author: string, journal: string, year: string, doi: string)

  /** What the formatter decides to show.
      - NoResults: the body is null, empty, or has no `search-results`;
      - Malformed: `search-results` is not an object, so `results.get`
        raises and nothing past that point happens;
      - Listing: the total as the provider stated it and the records, in
        entry order (empty for "no articles to display"); `complete` is
        false when an item that is not an object made the loop raise
        right after the records before it. */
  datatype Outcome = NoResults | Malformed | Listing(total: string, records: seq<Record>, complete: bool)

  /** The entries of a container; an absent `entry` key holds none. */
  function Entries(c: SearchResults): (es: seq<Item>)
    ensures c.entry.None? ==> es == []
    ensures c.entry.Some? ==> es == c.entry.value
  {
    c.entry.GetOr([])
  }

  /** `s[:n]` in Python: never fails, however short `s` is. */
  function Prefix(s: string, n: nat): (p: string)
    ensures |p| <= n && |p| <= |s|
    ensures |p| == n || |p| == |s|
    ensures forall i :: 0 <= i < |p| ==> p[i] == s[i]
  {
    if |s| <= n then s else s[..n]
  }

  /** The year shown for an entry: the first (up to) four characters of a
      present, non-empty cover date, otherwise "Unknown". */
  function Year(e: Entry): (y: string)
    ensures |y| <= |UnknownYear|
    ensures y == UnknownYear <==> CoverDateKey !in e || e[CoverDateKey] == ""
    ensures CoverDateKey in e && e[CoverDateKey] != "" ==>
              && |y| == (if |e[CoverDateKey]| < YearLength then |e[CoverDateKey]| else YearLength)
              && y <= e[CoverDateKey]
  {
    match Lookup(e, CoverDateKey)
    case Some(date) => if date != "" then Prefix(date, YearLength) else UnknownYear
    case None => UnknownYear
  }

  /** The record built from one entry: each field is the entry's value when
      the key is present (even an empty one) and the fallback only when the
      key is absent. */
  function ToRecord(e: Entry): (r: Record)
    ensures TitleKey in e ==> r.title == e[TitleKey]
    ensures TitleKey !in e ==> r.title == NoTitle
    ensures CreatorKey in e ==> r.author == e[CreatorKey]
    ensures CreatorKey !in e ==> r.author == NoAuthor
    ensures PublicationNameKey in e ==> r.journal == e[PublicationNameKey]
    ensures PublicationNameKey !in e ==> r.journal == NoJournal
    ensures DoiKey in e ==> r.doi == e[DoiKey]
    ensures DoiKey !in e ==> r.doi == NoDoi
    ensures r.year == Year(e)
  {
    Record(
      LookupOr(e, TitleKey, NoTitle),
      LookupOr(e, CreatorKey, NoAuthor),
      LookupOr(e, PublicationNameKey, NoJournal),
      Year(e),
      LookupOr(e, DoiKey, NoDoi))
  }

  /** The records the loop produces before it stops: one per item, in item
      order, up to the first item that is not an object. */
  function ToRecords(items: seq<Item>): (rs: seq<Record>)
    ensures |rs| <= |items|
    ensures forall i :: 0 <= i < |rs| ==> items[i].EntryObject? && rs[i] == ToRecord(items[i].fields)
    ensures |rs| < |items| ==> items[|rs|].NotAnObjectItem?
  {
    if |items| == 0 then []
    else match items[0]
      case NotAnObjectItem => []
      case EntryObject(fields) => [ToRecord(fields)] + ToRecords(items[1..])
  }

  /** The whole decision of `format_scopus_results`. */
  function Normalize(data: Option<Response>): (o: Outcome)
    ensures o.NoResults? <==> data.None? || SearchResultsKey !in data.value
    ensures o.Malformed? <==> data.Some? && SearchResultsKey in data.value && data.value[SearchResultsKey].NotAnObject?
    ensures data.Some? && SearchResultsKey in data.value && data.value[SearchResultsKey].Object? ==>
              var c := data.value[SearchResultsKey].container;
              && o.Listing?
              && (c.totalResults.Some? ==> o.total == c.totalResults.value)
              && (c.totalResults.None? ==> o.total == DefaultTotal)
              && |o.records| <= |Entries(c)|
              && (forall i :: 0 <= i < |o.records| ==>
                    Entries(c)[i].EntryObject? && o.records[i] == ToRecord(Entries(c)[i].fields))
              && (o.complete <==> |o.records| == |Entries(c)|)
              && (!o.complete ==> Entries(c)[|o.records|].NotAnObjectItem?)
  {
    match data
    case None => NoResults
    case Some(d) =>
      if |d| == 0 || SearchResultsKey !in d then NoResults
      else match d[SearchResultsKey]
        case NotAnObject => Malformed
        case Object(results) =>
          var total := results.totalResults.GetOr(DefaultTotal);
          if results.entry.None? || |results.entry.value| == 0 then Listing(total, [], true)
          else
            var records := ToRecords(results.entry.value);
            Listing(total, records, |records| == |results.entry.value|)
  }

  /** The body `{}` that a failed request returns is the "no results or
      invalid response" case, not an error. */
  lemma EmptyBodyIsNoResults()
    ensures Normalize(Some(map[])) == NoResults
    ensures Normalize(None) == NoResults
  {
  }

  /** Splitting the item list splits the record list at the same place,
      unless the loop already stops inside the first part. */
  lemma {:induction false} ToRecordsAppend(a: seq<Item>, b: seq<Item>)
    ensures |ToRecords(a)| == |a| ==> ToRecords(a + b) == ToRecords(a) + ToRecords(b)
    ensures |ToRecords(a)| < |a| ==> ToRecords(a + b) == ToRecords(a)
  {
    if |a| == 0 {
      assert a + b == b;
    } else {
      assert (a + b)[0] == a[0];
      assert (a + b)[1..] == a[1..] + b;
      if a[0].EntryObject? {
        ToRecordsAppend(a[1..], b);
      }
    }
  }

  /** Keys the formatter does not read have no effect on a record. */
  lemma ToRecordIgnoresOtherKeys(e: Entry, k: string, v: string)
    requires k !in {TitleKey, CreatorKey, PublicationNameKey, CoverDateKey, DoiKey}
    ensures ToRecord(e[k := v]) == ToRecord(e)
  {
    assert Year(e[k := v]) == Year(e);
  }

  /** Top-level keys other than `search-results` have no effect on the
      outcome, even on an otherwise empty body. */
  lemma NormalizeIgnoresOtherKeys(d: Response, k: string, v: Value)
    requires k != SearchResultsKey
    ensures Normalize(Some(d[k := v])) == Normalize(Some(d))
  {
  }

  /** An entry that carries none of the five keys (such as the provider's
      `{"error": "Result set was empty"}` placeholder) yields a record made
      of fallbacks only. */
  lemma BareEntryIsAllFallbacks(e: Entry)
    requires forall k :: k in e ==> k !in {TitleKey, CreatorKey, PublicationNameKey, CoverDateKey, DoiKey}
    ensures ToRecord(e) == Record(NoTitle, NoAuthor, NoJournal, UnknownYear, NoDoi)
  {
  }
}
