/** The printed form of a formatter outcome, one string per `print` call.
    The banner's emoji and surrounding blank lines are not reproduced. */
module ScopusRender {
  import opened Wrappers
  import opened ScopusResponse

  const NoResultsMessage: string := "No results found or invalid response"
  const NoArticlesMessage: string := "No articles to display"
  const AuthorLabel: string := "    Author: "
  const JournalLabel: string := "    Journal: "
  const DoiLabel: string := "    DOI: "

  /** Lines printed per record: title, author, journal and year, DOI, blank. */
  const BlockSize: nat := 5

  predicate IsDigit(c: char)
  {
    '0' <= c <= '9'
  }

  predicate AllDigits(s: string)
  {
    forall i :: 0 <= i < |s| ==> IsDigit(s[i])
  }

  /** The number a string of decimal digits denotes. */
  function DecimalValue(s: string): nat
    requires AllDigits(s)
  {
    if |s| == 0 then 0
    else DecimalValue(s[..|s| - 1]) * 10 + (s[|s| - 1] - '0') as nat
  }

  /** `str(n)` for a natural number: canonical decimal digits. */
  function NatToString(n: nat): (s: string)
    ensures |s| > 0 && AllDigits(s)
    ensures |s| > 1 ==> s[0] != '0'
    ensures DecimalValue(s) == n
  {
    var last := ['0' + (n % 10) as char];
    if n < 10 then last
    else
      var front := NatToString(n / 10);
      assert (front + last)[..|front + last| - 1] == front;
      front + last
  }

  /** The longest run of digits at the start of `s`. */
  function LeadingDigits(s: string): (d: string)
    ensures |d| <= |s| && d == s[..|d|]
    ensures AllDigits(d)
    ensures |d| < |s| ==> !IsDigit(s[|d|])
  {
    if |s| == 0 || !IsDigit(s[0]) then []
    else [s[0]] + LeadingDigits(s[1..])
  }

  /** The first line of a record block: `[i] title`. */
  function TitleLine(index: nat, title: string): string
  {
    "[" + NatToString(index) + "] " + title
  }

  /** Reads the 1-based index back from a title line, if it has one. */
  function ParseIndex(line: string): (r: Option<nat>)
  {
    if |line| == 0 || line[0] != '[' then None
    else
      var d := LeadingDigits(line[1..]);
      if |d| == 0 || |line| <= |d| + 1 || line[|d| + 1] != ']' then None
      else Some(DecimalValue(d))
  }

  /** A run of digits followed by a non-digit is exactly the leading run. */
  lemma {:induction false} LeadingDigitsOfDigitsThen(d: string, rest: string)
    requires AllDigits(d)
    requires |rest| > 0 && !IsDigit(rest[0])
    ensures LeadingDigits(d + rest) == d
  {
    if |d| > 0 {
      assert (d + rest)[1..] == d[1..] + rest;
      LeadingDigitsOfDigitsThen(d[1..], rest);
    } else {
      assert d + rest == rest;
    }
  }

  /** The index printed on a title line reads back as that index, whatever
      the title holds. */
  lemma TitleLineIndexRoundTrip(index: nat, title: string)
    ensures ParseIndex(TitleLine(index, title)) == Some(index)
  {
    var digits := NatToString(index);
    var line := TitleLine(index, title);
    assert line[1..] == digits + ("] " + title);
    LeadingDigitsOfDigitsThen(digits, "] " + title);
    assert line[|digits| + 1] == ']';
  }

  /** The five lines printed for the record numbered `index`. */
  function RecordBlock(index: nat, r: Record): (lines: seq<string>)
    ensures |lines| == BlockSize
    ensures ParseIndex(lines[0]) == Some(index)
    ensures "[" + NatToString(index) + "] " <= lines[0]
    ensures |lines[0]| == |NatToString(index)| + 3 + |r.title| && lines[0][|NatToString(index)| + 3..] == r.title
    ensures AuthorLabel <= lines[1] && lines[1][|AuthorLabel|..] == r.author
    ensures JournalLabel + r.journal + " (" <= lines[2]
    ensures |lines[2]| == |JournalLabel| + |r.journal| + 2 + |r.year| + 1
    ensures |lines[2]| > |r.year| && lines[2][|lines[2]| - |r.year| - 1..] == r.year + ")"
    ensures DoiLabel <= lines[3] && lines[3][|DoiLabel|..] == r.doi
    ensures lines[4] == ""
  {
    TitleLineIndexRoundTrip(index, r.title);
    [TitleLine(index, r.title),
     AuthorLabel + r.author,
     JournalLabel + r.journal + " (" + r.year + ")",
     DoiLabel + r.doi,
     ""]
  }

  /** The blocks of `rs`, numbered consecutively from `first`. */
  function RecordBlocks(first: nat, rs: seq<Record>): (lines: seq<string>)
    ensures |lines| == BlockSize * |rs|
    ensures forall k :: 0 <= k < |rs| ==>
              lines[BlockSize * k .. BlockSize * k + BlockSize] == RecordBlock(first + k, rs[k])
    decreases |rs|
  {
    if |rs| == 0 then []
    else
      var head := RecordBlock(first, rs[0]);
      var tail := RecordBlocks(first + 1, rs[1..]);
      var lines := head + tail;
      assert lines[..BlockSize] == head;
      assert forall k :: 1 <= k < |rs| ==>
               lines[BlockSize * k .. BlockSize * k + BlockSize]
               == tail[BlockSize * (k - 1) .. BlockSize * (k - 1) + BlockSize];
      lines
  }

  /** The count banner. */
  function Banner(total: string): string
  {
    "Found " + total + " total results"
  }

  /** Everything `format_scopus_results` prints for an outcome. A malformed
      response prints nothing before the formatter raises; an incomplete
      listing prints the banner and the records before the item it raised on. */
  function Render(o: Outcome): (lines: seq<string>)
    ensures o.NoResults? ==> lines == [NoResultsMessage]
    ensures o.Malformed? ==> lines == []
    ensures o.Listing? && o.records == [] && o.complete ==> lines == [Banner(o.total), NoArticlesMessage]
    ensures o.Listing? && o.records == [] && !o.complete ==> lines == [Banner(o.total)]
    ensures o.Listing? && (o.records != [] || !o.complete) ==>
              && |lines| == 1 + BlockSize * |o.records|
              && lines[0] == Banner(o.total)
              && forall k :: 0 <= k < |o.records| ==>
                   lines[1 + BlockSize * k .. 1 + BlockSize * k + BlockSize] == RecordBlock(k + 1, o.records[k])
  {
    match o
    case NoResults => [NoResultsMessage]
    case Malformed => []
    case Listing(total, records, complete) =>
      if records == [] && complete then [Banner(total), NoArticlesMessage]
      else
        var blocks := RecordBlocks(1, records);
        var lines := [Banner(total)] + blocks;
        assert forall k :: 0 <= k < |records| ==>
                 lines[1 + BlockSize * k .. 1 + BlockSize * k + BlockSize]
                 == blocks[BlockSize * k .. BlockSize * k + BlockSize];
        lines
  }

  /** Record `i` (1-based) is printed with number `i` and comes from entry
      `i - 1`: its title line reads back as `i` and carries that entry's
      title or the fallback. */
  lemma NumberingFollowsEntries(d: Response, i: nat)
    requires SearchResultsKey in d && d[SearchResultsKey].Object?
    requires 1 <= i <= |Entries(d[SearchResultsKey].container)|
    requires forall j :: 0 <= j < i ==> Entries(d[SearchResultsKey].container)[j].EntryObject?
    ensures var lines := Render(Normalize(Some(d)));
            var line := lines[1 + BlockSize * (i - 1)];
            && ParseIndex(line) == Some(i)
            && line == TitleLine(i, ToRecord(Entries(d[SearchResultsKey].container)[i - 1].fields).title)
  {
    var o := Normalize(Some(d));
    var block := Render(o)[1 + BlockSize * (i - 1) .. 1 + BlockSize * (i - 1) + BlockSize];
    assert block == RecordBlock(i, o.records[i - 1]);
    assert Render(o)[1 + BlockSize * (i - 1)] == block[0];
  }
}
