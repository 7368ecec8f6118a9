# BiblioScope response handling, in Dafny

BiblioScope is a command-line client for the Elsevier Scopus search API. Its
only decision logic sits in two methods of the `BiblioScope` class:

- `search_scopus` caps the caller's `count` at 200 before sending it. When
  the HTTP request fails, it turns the failure into an empty dictionary.
- `format_scopus_results` reads the semi-structured JSON response. It
  decides between "no results or invalid response", a total with "no
  articles to display", and a numbered list of records. Each record has a
  title, author, journal, year and DOI, with fixed fallback strings.

The model makes both methods pure, total functions.

- `ScopusRequest` holds the count cap (`CapCount`, `BuildParams`). It also
  holds `SearchScopus`, which takes the HTTP layer's result as an input
  (`Reply`: a parsed body, or a failure with its message).
- `ScopusResponse` holds the response shapes and `Normalize`, which yields
  an `Outcome`: `NoResults`, `Malformed` or `Listing(total, records)`.
  - A response is a map from top-level keys to values.
  - The `search-results` container is read through its two optional keys,
    `opensearch:totalResults` and `entry`.
  - An item of `entry` is either an object, seen as a map from string keys
    to string values, or something else.
- `ScopusRender` gives the lines printed for an outcome, one string per
  `print` call. It proves that the printed record numbers read back as
  1-based entry positions.
- `Session` composes the two methods as the command's `main` does.

These behaviours of the code are easy to misread, and the model keeps them:

- The count is only capped from above (`min(count, 200)`). Zero and
  negative counts are sent unchanged. No lower clamp to 1 exists.
- Normalisation can fail. When `search-results` holds something other than
  a JSON object, `results.get` raises `AttributeError`. The model reports
  this as the `Malformed` outcome. When an item of `entry` is not an
  object, `entry.get` raises after the records before it have been
  printed. The model reports this as a listing that is not `complete`.
  `Session.Run` reports both cases as `raised`.
- The "no results" path prints no total at all. It does not report a total
  of "0".
- The year is any prefix of up to four characters of a non-empty cover
  date, not necessarily four digits. The `'No date'` default at line 69 is
  never used, because the truthiness guard already excludes a missing or
  empty date.
- No DOI, title or author query modes exist in the code. The command takes
  a query and `--count` only.

## Model

| member | source | states |
|---|---|---|
| ScopusRequest.CapCount | biblioscope.py:34 | the count sent is never above 200, never above the caller's count, and is one of the two; so counts of 200 or less, including zero and negatives, pass unchanged |
| ScopusRequest.CapCountIdempotent | biblioscope.py:34 | capping an already capped count changes nothing |
| ScopusRequest.CapCountMonotone | biblioscope.py:34 | a larger requested count never yields a smaller sent count |
| ScopusRequest.BuildParams | biblioscope.py:32-35 | the query is sent verbatim; the count is the caller's when at most 200 and exactly 200 otherwise |
| ScopusRequest.SearchScopus | biblioscope.py:30-49 | a delivered body reaches the caller untouched with nothing printed; a request failure prints one error line carrying the cause and yields `{}`; the query is sent verbatim with the count unchanged when at most 200 and exactly 200 otherwise |
| ScopusRequest.FailureNormalizesToNoResults | biblioscope.py:47-54 | whatever the query and count, a failed request ends in the "no results or invalid response" outcome, not an error |
| ScopusResponse.Prefix | biblioscope.py:69 | slicing `s[:n]` never fails: the result has length min(n, \|s\|) and agrees with `s` position by position |
| ScopusResponse.Year | biblioscope.py:69 | the year is "Unknown" exactly when the cover date is absent or empty; otherwise it is a prefix of the date of length min(4, \|date\|); it is never longer than 7 characters |
| ScopusResponse.ToRecord | biblioscope.py:66-70 | title, author, journal and DOI equal the entry's value whenever the key is present, even when the value is empty, and take their fallback strings only when the key is absent; the year is as `Year` says |
| ScopusResponse.ToRecords | biblioscope.py:65-70 | record i is built from item i, in order, for every item up to the first one that is not an object; the loop stops exactly there, or covers all items when every one is an object |
| ScopusResponse.Normalize | biblioscope.py:50-70 | "no results" exactly when the body is null or lacks `search-results` (an empty body included); "malformed" exactly when `search-results` is not an object; otherwise a listing whose total is the stated one or "0", with one record per item in item order up to the first item that is not an object, and none when `entry` is absent or empty; the listing is complete exactly when every item produced a record |
| ScopusResponse.EmptyBodyIsNoResults | biblioscope.py:47-54 | the `{}` a failed request returns, and a null body, both normalise to "no results" |
| ScopusResponse.ToRecordsAppend | biblioscope.py:65 | splitting the item list splits the record list at the same place, unless the loop already stops inside the first part, in which case the rest contributes nothing |
| ScopusResponse.ToRecordIgnoresOtherKeys | biblioscope.py:66-70 | an entry key other than the five the formatter reads never changes the record |
| ScopusResponse.NormalizeIgnoresOtherKeys | biblioscope.py:52-57 | a top-level key other than `search-results` never changes the outcome, even on an otherwise empty body |
| ScopusResponse.BareEntryIsAllFallbacks | biblioscope.py:66-70 | an entry with none of the five keys yields the all-fallback record, year "Unknown" |
| ScopusRender.NatToString | biblioscope.py:72 | the printed record number is a non-empty string of decimal digits without a leading zero, whose value is the number |
| ScopusRender.TitleLineIndexRoundTrip | biblioscope.py:72 | the number on a title line reads back as that number, whatever the title contains |
| ScopusRender.RecordBlock | biblioscope.py:72-76 | a record prints as five lines: a title line `[i] ` followed by exactly the title, whose number reads back as the index; an author line and a DOI line from which the field is recovered after its label; a journal line made of the label, the journal, ` (`, the year and `)` with nothing else; and a blank line |
| ScopusRender.RecordBlocks | biblioscope.py:65-76 | the blocks of consecutive records are laid end to end, five lines each, numbered consecutively |
| ScopusRender.Render | biblioscope.py:52-76 | "no results" prints one message; "malformed" prints nothing; a complete empty listing prints the banner then "No articles to display"; otherwise the banner followed by block k numbered k+1 for each record produced, and for a listing cut short nothing after the last of them |
| ScopusRender.NumberingFollowsEntries | biblioscope.py:65-72 | when the first i items are objects, the i-th printed record (1-based) carries number i, which reads back from its line, and the title of item i-1 or its fallback |
| Session.Run | biblioscope.py:173-175 | the count sent is the caller's when at most 200 and exactly 200 otherwise; a request failure prints the error line and then the "no results" message and never raises; a delivered body prints what the formatter renders for it; the run raises exactly when `search-results` is not an object or the listing stopped at an item that is not an object |

## Left out

- HTTP transport (`requests.get`, headers, 30-second timeout, `raise_for_status`, biblioscope.py:37-45): network I/O. Its result is the `Reply` input, and the cause of a failure is an opaque string.
- API-key loading and process exit (`load_dotenv`, `os.getenv`, `sys.exit`, biblioscope.py:78-88 and 135-145): environment side effects with no logic of their own.
- Argument parsing and the two progress lines printed by `main` (biblioscope.py:146-171): command-line plumbing. `Session.Run` starts from the parsed query and count.
- The first `main` and the `format_scopus_results` nested inside it (biblioscope.py:90-133): dead code. The later `main` redefinition shadows it, and the nested function is never called.
- The unused `sciencedirect` and `author` endpoints (biblioscope.py:22-23).
- test_biblioscope.py: a subprocess harness that checks exit codes only. Its `--title`, `--doi` and `--author` flags do not exist in the parser.
- ScopusRender.Render: the banner is rendered as "Found N total results". The emoji and the blank lines around it are left out.
- JSON shapes outside the modelled ones: a top-level body that is not an object or null, a non-string total, an `entry` that is not a list, and fields of an entry object, read by the formatter, that are not strings. On most of these the code raises or prints a Python representation. The model's types exclude them.
- The total is kept as the provider's string. The model does not parse it or check it against the number of entries.
